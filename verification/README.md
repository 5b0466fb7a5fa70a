# A verified model of Knitfab's graphs, matching and loops

Knitfab runs machine-learning tasks on Kubernetes and records which data came from which run. A *plan*
describes a container with input and output mountpoints, each with tags; a *run* is one execution of a plan;
a *data* is the content of an output, with tags of its own. Data whose tags cover the tags of an input are
*nominated* for it, and this is how new runs come about. The command line tool draws what led to a data
(lineage) and how plans feed each other (plan graph).

This project models the parts of that system in which a fast, incremental or lazy form has to agree with a
simple one, and proves that it does.

| part | files |
|---|---|
| Lineage and plan graphs, drawn lazily as nodes arrive | `KnitGraph`, `LazyEdges`, `Lineage`, `LineageTask`, `LineageLinks`, `PlanGraph`, `PlanEdges`, `PlanTrace`, on `OrderedMaps`, `Depths`, `Reachability` |
| Tags and nomination | `TagStore`, `CountingJoins`, `Nomination`, `Upkeep` |
| The database and its transactions | `Ledgers`, `Runs`, `RunOutputs`, `RunChanges`, `Mountpoints`, `PlanCycles`, `Registration`, `Orders`, `Stamps`, `Outcomes`, `Projection`, `Database` |
| Queries on the tables | `PlanQueries`, `DataFind`, `DataBodies`, `PlanDetails`, `PlanRelations`, `RunDetails`, `RunRelations` |
| Plan validation, canonical order and hash | `TagSets`, `Paths`, `PlanParams`, `PlanSpecs`, `PlanHash`, `HashParts`, `AcceptedPlans`, on `Strings`, `Sorting` |
| Greedy matching of slices | `Matching` |
| The housekeeping loop | `Recurring`, `Cyclic`, `Housekeeping`, `Turns` |
| Garbage collection of volumes | `GarbageProtocol`, `GarbageCollection` |
| File walk, archive and products | `FileTrees`, `FileLoops`, `Archive`, `FollowedWalks`, `TarProgress`, `Products`, `Cartesian` |
| Instances that meet the premises of the main results | `Examples`, `FirstRun` |

`dafny verify dfyconfig.toml` checks everything.

## How to read it

* Code that works in steps is a class or a method with the same fields, branches and error exits; its
  `ensures` ties it to a function or predicate, and the lemmas are about that. Each SQL statement is a
  function from the tables it reads to the tables it leaves. A transaction computes on values what it would
  leave, and `Database.KnitDatabase` commits that at once or not at all.
* Go's map iteration order is an arbitrary choice from what has not been visited. Regular expressions, time
  parsing, path cleaning, white space trimming, hashing and formatting are function parameters. Clocks, pods,
  failures, generated ids, other workers and the order of arrivals are inputs, and the results hold for all of
  them.
* Strings are compared by code point, which is also how Go and a database with the C collation order UTF-8.

## Main results

1. **Graphs.** In whatever order distinct data and runs with mutually mirrored details arrive, each declared link
   with both ends present is drawn as often as declared, and each with one end present is parked in exactly one
   thunk table (`LazyEdges.BuildInv`); mirroring is also necessary (`LazyEdges.OrderMattersIffUnmirrored`). The
   search ends, because a non-empty frontier means that a run was added, and on an acyclic universe the two
   passes together draw exactly the induced subgraph (`LineageTask.LineageIsInducedSubgraph`), which is told by the
   links of runs alone (`LineageLinks.LineageIsLinked`): upwards to the makers of all inputs of a run, and downwards
   to the runs that take what it makes, each direction the converse of the other. The same for plans
   (`PlanEdges.BuildPlansInv`, `PlanTrace.PlanGraphIsInducedSubgraph`).
2. **Nomination.** The counting joins compute tag inclusion (`Nomination.CountingIsSubset`), so nominating from the
   data side or from the input side is the same (`Nomination.AllDataOrAllInputs`).
3. **The database.** `Database.KnitDatabase.Valid` holds for the empty database and is kept by every transaction:
   tag updates, registration, activation, projection, status changes, finishing, deletion and retry of runs,
   workers, agents and garbage. It says that

   * `nomination` is the full match relation of inputs and done data,
   * plans depend on each other without cycles, which is what ends the search of `Register`, a search without
     memory (`PlanCycles.DependencyIsCyclic`),
   * runs use data of runs before them,
   * every combination of settled nominations of a plan has a run, and no two runs have the same one
     (`Projection.New`), so that once nothing is flagged any more each choice of matching data has exactly one run
     (`Projection.EveryCombinationHasOneRun`). Deleted runs whose inputs exist keep a row for this reason,
   * data have a timestamp exactly when their run is over, and every run that is not invalidated has exactly one
     data for each output of its plan.

   `FirstRun.UploadAndRun` goes from the empty database to a nominated data and on to the run that uses it.
4. **From tables to graphs.** The details that the API puts together from one set of tables are mirrored, closed
   and acyclic, for plans (`PlanDetails.GetPlans`) and for data and runs (`RunDetails.ServedIsTraceable`), which
   are the premises of the results on graphs. So the plan graph command shows exactly the plans that depend on the
   given one, or that it depends on, within the depth, and draws each output and input of these of which one feeds
   the other, once (`PlanRelations.DrawPlans`). The lineage command shows exactly the runs that the data came from or
   went into, told by assignments and the runs that data belong to, with all data of these, and draws each of these
   rows once (`RunRelations.DrawLineage`).
5. **Queries.** `Find` returns exactly the data whose linked user tags contain those asked for and whose rows answer
   the system tags asked for (`DataFind.Find`), and within them those of the window asked for
   (`DataFind.WindowNarrows`). The two plan queries are converse (`PlanQueries.QueriesAreConverse`).
6. **Plans.** `PlanSpecs.PlanSpec.ValidateOnce` accepts exactly the acceptable specs, which `PlanSpecs.AcceptedExactly`
   tells in one list about the spec as it is given; accepted mountpoints are
   never inside each other; of an accepted spec the tables refuse nothing but a timestamp that cannot be parsed
   (`AcceptedPlans.AcceptedIsRegistrable`), and its inputs come to require what the normal form of their tags
   says (`AcceptedPlans.RequiredOfSpec`); accepted specs that mean the same are hashed from the same text
   (`PlanHash.SameSpecSameHashInput`), and no part of a spec is left out of that text (`HashParts`).
7. **Matching.** The greedy comparison of slices is complete for all inputs if and only if its predicate is
   rectangular, which equivalences are (`Matching.OrderDoesNotMatterIffRectangular`,
   `Matching.FirstFitIsCompleteIffRectangular`).
8. **Housekeeping.** Fair under any clock and any failures (`Turns.EveryOtherHasItsTurn`) and complete under
   Backlog (`Turns.BacklogSweepsAll`): a due agent is gone afterwards if and only if its pod is missing, or is over and
   was closed without error.
9. **Garbage.** Over all runs of any number of workers with failures and crashes anywhere, a record leaves only
   after its volume (`GarbageProtocol.RemovedOnlyAfterVolume`), and the code of a worker among others keeps to
   the protocol (`GarbageCollection.System.Pop`).
10. **Walks and products.** Following links ends with the loop error if and only if there is a loop
    (`FileLoops.LoopReportedIffLoop`), and else visits each path that opens a file, once and as the file that it opens
    (`FollowedWalks.FollowedWalkVisitsEachOnce`). Over all interleavings of the two goroutines of `GoTar`, no error and no panic
    mean that all files have been written (`TarProgress.NoErrorMeansWritten`). The enumerations are exactly the
    products.

### Where a promise needs a condition

Each of these promises fails on some input, which is given, and holds if and only if the condition does.

| promise | condition | input that fails |
|---|---|---|
| `Find` answers by the tags that `GetDataBody` rebuilds, for queries without knit#timestamp | every other system tag linked to a data is one its row derives (`DataFind.FindsAnswersIffOwnTags`) | a data that a user has labelled with another knit#id (`FirstRun.Mislabel`) |
| what a data is nominated for is included in the tags that `GetDataBody` rebuilds | no linked system tag says what the row could but does not, and no other time prints as the data's (`DataBodies.InclusionsAgreeIffUnambiguous`) | the same data |
| `GetDataBody` returns all tags of the body | no two of them share a class (`DataBodies.BodyOfMeans`) | two timestamps in one microsecond |
| `Normalize` drops timestamps of one instant, as documented | no two different instants share a microsecond (`TagSets.NormalIsByInstantIffMicroseconds`) | `TagSets.OneOfTwoInstantsIsLost` |
| `pathOverlap` rejects only nested mountpoints | neither path goes on within the last component of the other (`Paths.NoFalseRejectionIffNeitherRunsOn`) | `Paths.SiblingsRunOn` |
| picks of one agent are a debounce apart | the transaction of the first took effect (`Turns.DebouncedIffApplied`) | `Turns.FailedPicksAreNotDebounced` |
| a volume's name can be used again without a leak | no worker is about to commit the removal of a record that names it (`GarbageProtocol.LeaksIffAboutToGo`) | `GarbageProtocol.AboutToGoIsReached` |
| the progress of `GoTar` shows an error when archiving has failed | the walk did not panic, and closing did not fail after all files, or else an error of the estimate stays (`TarProgress.FailureIsLostIff`) | `TarProgress.OnePanicIsLost`, `TarProgress.OneCloseFaultIsLost` |
| the progress of `GoTar` shows the error of the estimate | archiving ended its walk before it, or did not go through all files, or panicked (`TarProgress.EstimateErrorIsLostIff`) | `TarProgress.OneEstimateErrorIsLost` |

## Model

| member | source | states |
|---|---|---|
| `OrderedMaps.OrderedMap.Set` | pkg/utils/maps/ordered.go:26-31 | a new key goes last, a known one keeps its place; key list and map stay in step |
| `OrderedMaps.SetKnown` | pkg/utils/maps/ordered.go:26-31 | a known key keeps its place, and all others their values |
| `OrderedMaps.OrderedMap.Get` | pkg/utils/maps/ordered.go:33-36 | finds exactly the keys in the key list |
| `OrderedMaps.OrderedMap.Delete` | pkg/utils/maps/ordered.go:50-58 | the key is gone from both, all others keep their order and value |
| `OrderedMaps.WithoutIsDifference` | pkg/utils/maps/ordered.go:50-58 | removing from the key list is removing from the key set, and leaves no duplicates |
| `OrderedMaps.DeleteThenSetMovesToEnd` | pkg/utils/maps/ordered.go:26-58 | a key deleted and set again stands after every survivor |
| `Reachability.WithinIffPath` | cmd/knit/subcommands/data/lineage/command.go:212-233 | being within n rounds of the search is having a path of at most n hops |
| `Reachability.LayerStep` | cmd/knit/subcommands/data/lineage/command.go:222-231 | looking only at the newest layer finds everything one hop further |
| `Reachability.EmptyLayerIsFinal` | cmd/knit/subcommands/data/lineage/command.go:222-231 | once the frontier is empty, no greater depth finds more |
| `KnitGraph.DirectedGraph.AddDataNode` | cmd/knit/knitgraph/graph.go:97-150 | node, fired thunks and newly parked thunks are those of the specification |
| `KnitGraph.DirectedGraph.AddRunNode` | cmd/knit/knitgraph/graph.go:304-367 | the same for a run, with a root node and its edge if the run has no inputs |
| `LazyEdges.AddDataInv` | cmd/knit/knitgraph/graph.go:97-150 | adding a data keeps: drawn as declared with both ends present, parked in exactly one table with one end present, roots match input-less runs |
| `LazyEdges.AddRunInv` | cmd/knit/knitgraph/graph.go:304-367 | adding a run keeps the same |
| `LazyEdges.BuildInv` | cmd/knit/knitgraph/graph.go:97-367 | the same after any arrivals of distinct nodes in any order |
| `LazyEdges.OrderDoesNotMatter` | cmd/knit/knitgraph/graph.go:97-367 | two orders of the same arrivals draw every link equally often |
| `LazyEdges.OrderMattersIffUnmirrored` | cmd/knit/knitgraph/graph.go:113-148 | for a link of two nodes, both orders agree if and only if the two details declare it equally often |
| `Lineage.EnsureData` | cmd/knit/subcommands/data/lineage/command.go:258-282 | fetches and adds a data unless it is there; only a new entry is emphasized |
| `Lineage.AddEdgeFromRunToLog` | cmd/knit/subcommands/data/lineage/command.go:185-209 | the log data, if any, is in the graph and nothing else is added |
| `Lineage.VisitRunDownstream` | cmd/knit/subcommands/data/lineage/command.go:283-338 | one run and all it touches are added; next are its outputs and log |
| `Lineage.VisitRunUpstream` | cmd/knit/subcommands/data/lineage/command.go:411-457 | one run and all it touches are added; next are its inputs |
| `Lineage.TraceForSingleNode` | cmd/knit/subcommands/data/lineage/command.go:258-338 | the data's next runs are added exactly, and the frontier is what they lead to |
| `Lineage.TraceOneStep` | cmd/knit/subcommands/data/lineage/command.go:235-256 | the same for a list of data |
| `Lineage.Trace` | cmd/knit/subcommands/data/lineage/command.go:212-233 | for any depth or all: exactly the runs within that many hops are added, no error on a closed universe, and the loop ends |
| `Lineage.StepGrows` | cmd/knit/subcommands/data/lineage/command.go:341-362 | a non-empty next frontier means that a run of the finite universe has been added |
| `Depths.DepthsMean` | pkg/utils/args/depth.go:29-60 | only zero is zero, "all" never ends, and counting down stops at zero |
| `LineageTask.Task` | cmd/knit/subcommands/data/lineage/command.go:131-177 | depth zero is a usage error; otherwise the graph shows the ancestors, then the descendants not drawn yet, and all they touch |
| `LineageTask.PassesDoNotInterfere` | cmd/knit/subcommands/data/lineage/command.go:155-171 | on an acyclic universe the upstream pass hides nothing from the downstream pass |
| `LineageTask.LineageIsInducedSubgraph` | cmd/knit/subcommands/data/lineage/command.go:131-177 | nodes are exactly root, ancestors, descendants and what they touch; edges are exactly the declared links among them |
| `LineageLinks.HopsAreLinks` | cmd/knit/subcommands/data/lineage/command.go:352-457 | from a run, the search goes on to exactly the runs that make something it takes, whichever input that is, or that take something it makes |
| `LineageLinks.DirectionsAreConverse` | cmd/knit/subcommands/data/lineage/command.go:352-457 | a run is one hop upstream of another iff that one is one hop downstream of it, and iff it makes what the other takes |
| `LineageLinks.LineageIsLinked` | cmd/knit/subcommands/data/lineage/command.go:131-177 | runs and data shown, told by the links that runs declare and by nothing else of the search |
| `PlanGraph.PlanDirectedGraph.AddPlanNode` | cmd/knit/knitgraph/graph.go:152-302 | node, fired thunks and newly parked thunks are those of the specification |
| `PlanEdges.AddPlanInv` | cmd/knit/knitgraph/graph.go:152-302 | adding a plan keeps: links between two present plans drawn as declared, links with one end present parked in one slot |
| `PlanEdges.BuildPlansInv` | cmd/knit/knitgraph/graph.go:152-302 | the same after any arrivals of distinct plans in any order |
| `PlanTrace.VisitNext` | cmd/knit/subcommands/plan/graph/command.go:199-216 | exactly the unknown plans are fetched, added and returned |
| `PlanTrace.Traverse` | cmd/knit/subcommands/plan/graph/command.go:183-220 | exactly the plans within the depth are added, for finite depths and for all; the loop ends |
| `PlanTrace.MakeGraph` | cmd/knit/subcommands/plan/graph/command.go:126-181 | on any graph: the root, then what is upstream and not drawn yet, then what is downstream and not drawn yet; the root is the only new node emphasized; a graph of distinct plans without the root stays one |
| `PlanTrace.Task` | cmd/knit/subcommands/plan/graph/command.go:66-112 | from its own empty graph: depth zero is a usage error; on a closed, acyclic, mirrored universe the root and the plans within the depth in each direction, with exactly the declared links |
| `PlanTrace.PlanGraphIsInducedSubgraph` | cmd/knit/subcommands/plan/graph/command.go:126-220 | on an acyclic mirrored universe: exactly the plans within the depth, exactly the declared pairs among them |
| `TagStore.InternTagExtends` | pkg/domain/data/db/postgres/data.go:445-512 | interning keeps ids and tags one to one, and keeps every tag an id had |
| `TagStore.AddTagReadsBack` | pkg/domain/data/db/postgres/data.go:445-512 | the tags read back are the old ones and the new one; all other data and mountpoints read back as before |
| `TagStore.RemoveTagsReadsBack` | pkg/domain/data/db/postgres/data.go:514-565 | the tags read back are the old ones without the pairs and keys removed; all others as before |
| `TagStore.AddInputTagReadsBack` | pkg/domain/plan/db/postgres/plan.go:432-515 | the same as adding, for an input |
| `CountingJoins.MatchedPairsMeans` | pkg/domain/nomination/db/postgres/nominator.go:82-103 | equal counts of joined rows decide inclusion of tag sets; an id without rows matches nothing |
| `Nomination.CountingIsSubset` | pkg/domain/nomination/db/postgres/nominator.go:55-139 | the counting joins, with the left joins for system tags, find exactly the done data that have, linked or by their rows, all tags of a non-empty input |
| `Nomination.NominateDataEffect` | pkg/domain/nomination/db/postgres/nominator.go:44-146 | for the data nominated the table becomes the match relation, for others it stays; surviving pairs keep their flag, new ones have it set |
| `Nomination.NominateMountpointsEffect` | pkg/domain/nomination/db/postgres/nominator.go:148-256 | the same from the side of the inputs |
| `Nomination.AllDataIsExact` | pkg/domain/nomination/db/postgres/nominator.go:44-146 | nominating all data gives the full match relation from any table |
| `Nomination.AllDataOrAllInputs` | pkg/domain/nomination/db/postgres/nominator.go:44-256 | nominating all data or all inputs gives the same table |
| `Upkeep.NominateChanged` | pkg/domain/nomination/db/postgres/nominator.go:44-146 | if nothing but some data may have changed, nominating these restores exactness |
| `Upkeep.NominateNewInputs` | pkg/domain/nomination/db/postgres/nominator.go:148-256 | if nothing but some inputs may have changed, nominating these restores exactness |
| `Runs.Finish` | pkg/domain/run/db/postgres/run.go:395-473 | a completing run is done, its data are stamped and nominated; an aborting one has failed; a second timestamp is an error; exactness and references kept |
| `Runs.FinishedMeans` | pkg/domain/run/db/postgres/run.go:395-473 | data of the run get the time of finishing, no others; done iff it was completing |
| `Runs.Truncate` | pkg/domain/run/db/postgres/run.go:1351-1501 | refused iff a worker, an agent or a run that is not invalidated needs the data; else data, tags, timestamps, nominations and invalidated users are gone and volumes are garbage; exactness and references kept |
| `Runs.TruncatedMeans` | pkg/domain/run/db/postgres/run.go:1351-1501 | exactly the run's data go, with tags, timestamps and nominations, and their volumes become garbage |
| `Runs.TruncatedRuns` | pkg/domain/run/db/postgres/run.go:1351-1501 | exactly the invalidated runs that used these data go, with their assignments |
| `RunOutputs.ComplementData` | pkg/domain/run/db/postgres/run.go:746-829 | no output is without data afterwards; new data are the run's and carry the tags of their outputs; all else as before; fails only on an id in use |
| `RunOutputs.WithDataMade` | pkg/domain/run/db/postgres/run.go:746-829 | a run gets one data for an output at most, and only for outputs of its plan |
| `RunChanges.SetStatus` | pkg/domain/run/db/postgres/run.go:849-981 | the transition table, with every outcome; exactness kept |
| `Database.PossibleMeans` | pkg/domain/run/db/postgres/run.go:849-981 | what is over stays; a run ends as it was going to; before, it can be aborted; scheduled runs only go on; others go one stage at a time and can be held back |
| `RunChanges.Activate` | pkg/domain/plan/db/postgres/plan.go:136-224 | succeeds iff the plan has an image; exactness kept |
| `RunChanges.ReactivatedMeans` | pkg/domain/run.go:122-128 | switching a plan on lets its held back runs wait, off holds waiting runs back; afterwards they can be scheduled iff the plan is active; no other run changes |
| `RunChanges.Register` | pkg/domain/run/db/postgres/run.go:619-717 | with fresh ids, succeeds iff run and assignments fit the plan; the run starts with data for all outputs; exactness kept |
| `RunChanges.RegisteredStarts` | pkg/domain/run/db/postgres/run.go:640-660 | a run of an active plan waits, of an inactive one is held back, and can be scheduled once the plan is activated; a pseudo plan's run is running |
| `RunChanges.NewPseudo` | pkg/domain/run/db/postgres/run.go:89-137 | the same without inputs, for pseudo plans only |
| `RunChanges.Project` | pkg/domain/run/db/postgres/run.go:309-378 | nothing if a run with these assignments is known, else a registered run with a worker |
| `RunChanges.Delete` | pkg/domain/run/db/postgres/run.go:1118-1178 | succeeds iff the run can be truncated and is at rest; runs that used data stay as invalidated rows, others go |
| `RunChanges.CanTruncateMeans` | pkg/domain/run/db/postgres/run.go:1351-1501 | told by rows: no worker, no agent on its data, no run that uses them but invalidated ones |
| `RunChanges.DeletedMeans` | pkg/domain/run/db/postgres/run.go:1118-1178 | the row stays, invalidated, iff the run used data; no other run changes |
| `RunChanges.Retry` | pkg/domain/run/db/postgres/run.go:1237-1313 | with fresh ids, succeeds iff the run can be truncated, is over and has an image; it waits with new data and a worker |
| `RunChanges.RetriedMeans` | pkg/domain/run/db/postgres/run.go:1237-1313 | the run waits with a worker, without timestamps of its own; no other run changes |
| `Mountpoints.RouteMeans` | pkg/domain/plan/db/postgres/plan.go:445-511 | a tag is routed iff it can be required and no other one of its reserved key is there; then it is required too, and nothing else changes |
| `Mountpoints.RequiredMeans` | pkg/domain/plan/db/postgres/plan.go:445-511 | ids, times in microseconds and user tags are required as the tags say, and nothing else |
| `Mountpoints.RegistrableMeans` | pkg/domain/plan/db/postgres/plan.go:445-511 | tags are accepted iff reserved ones are ids or times that can be parsed, and none comes twice |
| `Mountpoints.InsertInput` | pkg/domain/plan/db/postgres/plan.go:432-515 | succeeds iff all tags can be required and no reserved key comes twice; a fresh input requires exactly them; all other inputs and data as before |
| `Mountpoints.InsertOutput` | pkg/domain/plan/db/postgres/plan.go:527-596 | succeeds iff there is no system tag; a fresh output has exactly the tags; all others as before |
| `Registration.InsertRows` | pkg/domain/plan/db/postgres/plan.go:598-629 | succeeds iff all mountpoints can be inserted; each has its tags, and old mountpoints are as before |
| `Registration.RegisterPlan` | pkg/domain/plan/db/postgres/plan.go:55-112 | accepts what is not equivalent to a known plan, can be inserted and closes no cycle; old pairs and flags stay; exactness and acyclicity kept |
| `PlanCycles.DependantsMean` | pkg/domain/plan/db/postgres/plan.go:755-835 | the counting query finds exactly the plans with an input that some output of the given plans feeds |
| `PlanCycles.DependencyIsCyclic` | pkg/domain/plan/db/postgres/plan.go:729-850 | where the other plans have no cycle, the search ends; it reports a cycle iff the plan depends on itself, iff the plans are no longer acyclic |
| `PlanCycles.CycleIsCyclic` | pkg/domain/plan/db/postgres/plan.go:729-850 | a plan on a cycle cannot be ranked below what depends on it |
| `PlanCycles.ClosedIsAcyclic` | pkg/domain/plan/db/postgres/plan.go:837-850 | if a set holds all that depends on the plan and not the plan itself, all plans can be ranked |
| `AcceptedPlans.AcceptedIsRegistrable` | pkg/domain/plan/db/postgres/plan.go:432-596 | the mountpoints of an accepted spec can be inserted iff each knit#timestamp in the normal forms can be parsed |
| `AcceptedPlans.RequiredOfSpec` | pkg/domain/plan/db/postgres/plan.go:445-511 | a registered input requires exactly what the normal form of its tags says |
| `AcceptedPlans.OutputsOfSpec` | pkg/domain/plan/db/postgres/plan.go:527-596 | registered outputs and the log have exactly the tags of their normal forms |
| `Orders.RegisteredOrderly` | pkg/domain/run/db/postgres/run.go:346-371 | a run that is registered only when its assignments are not known keeps: no two runs of a plan have the same assignments, runs use data of runs before them |
| `Orders.RetriedOrderly` | pkg/domain/run/db/postgres/run.go:1237-1313 | retrying keeps the same |
| `Orders.DeletedOrderly` | pkg/domain/run/db/postgres/run.go:1118-1178 | deleting keeps the same |
| `Stamps.FinishIsFree` | pkg/domain/run/db/postgres/run.go:425-446 | finishing never meets a timestamp that is there |
| `Outcomes.RetriedComplete` | pkg/domain/run/db/postgres/run.go:1237-1313 | after a retry every run that is not invalidated still has data for all outputs of its plan |
| `Projection.TruncatedAllRun` | pkg/domain/run/db/postgres/run.go:1371-1400 | invalidated runs that go with the data they used are the run of no combination that is left |
| `Projection.DeletedAllRun` | pkg/domain/run/db/postgres/run.go:1150-1175 | deleting a run takes no combination its run, because runs that used data keep their row |
| `Projection.New` | pkg/domain/run/db/postgres/run.go:139-378 | new runs have workers, and wait iff the plan is active; one round keeps: every combination of settled pairs has a run; only the trigger's flag changes; new runs use the trigger and settled data; it ends without work iff no pair is flagged, and fails only on an id in use |
| `Projection.EveryCombinationHasOneRun` | pkg/domain/run/db/postgres/run.go:139-378 | once no pair of a plan is flagged, every choice of matching data for its inputs has exactly one run |
| `Database.KnitDatabase.constructor` | db/postgres/schema/versions/1/00-ddl.pg.sql:16-31 | empty tables are valid |
| `Database.ChangeTags` | pkg/domain/data/db/postgres/data.go:445-565 | removal first, then addition, with interning kept |
| `Database.UpdatedMeans` | pkg/domain/data/db/postgres/data.go:425-443 | what is added is there in any case, what is removed only if added again, all else as before |
| `Database.KnitDatabase.UpdateTag` | pkg/domain/data/db/postgres/data.go:425-443 | fails iff tags are added to a missing data; reads back (old without removed pairs and keys) and added; other data untouched; validity kept |
| `Database.KnitDatabase.Finish` | pkg/domain/run/db/postgres/run.go:475-520 | succeeds iff the run is completing or aborting; an error changes nothing; validity kept |
| `Database.KnitDatabase.SetStatus` | pkg/domain/run/db/postgres/run.go:831-847 | succeeds iff the transition is in the table or settles the run; validity kept |
| `Database.KnitDatabase.Activate` | pkg/domain/plan/db/postgres/plan.go:114-134 | succeeds iff the plan has an image; validity kept |
| `Database.KnitDatabase.RegisterPlan` | pkg/domain/plan/db/postgres/plan.go:55-112 | an error changes nothing, and for a new plan that can be inserted it is a cycle; validity kept |
| `Database.KnitDatabase.AddPseudoPlan` | db/postgres/schema/versions/1/10-pseudo-plan-uploaded.pg.sql:3-18 | a plan with one output and no inputs; validity kept |
| `Database.KnitDatabase.NewPseudo` | pkg/domain/run/db/postgres/run.go:89-137 | with fresh ids, succeeds iff it fits; validity kept |
| `Database.KnitDatabase.New` | pkg/domain/run/db/postgres/run.go:139-282 | a round of the projection loop, or nothing; validity kept |
| `Database.KnitDatabase.Delete` | pkg/domain/run/db/postgres/run.go:1193-1214 | succeeds iff the run can be truncated and is at rest; an error changes nothing; validity kept |
| `Database.KnitDatabase.Retry` | pkg/domain/run/db/postgres/run.go:1237-1313 | with fresh ids, succeeds iff the run can be truncated, is over and has an image; an error changes nothing; validity kept |
| `Database.KnitDatabase.NewAgent` | pkg/domain/data/db/postgres/data.go:567-616 | succeeds iff the data is there and the name is free; validity kept |
| `FirstRun.UploadAndRun` | pkg/domain/run/db/postgres/run.go:89-378 | from the empty database to a nominated data and the run that uses it, which waits with a worker |
| `FirstRun.Mislabel` | pkg/domain/data/db/postgres/data.go:398-443 | one tag update on a done data makes `Find` miss a tag that the data carries |
| `DataBodies.UserTagsOfData` | pkg/domain/internal/db/postgres/data.go:105-145 | for any order of rows, each data is mapped to exactly its tags; it fails iff some tag is refused by `NewTag`, and names it |
| `DataBodies.GetDataBody` | pkg/domain/internal/db/postgres/data.go:12-103 | fails iff a wanted data has a linked tag that `NewTag` refuses; else each wanted data there is gets a normal form of its body |
| `DataBodies.ReadableMeans` | pkg/domain/tags.go:72-95 | linked tags are refused iff a time cannot be parsed or a state of the run is unknown |
| `DataBodies.BodyOfMeans` | pkg/domain/internal/db/postgres/data.go:60-103 | what is returned is sorted and part of the body, has a tag of every class in it, and is all of it iff no two tags of the body share a class |
| `DataBodies.InclusionsAgreeIffUnambiguous` | pkg/domain/internal/db/postgres/data.go:60-103 | requirements are met, told by where tags come from, iff their renderings are in the body: for all requirements iff no linked tag or other time can be taken for the row's |
| `DataBodies.MatchesIsRendered` | pkg/domain/nomination/db/postgres/nominator.go:55-139 | a done and unambiguous data is nominated for an input iff the input requires something and all of it, rendered, is in the body |
| `PlanQueries.UpstreamMeans` | pkg/domain/internal/db/postgres/plan.go:210-254 | the query lists an output for an input iff the input has no system tag and some user tags, all of them on the output |
| `PlanQueries.DownstreamMeans` | pkg/domain/internal/db/postgres/plan.go:349-398 | the same for the query in the other direction |
| `PlanQueries.QueriesAreConverse` | pkg/domain/internal/db/postgres/plan.go:210-398 | an output is listed upstream of an input iff the input is listed downstream of the output |
| `PlanQueries.Upstreams` | pkg/domain/internal/db/postgres/plan.go:261-270 | the row loop lists each upstream output of each input once |
| `PlanQueries.Downstreams` | pkg/domain/internal/db/postgres/plan.go:404-412 | the row loop lists each downstream input of each output once |
| `PlanQueries.DownstreamIsNominated` | pkg/domain/nomination/db/postgres/nominator.go:82-96 | done data with all tags of an output are nominated for every input listed downstream of it |
| `PlanDetails.DetailsAreMirrored` | pkg/domain/internal/db/postgres/plan.go:313-480 | plan details from one set of tables declare each link equally often on both sides |
| `PlanDetails.DetailsAreSearchable` | pkg/domain/internal/db/postgres/plan.go:313-480 | they form a closed universe, acyclic if the plans in the tables are |
| `PlanDetails.GetPlans` | pkg/domain/internal/db/postgres/plan.go:453-480 | details assembled from the lists of both queries meet all premises of the plan graph result |
| `PlanRelations.NextIsRelated` | cmd/knit/subcommands/plan/graph/command.go:141-175 | the plans that the search goes to next from a plan are exactly those that depend on it, or that it depends on, in the tables |
| `PlanRelations.DrawPlans` | cmd/knit/subcommands/plan/graph/command.go:66-181 | tables and command together: fails iff the depth is zero or the plan unknown, shows the plans within that many dependencies, draws each feeding pair of shown mountpoints once and nothing else |
| `RunDetails.ServedIsMirrored` | pkg/domain/internal/db/postgres/run.go:155-270 | details of data and of runs that are not invalidated, from one set of tables, declare each link equally often on both sides |
| `RunDetails.ServedIsTraceable` | pkg/domain/data/db/postgres/data.go:65-200 | for valid tables they meet all premises of the lineage result |
| `RunRelations.ServedAgrees` | pkg/domain/internal/db/postgres/run.go:155-270 | the links that served runs declare are the rows of the tables: data assigned to their inputs, data made by them |
| `RunRelations.DrawLineage` | cmd/knit/subcommands/data/lineage/command.go:131-177 | tables and command together: fails iff the depth is zero or the data unknown; shows the runs and data that the rows lead to within the depth; draws each row with both ends shown once, and no other link |
| `DataFind.MakeDataFindQuery` | pkg/domain/data/db/postgres/data.go:300-369 | for any map order: nothing is returned iff the trimmed tags contradict each other, else the record says what they say |
| `DataFind.InBody` | pkg/domain/internal/db/postgres/data.go:60-100 | but for knit#timestamp, a rebuilt body contains the linked tags and those the row derives |
| `DataFind.BodyTagsMean` | pkg/domain/internal/db/postgres/data.go:60-100 | a body holds the own id, the time if there is one, the linked tags, and that the run failed or goes on, unless it is done |
| `DataFind.SelectedMeans` | pkg/domain/data/db/postgres/data.go:227-289 | grouping and counting select exactly the data whose linked user tags contain those asked for and whose rows answer the system tags, in the window |
| `DataFind.WindowNarrows` | pkg/domain/data/db/postgres/data.go:244-251 | a data is found in a window iff it is found without, and its timestamp, or its run's update when it has none, is at the beginning or later and before the end |
| `DataFind.FindsAnswersIffOwnTags` | pkg/domain/data/db/postgres/data.go:203-289 | this is carrying all tags asked for, for all queries without knit#timestamp, iff rows derive all other linked system tags |
| `DataFind.UnstampedIsFoundByItsRun` | pkg/domain/data/db/postgres/data.go:227-289 | a data without timestamp is found by the time its run was updated, which it does not carry |
| `DataFind.Find` | pkg/domain/data/db/postgres/data.go:371-386 | fails iff the query is not contradictory and its time cannot be parsed; else exactly the data so selected, each once, timestamped ones first, oldest first, ties by id |
| `Strings.PrefixFreeOrder` | pkg/domain/plan.go:728-757 | between prefix-free strings the order does not depend on what is appended |
| `Strings.LessMeans` | pkg/domain/plan.go:728-757 | the lesser string ends first, or has the lesser character where they first differ |
| `Sorting.Sorted` | pkg/utils/slices/slice.go:184-193 | a permutation in which nothing stands before a lesser element |
| `Sorting.SortingIsUnique` | pkg/utils/slices/slice.go:184-193 | where distinct elements are comparable there is only one way to sort |
| `Matching.SliceSubsetWith` | pkg/utils/cmp/slice.go:144-169 | true iff the first-fit pairing of b into a exists, for any predicate |
| `Matching.SliceContentEqWith` | pkg/utils/cmp/slice.go:198-223 | for any map order: true comes with a bijection, false with a stuck run; for a rectangular predicate true iff a bijection exists |
| `Matching.SliceContentEq` | pkg/utils/cmp/slice.go:182-184 | true iff equal as multisets |
| `Matching.GreedIsComplete` | pkg/utils/cmp/slice.go:156-166 | a run over a rectangular predicate never gets stuck when a pairing exists |
| `Matching.OrderDoesNotMatterIffRectangular` | pkg/utils/cmp/slice.go:206-222 | some order can miss an existing bijection of some inputs iff the predicate is not rectangular |
| `Matching.FirstFitIsCompleteIffRectangular` | pkg/utils/cmp/slice.go:156-168 | the first-fit scan finds every existing pairing iff the predicate is rectangular |
| `Matching.EquivalenceIsRectangular` | pkg/utils/cmp/slice.go:186-197 | equivalences, which the function is meant for, are rectangular |
| `Matching.PairingIsBagInclusion` | pkg/utils/cmp/slice.go:92-143 | for equality a pairing exists iff the one bag is contained in the other |
| `TagSets.BinarySearchIsLowerBound` | pkg/utils/slices/slice.go:195-222 | in a sorted slice the result is the first position not less than the item |
| `TagSets.InsertInPlace` | pkg/domain/tags.go:308-309 | with room for one more, the overlapping append and the assignment insert the tag and pass no capacity |
| `TagSets.Deduplicated` | pkg/domain/tags.go:260-310 | the loop computes the normal form; the two lookup tables recognise every class met before |
| `TagSets.TagSet.NormalizeInPlace` | pkg/domain/tags.go:254-314 | the tags become their normal form, also for at most one tag |
| `TagSets.TagSet.Normalize` | pkg/domain/tags.go:226-240 | the same, once; later calls change nothing |
| `TagSets.TagSet.Slice` | pkg/domain/tags.go:321-331 | the normal form of the tags |
| `TagSets.TagSet.SystemTag` | pkg/domain/tags.go:344-357 | the system tags of the normal form |
| `TagSets.NormalIsNormalForm` | pkg/domain/tags.go:206-225 | the normal form is strictly sorted by key and value, and holds exactly the first tag of each class |
| `TagSets.NormalAscends` | pkg/domain/tags.go:206-225 | by key, and by value under one key, in the order of strings |
| `TagSets.ReservedByPrefix` | pkg/domain/tags.go:129-131 | all keys with the prefix are reserved |
| `TagSets.NormalizeTwice` | pkg/domain/tags.go:206-225 | normalizing is idempotent, and no other slice is a normal form |
| `TagSets.NormalKeepsAllIffSeparate` | pkg/domain/tags.go:206-225 | normalizing loses nothing iff no two different tags share a class |
| `TagSets.NormalIsByInstantIffMicroseconds` | pkg/domain/tags.go:206-225 | the normal form holds the first tag of each instant, as documented, iff no two timestamps share a microsecond without being one instant |
| `TagSets.OneOfTwoInstantsIsLost` | pkg/domain/tags.go:283-301 | of two timestamps a nanosecond apart one is lost |
| `TagSets.SystemTagsMean` | pkg/domain/tags.go:344-357 | filtering keeps exactly the system tags, strictly sorted |
| `Paths.AncestorsOverlap` | pkg/domain/plan.go:845-849 | a path that is, or lies in, another one overlaps it |
| `Paths.OverlapIsTextual` | pkg/domain/plan.go:845-849 | without trailing slashes, overlap is being a textual prefix |
| `Paths.OverlapIsNestingOrRunningOn` | pkg/domain/plan.go:845-849 | absolute paths without trailing slashes overlap iff one is or lies in the other, or one goes on within the last component of the other |
| `Paths.NoFalseRejectionIffNeitherRunsOn` | pkg/domain/plan.go:845-849 | overlap is nesting iff neither goes on so |
| `Paths.SiblingsRunOn` | pkg/domain/plan.go:845-849 | /in and /in2 overlap, and neither lies in the other |
| `Paths.TrimmingKeepsOrder` | pkg/domain/plan.go:728-757 | for paths that do not overlap, sorting before trimming is sorting after it |
| `PlanParams.Feed` | pkg/domain/plan.go:861-898 | the writes, in order, are the hash input |
| `HashParts.ImageIsHashed` | pkg/domain/plan.go:861-863 | specs that differ in image or version alone feed different text |
| `HashParts.NodesAreHashed` | pkg/domain/plan.go:865-867 | specs that agree but for entries on nodes feed the same text iff the texts of these agree |
| `HashParts.MountsAreHashed` | pkg/domain/plan.go:869-880 | the same for inputs, and for outputs |
| `HashParts.LogIsHashed` | pkg/domain/plan.go:881-886 | the same for the log, and whether there is one counts |
| `HashParts.CommandIsHashed` | pkg/domain/plan.go:887-898 | the same for entrypoint and args, and whether they are given counts |
| `HashParts.NodeFieldsCount` | pkg/domain/plan.go:865-867 | mode, key and value of an entry each count |
| `HashParts.MountFieldsCount` | pkg/domain/plan.go:869-880 | path and tags of a mountpoint count |
| `HashParts.TagFieldsCount` | pkg/domain/tags.go:117-127 | key and value of a tag count, of a timestamp the time as printed |
| `HashParts.OneTextCounts` | pkg/domain/plan.go:865-898 | of texts fed after one another, each counts |
| `HashParts.OneOfEach` | pkg/domain/plan.go:861-898 | the order of the parts and what stands between them |
| `PlanSpecs.CheckOnNode` | pkg/domain/plan.go:697-722 | passes iff all entries are good; the error belongs to a bad one |
| `PlanSpecs.OnNodeErrorMeans` | pkg/domain/plan.go:697-722 | a bad key is named, and else the value |
| `PlanSpecs.CheckSystemTags` | pkg/domain/plan.go:770-798 | passes iff there are only knit#id and knit#timestamp, each with one value |
| `PlanSpecs.CheckInputs` | pkg/domain/plan.go:760-810 | passes iff every input is good and overlaps no later input and no output; the error is explained |
| `PlanSpecs.CheckOutputs` | pkg/domain/plan.go:812-832 | passes iff every output is good and overlaps no later output and no input; the error is explained |
| `PlanSpecs.ChecksMean` | pkg/domain/plan.go:760-832 | the loops over sorted, trimmed slices decide a property that knows no order |
| `PlanSpecs.PlanSpec.ValidateOnce` | pkg/domain/plan.go:677-843 | passes iff the spec is acceptable; then it is in canonical order; otherwise which error, and how far it was rearranged |
| `PlanSpecs.AcceptedExactly` | pkg/domain/plan.go:677-843 | what is accepted, in one list about the spec as given: labels, names, an input, tags, clean absolute paths that keep clear of each other, reserved tags |
| `PlanSpecs.CanonicalNodes` | pkg/domain/plan.go:684-695 | entries on nodes end up in the order of mode, key and value |
| `PlanSpecs.PlanSpec.Validate` | pkg/domain/plan.go:658-667 | the first outcome is kept |
| `PlanSpecs.PlanSpec.Hash` | pkg/domain/plan.go:856-902 | computed once, from the hash input of the spec as it is |
| `PlanSpecs.AcceptedMountsAreSeparate` | pkg/domain/plan.go:800-832 | no accepted mountpoint is another one, lies in another one, or is a textual prefix of another one |
| `PlanSpecs.AcceptedInputTags` | pkg/domain/plan.go:766-798 | an accepted input has tags, only the two reserved keys, and each of them once: the nominator's premise |
| `PlanHash.NormalFormsAgree` | pkg/domain/tags.go:206-225 | equal classes of tags have normal forms that agree up to the spelling of the timestamp |
| `PlanHash.TrimmedPathsIncrease` | pkg/domain/plan.go:728-758 | the paths of an accepted spec are strictly increasing after trimming |
| `PlanHash.SameSpecSameHashInput` | pkg/domain/plan.go:856-902 | accepted specs that differ in order, repetition, timestamp spelling and one trailing slash per path hash the same text |
| `Recurring.WhenPoliciesBreak` | cmd/loops/loop/recurring/policy.go:52-100 | when, and with what error, a policy breaks the loop, however deep it is nested |
| `Cyclic.BeforeLaws` | pkg/domain/data/db/postgres/data.go:666-683 | the turn order is a strict total order in which the cursor's head is last |
| `Cyclic.SelectFirst` | pkg/domain/data/db/postgres/data.go:666-683 | the selected agent is the first in turn of the selectable ones |
| `Housekeeping.AgentTable.PickAndRemoveAgent` | pkg/domain/data/db/postgres/data.go:656-730 | table, cursor, picked agent and error after every success and failure of every call |
| `Housekeeping.Start` | cmd/loops/loop/loop.go:159-205 | the loop under any policy is the iteration of picks, until it breaks, is cancelled or is no longer watched |
| `Housekeeping.CancelledIsLast` | cmd/loops/loop/loop.go:159-205 | a cycle after which the context is over is the last one |
| `Turns.BacklogSweepsAll` | cmd/loops/tasks/housekeeping/task.go:31-59 | clock fixed and all committing: stops within one cycle more than there are due agents, visits each once in turn, removes exactly those whose pod is missing or over and closed, suspends the rest |
| `Turns.PickSettles` | pkg/domain/data/db/postgres/data.go:656-730 | if the transaction took effect, the agent is gone iff its pod is missing, or over and closed without error, and else suspended; if not, nothing has changed |
| `Turns.PickPicks` | pkg/domain/data/db/postgres/data.go:656-690 | the first in turn of the agents that are due and not locked, unless there is none or the database fails; without a pick nothing changes |
| `Turns.PickReports` | pkg/domain/data/db/postgres/data.go:656-730 | the error is the first of the database, else that of the cluster |
| `Turns.SeedVisitsAscending` | cmd/loops/tasks/housekeeping/task.go:18-22 | from the seed, turns are ascending by name |
| `Turns.HeadIsLast` | pkg/domain/data/db/postgres/data.go:666-683 | a pick leaves the cursor where it is only if nothing else is due |
| `Turns.EveryOtherHasItsTurn` | pkg/domain/data/db/postgres/data.go:656-730 | between two picks of one agent every other agent that each attempt could have picked was picked |
| `Turns.PicksAreDebounced` | pkg/domain/data/db/postgres/data.go:702-720 | after a pick that took effect, the next pick of the agent is more than the debounce later |
| `Turns.DebouncedIffApplied` | pkg/domain/data/db/postgres/data.go:702-720 | an attempt that picked an agent debounces it, on all runs, iff it took effect |
| `Turns.FailedPicksAreNotDebounced` | pkg/domain/data/db/postgres/data.go:702-720 | an attempt whose commit fails does not |
| `GarbageProtocol.StepKeeps` | pkg/domain/garbage/db/postgres/garbage.go:19-73 | every step of any worker, the cluster and the rest keeps the invariant |
| `GarbageProtocol.RemovedOnlyAfterVolume` | pkg/domain/garbage/db/postgres/garbage.go:63-72 | over whole runs: when a record leaves for good, its volume is already gone |
| `GarbageProtocol.OneHolder` | pkg/domain/garbage/db/postgres/garbage.go:30-32 | over whole runs: no two workers hold one record |
| `GarbageProtocol.OnlyGarbageDisappears` | pkg/domain/knitfab/k8s/cluster/cluster.go:1216-1234 | over whole runs: the workers make only volumes disappear that a garbage record names |
| `GarbageProtocol.TablesChangeTogether` | pkg/domain/garbage/db/postgres/garbage.go:30-42 | a record and its knit id leave together, and only by a commit |
| `GarbageProtocol.RetrySucceeds` | pkg/domain/garbage/k8s/garbage.go:25-34 | when the volume went before a failed commit, the next attempt finds nothing to delete and finishes |
| `GarbageProtocol.CreateKeepsInvIff` | pkg/domain/garbage/db/postgres/garbage.go:63-72 | a new volume keeps the invariant iff no worker is about to commit the removal of a record that names it |
| `GarbageProtocol.LeaksIffAboutToGo` | pkg/domain/garbage/db/postgres/garbage.go:63-72 | a volume can stay behind without its record iff its name was used again between the last poll and the commit |
| `GarbageProtocol.AboutToGoIsReached` | pkg/domain/garbage/db/postgres/garbage.go:19-73 | a run of the protocol leads to a worker that is about to commit |
| `GarbageCollection.System.Blocking` | pkg/utils/retry/retry.go:86-103 | returns without error only after the claim was seen missing; errors and the end of the context are returned |
| `GarbageCollection.System.DestroyGarbage` | pkg/domain/garbage/k8s/garbage.go:25-34 | without error the volume is gone; a claim not found is success |
| `GarbageCollection.System.Pop` | pkg/domain/garbage/db/postgres/garbage.go:19-73 | among any others and failures: success means record, knit id and volume are gone; failure keeps the record unless the commit took effect unanswered; retries succeed when calls do |
| `GarbageCollection.OthersRespect` | pkg/domain/garbage/db/postgres/garbage.go:19-73 | no step of others moves a worker; a volume stays gone once its worker has seen that, and before if nobody uses its name again |
| `FileTrees.PlainWalkVisitsEachOnce` | pkg/utils/archive/tarball.go:390-439 | without following links: no error, and every node below that is not a directory is visited exactly once |
| `FileTrees.LoopErrorIsGenuine` | pkg/utils/archive/tarball.go:404-415 | the loop error is given only where a way comes to a directory twice |
| `FileLoops.NoWalkOnLoop` | pkg/utils/archive/tarball.go:390-439 | a directory on a loop is never walked without error |
| `FileLoops.LoopReportedIffLoop` | pkg/utils/archive/tarball.go:390-441 | where links resolve: the loop error iff there is a loop, no error iff there is none |
| `FollowedWalks.FollowedWalkVisitsEachOnce` | pkg/utils/archive/tarball.go:390-439 | following links without error: each path that opens what is no directory is visited once, as what it opens |
| `FollowedWalks.FollowedRootVisitsEachOnce` | pkg/utils/archive/tarball.go:362-388 | the same from a root that may be a link or no directory |
| `Archive.Walker.FindFilesInDirectory` | pkg/utils/archive/tarball.go:390-439 | terminates by the real paths no link has led to, then by depth; the via-set is as before on every exit; without failing calls, exactly the visits and the outcome of the walk |
| `Archive.Walker.FindFiles` | pkg/utils/archive/tarball.go:362-388 | the same from a root that may be a link or no directory |
| `Archive.GoTar` | pkg/utils/archive/tarball.go:173-262 | when both walks succeed, bytes done equal bytes estimated, and are the sizes of the files met |
| `Archive.SizesAddUp` | pkg/utils/archive/tarball.go:193-207 | a regular file counts with its bytes, anything else not at all |
| `TarProgress.StepKeeps` | pkg/utils/archive/tarball.go:173-284 | every step of either goroutine, errors and panics of closing included, keeps sizes and the shared error consistent |
| `TarProgress.NoErrorMeansWritten` | pkg/utils/archive/tarball.go:173-284 | over all interleavings: which error is shown; no error and no panic mean that all files have been written; an error of the walk and a panic of closing are never lost |
| `TarProgress.FailureIsLostIff` | pkg/utils/archive/tarball.go:199-223 | archiving fails without an error shown iff its walk panicked, or closing failed after all files, and no error of the estimate stays |
| `TarProgress.OnePanicIsLost` | pkg/utils/archive/tarball.go:217-221 | a run with a panic: nothing archived and no error shown |
| `TarProgress.OneCloseFaultIsLost` | pkg/utils/archive/tarball.go:217-221 | a run in which closing fails and no error is shown |
| `TarProgress.EstimateErrorIsLostIff` | pkg/utils/archive/tarball.go:192-223 | an error of the estimate is lost iff the archive's walk went through all files and ended after it, and closing did not panic |
| `TarProgress.OneEstimateErrorIsLost` | pkg/utils/archive/tarball.go:192-223 | a run that reports no error, with more bytes done than estimated |
| `Products.CombinationIsByDigits` | pkg/utils/strings/strings.go:79-104 | the k-th row has the mixed-radix digits of k, the first choice fastest |
| `Products.Pattern` | pkg/utils/strings/strings.go:79-104 | all combinations in order, and no two rows share storage |
| `Products.SprintMany` | pkg/utils/strings/strings.go:65-111 | as many texts as the product of the choices, the k-th of the digits of k; nothing when there is no choice |
| `Cartesian.Extend` | pkg/utils/combination/cartesian.go:75-95 | one more key multiplies the enumeration by its items |
| `Cartesian.MapCartesian` | pkg/utils/combination/cartesian.go:59-105 | for any key order: exactly one entry per index tuple |
| `Examples.SmallLineage` | cmd/knit/subcommands/data/lineage/command.go:131-177 | the premises of the lineage result are met by a universe of two runs and a data between them |
| `Examples.SmallPlans` | cmd/knit/subcommands/plan/graph/command.go:126-220 | the premises of the plan graph result are met by two linked plans |
| `Examples.SmallCollection` | pkg/domain/garbage/db/postgres/garbage.go:19-73 | a run of the protocol removes a record after its volume |
| `Examples.SmallSpecs` | pkg/domain/plan.go:677-902 | the premises of the hash result are met by two specs that differ in a trailing slash |

## Left out

- HTTP handlers, the REST client, flag parsing, DOT and YAML output, and the web console. In the graph model a
  client error is an id that the universe does not serve.
- Node ids are constructors, not texts with a prefix, so texts that collide are not modelled. The data and run part
  and the plan part of `DirectedGraph` are two classes; no command uses both on one graph.
- `PlanGraph.PlanDirectedGraph.AddPlanNode`: the thunk tables for inputs, outputs and logs are one table keyed by
  slot; the table for plans is never filled in the source.
- `Lineage.Trace`: the upstream and downstream functions of the source share one method with a direction.
- `PlanTrace.MakeGraph`: on a graph that holds the root already it says which plans are there, not which links, since
  the root's slots are brought a second time; the command starts with an empty graph.
- `RunDetails.Served`: runs that have been invalidated are not served, although the API would still give them by id;
  pkg/api-types-binding/data/data.go:52 drops them from the details of data. Tags and bodies of plans are left out.
- `PlanDetails.Detail`: as rows of mountpoints in any order and the lists of both queries; fetching by plan id and
  tags are left out.
- `Database.KnitDatabase`: each transaction is one atomic step; isolation anomalies of the database, its locks and
  its collation are not modelled. Suspension times, update times, exit codes, resources and annotations are left out.
- `Database.KnitDatabase.RegisterPlan`: whether an equivalent plan is known is a parameter, since the tables do not
  hold images; `Database.KnitDatabase.SetStatus` stands for all callers of `setStatus`, which pick runs by status.
- `Database.KnitDatabase.NewAgent`: the mode of an agent, of which one that writes excludes others, is left out.
- `RunOutputs.WithData`: volume names are a function of ids, and that the table asks for them to be unique is left out.
- `Projection.New`: which flagged pair is taken is any choice; plans that others have locked are not skipped.
- `PlanQueries.UpstreamMatch`: the joins that fetch plan ids and mountpoint details of matched rows are left out.
- `DataFind.FindsAnswersIffOwnTags`: about queries without knit#timestamp; with one, the statement goes by the time
  that `DataFind.Chosen` says, which falls back to the update of the run.
- `DataBodies.GetDataBody`: volume names are left out, and the two loops over maps are comprehensions.
- `TagSets.TagSet.Normalize`: without its mutex; nil sets are not modelled.
- `TagSets.UnixMicro`: the time library is not part of this model; a parsed time is an instant in nanoseconds, and
  two of them are equivalent when they are the same instant.
- `PlanHash.SameSpecSameHashInput`: about the text fed to SHA-256, not about SHA-256. It asks that a printed timestamp
  be no finer than a microsecond.
- `PlanSpecs.PlanSpec.ValidateOnce`: label patterns and path cleaning are parameters, and error texts are left out.
- `Sorting.Sorted`: the contract of the library sort, which is not stable.
- `Housekeeping.Start`: the waiting between cycles and the loop options show only in the inputs of the next cycle;
  the loop is watched for any finite number of cycles, since Forever does not end.
- `Housekeeping.AgentTable.PickAndRemoveAgent`: mode and body of an agent matter only to the handler, whose view of
  the cluster is an input.
- `GarbageCollection.System.Blocking`: the context is over after any finite number of polls; goroutines, channels and
  panics of `retry.Go` are left out.
- `GarbageProtocol.Step`: other references to knit ids, and what the cluster does to a volume besides removing it.
- `Archive.GoTar`: the two walks run one after the other, so that the shared error shows in `TarProgress` only. Tar
  headers and contents are left out, and so is an archive inside its own tree.
- `TarProgress.Step`: a panic of the estimate, which nothing recovers and which ends the process, and a root that
  cannot be resolved, which ends `GoTar` before both goroutines, are left out. Reads and writes of the shared error
  are atomic; both goroutines walk the same unchanged tree.
- `Cartesian.MapCartesian`: on values; the source clones every map before it writes to it.
- `ParseTag` is not modelled: it asks for two parts from a split with limit 1, so it fails on every text.
- The nominations listed for a data, and equality of plans and mountpoints, which would add only easy members.

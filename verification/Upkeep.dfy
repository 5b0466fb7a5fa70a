/** What keeps the nomination exact: which changes to the tables leave which pairs alone, and that
    nominating what may have changed restores the full match relation. */
module Upkeep {
  import opened TagStore
  import opened Nomination

  /** Nothing that decides about the pairs outside `ids` has changed. */
  ghost predicate SameElsewhere(d: Tables, d': Tables, ids: set<string>)
    requires SchemaOk(d) && SchemaOk(d')
  {
    forall k, i :: k !in ids ==> (Matches(d', i, k) <==> Matches(d, i, k))
  }

  lemma NominateOnlyNomination(d: Tables, ids: set<string>)
    ensures NominateData(d, ids) == d.(nomination := NominateData(d, ids).nomination)
  {
  }

  /** If only pairs of `ids` may have changed, nominating `ids` is enough. */
  lemma NominateChanged(d0: Tables, d: Tables, ids: set<string>)
    requires SchemaOk(d0) && Exact(d0) && SchemaOk(d) && d.nomination == d0.nomination
    requires SameElsewhere(d0, d, ids)
    ensures SchemaOk(NominateData(d, ids)) && Exact(NominateData(d, ids))
    ensures FlagsKept(d0.nomination, NominateData(d, ids).nomination)
    ensures forall k, i :: k !in ids ==> (Nominated(NominateData(d, ids), k, i) <==> Nominated(d0, k, i))
  {
    hide SchemaOk, NominateData, Matches, FlagsKept;
    var d' := NominateData(d, ids);
    NominateDataEffect(d, ids);
    NominateOnlyNomination(d, ids);
    forall k, i
      ensures Nominated(d', k, i) <==> Matches(d', i, k)
      ensures k !in ids ==> (Nominated(d', k, i) <==> Nominated(d0, k, i))
    {
      NominateDataAt(d, ids, k, i);
      MatchesIgnoresNomination(d, d', k, i);
      ExactAt(d0, k, i);
    }
  }

  lemma NominateMountpointsOnlyNomination(d: Tables, ids: set<int>)
    ensures NominateMountpoints(d, ids) == d.(nomination := NominateMountpoints(d, ids).nomination)
  {
  }

  /** The nomination is exact except on the inputs `ids`, on which it is empty so far. */
  ghost predicate ExactBut(d: Tables, ids: set<int>)
    requires SchemaOk(d)
  {
    forall k, i :: i !in ids ==> (Nominated(d, k, i) <==> Matches(d, i, k))
  }

  /** If the relation is exact except on the inputs `ids`, nominating these is enough. */
  lemma NominateNewInputs(d: Tables, ids: set<int>)
    requires SchemaOk(d) && ids <= d.input
    requires ExactBut(d, ids)
    ensures SchemaOk(NominateMountpoints(d, ids)) && Exact(NominateMountpoints(d, ids))
    ensures FlagsKept(d.nomination, NominateMountpoints(d, ids).nomination)
  {
    hide SchemaOk, NominateMountpoints, Matches, FlagsKept, Nominated;
    var d' := NominateMountpoints(d, ids);
    NominateMountpointsEffect(d, ids);
    NominateMountpointsOnlyNomination(d, ids);
    forall k, i
      ensures Nominated(d', k, i) <==> Matches(d', i, k)
    {
      NominateMountpointsAt(d, ids, k, i);
      MatchesIgnoresNomination(d, d', k, i);
    }
  }

  lemma MatchesMeans(d: Tables, k: string, i: int)
    requires SchemaOk(d)
    ensures Matches(d, i, k) <==>
      && i in d.input && IsDone(d, k)
      && (InputTags(d.tags, i) != {} || i in d.knitidInput || i in d.timestampInput)
      && InputTags(d.tags, i) <= UserTags(d.tags, k) && SystemTagsOk(d, i, k)
  {
    hide RequiredTags, BodyTags, UserTags, InputTags, SystemTagsOk;
    if IsDone(d, k) {
      RequiredWithinBody(d, i, k);
      RequiresSomething(d, i);
    }
  }

  ghost predicate SameInput(d: Tables, d': Tables, i: int)
    requires SchemaOk(d) && SchemaOk(d')
  {
    && (i in d'.input <==> i in d.input)
    && InputTags(d'.tags, i) == InputTags(d.tags, i)
    && (i in d'.knitidInput <==> i in d.knitidInput) && (i in d.knitidInput ==> d'.knitidInput[i] == d.knitidInput[i])
    && (i in d'.timestampInput <==> i in d.timestampInput) && (i in d.timestampInput ==> d'.timestampInput[i] == d.timestampInput[i])
  }

  ghost predicate SameData(d: Tables, d': Tables, k: string)
    requires SchemaOk(d) && SchemaOk(d')
  {
    && (IsDone(d', k) <==> IsDone(d, k))
    && (IsDone(d, k) ==>
          && UserTags(d'.tags, k) == UserTags(d.tags, k)
          && (k in d'.knitTimestamp <==> k in d.knitTimestamp)
          && (k in d.knitTimestamp ==> d'.knitTimestamp[k] == d.knitTimestamp[k]))
  }

  lemma MatchesDependsOn(d: Tables, d': Tables, k: string, i: int)
    requires SchemaOk(d) && SchemaOk(d') && SameInput(d, d', i) && SameData(d, d', k)
    ensures Matches(d', i, k) <==> Matches(d, i, k)
  {
    hide Matches, UserTags, InputTags, SchemaOk, IsDone;
    MatchesMeans(d, k, i);
    MatchesMeans(d', k, i);
  }

  lemma SameElsewhereIf(d: Tables, d': Tables, ids: set<string>)
    requires SchemaOk(d) && SchemaOk(d')
    requires (forall i :: SameInput(d, d', i)) && forall k :: k !in ids ==> SameData(d, d', k)
    ensures SameElsewhere(d, d', ids)
  {
    hide Matches, SameInput, SameData, SchemaOk;
    forall k, i | k !in ids
      ensures Matches(d', i, k) <==> Matches(d, i, k)
    {
      MatchesDependsOn(d, d', k, i);
    }
  }

  lemma TagUpdateElsewhere(d: Tables, d': Tables, knitId: string)
    requires SchemaOk(d) && d' == d.(tags := d'.tags) && Interned(d'.tags) && OnlyTouches(d.tags, d'.tags, knitId)
    requires forall r :: r in d'.tags.tagData ==> r.1 in d.data
    ensures SchemaOk(d') && SameElsewhere(d, d', {knitId})
  {
    hide UserTags, InputTags, OutputTags, SameElsewhere;
    SameElsewhereIf(d, d', {knitId});
  }

  lemma ExactKept(d: Tables, d': Tables)
    requires SchemaOk(d) && Exact(d) && SchemaOk(d') && d'.nomination == d.nomination && SameElsewhere(d, d', {})
    ensures Exact(d')
  {
    hide Matches, SchemaOk;
    forall k, i
      ensures Nominated(d', k, i) <==> Matches(d', i, k)
    {
      ExactAt(d, k, i);
    }
  }

  lemma OldInputsStay(d0: Tables, d: Tables, ids: set<int>)
    requires SchemaOk(d) && ids <= d.input && d.nomination == d0.nomination
    ensures forall k, i :: i !in ids ==> (Nominated(NominateMountpoints(d, ids), k, i) <==> Nominated(d0, k, i))
  {
    hide Matches, SchemaOk, NominateMountpoints;
    forall k, i | i !in ids
      ensures Nominated(NominateMountpoints(d, ids), k, i) <==> Nominated(d0, k, i)
    {
      NominateMountpointsAt(d, ids, k, i);
    }
  }

  /** If nothing about done data and nothing about inputs has changed, the nomination stays exact. */
  lemma ExactIfSame(d: Tables, d': Tables)
    requires SchemaOk(d) && Exact(d) && SchemaOk(d') && d'.nomination == d.nomination
    requires (forall i :: SameInput(d, d', i)) && forall k :: SameData(d, d', k)
    ensures Exact(d')
  {
    hide SchemaOk, Exact, SameInput, SameData, SameElsewhere, Matches;
    SameElsewhereIf(d, d', {});
    ExactKept(d, d');
  }
}

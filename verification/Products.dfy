/** `SprintMany` of pkg/utils/strings/strings.go: all combinations, in rows that are appended to in place. */
module Products {

  function Size<T>(choices: seq<seq<T>>): nat {
    if choices == [] then 1 else Size(choices[..|choices| - 1]) * |choices[|choices| - 1]|
  }

  ghost predicate NoneEmpty<T>(choices: seq<seq<T>>) {
    forall i :: 0 <= i < |choices| ==> choices[i] != []
  }

  lemma {:induction false} SizePositive<T>(choices: seq<seq<T>>)
    requires NoneEmpty(choices)
    ensures Size(choices) > 0
  {
    if choices != [] {
      SizePositive(choices[..|choices| - 1]);
    }
  }

  lemma {:induction false} MulGap(d: nat, a: nat, b: nat)
    ensures a < b ==> d * a + d <= d * b
    decreases b
  {
    if a + 1 < b {
      MulGap(d, a, b - 1);
    }
  }

  lemma DivUnique(k: nat, d: nat, q: nat, r: nat)
    requires k == d * q + r && r < d
    ensures k / d == q && k % d == r
  {
    MulGap(d, q, k / d);
    MulGap(d, k / d, q);
  }

  /** The `k`-th combination: the last choice is the slowest. */
  function Combination<T>(choices: seq<seq<T>>, k: nat): seq<T>
    requires NoneEmpty(choices) && k < Size(choices)
  {
    if choices == [] then []
    else
      var rest, tail := choices[..|choices| - 1], choices[|choices| - 1];
      SizePositive(rest);
      Quotient(k, Size(rest), |tail|);
      Combination(rest, k % Size(rest)) + [tail[k / Size(rest)]]
  }

  lemma Quotient(k: nat, d: nat, n: nat)
    requires d > 0 && k < d * n
    ensures k / d < n
  {
    MulGap(d, n, k / d);
  }

  // ---- mixed radix -----------------------------------------------------------------------------

  /** The mixed-radix digits of `k` choose the elements, the first digit being the least significant. */
  function ByDigits<T>(choices: seq<seq<T>>, k: nat): seq<T>
    requires NoneEmpty(choices)
  {
    if choices == [] then []
    else [choices[0][k % |choices[0]|]] + ByDigits(choices[1..], k / |choices[0]|)
  }

  lemma {:induction false} SizeFromFront<T>(choices: seq<seq<T>>)
    requires choices != []
    ensures Size(choices) == |choices[0]| * Size(choices[1..])
  {
    var n := |choices| - 1;
    if n == 0 {
      assert choices[..0] == [] && choices[1..] == [];
    } else {
      SizeFromFront(choices[..n]);
      assert choices[..n][1..] == choices[1..][..n - 1];
      Associates(|choices[0]|, Size(choices[1..][..n - 1]), |choices[n]|);
    }
  }

  lemma Associates(a: nat, b: nat, c: nat)
    ensures a * (b * c) == (a * b) * c
  {
  }

  /** Dividing by a product is dividing twice. */
  lemma DivideTwice(k: nat, c: nat, q: nat)
    requires c > 0 && q > 0
    ensures c * q > 0
    ensures k / (c * q) == (k / c) / q
    ensures (k % (c * q)) / c == (k / c) % q
    ensures (k % (c * q)) % c == k % c
  {
    var high, mid, low := (k / c) / q, (k / c) % q, k % c;
    MulGap(c, mid, q);
    Regroup(c, q, high, mid, low);
    DivUnique(k, c * q, high, c * mid + low);
    DivUnique(c * mid + low, c, mid, low);
  }

  lemma Regroup(c: nat, q: nat, high: nat, mid: nat, low: nat)
    ensures c * (q * high + mid) + low == (c * q) * high + (c * mid + low)
  {
    Associates(c, q, high);
    assert c * (q * high + mid) == c * (q * high) + c * mid;
  }

  lemma CombinationUnfold<T>(choices: seq<seq<T>>, k: nat)
    requires NoneEmpty(choices) && choices != [] && k < Size(choices)
    ensures var rest, tail := choices[..|choices| - 1], choices[|choices| - 1];
      && Size(rest) > 0 && k % Size(rest) < Size(rest) && k / Size(rest) < |tail|
      && Combination(choices, k) == Combination(rest, k % Size(rest)) + [tail[k / Size(rest)]]
  {
    SizePositive(choices[..|choices| - 1]);
    Quotient(k, Size(choices[..|choices| - 1]), |choices[|choices| - 1]|);
  }

  lemma {:induction false} CombinationFromFront<T>(choices: seq<seq<T>>, k: nat)
    requires NoneEmpty(choices) && choices != [] && k < Size(choices)
    ensures k / |choices[0]| < Size(choices[1..])
    ensures Combination(choices, k) == [choices[0][k % |choices[0]|]] + Combination(choices[1..], k / |choices[0]|)
  {
    var n, c := |choices| - 1, |choices[0]|;
    SizeFromFront(choices);
    Quotient(k, c, Size(choices[1..]));
    if n == 0 {
      SingleChoice(choices);
      DivUnique(k, c, 0, k);
      assert choices[1..] == [];
      assert [choices[0][k]] + [] == [choices[0][k]];
    } else {
      hide Combination, Size;
      var rest, later := choices[..n], choices[1..];
      CombinationUnfold(choices, k);
      CombinationUnfold(later, k / c);
      var inner := rest[1..];
      assert inner == later[..|later| - 1];
      SizeFromFront(rest);
      var p, q := Size(rest), Size(inner);
      DivideTwice(k, c, q);
      CombinationFromFront(rest, k % p);
      Shift(choices[0][k % c], Combination(inner, (k / c) % q), choices[n][k / p]);
      assert Combination(later, k / c) == Combination(inner, (k / c) % q) + [choices[n][k / p]];
      assert Combination(rest, k % p) == [choices[0][k % c]] + Combination(inner, (k / c) % q);
    }
  }

  lemma Shift<T>(x: T, s: seq<T>, y: T)
    ensures ([x] + s) + [y] == [x] + (s + [y])
  {
  }

  /** The `k`-th combination is the one with the digits of `k`. */
  lemma {:induction false} CombinationIsByDigits<T>(choices: seq<seq<T>>, k: nat)
    requires NoneEmpty(choices) && k < Size(choices)
    ensures Combination(choices, k) == ByDigits(choices, k)
  {
    if choices != [] {
      CombinationFromFront(choices, k);
      CombinationIsByDigits(choices[1..], k / |choices[0]|);
    }
  }

  // ---- rows ------------------------------------------------------------------------------------

  /** A Go slice: a backing array with its capacity, and a length. */
  datatype Row<T> = Row(buffer: array<T>, len: nat)

  ghost predicate RowsHold<T>(rows: seq<Row<T>>, choices: seq<seq<T>>, capacity: nat)
    requires NoneEmpty(choices)
    reads set r | r in rows :: r.buffer
  {
    && |rows| <= Size(choices)
    && forall k :: 0 <= k < |rows| ==>
      && rows[k].len == |choices| <= rows[k].buffer.Length == capacity
      && rows[k].buffer[..|choices|] == Combination(choices, k)
  }

  ghost predicate Apart<T>(rows: seq<Row<T>>) {
    forall i, j :: 0 <= i < j < |rows| ==> rows[i].buffer != rows[j].buffer
  }

  /** `append` within the capacity writes into the backing array of its argument. */
  method Append<T>(row: Row<T>, t: T) returns (r: Row<T>)
    requires row.len < row.buffer.Length
    modifies row.buffer
    ensures r == Row(row.buffer, row.len + 1)
    ensures r.buffer[..r.len] == old(row.buffer[..row.len]) + [t]
  {
    row.buffer[row.len] := t;
    r := Row(row.buffer, row.len + 1);
  }

  /** `pattern`: although rows are appended to in place, no two of them share storage, because the shorter
      rows are made anew for every element of the last choice. */
  method Pattern<T>(choices: seq<seq<T>>, numchoice: nat) returns (rows: seq<Row<T>>)
    requires choices != [] && |choices| <= numchoice && NoneEmpty(choices)
    ensures |rows| == Size(choices) && RowsHold(rows, choices, numchoice) && Apart(rows)
    ensures forall r :: r in rows ==> fresh(r.buffer)
    decreases |choices|
  {
    hide Apart, RowsHold, RowsExtend, Combination, Size;
    var n := |choices| - 1;
    var rest, tail := choices[..n], choices[n];
    if n == 0 {
      rows := Seeds(choices, numchoice);
      return;
    }
    rows := [];
    NoRows(choices, numchoice);
    for i := 0 to |tail|
      invariant |rows| == i * Size(rest) && Apart(rows)
      invariant forall r :: r in rows ==> fresh(r.buffer)
      invariant RowsHold(rows, choices, numchoice)
    {
      var block := Pattern(rest, numchoice);
      ghost var made := block;
      block := AppendEach(block, tail[i], rest, numchoice);
      assert forall x, y :: 0 <= x < |rows| && 0 <= y < |block| ==> rows[x].buffer != made[y].buffer;
      ApartTogether(rows, block);
      BlockFits(i, Size(rest), |tail|);
      RowsGrow(rows, block, choices, i, numchoice);
      rows := rows + block;
    }
    WholeSize(choices);
  }

  lemma WholeSize<T>(choices: seq<seq<T>>)
    requires choices != []
    ensures Size(choices) == |choices[|choices| - 1]| * Size(choices[..|choices| - 1])
  {
  }

  lemma NoRows<T>(choices: seq<seq<T>>, capacity: nat)
    requires NoneEmpty(choices)
    ensures RowsHold<T>([], choices, capacity) && Apart<T>([])
  {
  }

  /** Rows that hold the combinations of all choices but the last, and one element of the last. */
  ghost predicate RowsExtend<T>(rows: seq<Row<T>>, rest: seq<seq<T>>, t: T, capacity: nat)
    requires NoneEmpty(rest)
    reads set r | r in rows :: r.buffer
  {
    && |rows| == Size(rest)
    && forall k :: 0 <= k < |rows| ==>
      && rows[k].len == |rest| + 1 <= rows[k].buffer.Length == capacity
      && rows[k].buffer[..|rest| + 1] == Combination(rest, k) + [t]
  }

  /** The next block of rows continues the enumeration. */
  lemma RowsGrow<T>(rows: seq<Row<T>>, block: seq<Row<T>>, choices: seq<seq<T>>, i: nat, capacity: nat)
    requires NoneEmpty(choices) && choices != [] && i < |choices[|choices| - 1]|
    requires |rows| == i * Size(choices[..|choices| - 1]) && RowsHold(rows, choices, capacity)
    requires RowsExtend(block, choices[..|choices| - 1], choices[|choices| - 1][i], capacity)
    ensures RowsHold(rows + block, choices, capacity)
  {
    hide Combination;
    var n := |choices| - 1;
    var rest := choices[..n];
    BlockFits(i, Size(rest), |choices[n]|);
    forall k | |rows| <= k < |rows + block|
      ensures (rows + block)[k].buffer[..n + 1] == Combination(choices, k)
    {
      NextRow(choices, i, k - |rows|);
    }
  }

  /** The case of a single choice. */
  method Seeds<T>(choices: seq<seq<T>>, numchoice: nat) returns (rows: seq<Row<T>>)
    requires |choices| == 1 <= numchoice && NoneEmpty(choices)
    ensures |rows| == Size(choices) && RowsHold(rows, choices, numchoice) && Apart(rows)
    ensures forall r :: r in rows ==> fresh(r.buffer)
  {
    hide Combination, Size;
    var tail := choices[0];
    SingleChoice(choices);
    rows := [];
    for i := 0 to |tail|
      invariant |rows| == i && Apart(rows)
      invariant forall k :: 0 <= k < i ==> fresh(rows[k].buffer) && rows[k].len == 1 && rows[k].buffer.Length == numchoice
      invariant forall k :: 0 <= k < i ==> rows[k].buffer[..1] == Combination(choices, k)
    {
      var t := tail[i];
      var seed := new T[numchoice](_ => t);
      assert seed[..1] == [t];
      rows := rows + [Row(seed, 1)];
    }
  }

  lemma ApartTogether<T>(a: seq<Row<T>>, b: seq<Row<T>>)
    requires Apart(a) && Apart(b)
    requires forall x, y :: 0 <= x < |a| && 0 <= y < |b| ==> a[x].buffer != b[y].buffer
    ensures Apart(a + b)
  {
  }

  lemma SingleChoice<T>(choices: seq<seq<T>>)
    requires |choices| == 1 && choices[0] != []
    ensures Size(choices) == |choices[0]|
    ensures NoneEmpty(choices) && forall k :: 0 <= k < |choices[0]| ==> Combination(choices, k) == [choices[0][k]]
  {
    assert choices[..0] == [] && Size<T>([]) == 1;
    forall k | 0 <= k < |choices[0]|
      ensures Combination(choices, k) == [choices[0][k]]
    {
      DivUnique(k, 1, k, 0);
    }
  }

  lemma BlockFits(i: nat, d: nat, n: nat)
    requires i < n
    ensures i * d + d == (i + 1) * d <= d * n
  {
  }

  lemma NextRow<T>(choices: seq<seq<T>>, i: nat, j: nat)
    requires NoneEmpty(choices) && |choices| > 0
    requires i < |choices[|choices| - 1]| && j < Size(choices[..|choices| - 1])
    ensures var rest, tail := choices[..|choices| - 1], choices[|choices| - 1];
      && i * Size(rest) + j < Size(choices)
      && Combination(choices, i * Size(rest) + j) == Combination(rest, j) + [tail[i]]
  {
    var rest, tail := choices[..|choices| - 1], choices[|choices| - 1];
    BlockFits(i, Size(rest), |tail|);
    DivUnique(i * Size(rest) + j, Size(rest), i, j);
  }

  /** The inner loop of `pattern`. */
  method AppendEach<T>(block: seq<Row<T>>, t: T, rest: seq<seq<T>>, capacity: nat) returns (r: seq<Row<T>>)
    requires NoneEmpty(rest) && |block| == Size(rest) && RowsHold(block, rest, capacity) && |rest| < capacity && Apart(block)
    modifies set b | b in block :: b.buffer
    ensures |r| == |block| && forall j :: 0 <= j < |r| ==> r[j].buffer == block[j].buffer
    ensures RowsExtend(r, rest, t, capacity) && Apart(r)
  {
    hide Combination, Size, NoneEmpty;
    ghost var len := |rest|;
    r := [];
    for j := 0 to |block|
      invariant |r| == j
      invariant forall k :: 0 <= k < j ==> r[k] == Row(block[k].buffer, len + 1)
      invariant forall k :: 0 <= k < j ==> block[k].buffer[..len + 1] == Combination(rest, k) + [t]
      invariant forall k :: j <= k < |block| ==> block[k].buffer[..len] == Combination(rest, k)
    {
      var row := Append(block[j], t);
      r := r + [row];
    }
  }

  /** `SprintMany`; `sprint` is the formatting of one combination. */
  method SprintMany<T>(choices: seq<seq<T>>, sprint: seq<T> -> string) returns (r: seq<string>)
    ensures choices == [] || !NoneEmpty(choices) ==> r == []
    ensures choices != [] && NoneEmpty(choices) ==>
      |r| == Size(choices) && forall k :: 0 <= k < |r| ==> r[k] == sprint(ByDigits(choices, k))
  {
    if |choices| == 0 {
      return [];
    }
    for i := 0 to |choices|
      invariant forall k :: 0 <= k < i ==> choices[k] != []
    {
      if |choices[i]| == 0 {
        return [];
      }
    }
    var rows := Pattern(choices, |choices|);
    r := [];
    hide Combination, ByDigits;
    for k := 0 to |rows|
      invariant RowsHold(rows, choices, |choices|)
      invariant |r| == k && forall l :: 0 <= l < k ==> r[l] == sprint(ByDigits(choices, l))
    {
      CombinationIsByDigits(choices, k);
      assert rows[k].buffer[..rows[k].len] == Combination(choices, k);
      r := r + [sprint(rows[k].buffer[..rows[k].len])];
    }
  }
}

/** Overlap of two operations' intervals: a two-index sweep over both lists sorted, against
    the sum over all pairs. Times are reals. */
module IntervalOverlaps {

  datatype Interval = Interval(start: real, end: real)
  datatype Tally = Tally(count: nat, duration: real)

  const NOTHING := Tally(0, 0.0)

  function Plus(a: Tally, b: Tally): (r: Tally) {
    Tally(a.count + b.count, a.duration + b.duration)
  }

  function Sooner(a: real, b: real): (r: real) {
    if a <= b then a else b
  }

  function Later(a: real, b: real): (r: real) {
    if a <= b then b else a
  }

  function Overlap(a: Interval, b: Interval): (r: real) {
    Sooner(a.end, b.end) - Later(a.start, b.start)
  }

  /** What one pair contributes. */
  function Cell(a: Interval, b: Interval): (r: Tally) {
    if Overlap(a, b) > 0.0 then Tally(1, Overlap(a, b)) else NOTHING
  }

  // --- The reference: all pairs ---

  ghost function RowTotal(a: Interval, right: seq<Interval>): Tally {
    if right == [] then NOTHING else Plus(Cell(a, right[0]), RowTotal(a, right[1..]))
  }

  ghost function PairTotal(left: seq<Interval>, right: seq<Interval>): Tally {
    if left == [] then NOTHING else Plus(RowTotal(left[0], right), PairTotal(left[1..], right))
  }

  lemma Rearrange(a: Tally, b: Tally, c: Tally, d: Tally)
    ensures Plus(Plus(a, b), Plus(c, d)) == Plus(Plus(a, c), Plus(b, d))
  {
  }

  lemma Exchange(a: Tally, b: Tally, c: Tally)
    ensures Plus(a, Plus(b, c)) == Plus(b, Plus(a, c))
  {
  }

  lemma CellSymmetric(a: Interval, b: Interval)
    ensures Cell(a, b) == Cell(b, a)
  {
  }

  /** Taking one interval off the right list takes its column off the total. */
  lemma {:induction false} PairColumn(left: seq<Interval>, right: seq<Interval>)
    requires right != []
    ensures PairTotal(left, right) == Plus(RowTotal(right[0], left), PairTotal(left, right[1..]))
  {
    if left != [] {
      var a, rest, b, right' := left[0], left[1..], right[0], right[1..];
      PairColumn(rest, right);
      CellSymmetric(a, b);
      assert RowTotal(a, right) == Plus(Cell(a, b), RowTotal(a, right'));
      assert RowTotal(b, left) == Plus(Cell(b, a), RowTotal(b, rest));
      Rearrange(Cell(a, b), RowTotal(a, right'), RowTotal(b, rest), PairTotal(rest, right'));
    }
  }

  lemma {:induction false} PairNothing(left: seq<Interval>)
    ensures PairTotal(left, []) == NOTHING
  {
    if left != [] {
      assert RowTotal(left[0], []) == NOTHING;
      PairNothing(left[1..]);
    }
  }

  /** Which list comes first does not matter. */
  lemma {:induction false} PairSymmetric(left: seq<Interval>, right: seq<Interval>)
    ensures PairTotal(left, right) == PairTotal(right, left)
  {
    if left == [] {
      PairNothing(right);
    } else {
      PairSymmetric(left[1..], right);
      PairColumn(right, left);
    }
  }

  // --- Sorting ---

  predicate Before(a: Interval, b: Interval) {
    a.start < b.start || (a.start == b.start && a.end <= b.end)
  }

  ghost predicate Ordered(s: seq<Interval>) {
    forall i, j :: 0 <= i < j < |s| ==> Before(s[i], s[j])
  }

  function Insert(x: Interval, s: seq<Interval>): (r: seq<Interval>) {
    if s == [] then [x]
    else if Before(x, s[0]) then [x] + s
    else [s[0]] + Insert(x, s[1..])
  }

  /** Ordered by start, then end. */
  function Sorted(s: seq<Interval>): (r: seq<Interval>) {
    if s == [] then [] else Insert(s[0], Sorted(s[1..]))
  }

  lemma {:induction false} InsertElements(x: Interval, s: seq<Interval>)
    ensures multiset(Insert(x, s)) == multiset(s) + multiset{x}
  {
    if s != [] && !Before(x, s[0]) {
      InsertElements(x, s[1..]);
      assert s == [s[0]] + s[1..];
    }
  }

  lemma {:induction false} InsertOrdered(x: Interval, s: seq<Interval>)
    requires Ordered(s)
    ensures Ordered(Insert(x, s))
  {
    if s != [] && !Before(x, s[0]) {
      var rest := Insert(x, s[1..]);
      InsertOrdered(x, s[1..]);
      InsertElements(x, s[1..]);
      forall y | y in rest ensures Before(s[0], y) {
        assert y in multiset(rest);
        assert y == x || y in s[1..];
      }
    }
  }

  /** Sorted really sorts. */
  lemma {:induction false} SortedIs(s: seq<Interval>)
    ensures multiset(Sorted(s)) == multiset(s) && Ordered(Sorted(s))
  {
    if s != [] {
      SortedIs(s[1..]);
      InsertElements(s[0], Sorted(s[1..]));
      InsertOrdered(s[0], Sorted(s[1..]));
      assert s == [s[0]] + s[1..];
    }
  }

  lemma {:induction false} RowInsert(a: Interval, x: Interval, s: seq<Interval>)
    ensures RowTotal(a, Insert(x, s)) == Plus(Cell(a, x), RowTotal(a, s))
  {
    if s != [] && !Before(x, s[0]) {
      RowInsert(a, x, s[1..]);
    }
  }

  lemma PairCons(x: Interval, left: seq<Interval>, right: seq<Interval>)
    ensures PairTotal([x] + left, right) == Plus(RowTotal(x, right), PairTotal(left, right))
  {
    assert ([x] + left)[1..] == left;
  }

  lemma {:induction false} PairInsert(x: Interval, left: seq<Interval>, right: seq<Interval>)
    ensures PairTotal(Insert(x, left), right) == Plus(RowTotal(x, right), PairTotal(left, right))
  {
    if left == [] || Before(x, left[0]) {
      PairCons(x, left, right);
      assert [x] + left == Insert(x, left);
    } else {
      PairInsert(x, left[1..], right);
      PairInsertTail(x, left, right);
    }
  }

  lemma PairInsertTail(x: Interval, left: seq<Interval>, right: seq<Interval>)
    requires left != [] && !Before(x, left[0])
    requires PairTotal(Insert(x, left[1..]), right) == Plus(RowTotal(x, right), PairTotal(left[1..], right))
    ensures PairTotal(Insert(x, left), right) == Plus(RowTotal(x, right), PairTotal(left, right))
  {
    PairCons(left[0], Insert(x, left[1..]), right);
    Exchange(RowTotal(left[0], right), RowTotal(x, right), PairTotal(left[1..], right));
  }

  lemma {:induction false} PairSorted(left: seq<Interval>, right: seq<Interval>)
    ensures PairTotal(Sorted(left), right) == PairTotal(left, right)
  {
    if left != [] {
      PairSorted(left[1..], right);
      PairInsert(left[0], Sorted(left[1..]), right);
    }
  }

  /** Sorting either list does not change the total. */
  lemma PairSortedBoth(left: seq<Interval>, right: seq<Interval>)
    ensures PairTotal(Sorted(left), Sorted(right)) == PairTotal(left, right)
  {
    PairSorted(left, Sorted(right));
    PairSymmetric(left, Sorted(right));
    PairSorted(right, left);
    PairSymmetric(left, right);
  }

  // --- Which pairs the sweep visits ---

  /** The largest end among the first n intervals. */
  function LastEnd(s: seq<Interval>, n: nat): (r: real)
    requires 0 < n <= |s|
  {
    if n == 1 then s[0].end else Later(LastEnd(s, n - 1), s[n - 1].end)
  }

  lemma {:induction false} LastEndGrows(s: seq<Interval>, m: nat, n: nat)
    requires 0 < m <= n <= |s|
    ensures LastEnd(s, m) <= LastEnd(s, n) && s[n - 1].end <= LastEnd(s, n)
  {
    if m < n {
      LastEndGrows(s, m, n - 1);
    }
  }

  /** The sweep looks at the pair (i, j): no earlier left interval outlasts the right ones up to
      j, and no earlier right interval lasts as long as the left ones up to i. */
  ghost predicate Met(left: seq<Interval>, right: seq<Interval>, i: nat, j: nat)
    requires i < |left| && j < |right|
  {
    && (i == 0 || LastEnd(left, i) <= LastEnd(right, j + 1))
    && (j == 0 || LastEnd(right, j) < LastEnd(left, i + 1))
  }

  /** Every pair that overlaps is met. */
  ghost predicate AllMet(left: seq<Interval>, right: seq<Interval>) {
    forall i: nat, j: nat :: i < |left| && j < |right| && Overlap(left[i], right[j]) > 0.0 ==> Met(left, right, i, j)
  }

  /** A pair's contribution, or nothing if only met pairs are asked for and it is not met. */
  ghost function Part(left: seq<Interval>, right: seq<Interval>, i: nat, j: nat, met: bool): Tally
    requires i < |left| && j < |right|
  {
    if met && !Met(left, right, i, j) then NOTHING else Cell(left[i], right[j])
  }

  /** The contributions of row i from column j on. */
  ghost function Row(left: seq<Interval>, right: seq<Interval>, i: nat, j: nat, met: bool): Tally
    requires i < |left| && j <= |right|
    decreases |right| - j
  {
    if j == |right| then NOTHING else Plus(Part(left, right, i, j, met), Row(left, right, i, j + 1, met))
  }

  ghost function Column(left: seq<Interval>, right: seq<Interval>, i: nat, j: nat, met: bool): Tally
    requires i <= |left| && j < |right|
    decreases |left| - i
  {
    if i == |left| then NOTHING else Plus(Part(left, right, i, j, met), Column(left, right, i + 1, j, met))
  }

  /** The contributions from row i and column j on. */
  ghost function Rest(left: seq<Interval>, right: seq<Interval>, i: nat, j: nat, met: bool): Tally
    requires i <= |left| && j <= |right|
    decreases |left| - i
  {
    if i == |left| then NOTHING else Plus(Row(left, right, i, j, met), Rest(left, right, i + 1, j, met))
  }

  lemma {:induction false} RestColumn(left: seq<Interval>, right: seq<Interval>, i: nat, j: nat, met: bool)
    requires i <= |left| && j < |right|
    ensures Rest(left, right, i, j, met) == Plus(Column(left, right, i, j, met), Rest(left, right, i, j + 1, met))
    decreases |left| - i
  {
    if i < |left| {
      RestColumn(left, right, i + 1, j, met);
      Rearrange(Part(left, right, i, j, met), Row(left, right, i, j + 1, met),
                Column(left, right, i + 1, j, met), Rest(left, right, i + 1, j + 1, met));
    }
  }

  lemma {:induction false} RowUnmet(left: seq<Interval>, right: seq<Interval>, i: nat, j: nat)
    requires i < |left| && j <= |right| && forall k: nat :: j <= k < |right| ==> !Met(left, right, i, k)
    ensures Row(left, right, i, j, true) == NOTHING
    decreases |right| - j
  {
    if j < |right| {
      RowUnmet(left, right, i, j + 1);
    }
  }

  lemma {:induction false} ColumnUnmet(left: seq<Interval>, right: seq<Interval>, i: nat, j: nat)
    requires i <= |left| && j < |right| && forall k: nat :: i <= k < |left| ==> !Met(left, right, k, j)
    ensures Column(left, right, i, j, true) == NOTHING
    decreases |left| - i
  {
    if i < |left| {
      ColumnUnmet(left, right, i + 1, j);
    }
  }

  lemma {:induction false} NoColumnsLeft(left: seq<Interval>, right: seq<Interval>, i: nat, met: bool)
    requires i <= |left|
    ensures Rest(left, right, i, |right|, met) == NOTHING
    decreases |left| - i
  {
    if i < |left| {
      NoColumnsLeft(left, right, i + 1, met);
    }
  }

  lemma LastEndNext(s: seq<Interval>, n: nat)
    requires n < |s|
    ensures s[n].end <= LastEnd(s, n + 1)
    ensures n > 0 ==> LastEnd(s, n) <= LastEnd(s, n + 1)
    ensures LastEnd(s, n + 1) == s[n].end || (n > 0 && LastEnd(s, n + 1) == LastEnd(s, n))
  {
  }

  /** From a met pair whose left interval ends first, the pair below is met and the rest of the
      row is not. */
  lemma MeetLeft(left: seq<Interval>, right: seq<Interval>, i: nat, j: nat)
    requires i < |left| && j < |right| && Met(left, right, i, j) && left[i].end <= right[j].end
    ensures i + 1 < |left| ==> Met(left, right, i + 1, j)
    ensures forall k: nat :: j + 1 <= k < |right| ==> !Met(left, right, i, k)
  {
    LastEndNext(right, j);
    LastEndNext(left, i);
    forall k: nat | j + 1 <= k < |right| ensures !Met(left, right, i, k) {
      LastEndGrows(right, j + 1, k);
    }
    if i + 1 < |left| {
      LastEndNext(left, i + 1);
    }
  }

  /** From a met pair whose right interval ends first, the next pair is met and the rest of the
      column is not. */
  lemma MeetRight(left: seq<Interval>, right: seq<Interval>, i: nat, j: nat)
    requires i < |left| && j < |right| && Met(left, right, i, j) && left[i].end > right[j].end
    ensures j + 1 < |right| ==> Met(left, right, i, j + 1)
    ensures forall k: nat :: i + 1 <= k < |left| ==> !Met(left, right, k, j)
  {
    LastEndNext(right, j);
    LastEndNext(left, i);
    forall k: nat | i + 1 <= k < |left| ensures !Met(left, right, k, j) {
      LastEndGrows(left, i + 1, k);
    }
    if j + 1 < |right| {
      LastEndNext(right, j + 1);
    }
  }

  lemma AdvanceLeft(left: seq<Interval>, right: seq<Interval>, i: nat, j: nat)
    requires i < |left| && j < |right| && Met(left, right, i, j)
    requires forall k: nat :: j + 1 <= k < |right| ==> !Met(left, right, i, k)
    ensures Rest(left, right, i, j, true) == Plus(Cell(left[i], right[j]), Rest(left, right, i + 1, j, true))
  {
    RowUnmet(left, right, i, j + 1);
    Neutral(Cell(left[i], right[j]));
  }

  lemma AdvanceRight(left: seq<Interval>, right: seq<Interval>, i: nat, j: nat)
    requires i < |left| && j < |right| && Met(left, right, i, j)
    requires forall k: nat :: i + 1 <= k < |left| ==> !Met(left, right, k, j)
    ensures Rest(left, right, i, j, true) == Plus(Cell(left[i], right[j]), Rest(left, right, i, j + 1, true))
  {
    ColumnUnmet(left, right, i + 1, j);
    Neutral(Cell(left[i], right[j]));
    RestColumn(left, right, i, j, true);
  }

  lemma Neutral(a: Tally)
    ensures Plus(a, NOTHING) == a
  {
  }

  // --- The met pairs against all pairs ---

  lemma {:induction false} RowAll(left: seq<Interval>, right: seq<Interval>, i: nat, j: nat)
    requires i < |left| && j <= |right|
    ensures Row(left, right, i, j, false) == RowTotal(left[i], right[j..])
    decreases |right| - j
  {
    if j < |right| {
      RowAll(left, right, i, j + 1);
      assert right[j..][1..] == right[j + 1..];
    }
  }

  lemma {:induction false} RestAll(left: seq<Interval>, right: seq<Interval>, i: nat)
    requires i <= |left|
    ensures Rest(left, right, i, 0, false) == PairTotal(left[i..], right)
    decreases |left| - i
  {
    if i < |left| {
      RestAll(left, right, i + 1);
      RowAll(left, right, i, 0);
      assert right[0..] == right;
      assert left[i..][1..] == left[i + 1..];
    }
  }

  ghost predicate AtMost(a: Tally, b: Tally) {
    a.count <= b.count && a.duration <= b.duration
  }

  lemma PartAtMost(left: seq<Interval>, right: seq<Interval>, i: nat, j: nat)
    requires i < |left| && j < |right|
    ensures var met, all := Part(left, right, i, j, true), Part(left, right, i, j, false);
            if Overlap(left[i], right[j]) > 0.0 && !Met(left, right, i, j)
            then met.count < all.count && met.duration < all.duration
            else met == all
  {
  }

  lemma {:induction false} RowAtMost(left: seq<Interval>, right: seq<Interval>, i: nat, j: nat)
    requires i < |left| && j <= |right|
    ensures AtMost(Row(left, right, i, j, true), Row(left, right, i, j, false))
    ensures (forall k: nat :: j <= k < |right| && Overlap(left[i], right[k]) > 0.0 ==> Met(left, right, i, k)) ==>
              Row(left, right, i, j, true) == Row(left, right, i, j, false)
    decreases |right| - j
  {
    if j < |right| {
      RowAtMost(left, right, i, j + 1);
      PartAtMost(left, right, i, j);
    }
  }

  lemma {:induction false} RowLess(left: seq<Interval>, right: seq<Interval>, i: nat, j: nat, k: nat)
    requires i < |left| && j <= k < |right| && Overlap(left[i], right[k]) > 0.0 && !Met(left, right, i, k)
    ensures Row(left, right, i, j, true).count < Row(left, right, i, j, false).count
    ensures Row(left, right, i, j, true).duration < Row(left, right, i, j, false).duration
    decreases |right| - j
  {
    PartAtMost(left, right, i, j);
    if j == k {
      RowAtMost(left, right, i, j + 1);
    } else {
      RowLess(left, right, i, j + 1, k);
    }
  }

  /** The met pairs never give more than all pairs. */
  lemma {:induction false} RestAtMost(left: seq<Interval>, right: seq<Interval>, i: nat)
    requires i <= |left|
    ensures AtMost(Rest(left, right, i, 0, true), Rest(left, right, i, 0, false))
    ensures AllMet(left, right) ==> Rest(left, right, i, 0, true) == Rest(left, right, i, 0, false)
    decreases |left| - i
  {
    if i < |left| {
      RestAtMost(left, right, i + 1);
      RowAtMost(left, right, i, 0);
    }
  }

  /** One overlapping pair not met makes both figures too small. */
  lemma {:induction false} RestLess(left: seq<Interval>, right: seq<Interval>, i: nat, l: nat, k: nat)
    requires i <= l < |left| && k < |right| && Overlap(left[l], right[k]) > 0.0 && !Met(left, right, l, k)
    ensures Rest(left, right, i, 0, true).count < Rest(left, right, i, 0, false).count
    ensures Rest(left, right, i, 0, true).duration < Rest(left, right, i, 0, false).duration
    decreases |left| - i
  {
    if i == l {
      RowLess(left, right, i, 0, k);
      RestAtMost(left, right, i + 1);
    } else {
      RestLess(left, right, i + 1, l, k);
      RowAtMost(left, right, i, 0);
    }
  }

  /** The sum over the met pairs is the exact total exactly when every overlapping pair is met,
      and otherwise too small in both figures. */
  lemma MetTotal(left: seq<Interval>, right: seq<Interval>)
    ensures var met, all := Rest(left, right, 0, 0, true), PairTotal(left, right);
            && AtMost(met, all)
            && (AllMet(left, right) ==> met == all)
            && (!AllMet(left, right) ==> met.count < all.count && met.duration < all.duration)
  {
    RestAll(left, right, 0);
    assert left[0..] == left;
    RestAtMost(left, right, 0);
    if !AllMet(left, right) {
      var l: nat, k: nat :| l < |left| && k < |right| && Overlap(left[l], right[k]) > 0.0 && !Met(left, right, l, k);
      RestLess(left, right, 0, l, k);
    }
  }

  // --- The sweep ---

  lemma Gather(a: Tally, b: Tally, c: Tally)
    ensures Plus(a, Plus(b, c)) == Plus(Plus(a, b), c)
  {
  }

  lemma SweepStep(left: seq<Interval>, right: seq<Interval>, i: nat, j: nat, soFar: Tally)
    requires i < |left| && j < |right| && Met(left, right, i, j)
    ensures var i', j' := if left[i].end <= right[j].end then i + 1 else i,
                          if left[i].end <= right[j].end then j else j + 1;
            && (i' < |left| && j' < |right| ==> Met(left, right, i', j'))
            && Plus(soFar, Rest(left, right, i, j, true)) ==
               Plus(Plus(soFar, Cell(left[i], right[j])), Rest(left, right, i', j', true))
  {
    if left[i].end <= right[j].end {
      MeetLeft(left, right, i, j);
      AdvanceLeft(left, right, i, j);
      Gather(soFar, Cell(left[i], right[j]), Rest(left, right, i + 1, j, true));
    } else {
      MeetRight(left, right, i, j);
      AdvanceRight(left, right, i, j);
      Gather(soFar, Cell(left[i], right[j]), Rest(left, right, i, j + 1, true));
    }
  }

  /** The two-index loop over sorted lists counts each met pair once, and nothing else. */
  method Sweep(left: seq<Interval>, right: seq<Interval>) returns (count: nat, duration: real)
    ensures Tally(count, duration) == Rest(left, right, 0, 0, true)
  {
    var i, j := 0, 0;
    count, duration := 0, 0.0;
    while i < |left| && j < |right|
      invariant i <= |left| && j <= |right|
      invariant i < |left| && j < |right| ==> Met(left, right, i, j)
      invariant Plus(Tally(count, duration), Rest(left, right, i, j, true)) == Rest(left, right, 0, 0, true)
      decreases |left| - i + |right| - j
    {
      ghost var soFar := Tally(count, duration);
      SweepStep(left, right, i, j, soFar);
      var overlap := Overlap(left[i], right[j]);
      if overlap > 0.0 {
        count, duration := count + 1, duration + overlap;
      }
      assert Tally(count, duration) == Plus(soFar, Cell(left[i], right[j]));
      if left[i].end <= right[j].end {
        i := i + 1;
      } else {
        j := j + 1;
      }
    }
    if i < |left| {
      NoColumnsLeft(left, right, i, true);
    }
    Neutral(Tally(count, duration));
  }

  /** Sorts both lists and sweeps them once. The figures are exact if and only if the sweep
      meets every overlapping pair of the sorted lists; otherwise both are too small. */
  method IntervalOverlap(lefts: seq<Interval>, rights: seq<Interval>) returns (count: nat, duration: real)
    ensures count <= PairTotal(lefts, rights).count && duration <= PairTotal(lefts, rights).duration
    ensures count == PairTotal(lefts, rights).count <==> AllMet(Sorted(lefts), Sorted(rights))
    ensures duration == PairTotal(lefts, rights).duration <==> AllMet(Sorted(lefts), Sorted(rights))
  {
    var left, right := Sorted(lefts), Sorted(rights);
    count, duration := Sweep(left, right);
    MetTotal(left, right);
    PairSortedBoth(lefts, rights);
  }

  /** No two intervals of the list overlap. */
  ghost predicate Disjoint(s: seq<Interval>) {
    forall i, j :: 0 <= i < j < |s| ==> Overlap(s[i], s[j]) <= 0.0
  }

  /** In a sorted disjoint list everything before a proper interval ends by its start. */
  lemma {:induction false} EndedBefore(s: seq<Interval>, i: nat, n: nat)
    requires Ordered(s) && Disjoint(s) && 0 < n <= i < |s| && s[i].start < s[i].end
    ensures LastEnd(s, n) <= s[i].start
  {
    assert Overlap(s[n - 1], s[i]) <= 0.0 && Before(s[n - 1], s[i]);
    if n > 1 {
      EndedBefore(s, i, n - 1);
    }
  }

  /** When neither list overlaps itself, every overlapping pair is met: the sweep is exact. */
  lemma DisjointAllMet(left: seq<Interval>, right: seq<Interval>)
    requires Ordered(left) && Ordered(right) && Disjoint(left) && Disjoint(right)
    ensures AllMet(left, right)
  {
    forall i: nat, j: nat | i < |left| && j < |right| && Overlap(left[i], right[j]) > 0.0
      ensures Met(left, right, i, j)
    {
      LastEndNext(left, i);
      LastEndNext(right, j);
      if i > 0 {
        EndedBefore(left, i, i);
      }
      if j > 0 {
        EndedBefore(right, j, j);
      }
    }
  }

  lemma {:induction false} DisjointInsert(x: Interval, s: seq<Interval>)
    requires Disjoint(s) && forall y :: y in s ==> Overlap(x, y) <= 0.0
    ensures Disjoint(Insert(x, s))
  {
    if s != [] && !Before(x, s[0]) {
      DisjointInsert(x, s[1..]);
      InsertElements(x, s[1..]);
      var rest := Insert(x, s[1..]);
      forall y | y in rest ensures Overlap(s[0], y) <= 0.0 {
        assert y in multiset(rest);
        OverlapSymmetric(s[0], x);
        if y != x {
          var k :| 0 <= k < |s[1..]| && s[1..][k] == y;
          assert y == s[k + 1];
        }
      }
    }
  }

  lemma OverlapSymmetric(a: Interval, b: Interval)
    ensures Overlap(a, b) == Overlap(b, a)
  {
  }

  lemma {:induction false} DisjointSorted(s: seq<Interval>)
    requires Disjoint(s)
    ensures Disjoint(Sorted(s))
  {
    if s != [] {
      DisjointSorted(s[1..]);
      SortedIs(s[1..]);
      forall y | y in Sorted(s[1..]) ensures Overlap(s[0], y) <= 0.0 {
        assert y in multiset(s[1..]);
      }
      DisjointInsert(s[0], Sorted(s[1..]));
    }
  }

  /** For lists that do not overlap themselves the sweep is exact, in either argument order, and
      both orders give the same figures. */
  lemma DisjointExact(lefts: seq<Interval>, rights: seq<Interval>)
    requires Disjoint(lefts) && Disjoint(rights)
    ensures AllMet(Sorted(lefts), Sorted(rights)) && AllMet(Sorted(rights), Sorted(lefts))
    ensures PairTotal(lefts, rights) == PairTotal(rights, lefts)
  {
    DisjointSorted(lefts);
    DisjointSorted(rights);
    SortedIs(lefts);
    SortedIs(rights);
    DisjointAllMet(Sorted(lefts), Sorted(rights));
    DisjointAllMet(Sorted(rights), Sorted(lefts));
    PairSymmetric(lefts, rights);
  }

  lemma SortedPair(a: Interval, b: Interval)
    requires Before(a, b)
    ensures Sorted([a]) == [a] && Sorted([a, b]) == [a, b]
  {
    assert [a][1..] == [] && [b][1..] == [] && [a, b][1..] == [b];
    assert Sorted([b]) == [b];
  }

  /** Not exact in general: a left interval that outlasts the right one hides a later, shorter
      left interval from the sweep. */
  lemma SweepMisses(long: Interval, short: Interval, right: Interval)
    requires Before(long, short) && long.end > right.end && Overlap(short, right) > 0.0
    ensures !AllMet(Sorted([long, short]), Sorted([right]))
  {
    var lefts, rights := [long, short], [right];
    SortedPair(long, short);
    SortedPair(right, right);
    assert LastEnd(lefts, 1) == long.end && LastEnd(rights, 1) == right.end;
    assert !Met(lefts, rights, 1, 0) && Overlap(lefts[1], rights[0]) > 0.0;
  }

  /** For example a read of 0 to 10 s and one of 1 to 2 s against a write of 0 to 5 s. */
  lemma SweepMissesExample()
    ensures !AllMet(Sorted([Interval(0.0, 10.0), Interval(1.0, 2.0)]), Sorted([Interval(0.0, 5.0)]))
  {
    SweepMisses(Interval(0.0, 10.0), Interval(1.0, 2.0), Interval(0.0, 5.0));
  }
}

/** Types shared by the models of the benchmark drivers. */
module Common {

  /** A content key: the index-th key derived from a seed. Different (seed, index) pairs are
      taken to give different keys. Nothing here looks inside a key except to make one. */
  datatype Key = Key(seed: nat, index: nat)

  function ContentKeys(n: nat, seed: nat): (r: seq<Key>)
    ensures |r| == n
  {
    seq(n, i requires 0 <= i < n => Key(seed, i))
  }

  datatype Option<+T> = None | Some(value: T)

  /** How a call ended: normally, or by raising an exception. */
  datatype Outcome = Ok | Raised {
    predicate IsFailure() {
      Raised?
    }

    function PropagateFailure(): Outcome
      requires Raised?
    {
      this
    }
  }

  /** A finished transfer job, as the worker reports it. */
  datatype Report = Report(job: nat, ok: bool)

  function Ids(batch: seq<Report>): (r: set<nat>) {
    set m | m in batch :: m.job
  }

  /** What one poll may return: jobs still owed, each once. */
  ghost predicate Legit(batch: seq<Report>, owed: set<nat>) {
    && (forall i, k :: 0 <= i < k < |batch| ==> batch[i].job != batch[k].job)
    && (forall i :: 0 <= i < |batch| ==> batch[i].job in owed)
  }

  ghost predicate NoDup<T>(s: seq<T>) {
    forall i, j :: 0 <= i < j < |s| ==> s[i] != s[j]
  }

  /** The numbers below n in increasing order, Python's list(range(n)). */
  function Range(n: nat): (r: seq<nat>)
    ensures |r| == n && forall i :: 0 <= i < n ==> r[i] == i
  {
    seq(n, i => i)
  }

  lemma RangeNoDup(n: nat)
    ensures NoDup(Range(n))
    ensures forall x :: x in Range(n) <==> 0 <= x < n
  {
    forall x: nat | x < n ensures x in Range(n) {
      assert Range(n)[x] == x;
    }
  }

  lemma {:induction false} SubsetSize(a: set<nat>, b: set<nat>)
    requires a <= b
    ensures |a| <= |b|
  {
    if a != {} {
      var x :| x in a;
      SubsetSize(a - {x}, b - {x});
    }
  }

  /** The sequences, one after the other. */
  ghost function Joined<T>(parts: seq<seq<T>>): seq<T> {
    if parts == [] then [] else parts[0] + Joined(parts[1..])
  }

  lemma {:induction false} JoinedNext<T>(parts: seq<seq<T>>, last: seq<T>)
    ensures Joined(parts + [last]) == Joined(parts) + last
  {
    if parts == [] {
      assert [last][1..] == [];
    } else {
      assert (parts + [last])[1..] == parts[1..] + [last];
      JoinedNext(parts[1..], last);
    }
  }

  lemma Swap<T>(a: multiset<T>, b: multiset<T>, c: multiset<T>)
    ensures a + (b + c) == b + (a + c)
  {
  }

  lemma Distribute(a: int, b: int, c: int)
    ensures (a + b) * c == a * c + b * c
  {
  }

  /** A handle for invariants that callers carry whole: `forall k {:trigger Open(x, k)} ::
      Open(x, k) ==> P(x)` states P(x), but the verifier looks inside only where Open is
      mentioned for x. */
  ghost predicate Open<T>(x: T, k: int) {
    true
  }
}

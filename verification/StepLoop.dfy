/** The step loop of the in-flight passes: load and store jobs outstanding together, each
    in its own GPU slot, reaped by one non-blocking poll per tick. The worker is a tensor-
    parallel group. The offloading manager is the environment: a ledger of pins and
    reservations, and a plan saying which calls raise (a raising call has no effect). */
module StepLoops {
  import opened Common
  import opened LoopStates
  import opened LoopLogs
  import opened TensorParallel

  /** A release of a claim that the source does not try again if it raises: the manager call it
      was made in, and the claim. */
  datatype Final = Final(call: nat, kind: Kind, keys: seq<Key>)

  /** The environment's ledger, the loop's history, the releases that are not tried again, in
      order, and the keys leaked by them. */
  datatype Books = Books(pins: multiset<Key>, reserved: multiset<Key>, hist: History,
                         leakedPins: multiset<Key>, leakedReservations: multiset<Key>, finals: seq<Final>)

  /** The keys of the final releases that the plan made raise. */
  ghost function Lost(kind: Kind, finals: seq<Final>, faults: set<nat>): multiset<Key> {
    if finals == [] then multiset{} else
      var f := finals[|finals| - 1];
      Lost(kind, finals[..|finals| - 1], faults) +
      if f.kind == kind && f.call in faults then multiset(f.keys) else multiset{}
  }

  /** What leaked is what the final releases lost, no more and no less. */
  ghost predicate Leaks(faults: set<nat>, pins: multiset<Key>, reservations: multiset<Key>, finals: seq<Final>) {
    forall k {:trigger Open(finals, k)} :: Open(finals, k) ==>
      pins == Lost(Load, finals, faults) && reservations == Lost(Store, finals, faults)
  }

  ghost predicate LeaksRight(faults: set<nat>, b: Books) {
    Leaks(faults, b.leakedPins, b.leakedReservations, b.finals)
  }

  /** A final release, in the given call: the claim is gone, or leaked. */
  ghost function Tried(b: Books, kind: Kind, keys: seq<Key>, call: nat, faults: set<nat>): Books {
    (if call in faults then Leaked(b, kind, keys) else Released(b, kind, keys)).(
      finals := b.finals + [Final(call, kind, keys)])
  }

  /** The manager pinned the keys, reserved them, gave a claim just made back, or released one:
      what happened to the ledger and nothing else. */
  ghost predicate PinnedNow(b: Books, b': Books, keys: seq<Key>) {
    forall k {:trigger Open(b', k)} :: Open(b', k) ==> b' == Pinned(b, keys).(hist := b'.hist)
  }

  ghost predicate ReservedNow(b: Books, b': Books, keys: seq<Key>) {
    forall k {:trigger Open(b', k)} :: Open(b', k) ==> b' == MadeReservation(b, keys).(hist := b'.hist)
  }

  ghost predicate GaveBack(b: Books, b': Books, kind: Kind, keys: seq<Key>, call: nat, faults: set<nat>) {
    && b'.finals == b.finals + [Final(call, kind, keys)]
    && b'.hist == b.hist
    && forall k {:trigger Open(b', k)} :: Open(b', k) ==>
         b' == Tried(if kind == Load then Pinned(b, keys) else MadeReservation(b, keys), kind, keys, call, faults)
  }

  ghost predicate SettledNow(b: Books, b': Books, kind: Kind, keys: seq<Key>, call: nat, faults: set<nat>) {
    && b'.finals == b.finals + [Final(call, kind, keys)]
    && b'.hist == b.hist
    && forall k {:trigger Open(b', k)} :: Open(b', k) ==> b' == Tried(b, kind, keys, call, faults)
  }

  lemma TriedLeaks(b: Books, kind: Kind, keys: seq<Key>, call: nat, faults: set<nat>)
    requires LeaksRight(faults, b)
    ensures LeaksRight(faults, Tried(b, kind, keys, call, faults))
  {
    assert Open(b.finals, 0);
    LostNext(Load, b.finals, Final(call, kind, keys), faults);
    LostNext(Store, b.finals, Final(call, kind, keys), faults);
  }

  lemma LostNext(kind: Kind, finals: seq<Final>, f: Final, faults: set<nat>)
    ensures Lost(kind, finals + [f], faults) ==
            if f.kind == kind && f.call in faults then Lost(kind, finals, faults) + multiset(f.keys)
            else Lost(kind, finals, faults)
  {
    assert (finals + [f])[..|finals|] == finals;
    Nothing(Lost(kind, finals, faults));
  }

  /** Every pin and reservation is owed by exactly one job, or leaked. */
  ghost predicate Balanced(st: LoopState, b: Books) {
    && b.pins == PinsHeld(st) + b.leakedPins
    && b.reserved == ReservationsHeld(st) + b.leakedReservations
  }

  ghost predicate Covered(pending: map<nat, Job>, deferred: seq<Prepared>, owing: seq<Owing>, pins: multiset<Key>,
                          reserved: multiset<Key>, leakedPins: multiset<Key>, leakedReservations: multiset<Key>) {
    forall k {:trigger Open(pins, k)} :: Open(pins, k) ==>
      && pins == PendingKeys(Load, pending) + OwingKeys(Load, owing) + leakedPins
      && reserved == PendingKeys(Store, pending) + PreparedKeys(deferred) + OwingKeys(Store, owing) + leakedReservations
  }

  /** Balanced, carried whole. */
  ghost predicate Ledger(st: LoopState, b: Books) {
    Covered(st.pending, st.deferred, st.uncompleted, b.pins, b.reserved, b.leakedPins, b.leakedReservations)
  }

  lemma Audit(st: LoopState, b: Books)
    ensures Ledger(st, b) <==> Balanced(st, b)
  {
    assert Open(b.pins, 0);
  }

  ghost predicate Inv(sz: Sizes, st: LoopState, b: Books) {
    && SlotsOk(sz, st, b.hist)
    && Ledger(st, b)
    && (forall j :: j in st.pending ==> j <= st.jobId)
    && Told(b.hist, st.pending, st.deferred, st.jobId)
  }

  ghost function Pinned(b: Books, keys: seq<Key>): Books {
    b.(pins := b.pins + multiset(keys))
  }

  ghost function Unpinned(b: Books, keys: seq<Key>): Books {
    b.(pins := b.pins - multiset(keys))
  }

  ghost function MadeReservation(b: Books, keys: seq<Key>): Books {
    b.(reserved := b.reserved + multiset(keys))
  }

  ghost function Unreserved(b: Books, keys: seq<Key>): Books {
    b.(reserved := b.reserved - multiset(keys))
  }

  ghost function LeakedPins(b: Books, keys: seq<Key>): Books {
    b.(leakedPins := b.leakedPins + multiset(keys))
  }

  ghost function LeakedReservations(b: Books, keys: seq<Key>): Books {
    b.(leakedReservations := b.leakedReservations + multiset(keys))
  }

  /** A job's completion releases its keys, once. */
  ghost function Released(b: Books, kind: Kind, keys: seq<Key>): Books {
    if kind == Load then Unpinned(b, keys) else Unreserved(b, keys)
  }

  ghost function Releasable(b: Books, kind: Kind, keys: seq<Key>): bool {
    multiset(keys) <= if kind == Load then b.pins else b.reserved
  }

  /** Inv, carried whole. */
  ghost predicate Sound(sz: Sizes, st: LoopState, b: Books) {
    forall k {:trigger Open(st, k)} :: Open(st, k) ==> Inv(sz, st, b)
  }

  lemma Unseal(sz: Sizes, st: LoopState, b: Books)
    requires Sound(sz, st, b)
    ensures Inv(sz, st, b)
  {
    assert Open(st, 0);
  }

  lemma LaunchedSound(sz: Sizes, st: LoopState, b: Books, hits: seq<Key>, tag: nat, now: real) returns (b': Books)
    requires Sound(sz, st, b) && st.loads.free != [] && |hits| <= sz.loadJobBlocks
    ensures Sound(sz, Launched(NextId(st), hits, tag, now), b')
    ensures PinnedNow(b, b', hits) && b'.hist == HistoryLaunched(NextId(st), b.hist, hits, now) && SameFinals(b, b')
  {
    var s, h := NextId(st), HistoryLaunched(NextId(st), b.hist, hits, now);
    b' := Pinned(b, hits).(hist := h);
    Unseal(sz, st, b);
    assert SlotsOk(sz, Launched(s, hits, tag, now), h) by {
      NextIdOk(sz, st, b.hist);
      LaunchedSlots(sz, s, b.hist, hits, tag, now);
    }
    assert Told(h, Launched(s, hits, tag, now).pending, st.deferred, s.jobId) by {
      LaunchedTold(st, b.hist, hits, tag, now);
    }
    assert Ledger(Launched(s, hits, tag, now), b') by {
      LaunchedBalanced(s, b, hits, tag, now);
    }
  }

  lemma LaunchedBalanced(st: LoopState, b: Books, hits: seq<Key>, tag: nat, now: real)
    requires Ledger(st, b) && st.loads.free != [] && st.jobId !in st.pending
    ensures Ledger(Launched(st, hits, tag, now), Pinned(b, hits))
  {
    Audit(st, b);
    Audit(Launched(st, hits, tag, now), Pinned(b, hits));
    LaunchedLedger(st, hits, tag, now);
    Carry(PinsHeld(st), multiset(hits), b.leakedPins);
  }

  lemma Carry(a: multiset<Key>, b: multiset<Key>, c: multiset<Key>)
    ensures a + c + b == a + b + c
  {
  }

  lemma NextIdSound(sz: Sizes, st: LoopState, b: Books)
    requires Sound(sz, st, b)
    ensures Sound(sz, NextId(st), b)
  {
    Unseal(sz, st, b);
    NextIdOk(sz, st, b.hist);
    ToldLater(b.hist, st.pending, st.deferred, st.jobId);
  }

  /** A claim just made and given back, whether or not that raises. */
  lemma UndoneSound(sz: Sizes, st: LoopState, b: Books, kind: Kind, keys: seq<Key>, call: nat, faults: set<nat>)
    returns (b': Books)
    requires Sound(sz, st, b) && LeaksRight(faults, b)
    ensures Sound(sz, st, b') && LeaksRight(faults, b') && GaveBack(b, b', kind, keys, call, faults)
  {
    var claimed := if kind == Load then Pinned(b, keys) else MadeReservation(b, keys);
    b' := Tried(claimed, kind, keys, call, faults);
    Unseal(sz, st, b);
    UndoneBalanced(st, b, keys, call, faults);
    TriedLeaks(claimed, kind, keys, call, faults);
  }

  lemma UndoneBalanced(st: LoopState, b: Books, keys: seq<Key>, call: nat, faults: set<nat>)
    requires Ledger(st, b)
    ensures Ledger(st, Tried(Pinned(b, keys), Load, keys, call, faults))
    ensures Ledger(st, Tried(MadeReservation(b, keys), Store, keys, call, faults))
  {
    assert Open(b.pins, 0);
    Added(b.pins, PendingKeys(Load, st.pending) + OwingKeys(Load, st.uncompleted), b.leakedPins, multiset(keys));
    Added(b.reserved, PendingKeys(Store, st.pending) + PreparedKeys(st.deferred) + OwingKeys(Store, st.uncompleted),
          b.leakedReservations, multiset(keys));
  }

  lemma Added(all: multiset<Key>, held: multiset<Key>, leaked: multiset<Key>, keys: multiset<Key>)
    requires all == held + leaked
    ensures all + keys == held + (leaked + keys) && all + keys - keys == all
  {
  }

  lemma MissesSound(sz: Sizes, st: LoopState, b: Books, n: nat)
    requires Sound(sz, st, b)
    ensures Sound(sz, LoadMisses(st, n), b) && Sound(sz, StoreMisses(st, n), b)
  {
    Unseal(sz, st, b);
    MissesOk(sz, st, b.hist, n);
  }

  lemma SampledSound(sz: Sizes, st: LoopState, b: Books, now: real)
    requires Sound(sz, st, b)
    ensures Sound(sz, LoopSampled(st, now), b)
  {
    Unseal(sz, st, b);
    SampledSlots(sz, st, b.hist, now);
  }

  lemma ReservedSound(sz: Sizes, st: LoopState, b: Books, keys: seq<Key>, tag: nat, now: real) returns (b': Books)
    requires Sound(sz, st, b) && st.stores.free != [] && |keys| <= sz.storeJobBlocks
    ensures Sound(sz, Reserved(st, keys, tag, now), b')
    ensures ReservedNow(b, b', keys) && b'.hist == HistoryReserved(st, b.hist, keys, now) && SameFinals(b, b')
  {
    b' := MadeReservation(b, keys).(hist := HistoryReserved(st, b.hist, keys, now));
    Unseal(sz, st, b);
    ReservedSlots(sz, st, b.hist, keys, tag, now);
    ReservedTold(st, b.hist, keys, tag, now);
    ReservedBalanced(st, b, keys, tag, now);
  }

  lemma ReservedBalanced(st: LoopState, b: Books, keys: seq<Key>, tag: nat, now: real)
    requires Ledger(st, b) && st.stores.free != []
    ensures Ledger(Reserved(st, keys, tag, now), MadeReservation(b, keys))
  {
    Audit(st, b);
    Audit(Reserved(st, keys, tag, now), MadeReservation(b, keys));
    ReservedLedger(st, keys, tag, now);
    Carry(ReservationsHeld(st), multiset(keys), b.leakedReservations);
  }

  lemma SentSound(sz: Sizes, st: LoopState, b: Books)
    requires Sound(sz, st, b) && st.deferred != []
    ensures Sound(sz, Sent(NextId(st)), b.(hist := HistorySent(NextId(st), b.hist)))
  {
    Unseal(sz, st, b);
    NextIdOk(sz, st, b.hist);
    SentSlots(sz, NextId(st), b.hist);
    SentTold(st, b.hist);
    SentBalanced(NextId(st), b);
  }

  lemma SentBalanced(st: LoopState, b: Books)
    requires Ledger(st, b) && st.deferred != [] && st.jobId !in st.pending
    ensures Ledger(Sent(st), b)
  {
    Audit(st, b);
    Audit(Sent(st), b);
    SentLedger(st);
  }

  ghost function RetiredBooks(st: LoopState, b: Books, j: nat, completed: bool, now: real): Books
    requires j in st.pending
  {
    var b' := b.(hist := HistoryRetired(st.pending, b.hist, j, now));
    if completed then Released(b', st.pending[j].kind, st.pending[j].keys) else b'
  }

  lemma RetiredSound(sz: Sizes, st: LoopState, b: Books, j: nat, success: bool, completed: bool, now: real)
    requires Sound(sz, st, b) && j in st.pending
    requires st.loads.stats.tLast == Some(now) == st.stores.stats.tLast
    ensures Releasable(b, st.pending[j].kind, st.pending[j].keys)
    ensures Sound(sz, Retired(st, j, success, completed), RetiredBooks(st, b, j, completed, now))
  {
    Unseal(sz, st, b);
    RetiredSlots(sz, st, b.hist, j, success, completed, now);
    RetiredTold(st.pending, st.deferred, b.hist, j, now, st.jobId);
    RetiredBalanced(st, b, j, success, completed, now);
  }

  lemma RetiredBalanced(st: LoopState, b: Books, j: nat, success: bool, completed: bool, now: real)
    requires Ledger(st, b) && j in st.pending
    ensures Releasable(b, st.pending[j].kind, st.pending[j].keys)
    ensures Ledger(Retired(st, j, success, completed), RetiredBooks(st, b, j, completed, now))
  {
    Audit(st, b);
    Audit(Retired(st, j, success, completed), RetiredBooks(st, b, j, completed, now));
    var job := st.pending[j];
    RetiredLedger(st, j, success, true);
    RetiredLedger(st, j, success, completed);
    var st' := Retired(st, j, success, true);
    if job.kind == Load {
      Subtract(b.pins, PinsHeld(st'), multiset(job.keys), b.leakedPins);
    } else {
      Subtract(b.reserved, ReservationsHeld(st'), multiset(job.keys), b.leakedReservations);
    }
  }

  lemma Subtract(all: multiset<Key>, rest: multiset<Key>, taken: multiset<Key>, leaked: multiset<Key>)
    requires all == rest + taken + leaked
    ensures taken <= all && all - taken == rest + leaked && all == rest + (leaked + taken)
  {
  }

  class StepLoop {
    const worker: TpGroup
    const sz: Sizes
    const touchFirst: bool
    const prefixStop: bool
    const verify: bool
    const drainEvents: bool
    /** Which calls into the manager or the verifier raise, by number. */
    const faults: set<nat>
    var calls: nat
    var st: LoopState
    ghost var books: Books

    /** No job id is ever used twice. */
    ghost predicate IdsFresh()
      reads this, worker
    {
      forall j :: j in worker.phase ==> j <= st.jobId
    }

    ghost predicate Valid()
      reads this, worker
    {
      && worker.Valid()
      && worker.outstanding == st.pending.Keys
      && IdsFresh()
      && Sound(sz, st, books)
      && LeaksRight(faults, books)
    }

    ghost function Now(): Moment
      reads this, worker
    {
      Moment(books, calls, worker.submits, worker.Bad(), faults, worker.faults.Keys)
    }

    constructor (worker: TpGroup, sz: Sizes, touchFirst: bool, prefixStop: bool, verify: bool, drainEvents: bool,
                 faults: set<nat>)
      requires worker.Valid() && worker.outstanding == {} && worker.phase == map[]
      ensures Valid() && this.worker == worker && this.sz == sz && this.faults == faults && calls == 0
      ensures st == Idle(sz) && books == Books(multiset{}, multiset{}, NoHistory(), multiset{}, multiset{}, [])
    {
      this.worker, this.sz, this.faults := worker, sz, faults;
      this.touchFirst, this.prefixStop, this.verify, this.drainEvents := touchFirst, prefixStop, verify, drainEvents;
      calls, st := 0, Idle(sz);
      books := Books(multiset{}, multiset{}, NoHistory(), multiset{}, multiset{}, []);
      IdleOk(sz);
    }

    /** Pins the hits (call n) and submits them. If the submission raises, the pins are
        released again (call n + 1) before the error propagates; they stay, leaked, exactly
        when that release raises too. */
    method Launch(hits: seq<Key>, tag: nat, now: real) returns (o: Outcome)
      requires Valid() && st.loads.free != [] && |hits| <= sz.loadJobBlocks
      modifies this, worker
      ensures Valid() && Kept(o, old(Now()), Now())
      ensures o.Raised? <==> old(calls) in faults || old(worker.submits) in worker.faults
      ensures o.Ok? ==> st == Launched(NextId(old(st)), hits, tag, now)
      ensures o.Raised? ==> st == NextId(old(st))
      ensures calls == old(calls) + if old(calls) !in faults && o.Raised? then 2 else 1
      ensures worker.submits == old(worker.submits) + if old(calls) in faults then 0 else 1
      ensures o.Ok? ==> PinnedNow(old(books), books, hits) && SameFinals(old(books), books)
      ensures o.Ok? ==> books.hist == HistoryLaunched(NextId(old(st)), old(books.hist), hits, now)
      ensures o.Raised? && old(calls) in faults ==> books == old(books)
      ensures o.Raised? && old(calls) !in faults ==>
                worker.phase ==
                  old(worker.phase)[st.jobId := PartlyStarted(worker.world, worker.Reached(old(worker.submits)))]
      ensures o.Raised? && old(calls) !in faults ==> GaveBack(old(books), books, Load, hits, old(calls) + 1, faults)
    {
      var n, s := calls, NextId(st);
      ghost var b := books;
      NextIdSound(sz, st, b);
      if n in faults {
        o, calls, st := Raised, n + 1, s;
      } else {
        o := worker.Submit(s.jobId);
        if o.Raised? {
          ghost var undone := UndoneSound(sz, s, b, Load, hits, n + 1, faults);
          calls, st, books := n + 2, s, undone;
          KeptUndone(old(Now()), Now(), Load, hits, n + 1);
        } else {
          ghost var launched := LaunchedSound(sz, st, b, hits, tag, now);
          calls, st, books := n + 1, Launched(s, hits, tag, now), launched;
        }
      }
    }

    /** One call that has no effect on the ledger. */
    method Call() returns (o: Outcome)
      modifies this`calls
      ensures calls == old(calls) + 1
      ensures o.Raised? <==> old(calls) in faults
      ensures Ran(o.Ok?, old(Now()), Now())
    {
      o := if calls in faults then Raised else Ok;
      calls := calls + 1;
    }

    /** Touches and looks up a unit; the hits are a prefix of it when the loop stops at the
        first miss. */
    method Lookups(unit: seq<Key>) returns (o: Outcome, hits: seq<Key>)
      modifies this`calls
      ensures |hits| <= |unit| && multiset(hits) <= multiset(unit)
      ensures prefixStop ==> hits <= unit
      ensures calls > old(calls) && Ran(o.Ok?, old(Now()), Now())
    {
      o, hits := Ok, [];
      RanSame(Now());
      if touchFirst {
        o := Call();
        if o.Raised? {
          return;
        }
      }
      for i := 0 to |unit|
        invariant PartOf(hits, unit[..i])
        invariant prefixStop ==> hits == unit[..i]
        invariant calls >= old(calls) && (touchFirst ==> calls > old(calls))
        invariant o.Ok? && Ran(true, old(Now()), Now())
      {
        PartNext(hits, unit, i);
        ghost var m := Now();
        o := Call();
        RanOn(old(Now()), true, m, o.Ok?, Now());
        if o.Raised? {
          return;
        }
        var hit: bool := *;
        if hit {
          hits := hits + [unit[i]];
        } else if prefixStop {
          break;
        }
      }
      PartWhole(hits, unit);
      ghost var m := Now();
      if !touchFirst {
        o := Call();
        RanOn(old(Now()), true, m, o.Ok?, Now());
      }
    }

    /** Zeroes the job's GPU blocks when verifying, then looks its keys up. */
    method Probe(unit: seq<Key>) returns (o: Outcome, hits: seq<Key>)
      modifies this`calls
      ensures |hits| <= |unit| && multiset(hits) <= multiset(unit)
      ensures prefixStop ==> hits <= unit
      ensures calls > old(calls) && Ran(o.Ok?, old(Now()), Now())
    {
      o, hits := Ok, [];
      RanSame(Now());
      if verify {
        o := Call();
      }
      if o.Ok? {
        ghost var m := Now();
        o, hits := Lookups(unit);
        RanOn(old(Now()), true, m, o.Ok?, Now());
      }
    }

    /** Starts one load job for a request's keys: zero its GPU blocks when verifying, touch
        and look up (calls that may raise, with nothing pinned yet), then launch the hits. */
    method StartLoad(unit: seq<Key>, tag: nat, now: real) returns (o: Outcome, hits: seq<Key>)
      requires Valid() && st.loads.free != [] && |unit| <= sz.loadJobBlocks
      modifies this, worker
      ensures Valid() && Kept(o, old(Now()), Now())
      ensures |hits| <= |unit| && multiset(hits) <= multiset(unit) && (prefixStop ==> hits <= unit)
      ensures o.Ok? && hits == [] ==> st == LoadMisses(NextId(old(st)), |unit|)
      ensures o.Ok? && hits != [] ==>
                st == LoadMisses(Launched(NextId(old(st)), hits, tag, now), |unit| - |hits|)
      ensures o.Raised? ==> st == NextId(old(st))
      ensures calls > old(calls) && worker.submits >= old(worker.submits)
      ensures o.Ok? && hits == [] ==> books == old(books)
      ensures o.Ok? && hits != [] ==> PinnedNow(old(books), books, hits) && SameFinals(old(books), books)
      ensures o.Ok? && hits != [] ==> books.hist == HistoryLaunched(NextId(old(st)), old(books.hist), hits, now)
      ensures o.Raised? && worker.submits == old(worker.submits) ==> books == old(books)
      ensures o.Raised? && worker.submits > old(worker.submits) ==>
                GaveBack(old(books), books, Load, hits, calls - 1, faults)
    {
      o, hits := Probe(unit);
      ghost var m := Now();
      RanKept(o, old(Now()), m);
      if o.Ok? && hits != [] {
        o := Launch(hits, tag, now);
        KeptOn(old(Now()), m, o, Now());
      } else {
        NextIdSound(sz, st, books);
        st := NextId(st);
      }
      if o.Ok? {
        MissesSound(sz, st, books, |unit| - |hits|);
        st := LoadMisses(st, |unit| - |hits|);
      }
    }

    /** Starts one load job for keys the caller has already looked up; refuses a job larger
        than its slot. */
    method StartLoadHits(hits: seq<Key>, tag: nat, now: real) returns (o: Outcome)
      requires Valid() && st.loads.free != []
      modifies this, worker
      ensures Valid() && (|hits| <= sz.loadJobBlocks ==> Kept(o, old(Now()), Now()))
      ensures |hits| > sz.loadJobBlocks ==> o.Raised? && st == old(st) && Now() == old(Now())
      ensures |hits| <= sz.loadJobBlocks ==>
                (o.Raised? <==> old(calls) in faults || old(worker.submits) in worker.faults)
      ensures o.Ok? ==> st == Launched(NextId(old(st)), hits, tag, now)
      ensures |hits| <= sz.loadJobBlocks && o.Raised? ==> st == NextId(old(st))
      ensures o.Ok? ==> PinnedNow(old(books), books, hits) && SameFinals(old(books), books)
      ensures o.Ok? ==> books.hist == HistoryLaunched(NextId(old(st)), old(books.hist), hits, now)
      ensures o.Raised? && (|hits| > sz.loadJobBlocks || old(calls) in faults) ==> books == old(books)
      ensures o.Raised? && |hits| <= sz.loadJobBlocks && old(calls) !in faults ==>
                worker.phase ==
                  old(worker.phase)[st.jobId := PartlyStarted(worker.world, worker.Reached(old(worker.submits)))]
      ensures o.Raised? && |hits| <= sz.loadJobBlocks && old(calls) !in faults ==>
                GaveBack(old(books), books, Load, hits, old(calls) + 1, faults)
    {
      if |hits| > sz.loadJobBlocks {
        return Raised;
      }
      o := Launch(hits, tag, now);
    }

    /** Some of the unit's keys, in the unit's order: those the manager could reserve. */
    method Reservable(unit: seq<Key>) returns (kept: seq<Key>)
      ensures |kept| <= |unit| && multiset(kept) <= multiset(unit)
    {
      kept := [];
      for i := 0 to |unit|
        invariant PartOf(kept, unit[..i])
      {
        PartNext(kept, unit, i);
        var ok: bool := *;
        if ok {
          kept := kept + [unit[i]];
        }
      }
      PartWhole(kept, unit);
    }

    /** Reserves a unit's keys (call n) and defers the store to the next tick. If touching
        them (call n + 1) raises, the reservation is undone (call n + 2); it stays, leaked,
        exactly when that raises too. */
    method PrepareStore(unit: seq<Key>, tag: nat, now: real) returns (o: Outcome, stored: seq<Key>)
      requires Valid() && st.stores.free != [] && |unit| <= sz.storeJobBlocks
      modifies this
      ensures Valid() && Kept(o, old(Now()), Now())
      ensures |stored| <= |unit| && multiset(stored) <= multiset(unit)
      ensures o.Ok? && stored == [] ==> st == StoreMisses(old(st), |unit|)
      ensures o.Ok? && stored != [] ==>
                st == Reserved(StoreMisses(old(st), |unit| - |stored|), stored, tag, now)
      ensures o.Raised? ==> st.pending == old(st).pending && st.deferred == old(st).deferred
      ensures o.Ok? && stored != [] ==> ReservedNow(old(books), books, stored) && SameFinals(old(books), books)
      ensures o.Ok? && stored != [] ==>
                books.hist == HistoryReserved(StoreMisses(old(st), |unit| - |stored|), old(books.hist), stored, now)
      ensures o.Raised? && stored != [] ==> GaveBack(old(books), books, Store, stored, old(calls) + 2, faults)
      ensures stored == [] ==> books == old(books)
      ensures o.Raised? <==> old(calls) in faults || (stored != [] && old(calls) + 1 in faults)
    {
      stored := Reservable(unit);
      var n, s := calls, StoreMisses(st, |unit| - |stored|);
      ghost var b := books;
      MissesSound(sz, st, b, |unit| - |stored|);
      if n in faults {
        o, stored, calls := Raised, [], n + 1;
      } else if stored == [] {
        o, calls, st := Ok, n + 1, s;
      } else if n + 1 in faults {
        ghost var undone := UndoneSound(sz, s, b, Store, stored, n + 2, faults);
        o, calls, st, books := Raised, n + 3, s, undone;
        KeptUndone(old(Now()), Now(), Store, stored, n + 2);
      } else {
        ghost var reserved := ReservedSound(sz, s, b, stored, tag, now);
        o, calls, st, books := Ok, n + 2, Reserved(s, stored, tag, now), reserved;
      }
    }

    /** If submission n was made, it raised, and exactly the ranks it reached have the last job.
        Carried whole. */
    ghost predicate Stray(n: nat)
      reads this, worker
    {
      forall k {:trigger Open(worker, k)} :: Open(worker, k) && worker.submits > n ==>
        && n in worker.faults && worker.world > 0 && st.jobId in worker.phase
        && worker.phase[st.jobId] == PartlyStarted(worker.world, worker.Reached(n))
    }

    /** Submits the first prepared store. */
    method SubmitFirst() returns (o: Outcome, ghost n: nat)
      requires Valid() && st.deferred != []
      modifies this, worker
      ensures Valid() && SameFinals(old(books), books) && Ran(o.Ok?, old(Now()), Now())
      ensures o.Ok? ==> st == Sent(NextId(old(st))) && books.hist == HistorySent(NextId(old(st)), old(books.hist))
      ensures o.Raised? ==> st == NextId(old(st)) && books == old(books)
      ensures n == old(worker.submits) && (o.Ok? ==> worker.submits == n + 1)
      ensures o.Raised? ==> n <= worker.submits <= n + 1 && Stray(n)
    {
      n := worker.submits;
      var s := NextId(st);
      NextIdSound(sz, st, books);
      SentSound(sz, st, books);
      o := Ok;
      RanSame(Now());
      if verify {
        o := Call();
      }
      ghost var m := Now();
      if o.Ok? {
        o := worker.Submit(s.jobId);
        RanOn(old(Now()), true, m, o.Ok?, Now());
      }
      m := Now();
      if o.Ok? {
        st, books := Sent(s), books.(hist := HistorySent(s, books.hist));
      } else {
        st := s;
      }
      RanBooks(o.Ok?, old(Now()), m, books);
    }

    /** Submits every prepared store, in order. One whose submission raises stays prepared, and
        so do those after it; `sent` counts those before it, and n is the submission's number. */
    method SubmitDeferred() returns (o: Outcome, ghost sent: nat, ghost n: nat)
      requires Valid()
      modifies this, worker
      ensures Valid()
      ensures o.Ok? ==> st == SentAll(old(st)) && sent == |old(st).deferred|
      ensures o.Raised? ==> sent < |old(st).deferred| && st == NextId(SentSome(old(st), sent))
      ensures sent <= |old(st).deferred| && books.hist == HistorySentSome(old(st), old(books.hist), sent)
      ensures old(st).deferred == [] ==> o.Ok? && worker.patience == old(worker.patience)
      ensures SameFinals(old(books), books) && Ran(o.Ok?, old(Now()), Now())
      ensures o.Raised? ==> n == old(worker.submits) + sent && Stray(n)
    {
      o := Ok;
      RanSame(Now());
      sent, n := 0, worker.submits;
      while st.deferred != []
        invariant Valid() && SentAll(st) == SentAll(old(st)) && o.Ok?
        invariant sent <= |old(st).deferred| && st == SentSome(old(st), sent)
        invariant books.hist == HistorySentSome(old(st), old(books.hist), sent)
        invariant old(st).deferred == [] ==> st == old(st) && worker.patience == old(worker.patience)
        invariant worker.submits == old(worker.submits) + sent
        invariant SameFinals(old(books), books) && Ran(true, old(Now()), Now())
        decreases |st.deferred|
      {
        ghost var m := Now();
        o, n := SubmitFirst();
        RanOn(old(Now()), true, m, o.Ok?, Now());
        if o.Raised? {
          return;
        }
        sent := sent + 1;
      }
    }

    /** Completes one finished job and gives its slot back. A load's blocks are compared
        first when verifying; whatever raises, the job is completed or remembered. */
    method Retire(m: Report, ghost now: real) returns (error: bool)
      requires Sound(sz, st, books) && m.job in st.pending
      requires st.loads.stats.tLast == Some(now) == st.stores.stats.tLast
      modifies this
      ensures Sound(sz, st, books)
      ensures exists completed :: st == Retired(old(st), m.job, m.ok, completed) && (!error ==> completed)
      ensures books.hist == HistoryRetired(old(st).pending, old(books.hist), m.job, now)
      ensures Ran(!error, old(Now()), Now())
    {
      error := false;
      RanSame(Now());
      if m.ok && st.pending[m.job].kind == Load && verify {
        var checked := Call();
        error := checked.Raised?;
      }
      ghost var m1 := Now();
      var o := Call();
      ghost var m2 := Now();
      RanOn(old(Now()), !error, m1, o.Ok?, m2);
      RetiredSound(sz, st, books, m.job, m.ok, o.Ok?, now);
      assert Releasable(books, st.pending[m.job].kind, st.pending[m.job].keys);
      books := RetiredBooks(st, books, m.job, o.Ok?, now);
      st := Retired(st, m.job, m.ok, o.Ok?);
      error := error || o.Raised?;
      RanBooks(!error, old(Now()), m2, books);
    }

    /** Completes the i-th job of a batch. */
    method RetireNext(batch: seq<Report>, i: nat, ghost s: LoopState, ghost h: History, ghost now: real,
                      done: seq<Done>)
      returns (error: bool, done': seq<Done>)
      requires Sound(sz, st, books) && Legit(batch, s.pending.Keys) && i < |batch|
      requires Legit(batch[..i], s.pending.Keys) && st.pending == s.pending - Ids(batch[..i])
      requires st.loads.stats.tLast == Some(now) == st.stores.stats.tLast
      requires books.hist == HistoryRetiredAll(s.pending, h, batch[..i], now)
      modifies this
      ensures Sound(sz, st, books) && Legit(batch[..i + 1], s.pending.Keys)
      ensures st.pending == s.pending - Ids(batch[..i + 1])
      ensures st.deferred == old(st).deferred && st.jobId == old(st).jobId
      ensures st.loads.stats.tLast == Some(now) == st.stores.stats.tLast
      ensures books.hist == HistoryRetiredAll(s.pending, h, batch[..i + 1], now)
      ensures !error && batch[i].ok && old(st) == RetiredAll(s, batch[..i]) ==> st == RetiredAll(s, batch[..i + 1])
      ensures batch[i].ok && done == DoneOf(s.pending, batch[..i]) ==> done' == DoneOf(s.pending, batch[..i + 1])
      ensures Ran(!error, old(Now()), Now())
    {
      PendingNext(s.pending, batch, i);
      assert batch[..i + 1][..i] == batch[..i];
      RetiredAllLast(s, batch[..i + 1], batch[..i]);
      DoneNext(s.pending, batch, i);
      var m := batch[i];
      var job := st.pending[m.job];
      error := Retire(m, now);
      done' := if m.ok then done + [Done(job.kind, job.keys, job.tag)] else done;
    }

    /** Completes every job of a batch, in order. */
    method RetireBatch(batch: seq<Report>, ghost now: real) returns (error: bool, failed: bool, done: seq<Done>)
      requires Sound(sz, st, books) && Legit(batch, st.pending.Keys)
      requires batch != [] ==> st.loads.stats.tLast == Some(now) == st.stores.stats.tLast
      modifies this
      ensures Sound(sz, st, books)
      ensures st.pending == old(st).pending - Ids(batch) && st.deferred == old(st).deferred && st.jobId == old(st).jobId
      ensures books.hist == HistoryRetiredAll(old(st).pending, old(books.hist), batch, now)
      ensures !failed <==> forall k :: 0 <= k < |batch| ==> batch[k].ok
      ensures !error && !failed ==> st == RetiredAll(old(st), batch) && done == DoneOf(old(st).pending, batch)
      ensures Ran(!error, old(Now()), Now())
    {
      error, failed, done := false, false, [];
      FailedAll(false, batch);
      ghost var s := st;
      RanSame(Now());
      for i := 0 to |batch|
        invariant Sound(sz, st, books) && Legit(batch[..i], s.pending.Keys)
        invariant st.pending == s.pending - Ids(batch[..i]) && st.deferred == s.deferred && st.jobId == s.jobId
        invariant batch != [] ==> st.loads.stats.tLast == Some(now) == st.stores.stats.tLast
        invariant books.hist == HistoryRetiredAll(s.pending, old(books.hist), batch[..i], now)
        invariant Ran(!error, old(Now()), Now())
        invariant FailedOf(failed, batch, i)
        invariant !error && !failed ==> st == RetiredAll(s, batch[..i])
        invariant !failed ==> done == DoneOf(s.pending, batch[..i])
      {
        var e;
        ghost var m := Now();
        e, done := RetireNext(batch, i, s, old(books.hist), now, done);
        RanOn(old(Now()), !error, m, !e, Now());
        FailedNext(failed, batch, i);
        error, failed := error || e, failed || !batch[i].ok;
      }
      FailedAll(failed, batch);
      assert batch[..|batch|] == batch;
    }

    /** One poll: every finished job is completed, then the first error or failed transfer, if
        any, is raised. */
    method Reap(now: real) returns (o: Outcome, done: seq<Done>, ghost batch: seq<Report>)
      requires Valid()
      modifies this, worker
      ensures Valid()
      ensures Legit(batch, old(st).pending.Keys)
      ensures st.pending == old(st).pending - Ids(batch) && st.deferred == old(st).deferred
      ensures books.hist == HistoryRetiredAll(old(st).pending, old(books.hist), batch, now)
      ensures o.Ok? ==> forall i :: 0 <= i < |batch| ==> batch[i].ok
      ensures o.Ok? ==> st == Reaped(old(st), batch, now) && done == DoneOf(old(st).pending, batch)
      ensures old(st).pending != map[] && batch == [] ==> worker.patience < old(worker.patience)
      ensures SameFinals(old(books), books) && Ran(o.Ok?, old(Now()), Now())
    {
      var finished := worker.GetFinished();
      batch := finished;
      ghost var m1 := Now();
      PollRan(old(Now()), m1, finished);
      if finished != [] {
        SampledSound(sz, st, books, now);
        st := LoopSampled(st, now);
      }
      var error, failed;
      error, failed, done := RetireBatch(finished, now);
      ghost var m2 := Now();
      RanOn(old(Now()), !failed, m1, !error, m2);
      RanFinals(!failed && !error, old(Now()), m2);
      if error {
        return Raised, done, batch;
      }
      o := Ok;
      if drainEvents && exists d :: d in done && d.kind == Store {
        o := Call();
        RanOn(old(Now()), !failed, m2, o.Ok?, Now());
      }
      if failed {
        o := Raised;
      }
    }

    /** Completes one job while aborting; if that raises too, its keys are given up. */
    method Settle(ghost st': LoopState, kind: Kind, keys: seq<Key>) returns (o: Outcome)
      requires Ledger(st, books) && LeaksRight(faults, books) && ClaimGone(st, st', kind, keys)
      modifies this`calls, this`books
      ensures Ledger(st', books) && LeaksRight(faults, books)
      ensures calls == old(calls) + 1 && (o.Raised? <==> old(calls) in faults)
      ensures SettledNow(old(books), books, kind, keys, old(calls), faults)
    {
      books := ClaimSettled(st, st', books, kind, keys, calls, faults);
      o := Call();
    }

    /** Aborts prepared stores, retries failed completions, then drains what is outstanding,
        for at most `rounds` polls. Each claim is released in one manager call, in that order:
        the calls are consecutive, and `clean` says that none of them raised. Once nothing is
        outstanding, nothing is pinned or reserved exactly when no final release of a non-empty
        claim was in the plan. */
    method Abort(rounds: nat) returns (clean: bool, ghost reported: seq<Report>)
      requires Valid()
      modifies this, worker
      ensures st.deferred == [] && st.uncompleted == []
      ensures Legit(reported, old(st).pending.Keys) && st.pending == old(st).pending - Ids(reported)
      ensures Balanced(st, books) && LeaksRight(faults, books)
      ensures books.finals == old(books.finals) + AbortFinals(old(st), reported, old(calls))
      ensures calls == old(calls) + |AbortFinals(old(st), reported, old(calls))|
      ensures clean <==> NoneRaised(old(calls), calls, faults)
      ensures Goes(old(Now()), Now())
      ensures st.pending == map[] ==>
                (books.pins == multiset{} == books.reserved <==> NothingLost(books.finals, faults))
    {
      Unseal(sz, st, books);
      ghost var n, s, f0 := calls, st, books.finals;
      var aborted := AbortPrepared();
      ghost var f1 := books.finals;
      var retried := RetryCompletions();
      ghost var f2 := books.finals;
      var drained;
      drained, reported := Drain(rounds);
      clean := aborted && retried && drained;
      ghost var m := n + |s.deferred|;
      CleanJoin(aborted, retried, n, m, m + |s.uncompleted|, faults);
      CleanJoin(aborted && retried, drained, n, m + |s.uncompleted|, calls, faults);
      assert Open(faults, 0);
      AbortJoin(f0, f1, f2, books.finals, s, reported, n);
      Audit(st, books);
      if st.pending == map[] {
        NothingHeld(st, books, faults);
      }
    }

    /** Gives back the reservation of every prepared store. */
    method AbortPrepared() returns (clean: bool)
      requires Ledger(st, books) && LeaksRight(faults, books)
      modifies this`calls, this`st, this`books
      ensures Ledger(st, books) && LeaksRight(faults, books)
      ensures st == old(st).(deferred := [])
      ensures books.finals == old(books.finals) + PreparedFinals(old(st).deferred, old(calls))
      ensures calls == old(calls) + |old(st).deferred| && CleanSince(clean, old(calls), calls, faults)
    {
      clean := true;
      CleanStart(calls, faults);
      var i := 0;
      while st.deferred != []
        invariant Ledger(st, books) && LeaksRight(faults, books)
        invariant 0 <= i <= |old(st).deferred| && st == old(st).(deferred := old(st).deferred[i..])
        invariant books.finals == old(books.finals) + PreparedFinals(old(st).deferred[..i], old(calls))
        invariant calls == old(calls) + i && CleanSince(clean, old(calls), calls, faults)
        decreases |st.deferred|
      {
        DeferredClaim(st);
        var st' := st.(deferred := st.deferred[1..]);
        CleanNext(clean, old(calls), calls, faults);
        var o := Settle(st', Store, st.deferred[0].keys);
        PreparedFinalsNext(old(st).deferred, i, old(calls));
        st := st';
        clean := clean && o.Ok?;
        i := i + 1;
      }
      assert old(st).deferred[..i] == old(st).deferred;
    }

    /** Completes once more every job whose completion raised. */
    method RetryCompletions() returns (clean: bool)
      requires Ledger(st, books) && LeaksRight(faults, books)
      modifies this`calls, this`st, this`books
      ensures Ledger(st, books) && LeaksRight(faults, books)
      ensures st == old(st).(uncompleted := [])
      ensures books.finals == old(books.finals) + OwingFinals(old(st).uncompleted, old(calls))
      ensures calls == old(calls) + |old(st).uncompleted| && CleanSince(clean, old(calls), calls, faults)
    {
      clean := true;
      CleanStart(calls, faults);
      var i := 0;
      while st.uncompleted != []
        invariant Ledger(st, books) && LeaksRight(faults, books)
        invariant 0 <= i <= |old(st).uncompleted| && st == old(st).(uncompleted := old(st).uncompleted[i..])
        invariant books.finals == old(books.finals) + OwingFinals(old(st).uncompleted[..i], old(calls))
        invariant calls == old(calls) + i && CleanSince(clean, old(calls), calls, faults)
        decreases |st.uncompleted|
      {
        OwingClaim(st);
        var st' := st.(uncompleted := st.uncompleted[1..]);
        CleanNext(clean, old(calls), calls, faults);
        var o := Settle(st', st.uncompleted[0].kind, st.uncompleted[0].keys);
        OwingFinalsNext(old(st).uncompleted, i, old(calls));
        st := st';
        clean := clean && o.Ok?;
        i := i + 1;
      }
      assert old(st).uncompleted[..i] == old(st).uncompleted;
    }

    /** Completes the jobs of one batch while aborting. */
    method SettleBatch(batch: seq<Report>) returns (clean: bool)
      requires Ledger(st, books) && LeaksRight(faults, books) && Legit(batch, st.pending.Keys)
      modifies this`calls, this`st, this`books
      ensures Ledger(st, books) && LeaksRight(faults, books)
      ensures st == old(st).(pending := old(st).pending - Ids(batch))
      ensures books.finals == old(books.finals) + ReportFinals(old(st).pending, batch, old(calls))
      ensures calls == old(calls) + |batch| && CleanSince(clean, old(calls), calls, faults)
    {
      clean := true;
      CleanStart(calls, faults);
      for i := 0 to |batch|
        invariant Ledger(st, books) && LeaksRight(faults, books)
        invariant st == old(st).(pending := old(st).pending - Ids(batch[..i]))
        invariant Legit(batch[..i], old(st).pending.Keys)
        invariant books.finals == old(books.finals) + ReportFinals(old(st).pending, batch[..i], old(calls))
        invariant calls == old(calls) + i && CleanSince(clean, old(calls), calls, faults)
      {
        PendingNext(old(st).pending, batch, i);
        ReportFinalsNext(old(st).pending, batch, i, old(calls));
        var j := batch[i].job;
        PendingClaim(st, j);
        var st' := st.(pending := st.pending - {j});
        CleanNext(clean, old(calls), calls, faults);
        var o := Settle(st', st.pending[j].kind, st.pending[j].keys);
        st := st';
        clean := clean && o.Ok?;
      }
      assert batch[..|batch|] == batch;
    }

    /** One poll while aborting. */
    method DrainOnce() returns (clean: bool, ghost batch: seq<Report>)
      requires worker.Valid() && worker.outstanding == st.pending.Keys
      requires Ledger(st, books) && LeaksRight(faults, books)
      modifies this`calls, this`st, this`books, worker
      ensures worker.Valid() && worker.outstanding == st.pending.Keys
      ensures Ledger(st, books) && LeaksRight(faults, books)
      ensures Legit(batch, old(st).pending.Keys) && st == old(st).(pending := old(st).pending - Ids(batch))
      ensures books.finals == old(books.finals) + ReportFinals(old(st).pending, batch, old(calls))
      ensures calls == old(calls) + |batch| && CleanSince(clean, old(calls), calls, faults)
      ensures worker.submits == old(worker.submits) && old(worker.Bad()) <= worker.Bad()
    {
      var finished := worker.GetFinished();
      batch := finished;
      clean := SettleBatch(finished);
    }

    /** Polls until nothing is outstanding, or for `rounds` polls. */
    method Drain(rounds: nat) returns (clean: bool, ghost reported: seq<Report>)
      requires worker.Valid() && worker.outstanding == st.pending.Keys
      requires Ledger(st, books) && LeaksRight(faults, books)
      modifies this`calls, this`st, this`books, worker
      ensures Ledger(st, books) && LeaksRight(faults, books)
      ensures Legit(reported, old(st).pending.Keys)
      ensures st == old(st).(pending := old(st).pending - Ids(reported))
      ensures books.finals == old(books.finals) + ReportFinals(old(st).pending, reported, old(calls))
      ensures calls == old(calls) + |reported| && CleanSince(clean, old(calls), calls, faults)
      ensures worker.submits == old(worker.submits) && old(worker.Bad()) <= worker.Bad()
    {
      clean, reported := true, [];
      CleanStart(calls, faults);
      var round := 0;
      while st.pending != map[] && round < rounds
        invariant worker.Valid() && worker.outstanding == st.pending.Keys
        invariant Ledger(st, books) && LeaksRight(faults, books)
        invariant Legit(reported, old(st).pending.Keys)
        invariant st == old(st).(pending := old(st).pending - Ids(reported))
        invariant books.finals == old(books.finals) + ReportFinals(old(st).pending, reported, old(calls))
        invariant calls == old(calls) + |reported| && CleanSince(clean, old(calls), calls, faults)
        invariant worker.submits == old(worker.submits) && old(worker.Bad()) <= worker.Bad()
      {
        ghost var batch;
        var settled;
        settled, batch := DrainOnce();
        ReportsJoin(old(st).pending, reported, batch, old(calls));
        CleanJoin(clean, settled, old(calls), old(calls) + |reported|, calls, faults);
        clean := clean && settled;
        round := round + 1;
        reported := reported + batch;
      }
    }
  }

  /** The keys of a, each as often as in a, are among those of b. */
  ghost predicate PartOf(a: seq<Key>, b: seq<Key>) {
    forall k {:trigger Open(a, k)} :: Open(a, k) ==> |a| <= |b| && multiset(a) <= multiset(b)
  }

  lemma PartNext(kept: seq<Key>, unit: seq<Key>, i: nat)
    requires i < |unit| && PartOf(kept, unit[..i])
    ensures PartOf(kept, unit[..i + 1]) && PartOf(kept + [unit[i]], unit[..i + 1])
    ensures |kept| <= |unit| && multiset(kept) <= multiset(unit)
    ensures kept == unit[..i] ==> kept <= unit && kept + [unit[i]] == unit[..i + 1]
  {
    assert Open(kept, 0);
    assert unit[..i + 1] == unit[..i] + [unit[i]];
    assert unit == unit[..i] + unit[i..];
  }

  lemma PartWhole(kept: seq<Key>, unit: seq<Key>)
    ensures unit[..|unit|] == unit
    ensures PartOf(kept, unit) ==> |kept| <= |unit| && multiset(kept) <= multiset(unit)
  {
    assert Open(kept, 0);
    assert unit[..|unit|] == unit;
  }

  /** No final release was made in between, and nothing leaked. */
  ghost predicate SameFinals(b: Books, b': Books) {
    b'.finals == b.finals && b'.leakedPins == b.leakedPins && b'.leakedReservations == b.leakedReservations
  }

  // --- When code raises ---

  /** A moment of a run: the ledger, the calls and submissions made so far, the jobs that failed,
      and the plan. */
  datatype Moment = Moment(books: Books, calls: nat, submits: nat, spoiled: set<nat>, faults: set<nat>,
                           refused: set<nat>)

  /** Time only goes on. */
  ghost predicate Goes(m: Moment, m': Moment) {
    && m.calls <= m'.calls && m.submits <= m'.submits && m.spoiled <= m'.spoiled
    && m'.faults == m.faults && m'.refused == m.refused
  }

  /** Since then no manager call and no submission was in the plan, and no transfer failed. */
  ghost predicate Smooth(m: Moment, m': Moment) {
    && (forall i :: m.calls <= i < m'.calls ==> i !in m.faults)
    && (forall i :: m.submits <= i < m'.submits ==> i !in m.refused)
    && m'.spoiled == m.spoiled
  }

  ghost predicate RanOk(fine: bool, m: Moment, m': Moment) {
    SameFinals(m.books, m'.books) && Goes(m, m') && (fine <==> Smooth(m, m'))
  }

  /** Code that is fine exactly when nothing went wrong meanwhile, and makes no final release.
      Carried whole. */
  ghost predicate Ran(fine: bool, m: Moment, m': Moment) {
    forall k {:trigger Open(m', k)} :: Open(m', k) ==> RanOk(fine, m, m')
  }

  ghost predicate KeptOk(o: Outcome, m: Moment, m': Moment) {
    var b, b' := m.books, m'.books;
    && Goes(m, m') && (o.Ok? <==> Smooth(m, m'))
    && (o.Ok? ==> SameFinals(b, b'))
    && (b'.finals == b.finals || (|b'.finals| > 0 && b'.finals[..|b'.finals| - 1] == b.finals))
  }

  /** Code that returns exactly when nothing went wrong meanwhile. It then made no final release;
      if it raised, at most one. Carried whole. */
  ghost predicate Kept(o: Outcome, m: Moment, m': Moment) {
    forall k {:trigger Open(m', k)} :: Open(m', k) ==> KeptOk(o, m, m')
  }

  lemma RanSame(m: Moment)
    ensures Ran(true, m, m) && Kept(Ok, m, m)
  {
  }

  lemma RanFinals(fine: bool, m: Moment, m': Moment)
    requires Ran(fine, m, m')
    ensures SameFinals(m.books, m'.books)
  {
    assert Open(m', 0);
  }

  lemma RanBooks(fine: bool, m: Moment, m': Moment, b: Books)
    requires Ran(fine, m, m') && SameFinals(m'.books, b)
    ensures Ran(fine, m, m'.(books := b))
  {
    assert Open(m', 0);
  }

  lemma RanOn(m: Moment, fine: bool, m1: Moment, fine': bool, m2: Moment)
    requires Ran(fine, m, m1) && Ran(fine', m1, m2)
    ensures Ran(fine && fine', m, m2)
  {
    assert Open(m1, 0) && Open(m2, 0);
  }

  /** A poll is fine exactly when every job it returns succeeded. */
  lemma PollRan(m: Moment, m': Moment, out: seq<Report>)
    requires m' == m.(spoiled := m.spoiled + Failures(out)) && m.spoiled !! Failures(out)
    ensures Ran(forall i :: 0 <= i < |out| ==> out[i].ok, m, m')
  {
    FailuresNone(m.spoiled, out);
  }

  lemma RanKept(o: Outcome, m: Moment, m': Moment)
    requires Ran(o.Ok?, m, m')
    ensures Kept(o, m, m')
  {
    assert Open(m', 0);
  }

  lemma KeptUndone(m: Moment, m': Moment, kind: Kind, keys: seq<Key>, call: nat)
    requires GaveBack(m.books, m'.books, kind, keys, call, m.faults) && Goes(m, m') && !Smooth(m, m')
    ensures Kept(Raised, m, m')
  {
  }

  lemma KeptFinals(o: Outcome, m: Moment, m': Moment)
    requires Kept(o, m, m')
    ensures o.Ok? ==> m'.books.finals == m.books.finals
  {
    assert Open(m', 0);
  }

  lemma KeptOn(m: Moment, m1: Moment, o: Outcome, m2: Moment)
    requires Kept(Ok, m, m1) && Kept(o, m1, m2)
    ensures Kept(o, m, m2)
  {
    assert Open(m1, 0) && Open(m2, 0);
  }

  /** What went wrong stays so, whatever happens next. */
  lemma KeptEnd(o: Outcome, m: Moment, m1: Moment, m2: Moment)
    requires Kept(o, m, m1) && Goes(m1, m2)
    ensures o.Ok? ==> Smooth(m, m1)
    ensures o.Raised? ==> !Smooth(m, m2)
  {
    assert Open(m1, 0);
  }

  /** None of the calls numbered from..to is in the plan. */
  ghost predicate NoneRaised(from: nat, to: nat, faults: set<nat>) {
    forall i :: i in faults ==> !(from <= i < to)
  }

  /** `clean` says whether none did. */
  ghost predicate CleanSince(clean: bool, from: nat, to: nat, faults: set<nat>) {
    forall k {:trigger Open(faults, k)} :: Open(faults, k) ==> (clean <==> NoneRaised(from, to, faults))
  }

  lemma CleanStart(from: nat, faults: set<nat>)
    ensures CleanSince(true, from, from, faults)
  {
  }

  lemma CleanNext(clean: bool, from: nat, to: nat, faults: set<nat>)
    requires CleanSince(clean, from, to, faults) && from <= to
    ensures CleanSince(clean && to !in faults, from, to + 1, faults)
  {
    assert Open(faults, 0);
  }

  lemma CleanJoin(a: bool, b: bool, from: nat, mid: nat, to: nat, faults: set<nat>)
    requires CleanSince(a, from, mid, faults) && CleanSince(b, mid, to, faults) && from <= mid <= to
    ensures CleanSince(a && b, from, to, faults)
  {
    assert Open(faults, 0);
  }

  /** No final release of a non-empty claim is in the plan. */
  ghost predicate NothingLost(finals: seq<Final>, faults: set<nat>) {
    forall i :: 0 <= i < |finals| && finals[i].keys != [] ==> finals[i].call !in faults
  }

  // --- The abort's releases: one call each, in order ---

  ghost function PreparedFinals(deferred: seq<Prepared>, n: nat): seq<Final> {
    seq(|deferred|, i requires 0 <= i < |deferred| => Final(n + i, Store, deferred[i].keys))
  }

  ghost function OwingFinals(owing: seq<Owing>, n: nat): seq<Final> {
    seq(|owing|, i requires 0 <= i < |owing| => Final(n + i, owing[i].kind, owing[i].keys))
  }

  ghost function ReportFinals(pending: map<nat, Job>, reported: seq<Report>, n: nat): seq<Final>
    requires Legit(reported, pending.Keys)
  {
    seq(|reported|, i requires 0 <= i < |reported| =>
      var job := pending[reported[i].job]; Final(n + i, job.kind, job.keys))
  }

  /** What an abort releases, from call n on: prepared stores, failed completions, reported jobs. */
  ghost function AbortFinals(st: LoopState, reported: seq<Report>, n: nat): seq<Final>
    requires Legit(reported, st.pending.Keys)
  {
    var m := n + |st.deferred|;
    PreparedFinals(st.deferred, n) + OwingFinals(st.uncompleted, m) +
    ReportFinals(st.pending, reported, m + |st.uncompleted|)
  }

  lemma AbortJoin(f0: seq<Final>, f1: seq<Final>, f2: seq<Final>, f3: seq<Final>, st: LoopState, reported: seq<Report>,
                  n: nat)
    requires Legit(reported, st.pending.Keys)
    requires f1 == f0 + PreparedFinals(st.deferred, n)
    requires f2 == f1 + OwingFinals(st.uncompleted, n + |st.deferred|)
    requires f3 == f2 + ReportFinals(st.pending, reported, n + |st.deferred| + |st.uncompleted|)
    ensures f3 == f0 + AbortFinals(st, reported, n)
    ensures |AbortFinals(st, reported, n)| == |st.deferred| + |st.uncompleted| + |reported|
  {
  }

  lemma PreparedFinalsNext(deferred: seq<Prepared>, i: nat, n: nat)
    requires i < |deferred|
    ensures PreparedFinals(deferred[..i + 1], n) ==
              PreparedFinals(deferred[..i], n) + [Final(n + i, Store, deferred[i].keys)]
  {
  }

  lemma OwingFinalsNext(owing: seq<Owing>, i: nat, n: nat)
    requires i < |owing|
    ensures OwingFinals(owing[..i + 1], n) == OwingFinals(owing[..i], n) + [Final(n + i, owing[i].kind, owing[i].keys)]
  {
  }

  lemma ReportFinalsNext(pending: map<nat, Job>, batch: seq<Report>, i: nat, n: nat)
    requires Legit(batch, pending.Keys) && i < |batch|
    requires Legit(batch[..i], pending.Keys) && Legit(batch[..i + 1], pending.Keys)
    ensures var job := pending[batch[i].job];
            ReportFinals(pending, batch[..i + 1], n) ==
              ReportFinals(pending, batch[..i], n) + [Final(n + i, job.kind, job.keys)]
  {
  }

  /** Two batches reported one after the other are one batch. */
  lemma ReportsJoin(pending: map<nat, Job>, a: seq<Report>, b: seq<Report>, n: nat)
    requires Legit(a, pending.Keys) && Legit(b, (pending - Ids(a)).Keys)
    ensures Legit(a + b, pending.Keys) && pending - Ids(a) - Ids(b) == pending - Ids(a + b)
    ensures ReportFinals(pending, a + b, n) == ReportFinals(pending, a, n) + ReportFinals(pending - Ids(a), b, n + |a|)
  {
    assert Ids(a + b) == Ids(a) + Ids(b);
  }

  ghost function Leaked(b: Books, kind: Kind, keys: seq<Key>): Books {
    if kind == Load then LeakedPins(b, keys) else LeakedReservations(b, keys)
  }

  /** Releasing a claim, or giving it up as leaked, keeps the ledger balanced. */
  lemma ClaimSettled(st: LoopState, st': LoopState, b: Books, kind: Kind, keys: seq<Key>, call: nat, faults: set<nat>)
    returns (b': Books)
    requires Ledger(st, b) && LeaksRight(faults, b) && ClaimGone(st, st', kind, keys)
    ensures Releasable(b, kind, keys)
    ensures Ledger(st', b') && LeaksRight(faults, b') && SettledNow(b, b', kind, keys, call, faults)
  {
    b' := Tried(b, kind, keys, call, faults);
    TriedLeaks(b, kind, keys, call, faults);
    assert Open(keys, 0);
    Audit(st, b);
    Audit(st', Tried(b, kind, keys, call, faults));
    if kind == Load {
      Subtract(b.pins, PinsHeld(st'), multiset(keys), b.leakedPins);
      Nothing(ReservationsHeld(st'));
    } else {
      Subtract(b.reserved, ReservationsHeld(st'), multiset(keys), b.leakedReservations);
      Nothing(PinsHeld(st'));
    }
  }

  /** With no job left, nothing is pinned or reserved exactly when no final release of a non-empty
      claim was in the plan. */
  lemma NothingHeld(st: LoopState, b: Books, faults: set<nat>)
    requires Balanced(st, b) && LeaksRight(faults, b)
    requires st.pending == map[] && st.deferred == [] && st.uncompleted == []
    ensures b.pins == b.leakedPins && b.reserved == b.leakedReservations
    ensures b.pins == multiset{} == b.reserved <==> NothingLost(b.finals, faults)
  {
    LostNothing(b.finals, faults);
    assert Open(b.finals, 0);
  }

  lemma {:induction false} LostNothing(finals: seq<Final>, faults: set<nat>)
    ensures Lost(Load, finals, faults) == multiset{} == Lost(Store, finals, faults) <==> NothingLost(finals, faults)
  {
    if finals != [] {
      var n := |finals| - 1;
      var f := finals[n];
      LostNothing(finals[..n], faults);
      assert NothingLost(finals, faults) <==> NothingLost(finals[..n], faults) && (f.keys != [] ==> f.call !in faults);
      EmptySum(Lost(Load, finals[..n], faults), f.keys);
      EmptySum(Lost(Store, finals[..n], faults), f.keys);
    }
  }

  lemma EmptySum(a: multiset<Key>, keys: seq<Key>)
    ensures a + multiset{} == a
    ensures a + multiset(keys) == multiset{} <==> a == multiset{} && keys == []
  {
    assert |a + multiset(keys)| == |a| + |keys|;
  }

  /** The state after a poll whose whole batch succeeded. */
  function Reaped(st: LoopState, batch: seq<Report>, now: real): (r: LoopState)
    requires Legit(batch, st.pending.Keys)
  {
    if batch == [] then st else RetiredAll(LoopSampled(st, now), batch)
  }

  lemma DoneNext(pending: map<nat, Job>, batch: seq<Report>, i: nat)
    requires Legit(batch, pending.Keys) && i < |batch|
    requires Legit(batch[..i], pending.Keys) && Legit(batch[..i + 1], pending.Keys)
    ensures DoneOf(pending, batch[..i + 1]) == DoneOf(pending, batch[..i]) +
            var job := pending[batch[i].job]; [Done(job.kind, job.keys, job.tag)]
  {
  }

  lemma RetiredAllLast(st: LoopState, batch: seq<Report>, init: seq<Report>)
    requires Legit(batch, st.pending.Keys) && batch != [] && init == batch[..|batch| - 1]
    ensures Legit(init, st.pending.Keys)
    ensures var m := batch[|batch| - 1];
            m.job in RetiredAll(st, init).pending &&
              RetiredAll(st, batch) == Retired(RetiredAll(st, init), m.job, m.ok, true)
  {
  }

  lemma FewerPending(pending: map<nat, Job>, batch: seq<Report>)
    requires Legit(batch, pending.Keys)
    ensures |pending - Ids(batch)| <= |pending| && (batch != [] ==> |pending - Ids(batch)| < |pending|)
  {
    var rest := pending - Ids(batch);
    assert rest.Keys == pending.Keys - Ids(batch);
    if batch == [] {
      assert rest == pending;
    } else {
      assert batch[0].job in Ids(batch);
      SubsetSize(rest.Keys, pending.Keys - {batch[0].job});
    }
  }

  lemma PendingNext(pending: map<nat, Job>, batch: seq<Report>, i: nat)
    requires Legit(batch, pending.Keys) && i < |batch|
    ensures Legit(batch[..i], pending.Keys) && Legit(batch[..i + 1], pending.Keys)
    ensures batch[i].job in pending - Ids(batch[..i])
    ensures (pending - Ids(batch[..i]))[batch[i].job] == pending[batch[i].job]
    ensures pending - Ids(batch[..i]) - {batch[i].job} == pending - Ids(batch[..i + 1])
  {
    IdsNext(batch, pending.Keys, i);
  }

  lemma IdsNext(batch: seq<Report>, owed: set<nat>, i: nat)
    requires Legit(batch, owed) && i < |batch|
    ensures Legit(batch[..i], owed) && Legit(batch[..i + 1], owed)
    ensures batch[i].job in owed && batch[i].job !in Ids(batch[..i])
    ensures Ids(batch[..i + 1]) == Ids(batch[..i]) + {batch[i].job}
  {
    assert batch[..i + 1] == batch[..i] + [batch[i]];
  }
}

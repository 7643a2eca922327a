/** Repeated load passes over a working set: which load job to start next, and the timed
    window that runs them. */
module LoadWindows {
  import opened Common
  import opened LoopStates
  import opened StepLoops

  /** What is left of the current pass, the units in flight, and the passes begun. */
  datatype Turn = Turn(order: seq<nat>, busy: set<nat>, passes: nat)

  const FIRST := Turn([], {}, 0)

  // --- Units ---

  /** The keys in jobs of jobBlocks keys, the last one possibly shorter. */
  function JobUnits(keys: seq<Key>, jobBlocks: nat): (units: seq<seq<Key>>)
    requires jobBlocks > 0
    ensures forall i :: 0 <= i < |units| ==> 0 < |units[i]| <= jobBlocks
  {
    if |keys| <= jobBlocks then if keys == [] then [] else [keys]
    else [keys[..jobBlocks]] + JobUnits(keys[jobBlocks..], jobBlocks)
  }

  /** The units are the keys, in order, nothing twice and nothing left out. */
  lemma {:induction false} JobUnitsJoined(keys: seq<Key>, jobBlocks: nat)
    requires jobBlocks > 0
    ensures Joined(JobUnits(keys, jobBlocks)) == keys
    decreases |keys|
  {
    if |keys| > jobBlocks {
      JobUnitsJoined(keys[jobBlocks..], jobBlocks);
      assert keys == keys[..jobBlocks] + keys[jobBlocks..];
    } else if keys != [] {
      assert Joined([keys]) == keys;
    }
  }

  // --- Attempts and keys asked for ---

  /** Keys asked for when unit u has been attempted attempts[u] times. */
  ghost function Asked(units: seq<seq<Key>>, attempts: seq<nat>): nat
    requires |attempts| == |units|
  {
    if units == [] then 0 else attempts[0] * |units[0]| + Asked(units[1..], attempts[1..])
  }

  lemma {:induction false} AskedMore(units: seq<seq<Key>>, attempts: seq<nat>, u: nat)
    requires |attempts| == |units| && u < |units|
    ensures Asked(units, attempts[u := attempts[u] + 1]) == Asked(units, attempts) + |units[u]|
  {
    var more := attempts[u := attempts[u] + 1];
    if u == 0 {
      assert more[1..] == attempts[1..];
      Distribute(attempts[0], 1, |units[0]|);
    } else {
      assert more[1..] == attempts[1..][u - 1 := attempts[u] + 1];
      AskedMore(units[1..], attempts[1..], u - 1);
    }
  }

  /** When every unit was attempted n times, n times the working set was asked for. */
  lemma {:induction false} AskedAlike(units: seq<seq<Key>>, attempts: seq<nat>, n: nat)
    requires |attempts| == |units| && forall u :: 0 <= u < |units| ==> attempts[u] == n
    ensures Asked(units, attempts) == n * |Joined(units)|
  {
    if units != [] {
      AskedAlike(units[1..], attempts[1..], n);
      Distribute(|units[0]|, |Joined(units[1..])|, n);
    }
  }

  // --- The invariant, part by part ---

  /** Each unit's attempts are the passes begun, less one while it is still in the order. */
  ghost predicate TurnOk(n: nat, order: seq<nat>, passes: nat, attempts: seq<nat>) {
    forall k {:trigger Open(order, k)} :: Open(order, k) ==>
      && |attempts| == n && NoDup(order)
      && (forall u :: u in order ==> u < n)
      && (forall u :: 0 <= u < n ==> attempts[u] == passes - if u in order then 1 else 0)
  }

  ghost predicate Carries(pending: map<nat, Job>, j: nat, u: nat) {
    j in pending && pending[j].kind == Load && pending[j].tag == u
  }

  /** The busy units are exactly those of the outstanding load jobs, one job each. */
  ghost predicate BusyOk(busy: set<nat>, pending: map<nat, Job>) {
    forall k {:trigger Open(pending, k)} :: Open(pending, k) ==>
      && (forall u :: u in busy <==> exists j :: Carries(pending, j, u))
      && (forall i, j, u :: Carries(pending, i, u) && Carries(pending, j, u) ==> i == j)
  }

  /** Every key asked for is loaded, missed or in flight. */
  ghost predicate Tally(base: nat, units: seq<seq<Key>>, attempts: seq<nat>, st: LoopState) {
    forall k {:trigger Open(attempts, k)} :: Open(attempts, k) ==>
      |attempts| == |units| && Carried(Load, st) == base + Asked(units, attempts)
  }

  ghost predicate WindowOk(base: nat, units: seq<seq<Key>>, t: Turn, attempts: seq<nat>, st: LoopState) {
    && TurnOk(|units|, t.order, t.passes, attempts)
    && BusyOk(t.busy, st.pending)
    && Tally(base, units, attempts, st)
  }

  lemma FirstOk(base: nat, units: seq<seq<Key>>, st: LoopState)
    requires st.pending == map[] && base == st.loads.stats.blocks + st.loads.stats.misses
    ensures WindowOk(base, units, FIRST, seq(|units|, _ => 0), st)
  {
    AskedAlike(units, seq(|units|, _ => 0), 0);
  }

  // --- Steps ---

  /** A new pass: every unit again, in some order. */
  lemma NewPass(n: nat, passes: nat, attempts: seq<nat>, order: seq<nat>)
    requires TurnOk(n, [], passes, attempts) && NoDup(order) && forall u :: u in order <==> 0 <= u < n
    ensures TurnOk(n, order, passes + 1, attempts)
  {
    var none: seq<nat> := [];
    assert Open(none, 0);
  }

  /** The unit at position i of the order is attempted. */
  lemma Attempt(n: nat, order: seq<nat>, passes: nat, attempts: seq<nat>, i: nat)
    requires TurnOk(n, order, passes, attempts) && i < |order|
    ensures order[i] < n && |attempts| == n
    ensures TurnOk(n, order[..i] + order[i + 1..], passes, attempts[order[i] := attempts[order[i]] + 1])
  {
    assert Open(order, 0);
    var u, rest := order[i], order[..i] + order[i + 1..];
    assert order == order[..i] + [u] + order[i + 1..];
    assert forall k :: 0 <= k < |rest| ==> rest[k] == order[if k < i then k else k + 1];
    assert u in order && u !in rest;
    forall v | v != u ensures v in rest <==> v in order {
    }
  }

  lemma TallyMissed(base: nat, units: seq<seq<Key>>, attempts: seq<nat>, st: LoopState, u: nat)
    requires Tally(base, units, attempts, st) && u < |units| == |attempts|
    ensures Tally(base, units, attempts[u := attempts[u] + 1], LoadMisses(NextId(st), |units[u]|))
  {
    assert Open(attempts, 0);
    AskedMore(units, attempts, u);
  }

  lemma TallyLaunched(base: nat, units: seq<seq<Key>>, attempts: seq<nat>, st: LoopState, u: nat, hits: seq<Key>,
                      now: real)
    requires Tally(base, units, attempts, st) && u < |units| == |attempts|
    requires st.loads.free != [] && st.jobId + 1 !in st.pending && |hits| <= |units[u]|
    ensures Tally(base, units, attempts[u := attempts[u] + 1],
                  LoadMisses(Launched(NextId(st), hits, u, now), |units[u]| - |hits|))
  {
    assert Open(attempts, 0);
    AskedMore(units, attempts, u);
    LaunchedCarried(NextId(st), hits, u, now);
  }

  lemma BusyAdded(busy: set<nat>, pending: map<nat, Job>, j: nat, job: Job)
    requires BusyOk(busy, pending) && j !in pending && job.kind == Load && job.tag !in busy
    ensures BusyOk(busy + {job.tag}, pending[j := job])
  {
    assert Open(pending, 0);
    var pending' := pending[j := job];
    assert forall i, u :: i != j ==> Carries(pending', i, u) == Carries(pending, i, u);
    assert Carries(pending', j, job.tag);
    forall u ensures u in busy + {job.tag} <==> exists i :: Carries(pending', i, u) {
      if i :| Carries(pending, i, u) {
        assert Carries(pending', i, u);
      }
    }
  }

  lemma BusyRemoved(busy: set<nat>, pending: map<nat, Job>, j: nat)
    requires BusyOk(busy, pending) && j in pending
    ensures BusyOk(if pending[j].kind == Load then busy - {pending[j].tag} else busy, pending - {j})
  {
    assert Open(pending, 0);
    var pending', t := pending - {j}, pending[j].tag;
    assert forall i, u :: i != j ==> Carries(pending', i, u) == Carries(pending, i, u);
    assert pending[j].kind == Load ==> Carries(pending, j, t);
    var busy' := if pending[j].kind == Load then busy - {t} else busy;
    forall u ensures u in busy' <==> exists i :: Carries(pending', i, u) {
      if i :| Carries(pending, i, u) && i != j {
        assert Carries(pending', i, u);
      }
    }
  }

  /** The unit at position i of the order has been attempted; it is in flight if it had hits. */
  function TurnAfter(t: Turn, i: nat, hits: seq<Key>): (t': Turn)
    requires i < |t.order|
  {
    t.(order := t.order[..i] + t.order[i + 1..], busy := if hits == [] then t.busy else t.busy + {t.order[i]})
  }

  lemma StartStep(base: nat, units: seq<seq<Key>>, t: Turn, attempts: seq<nat>, st: LoopState, i: nat, hits: seq<Key>,
                  now: real, st': LoopState)
    requires WindowOk(base, units, t, attempts, st) && st.loads.free != [] && st.jobId + 1 !in st.pending
    requires i < |t.order| && t.order[i] !in t.busy && t.order[i] < |units| == |attempts| &&
               |hits| <= |units[t.order[i]]|
    requires var u := t.order[i];
             st' == if hits == [] then LoadMisses(NextId(st), |units[u]|)
                    else LoadMisses(Launched(NextId(st), hits, u, now), |units[u]| - |hits|)
    ensures WindowOk(base, units, TurnAfter(t, i, hits), attempts[t.order[i] := attempts[t.order[i]] + 1], st')
  {
    var u := t.order[i];
    Attempt(|units|, t.order, t.passes, attempts, i);
    if hits == [] {
      TallyMissed(base, units, attempts, st, u);
    } else {
      TallyLaunched(base, units, attempts, st, u, hits, now);
      BusyAdded(t.busy, st.pending, st.jobId + 1, Job(Load, hits, st.loads.free[0], u));
    }
  }

  lemma StartFresh(loop: StepLoop)
    requires loop.Valid()
    ensures loop.st.jobId + 1 !in loop.st.pending
  {
    Unseal(loop.sz, loop.st, loop.books);
  }

  /** Reaping moves keys from in flight to loaded. */
  lemma ReapedTally(base: nat, units: seq<seq<Key>>, attempts: seq<nat>, st: LoopState, batch: seq<Report>, now: real)
    requires Tally(base, units, attempts, st)
    requires Legit(batch, st.pending.Keys) && forall i :: 0 <= i < |batch| ==> batch[i].ok
    ensures Tally(base, units, attempts, Reaped(st, batch, now))
  {
    assert Open(attempts, 0);
    if batch != [] {
      RetiredAllCarried(LoopSampled(st, now), batch, Load);
    }
  }

  // --- The scheduler ---

  /** Some permutation of the numbers below n. */
  method Shuffled(n: nat) returns (order: seq<nat>)
    ensures NoDup(order) && forall u :: u in order <==> 0 <= u < n
  {
    order := [];
    var rest := set u | u in Range(n);
    RangeNoDup(n);
    while rest != {}
      invariant NoDup(order)
      invariant forall u :: u in order ==> u !in rest
      invariant forall u :: u in order || u in rest <==> 0 <= u < n
      decreases |rest|
    {
      var u :| u in rest;
      order, rest := order + [u], rest - {u};
    }
  }

  /** The first unit of the order that is not in flight: its position, or the order's length. */
  method NextIdle(order: seq<nat>, busy: set<nat>) returns (i: nat)
    ensures i <= |order|
    ensures forall k :: 0 <= k < i ==> order[k] in busy
    ensures i < |order| ==> order[i] !in busy
  {
    i := 0;
    while i < |order| && order[i] in busy
      invariant i <= |order|
      invariant forall k :: 0 <= k < i ==> order[k] in busy
    {
      i := i + 1;
    }
  }

  class LoadScheduler {
    const units: seq<seq<Key>>
    var t: Turn
    ghost var attempts: seq<nat>

    constructor (units: seq<seq<Key>>)
      ensures this.units == units && t == FIRST && attempts == seq(|units|, _ => 0)
    {
      this.units, t, attempts := units, FIRST, seq(|units|, _ => 0);
    }

    /** Attempts the unit at position i of the order. */
    method Start(loop: StepLoop, i: nat, ghost base: nat, now: real) returns (o: Outcome)
      requires loop.Valid() && loop.st.loads.free != []
      requires WindowOk(base, units, t, attempts, loop.st)
      requires i < |t.order| && t.order[i] !in t.busy
      requires forall u :: 0 <= u < |units| ==> |units[u]| <= loop.sz.loadJobBlocks
      modifies this, loop, loop.worker
      ensures loop.Valid()
      ensures o.Ok? ==> WindowOk(base, units, t, attempts, loop.st)
      ensures o.Ok? ==> t.passes == old(t.passes)
      ensures Kept(o, old(loop.Now()), loop.Now())
    {
      ghost var st := loop.st;
      var u := t.order[i];
      Attempt(|units|, t.order, t.passes, attempts, i);
      StartFresh(loop);
      var hits;
      o, hits := loop.StartLoad(units[u], u, now);
      if o.Ok? {
        StartStep(base, units, t, attempts, st, i, hits, now, loop.st);
        attempts := attempts[u := attempts[u] + 1];
        t := TurnAfter(t, i, hits);
      }
    }

    /** Starts jobs into the free slots, trying at most |units| units, and beginning a new pass
        whenever the current one has no unit left. */
    method Fill(loop: StepLoop, ghost base: nat, now: real) returns (o: Outcome)
      requires loop.Valid()
      requires WindowOk(base, units, t, attempts, loop.st)
      requires forall u :: 0 <= u < |units| ==> |units[u]| <= loop.sz.loadJobBlocks
      modifies this, loop, loop.worker
      ensures loop.Valid()
      ensures o.Ok? ==> WindowOk(base, units, t, attempts, loop.st)
      ensures o.Ok? ==> t.passes >= old(t.passes)
      ensures Kept(o, old(loop.Now()), loop.Now())
    {
      o := Ok;
      RanSame(loop.Now());
      var tried := 0;
      while loop.st.loads.free != [] && tried < |units|
        invariant loop.Valid() && o.Ok?
        invariant WindowOk(base, units, t, attempts, loop.st)
        invariant t.passes >= old(t.passes) && Kept(Ok, old(loop.Now()), loop.Now())
        decreases |units| - tried
      {
        if t.order == [] {
          var order := Shuffled(|units|);
          NewPass(|units|, t.passes, attempts, order);
          t := t.(order := order, passes := t.passes + 1);
        }
        var i := NextIdle(t.order, t.busy);
        if i == |t.order| {
          return;
        }
        tried := tried + 1;
        ghost var m := loop.Now();
        o := Start(loop, i, base, now);
        KeptOn(old(loop.Now()), m, o, loop.Now());
        if o.Raised? {
          return;
        }
      }
    }

    /** The units of the reaped load jobs are no longer in flight. */
    method Finish(done: seq<Done>)
      modifies this`t
      ensures t == old(t).(busy := old(t).busy - TagsOf(done))
    {
      for i := 0 to |done|
        invariant t == old(t).(busy := old(t).busy - TagsOf(done[..i]))
      {
        assert done[..i + 1] == done[..i] + [done[i]];
        if done[i].kind == Load {
          t := t.(busy := t.busy - {done[i].tag});
        }
      }
      assert done[..|done|] == done;
    }
  }

  function TagsOf(done: seq<Done>): (r: set<nat>) {
    set d | d in done && d.kind == Load :: d.tag
  }

  lemma {:induction false} BusyReaped(busy: set<nat>, pending: map<nat, Job>, batch: seq<Report>, done: seq<Done>)
    requires BusyOk(busy, pending) && Legit(batch, pending.Keys) && done == DoneOf(pending, batch)
    ensures BusyOk(busy - TagsOf(done), pending - Ids(batch))
    decreases |batch|
  {
    if batch == [] {
      assert pending - Ids(batch) == pending;
      assert busy - TagsOf(done) == busy;
    } else {
      var n := |batch| - 1;
      assert batch[..n + 1] == batch && done[..n + 1] == done;
      PendingNext(pending, batch, n);
      DoneNext(pending, batch, n);
      var before := DoneOf(pending, batch[..n]);
      assert done == before + [done[n]];
      BusyReaped(busy, pending, batch[..n], before);
      BusyRemoved(busy - TagsOf(before), pending - Ids(batch[..n]), batch[n].job);
      assert TagsOf(done) == TagsOf(before) + if done[n].kind == Load then {done[n].tag} else {};
      assert busy - TagsOf(done) ==
             if done[n].kind == Load then busy - TagsOf(before) - {done[n].tag} else busy - TagsOf(before);
    }
  }

  /** One poll of the window. */
  method Poll(loop: StepLoop, sched: LoadScheduler, ghost base: nat, now: real) returns (o: Outcome)
    requires loop.Valid() && WindowOk(base, sched.units, sched.t, sched.attempts, loop.st)
    modifies loop, loop.worker, sched`t
    ensures loop.Valid()
    ensures o.Ok? ==> WindowOk(base, sched.units, sched.t, sched.attempts, loop.st)
    ensures sched.t == old(sched.t).(busy := sched.t.busy)
    ensures Kept(o, old(loop.Now()), loop.Now())
  {
    ghost var st, busy := loop.st, sched.t.busy;
    var done;
    ghost var batch;
    o, done, batch := loop.Reap(now);
    RanKept(o, old(loop.Now()), loop.Now());
    if o.Raised? {
      return;
    }
    BusyReaped(busy, st.pending, batch, done);
    ReapedTally(base, sched.units, sched.attempts, st, batch, now);
    sched.Finish(done);
  }

  /** The window's end: every unit attempted once per pass, every key loaded or missed. */
  lemma EndTally(base: nat, units: seq<seq<Key>>, t: Turn, attempts: seq<nat>, st: LoopState)
    requires WindowOk(base, units, t, attempts, st) && t.order == [] && st.pending == map[]
    ensures t.busy == {}
    ensures |attempts| == |units| && forall u :: 0 <= u < |units| ==> attempts[u] == t.passes
    ensures st.loads.stats.blocks + st.loads.stats.misses == base + t.passes * |Joined(units)|
  {
    assert Open(t.order, 0) && Open(st.pending, 0) && Open(attempts, 0);
    AskedAlike(units, attempts, t.passes);
    assert forall j, u :: !Carries(st.pending, j, u);
  }

  /** Load ticks for as long as the clock is read; `late` says at each tick whether the time is
      up. New jobs stop only at a pass boundary with minPasses passes begun. If the window ends
      (`ended`), each unit was attempted exactly `passes` times and the blocks loaded plus the
      blocks missed are passes times the working set. */
  method LoadWindow(loop: StepLoop, sched: LoadScheduler, late: seq<bool>, minPasses: nat, rounds: nat)
    returns (o: Outcome, ended: bool)
    requires loop.Valid() && loop.st.pending == map[]
    requires sched.t == FIRST && sched.attempts == seq(|sched.units|, _ => 0)
    requires forall u :: 0 <= u < |sched.units| ==> |sched.units[u]| <= loop.sz.loadJobBlocks
    modifies loop, loop.worker, sched
    ensures o.Ok? <==> Smooth(old(loop.Now()), loop.Now())
    ensures o.Ok? && ended ==>
              && loop.Valid() && loop.st.pending == map[] && sched.t.busy == {} && sched.t.order == []
              && sched.t.passes >= minPasses
    ensures o.Ok? && ended ==>
              |sched.attempts| == |sched.units| &&
              forall u :: 0 <= u < |sched.units| ==> sched.attempts[u] == sched.t.passes
    ensures o.Ok? && ended ==>
              loop.st.loads.stats.blocks + loop.st.loads.stats.misses ==
              old(loop.st).loads.stats.blocks + old(loop.st).loads.stats.misses + sched.t.passes * |Joined(sched.units)|
    ensures o.Ok? ==> loop.books.finals == old(loop.books).finals
    ensures o.Raised? ==> loop.st.deferred == [] && loop.st.uncompleted == [] && Balanced(loop.st, loop.books)
    ensures o.Raised? && loop.st.pending == map[] ==>
              (loop.books.pins == multiset{} == loop.books.reserved <==> NothingLost(loop.books.finals, loop.faults))
  {
    o, ended := Ok, false;
    RanSame(loop.Now());
    KeptEnd(o, loop.Now(), loop.Now(), loop.Now());
    ghost var base := loop.st.loads.stats.blocks + loop.st.loads.stats.misses;
    FirstOk(base, sched.units, loop.st);
    for i := 0 to |late|
      invariant loop.Valid() && o.Ok? && !ended && Smooth(old(loop.Now()), loop.Now())
      invariant WindowOk(base, sched.units, sched.t, sched.attempts, loop.st)
      invariant loop.books.finals == old(loop.books).finals && Kept(Ok, old(loop.Now()), loop.Now())
    {
      var now: real := *;
      ghost var m := loop.Now();
      var running := !(late[i] && sched.t.passes >= minPasses && sched.t.order == []);
      if running {
        o := sched.Fill(loop, base, now);
        KeptFinals(o, m, loop.Now());
        KeptOn(old(loop.Now()), m, o, loop.Now());
      }
      m := loop.Now();
      if o.Ok? {
        o := Poll(loop, sched, base, now);
        KeptFinals(o, m, loop.Now());
        KeptOn(old(loop.Now()), m, o, loop.Now());
      }
      m := loop.Now();
      KeptEnd(o, old(loop.Now()), m, m);
      if o.Raised? {
        var clean;
        ghost var reported;
        clean, reported := loop.Abort(rounds);
        KeptEnd(o, old(loop.Now()), m, loop.Now());
        return;
      }
      if !running && loop.st.pending == map[] {
        ended := true;
        EndTally(base, sched.units, sched.t, sched.attempts, loop.st);
        return;
      }
    }
  }
}

/** The cold load pass: its own slot loop over a list of units, with up to `inflight` load jobs
    outstanding. */
module ColdLoads {
  import opened Common
  import opened LoopStates
  import opened StepLoops
  import opened StepLoopFacts
  import opened TensorParallel

  /** Units still to start, jobs in flight, free slots, what became of the keys, the pins the
      manager keeps for the pass, those of a release that raised, and the calls made so far. */
  datatype Cold = Cold(units: seq<seq<Key>>, pending: map<nat, Job>, slots: seq<nat>, jobId: nat, loaded: nat,
                       missed: nat, pins: multiset<Key>, stuck: multiset<Key>, calls: nat)

  /** Every slot is free, or held by exactly one job in flight. */
  ghost predicate SlotsOk(inflight: nat, slots: seq<nat>, held: map<nat, LoopStates.Holder>, pending: map<nat, Job>) {
    forall k {:trigger Open(pending, k)} :: Open(pending, k) ==>
      Partitioned(slots, held, inflight) && HeldByPending(Load, held, pending) && |slots| + |pending| == inflight
  }

  ghost predicate JobsOk(unitLen: nat, jobId: nat, pending: map<nat, Job>) {
    forall k {:trigger Open(pending, k)} :: Open(pending, k) ==>
      forall j :: j in pending ==> pending[j].kind == Load && |pending[j].keys| <= unitLen && j <= jobId
  }

  ghost predicate UnitsOk(unitLen: nat, units: seq<seq<Key>>) {
    forall k {:trigger Open(units, k)} :: Open(units, k) ==> forall i :: 0 <= i < |units| ==> |units[i]| <= unitLen
  }

  /** Every key is loaded, missed, in flight or still to come. */
  ghost predicate Tally(total: nat, loaded: nat, missed: nat, pending: map<nat, Job>, units: seq<seq<Key>>) {
    forall k {:trigger Open(pending, k)} :: Open(pending, k) ==>
      loaded + missed + |PendingKeys(Load, pending)| + |Joined<Key>(units)| == total
  }

  /** Exactly the keys in flight are pinned. */
  ghost predicate PinsOk(pins: multiset<Key>, pending: map<nat, Job>) {
    forall k {:trigger Open(pins, k)} :: Open(pins, k) ==> pins == PendingKeys(Load, pending)
  }

  ghost predicate Sound(inflight: nat, unitLen: nat, total: nat, s: Cold, held: map<nat, LoopStates.Holder>) {
    && SlotsOk(inflight, s.slots, held, s.pending)
    && JobsOk(unitLen, s.jobId, s.pending)
    && UnitsOk(unitLen, s.units)
    && Tally(total, s.loaded, s.missed, s.pending, s.units)
    && PinsOk(s.pins, s.pending) && s.stuck == multiset{}
  }

  function Begin(units: seq<seq<Key>>, inflight: nat, jobId: nat, calls: nat): (s: Cold) {
    Cold(units, map[], Range(inflight), jobId, 0, 0, multiset{}, multiset{}, calls)
  }

  lemma BeginSound(units: seq<seq<Key>>, inflight: nat, unitLen: nat, jobId: nat, calls: nat)
    requires UnitsOk(unitLen, units)
    ensures Sound(inflight, unitLen, |Joined<Key>(units)|, Begin(units, inflight, jobId, calls), map[])
  {
    RangeNoDup(inflight);
  }

  /** The first unit missed altogether. */
  function Missed(s: Cold): (s': Cold)
    requires s.units != []
  {
    s.(units := s.units[1..], missed := s.missed + |s.units[0]|)
  }

  /** The first unit's hits are in flight, in the first free slot. */
  function Begun(s: Cold, hits: seq<Key>): (s': Cold)
    requires s.units != [] && s.slots != [] && |hits| <= |s.units[0]|
  {
    s.(units := s.units[1..], slots := s.slots[1..], jobId := s.jobId + 1,
       pending := s.pending[s.jobId + 1 := Job(Load, hits, s.slots[0], 0)], missed := s.missed + |s.units[0]| - |hits|,
       pins := s.pins + multiset(hits))
  }

  function Landed(s: Cold, m: Report): (s': Cold)
    requires m.job in s.pending
  {
    var job := s.pending[m.job];
    s.(pending := s.pending - {m.job}, slots := s.slots + [job.slot],
       loaded := if m.ok then s.loaded + |job.keys| else s.loaded,
       missed := if m.ok then s.missed else s.missed + |job.keys|, pins := s.pins - multiset(job.keys))
  }

  lemma MissedSound(inflight: nat, unitLen: nat, total: nat, s: Cold, held: map<nat, LoopStates.Holder>)
    requires Sound(inflight, unitLen, total, s, held) && s.units != []
    ensures Sound(inflight, unitLen, total, Missed(s), held)
  {
    UnitsNext(unitLen, s.units);
    assert Tally(total, s.loaded, s.missed + |s.units[0]|, s.pending, s.units[1..]) by {
      assert Open(s.pending, 0);
    }
  }

  lemma UnitsNext(unitLen: nat, units: seq<seq<Key>>)
    requires UnitsOk(unitLen, units) && units != []
    ensures |units[0]| <= unitLen && UnitsOk(unitLen, units[1..])
  {
    assert Open(units, 0);
  }

  lemma SlotsBegun(inflight: nat, slots: seq<nat>, held: map<nat, LoopStates.Holder>, pending: map<nat, Job>, j: nat,
                   job: Job)
    requires SlotsOk(inflight, slots, held, pending) && slots != [] && j !in pending
    requires job.kind == Load && job.slot == slots[0]
    ensures SlotsOk(inflight, slots[1..], held[job.slot := LoopStates.Submitted(j)], pending[j := job])
  {
    assert Open(pending, 0);
    PartitionTaken(slots, held, inflight, LoopStates.Submitted(j));
    HeldAdded(Load, held, pending, j, job);
  }

  lemma JobsBegun(unitLen: nat, jobId: nat, pending: map<nat, Job>, job: Job)
    requires JobsOk(unitLen, jobId, pending) && job.kind == Load && |job.keys| <= unitLen
    ensures jobId + 1 !in pending && JobsOk(unitLen, jobId + 1, pending[jobId + 1 := job])
  {
    assert Open(pending, 0);
  }

  lemma TallyBegun(total: nat, loaded: nat, missed: nat, pending: map<nat, Job>, units: seq<seq<Key>>, j: nat, job: Job)
    requires Tally(total, loaded, missed, pending, units) && units != [] && |job.keys| <= |units[0]|
    requires j !in pending && job.kind == Load
    ensures Tally(total, loaded, missed + |units[0]| - |job.keys|, pending[j := job], units[1..])
  {
    assert Open(pending, 0);
    PendingKeysInsert(Load, pending, j, job);
    SizeOf(job.keys, PendingKeys(Load, pending));
  }

  lemma PinsBegun(pins: multiset<Key>, pending: map<nat, Job>, j: nat, job: Job)
    requires PinsOk(pins, pending) && j !in pending && job.kind == Load
    ensures PinsOk(pins + multiset(job.keys), pending[j := job])
  {
    assert Open(pins, 0);
    PendingKeysInsert(Load, pending, j, job);
  }

  lemma BegunSound(inflight: nat, unitLen: nat, total: nat, s: Cold, held: map<nat, LoopStates.Holder>, hits: seq<Key>)
    requires Sound(inflight, unitLen, total, s, held) && s.units != [] && s.slots != [] && |hits| <= |s.units[0]|
    ensures Sound(inflight, unitLen, total, Begun(s, hits), held[s.slots[0] := LoopStates.Submitted(s.jobId + 1)])
  {
    var j, job := s.jobId + 1, Job(Load, hits, s.slots[0], 0);
    UnitsNext(unitLen, s.units);
    JobsBegun(unitLen, s.jobId, s.pending, job);
    SlotsBegun(inflight, s.slots, held, s.pending, j, job);
    TallyBegun(total, s.loaded, s.missed, s.pending, s.units, j, job);
    PinsBegun(s.pins, s.pending, j, job);
  }

  lemma SlotsLanded(inflight: nat, slots: seq<nat>, held: map<nat, LoopStates.Holder>, pending: map<nat, Job>, j: nat)
    requires SlotsOk(inflight, slots, held, pending) && j in pending && pending[j].kind == Load
    ensures SlotsOk(inflight, slots + [pending[j].slot], held - {pending[j].slot}, pending - {j})
  {
    assert Open(pending, 0);
    PartitionReturned(slots, held, inflight, pending[j].slot);
    HeldRemoved(Load, held, pending, j);
    assert (pending - {j}).Keys == pending.Keys - {j};
  }

  lemma JobsLanded(unitLen: nat, jobId: nat, pending: map<nat, Job>, j: nat)
    requires JobsOk(unitLen, jobId, pending) && j in pending
    ensures pending[j].kind == Load && JobsOk(unitLen, jobId, pending - {j})
  {
    assert Open(pending, 0);
  }

  lemma TallyLanded(total: nat, loaded: nat, missed: nat, pending: map<nat, Job>, units: seq<seq<Key>>, j: nat)
    requires Tally(total, loaded, missed, pending, units) && j in pending && pending[j].kind == Load
    ensures Tally(total, loaded + |pending[j].keys|, missed, pending - {j}, units)
    ensures Tally(total, loaded, missed + |pending[j].keys|, pending - {j}, units)
  {
    assert Open(pending, 0);
    PendingKeysRemove(Load, pending, j);
    SizeOf(pending[j].keys, PendingKeys(Load, pending - {j}));
  }

  lemma PinsLanded(pins: multiset<Key>, pending: map<nat, Job>, j: nat)
    requires PinsOk(pins, pending) && j in pending && pending[j].kind == Load
    ensures multiset(pending[j].keys) <= pins && PinsOk(pins - multiset(pending[j].keys), pending - {j})
  {
    assert Open(pins, 0);
    PendingKeysRemove(Load, pending, j);
  }

  lemma LandedSound(inflight: nat, unitLen: nat, total: nat, s: Cold, held: map<nat, LoopStates.Holder>, m: Report)
    requires Sound(inflight, unitLen, total, s, held) && m.job in s.pending
    ensures multiset(s.pending[m.job].keys) <= s.pins
    ensures Sound(inflight, unitLen, total, Landed(s, m), held - {s.pending[m.job].slot})
  {
    JobsLanded(unitLen, s.jobId, s.pending, m.job);
    SlotsLanded(inflight, s.slots, held, s.pending, m.job);
    TallyLanded(total, s.loaded, s.missed, s.pending, s.units, m.job);
    PinsLanded(s.pins, s.pending, m.job);
  }

  /** A slot is free whenever another job may start. */
  lemma SlotFree(inflight: nat, unitLen: nat, total: nat, s: Cold, held: map<nat, LoopStates.Holder>)
    requires Sound(inflight, unitLen, total, s, held) && |s.pending| < inflight
    ensures s.slots != []
  {
    assert Open(s.pending, 0);
  }

  /** A job in flight addresses GPU blocks below inflight x unitLen. */
  lemma RangeWithin(inflight: nat, unitLen: nat, total: nat, s: Cold, held: map<nat, LoopStates.Holder>, j: nat)
    requires Sound(inflight, unitLen, total, s, held) && j in s.pending
    ensures s.pending[j].slot * unitLen + |s.pending[j].keys| <= inflight * unitLen
  {
    assert Open(s.pending, 0);
    Gap(s.pending[j].slot, inflight, unitLen);
  }

  /** Jobs in flight together address disjoint GPU blocks. */
  lemma RangesApart(inflight: nat, unitLen: nat, total: nat, s: Cold, held: map<nat, LoopStates.Holder>, j: nat, k: nat)
    requires Sound(inflight, unitLen, total, s, held) && j in s.pending && k in s.pending && j != k
    ensures var a, b := s.pending[j].slot * unitLen, s.pending[k].slot * unitLen;
            a + |s.pending[j].keys| <= b || b + |s.pending[k].keys| <= a
  {
    assert Open(s.pending, 0);
    var x, y := s.pending[j].slot, s.pending[k].slot;
    if x < y {
      Gap(x, y, unitLen);
    } else {
      Gap(y, x, unitLen);
    }
  }

  // --- What goes wrong ---

  /** The plan: which calls into the manager raise, by number, and how the units are looked up. */
  datatype Plan = Plan(faults: set<nat>, touchFirst: bool, prefixStop: bool)

  ghost function At(worker: TpGroup, calls: nat, plan: Plan): Moment
    reads worker
  {
    Moment(Books(multiset{}, multiset{}, NoHistory(), multiset{}, multiset{}, []), calls, worker.submits, worker.Bad(),
           plan.faults, worker.faults.Keys)
  }

  /** Since then no manager call and no submission was in the plan. */
  ghost predicate Undisturbed(m: Moment, m': Moment) {
    && (forall i :: m.calls <= i < m'.calls ==> i !in m.faults)
    && (forall i :: m.submits <= i < m'.submits ==> i !in m.refused)
  }

  ghost predicate WentOk(calm: bool, good: bool, m: Moment, m': Moment) {
    Goes(m, m') && (calm <==> Undisturbed(m, m')) && (good <==> m'.spoiled == m.spoiled)
  }

  /** Whether nothing planned happened since then, and whether no transfer failed. Carried whole. */
  ghost predicate Went(calm: bool, good: bool, m: Moment, m': Moment) {
    forall k {:trigger Open(m', k)} :: Open(m', k) ==> WentOk(calm, good, m, m')
  }

  lemma WentOn(calm: bool, good: bool, m: Moment, m1: Moment, calm': bool, good': bool, m2: Moment)
    requires Went(calm, good, m, m1) && Went(calm', good', m1, m2)
    ensures Went(calm && calm', good && good', m, m2)
  {
    assert Open(m1, 0) && Open(m2, 0);
  }

  /** Some calls since then, and nothing else. */
  lemma WentCalls(clean: bool, m: Moment, calls: nat)
    requires m.calls <= calls && CleanSince(clean, m.calls, calls, m.faults)
    ensures Went(clean, true, m, m.(calls := calls))
  {
    assert Open(m.faults, 0);
  }

  lemma WentPoll(m: Moment, m': Moment, out: seq<Report>)
    requires m' == m.(spoiled := m.spoiled + Failures(out)) && m.spoiled !! Failures(out)
    ensures Went(true, forall i :: 0 <= i < |out| ==> out[i].ok, m, m')
  {
    FailuresNone(m.spoiled, out);
  }

  lemma WentEnd(calm: bool, good: bool, m: Moment, m': Moment)
    requires Went(calm, good, m, m')
    ensures calm && good <==> Smooth(m, m')
    ensures calm <==> Undisturbed(m, m')
  {
    assert Open(m', 0);
  }

  /** Exactly the keys in flight are pinned, and those of a release that raised, which was then
      the last call. */
  ghost predicate Stopped(s: Cold, plan: Plan) {
    forall k {:trigger Open(s, k)} :: Open(s, k) ==>
      && s.pins == PendingKeys(Load, s.pending) + s.stuck
      && (s.stuck != multiset{} ==> s.calls > 0 && s.calls - 1 in plan.faults)
  }

  lemma StoppedNow(s: Cold, plan: Plan)
    requires PinsOk(s.pins, s.pending) && s.stuck == multiset{}
    ensures Stopped(s, plan)
  {
    assert Open(s.pins, 0);
  }

  /** A claim just made could not be given back. */
  lemma StoppedPinned(s: Cold, hits: seq<Key>, calls: nat, plan: Plan)
    requires PinsOk(s.pins, s.pending) && calls in plan.faults
    ensures Stopped(s.(pins := s.pins + multiset(hits), stuck := multiset(hits), calls := calls + 1), plan)
  {
    assert Open(s.pins, 0);
  }

  // --- The pass ---

  /** The worker knows exactly the jobs in flight. */
  ghost predicate InStep(worker: TpGroup, s: Cold)
    reads worker
  {
    worker.Valid() && worker.outstanding == s.pending.Keys && forall j :: j in worker.phase ==> j <= s.jobId
  }

  /** Touches and looks up a unit, from call n on; the hits are a prefix of it when the pass stops
      at the first miss. */
  method Lookups(unit: seq<Key>, n: nat, plan: Plan) returns (o: Outcome, hits: seq<Key>, n': nat)
    ensures |hits| <= |unit| && multiset(hits) <= multiset(unit) && (plan.prefixStop ==> hits <= unit)
    ensures n < n' && CleanSince(o.Ok?, n, n', plan.faults)
  {
    o, hits, n' := Ok, [], n;
    CleanStart(n, plan.faults);
    if plan.touchFirst {
      CleanNext(true, n, n', plan.faults);
      o, n' := if n' in plan.faults then Raised else Ok, n' + 1;
    }
    if o.Ok? {
      o, hits, n' := LookupAll(unit, n, n', plan);
    }
    if o.Ok? && !plan.touchFirst {
      CleanNext(true, n, n', plan.faults);
      o, n' := if n' in plan.faults then Raised else Ok, n' + 1;
    }
  }

  /** Looks the keys up in order, up to the first miss if the pass stops there. */
  method LookupAll(unit: seq<Key>, ghost n0: nat, n: nat, plan: Plan) returns (o: Outcome, hits: seq<Key>, n': nat)
    requires n0 <= n && CleanSince(true, n0, n, plan.faults)
    ensures |hits| <= |unit| && multiset(hits) <= multiset(unit) && (plan.prefixStop ==> hits <= unit)
    ensures n <= n' && (o.Raised? ==> n < n') && CleanSince(o.Ok?, n0, n', plan.faults)
  {
    o, hits, n' := Ok, [], n;
    for i := 0 to |unit|
      invariant o.Ok? && PartOf(hits, unit[..i])
      invariant plan.prefixStop ==> hits == unit[..i]
      invariant n <= n' && CleanSince(true, n0, n', plan.faults)
    {
      PartNext(hits, unit, i);
      CleanNext(true, n0, n', plan.faults);
      n' := n' + 1;
      if n' - 1 in plan.faults {
        return Raised, hits, n';
      }
      var hit: bool := *;
      if hit {
        hits := hits + [unit[i]];
      } else if plan.prefixStop {
        return;
      }
    }
    PartWhole(hits, unit);
  }

  /** Starts the first unit's job, or counts it as missed. If that raises, the jobs in flight are
      left as they are. */
  method StartJob(worker: TpGroup, plan: Plan, inflight: nat, ghost unitLen: nat, ghost total: nat, s: Cold,
                  ghost held: map<nat, LoopStates.Holder>)
    returns (o: Outcome, s': Cold, ghost held': map<nat, LoopStates.Holder>)
    requires InStep(worker, s) && Sound(inflight, unitLen, total, s, held) && s.units != [] && |s.pending| < inflight
    modifies worker
    ensures Went(o.Ok?, true, old(At(worker, s.calls, plan)), At(worker, s'.calls, plan))
    ensures o.Ok? ==> InStep(worker, s') && Sound(inflight, unitLen, total, s', held')
    ensures o.Ok? ==> s'.units == s.units[1..] && |s'.pending| <= |s.pending| + 1
    ensures o.Raised? ==> s'.pending == s.pending && Stopped(s', plan)
  {
    held' := held;
    SlotFree(inflight, unitLen, total, s, held);
    var hits, n;
    o, hits, n := Lookups(s.units[0], s.calls, plan);
    ghost var m := old(At(worker, s.calls, plan));
    WentCalls(o.Ok?, m, n);
    if o.Raised? {
      s' := s.(units := s.units[1..], calls := n);
      StoppedNow(s', plan);
    } else if hits == [] {
      MissedSound(inflight, unitLen, total, s, held);
      s' := Missed(s).(calls := n);
    } else {
      BegunSound(inflight, unitLen, total, s, held, hits);
      o, s' := Launch(worker, plan, s, hits, n);
      WentOn(true, true, m, m.(calls := n), o.Ok?, true, At(worker, s'.calls, plan));
      if o.Ok? {
        held' := held[s.slots[0] := LoopStates.Submitted(s.jobId + 1)];
      }
    }
  }

  /** Pins the hits (call n) and submits them; if that raises, gives the pins back (call n + 1). */
  method Launch(worker: TpGroup, plan: Plan, s: Cold, hits: seq<Key>, n: nat) returns (o: Outcome, s': Cold)
    requires InStep(worker, s) && s.units != [] && s.slots != [] && |hits| <= |s.units[0]|
    requires PinsOk(s.pins, s.pending) && s.stuck == multiset{}
    modifies worker
    ensures Went(o.Ok?, true, old(At(worker, n, plan)), At(worker, s'.calls, plan))
    ensures o.Ok? ==> s' == Begun(s, hits).(calls := n + 1) && InStep(worker, s')
    ensures o.Raised? ==> s'.pending == s.pending && Stopped(s', plan)
  {
    var popped := s.(units := s.units[1..]);
    if n in plan.faults {
      o, s' := Raised, popped.(calls := n + 1);
      StoppedNow(s', plan);
    } else {
      o := worker.Submit(s.jobId + 1);
      if o.Ok? {
        s' := Begun(s, hits).(calls := n + 1);
      } else if n + 1 in plan.faults {
        s' := popped.(pins := s.pins + multiset(hits), stuck := multiset(hits), calls := n + 2);
        StoppedPinned(popped, hits, n + 1, plan);
      } else {
        s' := popped.(calls := n + 2);
        StoppedNow(s', plan);
      }
    }
  }

  /** Starts jobs while units remain and fewer than `inflight` are outstanding. */
  method StartJobs(worker: TpGroup, plan: Plan, inflight: nat, ghost unitLen: nat, ghost total: nat, s0: Cold,
                   ghost held0: map<nat, LoopStates.Holder>)
    returns (o: Outcome, s: Cold, ghost held: map<nat, LoopStates.Holder>)
    requires InStep(worker, s0) && Sound(inflight, unitLen, total, s0, held0)
    modifies worker
    ensures Went(o.Ok?, true, old(At(worker, s0.calls, plan)), At(worker, s.calls, plan))
    ensures o.Ok? ==> InStep(worker, s) && Sound(inflight, unitLen, total, s, held)
    ensures o.Ok? ==> 2 * |s.units| + |s.pending| <= 2 * |s0.units| + |s0.pending|
    ensures o.Ok? ==> 2 * |s.units| + |s.pending| < 2 * |s0.units| + |s0.pending| ||
                      (s == s0 && worker.patience == old(worker.patience))
    ensures o.Ok? ==> s.units == [] || |s.pending| >= inflight
    ensures o.Raised? ==> Stopped(s, plan)
  {
    o, s, held := Ok, s0, held0;
    while s.units != [] && |s.pending| < inflight
      invariant o.Ok? && InStep(worker, s) && Sound(inflight, unitLen, total, s, held)
      invariant Went(true, true, old(At(worker, s0.calls, plan)), At(worker, s.calls, plan))
      invariant 2 * |s.units| + |s.pending| < 2 * |s0.units| + |s0.pending| ||
                (s == s0 && worker.patience == old(worker.patience))
      decreases |s.units|
    {
      ghost var m := At(worker, s.calls, plan);
      o, s, held := StartJob(worker, plan, inflight, unitLen, total, s, held);
      WentOn(true, true, old(At(worker, s0.calls, plan)), m, o.Ok?, true, At(worker, s.calls, plan));
      if o.Raised? {
        return;
      }
    }
  }

  /** Handles a batch: every job gives its slot back and is unpinned. `failed` says whether some
      transfer in it failed. If unpinning raises, the rest of the batch is left. */
  method Land(plan: Plan, inflight: nat, ghost unitLen: nat, ghost total: nat, s0: Cold,
              ghost held0: map<nat, LoopStates.Holder>, batch: seq<Report>)
    returns (o: Outcome, s: Cold, failed: bool, ghost held: map<nat, LoopStates.Holder>)
    requires Sound(inflight, unitLen, total, s0, held0) && Legit(batch, s0.pending.Keys)
    ensures s0.calls <= s.calls && CleanSince(o.Ok?, s0.calls, s.calls, plan.faults)
    ensures o.Ok? ==> Sound(inflight, unitLen, total, s, held)
    ensures o.Ok? ==> s.pending == s0.pending - Ids(batch) && s.units == s0.units && s.jobId == s0.jobId
    ensures o.Ok? ==> (!failed ==> s.missed == s0.missed)
    ensures o.Ok? ==> (!failed <==> forall i :: 0 <= i < |batch| ==> batch[i].ok)
    ensures o.Raised? ==> Stopped(s, plan)
  {
    o, s, failed, held := Ok, s0, false, held0;
    CleanStart(s0.calls, plan.faults);
    FailedAll(false, batch);
    RestAll(s0.pending, s0.pending, batch);
    for i := 0 to |batch|
      invariant o.Ok? && Sound(inflight, unitLen, total, s, held)
      invariant s0.calls <= s.calls && CleanSince(true, s0.calls, s.calls, plan.faults)
      invariant Rest(s0.pending, s.pending, batch, i) && s.units == s0.units && s.jobId == s0.jobId
      invariant (!failed ==> s.missed == s0.missed) && FailedOf(failed, batch, i)
    {
      FailedNext(failed, batch, i);
      failed := failed || !batch[i].ok;
      o, s, held := LandNext(plan, inflight, unitLen, total, s0, s, held, batch, i);
      if o.Raised? {
        return;
      }
    }
    FailedAll(failed, batch);
    RestAll(s0.pending, s.pending, batch);
  }

  /** The jobs left after the first i reports. Carried whole. */
  ghost predicate Rest(before: map<nat, Job>, pending: map<nat, Job>, batch: seq<Report>, i: nat) {
    forall k {:trigger Open(batch, k)} :: Open(batch, k) ==> i <= |batch| && pending == before - Ids(batch[..i])
  }

  lemma RestAll(before: map<nat, Job>, pending: map<nat, Job>, batch: seq<Report>)
    ensures Rest(before, before, batch, 0)
    ensures Rest(before, pending, batch, |batch|) ==> pending == before - Ids(batch)
  {
    assert Open(batch, 0);
    assert batch[..|batch|] == batch;
    assert before - Ids(batch[..0]) == before;
  }

  /** The i-th job of a batch. */
  method LandNext(plan: Plan, inflight: nat, ghost unitLen: nat, ghost total: nat, ghost s0: Cold, s: Cold,
                  ghost held: map<nat, LoopStates.Holder>, batch: seq<Report>, i: nat)
    returns (o: Outcome, s': Cold, ghost held': map<nat, LoopStates.Holder>)
    requires Sound(inflight, unitLen, total, s, held) && Legit(batch, s0.pending.Keys) && i < |batch|
    requires Rest(s0.pending, s.pending, batch, i)
    requires s0.calls <= s.calls && CleanSince(true, s0.calls, s.calls, plan.faults)
    ensures s0.calls <= s'.calls && CleanSince(o.Ok?, s0.calls, s'.calls, plan.faults)
    ensures Rest(s0.pending, s'.pending, batch, i + 1) && s'.units == s.units && s'.jobId == s.jobId
    ensures batch[i].ok ==> s'.missed == s.missed
    ensures o.Ok? ==> Sound(inflight, unitLen, total, s', held')
    ensures o.Raised? ==> Stopped(s', plan)
  {
    assert Open(batch, 0);
    PendingNext(s0.pending, batch, i);
    CleanNext(true, s0.calls, s.calls, plan.faults);
    o, s', held' := LandOne(plan, inflight, unitLen, total, s, held, batch[i]);
  }

  /** One finished job: unpinning is the next call. */
  method LandOne(plan: Plan, inflight: nat, ghost unitLen: nat, ghost total: nat, s: Cold,
                 ghost held: map<nat, LoopStates.Holder>, m: Report)
    returns (o: Outcome, s': Cold, ghost held': map<nat, LoopStates.Holder>)
    requires Sound(inflight, unitLen, total, s, held) && m.job in s.pending
    ensures s'.calls == s.calls + 1 && (o.Raised? <==> s.calls in plan.faults)
    ensures s'.pending == s.pending - {m.job} && s'.units == s.units && s'.jobId == s.jobId
    ensures m.ok ==> s'.missed == s.missed
    ensures o.Ok? ==> Sound(inflight, unitLen, total, s', held')
    ensures o.Raised? ==> Stopped(s', plan)
  {
    if s.calls in plan.faults {
      StuckSound(inflight, unitLen, total, s, held, m.job, plan);
      o, s', held' := Raised, Stuck(s, m.job), held;
    } else {
      LandedSound(inflight, unitLen, total, s, held, m);
      o, s', held' := Ok, Landed(s, m).(calls := s.calls + 1), held - {s.pending[m.job].slot};
    }
  }

  /** The job has given its slot back, but unpinning its keys raised. */
  function Stuck(s: Cold, j: nat): (s': Cold)
    requires j in s.pending
  {
    s.(pending := s.pending - {j}, slots := s.slots + [s.pending[j].slot], stuck := multiset(s.pending[j].keys),
       calls := s.calls + 1)
  }

  lemma StuckSound(inflight: nat, unitLen: nat, total: nat, s: Cold, held: map<nat, LoopStates.Holder>, j: nat,
                   plan: Plan)
    requires Sound(inflight, unitLen, total, s, held) && j in s.pending && s.calls in plan.faults
    ensures Stopped(Stuck(s, j), plan)
  {
    JobsLanded(unitLen, s.jobId, s.pending, j);
    assert Open(s.pins, 0);
    PendingKeysRemove(Load, s.pending, j);
  }

  /** What the worker reports finished. */
  method Collect(worker: TpGroup, plan: Plan, s: Cold) returns (batch: seq<Report>, ghost good: bool)
    requires InStep(worker, s)
    modifies worker
    ensures Went(true, good, old(At(worker, s.calls, plan)), At(worker, s.calls, plan))
    ensures good == forall i :: 0 <= i < |batch| ==> batch[i].ok
    ensures Legit(batch, s.pending.Keys) && InStep(worker, s.(pending := s.pending - Ids(batch)))
    ensures s.pending != map[] && batch == [] ==> worker.patience < old(worker.patience)
  {
    batch := worker.GetFinished();
    good := forall i :: 0 <= i < |batch| ==> batch[i].ok;
    WentPoll(old(At(worker, s.calls, plan)), At(worker, s.calls, plan), batch);
    assert (s.pending - Ids(batch)).Keys == s.pending.Keys - Ids(batch);
  }

  /** One poll. With jobs in flight it finishes some or uses up patience; `good` says whether every
      transfer it returned succeeded. */
  method Poll(worker: TpGroup, plan: Plan, inflight: nat, ghost unitLen: nat, ghost total: nat, s0: Cold,
              ghost held0: map<nat, LoopStates.Holder>)
    returns (o: Outcome, s: Cold, failed: bool, ghost good: bool, ghost held: map<nat, LoopStates.Holder>)
    requires InStep(worker, s0) && Sound(inflight, unitLen, total, s0, held0)
    modifies worker
    ensures Went(o.Ok?, good, old(At(worker, s0.calls, plan)), At(worker, s.calls, plan))
    ensures o.Ok? ==> InStep(worker, s) && Sound(inflight, unitLen, total, s, held) && failed == !good
    ensures o.Ok? ==> s.units == s0.units && |s.pending| <= |s0.pending|
    ensures o.Ok? ==> |s.pending| < |s0.pending| || worker.patience < old(worker.patience) || s0.pending == map[]
    ensures o.Raised? ==> Stopped(s, plan)
  {
    var batch;
    batch, good := Collect(worker, plan, s0);
    ghost var m := At(worker, s0.calls, plan);
    o, s, failed, held := Land(plan, inflight, unitLen, total, s0, held0, batch);
    WentCalls(o.Ok?, m, s.calls);
    WentOn(true, good, old(At(worker, s0.calls, plan)), m, o.Ok?, true, At(worker, s.calls, plan));
    FewerPending(s0.pending, batch);
  }

  /** One whole pass, from call n on. It ends; it raises exactly when a call or submission it made
      was in the plan or a transfer failed. If not, nothing is in flight or pinned and every key of
      every unit was loaded or missed, each once. If only transfers failed, the jobs still in
      flight are drained first. If a call or submission raised, the jobs in flight are left:
      exactly their keys are pinned, and those of a release that raised. */
  method ColdPass(worker: TpGroup, plan: Plan, units: seq<seq<Key>>, inflight: nat, ghost unitLen: nat, jobId: nat,
                  n: nat)
    returns (o: Outcome, s: Cold, failed: bool)
    requires inflight > 0 && UnitsOk(unitLen, units) && InStep(worker, Begin(units, inflight, jobId, n))
    modifies worker
    ensures o.Ok? <==> Smooth(old(At(worker, n, plan)), At(worker, s.calls, plan))
    ensures failed <==> o.Raised? && Undisturbed(old(At(worker, n, plan)), At(worker, s.calls, plan))
    ensures o.Ok? || failed ==> worker.Valid() && worker.outstanding == {} && s.pending == map[] && s.pins == multiset{}
    ensures o.Ok? ==> s.units == [] && s.loaded + s.missed == |Joined<Key>(units)|
    ensures Stopped(s, plan)
  {
    o, s, failed := Ok, Begin(units, inflight, jobId, n), false;
    ghost var total, held, m0 := |Joined<Key>(units)|, map[], At(worker, n, plan);
    BeginSound(units, inflight, unitLen, jobId, n);
    while s.units != [] || s.pending != map[]
      invariant o.Ok? && !failed && InStep(worker, s) && Sound(inflight, unitLen, total, s, held)
      invariant Went(true, true, m0, At(worker, s.calls, plan))
      decreases 2 * |s.units| + |s.pending|, worker.patience
    {
      o, s, held, failed := PassTick(worker, plan, inflight, unitLen, total, s, held, m0);
      if o.Raised? {
        return;
      }
    }
    WentEnd(true, true, m0, At(worker, s.calls, plan));
    StoppedNow(s, plan);
    assert Open(s.pending, 0) && Open(s.pins, 0);
  }

  /** One tick of the pass: start jobs, poll, and drain the rest if a transfer failed. */
  method PassTick(worker: TpGroup, plan: Plan, inflight: nat, ghost unitLen: nat, ghost total: nat, s0: Cold,
                  ghost held0: map<nat, LoopStates.Holder>, ghost m0: Moment)
    returns (o: Outcome, s: Cold, ghost held: map<nat, LoopStates.Holder>, failed: bool)
    requires inflight > 0 && InStep(worker, s0) && Sound(inflight, unitLen, total, s0, held0)
    requires s0.units != [] || s0.pending != map[]
    requires Went(true, true, m0, At(worker, s0.calls, plan))
    modifies worker
    ensures o.Ok? ==> !failed && InStep(worker, s) && Sound(inflight, unitLen, total, s, held)
    ensures o.Ok? ==> Went(true, true, m0, At(worker, s.calls, plan))
    ensures o.Ok? ==> 2 * |s.units| + |s.pending| <= 2 * |s0.units| + |s0.pending|
    ensures o.Ok? ==>
              2 * |s.units| + |s.pending| < 2 * |s0.units| + |s0.pending| || worker.patience < old(worker.patience)
    ensures o.Raised? ==> Stopped(s, plan) && !Smooth(m0, At(worker, s.calls, plan))
    ensures o.Raised? ==> (failed <==> Undisturbed(m0, At(worker, s.calls, plan)))
    ensures failed ==> worker.Valid() && worker.outstanding == {} && s.pending == map[] && s.pins == multiset{}
  {
    failed := false;
    ghost var m := At(worker, s0.calls, plan);
    o, s, held := StartJobs(worker, plan, inflight, unitLen, total, s0, held0);
    ghost var m1 := At(worker, s.calls, plan);
    WentOn(true, true, m0, m, o.Ok?, true, m1);
    WentEnd(o.Ok?, true, m0, m1);
    if o.Raised? {
      return;
    }
    ghost var good;
    o, s, failed, good, held := Poll(worker, plan, inflight, unitLen, total, s, held);
    ghost var m2 := At(worker, s.calls, plan);
    WentOn(true, true, m0, m1, o.Ok?, good, m2);
    WentEnd(o.Ok?, good, m0, m2);
    if o.Raised? {
      failed := false;
    } else if failed {
      o, s, good := DrainRest(worker, plan, inflight, unitLen, total, s, held);
      ghost var m3 := At(worker, s.calls, plan);
      WentOn(true, false, m0, m2, o.Ok?, good, m3);
      WentEnd(o.Ok?, false, m0, m3);
      o, failed := Raised, o.Ok?;
    }
  }

  /** After a failure: polls until nothing is in flight. */
  method DrainRest(worker: TpGroup, plan: Plan, inflight: nat, ghost unitLen: nat, ghost total: nat, s0: Cold,
                   ghost held0: map<nat, LoopStates.Holder>)
    returns (o: Outcome, s: Cold, ghost good: bool)
    requires InStep(worker, s0) && Sound(inflight, unitLen, total, s0, held0)
    modifies worker
    ensures Went(o.Ok?, good, old(At(worker, s0.calls, plan)), At(worker, s.calls, plan))
    ensures o.Ok? ==> worker.Valid() && worker.outstanding == {} && s.pending == map[] && s.pins == multiset{}
    ensures Stopped(s, plan)
  {
    o, s, good := Ok, s0, true;
    ghost var held := held0;
    while s.pending != map[]
      invariant o.Ok? && InStep(worker, s) && Sound(inflight, unitLen, total, s, held)
      invariant Went(true, good, old(At(worker, s0.calls, plan)), At(worker, s.calls, plan))
      decreases |s.pending|, worker.patience
    {
      var failed;
      ghost var fine, m := true, At(worker, s.calls, plan);
      o, s, failed, fine, held := Poll(worker, plan, inflight, unitLen, total, s, held);
      WentOn(true, good, old(At(worker, s0.calls, plan)), m, o.Ok?, fine, At(worker, s.calls, plan));
      good := good && fine;
      if o.Raised? {
        return;
      }
    }
    StoppedNow(s, plan);
    assert Open(s.pins, 0);
  }
}

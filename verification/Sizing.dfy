/** How the benchmark sizes its requests, its GPU slots and its GPU block regions. */
module Sizing {
  import opened Common
  import opened LoopStates
  import opened StepLoops
  import opened StepLoopFacts

  function Max(a: int, b: int): (r: int) {
    if a < b then b else a
  }

  function Min(a: int, b: int): (r: int) {
    if a < b then a else b
  }

  // --- The scheduler-step workload ---

  /** One raw geometric draw per session; `shared` sessions take slices of one prefix pool,
      private ones keys of their own. */
  datatype Workload = Workload(numBlocks: nat, requestsPerStep: nat, inflight: nat, draws: seq<nat>, shared: bool)

  ghost predicate Runnable(w: Workload) {
    w.requestsPerStep > 0 && w.inflight > 0 && w.draws != []
  }

  function KeysPerRequest(numBlocks: nat, requestsPerStep: nat): (r: nat)
    requires requestsPerStep > 0
  {
    Max(4, numBlocks / requestsPerStep)
  }

  /** Blocks in the shared prefix pool, for requests of kpr keys. */
  function PrefixPool(numBlocks: nat, kpr: nat): (r: nat) {
    Min(kpr / 2 * 4, numBlocks * 2)
  }

  function SessionPrefix(w: Workload, session: nat): (r: seq<Key>)
    requires Runnable(w) && session < |w.draws|
  {
    var pool := PrefixPool(w.numBlocks, KeysPerRequest(w.numBlocks, w.requestsPerStep));
    var len := Max(2, Min(pool, w.draws[session]));
    if w.shared then ContentKeys(Min(len, pool), 77777) else ContentKeys(len, 1_000_000_000 + session)
  }

  function RequestKeys(w: Workload, r: nat): (keys: seq<Key>)
    requires Runnable(w)
  {
    var kpr := KeysPerRequest(w.numBlocks, w.requestsPerStep);
    SessionPrefix(w, r % |w.draws|) + ContentKeys(kpr - kpr / 2, 2_000_000_000 + r)
  }

  /** Blocks per slot, load slots, store slots. */
  function SchedStepSlots(numBlocks: nat, requestsPerStep: nat, inflight: nat): (sz: Sizes)
    requires requestsPerStep > 0
  {
    var kpr := KeysPerRequest(numBlocks, requestsPerStep);
    var slot := PrefixPool(numBlocks, kpr) + (kpr - kpr / 2);
    Sizes(inflight, slot, requestsPerStep + inflight, slot)
  }

  function Slots(w: Workload): (sz: Sizes)
    requires Runnable(w)
  {
    SchedStepSlots(w.numBlocks, w.requestsPerStep, w.inflight)
  }

  /** Every request fits one slot exactly when prefixes are shared or there is at least one
      block: with none, a private session still gets two prefix blocks that no slot counts. */
  lemma RequestsFit(w: Workload)
    requires Runnable(w)
    ensures (forall r: nat :: |RequestKeys(w, r)| <= Slots(w).loadJobBlocks) <==> w.shared || w.numBlocks > 0
    ensures Slots(w).loadJobBlocks == Slots(w).storeJobBlocks
  {
    var kpr := KeysPerRequest(w.numBlocks, w.requestsPerStep);
    var pool := PrefixPool(w.numBlocks, kpr);
    assert kpr / 2 >= 2;
    if w.shared || w.numBlocks > 0 {
      assert w.numBlocks > 0 ==> pool >= 2;
      forall r: nat ensures |RequestKeys(w, r)| <= Slots(w).loadJobBlocks {
        assert |SessionPrefix(w, r % |w.draws|)| <= pool;
      }
    } else {
      assert |RequestKeys(w, 0)| == 2 + (kpr - kpr / 2);
    }
  }

  // --- The GPU regions ---

  datatype Mode = Default | Contention | SchedulerStep | Other

  datatype Args = Args(mode: Mode, bs: nat, numBlocks: nat, requests: nat, loadByRequest: bool, noCold: bool,
                       jobBlocks: nat, inflight: nat, storeJobBlocks: nat, storeInflight: nat, requestsPerStep: nat)

  /** Blocks per cold load job. */
  function ColdUnitBlocks(a: Args): (r: nat)
    requires a.requests > 0
  {
    if a.loadByRequest then a.numBlocks / a.requests else a.jobBlocks
  }

  function GpuBlocks(a: Args): (r: nat)
    requires a.requests > 0 && a.requestsPerStep > 0
  {
    match a.mode
    case Default =>
      var blocks := Max(a.bs, Max(a.inflight * a.jobBlocks, a.storeInflight * a.storeJobBlocks));
      if a.noCold then blocks else Max(blocks, a.inflight * ColdUnitBlocks(a))
    case Contention =>
      Max(Max(a.bs, Max(a.jobBlocks, a.storeJobBlocks)), a.inflight * a.jobBlocks + a.storeInflight * a.storeJobBlocks)
    case SchedulerStep =>
      var sz := SchedStepSlots(a.numBlocks, a.requestsPerStep, a.inflight);
      Max(Max(a.numBlocks, a.bs), sz.loadJobBlocks * (sz.loadSlots + sz.storeSlots))
    case Other => Max(a.numBlocks, a.bs)
  }

  /** The step loops a mode runs in turn: the default mode's store pass and load pass; the
      contention mode's loads alone, then both directions together; one loop of both directions
      in the scheduler-step mode. */
  function LoopSizes(a: Args): (r: seq<Sizes>)
    requires a.requestsPerStep > 0
  {
    match a.mode
    case Default => [Sizes(0, 0, a.storeInflight, a.storeJobBlocks), Sizes(a.inflight, a.jobBlocks, 0, 0)]
    case Contention =>
      [Sizes(a.inflight, a.jobBlocks, 0, 0), Sizes(a.inflight, a.jobBlocks, a.storeInflight, a.storeJobBlocks)]
    case SchedulerStep => [SchedStepSlots(a.numBlocks, a.requestsPerStep, a.inflight)]
    case Other => []
  }

  /** Whatever a mode's step loop has outstanding, it addresses only GPU blocks the regions hold. */
  lemma RegionsHoldEveryJob(a: Args, i: nat, st: LoopState, b: Books, c: Claim)
    requires a.requests > 0 && a.requestsPerStep > 0 && i < |LoopSizes(a)|
    requires Sound(LoopSizes(a)[i], st, b) && Outstanding(st, c)
    ensures First(LoopSizes(a)[i], st, c) + Size(st, c) <= GpuBlocks(a)
  {
    RangesBounded(LoopSizes(a)[i], st, b, c);
    LoopFits(a, i);
  }

  /** A mode's step loops fit its regions. */
  lemma LoopFits(a: Args, i: nat)
    requires a.requests > 0 && a.requestsPerStep > 0 && i < |LoopSizes(a)|
    ensures TotalBlocks(LoopSizes(a)[i]) <= GpuBlocks(a)
  {
    match a.mode {
      case Default => DefaultFits(a, i);
      case Contention => ContentionFits(a, i);
      case SchedulerStep => StepFits(a);
      case Other =>
    }
  }

  lemma DefaultFits(a: Args, i: nat)
    requires a.requests > 0 && a.requestsPerStep > 0 && a.mode == Default && i < 2
    ensures TotalBlocks(LoopSizes(a)[i]) <= GpuBlocks(a)
  {
    var loads, stores := a.inflight * a.jobBlocks, a.storeInflight * a.storeJobBlocks;
    OneSided(a.inflight, a.jobBlocks);
    OneSided(a.storeInflight, a.storeJobBlocks);
    assert TotalBlocks(LoopSizes(a)[i]) == if i == 0 then stores else loads;
    assert GpuBlocks(a) >= Max(a.bs, Max(loads, stores));
  }

  lemma ContentionFits(a: Args, i: nat)
    requires a.requests > 0 && a.requestsPerStep > 0 && a.mode == Contention && i < 2
    ensures TotalBlocks(LoopSizes(a)[i]) <= GpuBlocks(a)
  {
    var loads, stores := a.inflight * a.jobBlocks, a.storeInflight * a.storeJobBlocks;
    OneSided(a.inflight, a.jobBlocks);
    assert TotalBlocks(LoopSizes(a)[i]) <= loads + stores;
    assert GpuBlocks(a) >= loads + stores;
  }

  lemma StepFits(a: Args)
    requires a.requests > 0 && a.requestsPerStep > 0 && a.mode == SchedulerStep
    ensures TotalBlocks(LoopSizes(a)[0]) <= GpuBlocks(a)
  {
    SlotsTogether(SchedStepSlots(a.numBlocks, a.requestsPerStep, a.inflight));
  }

  lemma SlotsTogether(sz: Sizes)
    requires sz.storeJobBlocks == sz.loadJobBlocks
    ensures TotalBlocks(sz) == sz.loadJobBlocks * (sz.loadSlots + sz.storeSlots)
  {
    Distribute(sz.loadSlots, sz.storeSlots, sz.loadJobBlocks);
  }

  lemma OneSided(slots: nat, jobBlocks: nat)
    ensures TotalBlocks(Sizes(slots, jobBlocks, 0, 0)) == slots * jobBlocks ==
              TotalBlocks(Sizes(0, 0, slots, jobBlocks))
  {
  }

  lemma ColdSlotsFit(a: Args, slot: nat, n: nat)
    requires a.requests > 0 && a.requestsPerStep > 0 && a.mode == Default && !a.noCold
    requires slot < a.inflight && n <= ColdUnitBlocks(a)
    ensures slot * ColdUnitBlocks(a) + n <= GpuBlocks(a)
  {
    Gap(slot, a.inflight, ColdUnitBlocks(a));
  }
}

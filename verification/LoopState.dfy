/** The step loop's bookkeeping as a value, its steps, and what every step keeps: the GPU
    slots of each direction, the statistics, and the ledger of pins and reservations. */
module LoopStates {
  import opened Common
  import opened Inflight

  datatype Kind = Load | Store
  datatype Job = Job(kind: Kind, keys: seq<Key>, slot: nat, tag: nat)
  /** A store reserved in one tick and submitted in the next. */
  datatype Prepared = Prepared(keys: seq<Key>, slot: nat, tag: nat)
  /** A reaped job whose completion raised. */
  datatype Owing = Owing(kind: Kind, keys: seq<Key>, success: bool)
  datatype Done = Done(kind: Kind, keys: seq<Key>, tag: nat)

  /** One direction: its free slots, its outstanding count and its statistics. */
  datatype Side = Side(free: seq<nat>, n: int, stats: Stats)

  datatype LoopState = LoopState(
    loads: Side, stores: Side, pending: map<nat, Job>, deferred: seq<Prepared>, jobId: nat, uncompleted: seq<Owing>)

  datatype Sizes = Sizes(loadSlots: nat, loadJobBlocks: nat, storeSlots: nat, storeJobBlocks: nat)

  // --- One direction's GPU slots ---

  /** Who holds a slot. */
  datatype Holder = Deferred | Submitted(job: nat)

  /** Which slots are held, and since when. */
  datatype SideHistory = SideHistory(held: map<nat, Holder>, time: Timeline)

  /** Free and held slots partition 0..n. */
  ghost predicate Partitioned(free: seq<nat>, held: map<nat, Holder>, n: nat) {
    && NoDup(free)
    && (forall s: nat :: s in free ==> s < n && s !in held)
    && (forall s: nat :: s in held ==> s < n)
    && (forall s: nat :: s < n ==> s in free || s in held)
  }

  ghost predicate SideOk(side: Side, h: SideHistory, slots: nat) {
    && Partitioned(side.free, h.held, slots)
    && side.n == |h.held| == |h.time.since| + |h.time.queue|
    && AreaOk(side.stats, h.time)
  }

  function SideSampled(side: Side, now: real): (r: Side) {
    side.(stats := Sampled(side.stats, side.n, now))
  }

  function SlotTaken(side: Side): (r: Side)
    requires side.free != []
  {
    side.(free := side.free[1..], n := side.n + 1)
  }

  function SlotReturned(side: Side, slot: nat): (r: Side) {
    side.(free := side.free + [slot], n := side.n - 1)
  }

  lemma SideSampledOk(side: Side, h: SideHistory, slots: nat, now: real)
    requires SideOk(side, h, slots)
    ensures SideOk(SideSampled(side, now), h, slots)
  {
    AreaSampled(side.stats, h.time, now);
  }

  lemma PartitionTaken(free: seq<nat>, held: map<nat, Holder>, n: nat, holder: Holder)
    requires Partitioned(free, held, n) && free != []
    ensures free[0] !in held && Partitioned(free[1..], held[free[0] := holder], n)
  {
    var rest := free[1..];
    assert free == [free[0]] + rest;
    assert free[0] in free;
    assert forall i :: 0 <= i < |rest| ==> rest[i] == free[i + 1];
    forall s | s in rest ensures s in free && s != free[0] {
      var i :| 0 <= i < |rest| && rest[i] == s;
      assert free[i + 1] == s;
    }
  }

  lemma PartitionReturned(free: seq<nat>, held: map<nat, Holder>, n: nat, slot: nat)
    requires Partitioned(free, held, n) && slot in held
    ensures Partitioned(free + [slot], held - {slot}, n)
    ensures |held - {slot}| == |held| - 1
  {
    assert slot !in free;
    assert (held - {slot}).Keys == held.Keys - {slot};
  }

  /** A free slot is taken, and one more job's time is kept. */
  lemma SlotTakenOk(side: Side, h: SideHistory, slots: nat, holder: Holder, time: Timeline)
    requires SideOk(side, h, slots) && side.free != []
    requires AreaOk(side.stats, time) && |time.since| + |time.queue| == |h.time.since| + |h.time.queue| + 1
    ensures side.free[0] !in h.held
    ensures SideOk(SlotTaken(side), SideHistory(h.held[side.free[0] := holder], time), slots)
  {
    PartitionTaken(side.free, h.held, slots, holder);
  }

  lemma SlotReturnedOk(side: Side, h: SideHistory, slots: nat, slot: nat, j: nat, keys: seq<Key>, now: real)
    requires SideOk(side, h, slots) && slot in h.held && j in h.time.since && side.stats.tLast == Some(now)
    ensures SideOk(SlotReturned(side, slot), SideHistory(h.held - {slot}, Closed(h.time, j, keys, now)), slots)
  {
    PartitionReturned(side.free, h.held, slots, slot);
    AreaClosed(side.stats, h.time, j, keys, now);
    assert |h.time.since - {j}| == |h.time.since| - 1 by {
      assert (h.time.since - {j}).Keys == h.time.since.Keys - {j};
    }
  }

  // --- Slots and jobs ---

  /** The submitted holders are exactly the pending jobs of this kind. */
  ghost predicate HeldByPending(kind: Kind, held: map<nat, Holder>, pending: map<nat, Job>) {
    && (forall j :: j in pending && pending[j].kind == kind ==>
          pending[j].slot in held && held[pending[j].slot] == Submitted(j))
    && (forall s :: s in held && held[s].Submitted? ==>
          held[s].job in pending && pending[held[s].job].kind == kind && pending[held[s].job].slot == s)
  }

  /** The deferred holders are exactly the prepared stores. */
  ghost predicate HeldByDeferred(held: map<nat, Holder>, deferred: seq<Prepared>) {
    && (forall i :: 0 <= i < |deferred| ==> deferred[i].slot in held && held[deferred[i].slot] == Deferred)
    && (forall i, k :: 0 <= i < k < |deferred| ==> deferred[i].slot != deferred[k].slot)
    && (forall s :: s in held && held[s].Deferred? ==> exists i :: 0 <= i < |deferred| && deferred[i].slot == s)
  }

  /** The times kept are those of the pending jobs of this kind and of the prepared ones. */
  ghost predicate Timed(kind: Kind, t: Timeline, pending: map<nat, Job>, prepared: nat) {
    && (forall j :: j in t.since <==> j in pending && pending[j].kind == kind)
    && |t.queue| == prepared
  }

  lemma TimedAdded(kind: Kind, t: Timeline, pending: map<nat, Job>, prepared: nat, j: nat, job: Job, now: real)
    requires Timed(kind, t, pending, prepared) && job.kind == kind
    ensures Timed(kind, Opened(t, j, now), pending[j := job], prepared)
  {
  }

  lemma TimedRemoved(kind: Kind, t: Timeline, pending: map<nat, Job>, prepared: nat, j: nat, keys: seq<Key>, now: real)
    requires Timed(kind, t, pending, prepared) && j in t.since
    ensures Timed(kind, Closed(t, j, keys, now), pending - {j}, prepared)
  {
  }

  lemma HeldAdded(kind: Kind, held: map<nat, Holder>, pending: map<nat, Job>, j: nat, job: Job)
    requires HeldByPending(kind, held, pending) && j !in pending && job.kind == kind
    requires job.slot !in held || held[job.slot].Deferred?
    ensures HeldByPending(kind, held[job.slot := Submitted(j)], pending[j := job])
  {
  }

  lemma HeldReserved(kind: Kind, held: map<nat, Holder>, pending: map<nat, Job>, slot: nat)
    requires HeldByPending(kind, held, pending) && slot !in held
    ensures HeldByPending(kind, held[slot := Deferred], pending)
  {
  }

  lemma HeldSame(kind: Kind, held: map<nat, Holder>, pending: map<nat, Job>, pending': map<nat, Job>)
    requires HeldByPending(kind, held, pending)
    requires forall j :: j in pending && pending[j].kind == kind ==> j in pending' && pending'[j] == pending[j]
    requires forall j :: j in pending' && pending'[j].kind == kind ==> j in pending && pending[j] == pending'[j]
    ensures HeldByPending(kind, held, pending')
  {
  }

  lemma HeldRemoved(kind: Kind, held: map<nat, Holder>, pending: map<nat, Job>, j: nat)
    requires HeldByPending(kind, held, pending) && j in pending && pending[j].kind == kind
    ensures HeldByPending(kind, held - {pending[j].slot}, pending - {j})
  {
  }

  lemma DeferredAdded(held: map<nat, Holder>, deferred: seq<Prepared>, p: Prepared)
    requires HeldByDeferred(held, deferred) && p.slot !in held
    ensures HeldByDeferred(held[p.slot := Deferred], deferred + [p])
  {
    var held', deferred' := held[p.slot := Deferred], deferred + [p];
    forall s | s in held' && held'[s].Deferred? ensures exists i :: 0 <= i < |deferred'| && deferred'[i].slot == s {
      if s == p.slot {
        assert deferred'[|deferred|].slot == s;
      } else {
        var i :| 0 <= i < |deferred| && deferred[i].slot == s;
        assert deferred'[i].slot == s;
      }
    }
  }

  lemma DeferredSent(held: map<nat, Holder>, deferred: seq<Prepared>, j: nat)
    requires HeldByDeferred(held, deferred) && deferred != []
    ensures HeldByDeferred(held[deferred[0].slot := Submitted(j)], deferred[1..])
  {
    var held', deferred' := held[deferred[0].slot := Submitted(j)], deferred[1..];
    assert forall i :: 0 <= i < |deferred'| ==> deferred'[i] == deferred[i + 1];
    forall s | s in held' && held'[s].Deferred? ensures exists i :: 0 <= i < |deferred'| && deferred'[i].slot == s {
      var i :| 0 <= i < |deferred| && deferred[i].slot == s;
      assert deferred'[i - 1].slot == s;
    }
  }

  /** One direction: slots partitioned, each held slot held by exactly one outstanding job,
      the count and the statistics right. */
  ghost predicate DirectionOk(kind: Kind, side: Side, h: SideHistory, slots: nat,
                              pending: map<nat, Job>, deferred: seq<Prepared>) {
    forall k {:trigger Open(side, k)} :: Open(side, k) ==>
      && SideOk(side, h, slots)
      && HeldByPending(kind, h.held, pending)
      && HeldByDeferred(h.held, deferred)
      && Timed(kind, h.time, pending, |deferred|)
  }

  lemma Seal(kind: Kind, side: Side, h: SideHistory, slots: nat, pending: map<nat, Job>, deferred: seq<Prepared>)
    requires SideOk(side, h, slots) && HeldByPending(kind, h.held, pending) && HeldByDeferred(h.held, deferred)
    requires Timed(kind, h.time, pending, |deferred|)
    ensures DirectionOk(kind, side, h, slots, pending, deferred)
  {
  }

  /** No job is larger than its slot. */
  ghost predicate Fits(sz: Sizes, pending: map<nat, Job>, deferred: seq<Prepared>) {
    && (forall j :: j in pending ==>
          |pending[j].keys| <= if pending[j].kind == Load then sz.loadJobBlocks else sz.storeJobBlocks)
    && (forall i :: 0 <= i < |deferred| ==> |deferred[i].keys| <= sz.storeJobBlocks)
  }

  // --- What happened, job by job ---

  /** What the loop did, by job: a load submitted, a store prepared, the store prepared longest
      ago submitted, a job reaped; each with the sample taken then. */
  datatype LoopEvent =
    | StartedAt(job: nat, keys: seq<Key>, now: real)
    | PreparedAt(keys: seq<Key>, now: real)
    | SentAs(job: nat)
    | ReapedAt(job: nat, now: real)

  datatype Order = Order(keys: seq<Key>, start: real)

  datatype Birth = Birth(kind: Kind, order: Order)

  /** The stores prepared so far, in order. */
  ghost function Orders(log: seq<LoopEvent>): seq<Order> {
    if log == [] then [] else
      var e := log[|log| - 1];
      Orders(log[..|log| - 1]) + if e.PreparedAt? then [Order(e.keys, e.now)] else []
  }

  /** How many of them have been submitted. */
  ghost function Sends(log: seq<LoopEvent>): nat {
    if log == [] then 0 else Sends(log[..|log| - 1]) + if log[|log| - 1].SentAs? then 1 else 0
  }

  /** Every job submitted so far: what it moves, and the sample at which it took its slot. */
  ghost function Begun(log: seq<LoopEvent>): map<nat, Birth> {
    if log == [] then map[] else
      var e, past := log[|log| - 1], log[..|log| - 1];
      var begun := Begun(past);
      if e.StartedAt? then begun[e.job := Birth(Load, Order(e.keys, e.now))]
      else if e.SentAs? && Sends(past) < |Orders(past)| then begun[e.job := Birth(Store, Orders(past)[Sends(past)])]
      else begun
  }

  /** The reaped jobs of one direction: for each reaping, the job's start and reap samples. */
  ghost function Lives(kind: Kind, log: seq<LoopEvent>): seq<Life> {
    if log == [] then [] else
      var e, past := log[|log| - 1], log[..|log| - 1];
      var begun := Begun(past);
      Lives(kind, past) +
      if e.ReapedAt? && e.job in begun && begun[e.job].kind == kind
      then [Life(e.job, begun[e.job].order.keys, begun[e.job].order.start, e.now)] else []
  }

  /** One more event. */
  lemma LogNext(log: seq<LoopEvent>, e: LoopEvent)
    ensures Orders(log + [e]) == Orders(log) + if e.PreparedAt? then [Order(e.keys, e.now)] else []
    ensures Sends(log + [e]) == Sends(log) + if e.SentAs? then 1 else 0
    ensures Begun(log + [e]) ==
            if e.StartedAt? then Begun(log)[e.job := Birth(Load, Order(e.keys, e.now))]
            else if e.SentAs? && Sends(log) < |Orders(log)|
            then Begun(log)[e.job := Birth(Store, Orders(log)[Sends(log)])]
            else Begun(log)
  {
    assert (log + [e])[..|log|] == log;
  }

  lemma LivesNext(kind: Kind, log: seq<LoopEvent>, e: LoopEvent)
    ensures var begun := Begun(log);
            Lives(kind, log + [e]) == Lives(kind, log) +
            if e.ReapedAt? && e.job in begun && begun[e.job].kind == kind
            then [Life(e.job, begun[e.job].order.keys, begun[e.job].order.start, e.now)] else []
  {
    assert (log + [e])[..|log|] == log;
  }

  datatype History = History(loads: SideHistory, stores: SideHistory, log: seq<LoopEvent>)

  ghost predicate LoadsOk(sz: Sizes, st: LoopState, h: History) {
    DirectionOk(Load, st.loads, h.loads, sz.loadSlots, st.pending, [])
  }

  ghost predicate StoresOk(sz: Sizes, st: LoopState, h: History) {
    DirectionOk(Store, st.stores, h.stores, sz.storeSlots, st.pending, st.deferred)
  }

  /** The slot bookkeeping of both directions. */
  ghost predicate SlotsOk(sz: Sizes, st: LoopState, h: History) {
    LoadsOk(sz, st, h) && StoresOk(sz, st, h) && Fits(sz, st.pending, st.deferred)
  }

  // --- The ledger: what is pinned or reserved, and on whose behalf ---

  ghost function KeysOf(kind: Kind, job: Job): multiset<Key> {
    if job.kind == kind then multiset(job.keys) else multiset{}
  }

  ghost function PendingKeys(kind: Kind, pending: map<nat, Job>): multiset<Key>
    decreases |pending|
  {
    if pending == map[] then multiset{} else
      var j :| j in pending;
      KeysOf(kind, pending[j]) + PendingKeys(kind, pending - {j})
  }

  lemma {:induction false} PendingKeysRemove(kind: Kind, pending: map<nat, Job>, j: nat)
    requires j in pending
    ensures PendingKeys(kind, pending) == KeysOf(kind, pending[j]) + PendingKeys(kind, pending - {j})
    decreases |pending|
  {
    var i: nat :| i in pending &&
          PendingKeys(kind, pending) == KeysOf(kind, pending[i]) + PendingKeys(kind, pending - {i});
    if i != j {
      PendingKeysRemove(kind, pending - {i}, j);
      PendingKeysRemove(kind, pending - {j}, i);
      assert pending - {i} - {j} == pending - {j} - {i};
      Swap(KeysOf(kind, pending[i]), KeysOf(kind, pending[j]), PendingKeys(kind, pending - {i} - {j}));
    }
  }

  lemma PendingKeysInsert(kind: Kind, pending: map<nat, Job>, j: nat, job: Job)
    requires j !in pending
    ensures PendingKeys(kind, pending[j := job]) == KeysOf(kind, job) + PendingKeys(kind, pending)
  {
    PendingKeysRemove(kind, pending[j := job], j);
    assert pending[j := job] - {j} == pending;
  }

  ghost function OwedBy(kind: Kind, o: Owing): multiset<Key> {
    if o.kind == kind then multiset(o.keys) else multiset{}
  }

  ghost function OwingKeys(kind: Kind, owing: seq<Owing>): multiset<Key> {
    if owing == [] then multiset{} else OwedBy(kind, owing[0]) + OwingKeys(kind, owing[1..])
  }

  lemma {:induction false} OwingKeysAppend(kind: Kind, owing: seq<Owing>, o: Owing)
    ensures OwingKeys(kind, owing + [o]) == OwingKeys(kind, owing) + OwedBy(kind, o)
  {
    if owing != [] {
      OwingKeysAppend(kind, owing[1..], o);
      assert (owing + [o])[1..] == owing[1..] + [o];
    }
  }

  ghost function PreparedKeys(deferred: seq<Prepared>): multiset<Key> {
    if deferred == [] then multiset{} else multiset(deferred[0].keys) + PreparedKeys(deferred[1..])
  }

  lemma {:induction false} PreparedKeysAppend(deferred: seq<Prepared>, p: Prepared)
    ensures PreparedKeys(deferred + [p]) == PreparedKeys(deferred) + multiset(p.keys)
  {
    if deferred != [] {
      PreparedKeysAppend(deferred[1..], p);
      assert (deferred + [p])[1..] == deferred[1..] + [p];
    }
  }

  ghost function PinsHeld(st: LoopState): multiset<Key> {
    PendingKeys(Load, st.pending) + OwingKeys(Load, st.uncompleted)
  }

  ghost function ReservationsHeld(st: LoopState): multiset<Key> {
    PendingKeys(Store, st.pending) + PreparedKeys(st.deferred) + OwingKeys(Store, st.uncompleted)
  }

  // --- The loop's own steps ---

  function LoopSampled(st: LoopState, now: real): (r: LoopState) {
    st.(loads := SideSampled(st.loads, now), stores := SideSampled(st.stores, now))
  }

  /** A load job has been submitted under id jobId. */
  function Launched(st: LoopState, hits: seq<Key>, tag: nat, now: real): (r: LoopState)
    requires st.loads.free != []
  {
    var s := LoopSampled(st, now);
    s.(loads := SlotTaken(s.loads), pending := st.pending[st.jobId := Job(Load, hits, st.loads.free[0], tag)])
  }

  /** A store has been reserved; it waits for the next tick. */
  function Reserved(st: LoopState, keys: seq<Key>, tag: nat, now: real): (r: LoopState)
    requires st.stores.free != []
  {
    var s := LoopSampled(st, now);
    s.(stores := SlotTaken(s.stores), deferred := st.deferred + [Prepared(keys, st.stores.free[0], tag)])
  }

  /** The first prepared store has been submitted under id jobId. */
  function Sent(st: LoopState): (r: LoopState)
    requires st.deferred != []
  {
    var p := st.deferred[0];
    st.(deferred := st.deferred[1..], pending := st.pending[st.jobId := Job(Store, p.keys, p.slot, p.tag)])
  }

  /** A finished job leaves; if its completion raised it is remembered for the abort. */
  function Retired(st: LoopState, j: nat, success: bool, completed: bool): (r: LoopState)
    requires j in st.pending
  {
    var job := st.pending[j];
    var s := st.(pending := st.pending - {j},
                 uncompleted := st.uncompleted + if completed then [] else [Owing(job.kind, job.keys, success)]);
    if job.kind == Load
    then s.(loads := Counted(SlotReturned(st.loads, job.slot), job, success))
    else s.(stores := Counted(SlotReturned(st.stores, job.slot), job, success))
  }

  function Counted(side: Side, job: Job, success: bool): (r: Side) {
    if success
    then side.(stats := side.stats.(blocks := side.stats.blocks + |job.keys|, jobs := side.stats.jobs + 1))
    else side
  }

  /** A job id is used up, whether or not a job comes of it. */
  function NextId(st: LoopState): (r: LoopState) {
    st.(jobId := st.jobId + 1)
  }

  function LoadMisses(st: LoopState, n: nat): (r: LoopState) {
    st.(loads := st.loads.(stats := st.loads.stats.(misses := st.loads.stats.misses + n)))
  }

  function StoreMisses(st: LoopState, n: nat): (r: LoopState) {
    st.(stores := st.stores.(stats := st.stores.stats.(misses := st.stores.stats.misses + n)))
  }

  function Idle(sz: Sizes): (r: LoopState) {
    LoopState(Side(Range(sz.loadSlots), 0, NO_STATS), Side(Range(sz.storeSlots), 0, NO_STATS), map[], [], 3_000_000, [])
  }

  /** Every prepared store has been submitted. */
  function SentAll(st: LoopState): (r: LoopState)
    decreases |st.deferred|
  {
    if st.deferred == [] then st else SentAll(Sent(NextId(st)))
  }

  /** The first k prepared stores have been submitted. */
  ghost function SentSome(st: LoopState, k: nat): (r: LoopState)
    requires k <= |st.deferred|
    ensures r.deferred == st.deferred[k..]
  {
    if k == 0 then st else Sent(NextId(SentSome(st, k - 1)))
  }

  /** A whole batch of jobs has been reaped and completed. */
  function RetiredAll(st: LoopState, batch: seq<Report>): (r: LoopState)
    requires Legit(batch, st.pending.Keys)
    ensures r.pending == st.pending - Ids(batch)
    ensures r.loads.stats.tLast == st.loads.stats.tLast && r.stores.stats.tLast == st.stores.stats.tLast
    ensures r.deferred == st.deferred && r.jobId == st.jobId && r.uncompleted == st.uncompleted
  {
    if batch == [] then st else
      var n := |batch| - 1;
      var s := RetiredAll(st, batch[..n]);
      assert batch == batch[..n] + [batch[n]];
      assert Ids(batch) == Ids(batch[..n]) + {batch[n].job};
      Retired(s, batch[n].job, batch[n].ok, true)
  }

  function DoneOf(pending: map<nat, Job>, batch: seq<Report>): (r: seq<Done>)
    requires Legit(batch, pending.Keys)
    ensures |r| == |batch|
  {
    seq(|batch|, i requires 0 <= i < |batch| =>
      var job := pending[batch[i].job]; Done(job.kind, job.keys, job.tag))
  }

  // --- Every step keeps the slots right ---

  ghost function NoHistory(): History {
    History(SideHistory(map[], NO_TIME), SideHistory(map[], NO_TIME), [])
  }

  lemma IdleOk(sz: Sizes)
    ensures SlotsOk(sz, Idle(sz), NoHistory())
    ensures PinsHeld(Idle(sz)) == multiset{} == ReservationsHeld(Idle(sz))
  {
    RangeNoDup(sz.loadSlots);
    RangeNoDup(sz.storeSlots);
  }

  lemma NextIdOk(sz: Sizes, st: LoopState, h: History)
    requires SlotsOk(sz, st, h)
    ensures SlotsOk(sz, NextId(st), h)
    ensures PinsHeld(NextId(st)) == PinsHeld(st) && ReservationsHeld(NextId(st)) == ReservationsHeld(st)
  {
  }

  lemma SampledSlots(sz: Sizes, st: LoopState, h: History, now: real)
    requires SlotsOk(sz, st, h)
    ensures SlotsOk(sz, LoopSampled(st, now), h)
  {
    Bystander(Load, st.loads, h.loads, sz.loadSlots, st.pending, st.pending, [], now);
    Bystander(Store, st.stores, h.stores, sz.storeSlots, st.pending, st.pending, st.deferred, now);
  }

  lemma MissesOk(sz: Sizes, st: LoopState, h: History, n: nat)
    requires SlotsOk(sz, st, h)
    ensures SlotsOk(sz, LoadMisses(st, n), h) && SlotsOk(sz, StoreMisses(st, n), h)
    ensures PinsHeld(LoadMisses(st, n)) == PinsHeld(st) && ReservationsHeld(LoadMisses(st, n)) == ReservationsHeld(st)
    ensures PinsHeld(StoreMisses(st, n)) == PinsHeld(st) && ReservationsHeld(StoreMisses(st, n)) == ReservationsHeld(st)
  {
    assert Open(st.loads, 0) && Open(st.stores, 0);
  }

  /** The load job jobId has taken a slot. */
  ghost function HistoryLaunched(st: LoopState, h: History, hits: seq<Key>, now: real): History
    requires st.loads.free != []
  {
    h.(loads := SideHistory(h.loads.held[st.loads.free[0] := Submitted(st.jobId)], Opened(h.loads.time, st.jobId, now)),
       log := h.log + [StartedAt(st.jobId, hits, now)])
  }

  /** A direction not concerned by a new or ended job, at most sampled. */
  lemma Bystander(kind: Kind, side: Side, h: SideHistory, slots: nat, pending: map<nat, Job>, pending': map<nat, Job>,
                  deferred: seq<Prepared>, now: real)
    requires DirectionOk(kind, side, h, slots, pending, deferred)
    requires forall j :: j in pending && pending[j].kind == kind ==> j in pending' && pending'[j] == pending[j]
    requires forall j :: j in pending' && pending'[j].kind == kind ==> j in pending && pending[j] == pending'[j]
    ensures DirectionOk(kind, SideSampled(side, now), h, slots, pending', deferred)
    ensures DirectionOk(kind, side, h, slots, pending', deferred)
  {
    assert Open(side, 0);
    SideSampledOk(side, h, slots, now);
    HeldSame(kind, h.held, pending, pending');
  }

  lemma LoadTaken(side: Side, h: SideHistory, slots: nat, pending: map<nat, Job>, j: nat, job: Job, now: real)
    requires DirectionOk(Load, side, h, slots, pending, [])
    requires side.free != [] && j !in pending && job.kind == Load && job.slot == side.free[0]
    ensures DirectionOk(Load, SlotTaken(SideSampled(side, now)),
                        SideHistory(h.held[side.free[0] := Submitted(j)], Opened(h.time, j, now)), slots,
                        pending[j := job], [])
  {
    assert Open(side, 0);
    var s := SideSampled(side, now);
    var held, time := h.held[side.free[0] := Submitted(j)], Opened(h.time, j, now);
    assert SideOk(SlotTaken(s), SideHistory(held, time), slots) && side.free[0] !in h.held by {
      SideSampledOk(side, h, slots, now);
      AreaOpened(s.stats, h.time, j, now);
      SlotTakenOk(s, h, slots, Submitted(j), time);
    }
    assert HeldByPending(Load, held, pending[j := job]) by {
      HeldAdded(Load, h.held, pending, j, job);
    }
    assert HeldByDeferred(held, []);
    TimedAdded(Load, h.time, pending, 0, j, job, now);
    Seal(Load, SlotTaken(s), SideHistory(held, time), slots, pending[j := job], []);
  }

  lemma StoreTaken(side: Side, h: SideHistory, slots: nat, pending: map<nat, Job>, deferred: seq<Prepared>,
                   p: Prepared, now: real)
    requires DirectionOk(Store, side, h, slots, pending, deferred)
    requires side.free != [] && p.slot == side.free[0]
    ensures DirectionOk(Store, SlotTaken(SideSampled(side, now)),
                        SideHistory(h.held[side.free[0] := Deferred], Queued(h.time, now)), slots, pending,
                        deferred + [p])
  {
    assert Open(side, 0);
    var s := SideSampled(side, now);
    SideSampledOk(side, h, slots, now);
    AreaQueued(s.stats, h.time, now);
    SlotTakenOk(s, h, slots, Deferred, Queued(h.time, now));
    HeldReserved(Store, h.held, pending, p.slot);
    DeferredAdded(h.held, deferred, p);
  }

  lemma StoreSent(side: Side, h: SideHistory, slots: nat, pending: map<nat, Job>, deferred: seq<Prepared>, j: nat,
                  job: Job)
    requires DirectionOk(Store, side, h, slots, pending, deferred) && deferred != [] && j !in pending
    requires job.kind == Store && job.slot == deferred[0].slot
    ensures DirectionOk(Store, side, SideHistory(h.held[job.slot := Submitted(j)], Dequeued(h.time, j)), slots,
                        pending[j := job], deferred[1..])
  {
    assert Open(side, 0);
    var held, time := h.held[job.slot := Submitted(j)], Dequeued(h.time, j);
    assert SideOk(side, SideHistory(held, time), slots) by {
      SideSent(side, h, slots, job.slot, j);
    }
    DeferredSent(h.held, deferred, j);
    HeldAdded(Store, h.held, pending, j, job);
    Seal(Store, side, SideHistory(held, time), slots, pending[j := job], deferred[1..]);
  }

  lemma SideFreed(kind: Kind, side: Side, h: SideHistory, slots: nat, pending: map<nat, Job>, deferred: seq<Prepared>,
                  j: nat, success: bool, now: real)
    requires DirectionOk(kind, side, h, slots, pending, deferred)
    requires j in pending && pending[j].kind == kind && side.stats.tLast == Some(now)
    ensures SideOk(Counted(SlotReturned(side, pending[j].slot), pending[j], success),
                   SideHistory(h.held - {pending[j].slot}, Closed(h.time, j, pending[j].keys, now)), slots)
  {
    assert Open(side, 0);
    var job := pending[j];
    SlotReturnedOk(side, h, slots, job.slot, j, job.keys, now);
    SideCounted(SlotReturned(side, job.slot), SideHistory(h.held - {job.slot}, Closed(h.time, j, job.keys, now)), slots,
                job, success);
  }

  lemma SideCounted(side: Side, h: SideHistory, slots: nat, job: Job, success: bool)
    requires SideOk(side, h, slots)
    ensures SideOk(Counted(side, job, success), h, slots)
  {
  }

  lemma HoldersFreed(kind: Kind, side: Side, h: SideHistory, slots: nat, pending: map<nat, Job>,
                     deferred: seq<Prepared>, j: nat, now: real)
    requires DirectionOk(kind, side, h, slots, pending, deferred) && j in pending && pending[j].kind == kind
    ensures HeldByPending(kind, h.held - {pending[j].slot}, pending - {j})
    ensures HeldByDeferred(h.held - {pending[j].slot}, deferred)
    ensures Timed(kind, Closed(h.time, j, pending[j].keys, now), pending - {j}, |deferred|)
  {
    assert Open(side, 0);
    HeldRemoved(kind, h.held, pending, j);
    DeferredFreed(h.held, deferred, pending[j].slot);
    TimedRemoved(kind, h.time, pending, |deferred|, j, pending[j].keys, now);
  }

  lemma SlotFreed(kind: Kind, side: Side, h: SideHistory, slots: nat, pending: map<nat, Job>, deferred: seq<Prepared>,
                  j: nat, success: bool, now: real)
    requires DirectionOk(kind, side, h, slots, pending, deferred)
    requires j in pending && pending[j].kind == kind && side.stats.tLast == Some(now)
    ensures DirectionOk(kind, Counted(SlotReturned(side, pending[j].slot), pending[j], success),
                        SideHistory(h.held - {pending[j].slot}, Closed(h.time, j, pending[j].keys, now)),
                        slots, pending - {j}, deferred)
  {
    SideFreed(kind, side, h, slots, pending, deferred, j, success, now);
    HoldersFreed(kind, side, h, slots, pending, deferred, j, now);
  }

  lemma LaunchedSlots(sz: Sizes, st: LoopState, h: History, hits: seq<Key>, tag: nat, now: real)
    requires SlotsOk(sz, st, h) && st.loads.free != [] && st.jobId !in st.pending && |hits| <= sz.loadJobBlocks
    ensures SlotsOk(sz, Launched(st, hits, tag, now), HistoryLaunched(st, h, hits, now))
  {
    var job := Job(Load, hits, st.loads.free[0], tag);
    LoadTaken(st.loads, h.loads, sz.loadSlots, st.pending, st.jobId, job, now);
    Bystander(Store, st.stores, h.stores, sz.storeSlots, st.pending, st.pending[st.jobId := job], st.deferred, now);
  }

  /** A prepared store has taken a slot. */
  ghost function HistoryReserved(st: LoopState, h: History, keys: seq<Key>, now: real): History
    requires st.stores.free != []
  {
    h.(stores := SideHistory(h.stores.held[st.stores.free[0] := Deferred], Queued(h.stores.time, now)),
       log := h.log + [PreparedAt(keys, now)])
  }

  lemma ReservedSlots(sz: Sizes, st: LoopState, h: History, keys: seq<Key>, tag: nat, now: real)
    requires SlotsOk(sz, st, h) && st.stores.free != [] && |keys| <= sz.storeJobBlocks
    ensures SlotsOk(sz, Reserved(st, keys, tag, now), HistoryReserved(st, h, keys, now))
  {
    var p := Prepared(keys, st.stores.free[0], tag);
    StoreTaken(st.stores, h.stores, sz.storeSlots, st.pending, st.deferred, p, now);
    Bystander(Load, st.loads, h.loads, sz.loadSlots, st.pending, st.pending, [], now);
  }

  /** The first prepared store has become job jobId. */
  ghost function HistorySent(st: LoopState, h: History): History
    requires st.deferred != []
  {
    h.(stores := SideHistory(h.stores.held[st.deferred[0].slot := Submitted(st.jobId)],
                             Dequeued(h.stores.time, st.jobId)),
       log := h.log + [SentAs(st.jobId)])
  }

  /** So have the first k prepared stores, in order. */
  ghost function HistorySentSome(st: LoopState, h: History, k: nat): History
    requires k <= |st.deferred|
  {
    if k == 0 then h else HistorySent(NextId(SentSome(st, k - 1)), HistorySentSome(st, h, k - 1))
  }

  /** Submitting stores is nothing to the loads. */
  lemma {:induction false} SentLoads(st: LoopState, h: History, k: nat)
    requires k <= |st.deferred|
    ensures HistorySentSome(st, h, k).loads == h.loads
  {
    if k > 0 {
      SentLoads(st, h, k - 1);
    }
  }

  lemma SentSlots(sz: Sizes, st: LoopState, h: History)
    requires SlotsOk(sz, st, h) && st.deferred != [] && st.jobId !in st.pending
    ensures SlotsOk(sz, Sent(st), HistorySent(st, h))
  {
    var p := st.deferred[0];
    var job := Job(Store, p.keys, p.slot, p.tag);
    Bystander(Load, st.loads, h.loads, sz.loadSlots, st.pending, st.pending[st.jobId := job], [], 0.0);
    StoreSent(st.stores, h.stores, sz.storeSlots, st.pending, st.deferred, st.jobId, job);
  }

  /** A prepared store's slot becomes a job's; nothing else changes. */
  lemma SideSent(side: Side, h: SideHistory, slots: nat, slot: nat, j: nat)
    requires SideOk(side, h, slots) && slot in h.held && h.time.queue != [] && j !in h.time.since
    ensures SideOk(side, SideHistory(h.held[slot := Submitted(j)], Dequeued(h.time, j)), slots)
  {
    assert h.held[slot := Submitted(j)].Keys == h.held.Keys;
    AreaDequeued(side.stats, h.time, j);
  }

  /** A job has been reaped: its slot is free, its life is over. */
  ghost function HistoryRetired(pending: map<nat, Job>, h: History, j: nat, now: real): History
    requires j in pending
  {
    var job := pending[j];
    var log := h.log + [ReapedAt(j, now)];
    if job.kind == Load
    then h.(loads := SideHistory(h.loads.held - {job.slot}, Closed(h.loads.time, j, job.keys, now)), log := log)
    else h.(stores := SideHistory(h.stores.held - {job.slot}, Closed(h.stores.time, j, job.keys, now)), log := log)
  }

  /** So has every job of a batch, in order. */
  ghost function HistoryRetiredAll(pending: map<nat, Job>, h: History, batch: seq<Report>, now: real): History
    requires forall i :: 0 <= i < |batch| ==> batch[i].job in pending
  {
    if batch == [] then h else
      var n := |batch| - 1;
      HistoryRetired(pending, HistoryRetiredAll(pending, h, batch[..n], now), batch[n].job, now)
  }

  lemma RetiredSlots(sz: Sizes, st: LoopState, h: History, j: nat, success: bool, completed: bool, now: real)
    requires SlotsOk(sz, st, h) && j in st.pending
    requires st.loads.stats.tLast == Some(now) == st.stores.stats.tLast
    ensures SlotsOk(sz, Retired(st, j, success, completed), HistoryRetired(st.pending, h, j, now))
  {
    if st.pending[j].kind == Load {
      SlotFreed(Load, st.loads, h.loads, sz.loadSlots, st.pending, [], j, success, now);
      Bystander(Store, st.stores, h.stores, sz.storeSlots, st.pending, st.pending - {j}, st.deferred, now);
    } else {
      SlotFreed(Store, st.stores, h.stores, sz.storeSlots, st.pending, st.deferred, j, success, now);
      Bystander(Load, st.loads, h.loads, sz.loadSlots, st.pending, st.pending - {j}, [], now);
    }
  }

  lemma DeferredFreed(held: map<nat, Holder>, deferred: seq<Prepared>, slot: nat)
    requires HeldByDeferred(held, deferred) && slot in held && held[slot].Submitted?
    ensures HeldByDeferred(held - {slot}, deferred)
  {
  }

  // --- and the ledger ---

  lemma LaunchedLedger(st: LoopState, hits: seq<Key>, tag: nat, now: real)
    requires st.loads.free != [] && st.jobId !in st.pending
    ensures PinsHeld(Launched(st, hits, tag, now)) == PinsHeld(st) + multiset(hits)
    ensures ReservationsHeld(Launched(st, hits, tag, now)) == ReservationsHeld(st)
  {
    var job := Job(Load, hits, st.loads.free[0], tag);
    PendingKeysInsert(Load, st.pending, st.jobId, job);
    PendingKeysInsert(Store, st.pending, st.jobId, job);
  }

  lemma ReservedLedger(st: LoopState, keys: seq<Key>, tag: nat, now: real)
    requires st.stores.free != []
    ensures PinsHeld(Reserved(st, keys, tag, now)) == PinsHeld(st)
    ensures ReservationsHeld(Reserved(st, keys, tag, now)) == ReservationsHeld(st) + multiset(keys)
  {
    PreparedKeysAppend(st.deferred, Prepared(keys, st.stores.free[0], tag));
  }

  lemma SentLedger(st: LoopState)
    requires st.deferred != [] && st.jobId !in st.pending
    ensures PinsHeld(Sent(st)) == PinsHeld(st)
    ensures ReservationsHeld(Sent(st)) == ReservationsHeld(st)
  {
    var p := st.deferred[0];
    var job := Job(Store, p.keys, p.slot, p.tag);
    PendingKeysInsert(Load, st.pending, st.jobId, job);
    PendingKeysInsert(Store, st.pending, st.jobId, job);
  }

  lemma RetiredLedger(st: LoopState, j: nat, success: bool, completed: bool)
    requires j in st.pending
    ensures var st' := Retired(st, j, success, completed);
            var keys := multiset(st.pending[j].keys);
            if !completed then PinsHeld(st) == PinsHeld(st') && ReservationsHeld(st) == ReservationsHeld(st')
            else if st.pending[j].kind == Load
            then PinsHeld(st) == PinsHeld(st') + keys && ReservationsHeld(st) == ReservationsHeld(st')
            else PinsHeld(st) == PinsHeld(st') && ReservationsHeld(st) == ReservationsHeld(st') + keys
  {
    RetiredKind(Load, st, j, success, completed);
    RetiredKind(Store, st, j, success, completed);
    var st' := Retired(st, j, success, completed);
    var released := if completed then KeysOf(Store, st.pending[j]) else multiset{};
    Regroup(PendingKeys(Store, st.pending), PendingKeys(Store, st'.pending), OwingKeys(Store, st.uncompleted),
            OwingKeys(Store, st'.uncompleted), PreparedKeys(st.deferred), released);
    Nothing(PinsHeld(st'));
    Nothing(ReservationsHeld(st'));
  }

  // --- Keys carried: every key asked of one direction is moved, missed or on its way ---

  ghost function Carried(kind: Kind, st: LoopState): nat {
    var stats := if kind == Load then st.loads.stats else st.stores.stats;
    stats.blocks + stats.misses + |PendingKeys(kind, st.pending)| +
    if kind == Store then |PreparedKeys(st.deferred)| else 0
  }

  lemma SizeOf(keys: seq<Key>, rest: multiset<Key>)
    ensures |multiset(keys) + rest| == |keys| + |rest| && |multiset{} + rest| == |rest|
  {
  }

  lemma LaunchedCarried(st: LoopState, hits: seq<Key>, tag: nat, now: real)
    requires st.loads.free != [] && st.jobId !in st.pending
    ensures Carried(Load, Launched(st, hits, tag, now)) == Carried(Load, st) + |hits|
    ensures Carried(Store, Launched(st, hits, tag, now)) == Carried(Store, st)
  {
    var job := Job(Load, hits, st.loads.free[0], tag);
    PendingKeysInsert(Load, st.pending, st.jobId, job);
    PendingKeysInsert(Store, st.pending, st.jobId, job);
    SizeOf(hits, PendingKeys(Load, st.pending));
    SizeOf(hits, PendingKeys(Store, st.pending));
  }

  lemma ReservedCarried(st: LoopState, keys: seq<Key>, tag: nat, now: real)
    requires st.stores.free != []
    ensures Carried(Store, Reserved(st, keys, tag, now)) == Carried(Store, st) + |keys|
    ensures Carried(Load, Reserved(st, keys, tag, now)) == Carried(Load, st)
  {
    PreparedKeysAppend(st.deferred, Prepared(keys, st.stores.free[0], tag));
    assert |PreparedKeys(st.deferred) + multiset(keys)| == |PreparedKeys(st.deferred)| + |keys|;
  }

  lemma {:induction false} SentAllCarried(st: LoopState, kind: Kind)
    requires forall j :: j in st.pending ==> j <= st.jobId
    ensures Carried(kind, SentAll(st)) == Carried(kind, st)
    decreases |st.deferred|
  {
    if st.deferred != [] {
      var p, s := st.deferred[0], NextId(st);
      var job := Job(Store, p.keys, p.slot, p.tag);
      PendingKeysInsert(kind, st.pending, s.jobId, job);
      SizeOf(p.keys, PendingKeys(kind, st.pending));
      SizeOf(p.keys, PreparedKeys(st.deferred[1..]));
      SentAllCarried(Sent(s), kind);
    }
  }

  /** A job that succeeded moved its keys. */
  lemma RetiredCarried(st: LoopState, j: nat, kind: Kind)
    requires j in st.pending
    ensures Carried(kind, Retired(st, j, true, true)) == Carried(kind, st)
  {
    PendingKeysRemove(kind, st.pending, j);
    SizeOf(st.pending[j].keys, PendingKeys(kind, st.pending - {j}));
  }

  lemma {:induction false} RetiredAllCarried(st: LoopState, batch: seq<Report>, kind: Kind)
    requires Legit(batch, st.pending.Keys) && forall i :: 0 <= i < |batch| ==> batch[i].ok
    ensures Carried(kind, RetiredAll(st, batch)) == Carried(kind, st)
    decreases |batch|
  {
    if batch != [] {
      var n := |batch| - 1;
      assert Legit(batch[..n], st.pending.Keys);
      RetiredAllCarried(st, batch[..n], kind);
      assert batch == batch[..n] + [batch[n]];
      assert batch[n].job in RetiredAll(st, batch[..n]).pending;
      RetiredCarried(RetiredAll(st, batch[..n]), batch[n].job, kind);
    }
  }

  lemma Nothing(a: multiset<Key>)
    ensures a + multiset{} == a
  {
  }

  lemma RetiredKind(kind: Kind, st: LoopState, j: nat, success: bool, completed: bool)
    requires j in st.pending
    ensures var released := if completed then KeysOf(kind, st.pending[j]) else multiset{};
            var st' := Retired(st, j, success, completed);
            PendingKeys(kind, st.pending) + OwingKeys(kind, st.uncompleted) ==
            PendingKeys(kind, st'.pending) + OwingKeys(kind, st'.uncompleted) + released
  {
    var job := st.pending[j];
    var o := Owing(job.kind, job.keys, success);
    PendingKeysRemove(kind, st.pending, j);
    OwingKeysAppend(kind, st.uncompleted, o);
    assert KeysOf(kind, job) == OwedBy(kind, o);
    Shift(KeysOf(kind, job), PendingKeys(kind, st.pending - {j}), OwingKeys(kind, st.uncompleted));
    assert completed ==> st.uncompleted + [] == st.uncompleted;
  }

  lemma Shift(a: multiset<Key>, b: multiset<Key>, c: multiset<Key>)
    ensures (a + b) + c == (b + c) + a == b + (c + a) == (b + (c + a)) + multiset{}
  {
  }

  /** The rest of the loop's claims once a job's own claim on `keys` is gone. */
  ghost predicate ClaimGone(st: LoopState, st': LoopState, kind: Kind, keys: seq<Key>) {
    forall k {:trigger Open(keys, k)} :: Open(keys, k) ==>
      && PinsHeld(st) == PinsHeld(st') + (if kind == Load then multiset(keys) else multiset{})
      && ReservationsHeld(st) == ReservationsHeld(st') + (if kind == Store then multiset(keys) else multiset{})
  }

  lemma DeferredClaim(st: LoopState)
    requires st.deferred != []
    ensures ClaimGone(st, st.(deferred := st.deferred[1..]), Store, st.deferred[0].keys)
  {
    var st' := st.(deferred := st.deferred[1..]);
    Nothing(PinsHeld(st));
    Shuffle(PendingKeys(Store, st.pending), multiset(st.deferred[0].keys), PreparedKeys(st'.deferred),
            OwingKeys(Store, st.uncompleted));
  }

  lemma OwingClaim(st: LoopState)
    requires st.uncompleted != []
    ensures ClaimGone(st, st.(uncompleted := st.uncompleted[1..]), st.uncompleted[0].kind, st.uncompleted[0].keys)
  {
    var o, st' := st.uncompleted[0], st.(uncompleted := st.uncompleted[1..]);
    Tail(PendingKeys(Load, st.pending), OwedBy(Load, o), OwingKeys(Load, st'.uncompleted));
    Tail(PendingKeys(Store, st.pending) + PreparedKeys(st.deferred), OwedBy(Store, o),
         OwingKeys(Store, st'.uncompleted));
  }

  lemma PendingClaim(st: LoopState, j: nat)
    requires j in st.pending
    ensures ClaimGone(st, st.(pending := st.pending - {j}), st.pending[j].kind, st.pending[j].keys)
  {
    var job, rest := st.pending[j], st.pending - {j};
    PendingKeysRemove(Load, st.pending, j);
    PendingKeysRemove(Store, st.pending, j);
    Shuffle(multiset{}, KeysOf(Load, job), PendingKeys(Load, rest), OwingKeys(Load, st.uncompleted));
    Shuffle(multiset{}, KeysOf(Store, job), PendingKeys(Store, rest),
            PreparedKeys(st.deferred) + OwingKeys(Store, st.uncompleted));
    Head(KeysOf(Load, job), PendingKeys(Load, rest), OwingKeys(Load, st.uncompleted));
    Head(KeysOf(Store, job), PendingKeys(Store, rest), PreparedKeys(st.deferred));
    Head(KeysOf(Store, job), PendingKeys(Store, rest) + PreparedKeys(st.deferred), OwingKeys(Store, st.uncompleted));
  }

  lemma Shuffle(a: multiset<Key>, k: multiset<Key>, b: multiset<Key>, c: multiset<Key>)
    ensures a + (k + b) + c == (a + b + c) + k
  {
  }

  lemma Tail(a: multiset<Key>, k: multiset<Key>, b: multiset<Key>)
    ensures a + (k + b) == (a + b) + k
  {
  }

  lemma Head(k: multiset<Key>, a: multiset<Key>, b: multiset<Key>)
    ensures (k + a) + b == (a + b) + k == k + (a + b)
  {
  }

  lemma Regroup(a: multiset<Key>, a': multiset<Key>, b: multiset<Key>, b': multiset<Key>, c: multiset<Key>,
                d: multiset<Key>)
    requires a + b == a' + b' + d
    ensures a + c + b == a' + c + b' + d
  {
    forall k: Key ensures (a + c + b)[k] == (a' + c + b' + d)[k] {
      assert (a + b)[k] == (a' + b' + d)[k];
    }
  }
}

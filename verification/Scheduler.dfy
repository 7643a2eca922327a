/** Continuous batching over the step loop: each tick submits last tick's stores, retries
    delayed requests first come first served, admits new ones up to a bounded backlog, lets
    loaded requests compute, and polls once. */
module Schedulers {
  import opened Common
  import opened Inflight
  import opened LoopStates
  import opened StepLoops
  import opened Sizing
  import opened SchedulerStates

  datatype Verdict = Delayed | NoSlot | Loading | CanCompute

  /** The loop's slots are the workload's, and hold every request. */
  ghost predicate SizedFor(w: Workload, sz: Sizes)
    requires Runnable(w)
  {
    forall k {:trigger Open(sz, k)} :: Open(sz, k) ==> sz == Slots(w) && (w.shared || w.numBlocks > 0)
  }

  /** Request r's keys; they fit a load slot and a store slot. */
  method KeysFor(w: Workload, ghost sz: Sizes, r: nat) returns (keys: seq<Key>)
    requires Runnable(w) && SizedFor(w, sz)
    ensures Asks(w, r, keys)
    ensures |keys| <= sz.loadJobBlocks == sz.storeJobBlocks
  {
    assert Open(sz, 0);
    RequestsFit(w);
    keys := RequestKeys(w, r);
  }

  ghost predicate SteadyOk(w: Workload, limit: nat, s: Sched, h: Trail, st: LoopState)
    requires Runnable(w)
  {
    && Orderly(w, limit, s, h)
    && h.leaving == {}
    && Linked(st.pending, st.jobId, h.owner, h.jobKeys, h.ended)
    && h.ended <= h.jobKeys.Keys
    && st.uncompleted == []
  }

  /** The scheduler and the step loop between two scheduling decisions, carried whole. */
  ghost predicate Steady(w: Workload, limit: nat, s: Sched, h: Trail, st: LoopState)
    requires Runnable(w)
  {
    forall k {:trigger Open(h, k)} :: Open(h, k) ==> SteadyOk(w, limit, s, h, st)
  }

  /** Every key counted as a prefix hit was skipped or went to the loop's loads, and every block
      handed over went to its stores: moved, missed or on its way. Carried whole. */
  ghost predicate Flow(s: Sched, h: Trail, st: LoopState) {
    Flows(s.prefixHits, |s.storedKeys|, h.starts, st)
  }

  ghost predicate Flows(prefixHits: nat, handed: nat, starts: map<nat, nat>, st: LoopState) {
    forall k {:trigger Open(starts, k)} :: Open(starts, k) ==>
      Carried(Load, st) + Skipped(starts) == prefixHits && Carried(Store, st) == handed
  }

  /** Everything that holds between two scheduling decisions. */
  ghost predicate Going(w: Workload, limit: nat, s: Sched, h: Trail, st: LoopState)
    requires Runnable(w)
  {
    Steady(w, limit, s, h, st) && h.hand == {} && Flow(s, h, st)
  }

  /** The trail remembers all of the earlier one, and its ended load jobs are those the step loop
      has reaped. */
  ghost predicate Tracks(h: Trail, h': Trail, b: Books) {
    Extends(h, h') && Recorded(h'.ended, h'.jobKeys, b.hist.loads.time.lives)
  }

  lemma TracksOn(h0: Trail, h: Trail, b: Books, h': Trail, b': Books)
    requires Tracks(h0, h, b) && Tracks(h, h', b')
    ensures Tracks(h0, h', b')
  {
    ExtendsOn(h0, h, h');
  }

  /** How many leading keys are in the cache. */
  method Skip(keys: seq<Key>, cached: set<Key>) returns (start: nat)
    ensures SkipsCached(keys, cached, start)
  {
    start := 0;
    while start < |keys| && keys[start] in cached
      invariant start <= |keys|
      invariant forall i :: 0 <= i < start ==> keys[i] in cached
    {
      start := start + 1;
    }
  }

  /** Touches a request's keys and looks up the rest of them, up to the first miss. */
  method FindHits(loop: StepLoop, rest: seq<Key>) returns (o: Outcome, hits: seq<Key>)
    requires loop.Valid()
    modifies loop`calls
    ensures loop.Valid() && hits <= rest && Ran(o.Ok?, old(loop.Now()), loop.Now())
  {
    o, hits := Ok, [];
    RanSame(loop.Now());
    if loop.touchFirst {
      o := loop.Call();
      if o.Raised? {
        return;
      }
    }
    for i := 0 to |rest|
      invariant hits == rest[..i] && o.Ok? && Ran(true, old(loop.Now()), loop.Now())
    {
      ghost var m := loop.Now();
      o := loop.Call();
      RanOn(old(loop.Now()), true, m, o.Ok?, loop.Now());
      if o.Raised? {
        return;
      }
      var hit: bool := *;
      if !hit {
        break;
      }
      hits := hits + [rest[i]];
    }
    ghost var m := loop.Now();
    if !loop.touchFirst {
      o := loop.Call();
      RanOn(old(loop.Now()), true, m, o.Ok?, loop.Now());
    }
  }

  method Mark(loading: map<Key, nat>, hits: seq<Key>, jid: nat) returns (marked: map<Key, nat>)
    ensures marked == Marked(loading, hits, jid)
  {
    marked := loading;
    for i := 0 to |hits|
      invariant marked == Marked(loading, hits[..i], jid)
    {
      MarkedNext(loading, hits, jid, i);
      marked := marked[hits[i] := jid];
    }
    assert hits[..|hits|] == hits;
  }

  lemma MarkedNext(loading: map<Key, nat>, hits: seq<Key>, jid: nat, i: nat)
    requires i < |hits|
    ensures Marked(loading, hits[..i], jid)[hits[i] := jid] == Marked(loading, hits[..i + 1], jid)
  {
    assert hits[..i + 1] == hits[..i] + [hits[i]];
  }

  /** What one scheduling attempt of request r did, having skipped `start` leading keys and hit
      `hits` after them. */
  ghost predicate AttemptOk(s: Sched, st: LoopState, r: nat, keys: seq<Key>, cached: set<Key>, start: nat,
                            hits: seq<Key>, v: Verdict, s': Sched, st': LoopState, now: real)
    requires start <= |keys| && hits <= keys[start..]
  {
    match v
    case Delayed => Busy(s.loading, hits) != {} && s' == PutDelayed(s, r, Busy(s.loading, hits), cached) && st' == st
    case NoSlot => Busy(s.loading, hits) == {} && hits != [] && st.loads.free == [] && s' == s && st' == st
    case Loading =>
      && Busy(s.loading, hits) == {} && hits != [] && st.loads.free != []
      && s' == PutLoading(s, r, start, hits, keys[start..][|hits|..], st.jobId + 1)
      && st' == Launched(NextId(st), hits, r, now)
    case CanCompute => hits == [] && s' == PutReady(s, r, start, keys[start..]) && st' == st
  }

  /** AttemptOk, carried whole. */
  ghost predicate Attempted(s: Sched, st: LoopState, r: nat, keys: seq<Key>, cached: set<Key>, start: nat,
                            hits: seq<Key>, v: Verdict, s': Sched, st': LoopState, now: real)
    requires start <= |keys| && hits <= keys[start..]
  {
    forall k {:trigger Open(s', k)} :: Open(s', k) ==> AttemptOk(s, st, r, keys, cached, start, hits, v, s', st', now)
  }

  ghost function AttemptTrail(s: Sched, h: Trail, r: nat, start: nat, hits: seq<Key>, v: Verdict, jid: nat): Trail
    requires r in h.waited
  {
    match v
    case Delayed => SchedulerStates.Delayed(h, r, Busy(s.loading, hits))
    case NoSlot => h
    case Loading => Started(h, r, start, jid, hits)
    case CanCompute => MadeReady(h, r, start)
  }

  lemma AttemptDelayed(w: Workload, limit: nat, s: Sched, h: Trail, st: LoopState, r: nat, keys: seq<Key>,
                       cached: set<Key>, start: nat, hits: seq<Key>, s': Sched, h': Trail)
    requires Runnable(w) && Steady(w, limit, s, h, st) && h.hand == {r} && Asks(w, r, keys)
    requires r in h.waited && CacheOk(h.waited[r], h.ended, h.jobKeys, cached)
    requires start <= |keys| && hits <= keys[start..] && Busy(s.loading, hits) != {}
    requires s' == PutDelayed(s, r, Busy(s.loading, hits), cached)
    requires h' == SchedulerStates.Delayed(h, r, Busy(s.loading, hits))
    ensures Steady(w, limit, s', h', st)
  {
    assert Open(h, 0);
    PutDelayedOrderly(w, limit, s, h, r, keys, start, hits, cached);
  }

  lemma AttemptLoading(w: Workload, limit: nat, s: Sched, h: Trail, st: LoopState, r: nat, keys: seq<Key>,
                       cached: set<Key>, start: nat, hits: seq<Key>, now: real, s': Sched, h': Trail, st': LoopState)
    requires Runnable(w) && Steady(w, limit, s, h, st) && h.hand == {r} && Asks(w, r, keys) && |keys| <= limit
    requires r in h.waited && CacheOk(h.waited[r], h.ended, h.jobKeys, cached)
    requires SkipsCached(keys, cached, start) && hits <= keys[start..]
    requires Busy(s.loading, hits) == {} && st.loads.free != []
    requires s' == PutLoading(s, r, start, hits, keys[start..][|hits|..], st.jobId + 1)
    requires h' == Started(h, r, start, st.jobId + 1, hits) && st' == Launched(NextId(st), hits, r, now)
    ensures Steady(w, limit, s', h', st')
  {
    assert Open(h, 0);
    LinkedLaunched(st, h, hits, r, start, now);
    PutLoadingOrderly(w, limit, s, h, r, start, hits, keys[start..][|hits|..], st.jobId + 1, keys, cached);
  }

  lemma AttemptReady(w: Workload, limit: nat, s: Sched, h: Trail, st: LoopState, r: nat, keys: seq<Key>,
                     cached: set<Key>, start: nat, s': Sched, h': Trail)
    requires Runnable(w) && Steady(w, limit, s, h, st) && h.hand == {r} && Asks(w, r, keys) && |keys| <= limit
    requires r in h.waited && CacheOk(h.waited[r], h.ended, h.jobKeys, cached) && SkipsCached(keys, cached, start)
    requires s' == PutReady(s, r, start, keys[start..]) && h' == MadeReady(h, r, start)
    ensures Steady(w, limit, s', h', st)
  {
    assert Open(h, 0);
    PutReadyOrderly(w, limit, s, h, r, start, keys[start..], keys, cached);
  }

  /** Every attempt that does not run out of slots leaves everything steady again. */
  lemma AttemptSteady(w: Workload, limit: nat, s: Sched, h: Trail, st: LoopState, r: nat, keys: seq<Key>,
                      cached: set<Key>, start: nat, hits: seq<Key>, v: Verdict, s': Sched, st': LoopState, now: real)
    requires Runnable(w) && Steady(w, limit, s, h, st) && h.hand == {r} && Asks(w, r, keys) && |keys| <= limit
    requires r in h.waited && CacheOk(h.waited[r], h.ended, h.jobKeys, cached)
    requires SkipsCached(keys, cached, start) && hits <= keys[start..] && v != NoSlot
    requires Attempted(s, st, r, keys, cached, start, hits, v, s', st', now)
    ensures Steady(w, limit, s', AttemptTrail(s, h, r, start, hits, v, st.jobId + 1), st')
  {
    var h' := AttemptTrail(s, h, r, start, hits, v, st.jobId + 1);
    AttemptCases(s, st, r, keys, cached, start, hits, v, s', st', now);
    if v == Delayed {
      AttemptDelayed(w, limit, s, h, st, r, keys, cached, start, hits, s', h');
    } else if v == Loading {
      AttemptLoading(w, limit, s, h, st, r, keys, cached, start, hits, now, s', h', st');
    } else {
      AttemptReady(w, limit, s, h, st, r, keys, cached, start, s', h');
    }
  }

  lemma AttemptCases(s: Sched, st: LoopState, r: nat, keys: seq<Key>, cached: set<Key>, start: nat, hits: seq<Key>,
                     v: Verdict, s': Sched, st': LoopState, now: real)
    requires start <= |keys| && hits <= keys[start..] && Attempted(s, st, r, keys, cached, start, hits, v, s', st', now)
    ensures v != Loading ==> st' == st
    ensures v == Delayed ==> Busy(s.loading, hits) != {} && s' == PutDelayed(s, r, Busy(s.loading, hits), cached)
    ensures v == Loading ==>
              && Busy(s.loading, hits) == {} && st.loads.free != []
              && s' == PutLoading(s, r, start, hits, keys[start..][|hits|..], st.jobId + 1)
              && st' == Launched(NextId(st), hits, r, now)
    ensures v == CanCompute ==> s' == PutReady(s, r, start, keys[start..])
  {
    assert Open(s', 0);
  }

  lemma AttemptNoSlot(s: Sched, st: LoopState, r: nat, keys: seq<Key>, cached: set<Key>, start: nat, hits: seq<Key>,
                      v: Verdict, s': Sched, st': LoopState, now: real)
    requires start <= |keys| && hits <= keys[start..]
    requires Attempted(s, st, r, keys, cached, start, hits, v, s', st', now)
    ensures v == NoSlot ==> st' == st && st.loads.free == []
  {
    assert Open(s', 0);
  }

  /** A busy job is a load job that has not ended. */
  lemma BusyOut(w: Workload, limit: nat, s: Sched, h: Trail, st: LoopState, hits: seq<Key>)
    requires Runnable(w) && Steady(w, limit, s, h, st)
    ensures Busy(s.loading, hits) <= h.jobKeys.Keys - h.ended
  {
    assert Open(h, 0) && Open(s.loading, 0);
  }

  /** An attempt adds to the trail, and ends no job. */
  lemma AttemptTracks(s: Sched, h: Trail, r: nat, start: nat, hits: seq<Key>, v: Verdict, jid: nat, lives: seq<Life>)
    requires r in h.waited && r !in h.starts && jid !in h.jobKeys && Recorded(h.ended, h.jobKeys, lives)
    requires Busy(s.loading, hits) <= h.jobKeys.Keys - h.ended
    ensures var h' := AttemptTrail(s, h, r, start, hits, v, jid);
            Extends(h, h') && Recorded(h'.ended, h'.jobKeys, lives)
  {
    RecordedGrow(h.ended, h.jobKeys, AttemptTrail(s, h, r, start, hits, v, jid).jobKeys, lives);
  }

  /** The request is counted and waits for its job; the job's keys are marked as being loaded. */
  method Enter(s: Sched, r: nat, start: nat, hits: seq<Key>, missing: seq<Key>, jid: nat) returns (s': Sched)
    ensures s' == PutLoading(s, r, start, hits, missing, jid)
  {
    var marked := Mark(s.loading, hits, jid);
    s' := s.(prefixHits := s.prefixHits + start + |hits|, suffixStores := s.suffixStores + |missing|,
             requests := s.requests + 1,
             loading := marked, jobOf := s.jobOf[r := jid], blocked := s.blocked[r := missing]);
  }

  /** Request r's hits become a load job of its own, in a free slot. */
  method LoadHits(loop: StepLoop, s: Sched, r: nat, start: nat, hits: seq<Key>, missing: seq<Key>, now: real)
    returns (o: Outcome, s': Sched)
    requires loop.Valid() && |hits| <= loop.sz.loadJobBlocks && loop.st.loads.free != []
    modifies loop, loop.worker
    ensures loop.Valid()
    ensures o.Ok? ==> s' == PutLoading(s, r, start, hits, missing, old(loop.st).jobId + 1)
    ensures o.Ok? ==> loop.st == Launched(NextId(old(loop.st)), hits, r, now)
    ensures o.Ok? ==> loop.books.hist.loads.time.lives == old(loop.books).hist.loads.time.lives
    ensures Kept(o, old(loop.Now()), loop.Now())
  {
    s' := s;
    o := loop.StartLoadHits(hits, r, now);
    if o.Ok? {
      s' := Enter(s, r, start, hits, missing, loop.st.jobId);
    }
  }

  lemma AttemptFlow(s: Sched, h: Trail, st: LoopState, r: nat, keys: seq<Key>, cached: set<Key>, start: nat,
                    hits: seq<Key>, v: Verdict, s': Sched, st': LoopState, now: real)
    requires Flow(s, h, st) && r in h.waited && r !in h.starts && st.jobId + 1 !in st.pending
    requires start <= |keys| && hits <= keys[start..] && v != NoSlot
    requires Attempted(s, st, r, keys, cached, start, hits, v, s', st', now)
    ensures Flow(s', AttemptTrail(s, h, r, start, hits, v, st.jobId + 1), st')
  {
    AttemptCases(s, st, r, keys, cached, start, hits, v, s', st', now);
    if v == Loading {
      FlowLoads(s.prefixHits, |s.storedKeys|, h.starts, st, r, start, hits, now);
    } else if v == CanCompute {
      FlowSkips(s.prefixHits, |s.storedKeys|, h.starts, st, r, start);
    }
  }

  lemma FlowSkips(prefixHits: nat, handed: nat, starts: map<nat, nat>, st: LoopState, r: nat, start: nat)
    requires Flows(prefixHits, handed, starts, st) && r !in starts
    ensures Flows(prefixHits + start, handed, starts[r := start], st)
  {
    assert Open(starts, 0);
    SkippedInsert(starts, r, start);
  }

  lemma FlowLoads(prefixHits: nat, handed: nat, starts: map<nat, nat>, st: LoopState, r: nat, start: nat,
                  hits: seq<Key>, now: real)
    requires Flows(prefixHits, handed, starts, st) && r !in starts && st.jobId + 1 !in st.pending && st.loads.free != []
    ensures Flows(prefixHits + start + |hits|, handed, starts[r := start], Launched(NextId(st), hits, r, now))
  {
    assert Open(starts, 0);
    SkippedInsert(starts, r, start);
    LaunchedCarried(NextId(st), hits, r, now);
  }

  /** What becomes of request r, given the keys it skips and its hits. */
  method Decide(loop: StepLoop, s: Sched, r: nat, keys: seq<Key>, cached: set<Key>, start: nat, hits: seq<Key>,
                now: real)
    returns (o: Outcome, v: Verdict, s': Sched)
    requires loop.Valid() && |keys| <= loop.sz.loadJobBlocks && start <= |keys| && hits <= keys[start..]
    modifies loop, loop.worker
    ensures loop.Valid()
    ensures o.Ok? ==> Attempted(s, old(loop.st), r, keys, cached, start, hits, v, s', loop.st, now)
    ensures o.Ok? && v != Loading ==> loop.worker.patience == old(loop.worker.patience)
    ensures o.Ok? ==> loop.books.hist.loads.time.lives == old(loop.books).hist.loads.time.lives
    ensures Kept(o, old(loop.Now()), loop.Now())
  {
    o := Ok;
    RanSame(loop.Now());
    var busy := Busy(s.loading, hits);
    var missing := keys[start..][|hits|..];
    if busy != {} {
      v, s' := Delayed, PutDelayed(s, r, busy, cached);
    } else if hits != [] && loop.st.loads.free == [] {
      v, s' := NoSlot, s;
    } else if hits == [] {
      v, s' := CanCompute, PutReady(s, r, start, missing);
    } else {
      v := Loading;
      o, s' := LoadHits(loop, s, r, start, hits, missing, now);
    }
  }

  /** One scheduling attempt for request r: skip its cached keys, look up the rest, decide. */
  method Admit(loop: StepLoop, s: Sched, r: nat, keys: seq<Key>, cached: set<Key>, now: real)
    returns (o: Outcome, v: Verdict, s': Sched, ghost start: nat, ghost hits: seq<Key>)
    requires loop.Valid() && |keys| <= loop.sz.loadJobBlocks
    modifies loop, loop.worker
    ensures loop.Valid()
    ensures SkipsCached(keys, cached, start) && hits <= keys[start..]
    ensures o.Ok? ==> Attempted(s, old(loop.st), r, keys, cached, start, hits, v, s', loop.st, now)
    ensures o.Ok? && v != Loading ==> loop.worker.patience == old(loop.worker.patience)
    ensures o.Ok? ==> loop.books.hist.loads.time.lives == old(loop.books).hist.loads.time.lives
    ensures Kept(o, old(loop.Now()), loop.Now())
  {
    v, s' := NoSlot, s;
    var n := Skip(keys, cached);
    var found;
    o, found := FindHits(loop, keys[n..]);
    start, hits := n, found;
    RanKept(o, old(loop.Now()), loop.Now());
    if o.Ok? {
      ghost var m := loop.Now();
      o, v, s' := Decide(loop, s, r, keys, cached, n, found, now);
      KeptOn(old(loop.Now()), m, o, loop.Now());
    }
  }

  // --- The passes of one tick ---

  /** The measure that ends the drain: the weight, then the length of the retry list. */
  ghost predicate Closer(s: Sched, st: LoopState, s': Sched, st': LoopState) {
    Weight(s', st') < Weight(s, st) || (Weight(s', st') == Weight(s, st) && |s'.retry| < |s.retry|)
  }

  /** A pass got closer to the end or did nothing at all; p is the worker's patience. */
  ghost predicate Advances(s: Sched, st: LoopState, p: nat, s': Sched, st': LoopState, p': nat) {
    forall k {:trigger Open(s', k)} :: Open(s', k) ==> Closer(s, st, s', st') || (s' == s && st' == st && p' == p)
  }

  lemma AdvancesOn(s0: Sched, st0: LoopState, p0: nat, s: Sched, st: LoopState, p: nat, s': Sched, st': LoopState,
                   p': nat)
    requires Advances(s0, st0, p0, s, st, p) && Advances(s, st, p, s', st', p')
    ensures Advances(s0, st0, p0, s', st', p')
  {
    assert Open(s, 0) && Open(s', 0);
  }

  lemma AttemptSizes(s: Sched, st: LoopState, r: nat, keys: seq<Key>, cached: set<Key>, start: nat, hits: seq<Key>,
                     v: Verdict, s': Sched, st': LoopState, now: real)
    requires start <= |keys| && hits <= keys[start..] && v != NoSlot
    requires Attempted(s, st, r, keys, cached, start, hits, v, s', st', now)
    requires r !in s.delayed && r !in s.blocked
    ensures Live(s') == Live(s) + 1 && s'.retry == s.retry && s'.nextReq == s.nextReq
    ensures Weight(s', st') <= Weight(s, st) + 7
  {
    assert Open(s', 0);
  }

  /** The trail h' is that of an attempt at request r, with trail h. */
  ghost predicate AttemptedTrail(s: Sched, h: Trail, r: nat, start: nat, hits: seq<Key>, v: Verdict, jid: nat,
                                 h': Trail) {
    r in h.waited && h' == AttemptTrail(s, h, r, start, hits, v, jid)
  }

  /** The trail after the first delayed request was retried. Carried whole. */
  ghost predicate RetryTrail(s: Sched, h: Trail, start: nat, hits: seq<Key>, v: Verdict, jid: nat, h': Trail)
    requires s.retry != []
  {
    forall k {:trigger Open(hits, k)} :: Open(hits, k) ==>
      AttemptedTrail(TakeRetry(s), InHand(h, s.retry[0].req), s.retry[0].req, start, hits, v, jid, h')
  }

  /** The trail after the next new request was attempted. Carried whole. */
  ghost predicate AdmitTrail(s: Sched, h: Trail, start: nat, hits: seq<Key>, v: Verdict, jid: nat, h': Trail) {
    forall k {:trigger Open(hits, k)} :: Open(hits, k) ==>
      AttemptedTrail(NewRequest(s), Arrived(h, s.nextReq), s.nextReq, start, hits, v, jid, h')
  }

  /** Retrying the first delayed request keeps everything steady and gets closer to the end; it
      skips exactly its leading keys that ended jobs it waited on have loaded. */
  lemma RetryStep(w: Workload, limit: nat, s: Sched, h: Trail, st: LoopState, keys: seq<Key>,
                  start: nat, hits: seq<Key>, v: Verdict, s': Sched, st': LoopState, now: real, lives: seq<Life>)
    returns (h': Trail, jid: nat)
    requires Runnable(w) && Going(w, limit, s, h, st) && s.retry != [] && Recorded(h.ended, h.jobKeys, lives)
    requires Asks(w, s.retry[0].req, keys) && |keys| <= limit
    requires SkipsCached(keys, s.retry[0].cached, start) && hits <= keys[start..]
    requires Attempted(TakeRetry(s), st, s.retry[0].req, keys, s.retry[0].cached, start, hits, v, s', st', now)
    ensures s.retry[0].req in h.waited
    ensures CacheOk(h.waited[s.retry[0].req], h.ended, h.jobKeys, s.retry[0].cached)
    ensures SkipOk(keys, start, h.waited[s.retry[0].req], h.ended, h.jobKeys)
    ensures v == NoSlot ==> h' == h && st' == st && st.loads.free == []
    ensures jid == st.jobId + 1 && (v != NoSlot ==> RetryTrail(s, h, start, hits, v, jid, h'))
    ensures Extends(h, h') && Recorded(h'.ended, h'.jobKeys, lives)
    ensures v != NoSlot ==> Going(w, limit, s', h', st')
    ensures v != NoSlot ==> Live(s') == Live(s) && s'.nextReq == s.nextReq && s'.retry == s.retry[1..]
    ensures v != NoSlot ==> Closer(s, st, s', st')
  {
    h', jid := h, st.jobId + 1;
    var r, cached := s.retry[0].req, s.retry[0].cached;
    var s1, h1 := TakeRetry(s), InHand(h, r);
    RetryTaken(w, limit, s, h, st);
    AttemptNoSlot(s1, st, r, keys, cached, start, hits, v, s', st', now);
    if v != NoSlot {
      AttemptSteady(w, limit, s1, h1, st, r, keys, cached, start, hits, v, s', st', now);
      AttemptFlow(s1, h1, st, r, keys, cached, start, hits, v, s', st', now);
      h' := AttemptTrail(s1, h1, r, start, hits, v, st.jobId + 1);
      AttemptSizes(s1, st, r, keys, cached, start, hits, v, s', st', now);
      BusyOut(w, limit, s1, h1, st, hits);
      AttemptTracks(s1, h1, r, start, hits, v, st.jobId + 1, lives);
    }
    InHandTracks(h, r, h');
  }

  /** The first request to retry is taken off its list. */
  lemma RetryTaken(w: Workload, limit: nat, s: Sched, h: Trail, st: LoopState)
    requires Runnable(w) && Going(w, limit, s, h, st) && s.retry != []
    ensures var r, s1, h1 := s.retry[0].req, TakeRetry(s), InHand(h, s.retry[0].req);
            && Steady(w, limit, s1, h1, st) && Flow(s1, h1, st)
            && r in h.waited && CacheOk(h.waited[r], h.ended, h.jobKeys, s.retry[0].cached)
            && r !in s1.delayed && r !in s1.blocked && st.jobId + 1 !in st.pending && r !in h.starts
            && st.jobId + 1 !in h.jobKeys
  {
    assert Open(h, 0) && Open(st.pending, 0);
    var r, s1, h1 := s.retry[0].req, TakeRetry(s), InHand(h, s.retry[0].req);
    TakeRetryOrderly(w, limit, s, h);
    Elsewhere(s1, h1, r);
    assert Flow(s1, h1, st);
  }

  /** Retries the first delayed request. */
  method RetryOne(w: Workload, loop: StepLoop, s: Sched, ghost h: Trail, now: real)
    returns (o: Outcome, v: Verdict, s': Sched, ghost h': Trail, ghost start: nat, ghost hits: seq<Key>, ghost jid: nat)
    requires Runnable(w) && SizedFor(w, loop.sz) && loop.Valid()
    requires Going(w, loop.sz.storeJobBlocks, s, h, loop.st) && s.retry != []
    requires Recorded(h.ended, h.jobKeys, loop.books.hist.loads.time.lives)
    modifies loop, loop.worker
    ensures loop.Valid()
    ensures o.Ok? && v == NoSlot ==> s' == s && h' == h && loop.st == old(loop.st) && loop.st.loads.free == []
    ensures o.Ok? && v != NoSlot ==> s'.retry == s.retry[1..]
    ensures o.Ok? && v != NoSlot ==> jid == old(loop.st).jobId + 1 && RetryTrail(s, h, start, hits, v, jid, h')
    ensures o.Ok? ==> Tracks(h, h', loop.books)
    ensures o.Ok? ==> Going(w, loop.sz.storeJobBlocks, s', h', loop.st)
    ensures o.Ok? ==> Live(s') == Live(s) && s'.nextReq == s.nextReq
    ensures o.Ok? ==> Advances(s, old(loop.st), old(loop.worker.patience), s', loop.st, loop.worker.patience)
    ensures Kept(o, old(loop.Now()), loop.Now())
  {
    h', jid := h, 0;
    var r := s.retry[0];
    var keys := KeysFor(w, loop.sz, r.req);
    o, v, s', start, hits := Admit(loop, TakeRetry(s), r.req, keys, r.cached, now);
    if o.Ok? {
      h', jid := RetryStep(w, loop.sz.storeJobBlocks, s, h, old(loop.st), keys, start, hits, v, s', loop.st, now,
                           loop.books.hist.loads.time.lives);
      if v == NoSlot {
        s' := s;
      }
    }
  }

  lemma InHandTracks(h: Trail, r: nat, h': Trail)
    ensures Extends(InHand(h, r), h') ==> Extends(h, h')
    ensures h' == h.(stage := h'.stage) ==> Extends(h, h')
  {
    assert Open(h', 0);
  }

  /** b is the end of a. */
  ghost predicate LastOf(a: seq<Retry>, b: seq<Retry>) {
    |b| <= |a| && b == a[|a| - |b|..]
  }

  lemma LastOfNext(a: seq<Retry>, b: seq<Retry>)
    requires LastOf(a, b) && b != []
    ensures LastOf(a, b[1..])
  {
  }

  /** Retries the delayed requests in order until one finds no load slot. */
  method RetryPass(w: Workload, loop: StepLoop, s0: Sched, ghost h0: Trail, now: real)
    returns (o: Outcome, s: Sched, ghost h: Trail)
    requires Runnable(w) && SizedFor(w, loop.sz) && loop.Valid()
    requires Going(w, loop.sz.storeJobBlocks, s0, h0, loop.st)
    requires Recorded(h0.ended, h0.jobKeys, loop.books.hist.loads.time.lives)
    modifies loop, loop.worker
    ensures loop.Valid()
    ensures o.Ok? ==> Going(w, loop.sz.storeJobBlocks, s, h, loop.st) && Tracks(h0, h, loop.books)
    ensures o.Ok? ==> Live(s) == Live(s0) && s.nextReq == s0.nextReq
    ensures o.Ok? ==> LastOf(s0.retry, s.retry)
    ensures o.Ok? ==> s.retry == [] || loop.st.loads.free == []
    ensures o.Ok? ==> Advances(s0, old(loop.st), old(loop.worker.patience), s, loop.st, loop.worker.patience)
    ensures Kept(o, old(loop.Now()), loop.Now())
  {
    o, s, h := Ok, s0, h0;
    InHandTracks(h, 0, h);
    RanSame(loop.Now());
    while s.retry != []
      invariant loop.Valid() && o.Ok?
      invariant Going(w, loop.sz.storeJobBlocks, s, h, loop.st) && Tracks(h0, h, loop.books)
      invariant Live(s) == Live(s0) && s.nextReq == s0.nextReq
      invariant LastOf(s0.retry, s.retry)
      invariant Advances(s0, old(loop.st), old(loop.worker.patience), s, loop.st, loop.worker.patience)
      invariant Kept(Ok, old(loop.Now()), loop.Now())
      decreases |s.retry|
    {
      ghost var before, st, p := s, loop.st, loop.worker.patience;
      ghost var was, books, m := h, loop.books, loop.Now();
      var v;
      ghost var start, hits, jid;
      o, v, s, h, start, hits, jid := RetryOne(w, loop, s, h, now);
      KeptOn(old(loop.Now()), m, o, loop.Now());
      if o.Raised? {
        return;
      }
      LastOfNext(s0.retry, before.retry);
      TracksOn(h0, was, books, h, loop.books);
      AdvancesOn(s0, old(loop.st), old(loop.worker.patience), before, st, p, s, loop.st, loop.worker.patience);
      if v == NoSlot {
        break;
      }
    }
  }

  /** A new request's first attempt. */
  lemma AdmitStep(w: Workload, limit: nat, s: Sched, h: Trail, st: LoopState, keys: seq<Key>,
                  start: nat, hits: seq<Key>, v: Verdict, s': Sched, st': LoopState, now: real, lives: seq<Life>)
    returns (h': Trail, jid: nat)
    requires Runnable(w) && Going(w, limit, s, h, st) && Recorded(h.ended, h.jobKeys, lives)
    requires Asks(w, s.nextReq, keys) && |keys| <= limit
    requires SkipsCached(keys, {}, start) && hits <= keys[start..]
    requires Attempted(NewRequest(s), st, s.nextReq, keys, {}, start, hits, v, s', st', now)
    ensures v == NoSlot ==> h' == h && st' == st && st.loads.free == []
    ensures v != NoSlot ==> Going(w, limit, s', h', st')
    ensures v != NoSlot ==> Live(s') == Live(s) + 1 && s'.nextReq == s.nextReq + 1 && s'.retry == s.retry
    ensures jid == st.jobId + 1 && (v != NoSlot ==> AdmitTrail(s, h, start, hits, v, jid, h'))
    ensures Extends(h, h') && Recorded(h'.ended, h'.jobKeys, lives)
  {
    var r := s.nextReq;
    var s1, h1 := NewRequest(s), Arrived(h, r);
    h', jid := h, st.jobId + 1;
    NewTaken(w, limit, s, h, st);
    AttemptNoSlot(s1, st, r, keys, {}, start, hits, v, s', st', now);
    if v == NoSlot {
      InHandTracks(h, 0, h);
    } else {
      AttemptSteady(w, limit, s1, h1, st, r, keys, {}, start, hits, v, s', st', now);
      AttemptFlow(s1, h1, st, r, keys, {}, start, hits, v, s', st', now);
      h' := AttemptTrail(s1, h1, r, start, hits, v, st.jobId + 1);
      AttemptSizes(s1, st, r, keys, {}, start, hits, v, s', st', now);
      BusyOut(w, limit, s1, h1, st, hits);
      AttemptTracks(s1, h1, r, start, hits, v, st.jobId + 1, lives);
      ArrivedTracks(h, r, h');
    }
  }

  /** The next new request arrives. */
  lemma NewTaken(w: Workload, limit: nat, s: Sched, h: Trail, st: LoopState)
    requires Runnable(w) && Going(w, limit, s, h, st)
    ensures var r, s1, h1 := s.nextReq, NewRequest(s), Arrived(h, s.nextReq);
            && Steady(w, limit, s1, h1, st) && Flow(s1, h1, st) && r !in s1.delayed && r !in s1.blocked
            && CacheOk(h1.waited[r], h1.ended, h1.jobKeys, {})
            && st.jobId + 1 !in st.pending && r !in h.starts && r !in h.waited && st.jobId + 1 !in h.jobKeys
  {
    assert Open(h, 0) && Open(st.pending, 0);
    var r, s1, h1 := s.nextReq, NewRequest(s), Arrived(h, s.nextReq);
    NewRequestOrderly(w, limit, s, h);
    Elsewhere(s1, h1, r);
    assert Flow(s1, h1, st);
  }

  /** Attempts the next new request; one that finds no load slot is not admitted. */
  method AdmitOne(w: Workload, loop: StepLoop, s: Sched, ghost h: Trail, now: real)
    returns (o: Outcome, v: Verdict, s': Sched, ghost h': Trail, ghost start: nat, ghost hits: seq<Key>, ghost jid: nat)
    requires Runnable(w) && SizedFor(w, loop.sz) && loop.Valid()
    requires Going(w, loop.sz.storeJobBlocks, s, h, loop.st)
    requires Recorded(h.ended, h.jobKeys, loop.books.hist.loads.time.lives)
    modifies loop, loop.worker
    ensures loop.Valid()
    ensures o.Ok? && v == NoSlot ==> s' == s && h' == h && loop.st == old(loop.st) && loop.st.loads.free == []
    ensures o.Ok? && v != NoSlot ==> Live(s') == Live(s) + 1 && s'.nextReq == s.nextReq + 1 && s'.retry == s.retry
    ensures o.Ok? && v != NoSlot ==> jid == old(loop.st).jobId + 1 && AdmitTrail(s, h, start, hits, v, jid, h')
    ensures o.Ok? ==> Tracks(h, h', loop.books)
    ensures o.Ok? ==> Going(w, loop.sz.storeJobBlocks, s', h', loop.st)
    ensures Kept(o, old(loop.Now()), loop.Now())
  {
    h', jid := h, 0;
    var keys := KeysFor(w, loop.sz, s.nextReq);
    o, v, s', start, hits := Admit(loop, NewRequest(s), s.nextReq, keys, {}, now);
    if o.Ok? {
      h', jid := AdmitStep(w, loop.sz.storeJobBlocks, s, h, old(loop.st), keys, start, hits, v, s', loop.st, now,
                           loop.books.hist.loads.time.lives);
      if v == NoSlot {
        s' := s;
      }
    }
  }

  lemma ArrivedTracks(h: Trail, r: nat, h': Trail)
    requires r !in h.waited
    ensures Extends(Arrived(h, r), h') ==> Extends(h, h')
  {
    assert Open(h', 0);
  }

  /** Admits new requests, at most requestsPerStep of them, while no request waits to be retried
      and the backlog allows. */
  method AdmitPass(w: Workload, loop: StepLoop, running: bool, s0: Sched, ghost h0: Trail, now: real)
    returns (o: Outcome, s: Sched, ghost h: Trail)
    requires Runnable(w) && SizedFor(w, loop.sz) && loop.Valid()
    requires Going(w, loop.sz.storeJobBlocks, s0, h0, loop.st)
    requires Recorded(h0.ended, h0.jobKeys, loop.books.hist.loads.time.lives)
    requires Live(s0) <= w.requestsPerStep + w.inflight
    modifies loop, loop.worker
    ensures loop.Valid()
    ensures o.Ok? ==> Going(w, loop.sz.storeJobBlocks, s, h, loop.st) && Tracks(h0, h, loop.books)
    ensures o.Ok? ==> Live(s) <= w.requestsPerStep + w.inflight
    ensures o.Ok? ==> s0.nextReq <= s.nextReq <= s0.nextReq + w.requestsPerStep
    ensures !running || s0.retry != [] ==>
              o.Ok? && s == s0 && loop.st == old(loop.st) && loop.worker.patience == old(loop.worker.patience)
    ensures Kept(o, old(loop.Now()), loop.Now())
  {
    o, s, h := Ok, s0, h0;
    InHandTracks(h, 0, h);
    RanSame(loop.Now());
    var admitted := 0;
    var backlog := |s.computable| + |s.delayed| + |s.blocked|;
    while running && s.retry == [] && admitted < w.requestsPerStep && backlog < w.requestsPerStep + w.inflight
      invariant loop.Valid() && o.Ok?
      invariant Going(w, loop.sz.storeJobBlocks, s, h, loop.st) && Tracks(h0, h, loop.books)
      invariant Live(s) <= w.requestsPerStep + w.inflight && s.retry == s0.retry
      invariant backlog + |s.retry| == Live(s)
      invariant admitted <= w.requestsPerStep && s.nextReq == s0.nextReq + admitted
      invariant !running || s0.retry != [] ==>
                  s == s0 && loop.st == old(loop.st) && loop.worker.patience == old(loop.worker.patience)
      invariant Kept(Ok, old(loop.Now()), loop.Now())
      decreases w.requestsPerStep - admitted
    {
      ghost var was, books, m := h, loop.books, loop.Now();
      var v;
      ghost var start, hits, jid;
      o, v, s, h, start, hits, jid := AdmitOne(w, loop, s, h, now);
      KeptOn(old(loop.Now()), m, o, loop.Now());
      if o.Raised? {
        return;
      }
      TracksOn(h0, was, books, h, loop.books);
      if v == NoSlot {
        break;
      }
      admitted, backlog := admitted + 1, backlog + 1;
    }
  }

  /** The first computable request computes; at most one store is prepared for it. */
  lemma ComputeStep(w: Workload, limit: nat, s: Sched, h: Trail, st: LoopState, st': LoopState)
    requires Runnable(w) && Going(w, limit, s, h, st) && s.computable != []
    requires StoredUnit(st, st', |s.computable[0].missing|)
    ensures Going(w, limit, Computed(s), Left(h, s.computable[0].req), st')
    ensures Weight(Computed(s), st') < Weight(s, st) && Live(Computed(s)) < Live(s)
  {
    assert Flow(Computed(s), Left(h, s.computable[0].req), st') by {
      assert Open(h.starts, 0);
    }
    assert Steady(w, limit, Computed(s), Left(h, s.computable[0].req), st') by {
      assert Open(h, 0);
      ComputedOrderly(w, limit, s, h);
    }
  }

  /** A unit is reserved and deferred, or missed, key by key. */
  lemma StoreCarried(st: LoopState, unit: seq<Key>, stored: seq<Key>, tag: nat, now: real)
    requires st.stores.free != [] && |stored| <= |unit|
    ensures var st' := Reserved(StoreMisses(st, |unit| - |stored|), stored, tag, now);
            Carried(Store, st') == Carried(Store, st) + |unit| && Carried(Load, st') == Carried(Load, st)
    ensures Carried(Store, StoreMisses(st, |unit|)) == Carried(Store, st) + |unit|
    ensures Carried(Load, StoreMisses(st, |unit|)) == Carried(Load, st)
  {
    ReservedCarried(StoreMisses(st, |unit| - |stored|), stored, tag, now);
  }

  /** Reserves a request's missing blocks; each of them is on its way to being stored, or missed. */
  method StoreMissing(loop: StepLoop, missing: seq<Key>, r: nat, now: real) returns (o: Outcome)
    requires loop.Valid() && loop.st.stores.free != [] && |missing| <= loop.sz.storeJobBlocks
    modifies loop
    ensures loop.Valid() && Kept(o, old(loop.Now()), loop.Now())
    ensures loop.books.hist.loads == old(loop.books).hist.loads
    ensures o.Ok? ==> StoredUnit(old(loop.st), loop.st, |missing|)
  {
    ghost var st := loop.st;
    var stored;
    o, stored := loop.PrepareStore(missing, r, now);
    StoreCarried(st, missing, stored, r, now);
  }

  /** A unit of n keys was reserved and deferred, or missed; nothing else happened. */
  ghost predicate StoredUnit(st: LoopState, st': LoopState, n: nat) {
    && st'.pending == st.pending && st'.jobId == st.jobId && st'.uncompleted == st.uncompleted
    && |st'.deferred| <= |st.deferred| + 1
    && Carried(Load, st') == Carried(Load, st)
    && Carried(Store, st') == Carried(Store, st) + n
  }

  /** The longest-waiting computable request computes: its missing blocks are reserved, to be
      stored in the next tick. */
  method ComputeOne(w: Workload, loop: StepLoop, s: Sched, ghost h: Trail, now: real)
    returns (o: Outcome, s': Sched, ghost h': Trail)
    requires Runnable(w) && loop.Valid() && s.computable != [] && loop.st.stores.free != []
    requires Going(w, loop.sz.storeJobBlocks, s, h, loop.st)
    requires Recorded(h.ended, h.jobKeys, loop.books.hist.loads.time.lives)
    modifies loop
    ensures loop.Valid()
    ensures o.Ok? ==> Going(w, loop.sz.storeJobBlocks, s', h', loop.st)
    ensures o.Ok? ==> h' == Left(h, s.computable[0].req) && Tracks(h, h', loop.books)
    ensures o.Ok? ==> s' == Computed(s) && Weight(s', loop.st) < Weight(s, old(loop.st)) && Live(s') < Live(s)
    ensures Kept(o, old(loop.Now()), loop.Now())
  {
    o := Ok;
    RanSame(loop.Now());
    var r, missing := s.computable[0].req, s.computable[0].missing;
    s', h' := Computed(s), Left(h, r);
    assert |missing| <= loop.sz.storeJobBlocks by {
      assert Open(h, 0);
      ComputedOrderly(w, loop.sz.storeJobBlocks, s, h);
    }
    if missing != [] {
      o := StoreMissing(loop, missing, r, now);
    }
    if o.Ok? {
      InHandTracks(h, 0, h');
      ComputeStep(w, loop.sz.storeJobBlocks, s, h, old(loop.st), loop.st);
    }
  }

  /** Requests whose loads are done compute while a store slot is free. */
  method ComputePass(w: Workload, loop: StepLoop, s0: Sched, ghost h0: Trail, now: real)
    returns (o: Outcome, s: Sched, ghost h: Trail)
    requires Runnable(w) && loop.Valid()
    requires Going(w, loop.sz.storeJobBlocks, s0, h0, loop.st)
    requires Recorded(h0.ended, h0.jobKeys, loop.books.hist.loads.time.lives)
    modifies loop
    ensures loop.Valid()
    ensures o.Ok? ==> Going(w, loop.sz.storeJobBlocks, s, h, loop.st) && Tracks(h0, h, loop.books)
    ensures o.Ok? ==> Live(s) <= Live(s0) && s.nextReq == s0.nextReq && s.retry == s0.retry
    ensures o.Ok? ==> s.computable == [] || loop.st.stores.free == []
    ensures o.Ok? ==> Advances(s0, old(loop.st), old(loop.worker.patience), s, loop.st, loop.worker.patience)
    ensures Kept(o, old(loop.Now()), loop.Now())
  {
    o, s, h := Ok, s0, h0;
    InHandTracks(h, 0, h);
    RanSame(loop.Now());
    while s.computable != [] && loop.st.stores.free != []
      invariant loop.Valid() && o.Ok?
      invariant Going(w, loop.sz.storeJobBlocks, s, h, loop.st) && Tracks(h0, h, loop.books)
      invariant Live(s) <= Live(s0) && s.nextReq == s0.nextReq && s.retry == s0.retry
      invariant Advances(s0, old(loop.st), old(loop.worker.patience), s, loop.st, loop.worker.patience)
      invariant Kept(Ok, old(loop.Now()), loop.Now())
      decreases |s.computable|
    {
      ghost var before, st, p := s, loop.st, loop.worker.patience;
      ghost var was, books, m := h, loop.books, loop.Now();
      o, s, h := ComputeOne(w, loop, s, h, now);
      KeptOn(old(loop.Now()), m, o, loop.Now());
      if o.Raised? {
        return;
      }
      TracksOn(h0, was, books, h, loop.books);
      AdvancesOn(s0, old(loop.st), old(loop.worker.patience), before, st, p, s, loop.st, loop.worker.patience);
    }
  }

  // --- What one poll brings ---

  method Unmark(loading: map<Key, nat>, keys: seq<Key>, jid: nat) returns (rest: map<Key, nat>)
    ensures rest == Unmarked(loading, keys, jid)
  {
    rest := loading;
    for i := 0 to |keys|
      invariant rest == Unmarked(loading, keys[..i], jid)
    {
      UnmarkedNext(loading, keys, jid, i);
      if keys[i] in rest && rest[keys[i]] == jid {
        rest := rest - {keys[i]};
      }
    }
    assert keys[..|keys|] == keys;
  }

  lemma UnmarkedNext(loading: map<Key, nat>, keys: seq<Key>, jid: nat, i: nat)
    requires i < |keys|
    ensures var rest := Unmarked(loading, keys[..i], jid);
            Unmarked(loading, keys[..i + 1], jid) ==
            if keys[i] in rest && rest[keys[i]] == jid then rest - {keys[i]} else rest
  {
    assert keys[..i + 1] == keys[..i] + [keys[i]];
  }

  function Waiters(s: Sched, jid: nat): (r: set<nat>) {
    set q | q in s.delayed && jid in s.delayed[q].jobs
  }

  lemma WaitersWoken(s: Sched, r: nat, jid: nat, keys: seq<Key>)
    requires r in s.delayed
    ensures Waiters(Woken(s, r, jid, keys), jid) == Waiters(s, jid) - {r}
  {
  }

  lemma WakeStep(w: Workload, limit: nat, s: Sched, h: Trail, r: nat, jid: nat) returns (h': Trail)
    requires Runnable(w) && Orderly(w, limit, s, h) && h.hand == {} && h.leaving == {jid}
    requires jid in h.ended && jid in h.jobKeys && r in Waiters(s, jid)
    ensures r in s.delayed
    ensures var s' := Woken(s, r, jid, h.jobKeys[jid]);
            && Orderly(w, limit, s', h') && h' == h.(stage := h'.stage)
            && s' == s.(delayed := s'.delayed, retry := s'.retry)
            && |s'.retry| + |s'.delayed| == |s.retry| + |s.delayed|
            && Waiters(s', jid) == Waiters(s, jid) - {r}
  {
    WokenOrderly(w, limit, s, h, r, jid);
    WokenSize(s, r, jid, h.jobKeys[jid]);
    WaitersWoken(s, r, jid, h.jobKeys[jid]);
    h' := WokenTrail(s, h, r, jid);
  }

  /** Every request that waited on the ended job stops waiting on it, in any order. */
  method WakeAll(w: Workload, ghost limit: nat, s0: Sched, ghost h0: Trail, jid: nat, keys: seq<Key>)
    returns (s: Sched, ghost h: Trail)
    requires Runnable(w) && Orderly(w, limit, s0, h0) && h0.hand == {} && h0.leaving == {jid}
    requires jid in h0.ended && jid in h0.jobKeys && h0.jobKeys[jid] == keys
    ensures Orderly(w, limit, s, h) && h == h0.(stage := h.stage, leaving := {})
    ensures s == s0.(delayed := s.delayed, retry := s.retry) && |s.retry| + |s.delayed| == |s0.retry| + |s0.delayed|
    ensures Waiters(s, jid) == {}
  {
    s, h := s0, h0;
    var waiting := Waiters(s, jid);
    while waiting != {}
      invariant waiting == Waiters(s, jid)
      invariant Orderly(w, limit, s, h) && h == h0.(stage := h.stage)
      invariant s == s0.(delayed := s.delayed, retry := s.retry) && |s.retry| + |s.delayed| == |s0.retry| + |s0.delayed|
      decreases |waiting|
    {
      var r :| r in waiting;
      h := WakeStep(w, limit, s, h, r, jid);
      s := Woken(s, r, jid, keys);
      waiting := waiting - {r};
    }
    assert forall r :: r in s.delayed && jid in s.delayed[r].jobs ==> r in Waiters(s, jid);
    GoneOrderly(w, limit, s, h, jid);
    h := h.(leaving := {});
  }

  /** Nothing was counted or handed over. */
  ghost predicate SameTotals(s: Sched, h: Trail, s': Sched, h': Trail) {
    s'.prefixHits == s.prefixHits && s'.storedKeys == s.storedKeys && h'.starts == h.starts
  }

  lemma FinishStep(w: Workload, limit: nat, s: Sched, h: Trail, st: LoopState, j: nat)
    requires Runnable(w) && Steady(w, limit, s, h, st) && h.hand == {}
    requires j in st.pending && st.pending[j].kind == Load
    ensures var tag, keys := st.pending[j].tag, st.pending[j].keys;
            && tag in s.jobOf && s.jobOf[tag] == j && tag in s.blocked && j in h.jobKeys && h.jobKeys[j] == keys
            && Orderly(w, limit, Finished(s, tag, j, keys), JobEnded(h, tag, j))
            && Live(Finished(s, tag, j, keys)) == Live(s) && Weight(Finished(s, tag, j, keys), st) < Weight(s, st)
  {
    assert Open(h, 0);
    LinkedRetired(st.pending, st.jobId, h, j);
    FinishedOrderly(w, limit, s, h, j);
    FinishedSize(s, st.pending[j].tag, j, st.pending[j].keys);
  }

  /** Once the waiters are woken, everything is steady without the job. */
  lemma FinishedSteady(w: Workload, limit: nat, s: Sched, h: Trail, st: LoopState, j: nat, s': Sched, h': Trail)
    requires Runnable(w) && Steady(w, limit, s, h, st) && h.hand == {}
    requires j in st.pending && st.pending[j].kind == Load && j in h.jobKeys
    requires Orderly(w, limit, s', h') && h' == JobEnded(h, st.pending[j].tag, j).(stage := h'.stage, leaving := {})
    ensures Steady(w, limit, s', h', st.(pending := st.pending - {j}))
  {
    assert Open(h, 0);
    LinkedRetired(st.pending, st.jobId, h, j);
  }

  /** One reaped load job: its request can compute, its keys are loaded, and the requests that
      waited on it are woken. */
  method FinishLoad(w: Workload, ghost limit: nat, s: Sched, ghost h: Trail, tag: nat, keys: seq<Key>, ghost j: nat,
                    ghost st: LoopState)
    returns (s': Sched, ghost h': Trail)
    requires Runnable(w) && Steady(w, limit, s, h, st) && h.hand == {}
    requires j in st.pending && st.pending[j].kind == Load && st.pending[j].tag == tag && st.pending[j].keys == keys
    ensures Steady(w, limit, s', h', st.(pending := st.pending - {j})) && h'.hand == {}
    ensures Live(s') == Live(s) && s'.nextReq == s.nextReq && SameTotals(s, h, s', h')
    ensures Weight(s', st) < Weight(s, st)
    ensures h' == h.(stage := h'.stage, owner := h'.owner, leaving := {}, ended := h.ended + {j})
    ensures j in h.jobKeys && h.jobKeys[j] == keys
  {
    FinishStep(w, limit, s, h, st, j);
    var jid := s.jobOf[tag];
    var rest := Unmark(s.loading, keys, jid);
    s' := s.(jobOf := s.jobOf - {tag}, loading := rest,
             computable := s.computable + [Ready(tag, s.blocked[tag])], blocked := s.blocked - {tag});
    s', h' := WakeAll(w, limit, s', JobEnded(h, tag, j), jid, keys);
    FinishedSteady(w, limit, s, h, st, j, s', h');
  }

  /** A reaped store job changes nothing for the scheduler. */
  lemma FinishStore(w: Workload, limit: nat, s: Sched, h: Trail, st: LoopState, j: nat)
    requires Runnable(w) && Steady(w, limit, s, h, st) && j in st.pending && st.pending[j].kind == Store
    ensures Steady(w, limit, s, h, st.(pending := st.pending - {j}))
  {
    assert Open(h, 0);
    LinkedRetired(st.pending, st.jobId, h, j);
  }

  /** The batch names outstanding jobs once each, and these are what they were, carried whole. */
  ghost predicate Polled(pending: map<nat, Job>, batch: seq<Report>, done: seq<Done>) {
    forall k {:trigger Open(batch, k)} :: Open(batch, k) ==>
      Legit(batch, pending.Keys) && done == DoneOf(pending, batch)
  }

  ghost function Remaining(pending: map<nat, Job>, batch: seq<Report>, i: nat): map<nat, Job>
    requires i <= |batch|
  {
    pending - Ids(batch[..i])
  }

  lemma PolledNext(pending: map<nat, Job>, batch: seq<Report>, done: seq<Done>, i: nat)
    requires Polled(pending, batch, done) && |batch| == |done| && i < |done|
    ensures var rest, j := Remaining(pending, batch, i), batch[i].job;
            && j in rest && rest[j].kind == done[i].kind && rest[j].keys == done[i].keys && rest[j].tag == done[i].tag
            && rest - {j} == Remaining(pending, batch, i + 1) && j in pending && rest[j] == pending[j]
  {
    assert Open(batch, 0);
    PendingNext(pending, batch, i);
  }

  /** The load jobs still pending all have a start. */
  ghost predicate AllStarted(pending: map<nat, Job>, since: map<nat, real>) {
    forall k {:trigger Open(since, k)} :: Open(since, k) ==>
      forall j :: j in pending && pending[j].kind == Load ==> j in since
  }

  ghost predicate ReapingOk(pending: map<nat, Job>, hist: History, batch: seq<Report>, i: nat, now: real,
                            ended: set<nat>, jobKeys: map<nat, seq<Key>>)
    requires i <= |batch|
  {
    && (forall k :: 0 <= k < |batch| ==> batch[k].job in pending)
    && var t := HistoryRetiredAll(pending, hist, batch[..i], now).loads.time;
       Recorded(ended, jobKeys, t.lives) && AllStarted(Remaining(pending, batch, i), t.since)
  }

  /** The first i jobs of the batch are reaped, and recorded. Carried whole. */
  ghost predicate Reaping(pending: map<nat, Job>, hist: History, batch: seq<Report>, i: nat, now: real,
                          ended: set<nat>, jobKeys: map<nat, seq<Key>>)
    requires i <= |batch|
  {
    forall k {:trigger Open(hist, k)} :: Open(hist, k) ==> ReapingOk(pending, hist, batch, i, now, ended, jobKeys)
  }

  lemma ReapingStarts(pending: map<nat, Job>, hist: History, batch: seq<Report>, now: real,
                      ended: set<nat>, jobKeys: map<nat, seq<Key>>)
    requires Legit(batch, pending.Keys)
    requires Recorded(ended, jobKeys, hist.loads.time.lives) && AllStarted(pending, hist.loads.time.since)
    ensures Reaping(pending, hist, batch, 0, now, ended, jobKeys) && Remaining(pending, batch, 0) == pending
  {
    assert Remaining(pending, batch, 0) == pending;
  }

  lemma ReapingEnds(pending: map<nat, Job>, hist: History, batch: seq<Report>, now: real,
                    ended: set<nat>, jobKeys: map<nat, seq<Key>>)
    requires Reaping(pending, hist, batch, |batch|, now, ended, jobKeys) && Legit(batch, pending.Keys)
    ensures Recorded(ended, jobKeys, HistoryRetiredAll(pending, hist, batch, now).loads.time.lives)
    ensures Remaining(pending, batch, |batch|) == pending - Ids(batch)
  {
    assert Open(hist, 0);
    assert batch[..|batch|] == batch;
  }

  /** The i-th job of the batch is reaped: a load job's life ends. */
  lemma ReapingNext(pending: map<nat, Job>, hist: History, batch: seq<Report>, i: nat, now: real,
                    ended: set<nat>, jobKeys: map<nat, seq<Key>>)
    requires i < |batch| && batch[i].job in pending && batch[i].job in Remaining(pending, batch, i)
    requires Reaping(pending, hist, batch, i, now, ended, jobKeys)
    requires pending[batch[i].job].kind == Load ==>
               batch[i].job in jobKeys && jobKeys[batch[i].job] == pending[batch[i].job].keys
    requires Remaining(pending, batch, i) - {batch[i].job} == Remaining(pending, batch, i + 1)
    ensures Reaping(pending, hist, batch, i + 1, now,
                    if pending[batch[i].job].kind == Load then ended + {batch[i].job} else ended, jobKeys)
  {
    assert Open(hist, 0);
    var past, j := HistoryRetiredAll(pending, hist, batch[..i], now).loads.time, batch[i].job;
    assert batch[..i + 1][..i] == batch[..i];
    assert Open(past.since, 0);
    if pending[j].kind == Load {
      RecordedMore(ended, jobKeys, past.lives, Life(j, pending[j].keys, past.since[j], now));
    }
  }

  /** Handles every job of a batch, in order. */
  method FinishBatch(w: Workload, ghost limit: nat, s0: Sched, ghost h0: Trail, done: seq<Done>,
                     ghost batch: seq<Report>, ghost st: LoopState, ghost hist: History, ghost now: real)
    returns (s: Sched, ghost h: Trail)
    requires Runnable(w) && Steady(w, limit, s0, h0, st) && h0.hand == {}
    requires Polled(st.pending, batch, done) && |batch| == |done|
    requires Reaping(st.pending, hist, batch, 0, now, h0.ended, h0.jobKeys) &&
               Remaining(st.pending, batch, 0) == st.pending
    ensures Steady(w, limit, s, h, st.(pending := Remaining(st.pending, batch, |batch|))) && h.hand == {}
    ensures Live(s) == Live(s0) && s.nextReq == s0.nextReq && Weight(s, st) <= Weight(s0, st)
    ensures SameTotals(s0, h0, s, h)
    ensures Reaping(st.pending, hist, batch, |batch|, now, h.ended, h.jobKeys)
    ensures h == h0.(stage := h.stage, owner := h.owner, leaving := h.leaving, ended := h.ended) && h0.ended <= h.ended
    ensures batch == [] ==> s == s0
  {
    s, h := s0, h0;
    for i := 0 to |done|
      invariant Steady(w, limit, s, h, st.(pending := Remaining(st.pending, batch, i))) && h.hand == {}
      invariant Live(s) == Live(s0) && s.nextReq == s0.nextReq && Weight(s, st) <= Weight(s0, st)
      invariant SameTotals(s0, h0, s, h)
      invariant Reaping(st.pending, hist, batch, i, now, h.ended, h.jobKeys)
      invariant h == h0.(stage := h.stage, owner := h.owner, leaving := h.leaving, ended := h.ended) &&
                  h0.ended <= h.ended
      invariant batch == [] ==> s == s0
    {
      s, h := FinishNext(w, limit, s, h, done, batch, i, st, hist, now);
    }
  }

  /** Handles the i-th job of a batch. */
  method FinishNext(w: Workload, ghost limit: nat, s: Sched, ghost h: Trail, done: seq<Done>, ghost batch: seq<Report>,
                    i: nat, ghost st: LoopState, ghost hist: History, ghost now: real)
    returns (s': Sched, ghost h': Trail)
    requires Runnable(w) && |batch| == |done| && i < |done| && Polled(st.pending, batch, done)
    requires Steady(w, limit, s, h, st.(pending := Remaining(st.pending, batch, i))) && h.hand == {}
    requires Reaping(st.pending, hist, batch, i, now, h.ended, h.jobKeys)
    ensures Steady(w, limit, s', h', st.(pending := Remaining(st.pending, batch, i + 1))) && h'.hand == {}
    ensures Live(s') == Live(s) && s'.nextReq == s.nextReq && Weight(s', st) <= Weight(s, st)
    ensures SameTotals(s, h, s', h')
    ensures Reaping(st.pending, hist, batch, i + 1, now, h'.ended, h'.jobKeys)
    ensures h' == h.(stage := h'.stage, owner := h'.owner, leaving := h'.leaving, ended := h'.ended) &&
              h.ended <= h'.ended
  {
    PolledNext(st.pending, batch, done, i);
    ghost var here := st.(pending := Remaining(st.pending, batch, i));
    if done[i].kind == Load {
      s', h' := FinishLoad(w, limit, s, h, done[i].tag, done[i].keys, batch[i].job, here);
    } else {
      FinishStore(w, limit, s, h, here, batch[i].job);
      s', h' := s, h;
    }
    ReapingNext(st.pending, hist, batch, i, now, h.ended, h.jobKeys);
  }

  /** Steadiness does not look at slots or statistics. */
  lemma SteadyElsewhere(w: Workload, limit: nat, s: Sched, h: Trail, st: LoopState, st': LoopState)
    requires Runnable(w) && Steady(w, limit, s, h, st)
    requires st'.pending == st.pending && st'.jobId == st.jobId && st'.uncompleted == st.uncompleted
    ensures Steady(w, limit, s, h, st')
  {
    assert Open(h, 0);
  }

  /** One poll. With jobs outstanding it either finishes some, which gets closer to the end, or
      uses up patience. */
  method ReapPass(w: Workload, loop: StepLoop, s0: Sched, ghost h0: Trail, now: real)
    returns (o: Outcome, s: Sched, ghost h: Trail)
    requires Runnable(w) && loop.Valid()
    requires Going(w, loop.sz.storeJobBlocks, s0, h0, loop.st)
    requires Recorded(h0.ended, h0.jobKeys, loop.books.hist.loads.time.lives)
    modifies loop, loop.worker
    ensures loop.Valid()
    ensures o.Ok? ==> Going(w, loop.sz.storeJobBlocks, s, h, loop.st) && Tracks(h0, h, loop.books)
    ensures o.Ok? ==> Live(s) == Live(s0) && s.nextReq == s0.nextReq && loop.st.deferred == old(loop.st).deferred
    ensures o.Ok? ==> Weight(s, loop.st) < Weight(s0, old(loop.st)) || (s == s0 && loop.st == old(loop.st))
    ensures o.Ok? && old(loop.st).pending != map[] ==>
              Weight(s, loop.st) < Weight(s0, old(loop.st)) || loop.worker.patience < old(loop.worker.patience)
    ensures Kept(o, old(loop.Now()), loop.Now())
  {
    s, h := s0, h0;
    ghost var st, batch, hist := loop.st, [], loop.books.hist;
    LoadsStartedAll(loop.sz, st, loop.books);
    var done;
    o, done, batch := loop.Reap(now);
    RanKept(o, old(loop.Now()), loop.Now());
    if o.Ok? {
      ReapingStarts(st.pending, hist, batch, now, h0.ended, h0.jobKeys);
      s, h := FinishBatch(w, loop.sz.storeJobBlocks, s0, h0, done, batch, st, hist, now);
      ReapingEnds(st.pending, hist, batch, now, h.ended, h.jobKeys);
      ReapExtends(h0, h);
      ReapStep(w, loop.sz.storeJobBlocks, s0, h0, st, batch, now, s, h);
    }
  }

  lemma ReapedParts(st: LoopState, batch: seq<Report>, now: real)
    requires Legit(batch, st.pending.Keys)
    ensures var st' := Reaped(st, batch, now);
            && st'.pending == st.pending - Ids(batch) && st'.deferred == st.deferred
            && st'.jobId == st.jobId && st'.uncompleted == st.uncompleted
  {
    assert batch == [] ==> st.pending - Ids(batch) == st.pending;
  }

  lemma ReapExtends(h: Trail, h': Trail)
    requires h' == h.(stage := h'.stage, owner := h'.owner, leaving := h'.leaving, ended := h'.ended) &&
               h.ended <= h'.ended
    ensures Extends(h, h')
  {
  }

  lemma ReapStep(w: Workload, limit: nat, s: Sched, h: Trail, st: LoopState, batch: seq<Report>, now: real, s': Sched,
                 h': Trail)
    requires Runnable(w) && Flow(s, h, st) && Legit(batch, st.pending.Keys)
    requires forall i :: 0 <= i < |batch| ==> batch[i].ok
    requires Steady(w, limit, s', h', st.(pending := st.pending - Ids(batch))) && h'.hand == {}
    requires SameTotals(s, h, s', h') && Weight(s', st) <= Weight(s, st) && (batch == [] ==> s' == s)
    ensures Going(w, limit, s', h', Reaped(st, batch, now))
    ensures batch == [] ==> s' == s && Reaped(st, batch, now) == st
    ensures batch != [] ==> Weight(s', Reaped(st, batch, now)) < Weight(s, st)
  {
    FewerPending(st.pending, batch);
    ReapedFlow(s, h, st, batch, now, s', h');
    ReapedParts(st, batch, now);
    SteadyElsewhere(w, limit, s', h', st.(pending := st.pending - Ids(batch)), Reaped(st, batch, now));
  }

  lemma LoadsStartedAll(sz: Sizes, st: LoopState, b: Books)
    requires Sound(sz, st, b)
    ensures AllStarted(st.pending, b.hist.loads.time.since)
  {
    Unseal(sz, st, b);
    assert Open(st.loads, 0);
  }

  /** A poll moves keys from on their way to moved. */
  lemma ReapedFlow(s: Sched, h: Trail, st: LoopState, batch: seq<Report>, now: real, s': Sched, h': Trail)
    requires Flow(s, h, st) && Legit(batch, st.pending.Keys) && forall i :: 0 <= i < |batch| ==> batch[i].ok
    requires s'.storedKeys == s.storedKeys && s'.prefixHits == s.prefixHits && h'.starts == h.starts
    ensures Flow(s', h', Reaped(st, batch, now))
  {
    assert Open(h.starts, 0);
    if batch != [] {
      RetiredAllCarried(LoopSampled(st, now), batch, Load);
      RetiredAllCarried(LoopSampled(st, now), batch, Store);
    }
  }

  // --- Ticks and runs ---

  /** Nothing is queued and nothing is in flight. */
  predicate AllDone(s: Sched, st: LoopState) {
    && s.retry == [] && s.delayed == map[] && s.blocked == map[] && s.computable == []
    && st.deferred == [] && st.pending == map[]
  }

  /** With nothing outstanding every slot is free. */
  lemma SlotsFree(sz: Sizes, st: LoopState, b: Books)
    requires Sound(sz, st, b) && st.pending == map[] && st.deferred == []
    ensures sz.loadSlots > 0 ==> st.loads.free != []
    ensures sz.storeSlots > 0 ==> st.stores.free != []
  {
    Unseal(sz, st, b);
    assert Open(st.loads, 0) && Open(st.stores, 0);
    var loads, stores := b.hist.loads.held, b.hist.stores.held;
    assert sz.loadSlots > 0 ==> 0 in st.loads.free || 0 in loads;
    assert sz.storeSlots > 0 ==> 0 in st.stores.free || 0 in stores;
  }

  /** With no load job outstanding no request waits for one. */
  lemma NobodyWaits(w: Workload, limit: nat, s: Sched, h: Trail, st: LoopState)
    requires Runnable(w) && Steady(w, limit, s, h, st) && st.pending == map[]
    ensures s.delayed == map[] && s.blocked == map[]
  {
    assert Open(h, 0) && Open(st.pending, 0);
    assert h.owner == map[];
    assert s.delayed == map[] by {
      assert Open(s.delayed, 0);
    }
    assert s.blocked == map[] by {
      assert Open(QueuedIn(s), 0) && Open(s.loading, 0);
      assert forall r :: r in s.blocked ==> r in s.jobOf;
    }
  }

  /** No deadlock: whatever the passes left behind, something is outstanding. */
  lemma NeverStuck(w: Workload, s: Sched, h: Trail, sz: Sizes, st: LoopState, b: Books)
    requires Runnable(w) && SizedFor(w, sz) && Sound(sz, st, b) && Steady(w, sz.storeJobBlocks, s, h, st)
    requires st.deferred == []
    requires s.retry == [] || st.loads.free == []
    requires s.computable == [] || st.stores.free == []
    ensures AllDone(s, st) || st.pending != map[]
  {
    if st.pending == map[] {
      NobodyWaits(w, sz.storeJobBlocks, s, h, st);
      SlotsFree(sz, st, b);
      assert sz.loadSlots > 0 && sz.storeSlots > 0 by {
        assert Open(sz, 0);
      }
    }
  }

  /** Submitting the deferred stores. */
  lemma DeferredStep(w: Workload, limit: nat, s: Sched, h: Trail, st: LoopState, p: nat, p': nat)
    requires Runnable(w) && Going(w, limit, s, h, st) && (st.deferred == [] ==> p' == p)
    ensures Going(w, limit, s, h, SentAll(st))
    ensures SentAll(st).deferred == [] && Advances(s, st, p, s, SentAll(st), p')
  {
    assert Open(h, 0);
    LinkedSentAll(st, h);
    assert Flow(s, h, SentAll(st)) by {
      assert Open(h.starts, 0) && Open(st.pending, 0);
      SentAllCarried(st, Load);
      SentAllCarried(st, Store);
    }
  }

  /** What a tick that admits nobody achieves: it ends with nothing left, or it lowers the
      measure (weight, retry list, patience). */
  ghost predicate Nearer(s: Sched, st: LoopState, p: nat, s': Sched, st': LoopState, p': nat) {
    AllDone(s', st') || Closer(s, st, s', st') ||
    (Weight(s', st') == Weight(s, st) && |s'.retry| == |s.retry| && p' < p)
  }

  /** The scheduling passes found nothing to do. */
  ghost predicate Quiet(s: Sched, st: LoopState) {
    && st.deferred == []
    && (s.retry == [] || st.loads.free == [])
    && (s.computable == [] || st.stores.free == [])
  }

  /** Three passes in a row: closer to the end, or nothing left to schedule. */
  lemma PassesAdvance(s: Sched, st0: LoopState, p0: nat, st1: LoopState, p1: nat, s2: Sched, st2: LoopState, p2: nat,
                      s3: Sched, st3: LoopState, p3: nat)
    requires Advances(s, st0, p0, s, st1, p1) && st1.deferred == []
    requires Advances(s, st1, p1, s2, st2, p2) && (s2.retry == [] || st2.loads.free == [])
    requires Advances(s2, st2, p2, s3, st3, p3) && (s3.computable == [] || st3.stores.free == [])
    ensures Closer(s, st0, s3, st3) || (s3 == s && st3 == st0 && p3 == p0 && Quiet(s3, st3))
  {
    assert Open(s, 0) && Open(s2, 0) && Open(s3, 0);
  }

  /** Everything a tick does before its poll. */
  method Schedule(w: Workload, loop: StepLoop, running: bool, s0: Sched, ghost h0: Trail, now: real)
    returns (o: Outcome, s: Sched, ghost h: Trail)
    requires Runnable(w) && SizedFor(w, loop.sz) && loop.Valid()
    requires Going(w, loop.sz.storeJobBlocks, s0, h0, loop.st)
    requires Recorded(h0.ended, h0.jobKeys, loop.books.hist.loads.time.lives)
    requires Live(s0) <= w.requestsPerStep + w.inflight
    modifies loop, loop.worker
    ensures loop.Valid()
    ensures o.Ok? ==> Going(w, loop.sz.storeJobBlocks, s, h, loop.st) && Tracks(h0, h, loop.books)
    ensures o.Ok? ==> Live(s) <= w.requestsPerStep + w.inflight
    ensures o.Ok? ==> s0.nextReq <= s.nextReq <= s0.nextReq + if running then w.requestsPerStep else 0
    ensures o.Ok? && !running ==>
              || Closer(s0, old(loop.st), s, loop.st)
              || (&& s == s0 && loop.st == old(loop.st) && loop.worker.patience == old(loop.worker.patience)
                  && Quiet(s, loop.st))
    ensures Kept(o, old(loop.Now()), loop.Now())
  {
    s, h := s0, h0;
    InHandTracks(h, 0, h);
    ghost var st0, p0 := loop.st, loop.worker.patience;
    ghost var sent, n;
    o, sent, n := loop.SubmitDeferred();
    RanKept(o, old(loop.Now()), loop.Now());
    if o.Raised? {
      return;
    }
    ghost var st1, p1 := loop.st, loop.worker.patience;
    DeferredStep(w, loop.sz.storeJobBlocks, s, h, st0, p0, p1);
    SentLoads(st0, old(loop.books).hist, |st0.deferred|);
    ghost var m1 := loop.Now();
    o, s, h := RetryPass(w, loop, s, h, now);
    KeptOn(old(loop.Now()), m1, o, loop.Now());
    if o.Raised? {
      return;
    }
    ghost var s2, st2, p2 := s, loop.st, loop.worker.patience;
    ghost var h2, b2, m2 := h, loop.books, loop.Now();
    o, s, h := AdmitPass(w, loop, running, s, h, now);
    KeptOn(old(loop.Now()), m2, o, loop.Now());
    if o.Raised? {
      return;
    }
    ghost var h3, b3, m3 := h, loop.books, loop.Now();
    TracksOn(h0, h2, b2, h3, b3);
    o, s, h := ComputePass(w, loop, s, h, now);
    KeptOn(old(loop.Now()), m3, o, loop.Now());
    if o.Ok? {
      TracksOn(h0, h3, b3, h, loop.books);
    }
    if o.Ok? && !running {
      PassesAdvance(s0, st0, p0, st1, p1, s2, st2, p2, s, loop.st, loop.worker.patience);
    }
  }

  /** One tick. */
  method Tick(w: Workload, loop: StepLoop, running: bool, s0: Sched, ghost h0: Trail, now: real)
    returns (o: Outcome, s: Sched, ghost h: Trail)
    requires Runnable(w) && SizedFor(w, loop.sz) && loop.Valid()
    requires Going(w, loop.sz.storeJobBlocks, s0, h0, loop.st)
    requires Recorded(h0.ended, h0.jobKeys, loop.books.hist.loads.time.lives)
    requires Live(s0) <= w.requestsPerStep + w.inflight
    modifies loop, loop.worker
    ensures loop.Valid()
    ensures o.Ok? ==> Going(w, loop.sz.storeJobBlocks, s, h, loop.st) && Tracks(h0, h, loop.books)
    ensures o.Ok? ==> Live(s) <= w.requestsPerStep + w.inflight
    ensures o.Ok? ==> s0.nextReq <= s.nextReq <= s0.nextReq + if running then w.requestsPerStep else 0
    ensures o.Ok? && !running ==>
              Nearer(s0, old(loop.st), old(loop.worker.patience), s, loop.st, loop.worker.patience)
    ensures Kept(o, old(loop.Now()), loop.Now())
  {
    o, s, h := Schedule(w, loop, running, s0, h0, now);
    if o.Raised? {
      return;
    }
    if Quiet(s, loop.st) {
      NeverStuck(w, s, h, loop.sz, loop.st, loop.books);
    }
    ghost var was, books, m := h, loop.books, loop.Now();
    o, s, h := ReapPass(w, loop, s, h, now);
    KeptOn(old(loop.Now()), m, o, loop.Now());
    if o.Ok? {
      TracksOn(h0, was, books, h, loop.books);
    }
  }

  /** All the keys of the first n requests. */
  ghost function AllKeys(w: Workload, n: nat): nat
    requires Runnable(w)
  {
    if n == 0 then 0 else AllKeys(w, n - 1) + |RequestKeys(w, n - 1)|
  }

  lemma {:induction false} EverybodyTallied(w: Workload, stage: map<nat, Stage>, n: nat)
    requires Runnable(w) && forall r: nat :: r < n ==> Tallied(stage, r)
    ensures SumKeys(w, stage, n) == AllKeys(w, n) && NumTallied(stage, n) == n
  {
    if n > 0 {
      EverybodyTallied(w, stage, n - 1);
    }
  }

  /** Once nothing is queued every admitted request has been counted. */
  lemma EndTotals(w: Workload, limit: nat, s: Sched, h: Trail)
    requires Runnable(w) && Orderly(w, limit, s, h) && h.hand == {} && s.retry == [] && s.delayed == map[]
    ensures s.requests == s.nextReq && s.prefixHits + s.suffixStores == AllKeys(w, s.nextReq)
  {
    assert Open(h.stage, 0);
    forall r: nat | r < s.nextReq ensures Tallied(h.stage, r) {
      assert Open(QueuedIn(s), 0);
      assert r in RetryReqs(s.retry) <==> r in h.stage && h.stage[r] == InRetry;
    }
    EverybodyTallied(w, h.stage, s.nextReq);
  }

  /** The report's figures agree: what was loaded, plus what was found in the GPU cache, are the
      prefix hits; what was stored or dropped are the suffix stores. */
  lemma EndFlow(w: Workload, limit: nat, s: Sched, h: Trail, st: LoopState)
    requires Runnable(w) && Going(w, limit, s, h, st) && AllDone(s, st)
    ensures st.loads.stats.blocks + st.loads.stats.misses + Skipped(h.starts) == s.prefixHits
    ensures st.stores.stats.blocks + st.stores.stats.misses == s.suffixStores == |s.storedKeys|
  {
    assert Open(h.starts, 0) && Open(h, 0) && Open(s.blocked, 0);
  }

  /** What the run skipped, request by request, and why: the jobs waited on were reaped by the step
      loop, and had loaded those keys. */
  lemma EndSkips(w: Workload, limit: nat, s: Sched, h: Trail, st: LoopState, lives: seq<Life>)
    requires Runnable(w) && Going(w, limit, s, h, st) && AllDone(s, st) && Recorded(h.ended, h.jobKeys, lives)
    ensures forall r: nat :: r in h.starts <==> r < s.nextReq
    ensures forall r :: r in h.starts ==>
              r in h.waited && SkipOk(RequestKeys(w, r), h.starts[r], h.waited[r], h.ended, h.jobKeys)
    ensures WaitedOk(w, s.nextReq, h.waited, h.jobKeys)
    ensures RecordedOk(h.ended, h.jobKeys, lives)
  {
    assert Open(h, 0) && Open(h.starts, 0) && Open(h.waited, 0) && Open(lives, 0);
    forall r: nat ensures Tallied(h.stage, r) <==> r < s.nextReq {
      assert Open(QueuedIn(s), 0);
      assert r in RetryReqs(s.retry) <==> r in h.stage && h.stage[r] == InRetry;
    }
  }

  /** A whole run: ticks that admit requests, any number of them, then ticks that drain until
      nothing is left, which the measure proves happens. If anything raises, the step loop
      aborts. The trail says what each request skipped: exactly its leading keys that load jobs
      it waited on had loaded, each of them loading one of its keys and reaped by the loop. */
  method Run(w: Workload, loop: StepLoop, runningTicks: nat, rounds: nat)
    returns (o: Outcome, s: Sched, ghost h: Trail)
    requires Runnable(w) && SizedFor(w, loop.sz) && loop.Valid()
    requires loop.st.pending == map[] && loop.st.deferred == [] && loop.st.uncompleted == []
    requires loop.books.finals == [] && loop.books.hist.loads.time.lives == []
    requires Carried(Load, loop.st) == Carried(Store, loop.st) == 0
    modifies loop, loop.worker
    ensures o.Ok? <==> Smooth(old(loop.Now()), loop.Now())
    ensures o.Ok? ==> AllDone(s, loop.st) && loop.Valid()
    ensures o.Ok? ==> s.requests == s.nextReq && s.prefixHits + s.suffixStores == AllKeys(w, s.nextReq)
    ensures o.Ok? ==> loop.st.loads.stats.blocks + loop.st.loads.stats.misses + Skipped(h.starts) == s.prefixHits
    ensures o.Ok? ==> forall r: nat :: r in h.starts <==> r < s.nextReq
    ensures o.Ok? ==> forall r :: r in h.starts ==>
              r in h.waited && SkipOk(RequestKeys(w, r), h.starts[r], h.waited[r], h.ended, h.jobKeys)
    ensures o.Ok? ==> WaitedOk(w, s.nextReq, h.waited, h.jobKeys)
    ensures o.Ok? ==> RecordedOk(h.ended, h.jobKeys, loop.books.hist.loads.time.lives)
    ensures o.Ok? ==> loop.st.stores.stats.blocks + loop.st.stores.stats.misses == s.suffixStores == |s.storedKeys|
    ensures o.Ok? ==> loop.books.pins == multiset{} == loop.books.reserved
    ensures o.Raised? ==> loop.st.deferred == [] && loop.st.uncompleted == [] && Balanced(loop.st, loop.books)
    ensures o.Raised? && loop.st.pending == map[] ==>
              (loop.books.pins == multiset{} == loop.books.reserved <==> NothingLost(loop.books.finals, loop.faults))
  {
    s, h := START, NO_TRAIL;
    StartSteady(w, loop.sz.storeJobBlocks, loop.st);
    RanSame(loop.Now());
    var steps := 0;
    while true
      invariant steps <= runningTicks && loop.Valid()
      invariant Going(w, loop.sz.storeJobBlocks, s, h, loop.st)
      invariant Recorded(h.ended, h.jobKeys, loop.books.hist.loads.time.lives)
      invariant Live(s) <= w.requestsPerStep + w.inflight
      invariant loop.books.finals == [] && Kept(Ok, old(loop.Now()), loop.Now())
      decreases runningTicks - steps, Weight(s, loop.st), |s.retry|, loop.worker.patience
    {
      var now: real := *;
      var running := steps < runningTicks;
      ghost var m := loop.Now();
      o, s, h := Tick(w, loop, running, s, h, now);
      KeptFinals(o, m, loop.Now());
      KeptOn(old(loop.Now()), m, o, loop.Now());
      if o.Raised? {
        m := loop.Now();
        var clean;
        ghost var reported;
        clean, reported := loop.Abort(rounds);
        KeptEnd(o, old(loop.Now()), m, loop.Now());
        return;
      }
      if running {
        steps := steps + 1;
      } else if AllDone(s, loop.st) {
        break;
      }
    }
    o := Ok;
    KeptEnd(o, old(loop.Now()), loop.Now(), loop.Now());
    EndFlow(w, loop.sz.storeJobBlocks, s, h, loop.st);
    EndSkips(w, loop.sz.storeJobBlocks, s, h, loop.st, loop.books.hist.loads.time.lives);
    assert Open(h, 0);
    EndTotals(w, loop.sz.storeJobBlocks, s, h);
    EndLedger(loop.sz, loop.st, loop.books, loop.faults);
  }

  /** Nothing outstanding, nothing owed, no final release: nothing is pinned or reserved. */
  lemma EndLedger(sz: Sizes, st: LoopState, b: Books, faults: set<nat>)
    requires Sound(sz, st, b) && st.pending == map[] && st.deferred == [] && st.uncompleted == []
    requires LeaksRight(faults, b) && b.finals == []
    ensures b.pins == multiset{} == b.reserved
  {
    Unseal(sz, st, b);
    Audit(st, b);
    NothingHeld(st, b, faults);
  }

  lemma StartSteady(w: Workload, limit: nat, st: LoopState)
    requires Runnable(w) && st.pending == map[] && st.uncompleted == []
    requires Carried(Load, st) == Carried(Store, st) == 0
    ensures Going(w, limit, START, NO_TRAIL, st)
  {
    StartOrderly(w, limit);
  }

  // --- What holds at every tick boundary ---

  /** Each admitted request is in exactly one queue, or past them all. */
  lemma EachRequestOnce(w: Workload, limit: nat, s: Sched, h: Trail, r: nat)
    requires Runnable(w) && Orderly(w, limit, s, h) && h.hand == {} && r < s.nextReq
    ensures r in h.stage
    ensures r in RetryReqs(s.retry) <==> h.stage[r] == InRetry
    ensures r in s.delayed <==> h.stage[r] == InDelayed
    ensures r in s.blocked <==> h.stage[r] == InBlocked
    ensures r in ReadyReqs(s.computable) <==> h.stage[r] == InComputable
    ensures NoDup(RetryReqs(s.retry)) && NoDup(ReadyReqs(s.computable))
  {
    assert Open(QueuedIn(s), 0);
  }

  /** No request is stranded: each delayed one awaits at least one load job, every one of
      them outstanding. */
  lemma NobodyStranded(w: Workload, limit: nat, s: Sched, h: Trail, st: LoopState, r: nat)
    requires Runnable(w) && Steady(w, limit, s, h, st) && r in s.delayed
    ensures s.delayed[r].jobs != {}
    ensures forall j :: j in s.delayed[r].jobs ==> j in st.pending && st.pending[j].kind == Load
  {
    assert Open(h, 0) && Open(s.delayed, 0) && Open(st.pending, 0);
    assert WaitOk(s.delayed[r], h.owner.Keys + h.leaving, h.waited, r);
  }

  /** The loading map is exactly who loads what, so no key is in two outstanding load jobs. */
  lemma LoadingExact(w: Workload, limit: nat, s: Sched, h: Trail, st: LoopState, k: Key, j: nat)
    requires Runnable(w) && Steady(w, limit, s, h, st)
    ensures k in s.loading && s.loading[k] == j <==>
              j in st.pending && st.pending[j].kind == Load && k in st.pending[j].keys
  {
    assert Open(h, 0) && Open(s.loading, 0) && Open(st.pending, 0);
  }
}

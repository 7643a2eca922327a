/** The continuous-batching scheduler's state, its steps, and what every step keeps. */
module SchedulerStates {
  import opened Common
  import opened Inflight
  import opened LoopStates
  import opened Sizing

  /** The load jobs a request waits on, and the keys those that ended have loaded. */
  datatype Wait = Wait(jobs: set<nat>, cached: set<Key>)
  /** A request whose loads are done, and the blocks it then stores. */
  datatype Ready = Ready(req: nat, missing: seq<Key>)
  /** A delayed request whose blockers ended. */
  datatype Retry = Retry(req: nat, cached: set<Key>)

  datatype Sched = Sched(
    nextReq: nat,
    loading: map<Key, nat>,
    jobOf: map<nat, nat>,
    blocked: map<nat, seq<Key>>,
    delayed: map<nat, Wait>,
    computable: seq<Ready>,
    retry: seq<Retry>,
    prefixHits: nat, suffixStores: nat, requests: nat, delays: nat,
    storedKeys: seq<Key>)

  const START := Sched(0, map[], map[], map[], map[], [], [], 0, 0, 0, 0, [])

  // --- The trail: where each request is, and what each load job loaded ---

  datatype Stage = InRetry | InDelayed | InBlocked | InComputable | Past

  /** Stage of each admitted request, and the request being scheduled; request of each
      outstanding load job, and the job being retired; keys of every load job started; the
      load jobs that ended; the jobs each request has waited on; and how many leading keys each
      counted request found in the GPU cache. */
  datatype Trail = Trail(stage: map<nat, Stage>, hand: set<nat>, owner: map<nat, nat>, leaving: set<nat>,
                         jobKeys: map<nat, seq<Key>>, ended: set<nat>, waited: map<nat, set<nat>>,
                         starts: map<nat, nat>)

  const NO_TRAIL := Trail(map[], {}, map[], {}, map[], {}, map[], map[])

  ghost predicate AtRest(h: Trail) {
    h.hand == {} && h.leaving == {}
  }

  // --- The invariant, part by part; each part is carried whole ---

  /** The list holds each request of the stage exactly once. */
  ghost predicate Lists(reqs: seq<nat>, stage: map<nat, Stage>, x: Stage) {
    NoDup(reqs) && forall r :: r in reqs <==> r in stage && stage[r] == x
  }

  ghost predicate Holds(reqs: set<nat>, stage: map<nat, Stage>, x: Stage) {
    forall r :: r in reqs <==> r in stage && stage[r] == x
  }

  ghost function RetryReqs(retry: seq<Retry>): seq<nat> {
    seq(|retry|, i requires 0 <= i < |retry| => retry[i].req)
  }

  ghost function ReadyReqs(computable: seq<Ready>): seq<nat> {
    seq(|computable|, i requires 0 <= i < |computable| => computable[i].req)
  }

  /** The requests in each queue. */
  datatype Queued = Queued(retry: seq<nat>, ready: seq<nat>, delayed: set<nat>, blocked: set<nat>, loading: set<nat>)

  ghost function QueuedIn(s: Sched): Queued {
    Queued(RetryReqs(s.retry), ReadyReqs(s.computable), s.delayed.Keys, s.blocked.Keys, s.jobOf.Keys)
  }

  /** Every request below n, except one in hand, is in exactly one stage, and every queue holds
      exactly the requests of its stage. */
  ghost predicate QueuesOk(n: nat, hand: set<nat>, stage: map<nat, Stage>, q: Queued) {
    && (forall r: nat :: r in stage <==> r < n && r !in hand)
    && (forall r :: r in hand ==> r < n)
    && Lists(q.retry, stage, InRetry)
    && Lists(q.ready, stage, InComputable)
    && Holds(q.delayed, stage, InDelayed)
    && Holds(q.blocked, stage, InBlocked)
    && Holds(q.loading, stage, InBlocked)
  }

  ghost predicate Queues(n: nat, hand: set<nat>, stage: map<nat, Stage>, q: Queued) {
    forall k {:trigger Open(q, k)} :: Open(q, k) ==> QueuesOk(n, hand, stage, q)
  }

  ghost predicate WaitOk(wait: Wait, known: set<nat>, waited: map<nat, set<nat>>, r: nat) {
    wait.jobs != {} && wait.jobs <= known && r in waited && wait.jobs <= waited[r]
  }

  /** Every delayed request waits on at least one load job, and only on known ones: those
      outstanding, and the one being retired. */
  ghost predicate Waits(delayed: map<nat, Wait>, known: set<nat>, waited: map<nat, set<nat>>) {
    forall k {:trigger Open(delayed, k)} :: Open(delayed, k) ==>
      forall r :: r in delayed ==> WaitOk(delayed[r], known, waited, r)
  }

  ghost predicate LoadsOk(loading: map<Key, nat>, jobOf: map<nat, nat>, owner: map<nat, nat>,
                          jobKeys: map<nat, seq<Key>>, ended: set<nat>) {
    && (forall r :: r in jobOf ==> jobOf[r] in owner && owner[jobOf[r]] == r)
    && (forall j :: j in owner ==> owner[j] in jobOf && jobOf[owner[j]] == j && j in jobKeys)
    && (forall k :: k in loading ==> loading[k] in owner && k in jobKeys[loading[k]])
    && (forall j, k :: j in owner && k in jobKeys[j] ==> k in loading && loading[k] == j)
    && owner.Keys !! ended
    && jobKeys.Keys == owner.Keys + ended
  }

  /** `loading` is exactly the map from keys to the outstanding load job loading them, so no
      key is in two outstanding load jobs. */
  ghost predicate Loads(loading: map<Key, nat>, jobOf: map<nat, nat>, owner: map<nat, nat>,
                        jobKeys: map<nat, seq<Key>>, ended: set<nat>) {
    forall k {:trigger Open(loading, k)} :: Open(loading, k) ==> LoadsOk(loading, jobOf, owner, jobKeys, ended)
  }

  /** The key was loaded by one of these jobs. */
  ghost predicate LoadedBy(jobs: set<nat>, jobKeys: map<nat, seq<Key>>, k: Key) {
    exists j :: j in jobs && j in jobKeys && k in jobKeys[j]
  }

  /** The cache holds exactly what these jobs loaded, and they have all ended. */
  ghost predicate CacheOk(jobs: set<nat>, ended: set<nat>, jobKeys: map<nat, seq<Key>>, cached: set<Key>) {
    jobs <= ended && jobs <= jobKeys.Keys && forall k :: k in cached <==> LoadedBy(jobs, jobKeys, k)
  }

  /** What a request takes to be in the GPU cache is exactly what the jobs it waited on, and no
      longer waits on, have loaded. */
  ghost predicate CachesOk(delayed: map<nat, Wait>, retry: seq<Retry>, waited: map<nat, set<nat>>,
                           ended: set<nat>, jobKeys: map<nat, seq<Key>>) {
    && (forall r :: r in delayed ==>
          r in waited && CacheOk(waited[r] - delayed[r].jobs, ended, jobKeys, delayed[r].cached))
    && (forall i :: 0 <= i < |retry| ==>
          retry[i].req in waited && CacheOk(waited[retry[i].req], ended, jobKeys, retry[i].cached))
  }

  ghost predicate Caches(delayed: map<nat, Wait>, retry: seq<Retry>, waited: map<nat, set<nat>>,
                         ended: set<nat>, jobKeys: map<nat, seq<Key>>) {
    forall k {:trigger Open(waited, k)} :: Open(waited, k) ==> CachesOk(delayed, retry, waited, ended, jobKeys)
  }

  /** Has the request left the waiting queues, and so been counted? */
  ghost predicate Tallied(stage: map<nat, Stage>, r: nat) {
    r in stage && stage[r] != InRetry && stage[r] != InDelayed
  }

  ghost function SumKeys(w: Workload, stage: map<nat, Stage>, n: nat): nat
    requires Runnable(w)
  {
    if n == 0 then 0
    else SumKeys(w, stage, n - 1) + if Tallied(stage, n - 1) then |RequestKeys(w, n - 1)| else 0
  }

  ghost function NumTallied(stage: map<nat, Stage>, n: nat): nat {
    if n == 0 then 0 else NumTallied(stage, n - 1) + if Tallied(stage, n - 1) then 1 else 0
  }

  /** Prefix hits and suffix stores together are all the keys of the counted requests. */
  ghost predicate Sums(w: Workload, stage: map<nat, Stage>, n: nat, keys: nat, requests: nat)
    requires Runnable(w)
  {
    forall k {:trigger Open(stage, k)} :: Open(stage, k) ==>
      keys == SumKeys(w, stage, n) && requests == NumTallied(stage, n)
  }

  /** The request skipped exactly its leading keys that jobs it waited on had loaded, and those
      jobs had ended. */
  ghost predicate SkipOk(keys: seq<Key>, start: nat, jobs: set<nat>, ended: set<nat>, jobKeys: map<nat, seq<Key>>) {
    && start <= |keys| && jobs <= ended && jobs <= jobKeys.Keys
    && (forall i :: 0 <= i < start ==> LoadedBy(jobs, jobKeys, keys[i]))
    && (start < |keys| ==> !LoadedBy(jobs, jobKeys, keys[start]))
  }

  /** Every counted request, and no other, has skipped what it had to. */
  ghost predicate SkipsOk(w: Workload, stage: map<nat, Stage>, starts: map<nat, nat>, waited: map<nat, set<nat>>,
                          ended: set<nat>, jobKeys: map<nat, seq<Key>>)
    requires Runnable(w)
  {
    && (forall r :: r in starts <==> Tallied(stage, r))
    && (forall r :: r in starts ==> r in waited && SkipOk(RequestKeys(w, r), starts[r], waited[r], ended, jobKeys))
  }

  ghost predicate Skips(w: Workload, stage: map<nat, Stage>, starts: map<nat, nat>, waited: map<nat, set<nat>>,
                        ended: set<nat>, jobKeys: map<nat, seq<Key>>)
    requires Runnable(w)
  {
    forall k {:trigger Open(starts, k)} :: Open(starts, k) ==> SkipsOk(w, stage, starts, waited, ended, jobKeys)
  }

  /** The job loads one of the keys. */
  ghost predicate Shares(keys: seq<Key>, loads: seq<Key>) {
    exists k :: k in keys && k in loads
  }

  ghost predicate WaitedOk(w: Workload, n: nat, waited: map<nat, set<nat>>, jobKeys: map<nat, seq<Key>>)
    requires Runnable(w)
  {
    && (forall r :: r in waited ==> r < n)
    && forall r, j :: r in waited && j in waited[r] ==> j in jobKeys && Shares(RequestKeys(w, r), jobKeys[j])
  }

  /** A request admitted so far waits only on load jobs that load one of its own keys. */
  ghost predicate Waited(w: Workload, n: nat, waited: map<nat, set<nat>>, jobKeys: map<nat, seq<Key>>)
    requires Runnable(w)
  {
    forall k {:trigger Open(waited, k)} :: Open(waited, k) ==> WaitedOk(w, n, waited, jobKeys)
  }

  /** The keys all requests together found in the GPU cache. */
  ghost function Skipped(starts: map<nat, nat>): nat
    decreases |starts|
  {
    if starts == map[] then 0 else
      var r :| r in starts;
      starts[r] + Skipped(starts - {r})
  }

  lemma {:induction false} SkippedRemove(starts: map<nat, nat>, r: nat)
    requires r in starts
    ensures Skipped(starts) == starts[r] + Skipped(starts - {r})
    decreases |starts|
  {
    var q: nat :| q in starts && Skipped(starts) == starts[q] + Skipped(starts - {q});
    if q != r {
      SkippedRemove(starts - {q}, r);
      SkippedRemove(starts - {r}, q);
      assert starts - {q} - {r} == starts - {r} - {q};
    }
  }

  lemma SkippedInsert(starts: map<nat, nat>, r: nat, start: nat)
    requires r !in starts
    ensures Skipped(starts[r := start]) == start + Skipped(starts)
  {
    SkippedRemove(starts[r := start], r);
    assert starts[r := start] - {r} == starts;
  }

  /** These are the request's keys. */
  ghost predicate Asks(w: Workload, r: nat, keys: seq<Key>)
    requires Runnable(w)
  {
    forall k {:trigger Open(keys, k)} :: Open(keys, k) ==> keys == RequestKeys(w, r)
  }

  /** What a request still stores fits a slot. */
  ghost predicate Small(limit: nat, blocked: map<nat, seq<Key>>, computable: seq<Ready>) {
    forall k {:trigger Open(computable, k)} :: Open(computable, k) ==>
      && (forall r :: r in blocked ==> |blocked[r]| <= limit)
      && (forall i :: 0 <= i < |computable| ==> |computable[i].missing| <= limit)
  }

  ghost function ReadyKeys(computable: seq<Ready>): nat {
    if computable == [] then 0 else |computable[0].missing| + ReadyKeys(computable[1..])
  }

  ghost function BlockedKeys(blocked: map<nat, seq<Key>>): nat
    decreases |blocked|
  {
    if blocked == map[] then 0 else
      var r :| r in blocked;
      |blocked[r]| + BlockedKeys(blocked - {r})
  }

  /** Every block counted as to be stored has been handed to the step loop, or still waits with
      its request. */
  ghost predicate Owed(suffixStores: nat, handed: nat, computable: seq<Ready>, blocked: map<nat, seq<Key>>) {
    forall k {:trigger Open(blocked, k)} :: Open(blocked, k) ==>
      handed + ReadyKeys(computable) + BlockedKeys(blocked) == suffixStores
  }

  ghost predicate Orderly(w: Workload, limit: nat, s: Sched, h: Trail)
    requires Runnable(w)
  {
    && Queues(s.nextReq, h.hand, h.stage, QueuedIn(s))
    && Waits(s.delayed, h.owner.Keys + h.leaving, h.waited)
    && Loads(s.loading, s.jobOf, h.owner, h.jobKeys, h.ended)
    && Caches(s.delayed, s.retry, h.waited, h.ended, h.jobKeys)
    && Sums(w, h.stage, s.nextReq, s.prefixHits + s.suffixStores, s.requests)
    && Skips(w, h.stage, h.starts, h.waited, h.ended, h.jobKeys)
    && Waited(w, s.nextReq, h.waited, h.jobKeys)
    && Small(limit, s.blocked, s.computable)
    && Owed(s.suffixStores, |s.storedKeys|, s.computable, s.blocked)
  }

  lemma StartOrderly(w: Workload, limit: nat)
    requires Runnable(w)
    ensures Orderly(w, limit, START, NO_TRAIL)
  {
  }

  // --- Sums over stages ---

  lemma {:induction false} SumsSame(w: Workload, stage: map<nat, Stage>, stage': map<nat, Stage>, n: nat)
    requires Runnable(w)
    requires forall r: nat :: r < n ==> (Tallied(stage, r) <==> Tallied(stage', r))
    ensures SumKeys(w, stage', n) == SumKeys(w, stage, n) && NumTallied(stage', n) == NumTallied(stage, n)
  {
    if n > 0 {
      SumsSame(w, stage, stage', n - 1);
    }
  }

  /** One more request is counted. */
  lemma {:induction false} SumsAdd(w: Workload, stage: map<nat, Stage>, r: nat, x: Stage, n: nat)
    requires Runnable(w) && r < n && !Tallied(stage, r) && x != InRetry && x != InDelayed
    ensures SumKeys(w, stage[r := x], n) == SumKeys(w, stage, n) + |RequestKeys(w, r)|
    ensures NumTallied(stage[r := x], n) == NumTallied(stage, n) + 1
  {
    if r == n - 1 {
      SumsSame(w, stage, stage[r := x], n - 1);
    } else {
      SumsAdd(w, stage, r, x, n - 1);
    }
  }

  /** A move between stages that counts nobody. */
  lemma SumsKept(w: Workload, stage: map<nat, Stage>, stage': map<nat, Stage>, n: nat, keys: nat, requests: nat)
    requires Runnable(w) && Sums(w, stage, n, keys, requests)
    requires forall r :: Tallied(stage, r) <==> Tallied(stage', r)
    ensures Sums(w, stage', n, keys, requests)
  {
    assert Open(stage, 0);
    SumsSame(w, stage, stage', n);
  }

  /** A request of these keys is counted. */
  lemma SumsCounted(w: Workload, stage: map<nat, Stage>, r: nat, x: Stage, n: nat, keys: nat, requests: nat,
                    ask: seq<Key>)
    requires Runnable(w) && Sums(w, stage, n, keys, requests) && Asks(w, r, ask)
    requires r < n && r !in stage && x != InRetry && x != InDelayed
    ensures Sums(w, stage[r := x], n, keys + |ask|, requests + 1)
  {
    assert Open(stage, 0) && Open(ask, 0);
    SumsAdd(w, stage, r, x, n);
  }

  lemma SumsNew(w: Workload, stage: map<nat, Stage>, n: nat, keys: nat, requests: nat)
    requires Runnable(w) && Sums(w, stage, n, keys, requests) && n !in stage
    ensures Sums(w, stage, n + 1, keys, requests)
  {
    assert Open(stage, 0);
  }

  // --- Keys skipped, jobs waited on ---

  ghost predicate SameKeys(jobKeys: map<nat, seq<Key>>, jobKeys': map<nat, seq<Key>>) {
    forall j :: j in jobKeys ==> j in jobKeys' && jobKeys'[j] == jobKeys[j]
  }

  lemma SkipGrows(keys: seq<Key>, start: nat, jobs: set<nat>, ended: set<nat>, ended': set<nat>,
                  jobKeys: map<nat, seq<Key>>, jobKeys': map<nat, seq<Key>>)
    requires SkipOk(keys, start, jobs, ended, jobKeys) && ended <= ended' && SameKeys(jobKeys, jobKeys')
    ensures SkipOk(keys, start, jobs, ended', jobKeys')
  {
    forall k ensures LoadedBy(jobs, jobKeys, k) <==> LoadedBy(jobs, jobKeys', k) {
    }
  }

  /** A step that counts nobody and ends no wait. */
  lemma SkipsKept(w: Workload, stage: map<nat, Stage>, stage': map<nat, Stage>, starts: map<nat, nat>,
                  waited: map<nat, set<nat>>, waited': map<nat, set<nat>>, ended: set<nat>, ended': set<nat>,
                  jobKeys: map<nat, seq<Key>>, jobKeys': map<nat, seq<Key>>)
    requires Runnable(w) && Skips(w, stage, starts, waited, ended, jobKeys)
    requires forall r :: Tallied(stage, r) <==> Tallied(stage', r)
    requires forall r :: Tallied(stage, r) && r in waited ==> r in waited' && waited'[r] == waited[r]
    requires ended <= ended' && SameKeys(jobKeys, jobKeys')
    ensures Skips(w, stage', starts, waited', ended', jobKeys')
  {
    assert Open(starts, 0);
    forall r | r in starts ensures r in waited' && SkipOk(RequestKeys(w, r), starts[r], waited'[r], ended', jobKeys') {
      SkipGrows(RequestKeys(w, r), starts[r], waited[r], ended, ended', jobKeys, jobKeys');
    }
  }

  /** A request is counted that skipped its leading cached keys. */
  lemma SkipsAdded(w: Workload, stage: map<nat, Stage>, x: Stage, starts: map<nat, nat>, waited: map<nat, set<nat>>,
                   ended: set<nat>, jobKeys: map<nat, seq<Key>>, r: nat, ask: seq<Key>, start: nat, cached: set<Key>)
    requires Runnable(w) && Skips(w, stage, starts, waited, ended, jobKeys) && Asks(w, r, ask)
    requires r !in stage && x != InRetry && x != InDelayed
    requires r in waited && CacheOk(waited[r], ended, jobKeys, cached) && SkipsCached(ask, cached, start)
    ensures Skips(w, stage[r := x], starts[r := start], waited, ended, jobKeys)
  {
    assert Open(starts, 0) && Open(ask, 0);
    assert SkipOk(ask, start, waited[r], ended, jobKeys);
    var stage', starts' := stage[r := x], starts[r := start];
    assert forall q :: Tallied(stage', q) <==> q == r || Tallied(stage, q);
    assert forall q :: q in starts' <==> q == r || q in starts;
  }

  /** The number of leading keys in the cache. */
  ghost predicate SkipsCached(keys: seq<Key>, cached: set<Key>, start: nat) {
    && start <= |keys|
    && (forall i :: 0 <= i < start ==> keys[i] in cached)
    && (start < |keys| ==> keys[start] !in cached)
  }

  lemma WaitedKept(w: Workload, n: nat, waited: map<nat, set<nat>>, jobKeys: map<nat, seq<Key>>,
                   jobKeys': map<nat, seq<Key>>)
    requires Runnable(w) && Waited(w, n, waited, jobKeys) && SameKeys(jobKeys, jobKeys')
    ensures Waited(w, n, waited, jobKeys') && Waited(w, n + 1, waited[n := {}], jobKeys') && n !in waited
  {
    assert Open(waited, 0);
  }

  /** A request comes to wait on the jobs that load some of its hits. */
  lemma WaitedMore(w: Workload, n: nat, waited: map<nat, set<nat>>, loading: map<Key, nat>, jobOf: map<nat, nat>,
                   owner: map<nat, nat>, jobKeys: map<nat, seq<Key>>, ended: set<nat>, r: nat, ask: seq<Key>,
                   start: nat, hits: seq<Key>)
    requires Runnable(w) && Waited(w, n, waited, jobKeys) && Loads(loading, jobOf, owner, jobKeys, ended)
    requires r in waited && Asks(w, r, ask) && start <= |ask| && hits <= ask[start..]
    ensures Waited(w, n, waited[r := waited[r] + Busy(loading, hits)], jobKeys)
  {
    assert Open(waited, 0) && Open(loading, 0) && Open(ask, 0);
    forall j | j in Busy(loading, hits) ensures j in jobKeys && Shares(ask, jobKeys[j]) {
      var k :| k in hits && k in loading && loading[k] == j;
      assert k in ask[start..];
    }
  }

  // --- Blocks still to be stored ---

  lemma {:induction false} ReadyKeysAppend(computable: seq<Ready>, x: Ready)
    ensures ReadyKeys(computable + [x]) == ReadyKeys(computable) + |x.missing|
  {
    if computable != [] {
      assert (computable + [x])[1..] == computable[1..] + [x];
      ReadyKeysAppend(computable[1..], x);
    } else {
      assert [x][1..] == [];
    }
  }

  lemma {:induction false} BlockedKeysRemove(blocked: map<nat, seq<Key>>, r: nat)
    requires r in blocked
    ensures BlockedKeys(blocked) == |blocked[r]| + BlockedKeys(blocked - {r})
    decreases |blocked|
  {
    var q: nat :| q in blocked && BlockedKeys(blocked) == |blocked[q]| + BlockedKeys(blocked - {q});
    if q != r {
      BlockedKeysRemove(blocked - {q}, r);
      BlockedKeysRemove(blocked - {r}, q);
      assert blocked - {q} - {r} == blocked - {r} - {q};
    }
  }

  lemma BlockedKeysInsert(blocked: map<nat, seq<Key>>, r: nat, missing: seq<Key>)
    requires r !in blocked
    ensures BlockedKeys(blocked[r := missing]) == |missing| + BlockedKeys(blocked)
  {
    BlockedKeysRemove(blocked[r := missing], r);
    assert blocked[r := missing] - {r} == blocked;
  }

  lemma OwedBlocked(n: nat, handed: nat, computable: seq<Ready>, blocked: map<nat, seq<Key>>, r: nat, missing: seq<Key>)
    requires Owed(n, handed, computable, blocked) && r !in blocked
    ensures Owed(n + |missing|, handed, computable, blocked[r := missing])
  {
    assert Open(blocked, 0);
    BlockedKeysInsert(blocked, r, missing);
  }

  lemma OwedReady(n: nat, handed: nat, computable: seq<Ready>, blocked: map<nat, seq<Key>>, x: Ready)
    requires Owed(n, handed, computable, blocked)
    ensures Owed(n + |x.missing|, handed, computable + [x], blocked)
  {
    assert Open(blocked, 0);
    ReadyKeysAppend(computable, x);
  }

  lemma OwedLoaded(n: nat, handed: nat, computable: seq<Ready>, blocked: map<nat, seq<Key>>, r: nat)
    requires Owed(n, handed, computable, blocked) && r in blocked
    ensures Owed(n, handed, computable + [Ready(r, blocked[r])], blocked - {r})
  {
    assert Open(blocked, 0);
    ReadyKeysAppend(computable, Ready(r, blocked[r]));
    BlockedKeysRemove(blocked, r);
  }

  lemma OwedHanded(n: nat, handed: nat, computable: seq<Ready>, blocked: map<nat, seq<Key>>)
    requires Owed(n, handed, computable, blocked) && computable != []
    ensures Owed(n, handed + |computable[0].missing|, computable[1..], blocked)
  {
    assert Open(blocked, 0);
  }

  // --- Lists of requests ---

  lemma ListsPop(reqs: seq<nat>, stage: map<nat, Stage>, x: Stage)
    requires Lists(reqs, stage, x) && reqs != []
    ensures Lists(reqs[1..], stage - {reqs[0]}, x)
    ensures reqs[0] in stage && stage[reqs[0]] == x
  {
    var rest := reqs[1..];
    assert reqs == [reqs[0]] + rest;
    assert reqs[0] in reqs;
    assert forall i :: 0 <= i < |rest| ==> rest[i] == reqs[i + 1];
    forall r ensures r in rest <==> r in stage - {reqs[0]} && (stage - {reqs[0]})[r] == x {
      assert r in reqs <==> r == reqs[0] || r in rest;
    }
  }

  lemma ListsAppend(reqs: seq<nat>, stage: map<nat, Stage>, x: Stage, r: nat)
    requires Lists(reqs, stage, x) && (r in stage ==> stage[r] != x)
    ensures Lists(reqs + [r], stage[r := x], x)
  {
    assert r !in reqs;
  }

  /** A request moves between two other stages. */
  lemma ListsOther(reqs: seq<nat>, stage: map<nat, Stage>, x: Stage, r: nat, y: Stage)
    requires Lists(reqs, stage, x) && (r in stage ==> stage[r] != x) && y != x
    ensures Lists(reqs, stage[r := y], x) && Lists(reqs, stage - {r}, x)
  {
    assert r !in reqs;
  }

  // --- A request changes its stage ---

  /** It leaves the head of the retry list to be scheduled. */
  lemma QueuesTake(n: nat, stage: map<nat, Stage>, q: Queued)
    requires Queues(n, {}, stage, q) && q.retry != []
    ensures Queues(n, {q.retry[0]}, stage - {q.retry[0]}, q.(retry := q.retry[1..]))
    ensures q.retry[0] < n && q.retry[0] in stage && stage[q.retry[0]] == InRetry
  {
    assert Open(q, 0);
    ListsPop(q.retry, stage, InRetry);
    ListsOther(q.ready, stage, InComputable, q.retry[0], InRetry);
  }

  /** A new request is to be scheduled. */
  lemma QueuesNew(n: nat, stage: map<nat, Stage>, q: Queued)
    requires Queues(n, {}, stage, q)
    ensures Queues(n + 1, {n}, stage, q)
  {
    assert Open(q, 0);
  }

  /** The request in hand is delayed, starts its load job, or can compute. */
  lemma QueuesPut(n: nat, r: nat, stage: map<nat, Stage>, q: Queued)
    requires Queues(n, {r}, stage, q)
    ensures r !in stage && r < n
    ensures Queues(n, {}, stage[r := InDelayed], q.(delayed := q.delayed + {r}))
    ensures Queues(n, {}, stage[r := InBlocked], q.(blocked := q.blocked + {r}, loading := q.loading + {r}))
    ensures Queues(n, {}, stage[r := InComputable], q.(ready := q.ready + [r]))
  {
    assert Open(q, 0);
    ListsOther(q.retry, stage, InRetry, r, InDelayed);
    ListsOther(q.retry, stage, InRetry, r, InBlocked);
    ListsOther(q.retry, stage, InRetry, r, InComputable);
    ListsOther(q.ready, stage, InComputable, r, InDelayed);
    ListsOther(q.ready, stage, InComputable, r, InBlocked);
    ListsAppend(q.ready, stage, InComputable, r);
  }

  /** Its load job ends: it can compute. */
  lemma QueuesLoaded(n: nat, r: nat, stage: map<nat, Stage>, q: Queued)
    requires Queues(n, {}, stage, q) && r in q.blocked
    ensures r in q.loading && r in stage && stage[r] == InBlocked
    ensures Queues(n, {}, stage[r := InComputable],
                   q.(blocked := q.blocked - {r}, loading := q.loading - {r}, ready := q.ready + [r]))
  {
    assert Open(q, 0);
    ListsOther(q.retry, stage, InRetry, r, InComputable);
    ListsAppend(q.ready, stage, InComputable, r);
  }

  /** The last job it waited on ends: it is retried. */
  lemma QueuesWoken(n: nat, r: nat, stage: map<nat, Stage>, q: Queued)
    requires Queues(n, {}, stage, q) && r in q.delayed
    ensures r in stage && stage[r] == InDelayed
    ensures Queues(n, {}, stage[r := InRetry], q.(delayed := q.delayed - {r}, retry := q.retry + [r]))
  {
    assert Open(q, 0);
    ListsOther(q.ready, stage, InComputable, r, InRetry);
    ListsAppend(q.retry, stage, InRetry, r);
  }

  /** The first computable request computes. */
  lemma QueuesComputed(n: nat, stage: map<nat, Stage>, q: Queued)
    requires Queues(n, {}, stage, q) && q.ready != []
    ensures q.ready[0] in stage && stage[q.ready[0]] == InComputable
    ensures Queues(n, {}, stage[q.ready[0] := Past], q.(ready := q.ready[1..]))
  {
    assert Open(q, 0);
    var r := q.ready[0];
    ListsPop(q.ready, stage, InComputable);
    ListsOther(q.ready[1..], stage - {r}, InComputable, r, Past);
    assert (stage - {r})[r := Past] == stage[r := Past];
    assert r in q.ready;
    ListsOther(q.retry, stage, InRetry, r, Past);
  }

  // --- Steps ---

  function TakeRetry(s: Sched): (s': Sched)
    requires s.retry != []
  {
    s.(retry := s.retry[1..])
  }

  ghost function InHand(h: Trail, r: nat): Trail {
    h.(stage := h.stage - {r}, hand := {r})
  }

  lemma TakeRetryOrderly(w: Workload, limit: nat, s: Sched, h: Trail)
    requires Runnable(w) && Orderly(w, limit, s, h) && AtRest(h) && s.retry != []
    ensures Orderly(w, limit, TakeRetry(s), InHand(h, s.retry[0].req))
    ensures s.retry[0].req < s.nextReq && s.retry[0].req in h.waited
    ensures CacheOk(h.waited[s.retry[0].req], h.ended, h.jobKeys, s.retry[0].cached)
    ensures s.retry[0].req !in h.starts
  {
    var s', r := TakeRetry(s), s.retry[0].req;
    assert RetryReqs(s'.retry) == RetryReqs(s.retry)[1..];
    QueuesTake(s.nextReq, h.stage, QueuedIn(s));
    SumsKept(w, h.stage, h.stage - {r}, s.nextReq, s.prefixHits + s.suffixStores, s.requests);
    SkipsKept(w, h.stage, h.stage - {r}, h.starts, h.waited, h.waited, h.ended, h.ended, h.jobKeys, h.jobKeys);
    assert Open(h.waited, 0) && Open(h.starts, 0);
  }

  function NewRequest(s: Sched): (s': Sched) {
    s.(nextReq := s.nextReq + 1)
  }

  ghost function Arrived(h: Trail, r: nat): Trail {
    h.(hand := {r}, waited := h.waited[r := {}])
  }

  /** A request in no stage is neither delayed nor to be retried. */
  lemma Elsewhere(s: Sched, h: Trail, r: nat)
    requires Queues(s.nextReq, h.hand, h.stage, QueuedIn(s)) && (r in h.hand || r >= s.nextReq)
    ensures r !in s.delayed && r !in s.blocked && r !in s.jobOf && r !in h.stage
    ensures forall i :: 0 <= i < |s.retry| ==> s.retry[i].req != r
  {
    assert Open(QueuedIn(s), 0);
    forall i | 0 <= i < |s.retry| ensures s.retry[i].req != r {
      assert RetryReqs(s.retry)[i] in RetryReqs(s.retry);
    }
  }

  lemma WaitsGrow(delayed: map<nat, Wait>, known: set<nat>, known': set<nat>,
                  waited: map<nat, set<nat>>, waited': map<nat, set<nat>>)
    requires Waits(delayed, known, waited) && known <= known'
    requires forall r :: r in delayed && r in waited ==> r in waited' && waited[r] <= waited'[r]
    ensures Waits(delayed, known', waited')
  {
    assert Open(delayed, 0);
  }

  lemma CacheGrows(jobs: set<nat>, ended: set<nat>, ended': set<nat>, jobKeys: map<nat, seq<Key>>,
                   jobKeys': map<nat, seq<Key>>, cached: set<Key>)
    requires CacheOk(jobs, ended, jobKeys, cached) && ended <= ended'
    requires forall j :: j in jobKeys ==> j in jobKeys' && jobKeys'[j] == jobKeys[j]
    ensures CacheOk(jobs, ended', jobKeys', cached)
  {
    forall k ensures LoadedBy(jobs, jobKeys, k) <==> LoadedBy(jobs, jobKeys', k) {
    }
  }

  lemma CachesGrow(delayed: map<nat, Wait>, retry: seq<Retry>, waited: map<nat, set<nat>>, waited': map<nat, set<nat>>,
                   ended: set<nat>, ended': set<nat>, jobKeys: map<nat, seq<Key>>, jobKeys': map<nat, seq<Key>>)
    requires Caches(delayed, retry, waited, ended, jobKeys) && ended <= ended'
    requires forall r :: r in delayed && r in waited ==> r in waited' && waited'[r] == waited[r]
    requires forall i :: 0 <= i < |retry| && retry[i].req in waited ==>
               retry[i].req in waited' && waited'[retry[i].req] == waited[retry[i].req]
    requires forall j :: j in jobKeys ==> j in jobKeys' && jobKeys'[j] == jobKeys[j]
    ensures Caches(delayed, retry, waited', ended', jobKeys')
  {
    assert Open(waited, 0);
    forall r | r in delayed ensures CacheOk(waited'[r] - delayed[r].jobs, ended', jobKeys', delayed[r].cached) {
      CacheGrows(waited[r] - delayed[r].jobs, ended, ended', jobKeys, jobKeys', delayed[r].cached);
    }
    forall i | 0 <= i < |retry| ensures CacheOk(waited'[retry[i].req], ended', jobKeys', retry[i].cached) {
      CacheGrows(waited[retry[i].req], ended, ended', jobKeys, jobKeys', retry[i].cached);
    }
  }

  lemma NewRequestOrderly(w: Workload, limit: nat, s: Sched, h: Trail)
    requires Runnable(w) && Orderly(w, limit, s, h) && AtRest(h)
    ensures Orderly(w, limit, NewRequest(s), Arrived(h, s.nextReq))
    ensures s.nextReq !in h.starts && s.nextReq !in h.waited
  {
    QueuesNew(s.nextReq, h.stage, QueuedIn(s));
    Elsewhere(s, h, s.nextReq);
    var h' := Arrived(h, s.nextReq);
    WaitsGrow(s.delayed, h.owner.Keys + h.leaving, h.owner.Keys + h.leaving, h.waited, h'.waited);
    CachesGrow(s.delayed, s.retry, h.waited, h'.waited, h.ended, h.ended, h.jobKeys, h.jobKeys);
    SumsNew(w, h.stage, s.nextReq, s.prefixHits + s.suffixStores, s.requests);
    SkipsKept(w, h.stage, h.stage, h.starts, h.waited, h'.waited, h.ended, h.ended, h.jobKeys, h.jobKeys);
    WaitedKept(w, s.nextReq, h.waited, h.jobKeys, h.jobKeys);
    assert Open(h.starts, 0);
  }

  /** The load jobs already loading some of these keys. */
  function Busy(loading: map<Key, nat>, hits: seq<Key>): (jobs: set<nat>) {
    set k | k in hits && k in loading :: loading[k]
  }

  lemma BusyNone(loading: map<Key, nat>, hits: seq<Key>)
    ensures Busy(loading, hits) == {} <==> forall k :: k in hits ==> k !in loading
  {
    if k :| k in hits && k in loading {
      assert loading[k] in Busy(loading, hits);
    }
  }

  function PutDelayed(s: Sched, r: nat, busy: set<nat>, cached: set<Key>): (s': Sched) {
    s.(delayed := s.delayed[r := Wait(busy, cached)], delays := s.delays + 1)
  }

  ghost function Delayed(h: Trail, r: nat, busy: set<nat>): Trail
    requires r in h.waited
  {
    h.(stage := h.stage[r := InDelayed], hand := {}, waited := h.waited[r := h.waited[r] + busy])
  }

  /** A newly delayed request keeps what it has, and waits on jobs that have not ended. */
  lemma CachesDelayed(s: Sched, h: Trail, r: nat, busy: set<nat>, cached: set<Key>)
    requires Caches(s.delayed, s.retry, h.waited, h.ended, h.jobKeys)
    requires r in h.waited && r !in s.delayed && (forall i :: 0 <= i < |s.retry| ==> s.retry[i].req != r)
    requires CacheOk(h.waited[r], h.ended, h.jobKeys, cached) && busy !! h.ended
    ensures Caches(s.delayed[r := Wait(busy, cached)], s.retry, h.waited[r := h.waited[r] + busy], h.ended, h.jobKeys)
  {
    var waited' := h.waited[r := h.waited[r] + busy];
    CachesGrow(s.delayed, s.retry, h.waited, waited', h.ended, h.ended, h.jobKeys, h.jobKeys);
    assert waited'[r] - busy == h.waited[r];
    assert Open(waited', 0);
  }

  lemma PutDelayedOrderly(w: Workload, limit: nat, s: Sched, h: Trail, r: nat, ask: seq<Key>, start: nat,
                          hits: seq<Key>, cached: set<Key>)
    requires Runnable(w) && Orderly(w, limit, s, h) && h.hand == {r} && h.leaving == {} && r in h.waited
    requires CacheOk(h.waited[r], h.ended, h.jobKeys, cached) && Busy(s.loading, hits) != {}
    requires Asks(w, r, ask) && start <= |ask| && hits <= ask[start..]
    ensures Orderly(w, limit, PutDelayed(s, r, Busy(s.loading, hits), cached), Delayed(h, r, Busy(s.loading, hits)))
  {
    var busy := Busy(s.loading, hits);
    var s', h' := PutDelayed(s, r, busy, cached), Delayed(h, r, busy);
    Elsewhere(s, h, r);
    QueuesPut(s.nextReq, r, h.stage, QueuedIn(s));
    assert QueuedIn(s') == QueuedIn(s).(delayed := s.delayed.Keys + {r});
    SumsKept(w, h.stage, h'.stage, s.nextReq, s.prefixHits + s.suffixStores, s.requests);
    assert busy <= h.owner.Keys && busy !! h.ended by {
      assert Open(s.loading, 0);
    }
    WaitsGrow(s.delayed, h.owner.Keys + {}, h.owner.Keys + {}, h.waited, h'.waited);
    assert Waits(s'.delayed, h.owner.Keys + {}, h'.waited) by {
      assert Open(s.delayed, 0);
    }
    CachesDelayed(s, h, r, busy, cached);
    WaitedMore(w, s.nextReq, h.waited, s.loading, s.jobOf, h.owner, h.jobKeys, h.ended, r, ask, start, hits);
    SkipsKept(w, h.stage, h'.stage, h.starts, h.waited, h'.waited, h.ended, h.ended, h.jobKeys, h.jobKeys);
  }

  /** All hits are marked as being loaded by the job. */
  function Marked(loading: map<Key, nat>, hits: seq<Key>, jid: nat): (r: map<Key, nat>) {
    loading + map k | k in hits :: jid
  }

  function PutLoading(s: Sched, r: nat, start: nat, hits: seq<Key>, missing: seq<Key>, jid: nat): (s': Sched) {
    s.(loading := Marked(s.loading, hits, jid), jobOf := s.jobOf[r := jid], blocked := s.blocked[r := missing],
       prefixHits := s.prefixHits + start + |hits|, suffixStores := s.suffixStores + |missing|,
       requests := s.requests + 1)
  }

  ghost function Started(h: Trail, r: nat, start: nat, jid: nat, hits: seq<Key>): Trail {
    h.(stage := h.stage[r := InBlocked], hand := {}, owner := h.owner[jid := r], jobKeys := h.jobKeys[jid := hits],
       starts := h.starts[r := start])
  }

  lemma LoadsStarted(loading: map<Key, nat>, jobOf: map<nat, nat>, owner: map<nat, nat>, jobKeys: map<nat, seq<Key>>,
                     ended: set<nat>, r: nat, jid: nat, hits: seq<Key>)
    requires Loads(loading, jobOf, owner, jobKeys, ended)
    requires r !in jobOf && jid !in jobKeys && Busy(loading, hits) == {}
    ensures Loads(Marked(loading, hits, jid), jobOf[r := jid], owner[jid := r], jobKeys[jid := hits], ended)
  {
    assert Open(loading, 0);
    BusyNone(loading, hits);
  }

  lemma PutLoadingOrderly(w: Workload, limit: nat, s: Sched, h: Trail, r: nat, start: nat, hits: seq<Key>,
                          missing: seq<Key>, jid: nat, ask: seq<Key>, cached: set<Key>)
    requires Runnable(w) && Orderly(w, limit, s, h) && h.hand == {r} && h.leaving == {}
    requires Busy(s.loading, hits) == {} && jid !in h.jobKeys
    requires start + |hits| + |missing| == |ask| && |missing| <= limit && Asks(w, r, ask)
    requires r in h.waited && CacheOk(h.waited[r], h.ended, h.jobKeys, cached) && SkipsCached(ask, cached, start)
    ensures Orderly(w, limit, PutLoading(s, r, start, hits, missing, jid), Started(h, r, start, jid, hits))
  {
    var s', h' := PutLoading(s, r, start, hits, missing, jid), Started(h, r, start, jid, hits);
    var q := QueuedIn(s);
    Elsewhere(s, h, r);
    assert r < s.nextReq by {
      assert Open(q, 0);
    }
    assert Queues(s.nextReq, {}, h'.stage, QueuedIn(s')) by {
      QueuesPut(s.nextReq, r, h.stage, q);
      assert QueuedIn(s') == q.(blocked := q.blocked + {r}, loading := q.loading + {r});
    }
    SumsCounted(w, h.stage, r, InBlocked, s.nextReq, s.prefixHits + s.suffixStores, s.requests, ask);
    LoadsStarted(s.loading, s.jobOf, h.owner, h.jobKeys, h.ended, r, jid, hits);
    WaitsGrow(s.delayed, h.owner.Keys + {}, h'.owner.Keys + {}, h.waited, h.waited);
    CachesGrow(s.delayed, s.retry, h.waited, h.waited, h.ended, h.ended, h.jobKeys, h'.jobKeys);
    assert Small(limit, s'.blocked, s.computable) by {
      assert Open(s.computable, 0);
    }
    OwedBlocked(s.suffixStores, |s.storedKeys|, s.computable, s.blocked, r, missing);
    SkipsKept(w, h.stage, h.stage, h.starts, h.waited, h.waited, h.ended, h.ended, h.jobKeys, h'.jobKeys);
    CacheGrows(h.waited[r], h.ended, h.ended, h.jobKeys, h'.jobKeys, cached);
    SkipsAdded(w, h.stage, InBlocked, h.starts, h.waited, h.ended, h'.jobKeys, r, ask, start, cached);
    WaitedKept(w, s.nextReq, h.waited, h.jobKeys, h'.jobKeys);
  }

  function PutReady(s: Sched, r: nat, start: nat, missing: seq<Key>): (s': Sched) {
    s.(computable := s.computable + [Ready(r, missing)],
       prefixHits := s.prefixHits + start, suffixStores := s.suffixStores + |missing|, requests := s.requests + 1)
  }

  ghost function MadeReady(h: Trail, r: nat, start: nat): Trail {
    h.(stage := h.stage[r := InComputable], hand := {}, starts := h.starts[r := start])
  }

  lemma PutReadyOrderly(w: Workload, limit: nat, s: Sched, h: Trail, r: nat, start: nat, missing: seq<Key>,
                        ask: seq<Key>, cached: set<Key>)
    requires Runnable(w) && Orderly(w, limit, s, h) && h.hand == {r} && h.leaving == {}
    requires start + |missing| == |ask| && |missing| <= limit && Asks(w, r, ask)
    requires r in h.waited && CacheOk(h.waited[r], h.ended, h.jobKeys, cached) && SkipsCached(ask, cached, start)
    ensures Orderly(w, limit, PutReady(s, r, start, missing), MadeReady(h, r, start))
  {
    var s' := PutReady(s, r, start, missing);
    QueuesPut(s.nextReq, r, h.stage, QueuedIn(s));
    assert ReadyReqs(s'.computable) == ReadyReqs(s.computable) + [r];
    OwedReady(s.suffixStores, |s.storedKeys|, s.computable, s.blocked, Ready(r, missing));
    SumsCounted(w, h.stage, r, InComputable, s.nextReq, s.prefixHits + s.suffixStores, s.requests, ask);
    SkipsAdded(w, h.stage, InComputable, h.starts, h.waited, h.ended, h.jobKeys, r, ask, start, cached);
    assert Small(limit, s.blocked, s'.computable) by {
      assert Open(s.computable, 0);
    }
  }

  /** The first computable request computes: its missing blocks are to be stored. */
  function Computed(s: Sched): (s': Sched)
    requires s.computable != []
  {
    s.(computable := s.computable[1..], storedKeys := s.storedKeys + s.computable[0].missing)
  }

  ghost function Left(h: Trail, r: nat): Trail {
    h.(stage := h.stage[r := Past])
  }

  lemma ComputedOrderly(w: Workload, limit: nat, s: Sched, h: Trail)
    requires Runnable(w) && Orderly(w, limit, s, h) && AtRest(h) && s.computable != []
    ensures Orderly(w, limit, Computed(s), Left(h, s.computable[0].req))
    ensures |s.computable[0].missing| <= limit
  {
    var s', r := Computed(s), s.computable[0].req;
    QueuesComputed(s.nextReq, h.stage, QueuedIn(s));
    assert ReadyReqs(s'.computable) == ReadyReqs(s.computable)[1..];
    OwedHanded(s.suffixStores, |s.storedKeys|, s.computable, s.blocked);
    SumsKept(w, h.stage, h.stage[r := Past], s.nextReq, s.prefixHits + s.suffixStores, s.requests);
    SkipsKept(w, h.stage, h.stage[r := Past], h.starts, h.waited, h.waited, h.ended, h.ended, h.jobKeys, h.jobKeys);
    assert Open(s.computable, 0);
  }

  /** The keys no longer being loaded once job jid has ended. */
  function Unmarked(loading: map<Key, nat>, keys: seq<Key>, jid: nat): (r: map<Key, nat>) {
    map k | k in loading && !(k in keys && loading[k] == jid) :: loading[k]
  }

  function Finished(s: Sched, tag: nat, jid: nat, keys: seq<Key>): (s': Sched)
    requires tag in s.blocked
  {
    s.(jobOf := s.jobOf - {tag}, loading := Unmarked(s.loading, keys, jid),
       computable := s.computable + [Ready(tag, s.blocked[tag])], blocked := s.blocked - {tag})
  }

  ghost function JobEnded(h: Trail, tag: nat, jid: nat): Trail {
    h.(stage := h.stage[tag := InComputable], owner := h.owner - {jid}, leaving := {jid}, ended := h.ended + {jid})
  }

  lemma LoadsFinished(loading: map<Key, nat>, jobOf: map<nat, nat>, owner: map<nat, nat>, jobKeys: map<nat, seq<Key>>,
                      ended: set<nat>, jid: nat)
    requires Loads(loading, jobOf, owner, jobKeys, ended) && jid in owner && jid in jobKeys
    ensures Loads(Unmarked(loading, jobKeys[jid], jid), jobOf - {owner[jid]}, owner - {jid}, jobKeys, ended + {jid})
    ensures owner[jid] in jobOf && jobOf[owner[jid]] == jid
  {
    assert Open(loading, 0);
  }

  lemma FinishedOrderly(w: Workload, limit: nat, s: Sched, h: Trail, jid: nat)
    requires Runnable(w) && Orderly(w, limit, s, h) && AtRest(h) && jid in h.owner && jid in h.jobKeys
    ensures h.owner[jid] in s.jobOf && s.jobOf[h.owner[jid]] == jid && h.owner[jid] in s.blocked
    ensures Orderly(w, limit, Finished(s, h.owner[jid], jid, h.jobKeys[jid]), JobEnded(h, h.owner[jid], jid))
  {
    LoadsFinished(s.loading, s.jobOf, h.owner, h.jobKeys, h.ended, jid);
    var tag, q := h.owner[jid], QueuedIn(s);
    assert tag in s.blocked by {
      assert Open(q, 0);
    }
    var s', h' := Finished(s, tag, jid, h.jobKeys[jid]), JobEnded(h, tag, jid);
    QueuesLoaded(s.nextReq, tag, h.stage, q);
    assert ReadyReqs(s'.computable) == ReadyReqs(s.computable) + [tag];
    OwedLoaded(s.suffixStores, |s.storedKeys|, s.computable, s.blocked, tag);
    assert QueuedIn(s') == q.(blocked := q.blocked - {tag}, loading := q.loading - {tag}, ready := q.ready + [tag]);
    SumsKept(w, h.stage, h'.stage, s.nextReq, s.prefixHits + s.suffixStores, s.requests);
    WaitsGrow(s.delayed, h.owner.Keys + {}, h'.owner.Keys + {jid}, h.waited, h.waited);
    CachesGrow(s.delayed, s.retry, h.waited, h.waited, h.ended, h'.ended, h.jobKeys, h.jobKeys);
    SkipsKept(w, h.stage, h'.stage, h.starts, h.waited, h.waited, h.ended, h'.ended, h.jobKeys, h.jobKeys);
    assert Small(limit, s'.blocked, s'.computable) by {
      assert Open(s.computable, 0);
    }
  }

  /** Request r no longer waits on job jid; with nothing left to wait on it is retried. */
  function Woken(s: Sched, r: nat, jid: nat, keys: seq<Key>): (s': Sched)
    requires r in s.delayed
  {
    var wait := Wait(s.delayed[r].jobs - {jid}, s.delayed[r].cached + set k | k in keys);
    if wait.jobs != {} then s.(delayed := s.delayed[r := wait])
    else s.(delayed := s.delayed - {r}, retry := s.retry + [Retry(r, wait.cached)])
  }

  ghost function WokenTrail(s: Sched, h: Trail, r: nat, jid: nat): Trail
    requires r in s.delayed
  {
    if s.delayed[r].jobs - {jid} != {} then h else h.(stage := h.stage[r := InRetry])
  }

  lemma CacheMore(jobs: set<nat>, ended: set<nat>, jobKeys: map<nat, seq<Key>>, cached: set<Key>, jid: nat)
    requires CacheOk(jobs, ended, jobKeys, cached) && jid in ended && jid in jobKeys
    ensures CacheOk(jobs + {jid}, ended, jobKeys, cached + set k | k in jobKeys[jid])
  {
    forall k ensures LoadedBy(jobs + {jid}, jobKeys, k) <==> LoadedBy(jobs, jobKeys, k) || k in jobKeys[jid] {
    }
  }

  lemma CachesWoken(s: Sched, h: Trail, r: nat, jid: nat)
    requires Caches(s.delayed, s.retry, h.waited, h.ended, h.jobKeys)
    requires r in s.delayed && r in h.waited && jid in s.delayed[r].jobs && s.delayed[r].jobs <= h.waited[r]
    requires jid in h.ended && jid in h.jobKeys
    ensures var s' := Woken(s, r, jid, h.jobKeys[jid]);
            Caches(s'.delayed, s'.retry, h.waited, h.ended, h.jobKeys)
  {
    assert Open(h.waited, 0);
    var jobs := s.delayed[r].jobs;
    CacheMore(h.waited[r] - jobs, h.ended, h.jobKeys, s.delayed[r].cached, jid);
    assert h.waited[r] - jobs + {jid} == h.waited[r] - (jobs - {jid});
    assert jobs - {jid} == {} ==> h.waited[r] - (jobs - {jid}) == h.waited[r];
  }

  lemma WokenOrderly(w: Workload, limit: nat, s: Sched, h: Trail, r: nat, jid: nat)
    requires Runnable(w) && Orderly(w, limit, s, h) && h.hand == {} && h.leaving == {jid}
    requires r in s.delayed && jid in s.delayed[r].jobs && jid in h.ended && jid in h.jobKeys
    ensures Orderly(w, limit, Woken(s, r, jid, h.jobKeys[jid]), WokenTrail(s, h, r, jid))
  {
    var s', h', q := Woken(s, r, jid, h.jobKeys[jid]), WokenTrail(s, h, r, jid), QueuedIn(s);
    QueuesWoken(s.nextReq, r, h.stage, q);
    assert h' != h ==> RetryReqs(s'.retry) == RetryReqs(s.retry) + [r];
    assert QueuedIn(s') == if h' == h then q else q.(delayed := q.delayed - {r}, retry := q.retry + [r]);
    SumsKept(w, h.stage, h'.stage, s.nextReq, s.prefixHits + s.suffixStores, s.requests);
    assert WaitOk(s.delayed[r], h.owner.Keys + {jid}, h.waited, r) by {
      assert Open(s.delayed, 0);
    }
    assert Waits(s'.delayed, h.owner.Keys + {jid}, h.waited) by {
      assert Open(s.delayed, 0);
    }
    CachesWoken(s, h, r, jid);
    SkipsKept(w, h.stage, h'.stage, h.starts, h.waited, h.waited, h.ended, h.ended, h.jobKeys, h.jobKeys);
  }

  /** Once no request waits on the job any more, it is gone. */
  lemma GoneOrderly(w: Workload, limit: nat, s: Sched, h: Trail, jid: nat)
    requires Runnable(w) && Orderly(w, limit, s, h) && h.leaving == {jid}
    requires forall r :: r in s.delayed ==> jid !in s.delayed[r].jobs
    ensures Orderly(w, limit, s, h.(leaving := {}))
  {
    assert Waits(s.delayed, h.owner.Keys + {}, h.waited) by {
      assert Open(s.delayed, 0);
    }
  }

  // --- Sizes ---

  function Live(s: Sched): (n: nat) {
    |s.retry| + |s.delayed| + |s.blocked| + |s.computable|
  }

  /** How far the live requests still have to go, together with the jobs in flight. */
  function Weight(s: Sched, st: LoopState): (n: nat) {
    7 * (|s.retry| + |s.delayed|) + 5 * |s.blocked| + 4 * |s.computable| + 3 * |st.deferred| + |st.pending|
  }

  lemma SizeWithout<T>(m: map<nat, T>, r: nat)
    requires r in m
    ensures |m - {r}| == |m| - 1
  {
    assert (m - {r}).Keys == m.Keys - {r};
  }

  lemma FinishedSize(s: Sched, tag: nat, jid: nat, keys: seq<Key>)
    requires tag in s.blocked
    ensures var s' := Finished(s, tag, jid, keys);
            Live(s') == Live(s) && 7 * (|s'.retry| + |s'.delayed|) + 5 * |s'.blocked| + 4 * |s'.computable|
                                   < 7 * (|s.retry| + |s.delayed|) + 5 * |s.blocked| + 4 * |s.computable|
  {
    SizeWithout(s.blocked, tag);
  }

  lemma WokenSize(s: Sched, r: nat, jid: nat, keys: seq<Key>)
    requires r in s.delayed
    ensures var s' := Woken(s, r, jid, keys);
            |s'.retry| + |s'.delayed| == |s.retry| + |s.delayed| && s'.blocked == s.blocked &&
              s'.computable == s.computable
  {
    SizeWithout(s.delayed, r);
  }

  // --- How the trail grows, and what it records ---

  ghost predicate ExtendsOk(h: Trail, h': Trail) {
    && h.ended <= h'.ended
    && SameKeys(h.jobKeys, h'.jobKeys)
    && (forall r :: r in h.waited ==> r in h'.waited && h.waited[r] <= h'.waited[r])
    && (forall r, j :: WaitsOn(h', r, j) ==> WaitsOn(h, r, j) || (j in h'.jobKeys && j !in h.ended))
    && (forall r :: r in h.starts ==> r in h'.starts && h'.starts[r] == h.starts[r])
  }

  ghost predicate WaitsOn(h: Trail, r: nat, j: nat) {
    r in h.waited && j in h.waited[r]
  }

  /** The later trail forgets nothing: jobs ended stay ended, with the keys they had; waits only
      grow, and only by load jobs that had not ended before; what a request skipped is settled.
      Carried whole. */
  ghost predicate Extends(h: Trail, h': Trail) {
    forall k {:trigger Open(h', k)} :: Open(h', k) ==> ExtendsOk(h, h')
  }

  lemma ExtendsOn(h: Trail, h': Trail, h'': Trail)
    requires Extends(h, h') && Extends(h', h'')
    ensures Extends(h, h'')
  {
    assert Open(h', 0) && Open(h'', 0);
  }

  ghost predicate RecordedOk(ended: set<nat>, jobKeys: map<nat, seq<Key>>, lives: seq<Life>) {
    && (forall j :: j in ended <==> exists i :: 0 <= i < |lives| && lives[i].job == j)
    && (forall i :: 0 <= i < |lives| ==> lives[i].job in jobKeys && jobKeys[lives[i].job] == lives[i].keys)
  }

  /** The load jobs that ended are exactly those the step loop has reaped, with the keys it
      reaped them with. Carried whole. */
  ghost predicate Recorded(ended: set<nat>, jobKeys: map<nat, seq<Key>>, lives: seq<Life>) {
    forall k {:trigger Open(lives, k)} :: Open(lives, k) ==> RecordedOk(ended, jobKeys, lives)
  }

  lemma RecordedGrow(ended: set<nat>, jobKeys: map<nat, seq<Key>>, jobKeys': map<nat, seq<Key>>, lives: seq<Life>)
    requires Recorded(ended, jobKeys, lives) && SameKeys(jobKeys, jobKeys')
    ensures Recorded(ended, jobKeys', lives)
  {
    assert Open(lives, 0);
  }

  lemma RecordedMore(ended: set<nat>, jobKeys: map<nat, seq<Key>>, lives: seq<Life>, life: Life)
    requires Recorded(ended, jobKeys, lives) && life.job in jobKeys && jobKeys[life.job] == life.keys
    ensures Recorded(ended + {life.job}, jobKeys, lives + [life])
  {
    assert Open(lives, 0);
    var lives' := lives + [life];
    forall j ensures j in ended + {life.job} <==> exists i :: 0 <= i < |lives'| && lives'[i].job == j {
      if j == life.job {
        assert lives'[|lives|].job == j;
      } else if i :| 0 <= i < |lives| && lives[i].job == j {
        assert lives'[i].job == j;
      }
    }
  }

  // --- The scheduler's jobs and the step loop's ---

  ghost predicate LinkedOk(pending: map<nat, Job>, jobId: nat, owner: map<nat, nat>, jobKeys: map<nat, seq<Key>>,
                           ended: set<nat>) {
    && (forall j :: j in owner ==>
          && j in pending && j in jobKeys
          && pending[j].kind == Load && pending[j].tag == owner[j] && pending[j].keys == jobKeys[j])
    && (forall j :: j in pending && pending[j].kind == Load ==> j in owner)
    && (forall j :: j in pending ==> j <= jobId)
    && (forall j :: j in jobKeys ==> j <= jobId)
    && pending.Keys !! ended
  }

  /** The load jobs the scheduler knows are exactly the step loop's outstanding ones, with the
      same keys and requests. */
  ghost predicate Linked(pending: map<nat, Job>, jobId: nat, owner: map<nat, nat>, jobKeys: map<nat, seq<Key>>,
                         ended: set<nat>) {
    forall k {:trigger Open(pending, k)} :: Open(pending, k) ==> LinkedOk(pending, jobId, owner, jobKeys, ended)
  }

  lemma {:induction false} LinkedSentAll(st: LoopState, h: Trail)
    requires Linked(st.pending, st.jobId, h.owner, h.jobKeys, h.ended) && h.ended <= h.jobKeys.Keys
    ensures var st' := SentAll(st);
            && Linked(st'.pending, st'.jobId, h.owner, h.jobKeys, h.ended)
            && st'.deferred == [] && |st'.pending| <= |st.pending| + |st.deferred| && st'.uncompleted == st.uncompleted
    decreases |st.deferred|
  {
    if st.deferred != [] {
      var st' := Sent(NextId(st));
      assert Linked(st'.pending, st'.jobId, h.owner, h.jobKeys, h.ended) by {
        assert Open(st.pending, 0);
      }
      LinkedSentAll(st', h);
    }
  }

  lemma LinkedAdded(pending: map<nat, Job>, jobId: nat, owner: map<nat, nat>, jobKeys: map<nat, seq<Key>>,
                    ended: set<nat>, job: Job)
    requires Linked(pending, jobId, owner, jobKeys, ended) && ended <= jobKeys.Keys && job.kind == Load
    ensures jobId + 1 !in jobKeys && jobId + 1 !in pending
    ensures Linked(pending[jobId + 1 := job], jobId + 1, owner[jobId + 1 := job.tag], jobKeys[jobId + 1 := job.keys],
                   ended)
  {
    assert Open(pending, 0);
  }

  lemma LinkedLaunched(st: LoopState, h: Trail, hits: seq<Key>, r: nat, start: nat, now: real)
    requires Linked(st.pending, st.jobId, h.owner, h.jobKeys, h.ended) && st.loads.free != []
    requires h.ended <= h.jobKeys.Keys
    ensures var st', h' := Launched(NextId(st), hits, r, now), Started(h, r, start, st.jobId + 1, hits);
            && Linked(st'.pending, st'.jobId, h'.owner, h'.jobKeys, h'.ended)
            && |st'.pending| <= |st.pending| + 1 && st'.deferred == st.deferred && st'.uncompleted == st.uncompleted
    ensures st.jobId + 1 !in h.jobKeys && st.jobId + 1 !in st.pending
  {
    LinkedAdded(st.pending, st.jobId, h.owner, h.jobKeys, h.ended, Job(Load, hits, st.loads.free[0], r));
  }

  /** A reaped job: a load job leaves both sides, a store job only the loop's. */
  lemma LinkedRetired(pending: map<nat, Job>, jobId: nat, h: Trail, j: nat)
    requires Linked(pending, jobId, h.owner, h.jobKeys, h.ended) && j in pending
    ensures pending[j].kind == Store ==> Linked(pending - {j}, jobId, h.owner, h.jobKeys, h.ended)
    ensures pending[j].kind == Load ==>
              && j in h.owner && j in h.jobKeys && h.owner[j] == pending[j].tag && h.jobKeys[j] == pending[j].keys
              && Linked(pending - {j}, jobId, h.owner - {j}, h.jobKeys, h.ended + {j})
  {
    assert Open(pending, 0);
  }
}

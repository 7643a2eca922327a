/** The step loop's history follows from the log of what it did, job by job: which jobs are
    pending and since when, which stores are prepared, and the lives of the reaped jobs. */
module LoopLogs {
  import opened Common
  import opened Inflight
  import opened LoopStates

  /** The pending jobs began as the log says, and no job has an id beyond the last. */
  ghost predicate PendingTold(begun: map<nat, Birth>, loads: map<nat, real>, stores: map<nat, real>,
                              pending: map<nat, Job>, last: nat) {
    && (forall j :: j in begun ==> j <= last)
    && (forall j :: j in pending ==>
          var since := if pending[j].kind == Load then loads else stores;
          j in begun && j in since && begun[j] == Birth(pending[j].kind, Order(pending[j].keys, since[j])))
  }

  /** The prepared stores are the last ones the log says were prepared. */
  ghost predicate PreparedTold(orders: seq<Order>, sends: nat, queue: seq<real>, deferred: seq<Prepared>) {
    && |orders| == sends + |deferred| == sends + |queue|
    && (forall i :: 0 <= i < |deferred| ==> orders[sends + i] == Order(deferred[i].keys, queue[i]))
  }

  ghost predicate ToldPending(log: seq<LoopEvent>, loads: map<nat, real>, stores: map<nat, real>,
                              pending: map<nat, Job>, last: nat) {
    forall k {:trigger Open(log, k)} :: Open(log, k) ==> PendingTold(Begun(log), loads, stores, pending, last)
  }

  ghost predicate ToldPrepared(log: seq<LoopEvent>, queue: seq<real>, deferred: seq<Prepared>) {
    forall k {:trigger Open(log, k)} :: Open(log, k) ==> PreparedTold(Orders(log), Sends(log), queue, deferred)
  }

  ghost predicate ToldLives(kind: Kind, log: seq<LoopEvent>, lives: seq<Life>) {
    forall k {:trigger Open(log, k)} :: Open(log, k) ==> lives == Lives(kind, log)
  }

  /** Every reaping in the log is of a job begun before. */
  ghost predicate ReapsBegun(log: seq<LoopEvent>) {
    forall i :: 0 <= i < |log| && log[i].ReapedAt? ==> log[i].job in Begun(log[..i])
  }

  ghost predicate ToldReaps(log: seq<LoopEvent>) {
    forall k {:trigger Open(log, k)} :: Open(log, k) ==> ReapsBegun(log)
  }

  ghost predicate ReapedOnce(t: Timeline, last: nat) {
    forall k {:trigger Open(t, k)} :: Open(t, k) ==> Once(t, last)
  }

  /** The history follows from what happened: the pending jobs and the prepared stores began, and
      the reaped jobs began and ended, as the log says; every job is reaped at most once. */
  ghost predicate Told(h: History, pending: map<nat, Job>, deferred: seq<Prepared>, last: nat) {
    && ToldPending(h.log, h.loads.time.since, h.stores.time.since, pending, last)
    && ToldPrepared(h.log, h.stores.time.queue, deferred)
    && ToldLives(Load, h.log, h.loads.time.lives)
    && ToldLives(Store, h.log, h.stores.time.lives)
    && ToldReaps(h.log)
    && ReapedOnce(h.loads.time, last)
    && ReapedOnce(h.stores.time, last)
  }

  lemma OnceMore(t: Timeline, last: nat, now: real)
    requires ReapedOnce(t, last)
    ensures ReapedOnce(t, last + 1) && ReapedOnce(Opened(t, last + 1, now), last + 1)
    ensures ReapedOnce(Queued(t, now), last) && ReapedOnce(Dequeued(t, last + 1), last + 1)
  {
    assert Open(t, 0);
  }

  lemma OnceClosed(t: Timeline, j: nat, keys: seq<Key>, now: real, last: nat)
    requires ReapedOnce(t, last)
    ensures ReapedOnce(Closed(t, j, keys, now), last)
  {
    assert Open(t, 0);
  }

  lemma ReapsNext(log: seq<LoopEvent>, e: LoopEvent)
    requires ToldReaps(log) && (e.ReapedAt? ==> e.job in Begun(log))
    ensures ToldReaps(log + [e])
  {
    assert Open(log, 0);
    var log' := log + [e];
    forall i | 0 <= i < |log'| && log'[i].ReapedAt? ensures log'[i].job in Begun(log'[..i]) {
      assert log'[..i] == log[..i];
      assert log[..|log|] == log;
    }
  }

  /** Reaping aside, an event changes no life. */
  lemma LivesSame(kind: Kind, log: seq<LoopEvent>, lives: seq<Life>, e: LoopEvent)
    requires ToldLives(kind, log, lives) && !e.ReapedAt?
    ensures ToldLives(kind, log + [e], lives)
  {
    assert Open(log, 0);
    LivesNext(kind, log, e);
  }

  lemma LivesReaped(kind: Kind, log: seq<LoopEvent>, t: Timeline, loads: map<nat, real>, stores: map<nat, real>,
                    pending: map<nat, Job>, last: nat, j: nat, now: real)
    requires ToldLives(kind, log, t.lives) && ToldPending(log, loads, stores, pending, last) && j in pending
    requires t.since == if kind == Load then loads else stores
    ensures ToldLives(kind, log + [ReapedAt(j, now)],
                      if pending[j].kind == kind then Closed(t, j, pending[j].keys, now).lives else t.lives)
  {
    assert Open(log, 0);
    LivesNext(kind, log, ReapedAt(j, now));
  }

  lemma PendingLater(log: seq<LoopEvent>, loads: map<nat, real>, stores: map<nat, real>, pending: map<nat, Job>,
                     last: nat)
    requires ToldPending(log, loads, stores, pending, last)
    ensures ToldPending(log, loads, stores, pending, last + 1)
  {
    assert Open(log, 0);
  }

  lemma PendingBegun(begun: map<nat, Birth>, loads: map<nat, real>, stores: map<nat, real>, pending: map<nat, Job>,
                     last: nat, job: Job, start: real)
    requires PendingTold(begun, loads, stores, pending, last)
    ensures PendingTold(begun[last + 1 := Birth(job.kind, Order(job.keys, start))],
                        if job.kind == Load then loads[last + 1 := start] else loads,
                        if job.kind == Load then stores else stores[last + 1 := start],
                        pending[last + 1 := job], last + 1)
  {
  }

  lemma PendingStarted(log: seq<LoopEvent>, loads: map<nat, real>, stores: map<nat, real>, pending: map<nat, Job>,
                       last: nat, job: Job, now: real)
    requires ToldPending(log, loads, stores, pending, last) && job.kind == Load
    ensures ToldPending(log + [StartedAt(last + 1, job.keys, now)], loads[last + 1 := now], stores,
                        pending[last + 1 := job], last + 1)
  {
    assert Open(log, 0);
    LogNext(log, StartedAt(last + 1, job.keys, now));
    PendingBegun(Begun(log), loads, stores, pending, last, job, now);
  }

  lemma PendingSent(log: seq<LoopEvent>, loads: map<nat, real>, stores: map<nat, real>, pending: map<nat, Job>,
                    last: nat, job: Job, queue: seq<real>, deferred: seq<Prepared>)
    requires ToldPending(log, loads, stores, pending, last) && ToldPrepared(log, queue, deferred)
    requires deferred != [] && job.kind == Store && job.keys == deferred[0].keys
    ensures queue != []
    ensures ToldPending(log + [SentAs(last + 1)], loads, stores[last + 1 := queue[0]], pending[last + 1 := job],
                        last + 1)
  {
    assert Open(log, 0);
    LogNext(log, SentAs(last + 1));
    PreparedSent(Orders(log), Sends(log), queue, deferred);
    PendingBegun(Begun(log), loads, stores, pending, last, job, queue[0]);
  }

  lemma PendingSame(log: seq<LoopEvent>, loads: map<nat, real>, stores: map<nat, real>, pending: map<nat, Job>,
                    last: nat, e: LoopEvent)
    requires ToldPending(log, loads, stores, pending, last) && (e.PreparedAt? || e.ReapedAt?)
    ensures ToldPending(log + [e], loads, stores, pending, last)
  {
    assert Open(log, 0);
    LogNext(log, e);
  }

  lemma PendingReaped(log: seq<LoopEvent>, loads: map<nat, real>, stores: map<nat, real>, pending: map<nat, Job>,
                      last: nat, j: nat)
    requires ToldPending(log, loads, stores, pending, last) && j in pending
    ensures ToldPending(log, if pending[j].kind == Load then loads - {j} else loads,
                        if pending[j].kind == Load then stores else stores - {j}, pending - {j}, last)
  {
    assert Open(log, 0);
  }

  lemma PreparedSent(orders: seq<Order>, sends: nat, queue: seq<real>, deferred: seq<Prepared>)
    requires PreparedTold(orders, sends, queue, deferred) && deferred != []
    ensures orders[sends] == Order(deferred[0].keys, queue[0])
    ensures PreparedTold(orders, sends + 1, queue[1..], deferred[1..])
  {
    assert orders[sends + 0] == Order(deferred[0].keys, queue[0]);
    forall i | 0 <= i < |deferred| - 1 ensures orders[sends + 1 + i] == Order(deferred[1..][i].keys, queue[1..][i]) {
      assert orders[sends + (i + 1)] == Order(deferred[i + 1].keys, queue[i + 1]);
    }
  }

  lemma PreparedSame(log: seq<LoopEvent>, queue: seq<real>, deferred: seq<Prepared>, e: LoopEvent)
    requires ToldPrepared(log, queue, deferred) && (e.StartedAt? || e.ReapedAt?)
    ensures ToldPrepared(log + [e], queue, deferred)
  {
    assert Open(log, 0);
    LogNext(log, e);
  }

  lemma PreparedMore(log: seq<LoopEvent>, queue: seq<real>, deferred: seq<Prepared>, p: Prepared, now: real)
    requires ToldPrepared(log, queue, deferred)
    ensures ToldPrepared(log + [PreparedAt(p.keys, now)], queue + [now], deferred + [p])
  {
    assert Open(log, 0);
    LogNext(log, PreparedAt(p.keys, now));
  }

  lemma PreparedLess(log: seq<LoopEvent>, queue: seq<real>, deferred: seq<Prepared>, j: nat)
    requires ToldPrepared(log, queue, deferred) && deferred != []
    ensures queue != [] && ToldPrepared(log + [SentAs(j)], queue[1..], deferred[1..])
  {
    assert Open(log, 0);
    LogNext(log, SentAs(j));
    PreparedSent(Orders(log), Sends(log), queue, deferred);
  }

  lemma ToldLater(h: History, pending: map<nat, Job>, deferred: seq<Prepared>, last: nat)
    requires Told(h, pending, deferred, last)
    ensures Told(h, pending, deferred, last + 1)
  {
    PendingLater(h.log, h.loads.time.since, h.stores.time.since, pending, last);
    OnceMore(h.loads.time, last, 0.0);
    OnceMore(h.stores.time, last, 0.0);
  }

  lemma LaunchedTold(st: LoopState, h: History, hits: seq<Key>, tag: nat, now: real)
    requires Told(h, st.pending, st.deferred, st.jobId) && st.loads.free != []
    ensures Told(HistoryLaunched(NextId(st), h, hits, now), Launched(NextId(st), hits, tag, now).pending, st.deferred,
                 st.jobId + 1)
  {
    var e := StartedAt(st.jobId + 1, hits, now);
    PendingStarted(h.log, h.loads.time.since, h.stores.time.since, st.pending, st.jobId,
                   Job(Load, hits, st.loads.free[0], tag), now);
    PreparedSame(h.log, h.stores.time.queue, st.deferred, e);
    ReapsNext(h.log, e);
    LivesSame(Load, h.log, h.loads.time.lives, e);
    LivesSame(Store, h.log, h.stores.time.lives, e);
    OnceMore(h.loads.time, st.jobId, now);
    OnceMore(h.stores.time, st.jobId, now);
  }

  lemma ReservedTold(st: LoopState, h: History, keys: seq<Key>, tag: nat, now: real)
    requires Told(h, st.pending, st.deferred, st.jobId) && st.stores.free != []
    ensures Told(HistoryReserved(st, h, keys, now), st.pending, Reserved(st, keys, tag, now).deferred, st.jobId)
  {
    var e := PreparedAt(keys, now);
    PendingSame(h.log, h.loads.time.since, h.stores.time.since, st.pending, st.jobId, e);
    PreparedMore(h.log, h.stores.time.queue, st.deferred, Prepared(keys, st.stores.free[0], tag), now);
    ReapsNext(h.log, e);
    LivesSame(Load, h.log, h.loads.time.lives, e);
    LivesSame(Store, h.log, h.stores.time.lives, e);
    OnceMore(h.stores.time, st.jobId, now);
  }

  lemma SentTold(st: LoopState, h: History)
    requires Told(h, st.pending, st.deferred, st.jobId) && st.deferred != []
    ensures Told(HistorySent(NextId(st), h), Sent(NextId(st)).pending, Sent(NextId(st)).deferred, st.jobId + 1)
  {
    var e, p := SentAs(st.jobId + 1), st.deferred[0];
    PendingSent(h.log, h.loads.time.since, h.stores.time.since, st.pending, st.jobId,
                Job(Store, p.keys, p.slot, p.tag), h.stores.time.queue, st.deferred);
    PreparedLess(h.log, h.stores.time.queue, st.deferred, st.jobId + 1);
    ReapsNext(h.log, e);
    LivesSame(Load, h.log, h.loads.time.lives, e);
    LivesSame(Store, h.log, h.stores.time.lives, e);
    OnceMore(h.loads.time, st.jobId, 0.0);
    OnceMore(h.stores.time, st.jobId, 0.0);
  }

  lemma RetiredTold(pending: map<nat, Job>, deferred: seq<Prepared>, h: History, j: nat, now: real, last: nat)
    requires Told(h, pending, deferred, last) && j in pending
    ensures Told(HistoryRetired(pending, h, j, now), pending - {j}, deferred, last)
  {
    var e, loads, stores := ReapedAt(j, now), h.loads.time, h.stores.time;
    PendingSince(h.log, loads.since, stores.since, pending, last, j);
    ReapsNext(h.log, e);
    LivesReaped(Load, h.log, loads, loads.since, stores.since, pending, last, j, now);
    LivesReaped(Store, h.log, stores, loads.since, stores.since, pending, last, j, now);
    PendingReaped(h.log, loads.since, stores.since, pending, last, j);
    PendingSame(h.log, if pending[j].kind == Load then loads.since - {j} else loads.since,
                if pending[j].kind == Load then stores.since else stores.since - {j}, pending - {j}, last, e);
    PreparedSame(h.log, stores.queue, deferred, e);
    OnceClosed(loads, j, pending[j].keys, now, last);
    OnceClosed(stores, j, pending[j].keys, now, last);
  }

  lemma PendingSince(log: seq<LoopEvent>, loads: map<nat, real>, stores: map<nat, real>, pending: map<nat, Job>,
                     last: nat, j: nat)
    requires ToldPending(log, loads, stores, pending, last) && j in pending
    ensures j in Begun(log) && j in if pending[j].kind == Load then loads else stores
  {
    assert Open(log, 0);
  }
}

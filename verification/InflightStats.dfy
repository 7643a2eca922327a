/** Per-direction accounting of the in-flight passes: blocks, jobs and misses, and the
    running integral of the number of jobs outstanding over time. */
module Inflight {
  import opened Common

  /** `misses` counts, for loads, keys whose lookup missed and, for stores, keys not reserved. */
  datatype Stats = Stats(blocks: nat, jobs: nat, misses: nat, area: real, tLast: Option<real>)

  const NO_STATS := Stats(0, 0, 0, 0.0, None)

  /** n times x, as repeated addition. */
  function Times(n: int, x: real): (r: real)
    decreases if n < 0 then -n else n
  {
    if n == 0 then 0.0 else if n > 0 then Times(n - 1, x) + x else Times(n + 1, x) - x
  }

  lemma {:induction false} TimesIsProduct(n: int, x: real)
    ensures Times(n, x) == n as real * x
    decreases if n < 0 then -n else n
  {
    if n > 0 {
      TimesIsProduct(n - 1, x);
      assert n as real * x == (n - 1) as real * x + x;
    } else if n < 0 {
      TimesIsProduct(n + 1, x);
      assert n as real * x == (n + 1) as real * x - x;
    }
  }

  function Sampled(s: Stats, outstanding: int, now: real): (r: Stats) {
    if s.tLast.Some?
    then s.(area := s.area + Times(outstanding, now - s.tLast.value), tLast := Some(now))
    else s.(tLast := Some(now))
  }

  /** A reaped job: its keys, the sample at which it took its slot and the one at which it was reaped. */
  datatype Life = Life(job: nat, keys: seq<Key>, start: real, reap: real)

  /** One direction's jobs in time: when each submitted job took its slot, when each one still
      prepared took its slot, and the jobs reaped so far, in the order they were reaped. */
  datatype Timeline = Timeline(since: map<nat, real>, queue: seq<real>, lives: seq<Life>)

  const NO_TIME := Timeline(map[], [], [])

  /** A job takes its slot and is submitted at once. */
  ghost function Opened(t: Timeline, job: nat, now: real): Timeline {
    t.(since := t.since[job := now])
  }

  /** A job takes its slot and waits to be submitted. */
  ghost function Queued(t: Timeline, now: real): Timeline {
    t.(queue := t.queue + [now])
  }

  /** The job that has waited longest is submitted. */
  ghost function Dequeued(t: Timeline, job: nat): Timeline {
    if t.queue == [] then t else t.(since := t.since[job := t.queue[0]], queue := t.queue[1..])
  }

  /** A submitted job is reaped. */
  ghost function Closed(t: Timeline, job: nat, keys: seq<Key>, now: real): Timeline {
    if job !in t.since then t else
      t.(since := t.since - {job}, lives := t.lives + [Life(job, keys, t.since[job], now)])
  }

  /** Summed age, at time t, of the submitted jobs. */
  ghost function Ages(since: map<nat, real>, t: real): real
    decreases |since|
  {
    if since == map[] then 0.0 else
      var s :| s in since;
      (t - since[s]) + Ages(since - {s}, t)
  }

  /** Summed age, at time t, of the prepared jobs. */
  ghost function QueueAges(queue: seq<real>, t: real): real {
    if queue == [] then 0.0 else (t - queue[0]) + QueueAges(queue[1..], t)
  }

  /** Summed residence time of the reaped jobs. */
  ghost function Residence(lives: seq<Life>): real {
    if lives == [] then 0.0
    else Residence(lives[..|lives| - 1]) + (lives[|lives| - 1].reap - lives[|lives| - 1].start)
  }

  /** The running area is the residence time of the reaped jobs plus the age, at the last
      sample, of the outstanding ones. */
  ghost predicate AreaOk(s: Stats, t: Timeline) {
    && (s.tLast.None? ==> t == NO_TIME)
    && s.area == Residence(t.lives) +
       (if s.tLast.Some? then Ages(t.since, s.tLast.value) + QueueAges(t.queue, s.tLast.value) else 0.0)
  }

  /** Each job is reaped once, and no reaped job is outstanding; no id is beyond the last one used. */
  ghost predicate Once(t: Timeline, last: nat) {
    && (forall i, k :: 0 <= i < k < |t.lives| ==> t.lives[i].job != t.lives[k].job)
    && (forall i :: 0 <= i < |t.lives| ==> t.lives[i].job !in t.since && t.lives[i].job <= last)
    && (forall j :: j in t.since ==> j <= last)
  }

  lemma {:induction false} AgesRemove(since: map<nat, real>, s: nat, t: real)
    requires s in since
    ensures Ages(since, t) == (t - since[s]) + Ages(since - {s}, t)
    decreases |since|
  {
    var p :| p in since && Ages(since, t) == (t - since[p]) + Ages(since - {p}, t);
    if p != s {
      AgesRemove(since - {p}, s, t);
      AgesRemove(since - {s}, p, t);
      assert since - {p} - {s} == since - {s} - {p};
    }
  }

  lemma AgesInsert(since: map<nat, real>, s: nat, start: real, t: real)
    requires s !in since
    ensures Ages(since[s := start], t) == (t - start) + Ages(since, t)
  {
    AgesRemove(since[s := start], s, t);
    assert since[s := start] - {s} == since;
  }

  /** Between two samples every submitted job ages by the elapsed time. */
  lemma {:induction false} AgesAdvance(since: map<nat, real>, t: real, u: real)
    ensures Ages(since, u) == Ages(since, t) + Times(|since|, u - t)
    decreases |since|
  {
    if since != map[] {
      var s :| s in since;
      AgesRemove(since, s, t);
      AgesRemove(since, s, u);
      AgesAdvance(since - {s}, t, u);
      assert |since| == |since - {s}| + 1;
    }
  }

  /** And so does every prepared one. */
  lemma {:induction false} QueueAdvance(queue: seq<real>, t: real, u: real)
    ensures QueueAges(queue, u) == QueueAges(queue, t) + Times(|queue|, u - t)
  {
    if queue != [] {
      QueueAdvance(queue[1..], t, u);
    }
  }

  lemma {:induction false} QueueAppend(queue: seq<real>, start: real, t: real)
    ensures QueueAges(queue + [start], t) == QueueAges(queue, t) + (t - start)
  {
    if queue != [] {
      QueueAppend(queue[1..], start, t);
      assert (queue + [start])[1..] == queue[1..] + [start];
    }
  }

  lemma {:induction false} TimesSum(m: nat, n: nat, x: real)
    ensures Times(m + n, x) == Times(m, x) + Times(n, x)
  {
    if n > 0 {
      TimesSum(m, n - 1, x);
    }
  }

  /** A sample taken with the true number of outstanding jobs keeps the area right. */
  lemma AreaSampled(s: Stats, t: Timeline, now: real)
    requires AreaOk(s, t)
    ensures AreaOk(Sampled(s, |t.since| + |t.queue|, now), t)
  {
    if s.tLast.Some? {
      AgesAdvance(t.since, s.tLast.value, now);
      QueueAdvance(t.queue, s.tLast.value, now);
      TimesSum(|t.since|, |t.queue|, now - s.tLast.value);
    }
  }

  /** A job takes a slot at the moment of the last sample. */
  lemma AreaOpened(s: Stats, t: Timeline, job: nat, now: real)
    requires AreaOk(s, t) && s.tLast == Some(now) && job !in t.since
    ensures AreaOk(s, Opened(t, job, now))
  {
    AgesInsert(t.since, job, now, now);
  }

  /** So does one that waits to be submitted. */
  lemma AreaQueued(s: Stats, t: Timeline, now: real)
    requires AreaOk(s, t) && s.tLast == Some(now)
    ensures AreaOk(s, Queued(t, now))
  {
    QueueAppend(t.queue, now, now);
  }

  /** Submitting a prepared job keeps its start. */
  lemma AreaDequeued(s: Stats, t: Timeline, job: nat)
    requires AreaOk(s, t) && t.queue != [] && job !in t.since
    ensures AreaOk(s, Dequeued(t, job))
  {
    if s.tLast.Some? {
      AgesInsert(t.since, job, t.queue[0], s.tLast.value);
    }
  }

  /** A job is reaped at the moment of the last sample. */
  lemma AreaClosed(s: Stats, t: Timeline, job: nat, keys: seq<Key>, now: real)
    requires AreaOk(s, t) && s.tLast == Some(now) && job in t.since
    ensures AreaOk(s, Closed(t, job, keys, now))
  {
    AgesRemove(t.since, job, now);
    var lives := Closed(t, job, keys, now).lives;
    assert lives[..|lives| - 1] == t.lives;
  }
}

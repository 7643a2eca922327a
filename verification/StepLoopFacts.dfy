/** What the step loop's invariant says about a running loop: which jobs hold which GPU
    blocks, which keys are pinned while a rank is transferring them, what the area kept by the
    statistics means, and how a pin can leak. */
module StepLoopFacts {
  import opened Common
  import opened Inflight
  import opened LoopStates
  import opened LoopLogs
  import opened TensorParallel
  import opened StepLoops

  // --- GPU block ranges ---

  /** The GPU block a slot starts at: load slots first, then store slots. */
  function Base(sz: Sizes, kind: Kind, slot: nat): (r: nat) {
    if kind == Load then slot * sz.loadJobBlocks
    else sz.loadSlots * sz.loadJobBlocks + slot * sz.storeJobBlocks
  }

  /** GPU blocks all slots of both directions take together. */
  function TotalBlocks(sz: Sizes): (r: nat) {
    sz.loadSlots * sz.loadJobBlocks + sz.storeSlots * sz.storeJobBlocks
  }

  /** An outstanding job's claim on GPU blocks, submitted or still deferred. */
  datatype Claim = OfJob(job: nat) | OfDeferred(index: nat)

  ghost predicate Outstanding(st: LoopState, c: Claim) {
    match c
    case OfJob(j) => j in st.pending
    case OfDeferred(i) => i < |st.deferred|
  }

  ghost function First(sz: Sizes, st: LoopState, c: Claim): nat
    requires Outstanding(st, c)
  {
    match c
    case OfJob(j) => Base(sz, st.pending[j].kind, st.pending[j].slot)
    case OfDeferred(i) => Base(sz, Store, st.deferred[i].slot)
  }

  ghost function Size(st: LoopState, c: Claim): nat
    requires Outstanding(st, c)
  {
    match c
    case OfJob(j) => |st.pending[j].keys|
    case OfDeferred(i) => |st.deferred[i].keys|
  }

  lemma Gap(a: nat, b: nat, size: nat)
    requires a < b
    ensures a * size + size <= b * size
  {
    assert (a + 1) * size <= b * size;
  }

  lemma KindAndSlot(sz: Sizes, st: LoopState, b: Books, c: Claim) returns (kind: Kind, slot: nat)
    requires Sound(sz, st, b) && Outstanding(st, c)
    ensures First(sz, st, c) == Base(sz, kind, slot)
    ensures Size(st, c) <= if kind == Load then sz.loadJobBlocks else sz.storeJobBlocks
    ensures slot < if kind == Load then sz.loadSlots else sz.storeSlots
    ensures slot in (if kind == Load then b.hist.loads else b.hist.stores).held
    ensures (if kind == Load then b.hist.loads else b.hist.stores).held[slot] ==
            match c case OfJob(j) => Submitted(j) case OfDeferred(_) => Deferred
    ensures c.OfDeferred? ==> kind == Store && st.deferred[c.index].slot == slot
  {
    Unseal(sz, st, b);
    assert Open(st.loads, 0) && Open(st.stores, 0);
    match c {
      case OfJob(j) => kind, slot := st.pending[j].kind, st.pending[j].slot;
      case OfDeferred(i) => kind, slot := Store, st.deferred[i].slot;
    }
  }

  /** Two outstanding jobs never address the same GPU block. */
  lemma RangesDisjoint(sz: Sizes, st: LoopState, b: Books, c: Claim, d: Claim)
    requires Sound(sz, st, b) && Outstanding(st, c) && Outstanding(st, d) && c != d
    ensures First(sz, st, c) + Size(st, c) <= First(sz, st, d) || First(sz, st, d) + Size(st, d) <= First(sz, st, c)
  {
    var kind, slot := KindAndSlot(sz, st, b, c);
    var kind', slot' := KindAndSlot(sz, st, b, d);
    if kind == kind' {
      assert slot != slot' by {
        if c.OfDeferred? && d.OfDeferred? {
          Unseal(sz, st, b);
          assert Open(st.stores, 0);
        }
      }
    }
    SlotsApart(sz, kind, slot, kind', slot');
  }

  lemma SlotsApart(sz: Sizes, kind: Kind, slot: nat, kind': Kind, slot': nat)
    requires kind != kind' || slot != slot'
    requires slot < if kind == Load then sz.loadSlots else sz.storeSlots
    requires slot' < if kind' == Load then sz.loadSlots else sz.storeSlots
    ensures var size := if kind == Load then sz.loadJobBlocks else sz.storeJobBlocks;
            var size' := if kind' == Load then sz.loadJobBlocks else sz.storeJobBlocks;
            Base(sz, kind, slot) + size <= Base(sz, kind', slot') ||
              Base(sz, kind', slot') + size' <= Base(sz, kind, slot)
  {
    if kind == kind' {
      var size := if kind == Load then sz.loadJobBlocks else sz.storeJobBlocks;
      if slot < slot' {
        Gap(slot, slot', size);
      } else {
        Gap(slot', slot, size);
      }
    } else if kind == Load {
      Gap(slot, sz.loadSlots, sz.loadJobBlocks);
    } else {
      Gap(slot', sz.loadSlots, sz.loadJobBlocks);
    }
  }

  /** Every outstanding job's GPU blocks lie below the slots' total. */
  lemma RangesBounded(sz: Sizes, st: LoopState, b: Books, c: Claim)
    requires Sound(sz, st, b) && Outstanding(st, c)
    ensures First(sz, st, c) + Size(st, c) <= TotalBlocks(sz)
  {
    var kind, slot := KindAndSlot(sz, st, b, c);
    if kind == Load {
      Gap(slot, sz.loadSlots, sz.loadJobBlocks);
    } else {
      Gap(slot, sz.storeSlots, sz.storeJobBlocks);
    }
  }

  // --- Outstanding counts ---

  ghost function JobsOf(kind: Kind, pending: map<nat, Job>): set<nat> {
    set j | j in pending && pending[j].kind == kind
  }

  lemma {:induction false} HeldCount(kind: Kind, held: map<nat, Holder>, pending: map<nat, Job>,
                                     deferred: seq<Prepared>)
    requires HeldByPending(kind, held, pending) && HeldByDeferred(held, deferred)
    ensures |held| == |JobsOf(kind, pending)| + |deferred|
    decreases |deferred|
  {
    if deferred == [] {
      SubmittedCount(kind, held, pending);
    } else {
      var slot := deferred[|deferred| - 1].slot;
      LastDeferred(held, deferred);
      assert (held - {slot}).Keys == held.Keys - {slot};
      assert HeldByPending(kind, held - {slot}, pending);
      HeldCount(kind, held - {slot}, pending, deferred[..|deferred| - 1]);
    }
  }

  lemma {:induction false} SubmittedCount(kind: Kind, held: map<nat, Holder>, pending: map<nat, Job>)
    requires HeldByPending(kind, held, pending)
    requires forall s :: s in held ==> held[s].Submitted?
    ensures |held| == |JobsOf(kind, pending)|
    decreases |held|
  {
    if held == map[] {
      assert JobsOf(kind, pending) == {};
    } else {
      var s: nat :| s in held;
      var j := held[s].job;
      HeldRemoved(kind, held, pending, j);
      assert (held - {s}).Keys == held.Keys - {s};
      assert |JobsOf(kind, pending)| == |JobsOf(kind, pending - {j})| + 1 by {
        assert JobsOf(kind, pending) == JobsOf(kind, pending - {j}) + {j};
      }
      SubmittedCount(kind, held - {s}, pending - {j});
    }
  }

  lemma LastDeferred(held: map<nat, Holder>, deferred: seq<Prepared>)
    requires HeldByDeferred(held, deferred) && deferred != []
    ensures HeldByDeferred(held - {deferred[|deferred| - 1].slot}, deferred[..|deferred| - 1])
  {
    var n := |deferred| - 1;
    var held' := held - {deferred[n].slot};
    forall s | s in held' && held'[s].Deferred? ensures exists i :: 0 <= i < n && deferred[..n][i].slot == s {
      var i :| 0 <= i < |deferred| && deferred[i].slot == s;
      assert deferred[..n][i].slot == s;
    }
  }

  /** n_load and n_store are the numbers of outstanding jobs. */
  lemma CountsRight(sz: Sizes, st: LoopState, b: Books)
    requires Sound(sz, st, b)
    ensures st.loads.n == |JobsOf(Load, st.pending)|
    ensures st.stores.n == |JobsOf(Store, st.pending)| + |st.deferred|
  {
    Unseal(sz, st, b);
    assert Open(st.loads, 0) && Open(st.stores, 0);
    HeldCount(Load, b.hist.loads.held, st.pending, []);
    HeldCount(Store, b.hist.stores.held, st.pending, st.deferred);
  }

  // --- Pins and ranks ---

  /** A pending load's keys are pinned and a pending store's are reserved. */
  lemma HeldWhilePending(sz: Sizes, st: LoopState, b: Books, j: nat)
    requires Sound(sz, st, b) && j in st.pending
    ensures Releasable(b, st.pending[j].kind, st.pending[j].keys)
  {
    Unseal(sz, st, b);
    RetiredBalanced(st, b, j, true, true, 0.0);
  }

  /** While a rank that was sent a job has not yet reported it, the loop has the job pending
      exactly if the job's submission did not raise, and a pending job's keys are held. What
      becomes of the keys after a submission that raised is said by StrayLoad, StrayStore,
      PreparedFinal and FinalFate. */
  lemma HeldWhileTransferring(loop: StepLoop, j: nat, r: nat)
    requires loop.Valid() && j in loop.worker.phase && r < |loop.worker.phase[j]|
    requires !loop.worker.phase[j][r].Acked? && !loop.worker.phase[j][r].Unsent?
    ensures j in loop.st.pending <==> !Orphan(loop.worker.phase[j])
    ensures j in loop.st.pending ==> Releasable(loop.books, loop.st.pending[j].kind, loop.st.pending[j].keys)
  {
    assert j in loop.worker.outstanding <==> !Orphan(loop.worker.phase[j]) by {
      StillCounted(loop.worker.world, loop.worker.net, loop.worker.phase, loop.worker.outstanding, j, r);
    }
    if j in loop.st.pending {
      HeldWhilePending(loop.sz, loop.st, loop.books, j);
    }
  }

  /** A claim given back in one call is gone exactly if it was empty or that call is not in the
      plan; otherwise its keys stay held, once more each. Nothing else changes. */
  lemma GivenBackExactly(b: Books, b': Books, kind: Kind, keys: seq<Key>, call: nat, faults: set<nat>)
    requires GaveBack(b, b', kind, keys, call, faults)
    ensures b'.pins == if kind == Load && call in faults then b.pins + multiset(keys) else b.pins
    ensures b'.reserved == if kind == Store && call in faults then b.reserved + multiset(keys) else b.reserved
    ensures b'.pins == b.pins && b'.reserved == b.reserved <==> keys == [] || call !in faults
  {
    assert Open(b', 0);
    Grown(b.pins, keys);
    Grown(b.reserved, keys);
  }

  lemma Grown(a: multiset<Key>, keys: seq<Key>)
    ensures a + multiset(keys) - multiset(keys) == a
    ensures a + multiset(keys) == a <==> keys == []
  {
    if keys != [] {
      assert (a + multiset(keys))[keys[0]] > a[keys[0]];
    }
  }

  /** A load whose submission raises after its keys were pinned, in any loop: the ranks reached
      have the job and the loop does not. The handler gives the pins back; they are what they
      were exactly if there are none or the handler's call is not in the plan. */
  method StrayLoad(loop: StepLoop, hits: seq<Key>, tag: nat, now: real) returns (ghost j: nat)
    requires loop.Valid() && loop.st.loads.free != [] && |hits| <= loop.sz.loadJobBlocks
    requires loop.calls !in loop.faults && loop.worker.submits in loop.worker.faults
    modifies loop, loop.worker
    ensures loop.Valid() && j !in loop.st.pending && j in loop.worker.phase
    ensures loop.worker.phase[j] == PartlyStarted(loop.worker.world, loop.worker.Reached(old(loop.worker.submits)))
    ensures loop.books.reserved == old(loop.books.reserved)
    ensures loop.books.pins == old(loop.books.pins) <==> hits == [] || old(loop.calls) + 1 !in loop.faults
    ensures old(loop.calls) + 1 in loop.faults ==> loop.books.pins == old(loop.books.pins) + multiset(hits)
  {
    var o := loop.StartLoadHits(hits, tag, now);
    j := loop.st.jobId;
    assert loop.worker.phase[j][0].Unsent?;
    GivenBackExactly(old(loop.books), loop.books, Load, hits, old(loop.calls) + 1, loop.faults);
    Unknown(loop, j);
  }

  /** A job whose submission raised is not pending. */
  lemma Unknown(loop: StepLoop, j: nat)
    requires loop.Valid() && j in loop.worker.phase && Orphan(loop.worker.phase[j])
    ensures j !in loop.st.pending
  {
    var r :| 0 <= r < |loop.worker.phase[j]| && loop.worker.phase[j][r].Unsent?;
    StillCounted(loop.worker.world, loop.worker.net, loop.worker.phase, loop.worker.outstanding, j, r);
  }

  /** A prepared store's keys are reserved. */
  lemma HeldWhilePrepared(sz: Sizes, st: LoopState, b: Books, i: nat)
    requires Sound(sz, st, b) && i < |st.deferred|
    ensures Releasable(b, Store, st.deferred[i].keys)
  {
    Unseal(sz, st, b);
    Audit(st, b);
    PreparedPart(st.deferred, i);
    Within(multiset(st.deferred[i].keys), PreparedKeys(st.deferred), ReservationsHeld(st), b.reserved);
  }

  lemma Within(a: multiset<Key>, b: multiset<Key>, c: multiset<Key>, d: multiset<Key>)
    requires a <= b <= c <= d
    ensures a <= d
  {
  }

  lemma {:induction false} PreparedPart(deferred: seq<Prepared>, i: nat)
    requires i < |deferred|
    ensures multiset(deferred[i].keys) <= PreparedKeys(deferred)
  {
    if i > 0 {
      PreparedPart(deferred[1..], i - 1);
    }
  }

  /** A store whose submission raises, in any loop: the ranks reached have the job, and the store
      stays the first prepared one, with its keys reserved. */
  method StrayStore(loop: StepLoop) returns (o: Outcome, ghost sent: nat)
    requires loop.Valid()
    modifies loop, loop.worker
    ensures loop.Valid() && loop.books.finals == old(loop.books.finals)
    ensures o.Raised? ==> sent < |old(loop.st).deferred| && loop.st.deferred == old(loop.st).deferred[sent..]
    ensures o.Raised? ==> Releasable(loop.books, Store, loop.st.deferred[0].keys)
    ensures o.Raised? && loop.worker.submits > old(loop.worker.submits) + sent ==>
              var n, j := old(loop.worker.submits) + sent, loop.st.jobId;
              && n in loop.worker.faults && loop.worker.world > 0 && j in loop.worker.phase && j !in loop.st.pending
              && loop.worker.phase[j] == PartlyStarted(loop.worker.world, loop.worker.Reached(n))
  {
    ghost var n;
    o, sent, n := loop.SubmitDeferred();
    if o.Raised? {
      HeldWhilePrepared(loop.sz, loop.st, loop.books, 0);
      assert Open(loop.worker, 0);
      if loop.worker.submits > old(loop.worker.submits) + sent {
        assert loop.worker.phase[loop.st.jobId][0].Unsent?;
        Unknown(loop, loop.st.jobId);
      }
    }
  }

  ghost function Without(finals: seq<Final>, i: nat): seq<Final>
    requires i < |finals|
  {
    finals[..i] + finals[i + 1..]
  }

  /** What a final release adds to the keys lost. */
  ghost function Share(kind: Kind, f: Final, faults: set<nat>): multiset<Key> {
    if f.kind == kind && f.call in faults then multiset(f.keys) else multiset{}
  }

  lemma {:induction false} LostShare(kind: Kind, finals: seq<Final>, i: nat, faults: set<nat>)
    requires i < |finals|
    ensures Lost(kind, finals, faults) == Lost(kind, Without(finals, i), faults) + Share(kind, finals[i], faults)
    decreases |finals|
  {
    var n := |finals| - 1;
    LostLast(kind, finals[..n], finals[n], finals, faults);
    if i < n {
      LostShare(kind, finals[..n], i, faults);
      LostLast(kind, Without(finals[..n], i), finals[n], Without(finals, i), faults);
      Reorder(Lost(kind, finals, faults), Lost(kind, finals[..n], faults), Lost(kind, Without(finals, i), faults),
              Lost(kind, Without(finals[..n], i), faults), Share(kind, finals[n], faults),
              Share(kind, finals[i], faults));
    } else {
      assert Without(finals, i) == finals[..n];
    }
  }

  lemma LostLast(kind: Kind, finals: seq<Final>, f: Final, finals': seq<Final>, faults: set<nat>)
    requires finals' == finals + [f]
    ensures Lost(kind, finals', faults) == Lost(kind, finals, faults) + Share(kind, f, faults)
  {
    LostNext(kind, finals, f, faults);
    Nothing(Lost(kind, finals, faults));
  }

  lemma Reorder(all: multiset<Key>, init: multiset<Key>, most: multiset<Key>, rest: multiset<Key>, x: multiset<Key>,
                y: multiset<Key>)
    requires all == init + x && init == rest + y && most == rest + x
    ensures all == most + y
  {
  }

  /** These are the others, and the keys on top exactly if they stay. */
  ghost predicate OnTop(all: multiset<Key>, others: multiset<Key>, keys: seq<Key>, stay: bool) {
    && all == others + (if stay then multiset(keys) else multiset{})
    && (all == others <==> keys == [] || !stay)
  }

  /** What a final release does: what is pinned or reserved is what other claims hold or lost, and
      this one's keys on top exactly if its call is in the plan. */
  lemma FinalFate(st: LoopState, b: Books, faults: set<nat>, k: nat)
    requires Balanced(st, b) && LeaksRight(faults, b) && k < |b.finals|
    ensures b.finals[k].kind == Load ==>
              OnTop(b.pins, PinsHeld(st) + Lost(Load, Without(b.finals, k), faults), b.finals[k].keys,
                    b.finals[k].call in faults)
    ensures b.finals[k].kind == Store ==>
              OnTop(b.reserved, ReservationsHeld(st) + Lost(Store, Without(b.finals, k), faults), b.finals[k].keys,
                    b.finals[k].call in faults)
  {
    LostApart(b, k, faults);
    var f := b.finals[k];
    Apportioned(b.pins, PinsHeld(st), b.leakedPins, Lost(Load, Without(b.finals, k), faults), Load, f, faults);
    Apportioned(b.reserved, ReservationsHeld(st), b.leakedReservations, Lost(Store, Without(b.finals, k), faults),
                Store, f, faults);
  }

  lemma LostApart(b: Books, k: nat, faults: set<nat>)
    requires LeaksRight(faults, b) && k < |b.finals|
    ensures b.leakedPins == Lost(Load, Without(b.finals, k), faults) + Share(Load, b.finals[k], faults)
    ensures b.leakedReservations == Lost(Store, Without(b.finals, k), faults) + Share(Store, b.finals[k], faults)
  {
    assert Open(b.finals, 0);
    LostShare(Load, b.finals, k, faults);
    LostShare(Store, b.finals, k, faults);
  }

  lemma Apportioned(all: multiset<Key>, held: multiset<Key>, leaked: multiset<Key>, lost: multiset<Key>, kind: Kind,
                    f: Final, faults: set<nat>)
    requires all == held + leaked && leaked == lost + Share(kind, f, faults)
    ensures f.kind == kind ==> OnTop(all, held + lost, f.keys, f.call in faults)
  {
    Grown(held + lost, f.keys);
    assert all == held + lost + Share(kind, f, faults);
  }

  /** An abort that started in call n releases prepared store i, submitted in vain or not, in call
      n + i, and for good. */
  lemma PreparedFinal(st: LoopState, finals: seq<Final>, reported: seq<Report>, n: nat, finals': seq<Final>, i: nat)
    requires Legit(reported, st.pending.Keys) && finals' == finals + AbortFinals(st, reported, n) && i < |st.deferred|
    ensures |finals| + i < |finals'| && finals'[|finals| + i] == Final(n + i, Store, st.deferred[i].keys)
  {
    assert PreparedFinals(st.deferred, n)[i] == Final(n + i, Store, st.deferred[i].keys);
  }

  /** The store whose submission raised, after the abort: its reservation was given back in the
      abort's first call, whether or not a rank still has the job, and stays exactly if that call
      is in the plan. */
  method StrayStoreAborted(loop: StepLoop, rounds: nat) returns (o: Outcome, ghost sent: nat, ghost call: nat)
    requires loop.Valid()
    modifies loop, loop.worker
    ensures o.Raised? ==> sent < |old(loop.st).deferred| && |old(loop.books.finals)| < |loop.books.finals|
    ensures o.Raised? ==>
              var k, keys := |old(loop.books.finals)|, old(loop.st).deferred[sent].keys;
              && loop.books.finals[k] == Final(call, Store, keys)
              && OnTop(loop.books.reserved,
                       ReservationsHeld(loop.st) + Lost(Store, Without(loop.books.finals, k), loop.faults),
                       keys, call in loop.faults)
  {
    o, sent := StrayStore(loop);
    call := loop.calls;
    if o.Raised? {
      ghost var st, finals := loop.st, loop.books.finals;
      var clean, reported := loop.Abort(rounds);
      PreparedFinal(st, finals, reported, call, loop.books.finals, 0);
      FinalFate(loop.st, loop.books, loop.faults, |finals|);
    }
  }

  /** A submission that raises after another rank was sent the job lets that rank go on: here two
      ranks, rank 0's own submission raising, and the keys released in the handler while the job
      is in rank 1's pipe. */
  method TransferOutlivesPin(hits: seq<Key>) returns (loop: StepLoop, ghost j: nat)
    ensures loop.books.pins == multiset{} && j !in loop.st.pending
    ensures j in loop.worker.phase && loop.worker.phase[j] == [Unsent, Queued]
  {
    var worker := new TpGroup(2, map[0 := 1]);
    loop := new StepLoop(worker, Sizes(1, |hits|, 0, 0), false, true, false, false, {});
    var o := loop.StartLoadHits(hits, 0, 0.0);
    j := loop.st.jobId;
    assert PartlyStarted(2, 1) == [Unsent, Queued];
    NothingLostTo(loop.books.finals);
    Unseal(loop.sz, loop.st, loop.books);
    Audit(loop.st, loop.books);
    NothingHeld(loop.st, loop.books, {});
  }

  /** The same, but the handler's release raises as well: the job is in rank 1's pipe, and its keys
      stay pinned. */
  method StrayLoadLeaks(hits: seq<Key>) returns (loop: StepLoop, ghost j: nat)
    ensures loop.books.pins == multiset(hits) && j !in loop.st.pending
    ensures j in loop.worker.phase && loop.worker.phase[j] == [Unsent, Queued]
  {
    var worker := new TpGroup(2, map[0 := 1]);
    loop := new StepLoop(worker, Sizes(1, |hits|, 0, 0), false, true, false, false, {1});
    j := StrayLoad(loop, hits, 0, 0.0);
    assert PartlyStarted(2, 1) == [Unsent, Queued];
  }

  lemma NothingLostTo(finals: seq<Final>)
    ensures NothingLost(finals, {})
  {
  }

  // --- The statistics ---

  /** The number of reapings in the log. */
  ghost function Reapings(log: seq<LoopEvent>): nat {
    if log == [] then 0 else Reapings(log[..|log| - 1]) + if log[|log| - 1].ReapedAt? then 1 else 0
  }

  /** Each reaping ends exactly one life, in one direction. */
  lemma {:induction false} LivesCount(log: seq<LoopEvent>)
    requires ReapsBegun(log)
    ensures |Lives(Load, log)| + |Lives(Store, log)| == Reapings(log)
  {
    if log != [] {
      var past := log[..|log| - 1];
      forall i | 0 <= i < |past| && past[i].ReapedAt? ensures past[i].job in Begun(past[..i]) {
        assert log[i].ReapedAt? && log[..i] == past[..i];
      }
      LivesCount(past);
    }
  }

  /** The load area is the sum, over the reaped load jobs, of reap sample minus start sample, plus
      the ages of the outstanding ones at the last sample; once none is outstanding, it is that
      sum. The jobs and their samples are those of the log, each job once, and every reaping in
      the log is there. Likewise for stores. */
  lemma AreaMeaning(sz: Sizes, st: LoopState, b: Books)
    requires Sound(sz, st, b)
    ensures forall i, k :: 0 <= i < k < |Lives(Load, b.hist.log)| ==>
              Lives(Load, b.hist.log)[i].job != Lives(Load, b.hist.log)[k].job
    ensures forall i, k :: 0 <= i < k < |Lives(Store, b.hist.log)| ==>
              Lives(Store, b.hist.log)[i].job != Lives(Store, b.hist.log)[k].job
    ensures st.loads.stats.area == Residence(Lives(Load, b.hist.log)) + Outlived(st.loads.stats, b.hist.loads.time)
    ensures st.stores.stats.area == Residence(Lives(Store, b.hist.log)) + Outlived(st.stores.stats, b.hist.stores.time)
    ensures |Lives(Load, b.hist.log)| + |Lives(Store, b.hist.log)| == Reapings(b.hist.log)
    ensures JobsOf(Load, st.pending) == {} ==> st.loads.stats.area == Residence(Lives(Load, b.hist.log))
    ensures JobsOf(Store, st.pending) == {} && st.deferred == [] ==>
              st.stores.stats.area == Residence(Lives(Store, b.hist.log))
  {
    Unseal(sz, st, b);
    CountOf(b.hist.log);
    AreaOf(Load, st.loads, b.hist.loads, sz.loadSlots, st.pending, [], b.hist.log, st.jobId);
    AreaOf(Store, st.stores, b.hist.stores, sz.storeSlots, st.pending, st.deferred, b.hist.log, st.jobId);
  }

  lemma CountOf(log: seq<LoopEvent>)
    requires ToldReaps(log)
    ensures |Lives(Load, log)| + |Lives(Store, log)| == Reapings(log)
  {
    assert Open(log, 0);
    LivesCount(log);
  }

  /** Summed age, at the last sample, of the outstanding jobs of one direction. */
  ghost function Outlived(s: Stats, t: Timeline): real {
    if s.tLast.Some? then Ages(t.since, s.tLast.value) + QueueAges(t.queue, s.tLast.value) else 0.0
  }

  lemma AreaOf(kind: Kind, side: Side, h: SideHistory, slots: nat, pending: map<nat, Job>, deferred: seq<Prepared>,
               log: seq<LoopEvent>, last: nat)
    requires DirectionOk(kind, side, h, slots, pending, deferred)
    requires ToldLives(kind, log, h.time.lives) && ReapedOnce(h.time, last)
    ensures forall i, k :: 0 <= i < k < |Lives(kind, log)| ==> Lives(kind, log)[i].job != Lives(kind, log)[k].job
    ensures side.stats.area == Residence(Lives(kind, log)) + Outlived(side.stats, h.time)
    ensures JobsOf(kind, pending) == {} && deferred == [] ==> side.stats.area == Residence(Lives(kind, log))
  {
    assert Open(side, 0) && Open(log, 0) && Open(h.time, 0);
    if JobsOf(kind, pending) == {} && deferred == [] {
      assert forall j :: j in h.time.since ==> j in JobsOf(kind, pending);
      assert h.time.since == map[];
    }
  }

  // --- A leak ---

  /** A pin can outlive the run: if the submission of a job's load raises and the unpinning in
      its handler raises too, nothing retries it, and the abort leaves the keys pinned. */
  method UnpinFailureLeaks(hits: seq<Key>) returns (loop: StepLoop)
    requires hits != []
    ensures loop.st.pending == map[] && loop.st.deferred == [] && loop.st.uncompleted == []
    ensures loop.books.pins == multiset(hits)
  {
    var worker := new TpGroup(1, map[0 := 0]);
    loop := new StepLoop(worker, Sizes(1, |hits|, 0, 0), false, true, false, false, {1});
    var o := loop.StartLoadHits(hits, 0, 0.0);
    var f := Final(1, Load, hits);
    assert loop.books.finals == [f];
    ghost var st := loop.st;
    var clean, reported := loop.Abort(1);
    NoneOwed(reported, st.pending.Keys);
    assert st.pending.Keys == {};
    assert loop.books.finals == [f];
    OnlyLost(f, {1});
    NothingHeld(loop.st, loop.books, {1});
    assert Open(loop.books.finals, 0);
  }

  lemma NoneOwed(batch: seq<Report>, owed: set<nat>)
    requires Legit(batch, owed)
    ensures batch != [] ==> owed != {}
  {
    if batch != [] {
      assert batch[0].job in owed;
    }
  }

  lemma OnlyLost(f: Final, faults: set<nat>)
    requires f.kind == Load && f.call in faults
    ensures Lost(Load, [f], faults) == multiset(f.keys)
  {
    assert [f][..0] == [];
  }
}

/** Tensor-parallel fan-out: one coordinator, W ranks, a FIFO pipe each way per rank,
    and a countdown per job. A single worker is the case W = 1. */
module TensorParallel {
  import opened Common

  /** One rank: jobs sent to it and not yet read, transfers under way, and results sent
      back and not yet read. Rank 0 is in the coordinator's process: its inbox stays empty. */
  datatype Rank = Rank(inbox: seq<nat>, running: set<nat>, outbox: seq<Report>)

  /** The coordinator's entry for an outstanding job. */
  datatype Entry = Entry(remaining: nat, ok: bool)

  /** Where one job is on one rank; unsent for good if its submission raised before that rank. */
  datatype Phase = Queued | Running | Finished(ok: bool) | Acked(ok: bool) | Unsent

  /** The phases of every job ever submitted, one per rank. */
  type Phases = map<nat, seq<Phase>>

  // --- What the coordinator has been told of one job ---

  ghost function Unacked(ps: seq<Phase>): nat {
    if ps == [] then 0 else (if ps[0].Acked? then 0 else 1) + Unacked(ps[1..])
  }

  ghost predicate AckedOk(ps: seq<Phase>) {
    forall r :: 0 <= r < |ps| && ps[r].Acked? ==> ps[r].ok
  }

  /** The job's submission raised: some rank was never sent it. */
  ghost predicate Orphan(ps: seq<Phase>) {
    exists r :: 0 <= r < |ps| && ps[r].Unsent?
  }

  lemma OrphanUpdate(ps: seq<Phase>, r: nat, p: Phase)
    requires r < |ps| && !ps[r].Unsent? && !p.Unsent?
    ensures Orphan(ps[r := p]) <==> Orphan(ps)
  {
    var qs := ps[r := p];
    if i :| 0 <= i < |ps| && ps[i].Unsent? {
      assert qs[i].Unsent?;
    }
  }

  /** Every rank has finished the job and told the coordinator. */
  ghost predicate AllAcked(ps: seq<Phase>) {
    forall r :: 0 <= r < |ps| ==> ps[r].Acked?
  }

  lemma {:induction false} UnackedZero(ps: seq<Phase>)
    ensures Unacked(ps) == 0 <==> AllAcked(ps)
  {
    if ps != [] {
      UnackedZero(ps[1..]);
      assert forall r :: 1 <= r < |ps| ==> ps[r] == ps[1..][r - 1];
      assert AllAcked(ps) <==> ps[0].Acked? && AllAcked(ps[1..]);
    }
  }

  lemma {:induction false} UnackedUpdate(ps: seq<Phase>, r: nat, p: Phase)
    requires r < |ps| && !ps[r].Acked?
    ensures Unacked(ps[r := p]) == Unacked(ps) - (if p.Acked? then 1 else 0)
    ensures AckedOk(ps[r := p]) == (AckedOk(ps) && (p.Acked? ==> p.ok))
  {
    if r == 0 {
      assert ps[r := p][1..] == ps[1..];
    } else {
      assert ps[r := p][1..] == ps[1..][r - 1 := p];
      UnackedUpdate(ps[1..], r - 1, p);
    }
    AckedOkUpdate(ps, r, p);
  }

  lemma AckedOkUpdate(ps: seq<Phase>, r: nat, p: Phase)
    requires r < |ps| && !ps[r].Acked?
    ensures AckedOk(ps[r := p]) == (AckedOk(ps) && (p.Acked? ==> p.ok))
  {
    var qs := ps[r := p];
    assert forall i :: 0 <= i < |ps| && i != r ==> qs[i] == ps[i];
    if AckedOk(qs) {
      forall i | 0 <= i < |ps| && ps[i].Acked? ensures ps[i].ok {
        assert qs[i] == ps[i];
      }
      assert qs[r] == p;
    }
  }

  lemma {:induction false} UnackedAll(ps: seq<Phase>)
    requires forall r :: 0 <= r < |ps| ==> !ps[r].Acked?
    ensures Unacked(ps) == |ps|
  {
    if ps != [] {
      UnackedAll(ps[1..]);
    }
  }

  // --- The ranks and their pipes ---

  ghost predicate Shaped(phase: Phases, world: nat) {
    forall j :: j in phase ==> |phase[j]| == world
  }

  /** The pipes and the transfers of rank r agree with the phases of all jobs. */
  ghost predicate RankMatches(rank: Rank, phase: Phases, world: nat, r: nat)
    requires r < world && Shaped(phase, world)
  {
    && NoDup(rank.inbox)
    && (forall j :: j in rank.inbox <==> j in phase && phase[j][r] == Queued)
    && (forall j :: j in rank.running <==> j in phase && phase[j][r] == Running)
    && NoDup(rank.outbox)
    && (forall m :: m in rank.outbox <==> m.job in phase && phase[m.job][r] == Finished(m.ok))
  }

  ghost predicate RanksMatch(ranks: seq<Rank>, phase: Phases, world: nat) {
    && |ranks| == world
    && Shaped(phase, world)
    && forall r: nat :: r < world ==> RankMatches(ranks[r], phase, world, r)
  }

  /** Rank r moves job j from its current phase to p and becomes `rank`. */
  lemma RankMoves(ranks: seq<Rank>, phase: Phases, world: nat, r: nat, j: nat, p: Phase, rank: Rank)
    requires RanksMatch(ranks, phase, world) && r < world && j in phase
    requires RankMatches(rank, phase[j := phase[j][r := p]], world, r)
    ensures RanksMatch(ranks[r := rank], phase[j := phase[j][r := p]], world)
  {
    var phase' := phase[j := phase[j][r := p]];
    var ranks' := ranks[r := rank];
    assert Shaped(phase', world);
    forall q: nat | q < world ensures RankMatches(ranks'[q], phase', world, q) {
      if q != r {
        assert RankMatches(ranks[q], phase, world, q);
        assert phase'[j][q] == phase[j][q];
        assert ranks'[q] == ranks[q];
      }
    }
  }

  lemma ReceiveMatches(rank: Rank, phase: Phases, world: nat, r: nat)
    requires r < world && Shaped(phase, world) && RankMatches(rank, phase, world, r)
    requires rank.inbox != []
    ensures rank.inbox[0] in phase && phase[rank.inbox[0]][r] == Queued
    ensures var j := rank.inbox[0];
            RankMatches(rank.(inbox := rank.inbox[1..], running := rank.running + {j}),
                        phase[j := phase[j][r := Running]], world, r)
  {
    var j := rank.inbox[0];
    var rest := rank.inbox[1..];
    assert rank.inbox == [j] + rest;
    assert j in rank.inbox;
    assert j !in rest;
    assert NoDup(rest) by {
      assert forall i :: 0 <= i < |rest| ==> rest[i] == rank.inbox[i + 1];
    }
    var phase' := phase[j := phase[j][r := Running]];
    forall i ensures i in rest <==> i in phase' && phase'[i][r] == Queued {
      assert i in rank.inbox <==> i == j || i in rest;
    }
  }

  lemma FinishMatches(rank: Rank, phase: Phases, world: nat, r: nat, j: nat, ok: bool)
    requires r < world && Shaped(phase, world) && RankMatches(rank, phase, world, r)
    requires j in rank.running
    ensures j in phase && phase[j][r] == Running
    ensures RankMatches(rank.(running := rank.running - {j}, outbox := rank.outbox + [Report(j, ok)]),
                        phase[j := phase[j][r := Finished(ok)]], world, r)
  {
    var phase' := phase[j := phase[j][r := Finished(ok)]];
    var outbox := rank.outbox + [Report(j, ok)];
    assert Report(j, ok) !in rank.outbox;
    forall m ensures m in outbox <==> m.job in phase' && phase'[m.job][r] == Finished(m.ok) {
      assert m in outbox <==> m in rank.outbox || m == Report(j, ok);
    }
  }

  lemma AckMatches(rank: Rank, phase: Phases, world: nat, r: nat)
    requires r < world && Shaped(phase, world) && RankMatches(rank, phase, world, r)
    requires rank.outbox != []
    ensures var m := rank.outbox[0];
            m.job in phase && phase[m.job][r] == Finished(m.ok)
    ensures var m := rank.outbox[0];
            RankMatches(rank.(outbox := rank.outbox[1..]),
                        phase[m.job := phase[m.job][r := Acked(m.ok)]], world, r)
  {
    var m := rank.outbox[0];
    var rest := rank.outbox[1..];
    assert rank.outbox == [m] + rest;
    assert m in rank.outbox;
    assert m !in rest;
    assert NoDup(rest) by {
      assert forall i :: 0 <= i < |rest| ==> rest[i] == rank.outbox[i + 1];
    }
    var phase' := phase[m.job := phase[m.job][r := Acked(m.ok)]];
    forall n ensures n in rest <==> n.job in phase' && phase'[n.job][r] == Finished(n.ok) {
      assert n in rank.outbox <==> n == m || n in rest;
    }
  }

  // --- The coordinator ---

  ghost predicate EntryMatches(e: Entry, ps: seq<Phase>) {
    e.remaining == Unacked(ps) && e.remaining > 0 && e.ok == AckedOk(ps)
  }

  ghost predicate Reported(done: seq<Report>, j: nat) {
    exists m :: m in done && m.job == j
  }

  /** Countdown and conjunction are right for every job still counted; every other job was
      acknowledged by all ranks, and is in `done` at most once with the right verdict. */
  ghost predicate Booked(pending: map<nat, Entry>, done: seq<Report>, phase: Phases) {
    && (forall j :: j in pending ==> j in phase && EntryMatches(pending[j], phase[j]))
    && (forall j :: j in phase && j !in pending ==> AllAcked(phase[j]))
    && (forall m :: m in done ==> m.job in phase && m.job !in pending && m.ok == AckedOk(phase[m.job]))
    && (forall i, k :: 0 <= i < k < |done| ==> done[i].job != done[k].job)
  }

  /** The job is counted down and will be reported. */
  ghost predicate Due(pending: map<nat, Entry>, phase: Phases, j: nat) {
    j in pending && j in phase && !Orphan(phase[j])
  }

  /** The jobs whose submission returned and that were not yet returned themselves. */
  ghost predicate Owed(outstanding: set<nat>, pending: map<nat, Entry>, done: seq<Report>, phase: Phases) {
    forall j :: j in outstanding <==> Due(pending, phase, j) || Reported(done, j)
  }

  lemma OwedUnderMove(outstanding: set<nat>, pending: map<nat, Entry>, done: seq<Report>, phase: Phases, j: nat, r: nat,
                      p: Phase)
    requires Owed(outstanding, pending, done, phase) && j in phase && r < |phase[j]|
    requires !phase[j][r].Unsent? && !p.Unsent?
    ensures Owed(outstanding, pending, done, phase[j := phase[j][r := p]])
  {
    OrphanUpdate(phase[j], r, p);
    var phase' := phase[j := phase[j][r := p]];
    assert forall i :: Due(pending, phase', i) <==> Due(pending, phase, i);
  }

  /** A rank's move that tells the coordinator nothing leaves its books right. */
  lemma BookedUnderMove(pending: map<nat, Entry>, done: seq<Report>, phase: Phases, j: nat, r: nat, p: Phase)
    requires Booked(pending, done, phase) && j in phase && r < |phase[j]|
    requires !phase[j][r].Acked? && !p.Acked?
    ensures Booked(pending, done, phase[j := phase[j][r := p]])
  {
    UnackedUpdate(phase[j], r, p);
    assert !AllAcked(phase[j]);
  }

  function AfterAck(pending: map<nat, Entry>, m: Report): (r: (map<nat, Entry>, seq<Report>))
    requires m.job in pending && pending[m.job].remaining > 0
  {
    var e := Entry(pending[m.job].remaining - 1, pending[m.job].ok && m.ok);
    if e.remaining == 0 then (pending - {m.job}, [Report(m.job, e.ok)]) else (pending[m.job := e], [])
  }

  lemma BookedUnderAck(pending: map<nat, Entry>, done: seq<Report>, phase: Phases, m: Report, r: nat)
    requires Booked(pending, done, phase) && m.job in phase && r < |phase[m.job]|
    requires phase[m.job][r] == Finished(m.ok)
    ensures m.job in pending && pending[m.job].remaining > 0
    ensures Booked(AfterAck(pending, m).0, done + AfterAck(pending, m).1,
                   phase[m.job := phase[m.job][r := Acked(m.ok)]])
  {
    var ps := phase[m.job][r := Acked(m.ok)];
    UnackedUpdate(phase[m.job], r, Acked(m.ok));
    UnackedZero(ps);
    assert !AllAcked(phase[m.job]);
    var (pending', added) := AfterAck(pending, m);
    var phase' := phase[m.job := ps];
    forall n | n in done + added
      ensures n.job in phase' && n.job !in pending' && n.ok == AckedOk(phase'[n.job])
    {
    }
  }

  lemma ReportedAppend(a: seq<Report>, b: seq<Report>, j: nat)
    ensures Reported(a + b, j) <==> Reported(a, j) || Reported(b, j)
  {
    if Reported(a, j) {
      var m :| m in a && m.job == j;
      assert m in a + b;
    }
    if Reported(b, j) {
      var m :| m in b && m.job == j;
      assert m in a + b;
    }
  }

  lemma OwedUnderAck(outstanding: set<nat>, pending: map<nat, Entry>, done: seq<Report>, phase: Phases, m: Report)
    requires Owed(outstanding, pending, done, phase) && m.job in pending && pending[m.job].remaining > 0
    requires m.job in phase && (pending[m.job].remaining == 1 ==> !Orphan(phase[m.job]))
    ensures Owed(outstanding, AfterAck(pending, m).0, done + AfterAck(pending, m).1, phase)
  {
    var (pending', added) := AfterAck(pending, m);
    forall j ensures j in outstanding <==> Due(pending', phase, j) || Reported(done + added, j) {
      ReportedAppend(done, added, j);
      if added != [] {
        assert added[0] in added;
      }
      assert Due(pending, phase, j) || Reported(done, j) <==> j in outstanding;
    }
  }

  /** Every rank's share of a submission. */
  function Fanned(ranks: seq<Rank>, job: nat): (r: seq<Rank>) {
    seq(|ranks|, i requires 0 <= i < |ranks| =>
      if i == 0 then ranks[i].(running := ranks[i].running + {job})
      else ranks[i].(inbox := ranks[i].inbox + [job]))
  }

  lemma FannedMatches(ranks: seq<Rank>, phase: Phases, world: nat, job: nat, start: seq<Phase>)
    requires RanksMatch(ranks, phase, world) && job !in phase
    requires start == seq(world, r => if r == 0 then Running else Queued)
    ensures RanksMatch(Fanned(ranks, job), phase[job := start], world)
  {
    var phase' := phase[job := start];
    assert Shaped(phase', world);
    forall r: nat | r < world ensures RankMatches(Fanned(ranks, job)[r], phase', world, r) {
      var rank, rank' := ranks[r], Fanned(ranks, job)[r];
      assert RankMatches(rank, phase, world, r);
      forall j ensures j in rank'.inbox <==> j in phase' && phase'[j][r] == Queued {
        assert r != 0 ==> (j in rank'.inbox <==> j in rank.inbox || j == job);
      }
    }
  }

  lemma OutboxHas(rank: Rank, phase: Phases, world: nat, r: nat, j: nat)
    requires r < world && Shaped(phase, world) && RankMatches(rank, phase, world, r)
    requires j in phase
    ensures phase[j][r].Finished? ==> rank.outbox != []
  {
    if phase[j][r].Finished? {
      assert Report(j, phase[j][r].ok) in rank.outbox;
    }
  }

  /** With every pipe empty and nothing transferring, only jobs whose submission raised are left
      to count down. */
  lemma NothingLeft(ranks: seq<Rank>, phase: Phases, world: nat, pending: map<nat, Entry>, done: seq<Report>)
    requires RanksMatch(ranks, phase, world) && Booked(pending, done, phase)
    requires forall r :: 0 <= r < world ==> ranks[r] == Rank([], {}, [])
    ensures forall j :: !Due(pending, phase, j)
  {
    forall j | j in pending ensures Orphan(phase[j]) {
      forall r | 0 <= r < world ensures phase[j][r].Acked? || phase[j][r].Unsent? {
        assert RankMatches(ranks[r], phase, world, r);
        OutboxHas(ranks[r], phase, world, r, j);
      }
      UnackedZero(phase[j]);
    }
  }

  // --- Progress ---

  /** What has ended on a rank stays ended, with its verdict; what was acknowledged stays so. */
  ghost predicate Comes(p: Phase, q: Phase) {
    (p.Acked? ==> q == p) && (p.Finished? ==> q == p || q == Acked(p.ok)) && (p.Unsent? <==> q.Unsent?)
  }

  ghost predicate LaterOk(phase: Phases, phase': Phases) {
    && phase'.Keys == phase.Keys
    && (forall j :: j in phase ==> |phase'[j]| == |phase[j]|)
    && (forall j, r :: j in phase && 0 <= r < |phase[j]| ==> Comes(phase[j][r], phase'[j][r]))
  }

  /** The phases at a later time. Carried whole. */
  ghost predicate Later(phase: Phases, phase': Phases) {
    forall k {:trigger Open(phase', k)} :: Open(phase', k) ==> LaterOk(phase, phase')
  }

  lemma LaterOn(a: Phases, b: Phases, c: Phases)
    requires Later(a, b) && Later(b, c)
    ensures Later(a, c)
  {
    assert Open(b, 0) && Open(c, 0);
  }

  lemma LaterMoved(phase: Phases, j: nat, r: nat, p: Phase)
    requires j in phase && r < |phase[j]| ==> Comes(phase[j][r], p)
    ensures Later(phase, Moved(phase, j, r, p))
  {
  }

  lemma LaterSame(phase: Phases)
    ensures Later(phase, phase)
  {
  }

  /** Whatever rank r had finished has been read. */
  ghost predicate Read(phase: Phases, phase': Phases, r: nat) {
    forall j ::
      (&& j in phase && r < |phase[j]| && j in phase' && r < |phase'[j]|
       && (phase[j][r].Finished? || phase[j][r].Acked?)) ==>
      phase'[j][r] == Acked(phase[j][r].ok)
  }

  lemma ReadStays(phase: Phases, phase': Phases, phase'': Phases, r: nat)
    requires Later(phase, phase') && Read(phase, phase', r) && Later(phase', phase'')
    ensures Read(phase, phase'', r)
  {
    assert Open(phase', 0) && Open(phase'', 0);
  }

  lemma ReadNow(world: nat, net: Net, phase: Phases, phase': Phases, outstanding: set<nat>, r: nat)
    requires Later(phase, phase') && NetSound(world, net, phase', outstanding) && r < |net.ranks| == world
    requires net.ranks[r].outbox == []
    ensures Read(phase, phase', r)
  {
    assert Open(net, 0) && Open(phase', 0);
    forall j | j in phase' ensures !phase'[j][r].Finished? {
      OutboxHas(net.ranks[r], phase', world, r, j);
    }
  }

  /** The transfer has ended on every rank, read or not. */
  ghost predicate EndedEverywhere(ps: seq<Phase>) {
    forall r :: 0 <= r < |ps| ==> ps[r].Finished? || ps[r].Acked?
  }

  lemma AllRead(world: nat, net: Net, phase: Phases, phase': Phases, outstanding: set<nat>)
    requires Later(phase, phase') && NetSound(world, net, phase', outstanding)
    requires forall r: nat :: r < world ==> Read(phase, phase', r)
    ensures phase'.Keys == phase.Keys
    ensures forall j :: j in phase && j in phase' && EndedEverywhere(phase[j]) ==> AllAcked(phase'[j])
  {
    assert Open(net, 0) && Open(phase', 0);
    forall j, r: nat | j in phase && EndedEverywhere(phase[j]) && r < world ensures phase'[j][r].Acked? {
      assert Read(phase, phase', r);
    }
  }

  // --- The whole group ---

  /** The coordinator's books and the ranks. */
  datatype Net = Net(pending: map<nat, Entry>, done: seq<Report>, ranks: seq<Rank>)

  ghost predicate NetOk(world: nat, net: Net, phase: Phases, outstanding: set<nat>) {
    && RanksMatch(net.ranks, phase, world)
    && Booked(net.pending, net.done, phase)
    && Owed(outstanding, net.pending, net.done, phase)
  }

  /** NetOk, carried whole. */
  ghost predicate NetSound(world: nat, net: Net, phase: Phases, outstanding: set<nat>) {
    forall k {:trigger Open(net, k)} :: Open(net, k) ==> NetOk(world, net, phase, outstanding)
  }

  ghost function Moved(phase: Phases, j: nat, r: nat, p: Phase): Phases {
    if j in phase && r < |phase[j]| then phase[j := phase[j][r := p]] else phase
  }

  function Submitted(net: Net, world: nat, job: nat): (r: Net) {
    Net(net.pending[job := Entry(world, true)], net.done, Fanned(net.ranks, job))
  }

  ghost function Started(world: nat): (ps: seq<Phase>)
    ensures |ps| == world
  {
    seq(world, r => if r == 0 then Running else Queued)
  }

  /** Every reached rank's share of a submission that raised. */
  function PartlyFanned(ranks: seq<Rank>, job: nat, reached: nat): (r: seq<Rank>) {
    seq(|ranks|, i requires 0 <= i < |ranks| =>
      if 0 < i <= reached then ranks[i].(inbox := ranks[i].inbox + [job]) else ranks[i])
  }

  ghost function PartlyStarted(world: nat, reached: nat): (ps: seq<Phase>)
    ensures |ps| == world
  {
    seq(world, r => if 0 < r <= reached then Queued else Unsent)
  }

  /** The job was entered and sent to ranks 1 to `reached`, and then something raised. */
  function PartlySubmitted(net: Net, world: nat, job: nat, reached: nat): (r: Net) {
    Net(net.pending[job := Entry(world, true)], net.done, PartlyFanned(net.ranks, job, reached))
  }

  lemma PartlyFannedMatches(ranks: seq<Rank>, phase: Phases, world: nat, job: nat, reached: nat)
    requires RanksMatch(ranks, phase, world) && job !in phase
    ensures RanksMatch(PartlyFanned(ranks, job, reached), phase[job := PartlyStarted(world, reached)], world)
  {
    var ranks', phase' := PartlyFanned(ranks, job, reached), phase[job := PartlyStarted(world, reached)];
    assert Shaped(phase', world);
    forall r: nat | r < world ensures RankMatches(ranks'[r], phase', world, r) {
      assert RankMatches(ranks[r], phase, world, r);
      forall j ensures j in ranks'[r].inbox <==> j in phase' && phase'[j][r] == Queued {
        assert 0 < r <= reached ==> (j in ranks'[r].inbox <==> j in ranks[r].inbox || j == job);
      }
    }
  }

  /** A submission that raised leaves an entry that never counts down to nothing. */
  lemma PartlySubmittedSound(world: nat, net: Net, phase: Phases, outstanding: set<nat>, job: nat, reached: nat)
    requires NetSound(world, net, phase, outstanding) && job !in phase && reached < world
    ensures NetSound(world, PartlySubmitted(net, world, job, reached), phase[job := PartlyStarted(world, reached)],
                     outstanding)
  {
    assert Open(net, 0);
    var ps := PartlyStarted(world, reached);
    UnackedAll(ps);
    PartlyFannedMatches(net.ranks, phase, world, job, reached);
    assert ps[0].Unsent?;
    var pending', phase' := net.pending[job := Entry(world, true)], phase[job := ps];
    assert forall j :: Due(pending', phase', j) <==> Due(net.pending, phase, j);
  }

  lemma SubmittedSound(world: nat, net: Net, phase: Phases, outstanding: set<nat>, job: nat)
    requires NetSound(world, net, phase, outstanding) && job !in phase && world > 0
    ensures NetSound(world, Submitted(net, world, job), phase[job := Started(world)], outstanding + {job})
  {
    assert Open(net, 0);
    UnackedAll(Started(world));
    FannedMatches(net.ranks, phase, world, job, Started(world));
    var pending', phase' := net.pending[job := Entry(world, true)], phase[job := Started(world)];
    assert forall j :: Due(pending', phase', j) <==> j == job || Due(net.pending, phase, j);
  }

  /** Rank r reads its next job and starts the transfer. */
  function Received(net: Net, r: nat): (n: Net)
    requires r < |net.ranks| && net.ranks[r].inbox != []
  {
    var rank := net.ranks[r];
    net.(ranks := net.ranks[r := rank.(inbox := rank.inbox[1..], running := rank.running + {rank.inbox[0]})])
  }

  lemma ReceivedSound(world: nat, net: Net, phase: Phases, outstanding: set<nat>, r: nat)
    requires NetSound(world, net, phase, outstanding) && r < |net.ranks| == world && net.ranks[r].inbox != []
    ensures NetSound(world, Received(net, r), Moved(phase, net.ranks[r].inbox[0], r, Running), outstanding)
    ensures Later(phase, Moved(phase, net.ranks[r].inbox[0], r, Running))
  {
    assert Open(net, 0);
    var rank := net.ranks[r];
    var j := rank.inbox[0];
    ReceiveMatches(rank, phase, world, r);
    RankMoves(net.ranks, phase, world, r, j, Running, Received(net, r).ranks[r]);
    BookedUnderMove(net.pending, net.done, phase, j, r, Running);
    LaterMoved(phase, j, r, Running);
    OwedUnderMove(outstanding, net.pending, net.done, phase, j, r, Running);
  }

  /** A transfer ends on rank r, well or badly, and the rank reports it. */
  function Ended(net: Net, r: nat, j: nat, ok: bool): (n: Net)
    requires r < |net.ranks|
  {
    var rank := net.ranks[r];
    net.(ranks := net.ranks[r := rank.(running := rank.running - {j}, outbox := rank.outbox + [Report(j, ok)])])
  }

  lemma EndedSound(world: nat, net: Net, phase: Phases, outstanding: set<nat>, r: nat, j: nat, ok: bool)
    requires NetSound(world, net, phase, outstanding) && r < |net.ranks| == world && j in net.ranks[r].running
    ensures NetSound(world, Ended(net, r, j, ok), Moved(phase, j, r, Finished(ok)), outstanding)
    ensures Later(phase, Moved(phase, j, r, Finished(ok)))
  {
    assert Open(net, 0);
    FinishMatches(net.ranks[r], phase, world, r, j, ok);
    RankMoves(net.ranks, phase, world, r, j, Finished(ok), Ended(net, r, j, ok).ranks[r]);
    BookedUnderMove(net.pending, net.done, phase, j, r, Finished(ok));
    LaterMoved(phase, j, r, Finished(ok));
    OwedUnderMove(outstanding, net.pending, net.done, phase, j, r, Finished(ok));
  }

  /** The coordinator reads the first result of rank r and counts it down. */
  function Acknowledged(net: Net, r: nat): (n: Net)
    requires r < |net.ranks| && net.ranks[r].outbox != []
  {
    var rank := net.ranks[r];
    var m := rank.outbox[0];
    var ranks := net.ranks[r := rank.(outbox := rank.outbox[1..])];
    if m.job in net.pending && net.pending[m.job].remaining > 0
    then Net(AfterAck(net.pending, m).0, net.done + AfterAck(net.pending, m).1, ranks)
    else net.(ranks := ranks)
  }

  /** A job whose last countdown this is was sent to every rank. */
  lemma LastAck(ps: seq<Phase>, r: nat, ok: bool)
    requires r < |ps| && ps[r].Finished?
    ensures Unacked(ps) == 1 ==> !Orphan(ps[r := Acked(ok)])
  {
    UnackedUpdate(ps, r, Acked(ok));
    UnackedZero(ps[r := Acked(ok)]);
  }

  lemma AcknowledgedSound(world: nat, net: Net, phase: Phases, outstanding: set<nat>, r: nat)
    requires NetSound(world, net, phase, outstanding) && r < |net.ranks| == world && net.ranks[r].outbox != []
    ensures net.ranks[r].outbox[0].job in net.pending
    ensures var m := net.ranks[r].outbox[0];
            && NetSound(world, Acknowledged(net, r), Moved(phase, m.job, r, Acked(m.ok)), outstanding)
            && Later(phase, Moved(phase, m.job, r, Acked(m.ok)))
  {
    assert Open(net, 0);
    var m := net.ranks[r].outbox[0];
    AckMatches(net.ranks[r], phase, world, r);
    BookedUnderAck(net.pending, net.done, phase, m, r);
    RankMoves(net.ranks, phase, world, r, m.job, Acked(m.ok), Acknowledged(net, r).ranks[r]);
    OwedUnderMove(outstanding, net.pending, net.done, phase, m.job, r, Acked(m.ok));
    LastAck(phase[m.job], r, m.ok);
    OwedUnderAck(outstanding, net.pending, net.done, phase[m.job := phase[m.job][r := Acked(m.ok)]], m);
    LaterMoved(phase, m.job, r, Acked(m.ok));
  }

  /** A job that some rank was sent and has not reported is owed, unless its submission raised. */
  lemma StillCounted(world: nat, net: Net, phase: Phases, outstanding: set<nat>, j: nat, r: nat)
    requires NetSound(world, net, phase, outstanding) && j in phase && r < |phase[j]| && !phase[j][r].Acked?
    ensures j in outstanding <==> !Orphan(phase[j])
  {
    assert Open(net, 0);
    assert !AllAcked(phase[j]);
    assert j in net.pending && !Reported(net.done, j);
    assert Due(net.pending, phase, j) <==> !Orphan(phase[j]);
  }

  /** The finished jobs are handed over: each was acknowledged by every rank, carries the
      conjunction of the ranks' verdicts, and is no longer owed. */
  lemma HandedOver(world: nat, net: Net, phase: Phases, outstanding: set<nat>)
    requires NetSound(world, net, phase, outstanding)
    ensures NetSound(world, net.(done := []), phase, outstanding - Ids(net.done))
    ensures Legit(net.done, outstanding)
    ensures forall i :: 0 <= i < |net.done| ==>
              var m := net.done[i];
              m.job in phase && AllAcked(phase[m.job]) && m.ok == AckedOk(phase[m.job])
    ensures (forall j :: !Due(net.pending, phase, j)) ==> outstanding == Ids(net.done)
    ensures forall j :: j in outstanding && j in phase && AllAcked(phase[j]) ==> j in Ids(net.done)
  {
    assert Open(net, 0);
    forall j | j in net.pending ensures !AllAcked(phase[j]) {
      UnackedZero(phase[j]);
    }
    forall j ensures j in Ids(net.done) <==> Reported(net.done, j) {
      if Reported(net.done, j) {
        var m :| m in net.done && m.job == j;
      }
    }
    forall i | 0 <= i < |net.done| ensures net.done[i].job in outstanding && net.done[i].job !in net.pending {
      assert net.done[i] in net.done;
    }
    assert Owed(outstanding - Ids(net.done), net.pending, [], phase);
  }

  /** The jobs handed over that failed on some rank. */
  ghost function Spoiled(phase: Phases, outstanding: set<nat>): set<nat> {
    set j | j in phase && j !in outstanding && AllAcked(phase[j]) && !AckedOk(phase[j])
  }

  ghost function Failures(out: seq<Report>): set<nat> {
    set m | m in out && !m.ok :: m.job
  }

  /** Whether some of the first i reports is a failure. Carried whole. */
  ghost predicate FailedOf(failed: bool, out: seq<Report>, i: nat) {
    forall k {:trigger Open(out, k)} :: Open(out, k) ==>
      (!failed <==> forall q :: 0 <= q < i && q < |out| ==> out[q].ok)
  }

  lemma FailedNext(failed: bool, out: seq<Report>, i: nat)
    requires FailedOf(failed, out, i) && i < |out|
    ensures FailedOf(failed || !out[i].ok, out, i + 1)
  {
    assert Open(out, 0);
  }

  lemma FailedAll(failed: bool, out: seq<Report>)
    ensures FailedOf(false, out, 0)
    ensures FailedOf(failed, out, |out|) ==> (!failed <==> forall q :: 0 <= q < |out| ==> out[q].ok)
  {
    assert Open(out, 0);
  }

  /** Nothing is added to the failed jobs exactly when every job returned succeeded. */
  lemma FailuresNone(bad: set<nat>, out: seq<Report>)
    requires bad !! Failures(out)
    ensures bad + Failures(out) == bad <==> forall i :: 0 <= i < |out| ==> out[i].ok
  {
    forall i | 0 <= i < |out| && !out[i].ok ensures out[i].job in Failures(out) {
      assert out[i] in out;
    }
    assert Failures(out) == {} ==> bad + Failures(out) == bad;
  }

  /** A submission, whether or not it raises, fails no job. */
  lemma SpoiledSubmit(phase: Phases, outstanding: set<nat>, job: nat, world: nat, reached: nat)
    requires job !in phase && reached < world
    ensures Spoiled(phase[job := PartlyStarted(world, reached)], outstanding) == Spoiled(phase, outstanding)
    ensures Spoiled(phase[job := Started(world)], outstanding + {job}) == Spoiled(phase, outstanding)
  {
    assert PartlyStarted(world, reached)[0].Unsent?;
  }

  /** A poll adds the jobs it returns as failed, and those were still outstanding. */
  lemma SpoiledPoll(world: nat, net: Net, phase: Phases, phase': Phases, outstanding: set<nat>, out: seq<Report>)
    requires NetSound(world, net, phase, outstanding) && Later(phase, phase') && Legit(out, outstanding)
    requires forall i :: 0 <= i < |out| ==>
               out[i].job in phase' && AllAcked(phase'[out[i].job]) && out[i].ok == AckedOk(phase'[out[i].job])
    ensures Spoiled(phase', outstanding - Ids(out)) == Spoiled(phase, outstanding) + Failures(out)
    ensures Spoiled(phase, outstanding) !! Failures(out)
  {
    assert Open(phase', 0);
    forall j | j in phase && j !in outstanding
      ensures AllAcked(phase'[j]) && !AckedOk(phase'[j]) <==> AllAcked(phase[j]) && !AckedOk(phase[j])
    {
      SettledStays(world, net, phase, phase', outstanding, j);
    }
    forall j ensures j in Failures(out) <==> j in Ids(out) && !AckedOk(phase'[j]) {
    }
  }

  /** Nothing more is said of a job no longer owed: all ranks have reported it, or one never will. */
  lemma SettledStays(world: nat, net: Net, phase: Phases, phase': Phases, outstanding: set<nat>, j: nat)
    requires NetSound(world, net, phase, outstanding) && Later(phase, phase') && j in phase && j !in outstanding
    ensures j in phase' && (AllAcked(phase'[j]) <==> AllAcked(phase[j]))
    ensures AllAcked(phase[j]) ==> (AckedOk(phase'[j]) <==> AckedOk(phase[j]))
  {
    assert Open(phase', 0);
    if !AllAcked(phase[j]) {
      var r :| 0 <= r < |phase[j]| && !phase[j][r].Acked?;
      StillCounted(world, net, phase, outstanding, j, r);
      var q :| 0 <= q < |phase[j]| && phase[j][q].Unsent?;
      assert Comes(phase[j][q], phase'[j][q]);
    }
  }

  class TpGroup {
    const world: nat
    /** Which submissions raise, by number, and after how many pipes. */
    const faults: map<nat, nat>
    var submits: nat
    var net: Net
    /** Polls the environment may still let pass without a finished job. */
    var patience: nat
    ghost var phase: Phases
    /** Submitted and not yet returned by GetFinished. */
    ghost var outstanding: set<nat>

    ghost predicate Valid()
      reads this
    {
      world > 0 && |net.ranks| == world && NetSound(world, net, phase, outstanding)
    }

    /** The jobs returned so far that failed on some rank. */
    ghost function Bad(): set<nat>
      reads this
    {
      Spoiled(phase, outstanding)
    }

    constructor (world: nat, faults: map<nat, nat>)
      requires world > 0
      ensures Valid() && this.world == world && this.faults == faults
      ensures submits == 0 && outstanding == {} && phase == map[]
    {
      var p: int := *;
      this.world, this.faults, submits, patience := world, faults, 0, if p >= 0 then p else 0;
      net := Net(map[], [], seq(world, _ => Rank([], {}, [])));
      phase, outstanding := map[], {};
    }

    /** How many pipes a raising submission has written. */
    function Reached(n: nat): (r: nat)
      requires n in faults && world > 0
      ensures r < world
    {
      if faults[n] < world then faults[n] else world - 1
    }

    /** Fans the job out: every other rank's pipe, then rank 0 directly. If that raises, the ranks
        reached have the job, and its entry stays. */
    method Submit(job: nat) returns (o: Outcome)
      requires Valid() && job !in phase
      modifies this
      ensures Valid() && submits == old(submits) + 1
      ensures o.Raised? <==> old(submits) in faults
      ensures o.Raised? ==> outstanding == old(outstanding)
      ensures o.Raised? ==> phase == old(phase)[job := PartlyStarted(world, Reached(old(submits)))]
      ensures o.Ok? ==> outstanding == old(outstanding) + {job}
      ensures o.Ok? ==> phase == old(phase)[job := Started(world)]
      ensures Bad() == old(Bad())
    {
      var n := submits;
      SpoiledSubmit(phase, outstanding, job, world, if n in faults then Reached(n) else 0);
      submits := n + 1;
      if n in faults {
        o := Raised;
        PartlySubmittedSound(world, net, phase, outstanding, job, Reached(n));
        net := PartlySubmitted(net, world, job, Reached(n));
        phase := phase[job := PartlyStarted(world, Reached(n))];
      } else {
        o := Ok;
        SubmittedSound(world, net, phase, outstanding, job);
        net := Submitted(net, world, job);
        phase := phase[job := Started(world)];
        outstanding := outstanding + {job};
        var p: int := *;
        patience := if p >= 0 then p else patience;
      }
    }

    method RankReceive(r: nat)
      requires Valid() && r < world && net.ranks[r].inbox != []
      modifies this`net, this`phase
      ensures Valid() && Later(old(phase), phase) && net == Received(old(net), r)
    {
      ReceivedSound(world, net, phase, outstanding, r);
      phase := Moved(phase, net.ranks[r].inbox[0], r, Running);
      net := Received(net, r);
    }

    method RankFinish(r: nat, j: nat, ok: bool)
      requires Valid() && r < world && j in net.ranks[r].running
      modifies this`net, this`phase
      ensures Valid() && Later(old(phase), phase) && net == Ended(old(net), r, j, ok)
    {
      EndedSound(world, net, phase, outstanding, r, j, ok);
      phase := Moved(phase, j, r, Finished(ok));
      net := Ended(net, r, j, ok);
    }

    method RankDone(r: nat)
      requires Valid() && r < world && net.ranks[r].outbox != []
      modifies this`net, this`phase
      ensures Valid() && Later(old(phase), phase) && net == Acknowledged(old(net), r)
    {
      AcknowledgedSound(world, net, phase, outstanding, r);
      phase := Moved(phase, net.ranks[r].outbox[0].job, r, Acked(net.ranks[r].outbox[0].ok));
      net := Acknowledged(net, r);
    }

    /** The ranks make any number of moves. */
    method RanksAdvance()
      requires Valid()
      modifies this`net, this`phase
      ensures Valid() && Later(old(phase), phase)
    {
      LaterSame(phase);
      var moves: int := *;
      while moves > 0
        invariant Valid() && Later(old(phase), phase)
      {
        var r: int := *;
        var receives: bool := *;
        ghost var before := phase;
        if 0 <= r < world {
          if receives && net.ranks[r].inbox != [] {
            RankReceive(r);
            LaterOn(old(phase), before, phase);
          } else if net.ranks[r].running != {} {
            var j :| j in net.ranks[r].running;
            var ok: bool := *;
            RankFinish(r, j, ok);
            LaterOn(old(phase), before, phase);
          }
        }
        moves := moves - 1;
      }
    }

    /** Every transfer handed to rank r is read and ends. */
    method Settle(r: nat)
      requires Valid() && r < world
      modifies this`net, this`phase
      ensures Valid() && Later(old(phase), phase)
      ensures net.ranks == old(net.ranks)[r := net.ranks[r]] && net.ranks[r].inbox == [] && net.ranks[r].running == {}
    {
      LaterSame(phase);
      while net.ranks[r].inbox != []
        invariant Valid() && Later(old(phase), phase) && net.ranks == old(net.ranks)[r := net.ranks[r]]
        decreases |net.ranks[r].inbox|
      {
        ghost var before := phase;
        RankReceive(r);
        LaterOn(old(phase), before, phase);
      }
      while net.ranks[r].running != {}
        invariant Valid() && Later(old(phase), phase) && net.ranks == old(net.ranks)[r := net.ranks[r]]
        invariant net.ranks[r].inbox == []
        decreases net.ranks[r].running
      {
        var j :| j in net.ranks[r].running;
        var ok: bool := *;
        ghost var before := phase;
        RankFinish(r, j, ok);
        LaterOn(old(phase), before, phase);
      }
    }

    /** The coordinator reads everything rank r has sent. */
    method DrainRank(r: nat)
      requires Valid() && r < world
      modifies this`net, this`phase
      ensures Valid() && Later(old(phase), phase)
      ensures net.ranks == old(net.ranks)[r := old(net.ranks[r]).(outbox := [])]
    {
      LaterSame(phase);
      while net.ranks[r].outbox != []
        invariant Valid() && Later(old(phase), phase)
        invariant net.ranks == old(net.ranks)[r := old(net.ranks[r]).(outbox := net.ranks[r].outbox)]
        decreases |net.ranks[r].outbox|
      {
        ghost var before := phase;
        RankDone(r);
        LaterOn(old(phase), before, phase);
      }
    }

    /** Rank r's turn in a poll: it moves, or at the end of the environment's patience ends all
        its transfers, and everything it has sent is read. */
    method PollRank(r: nat, last: bool, ghost phase0: Phases)
      requires Valid() && r < world && Later(phase0, phase)
      modifies this`net, this`phase
      ensures Valid() && Later(old(phase), phase) && Later(phase0, phase) && Read(phase0, phase, r)
      ensures last ==> net.ranks == old(net.ranks)[r := Rank([], {}, [])]
    {
      if last {
        Settle(r);
      } else {
        RanksAdvance();
      }
      ghost var before := phase;
      DrainRank(r);
      LaterOn(old(phase), before, phase);
      LaterOn(phase0, old(phase), phase);
      ReadNow(world, net, phase0, phase, outstanding, r);
    }

    /** Reads every rank's results in turn, the ranks moving meanwhile: whatever had ended on any
        rank has then been acknowledged, with its verdict. At the end of the environment's
        patience every transfer ends first. */
    method DrainAll(last: bool)
      requires Valid()
      modifies this`net, this`phase
      ensures Valid() && Later(old(phase), phase)
      ensures forall r: nat :: r < world ==> Read(old(phase), phase, r)
      ensures last ==> forall j :: !Due(net.pending, phase, j)
    {
      LaterSame(phase);
      for r := 0 to world
        invariant Valid() && Later(old(phase), phase)
        invariant forall q: nat :: q < r ==> Read(old(phase), phase, q)
        invariant last ==> forall q :: 0 <= q < r ==> net.ranks[q] == Rank([], {}, [])
      {
        ghost var before := phase;
        PollRank(r, last, old(phase));
        forall q: nat | q < r ensures Read(old(phase), phase, q) {
          ReadStays(old(phase), before, phase, q);
        }
      }
      if last {
        assert Open(net, 0);
        NothingLeft(net.ranks, phase, world, net.pending, net.done);
      }
    }

    /** One non-blocking poll. A job is returned once every rank has finished it, with
        success only if every rank succeeded, and then leaves `outstanding` for good; a job that
        had ended on every rank before the poll is returned by it. A poll that returns nothing
        while jobs are outstanding uses up patience. */
    method GetFinished() returns (out: seq<Report>)
      requires Valid()
      modifies this`net, this`phase, this`outstanding, this`patience
      ensures Valid() && Later(old(phase), phase) && phase.Keys == old(phase.Keys)
      ensures Legit(out, old(outstanding)) && outstanding == old(outstanding) - Ids(out)
      ensures forall i :: 0 <= i < |out| ==>
                out[i].job in phase && AllAcked(phase[out[i].job]) && out[i].ok == AckedOk(phase[out[i].job])
      ensures forall j :: j in old(outstanding) && j in old(phase) && EndedEverywhere(old(phase)[j]) ==> j in Ids(out)
      ensures Bad() == old(Bad()) + Failures(out) && old(Bad()) !! Failures(out)
      ensures old(outstanding) != {} && out == [] ==> patience < old(patience)
    {
      var last := patience == 0;
      DrainAll(last);
      HandedOver(world, net, phase, outstanding);
      AllRead(world, net, old(phase), phase, outstanding);
      out := net.done;
      SpoiledPoll(world, old(net), old(phase), phase, outstanding, out);
      outstanding := outstanding - Ids(out);
      net := net.(done := []);
      var p: int := *;
      patience := if out != [] && p >= 0 then p else if last then 0 else patience - 1;
    }
  }
}

/** The interleaved router: worker threads take the next ready turn of some conversation from
    a shared queue, send it, and queue the conversation's next turn behind the others. A state
    machine whose steps are the critical sections and the sending of a turn; waits may end at
    any time. */
module Routers {
  import opened Common

  datatype Turn = Turn(conv: nat, k: nat, context: string)
  /** A worker holds a turn from when it takes it, first to send it, then to wait for the answer. */
  datatype Worker = Awake | Waiting | Holding(turn: Turn) | Sending(turn: Turn) | Exited

  /** The shared queue, count and threads, and the history: every turn ever queued, taken and
      sent, the answers of each conversation, and the conversations that ended. */
  datatype State = State(ready: seq<Turn>, live: int, workers: seq<Worker>, queued: seq<Turn>, takes: seq<Turn>,
                         sends: seq<Turn>, answers: seq<seq<string>>, ended: set<nat>)

  /** The conversations' turns, and the number of workers. */
  datatype Config = Config(convs: seq<seq<string>>, workers: nat)

  ghost predicate WellFormed(c: Config) {
    forall i :: 0 <= i < |c.convs| ==> c.convs[i] != []
  }

  function FirstTurns(n: nat): (r: seq<Turn>) {
    seq(n, i requires 0 <= i < n => Turn(i, 0, ""))
  }

  function Init(c: Config): (s: State) {
    var turns := FirstTurns(|c.convs|);
    State(turns, |c.convs|, seq(c.workers, _ => Awake), turns, [], [], seq(|c.convs|, _ => []), {})
  }

  /** What a thread does next; a turn's answer is the server's, None when it failed. */
  datatype Step =
    | Take(w: nat) | Wait(w: nat) | Leave(w: nat) | Wake(w: nat) | Send(w: nat) | Finish(w: nat, answer: Option<string>)

  ghost predicate Enabled(c: Config, s: State, step: Step) {
    && step.w < |s.workers|
    && match step
       case Take(w) => s.workers[w] == Awake && s.ready != []
       case Wait(w) => s.workers[w] == Awake && s.ready == [] && s.live > 0
       case Leave(w) => s.workers[w] == Awake && s.ready == [] && s.live <= 0
       case Wake(w) => s.workers[w] == Waiting
       case Send(w) => s.workers[w].Holding?
       case Finish(w, _) => s.workers[w].Sending? && InRange(c, s, s.workers[w].turn)
  }

  ghost predicate InRange(c: Config, s: State, t: Turn) {
    t.conv < |c.convs| && t.k < |c.convs[t.conv]| && |s.answers| == |c.convs|
  }

  /** A turn's prompt: the question, after everything said so far. */
  function Prompt(c: Config, t: Turn): (r: string)
    requires t.conv < |c.convs| && t.k < |c.convs[t.conv]|
  {
    if t.k == 0 then c.convs[t.conv][0] else t.context + "\n\n" + c.convs[t.conv][t.k]
  }

  function Notified(workers: seq<Worker>): (r: seq<Worker>) {
    seq(|workers|, i requires 0 <= i < |workers| => if workers[i] == Waiting then Awake else workers[i])
  }

  function Finished(c: Config, s: State, w: nat, answer: Option<string>): (s': State)
    requires w < |s.workers| && s.workers[w].Sending? && s.workers[w].turn.conv < |c.convs| == |s.answers|
    requires s.workers[w].turn.k < |c.convs[s.workers[w].turn.conv]|
  {
    var t := s.workers[w].turn;
    var workers := Notified(s.workers[w := Awake]);
    if answer.Some? && t.k + 1 < |c.convs[t.conv]| then
      var next := Turn(t.conv, t.k + 1, Prompt(c, t) + answer.value);
      s.(ready := s.ready + [next], workers := workers, queued := s.queued + [next],
         answers := s.answers[t.conv := s.answers[t.conv] + [answer.value]])
    else
      s.(live := s.live - 1, workers := workers, ended := s.ended + {t.conv})
  }

  ghost function Do(c: Config, s: State, step: Step): State
    requires Enabled(c, s, step)
  {
    match step
    case Take(w) =>
      s.(ready := s.ready[1..], workers := s.workers[w := Holding(s.ready[0])], takes := s.takes + [s.ready[0]])
    case Wait(w) => s.(workers := s.workers[w := Waiting])
    case Leave(w) => s.(workers := s.workers[w := Exited])
    case Wake(w) => s.(workers := s.workers[w := Awake])
    case Send(w) =>
      s.(workers := s.workers[w := Sending(s.workers[w].turn)], sends := s.sends + [s.workers[w].turn])
    case Finish(w, answer) => Finished(c, s, w, answer)
  }

  ghost predicate Reaches(c: Config, s: State, steps: seq<Step>, s': State)
    decreases |steps|
  {
    if steps == [] then s' == s
    else Enabled(c, s, steps[0]) && Reaches(c, Do(c, s, steps[0]), steps[1..], s')
  }

  // --- The invariant ---

  predicate HasTurn(x: Worker) {
    x.Holding? || x.Sending?
  }

  ghost predicate Holds(s: State, w: nat) {
    w < |s.workers| && HasTurn(s.workers[w])
  }

  /** No conversation is in two places. */
  ghost predicate Apart(s: State) {
    && (forall i, j :: 0 <= i < j < |s.ready| ==> s.ready[i].conv != s.ready[j].conv)
    && (forall v: nat, w: nat :: v != w && Holds(s, v) && Holds(s, w) ==>
          s.workers[v].turn.conv != s.workers[w].turn.conv)
    && (forall i, w: nat :: 0 <= i < |s.ready| && Holds(s, w) ==> s.ready[i].conv != s.workers[w].turn.conv)
  }

  ghost predicate Somewhere(s: State, conv: nat) {
    || (exists i :: 0 <= i < |s.ready| && s.ready[i].conv == conv)
    || (exists w: nat :: Holds(s, w) && s.workers[w].turn.conv == conv)
  }

  /** The conversations that have not ended are exactly those queued or held. */
  ghost predicate Placed(n: nat, s: State) {
    && (forall conv: nat :: conv < n && conv !in s.ended <==> Somewhere(s, conv))
    && (forall conv :: conv in s.ended ==> conv < n)
    && s.live == n - |s.ended|
  }

  /** All that was said in a conversation after these answers. */
  ghost function Dialogue(turns: seq<string>, answers: seq<string>): string
    requires |answers| <= |turns|
  {
    if answers == [] then ""
    else
      var k := |answers| - 1;
      (if k == 0 then turns[0] else Dialogue(turns, answers[..k]) + "\n\n" + turns[k]) + answers[k]
  }

  /** The turn is the conversation's next, and carries everything said so far. */
  ghost predicate TurnOk(c: Config, answers: seq<seq<string>>, t: Turn) {
    && t.conv < |c.convs| == |answers|
    && t.k == |answers[t.conv]| < |c.convs[t.conv]|
    && t.context == Dialogue(c.convs[t.conv], answers[t.conv])
  }

  ghost predicate InOrder(c: Config, s: State) {
    && |s.answers| == |c.convs|
    && (forall i :: 0 <= i < |s.ready| ==> TurnOk(c, s.answers, s.ready[i]))
    && (forall w: nat :: Holds(s, w) ==> TurnOk(c, s.answers, s.workers[w].turn))
  }

  /** A waiting worker finds nothing queued and not everything ended; a worker exits only
      when everything has ended. */
  ghost predicate WaitsRightly(s: State) {
    && (forall w :: 0 <= w < |s.workers| && s.workers[w] == Waiting ==> s.ready == [] && s.live > 0)
    && (forall w :: 0 <= w < |s.workers| && s.workers[w] == Exited ==> s.ready == [] && s.live <= 0)
  }

  /** First in, first out. */
  ghost predicate Fifo(s: State) {
    s.queued == s.takes + s.ready
  }

  ghost function HeldIn(workers: seq<Worker>): nat {
    if workers == [] then 0 else HeldIn(workers[1..]) + if HasTurn(workers[0]) then 1 else 0
  }

  /** `live` counts the conversations queued or held. */
  ghost predicate Counted(s: State) {
    s.live == |s.ready| + HeldIn(s.workers)
  }

  ghost predicate Inv(c: Config, s: State) {
    && |s.workers| == c.workers
    && Counted(s)
    && Apart(s)
    && Placed(|c.convs|, s)
    && InOrder(c, s)
    && WaitsRightly(s)
    && Fifo(s)
  }

  /** Inv, carried whole. */
  ghost predicate Sound(c: Config, s: State) {
    forall k {:trigger Open(s, k)} :: Open(s, k) ==> Inv(c, s)
  }

  lemma Unseal(c: Config, s: State)
    requires Sound(c, s)
    ensures Inv(c, s)
  {
    assert Open(s, 0);
  }

  lemma InitInv(c: Config)
    requires WellFormed(c)
    ensures Inv(c, Init(c))
  {
    var s := Init(c);
    NoneHeld(s.workers);
    assert forall w: nat :: !Holds(s, w);
    assert Placed(|c.convs|, s) by {
      InitPlaced(c);
    }
    assert InOrder(c, s) by {
      forall i | 0 <= i < |s.ready| ensures TurnOk(c, s.answers, s.ready[i]) {
        assert s.answers[i] == [];
      }
    }
    assert s.takes + s.ready == s.queued;
  }

  lemma InitPlaced(c: Config)
    ensures Placed(|c.convs|, Init(c))
  {
    var s := Init(c);
    assert forall w: nat :: !Holds(s, w);
    forall conv: nat | conv < |c.convs| ensures Somewhere(s, conv) {
      assert s.ready[conv].conv == conv;
    }
  }

  lemma InitSound(c: Config)
    requires WellFormed(c)
    ensures Sound(c, Init(c))
  {
    InitInv(c);
  }

  lemma {:induction false} NoneHeld(workers: seq<Worker>)
    requires forall i :: 0 <= i < |workers| ==> !HasTurn(workers[i])
    ensures HeldIn(workers) == 0
  {
    if workers != [] {
      NoneHeld(workers[1..]);
    }
  }

  /** Two states with the same queue and the same held turns. */
  ghost predicate SameTurns(s: State, s': State) {
    && s'.ready == s.ready
    && (forall w: nat :: Holds(s', w) <==> Holds(s, w))
    && (forall w: nat :: Holds(s, w) && Holds(s', w) ==> s'.workers[w].turn == s.workers[w].turn)
  }

  lemma SomewhereSame(s: State, s': State, conv: nat)
    requires SameTurns(s, s') && Somewhere(s, conv)
    ensures Somewhere(s', conv)
  {
    if w: nat :| Holds(s, w) && s.workers[w].turn.conv == conv {
      assert Holds(s', w);
    }
  }

  lemma {:induction false} HeldSame(a: seq<Worker>, b: seq<Worker>)
    requires |a| == |b| && forall i :: 0 <= i < |a| ==> (HasTurn(a[i]) <==> HasTurn(b[i]))
    ensures HeldIn(a) == HeldIn(b)
  {
    if a != [] {
      HeldSame(a[1..], b[1..]);
    }
  }

  lemma {:induction false} HeldUpdate(a: seq<Worker>, w: nat, x: Worker)
    requires w < |a|
    ensures HeldIn(a[w := x]) == HeldIn(a) - (if HasTurn(a[w]) then 1 else 0) + if HasTurn(x) then 1 else 0
  {
    if w > 0 {
      assert a[w := x][1..] == a[1..][w - 1 := x];
      HeldUpdate(a[1..], w - 1, x);
    }
  }

  lemma QuietInv(c: Config, s: State, s': State)
    requires Inv(c, s) && SameTurns(s, s')
    requires s' == s.(workers := s'.workers, sends := s'.sends) && |s'.workers| == |s.workers|
    requires WaitsRightly(s')
    ensures Inv(c, s')
  {
    assert forall w: nat :: w < |s.workers| ==>
             Holds(s, w) == HasTurn(s.workers[w]) && Holds(s', w) == HasTurn(s'.workers[w]);
    HeldSame(s.workers, s'.workers);
    forall conv: nat ensures Somewhere(s, conv) <==> Somewhere(s', conv) {
      if Somewhere(s, conv) {
        SomewhereSame(s, s', conv);
      }
      if Somewhere(s', conv) {
        SomewhereSame(s', s, conv);
      }
    }
  }

  lemma TakeInv(c: Config, s: State, w: nat)
    requires Inv(c, s) && Enabled(c, s, Take(w))
    ensures Inv(c, Do(c, s, Take(w)))
  {
    var s' := Do(c, s, Take(w));
    HeldUpdate(s.workers, w, Holding(s.ready[0]));
    assert s.ready == [s.ready[0]] + s'.ready;
    assert Holds(s', w) && s'.workers[w].turn == s.ready[0];
    assert forall v: nat :: v != w ==> Holds(s', v) == Holds(s, v);
    assert Placed(|c.convs|, s') by {
      forall conv: nat ensures Somewhere(s, conv) <==> Somewhere(s', conv) {
        TakePlaces(c, s, w, conv);
      }
    }
    TakeApart(c, s, w);
    assert InOrder(c, s');
  }

  lemma TakeApart(c: Config, s: State, w: nat)
    requires Apart(s) && Enabled(c, s, Take(w))
    ensures Apart(Do(c, s, Take(w)))
  {
    var s' := Do(c, s, Take(w));
    assert forall v: nat :: v != w ==> Holds(s', v) == Holds(s, v);
    assert forall i :: 0 <= i < |s'.ready| ==> s'.ready[i] == s.ready[i + 1];
  }

  lemma TakePlaces(c: Config, s: State, w: nat, conv: nat)
    requires Enabled(c, s, Take(w))
    ensures Somewhere(s, conv) <==> Somewhere(Do(c, s, Take(w)), conv)
  {
    var s' := Do(c, s, Take(w));
    assert forall i :: 0 <= i < |s'.ready| ==> s'.ready[i] == s.ready[i + 1];
    assert Holds(s', w) && s'.workers[w].turn == s.ready[0];
    if i :| 0 <= i < |s.ready| && s.ready[i].conv == conv && i > 0 {
      assert s'.ready[i - 1].conv == conv;
    }
    if v: nat :| Holds(s, v) && s.workers[v].turn.conv == conv {
      assert Holds(s', v) && s'.workers[v].turn.conv == conv;
    }
    if v: nat :| Holds(s', v) && s'.workers[v].turn.conv == conv && v != w {
      assert Holds(s, v);
    }
  }

  /** Every step keeps the invariant. */
  lemma StepSound(c: Config, s: State, step: Step)
    requires Sound(c, s) && Enabled(c, s, step)
    ensures Sound(c, Do(c, s, step))
  {
    Unseal(c, s);
    match step {
      case Take(w) => TakeInv(c, s, w);
      case Wait(w) => QuietInv(c, s, Do(c, s, step));
      case Leave(w) => QuietInv(c, s, Do(c, s, step));
      case Wake(w) => QuietInv(c, s, Do(c, s, step));
      case Send(w) => QuietInv(c, s, Do(c, s, step));
      case Finish(w, answer) => FinishInv(c, s, w, answer);
    }
  }

  /** Where the other conversations are after a turn was answered. */
  lemma FinishPlaces(c: Config, s: State, w: nat, answer: Option<string>, conv: nat)
    requires Inv(c, s) && Enabled(c, s, Finish(w, answer)) && conv != s.workers[w].turn.conv
    ensures Somewhere(s, conv) <==> Somewhere(Finished(c, s, w, answer), conv)
  {
    var s' := Finished(c, s, w, answer);
    FinishHolds(c, s, w, answer);
    if i :| 0 <= i < |s.ready| && s.ready[i].conv == conv {
      assert s'.ready[i].conv == conv;
    }
    if v: nat :| Holds(s, v) && s.workers[v].turn.conv == conv {
      assert Holds(s', v);
    }
    if i :| 0 <= i < |s'.ready| && s'.ready[i].conv == conv {
      assert i < |s.ready| && s.ready[i].conv == conv;
    }
    if v: nat :| Holds(s', v) && s'.workers[v].turn.conv == conv {
      assert Holds(s, v);
    }
  }

  lemma FinishHolds(c: Config, s: State, w: nat, answer: Option<string>)
    requires Enabled(c, s, Finish(w, answer))
    ensures var s' := Finished(c, s, w, answer);
            && !Holds(s', w)
            && (forall v: nat :: v != w ==> Holds(s', v) == Holds(s, v))
            && (forall v: nat :: Holds(s', v) ==> Holds(s, v) && s'.workers[v] == s.workers[v])
            && (forall v :: 0 <= v < |s'.workers| ==> s'.workers[v] != Waiting)
            && (forall v :: 0 <= v < |s'.workers| && s'.workers[v] == Exited ==> s.workers[v] == Exited)
  {
  }

  lemma FinishInv(c: Config, s: State, w: nat, answer: Option<string>)
    requires Inv(c, s) && Enabled(c, s, Finish(w, answer))
    ensures Inv(c, Finished(c, s, w, answer))
  {
    var s' := Finished(c, s, w, answer);
    FinishCounted(c, s, w, answer);
    FinishApart(c, s, w, answer);
    FinishPlaced(c, s, w, answer);
    FinishOrder(c, s, w, answer);
    assert WaitsRightly(s') by {
      FinishHolds(c, s, w, answer);
      NobodyLeft(c, s, w);
    }
    assert Fifo(s');
  }

  lemma FinishCounted(c: Config, s: State, w: nat, answer: Option<string>)
    requires Counted(s) && Enabled(c, s, Finish(w, answer))
    ensures Counted(Finished(c, s, w, answer)) && |Finished(c, s, w, answer).workers| == |s.workers|
  {
    HeldUpdate(s.workers, w, Awake);
    HeldSame(s.workers[w := Awake], Notified(s.workers[w := Awake]));
  }

  lemma FinishPlaced(c: Config, s: State, w: nat, answer: Option<string>)
    requires Inv(c, s) && Enabled(c, s, Finish(w, answer))
    ensures Placed(|c.convs|, Finished(c, s, w, answer))
  {
    var s', t := Finished(c, s, w, answer), s.workers[w].turn;
    assert Holds(s, w);
    assert Somewhere(s, t.conv);
    FinishHolds(c, s, w, answer);
    forall conv: nat ensures conv < |c.convs| && conv !in s'.ended <==> Somewhere(s', conv) {
      if conv != t.conv {
        FinishPlaces(c, s, w, answer, conv);
      } else if s'.ended == s.ended {
        assert s'.ready[|s.ready|].conv == t.conv;
      }
    }
  }

  lemma FinishApart(c: Config, s: State, w: nat, answer: Option<string>)
    requires Apart(s) && Enabled(c, s, Finish(w, answer))
    ensures Apart(Finished(c, s, w, answer))
  {
    FinishHolds(c, s, w, answer);
    assert Holds(s, w);
  }

  /** A conversation that is still somewhere has not ended. */
  lemma NobodyLeft(c: Config, s: State, w: nat)
    requires Inv(c, s) && Holds(s, w)
    ensures s.live > 0
  {
    assert Somewhere(s, s.workers[w].turn.conv);
    Subset(s.ended, |c.convs|, s.workers[w].turn.conv);
  }

  lemma Subset(ended: set<nat>, n: nat, out: nat)
    requires (forall x :: x in ended ==> x < n) && out < n && out !in ended
    ensures |ended| < n
  {
    Fewer(ended, Below(n));
  }

  ghost function Below(n: nat): (r: set<nat>)
    ensures |r| == n && forall x: nat :: x in r <==> x < n
  {
    if n == 0 then {} else Below(n - 1) + {n - 1}
  }

  lemma {:induction false} Fewer(a: set<nat>, b: set<nat>)
    requires a < b
    ensures |a| < |b|
  {
    if a != {} {
      var x :| x in a;
      Fewer(a - {x}, b - {x});
    }
  }

  lemma FinishOrder(c: Config, s: State, w: nat, answer: Option<string>)
    requires Inv(c, s) && Enabled(c, s, Finish(w, answer))
    ensures InOrder(c, Finished(c, s, w, answer))
  {
    var s', t := Finished(c, s, w, answer), s.workers[w].turn;
    FinishHolds(c, s, w, answer);
    assert Holds(s, w);
    if s'.ended == s.ended {
      assert s'.answers[t.conv][..t.k] == s.answers[t.conv];
    }
  }

  /** Every state of every run satisfies the invariant. */
  lemma {:induction false} RunSound(c: Config, s: State, steps: seq<Step>, s': State)
    requires Sound(c, s) && Reaches(c, s, steps, s')
    ensures Sound(c, s')
    decreases |steps|
  {
    if steps != [] {
      StepSound(c, s, steps[0]);
      RunSound(c, Do(c, s, steps[0]), steps[1..], s');
    }
  }

  // --- What it means ---

  /** No deadlock: unless every worker has exited, one can take, wait, leave, send or answer. */
  lemma NoDeadlock(c: Config, s: State) returns (step: Step)
    requires Sound(c, s) && exists w :: 0 <= w < |s.workers| && s.workers[w] != Exited
    ensures Enabled(c, s, step) && !step.Wake? && (step.Finish? ==> step.answer.Some?)
  {
    Unseal(c, s);
    var w: nat :| w < |s.workers| && s.workers[w] != Exited;
    match s.workers[w] {
      case Awake =>
        step := if s.ready != [] then Take(w) else if s.live > 0 then Wait(w) else Leave(w);
      case Holding(t) =>
        step := Send(w);
      case Sending(t) =>
        assert Holds(s, w);
        step := Finish(w, Some(""));
      case Waiting =>
        var v := SomeoneHolds(c, s);
        step := if s.workers[v].Holding? then Send(v) else Finish(v, Some(""));
    }
  }

  /** While a worker waits, another holds a conversation and will wake it. */
  lemma SomeoneHolds(c: Config, s: State) returns (v: nat)
    requires Sound(c, s) && exists w :: 0 <= w < |s.workers| && s.workers[w] == Waiting
    ensures Holds(s, v) && TurnOk(c, s.answers, s.workers[v].turn)
  {
    Unseal(c, s);
    var conv := NotAll(s.ended, |c.convs|);
    assert Somewhere(s, conv);
    v :| Holds(s, v) && s.workers[v].turn.conv == conv;
  }

  lemma {:induction false} NotAll(ended: set<nat>, n: nat) returns (x: nat)
    requires |ended| < n
    ensures x < n && x !in ended
    decreases n
  {
    if n - 1 !in ended {
      x := n - 1;
    } else {
      x := NotAll(ended - {n - 1}, n - 1);
    }
  }

  /** A worker exits only when every conversation has ended. */
  lemma ExitAtEnd(c: Config, s: State, w: nat)
    requires Sound(c, s) && w < |s.workers| && s.workers[w] == Exited
    ensures s.ready == [] && forall conv: nat :: conv < |c.convs| ==> conv in s.ended
  {
    Unseal(c, s);
    forall conv: nat | conv < |c.convs| ensures conv in s.ended {
      if conv !in s.ended {
        Subset(s.ended, |c.convs|, conv);
      }
    }
  }

  // --- Bounded bypass ---

  lemma {:induction false} HistoryGrows(c: Config, s: State, steps: seq<Step>, s': State)
    requires Reaches(c, s, steps, s')
    ensures s.queued <= s'.queued && s.takes <= s'.takes && s.sends <= s'.sends
    decreases |steps|
  {
    if steps != [] {
      HistoryGrows(c, Do(c, s, steps[0]), steps[1..], s');
    }
  }

  /** Between a turn being queued, behind m others, and being taken, exactly those m turns are
      taken, in their order and each once. */
  lemma BoundedBypass(c: Config, s: State, steps: seq<Step>, s': State, m: nat)
    requires Sound(c, s) && Reaches(c, s, steps, s') && m < |s.ready|
    requires |s.takes| + m < |s'.takes|
    ensures s'.takes[|s.takes|..|s.takes| + m] == s.ready[..m] && s'.takes[|s.takes| + m] == s.ready[m]
    ensures forall i, j :: 0 <= i < j <= m ==> s.ready[i].conv != s.ready[j].conv
  {
    RunSound(c, s, steps, s');
    HistoryGrows(c, s, steps, s');
    assert Fifo(s) && Fifo(s') && Apart(s) by {
      Unseal(c, s);
      Unseal(c, s');
    }
    SameStretch(s.takes, s.ready, s'.takes, s'.ready, m);
  }

  lemma SameStretch(takes: seq<Turn>, ready: seq<Turn>, takes': seq<Turn>, ready': seq<Turn>, m: nat)
    requires takes + ready <= takes' + ready' && takes <= takes' && m < |ready| && |takes| + m < |takes'|
    ensures takes'[|takes|..|takes| + m] == ready[..m] && takes'[|takes| + m] == ready[m]
  {
    var n := |takes|;
    forall i | 0 <= i <= m ensures takes'[n + i] == ready[i] {
      assert (takes' + ready')[n + i] == (takes + ready)[n + i];
    }
  }

  // --- Lockstep ---

  ghost predicate Nondecreasing(turns: seq<Turn>) {
    forall i, j :: 0 <= i < j < |turns| ==> turns[i].k <= turns[j].k
  }

  /** No turn k is taken after a turn k + 1. */
  ghost predicate Lockstep(s: State) {
    Nondecreasing(s.takes)
  }

  /** No turn k is sent after a turn k + 1. */
  ghost predicate SentLockstep(s: State) {
    Nondecreasing(s.sends)
  }

  /** Between the last turn taken and its conversation's turn before that, every other conversation
      that has not ended was taken. */
  ghost predicate Between(c: Config, s: State) {
    var last := |s.takes| - 1;
    forall i, y: nat :: 0 <= i < last && Follows(s.takes[i], s.takes[last]) && y < |c.convs| ==>
      y == s.takes[last].conv || y in s.ended || Among(s.takes, i, last, y)
  }

  /** The later turn comes right after the earlier one in their conversation. */
  ghost predicate Follows(t: Turn, next: Turn) {
    next.conv == t.conv && next.k == t.k + 1
  }

  /** Some turn strictly between the two places is of this conversation. */
  ghost predicate Among(turns: seq<Turn>, i: int, j: int, conv: nat)
    requires 0 <= i <= j <= |turns|
  {
    exists p :: i < p < j && turns[p].conv == conv
  }

  /** Conversation a of at least m turns runs beside another, b, of at least n. */
  ghost predicate Beside(c: Config, a: nat, m: nat, b: nat, n: nat) {
    a < |c.convs| && b < |c.convs| && a != b && |c.convs[a]| >= m && |c.convs[b]| >= n
  }

  /** Some conversation of three turns runs beside another of two. */
  ghost predicate Overtakes(c: Config) {
    exists a, b :: Beside(c, a, 3, b, 2)
  }

  /** Some conversation of two turns runs beside another. */
  ghost predicate Outruns(c: Config) {
    exists a, b :: Beside(c, a, 2, b, 1)
  }

  /** Some conversation of three turns runs beside a later one, or of two beside an earlier one. */
  ghost predicate Laps(c: Config) {
    exists a, b :: LapsAt(c, a, b)
  }

  ghost predicate LapsAt(c: Config, a: nat, b: nat) {
    Beside(c, a, if a < b then 3 else 2, b, 1)
  }

  // --- One worker ---

  ghost predicate AtMost(turns: seq<Turn>, k: int) {
    forall i :: 0 <= i < |turns| ==> turns[i].k <= k
  }

  /** The turn at hand, or else the next to be taken. */
  ghost function Current(s: State): Option<Turn> {
    if Holds(s, 0) then Some(s.workers[0].turn) else if s.ready != [] then Some(s.ready[0]) else None
  }

  /** With one worker no queued turn is more than one ahead of the current one, the turn at hand
      is the last one taken, and what was taken has been sent, but for a turn just taken. */
  ghost predicate OneOk(s: State) {
    && |s.workers| == 1
    && Nondecreasing(s.queued)
    && (Current(s).Some? ==> AtMost(s.queued, Current(s).value.k + 1))
    && (Holds(s, 0) ==> s.takes != [] && s.workers[0].turn == s.takes[|s.takes| - 1])
    && s.takes == s.sends + if s.workers[0].Holding? then [s.workers[0].turn] else []
  }

  lemma NextK(queued: seq<Turn>, i: nat, k: nat)
    requires Nondecreasing(queued) && i < |queued| && AtMost(queued, k + 1) && k <= queued[i].k
    ensures AtMost(queued, queued[i].k + 1)
  {
  }

  lemma AppendK(queued: seq<Turn>, next: Turn)
    requires Nondecreasing(queued) && AtMost(queued, next.k)
    ensures Nondecreasing(queued + [next]) && AtMost(queued + [next], next.k)
  {
  }

  lemma OneTake(c: Config, s: State)
    requires Fifo(s) && OneOk(s) && Enabled(c, s, Take(0))
    ensures OneOk(Do(c, s, Take(0)))
  {
    assert !Holds(s, 0);
    assert Current(s) == Some(s.ready[0]);
    var s' := Do(c, s, Take(0));
    assert Holds(s', 0) && Current(s') == Some(s.ready[0]);
  }

  lemma OneFinish(c: Config, s: State, answer: Option<string>)
    requires Fifo(s) && OneOk(s) && Enabled(c, s, Finish(0, answer))
    ensures OneOk(Finished(c, s, 0, answer))
  {
    var s', t := Finished(c, s, 0, answer), s.workers[0].turn;
    assert Holds(s, 0) && Current(s) == Some(t);
    assert s.queued[|s.takes| - 1] == t;
    FinishHolds(c, s, 0, answer);
    if s'.queued != s.queued {
      AppendK(s.queued, s'.queued[|s.queued|]);
    }
    if s'.ready != [] {
      var at := |s.takes|;
      assert s'.queued == s.takes + s'.ready;
      assert s'.queued[at] == s'.ready[0] && s'.queued[at - 1] == t;
      NextK(s'.queued, at, t.k);
    }
    assert s.takes == s.sends + [];
  }

  lemma OneStep(c: Config, s: State, step: Step)
    requires Fifo(s) && OneOk(s) && Enabled(c, s, step)
    ensures OneOk(Do(c, s, step))
  {
    match step {
      case Take(_) => OneTake(c, s);
      case Finish(_, answer) => OneFinish(c, s, answer);
      case Send(_) =>
        assert Holds(s, 0) && Holds(Do(c, s, step), 0);
        assert s.sends + [s.workers[0].turn] + [] == s.takes;
      case Wait(_) => assert !Holds(s, 0) && !Holds(Do(c, s, step), 0);
      case Leave(_) => assert !Holds(s, 0) && !Holds(Do(c, s, step), 0);
      case Wake(_) => assert !Holds(s, 0) && !Holds(Do(c, s, step), 0);
    }
  }

  lemma {:induction false} OneRun(c: Config, s: State, steps: seq<Step>, s': State)
    requires Sound(c, s) && OneOk(s) && Reaches(c, s, steps, s')
    ensures OneOk(s')
    decreases |steps|
  {
    if steps != [] {
      assert Fifo(s) by {
        Unseal(c, s);
      }
      StepSound(c, s, steps[0]);
      OneStep(c, s, steps[0]);
      OneRun(c, Do(c, s, steps[0]), steps[1..], s');
    }
  }

  /** Between two turns of a conversation, every other one that has not ended was queued. */
  ghost predicate Rounds(n: nat, queued: seq<Turn>, ended: set<nat>) {
    forall i, j, y: nat :: 0 <= i < j < |queued| && Follows(queued[i], queued[j]) && y < n ==>
      y == queued[j].conv || y in ended || Among(queued, i, j, y)
  }

  lemma RoundsNext(c: Config, s: State, next: Turn)
    requires Rounds(|c.convs|, s.queued, s.ended) && Fifo(s)
    requires forall y: nat :: y < |c.convs| && y != next.conv && y !in s.ended ==>
               exists r :: 0 <= r < |s.ready| && s.ready[r].conv == y
    requires forall i :: |s.takes| <= i < |s.queued| ==> s.queued[i].conv != next.conv
    ensures Rounds(|c.convs|, s.queued + [next], s.ended)
  {
    var queued := s.queued + [next];
    forall i, j, y: nat | 0 <= i < j < |queued| && Follows(queued[i], queued[j]) && y < |c.convs|
      ensures y == queued[j].conv || y in s.ended || Among(queued, i, j, y)
    {
      if j < |s.queued| {
        assert Follows(s.queued[i], s.queued[j]);
        if Among(s.queued, i, j, y) {
          var p :| i < p < j && s.queued[p].conv == y;
          assert queued[p].conv == y;
        }
      } else if y != next.conv && y !in s.ended {
        var r :| 0 <= r < |s.ready| && s.ready[r].conv == y;
        assert i < |s.takes|;
        assert queued[|s.takes| + r].conv == y;
      }
    }
  }

  lemma RoundsFinish(c: Config, s: State, answer: Option<string>)
    requires Inv(c, s) && |s.workers| == 1 && Rounds(|c.convs|, s.queued, s.ended) && Enabled(c, s, Finish(0, answer))
    ensures var s' := Finished(c, s, 0, answer); Rounds(|c.convs|, s'.queued, s'.ended)
  {
    var s', t := Finished(c, s, 0, answer), s.workers[0].turn;
    assert Holds(s, 0);
    if s'.queued != s.queued {
      forall y: nat | y < |c.convs| && y != t.conv && y !in s.ended
        ensures exists r :: 0 <= r < |s.ready| && s.ready[r].conv == y
      {
        assert Somewhere(s, y);
      }
      assert forall i :: |s.takes| <= i < |s.queued| ==> s.queued[i] == s.ready[i - |s.takes|];
      RoundsNext(c, s, s'.queued[|s.queued|]);
    }
  }

  lemma {:induction false} RoundsRun(c: Config, s: State, steps: seq<Step>, s': State)
    requires Sound(c, s) && |s.workers| == 1 && Rounds(|c.convs|, s.queued, s.ended) && Reaches(c, s, steps, s')
    ensures Rounds(|c.convs|, s'.queued, s'.ended)
    decreases |steps|
  {
    if steps != [] {
      var step := steps[0];
      StepSound(c, s, step);
      if step.Finish? {
        Unseal(c, s);
        RoundsFinish(c, s, step.answer);
      }
      assert |Do(c, s, step).workers| == 1;
      RoundsRun(c, Do(c, s, step), steps[1..], s');
    }
  }

  // --- Any number of workers ---

  ghost predicate LatestIn(queued: seq<Turn>, t: Turn) {
    forall i :: 0 <= i < |queued| && queued[i].conv == t.conv ==> queued[i].k <= t.k
  }

  /** The first turns come first, in order; a conversation's turns are queued in order. */
  ghost predicate QueueShaped(c: Config, queued: seq<Turn>) {
    var n := |c.convs|;
    && n <= |queued|
    && (forall i :: 0 <= i < n ==> queued[i].conv == i && queued[i].k == 0)
    && (forall i :: n <= i < |queued| ==> queued[i].conv < n && 1 <= queued[i].k < |c.convs[queued[i].conv]|)
    && (forall i, j :: n <= i < j < |queued| && queued[i].conv == queued[j].conv ==> queued[i].k < queued[j].k)
  }

  ghost predicate Shaped(c: Config, s: State) {
    && QueueShaped(c, s.queued)
    && (forall i :: 0 <= i < |s.ready| ==> LatestIn(s.queued, s.ready[i]))
    && (forall w: nat :: Holds(s, w) ==> LatestIn(s.queued, s.workers[w].turn))
  }

  lemma QueueNext(c: Config, queued: seq<Turn>, t: Turn, next: Turn)
    requires QueueShaped(c, queued) && LatestIn(queued, t) && next.conv == t.conv && next.k == t.k + 1
    requires next.conv < |c.convs| && next.k < |c.convs[next.conv]|
    ensures QueueShaped(c, queued + [next]) && LatestIn(queued + [next], next)
  {
  }

  lemma ShapedFinish(c: Config, s: State, w: nat, answer: Option<string>)
    requires Apart(s) && Shaped(c, s) && Enabled(c, s, Finish(w, answer))
    ensures Shaped(c, Finished(c, s, w, answer))
  {
    var s', t := Finished(c, s, w, answer), s.workers[w].turn;
    assert Holds(s, w);
    FinishHolds(c, s, w, answer);
    if s'.queued != s.queued {
      var next := s'.queued[|s.queued|];
      QueueNext(c, s.queued, t, next);
      forall u: Turn | u.conv != t.conv && LatestIn(s.queued, u) ensures LatestIn(s'.queued, u) {
      }
    }
  }

  lemma ShapedStep(c: Config, s: State, step: Step)
    requires Apart(s) && Shaped(c, s) && Enabled(c, s, step)
    ensures Shaped(c, Do(c, s, step))
  {
    var s' := Do(c, s, step);
    if step.Finish? {
      ShapedFinish(c, s, step.w, step.answer);
    } else {
      assert forall w: nat :: Holds(s', w) ==>
               || (Holds(s, w) && s'.workers[w].turn == s.workers[w].turn)
               || (step.Take? && s'.workers[w].turn == s.ready[0]);
      assert s'.queued == s.queued;
    }
  }

  lemma {:induction false} ShapedRun(c: Config, s: State, steps: seq<Step>, s': State)
    requires Sound(c, s) && Shaped(c, s) && Reaches(c, s, steps, s')
    ensures Shaped(c, s')
    decreases |steps|
  {
    if steps != [] {
      assert Apart(s) by {
        Unseal(c, s);
      }
      StepSound(c, s, steps[0]);
      ShapedStep(c, s, steps[0]);
      ShapedRun(c, Do(c, s, steps[0]), steps[1..], s');
    }
  }

  lemma ShapedOrder(c: Config, queued: seq<Turn>)
    requires QueueShaped(c, queued) && !Overtakes(c)
    ensures Nondecreasing(queued)
  {
    forall i, j | 0 <= i < j < |queued| ensures queued[i].k <= queued[j].k {
      if i >= |c.convs| {
        assert !Beside(c, queued[i].conv, 3, queued[j].conv, 2);
      }
    }
  }

  /** Every other conversation's first turn lies between a first conversation's two. */
  lemma ShapedRounds(c: Config, queued: seq<Turn>, ended: set<nat>)
    requires WellFormed(c) && QueueShaped(c, queued) && !Laps(c)
    ensures Rounds(|c.convs|, queued, ended)
  {
    forall i, j, y: nat | 0 <= i < j < |queued| && Follows(queued[i], queued[j]) && y < |c.convs| && y != queued[j].conv
      ensures Among(queued, i, j, y)
    {
      var x := queued[j].conv;
      assert j >= |c.convs| && |c.convs[x]| >= 2;
      assert !LapsAt(c, x, y);
      assert i == x && queued[y].conv == y;
    }
  }

  /** A conversation's turns are sent in order, each once. */
  ghost predicate SentBelow(sends: seq<Turn>, t: Turn, k: int) {
    forall i :: 0 <= i < |sends| && sends[i].conv == t.conv ==> sends[i].k < k
  }

  ghost predicate SentInOrder(c: Config, s: State) {
    && (forall i :: 0 <= i < |s.sends| ==> s.sends[i].conv < |c.convs| && s.sends[i].k < |c.convs[s.sends[i].conv]|)
    && (forall i, j :: 0 <= i < j < |s.sends| && s.sends[i].conv == s.sends[j].conv ==> s.sends[i].k < s.sends[j].k)
    && (forall i :: 0 <= i < |s.ready| ==> SentBelow(s.sends, s.ready[i], s.ready[i].k))
    && (forall w: nat :: Holds(s, w) ==>
          SentBelow(s.sends, s.workers[w].turn, s.workers[w].turn.k + if s.workers[w].Sending? then 1 else 0))
  }

  lemma SentSend(c: Config, s: State, w: nat)
    requires Apart(s) && InOrder(c, s) && SentInOrder(c, s) && Enabled(c, s, Send(w))
    ensures SentInOrder(c, Do(c, s, Send(w)))
  {
    var s', t := Do(c, s, Send(w)), s.workers[w].turn;
    assert Holds(s, w) && Holds(s', w);
    assert forall v: nat :: v != w ==> Holds(s', v) == Holds(s, v);
    forall u: Turn, k: int | u.conv != t.conv && SentBelow(s.sends, u, k) ensures SentBelow(s'.sends, u, k) {
    }
  }

  lemma SentFinish(c: Config, s: State, w: nat, answer: Option<string>)
    requires SentInOrder(c, s) && Enabled(c, s, Finish(w, answer))
    ensures SentInOrder(c, Finished(c, s, w, answer))
  {
    assert Holds(s, w);
    FinishHolds(c, s, w, answer);
  }

  lemma SentStep(c: Config, s: State, step: Step)
    requires Apart(s) && InOrder(c, s) && SentInOrder(c, s) && Enabled(c, s, step)
    ensures SentInOrder(c, Do(c, s, step))
  {
    var s' := Do(c, s, step);
    if step.Send? {
      SentSend(c, s, step.w);
    } else if step.Finish? {
      SentFinish(c, s, step.w, step.answer);
    } else {
      assert forall w: nat :: Holds(s', w) ==>
               (Holds(s, w) && s'.workers[w] == s.workers[w]) || (step.Take? && s'.workers[w] == Holding(s.ready[0]));
    }
  }

  lemma {:induction false} SentRun(c: Config, s: State, steps: seq<Step>, s': State)
    requires Sound(c, s) && SentInOrder(c, s) && Reaches(c, s, steps, s')
    ensures SentInOrder(c, s')
    decreases |steps|
  {
    if steps != [] {
      assert Apart(s) && InOrder(c, s) by {
        Unseal(c, s);
      }
      StepSound(c, s, steps[0]);
      SentStep(c, s, steps[0]);
      SentRun(c, Do(c, s, steps[0]), steps[1..], s');
    }
  }

  // --- When the documented order holds ---

  /** What the invariant says of every state of a run. */
  lemma RunFacts(c: Config, steps: seq<Step>, s: State)
    requires WellFormed(c) && Reaches(c, Init(c), steps, s)
    ensures s.queued == s.takes + s.ready && QueueShaped(c, s.queued)
    ensures forall w: nat :: Holds(s, w) ==> LatestIn(s.queued, s.workers[w].turn)
    ensures c.workers == 1 ==> OneOk(s) && Rounds(|c.convs|, s.queued, s.ended)
    ensures c.workers == 0 ==> s.takes == [] == s.sends
  {
    InitSound(c);
    RunSound(c, Init(c), steps, s);
    assert Fifo(s) by {
      Unseal(c, s);
    }
    InitFacts(c);
    ShapedRun(c, Init(c), steps, s);
    if c.workers == 1 {
      OneRun(c, Init(c), steps, s);
      RoundsRun(c, Init(c), steps, s);
    } else if c.workers == 0 {
      assert steps == [];
    }
  }

  lemma InitFacts(c: Config)
    requires WellFormed(c)
    ensures Shaped(c, Init(c)) && SentInOrder(c, Init(c)) && Rounds(|c.convs|, Init(c).queued, Init(c).ended)
    ensures c.workers == 1 ==> OneOk(Init(c))
  {
    var s := Init(c);
    assert forall w: nat :: !Holds(s, w);
    FirstShaped(c);
    NothingSent(c, s);
    if c.workers == 1 {
      NothingTaken(s);
    }
  }

  lemma NothingSent(c: Config, s: State)
    requires s.sends == [] && forall w: nat :: !Holds(s, w)
    ensures SentInOrder(c, s)
  {
  }

  lemma NothingTaken(s: State)
    requires |s.workers| == 1 && s.workers[0] == Awake && s.takes == [] == s.sends
    requires s.ready == s.queued && Nondecreasing(s.queued) && AtMost(s.queued, 0)
    ensures OneOk(s)
  {
    assert !Holds(s, 0);
  }

  lemma FirstShaped(c: Config)
    ensures QueueShaped(c, FirstTurns(|c.convs|)) && Nondecreasing(FirstTurns(|c.convs|)) &&
              AtMost(FirstTurns(|c.convs|), 0)
    ensures forall i :: 0 <= i < |c.convs| ==> LatestIn(FirstTurns(|c.convs|), FirstTurns(|c.convs|)[i])
    ensures Rounds(|c.convs|, FirstTurns(|c.convs|), {})
  {
  }

  /** With one worker, or with no conversation of three turns beside one of two, the turns are
      taken in lockstep. */
  lemma LockstepHolds(c: Config, steps: seq<Step>, s: State)
    requires WellFormed(c) && Reaches(c, Init(c), steps, s) && (c.workers <= 1 || !Overtakes(c))
    ensures Lockstep(s)
  {
    RunFacts(c, steps, s);
    assert forall i :: 0 <= i < |s.takes| ==> s.takes[i] == s.queued[i];
    if !Overtakes(c) {
      ShapedOrder(c, s.queued);
    }
  }

  /** With one worker, or with no conversation of two turns beside another, the turns are sent in
      lockstep. */
  lemma SentLockstepHolds(c: Config, steps: seq<Step>, s: State)
    requires WellFormed(c) && Reaches(c, Init(c), steps, s) && (c.workers <= 1 || !Outruns(c))
    ensures SentLockstep(s)
  {
    RunFacts(c, steps, s);
    if c.workers == 1 {
      assert forall i :: 0 <= i < |s.sends| ==> s.sends[i] == s.takes[i] == s.queued[i];
    } else if c.workers > 1 {
      InitSound(c);
      InitFacts(c);
      SentRun(c, Init(c), steps, s);
      forall i, j | 0 <= i < j < |s.sends| ensures s.sends[i].k <= s.sends[j].k {
        var a, b := s.sends[i].conv, s.sends[j].conv;
        assert !Beside(c, a, 2, b, 1);
      }
    }
  }

  /** With one worker, or when no conversation laps another, every other live conversation takes a
      turn between two turns of one. */
  lemma BetweenHolds(c: Config, steps: seq<Step>, s: State)
    requires WellFormed(c) && Reaches(c, Init(c), steps, s) && (c.workers <= 1 || !Laps(c))
    ensures Between(c, s)
  {
    RunFacts(c, steps, s);
    if c.workers > 0 {
      if !Laps(c) {
        ShapedRounds(c, s.queued, s.ended);
      }
      RoundsBetween(c, s);
    }
  }

  lemma RoundsBetween(c: Config, s: State)
    requires Rounds(|c.convs|, s.queued, s.ended) && s.queued == s.takes + s.ready
    ensures Between(c, s)
  {
    assert forall i :: 0 <= i < |s.takes| ==> s.takes[i] == s.queued[i];
    var last := |s.takes| - 1;
    forall i, y: nat | 0 <= i < last && Follows(s.takes[i], s.takes[last]) && y < |c.convs|
      ensures y == s.takes[last].conv || y in s.ended || Among(s.takes, i, last, y)
    {
      assert Follows(s.queued[i], s.queued[last]);
      if Among(s.queued, i, last, y) {
        var p :| i < p < last && s.queued[p].conv == y;
        assert s.takes[p].conv == y;
      }
    }
  }

  // --- Runs out of order, without any turn failing ---

  ghost predicate Answered(steps: seq<Step>) {
    forall i :: 0 <= i < |steps| && steps[i].Finish? ==> steps[i].answer.Some?
  }

  lemma {:induction false} ReachesOn(c: Config, s: State, a: seq<Step>, s': State, b: seq<Step>, s'': State)
    requires Reaches(c, s, a, s') && Reaches(c, s', b, s'')
    ensures Reaches(c, s, a + b, s'')
    decreases |a|
  {
    if a == [] {
      assert a + b == b;
    } else {
      var steps := a + b;
      assert steps[0] == a[0] && steps[1..] == a[1..] + b;
      ReachesOn(c, Do(c, s, a[0]), a[1..], s', b, s'');
      assert Reaches(c, Do(c, s, steps[0]), steps[1..], s'');
    }
  }

  lemma ReachesJoin(c: Config, s: State, a: seq<Step>, s': State, b: seq<Step>, s'': State)
    requires Reaches(c, s, a, s') && Reaches(c, s', b, s'')
    ensures Reaches(c, s, a + b, s'')
    ensures Answered(a) && Answered(b) ==> Answered(a + b)
  {
    ReachesOn(c, s, a, s', b, s'');
  }

  lemma OneStepRun(c: Config, s: State, step: Step) returns (s': State)
    requires Sound(c, s) && Enabled(c, s, step)
    ensures s' == Do(c, s, step) && Sound(c, s') && Reaches(c, s, [step], s')
  {
    s' := Do(c, s, step);
    StepSound(c, s, step);
    assert [step][1..] == [];
  }

  /** The other workers are as they were. */
  ghost predicate OthersSame(s: State, s': State, w: nat) {
    && |s'.workers| == |s.workers|
    && forall v :: 0 <= v < |s.workers| && v != w && s.workers[v] != Waiting ==> s'.workers[v] == s.workers[v]
  }

  /** Only conversations of at most m + 1 turns ended, and only turns up to m + 1 were queued. */
  ghost predicate Modest(c: Config, s: State, s': State, m: nat) {
    && s.queued <= s'.queued
    && (forall i :: |s.queued| <= i < |s'.queued| ==> s'.queued[i].k <= m + 1)
    && (forall conv :: conv in s'.ended && conv !in s.ended ==> conv < |c.convs| && |c.convs[conv]| <= m + 1)
  }

  function Reply(w: nat): (steps: seq<Step>) {
    [Send(w), Finish(w, Some(""))]
  }

  /** A worker sends the turn it took, and has an answer. */
  lemma SendFinish(c: Config, s: State, w: nat) returns (s': State)
    requires Sound(c, s) && w < |s.workers| && s.workers[w].Holding?
    ensures Reaches(c, s, Reply(w), s') && Sound(c, s') && Answered(Reply(w))
    ensures OthersSame(s, s', w) && s'.workers[w] == Awake && s'.takes == s.takes &&
              Modest(c, s, s', s.workers[w].turn.k)
    ensures var t := s.workers[w].turn;
            t.conv < |c.convs| && t.k + 1 < |c.convs[t.conv]| ==>
              |s'.queued| == |s.queued| + 1 && Follows(t, s'.queued[|s.queued|])
  {
    var s1 := OneStepRun(c, s, Send(w));
    var finish := Finish(w, Some(""));
    assert Enabled(c, s1, finish) by {
      Unseal(c, s1);
      assert Holds(s1, w);
    }
    s' := OneStepRun(c, s1, finish);
    ReachesJoin(c, s, [Send(w)], s1, [finish], s');
    assert [Send(w)] + [finish] == Reply(w);
  }

  lemma TakeFinish(c: Config, s: State, w: nat, m: nat) returns (s': State)
    requires Sound(c, s) && Enabled(c, s, Take(w)) && s.ready[0].k <= m
    ensures Reaches(c, s, [Take(w)] + Reply(w), s') && Sound(c, s') && Answered([Take(w)] + Reply(w))
    ensures OthersSame(s, s', w) && s'.workers[w] == Awake && |s'.takes| == |s.takes| + 1 && Modest(c, s, s', m)
  {
    var s1 := OneStepRun(c, s, Take(w));
    s' := SendFinish(c, s1, w);
    ReachesJoin(c, s, [Take(w)], s1, Reply(w), s');
  }

  /** One worker alone can go on, answering every turn, until p turns have been taken. */
  lemma {:induction false} DrainPast(c: Config, s: State, w: nat, p: nat, m: nat) returns (steps: seq<Step>, s': State)
    requires Sound(c, s) && w < |s.workers| && s.workers[w] == Awake && |s.takes| <= p < |s.queued|
    requires forall i :: 0 <= i < p ==> s.queued[i].k <= m
    ensures Reaches(c, s, steps, s') && Sound(c, s') && Answered(steps)
    ensures OthersSame(s, s', w) && Modest(c, s, s', m)
    ensures |s'.takes| == p && s'.workers[w] == Awake && s'.ready != [] && s'.ready[0] == s.queued[p]
    decreases p - |s.takes|
  {
    assert Fifo(s) by {
      Unseal(c, s);
    }
    assert s.queued[|s.takes|] == s.ready[0];
    if |s.takes| == p {
      steps, s' := [], s;
    } else {
      var s1 := TakeFinish(c, s, w, m);
      assert forall i :: 0 <= i <= p ==> s1.queued[i] == s.queued[i];
      var more;
      more, s' := DrainPast(c, s1, w, p, m);
      ReachesJoin(c, s, [Take(w)] + Reply(w), s1, more, s');
      steps := [Take(w)] + Reply(w) + more;
    }
  }

  /** One worker alone can go on until it takes the p-th queued turn. */
  lemma DrainTo(c: Config, s: State, w: nat, p: nat) returns (steps: seq<Step>, s': State)
    requires Sound(c, s) && w < |s.workers| && s.workers[w] == Awake && |s.takes| <= p < |s.queued|
    ensures Reaches(c, s, steps, s') && Sound(c, s') && Answered(steps)
    ensures OthersSame(s, s', w) && s.queued <= s'.queued
    ensures |s'.takes| == p + 1 && s'.takes[p] == s.queued[p] && s'.workers[w] == Holding(s.queued[p])
  {
    var s1;
    steps, s1 := DrainPast(c, s, w, p, MaxK(s.queued));
    s' := OneStepRun(c, s1, Take(w));
    ReachesJoin(c, s, steps, s1, [Take(w)], s');
    steps := steps + [Take(w)];
  }

  ghost function MaxK(turns: seq<Turn>): (m: nat)
    ensures forall i :: 0 <= i < |turns| ==> turns[i].k <= m
  {
    if turns == [] then 0
    else
      var last := |turns| - 1;
      var m := MaxK(turns[..last]);
      if turns[last].k > m then turns[last].k else m
  }

  /** One worker alone can go on until it has taken and answered the p-th queued turn; the turn
      after that is then the last one queued. */
  lemma DrainThrough(c: Config, s: State, w: nat, p: nat) returns (steps: seq<Step>, s': State)
    requires Sound(c, s) && w < |s.workers| && s.workers[w] == Awake && |s.takes| <= p < |s.queued|
    requires s.queued[p].conv < |c.convs| && s.queued[p].k + 1 < |c.convs[s.queued[p].conv]|
    ensures Reaches(c, s, steps, s') && Sound(c, s') && Answered(steps)
    ensures OthersSame(s, s', w) && s'.workers[w] == Awake && s.queued <= s'.queued
    ensures |s'.takes| == p + 1 < |s'.queued| && s'.takes[p] == s.queued[p]
    ensures Follows(s.queued[p], s'.queued[|s'.queued| - 1])
  {
    var s1;
    steps, s1 := DrainTo(c, s, w, p);
    s' := SendFinish(c, s1, w);
    ReachesJoin(c, s, steps, s1, Reply(w), s');
    steps := steps + Reply(w);
    assert Fifo(s1) by {
      Unseal(c, s1);
    }
  }

  /** While worker 1 sits on its turn, worker 0 takes conversation a's turn `top`; its turn before
      that, if it was still to come, is at `p`. */
  lemma {:induction false} Climb(c: Config, s: State, a: nat, p: nat, top: nat) returns (steps: seq<Step>, s': State)
    requires Sound(c, s) && |s.workers| >= 2 && s.workers[0] == Awake && s.workers[1].Holding?
    requires a < |c.convs| && top < |c.convs[a]|
    requires |s.takes| <= p < |s.queued| && s.queued[p].conv == a && s.queued[p].k <= top
    ensures Reaches(c, s, steps, s') && Sound(c, s') && Answered(steps)
    ensures |s'.workers| == |s.workers| && s'.workers[1] == s.workers[1] && s.queued <= s'.queued
    ensures |s.takes| < |s'.takes| && s'.workers[0] == Holding(s'.takes[|s'.takes| - 1])
    ensures s'.workers[0].turn.conv == a && s'.workers[0].turn.k == top
    ensures s.queued[p].k + 1 == top ==> p < |s'.takes| - 1 && s'.takes[p] == s.queued[p]
    decreases top - s.queued[p].k
  {
    if s.queued[p].k == top {
      steps, s' := DrainTo(c, s, 0, p);
    } else {
      var s1, more;
      steps, s1 := DrainThrough(c, s, 0, p);
      more, s' := Climb(c, s1, a, |s1.queued| - 1, top);
      HistoryGrows(c, s1, more, s');
      ReachesJoin(c, s, steps, s1, more, s');
      steps := steps + more;
    }
  }

  /** Worker 1 takes conversation b's first turn while worker 0 is idle again. */
  lemma HoldFirst(c: Config, b: nat) returns (steps: seq<Step>, s: State)
    requires WellFormed(c) && c.workers >= 2 && b < |c.convs|
    ensures Reaches(c, Init(c), steps, s) && Sound(c, s) && Answered(steps)
    ensures |s.workers| == c.workers && s.workers[0] == Awake && s.workers[1] == Holding(Turn(b, 0, ""))
    ensures forall w :: 1 < w < |s.workers| ==> s.workers[w] == Awake
    ensures Modest(c, Init(c), s, 0) && |s.takes| == b + 1
  {
    InitSound(c);
    var s1;
    steps, s1 := DrainPast(c, Init(c), 0, b, 0);
    s := OneStepRun(c, s1, Take(1));
    ReachesJoin(c, Init(c), steps, s1, [Take(1)], s);
    steps := steps + [Take(1)];
  }

  /** Where a conversation's next turn is when no worker holds it. */
  lemma QueuedTurn(c: Config, s: State, a: nat) returns (p: nat)
    requires Sound(c, s) && a < |c.convs| && a !in s.ended
    requires forall w: nat :: Holds(s, w) ==> s.workers[w].turn.conv != a
    ensures |s.takes| <= p < |s.queued| && s.queued[p].conv == a
  {
    Unseal(c, s);
    assert Somewhere(s, a);
    var i :| 0 <= i < |s.ready| && s.ready[i].conv == a;
    p := |s.takes| + i;
    assert s.queued[p] == s.ready[i];
  }

  /** Worker 1 sits on conversation b's first turn, and worker 0 has just taken conversation a's
      turn `top`. */
  lemma Ahead(c: Config, a: nat, b: nat, top: nat) returns (steps: seq<Step>, s: State)
    requires WellFormed(c) && c.workers >= 2 && a < |c.convs| && b < |c.convs| && a != b
    requires 1 <= top < |c.convs[a]|
    ensures Reaches(c, Init(c), steps, s) && Sound(c, s) && Answered(steps) && |s.workers| >= 2
    ensures s.workers[1] == Holding(Turn(b, 0, ""))
    ensures s.takes != [] && s.workers[0] == Holding(s.takes[|s.takes| - 1])
    ensures s.workers[0].turn.conv == a && s.workers[0].turn.k == top
    ensures top == (if a < b then 2 else 1) ==>
              exists p :: b < p < |s.takes| - 1 && Follows(s.takes[p], s.takes[|s.takes| - 1])
  {
    var s1, more;
    steps, s1 := HoldFirst(c, b);
    var p := QueuedTurn(c, s1, a);
    assert s1.queued[p].k <= 1;
    assert top == (if a < b then 2 else 1) ==> s1.queued[p].k + 1 == top by {
      FirstPlace(c, steps, s1, a, p);
    }
    more, s := Climb(c, s1, a, p, top);
    ReachesJoin(c, Init(c), steps, s1, more, s);
    steps := steps + more;
    if top == (if a < b then 2 else 1) {
      assert Follows(s.takes[p], s.takes[|s.takes| - 1]);
    }
  }

  /** A queued turn not yet taken is a first turn exactly when the conversation's place in the
      initial order has not been reached. */
  lemma FirstPlace(c: Config, steps: seq<Step>, s: State, a: nat, p: nat)
    requires WellFormed(c) && Reaches(c, Init(c), steps, s)
    requires |s.takes| <= p < |s.queued| && s.queued[p].conv == a < |c.convs|
    ensures s.queued[p].k == 0 <==> |s.takes| <= a
  {
    RunFacts(c, steps, s);
    InitSound(c);
    RunSound(c, Init(c), steps, s);
    Unseal(c, s);
    assert s.queued[p] == s.ready[p - |s.takes|];
    if |s.takes| <= a {
      assert s.queued[a] == s.ready[a - |s.takes|];
    }
  }

  /** Two workers, a conversation of three turns and another of two: some run takes the first
      one's turn 2 before the second one's turn 1, without any turn failing. */
  lemma OutOfStep(c: Config, a: nat, b: nat) returns (steps: seq<Step>, s: State)
    requires WellFormed(c) && c.workers >= 2 && Beside(c, a, 3, b, 2)
    ensures Reaches(c, Init(c), steps, s) && !Lockstep(s) && Answered(steps)
  {
    var s2, more;
    steps, s2 := Ahead(c, a, b, 2);
    var q := |s2.takes| - 1;
    var s3 := SendFinish(c, s2, 1);
    ReachesJoin(c, Init(c), steps, s2, Reply(1), s3);
    steps := steps + Reply(1);
    var last := |s2.queued|;
    assert |s3.takes| <= last by {
      Unseal(c, s2);
    }
    more, s := DrainTo(c, s3, 1, last);
    HistoryGrows(c, s3, more, s);
    ReachesJoin(c, Init(c), steps, s3, more, s);
    steps := steps + more;
    assert s.takes[q] == s3.takes[q] == s2.takes[q];
    assert q < last && s.takes[q].k == 2 && s.takes[last].k == 1;
  }

  /** Two workers, a conversation of two turns and another: some run sends the first one's turn 1
      before the second one's turn 0, without any turn failing. */
  lemma SentOutOfStep(c: Config, a: nat, b: nat) returns (steps: seq<Step>, s: State)
    requires WellFormed(c) && c.workers >= 2 && Beside(c, a, 2, b, 1)
    ensures Reaches(c, Init(c), steps, s) && !SentLockstep(s) && Answered(steps)
  {
    var s1;
    steps, s1 := Ahead(c, a, b, 1);
    var s2 := OneStepRun(c, s1, Send(0));
    ReachesJoin(c, Init(c), steps, s1, [Send(0)], s2);
    s := OneStepRun(c, s2, Send(1));
    ReachesJoin(c, Init(c), steps + [Send(0)], s2, [Send(1)], s);
    steps := steps + [Send(0)] + [Send(1)];
    var q := |s1.sends|;
    assert s.sends[q].k == 1 && s.sends[q + 1].k == 0;
  }

  lemma OnlyFirst(c: Config, queued: seq<Turn>, b: nat, q: nat)
    requires QueueShaped(c, queued) && LatestIn(queued, Turn(b, 0, "")) && q < |queued|
    ensures queued[q].conv == b ==> q == b
  {
  }

  /** Two workers, and a conversation that laps another: some run takes two turns of the one with
      none of the other in between, though it has not ended, without any turn failing. */
  lemma Lapped(c: Config, a: nat, b: nat) returns (steps: seq<Step>, s: State)
    requires WellFormed(c) && c.workers >= 2 && LapsAt(c, a, b)
    ensures Reaches(c, Init(c), steps, s) && !Between(c, s) && Answered(steps)
  {
    steps, s := Ahead(c, a, b, if a < b then 2 else 1);
    var last := |s.takes| - 1;
    var p: nat :| b < p < last && Follows(s.takes[p], s.takes[last]);
    assert Holds(s, 1);
    assert b !in s.ended by {
      Unseal(c, s);
      assert Somewhere(s, b);
    }
    RunFacts(c, steps, s);
    assert LatestIn(s.queued, s.workers[1].turn);
    forall q | p < q < last ensures s.takes[q].conv != b {
      assert s.takes[q] == s.queued[q];
      OnlyFirst(c, s.queued, b, q);
    }
  }

  /** A run from the start. */
  ghost predicate Runs(c: Config, steps: seq<Step>, s: State) {
    Reaches(c, Init(c), steps, s)
  }

  /** Turns are taken in lockstep in every run exactly for one worker at most, or when no
      conversation of three turns runs beside another of two. */
  lemma LockstepExactly(c: Config)
    requires WellFormed(c)
    ensures (forall steps, s :: Runs(c, steps, s) ==> Lockstep(s)) <==> c.workers <= 1 || !Overtakes(c)
  {
    if c.workers <= 1 || !Overtakes(c) {
      forall steps, s | Runs(c, steps, s) ensures Lockstep(s) {
        LockstepHolds(c, steps, s);
      }
    } else {
      var a, b :| Beside(c, a, 3, b, 2);
      var steps, s := OutOfStep(c, a, b);
      assert Runs(c, steps, s) && !Lockstep(s);
    }
  }

  /** The documented order, turn k of every conversation sent before turn k + 1 of any, holds in
      every run exactly for one worker at most, or when no conversation of two turns runs beside
      another. */
  lemma SentLockstepExactly(c: Config)
    requires WellFormed(c)
    ensures (forall steps, s :: Runs(c, steps, s) ==> SentLockstep(s)) <==> c.workers <= 1 || !Outruns(c)
  {
    if c.workers <= 1 || !Outruns(c) {
      forall steps, s | Runs(c, steps, s) ensures SentLockstep(s) {
        SentLockstepHolds(c, steps, s);
      }
    } else {
      var a, b :| Beside(c, a, 2, b, 1);
      var steps, s := SentOutOfStep(c, a, b);
      assert Runs(c, steps, s) && !SentLockstep(s);
    }
  }

  /** The documented alternation, every other live conversation takes a turn between two turns of
      one, holds in every run exactly for one worker at most, or when no conversation laps another:
      none of three turns beside a later one, none of two beside an earlier one. */
  lemma BetweenExactly(c: Config)
    requires WellFormed(c)
    ensures (forall steps, s :: Runs(c, steps, s) ==> Between(c, s)) <==> c.workers <= 1 || !Laps(c)
  {
    if c.workers <= 1 || !Laps(c) {
      forall steps, s | Runs(c, steps, s) ensures Between(c, s) {
        BetweenHolds(c, steps, s);
      }
    } else {
      var a, b :| LapsAt(c, a, b);
      var steps, s := Lapped(c, a, b);
      assert Runs(c, steps, s) && !Between(c, s);
    }
  }
}

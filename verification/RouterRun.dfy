/** How long the router's runs are: apart from waiting and waking up, which may happen any number
    of times, every step uses up a bounded supply, and from every state a run can be completed. */
module RouterRuns {
  import opened Common
  import opened Routers

  /** The steps other than waiting and waking up. */
  ghost function Moves(steps: seq<Step>): nat {
    if steps == [] then 0 else (if Idles(steps[0]) then 0 else 1) + Moves(steps[1..])
  }

  predicate Idles(step: Step) {
    step.Wait? || step.Wake?
  }

  /** All turns of all conversations. */
  ghost function AllTurns(convs: seq<seq<string>>): nat {
    if convs == [] then 0 else |convs[0]| + AllTurns(convs[1..])
  }

  // --- Steps made, read off a state ---

  /** A turn taken is three steps, of which its holder has still to make some; leaving is one. */
  function Weight(x: Worker): (n: int) {
    match x
    case Awake => 0
    case Waiting => 0
    case Holding(_) => -2
    case Sending(_) => -1
    case Exited => 1
  }

  ghost function Weigh(workers: seq<Worker>): int {
    if workers == [] then 0 else Weight(workers[0]) + Weigh(workers[1..])
  }

  ghost function Score(s: State): int {
    3 * |s.takes| + Weigh(s.workers)
  }

  lemma {:induction false} WeighUpdate(a: seq<Worker>, w: nat, x: Worker)
    requires w < |a|
    ensures Weigh(a[w := x]) == Weigh(a) - Weight(a[w]) + Weight(x)
  {
    if w > 0 {
      assert a[w := x][1..] == a[1..][w - 1 := x];
      WeighUpdate(a[1..], w - 1, x);
    }
  }

  lemma {:induction false} WeighSame(a: seq<Worker>, b: seq<Worker>)
    requires |a| == |b| && forall i :: 0 <= i < |a| ==> Weight(a[i]) == Weight(b[i])
    ensures Weigh(a) == Weigh(b)
  {
    if a != [] {
      WeighSame(a[1..], b[1..]);
    }
  }

  lemma {:induction false} WeighAtMost(a: seq<Worker>)
    ensures Weigh(a) <= |a|
    ensures (forall i :: 0 <= i < |a| ==> a[i] == Exited) ==> Weigh(a) == |a|
  {
    if a != [] {
      WeighAtMost(a[1..]);
    }
  }

  lemma ScoreStep(c: Config, s: State, step: Step)
    requires Enabled(c, s, step)
    ensures Score(Do(c, s, step)) == Score(s) + if Idles(step) then 0 else 1
  {
    var w := step.w;
    match step {
      case Take(_) => WeighUpdate(s.workers, w, Holding(s.ready[0]));
      case Wait(_) => WeighUpdate(s.workers, w, Waiting);
      case Leave(_) => WeighUpdate(s.workers, w, Exited);
      case Wake(_) => WeighUpdate(s.workers, w, Awake);
      case Send(_) => WeighUpdate(s.workers, w, Sending(s.workers[w].turn));
      case Finish(_, answer) =>
        WeighUpdate(s.workers, w, Awake);
        WeighSame(s.workers[w := Awake], Notified(s.workers[w := Awake]));
    }
  }

  lemma {:induction false} ScoreRun(c: Config, s: State, steps: seq<Step>, s': State)
    requires Reaches(c, s, steps, s')
    ensures Score(s') == Score(s) + Moves(steps)
    decreases |steps|
  {
    if steps != [] {
      ScoreStep(c, s, steps[0]);
      ScoreRun(c, Do(c, s, steps[0]), steps[1..], s');
    }
  }

  lemma {:induction false} AllAwake(workers: seq<Worker>)
    requires forall i :: 0 <= i < |workers| ==> workers[i] == Awake
    ensures Weigh(workers) == 0
  {
    if workers != [] {
      AllAwake(workers[1..]);
    }
  }

  // --- Turns queued ---

  /** The turns queued when these answers have come, one per answer and one to begin with. */
  ghost function Asked(answers: seq<seq<string>>): nat {
    if answers == [] then 0 else 1 + |answers[0]| + Asked(answers[1..])
  }

  ghost predicate MeteredOk(c: Config, s: State) {
    && |s.answers| == |c.convs|
    && |s.queued| == Asked(s.answers)
    && (forall i :: 0 <= i < |c.convs| ==> |s.answers[i]| < |c.convs[i]|)
  }

  /** Every turn queued is a different turn of some conversation, counted. Carried whole. */
  ghost predicate Metered(c: Config, s: State) {
    forall k {:trigger Open(s.answers, k)} :: Open(s.answers, k) ==> MeteredOk(c, s)
  }

  lemma {:induction false} AskedUpdate(answers: seq<seq<string>>, i: nat, a: string)
    requires i < |answers|
    ensures Asked(answers[i := answers[i] + [a]]) == Asked(answers) + 1
  {
    if i > 0 {
      assert answers[i := answers[i] + [a]][1..] == answers[1..][i - 1 := answers[i] + [a]];
      AskedUpdate(answers[1..], i - 1, a);
    }
  }

  lemma {:induction false} AskedAtMost(answers: seq<seq<string>>, convs: seq<seq<string>>)
    requires |answers| == |convs| && forall i :: 0 <= i < |convs| ==> |answers[i]| < |convs[i]|
    ensures Asked(answers) <= AllTurns(convs)
    ensures (forall i :: 0 <= i < |convs| ==> |answers[i]| + 1 == |convs[i]|) ==> Asked(answers) == AllTurns(convs)
  {
    if convs != [] {
      AskedAtMost(answers[1..], convs[1..]);
    }
  }

  lemma {:induction false} AskedFirst(answers: seq<seq<string>>)
    requires forall i :: 0 <= i < |answers| ==> answers[i] == []
    ensures Asked(answers) == |answers|
  {
    if answers != [] {
      AskedFirst(answers[1..]);
    }
  }

  lemma MeteredStep(c: Config, s: State, step: Step)
    requires Sound(c, s) && Metered(c, s) && Enabled(c, s, step)
    ensures Metered(c, Do(c, s, step))
  {
    assert Open(s.answers, 0);
    if step.Finish? {
      HeldTurn(c, s, step.w);
      var t := s.workers[step.w].turn;
      if step.answer.Some? && t.k + 1 < |c.convs[t.conv]| {
        AskedUpdate(s.answers, t.conv, step.answer.value);
      }
    }
  }

  lemma HeldTurn(c: Config, s: State, w: nat)
    requires Sound(c, s) && Holds(s, w)
    ensures TurnOk(c, s.answers, s.workers[w].turn)
  {
    Unseal(c, s);
  }

  /** In a run whose every turn was answered, a conversation ends only after its last turn. */
  ghost predicate Full(c: Config, s: State) {
    forall i :: i in s.ended && i < |c.convs| && i < |s.answers| ==> |s.answers[i]| + 1 >= |c.convs[i]|
  }

  lemma FullStep(c: Config, s: State, step: Step)
    requires Sound(c, s) && Full(c, s) && Enabled(c, s, step) && (step.Finish? ==> step.answer.Some?)
    ensures Full(c, Do(c, s, step))
  {
    if step.Finish? {
      HeldTurn(c, s, step.w);
    }
  }

  lemma {:induction false} RunMetered(c: Config, s: State, steps: seq<Step>, s': State)
    requires Sound(c, s) && Metered(c, s) && Reaches(c, s, steps, s')
    ensures Sound(c, s') && Metered(c, s')
    ensures Full(c, s) && Answered(steps) ==> Full(c, s')
    decreases |steps|
  {
    if steps != [] {
      StepSound(c, s, steps[0]);
      MeteredStep(c, s, steps[0]);
      if Full(c, s) && Answered(steps) {
        FullStep(c, s, steps[0]);
      }
      RunMetered(c, Do(c, s, steps[0]), steps[1..], s');
    }
  }

  lemma InitMetered(c: Config)
    requires WellFormed(c)
    ensures Sound(c, Init(c)) && Metered(c, Init(c)) && Full(c, Init(c)) && Score(Init(c)) == 0
  {
    InitSound(c);
    AskedFirst(Init(c).answers);
    AllAwake(Init(c).workers);
  }

  // --- The bound ---

  ghost function Budget(c: Config): nat {
    3 * AllTurns(c.convs) + c.workers
  }

  lemma ScoreAtMost(c: Config, s: State)
    requires Sound(c, s) && Metered(c, s)
    ensures Score(s) <= Budget(c) && |s.takes| <= AllTurns(c.convs)
  {
    Unseal(c, s);
    assert Open(s.answers, 0);
    AskedAtMost(s.answers, c.convs);
    WeighAtMost(s.workers);
  }

  /** No run, however long it waits, makes more than three steps for every turn and one for every
      worker besides waiting and waking up. */
  lemma BoundedRun(c: Config, steps: seq<Step>, s: State)
    requires WellFormed(c) && Reaches(c, Init(c), steps, s)
    ensures Moves(steps) <= Budget(c)
  {
    InitMetered(c);
    RunMetered(c, Init(c), steps, s);
    ScoreRun(c, Init(c), steps, s);
    ScoreAtMost(c, s);
  }

  ghost predicate AllExited(s: State) {
    forall w :: 0 <= w < |s.workers| ==> s.workers[w] == Exited
  }

  /** A run that has ended took every turn it queued; if every turn was answered, these are all the
      turns, and it made exactly so many steps. */
  lemma FullRun(c: Config, steps: seq<Step>, s: State)
    requires WellFormed(c) && Reaches(c, Init(c), steps, s) && AllExited(s) && c.workers > 0
    ensures s.takes == s.queued && Moves(steps) == 3 * |s.takes| + c.workers
    ensures Answered(steps) ==> |s.takes| == AllTurns(c.convs) && Moves(steps) == Budget(c)
  {
    InitMetered(c);
    RunMetered(c, Init(c), steps, s);
    ScoreRun(c, Init(c), steps, s);
    WeighAtMost(s.workers);
    EndTakes(c, s);
    if Answered(steps) {
      EndFull(c, s);
    }
  }

  lemma EndTakes(c: Config, s: State)
    requires Sound(c, s) && AllExited(s) && c.workers > 0
    ensures s.takes == s.queued && |s.workers| == c.workers && forall conv: nat :: conv < |c.convs| ==> conv in s.ended
  {
    Unseal(c, s);
    ExitAtEnd(c, s, 0);
  }

  lemma EndFull(c: Config, s: State)
    requires Metered(c, s) && Full(c, s) && forall conv: nat :: conv < |c.convs| ==> conv in s.ended
    ensures |s.queued| == AllTurns(c.convs)
  {
    assert Open(s.answers, 0);
    AskedAtMost(s.answers, c.convs);
  }

  // --- A run can always be completed ---

  ghost function AwakeIn(workers: seq<Worker>): nat {
    if workers == [] then 0 else (if workers[0] == Awake then 1 else 0) + AwakeIn(workers[1..])
  }

  lemma {:induction false} AwakeUpdate(a: seq<Worker>, w: nat)
    requires w < |a| && a[w] == Awake
    ensures AwakeIn(a[w := Waiting]) < AwakeIn(a)
  {
    if w > 0 {
      assert a[w := Waiting][1..] == a[1..][w - 1 := Waiting];
      AwakeUpdate(a[1..], w - 1);
    }
  }

  /** From every state a run may be in, it can be completed, every further turn being answered. */
  lemma {:induction false} Completes(c: Config, s: State) returns (steps: seq<Step>, s': State)
    requires Sound(c, s) && Metered(c, s)
    ensures Reaches(c, s, steps, s') && AllExited(s') && Answered(steps)
    decreases Budget(c) - Score(s), AwakeIn(s.workers)
  {
    if AllExited(s) {
      steps, s' := [], s;
    } else {
      var step := NoDeadlock(c, s);
      var s1 := Do(c, s, step);
      StepSound(c, s, step);
      MeteredStep(c, s, step);
      ScoreStep(c, s, step);
      ScoreAtMost(c, s1);
      if step.Wait? {
        AwakeUpdate(s.workers, step.w);
      }
      var rest;
      rest, s' := Completes(c, s1);
      steps := [step] + rest;
      assert steps[1..] == rest;
    }
  }

  /** From every state reached, however it was reached. */
  lemma EndReachable(c: Config, steps: seq<Step>, s: State) returns (more: seq<Step>, s': State)
    requires WellFormed(c) && Reaches(c, Init(c), steps, s)
    ensures Reaches(c, Init(c), steps + more, s') && AllExited(s') && Answered(more)
  {
    InitMetered(c);
    RunMetered(c, Init(c), steps, s);
    more, s' := Completes(c, s);
    ReachesOn(c, Init(c), steps, s, more, s');
  }
}

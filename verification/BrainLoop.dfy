/** The loop between the relay and the cerebellum (internal/brain/diencephalon.go and
    internal/brain/cerebellum.go): each one-step command becomes a page, and the correction of the page
    goes back to the relay. */
module BrainLoop {
  import opened Wrappers
  import C = Cerebellum
  import G = GoStrings
  import R = PlanRelay
  import T = Texts

  // ---- Pages with one step ----

  /** So a page with one step never delegates and sends exactly one correction. */
  lemma OneStepPage(w: C.World, goal: string, step: string)
    ensures var sent := C.PageSent(w, goal, [step]); |sent| == 1 && sent[0].goal == R.StepGoal(goal, 0)
  {
    hide *;
    C.FreshBudget(w, goal, [step]);
    C.PageStep(w, goal, [step], 0);
    C.StepCalls(w, goal, 0, step, 0);
    C.PageBudget(w, goal, [step], 1);
    FewCalls(w, C.PageAfter(w, goal, [step], 1));
    C.PageSentMeans(w, goal, [step]);
  }

  lemma FewCalls(w: C.World, p: C.Page)
    requires C.Budgeted(w, 0, p.calls, p.delegatedAt.Some?) && p.calls <= 2
    ensures p.delegatedAt.None?
  {
  }

  // ---- Rounds ----

  /** The correction that the page of a command sends back. */
  ghost function Reply(w: C.World, session: string, step: string): (c: R.Message)
    ensures c.Correction?
  {
    var sent := C.PageSent(w, session, [step]);
    if |sent| == 0 then R.Correction("", []) else R.Correction(sent[0].goal, sent[0].plan)
  }

  /** The sessions and what the relay has sent after a plan and n rounds, the page of round k running
      in worlds(k). */
  ghost function Rounds(ss: R.Sessions, m: R.Message, worlds: nat -> C.World, n: nat): (r: (R.Sessions, seq<R.Out>))
    requires R.ValidSessions(ss)
    ensures R.ValidSessions(r.0) && |r.1| > 0
  {
    if n == 0 then
      (R.Handled(ss, m).0, [R.Handled(ss, m).1])
    else
      var (ss0, outs) := Rounds(ss, m, worlds, n - 1);
      match outs[|outs| - 1]
      case ToMotor(session, step) =>
        var c := Reply(worlds(n - 1), session, step);
        (R.Handled(ss0, c).0, outs + [R.Handled(ss0, c).1])
      case _ => (ss0, outs)
  }

  /** The corrections of the first n steps. */
  ghost function Replies(m: R.Message, worlds: nat -> C.World, n: nat): (r: seq<R.Message>)
    requires m.Plan? && n <= |R.Steps(m)|
    ensures |r| == n && forall k :: 0 <= k < n ==> r[k].Correction?
  {
    if n == 0 then [] else Replies(m, worlds, n - 1) + [Reply(worlds(n - 1), m.goal, R.Steps(m)[n - 1])]
  }

  lemma {:induction false} RepliesAreOfSteps(m: R.Message, worlds: nat -> C.World, n: nat)
    requires m.Plan? && n <= |R.Steps(m)|
    ensures R.AreOfSteps(m.goal, Replies(m, worlds, n))
  {
    hide *;
    if n == 0 {
      NoReplies(m, worlds);
    } else {
      var step := R.Steps(m)[n - 1];
      RepliesAreOfSteps(m, worlds, n - 1);
      ReplyGoal(worlds(n - 1), m.goal, step);
      NextReply(m, worlds, n);
      OneMoreOfStep(m.goal, Replies(m, worlds, n - 1), Reply(worlds(n - 1), m.goal, step));
    }
  }

  lemma NoReplies(m: R.Message, worlds: nat -> C.World)
    requires m.Plan?
    ensures R.AreOfSteps(m.goal, Replies(m, worlds, 0))
  {
    hide R.Steps;
  }

  lemma ReplyGoal(w: C.World, goal: string, step: string)
    ensures Reply(w, goal, step).goal == R.StepGoal(goal, 0)
  {
    OneStepPage(w, goal, step);
    hide C.PageSent, R.StepGoal;
  }

  lemma OneMoreOfStep(goal: string, before: seq<R.Message>, c: R.Message)
    requires R.AreOfSteps(goal, before) && c.Correction? && c.goal == R.StepGoal(goal, 0)
    ensures R.AreOfSteps(goal, before + [c])
  {
    hide R.StepGoal;
  }

  /** The rounds drive the relay with exactly these corrections. */
  lemma {:induction false} RoundsAreHandled(ss: R.Sessions, m: R.Message, worlds: nat -> C.World, n: nat)
    requires R.ValidSessions(ss) && m.Plan? && G.ByteLen(m.goal) >= 2 && n <= |R.Steps(m)|
    ensures Rounds(ss, m, worlds, n) == R.HandledAll(ss, [m] + Replies(m, worlds, n))
  {
    hide *;
    if n == 0 {
      FirstRound(ss, m, worlds);
    } else {
      RoundsAreHandled(ss, m, worlds, n - 1);
      var before := Replies(m, worlds, n - 1);
      RepliesAreOfSteps(m, worlds, n - 1);
      R.CorrectionsFindSession(m.goal, before);
      R.SessionFollowsReasoner(ss, m, before);
      LastCommand(R.HandledAll(ss, [m] + before).1, m.goal, R.Steps(m), n);
      NextRound(ss, m, worlds, n, R.Steps(m)[n - 1]);
      NextReply(m, worlds, n);
      R.HandledSnoc(ss, [m] + before, Reply(worlds(n - 1), m.goal, R.Steps(m)[n - 1]));
      T.Assoc([m], before, [Reply(worlds(n - 1), m.goal, R.Steps(m)[n - 1])]);
    }
  }

  lemma FirstRound(ss: R.Sessions, m: R.Message, worlds: nat -> C.World)
    requires R.ValidSessions(ss) && m.Plan?
    ensures Rounds(ss, m, worlds, 0) == R.HandledAll(ss, [m] + Replies(m, worlds, 0))
  {
    R.HandledSnoc(ss, [], m);
    assert [m] + Replies(m, worlds, 0) == [] + [m] && R.HandledAll(ss, []) == (ss, []);
    hide R.Handled, R.Steps, R.HandledAll;
    assert [] + [R.Handled(ss, m).1] == [R.Handled(ss, m).1];
  }

  lemma LastCommand(outs: seq<R.Out>, goal: string, steps: seq<string>, n: nat)
    requires 0 < n <= |steps| && R.Dispatches(outs, goal, steps, n)
    ensures |outs| == n && outs[n - 1] == R.ToMotor(goal, steps[n - 1])
  {
  }

  lemma NextRound(ss: R.Sessions, m: R.Message, worlds: nat -> C.World, n: nat, step: string)
    requires R.ValidSessions(ss) && n > 0
    requires var outs := Rounds(ss, m, worlds, n - 1).1; |outs| > 0 && outs[|outs| - 1] == R.ToMotor(m.goal, step)
    ensures var (ss0, outs) := Rounds(ss, m, worlds, n - 1);
            var (ss1, out) := R.Handled(ss0, Reply(worlds(n - 1), m.goal, step));
            Rounds(ss, m, worlds, n) == (ss1, outs + [out])
  {
    hide R.Handled, Reply;
  }

  lemma NextReply(m: R.Message, worlds: nat -> C.World, n: nat)
    requires m.Plan? && 0 < n <= |R.Steps(m)|
    ensures Replies(m, worlds, n) == Replies(m, worlds, n - 1) + [Reply(worlds(n - 1), m.goal, R.Steps(m)[n - 1])]
  {
    hide Reply, R.Steps;
  }

  /** Main result of the loop: whatever the model answers and whatever the tools, replies and the
      Copilot do on each page, a goal of at least two bytes has as many rounds as its plan has
      steps, each step is commanded once in order, and then the answer with the corrections of all
      pages ends the session. */
  lemma EveryPlanFinishes(ss: R.Sessions, m: R.Message, worlds: nat -> C.World)
    requires R.ValidSessions(ss) && m.Plan? && G.ByteLen(m.goal) >= 2
    ensures var steps := R.Steps(m);
            var (ss1, outs) := Rounds(ss, m, worlds, |steps|);
            ss1 == ss - {m.goal} && R.CarriedOut(outs, m.goal, steps, R.Observations(Replies(m, worlds, |steps|)))
  {
    hide *;
    var n := |R.Steps(m)|;
    RoundsAreHandled(ss, m, worlds, n);
    RepliesAreOfSteps(m, worlds, n);
    R.StepsAreCarriedOut(ss, m, Replies(m, worlds, n));
  }

  /** A shorter goal never gets its answer: the correction of the first page goes to a session that
      has no plan, and the loop stops with the goal's session still open. */
  lemma {:induction false} ShortGoalStalls(ss: R.Sessions, m: R.Message, worlds: nat -> C.World, n: nat)
    requires R.ValidSessions(ss) && m.Plan? && G.ByteLen(m.goal) < 2 && n > 0 && R.StepGoal(m.goal, 0) !in ss
    ensures var (ss1, outs) := Rounds(ss, m, worlds, n);
            outs == [R.ToMotor(m.goal, R.Steps(m)[0]), R.Nothing] && m.goal in ss1
  {
    if n == 1 {
      FirstCorrectionIsLost(ss, m, worlds);
    } else {
      ShortGoalStalls(ss, m, worlds, n - 1);
      hide R.Handled, Reply, R.Steps, R.StepGoal;
    }
  }

  lemma FirstCorrectionIsLost(ss: R.Sessions, m: R.Message, worlds: nat -> C.World)
    requires R.ValidSessions(ss) && m.Plan? && G.ByteLen(m.goal) < 2 && R.StepGoal(m.goal, 0) !in ss
    ensures var (ss1, outs) := Rounds(ss, m, worlds, 1);
            outs == [R.ToMotor(m.goal, R.Steps(m)[0]), R.Nothing] && m.goal in ss1
  {
    var step := R.Steps(m)[0];
    R.HandledMeans(ss, m);
    R.FirstHandled(ss, m);
    var ss0 := R.Handled(ss, m).0;
    var c := Reply(worlds(0), m.goal, step);
    ReplyGoal(worlds(0), m.goal, step);
    ShortBase(m.goal);
    NoPlanNoStep(ss0, c);
    assert Rounds(ss, m, worlds, 0) == (ss0, [R.ToMotor(m.goal, step)]);
    hide *;
    NextRound(ss, m, worlds, 1, step);
    assert [R.ToMotor(m.goal, step)] + [R.Nothing] == [R.ToMotor(m.goal, step), R.Nothing];
  }

  lemma ShortBase(goal: string)
    requires G.ByteLen(goal) < 2
    ensures R.BaseSessionID(R.StepGoal(goal, 0)) == R.StepGoal(goal, 0) != goal
  {
    R.LastHyphen(goal, 0);
    var id := R.StepGoal(goal, 0);
    assert id[..|goal|] == goal && |id| > |goal|;
    hide R.StepGoal, G.ByteLen;
  }

  /** A correction for a session without a plan changes only that session and sends nothing. */
  lemma NoPlanNoStep(ss: R.Sessions, c: R.Message)
    requires R.ValidSessions(ss) && c.Correction? && R.BaseSessionID(c.goal) !in ss
    ensures R.Handled(ss, c).1 == R.Nothing && forall id :: id in ss ==> id in R.Handled(ss, c).0
  {
    R.HandledMeans(ss, c);
    hide R.BaseSessionID, G.Join, R.Handled;
  }
}

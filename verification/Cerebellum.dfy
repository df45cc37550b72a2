/** The execution of a plan on one page of the cerebellum (internal/brain/cerebellum.go): a budget of
    counted tool calls, corrections upward, and delegation of the rest to the Copilot. Tool results,
    model replies and the presence of the Copilot are arbitrary inputs. */
module Cerebellum {
  import opened Wrappers
  import opened GoStrings
  import T = Texts
  import D = Decimals
  import R = PlanRelay

  /** A result, and the error if there is one; a failing command may still return an observation. */
  datatype ToolResult = Returned(observation: string, failure: Option<string>)

  /** The outside of a page: what a command with a given id returns, what the model replies to step
      and loop after an observation, and whether the Copilot is found when
      that many calls have been counted. */
  datatype World = World(tool: string -> ToolResult, reply: (nat, nat, string) -> ToolResult, copilot: nat -> bool)

  datatype Correction = Correction(goal: string, intent: string, plan: seq<string>)

  const MAX_TOOL_CALLS_PER_PAGE := 10

  /** The check after each counted call. */
  predicate Delegates(w: World, calls: nat) {
    calls > MAX_TOOL_CALLS_PER_PAGE && w.copilot(calls)
  }

  function ObservationOf(r: ToolResult): string {
    match r.failure
    case None => r.observation
    case Some(cause) => "tool error: " + cause
  }

  // ---- One step ----

  /** What a step does: the calls counted so far, the corrections it sends, whether it delegates. */
  datatype StepOut = StepOut(calls: nat, sent: seq<Correction>, delegated: bool)

  ghost predicate Faulty(content: string) {
    T.Contains(content, "invalid") || T.Contains(content, "problem")
  }

  ghost predicate Fixable(content: string) {
    T.Contains(content, "2+2") || T.Contains(content, "math")
  }

  ghost function OnVerify(w: World, id: string, content: string, calls: nat): StepOut {
    if Faulty(content) && Fixable(content) then
      if Delegates(w, calls + 1) then StepOut(calls + 1, [], true)
      else
        var observation := ObservationOf(w.tool(id + "-verify-fix"));
        var line := "correction: invalid content detected. calculator tool output: " + observation;
        StepOut(calls + 1, [Correction(id, "correction", [line])], false)
    else if Faulty(content) then
      StepOut(calls, [Correction(id, "correction", ["correction: invalid content detected"])], false)
    else StepOut(calls, [Correction(id, "respond", [content])], false)
  }

  /** The local reasoning loop with its last answer. */
  datatype ReactOut = ReactOut(calls: nat, answer: string, delegated: bool)

  const REACT_LOOPS := 2

  function React(w: World, id: string, i: nat, loop: nat, observation: string, calls: nat): ReactOut
    decreases REACT_LOOPS - loop
  {
    if loop >= REACT_LOOPS then ReactOut(calls, "", false)
    else
      var reply := w.reply(i, loop, observation);
      if reply.failure.Some? then React(w, id, i, loop + 1, "Error calling LLM: " + reply.failure.value, calls)
      else
        var r := reply.observation;
        if HasPrefix(r, "calculator:") then
          if Delegates(w, calls + 1) then ReactOut(calls + 1, "", true)
          else React(w, id, i, loop + 1, ObservationOf(w.tool(id + "-react-" + D.Decimal(loop))), calls + 1)
        else if HasPrefix(r, "respond:") then ReactOut(calls, TrimSpace(TrimPrefix(r, "respond:")), false)
        else ReactOut(calls, r, false)
  }

  function OnTool(w: World, id: string, calls: nat): StepOut {
    if Delegates(w, calls + 1) then StepOut(calls + 1, [], true)
    else StepOut(calls + 1, [Correction(id, "refined_action", ["verify_result_status"])], false)
  }

  function CopilotResult(w: World, goal: string, i: nat): string {
    "Copilot result: " + w.tool(goal + "-copilot-" + D.Decimal(i)).observation
  }

  ghost function OnStep(w: World, goal: string, i: nat, step: string, calls: nat): StepOut {
    var id := R.StepGoal(goal, i);
    if HasPrefix(step, "verify:") then OnVerify(w, id, TrimPrefix(step, "verify:"), calls)
    else if HasPrefix(step, "react:") then
      var out := React(w, id, i, 0, "no observations yet", calls);
      StepOut(out.calls, [Correction(id, "refined_action", [out.answer])], out.delegated)
    else if HasPrefix(step, "delegate.copilot:") then
      StepOut(calls, [Correction(id, "refined_action", [CopilotResult(w, goal, i)])], false)
    else if step == "respond" then StepOut(calls, [Correction(id, "respond", [step])], false)
    else OnTool(w, id, calls)
  }

  // ---- What each kind of step reports ----

  lemma PrefixOf(p: string, s: string)
    ensures HasPrefix(p + s, p) && TrimPrefix(p + s, p) == s
  {
  }

  /** Another first character, another prefix. */
  lemma OtherPrefix(s: string, p: string)
    requires s != "" && p != "" && s[0] != p[0]
    ensures !HasPrefix(s, p)
  {
    if |p| <= |s| {
      assert s[..|p|][0] == s[0];
    }
  }

  /** Content with neither word goes up unchanged and costs nothing. Other content is reported as
      invalid: with the tool's result and for one call if it is about 2+2 or math, else without. */
  lemma VerifyStep(w: World, goal: string, i: nat, content: string, calls: nat)
    ensures var out := OnStep(w, goal, i, "verify:" + content, calls);
            var id := R.StepGoal(goal, i);
            var fine := !T.Contains(content, "invalid") && !T.Contains(content, "problem");
            var tried := !fine && (T.Contains(content, "2+2") || T.Contains(content, "math"));
            && out.calls == calls + (if tried then 1 else 0)
            && (out.delegated <==> tried && calls + 1 > 10 && w.copilot(calls + 1))
            && (fine ==> out.sent == [Correction(id, "respond", [content])])
            && (!fine && !tried ==>
                  out.sent == [Correction(id, "correction", ["correction: invalid content detected"])])
            && (tried && !out.delegated ==>
                  match w.tool(id + "-verify-fix")
                  case Returned(seen, None) =>
                    out.sent == [Correction(id, "correction",
                                            ["correction: invalid content detected. calculator tool output: " + seen])]
                  case Returned(_, Some(cause)) =>
                    out.sent == [Correction(id, "correction",
                                            ["correction: invalid content detected. calculator tool output: "
                                             + ("tool error: " + cause)])])
  {
    PrefixOf("verify:", content);
    hide HasPrefix, TrimPrefix, T.Contains, R.StepGoal, React, CopilotResult, OnTool;
  }

  /** What a reply decides: a failure and a tool call leave the answer open. */
  function Settled(reply: ToolResult): Option<string> {
    if reply.failure.Some? || HasPrefix(reply.observation, "calculator:") then None
    else if HasPrefix(reply.observation, "respond:") then Some(TrimSpace(reply.observation[8..]))
    else Some(reply.observation)
  }

  predicate CallsTool(reply: ToolResult) {
    reply.failure.None? && HasPrefix(reply.observation, "calculator:")
  }

  /** What the model sees after a reply that leaves the answer open. */
  function NextSeen(w: World, id: string, loop: nat, reply: ToolResult): string {
    if reply.failure.Some? then "Error calling LLM: " + reply.failure.value
    else
      match w.tool(id + "-react-" + D.Decimal(loop))
      case Returned(seen, None) => seen
      case Returned(_, Some(cause)) => "tool error: " + cause
  }

  /** obs[k] is what the model has seen when it is asked in round loop + k; none of the replies
      before the last settles the answer, and each leads to the next observation. */
  ghost predicate Transcript(w: World, id: string, i: nat, loop: nat, obs: seq<string>) {
    && |obs| > 0
    && forall k :: 0 <= k < |obs| - 1 ==>
         var reply := w.reply(i, loop + k, obs[k]);
         && Settled(reply).None?
         && obs[k + 1] == NextSeen(w, id, loop + k, reply)
  }

  /** The number of tool calls among the replies to obs. */
  ghost function ToolReplies(w: World, i: nat, loop: nat, obs: seq<string>): nat
    decreases |obs|
  {
    if obs == [] then 0
    else (if CallsTool(w.reply(i, loop, obs[0])) then 1 else 0) + ToolReplies(w, i, loop + 1, obs[1..])
  }

  /** How a transcript ends: its rounds are used up, or the last reply settles the answer, or it calls
      a tool and the step delegates. Each tool call is counted. */
  ghost predicate EndsIn(w: World, id: string, i: nat, loop: nat, obs: seq<string>, calls: nat, out: ReactOut) {
    && Transcript(w, id, i, loop, obs) && loop + |obs| <= 3
    && var last := |obs| - 1;
       if loop + last == 2 then
         out == ReactOut(calls + ToolReplies(w, i, loop, obs[..last]), "", false)
       else
         var reply := w.reply(i, loop + last, obs[last]);
         match Settled(reply)
         case Some(answer) => out == ReactOut(calls + ToolReplies(w, i, loop, obs[..last]), answer, false)
         case None => CallsTool(reply) && out == ReactOut(calls + ToolReplies(w, i, loop, obs), "", true)
  }

  lemma {:induction false} ReactEnds(w: World, id: string, i: nat, loop: nat, observation: string, calls: nat)
    returns (obs: seq<string>)
    requires loop <= REACT_LOOPS
    ensures obs != [] && obs[0] == observation
    ensures EndsIn(w, id, i, loop, obs, calls, React(w, id, i, loop, observation, calls))
    decreases REACT_LOOPS - loop
  {
    hide *;
    var reply := w.reply(i, loop, observation);
    if loop == REACT_LOOPS || Settled(reply).Some? || (CallsTool(reply) && Delegates(w, calls + 1)) {
      obs := [observation];
      EndsAtOnce(w, id, i, loop, observation, calls);
    } else {
      var seen := NextSeen(w, id, loop, reply);
      var calls1 := calls + if CallsTool(reply) then 1 else 0;
      GoesOn(w, id, i, loop, observation, calls);
      var more := ReactEnds(w, id, i, loop + 1, seen, calls1);
      obs := [observation] + more;
      EndsLater(w, id, i, loop, observation, more, calls, React(w, id, i, loop + 1, seen, calls1));
    }
  }

  lemma EndsAtOnce(w: World, id: string, i: nat, loop: nat, observation: string, calls: nat)
    requires loop <= REACT_LOOPS
    requires var reply := w.reply(i, loop, observation);
             loop == REACT_LOOPS || Settled(reply).Some? || (CallsTool(reply) && Delegates(w, calls + 1))
    ensures EndsIn(w, id, i, loop, [observation], calls, React(w, id, i, loop, observation, calls))
  {
    hide Delegates, HasPrefix, TrimSpace, ObservationOf, NextSeen;
    assert [observation][..0] == [] && [observation][1..] == [];
    assert ToolReplies(w, i, loop, []) == 0 && ToolReplies(w, i, loop + 1, []) == 0;
  }

  lemma GoesOn(w: World, id: string, i: nat, loop: nat, observation: string, calls: nat)
    requires loop <= REACT_LOOPS
    requires var reply := w.reply(i, loop, observation);
             loop != REACT_LOOPS && Settled(reply).None? && !(CallsTool(reply) && Delegates(w, calls + 1))
    ensures loop < REACT_LOOPS
    ensures var reply := w.reply(i, loop, observation);
            React(w, id, i, loop, observation, calls)
            == React(w, id, i, loop + 1, NextSeen(w, id, loop, reply), calls + if CallsTool(reply) then 1 else 0)
  {
    hide Delegates, HasPrefix, TrimSpace;
  }

  lemma EndsLater(w: World, id: string, i: nat, loop: nat, observation: string, more: seq<string>, calls: nat,
                  out: ReactOut)
    requires loop < REACT_LOOPS && more != []
    requires var reply := w.reply(i, loop, observation);
             && Settled(reply).None? && more[0] == NextSeen(w, id, loop, reply)
             && EndsIn(w, id, i, loop + 1, more, calls + if CallsTool(reply) then 1 else 0, out)
    ensures EndsIn(w, id, i, loop, [observation] + more, calls, out)
  {
    hide CallsTool, Settled, NextSeen;
    var obs, last := [observation] + more, |more| - 1;
    forall k | 0 <= k < |obs| - 1
      ensures Settled(w.reply(i, loop + k, obs[k])).None?
              && obs[k + 1] == NextSeen(w, id, loop + k, w.reply(i, loop + k, obs[k]))
    {
      if k > 0 {
        assert obs[k] == more[k - 1] && obs[k + 1] == more[k] && loop + k == loop + 1 + (k - 1);
      }
    }
    assert obs[1..] == more && obs[..last + 1][1..] == more[..last];
    assert obs[last + 1] == more[last] && loop + (last + 1) == loop + 1 + last;
  }

  /** Main result on the reasoning loop: the model is first asked without observations and then with
      the failure or the tool result that its reply led to; the first reply that settles the answer
      gives it, and without one the answer is empty. */
  lemma ReactStep(w: World, goal: string, i: nat, prompt: string, calls: nat)
    ensures var out := OnStep(w, goal, i, "react:" + prompt, calls);
            exists obs: seq<string>, answer ::
              && obs != [] && obs[0] == "no observations yet"
              && EndsIn(w, R.StepGoal(goal, i), i, 0, obs, calls, ReactOut(out.calls, answer, out.delegated))
              && out.sent == [Correction(R.StepGoal(goal, i), "refined_action", [answer])]
  {
    PrefixOf("react:", prompt);
    OtherPrefix("react:" + prompt, "verify:");
    var id := R.StepGoal(goal, i);
    var out := React(w, id, i, 0, "no observations yet", calls);
    hide HasPrefix, TrimPrefix, React, R.StepGoal, EndsIn;
    var obs := ReactEnds(w, id, i, 0, "no observations yet", calls);
    assert OnStep(w, goal, i, "react:" + prompt, calls)
        == StepOut(out.calls, [Correction(id, "refined_action", [out.answer])], out.delegated);
    assert EndsIn(w, id, i, 0, obs, calls, ReactOut(out.calls, out.answer, out.delegated));
  }

  /** A delegated task costs no counted call, and what the Copilot says goes up even if it failed. */
  lemma CopilotStep(w: World, goal: string, i: nat, task: string, calls: nat)
    ensures OnStep(w, goal, i, "delegate.copilot:" + task, calls)
            == var said := w.tool(goal + "-copilot-" + D.Decimal(i)).observation;
               StepOut(calls, [Correction(R.StepGoal(goal, i), "refined_action", ["Copilot result: " + said])], false)
  {
    var step := "delegate.copilot:" + task;
    PrefixOf("delegate.copilot:", task);
    OtherPrefix(step, "verify:");
    OtherPrefix(step, "react:");
    hide HasPrefix, TrimPrefix, React, R.StepGoal, OnVerify, OnTool, D.Decimal;
  }

  /** Any other step but respond is a counted tool call, and its report is always the same: the
      observation is not sent. */
  lemma PlainStep(w: World, goal: string, i: nat, step: string, calls: nat)
    requires !HasPrefix(step, "verify:") && !HasPrefix(step, "react:") && !HasPrefix(step, "delegate.copilot:")
    ensures var out := OnStep(w, goal, i, step, calls);
            var id := R.StepGoal(goal, i);
            if step == "respond" then out == StepOut(calls, [Correction(id, "respond", ["respond"])], false)
            else
              && out.calls == calls + 1 && (out.delegated <==> calls + 1 > 10 && w.copilot(calls + 1))
              && out.sent == if out.delegated then [] else [Correction(id, "refined_action", ["verify_result_status"])]
  {
    hide HasPrefix, TrimPrefix, React, R.StepGoal, OnVerify, CopilotResult;
  }

  // ---- The page ----

  /** A page after some steps; no step follows one that delegates. */
  datatype Page = Page(sent: seq<Correction>, calls: nat, delegatedAt: Option<nat>)

  ghost function PageAfter(w: World, goal: string, plan: seq<string>, n: nat): Page
    requires n <= |plan|
  {
    if n == 0 then Page([], 0, None)
    else
      var p := PageAfter(w, goal, plan, n - 1);
      if p.delegatedAt.Some? then p
      else
        var out := OnStep(w, goal, n - 1, plan[n - 1], p.calls);
        Page(p.sent + out.sent, out.calls, if out.delegated then Some(n - 1) else None)
  }

  /** Go's %v of a slice of strings. */
  function Bracketed(steps: seq<string>): string {
    "[" + Spaced(steps) + "]"
  }

  function Spaced(steps: seq<string>): string {
    if |steps| == 0 then "" else if |steps| == 1 then steps[0] else steps[0] + " " + Spaced(steps[1..])
  }

  function Delegation(goal: string, plan: seq<string>, at: nat): Correction
    requires at <= |plan|
  {
    Correction(goal, "delegate_to_copilot",
               ["delegate_to_copilot: Cerebellum exceeded " + D.Decimal(MAX_TOOL_CALLS_PER_PAGE)
                + " tool calls on this page. "
                + "Completed " + D.Decimal(at) + "/" + D.Decimal(|plan|) + " steps. "
                + "Completed work: " + Bracketed(plan[..at]) + ". "
                + "Remaining work: " + Bracketed(plan[at..]) + ". "
                + "Please re-plan using the agentic_cli(cli=copilot) or delegate.copilot tool "
                + "to complete the remaining steps efficiently."])
  }

  ghost function PageSent(w: World, goal: string, plan: seq<string>): seq<Correction> {
    var p := PageAfter(w, goal, plan, |plan|);
    if p.delegatedAt.Some? && p.delegatedAt.value <= |plan| then
      p.sent + [Delegation(goal, plan, p.delegatedAt.value)]
    else p.sent
  }

  lemma PageStep(w: World, goal: string, plan: seq<string>, i: nat)
    requires i < |plan|
    ensures var p := PageAfter(w, goal, plan, i);
            var out := OnStep(w, goal, i, plan[i], p.calls);
            PageAfter(w, goal, plan, i + 1)
            == (if p.delegatedAt.Some? then p
                else Page(p.sent + out.sent, out.calls, if out.delegated then Some(i) else None))
  {
    hide OnStep;
  }

  lemma {:induction false} DelegatedStays(w: World, goal: string, plan: seq<string>, k: nat, n: nat)
    requires k <= n <= |plan| && PageAfter(w, goal, plan, k).delegatedAt.Some?
    ensures PageAfter(w, goal, plan, n) == PageAfter(w, goal, plan, k)
  {
    hide *;
    if k < n {
      DelegatedStays(w, goal, plan, k, n - 1);
      PageStep(w, goal, plan, n - 1);
    }
  }

  // ---- The budget ----

  /** Between two counts no call delegated; if the last one did, it did so at the latter count. */
  ghost predicate Budgeted(w: World, before: nat, calls: nat, delegated: bool) {
    && before <= calls
    && (forall k :: before < k < calls ==> !Delegates(w, k))
    && (if delegated then before < calls && Delegates(w, calls) else before < calls ==> !Delegates(w, calls))
  }

  lemma {:induction false} ReactBudget(w: World, id: string, i: nat, loop: nat, observation: string, calls: nat)
    ensures var out := React(w, id, i, loop, observation, calls); Budgeted(w, calls, out.calls, out.delegated)
    decreases REACT_LOOPS - loop
  {
    hide Delegates, HasPrefix, TrimPrefix, TrimSpace;
    if loop < REACT_LOOPS {
      var reply := w.reply(i, loop, observation);
      if reply.failure.Some? {
        ReactBudget(w, id, i, loop + 1, "Error calling LLM: " + reply.failure.value, calls);
      } else if HasPrefix(reply.observation, "calculator:") && !Delegates(w, calls + 1) {
        ReactBudget(w, id, i, loop + 1, ObservationOf(w.tool(id + "-react-" + D.Decimal(loop))), calls + 1);
      }
    }
  }

  lemma StepBudget(w: World, goal: string, i: nat, step: string, calls: nat)
    ensures var out := OnStep(w, goal, i, step, calls); Budgeted(w, calls, out.calls, out.delegated)
  {
    var id := R.StepGoal(goal, i);
    ReactBudget(w, id, i, 0, "no observations yet", calls);
    VerifyBudget(w, id, TrimPrefix(step, "verify:"), calls);
    ToolBudget(w, id, calls);
    NoCallBudget(w, calls);
    hide Delegates, HasPrefix, TrimPrefix, React, OnVerify, OnTool, R.StepGoal, CopilotResult, Budgeted;
  }

  lemma NoCallBudget(w: World, calls: nat)
    ensures Budgeted(w, calls, calls, false)
  {
    hide Delegates;
  }

  lemma ToolBudget(w: World, id: string, calls: nat)
    ensures var out := OnTool(w, id, calls); Budgeted(w, calls, out.calls, out.delegated)
  {
    hide Delegates;
  }

  lemma VerifyBudget(w: World, id: string, content: string, calls: nat)
    ensures var out := OnVerify(w, id, content, calls); Budgeted(w, calls, out.calls, out.delegated)
  {
    hide Delegates, Faulty, Fixable, ObservationOf;
  }

  /** Main result on the budget: a page delegates exactly at the first counted call above the limit at
      which the Copilot is found. */
  lemma {:induction false} PageBudget(w: World, goal: string, plan: seq<string>, n: nat)
    requires n <= |plan|
    ensures var p := PageAfter(w, goal, plan, n); Budgeted(w, 0, p.calls, p.delegatedAt.Some?)
  {
    hide *;
    if n == 0 {
      FreshBudget(w, goal, plan);
    } else {
      PageBudget(w, goal, plan, n - 1);
      PageStep(w, goal, plan, n - 1);
      var p := PageAfter(w, goal, plan, n - 1);
      var out := OnStep(w, goal, n - 1, plan[n - 1], p.calls);
      StepBudget(w, goal, n - 1, plan[n - 1], p.calls);
      if p.delegatedAt.None? {
        BudgetGoesOn(w, 0, p.calls, out.calls, out.delegated);
      }
    }
  }

  lemma FreshBudget(w: World, goal: string, plan: seq<string>)
    ensures PageAfter(w, goal, plan, 0) == Page([], 0, None) && Budgeted(w, 0, 0, false)
  {
    hide OnStep, Delegates;
  }

  lemma BudgetGoesOn(w: World, a: nat, b: nat, c: nat, delegated: bool)
    requires Budgeted(w, a, b, false) && Budgeted(w, b, c, delegated)
    ensures Budgeted(w, a, c, delegated)
  {
    hide Delegates;
  }

  /** So with a Copilot that is always there, a page never counts more than eleven calls, and it
      delegates exactly when it reaches eleven. */
  lemma ElevenCalls(w: World, goal: string, plan: seq<string>)
    requires forall k :: w.copilot(k)
    ensures var p := PageAfter(w, goal, plan, |plan|);
            p.calls <= MAX_TOOL_CALLS_PER_PAGE + 1 && (p.delegatedAt.Some? <==> p.calls == MAX_TOOL_CALLS_PER_PAGE + 1)
  {
    PageBudget(w, goal, plan, |plan|);
    var p := PageAfter(w, goal, plan, |plan|);
    hide PageAfter;
    assert Delegates(w, MAX_TOOL_CALLS_PER_PAGE + 1);
  }

  /** Without one it never delegates. */
  lemma NoCopilotNoDelegation(w: World, goal: string, plan: seq<string>)
    requires forall k :: !w.copilot(k)
    ensures PageAfter(w, goal, plan, |plan|).delegatedAt.None?
  {
    PageBudget(w, goal, plan, |plan|);
    hide PageAfter;
  }

  lemma {:induction false} ReactCalls(w: World, id: string, i: nat, loop: nat, observation: string, calls: nat)
    requires loop <= REACT_LOOPS
    ensures React(w, id, i, loop, observation, calls).calls <= calls + (REACT_LOOPS - loop)
    decreases REACT_LOOPS - loop
  {
    hide Delegates, HasPrefix, TrimPrefix, TrimSpace, ObservationOf;
    if loop < REACT_LOOPS {
      var reply := w.reply(i, loop, observation);
      if reply.failure.Some? {
        ReactCalls(w, id, i, loop + 1, "Error calling LLM: " + reply.failure.value, calls);
      } else if HasPrefix(reply.observation, "calculator:") && !Delegates(w, calls + 1) {
        ReactCalls(w, id, i, loop + 1, ObservationOf(w.tool(id + "-react-" + D.Decimal(loop))), calls + 1);
      }
    }
  }

  /** One step makes at most two counted calls. */
  lemma StepCalls(w: World, goal: string, i: nat, step: string, calls: nat)
    ensures OnStep(w, goal, i, step, calls).calls <= calls + 2
  {
    ReactCalls(w, R.StepGoal(goal, i), i, 0, "no observations yet", calls);
    hide Delegates, HasPrefix, TrimPrefix, React, Faulty, Fixable, R.StepGoal, CopilotResult, ObservationOf;
  }

  // ---- The corrections ----

  predicate IsReact(step: string) {
    !HasPrefix(step, "verify:") && HasPrefix(step, "react:")
  }

  /** The number of steps that have reported: all so far, but a step that delegates reports only if it
      is a reasoning step. */
  ghost predicate Reported(p: Page, goal: string, plan: seq<string>, n: nat) {
    && n <= |plan|
    && (p.delegatedAt.Some? ==> p.delegatedAt.value < n)
    && |p.sent| == (if p.delegatedAt.None? then n
                    else p.delegatedAt.value + if IsReact(plan[p.delegatedAt.value]) then 1 else 0)
    && forall j :: 0 <= j < |p.sent| ==> p.sent[j].goal == R.StepGoal(goal, j)
  }

  lemma StepReports(w: World, goal: string, i: nat, step: string, calls: nat)
    ensures var out := OnStep(w, goal, i, step, calls);
            && (out.delegated && !IsReact(step) ==> out.sent == [])
            && (!(out.delegated && !IsReact(step)) ==> |out.sent| == 1 && out.sent[0].goal == R.StepGoal(goal, i))
  {
    hide Delegates, HasPrefix, TrimPrefix, React, Faulty, Fixable, R.StepGoal, CopilotResult, ObservationOf;
  }

  /** Main result on the corrections: each step reports once, under its own number, in order. */
  lemma {:induction false} PageReports(w: World, goal: string, plan: seq<string>, n: nat)
    requires n <= |plan|
    ensures Reported(PageAfter(w, goal, plan, n), goal, plan, n)
  {
    if n == 0 {
      hide OnStep, IsReact, R.StepGoal;
    } else {
      hide *;
      PageReports(w, goal, plan, n - 1);
      PageStep(w, goal, plan, n - 1);
      var p := PageAfter(w, goal, plan, n - 1);
      var out := OnStep(w, goal, n - 1, plan[n - 1], p.calls);
      StepReports(w, goal, n - 1, plan[n - 1], p.calls);
      if p.delegatedAt.None? {
        ReportStep(p, goal, plan, n - 1, out);
      } else {
        ReportStays(p, goal, plan, n - 1);
      }
    }
  }

  lemma ReportStep(p: Page, goal: string, plan: seq<string>, i: nat, out: StepOut)
    requires i < |plan| && Reported(p, goal, plan, i) && p.delegatedAt.None?
    requires out.delegated && !IsReact(plan[i]) ==> out.sent == []
    requires !(out.delegated && !IsReact(plan[i])) ==> |out.sent| == 1 && out.sent[0].goal == R.StepGoal(goal, i)
    ensures Reported(Page(p.sent + out.sent, out.calls, if out.delegated then Some(i) else None), goal, plan, i + 1)
  {
    hide IsReact, R.StepGoal;
  }

  lemma ReportStays(p: Page, goal: string, plan: seq<string>, i: nat)
    requires i < |plan| && Reported(p, goal, plan, i) && p.delegatedAt.Some?
    ensures Reported(p, goal, plan, i + 1)
  {
    hide IsReact, R.StepGoal;
  }

  /** What a whole page sends: without delegation one correction per step; with delegation at step i
      the corrections of the steps before it, that of step i if it is a reasoning step, and the
      delegation, which names the steps before i as completed and the others as remaining. */
  lemma PageSentMeans(w: World, goal: string, plan: seq<string>)
    ensures var p := PageAfter(w, goal, plan, |plan|);
            var sent := PageSent(w, goal, plan);
            match p.delegatedAt
            case None => |sent| == |plan| && forall j :: 0 <= j < |plan| ==> sent[j].goal == R.StepGoal(goal, j)
            case Some(i) =>
              && i < |plan|
              && |sent| == i + (if IsReact(plan[i]) then 2 else 1)
              && (forall j :: 0 <= j < |sent| - 1 ==> sent[j].goal == R.StepGoal(goal, j))
              && sent[|sent| - 1] == Delegation(goal, plan, i)
  {
    hide *;
    PageReports(w, goal, plan, |plan|);
    var p := PageAfter(w, goal, plan, |plan|);
    ReportedMeans(p, goal, plan);
    PageSentIs(w, goal, plan);
    if p.delegatedAt.Some? {
      SentWith(p.sent, Delegation(goal, plan, p.delegatedAt.value), goal);
    }
  }

  lemma ReportedMeans(p: Page, goal: string, plan: seq<string>)
    requires Reported(p, goal, plan, |plan|)
    ensures p.delegatedAt.Some? ==> p.delegatedAt.value < |plan|
    ensures |p.sent| == (if p.delegatedAt.None? then |plan|
                         else p.delegatedAt.value + if IsReact(plan[p.delegatedAt.value]) then 1 else 0)
    ensures forall j :: 0 <= j < |p.sent| ==> p.sent[j].goal == R.StepGoal(goal, j)
  {
    hide IsReact, R.StepGoal;
  }

  lemma PageSentIs(w: World, goal: string, plan: seq<string>)
    ensures var p := PageAfter(w, goal, plan, |plan|);
            PageSent(w, goal, plan)
            == if p.delegatedAt.Some? && p.delegatedAt.value <= |plan| then
                 p.sent + [Delegation(goal, plan, p.delegatedAt.value)]
               else p.sent
  {
    hide PageAfter, Delegation;
  }

  lemma SentWith(sent: seq<Correction>, last: Correction, goal: string)
    requires forall j :: 0 <= j < |sent| ==> sent[j].goal == R.StepGoal(goal, j)
    ensures var all := sent + [last];
            all[|sent|] == last && forall j :: 0 <= j < |sent| ==> all[j].goal == R.StepGoal(goal, j)
  {
    hide R.StepGoal;
  }

  /** Step corrections find the session of their goal exactly if that has two bytes; the
      delegation finds it exactly if the goal has no hyphen from its third byte on. */
  lemma CorrectionsFindGoalIff(w: World, goal: string, plan: seq<string>, j: nat)
    requires j < |PageSent(w, goal, plan)|
    ensures var p := PageAfter(w, goal, plan, |plan|);
            var sent := PageSent(w, goal, plan);
            R.BaseSessionID(sent[j].goal) == goal
            <==> (if p.delegatedAt.Some? && j == |sent| - 1 then
                    forall i :: 0 <= i < |goal| && goal[i] == '-' ==> ByteLen(goal[..i]) < 2
                  else ByteLen(goal) >= 2)
  {
    hide *;
    SentGoal(w, goal, plan, j);
    R.BaseIsGoalIff(goal, j);
    R.BareGoalIff(goal);
  }

  lemma SentGoal(w: World, goal: string, plan: seq<string>, j: nat)
    requires j < |PageSent(w, goal, plan)|
    ensures var p := PageAfter(w, goal, plan, |plan|);
            var sent := PageSent(w, goal, plan);
            sent[j].goal == if p.delegatedAt.Some? && j == |sent| - 1 then goal else R.StepGoal(goal, j)
  {
    hide *;
    PageSentMeans(w, goal, plan);
    var p := PageAfter(w, goal, plan, |plan|);
    if p.delegatedAt.Some? {
      DelegationGoal(goal, plan, p.delegatedAt.value);
    }
  }

  /** The words of a list come in order, and a space between any two. */
  lemma {:induction false} SpacedOfAppend(a: seq<string>, b: seq<string>)
    requires a != [] && b != []
    ensures Spaced(a + b) == Spaced(a) + " " + Spaced(b)
  {
    if |a| == 1 {
      assert (a + b)[1..] == b;
    } else {
      assert (a + b)[1..] == a[1..] + b;
      SpacedOfAppend(a[1..], b);
      T.Assoc(a[0] + " ", Spaced(a[1..]), " ");
      T.Assoc(a[0] + " ", Spaced(a[1..]) + " ", Spaced(b));
    }
  }

  /** A delegation after some steps has one line, which counts these, names them as completed and the
      others as remaining. */
  lemma DelegationNames(goal: string, done: seq<string>, rest: seq<string>)
    ensures Delegation(goal, done + rest, |done|)
            == Correction(goal, "delegate_to_copilot",
                          ["delegate_to_copilot: Cerebellum exceeded " + D.Decimal(10) + " tool calls on this page. "
                           + "Completed " + D.Decimal(|done|) + "/" + D.Decimal(|done| + |rest|) + " steps. "
                           + "Completed work: " + ("[" + Spaced(done) + "]") + ". "
                           + "Remaining work: " + ("[" + Spaced(rest) + "]") + ". "
                           + "Please re-plan using the agentic_cli(cli=copilot) or delegate.copilot tool "
                           + "to complete the remaining steps efficiently."])
  {
    hide Spaced, D.Decimal;
    assert (done + rest)[..|done|] == done && (done + rest)[|done|..] == rest;
  }

  lemma DelegationGoal(goal: string, plan: seq<string>, at: nat)
    requires at <= |plan|
    ensures Delegation(goal, plan, at).goal == goal
  {
    hide Bracketed, D.Decimal;
  }

  // ---- The node itself ----

  class CerebellumNode {
    const world: World
    var correctionOut: seq<Correction>

    constructor (w: World)
      ensures world == w && correctionOut == []
    {
      world, correctionOut := w, [];
    }

    method Send(goal: string, intent: string, line: string)
      modifies this
      ensures correctionOut == old(correctionOut) + [Correction(goal, intent, [line])]
    {
      correctionOut := correctionOut + [Correction(goal, intent, [line])];
    }

    method Has(content: string, word: string) returns (r: bool)
      ensures r <==> T.Contains(content, word)
    {
      var i := T.FindIndex(content, word);
      T.IndexIsFirst(content, word);
      r := i != -1;
    }

    method Verify(id: string, content: string, pageToolCalls: nat) returns (calls: nat, delegateRequested: bool)
      modifies this
      ensures var out := OnVerify(world, id, content, pageToolCalls);
              calls == out.calls && delegateRequested == out.delegated && correctionOut == old(correctionOut) + out.sent
    {
      calls, delegateRequested := pageToolCalls, false;
      var invalid := Has(content, "invalid");
      var problem := Has(content, "problem");
      if invalid || problem {
        var sum := Has(content, "2+2");
        var math := Has(content, "math");
        if sum || math {
          var res := world.tool(id + "-verify-fix");
          calls := calls + 1;
          if calls > MAX_TOOL_CALLS_PER_PAGE && world.copilot(calls) {
            delegateRequested := true;
          }
          if delegateRequested {
            assert correctionOut == correctionOut + [];
            return;
          }
          Send(id, "correction", "correction: invalid content detected. calculator tool output: " + ObservationOf(res));
          return;
        }
        Send(id, "correction", "correction: invalid content detected");
        return;
      }
      Send(id, "respond", content);
    }

    method ReactLoop(id: string, i: nat, pageToolCalls: nat)
      returns (calls: nat, lastAnswer: string, delegateRequested: bool)
      ensures React(world, id, i, 0, "no observations yet", pageToolCalls)
              == ReactOut(calls, lastAnswer, delegateRequested)
    {
      calls, lastAnswer, delegateRequested := pageToolCalls, "", false;
      var observation := "no observations yet";
      var loop := 0;
      while loop < REACT_LOOPS
        invariant 0 <= loop <= REACT_LOOPS && lastAnswer == "" && !delegateRequested
        invariant React(world, id, i, 0, "no observations yet", pageToolCalls)
                  == React(world, id, i, loop, observation, calls)
      {
        var reply := world.reply(i, loop, observation);
        if reply.failure.Some? {
          observation := "Error calling LLM: " + reply.failure.value;
        } else {
          var llmResp := reply.observation;
          if HasPrefix(llmResp, "calculator:") {
            var res := world.tool(id + "-react-" + D.Decimal(loop));
            calls := calls + 1;
            if calls > MAX_TOOL_CALLS_PER_PAGE && world.copilot(calls) {
              delegateRequested := true;
            }
            observation := ObservationOf(res);
            if delegateRequested {
              return;
            }
          } else if HasPrefix(llmResp, "respond:") {
            lastAnswer := TrimSpace(TrimPrefix(llmResp, "respond:"));
            return;
          } else {
            lastAnswer := llmResp;
            return;
          }
        }
        loop := loop + 1;
      }
    }

    method RunStep(goal: string, i: nat, step: string, pageToolCalls: nat) returns (calls: nat, delegateRequested: bool)
      modifies this
      ensures var out := OnStep(world, goal, i, step, pageToolCalls);
              calls == out.calls && delegateRequested == out.delegated && correctionOut == old(correctionOut) + out.sent
    {
      hide React, OnVerify, TrimPrefix, HasPrefix, D.Decimal;
      calls, delegateRequested := pageToolCalls, false;
      var id := goal + "-" + D.Decimal(i);
      if HasPrefix(step, "verify:") {
        calls, delegateRequested := Verify(id, TrimPrefix(step, "verify:"), calls);
        return;
      }
      if HasPrefix(step, "react:") {
        var lastAnswer;
        calls, lastAnswer, delegateRequested := ReactLoop(id, i, calls);
        Send(id, "refined_action", lastAnswer);
        return;
      }
      if HasPrefix(step, "delegate.copilot:") {
        var res := world.tool(goal + "-copilot-" + D.Decimal(i));
        Send(id, "refined_action", "Copilot result: " + res.observation);
        return;
      }
      if step == "respond" {
        Send(id, "respond", step);
        return;
      }
      calls := calls + 1;
      if calls > MAX_TOOL_CALLS_PER_PAGE && world.copilot(calls) {
        delegateRequested := true;
        assert correctionOut == correctionOut + [];
        return;
      }
      Send(id, "refined_action", "verify_result_status");
    }

    method Orchestrate(goal: string, plan: seq<string>)
      modifies this
      ensures correctionOut == old(correctionOut) + PageSent(world, goal, plan)
    {
      hide OnStep, Delegation;
      var pageToolCalls := 0;
      var delegateRequested, delegateAtStep := false, 0;
      var i := 0;
      while i < |plan| && !delegateRequested
        invariant 0 <= i <= |plan| && delegateAtStep <= |plan|
        invariant var p := PageAfter(world, goal, plan, i);
                  && correctionOut == old(correctionOut) + p.sent && pageToolCalls == p.calls
                  && p.delegatedAt == if delegateRequested then Some(delegateAtStep) else None
      {
        T.Assoc(old(correctionOut), PageAfter(world, goal, plan, i).sent,
            OnStep(world, goal, i, plan[i], pageToolCalls).sent);
        pageToolCalls, delegateRequested := RunStep(goal, i, plan[i], pageToolCalls);
        if delegateRequested {
          delegateAtStep := i;
        }
        i := i + 1;
      }
      if delegateRequested {
        DelegatedStays(world, goal, plan, i, |plan|);
        correctionOut := correctionOut + [Delegation(goal, plan, delegateAtStep)];
      }
    }
  }
}

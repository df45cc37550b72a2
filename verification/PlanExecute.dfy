/** The plan-execute reasoner (internal/reasoning/planner/plan_execute.go): parsing a plan out of a
    model's answer and dispatching its steps one after the other. */
module PlanExecute {
  import opened Wrappers
  import opened GoStrings
  import T = Texts
  import D = Decimals

  // ---- Parsing a plan ----

  predicate IsKeyword(line: string) {
    TrimSpace(line) == "plan" || TrimSpace(line) == "execute_workflow" || TrimSpace(line) == "respond"
  }

  /** The lines without the intent, if that is what the first line is. */
  function WithoutIntent(lines: seq<string>): seq<string>
    requires |lines| > 0
  {
    if IsKeyword(lines[0]) then lines[1..] else lines
  }

  /** ". " starts before the fifth byte. */
  ghost predicate Numbered(s: string) {
    T.Index(s, ". ") != -1 && ByteLen(s[..T.Index(s, ". ")]) < 5
  }

  ghost function WithoutNumber(s: string): string {
    if Numbered(s) then s[T.Index(s, ". ") + 2..] else s
  }

  /** A step without the marks of a list in front. */
  ghost function Strip(s: string): string {
    WithoutNumber(TrimPrefix(TrimPrefix(s, "- "), "* "))
  }

  ghost function StepOf(line: string): seq<string> {
    if TrimSpace(line) == "" then [] else [Strip(TrimSpace(line))]
  }

  ghost function StepsOf(lines: seq<string>): seq<string> {
    if lines == [] then [] else StepsOf(lines[..|lines| - 1]) + StepOf(lines[|lines| - 1])
  }

  const FALLBACK := ["inspect_env", "trigger_math_calculators"]

  ghost function PlanSteps(text: string): (steps: seq<string>)
    ensures |steps| > 0
  {
    var steps := StepsOf(WithoutIntent(Split(text)));
    if |steps| == 0 then FALLBACK else steps
  }

  method ParsePlan(text: string) returns (steps: seq<string>)
    ensures steps == PlanSteps(text)
  {
    var rawLines := Split(text);
    if |rawLines| > 0 {
      var firstLine := TrimSpace(rawLines[0]);
      if firstLine == "plan" || firstLine == "execute_workflow" || firstLine == "respond" {
        rawLines := rawLines[1..];
      }
    }
    assert rawLines == WithoutIntent(Split(text)) && StepsOf(rawLines[..0]) == [];
    hide TrimSpace, Split, TrimPrefix, WithoutIntent, StepsOf, T.Index, IsKeyword, ByteLen;
    steps := [];
    for i := 0 to |rawLines|
      invariant steps == StepsOf(rawLines[..i])
    {
      StepsOfNext(rawLines, i);
      var trimmed := TrimSpace(rawLines[i]);
      if trimmed != "" {
        trimmed := TrimPrefix(trimmed, "- ");
        trimmed := TrimPrefix(trimmed, "* ");
        var idx := T.FindIndex(trimmed, ". ");
        if idx != -1 && ByteLen(trimmed[..idx]) < 5 {
          trimmed := trimmed[idx + 2..];
        }
        steps := steps + [trimmed];
      } else {
        assert steps + [] == steps;
      }
    }
    assert rawLines[..|rawLines|] == rawLines;
    if |steps| == 0 {
      steps := ["inspect_env", "trigger_math_calculators"];
    }
  }

  lemma StepsOfNext(lines: seq<string>, i: nat)
    requires i < |lines|
    ensures StepsOf(lines[..i + 1]) == StepsOf(lines[..i]) + StepOf(lines[i])
  {
    assert lines[..i + 1][..i] == lines[..i];
    hide StepOf;
  }

  // ---- Which plans survive printing and parsing ----

  /** A step that parsing leaves as it is. */
  ghost predicate Clean(step: string) {
    && OneLine(step) && Tight(step)
    && !HasPrefix(step, "- ") && !HasPrefix(step, "* ") && !Numbered(step)
  }

  lemma {:induction false} StepsOfAppend(a: seq<string>, b: seq<string>)
    ensures StepsOf(a + b) == StepsOf(a) + StepsOf(b)
  {
    if b == [] {
      assert a + b == a;
    } else {
      var init, last := b[..|b| - 1], b[|b| - 1];
      StepsOfAppend(a, init);
      assert (a + b)[..|a + b| - 1] == a + init && (a + b)[|a + b| - 1] == last;
      T.Assoc(StepsOf(a), StepsOf(init), StepOf(last));
    }
  }

  /** Stripping takes something off exactly when there is a mark. */
  lemma StripIsShorterIff(s: string)
    ensures |Strip(s)| <= |s|
    ensures Strip(s) == s <==> !HasPrefix(s, "- ") && !HasPrefix(s, "* ") && !Numbered(s)
    ensures |Strip(s)| == |s| ==> Strip(s) == s
  {
  }

  lemma CleanIff(p: string)
    requires OneLine(p)
    ensures StepOf(p) == [p] <==> Clean(p)
  {
    TrimSpaceMeans(p);
    StripIsShorterIff(TrimSpace(p));
    TrimmedIsShorter(p);
    hide Strip, TrimSpace, HasPrefix, Numbered, IsSpace;
    assert StepOf(p) == [p] <==> TrimSpace(p) != "" && Strip(TrimSpace(p)) == p;
  }

  /** The offset counts bytes: two characters of three bytes each before the dot are too many for a
      number. */
  lemma WideStep()
    ensures var s := "\U{6B65}\U{9AA4}. x"; T.Index(s, ". ") == 2 && Clean(s)
  {
    var s := "\U{6B65}\U{9AA4}. x";
    assert s[2..4] == ". ";
    forall j: nat | T.OccursAt(s, ". ", j) ensures 2 <= j {
      assert s[j..j + 2][0] == s[j];
    }
    T.FirstIsIndex(s, ". ", 2);
    assert s[..2] == "\U{6B65}\U{9AA4}" && s[..2][..1] == "\U{6B65}";
    assert ByteLen(s[..2]) == ByteLen(s[..2][..1]) + 3;
    assert s[..2][..1][..0] == "" && ByteLen(s[..2][..1]) == 3;
    hide T.Index;
  }

  // ---- Marks of a list ----

  /** A short number with its dot, as "1. " or "12. ". */
  ghost predicate NumberMark(mark: string) {
    && |mark| >= 2 && mark[|mark| - 2..] == ". "
    && var n := mark[..|mark| - 2];
    && ByteLen(n) < 5 && !T.Contains(n, ". ") && OneLine(n)
    && !HasPrefix(n, "- ") && !HasPrefix(n, "* ") && (n == [] || !IsSpace(n[0]))
  }

  /** What may stand in front of a step. */
  ghost predicate IsMark(mark: string) {
    mark == "" || mark == "- " || mark == "* " || NumberMark(mark)
  }

  /** A line with a clean step behind a mark, between blank ends. */
  datatype Item = Item(indent: string, mark: string, text: string, trail: string)
  {
    function Line(): string {
      indent + (mark + text) + trail
    }

    ghost predicate Valid() {
      && Blank(indent) && OneLine(indent) && Blank(trail) && OneLine(trail) && IsMark(mark) && Clean(text)
    }
  }

  /** Main result on one line: behind a mark the parser finds the step, all of it and nothing else. */
  lemma MarkedStep(item: Item)
    requires item.Valid()
    ensures StepOf(item.Line()) == [item.text] && OneLine(item.Line())
  {
    var mark, text := item.mark, item.text;
    hide *;
    ItemMeans(item);
    MarkMeans(mark);
    CleanMeans(text);
    MarkIsTight(mark, text);
    TrimOfMiddle(item.indent, mark + text, item.trail);
    TrimmedStep(item.Line(), mark + text);
    if mark == "" {
      Unmarked(text);
    } else if mark == "- " || mark == "* " {
      Bulleted(mark, text);
    } else {
      NumberedStep(mark, text);
    }
  }

  lemma ItemMeans(item: Item)
    requires item.Valid()
    ensures Blank(item.indent) && Blank(item.trail) && IsMark(item.mark) && Clean(item.text)
    ensures item.Line() == item.indent + (item.mark + item.text) + item.trail && OneLine(item.Line())
  {
    CleanMeans(item.text);
    MarkMeans(item.mark);
    hide Blank, Clean, IsMark;
  }

  lemma MarkMeans(mark: string)
    requires IsMark(mark)
    ensures mark == "" || mark == "- " || mark == "* " || NumberMark(mark)
    ensures OneLine(mark) && (mark != "" ==> !IsSpace(mark[0]))
  {
    hide NumberMark;
    if NumberMark(mark) {
      NumberMarkMeans(mark);
    }
  }

  lemma NumberMarkMeans(mark: string)
    requires NumberMark(mark)
    ensures |mark| >= 2 && mark == mark[..|mark| - 2] + ". "
    ensures OneLine(mark) && !IsSpace(mark[0])
  {
    var n := mark[..|mark| - 2];
    assert n == [] || !IsSpace(n[0]);
    assert OneLine(n);
    hide *;
    assert mark == n + mark[|mark| - 2..];
    NotBlankFirst(n);
  }

  lemma NotBlankFirst(n: string)
    requires OneLine(n) && (n == [] || !IsSpace(n[0]))
    ensures OneLine(n + ". ") && !IsSpace((n + ". ")[0])
  {
    if n == [] {
      assert (n + ". ")[0] == '.';
    } else {
      hide IsSpace;
      assert (n + ". ")[0] == n[0];
    }
  }

  lemma CleanMeans(text: string)
    requires Clean(text)
    ensures OneLine(text) && Tight(text) && Strip(text) == text
  {
    hide IsSpace, ByteLen;
  }

  lemma MarkIsTight(mark: string, text: string)
    requires Tight(text) && (mark != "" ==> !IsSpace(mark[0]))
    ensures Tight(mark + text)
  {
    hide IsSpace;
    if mark == "" {
      assert mark + text == text;
    }
  }

  lemma TrimmedStep(line: string, t: string)
    requires TrimSpace(line) == t && Tight(t)
    ensures StepOf(line) == [Strip(t)]
  {
    hide TrimSpace, Strip, IsSpace;
  }

  lemma Unmarked(text: string)
    requires Clean(text)
    ensures Strip("" + text) == text
  {
    CleanMeans(text);
    hide Strip, Clean;
    assert "" + text == text;
  }

  lemma Bulleted(mark: string, text: string)
    requires Clean(text) && (mark == "- " || mark == "* ")
    ensures Strip(mark + text) == text
  {
    var s := mark + text;
    assert s[..2] == mark && s[2..] == text && s[0] == mark[0];
    hide ByteLen, Tight, T.Index;
    if mark == "- " {
      assert TrimPrefix(s, "- ") == text && TrimPrefix(text, "* ") == text;
    } else {
      assert s[..2] != "- ";
      assert TrimPrefix(s, "- ") == s && TrimPrefix(s, "* ") == text;
    }
  }

  lemma NumberedStep(mark: string, text: string)
    requires NumberMark(mark)
    ensures Strip(mark + text) == text
  {
    var n := mark[..|mark| - 2];
    var s := mark + text;
    NoBullet(n, mark, text, "- ");
    NoBullet(n, mark, text, "* ");
    FirstDot(n, mark, text);
    assert s[|n| + 2..] == text && s[..|n|] == n;
    hide ByteLen, HasPrefix, T.Index, T.Contains;
  }

  /** A dot is no bullet, so a number that is none stays none. */
  lemma NoBullet(n: string, mark: string, text: string, bullet: string)
    requires mark == n + ". " && !HasPrefix(n, bullet) && (bullet == "- " || bullet == "* ")
    ensures !HasPrefix(mark + text, bullet)
  {
    var s := mark + text;
    assert s[..2][0] == s[0] && s[..2][1] == s[1];
    if |n| >= 2 {
      assert n[..2] == s[..2];
    }
  }

  lemma FirstDot(n: string, mark: string, text: string)
    requires mark == n + ". " && !T.Contains(n, ". ")
    ensures T.Index(mark + text, ". ") == |n|
  {
    var s := mark + text;
    assert s[|n|..|n| + 2] == ". ";
    forall j: nat | T.OccursAt(s, ". ", j) ensures |n| <= j {
      assert s[j..j + 2][1] == s[j + 1];
      if j + 2 <= |n| {
        assert n[j..j + 2] == s[j..j + 2];
        assert T.OccursAt(n, ". ", j);
      }
    }
    T.FirstIsIndex(s, ". ", |n|);
  }

  /** Whatever the line, its step is an end of the trimmed line. */
  lemma StepIsSuffix(line: string)
    requires !Blank(line)
    ensures |StepOf(line)| == 1 && T.HasSuffix(TrimSpace(line), StepOf(line)[0])
  {
    hide *;
    TrimSpaceMeans(line);
    var t := TrimSpace(line);
    var t1 := TrimPrefix(t, "- ");
    var t2 := TrimPrefix(t1, "* ");
    TrimmedStep(line, t);
    TrimPrefixIsSuffix(t, "- ");
    TrimPrefixIsSuffix(t1, "* ");
    WithoutNumberIsSuffix(t2);
    StripIs(t);
    SuffixOfSuffix(t, t1, t2);
    SuffixOfSuffix(t, t2, Strip(t));
  }

  lemma StripIs(s: string)
    ensures Strip(s) == WithoutNumber(TrimPrefix(TrimPrefix(s, "- "), "* "))
  {
    hide WithoutNumber, TrimPrefix;
  }

  lemma TrimPrefixIsSuffix(s: string, p: string)
    ensures T.HasSuffix(s, TrimPrefix(s, p))
  {
  }

  lemma WithoutNumberIsSuffix(s: string)
    ensures T.HasSuffix(s, WithoutNumber(s))
  {
    hide ByteLen;
  }

  lemma SuffixOfSuffix(s: string, t: string, u: string)
    requires T.HasSuffix(s, t) && T.HasSuffix(t, u)
    ensures T.HasSuffix(s, u)
  {
    assert s[|s| - |t|..][|t| - |u|..] == s[|s| - |u|..];
  }

  lemma {:induction false} LinesGiveSteps(lines: seq<string>, steps: seq<string>)
    requires |lines| == |steps| && forall i :: 0 <= i < |lines| ==> StepOf(lines[i]) == [steps[i]]
    ensures StepsOf(lines) == steps
  {
    hide StepOf;
    if lines != [] {
      var n := |lines| - 1;
      LinesGiveSteps(lines[..n], steps[..n]);
      assert steps == steps[..n] + [steps[n]];
    }
  }

  // ---- The step state machine ----

  datatype Status = Pending | Running | Completed

  datatype TaskStep = TaskStep(id: string, action: string, status: Status, observation: string)

  /** What the reasoner keeps of a session: the dashboard, and the plan with its current index in
      the reasoner's own state. */
  datatype Board = Board(globalGoal: string, steps: seq<TaskStep>, currentStepID: string,
                         planned: Option<seq<string>>, index: nat)

  const FRESH := Board("", [], "", None, 0)

  datatype Event = UserQuery(query: string) | LLMResponse(text: string) | ExecResult(observation: string)
      | Error(cause: string) | Other

  datatype NextStep = CallLLM(prompt: string) | CallTool(step: string) | Finish(summary: string) | Failed

  predicate Valid(b: Board) {
    b.planned.Some? ==> |b.planned.value| == |b.steps|
  }

  function StepID(i: nat): string {
    "step-" + D.Decimal(i)
  }

  /** No two steps of a plan have the same id. */
  lemma StepIDsDiffer(i: nat, j: nat)
    ensures StepID(i) == StepID(j) <==> i == j
  {
    assert StepID(i)[5..] == D.Decimal(i) && StepID(j)[5..] == D.Decimal(j);
    if StepID(i) == StepID(j) {
      D.DecimalIsInjective(i, j);
    }
    hide D.Decimal;
  }

  function NewSteps(steps: seq<string>): seq<TaskStep> {
    seq(|steps|, i requires 0 <= i < |steps| => TaskStep(StepID(i), steps[i], if i == 0 then Running else Pending, ""))
  }

  function Summary(steps: seq<TaskStep>): string {
    if steps == [] then "Successfully completed all planned steps (respond):\n"
    else
      var s := steps[|steps| - 1];
      Summary(steps[..|steps| - 1]) + "- " + s.action + ": " + s.observation + "\n"
  }

  /** The dashboard after the result of the current step. */
  function Recorded(b: Board, observation: string): Board
    requires Valid(b) && b.planned.Some?
  {
    var steps1 := if b.index < |b.steps|
                  then b.steps[b.index := b.steps[b.index].(status := Completed, observation := observation)]
                  else b.steps;
    var next := b.index + 1;
    if next < |b.planned.value| then
      b.(steps := steps1[next := steps1[next].(status := Running)], index := next, currentStepID := steps1[next].id)
    else b.(steps := steps1, index := next)
  }

  /** What Decide does to the dashboard, and its answer. */
  ghost function Decided(b: Board, e: Event): (Board, NextStep)
    requires Valid(b)
  {
    match e
    case UserQuery(q) => (b.(globalGoal := q), CallLLM("generate_plan: " + q))
    case LLMResponse(text) =>
      var steps := PlanSteps(text);
      (b.(planned := Some(steps), index := 0, steps := NewSteps(steps), currentStepID := StepID(0)), CallTool(steps[0]))
    case ExecResult(observation) =>
      if b.planned.None? then (b, Failed)
      else
        var b1 := Recorded(b, observation);
        (b1, if b1.index < |b.planned.value| then CallTool(b.planned.value[b1.index]) else Finish(Summary(b1.steps)))
    case Error(cause) => (b, Finish("Execution failed due to error: " + cause))
    case Other => (b, Failed)
  }

  class State {
    var globalGoal: string
    var steps: seq<TaskStep>
    var currentStepID: string
    var planned: Option<seq<string>>
    var currentIndex: nat

    constructor ()
      ensures Dashboard() == FRESH
    {
      globalGoal, steps, currentStepID, planned, currentIndex := "", [], "", None, 0;
    }

    function Dashboard(): Board
      reads this
    {
      Board(globalGoal, steps, currentStepID, planned, currentIndex)
    }

    method Decide(e: Event) returns (r: NextStep)
      requires Valid(Dashboard())
      modifies this
      ensures Valid(Dashboard()) && (Dashboard(), r) == Decided(old(Dashboard()), e)
    {
      hide PlanSteps, Summary, StepID;
      match e
      case UserQuery(q) =>
        globalGoal := q;
        r := CallLLM("generate_plan: " + q);
      case LLMResponse(text) =>
        var parsed := ParsePlan(text);
        planned, currentIndex := Some(parsed), 0;
        steps := [];
        for i := 0 to |parsed|
          invariant |steps| == i && forall k :: 0 <= k < i ==> steps[k] == TaskStep(StepID(k), parsed[k], Pending, "")
          invariant planned == Some(parsed) && currentIndex == 0 && globalGoal == old(globalGoal)
        {
          steps := steps + [TaskStep(StepID(i), parsed[i], Pending, "")];
        }
        steps := steps[0 := steps[0].(status := Running)];
        currentStepID := steps[0].id;
        assert steps == NewSteps(parsed);
        r := CallTool(parsed[0]);
        assert (Dashboard(), r) == Decided(old(Dashboard()), e);
      case ExecResult(observation) =>
        if planned.None? {
          return Failed;
        }
        if currentIndex < |steps| {
          steps := steps[currentIndex := steps[currentIndex].(status := Completed)];
          steps := steps[currentIndex := steps[currentIndex].(observation := observation)];
          ghost var done := old(steps)[currentIndex].(status := Completed, observation := observation);
          assert steps == old(steps)[currentIndex := done];
        }
        var nextIdx := currentIndex + 1;
        currentIndex := nextIdx;
        if nextIdx < |planned.value| {
          steps := steps[nextIdx := steps[nextIdx].(status := Running)];
          currentStepID := steps[nextIdx].id;
          return CallTool(planned.value[nextIdx]);
        }
        var summary := Summarize(steps);
        r := Finish(summary);
      case Error(cause) =>
        r := Finish("Execution failed due to error: " + cause);
      case Other =>
        r := Failed;
    }

    method Summarize(done: seq<TaskStep>) returns (summary: string)
      ensures summary == Summary(done)
    {
      summary := "Successfully completed all planned steps (respond):\n";
      for i := 0 to |done|
        invariant summary == Summary(done[..i])
      {
        assert done[..i + 1][..i] == done[..i];
        summary := summary + "- " + done[i].action + ": " + done[i].observation + "\n";
      }
      assert done[..|done|] == done;
    }
  }

  // ---- Runs ----

  /** The dashboard of a plan after the results obs of its first steps: those are completed with
      their results, the next one is running, the others are pending. */
  ghost predicate Progress(b: Board, plan: seq<string>, obs: seq<string>) {
    && b.planned == Some(plan) && b.index == |obs| && |b.steps| == |plan|
    && (forall i :: 0 <= i < |plan| ==>
          b.steps[i] == TaskStep(StepID(i), plan[i],
                                 if i < |obs| then Completed else if i == |obs| then Running else Pending,
                                 if i < |obs| then obs[i] else ""))
    && (|obs| < |plan| ==> b.currentStepID == StepID(|obs|))
  }

  /** The steps of a plan with the results of all of them. */
  function DoneSteps(plan: seq<string>, obs: seq<string>): seq<TaskStep>
    requires |obs| == |plan|
  {
    seq(|plan|, i requires 0 <= i < |plan| => TaskStep(StepID(i), plan[i], Completed, obs[i]))
  }

  lemma ProgressDone(b: Board, plan: seq<string>, obs: seq<string>)
    requires Progress(b, plan, obs) && |obs| == |plan|
    ensures b.steps == DoneSteps(plan, obs)
  {
    hide StepID;
  }

  /** The dashboard and the answers after a plan has come and then some results. */
  ghost function AfterResults(b: Board, text: string, obs: seq<string>): (r: (Board, seq<NextStep>))
    requires Valid(b)
    ensures Valid(r.0)
  {
    if obs == [] then
      var (b1, next) := Decided(b, LLMResponse(text));
      (b1, [next])
    else
      var (b0, answers) := AfterResults(b, text, obs[..|obs| - 1]);
      var (b1, next) := Decided(b0, ExecResult(obs[|obs| - 1]));
      (b1, answers + [next])
  }

  /** The answers to a plan and n results. */
  ghost predicate InOrder(answers: seq<NextStep>, plan: seq<string>, n: nat, steps: seq<TaskStep>) {
    && |answers| == n + 1
    && (forall i :: 0 <= i <= n && i < |plan| ==> answers[i] == CallTool(plan[i]))
    && (n == |plan| ==> answers[n] == Finish(Summary(steps)))
  }

  /** Main result of the reasoner: whatever the model answers, its steps are dispatched in order, one
      for each result of the step before, and after the last result comes the finish. */
  lemma {:induction false} StepsAreDispatchedInOrder(b: Board, text: string, obs: seq<string>)
    requires Valid(b) && |obs| <= |PlanSteps(text)|
    ensures var plan := PlanSteps(text);
            var (b1, answers) := AfterResults(b, text, obs);
            Progress(b1, plan, obs) && InOrder(answers, plan, |obs|, b1.steps)
  {
    hide *;
    var plan := PlanSteps(text);
    if obs == [] {
      PlannedProgress(b, text);
    } else {
      var init, last := obs[..|obs| - 1], obs[|obs| - 1];
      assert obs == init + [last];
      StepsAreDispatchedInOrder(b, text, init);
      var r0 := AfterResults(b, text, init);
      RecordedProgress(r0.0, plan, init, last);
      AfterOneMore(b, text, init, last);
      InOrderStep(r0.1, plan, |init|, r0.0.steps, Recorded(r0.0, last));
    }
  }

  lemma InOrderStep(answers: seq<NextStep>, plan: seq<string>, n: nat, steps: seq<TaskStep>, b1: Board)
    requires InOrder(answers, plan, n, steps) && n < |plan| && b1.index == n + 1
    ensures InOrder(answers + [if b1.index < |plan| then CallTool(plan[b1.index]) else Finish(Summary(b1.steps))],
                    plan, n + 1, b1.steps)
  {
    hide Summary;
  }

  lemma PlannedProgress(b: Board, text: string)
    requires Valid(b)
    ensures var (b1, answers) := AfterResults(b, text, []);
            && Progress(b1, PlanSteps(text), []) && answers == [CallTool(PlanSteps(text)[0])]
            && InOrder(answers, PlanSteps(text), 0, b1.steps)
  {
    hide PlanSteps, StepID, Summary;
  }

  lemma AfterOneMore(b: Board, text: string, init: seq<string>, last: string)
    requires Valid(b) && AfterResults(b, text, init).0.planned == Some(PlanSteps(text))
    ensures var plan := PlanSteps(text);
            var (b0, answers) := AfterResults(b, text, init);
            var b1 := Recorded(b0, last);
            AfterResults(b, text, init + [last])
            == (b1, answers + [if b1.index < |plan| then CallTool(plan[b1.index]) else Finish(Summary(b1.steps))])
  {
    assert (init + [last])[..|init|] == init;
    hide PlanSteps, Recorded, Summary;
  }

  /** A query and an error in between leave a plan where it is; a result without a plan changes nothing
      and is refused. */
  lemma OtherEventsKeepPlan(b: Board, plan: seq<string>, obs: seq<string>, text: string)
    requires Valid(b)
    ensures Decided(b, UserQuery(text)).1 == CallLLM("generate_plan: " + text)
    ensures Decided(b, Error(text)) == (b, Finish("Execution failed due to error: " + text))
    ensures Progress(b, plan, obs) ==>
              Progress(Decided(b, UserQuery(text)).0, plan, obs) && Decided(b, UserQuery(text)).0.globalGoal == text
    ensures b.planned.None? ==> Decided(b, ExecResult(text)) == (b, Failed)
  {
    hide StepID;
  }

  lemma RecordedProgress(b: Board, plan: seq<string>, init: seq<string>, last: string)
    requires Progress(b, plan, init) && |init| < |plan|
    ensures Progress(Recorded(b, last), plan, init + [last])
    ensures Recorded(b, last).index == |init| + 1 && b.planned == Some(plan)
  {
    hide StepID;
  }
}

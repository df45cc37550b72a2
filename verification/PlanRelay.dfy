/** The relay between the model's plan, the reasoner and the motor side (internal/brain/diencephalon.go).
    The relay prints a plan as text, the reasoner parses it again; corrections find their session
    through the goal in front of their step number. */
module PlanRelay {
  import opened Wrappers
  import opened GoStrings
  import P = PlanExecute
  import T = Texts
  import D = Decimals

  type SessionId = string

  // ---- Printing and parsing a plan ----

  /** The payload that the relay makes of a plan. */
  function Printed(intent: string, plan: seq<string>): string {
    intent + "\n" + Join(plan)
  }

  /** The intent adds no step: every line of it is blank, but for a first line with a keyword. */
  predicate Silent(intent: string) {
    var lines := P.WithoutIntent(Split(intent));
    forall i :: 0 <= i < |lines| ==> Blank(lines[i])
  }

  /** The lines of several texts. */
  function AllLines(texts: seq<string>): seq<string> {
    if texts == [] then [] else Split(texts[0]) + AllLines(texts[1..])
  }

  lemma {:induction false} SplitJoin(plan: seq<string>)
    requires plan != []
    ensures Split(Join(plan)) == AllLines(plan)
  {
    if |plan| == 1 {
      assert AllLines(plan[1..]) == [];
    } else {
      SplitJoin(plan[1..]);
      SplitAppend(plan[0], Join(plan[1..]));
    }
  }

  /** The printed plan has the lines of the intent and then those of the plan. */
  lemma PrintedLines(intent: string, plan: seq<string>)
    requires plan != []
    ensures P.WithoutIntent(Split(Printed(intent, plan))) == P.WithoutIntent(Split(intent)) + AllLines(plan)
  {
    SplitAppend(intent, Join(plan));
    SplitJoin(plan);
    var lines, more := Split(intent), AllLines(plan);
    hide Split, AllLines, Join, P.IsKeyword;
    assert (lines + more)[0] == lines[0] && (lines + more)[1..] == lines[1..] + more;
  }

  lemma {:induction false} NoStepsIff(lines: seq<string>)
    ensures P.StepsOf(lines) == [] <==> forall i :: 0 <= i < |lines| ==> Blank(lines[i])
  {
    hide *;
    if lines == [] {
      NoSteps();
    } else {
      var n := |lines| - 1;
      NoStepsIff(lines[..n]);
      P.StepsOfNext(lines, n);
      assert lines[..n + 1] == lines;
      BlankStepIff(lines[n]);
      assert P.StepsOf(lines) == [] <==> |P.StepsOf(lines[..n])| + |P.StepOf(lines[n])| == 0;
    }
  }

  lemma NoSteps()
    ensures P.StepsOf([]) == []
  {
  }

  lemma BlankStepIff(line: string)
    ensures P.StepOf(line) == [] <==> Blank(line)
  {
    TrimSpaceMeans(line);
    hide TrimSpace, Blank, P.Strip;
  }

  /** Every step is on one line and does not end in white space. */
  predicate Solid(s: string) {
    OneLine(s) && s != [] && !IsSpace(s[|s| - 1])
  }

  lemma StripIsSolid(t: string)
    requires OneLine(t) && Tight(t)
    ensures Solid(P.Strip(t))
  {
    var t1 := TrimPrefix(t, "- ");
    var t2 := TrimPrefix(t1, "* ");
    CutIsSolid(t, "- ");
    CutIsSolid(t1, "* ");
    if P.Numbered(t2) {
      T.IndexIsFirst(t2, ". ");
      var i := T.Index(t2, ". ");
      assert t2[i..i + 2] == ". ";
      assert t2[i + 1] == t2[i..i + 2][1];
      SuffixIsSolid(t2, i + 2);
    }
  }

  lemma SuffixIsSolid(s: string, n: nat)
    requires Solid(s) && 0 < n <= |s| && s[n - 1] == ' '
    ensures Solid(s[n..])
  {
  }

  /** Nothing solid is only a prefix that ends in a space. */
  lemma CutIsSolid(s: string, p: string)
    requires Solid(s) && |p| > 0 && p[|p| - 1] == ' '
    ensures Solid(TrimPrefix(s, p))
  {
    if HasPrefix(s, p) {
      assert s[|p| - 1] == p[|p| - 1];
      SuffixIsSolid(s, |p|);
    }
  }

  lemma {:induction false} StepsAreSolid(lines: seq<string>)
    requires forall i :: 0 <= i < |lines| ==> OneLine(lines[i])
    ensures forall i :: 0 <= i < |P.StepsOf(lines)| ==> Solid(P.StepsOf(lines)[i])
  {
    if lines != [] {
      var init, last := lines[..|lines| - 1], lines[|lines| - 1];
      StepsAreSolid(init);
      TrimSpaceMeans(last);
      if TrimSpace(last) != "" {
        StripIsSolid(TrimSpace(last));
      }
      hide Solid, TrimSpace, P.Strip, IsSpace;
    }
  }

  /** On solid steps the lines are the steps themselves, and each gives exactly one step. */
  lemma {:induction false} SolidSteps(plan: seq<string>)
    requires forall i :: 0 <= i < |plan| ==> Solid(plan[i])
    ensures AllLines(plan) == plan
    ensures |P.StepsOf(plan)| == |plan|
    ensures forall i :: 0 <= i < |plan| ==> P.StepOf(plan[i]) == [P.StepsOf(plan)[i]]
  {
    if plan != [] {
      var first, rest := plan[0], plan[1..];
      SolidSteps(rest);
      SplitOneLine(first);
      SolidGivesStep(first);
      assert plan == [first] + rest;
      P.StepsOfAppend([first], rest);
      OneStep(first);
      assert AllLines(plan) == [first] + rest;
      hide *;
      FirstAndRest(P.StepsOf(plan), P.StepOf(first), P.StepsOf(rest));
      assert forall i :: 0 < i < |plan| ==> plan[i] == rest[i - 1];
    }
  }

  lemma FirstAndRest(all: seq<string>, first: seq<string>, rest: seq<string>)
    requires all == first + rest && |first| == 1
    ensures |all| == |rest| + 1 && first == [all[0]] && forall i :: 0 < i < |all| ==> all[i] == rest[i - 1]
  {
  }

  lemma OneStep(line: string)
    ensures P.StepsOf([line]) == P.StepOf(line)
  {
    assert [line][..0] == [];
  }

  lemma SolidGivesStep(s: string)
    requires Solid(s)
    ensures |P.StepOf(s)| == 1
  {
    TrimSpaceMeans(s);
    hide TrimSpace, P.Strip, IsSpace;
  }

  /** A plan that is parsed back has only solid steps. */
  lemma BackImpliesSolid(intent: string, plan: seq<string>)
    requires P.PlanSteps(Printed(intent, plan)) == plan
    ensures forall i :: 0 <= i < |plan| ==> Solid(plan[i])
  {
    var lines := P.WithoutIntent(Split(Printed(intent, plan)));
    SplitGivesLines(Printed(intent, plan));
    assert forall i :: 0 <= i < |lines| ==> OneLine(lines[i]);
    StepsAreSolid(lines);
    FallbackIsSolid();
    assert plan == P.StepsOf(lines) || plan == P.FALLBACK;
    hide *;
  }

  lemma FallbackIsSolid()
    ensures forall i :: 0 <= i < |P.FALLBACK| ==> Solid(P.FALLBACK[i])
  {
    SpellSolid(P.FALLBACK[0]);
    SpellSolid(P.FALLBACK[1]);
  }

  lemma SpellSolid(s: string)
    requires s != [] && forall i :: 0 <= i < |s| ==> 'a' <= s[i] <= 'z' || s[i] == '_'
    ensures Solid(s)
  {
  }

  /** Main result: a printed plan is parsed back to itself exactly when it has a step, each step is
      one trimmed line without a list mark, and the intent adds no step of its own. */
  lemma RoundTripIff(intent: string, plan: seq<string>)
    ensures P.PlanSteps(Printed(intent, plan)) == plan
            <==> plan != [] && Silent(intent) && forall i :: 0 <= i < |plan| ==> P.Clean(plan[i])
  {
    if P.PlanSteps(Printed(intent, plan)) == plan {
      BackImpliesSolid(intent, plan);
    }
    forall i | 0 <= i < |plan| && P.Clean(plan[i]) ensures Solid(plan[i]) {
    }
    if plan != [] && forall i :: 0 <= i < |plan| ==> Solid(plan[i]) {
      SolidRoundTrip(intent, plan);
    }
  }

  lemma SolidRoundTrip(intent: string, plan: seq<string>)
    requires plan != [] && forall i :: 0 <= i < |plan| ==> Solid(plan[i])
    ensures P.PlanSteps(Printed(intent, plan)) == plan
            <==> Silent(intent) && forall i :: 0 <= i < |plan| ==> P.Clean(plan[i])
  {
    var head := P.WithoutIntent(Split(intent));
    PrintedLines(intent, plan);
    SolidSteps(plan);
    P.StepsOfAppend(head, plan);
    NoStepsIff(head);
    var a, b := P.StepsOf(head), P.StepsOf(plan);
    assert P.PlanSteps(Printed(intent, plan)) == a + b && (Silent(intent) <==> a == []);
    assert forall i :: 0 <= i < |plan| ==> OneLine(plan[i]);
    hide *;
    forall i | 0 <= i < |plan| ensures P.Clean(plan[i]) <==> b[i] == plan[i] {
      P.CleanIff(plan[i]);
    }
    NothingInFront(a, b, plan);
  }

  lemma NothingInFront(a: seq<string>, b: seq<string>, plan: seq<string>)
    requires |b| == |plan|
    ensures a + b == plan <==> a == [] && forall i :: 0 <= i < |plan| ==> b[i] == plan[i]
  {
    if a == [] {
      assert a + b == b;
    } else {
      assert |a + b| > |plan|;
    }
  }

  // ---- What a model's answer means ----

  function Lines(items: seq<P.Item>): seq<string> {
    seq(|items|, i requires 0 <= i < |items| => items[i].Line())
  }

  function ItemTexts(items: seq<P.Item>): seq<string> {
    seq(|items|, i requires 0 <= i < |items| => items[i].text)
  }

  /** Main result of the parser: from a numbered or bulleted answer, however its lines are marked and
      indented, it takes exactly the texts behind the marks, in order. */
  lemma ListIsParsed(intent: string, items: seq<P.Item>)
    requires items != [] && Silent(intent) && forall i :: 0 <= i < |items| ==> items[i].Valid()
    ensures P.PlanSteps(Printed(intent, Lines(items))) == ItemTexts(items)
  {
    hide *;
    LinesOfItems(items);
    forall i | 0 <= i < |items|
      ensures OneLine(Lines(items)[i]) && P.StepOf(Lines(items)[i]) == [ItemTexts(items)[i]]
    {
      P.MarkedStep(items[i]);
    }
    P.LinesGiveSteps(Lines(items), ItemTexts(items));
    AllLinesOfLines(Lines(items));
    StepsOfPrinted(intent, Lines(items));
  }

  lemma LinesOfItems(items: seq<P.Item>)
    ensures |Lines(items)| == |ItemTexts(items)| == |items|
    ensures forall i :: 0 <= i < |items| ==> Lines(items)[i] == items[i].Line() && ItemTexts(items)[i] == items[i].text
  {
    hide P.Item.Line;
  }

  lemma {:induction false} AllLinesOfLines(lines: seq<string>)
    requires forall i :: 0 <= i < |lines| ==> OneLine(lines[i])
    ensures AllLines(lines) == lines
  {
    hide OneLine, Split;
    if lines != [] {
      SplitOneLine(lines[0]);
      AllLinesOfLines(lines[1..]);
      assert lines == [lines[0]] + lines[1..];
    }
  }

  lemma StepsOfPrinted(intent: string, plan: seq<string>)
    requires plan != [] && Silent(intent) && P.StepsOf(AllLines(plan)) != []
    ensures P.PlanSteps(Printed(intent, plan)) == P.StepsOf(AllLines(plan))
  {
    var head := P.WithoutIntent(Split(intent));
    PrintedLines(intent, plan);
    P.StepsOfAppend(head, AllLines(plan));
    NoStepsIff(head);
    hide P.StepsOf, AllLines, Split, P.WithoutIntent, Printed, Blank;
    assert [] + P.StepsOf(AllLines(plan)) == P.StepsOf(AllLines(plan));
  }

  /** An intent on one line adds no step exactly if it is blank or one of three words. */
  lemma SilentIff(intent: string)
    requires OneLine(intent)
    ensures Silent(intent)
            <==> Blank(intent) || TrimSpace(intent) == "plan" || TrimSpace(intent) == "execute_workflow"
                 || TrimSpace(intent) == "respond"
  {
    SplitOneLine(intent);
    hide Split, TrimSpace, Blank;
    assert [intent][1..] == [] && [intent][0] == intent;
  }

  /** An answer without any step gets two steps all the same. */
  lemma NoStepFallback(text: string)
    requires Silent(text)
    ensures P.PlanSteps(text) == ["inspect_env", "trigger_math_calculators"]
  {
    NoStepsIff(P.WithoutIntent(Split(text)));
    hide P.StepsOf, Blank, Split, P.WithoutIntent;
  }

  // ---- The final answer ----

  /** What the answer says of a step. */
  function Report(s: P.TaskStep): string {
    "- " + s.action + ": " + s.observation
  }

  /** What the answer says, before it is put on lines. */
  function Reports(steps: seq<P.TaskStep>): seq<string> {
    ["Successfully completed all planned steps (respond):"]
    + seq(|steps|, i requires 0 <= i < |steps| => Report(steps[i]))
  }

  /** The lines of the final answer are those of the heading and then of each step's report, in order. */
  lemma {:induction false} SummaryLines(steps: seq<P.TaskStep>)
    ensures Split(P.Summary(steps)) == AllLines(Reports(steps)) + [""]
  {
    hide *;
    if steps == [] {
      EmptySummary();
    } else {
      var init, last := steps[..|steps| - 1], steps[|steps| - 1];
      assert steps == init + [last];
      SummaryLines(init);
      SummarySnoc(init, last);
      ReportsSnoc(init, last);
      AllLinesSnoc(Reports(init), Report(last));
      OneMoreLine(P.Summary(init), AllLines(Reports(init)), Report(last));
    }
  }

  lemma EmptySummary()
    ensures Split(P.Summary([])) == AllLines(Reports([])) + [""]
  {
    hide Split;
    var heading := Reports([])[0];
    SplitAppend(heading, "");
    SplitOneLine("");
    assert heading + "\n" + "" == P.Summary([]);
    assert Reports([]) == [heading] && [heading][1..] == [];
    assert AllLines([]) == [] && AllLines([heading]) == Split(heading) + [];
  }

  lemma SummarySnoc(init: seq<P.TaskStep>, last: P.TaskStep)
    ensures P.Summary(init + [last]) == P.Summary(init) + Report(last) + "\n"
  {
    var before := P.Summary(init);
    T.InitAndLast(init, last);
    T.Assoc(before, "- ", last.action);
    T.Assoc(before, "- " + last.action, ": ");
    T.Assoc(before, "- " + last.action + ": ", last.observation);
  }

  lemma ReportsSnoc(init: seq<P.TaskStep>, last: P.TaskStep)
    ensures Reports(init + [last]) == Reports(init) + [Report(last)]
  {
    hide Report;
    var texts := seq(|init|, i requires 0 <= i < |init| => Report(init[i]));
    assert seq(|init + [last]|, i requires 0 <= i < |init + [last]| => Report((init + [last])[i]))
        == texts + [Report(last)];
  }

  lemma {:induction false} AllLinesSnoc(texts: seq<string>, last: string)
    ensures AllLines(texts + [last]) == AllLines(texts) + Split(last)
  {
    hide Split;
    if texts == [] {
      assert texts + [last] == [last] && [last][1..] == [];
    } else {
      AllLinesSnoc(texts[1..], last);
      assert (texts + [last])[1..] == texts[1..] + [last];
      T.Assoc(Split(texts[0]), AllLines(texts[1..]), Split(last));
    }
  }

  /** A text after the end of a line is on lines of its own. */
  lemma OneMoreLine(s: string, before: seq<string>, text: string)
    requires Split(s) == before + [""]
    ensures Split(s + text + "\n") == before + Split(text) + [""]
  {
    SplitMore(s, text);
    SplitAppend(s + text, "");
    SplitOneLine("");
    assert s + text + "\n" + "" == s + text + "\n";
    var tail := Split(text);
    hide Split;
    assert (before + [""])[..|before|] == before && "" + tail[0] == tail[0];
    assert [tail[0]] + tail[1..] == tail;
    T.Assoc(before, [tail[0]], tail[1..]);
  }

  /** Text is added to the last line. */
  lemma {:induction false} SplitMore(s: string, text: string)
    ensures var lines, more := Split(s), Split(text);
            Split(s + text) == lines[..|lines| - 1] + [lines[|lines| - 1] + more[0]] + more[1..]
  {
    var more := Split(text);
    if s == [] {
      assert s + text == text && "" + more[0] == more[0];
    } else {
      SplitMore(s[1..], text);
      assert s == [s[0]] + s[1..] && s + text == [s[0]] + (s[1..] + text);
      SplitCons(s[0], s[1..]);
      SplitCons(s[0], s[1..] + text);
      var rest := Split(s[1..]);
      hide Split;
      PrependMore(s[0], rest, more);
    }
  }

  lemma PrependMore(c: char, lines: seq<string>, more: seq<string>)
    requires |lines| > 0 && |more| > 0
    ensures var all := Prepend(c, lines);
            Prepend(c, lines[..|lines| - 1] + [lines[|lines| - 1] + more[0]] + more[1..])
            == all[..|all| - 1] + [all[|all| - 1] + more[0]] + more[1..]
  {
    var init, last := lines[..|lines| - 1], lines[|lines| - 1];
    assert lines == init + [last];
    if c != '\n' && init == [] {
      assert [c] + last + more[0] == [c] + (last + more[0]);
    }
  }

  // ---- Finding the session of a correction ----

  function StepGoal(goal: string, i: nat): string {
    goal + "-" + D.Decimal(i)
  }

  /** What comes before the last hyphen, if that is more than one byte. */
  function BaseSessionID(goalID: string): string {
    var idx := LastIndex(goalID, '-');
    if idx != -1 && ByteLen(goalID[..idx]) > 1 then goalID[..idx] else goalID
  }

  lemma LastHyphen(goal: string, i: nat)
    ensures LastIndex(StepGoal(goal, i), '-') == |goal|
  {
    var id, digits := StepGoal(goal, i), D.Decimal(i);
    D.DigitsAreDigits(i);
    assert digits == D.Digits(i);
    hide D.Decimal, D.Digits;
    assert id[|goal|] == '-';
    forall k | |goal| < k < |id| ensures id[k] != '-' {
      assert id[k] == digits[k - |goal| - 1];
    }
  }

  /** The base of a step's goal is the goal exactly when that has at least two bytes. */
  lemma BaseIsGoalIff(goal: string, i: nat)
    ensures BaseSessionID(StepGoal(goal, i)) == goal <==> ByteLen(goal) >= 2
  {
    LastHyphen(goal, i);
    var id := StepGoal(goal, i);
    assert id[..|goal|] == goal && |id| > |goal|;
    hide ByteLen;
  }

  /** An id without a step number, as in a delegation to the Copilot, keeps its session exactly when
      it has no hyphen after its second byte. */
  lemma BareGoalIff(goal: string)
    ensures BaseSessionID(goal) == goal
            <==> forall i :: 0 <= i < |goal| && goal[i] == '-' ==> ByteLen(goal[..i]) < 2
  {
    var idx := LastIndex(goal, '-');
    forall i | 0 <= i < |goal| && goal[i] == '-' ensures i <= idx && ByteLen(goal[..i]) <= ByteLen(goal[..idx]) {
      ByteLenGrows(goal, i, idx);
    }
    hide ByteLen;
  }

  /** One character can be enough, and too much: U+76EE has three bytes. */
  lemma WideGoal()
    ensures var goal := "\U{76EE}";
            BaseSessionID(StepGoal(goal, 0)) == goal && BaseSessionID(goal + "-x") == goal
  {
    var goal := "\U{76EE}";
    assert goal[..0] == "" && ByteLen(goal) == 3;
    BaseIsGoalIff(goal, 0);
    var id := goal + "-x";
    assert LastIndex(id, '-') == 1 && id[..1] == goal;
  }

  // ---- The relay and its sessions ----

  datatype Message = Plan(goal: string, intent: string, plan: seq<string>) | Correction(goal: string, plan: seq<string>)

  /** What drive sends: a prompt to the model, a one-step command to the motor side, or the answer. */
  datatype Out = ToModel(session: SessionId, prompt: string) | ToMotor(session: SessionId, step: string)
               | Answer(session: SessionId, text: string) | Nothing

  type Sessions = map<SessionId, P.Board>

  predicate ValidSessions(ss: Sessions) {
    forall id :: id in ss ==> P.Valid(ss[id])
  }

  function Get(ss: Sessions, id: SessionId): P.Board {
    if id in ss then ss[id] else P.FRESH
  }

  function Target(m: Message): SessionId {
    if m.Plan? then m.goal else BaseSessionID(m.goal)
  }

  function EventOf(m: Message): P.Event {
    if m.Plan? then P.LLMResponse(Printed(m.intent, m.plan)) else P.ExecResult(Join(m.plan))
  }

  function Sent(id: SessionId, next: P.NextStep): Out {
    match next
    case CallLLM(prompt) => ToModel(id, prompt)
    case CallTool(step) => ToMotor(id, step)
    case Finish(text) => Answer(id, text)
    case Failed => Nothing
  }

  /** One message: the session is made if it is new, driven, and deleted when it is finished. */
  ghost function Handled(ss: Sessions, m: Message): (r: (Sessions, Out))
    requires ValidSessions(ss)
    ensures ValidSessions(r.0)
  {
    var id := Target(m);
    var (b, next) := P.Decided(Get(ss, id), EventOf(m));
    (if next.Finish? then ss - {id} else ss[id := b], Sent(id, next))
  }

  class DiencephalonNode {
    var sessions: map<SessionId, P.State>

    constructor ()
      ensures sessions == map[] && Ok()
    {
      sessions := map[];
    }

    /** No two sessions share a state. */
    ghost predicate Ok()
      reads this, sessions.Values
    {
      && (forall id :: id in sessions ==> P.Valid(sessions[id].Dashboard()))
      && forall a, b :: a in sessions && b in sessions && sessions[a] == sessions[b] ==> a == b
    }

    ghost function View(): Sessions
      reads this, sessions.Values
    {
      map id | id in sessions :: sessions[id].Dashboard()
    }

    method GetOrCreateState(id: SessionId) returns (state: P.State)
      requires Ok()
      modifies this`sessions
      ensures Ok() && id in sessions && sessions[id] == state
      ensures if id in old(sessions) then sessions == old(sessions)
              else fresh(state) && sessions == old(sessions)[id := state] && state.Dashboard() == P.FRESH
      ensures View() == old(View())[id := Get(old(View()), id)]
    {
      if id in sessions {
        state := sessions[id];
      } else {
        state := new P.State();
        sessions := sessions[id := state];
      }
    }

    /** The reasoner works on one session; the others keep their state. */
    method Drive(id: SessionId, event: P.Event) returns (next: P.NextStep)
      requires Ok() && id in sessions
      modifies sessions[id]
      ensures Ok() && P.Valid(old(View())[id])
      ensures var (b, n) := P.Decided(old(View())[id], event); View() == old(View())[id := b] && next == n
    {
      hide P.Decided, P.Valid;
      next := sessions[id].Decide(event);
    }

    method Delete(id: SessionId)
      requires Ok()
      modifies this`sessions
      ensures Ok() && View() == old(View()) - {id}
    {
      sessions := sessions - {id};
    }

    method Handle(m: Message) returns (out: Out)
      requires Ok()
      modifies this`sessions, sessions.Values
      ensures Ok() && ValidSessions(old(View())) && (View(), out) == Handled(old(View()), m)
    {
      ghost var before := View();
      assert ValidSessions(before);
      HandledMeans(before, m);
      var id := if m.Plan? then m.goal else BaseSessionID(m.goal);
      var event := if m.Plan? then P.LLMResponse(m.intent + "\n" + Join(m.plan)) else P.ExecResult(Join(m.plan));
      assert id == Target(m) && event == EventOf(m);
      hide *;
      var state := GetOrCreateState(id);
      var next := Drive(id, event);
      PutTwice(before, id, Get(before, id), P.Decided(Get(before, id), event).0);
      match next
      case CallLLM(prompt) => out := ToModel(id, prompt);
      case CallTool(step) => out := ToMotor(id, step);
      case Finish(text) =>
        out := Answer(id, text);
        Delete(id);
      case Failed => out := Nothing;
    }
  }

  lemma PutTwice(ss: Sessions, id: SessionId, a: P.Board, b: P.Board)
    ensures ss[id := a][id := b] == ss[id := b] && ss[id := a] - {id} == ss[id := b] - {id} == ss - {id}
  {
  }

  lemma HandledMeans(ss: Sessions, m: Message)
    requires ValidSessions(ss)
    ensures P.Valid(Get(ss, Target(m)))
    ensures var id := Target(m);
            var (b, next) := P.Decided(Get(ss, id), EventOf(m));
            Handled(ss, m) == (match next
                               case CallLLM(prompt) => (ss[id := b], ToModel(id, prompt))
                               case CallTool(step) => (ss[id := b], ToMotor(id, step))
                               case Finish(text) => (ss - {id}, Answer(id, text))
                               case Failed => (ss[id := b], Nothing))
  {
    assert P.Valid(P.FRESH);
    hide P.Decided, Target, EventOf, P.Valid;
  }

  // ---- A plan carried out ----

  ghost function HandledAll(ss: Sessions, ms: seq<Message>): (r: (Sessions, seq<Out>))
    requires ValidSessions(ss)
    ensures ValidSessions(r.0)
  {
    if ms == [] then (ss, [])
    else
      var (ss0, outs) := HandledAll(ss, ms[..|ms| - 1]);
      var (ss1, out) := Handled(ss0, ms[|ms| - 1]);
      (ss1, outs + [out])
  }

  /** Corrections of steps of the goal. */
  predicate AreFor(goal: string, corrections: seq<Message>) {
    forall i :: 0 <= i < |corrections| ==> corrections[i].Correction? && BaseSessionID(corrections[i].goal) == goal
  }

  /** Corrections under the goal with the number of a step. */
  ghost predicate AreOfSteps(goal: string, corrections: seq<Message>) {
    forall i :: 0 <= i < |corrections| ==>
      corrections[i].Correction? && exists k: nat :: corrections[i].goal == StepGoal(goal, k)
  }

  function Observations(corrections: seq<Message>): seq<string>
    requires forall i :: 0 <= i < |corrections| ==> corrections[i].Correction?
  {
    seq(|corrections|, i requires 0 <= i < |corrections| => Join(corrections[i].plan))
  }

  lemma ObservationsSnoc(init: seq<Message>, last: Message)
    requires last.Correction? && forall i :: 0 <= i < |init| ==> init[i].Correction?
    ensures Observations(init + [last]) == Observations(init) + [Join(last.plan)]
  {
  }

  lemma HandledSnoc(ss: Sessions, ms: seq<Message>, m: Message)
    requires ValidSessions(ss)
    ensures var (ss0, outs) := HandledAll(ss, ms);
            var (ss1, out) := Handled(ss0, m);
            HandledAll(ss, ms + [m]) == (ss1, outs + [out])
  {
    assert (ms + [m])[..|ms|] == ms;
    hide Handled;
  }

  ghost predicate Dispatches(outs: seq<Out>, goal: string, steps: seq<string>, n: nat) {
    |outs| == n && forall i :: 0 <= i < n && i < |steps| ==> outs[i] == ToMotor(goal, steps[i])
  }

  /** The session of goal after some results, the others being as in ss. */
  ghost function Underway(ss: Sessions, m: Message, corrections: seq<Message>): Sessions
    requires m.Plan? && P.Valid(Get(ss, m.goal)) && AreFor(m.goal, corrections)
  {
    ss[m.goal := P.AfterResults(Get(ss, m.goal), Printed(m.intent, m.plan), Observations(corrections)).0]
  }

  ghost function Steps(m: Message): seq<string>
    requires m.Plan?
  {
    P.PlanSteps(Printed(m.intent, m.plan))
  }

  /** One more result, when n results have come before. */
  lemma CorrectionStep(ss: Sessions, goal: string, b: P.Board, steps: seq<string>, obs: seq<string>, c: Message)
    requires ValidSessions(ss) && P.Progress(b, steps, obs) && |obs| < |steps|
    requires c.Correction? && BaseSessionID(c.goal) == goal
    ensures var b1 := P.Recorded(b, Join(c.plan));
            var n := |obs| + 1;
            Handled(ss[goal := b], c)
            == (if n < |steps| then (ss[goal := b1], ToMotor(goal, steps[n]))
                else (ss - {goal}, Answer(goal, P.Summary(b1.steps))))
  {
    var o := Join(c.plan);
    HandledMeans(ss[goal := b], c);
    DecidedResult(b, steps, obs, o);
    assert Target(c) == goal && EventOf(c) == P.ExecResult(o) && Get(ss[goal := b], goal) == b;
    hide *;
    PutTwice(ss, goal, b, P.Recorded(b, o));
  }

  lemma DecidedResult(b: P.Board, steps: seq<string>, obs: seq<string>, o: string)
    requires P.Progress(b, steps, obs) && |obs| < |steps|
    ensures P.Valid(b) && b.planned.Some?
    ensures var b1, n := P.Recorded(b, o), |obs| + 1;
            P.Decided(b, P.ExecResult(o))
                == (b1, if n < |steps| then P.CallTool(steps[n]) else P.Finish(P.Summary(b1.steps)))
  {
    assert P.Recorded(b, o).index == |obs| + 1;
    hide P.Recorded, P.Summary, P.PlanSteps;
  }

  /** While results come in, the session follows the reasoner, no other session changes, and the
      commands are the steps in order. */
  lemma {:induction false} SessionFollowsReasoner(ss: Sessions, m: Message, corrections: seq<Message>)
    requires ValidSessions(ss) && m.Plan? && AreFor(m.goal, corrections) && |corrections| < |Steps(m)|
    ensures P.Valid(Get(ss, m.goal))
    ensures HandledAll(ss, [m] + corrections).0 == Underway(ss, m, corrections)
    ensures Dispatches(HandledAll(ss, [m] + corrections).1, m.goal, Steps(m), |corrections| + 1)
  {
    hide *;
    HandledMeans(ss, m);
    PlanTarget(m);
    if corrections == [] {
      assert [m] + corrections == [m];
      FirstDispatch(ss, m);
    } else {
      var init, last := corrections[..|corrections| - 1], corrections[|corrections| - 1];
      assert corrections == init + [last];
      AreForParts(m.goal, init, last);
      SessionFollowsReasoner(ss, m, init);
      NextResult(ss, m, init, last);
      DispatchesNext(HandledAll(ss, [m] + init).1, m.goal, Steps(m), |init| + 1);
    }
  }

  lemma PlanTarget(m: Message)
    requires m.Plan?
    ensures Target(m) == m.goal
  {
  }

  lemma DispatchesNext(outs: seq<Out>, goal: string, steps: seq<string>, n: nat)
    requires Dispatches(outs, goal, steps, n) && n < |steps|
    ensures Dispatches(outs + [ToMotor(goal, steps[n])], goal, steps, n + 1)
  {
  }

  lemma FirstDispatch(ss: Sessions, m: Message)
    requires ValidSessions(ss) && m.Plan? && P.Valid(Get(ss, m.goal))
    ensures AreFor(m.goal, [])
    ensures HandledAll(ss, [m]).0 == Underway(ss, m, []) && Dispatches(HandledAll(ss, [m]).1, m.goal, Steps(m), 1)
  {
    HandledSnoc(ss, [], m);
    assert [] + [m] == [m] && Observations([]) == [];
    FirstHandled(ss, m);
    hide Handled, P.PlanSteps, Printed, P.AfterResults;
  }

  lemma FirstHandled(ss: Sessions, m: Message)
    requires ValidSessions(ss) && m.Plan? && P.Valid(Get(ss, m.goal))
    ensures Handled(ss, m) == (ss[m.goal := P.AfterResults(Get(ss, m.goal), Printed(m.intent, m.plan), []).0],
                               ToMotor(m.goal, Steps(m)[0]))
  {
    HandledMeans(ss, m);
    hide Handled, P.PlanSteps, Printed, P.NewSteps, P.StepID, Get;
  }

  /** One more result: what the reasoner answers to it, and what the relay makes of that. */
  lemma NextResult(ss: Sessions, m: Message, init: seq<Message>, last: Message)
    requires ValidSessions(ss) && m.Plan? && P.Valid(Get(ss, m.goal)) && AreFor(m.goal, init) && |init| < |Steps(m)|
    requires last.Correction? && BaseSessionID(last.goal) == m.goal
    requires HandledAll(ss, [m] + init).0 == Underway(ss, m, init)
    ensures AreFor(m.goal, init + [last])
    ensures var n := |init| + 1;
            var (ss1, outs1) := HandledAll(ss, [m] + (init + [last]));
            var outs0 := HandledAll(ss, [m] + init).1;
            var b1 := P.AfterResults(Get(ss, m.goal), Printed(m.intent, m.plan), Observations(init + [last])).0;
            if n < |Steps(m)| then
              ss1 == Underway(ss, m, init + [last]) && outs1 == outs0 + [ToMotor(m.goal, Steps(m)[n])]
            else
              ss1 == ss - {m.goal} && outs1 == outs0 + [Answer(m.goal, P.Summary(b1.steps))]
  {
    var b, text, obs := Get(ss, m.goal), Printed(m.intent, m.plan), Observations(init);
    AreForSnoc(m.goal, init, last);
    UnderwayMeans(ss, m, init);
    UnderwayMeans(ss, m, init + [last]);
    hide *;
    var b0 := P.AfterResults(b, text, obs).0;
    T.Assoc([m], init, [last]);
    ObservationsSnoc(init, last);
    HandledSnoc(ss, [m] + init, last);
    P.StepsAreDispatchedInOrder(b, text, obs);
    ProgressPlanned(b0, Steps(m), obs);
    P.AfterOneMore(b, text, obs, Join(last.plan));
    CorrectionStep(ss, m.goal, b0, Steps(m), obs, last);
  }

  lemma UnderwayMeans(ss: Sessions, m: Message, corrections: seq<Message>)
    requires m.Plan? && P.Valid(Get(ss, m.goal)) && AreFor(m.goal, corrections)
    ensures forall i :: 0 <= i < |corrections| ==> corrections[i].Correction?
    ensures |Observations(corrections)| == |corrections|
    ensures Steps(m) == P.PlanSteps(Printed(m.intent, m.plan))
    ensures Underway(ss, m, corrections)
            == ss[m.goal := P.AfterResults(Get(ss, m.goal), Printed(m.intent, m.plan), Observations(corrections)).0]
  {
    hide P.AfterResults, P.PlanSteps;
  }

  lemma ProgressPlanned(b: P.Board, steps: seq<string>, obs: seq<string>)
    requires P.Progress(b, steps, obs)
    ensures b.planned == Some(steps)
  {
  }

  lemma AreForSnoc(goal: string, init: seq<Message>, last: Message)
    requires AreFor(goal, init) && last.Correction? && BaseSessionID(last.goal) == goal
    ensures AreFor(goal, init + [last]) && forall i :: 0 <= i < |init| ==> init[i].Correction?
  {
  }

  /** What the relay sends for steps with their results: one command for each, then the answer. */
  ghost predicate CarriedOut(outs: seq<Out>, goal: string, steps: seq<string>, obs: seq<string>) {
    && |obs| == |steps| && |outs| == |steps| + 1
    && (forall i :: 0 <= i < |steps| ==> outs[i] == ToMotor(goal, steps[i]))
    && outs[|steps|] == Answer(goal, P.Summary(P.DoneSteps(steps, obs)))
  }

  /** Whatever the model answers, its steps and one correction for each of them lead to one command per
      step, in order, and then to the answer with all results, which ends the session; no other session
      changes. The corrections find the session if the goal has two bytes. */
  lemma StepsAreCarriedOut(ss: Sessions, m: Message, corrections: seq<Message>)
    requires ValidSessions(ss) && m.Plan? && ByteLen(m.goal) >= 2
    requires |corrections| == |Steps(m)| && AreOfSteps(m.goal, corrections)
    ensures forall i :: 0 <= i < |corrections| ==> corrections[i].Correction?
    ensures var (ss1, outs) := HandledAll(ss, [m] + corrections);
            ss1 == ss - {m.goal} && CarriedOut(outs, m.goal, Steps(m), Observations(corrections))
  {
    hide *;
    CorrectionsFindSession(m.goal, corrections);
    SomeSteps(m);
    var n := |corrections| - 1;
    var init, last := corrections[..n], corrections[n];
    assert corrections == init + [last];
    AreForParts(m.goal, init, last);
    SessionFollowsReasoner(ss, m, init);
    NextResult(ss, m, init, last);
    LastResult(ss, m, corrections);
    LastDispatch(HandledAll(ss, [m] + init).1, m.goal, Steps(m), n + 1, Observations(corrections));
  }

  lemma SomeSteps(m: Message)
    requires m.Plan?
    ensures |Steps(m)| > 0
  {
    hide P.PlanSteps;
  }

  lemma LastResult(ss: Sessions, m: Message, corrections: seq<Message>)
    requires m.Plan? && P.Valid(Get(ss, m.goal)) && AreFor(m.goal, corrections) && |corrections| == |Steps(m)|
    ensures forall i :: 0 <= i < |corrections| ==> corrections[i].Correction?
    ensures |Observations(corrections)| == |Steps(m)|
    ensures P.AfterResults(Get(ss, m.goal), Printed(m.intent, m.plan), Observations(corrections)).0.steps
            == P.DoneSteps(Steps(m), Observations(corrections))
  {
    UnderwayMeans(ss, m, corrections);
    hide *;
    var b, text, obs := Get(ss, m.goal), Printed(m.intent, m.plan), Observations(corrections);
    P.StepsAreDispatchedInOrder(b, text, obs);
    P.ProgressDone(P.AfterResults(b, text, obs).0, Steps(m), obs);
  }

  /** Main result of the relay: a plan that can be parsed back is carried out step by step as it was
      sent. */
  lemma PlanIsCarriedOut(ss: Sessions, m: Message, corrections: seq<Message>)
    requires ValidSessions(ss) && m.Plan? && ByteLen(m.goal) >= 2
    requires m.plan != [] && Silent(m.intent) && forall i :: 0 <= i < |m.plan| ==> P.Clean(m.plan[i])
    requires |corrections| == |m.plan| && AreOfSteps(m.goal, corrections)
    ensures forall i :: 0 <= i < |corrections| ==> corrections[i].Correction?
    ensures var (ss1, outs) := HandledAll(ss, [m] + corrections);
            ss1 == ss - {m.goal} && CarriedOut(outs, m.goal, m.plan, Observations(corrections))
  {
    hide *;
    ArrivesAsSent(m);
    StepsAreCarriedOut(ss, m, corrections);
  }

  lemma ArrivesAsSent(m: Message)
    requires m.Plan? && m.plan != [] && Silent(m.intent) && forall i :: 0 <= i < |m.plan| ==> P.Clean(m.plan[i])
    ensures Steps(m) == m.plan
  {
    hide P.Clean, Silent, Printed, P.PlanSteps;
    RoundTripIff(m.intent, m.plan);
  }

  lemma CorrectionsFindSession(goal: string, corrections: seq<Message>)
    requires ByteLen(goal) >= 2
    requires AreOfSteps(goal, corrections)
    ensures AreFor(goal, corrections)
  {
    forall i | 0 <= i < |corrections| ensures BaseSessionID(corrections[i].goal) == goal {
      var k: nat :| corrections[i].goal == StepGoal(goal, k);
      BaseIsGoalIff(goal, k);
    }
  }

  lemma AreForParts(goal: string, init: seq<Message>, last: Message)
    requires AreFor(goal, init + [last])
    ensures AreFor(goal, init) && last.Correction? && BaseSessionID(last.goal) == goal
  {
    var all := init + [last];
    assert all[|init|] == last;
    assert forall i :: 0 <= i < |init| ==> all[i] == init[i];
  }

  lemma LastDispatch(outs: seq<Out>, goal: string, steps: seq<string>, n: nat, obs: seq<string>)
    requires Dispatches(outs, goal, steps, n) && n == |steps| == |obs|
    ensures CarriedOut(outs + [Answer(goal, P.Summary(P.DoneSteps(steps, obs)))], goal, steps, obs)
  {
    hide P.Summary, P.DoneSteps;
  }
}

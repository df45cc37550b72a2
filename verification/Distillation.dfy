/** The compression processors of the context pipeline (internal/bionic/context/pipeline.go): masking
    of tool results, degradation of large blobs, distillation of whole turns, truncation. */
module Distillation {
  import opened GoStrings
  import opened ContextNodes
  import D = Decimals
  import T = Texts

  // ---- Truncating a tool result ----

  /** The lines kept so far, their length in characters, and whether the limit was met. */
  datatype Cut = Cut(out: seq<string>, total: nat, full: bool)

  const LEAST_PIECE := 20

  function CutNext(c: Cut, trimmed: string, maxChars: nat): Cut {
    if c.full || trimmed == "" then c
    else if c.total + |trimmed| > maxChars then
      var remaining := maxChars - c.total;
      if LEAST_PIECE < remaining then Cut(c.out + [trimmed[..remaining]], c.total, true) else c.(full := true)
    else Cut(c.out + [trimmed], c.total + |trimmed|, false)
  }

  function CutAfter(lines: seq<string>, n: nat, maxChars: nat): Cut
    requires n <= |lines|
  {
    if n == 0 then Cut([], 0, false)
    else CutNext(CutAfter(lines, n - 1, maxChars), TrimSpace(lines[n - 1]), maxChars)
  }

  function TruncatedToolOutput(content: string, maxChars: nat): string {
    var lines := Split(TrimSpace(content));
    var c := CutAfter(lines, |lines|, maxChars);
    Join(c.out) + if c.total < |content| then "\n...[truncated]" else ""
  }

  method TruncateToolOutput(content: string, maxChars: nat) returns (result: string)
    ensures result == TruncatedToolOutput(content, maxChars)
  {
    var lines := Split(TrimSpace(content));
    var out, total := KeepLines(lines, maxChars);
    hide TrimSpace, Split, Join, CutAfter;
    result := Join(out) + if total < |content| then "\n...[truncated]" else "";
  }

  method KeepLines(lines: seq<string>, maxChars: nat) returns (out: seq<string>, total: nat)
    ensures var c := CutAfter(lines, |lines|, maxChars); out == c.out && total == c.total
  {
    out, total := [], 0;
    var full := false;
    var i := 0;
    while i < |lines| && !full
      invariant 0 <= i <= |lines| && CutAfter(lines, i, maxChars) == Cut(out, total, full)
    {
      hide TrimSpace, CutNext;
      CutInBounds(lines, i, maxChars);
      out, total, full := KeepLine(out, total, TrimSpace(lines[i]), maxChars);
      i := i + 1;
    }
    if full {
      FullStays(lines, i, |lines|, maxChars);
    }
  }

  method KeepLine(kept: seq<string>, length: nat, trimmed: string, maxChars: nat)
    returns (out: seq<string>, total: nat, full: bool)
    requires length <= maxChars
    ensures Cut(out, total, full) == CutNext(Cut(kept, length, false), trimmed, maxChars)
  {
    out, total, full := kept, length, false;
    if trimmed == "" {
      return;
    }
    if total + |trimmed| > maxChars {
      var remaining := maxChars - total;
      if remaining > LEAST_PIECE {
        out := out + [trimmed[..remaining]];
      }
      full := true;
      return;
    }
    out := out + [trimmed];
    total := total + |trimmed|;
  }

  lemma {:induction false} FullStays(lines: seq<string>, k: nat, n: nat, maxChars: nat)
    requires k <= n <= |lines| && CutAfter(lines, k, maxChars).full
    ensures CutAfter(lines, n, maxChars) == CutAfter(lines, k, maxChars)
  {
    if k < n {
      FullStays(lines, k, n - 1, maxChars);
      hide TrimSpace;
    }
  }

  function Chars(lines: seq<string>): nat {
    if lines == [] then 0 else Chars(lines[..|lines| - 1]) + |lines[|lines| - 1]|
  }

  lemma CharsSnoc(lines: seq<string>, line: string)
    ensures Chars(lines + [line]) == Chars(lines) + |line|
  {
    assert (lines + [line])[..|lines|] == lines;
  }

  lemma {:induction false} CharsCons(line: string, lines: seq<string>)
    ensures Chars([line] + lines) == |line| + Chars(lines)
    decreases lines
  {
    if lines == [] {
      assert [line] + lines == [] + [line];
      CharsSnoc([], line);
    } else {
      var init, last := lines[..|lines| - 1], lines[|lines| - 1];
      CharsCons(line, init);
      CharsSnoc([line] + init, last);
      assert [line] + lines == ([line] + init) + [last];
    }
  }

  lemma {:induction false} JoinLength(lines: seq<string>)
    requires lines != []
    ensures |Join(lines)| == Chars(lines) + |lines| - 1
  {
    if |lines| == 1 {
      CharsSnoc([], lines[0]);
      assert lines == [] + [lines[0]];
    } else {
      JoinLength(lines[1..]);
      CharsCons(lines[0], lines[1..]);
      assert lines == [lines[0]] + lines[1..];
    }
  }

  predicate InBounds(c: Cut, maxChars: nat) {
    && c.total <= maxChars && |c.out| <= Chars(c.out)
    && (if c.full then Chars(c.out) <= maxChars else Chars(c.out) == c.total)
  }

  lemma {:induction false} CutInBounds(lines: seq<string>, n: nat, maxChars: nat)
    requires n <= |lines|
    ensures InBounds(CutAfter(lines, n, maxChars), maxChars)
  {
    if n == 0 {
      assert Chars([]) == 0;
    } else {
      CutInBounds(lines, n - 1, maxChars);
      hide TrimSpace, CutNext, InBounds;
      NextInBounds(CutAfter(lines, n - 1, maxChars), TrimSpace(lines[n - 1]), maxChars);
    }
  }

  lemma NextInBounds(c: Cut, trimmed: string, maxChars: nat)
    requires InBounds(c, maxChars)
    ensures InBounds(CutNext(c, trimmed, maxChars), maxChars)
  {
    hide Chars;
    CharsSnoc(c.out, trimmed);
    if !c.full && c.total + |trimmed| > maxChars {
      CharsSnoc(c.out, trimmed[..maxChars - c.total]);
    }
  }

  /** A truncated result is at most twice the limit and a note long. */
  lemma TruncatedIsShort(content: string, maxChars: nat)
    ensures |TruncatedToolOutput(content, maxChars)| <= 2 * maxChars + 15
    ensures maxChars > 0 ==> |TruncatedToolOutput(content, maxChars)| <= 2 * maxChars + 14
  {
    var lines := Split(TrimSpace(content));
    var c := CutAfter(lines, |lines|, maxChars);
    CutInBounds(lines, |lines|, maxChars);
    hide TrimSpace, Split, Chars, CutAfter;
    if c.out != [] {
      JoinLength(c.out);
    } else {
      assert Join(c.out) == "";
    }
  }

  /** The lines that are not blank, trimmed. */
  function SolidLines(lines: seq<string>): seq<string> {
    if lines == [] then []
    else
      SolidLines(lines[..|lines| - 1])
      + if Blank(lines[|lines| - 1]) then [] else [TrimSpace(lines[|lines| - 1])]
  }

  /** The first k lines fit into the limit and the next one does not; of that one a piece as long as
      the rest of the limit is kept, if the rest is more than twenty characters. */
  ghost predicate KeepsUpTo(c: Cut, solid: seq<string>, k: nat, maxChars: nat) {
    && k <= |solid| && c.total == Chars(solid[..k]) <= maxChars && (c.full <==> k < |solid|)
    && if k == |solid| then c.out == solid
       else
         var room := maxChars - c.total;
         && room < |solid[k]|
         && c.out == solid[..k] + if room > 20 then [solid[k][..room]] else []
  }

  /** What is kept, in terms of the lines alone. */
  lemma {:induction false} CutMeans(lines: seq<string>, n: nat, maxChars: nat) returns (k: nat)
    requires n <= |lines|
    ensures KeepsUpTo(CutAfter(lines, n, maxChars), SolidLines(lines[..n]), k, maxChars)
  {
    if n == 0 {
      k := 0;
      assert SolidLines([]) == [] && Chars([]) == 0;
    } else {
      hide *;
      k := CutMeans(lines, n - 1, maxChars);
      CutStep(lines, n, maxChars);
      TrimSpaceMeans(lines[n - 1]);
      if !Blank(lines[n - 1]) {
        var before := CutAfter(lines, n - 1, maxChars);
        k := KeepsNext(before, SolidLines(lines[..n - 1]), k, TrimSpace(lines[n - 1]), maxChars);
      }
    }
  }

  lemma CutStep(lines: seq<string>, n: nat, maxChars: nat)
    requires 0 < n <= |lines|
    ensures CutAfter(lines, n, maxChars)
            == if TrimSpace(lines[n - 1]) == "" then CutAfter(lines, n - 1, maxChars)
               else CutNext(CutAfter(lines, n - 1, maxChars), TrimSpace(lines[n - 1]), maxChars)
    ensures SolidLines(lines[..n])
            == SolidLines(lines[..n - 1]) + if Blank(lines[n - 1]) then [] else [TrimSpace(lines[n - 1])]
    ensures SolidLines(lines[..n - 1]) + [] == SolidLines(lines[..n - 1])
  {
    assert lines[..n][..n - 1] == lines[..n - 1];
    hide TrimSpace, Blank;
  }

  lemma KeepsNext(c: Cut, solid: seq<string>, k0: nat, line: string, maxChars: nat) returns (k: nat)
    requires KeepsUpTo(c, solid, k0, maxChars) && line != ""
    ensures KeepsUpTo(CutNext(c, line, maxChars), solid + [line], k, maxChars)
  {
    hide Chars;
    var more := solid + [line];
    assert solid[..|solid|] == solid && more[..|more|] == more && more[..k0] == solid[..k0];
    CharsSnoc(solid, line);
    k := if c.full || c.total + |line| > maxChars then k0 else |more|;
  }

  lemma {:induction false} SolidLinesAreShort(lines: seq<string>)
    ensures Chars(SolidLines(lines)) <= Chars(lines)
  {
    if lines == [] {
    } else {
      var init, last := lines[..|lines| - 1], lines[|lines| - 1];
      SolidLinesAreShort(init);
      TrimSpaceMeans(last);
      hide TrimSpace, Blank;
      if !Blank(last) {
        CharsSnoc(SolidLines(init), TrimSpace(last));
      } else {
        assert SolidLines(init) + [] == SolidLines(init);
      }
    }
  }

  lemma {:induction false} CharsOfSplit(s: string)
    ensures |s| == Chars(Split(s)) + |Split(s)| - 1
  {
    if s == [] {
      assert [""][..0] == [];
      CharsSnoc([], "");
    } else {
      CharsOfSplit(s[1..]);
      var rest := Split(s[1..]);
      CharsCons(rest[0], rest[1..]);
      assert rest == [rest[0]] + rest[1..];
      hide Split, Chars;
      if s[0] == '\n' {
        CharsCons("", rest);
      } else {
        CharsCons([s[0]] + rest[0], rest[1..]);
      }
    }
  }

  lemma {:induction false} CharsOfPrefix(lines: seq<string>, k: nat)
    requires k <= |lines|
    ensures Chars(lines[..k]) <= Chars(lines)
    decreases |lines| - k
  {
    if k == |lines| {
      assert lines[..k] == lines;
    } else {
      CharsOfPrefix(lines, k + 1);
      assert lines[..k + 1] == lines[..k] + [lines[k]];
      CharsSnoc(lines[..k], lines[k]);
    }
  }

  /** A result that needs no note. */
  predicate Short(content: string, maxChars: nat) {
    content == "" || (OneLine(content) && Tight(content) && |content| <= maxChars)
  }

  /** The characters kept are all of the content exactly if it is one short line. */
  lemma AllKeptIff(content: string, k: nat, c: Cut, maxChars: nat)
    requires KeepsUpTo(c, SolidLines(Split(TrimSpace(content))), k, maxChars)
    ensures c.total < |content| <==> !Short(content, maxChars)
  {
    hide *;
    var t := TrimSpace(content);
    var solid := SolidLines(Split(t));
    KeptIs(c, solid, k, maxChars);
    TrimSpaceMeans(content);
    TrimmedIsShorter(content);
    CharsOfSplit(t);
    SolidLinesAreShort(Split(t));
    CharsOfPrefix(solid, k);
    if t == content && OneLine(t) {
      SplitOneLine(t);
      OneSolidLine(t);
      if k == 0 {
        NoChars(solid);
      }
    } else if t == content {
      ManyLines(t);
    }
    ShortMeans(content, maxChars);
  }

  lemma KeptIs(c: Cut, solid: seq<string>, k: nat, maxChars: nat)
    requires KeepsUpTo(c, solid, k, maxChars)
    ensures k <= |solid| && c.total == Chars(solid[..k]) <= maxChars
    ensures k < |solid| ==> maxChars - c.total < |solid[k]|
    ensures k == |solid| ==> solid[..k] == solid
  {
    hide Chars;
  }

  lemma NoChars(solid: seq<string>)
    ensures Chars(solid[..0]) == 0
  {
  }

  lemma OneSolidLine(t: string)
    requires t == [] || Tight(t)
    ensures SolidLines([t]) == if t == [] then [] else [t]
    ensures Chars([t]) == |t|
  {
    TrimSpaceMeans(t);
    hide TrimSpace, Blank, Tight;
    assert [t][..0] == [] && [] + [t] == [t];
    CharsSnoc([], t);
  }

  lemma {:induction false} ManyLines(t: string)
    requires !OneLine(t)
    ensures |Split(t)| > 1
  {
    if t[0] != '\n' {
      ManyLines(t[1..]);
    }
  }

  lemma ShortMeans(content: string, maxChars: nat)
    ensures Short(content, maxChars)
            <==> content == "" || (OneLine(content) && Tight(content) && |content| <= maxChars)
  {
    hide OneLine, Tight;
  }

  /** Main result on truncation: the kept lines and the piece are exactly as many as fit, and the note
      follows unless the content is one short line. It follows even if nothing was left out, when the
      content has two lines or a blank end. */
  lemma TruncatedMeans(content: string, maxChars: nat)
    ensures exists k: nat, c: Cut ::
              && KeepsUpTo(c, SolidLines(Split(TrimSpace(content))), k, maxChars)
              && TruncatedToolOutput(content, maxChars)
                 == Join(c.out) + if Short(content, maxChars) then "" else "\n...[truncated]"
  {
    var lines := Split(TrimSpace(content));
    var c := CutAfter(lines, |lines|, maxChars);
    assert TruncatedToolOutput(content, maxChars)
        == Join(c.out) + if c.total < |content| then "\n...[truncated]" else "";
    assert lines[..|lines|] == lines;
    hide *;
    var k := CutMeans(lines, |lines|, maxChars);
    AllKeptIff(content, k, c, maxChars);
  }

  // ---- Masking and degradation: one node at a time ----

  const MASKING_THRESHOLD := 8000
  const MASKED_CHARS := 2000
  const DEGRADATION_THRESHOLD := 15000
  const DEGRADED_TOKENS := 20

  function Masked(n: Node): Node {
    if n.kind.ToolResult? && n.tokenCount > MASKING_THRESHOLD then
      var content := TruncatedToolOutput(n.content, MASKED_CHARS);
      Node(n.id + "-masked", ToolResult, n.role, n.turnID, content, EstimateTokens(content), n.id, [])
    else n
  }

  function Degraded(n: Node): Node {
    if n.tokenCount > DEGRADATION_THRESHOLD && n.role == "model" then
      Node(n.id + "-degraded", n.kind, n.role, n.turnID,
           "[degraded: original " + D.Decimal(n.tokenCount) + " tokens; replaced with brief summary]",
           DEGRADED_TOKENS, n.id, [])
    else n
  }

  function MaskAll(nodes: seq<Node>): (r: seq<Node>)
    ensures |r| == |nodes| && forall i :: 0 <= i < |nodes| ==> r[i] == Masked(nodes[i])
  {
    if nodes == [] then [] else MaskAll(nodes[..|nodes| - 1]) + [Masked(nodes[|nodes| - 1])]
  }

  function DegradeAll(nodes: seq<Node>): (r: seq<Node>)
    ensures |r| == |nodes| && forall i :: 0 <= i < |nodes| ==> r[i] == Degraded(nodes[i])
  {
    if nodes == [] then [] else DegradeAll(nodes[..|nodes| - 1]) + [Degraded(nodes[|nodes| - 1])]
  }

  method ToolMasking(nodes: seq<Node>) returns (results: seq<Node>)
    ensures results == MaskAll(nodes)
  {
    results := [];
    for i := 0 to |nodes|
      invariant |results| == i && forall k :: 0 <= k < i ==> results[k] == Masked(nodes[k])
    {
      var node := nodes[i];
      if node.kind.ToolResult? && node.tokenCount > MASKING_THRESHOLD {
        var content := TruncateToolOutput(node.content, MASKED_CHARS);
        var masked := Node(node.id + "-masked", ToolResult, node.role, node.turnID, content,
                           EstimateTokens(content), node.id, []);
        results := results + [masked];
      } else {
        results := results + [node];
      }
    }
  }

  method BlobDegradation(nodes: seq<Node>) returns (results: seq<Node>)
    ensures results == DegradeAll(nodes)
  {
    results := [];
    for i := 0 to |nodes|
      invariant |results| == i && forall k :: 0 <= k < i ==> results[k] == Degraded(nodes[k])
    {
      var node := nodes[i];
      if node.tokenCount > DEGRADATION_THRESHOLD && node.role == "model" {
        results := results + [Node(node.id + "-degraded", node.kind, node.role, node.turnID,
                                   "[degraded: original " + D.Decimal(node.tokenCount)
                                   + " tokens; replaced with brief summary]",
                                   DEGRADED_TOKENS, node.id, [])];
      } else {
        results := results + [node];
      }
    }
  }

  /** `after` stands for `before`: it is the same node, or one that names it as replaced, in the same
      turn and role, and that costs less. */
  predicate StandsFor(after: Node, before: Node) {
    after == before
    || (after.replacesID == before.id && after.abstractsIDs == [] && after.kind == before.kind
        && after.turnID == before.turnID && after.role == before.role && after.tokenCount < before.tokenCount)
  }

  lemma MaskedStandsFor(n: Node)
    ensures StandsFor(Masked(n), n) && (Masked(n) != n ==> Masked(n).tokenCount <= 1003)
    ensures Masked(n) != n ==>
              && Masked(n).content == TruncatedToolOutput(n.content, 2000)
              && Masked(n).tokenCount == |Masked(n).content| / 4
    ensures Masked(n) == n <==> !(n.kind.ToolResult? && n.tokenCount > 8000)
  {
    TruncatedIsShort(n.content, MASKED_CHARS);
    hide TruncatedToolOutput;
  }

  lemma DegradedStandsFor(n: Node)
    ensures StandsFor(Degraded(n), n) && (Degraded(n) != n ==> Degraded(n).tokenCount == 20)
    ensures Degraded(n) != n ==>
              Degraded(n).content
              == "[degraded: original " + D.Decimal(n.tokenCount) + " tokens; replaced with brief summary]"
    ensures Degraded(n) == n <==> !(n.role == "model" && n.tokenCount > 15000)
  {
    hide D.Decimal;
  }

  lemma {:induction false} StandInsCostLess(after: seq<Node>, before: seq<Node>)
    requires |after| == |before| && forall i :: 0 <= i < |after| ==> StandsFor(after[i], before[i])
    ensures TotalTokens(after) <= TotalTokens(before)
  {
    if after != [] {
      StandInsCostLess(after[..|after| - 1], before[..|before| - 1]);
    }
  }

  /** Masking and degrading keep every node in its place or put a cheaper one there that names it. */
  lemma PointwiseStages(nodes: seq<Node>)
    ensures forall i :: 0 <= i < |nodes| ==>
            StandsFor(MaskAll(nodes)[i], nodes[i]) && StandsFor(DegradeAll(nodes)[i], nodes[i])
    ensures TotalTokens(MaskAll(nodes)) <= TotalTokens(nodes) && TotalTokens(DegradeAll(nodes)) <= TotalTokens(nodes)
  {
    hide Masked, Degraded, StandsFor;
    forall i | 0 <= i < |nodes|
      ensures StandsFor(MaskAll(nodes)[i], nodes[i]) && StandsFor(DegradeAll(nodes)[i], nodes[i])
    {
      MaskedStandsFor(nodes[i]);
      DegradedStandsFor(nodes[i]);
    }
    StandInsCostLess(MaskAll(nodes), nodes);
    StandInsCostLess(DegradeAll(nodes), nodes);
  }

  // ---- Distillation: one turn at a time ----

  const DISTILLATION_THRESHOLD := 15000

  /** The nodes of one turn, in order. */
  function OfTurn(nodes: seq<Node>, turn: string): seq<Node> {
    if nodes == [] then []
    else OfTurn(nodes[..|nodes| - 1], turn) + if nodes[|nodes| - 1].turnID == turn then [nodes[|nodes| - 1]] else []
  }

  /** The turns in the order of their first node. */
  function TurnOrder(nodes: seq<Node>): seq<string> {
    if nodes == [] then []
    else
      var order := TurnOrder(nodes[..|nodes| - 1]);
      if nodes[|nodes| - 1].turnID in order then order else order + [nodes[|nodes| - 1].turnID]
  }

  function Summarized(text: string, maxLen: nat): (r: string)
    ensures |r| <= maxLen + 3
  {
    var runes := TrimSpace(text);
    if |runes| <= maxLen then runes else runes[..maxLen] + "..."
  }

  function Ids(nodes: seq<Node>): (r: seq<string>)
    ensures |r| == |nodes| && forall i :: 0 <= i < |nodes| ==> r[i] == nodes[i].id
  {
    seq(|nodes|, i requires 0 <= i < |nodes| => nodes[i].id)
  }

  /** The contents of the nodes that are from the user, or those that are not. */
  function Parts(nodes: seq<Node>, user: bool): seq<string> {
    if nodes == [] then []
    else
      var last := nodes[|nodes| - 1];
      Parts(nodes[..|nodes| - 1], user) + if (last.role == "user") == user then [last.content] else []
  }

  function JoinBars(parts: seq<string>): string {
    if |parts| == 0 then "" else if |parts| == 1 then parts[0] else parts[0] + " | " + JoinBars(parts[1..])
  }

  function SummaryOf(turn: string, nodes: seq<Node>): string {
    "[Distilled turn " + turn + ": user: " + Summarized(JoinBars(Parts(nodes, true)), 200)
    + " | model: " + Summarized(JoinBars(Parts(nodes, false)), 500) + "]"
  }

  function DistilledTurn(turn: string, nodes: seq<Node>): seq<Node> {
    if TotalTokens(nodes) > DISTILLATION_THRESHOLD then
      var summary := SummaryOf(turn, nodes);
      [Node("distill-" + turn, RollingSummary, "model", turn, summary, EstimateTokens(summary), "", Ids(nodes))]
    else nodes
  }

  function DistillTurns(nodes: seq<Node>, order: seq<string>): seq<Node> {
    if order == [] then []
    else
      var turn := order[|order| - 1];
      DistillTurns(nodes, order[..|order| - 1]) + DistilledTurn(turn, OfTurn(nodes, turn))
  }

  function DistillAll(nodes: seq<Node>): seq<Node> {
    DistillTurns(nodes, TurnOrder(nodes))
  }

  method NodeDistillation(nodes: seq<Node>) returns (results: seq<Node>)
    ensures results == DistillAll(nodes)
  {
    var turns, turnOrder := GroupByTurn(nodes);
    results := [];
    assert DistillTurns(nodes, turnOrder[..0]) == [];
    hide DistillTurns, TurnOrder, OfTurn, DistilledTurn;
    for i := 0 to |turnOrder|
      invariant results == DistillTurns(nodes, turnOrder[..i])
    {
      DistillTurnsStep(nodes, turnOrder, i);
      var out := DistillTurn(turnOrder[i], turns[turnOrder[i]]);
      results := results + out;
    }
    assert turnOrder[..|turnOrder|] == turnOrder;
  }

  lemma DistillTurnsStep(nodes: seq<Node>, order: seq<string>, i: nat)
    requires i < |order|
    ensures DistillTurns(nodes, order[..i + 1])
            == DistillTurns(nodes, order[..i]) + DistilledTurn(order[i], OfTurn(nodes, order[i]))
  {
    assert order[..i + 1][..i] == order[..i];
    hide DistilledTurn, OfTurn;
  }

  method GroupByTurn(nodes: seq<Node>) returns (turns: map<string, seq<Node>>, turnOrder: seq<string>)
    ensures turnOrder == TurnOrder(nodes)
    ensures forall t :: t in turns <==> t in turnOrder
    ensures forall t :: t in turns ==> turns[t] == OfTurn(nodes, t)
  {
    turns, turnOrder := map[], [];
    for i := 0 to |nodes|
      invariant turnOrder == TurnOrder(nodes[..i])
      invariant forall t :: t in turns <==> t in turnOrder
      invariant forall t :: t in turns ==> turns[t] == OfTurn(nodes[..i], t)
      invariant forall t :: t !in turns ==> OfTurn(nodes[..i], t) == []
    {
      assert nodes[..i + 1][..i] == nodes[..i];
      var node := nodes[i];
      if node.turnID !in turns {
        turnOrder := turnOrder + [node.turnID];
        turns := turns[node.turnID := []];
      }
      turns := turns[node.turnID := turns[node.turnID] + [node]];
    }
    assert nodes[..|nodes|] == nodes;
  }

  method DistillTurn(turn: string, turnNodes: seq<Node>) returns (out: seq<Node>)
    ensures out == DistilledTurn(turn, turnNodes)
  {
    var totalTokens := 0;
    for i := 0 to |turnNodes|
      invariant totalTokens == TotalTokens(turnNodes[..i])
    {
      assert turnNodes[..i + 1][..i] == turnNodes[..i];
      totalTokens := totalTokens + turnNodes[i].tokenCount;
    }
    assert turnNodes[..|turnNodes|] == turnNodes;
    if totalTokens <= DISTILLATION_THRESHOLD {
      return turnNodes;
    }
    var userParts: seq<string>, modelParts: seq<string> := [], [];
    for i := 0 to |turnNodes|
      invariant userParts == Parts(turnNodes[..i], true) && modelParts == Parts(turnNodes[..i], false)
    {
      assert turnNodes[..i + 1][..i] == turnNodes[..i];
      if turnNodes[i].role == "user" {
        userParts := userParts + [turnNodes[i].content];
      } else {
        modelParts := modelParts + [turnNodes[i].content];
      }
    }
    hide Parts, JoinBars, Summarized, TotalTokens;
    var summary := "[Distilled turn " + turn + ": user: " + Summarized(JoinBars(userParts), 200)
                   + " | model: " + Summarized(JoinBars(modelParts), 500) + "]";
    out := [Node("distill-" + turn, RollingSummary, "model", turn, summary, EstimateTokens(summary), "",
                 Ids(turnNodes))];
  }

  /** The parts are those of each stretch of nodes, in order; one node has one, for its own side. */
  lemma {:induction false} PartsOfAppend(a: seq<Node>, b: seq<Node>, n: Node, user: bool)
    ensures Parts(a + b, user) == Parts(a, user) + Parts(b, user)
    ensures Parts([n], user) == if (n.role == "user") == user then [n.content] else []
  {
    assert [n][..0] == [];
    if b == [] {
      assert a + b == a;
    } else {
      var init, last := b[..|b| - 1], b[|b| - 1];
      PartsOfAppend(a, init, n, user);
      assert (a + b)[..|a + b| - 1] == a + init && (a + b)[|a + b| - 1] == last;
      T.Assoc(Parts(a, user), Parts(init, user), if (last.role == "user") == user then [last.content] else []);
    }
  }

  lemma {:induction false} BarsOfAppend(a: seq<string>, b: seq<string>)
    requires a != [] && b != []
    ensures JoinBars(a + b) == JoinBars(a) + " | " + JoinBars(b)
  {
    if |a| == 1 {
      assert (a + b)[1..] == b;
    } else {
      assert (a + b)[1..] == a[1..] + b;
      BarsOfAppend(a[1..], b);
      T.Assoc(a[0] + " | ", JoinBars(a[1..]), " | ");
      T.Assoc(a[0] + " | ", JoinBars(a[1..]) + " | ", JoinBars(b));
    }
  }

  /** The summary of a question with two answers has the question on the user's side and the answers on
      the model's side, each cut to its own length. */
  lemma SummaryOfTurn(turn: string, question: Node, first: Node, second: Node)
    requires question.role == "user" && first.role != "user" && second.role != "user"
    requires Tight(question.content) && Tight(first.content + " | " + second.content)
    ensures var q, r := question.content, first.content + " | " + second.content;
            SummaryOf(turn, [question, first, second])
            == "[Distilled turn " + turn
               + ": user: " + (if |q| <= 200 then q else q[..200] + "...")
               + " | model: " + (if |r| <= 500 then r else r[..500] + "...") + "]"
  {
    var nodes := [question, first, second];
    forall user: bool
      ensures Parts(nodes, user) == if user then [question.content] else [first.content, second.content]
    {
      PartsOfAppend([question], [first, second], question, user);
      PartsOfAppend([first], [second], first, user);
      PartsOfAppend([], [], second, user);
      assert nodes == [question] + [first, second] && [first, second] == [first] + [second];
    }
    BarsOfAppend([first.content], [second.content]);
    assert [first.content, second.content] == [first.content] + [second.content];
    TrimSpaceMeans(question.content);
    TrimSpaceMeans(first.content + " | " + second.content);
    hide TrimSpace, Parts, Tight;
  }

  // ---- What distillation keeps ----

  lemma {:induction false} TurnOrderMeans(nodes: seq<Node>)
    ensures T.Distinct(TurnOrder(nodes))
    ensures forall i :: 0 <= i < |nodes| ==> nodes[i].turnID in TurnOrder(nodes)
    ensures forall t :: t !in TurnOrder(nodes) ==> OfTurn(nodes, t) == []
  {
    if nodes != [] {
      var init, last := nodes[..|nodes| - 1], nodes[|nodes| - 1];
      var order := TurnOrder(init);
      assert TurnOrder(nodes) == if last.turnID in order then order else order + [last.turnID];
      assert forall t :: t != last.turnID ==> OfTurn(nodes, t) == OfTurn(init, t) + [];
      hide TurnOrder, OfTurn, T.Distinct;
      TurnOrderMeans(init);
      DistinctSnoc(order, last.turnID);
      assert forall i :: 0 <= i < |init| ==> nodes[i] == init[i];
    }
  }

  lemma DistinctSnoc(order: seq<string>, t: string)
    ensures T.Distinct(order) && t !in order ==> T.Distinct(order + [t])
    ensures forall u :: u in order + [t] <==> u in order || u == t
  {
  }

  lemma {:induction false} OfTurnOfAppend(a: seq<Node>, b: seq<Node>, turn: string)
    ensures OfTurn(a + b, turn) == OfTurn(a, turn) + OfTurn(b, turn)
  {
    if b == [] {
      assert a + b == a;
    } else {
      var init, last := b[..|b| - 1], b[|b| - 1];
      OfTurnOfAppend(a, init, turn);
      assert (a + b)[..|a + b| - 1] == a + init && (a + b)[|a + b| - 1] == last;
      T.Assoc(OfTurn(a, turn), OfTurn(init, turn), if last.turnID == turn then [last] else []);
    }
  }

  ghost predicate AllOfTurn(nodes: seq<Node>, turn: string) {
    forall i :: 0 <= i < |nodes| ==> nodes[i].turnID == turn
  }

  lemma {:induction false} OfTurnIsPure(nodes: seq<Node>, turn: string)
    ensures AllOfTurn(OfTurn(nodes, turn), turn)
  {
    if nodes != [] {
      OfTurnIsPure(nodes[..|nodes| - 1], turn);
    }
  }

  lemma {:induction false} OfTurnOfPure(nodes: seq<Node>, turn: string, other: string)
    requires AllOfTurn(nodes, turn)
    ensures OfTurn(nodes, other) == if other == turn then nodes else []
  {
    if nodes != [] {
      var init := nodes[..|nodes| - 1];
      OfTurnOfPure(init, turn, other);
      assert nodes == init + [nodes[|nodes| - 1]];
    }
  }

  lemma {:induction false} DistillTurnsPerTurn(nodes: seq<Node>, order: seq<string>, turn: string)
    requires T.Distinct(order)
    ensures OfTurn(DistillTurns(nodes, order), turn)
            == if turn in order then DistilledTurn(turn, OfTurn(nodes, turn)) else []
  {
    if order != [] {
      var init, last := order[..|order| - 1], order[|order| - 1];
      assert order == init + [last] && T.Distinct(init) && last !in init;
      hide *;
      DistillTurnsPerTurn(nodes, init, turn);
      LastTurn(nodes, init, last, turn);
    } else {
      assert OfTurn([], turn) == [];
    }
  }

  lemma LastTurn(nodes: seq<Node>, init: seq<string>, last: string, turn: string)
    ensures OfTurn(DistillTurns(nodes, init + [last]), turn)
            == OfTurn(DistillTurns(nodes, init), turn)
               + if turn == last then DistilledTurn(last, OfTurn(nodes, last)) else []
    ensures turn in init + [last] <==> turn in init || turn == last
  {
    var out := DistilledTurn(last, OfTurn(nodes, last));
    assert (init + [last])[..|init|] == init;
    assert DistillTurns(nodes, init + [last]) == DistillTurns(nodes, init) + out;
    OfTurnIsPure(nodes, last);
    assert AllOfTurn(out, last);
    hide *;
    OfTurnOfAppend(DistillTurns(nodes, init), out, turn);
    OfTurnOfPure(out, last, turn);
    InSnoc(init, last, turn);
  }

  /** Main result on provenance: turn by turn, distillation keeps the nodes in their order, or puts
      one summary in their place that names exactly these nodes in this order. */
  lemma DistillationPerTurn(nodes: seq<Node>, turn: string)
    ensures var before, after := OfTurn(nodes, turn), OfTurn(DistillAll(nodes), turn);
            if TotalTokens(before) > DISTILLATION_THRESHOLD then
              && |after| == 1 && after[0].abstractsIDs == Ids(before) && after[0].kind.RollingSummary?
              && after[0].turnID == turn && after[0].role == "model" && after[0].replacesID == ""
              && after[0].content == SummaryOf(turn, before) && after[0].tokenCount == |after[0].content| / 4
            else after == before
  {
    TurnOrderMeans(nodes);
    DistillTurnsPerTurn(nodes, TurnOrder(nodes), turn);
    hide TurnOrder, OfTurn, SummaryOf, DistillTurns, T.Distinct;
    assert TotalTokens([]) == 0;
  }

  /** More nodes only add turns at the end: the order is that of the first nodes. */
  lemma {:induction false} TurnOrderGrows(a: seq<Node>, b: seq<Node>)
    ensures TurnOrder(a) <= TurnOrder(a + b)
  {
    if b == [] {
      assert a + b == a;
    } else {
      var init, last := b[..|b| - 1], b[|b| - 1];
      TurnOrderGrows(a, init);
      assert (a + b)[..|a + b| - 1] == a + init && (a + b)[|a + b| - 1] == last;
    }
  }

  lemma {:induction false} TurnHasNode(nodes: seq<Node>, turn: string)
    requires turn in TurnOrder(nodes)
    ensures OfTurn(nodes, turn) != []
  {
    if nodes != [] {
      var init, last := nodes[..|nodes| - 1], nodes[|nodes| - 1];
      if turn != last.turnID {
        TurnHasNode(init, turn);
      }
    }
  }

  lemma {:induction false} NewTurnIsLast(a: seq<Node>, b: seq<Node>, turn: string)
    requires b != [] && AllOfTurn(b, turn) && turn !in TurnOrder(a)
    ensures TurnOrder(a + b) == TurnOrder(a) + [turn]
  {
    var init, last := b[..|b| - 1], b[|b| - 1];
    assert (a + b)[..|a + b| - 1] == a + init && (a + b)[|a + b| - 1] == last;
    if init == [] {
      assert a + init == a;
    } else {
      NewTurnIsLast(a, init, turn);
      hide TurnOrder;
      InSnoc(TurnOrder(a), turn, turn);
      assert TurnOrder(a + b) == TurnOrder(a + init) by {
        TurnOrderOfKnown(a + init, last);
      }
    }
  }

  lemma TurnOrderOfKnown(init: seq<Node>, last: Node)
    requires last.turnID in TurnOrder(init)
    ensures TurnOrder(init + [last]) == TurnOrder(init)
  {
    T.InitAndLast(init, last);
  }

  lemma {:induction false} DistillTurnsOrder(nodes: seq<Node>, order: seq<string>)
    requires T.Distinct(order) && forall i :: 0 <= i < |order| ==> order[i] in TurnOrder(nodes)
    ensures TurnOrder(DistillTurns(nodes, order)) == order
  {
    if order != [] {
      var init, last := order[..|order| - 1], order[|order| - 1];
      assert order == init + [last] && T.Distinct(init) && last !in init;
      hide *;
      DistillTurnsOrder(nodes, init);
      TurnHasNode(nodes, last);
      TurnOutput(nodes, init, last);
      NewTurnIsLast(DistillTurns(nodes, init), DistilledTurn(last, OfTurn(nodes, last)), last);
    }
  }

  lemma TurnOutput(nodes: seq<Node>, init: seq<string>, last: string)
    requires OfTurn(nodes, last) != []
    ensures var out := DistilledTurn(last, OfTurn(nodes, last));
            && out != [] && AllOfTurn(out, last)
            && DistillTurns(nodes, init + [last]) == DistillTurns(nodes, init) + out
  {
    OfTurnIsPure(nodes, last);
    T.InitAndLast(init, last);
    hide OfTurn, SummaryOf, TotalTokens;
  }

  // ---- Tokens and lengths ----

  function Regrouped(nodes: seq<Node>, order: seq<string>): seq<Node> {
    if order == [] then [] else Regrouped(nodes, order[..|order| - 1]) + OfTurn(nodes, order[|order| - 1])
  }

  /** The turns come out in the order in which they went in, the nodes of each one side by side. With
      the result turn by turn this determines the whole output. */
  lemma TurnsStayInOrder(nodes: seq<Node>)
    ensures var out := DistillAll(nodes); TurnOrder(out) == TurnOrder(nodes) && Regrouped(out, TurnOrder(out)) == out
  {
    TurnOrderMeans(nodes);
    DistillTurnsOrder(nodes, TurnOrder(nodes));
    hide TurnOrder, DistillTurns, Regrouped, T.Distinct, OfTurn;
    SideBySide(nodes, TurnOrder(nodes), TurnOrder(nodes));
  }

  lemma {:induction false} SideBySide(nodes: seq<Node>, order: seq<string>, some: seq<string>)
    requires T.Distinct(order) && forall i :: 0 <= i < |some| ==> some[i] in order
    ensures Regrouped(DistillTurns(nodes, order), some) == DistillTurns(nodes, some)
  {
    if some != [] {
      var init, last := some[..|some| - 1], some[|some| - 1];
      SideBySide(nodes, order, init);
      DistillTurnsPerTurn(nodes, order, last);
      hide OfTurn, DistilledTurn, T.Distinct;
    }
  }

  lemma {:induction false} RegroupedSnoc(nodes: seq<Node>, n: Node, order: seq<string>)
    requires T.Distinct(order)
    ensures multiset(Regrouped(nodes + [n], order))
            == multiset(Regrouped(nodes, order)) + if n.turnID in order then multiset{n} else multiset{}
  {
    if order != [] {
      var init, last := order[..|order| - 1], order[|order| - 1];
      assert order == init + [last] && T.Distinct(init) && last !in init;
      assert (nodes + [n])[..|nodes|] == nodes;
      var more := if n.turnID == last then [n] else [];
      assert OfTurn(nodes + [n], last) == OfTurn(nodes, last) + more;
      assert Regrouped(nodes + [n], order) == Regrouped(nodes + [n], init) + (OfTurn(nodes, last) + more);
      assert Regrouped(nodes, order) == Regrouped(nodes, init) + OfTurn(nodes, last);
      hide *;
      RegroupedSnoc(nodes, n, init);
      InSnoc(init, last, n.turnID);
    }
  }

  lemma InSnoc(order: seq<string>, last: string, t: string)
    ensures t in order + [last] <==> t in order || t == last
  {
  }

  /** Grouping by turn only moves nodes. */
  lemma {:induction false} RegroupedIsPermutation(nodes: seq<Node>)
    ensures multiset(Regrouped(nodes, TurnOrder(nodes))) == multiset(nodes)
  {
    if nodes != [] {
      var init, n := nodes[..|nodes| - 1], nodes[|nodes| - 1];
      assert nodes == init + [n];
      hide *;
      RegroupedIsPermutation(init);
      TurnOrderMeans(init);
      TurnOrderMeans(nodes);
      RegroupedNewTurn(init, n);
      RegroupedSnoc(init, n, TurnOrder(nodes));
      assert multiset(init + [n]) == multiset(init) + multiset{n};
    }
  }

  /** A turn without nodes adds nothing. */
  lemma RegroupedNewTurn(init: seq<Node>, n: Node)
    requires forall t :: t !in TurnOrder(init) ==> OfTurn(init, t) == []
    ensures n.turnID in TurnOrder(init + [n]) && (init + [n])[..|init|] == init
    ensures Regrouped(init, TurnOrder(init + [n])) == Regrouped(init, TurnOrder(init))
  {
    assert (init + [n])[..|init|] == init;
    var order := TurnOrder(init);
    hide TurnOrder, OfTurn;
    if n.turnID !in order {
      assert (order + [n.turnID])[..|order|] == order;
      assert Regrouped(init, order + [n.turnID]) == Regrouped(init, order) + [];
    }
  }

  lemma {:induction false} TotalOfPermutation(a: seq<Node>, b: seq<Node>)
    requires multiset(a) == multiset(b)
    ensures TotalTokens(a) == TotalTokens(b) && |a| == |b|
  {
    if a == [] {
      assert |multiset(b)| == 0;
    } else {
      var init, last := a[..|a| - 1], a[|a| - 1];
      assert a == init + [last];
      assert last in multiset(b);
      var k :| 0 <= k < |b| && b[k] == last;
      var front, back := b[..k], b[k + 1..];
      assert b == front + ([last] + back);
      hide *;
      WithoutOne(init, last, front, back);
      TotalOfPermutation(init, front + back);
      TotalOfAppend(front, back);
      TotalOfAppend(front, [last] + back);
      TotalOfAppend([last], back);
      TotalOfAppend(init, [last]);
    }
  }

  lemma WithoutOne(init: seq<Node>, x: Node, front: seq<Node>, back: seq<Node>)
    requires multiset(init + [x]) == multiset(front + ([x] + back))
    ensures multiset(init) == multiset(front + back)
  {
    assert multiset(init + [x]) == multiset(init) + multiset{x};
    assert multiset(front + ([x] + back)) == multiset(front) + (multiset{x} + multiset(back));
    assert multiset(init) == multiset(init + [x]) - multiset{x};
  }

  /** The longest turn id with which a summary never costs more than the turn it replaces. */
  const MAX_TURN_ID := 59_266

  lemma SummaryIsShort(turn: string, nodes: seq<Node>)
    ensures |SummaryOf(turn, nodes)| <= |turn| + 741
  {
    hide JoinBars, Parts, Summarized;
  }

  lemma DistilledTurnCostsLess(turn: string, nodes: seq<Node>)
    requires |turn| <= MAX_TURN_ID
    ensures TotalTokens(DistilledTurn(turn, nodes)) <= TotalTokens(nodes)
    ensures |DistilledTurn(turn, nodes)| <= |nodes|
  {
    SummaryIsShort(turn, nodes);
    hide SummaryOf;
    var out := DistilledTurn(turn, nodes);
    if out != nodes {
      assert out[..0] == [];
      assert nodes != [];
    }
  }

  lemma {:induction false} DistillTurnsCostLess(nodes: seq<Node>, order: seq<string>)
    requires forall i :: 0 <= i < |order| ==> |order[i]| <= MAX_TURN_ID
    ensures TotalTokens(DistillTurns(nodes, order)) <= TotalTokens(Regrouped(nodes, order))
  {
    if order != [] {
      var init, last := order[..|order| - 1], order[|order| - 1];
      DistillTurnsCostLess(nodes, init);
      DistilledTurnCostsLess(last, OfTurn(nodes, last));
      TotalOfAppend(DistillTurns(nodes, init), DistilledTurn(last, OfTurn(nodes, last)));
      TotalOfAppend(Regrouped(nodes, init), OfTurn(nodes, last));
    }
  }

  lemma {:induction false} DistillTurnsShorter(nodes: seq<Node>, order: seq<string>)
    ensures |DistillTurns(nodes, order)| <= |Regrouped(nodes, order)|
  {
    if order != [] {
      var init, last := order[..|order| - 1], order[|order| - 1];
      DistillTurnsShorter(nodes, init);
      assert TotalTokens([]) == 0;
      hide OfTurn, SummaryOf;
    }
  }

  lemma {:induction false} TurnOrderBounded(nodes: seq<Node>, n: nat)
    requires forall i :: 0 <= i < |nodes| ==> |nodes[i].turnID| <= n
    ensures forall i :: 0 <= i < |TurnOrder(nodes)| ==> |TurnOrder(nodes)[i]| <= n
  {
    if nodes != [] {
      TurnOrderBounded(nodes[..|nodes| - 1], n);
    }
  }

  /** Distillation never makes the list longer, and never dearer with turn ids of usual length. */
  lemma DistillationCostsLess(nodes: seq<Node>)
    ensures |DistillAll(nodes)| <= |nodes|
    ensures (forall i :: 0 <= i < |nodes| ==> |nodes[i].turnID| <= MAX_TURN_ID) ==>
              TotalTokens(DistillAll(nodes)) <= TotalTokens(nodes)
  {
    var order := TurnOrder(nodes);
    RegroupedIsPermutation(nodes);
    TotalOfPermutation(Regrouped(nodes, order), nodes);
    DistillTurnsShorter(nodes, order);
    if forall i :: 0 <= i < |nodes| ==> |nodes[i].turnID| <= MAX_TURN_ID {
      TurnOrderBounded(nodes, MAX_TURN_ID);
      DistillTurnsCostLess(nodes, order);
    }
  }

  // ---- The bound on turn ids is exact ----

  function Filler(n: nat): (r: string)
    ensures |r| == n
  {
    seq(n, _ => 'x')
  }

  lemma FillerSummary(n: nat, maxLen: nat)
    requires n > maxLen
    ensures |Summarized(JoinBars([Filler(n)]), maxLen)| == maxLen + 3
  {
    assert Tight(Filler(n));
    TrimSpaceMeans(Filler(n));
    hide TrimSpace;
  }

  lemma TwoParts(a: Node, b: Node)
    requires a.role == "user" && b.role == "model"
    ensures Parts([a, b], true) == [a.content] && Parts([a, b], false) == [b.content]
    ensures TotalTokens([a, b]) == a.tokenCount + b.tokenCount
  {
    assert [a, b][..1] == [a] && [a][..0] == [];
    assert Parts([a], true) == Parts([], true) + [a.content] && Parts([a], false) == Parts([], false) + [];
    assert Parts([a, b], true) == Parts([a], true) + [] && Parts([a, b], false) == Parts([a], false) + [b.content];
    assert TotalTokens([a, b]) == TotalTokens([a]) + b.tokenCount && TotalTokens([a]) == TotalTokens([]) + a.tokenCount;
  }

  /** Summaries cost no more than the turns they replace, whatever is in these, exactly when the turn
      id has at most 59266 characters. */
  lemma DistilledTurnCostsLessIff(turn: string)
    ensures (forall nodes :: AllOfTurn(nodes, turn) ==> TotalTokens(DistilledTurn(turn, nodes)) <= TotalTokens(nodes))
            <==> |turn| <= MAX_TURN_ID
  {
    if |turn| <= MAX_TURN_ID {
      forall nodes ensures TotalTokens(DistilledTurn(turn, nodes)) <= TotalTokens(nodes) {
        DistilledTurnCostsLess(turn, nodes);
      }
    } else {
      var a := Node("a", Other, "user", turn, Filler(201), DISTILLATION_THRESHOLD + 1, "", []);
      var b := Node("b", Other, "model", turn, Filler(501), 0, "", []);
      TwoParts(a, b);
      FillerSummary(201, 200);
      FillerSummary(501, 500);
      assert |SummaryOf(turn, [a, b])| == |turn| + 741;
      hide SummaryOf, Parts, JoinBars, Summarized, Filler;
      SingleTotal(DistilledTurn(turn, [a, b]));
      assert AllOfTurn([a, b], turn);
    }
  }

  lemma SingleTotal(nodes: seq<Node>)
    requires |nodes| == 1
    ensures TotalTokens(nodes) == nodes[0].tokenCount
  {
    assert nodes[..0] == [];
  }
}

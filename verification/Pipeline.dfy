/** The chain of compression processors over the short-term memory (internal/bionic/context/pipeline.go).
    Run works on a snapshot and returns only an error: what it computes is an out-parameter here, and
    the buffer keeps its nodes. */
module Pipeline {
  import opened ContextNodes
  import opened Distillation
  import B = RingBuffers
  import T = Texts

  datatype Stage = Masking | Degradation | Distilling | Truncation

  datatype PipelineStage = PipelineStage(processor: Stage, enabled: bool)

  const MAX_NODES := 4000

  const DEFAULTS := [PipelineStage(Masking, true), PipelineStage(Degradation, true),
                     PipelineStage(Distilling, true), PipelineStage(Truncation, true)]

  function Processed(stage: Stage, nodes: seq<Node>): seq<Node> {
    match stage
    case Masking => MaskAll(nodes)
    case Degradation => DegradeAll(nodes)
    case Distilling => DistillAll(nodes)
    case Truncation => B.LastN(nodes, MAX_NODES)
  }

  /** One stage: the nodes below the boundary are processed, the others kept. The boundary is the one
      of the snapshot, even after a stage has made the list shorter. */
  function Merged(nodes: seq<Node>, p: nat, stage: Stage): seq<Node> {
    if p > 0 && |nodes| > p then Processed(stage, nodes[..p]) + nodes[p..] else nodes
  }

  function Chain(nodes: seq<Node>, p: nat, stages: seq<Stage>): seq<Node> {
    if stages == [] then nodes
    else Merged(Chain(nodes, p, stages[..|stages| - 1]), p, stages[|stages| - 1])
  }

  function EnabledOf(processors: seq<PipelineStage>): seq<Stage> {
    if processors == [] then []
    else
      var last := processors[|processors| - 1];
      EnabledOf(processors[..|processors| - 1]) + if last.enabled then [last.processor] else []
  }

  method Process(stage: Stage, nodes: seq<Node>) returns (results: seq<Node>)
    ensures results == Processed(stage, nodes)
  {
    match stage
    case Masking => results := ToolMasking(nodes);
    case Degradation => results := BlobDegradation(nodes);
    case Distilling => results := NodeDistillation(nodes);
    case Truncation => results := NodeTruncation(nodes);
  }

  method NodeTruncation(nodes: seq<Node>) returns (results: seq<Node>)
    ensures results == B.LastN(nodes, MAX_NODES)
  {
    if |nodes| <= MAX_NODES {
      return nodes;
    }
    results := nodes[|nodes| - MAX_NODES..];
  }

  class PipelineOrchestrator {
    const stm: B.STMBuffer
    var processors: seq<PipelineStage>

    constructor (buffer: B.STMBuffer)
      ensures stm == buffer && processors == Defaults(Flags(true, true, true, true))
    {
      stm, processors := buffer, DEFAULTS;
    }

    method SetAll(on: bool)
      modifies this
      ensures |processors| == |old(processors)|
      ensures forall i :: 0 <= i < |processors| ==> processors[i] == PipelineStage(old(processors)[i].processor, on)
    {
      for i := 0 to |processors|
        invariant |processors| == |old(processors)|
        invariant forall k :: 0 <= k < i ==> processors[k] == PipelineStage(old(processors)[k].processor, on)
        invariant forall k :: i <= k < |processors| ==> processors[k] == old(processors)[k]
      {
        processors := processors[i := processors[i].(enabled := on)];
      }
    }

    method EnableDefault()
      modifies this
      ensures processors == Defaults(Flags(true, true, true, true))
    {
      processors := DEFAULTS;
    }

    /** `cancelled(k)` tells whether the context is done before the enabled stage number k. */
    method Run(cancelled: nat -> bool) returns (ok: bool, nodes: seq<Node>, protectedIdx: nat)
      requires stm.Valid()
      ensures B.IsBoundary(B.Present(stm.Queue()), if stm.protectedTurns < 0 then 0 else stm.protectedTurns,
                           protectedIdx)
      ensures ok ==> nodes == Chain(B.Present(stm.Queue()), protectedIdx, EnabledOf(processors))
      ensures ok <==> forall k: nat :: k < |EnabledOf(processors)| ==> !cancelled(k)
    {
      hide *;
      nodes := stm.Snapshot();
      protectedIdx := stm.ProtectedBoundary();
      ghost var snapshot := nodes;
      NoStages(snapshot, protectedIdx, processors);
      var count := 0;
      for i := 0 to |processors|
        invariant count == |EnabledOf(processors[..i])| && forall k: nat :: k < count ==> !cancelled(k)
        invariant nodes == Chain(snapshot, protectedIdx, EnabledOf(processors[..i]))
      {
        StageStep(snapshot, protectedIdx, processors, i);
        EnabledCount(processors, i);
        if !processors[i].enabled {
          continue;
        }
        if cancelled(count) {
          return false, nodes, protectedIdx;
        }
        count := count + 1;
        nodes := RunStage(nodes, protectedIdx, processors[i].processor);
      }
      assert processors[..|processors|] == processors;
      ok := true;
    }
  }

  /** Only the compressible portion is processed; the rest is kept behind it. */
  method RunStage(nodes: seq<Node>, protectedIdx: nat, stage: Stage) returns (results: seq<Node>)
    ensures results == Merged(nodes, protectedIdx, stage)
  {
    hide Processed;
    results := nodes;
    if protectedIdx > 0 && |nodes| > protectedIdx {
      var processed := Process(stage, nodes[..protectedIdx]);
      results := processed + nodes[protectedIdx..];
    }
  }

  lemma EnabledCount(processors: seq<PipelineStage>, i: nat)
    requires i < |processors|
    ensures |EnabledOf(processors[..i + 1])| == |EnabledOf(processors[..i])| + if processors[i].enabled then 1 else 0
    ensures |EnabledOf(processors[..i + 1])| <= |EnabledOf(processors)|
  {
    EnabledStep(processors, i);
    EnabledGrows(processors, i + 1);
    hide EnabledOf;
  }

  lemma {:induction false} EnabledGrows(processors: seq<PipelineStage>, i: nat)
    requires i <= |processors|
    ensures |EnabledOf(processors[..i])| <= |EnabledOf(processors)|
    decreases |processors| - i
  {
    if i == |processors| {
      assert processors[..i] == processors;
    } else {
      EnabledStep(processors, i);
      EnabledGrows(processors, i + 1);
    }
  }

  lemma EnabledStep(processors: seq<PipelineStage>, i: nat)
    requires i < |processors|
    ensures EnabledOf(processors[..i + 1])
            == if processors[i].enabled then EnabledOf(processors[..i]) + [processors[i].processor]
                else EnabledOf(processors[..i])
  {
    assert processors[..i + 1][..i] == processors[..i];
  }

  lemma ChainStep(nodes: seq<Node>, p: nat, stages: seq<Stage>, stage: Stage)
    ensures Chain(nodes, p, stages + [stage]) == Merged(Chain(nodes, p, stages), p, stage)
  {
    assert (stages + [stage])[..|stages|] == stages;
    hide Merged;
  }

  // ---- The default chain in closed form ----

  /** Which of the default processors are enabled. */
  datatype Flags = Flags(masking: bool, degradation: bool, distilling: bool, truncation: bool)

  function Defaults(f: Flags): seq<PipelineStage> {
    [PipelineStage(Masking, f.masking), PipelineStage(Degradation, f.degradation),
     PipelineStage(Distilling, f.distilling), PipelineStage(Truncation, f.truncation)]
  }

  /** The default chain on a snapshot with boundary p. */
  function DefaultChain(nodes: seq<Node>, p: nat, f: Flags): seq<Node> {
    Chain(nodes, p, EnabledOf(Defaults(f)))
  }

  /** What masking and degradation make of a node, and of a list of nodes. */
  function StandIn(n: Node, f: Flags): Node {
    var m := if f.masking then Masked(n) else n;
    if f.degradation then Degraded(m) else m
  }

  function StandIns(below: seq<Node>, f: Flags): (r: seq<Node>)
    ensures |r| == |below| && forall i :: 0 <= i < |below| ==> r[i] == StandIn(below[i], f)
  {
    var m := if f.masking then MaskAll(below) else below;
    if f.degradation then DegradeAll(m) else m
  }

  /** What the compressing processors leave of the nodes below the boundary. */
  function Below(below: seq<Node>, f: Flags): seq<Node> {
    if f.distilling then DistillAll(StandIns(below, f)) else StandIns(below, f)
  }

  /** A turn that distillation turns into a summary. */
  predicate Heavy(nodes: seq<Node>, turn: string) {
    TotalTokens(OfTurn(nodes, turn)) > DISTILLATION_THRESHOLD
  }

  /** What distillation leaves of some turns: one node of a heavy one, all nodes of the others. */
  function LeftOfTurns(nodes: seq<Node>, order: seq<string>): nat {
    if order == [] then 0
    else
      var turn := order[|order| - 1];
      LeftOfTurns(nodes, order[..|order| - 1]) + if Heavy(nodes, turn) then 1 else |OfTurn(nodes, turn)|
  }

  /** How many nodes are left of those below the boundary. */
  function LeftBelow(below: seq<Node>, f: Flags): nat {
    if f.distilling then LeftOfTurns(StandIns(below, f), TurnOrder(StandIns(below, f))) else |below|
  }

  /** How many nodes truncation takes off the front. */
  function Truncated(nodes: seq<Node>, p: nat, f: Flags): nat
    requires p <= |nodes|
  {
    if f.truncation && p > MAX_NODES && LeftBelow(nodes[..p], f) + (|nodes| - p) > p then p - MAX_NODES else 0
  }

  lemma {:induction false} DistillTurnsLength(nodes: seq<Node>, order: seq<string>)
    ensures |DistillTurns(nodes, order)| == LeftOfTurns(nodes, order)
  {
    if order != [] {
      DistillTurnsLength(nodes, order[..|order| - 1]);
      hide OfTurn, SummaryOf, TotalTokens;
    }
  }

  lemma BelowLength(below: seq<Node>, f: Flags)
    ensures |Below(below, f)| == LeftBelow(below, f) <= |below|
  {
    DistillTurnsLength(StandIns(below, f), TurnOrder(StandIns(below, f)));
    DistillationCostsLess(StandIns(below, f));
    hide DistillTurns, TurnOrder, StandIn, LeftOfTurns;
  }

  /** A stage on a list whose first p nodes are not protected. */
  lemma MergedFront(below: seq<Node>, above: seq<Node>, stage: Stage)
    requires below != [] && above != []
    ensures Merged(below + above, |below|, stage) == Processed(stage, below) + above
  {
    assert (below + above)[..|below|] == below && (below + above)[|below|..] == above;
    hide Processed;
  }

  /** Truncating drops the front of the whole list. */
  lemma TruncatedFront(nodes: seq<Node>, p: nat)
    requires p > 0
    ensures var k := if |nodes| > p > MAX_NODES then p - MAX_NODES else 0;
            Merged(nodes, p, Truncation) == nodes[k..]
  {
    if |nodes| > p {
      var k := if p > MAX_NODES then p - MAX_NODES else 0;
      assert B.LastN(nodes[..p], MAX_NODES) == nodes[k..p];
      assert nodes[k..p] + nodes[p..] == nodes[k..];
    }
  }

  /** The stages of a default chain, one after the other. */
  lemma DefaultStages(nodes: seq<Node>, p: nat, f: Flags)
    ensures var a := if f.masking then Merged(nodes, p, Masking) else nodes;
            var b := if f.degradation then Merged(a, p, Degradation) else a;
            var c := if f.distilling then Merged(b, p, Distilling) else b;
            DefaultChain(nodes, p, f) == if f.truncation then Merged(c, p, Truncation) else c
  {
    hide *;
    var all := Defaults(f);
    DefaultsAre(f);
    NoStages(nodes, p, all);
    StageStep(nodes, p, all, 0);
    StageStep(nodes, p, all, 1);
    StageStep(nodes, p, all, 2);
    StageStep(nodes, p, all, 3);
    AllStages(nodes, p, f);
  }

  lemma DefaultsAre(f: Flags)
    ensures var all := Defaults(f);
            && |all| == 4
            && all[0] == PipelineStage(Masking, f.masking) && all[1] == PipelineStage(Degradation, f.degradation)
            && all[2] == PipelineStage(Distilling, f.distilling) && all[3] == PipelineStage(Truncation, f.truncation)
  {
  }

  lemma NoStages(nodes: seq<Node>, p: nat, all: seq<PipelineStage>)
    ensures EnabledOf(all[..0]) == [] && Chain(nodes, p, EnabledOf(all[..0])) == nodes
  {
  }

  lemma AllStages(nodes: seq<Node>, p: nat, f: Flags)
    ensures DefaultChain(nodes, p, f) == Chain(nodes, p, EnabledOf(Defaults(f)[..4]))
  {
    assert Defaults(f)[..4] == Defaults(f);
  }

  lemma StageStep(nodes: seq<Node>, p: nat, all: seq<PipelineStage>, i: nat)
    requires i < |all|
    ensures var before := Chain(nodes, p, EnabledOf(all[..i]));
            Chain(nodes, p, EnabledOf(all[..i + 1]))
            == if all[i].enabled then Merged(before, p, all[i].processor) else before
  {
    EnabledStep(all, i);
    ChainStep(nodes, p, EnabledOf(all[..i]), all[i].processor);
    hide EnabledOf, Chain, Merged;
  }

  /** What a default chain computes: the stand-ins of the nodes below the boundary, distilled, before
      the unchanged protected nodes, less what truncation takes off the front. */
  lemma DefaultChainIs(nodes: seq<Node>, p: nat, f: Flags)
    requires 0 < p < |nodes|
    ensures Truncated(nodes, p, f) <= |Below(nodes[..p], f) + nodes[p..]|
    ensures DefaultChain(nodes, p, f) == (Below(nodes[..p], f) + nodes[p..])[Truncated(nodes, p, f)..]
  {
    hide *;
    var below, above := nodes[..p], nodes[p..];
    assert nodes == below + above;
    DefaultStages(nodes, p, f);
    CompressedIs(below, above, f);
    TruncationIs(nodes, p, f);
  }

  /** The truncation step, on what the other processors leave. */
  lemma TruncationIs(nodes: seq<Node>, p: nat, f: Flags)
    requires 0 < p < |nodes|
    ensures var whole := Below(nodes[..p], f) + nodes[p..];
            && Truncated(nodes, p, f) <= |whole|
            && (if f.truncation then Merged(whole, p, Truncation) else whole) == whole[Truncated(nodes, p, f)..]
  {
    var whole := Below(nodes[..p], f) + nodes[p..];
    BelowLength(nodes[..p], f);
    TruncatedFront(whole, p);
    hide Merged, LeftBelow, Below;
    assert whole[0..] == whole;
  }

  lemma CompressedIs(below: seq<Node>, above: seq<Node>, f: Flags)
    requires below != [] && above != []
    ensures var p := |below|;
            var a := if f.masking then Merged(below + above, p, Masking) else below + above;
            var b := if f.degradation then Merged(a, p, Degradation) else a;
            Below(below, f) + above == if f.distilling then Merged(b, p, Distilling) else b
  {
    hide *;
    var m := if f.masking then Processed(Masking, below) else below;
    var d := if f.degradation then Processed(Degradation, m) else m;
    ProcessedLength(below);
    ProcessedLength(m);
    MergedFront(below, above, Masking);
    MergedFront(m, above, Degradation);
    MergedFront(d, above, Distilling);
    BelowIs(below, f);
  }

  lemma ProcessedLength(nodes: seq<Node>)
    ensures |Processed(Masking, nodes)| == |nodes| == |Processed(Degradation, nodes)|
  {
  }

  lemma BelowIs(below: seq<Node>, f: Flags)
    ensures var m := if f.masking then Processed(Masking, below) else below;
            var d := if f.degradation then Processed(Degradation, m) else m;
            Below(below, f) == if f.distilling then Processed(Distilling, d) else d
  {
    hide MaskAll, DegradeAll, DistillAll;
  }

  /** Outside the boundaries that Run processes nothing happens. */
  lemma {:induction false} IdleChain(nodes: seq<Node>, p: nat, stages: seq<Stage>)
    requires p == 0 || |nodes| <= p
    ensures Chain(nodes, p, stages) == nodes
  {
    if stages != [] {
      IdleChain(nodes, p, stages[..|stages| - 1]);
    }
  }

  // ---- The protected suffix ----

  lemma SuffixOfDrop(front: seq<Node>, suffix: seq<Node>, k: nat)
    requires k <= |front + suffix|
    ensures T.HasSuffix((front + suffix)[k..], suffix) <==> k <= |front|
  {
    if k <= |front| {
      assert (front + suffix)[k..] == front[k..] + suffix;
    }
  }

  /** Main result on the protected nodes: they come out of every default chain unchanged, except
      exactly when the truncation runs, the list is still longer than the boundary, and distillation
      has left over 4000 nodes fewer below the boundary than there were. */
  lemma ProtectedSuffixIff(nodes: seq<Node>, p: nat, f: Flags)
    requires 0 < p < |nodes|
    ensures T.HasSuffix(DefaultChain(nodes, p, f), nodes[p..])
            <==> !(&& f.truncation
                   && LeftBelow(nodes[..p], f) + (|nodes| - p) > p
                   && p - LeftBelow(nodes[..p], f) > MAX_NODES)
  {
    DefaultChainIs(nodes, p, f);
    BelowLength(nodes[..p], f);
    SuffixOfDrop(Below(nodes[..p], f), nodes[p..], Truncated(nodes, p, f));
    hide DefaultChain, LeftBelow, Below;
  }

  /** So on snapshots of at most 4000 nodes they are safe. */
  lemma ProtectedSuffixIsSafe(nodes: seq<Node>, p: nat, f: Flags)
    requires 0 < p < |nodes| <= MAX_NODES
    ensures T.HasSuffix(DefaultChain(nodes, p, f), nodes[p..])
  {
    ProtectedSuffixIff(nodes, p, f);
    hide DefaultChain, LeftBelow;
  }

  /** A buffer of at most 4000 slots, as the default one of 2048, never holds more. */
  lemma SmallBufferIsSafe(stm: B.STMBuffer, p: nat, f: Flags)
    requires stm.Valid() && stm.capacity <= MAX_NODES && 0 < p < |B.Present(stm.Queue())|
    ensures T.HasSuffix(DefaultChain(B.Present(stm.Queue()), p, f), B.Present(stm.Queue())[p..])
  {
    B.PresentIsShorter(stm.Queue());
    hide DefaultChain;
    ProtectedSuffixIsSafe(B.Present(stm.Queue()), p, f);
  }

  // ---- A snapshot on which protected nodes are lost ----

  function Light(turn: string): Node {
    Node("n", Other, "user", turn, "", 4, "", [])
  }

  /** n light nodes of one turn. */
  function Lights(turn: string, n: nat): (r: seq<Node>)
    ensures |r| == n && forall i :: 0 <= i < n ==> r[i] == Light(turn)
  {
    seq(n, i requires 0 <= i < n => Light(turn))
  }

  lemma {:induction false} LightTokens(turn: string, n: nat)
    ensures TotalTokens(Lights(turn, n)) == 4 * n
  {
    if n > 0 {
      LightTokens(turn, n - 1);
      assert Lights(turn, n)[..n - 1] == Lights(turn, n - 1);
      hide Lights;
    }
  }

  lemma {:induction false} LightOrder(turn: string, n: nat)
    ensures TurnOrder(Lights(turn, n)) == if n == 0 then [] else [turn]
  {
    if n > 0 {
      LightOrder(turn, n - 1);
      assert Lights(turn, n)[..n - 1] == Lights(turn, n - 1);
      hide Lights;
    }
  }

  lemma LightStandIns(turn: string, n: nat, f: Flags)
    ensures StandIns(Lights(turn, n), f) == Lights(turn, n)
  {
    assert StandIn(Light(turn), f) == Light(turn);
    hide StandIn, StandIns, Lights;
  }

  /** One heavy turn of 5000 nodes under two protected turns with 2500 each: the whole chain loses
      999 protected nodes. */
  lemma ProtectedNodesLost()
    ensures var nodes := Lights("a", 5000) + (Lights("b", 2500) + Lights("c", 2500));
            var f := Flags(true, true, true, true);
            && B.IsBoundary(nodes, 2, 5000)
            && !T.HasSuffix(DefaultChain(nodes, 5000, f), nodes[5000..])
            && DefaultChain(nodes, 5000, f) == nodes[5999..]
  {
    var f := Flags(true, true, true, true);
    var below, above := Lights("a", 5000), Lights("b", 2500) + Lights("c", 2500);
    LostBoundary(below + above, above);
    HeavyLights("a", 5000, f);
    hide *;
    LostFront(below, above, f);
  }

  /** Truncation takes the summary and 999 protected nodes. */
  lemma LostFront(below: seq<Node>, above: seq<Node>, f: Flags)
    requires |below| == 5000 == |above| && f.truncation && LeftBelow(below, f) == 1
    ensures !T.HasSuffix(DefaultChain(below + above, 5000, f), (below + above)[5000..])
    ensures DefaultChain(below + above, 5000, f) == (below + above)[5999..]
  {
    hide *;
    var nodes := below + above;
    CutAt(below, above, 0);
    CutAt(below, above, 999);
    assert above[0..] == above;
    DefaultChainIs(nodes, 5000, f);
    BelowLength(below, f);
    TruncatedBy(nodes, 5000, f);
    CutAt(Below(below, f), above, 999);
    ShortIsNoSuffix(above, 999);
  }

  lemma CutAt(front: seq<Node>, back: seq<Node>, n: nat)
    requires n <= |back|
    ensures (front + back)[..|front|] == front && (front + back)[|front| + n..] == back[n..]
  {
  }

  lemma TruncatedBy(nodes: seq<Node>, p: nat, f: Flags)
    requires p <= |nodes| && f.truncation && p > 4000 && LeftBelow(nodes[..p], f) + (|nodes| - p) > p
    ensures Truncated(nodes, p, f) == p - 4000
  {
  }

  lemma ShortIsNoSuffix(nodes: seq<Node>, n: nat)
    requires 0 < n <= |nodes|
    ensures !T.HasSuffix(nodes[n..], nodes)
  {
  }

  lemma LostBoundary(nodes: seq<Node>, above: seq<Node>)
    requires above == Lights("b", 2500) + Lights("c", 2500) && nodes == Lights("a", 5000) + above
    ensures B.IsBoundary(nodes, 2, 5000)
  {
    assert nodes[5000..] == above && nodes[4999] == Light("a");
    assert B.TurnsOf(above) == {"b", "c"} by {
      assert above[0] == Light("b") && above[2500] == Light("c");
    }
    B.TurnsOfCons(nodes, 4999);
    hide B.TurnsOf, B.IsBoundary, Lights;
    assert |{"b", "c"}| == 2 && |{"b", "c"} + {"a"}| == 3;
    B.FirstTooMany(nodes, 2, 4999);
  }

  lemma HeavyLights(turn: string, n: nat, f: Flags)
    requires 4 * n > DISTILLATION_THRESHOLD && f.distilling
    ensures LeftBelow(Lights(turn, n), f) == 1
  {
    var nodes := Lights(turn, n);
    LightStandIns(turn, n, f);
    LightOrder(turn, n);
    LightTokens(turn, n);
    OfTurnOfPure(nodes, turn, turn);
    assert [turn][..0] == [];
    hide Lights, TotalTokens, OfTurn, TurnOrder, StandIns;
    assert LeftOfTurns(nodes, [turn])
           == LeftOfTurns(nodes, []) + if Heavy(nodes, turn) then 1 else |OfTurn(nodes, turn)|;
  }

  // ---- Tokens ----

  /** Nodes as the manager makes them. */
  predicate Usual(nodes: seq<Node>) {
    forall i :: 0 <= i < |nodes| ==> nodes[i].tokenCount >= 0 && |nodes[i].turnID| <= MAX_TURN_ID
  }

  lemma UsualOfAppend(a: seq<Node>, b: seq<Node>)
    ensures Usual(a + b) <==> Usual(a) && Usual(b)
  {
    if Usual(a + b) {
      assert forall i :: 0 <= i < |a| ==> a[i] == (a + b)[i];
      assert forall i :: 0 <= i < |b| ==> b[i] == (a + b)[|a| + i];
    }
  }

  lemma {:induction false} OfTurnIsUsual(nodes: seq<Node>, turn: string)
    requires Usual(nodes)
    ensures Usual(OfTurn(nodes, turn))
  {
    if nodes != [] {
      OfTurnIsUsual(nodes[..|nodes| - 1], turn);
    }
  }

  lemma {:induction false} DistillTurnsUsual(nodes: seq<Node>, order: seq<string>)
    requires Usual(nodes) && forall i :: 0 <= i < |order| ==> |order[i]| <= MAX_TURN_ID
    ensures Usual(DistillTurns(nodes, order))
  {
    if order != [] {
      var init, last := order[..|order| - 1], order[|order| - 1];
      DistillTurnsUsual(nodes, init);
      OfTurnIsUsual(nodes, last);
      hide SummaryOf, OfTurn, TotalTokens;
      assert Usual(DistilledTurn(last, OfTurn(nodes, last)));
      UsualOfAppend(DistillTurns(nodes, init), DistilledTurn(last, OfTurn(nodes, last)));
    }
  }

  lemma {:induction false} TotalNotNegative(nodes: seq<Node>)
    requires Usual(nodes)
    ensures TotalTokens(nodes) >= 0
  {
    if nodes != [] {
      TotalNotNegative(nodes[..|nodes| - 1]);
    }
  }

  lemma StandInsAreUsual(after: seq<Node>, before: seq<Node>)
    requires Usual(before) && |after| == |before|
    requires forall i :: 0 <= i < |after| ==>
             StandsFor(after[i], before[i]) && (after[i] != before[i] ==> after[i].tokenCount >= 0)
    ensures Usual(after)
  {
  }

  lemma MaskingCostsLess(nodes: seq<Node>)
    requires Usual(nodes)
    ensures Usual(MaskAll(nodes)) && TotalTokens(MaskAll(nodes)) <= TotalTokens(nodes)
  {
    PointwiseStages(nodes);
    hide Masked, StandsFor;
    forall i | 0 <= i < |nodes| && MaskAll(nodes)[i] != nodes[i] ensures MaskAll(nodes)[i].tokenCount >= 0 {
      MaskedTokens(nodes[i]);
    }
    StandInsAreUsual(MaskAll(nodes), nodes);
  }

  lemma MaskedTokens(n: Node)
    ensures Masked(n) != n ==> Masked(n).tokenCount >= 0
  {
    hide TruncatedToolOutput;
  }

  lemma DegradationCostsLess(nodes: seq<Node>)
    requires Usual(nodes)
    ensures Usual(DegradeAll(nodes)) && TotalTokens(DegradeAll(nodes)) <= TotalTokens(nodes)
  {
    PointwiseStages(nodes);
    hide Degraded, StandsFor;
    forall i | 0 <= i < |nodes| && DegradeAll(nodes)[i] != nodes[i] ensures DegradeAll(nodes)[i].tokenCount >= 0 {
      DegradedStandsFor(nodes[i]);
    }
    StandInsAreUsual(DegradeAll(nodes), nodes);
  }

  lemma TruncationCostsLess(nodes: seq<Node>)
    requires Usual(nodes)
    ensures Usual(B.LastN(nodes, MAX_NODES)) && TotalTokens(B.LastN(nodes, MAX_NODES)) <= TotalTokens(nodes)
  {
    var kept := B.LastN(nodes, MAX_NODES);
    var front := nodes[..|nodes| - |kept|];
    assert nodes == front + kept;
    hide *;
    TotalOfAppend(front, kept);
    UsualOfAppend(front, kept);
    TotalNotNegative(front);
  }

  lemma StageCostsLess(nodes: seq<Node>, stage: Stage)
    requires Usual(nodes)
    ensures Usual(Processed(stage, nodes)) && TotalTokens(Processed(stage, nodes)) <= TotalTokens(nodes)
  {
    hide Usual, TotalTokens;
    match stage
    case Masking => MaskingCostsLess(nodes);
    case Degradation => DegradationCostsLess(nodes);
    case Distilling => DistillingCostsLess(nodes);
    case Truncation => TruncationCostsLess(nodes);
  }

  lemma DistillingCostsLess(nodes: seq<Node>)
    requires Usual(nodes)
    ensures Usual(DistillAll(nodes)) && TotalTokens(DistillAll(nodes)) <= TotalTokens(nodes)
  {
    DistillationCostsLess(nodes);
    TurnOrderBounded(nodes, MAX_TURN_ID);
    hide TotalTokens;
    DistillTurnsUsual(nodes, TurnOrder(nodes));
  }

  /** Main result on the budget: no chain of processors, in any order, ever makes a context dearer. */
  lemma {:induction false} TokensNeverRise(nodes: seq<Node>, p: nat, stages: seq<Stage>)
    requires Usual(nodes)
    ensures Usual(Chain(nodes, p, stages)) && TotalTokens(Chain(nodes, p, stages)) <= TotalTokens(nodes)
  {
    if stages != [] {
      var init, last := stages[..|stages| - 1], stages[|stages| - 1];
      TokensNeverRise(nodes, p, init);
      MergedCostsLess(Chain(nodes, p, init), p, last);
    }
  }

  lemma MergedCostsLess(nodes: seq<Node>, p: nat, stage: Stage)
    requires Usual(nodes)
    ensures Usual(Merged(nodes, p, stage)) && TotalTokens(Merged(nodes, p, stage)) <= TotalTokens(nodes)
  {
    if p > 0 && |nodes| > p {
      var below, above := nodes[..p], nodes[p..];
      assert nodes == below + above;
      UsualOfAppend(below, above);
      TotalOfAppend(below, above);
      StageCostsLess(below, stage);
      UsualOfAppend(Processed(stage, below), above);
      TotalOfAppend(Processed(stage, below), above);
    }
  }
}

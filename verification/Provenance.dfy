/** Where the nodes of a snapshot are after the chain of compression processors
    (internal/bionic/context/pipeline.go): as themselves, in the ReplacesID of a stand-in, or in the
    AbstractsIDs of a summary. */
module Provenance {
  import opened ContextNodes
  import opened Distillation
  import opened Pipeline
  import T = Texts

  // ---- Mentions of an id ----

  /** How often a node mentions an id: as its own, as the replaced one, among the abstracted ones. */
  function MarkCount(n: Node, id: string): nat {
    (if n.id == id then 1 else 0) + (if n.replacesID == id then 1 else 0) + multiset(n.abstractsIDs)[id]
  }

  function Marks(id: string): Node -> nat {
    (n: Node) => MarkCount(n, id)
  }

  function Own(id: string): Node -> nat {
    (n: Node) => if n.id == id then 1 else 0
  }

  function Sum(nodes: seq<Node>, w: Node -> nat): nat {
    if nodes == [] then 0 else Sum(nodes[..|nodes| - 1], w) + w(nodes[|nodes| - 1])
  }

  function Mentions(nodes: seq<Node>, id: string): nat {
    Sum(nodes, Marks(id))
  }

  // ---- Names that the processors make up ----

  function Names(n: Node): set<string> {
    {n.id, n.id + "-masked", n.id + "-degraded"}
  }

  /** The nodes name nobody else yet, and the ids that the processors make of them are all apart. */
  ghost predicate Apart(nodes: seq<Node>) {
    && (forall i :: 0 <= i < |nodes| ==> nodes[i].id != "" && nodes[i].replacesID == "" && nodes[i].abstractsIDs == [])
    && (forall i, j :: 0 <= i < |nodes| && 0 <= j < |nodes| && i != j ==> Names(nodes[i]) !! Names(nodes[j]))
    && (forall i, j :: 0 <= i < |nodes| && 0 <= j < |nodes| ==> "distill-" + nodes[j].turnID !in Names(nodes[i]))
  }

  /** Whether masking or degradation puts a stand-in for the node. */
  predicate Replaced(n: Node, f: Flags) {
    || (f.masking && n.kind.ToolResult? && n.tokenCount > MASKING_THRESHOLD)
    || (f.degradation && n.role == "model" && n.tokenCount > DEGRADATION_THRESHOLD)
  }

  /** A stand-in names the node that it replaces; there is never a chain of two. */
  lemma StandInNames(n: Node, f: Flags)
    requires n.replacesID == "" && n.abstractsIDs == []
    ensures var s := StandIn(n, f);
            && s.turnID == n.turnID && s.abstractsIDs == [] && s.id in Names(n)
            && (if Replaced(n, f) then s.id != n.id && s.replacesID == n.id else s == n)
  {
    MaskedStandsFor(n);
    assert |n.id + "-masked"| > |n.id| && |n.id + "-degraded"| > |n.id|;
    hide TruncatedToolOutput;
  }

  // ---- Sums over lists in which one node has all the weight ----

  lemma {:induction false} SumOfAppend(a: seq<Node>, b: seq<Node>, w: Node -> nat)
    ensures Sum(a + b, w) == Sum(a, w) + Sum(b, w)
  {
    if b == [] {
      assert a + b == a;
    } else {
      var init, last := b[..|b| - 1], b[|b| - 1];
      assert (a + b)[..|a + b| - 1] == a + init && (a + b)[|a + b| - 1] == last;
      SumOfAppend(a, init, w);
    }
  }

  ghost predicate OnlyAt(nodes: seq<Node>, w: Node -> nat, i: int) {
    forall k :: 0 <= k < |nodes| && k != i ==> w(nodes[k]) == 0
  }

  lemma OnlyAtInit(nodes: seq<Node>, w: Node -> nat, i: nat)
    requires nodes != [] && OnlyAt(nodes, w, i)
    ensures var init := nodes[..|nodes| - 1]; OnlyAt(init, w, if i < |init| then i else |init|)
  {
    var init := nodes[..|nodes| - 1];
    forall k | 0 <= k < |init| && k != i ensures w(init[k]) == 0 {
      assert init[k] == nodes[k];
    }
  }

  /** The nodes of a turn weigh what its only weighty node does; i = |nodes| stands for none. */
  lemma {:induction false} SumOfTurn(nodes: seq<Node>, w: Node -> nat, i: nat, turn: string)
    requires i <= |nodes| && OnlyAt(nodes, w, i)
    ensures Sum(nodes, w) == if i < |nodes| then w(nodes[i]) else 0
    ensures Sum(OfTurn(nodes, turn), w) == if i < |nodes| && nodes[i].turnID == turn then w(nodes[i]) else 0
  {
    if nodes != [] {
      var init, last := nodes[..|nodes| - 1], nodes[|nodes| - 1];
      OnlyAtInit(nodes, w, i);
      SumOfTurn(init, w, if i < |init| then i else |init|, turn);
      OneMoreOfTurn(init, last, w, turn);
      assert nodes == init + [last];
    } else {
      assert OfTurn(nodes, turn) == [];
    }
  }

  lemma OneMoreOfTurn(init: seq<Node>, last: Node, w: Node -> nat, turn: string)
    ensures Sum(init + [last], w) == Sum(init, w) + w(last)
    ensures Sum(OfTurn(init + [last], turn), w)
            == Sum(OfTurn(init, turn), w) + if last.turnID == turn then w(last) else 0
  {
    assert (init + [last])[..|init|] == init;
    var more := OfTurn(init, turn);
    assert (more + [last])[..|more|] == more;
    assert more + [] == more;
  }

  lemma {:induction false} OwnIsIds(nodes: seq<Node>, id: string)
    ensures multiset(Ids(nodes))[id] == Sum(nodes, Own(id))
  {
    if nodes != [] {
      var init, last := nodes[..|nodes| - 1], nodes[|nodes| - 1];
      OwnIsIds(init, id);
      assert Ids(nodes) == Ids(init) + [last.id];
    } else {
      assert Ids(nodes) == [];
    }
  }

  // ---- Through distillation ----

  /** What a turn mentions after distillation. */
  lemma DistilledMentions(nodes: seq<Node>, turn: string, id: string)
    requires id != "" && id != "distill-" + turn
    ensures Mentions(DistilledTurn(turn, OfTurn(nodes, turn)), id)
            == if Heavy(nodes, turn) then Sum(OfTurn(nodes, turn), Own(id)) else Mentions(OfTurn(nodes, turn), id)
  {
    var group := OfTurn(nodes, turn);
    OwnIsIds(group, id);
    hide OfTurn, SummaryOf, TotalTokens, Ids;
    var out := DistilledTurn(turn, group);
    if Heavy(nodes, turn) {
      assert out[..0] == [] && Sum(out[..0], Marks(id)) == 0;
    }
  }

  ghost predicate Unlike(order: seq<string>, id: string) {
    forall k :: 0 <= k < |order| ==> id != "distill-" + order[k]
  }

  lemma {:induction false} DistillTurnsMentions(nodes: seq<Node>, order: seq<string>, id: string, i: nat)
    requires id != "" && Unlike(order, id) && T.Distinct(order) && i <= |nodes|
    requires OnlyAt(nodes, Marks(id), i) && OnlyAt(nodes, Own(id), i)
    ensures Mentions(DistillTurns(nodes, order), id)
            == if i < |nodes| && nodes[i].turnID in order
               then (if Heavy(nodes, nodes[i].turnID) then Own(id)(nodes[i]) else MarkCount(nodes[i], id)) else 0
  {
    if order != [] {
      var init, last := order[..|order| - 1], order[|order| - 1];
      LastOfOrder(nodes, order, id);
      WeightIs(nodes, id, i);
      hide *;
      DistillTurnsMentions(nodes, init, id, i);
      MentionsOfAppend(DistillTurns(nodes, init), DistilledTurn(last, OfTurn(nodes, last)), id);
      UnlikeAt(order, id, |order| - 1);
      DistilledMentions(nodes, last, id);
      MentionsOfTurn(nodes, id, i, last);
      SumOfTurn(nodes, Own(id), i, last);
      InSnoc(init, last, if i < |nodes| then nodes[i].turnID else last);
    }
  }

  lemma LastOfOrder(nodes: seq<Node>, order: seq<string>, id: string)
    requires order != [] && T.Distinct(order) && Unlike(order, id)
    ensures var init, last := order[..|order| - 1], order[|order| - 1];
            && order == init + [last] && T.Distinct(init) && last !in init && Unlike(init, id)
            && DistillTurns(nodes, order) == DistillTurns(nodes, init) + DistilledTurn(last, OfTurn(nodes, last))
  {
    hide DistilledTurn, OfTurn;
  }

  lemma WeightIs(nodes: seq<Node>, id: string, i: nat)
    ensures i < |nodes| ==> Marks(id)(nodes[i]) == MarkCount(nodes[i], id)
  {
  }

  lemma UnlikeAt(order: seq<string>, id: string, k: nat)
    requires k < |order| && Unlike(order, id)
    ensures id != "distill-" + order[k]
  {
  }

  lemma MentionsOfAppend(a: seq<Node>, b: seq<Node>, id: string)
    ensures Mentions(a + b, id) == Mentions(a, id) + Mentions(b, id)
  {
    SumOfAppend(a, b, Marks(id));
  }

  lemma MentionsOfTurn(nodes: seq<Node>, id: string, i: nat, turn: string)
    requires i <= |nodes| && OnlyAt(nodes, Marks(id), i)
    ensures Mentions(nodes, id) == if i < |nodes| then MarkCount(nodes[i], id) else 0
    ensures Mentions(OfTurn(nodes, turn), id)
            == if i < |nodes| && nodes[i].turnID == turn then MarkCount(nodes[i], id) else 0
  {
    SumOfTurn(nodes, Marks(id), i, turn);
  }

  /** Turns in the order come from nodes. */
  lemma {:induction false} OrderUnlike(nodes: seq<Node>, id: string)
    requires forall k :: 0 <= k < |nodes| ==> id != "distill-" + nodes[k].turnID
    ensures Unlike(TurnOrder(nodes), id)
  {
    if nodes != [] {
      OrderUnlike(nodes[..|nodes| - 1], id);
    }
  }

  /** An id that only node i of a list mentions, after the compressing processors. */
  lemma BelowMentions(standins: seq<Node>, f: Flags, id: string, i: nat)
    requires id != "" && i <= |standins| && (forall k :: 0 <= k < |standins| ==> id != "distill-" + standins[k].turnID)
    requires OnlyAt(standins, Marks(id), i) && OnlyAt(standins, Own(id), i)
    ensures Mentions(if f.distilling then DistillAll(standins) else standins, id)
            == if i == |standins| then 0
               else if f.distilling && Heavy(standins, standins[i].turnID) then Own(id)(standins[i])
               else MarkCount(standins[i], id)
  {
    OrderUnlike(standins, id);
    TurnOrderMeans(standins);
    DistillTurnsMentions(standins, TurnOrder(standins), id, i);
    MentionsOfTurn(standins, id, i, "");
    hide Mentions, TurnOrder, DistillTurns, OfTurn;
  }

  // ---- Through the chain ----

  /** The default chain with the same processors but without truncation. */
  function Whole(nodes: seq<Node>, p: nat, f: Flags): seq<Node> {
    DefaultChain(nodes, p, f.(truncation := false))
  }

  /** A node that is replaced and whose turn is then distilled: the summary names the stand-in, and
      nothing names the stand-in's original any more. */
  predicate Lost(nodes: seq<Node>, p: nat, f: Flags, i: nat)
    requires i < p <= |nodes|
  {
    Replaced(nodes[i], f) && f.distilling && Heavy(StandIns(nodes[..p], f), nodes[i].turnID)
  }

  lemma WholeIs(nodes: seq<Node>, p: nat, f: Flags)
    requires 0 < p < |nodes|
    ensures Whole(nodes, p, f) == Below(nodes[..p], f) + nodes[p..]
  {
    var g := f.(truncation := false);
    DefaultChainIs(nodes, p, g);
    assert Below(nodes[..p], g) == Below(nodes[..p], f);
    var whole := Below(nodes[..p], f) + nodes[p..];
    hide DefaultChain, Below, LeftBelow;
    assert whole[0..] == whole;
  }

  /** Nobody but node i has anything to do with the names of node i. */
  lemma OthersDoNotMention(nodes: seq<Node>, f: Flags, i: nat, k: nat, id: string)
    requires Apart(nodes) && i < |nodes| && k < |nodes| && k != i && id in Names(nodes[i])
    ensures id != "" && id != "distill-" + nodes[k].turnID && id != "distill-" + nodes[i].turnID
    ensures MarkCount(StandIn(nodes[k], f), id) == 0 == Own(id)(StandIn(nodes[k], f))
    ensures MarkCount(nodes[k], id) == 0
  {
    var n := nodes[k];
    StandInNames(n, f);
    assert n.id in Names(n);
    assert id !in Names(n);
    assert id != "" by {
      assert nodes[i].id != "";
    }
    hide StandIn;
  }

  /** One id of node i, in the nodes below the boundary and in the protected ones. */
  lemma NameMentions(nodes: seq<Node>, p: nat, f: Flags, i: nat, id: string)
    requires 0 < p < |nodes| && Apart(nodes) && i < |nodes| && id in Names(nodes[i])
    ensures var standins := StandIns(nodes[..p], f);
            Mentions(Whole(nodes, p, f), id)
            == if i >= p then MarkCount(nodes[i], id)
               else if f.distilling && Heavy(standins, nodes[i].turnID) then Own(id)(StandIn(nodes[i], f))
               else MarkCount(StandIn(nodes[i], f), id)
  {
    var below, above := nodes[..p], nodes[p..];
    var standins := StandIns(below, f);
    var at := if i < p then i else p;
    NameIsOnlyAt(nodes, p, f, i, id);
    BelowMentions(standins, f, id, at);
    MentionsOfTurn(above, id, if i < p then |above| else i - p, "");
    WholeIs(nodes, p, f);
    assert Below(below, f) == if f.distilling then DistillAll(standins) else standins;
    StandInNames(nodes[i], f);
    assert i < p ==> standins[i] == StandIn(nodes[i], f);
    hide Below, DistillAll, Mentions, Whole, Heavy, StandIn, StandIns, MarkCount, Own;
    MentionsOfAppend(if f.distilling then DistillAll(standins) else standins, above, id);
  }

  lemma NameIsOnlyAt(nodes: seq<Node>, p: nat, f: Flags, i: nat, id: string)
    requires 0 < p < |nodes| && Apart(nodes) && i < |nodes| && id in Names(nodes[i])
    ensures var standins := StandIns(nodes[..p], f);
            && id != "" && (forall k :: 0 <= k < p ==> id != "distill-" + standins[k].turnID)
            && OnlyAt(standins, Marks(id), if i < p then i else p)
            && OnlyAt(standins, Own(id), if i < p then i else p)
            && OnlyAt(nodes[p..], Marks(id), if i < p then |nodes| - p else i - p)
  {
    var standins := StandIns(nodes[..p], f);
    assert id != "" && id != "distill-" + nodes[i].turnID by {
      assert nodes[i].id != "";
    }
    forall k | 0 <= k < p
      ensures id != "distill-" + standins[k].turnID
      ensures k != i ==> Marks(id)(standins[k]) == 0 == Own(id)(standins[k])
    {
      StandInNames(nodes[k], f);
      if k != i {
        OthersDoNotMention(nodes, f, i, k, id);
      }
      hide StandIn, Names, MarkCount, Apart;
    }
    forall k | 0 <= k < |nodes| - p && k != i - p ensures Marks(id)(nodes[p..][k]) == 0 {
      OthersDoNotMention(nodes, f, i, p + k, id);
      hide StandIn, Names, MarkCount, Apart;
    }
  }

  /** Main result on provenance, for every subset of the compressing processors: each node is named
      exactly once, as itself, as replaced or as abstracted, up to the name of its stand-in. Its own id
      is named exactly once unless the node was replaced and its turn distilled after that; then it is
      named nowhere. Protected nodes are named once. */
  lemma EveryNodeIsNamedOnce(nodes: seq<Node>, p: nat, f: Flags, i: nat)
    requires 0 < p < |nodes| && Apart(nodes) && i < |nodes|
    ensures i < p ==> Mentions(Whole(nodes, p, f), StandIn(nodes[i], f).id) == 1
    ensures Mentions(Whole(nodes, p, f), nodes[i].id) == if i < p && Lost(nodes, p, f, i) then 0 else 1
  {
    var n := nodes[i];
    var s := StandIn(n, f);
    StandInNames(n, f);
    assert n.id in Names(n) && n.id != "";
    NameMentions(nodes, p, f, i, n.id);
    NameMentions(nodes, p, f, i, s.id);
    hide StandIn, Whole, Mentions, Names, Heavy, Apart;
  }

  /** Outside the boundaries that Run processes every node stays. */
  lemma IdleKeepsAll(nodes: seq<Node>, p: nat, f: Flags, i: nat)
    requires (p == 0 || |nodes| <= p) && Apart(nodes) && i < |nodes|
    ensures DefaultChain(nodes, p, f) == nodes && Mentions(nodes, nodes[i].id) == 1
  {
    IdleChain(nodes, p, EnabledOf(Defaults(f)));
    var id := nodes[i].id;
    assert id in Names(nodes[i]);
    forall k | 0 <= k < |nodes| && k != i ensures Marks(id)(nodes[k]) == 0 {
      OthersDoNotMention(nodes, f, i, k, id);
    }
    MentionsOfTurn(nodes, id, i, "");
    hide Mentions, Names;
  }

  /** What truncation drops: exactly the first Truncated(nodes, p, f) nodes of the list, with the names
      in them. */
  lemma TruncationDrops(nodes: seq<Node>, p: nat, f: Flags, id: string)
    requires 0 < p < |nodes|
    ensures var whole, k := Whole(nodes, p, f), Truncated(nodes, p, f);
            && k <= |whole| && DefaultChain(nodes, p, f) == whole[k..]
            && Mentions(DefaultChain(nodes, p, f), id) == Mentions(whole, id) - Mentions(whole[..k], id)
  {
    hide *;
    DefaultChainIs(nodes, p, f);
    WholeIs(nodes, p, f);
    var whole, k := Whole(nodes, p, f), Truncated(nodes, p, f);
    assert whole == whole[..k] + whole[k..];
    MentionsOfAppend(whole[..k], whole[k..], id);
  }

  // ---- Order ----

  /** The nodes that a list stands for: a summary for those it abstracts, any other node for itself. */
  function Sources(nodes: seq<Node>): seq<string> {
    if nodes == [] then []
    else
      var last := nodes[|nodes| - 1];
      Sources(nodes[..|nodes| - 1]) + if last.abstractsIDs == [] then [last.id] else last.abstractsIDs
  }

  lemma {:induction false} SourcesOfPlain(nodes: seq<Node>)
    requires forall k :: 0 <= k < |nodes| ==> nodes[k].abstractsIDs == []
    ensures Sources(nodes) == Ids(nodes)
  {
    if nodes != [] {
      var init, last := nodes[..|nodes| - 1], nodes[|nodes| - 1];
      SourcesOfPlain(init);
      assert Ids(nodes) == Ids(init) + [last.id];
    }
  }

  lemma {:induction false} SourcesOfAppend(a: seq<Node>, b: seq<Node>)
    ensures Sources(a + b) == Sources(a) + Sources(b)
  {
    if b == [] {
      assert a + b == a;
    } else {
      var init, last := b[..|b| - 1], b[|b| - 1];
      assert (a + b)[..|a + b| - 1] == a + init && (a + b)[|a + b| - 1] == last;
      SourcesOfAppend(a, init);
      T.Assoc(Sources(a), Sources(init), if last.abstractsIDs == [] then [last.id] else last.abstractsIDs);
    }
  }

  lemma {:induction false} PlainOfTurn(nodes: seq<Node>, turn: string)
    requires forall k :: 0 <= k < |nodes| ==> nodes[k].abstractsIDs == []
    ensures forall k :: 0 <= k < |OfTurn(nodes, turn)| ==> OfTurn(nodes, turn)[k].abstractsIDs == []
  {
    if nodes != [] {
      PlainOfTurn(nodes[..|nodes| - 1], turn);
    }
  }

  /** Within each turn the order is kept: the nodes of the result stand, in order, for the stand-ins
      and the protected nodes of the turn, in the order of the snapshot. */
  lemma OrderWithinTurns(nodes: seq<Node>, p: nat, f: Flags, turn: string)
    requires 0 < p < |nodes| && Apart(nodes)
    ensures Sources(OfTurn(Whole(nodes, p, f), turn))
            == Ids(OfTurn(StandIns(nodes[..p], f), turn)) + Ids(OfTurn(nodes[p..], turn))
  {
    var standins, above := StandIns(nodes[..p], f), nodes[p..];
    forall k | 0 <= k < p ensures standins[k].abstractsIDs == [] {
      StandInNames(nodes[k], f);
    }
    assert forall k :: 0 <= k < |above| ==> above[k] == nodes[p + k];
    PlainOfTurn(standins, turn);
    PlainOfTurn(above, turn);
    SourcesOfPlain(OfTurn(above, turn));
    WholeIs(nodes, p, f);
    assert Below(nodes[..p], f) == if f.distilling then DistillAll(standins) else standins;
    hide Below, DistillAll, Whole, OfTurn, Sources, StandIns;
    OfTurnOfAppend(Below(nodes[..p], f), above, turn);
    SourcesOfAppend(OfTurn(Below(nodes[..p], f), turn), OfTurn(above, turn));
    if f.distilling {
      DistilledSources(standins, turn);
    } else {
      SourcesOfPlain(OfTurn(standins, turn));
    }
  }

  lemma DistilledSources(standins: seq<Node>, turn: string)
    requires forall k :: 0 <= k < |OfTurn(standins, turn)| ==> OfTurn(standins, turn)[k].abstractsIDs == []
    ensures Sources(OfTurn(DistillAll(standins), turn)) == Ids(OfTurn(standins, turn))
  {
    var before, after := OfTurn(standins, turn), OfTurn(DistillAll(standins), turn);
    DistillationPerTurn(standins, turn);
    hide OfTurn, DistillAll, Ids;
    if TotalTokens(before) > DISTILLATION_THRESHOLD {
      assert before != [] && Ids(before) != [];
      assert after[..0] == [] && Sources(after[..0]) == [];
      assert [] + Ids(before) == Ids(before);
    } else {
      SourcesOfPlain(before);
    }
  }

  // ---- A node that nothing names any more ----

  /** The result of a tool with 9000 tokens and a question of 16000 in one turn, under a protected
      turn: the whole chain leaves the id of the tool's result nowhere. */
  lemma NodeLost()
    ensures var x := Node("x", ToolResult, "model", "1", "", 9000, "", []);
            var y := Node("y", Other, "user", "1", "", 16000, "", []);
            var z := Node("z", Other, "user", "2", "", 1, "", []);
            && Apart([x, y, z])
            && Mentions(DefaultChain([x, y, z], 2, Flags(true, true, true, true)), "x") == 0
  {
    var x := Node("x", ToolResult, "model", "1", "", 9000, "", []);
    var y := Node("y", Other, "user", "1", "", 16000, "", []);
    var z := Node("z", Other, "user", "2", "", 1, "", []);
    var nodes, f := [x, y, z], Flags(true, true, true, true);
    FirstLetters(nodes);
    assert nodes[..2] == [x, y] && Replaced(x, f) && !Replaced(y, f);
    HeavyPair(x, y, f);
    assert Lost(nodes, 2, f, 0);
    hide *;
    TruncationDrops(nodes, 2, f, "x");
    EveryNodeIsNamedOnce(nodes, 2, f, 0);
  }

  /** Ids with different first letters, and none with a d, are apart. */
  lemma FirstLetters(nodes: seq<Node>)
    requires forall i :: 0 <= i < |nodes| ==>
               nodes[i].id != "" && nodes[i].id[0] != 'd' && nodes[i].replacesID == "" && nodes[i].abstractsIDs == []
    requires forall i, j :: 0 <= i < |nodes| && 0 <= j < |nodes| && i != j ==> nodes[i].id[0] != nodes[j].id[0]
    ensures Apart(nodes)
  {
    forall i, s | 0 <= i < |nodes| && s in Names(nodes[i]) ensures s != "" && s[0] == nodes[i].id[0] {
    }
    hide Names;
    forall i, j | 0 <= i < |nodes| && 0 <= j < |nodes| ensures "distill-" + nodes[j].turnID !in Names(nodes[i]) {
      assert ("distill-" + nodes[j].turnID)[0] == 'd';
    }
  }

  lemma HeavyPair(x: Node, y: Node, f: Flags)
    requires x.turnID == y.turnID && y.tokenCount > DISTILLATION_THRESHOLD && Replaced(x, f) && !Replaced(y, f)
    requires x.replacesID == "" == y.replacesID && x.abstractsIDs == [] == y.abstractsIDs
    ensures Heavy(StandIns([x, y], f), x.turnID)
  {
    var a := StandIn(x, f);
    StandInNames(x, f);
    StandInNames(y, f);
    StandInTokens(x, f);
    assert StandIns([x, y], f) == [a, y] && AllOfTurn([a, y], x.turnID);
    hide *;
    OfTurnOfPure([a, y], x.turnID, x.turnID);
    assert [a, y] == [a] + [y];
    TotalOfAppend([a], [y]);
    SingleTotal([a]);
    SingleTotal([y]);
    HeavyIf([a, y], x.turnID);
  }

  lemma HeavyIf(nodes: seq<Node>, turn: string)
    requires TotalTokens(OfTurn(nodes, turn)) > DISTILLATION_THRESHOLD
    ensures Heavy(nodes, turn)
  {
  }

  lemma StandInTokens(n: Node, f: Flags)
    ensures Replaced(n, f) ==> StandIn(n, f).tokenCount >= 0
  {
    MaskedTokens(n);
    MaskedStandsFor(n);
    hide TruncatedToolOutput;
  }
}

/** The nodes of an agent's short-term memory (internal/bionic/context/context_node.go), with the
    token estimate (internal/bionic/context/context_manager.go). */
module ContextNodes {
  datatype Kind = ToolResult | RollingSummary | Other

  /** An empty replacesID and no abstractsIDs: the node stands for itself. */
  datatype Node = Node(id: string, kind: Kind, role: string, turnID: string, content: string, tokenCount: int,
                       replacesID: string, abstractsIDs: seq<string>)

  function EstimateTokens(s: string): nat {
    |s| / 4
  }

  function TotalTokens(nodes: seq<Node>): int {
    if nodes == [] then 0 else TotalTokens(nodes[..|nodes| - 1]) + nodes[|nodes| - 1].tokenCount
  }

  lemma {:induction false} TotalOfAppend(a: seq<Node>, b: seq<Node>)
    ensures TotalTokens(a + b) == TotalTokens(a) + TotalTokens(b)
  {
    if b == [] {
      assert a + b == a;
    } else {
      var init, last := b[..|b| - 1], b[|b| - 1];
      TotalOfAppend(a, init);
      assert (a + b)[..|a + b| - 1] == a + init && (a + b)[|a + b| - 1] == last;
    }
  }
}

/** The model runner that keeps a key-value cache position and decodes one token per step
    (ark/infra/llamacpp/runner_cgo.go, over the C calls of bridge.c). The network is an arbitrary
    function from the decoded cells to logits; the C library's outcomes are parameters. */
module LlamaRunner {
  import opened Wrappers
  import opened Utf8Stream

  type Token = int
  type Logits = seq<real>

  /** One entry of the key-value cache. */
  datatype Cell = Cell(pos: nat, token: Token)

  /** The cache after decoding a token list from position 0. */
  function Positioned(tokens: seq<Token>): (cells: seq<Cell>)
    ensures |cells| == |tokens|
    ensures forall i :: 0 <= i < |tokens| ==> cells[i] == Cell(i, tokens[i])
  {
    seq(|tokens|, i requires 0 <= i < |tokens| => Cell(i, tokens[i]))
  }

  lemma PositionedSnoc(tokens: seq<Token>)
    requires tokens != []
    ensures var n := |tokens| - 1;
            Positioned(tokens) == Positioned(tokens[..n]) + [Cell(n, tokens[n])]
  {
  }

  /** i is the first position of the largest logit. */
  predicate IsLowestArgMax(l: Logits, i: int) {
    && 0 <= i < |l|
    && (forall j :: 0 <= j < |l| ==> l[j] <= l[i])
    && (forall j :: 0 <= j < i ==> l[j] < l[i])
  }

  lemma LowestArgMaxUnique(l: Logits, i: int, j: int)
    requires IsLowestArgMax(l, i) && IsLowestArgMax(l, j)
    ensures i == j
  {
    assert l[i] == l[j];
  }

  method ArgMax(l: Logits) returns (bestIdx: Token)
    requires |l| > 0
    ensures IsLowestArgMax(l, bestIdx)
  {
    bestIdx := 0;
    var bestVal := l[0];
    for i := 1 to |l|
      invariant 0 <= bestIdx < i && bestVal == l[bestIdx]
      invariant forall j :: 0 <= j < i ==> l[j] <= bestVal
      invariant forall j :: 0 <= j < bestIdx ==> l[j] < bestVal
    {
      if l[i] > bestVal {
        bestVal := l[i];
        bestIdx := i;
      }
    }
  }

  /** How a call into the C library goes: a refused decode leaves arbitrary cells behind, and the
      logits pointer may be nil after a successful one. */
  datatype Decode = Decoded | Refused(cells: seq<Cell>) | NoLogits

  datatype Error = BackendClosed | EmptyTokens | InvalidMarker | DecodeFailed | LogitsMissing

  datatype Sampled = Sampled(token: Token, piece: Bytes) | SampleError(error: Error)

  datatype Forwarded = Forwarded(logits: map<int, Logits>) | ForwardError(error: Error)

  /** A successful SampleNext call: its argument and its result. */
  datatype Sample = Sample(tokens: seq<Token>, token: Token)

  /** The error of a Forward call, if it has one. */
  function ForwardFailure(closed: bool, tokens: seq<Token>, markers: seq<int>, decode: Decode): Option<Error> {
    if closed then Some(BackendClosed)
    else if exists m :: m in markers && !(0 <= m < |tokens|) then Some(InvalidMarker)
    else if tokens == [] then None
    else if decode.Refused? then Some(DecodeFailed)
    else if decode.NoLogits? && markers != [] then Some(LogitsMissing)
    else None
  }

  /** The error of a SampleNext call, if it has one. */
  function SampleFailure(closed: bool, tokens: seq<Token>, decode: Decode): Option<Error> {
    if closed then Some(BackendClosed)
    else if tokens == [] then Some(EmptyTokens)
    else if decode.Refused? then Some(DecodeFailed)
    else if decode.NoLogits? then Some(LogitsMissing)
    else None
  }

  class Runner {
    const net: seq<Cell> -> Logits
    const vocab: nat
    const pieceOf: Token -> Bytes
    const eos: Token
    var cells: seq<Cell>
    var kvPos: nat
    var closed: bool
    ghost var samples: seq<Sample>

    constructor (net: seq<Cell> -> Logits, vocab: nat, pieceOf: Token -> Bytes, eos: Token)
      ensures this.net == net && this.vocab == vocab && this.pieceOf == pieceOf && this.eos == eos
      ensures cells == [] && kvPos == 0 && !closed && samples == []
    {
      this.net, this.vocab, this.pieceOf, this.eos := net, vocab, pieceOf, eos;
      cells, kvPos, closed, samples := [], 0, false, [];
    }

    /** The model always yields one logit per vocabulary entry. */
    ghost predicate Model() {
      vocab > 0 && forall c: seq<Cell> :: |net(c)| == vocab
    }

    /** The logits of a full forward pass over a token list. */
    function FullPass(tokens: seq<Token>): Logits {
      net(Positioned(tokens))
    }

    /** The cache is empty, or holds exactly all tokens but the last at positions 0, 1, ... */
    ghost predicate Coherent(tokens: seq<Token>)
      reads this
    {
      kvPos == 0 || (kvPos == |tokens| - 1 && cells == Positioned(tokens[..|tokens| - 1]))
    }

    /** Every token ever sampled was the greedy choice of a full forward pass. */
    ghost predicate AllGreedy()
      reads this
    {
      forall s :: s in samples ==> IsLowestArgMax(FullPass(s.tokens), s.token)
    }

    /** A forward pass over a token list with the logits at the marked positions. A causal model's
        logits at position i are those of a pass over the first i + 1 tokens. */
    method Forward(tokens: seq<Token>, markers: seq<int>, decode: Decode) returns (r: Forwarded)
      requires Model()
      modifies this
      ensures closed == old(closed) && samples == old(samples)
      ensures ForwardFailure(closed, tokens, markers, decode) == if r.Forwarded? then None else Some(r.error)
      ensures r.Forwarded? ==>
                && !old(closed)
                && r.logits.Keys == (set m | m in markers)
                && forall m :: m in markers ==> 0 <= m < |tokens| && r.logits[m] == FullPass(tokens[..m + 1])
      ensures old(kvPos) == 0 ==> kvPos == 0
      ensures kvPos == 0 || (kvPos == old(kvPos) && cells == old(cells))
      ensures old(AllGreedy()) ==> AllGreedy()
    {
      if closed {
        return ForwardError(BackendClosed);
      }
      for i := 0 to |markers|
        invariant forall j :: 0 <= j < i ==> 0 <= markers[j] < |tokens|
      {
        if markers[i] < 0 || markers[i] >= |tokens| {
          assert markers[i] in markers;
          return ForwardError(InvalidMarker);
        }
      }
      if |tokens| == 0 {
        return Forwarded(map[]);
      }
      cells, kvPos := [], 0;
      match decode {
        case Refused(junk) =>
          cells := junk;
          return ForwardError(DecodeFailed);
        case NoLogits =>
          cells := Positioned(tokens);
          if |markers| > 0 {
            return ForwardError(LogitsMissing);
          }
        case Decoded =>
          cells := Positioned(tokens);
      }
      var result: map<int, Logits> := map[];
      for i := 0 to |markers|
        invariant result.Keys == set m | m in markers[..i]
        invariant forall m :: m in result ==> 0 <= m < |tokens| && result[m] == FullPass(tokens[..m + 1])
      {
        var m := markers[i];
        assert markers[..i + 1] == markers[..i] + [m];
        result := result[m := net(Positioned(tokens[..m + 1]))];
      }
      assert markers[..|markers|] == markers;
      return Forwarded(result);
    }

    /** Samples the next token: a prefill over the whole list when the cache position is 0,
        otherwise a single decode of the last token at the cache position. */
    method SampleNext(tokens: seq<Token>, decode: Decode) returns (r: Sampled)
      requires Model()
      modifies this
      ensures closed == old(closed)
      ensures SampleFailure(closed, tokens, decode) == if r.Sampled? then None else Some(r.error)
      ensures r.SampleError? ==> samples == old(samples)
      ensures r.Sampled? ==>
                && !closed && decode == Decoded && tokens != []
                && samples == old(samples) + [Sample(tokens, r.token)]
                && r.piece == pieceOf(r.token)
      ensures r.Sampled? && old(Coherent(tokens)) ==>
                && kvPos == |tokens| && cells == Positioned(tokens) && Coherent(tokens + [r.token])
                && IsLowestArgMax(FullPass(tokens), r.token)
      ensures old(AllGreedy()) && (old(closed) || old(Coherent(tokens))) ==> AllGreedy()
      ensures old(closed) ==> kvPos == old(kvPos) && cells == old(cells)
    {
      if closed {
        return SampleError(BackendClosed);
      }
      var n := |tokens|;
      if n == 0 {
        return SampleError(EmptyTokens);
      }
      if decode.Refused? {
        cells := decode.cells;
        return SampleError(DecodeFailed);
      }
      if kvPos == 0 {
        cells := Positioned(tokens);
        kvPos := n;
      } else {
        PositionedSnoc(tokens);
        cells := cells + [Cell(kvPos, tokens[n - 1])];
        kvPos := kvPos + 1;
      }
      if decode.NoLogits? {
        return SampleError(LogitsMissing);
      }
      var best := ArgMax(net(cells));
      samples := samples + [Sample(tokens, best)];
      assert (tokens + [best])[..n] == tokens;
      return Sampled(best, pieceOf(best));
    }

    method ClearKV()
      modifies this
      ensures closed == old(closed) && samples == old(samples)
      ensures if closed then kvPos == old(kvPos) && cells == old(cells) else kvPos == 0 && cells == []
      ensures !closed ==> forall tokens :: Coherent(tokens)
      ensures old(AllGreedy()) ==> AllGreedy()
    {
      if !closed {
        cells, kvPos := [], 0;
      }
    }

    method Close()
      modifies this
      ensures closed && kvPos == old(kvPos) && cells == old(cells) && samples == old(samples)
      ensures old(AllGreedy()) ==> AllGreedy()
    {
      closed := true;
    }
  }
}

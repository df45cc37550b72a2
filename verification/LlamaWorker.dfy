/** The serial inference worker (ark/infra/llamacpp/worker.go): one goroutine takes Forward and
    Generate jobs in turn. The generation loop composes the runner, the UTF-8 buffer and the
    stop-word detector. */
module LlamaWorker {
  import opened Wrappers
  import opened Texts
  import opened Utf8Stream
  import opened StopWords
  import opened LlamaRunner

  /** Why the generation loop ended. */
  datatype Cause = Limit | Cancelled | SampleFailed | EndOfSequence | StopHit

  datatype FinishReason = Length | Cancellation | Stop

  datatype TokenChunk = TextPart(text: Bytes) | ErrorPart | DonePart

  /** What the surroundings do during one iteration of the generation loop: the context may be
      cancelled, the engine may be closed before the call, the decode has its outcome, and the
      cancellation may win over the delivery of the chunk. */
  datatype StepEnv = StepEnv(cancelled: bool, closes: bool, decode: Decode, sendCancelled: bool)

  datatype ForwardJob = ForwardJob(cancelled: bool, given: seq<Token>, blank: bool, tokenized: Option<seq<Token>>,
                                   markers: seq<int>, closes: bool, decode: Decode)

  datatype GenerateJob = GenerateJob(cancelled: bool, blank: bool, tokenized: Option<seq<Token>>, maxTokens: int,
                                     stops: Stops, streaming: bool, env: nat -> StepEnv, closesLate: bool)

  datatype Job = ForwardOf(f: ForwardJob) | GenerateOf(g: GenerateJob)

  // ---- What a generation must return ----

  /** The text of a run: `pieces` are the sampled pieces in order, `hit` tells whether the loop
      ended at a stop word and `flush` whether the held text is released at the end. */
  ghost function GeneratedText(stops: Stops, pieces: seq<Bytes>, eos: bool): Bytes {
    var d := Detect(stops, Feeds(pieces).outs);
    var last := Leftover(stops, pieces);
    if d.stopped || last.stopped || eos then d.emit + last.emit else d.emit + last.emit + last.held
  }

  /** The detector's step on the bytes that the UTF-8 buffer releases when the loop is over. */
  ghost function Leftover(stops: Stops, pieces: seq<Bytes>): Step {
    var d, rest := Detect(stops, Feeds(pieces).outs), Feeds(pieces).held;
    if rest == [] then Step([], d.held, false) else Processed(stops, d.held + rest)
  }

  /** Running the detector over the UTF-8 buffer's outputs is running it over their concatenation. */
  lemma DetectOuts(stops: Stops, pieces: seq<Bytes>)
    requires Clean(stops) && !HasStop(Concat(Feeds(pieces).outs), stops)
    ensures var t := Concat(pieces);
            Detect(stops, Feeds(pieces).outs) == Split(stops, t[..Boundary(t)])
  {
    hide *;
    DetectBeforeStop(stops, Feeds(pieces).outs);
    FeedsDependOnConcat(pieces);
  }

  lemma ProcessedNothing(stops: Stops, t: Bytes)
    requires !HasStop(t, stops)
    ensures Processed(stops, t) == Split(stops, t)
  {
  }

  lemma SplitParts(stops: Stops, t: Bytes)
    ensures Split(stops, t).emit + Split(stops, t).held == t && !Split(stops, t).stopped
    ensures |Split(stops, t).held| == HeldLen(t, stops)
    ensures Split(stops, t).emit == t[..|t| - HeldLen(t, stops)]
  {
    CutRejoins(t, |t| - HeldLen(t, stops));
  }

  /** When the loop ends without a stop word, the leftover step completes one call of the
      detector on everything sampled. */
  lemma LeftoverCompletes(stops: Stops, pieces: seq<Bytes>)
    requires Clean(stops) && !HasStop(Concat(Feeds(pieces).outs), stops)
    ensures var d := Detect(stops, Feeds(pieces).outs);
            !d.stopped && Leftover(stops, pieces).After(d.emit) == Processed(stops, Concat(pieces))
  {
    var t, d := Concat(pieces), Detect(stops, Feeds(pieces).outs);
    var out, rest := t[..Boundary(t)], Feeds(pieces).held;
    hide Index, HeldLen, Cut, Concat, Boundary, Feeds, Detect, HasStop, Processed, Split;
    DetectOuts(stops, pieces);
    FeedsDependOnConcat(pieces);
    CutRejoins(t, Boundary(t));
    SplitParts(stops, out);
    ProcessedFromHeld(out, rest, stops);
    if rest == [] {
      assert out + rest == out == t && d.held + rest == d.held;
      ProcessedNothing(stops, t);
      assert d.emit + [] == d.emit;
    }
  }

  /** Without a stop word and without end-of-sequence, the content is exactly all sampled pieces. */
  lemma ContentIsAllPieces(stops: Stops, pieces: seq<Bytes>)
    requires Clean(stops) && !HasStop(Concat(pieces), stops)
    ensures GeneratedText(stops, pieces, false) == Concat(pieces)
  {
    var t := Concat(pieces);
    OutsHaveNoStop(stops, pieces);
    LeftoverCompletes(stops, pieces);
    hide Index, HeldLen, Cut, Concat, Boundary, Feeds, Detect, HasStop, Leftover;
    SplitParts(stops, t);
    ProcessedNothing(stops, t);
  }

  lemma OutsHaveNoStop(stops: Stops, pieces: seq<Bytes>)
    requires !HasStop(Concat(pieces), stops)
    ensures !HasStop(Concat(Feeds(pieces).outs), stops)
  {
    var t := Concat(pieces);
    var out := Concat(Feeds(pieces).outs);
    hide *;
    FeedsDependOnConcat(pieces);
    CutRejoins(t, Boundary(t));
    if HasStop(out, stops) {
      HasStopGrows(out, t[Boundary(t)..], stops);
    }
  }

  /** At end-of-sequence the held text is dropped: the content is everything sampled exactly when
      no non-empty suffix of it is a proper prefix of a stop word. */
  lemma ContentAtEndOfSequence(stops: Stops, pieces: seq<Bytes>)
    requires Clean(stops) && !HasStop(Concat(pieces), stops)
    ensures var t := Concat(pieces); GeneratedText(stops, pieces, true) == t[..|t| - HeldLen(t, stops)]
    ensures GeneratedText(stops, pieces, true) == Concat(pieces)
            <==> forall n: nat :: 0 < n <= |Concat(pieces)| ==> !StartsSome(Tail(Concat(pieces), n), stops)
  {
    var t := Concat(pieces);
    OutsHaveNoStop(stops, pieces);
    LeftoverCompletes(stops, pieces);
    hide Index, HeldLen, Cut, Concat, Boundary, Feeds, Detect, HasStop, Leftover, StartsSome;
    SplitParts(stops, t);
    ProcessedNothing(stops, t);
    HeldLenIs(t, stops);
    assert |GeneratedText(stops, pieces, true)| == |t| - HeldLen(t, stops);
    assert HeldLen(t, stops) == 0 ==> t[..|t|] == t;
  }

  /** A stop word completed only by the bytes flushed at the end cuts the text like any other. */
  lemma ContentCutAtFlush(stops: Stops, pieces: seq<Bytes>, eos: bool)
    requires Clean(stops) && HasStop(Concat(pieces), stops) && !HasStop(Concat(Feeds(pieces).outs), stops)
    ensures var t := Concat(pieces); GeneratedText(stops, pieces, eos) == t[..Cut(t, stops)]
  {
    LeftoverCompletes(stops, pieces);
    hide Index, HeldLen, Cut, Concat, Boundary, Feeds, Detect, HasStop, Leftover;
  }

  /** When the last piece completes a stop word, the content is the text released so far up to
      the cut, followed by what the detector makes of the incomplete bytes left behind. */
  lemma ContentAtStop(stops: Stops, pieces: seq<Bytes>, eos: bool)
    requires Clean(stops) && pieces != [] && HasStop(Concat(Feeds(pieces).outs), stops)
    requires !HasStop(Concat(Feeds(pieces[..|pieces| - 1]).outs), stops)
    ensures var t, rest := Concat(pieces), Feeds(pieces).held;
            var out := t[..Boundary(t)];
            GeneratedText(stops, pieces, eos)
            == out[..Cut(out, stops)] + if rest == [] then [] else Processed(stops, rest).emit
  {
    var outs, n := Feeds(pieces).outs, |pieces| - 1;
    FeedsLength(pieces);
    hide Index, HeldLen, Cut, Concat, Boundary, Feeds, Detect, HasStop, Processed, GeneratedText;
    assert outs[..n + 1] == outs;
    FeedsDependOnConcat(pieces);
    DetectAtStop(stops, outs, n);
    GeneratedAfterStop(stops, pieces, eos);
  }

  /** Nothing is appended after the cut exactly when there are no incomplete bytes, or all of them
      could begin a stop word, or they begin with one. */
  lemma ContentAtStopIff(stops: Stops, pieces: seq<Bytes>, eos: bool)
    requires Clean(stops) && pieces != [] && HasStop(Concat(Feeds(pieces).outs), stops)
    requires !HasStop(Concat(Feeds(pieces[..|pieces| - 1]).outs), stops)
    ensures var t, rest := Concat(pieces), Feeds(pieces).held;
            var out := t[..Boundary(t)];
            GeneratedText(stops, pieces, eos) == out[..Cut(out, stops)]
            <==> rest == [] || (if HasStop(rest, stops) then Cut(rest, stops) == 0 else HeldLen(rest, stops) == |rest|)
  {
    ContentAtStop(stops, pieces, eos);
    var out, rest := Concat(pieces)[..Boundary(Concat(pieces))], Feeds(pieces).held;
    EmitIsEmptyIff(stops, rest);
    hide *;
    NothingAppendedIff(out[..Cut(out, stops)], if rest == [] then [] else Processed(stops, rest).emit);
  }

  lemma EmitIsEmptyIff(stops: Stops, t: Bytes)
    ensures Processed(stops, t).emit == []
            <==> if HasStop(t, stops) then Cut(t, stops) == 0 else HeldLen(t, stops) == |t|
  {
    hide HasStop, Cut, HeldLen;
  }

  lemma NothingAppendedIff(a: Bytes, b: Bytes)
    ensures a + b == a <==> b == []
  {
    if a + b == a {
      assert |a + b| == |a| + |b|;
    }
  }

  /** An input on which a byte is appended: a stop word of one byte, followed by the first byte of a
      two-byte character. */
  lemma ByteAppendedAfterStop(eos: bool)
    ensures var stops: Stops, pieces: seq<Bytes> := [[0x61]], [[0x61, 0xC3]];
            && HasStop(Concat(Feeds(pieces).outs), stops) && Feeds(pieces).held == [0xC3]
            && GeneratedText(stops, pieces, eos) == [0xC3]
  {
    var stop: Bytes, rest: Bytes := [0x61], [0xC3];
    var stops: Stops, pieces: seq<Bytes> := [stop], [stop + rest];
    assert stop + rest == [0x61, 0xC3] && Concat(pieces) == stop + rest;
    FeedsDependOnConcat(pieces);
    OneUnit(stop, rest);
    assert pieces[..0] == [];
    StopAlone(stop, rest);
    NoStopInNothing(stops);
    NothingFed();
    hide Feeds, Boundary, HasStop, Cut, Processed, GeneratedText;
    ContentAtStop(stops, pieces, eos);
  }

  lemma NothingFed()
    ensures var none: seq<Bytes> := []; Concat(Feeds(none).outs) == []
  {
  }

  lemma OneUnit(stop: Bytes, rest: Bytes)
    requires stop == [0x61] && rest == [0xC3]
    ensures Boundary(stop + rest) == 1 && (stop + rest)[..1] == stop && (stop + rest)[1..] == rest
  {
    BoundaryStep(stop + rest);
    BoundaryStep(rest);
  }

  lemma StopAlone(stop: Bytes, rest: Bytes)
    requires stop == [0x61] && rest == [0xC3]
    ensures Clean([stop]) && HasStop(stop, [stop]) && Cut(stop, [stop]) == 0 && Processed([stop], rest).emit == rest
  {
    hide *;
    StopItself(stop);
    NoStopInRest(stop, rest);
  }

  lemma StopItself(stop: Bytes)
    requires |stop| == 1
    ensures Clean([stop]) && HasStop(stop, [stop]) && Cut(stop, [stop]) == 0
  {
    assert stop[0..1] == stop && OccursAt(stop, stop, 0);
    FirstIsIndex(stop, stop, 0);
    hide Index, OccursAt;
    assert IsFirstListed(stop, [stop], 0);
    CutIs(stop, [stop], 0);
    hide Cut;
  }

  lemma NoStopInRest(stop: Bytes, rest: Bytes)
    requires stop == [0x61] && rest == [0xC3]
    ensures Processed([stop], rest).emit == rest
  {
    NotIn(stop, rest);
    NothingHeld(stop, rest);
    hide Index, HeldLen, Cut;
    assert rest[..1] == rest;
  }

  lemma NotIn(stop: Bytes, rest: Bytes)
    requires stop == [0x61] && rest == [0xC3]
    ensures !HasStop(rest, [stop])
  {
    assert rest[0..1] == rest && rest[0] != stop[0];
    assert !OccursAt(rest, stop, 0);
    IndexIsFirst(rest, stop);
    hide Index;
  }

  /** A stop word of one byte has no proper prefix but the empty one. */
  lemma NothingHeld(stop: Bytes, rest: Bytes)
    requires |stop| == 1 == |rest|
    ensures HeldLen(rest, [stop]) == 0
  {
    assert |Tail(rest, 1)| == 1;
    assert !StartsSome(Tail(rest, 1), [stop]);
    HeldLenUnique(rest, [stop], 0);
  }

  lemma GeneratedAfterStop(stops: Stops, pieces: seq<Bytes>, eos: bool)
    requires var d := Detect(stops, Feeds(pieces).outs); d.stopped && d.held == []
    ensures var rest := Feeds(pieces).held;
            GeneratedText(stops, pieces, eos)
            == Detect(stops, Feeds(pieces).outs).emit + if rest == [] then [] else Processed(stops, rest).emit
  {
    hide Processed, Detect, Feeds;
    var rest := Feeds(pieces).held;
    assert [] + rest == rest;
  }

  lemma {:induction false} FeedsLength(pieces: seq<Bytes>)
    ensures |Feeds(pieces).outs| == |pieces|
    ensures pieces != [] ==> Feeds(pieces).outs[..|pieces| - 1] == Feeds(pieces[..|pieces| - 1]).outs
  {
    if pieces != [] {
      FeedsLength(pieces[..|pieces| - 1]);
    }
  }

  // ---- The worker ----

  datatype GenerateResponse =
    | Response(content: Bytes, promptTokens: nat, completionTokens: nat, finishReason: FinishReason)
    | GenerateFailed

  /** What a finished loop leaves behind: the sampled pieces and how it ended. `undelivered` tells
      that some chunk was not sent because the context was cancelled. */
  datatype Trace = Trace(pieces: seq<Bytes>, cause: Cause, undelivered: bool)

  function StreamText(chunks: seq<TokenChunk>): Bytes {
    if chunks == [] then []
    else StreamText(chunks[..|chunks| - 1])
         + if chunks[|chunks| - 1].TextPart? then chunks[|chunks| - 1].text else []
  }

  /** The chunks of a stream that carry no text. */
  function Marks(chunks: seq<TokenChunk>): seq<TokenChunk> {
    if chunks == [] then []
    else
      var last := chunks[|chunks| - 1];
      Marks(chunks[..|chunks| - 1]) + if last.TextPart? then [] else [last]
  }

  lemma MarksSnoc(chunks: seq<TokenChunk>, c: TokenChunk)
    ensures Marks(chunks + [c]) == if c.TextPart? then Marks(chunks) else Marks(chunks) + [c]
  {
    assert (chunks + [c])[..|chunks|] == chunks;
  }

  lemma StreamTextSnoc(chunks: seq<TokenChunk>, c: TokenChunk)
    ensures StreamText(chunks + [c]) == StreamText(chunks) + if c.TextPart? then c.text else []
  {
    assert (chunks + [c])[..|chunks|] == chunks;
  }

  function Limited(maxTokens: int): nat {
    if maxTokens <= 0 then 128 else maxTokens
  }

  lemma LimitedIs(maxTokens: int)
    ensures Limited(maxTokens) == if maxTokens > 0 then maxTokens else 128
  {
  }

  /** The consumer side of one generation: accumulated content, and the stream if there is one. */
  class Output {
    const streaming: bool
    var content: Bytes
    var chunks: seq<TokenChunk>
    var undelivered: bool

    constructor (streaming: bool)
      ensures this.streaming == streaming && content == [] && chunks == [] && !undelivered && Faithful()
      ensures Marks(chunks) == []
    {
      this.streaming := streaming;
      content, chunks, undelivered := [], [], false;
    }

    /** Every uncancelled stream delivers exactly the content. */
    ghost predicate Faithful()
      reads this
    {
      && (streaming && !undelivered ==> StreamText(chunks) == content)
      && (!streaming ==> chunks == [])
    }

    lemma FaithfulStream()
      requires Faithful() && streaming && !undelivered
      ensures StreamText(chunks) == content
    {
    }

    lemma Silent()
      requires Faithful() && !streaming
      ensures chunks == []
    {
    }

    method Emit(text: Bytes, sendCancelled: bool)
      requires Faithful()
      modifies this
      ensures Faithful() && content == old(content) + text
      ensures undelivered == (old(undelivered) || (text != [] && streaming && sendCancelled))
      ensures Marks(chunks) == old(Marks(chunks))
    {
      assert content + [] == content;
      if text != [] {
        content := content + text;
        if streaming {
          if sendCancelled {
            undelivered := true;
          } else {
            StreamTextSnoc(chunks, TextPart(text));
            MarksSnoc(chunks, TextPart(text));
            chunks := chunks + [TextPart(text)];
          }
        }
      }
    }

    method Mark(c: TokenChunk)
      requires Faithful() && !c.TextPart?
      modifies this
      ensures Faithful() && content == old(content) && undelivered == old(undelivered)
      ensures chunks == if streaming then old(chunks) + [c] else old(chunks)
      ensures Marks(chunks) == if streaming then old(Marks(chunks)) + [c] else old(Marks(chunks))
    {
      if streaming {
        MarksSnoc(chunks, c);
        StreamTextSnoc(chunks, c);
        assert StreamText(chunks) + [] == StreamText(chunks);
        chunks := chunks + [c];
      }
    }
  }

  /** One sampled piece through the UTF-8 buffer and the detector. */
  method Absorb(utf8: UTF8StreamBuffer, detector: StopDetector, out: Output, piece: Bytes, sendCancelled: bool,
                ghost pieces: seq<Bytes>) returns (stopped: bool)
    requires out.Faithful() && Clean(detector.stops)
    requires utf8.buf == Feeds(pieces).held
    requires Detect(detector.stops, Feeds(pieces).outs) == Step(out.content, detector.buf, false)
    modifies utf8, detector, out
    ensures out.Faithful() && (old(out.undelivered) ==> out.undelivered)
    ensures out.undelivered && !old(out.undelivered) ==> out.streaming && sendCancelled
    ensures Marks(out.chunks) == old(Marks(out.chunks))
    ensures utf8.buf == Feeds(pieces + [piece]).held
    ensures Detect(detector.stops, Feeds(pieces + [piece]).outs) == Step(out.content, detector.buf, stopped)
  {
    ghost var earlier, stops, content, held := Feeds(pieces).outs, detector.stops, out.content, detector.buf;
    FeedsSnoc(pieces, piece);
    hide *;
    var cleanText := utf8.Feed(piece);
    DetectSnoc(stops, earlier, cleanText);
    stopped := false;
    if cleanText != [] {
      var safeToEmit;
      safeToEmit, stopped := detector.Process(cleanText);
      out.Emit(safeToEmit, sendCancelled);
    } else {
      DetectEmptyChunk(stops, earlier);
    }
  }

  lemma FeedsSnoc(pieces: seq<Bytes>, piece: Bytes)
    ensures var pending := Feeds(pieces).held + piece;
            Feeds(pieces + [piece])
                == Fed(Feeds(pieces).outs + [pending[..Boundary(pending)]], pending[Boundary(pending)..])
  {
    assert (pieces + [piece])[..|pieces|] == pieces;
  }

  lemma DetectSnoc(stops: Stops, chunks: seq<Bytes>, c: Bytes)
    requires !Detect(stops, chunks).stopped
    ensures Detect(stops, chunks + [c])
            == Processed(stops, Detect(stops, chunks).held + c).After(Detect(stops, chunks).emit)
    ensures forall r: Step :: r.After([]) == r
  {
    assert (chunks + [c])[..|chunks|] == chunks;
  }

  lemma DetectEmptyChunk(stops: Stops, chunks: seq<Bytes>)
    requires Clean(stops) && !Detect(stops, chunks).stopped
    ensures Detect(stops, chunks + [[]]) == Detect(stops, chunks)
  {
    hide *;
    DetectorRun(stops, chunks);
    ConcatSnoc(chunks, []);
    assert Concat(chunks) + [] == Concat(chunks);
    DetectBeforeStop(stops, chunks);
    DetectBeforeStop(stops, chunks + [[]]);
  }

  // ---- The generation loop ----

  /** The samples of one generation: each call's token list is the prompt followed by the tokens
      sampled before it. */
  ghost predicate IsLog(prompt: seq<Token>, log: seq<Sample>, next: seq<Token>) {
    && (forall k :: 0 <= k < |log| ==>
       log[k].tokens == if k == 0 then prompt else log[k - 1].tokens + [log[k - 1].token])
    && next == if log == [] then prompt else log[|log| - 1].tokens + [log[|log| - 1].token]
  }

  /** The pieces are those of the sampled tokens, none of which ends the sequence. */
  ghost predicate PiecesOf(runner: Runner, log: seq<Sample>, pieces: seq<Bytes>) {
    && |pieces| == |log|
    && forall k :: 0 <= k < |log| ==> pieces[k] == runner.pieceOf(log[k].token) && !EndsSequence(runner, log[k].token)
  }

  ghost predicate EndsSequence(runner: Runner, token: Token) {
    runner.eos >= 0 && token == runner.eos
  }

  /** The first n iterations each sampled a token: the context was not cancelled, the engine open, and
      the decode succeeded. */
  ghost predicate Sampling(env: nat -> StepEnv, n: nat, wasClosed: bool) {
    && (n > 0 ==> !wasClosed)
    && forall k: nat :: k < n ==> !env(k).cancelled && !env(k).closes && env(k).decode == Decoded
  }

  /** How a loop ends, by what its surroundings do in the iteration after the sampled pieces. */
  ghost predicate EndsAs(trace: Trace, env: nat -> StepEnv, limit: nat, prompt: seq<Token>, wasClosed: bool) {
    var n := |trace.pieces|;
    && Sampling(env, n, wasClosed)
    && (trace.cause == Limit ==> n == limit)
    && (trace.cause == StopHit ==> 0 < n <= limit)
    && (trace.cause == Cancelled ==> n < limit && env(n).cancelled)
    && (trace.cause == EndOfSequence ==>
          && n < limit && !env(n).cancelled
          && !wasClosed && !env(n).closes && prompt != [] && env(n).decode == Decoded)
    && (trace.cause == SampleFailed ==>
          && n < limit && !env(n).cancelled
          && (wasClosed || env(n).closes || prompt == [] || env(n).decode != Decoded))
  }

  /** A chunk can only be lost to a cancellation during its delivery. */
  ghost predicate LostBy(env: nat -> StepEnv, n: nat, streaming: bool) {
    streaming && exists k: nat :: k < n && env(k).sendCancelled
  }

  /** With a context that is never cancelled, an open engine, a prompt and decodes that succeed, a loop
      ends by the limit, the end of the sequence, or a stop word. */
  lemma EndsWell(trace: Trace, env: nat -> StepEnv, limit: nat, prompt: seq<Token>)
    requires EndsAs(trace, env, limit, prompt, false) && prompt != []
    requires forall k :: !env(k).cancelled && !env(k).closes && env(k).decode == Decoded
    ensures trace.cause == Limit || trace.cause == EndOfSequence || trace.cause == StopHit
  {
  }

  lemma FailureMeans(closed: bool, tokens: seq<Token>, decode: Decode)
    ensures SampleFailure(closed, tokens, decode) == None <==> !closed && tokens != [] && decode == Decoded
  {
  }

  lemma EndIs(trace: Trace, env: nat -> StepEnv, limit: nat, prompt: seq<Token>, wasClosed: bool)
    requires var n := |trace.pieces|;
             && Sampling(env, n, wasClosed)
             && match trace.cause
                case Limit => n == limit
                case StopHit => 0 < n <= limit
                case Cancelled => n < limit && env(n).cancelled
                case EndOfSequence =>
                  && n < limit && !env(n).cancelled
                  && !wasClosed && !env(n).closes && prompt != [] && env(n).decode == Decoded
                case SampleFailed =>
                  && n < limit && !env(n).cancelled
                  && (wasClosed || env(n).closes || prompt == [] || env(n).decode != Decoded)
    ensures EndsAs(trace, env, limit, prompt, wasClosed)
  {
    hide Sampling;
  }

  lemma NoneSampled(env: nat -> StepEnv, wasClosed: bool)
    ensures Sampling(env, 0, wasClosed)
  {
  }

  lemma OneMoreSampled(env: nat -> StepEnv, n: nat, wasClosed: bool)
    requires Sampling(env, n, wasClosed) && !wasClosed
    requires !env(n).cancelled && !env(n).closes && env(n).decode == Decoded
    ensures Sampling(env, n + 1, wasClosed)
  {
  }

  lemma LostStep(env: nat -> StepEnv, n: nat, streaming: bool)
    ensures streaming && env(n).sendCancelled ==> LostBy(env, n + 1, streaming)
    ensures LostBy(env, n, streaming) ==> LostBy(env, n + 1, streaming)
  {
  }

  /** Both buffers and the output after some pieces. */
  ghost predicate Aligned(utf8: UTF8StreamBuffer, detector: StopDetector, out: Output, pieces: seq<Bytes>,
                          stopped: bool)
    reads utf8, detector, out
  {
    && out.Faithful() && Clean(detector.stops) && utf8.buf == Feeds(pieces).held
    && Detect(detector.stops, Feeds(pieces).outs) == Step(out.content, detector.buf, stopped)
  }

  lemma AlignedStops(utf8: UTF8StreamBuffer, detector: StopDetector, out: Output, pieces: seq<Bytes>, stopped: bool)
    requires Aligned(utf8, detector, out, pieces, stopped)
    ensures Clean(detector.stops) && Detect(detector.stops, Feeds(pieces).outs).stopped == stopped
  {
  }

  lemma AlignedAtFirst(utf8: UTF8StreamBuffer, detector: StopDetector, out: Output)
    requires out.Faithful() && out.content == [] && Clean(detector.stops) && utf8.buf == [] && detector.buf == []
    ensures Aligned(utf8, detector, out, [], false)
  {
    NothingYet(detector.stops);
  }

  /** What one iteration comes to once its context is not cancelled. */
  datatype Iteration = Failed | Ended(token: Token) | Went(token: Token, piece: Bytes, stopped: bool)

  /** One iteration of the loop: the engine may be closed before the call; a sampled token either ends
      the sequence or goes through both buffers. */
  method Iterate(runner: Runner, utf8: UTF8StreamBuffer, detector: StopDetector, out: Output, tokens: seq<Token>,
                 e: StepEnv, ghost pieces: seq<Bytes>) returns (it: Iteration)
    requires runner.Model() && runner.AllGreedy() && (runner.closed || runner.Coherent(tokens))
    requires Aligned(utf8, detector, out, pieces, false)
    modifies runner, utf8, detector, out
    ensures runner.Model() && runner.AllGreedy()
    ensures it.Failed? <==> old(runner.closed) || e.closes || tokens == [] || e.decode != Decoded
    ensures it.Failed? ==> runner.samples == old(runner.samples)
    ensures !it.Failed? ==>
              && !runner.closed && runner.Coherent(tokens + [it.token])
              && runner.samples == old(runner.samples) + [Sample(tokens, it.token)]
              && (it.Ended? <==> EndsSequence(runner, it.token))
    ensures it.Went? ==> it.piece == runner.pieceOf(it.token)
    ensures if it.Went? then Aligned(utf8, detector, out, pieces + [it.piece], it.stopped)
            else Aligned(utf8, detector, out, pieces, false)
    ensures old(out.undelivered) ==> out.undelivered
    ensures out.undelivered && !old(out.undelivered) ==> it.Went? && out.streaming && e.sendCancelled
    ensures Marks(out.chunks) == old(Marks(out.chunks)) + if it.Failed? && out.streaming then [ErrorPart] else []
  {
    EndsIf(runner);
    hide EndsSequence, Marks, Feeds, Detect, SampleFailure, IsLowestArgMax, Positioned;
    if e.closes {
      runner.Close();
    }
    FailureMeans(runner.closed, tokens, e.decode);
    var r := runner.SampleNext(tokens, e.decode);
    if r.SampleError? {
      out.Mark(ErrorPart);
      return Failed;
    }
    if runner.eos >= 0 && r.token == runner.eos {
      return Ended(r.token);
    }
    var stopped := Absorb(utf8, detector, out, r.piece, e.sendCancelled, pieces);
    it := Went(r.token, r.piece, stopped);
  }

  lemma EndsIf(runner: Runner)
    ensures forall token :: EndsSequence(runner, token) <==> runner.eos >= 0 && token == runner.eos
  {
  }

  /** The samples of a loop: their lists grow from the prompt by the sampled tokens, whose pieces are
      those of the trace; after a token that ends the sequence there is no piece. */
  ghost predicate LogFits(runner: Runner, prompt: seq<Token>, log: seq<Sample>, trace: Trace) {
    var n := |trace.pieces|;
    && |log| == n + (if trace.cause == EndOfSequence then 1 else 0)
    && PiecesOf(runner, log[..n], trace.pieces)
    && (exists next :: IsLog(prompt, log, next))
    && (trace.cause == EndOfSequence ==> EndsSequence(runner, log[n].token))
  }

  /** What the loop knows about its samples after some iterations. */
  ghost predicate Logged(runner: Runner, env: nat -> StepEnv, prompt: seq<Token>, tokens: seq<Token>,
                         log: seq<Sample>, pieces: seq<Bytes>, wasClosed: bool) {
    && |pieces| == |log| && PiecesOf(runner, log, pieces) && IsLog(prompt, log, tokens)
    && Sampling(env, |pieces|, wasClosed) && (tokens == [] <==> prompt == [])
  }

  lemma NothingLogged(runner: Runner, env: nat -> StepEnv, prompt: seq<Token>, wasClosed: bool)
    ensures Logged(runner, env, prompt, prompt, [], [], wasClosed)
  {
  }

  lemma LogNext(runner: Runner, env: nat -> StepEnv, prompt: seq<Token>, tokens: seq<Token>, log: seq<Sample>,
                pieces: seq<Bytes>, wasClosed: bool, token: Token)
    requires Logged(runner, env, prompt, tokens, log, pieces, wasClosed) && !EndsSequence(runner, token)
    requires tokens != [] && !wasClosed
    requires var e := env(|pieces|); !e.cancelled && !e.closes && e.decode == Decoded
    ensures Logged(runner, env, prompt, tokens + [token], log + [Sample(tokens, token)],
                   pieces + [runner.pieceOf(token)], wasClosed)
  {
    LogGrows(runner, prompt, log, tokens, token, pieces);
    OneMoreSampled(env, |pieces|, wasClosed);
    hide PiecesOf, IsLog, Sampling;
  }

  /** The ends of a loop at which no further token was sampled. */
  lemma LogEnds(runner: Runner, env: nat -> StepEnv, prompt: seq<Token>, tokens: seq<Token>, log: seq<Sample>,
                trace: Trace, wasClosed: bool, limit: nat)
    requires Logged(runner, env, prompt, tokens, log, trace.pieces, wasClosed)
    requires var n := |trace.pieces|;
             match trace.cause
             case Limit => n == limit
             case StopHit => 0 < n <= limit
             case Cancelled => n < limit && env(n).cancelled
             case EndOfSequence => false
             case SampleFailed =>
               && n < limit && !env(n).cancelled
               && (wasClosed || env(n).closes || prompt == [] || env(n).decode != Decoded)
    ensures LogFits(runner, prompt, log, trace) && EndsAs(trace, env, limit, prompt, wasClosed)
  {
    assert log[..|log|] == log;
    EndIs(trace, env, limit, prompt, wasClosed);
    hide PiecesOf, IsLog, Sampling, EndsAs;
  }

  /** The end of the sequence. */
  lemma LogEnded(runner: Runner, env: nat -> StepEnv, prompt: seq<Token>, tokens: seq<Token>, log: seq<Sample>,
                 trace: Trace, wasClosed: bool, limit: nat, token: Token)
    requires Logged(runner, env, prompt, tokens, log, trace.pieces, wasClosed) && EndsSequence(runner, token)
    requires trace.cause == EndOfSequence && |trace.pieces| < limit && tokens != [] && !wasClosed
    requires var e := env(|trace.pieces|); !e.cancelled && !e.closes && e.decode == Decoded
    ensures LogFits(runner, prompt, log + [Sample(tokens, token)], trace)
    ensures EndsAs(trace, env, limit, prompt, wasClosed)
  {
    LogGrows(runner, prompt, log, tokens, token, trace.pieces);
    InitAndLast(log, Sample(tokens, token));
    EndIs(trace, env, limit, prompt, wasClosed);
    hide PiecesOf, IsLog, Sampling, EndsAs;
  }

  method SampleLoop(runner: Runner, utf8: UTF8StreamBuffer, detector: StopDetector, out: Output,
                    prompt: seq<Token>, maxTokens: nat, env: nat -> StepEnv)
    returns (trace: Trace, finishReason: FinishReason, completionTokens: nat, ghost log: seq<Sample>)
    requires runner.Model() && runner.AllGreedy() && (runner.closed || runner.Coherent(prompt))
    requires Aligned(utf8, detector, out, [], false) && !out.undelivered && Marks(out.chunks) == []
    modifies runner, utf8, detector, out
    ensures runner.Model() && runner.AllGreedy() && trace.undelivered == out.undelivered
    ensures Aligned(utf8, detector, out, trace.pieces, trace.cause == StopHit)
    ensures trace.cause == StopHit ==>
              trace.pieces != [] && !Detect(detector.stops, Feeds(trace.pieces[..|trace.pieces| - 1]).outs).stopped
    ensures completionTokens == |trace.pieces| <= maxTokens
    ensures finishReason == Stop <==> trace.cause == StopHit || trace.cause == EndOfSequence
    ensures finishReason == Cancellation <==>
              trace.cause == Cancelled || (out.undelivered && trace.cause != StopHit && trace.cause != EndOfSequence)
    ensures EndsAs(trace, env, maxTokens, prompt, old(runner.closed))
    ensures out.undelivered ==> LostBy(env, |trace.pieces|, out.streaming)
    ensures Marks(out.chunks) == if out.streaming && trace.cause == SampleFailed then [ErrorPart] else []
    ensures runner.samples == old(runner.samples) + log && LogFits(runner, prompt, log, trace)
  {
    hide *;
    var tokens := prompt;
    var pieces: seq<Bytes> := [];
    log := [];
    finishReason := Length;
    completionTokens := 0;
    ghost var before, wasClosed := runner.samples, runner.closed;
    NothingLogged(runner, env, prompt, wasClosed);
    while completionTokens < maxTokens
      invariant runner.Model() && runner.AllGreedy() && (runner.closed || runner.Coherent(tokens))
      invariant Aligned(utf8, detector, out, pieces, false) && Marks(out.chunks) == []
      invariant completionTokens == |pieces| <= maxTokens
      invariant Logged(runner, env, prompt, tokens, log, pieces, wasClosed) && runner.samples == before + log
      invariant finishReason == if out.undelivered then Cancellation else Length
      invariant runner.closed == (completionTokens == 0 && wasClosed)
      invariant completionTokens > 0 ==> !wasClosed
      invariant tokens == [] <==> prompt == []
      invariant out.undelivered ==> LostBy(env, completionTokens, out.streaming)
    {
      var e := env(completionTokens);
      if e.cancelled {
        trace, finishReason := Trace(pieces, Cancelled, out.undelivered), Cancellation;
        LogEnds(runner, env, prompt, tokens, log, trace, wasClosed, maxTokens);
        return;
      }
      AlignedStops(utf8, detector, out, pieces, false);
      var it := Iterate(runner, utf8, detector, out, tokens, e, pieces);
      if it.Failed? {
        trace := Trace(pieces, SampleFailed, out.undelivered);
        LogEnds(runner, env, prompt, tokens, log, trace, wasClosed, maxTokens);
        return;
      }
      Assoc(before, log, [Sample(tokens, it.token)]);
      if it.Ended? {
        trace, finishReason := Trace(pieces, EndOfSequence, out.undelivered), Stop;
        LogEnded(runner, env, prompt, tokens, log, trace, wasClosed, maxTokens, it.token);
        log := log + [Sample(tokens, it.token)];
        return;
      }
      LogNext(runner, env, prompt, tokens, log, pieces, wasClosed, it.token);
      LostStep(env, completionTokens, out.streaming);
      InitAndLast(pieces, it.piece);
      log := log + [Sample(tokens, it.token)];
      tokens, pieces, completionTokens := tokens + [it.token], pieces + [it.piece], completionTokens + 1;
      if out.undelivered {
        finishReason := Cancellation;
      }
      if it.stopped {
        trace, finishReason := Trace(pieces, StopHit, out.undelivered), Stop;
        LogEnds(runner, env, prompt, tokens, log, trace, wasClosed, maxTokens);
        return;
      }
    }
    trace := Trace(pieces, Limit, out.undelivered);
    LogEnds(runner, env, prompt, tokens, log, trace, wasClosed, maxTokens);
  }

  lemma NothingYet(stops: Stops)
    ensures Feeds([]) == Fed([], []) && Detect(stops, []) == Step([], [], false)
  {
  }

  lemma LogStarts(runner: Runner, prompt: seq<Token>)
    ensures IsLog(prompt, [], prompt) && PiecesOf(runner, [], [])
  {
  }

  lemma LogGrows(runner: Runner, prompt: seq<Token>, log: seq<Sample>, tokens: seq<Token>, token: Token,
      pieces: seq<Bytes>)
    requires IsLog(prompt, log, tokens) && PiecesOf(runner, log, pieces)
    ensures var next := log + [Sample(tokens, token)];
            && IsLog(prompt, next, tokens + [token])
            && next[..|pieces|] == log && next[..|pieces| + 1] == next
            && (if runner.eos >= 0 && token == runner.eos then EndsSequence(runner, token)
                else PiecesOf(runner, next, pieces + [runner.pieceOf(token)]))
  {
  }

  /** What the returned content is, for every way a generation can end. */
  ghost predicate ContentIs(stops: Stops, trace: Trace, finishReason: FinishReason, content: Bytes) {
    var t := Concat(trace.pieces);
    var out, rest := t[..Boundary(t)], t[Boundary(t)..];
    && (finishReason != Stop ==> content == t)
    && (trace.cause == EndOfSequence && !HasStop(t, stops) ==> content == t[..|t| - HeldLen(t, stops)])
    && (trace.cause != StopHit && HasStop(t, stops) ==> content == t[..Cut(t, stops)])
    && (trace.cause == StopHit ==>
          content == out[..Cut(out, stops)] + if rest == [] then [] else Processed(stops, rest).emit)
    && (finishReason == Stop <==> trace.cause == EndOfSequence || trace.cause == StopHit || HasStop(t, stops))
  }

  lemma GeneratedTextMeans(stops: Stops, trace: Trace, finishReason: FinishReason)
    requires Clean(stops)
    requires trace.cause == StopHit <==> Detect(stops, Feeds(trace.pieces).outs).stopped
    requires trace.cause == StopHit ==>
               trace.pieces != [] && !Detect(stops, Feeds(trace.pieces[..|trace.pieces| - 1]).outs).stopped
    requires finishReason == Stop <==>
               trace.cause == StopHit || trace.cause == EndOfSequence || Leftover(stops, trace.pieces).stopped
    ensures ContentIs(stops, trace, finishReason, GeneratedText(stops, trace.pieces, trace.cause == EndOfSequence))
  {
    var pieces, eos := trace.pieces, trace.cause == EndOfSequence;
    hide Index, HeldLen, Cut, Concat, Boundary, Feeds, Detect, HasStop, GeneratedText, Processed, Leftover, Split;
    var t := Concat(pieces);
    FeedsDependOnConcat(pieces);
    DetectorRun(stops, Feeds(pieces).outs);
    if trace.cause == StopHit {
      DetectorRun(stops, Feeds(pieces[..|pieces| - 1]).outs);
      ContentAtStop(stops, pieces, eos);
      OutsHaveNoStopContra(stops, pieces);
    } else {
      LeftoverCompletes(stops, pieces);
      LeftoverStops(stops, t);
      if HasStop(t, stops) {
        ContentCutAtFlush(stops, pieces, eos);
      } else if eos {
        ContentAtEndOfSequence(stops, pieces);
      } else {
        ContentIsAllPieces(stops, pieces);
      }
    }
  }

  lemma LeftoverStops(stops: Stops, t: Bytes)
    ensures Processed(stops, t).stopped <==> HasStop(t, stops)
  {
  }

  lemma OutsHaveNoStopContra(stops: Stops, pieces: seq<Bytes>)
    requires HasStop(Concat(Feeds(pieces).outs), stops)
    ensures HasStop(Concat(pieces), stops)
  {
    if !HasStop(Concat(pieces), stops) {
      OutsHaveNoStop(stops, pieces);
    }
  }

  /** After the loop: release the incomplete bytes through the detector, then the held text. */
  method Finish(utf8: UTF8StreamBuffer, detector: StopDetector, out: Output, trace: Trace, reason: FinishReason)
    returns (finishReason: FinishReason)
    requires Aligned(utf8, detector, out, trace.pieces, trace.cause == StopHit)
    requires reason == Stop <==> trace.cause == StopHit || trace.cause == EndOfSequence
    modifies utf8, detector, out
    ensures out.Faithful() && out.undelivered == old(out.undelivered) && Marks(out.chunks) == old(Marks(out.chunks))
    ensures out.content == GeneratedText(detector.stops, trace.pieces, trace.cause == EndOfSequence)
    ensures finishReason == Stop <==> reason == Stop || Leftover(detector.stops, trace.pieces).stopped
    ensures finishReason != Stop ==> finishReason == reason
  {
    hide Processed, Detect, Feeds;
    ghost var content := out.content;
    finishReason := reason;
    var remaining := utf8.Flush();
    if remaining != [] {
      var safeToEmit, stopped := detector.Process(remaining);
      out.Emit(safeToEmit, false);
      if stopped {
        finishReason := Stop;
      }
    }
    if finishReason != Stop {
      var rem := detector.FlushRemaining();
      out.Emit(rem, false);
    }
    assert content + [] == content;
  }

  /** One Generate job. The key-value cache is cleared before and after it. */
  method HandleGenerate(runner: Runner, job: GenerateJob)
    returns (resp: GenerateResponse, chunks: seq<TokenChunk>, trace: Trace, ghost log: seq<Sample>)
    requires runner.Model() && runner.AllGreedy()
    modifies runner
    ensures runner.Model() && runner.AllGreedy()
    ensures runner.samples == old(runner.samples) + log
    ensures resp.GenerateFailed? <==> job.cancelled || job.blank || job.tokenized.None?
    ensures resp.GenerateFailed? ==> log == [] && chunks == []
    ensures resp.Response? ==>
              && ContentIs(NonEmpty(job.stops), trace, resp.finishReason, resp.content)
              && resp.promptTokens == |job.tokenized.value|
              && resp.completionTokens == |trace.pieces| <= if job.maxTokens > 0 then job.maxTokens else 128
    ensures resp.Response? ==>
              var limit := if job.maxTokens > 0 then job.maxTokens else 128;
              && EndsAs(trace, job.env, limit, job.tokenized.value, old(runner.closed))
              && (trace.undelivered ==> LostBy(job.env, |trace.pieces|, job.streaming))
              && (resp.finishReason == Cancellation <==>
                    resp.finishReason != Stop && (trace.cause == Cancelled || trace.undelivered))
    ensures resp.Response? ==>
              if job.streaming then
                && chunks != [] && chunks[|chunks| - 1] == DonePart
                && Marks(chunks) == (if trace.cause == SampleFailed then [ErrorPart] else []) + [DonePart]
              else chunks == []
    ensures resp.Response? && !runner.closed ==> runner.kvPos == 0 && runner.cells == []
    ensures resp.Response? && job.streaming && !trace.undelivered ==> StreamText(chunks) == resp.content
    ensures resp.Response? ==> LogFits(runner, job.tokenized.value, log, trace)
  {
    hide *;
    trace, chunks, log := Trace([], Cancelled, false), [], [];
    if job.cancelled || job.blank || job.tokenized.None? {
      return GenerateFailed, chunks, trace, log;
    }
    runner.ClearKV();
    LimitedIs(job.maxTokens);
    resp, chunks, trace, log := Generate(runner, job, job.tokenized.value);
    if job.closesLate {
      runner.Close();
    }
    runner.ClearKV();
  }

  /** A Generate job once its prompt is tokenized and the cache cleared. */
  method Generate(runner: Runner, job: GenerateJob, prompt: seq<Token>)
    returns (resp: GenerateResponse, chunks: seq<TokenChunk>, trace: Trace, ghost log: seq<Sample>)
    requires runner.Model() && runner.AllGreedy() && (runner.closed || runner.Coherent(prompt))
    modifies runner
    ensures runner.Model() && runner.AllGreedy() && runner.samples == old(runner.samples) + log
    ensures resp.Response? && ContentIs(NonEmpty(job.stops), trace, resp.finishReason, resp.content)
    ensures resp.promptTokens == |prompt| && resp.completionTokens == |trace.pieces| <= Limited(job.maxTokens)
    ensures EndsAs(trace, job.env, Limited(job.maxTokens), prompt, old(runner.closed))
    ensures trace.undelivered ==> LostBy(job.env, |trace.pieces|, job.streaming)
    ensures resp.finishReason == Cancellation <==>
              resp.finishReason != Stop && (trace.cause == Cancelled || trace.undelivered)
    ensures if job.streaming then
              && chunks != [] && chunks[|chunks| - 1] == DonePart
              && Marks(chunks) == (if trace.cause == SampleFailed then [ErrorPart] else []) + [DonePart]
            else chunks == []
    ensures job.streaming && !trace.undelivered ==> StreamText(chunks) == resp.content
    ensures LogFits(runner, prompt, log, trace)
  {
    hide *;
    var clean := CleanStops(job.stops);
    var detector := new StopDetector(clean);
    var utf8 := new UTF8StreamBuffer();
    var out := new Output(job.streaming);
    var reason, count;
    AlignedAtFirst(utf8, detector, out);
    trace, reason, count, log := SampleLoop(runner, utf8, detector, out, prompt, Limited(job.maxTokens), job.env);
    AlignedStops(utf8, detector, out, trace.pieces, trace.cause == StopHit);
    var finishReason := Finish(utf8, detector, out, trace, reason);
    GeneratedTextMeans(clean, trace, finishReason);
    out.Mark(DonePart);
    if out.streaming && !out.undelivered {
      out.FaithfulStream();
    }
    if !out.streaming {
      out.Silent();
    }
    chunks := out.chunks;
    resp := Response(out.content, |prompt|, count, finishReason);
  }

  /** One Forward job. */
  method HandleForward(runner: Runner, job: ForwardJob) returns (r: Option<Forwarded>)
    requires runner.Model() && runner.AllGreedy()
    modifies runner
    ensures runner.Model() && runner.AllGreedy() && runner.samples == old(runner.samples)
    ensures r.None? <==> job.cancelled || (job.given == [] && (job.blank || job.tokenized.None?))
    ensures r.Some? ==>
              var tokens := if job.given == [] then job.tokenized.value else job.given;
              (r.value.Forwarded? <==>
                 ForwardFailure(old(runner.closed) || job.closes, tokens, job.markers, job.decode).None?)
    ensures r.Some? && r.value.Forwarded? ==>
              var tokens := if job.given == [] then job.tokenized.value else job.given;
              && r.value.logits.Keys == (set m | m in job.markers)
              && forall m :: m in job.markers ==>
                 0 <= m < |tokens| && r.value.logits[m] == runner.FullPass(tokens[..m + 1])
  {
    if job.cancelled {
      return None;
    }
    var tokens := job.given;
    if |tokens| == 0 {
      if job.blank || job.tokenized.None? {
        return None;
      }
      tokens := job.tokenized.value;
    }
    for i := 0 to |job.markers| {
      if job.markers[i] < 0 || job.markers[i] >= |tokens| {
        assert job.markers[i] in job.markers;
        return Some(ForwardError(InvalidMarker));
      }
    }
    if job.closes {
      runner.Close();
    }
    var f := runner.Forward(tokens, job.markers, job.decode);
    return Some(f);
  }

  datatype Answer = Forwards(r: Option<Forwarded>) | Generates(resp: GenerateResponse, chunks: seq<TokenChunk>)

  /** Each job gets an answer of its own kind, and fails before it reaches the engine exactly when its
      context is done, or it has no tokens and its text is blank or cannot be tokenized. */
  predicate Answers(job: Job, answer: Answer) {
    match job
    case ForwardOf(f) =>
      && answer.Forwards?
      && (answer.r.None? <==> f.cancelled || (f.given == [] && (f.blank || f.tokenized.None?)))
    case GenerateOf(g) =>
      && answer.Generates?
      && (answer.resp.GenerateFailed? <==> g.cancelled || g.blank || g.tokenized.None?)
  }

  /** Main result: in every sequence of jobs, with every outcome of the C calls, cancellation and
      engine shutdown, each token sampled is the lowest-index argmax of a full forward pass over
      the whole token list it was sampled for. So the list determines the token, whatever ran before. */
  method Loop(runner: Runner, jobs: seq<Job>) returns (answers: seq<Answer>)
    requires runner.Model() && runner.samples == []
    modifies runner
    ensures forall s :: s in runner.samples ==> IsLowestArgMax(runner.net(Positioned(s.tokens)), s.token)
    ensures forall s, u :: s in runner.samples && u in runner.samples && s.tokens == u.tokens ==> s.token == u.token
    ensures |answers| == |jobs| && forall i :: 0 <= i < |jobs| ==> Answers(jobs[i], answers[i])
  {
    answers := [];
    for i := 0 to |jobs|
      invariant runner.Model() && runner.AllGreedy()
      invariant |answers| == i && forall k :: 0 <= k < i ==> Answers(jobs[k], answers[k])
    {
      match jobs[i] {
        case ForwardOf(f) =>
          var r := HandleForward(runner, f);
          answers := answers + [Forwards(r)];
        case GenerateOf(g) =>
          var resp, chunks, trace, log := HandleGenerate(runner, g);
          answers := answers + [Generates(resp, chunks)];
      }
    }
    forall s, u | s in runner.samples && u in runner.samples && s.tokens == u.tokens ensures s.token == u.token {
      LowestArgMaxUnique(runner.net(Positioned(s.tokens)), s.token, u.token);
    }
  }
}

/** The detector that ends generation at a stop word which may be split across pieces of text
    (ark/infra/llamacpp/chat.go, StopDetector). */
module StopWords {
  import opened Texts
  import opened Utf8Stream

  type Stops = seq<Bytes>

  /** What one call returns and leaves behind; for a whole run, `emit` is everything emitted. */
  datatype Step = Step(emit: Bytes, held: Bytes, stopped: bool) {
    function After(earlier: Bytes): Step {
      Step(earlier + emit, held, stopped)
    }

    /** What a consumer has once the run is over: the held text is flushed unless a stop word hit. */
    function Text(): Bytes {
      if stopped then emit else emit + held
    }
  }

  ghost predicate HasStop(t: Bytes, stops: Stops) {
    exists k: nat :: k < |stops| && Index(t, stops[k]) != -1
  }

  /** k is the first stop word, in the order of the list, that occurs in t. */
  ghost predicate IsFirstListed(t: Bytes, stops: Stops, k: nat) {
    k < |stops| && Index(t, stops[k]) != -1 && forall j: nat :: j < k ==> Index(t, stops[j]) == -1
  }

  /** Where a text containing a stop word is cut: at the first occurrence of the first listed
      stop word present, which need not be the earliest stop word in the text. */
  ghost function Cut(t: Bytes, stops: Stops): (i: nat)
    ensures i <= |t|
  {
    if k: nat :| IsFirstListed(t, stops, k) then Index(t, stops[k]) else |t|
  }

  lemma CutIs(t: Bytes, stops: Stops, k: nat)
    requires IsFirstListed(t, stops, k)
    ensures Cut(t, stops) == Index(t, stops[k])
  {
  }

  lemma FirstListedExists(t: Bytes, stops: Stops) returns (k: nat)
    requires HasStop(t, stops)
    ensures IsFirstListed(t, stops, k)
  {
    k := 0;
    while Index(t, stops[k]) == -1
      invariant k < |stops| && forall j: nat :: j < k ==> Index(t, stops[j]) == -1
      decreases |stops| - k
    {
      var m: nat :| m < |stops| && Index(t, stops[m]) != -1;
      k := k + 1;
    }
  }

  /** One call: cut at a stop word, or emit all but the longest suffix that may grow into one. */
  ghost function Processed(stops: Stops, pending: Bytes): Step {
    if HasStop(pending, stops) then Step(pending[..Cut(pending, stops)], [], true)
    else Split(stops, pending)
  }

  ghost function Split(stops: Stops, t: Bytes): Step {
    var safe := |t| - HeldLen(t, stops);
    Step(t[..safe], t[safe..], false)
  }

  /** A run over chunks, as its callers drive it: nothing is fed after a stop word hit. */
  ghost function Detect(stops: Stops, chunks: seq<Bytes>): Step {
    if chunks == [] then Step([], [], false)
    else
      var before := Detect(stops, chunks[..|chunks| - 1]);
      if before.stopped then before
      else Processed(stops, before.held + chunks[|chunks| - 1]).After(before.emit)
  }

  // ---- One call sees exactly what a search of the whole input would see ----

  lemma HasStopGrows(t: Bytes, c: Bytes, stops: Stops)
    requires HasStop(t, stops)
    ensures HasStop(t + c, stops)
  {
    var k: nat :| k < |stops| && Index(t, stops[k]) != -1;
    IndexGrows(t, c, stops[k]);
  }

  lemma SearchFromHeld(t: Bytes, c: Bytes, stops: Stops, k: nat)
    requires !HasStop(t, stops) && k < |stops|
    ensures var off := |t| - HeldLen(t, stops);
            var inner := Index(Split(stops, t).held + c, stops[k]);
            Index(t + c, stops[k]) == if inner == -1 then -1 else off + inner
  {
    IndexFromHeld(t, c, stops, k);
  }

  /** The call on held text plus a new chunk, after everything emitted so far, amounts to one
      call on the whole input. */
  lemma ProcessedFromHeld(t: Bytes, c: Bytes, stops: Stops)
    requires !HasStop(t, stops)
    ensures Processed(stops, Split(stops, t).held + c).After(Split(stops, t).emit) == Processed(stops, t + c)
  {
    var off := |t| - HeldLen(t, stops);
    assert Split(stops, t) == Step(t[..off], t[off..], false);
    var pending := t[off..] + c;
    hide *;
    assert t + c == t[..off] + pending by { CutRejoins(t, off); Assoc(t[..off], t[off..], c); }
    forall k: nat | k < |stops|
      ensures var inner := Index(pending, stops[k]);
              Index(t[..off] + pending, stops[k]) == if inner == -1 then -1 else off + inner
    {
      SearchFromHeld(t, c, stops, k);
      SplitHeld(stops, t);
    }
    HeldFromHeld(t, c, stops);
    ProcessedShifted(stops, t[..off], pending);
  }

  lemma SplitHeld(stops: Stops, t: Bytes)
    ensures Split(stops, t).held == t[|t| - HeldLen(t, stops)..]
  {
  }

  /** Text in front that takes part in no match only shifts the outcome. */
  lemma ProcessedShifted(stops: Stops, front: Bytes, pending: Bytes)
    requires forall k: nat :: k < |stops| ==>
               var inner := Index(pending, stops[k]);
               Index(front + pending, stops[k]) == if inner == -1 then -1 else |front| + inner
    requires HeldLen(front + pending, stops) == HeldLen(pending, stops)
    ensures Processed(stops, pending).After(front) == Processed(stops, front + pending)
  {
    hide Index, HeldLen, Cut;
    if HasStop(pending, stops) {
      var k := FirstListedExists(pending, stops);
      CutIs(pending, stops, k);
      CutIs(front + pending, stops, k);
      CutsComposeAppend(front, pending, Index(pending, stops[k]));
    } else {
      CutsComposeAppend(front, pending, |pending| - HeldLen(pending, stops));
    }
  }

  lemma CutsComposeAppend(a: Bytes, b: Bytes, i: nat)
    requires i <= |b|
    ensures (a + b)[..|a| + i] == a + b[..i]
    ensures (a + b)[|a| + i..] == b[i..]
  {
  }

  /** The detector's state after any chunks, as a function of the concatenated input alone while
      no stop word has completed. */
  lemma {:induction false} DetectBeforeStop(stops: Stops, chunks: seq<Bytes>)
    requires !HasStop(Concat(chunks), stops)
    ensures Detect(stops, chunks) == Split(stops, Concat(chunks))
  {
    if chunks == [] {
    } else {
      var init, c := chunks[..|chunks| - 1], chunks[|chunks| - 1];
      assert Concat(chunks) == Concat(init) + c;
      if HasStop(Concat(init), stops) {
        HasStopGrows(Concat(init), c, stops);
      }
      DetectBeforeStop(stops, init);
      hide Index, HeldLen, HasStop, Split, Cut;
      ProcessedFromHeld(Concat(init), c, stops);
    }
  }

  /** n is the chunk that completes a stop word: with it the input contains one, before it none. */
  ghost predicate CompletesStop(stops: Stops, chunks: seq<Bytes>, n: nat) {
    n < |chunks| && HasStop(Concat(chunks[..n + 1]), stops) && !HasStop(Concat(chunks[..n]), stops)
  }

  /** The run stops at exactly that chunk, having emitted the input received so far up to the
      first occurrence of the first listed stop word in it. */
  lemma {:induction false} DetectAtStop(stops: Stops, chunks: seq<Bytes>, n: nat)
    requires CompletesStop(stops, chunks, n)
    ensures var seen := Concat(chunks[..n + 1]);
            Detect(stops, chunks) == Step(seen[..Cut(seen, stops)], [], true)
  {
    var init, c := chunks[..|chunks| - 1], chunks[|chunks| - 1];
    if n + 1 == |chunks| {
      assert chunks[..n + 1] == chunks && chunks[..n] == init;
      DetectBeforeStop(stops, init);
      hide Index, HeldLen, HasStop, Cut;
      ProcessedFromHeld(Concat(init), c, stops);
    } else {
      assert init[..n + 1] == chunks[..n + 1] && init[..n] == chunks[..n];
      DetectAtStop(stops, init, n);
    }
  }

  ghost predicate IsCutAt(stops: Stops, chunks: seq<Bytes>, n: nat, emitted: Bytes) {
    && CompletesStop(stops, chunks, n)
    && emitted == Concat(chunks[..n + 1])[..Cut(Concat(chunks[..n + 1]), stops)]
  }

  lemma CompletingChunk(stops: Stops, chunks: seq<Bytes>) returns (n: nat)
    requires HasStop(Concat(chunks), stops) && !HasStop([], stops)
    ensures CompletesStop(stops, chunks, n)
  {
    n := 0;
    assert chunks[..0] == [] && chunks[..|chunks|] == chunks;
    while !HasStop(Concat(chunks[..n + 1]), stops)
      invariant n < |chunks| && !HasStop(Concat(chunks[..n]), stops)
      decreases |chunks| - n
    {
      n := n + 1;
    }
  }

  ghost predicate Clean(stops: Stops) {
    forall k :: 0 <= k < |stops| ==> stops[k] != []
  }

  lemma NoStopInNothing(stops: Stops)
    requires Clean(stops)
    ensures !HasStop([], stops)
  {
  }

  /** Main result: a run stops exactly when the concatenation contains a stop word. Until then
      the emitted text and the held text make up the whole input, which contains no stop word,
      and the held part is the longest suffix that is a proper prefix of a stop word. */
  lemma DetectorRun(stops: Stops, chunks: seq<Bytes>)
    requires Clean(stops)
    ensures Detect(stops, chunks).stopped <==> HasStop(Concat(chunks), stops)
    ensures var d, t := Detect(stops, chunks), Concat(chunks);
            !d.stopped ==> d.emit + d.held == t && IsHeldLen(t, stops, |d.held|)
    ensures var d := Detect(stops, chunks);
            d.stopped ==> exists n: nat :: IsCutAt(stops, chunks, n, d.emit)
  {
    hide Index, HeldLen, Cut, Concat, HasStop;
    var t := Concat(chunks);
    if HasStop(t, stops) {
      NoStopInNothing(stops);
      var n := CompletingChunk(stops, chunks);
      DetectAtStop(stops, chunks, n);
      assert IsCutAt(stops, chunks, n, Detect(stops, chunks).emit);
    } else {
      DetectBeforeStop(stops, chunks);
      HeldLenIs(t, stops);
      CutRejoins(t, |t| - HeldLen(t, stops));
    }
  }

  // ---- When does chunking not matter? ----

  /** With one stop word the emitted text is everything before its first occurrence. */
  lemma SingleStop(stop: Bytes, chunks: seq<Bytes>)
    requires stop != []
    ensures var t := Concat(chunks);
            Detect([stop], chunks).Text() == if Index(t, stop) == -1 then t else t[..Index(t, stop)]
  {
    assert [stop][0] == stop;
    IndexIsFirst(stop, stop);
    assert OccursAt(stop, stop, 0);
    FirstStopDecides([stop], chunks);
  }

  /** The condition a caller can check: the first stop word occurs inside every other one. */
  ghost predicate FirstInAll(stops: Stops) {
    forall k: nat :: k < |stops| ==> Index(stops[k], stops[0]) != -1
  }

  lemma IndexTransitive(t: Bytes, q: Bytes, p: Bytes)
    requires Index(t, q) != -1 && Index(q, p) != -1
    ensures Index(t, p) != -1
  {
    IndexIsFirst(t, q);
    IndexIsFirst(q, p);
    IndexIsFirst(t, p);
    var i := Index(t, q);
    assert t == t[..i] + q + t[i + |q|..];
    ContainsGrows(t[..i], q, t[i + |q|..], p);
  }

  lemma FirstStopDecides(stops: Stops, chunks: seq<Bytes>)
    requires Clean(stops) && stops != [] && FirstInAll(stops)
    ensures var t, p := Concat(chunks), stops[0];
            Detect(stops, chunks).Text() == if Index(t, p) == -1 then t else t[..Index(t, p)]
  {
    hide Index, HeldLen, Cut, Concat, Split, Detect;
    var t, p := Concat(chunks), stops[0];
    DetectorRun(stops, chunks);
    HasStopIffFirst(stops, t);
    if HasStop(t, stops) {
      var n: nat :| IsCutAt(stops, chunks, n, Detect(stops, chunks).emit);
      FirstStopCut(stops, chunks, n, Detect(stops, chunks).emit);
    }
  }

  lemma FirstStopCut(stops: Stops, chunks: seq<Bytes>, n: nat, emitted: Bytes)
    requires stops != [] && FirstInAll(stops) && IsCutAt(stops, chunks, n, emitted)
    ensures var t, p := Concat(chunks), stops[0]; Index(t, p) != -1 && emitted == t[..Index(t, p)]
  {
    hide Index, Cut, Concat;
    var seen, later := Concat(chunks[..n + 1]), Concat(chunks[n + 1..]);
    HasStopIffFirst(stops, seen);
    assert IsFirstListed(seen, stops, 0);
    CutIs(seen, stops, 0);
    assert chunks == chunks[..n + 1] + chunks[n + 1..];
    ConcatAppend(chunks[..n + 1], chunks[n + 1..]);
    IndexGrows(seen, later, stops[0]);
    TakeOfAppend(seen, later, Index(seen, stops[0]));
  }

  lemma HasStopIffFirst(stops: Stops, t: Bytes)
    requires stops != [] && FirstInAll(stops)
    ensures HasStop(t, stops) <==> Index(t, stops[0]) != -1
  {
    if HasStop(t, stops) {
      var k: nat :| k < |stops| && Index(t, stops[k]) != -1;
      IndexTransitive(t, stops[k], stops[0]);
    }
  }

  ghost predicate ChunkingIrrelevant(stops: Stops) {
    forall a: seq<Bytes>, b: seq<Bytes> ::
      Concat(a) == Concat(b) ==> Detect(stops, a).Text() == Detect(stops, b).Text()
  }

  /** The claim that chunk boundaries do not matter holds for a stop list exactly when its first
      stop word occurs inside every stop word of the list. */
  lemma ChunkingIrrelevantIff(stops: Stops)
    requires Clean(stops) && stops != []
    ensures ChunkingIrrelevant(stops) <==> FirstInAll(stops)
  {
    hide Index, Detect, Concat;
    if FirstInAll(stops) {
      forall a: seq<Bytes>, b: seq<Bytes> | Concat(a) == Concat(b)
        ensures Detect(stops, a).Text() == Detect(stops, b).Text()
      {
        FirstStopDecides(stops, a);
        FirstStopDecides(stops, b);
      }
    } else {
      ChunkingMatters(stops);
    }
  }

  /** A stop word without the first one in it, no other such word occurring inside it. */
  lemma MinimalWithoutFirst(stops: Stops, from: nat) returns (m: nat)
    requires from < |stops| && Index(stops[from], stops[0]) == -1
    ensures m < |stops| && Index(stops[m], stops[0]) == -1
    ensures forall k: nat :: k < |stops| && Index(stops[k], stops[0]) == -1 ==> |stops[m]| <= |stops[k]|
    decreases |stops[from]|
  {
    if k: nat :| k < |stops| && Index(stops[k], stops[0]) == -1 && |stops[k]| < |stops[from]| {
      m := MinimalWithoutFirst(stops, k);
    } else {
      m := from;
    }
  }

  /** Padding that keeps p from occurring at the start of q + padding + p. */
  function Padding(q: Bytes, p: Bytes): Bytes {
    if |p| <= |q| then [] else [if p[|q|] == 0 then 1 else 0]
  }

  lemma PaddedIndexIsPositive(q: Bytes, p: Bytes)
    requires Index(q, p) == -1
    ensures Index(q + (Padding(q, p) + p), p) > 0
  {
    var t := q + (Padding(q, p) + p);
    IndexIsFirst(q, p);
    IndexIsFirst(t, p);
    var at := |q| + |Padding(q, p)|;
    assert t[at..at + |p|] == p;
    assert OccursAt(t, p, at);
    if |p| <= |q| {
      assert !OccursAt(q, p, 0);
      assert t[0..|p|] == q[0..|p|];
    } else {
      assert t[|q|] == Padding(q, p)[0];
      assert t[0..|p|][|q|] != p[|q|];
    }
    assert !OccursAt(t, p, 0);
  }

  lemma ConcatOne(c: Bytes)
    ensures Concat([c]) == c
  {
    assert [c][..0] == [];
  }

  lemma ConcatTwo(c: Bytes, d: Bytes)
    ensures Concat([c, d]) == c + d
  {
    assert [c, d][..1] == [c];
    ConcatOne(c);
  }

  lemma IndexOfSelf(p: Bytes)
    ensures Index(p, p) == 0
  {
    IndexIsFirst(p, p);
    assert OccursAt(p, p, 0);
  }

  /** Otherwise some text is cut at different places when it arrives whole and in two pieces. */
  lemma ChunkingMatters(stops: Stops)
    requires Clean(stops) && stops != [] && !FirstInAll(stops)
    ensures exists a: seq<Bytes>, b: seq<Bytes> ::
              Concat(a) == Concat(b) && Detect(stops, a).Text() != Detect(stops, b).Text()
  {
    hide Index, HeldLen, Cut, Concat, Split, Detect;
    var p := stops[0];
    var from: nat :| from < |stops| && Index(stops[from], p) == -1;
    var m := MinimalWithoutFirst(stops, from);
    var q := stops[m];
    var tail := Padding(q, p) + p;
    var whole := q + tail;
    PaddedIndexIsPositive(q, p);
    var a, b := [whole], [q, tail];
    ConcatOne(whole);
    ConcatTwo(q, tail);
    NoStopInNothing(stops);
    WholeIsCutAtFirst(stops, whole);
    PieceIsCutAtOnce(stops, m, tail);
    assert |Detect(stops, a).Text()| > 0 == |Detect(stops, b).Text()|;
  }

  lemma WholeIsCutAtFirst(stops: Stops, t: Bytes)
    requires Clean(stops) && stops != [] && Index(t, stops[0]) != -1
    ensures Detect(stops, [t]).Text() == t[..Index(t, stops[0])]
  {
    hide Index, Cut, Concat, Detect;
    NoStopInNothing(stops);
    ConcatOne(t);
    assert [t][..1] == [t] && [t][..0] == [];
    ConcatNone();
    DetectAtStop(stops, [t], 0);
    CutIs(t, stops, 0);
  }

  lemma ConcatNone()
    ensures Concat<byte>([]) == []
  {
  }

  lemma PieceIsCutAtOnce(stops: Stops, m: nat, tail: Bytes)
    requires Clean(stops) && stops != [] && m < |stops| && Index(stops[m], stops[0]) == -1
    requires forall k: nat :: k < |stops| && Index(stops[k], stops[0]) == -1 ==> |stops[m]| <= |stops[k]|
    ensures Detect(stops, [stops[m], tail]).Text() == []
  {
    hide Index, Cut, Concat, Detect;
    var q := stops[m];
    var chunks := [q, tail];
    NoStopInNothing(stops);
    ConcatNone();
    ConcatOne(q);
    IndexOfSelf(q);
    assert chunks[..1] == [q] && chunks[..0] == [];
    DetectAtStop(stops, chunks, 0);
    var k := FirstListedExists(q, stops);
    if Index(stops[k], stops[0]) != -1 {
      IndexTransitive(q, stops[k], stops[0]);
    }
    SameLengthInside(q, stops[k]);
    CutIs(q, stops, k);
  }

  lemma SameLengthInside(q: Bytes, r: Bytes)
    requires Index(q, r) != -1 && |q| <= |r|
    ensures Index(q, r) == 0
  {
  }

  // ---- The detector itself ----

  /** Drops empty stop words. */
  method CleanStops(stops: Stops) returns (clean: Stops)
    ensures Clean(clean)
    ensures forall w :: w in clean <==> w in stops && w != []
    ensures clean == NonEmpty(stops)
  {
    clean := [];
    for i := 0 to |stops|
      invariant clean == NonEmpty(stops[..i])
      invariant Clean(clean) && forall w :: w in clean <==> w in stops[..i] && w != []
    {
      assert stops[..i + 1][..i] == stops[..i];
      if stops[i] != [] {
        clean := clean + [stops[i]];
      }
    }
    assert stops[..|stops|] == stops;
  }

  function NonEmpty(stops: Stops): Stops {
    if stops == [] then []
    else NonEmpty(stops[..|stops| - 1]) + if stops[|stops| - 1] == [] then [] else [stops[|stops| - 1]]
  }

  lemma {:induction false} NonEmptyOfAppend(a: Stops, b: Stops, w: Bytes)
    ensures NonEmpty(a + b) == NonEmpty(a) + NonEmpty(b)
    ensures NonEmpty([w]) == if w == [] then [] else [w]
  {
    assert [w][..0] == [];
    if b == [] {
      assert a + b == a;
    } else {
      var init, last := b[..|b| - 1], b[|b| - 1];
      NonEmptyOfAppend(a, init, w);
      assert (a + b)[..|a + b| - 1] == a + init && (a + b)[|a + b| - 1] == last;
      Assoc(NonEmpty(a), NonEmpty(init), if last == [] then [] else [last]);
    }
  }

  class StopDetector {
    const stops: Stops
    var buf: Bytes

    constructor (stops: Stops)
      requires Clean(stops)
      ensures this.stops == stops && buf == []
    {
      this.stops := stops;
      buf := [];
    }

    /** Processes incoming text: what is safe to emit, and whether a stop word was reached. */
    method Process(incoming: Bytes) returns (emit: Bytes, stopped: bool)
      modifies this
      ensures Step(emit, buf, stopped) == Processed(stops, old(buf) + incoming)
    {
      buf := buf + incoming;
      hide Cut, Index, HeldLen;
      var k := 0;
      while k < |stops|
        invariant k <= |stops| && buf == old(buf) + incoming
        invariant forall j: nat :: j < k ==> Index(buf, stops[j]) == -1
      {
        var idx := FindIndex(buf, stops[k]);
        if idx >= 0 {
          CutIs(buf, stops, k);
          emit, stopped := buf[..idx], true;
          buf := [];
          return;
        }
        k := k + 1;
      }
      var maxPrefixLen := LongestPrefixAtEnd(buf, stops);
      if maxPrefixLen > 0 {
        var safeLen := |buf| - maxPrefixLen;
        emit, stopped := buf[..safeLen], false;
        buf := buf[safeLen..];
        return;
      }
      emit, stopped := buf, false;
      buf := [];
    }

    /** Returns what is still held when generation ends without a stop word. */
    method FlushRemaining() returns (rest: Bytes)
      modifies this
      ensures rest == old(buf) && buf == []
    {
      rest := buf;
      buf := [];
    }
  }

  /** The longest suffix of s that is a proper prefix of some stop word. */
  method LongestPrefixAtEnd(s: Bytes, stops: Stops) returns (maxPrefixLen: nat)
    ensures maxPrefixLen == HeldLen(s, stops)
  {
    maxPrefixLen := 0;
    var k := 0;
    while k < |stops|
      invariant k <= |stops| && maxPrefixLen <= |s|
      invariant maxPrefixLen == 0 || StartsSome(Tail(s, maxPrefixLen), stops)
      invariant forall j: nat :: j < k ==> NoLongerMatch(s, stops[j], maxPrefixLen, |s| + 1)
    {
      maxPrefixLen := LongerPrefixAtEnd(s, stops[k], maxPrefixLen);
      k := k + 1;
    }
    HeldLenUnique(s, stops, maxPrefixLen);
  }

  /** The inner loop, for one stop word: a longer match than the best so far, if there is one. */
  method LongerPrefixAtEnd(s: Bytes, stop: Bytes, best: nat) returns (maxPrefixLen: nat)
    requires best <= |s|
    ensures best <= maxPrefixLen <= |s|
    ensures maxPrefixLen == best || Tail(s, maxPrefixLen) < stop
    ensures NoLongerMatch(s, stop, maxPrefixLen, |s| + 1)
  {
    maxPrefixLen := best;
    var l := 1;
    while l < |stop| && l <= |s|
      invariant 1 <= l && best <= maxPrefixLen <= |s|
      invariant maxPrefixLen == best || Tail(s, maxPrefixLen) < stop
      invariant NoLongerMatch(s, stop, maxPrefixLen, l)
    {
      if HasSuffix(s, stop[..l]) {
        if l > maxPrefixLen {
          maxPrefixLen := l;
        }
      }
      l := l + 1;
    }
  }

  /** No suffix of s longer than n and shorter than top is a proper prefix of stop. */
  ghost predicate NoLongerMatch(s: Bytes, stop: Bytes, n: nat, top: nat) {
    forall m: nat :: n < m < top && m <= |s| ==> !(Tail(s, m) < stop)
  }

  /** A whole run, stopping at a stop word and flushing otherwise. */
  method DetectAll(stops: Stops, chunks: seq<Bytes>) returns (text: Bytes, stopped: bool)
    ensures text == Detect(NonEmpty(stops), chunks).Text() && stopped == Detect(NonEmpty(stops), chunks).stopped
  {
    hide Processed, Index;
    var clean := CleanStops(stops);
    var detector := new StopDetector(clean);
    text, stopped := [], false;
    for i := 0 to |chunks|
      invariant detector.stops == clean
      invariant Detect(clean, chunks[..i]) == Step(text, detector.buf, stopped)
    {
      assert chunks[..i + 1][..i] == chunks[..i];
      if !stopped {
        var emit;
        emit, stopped := detector.Process(chunks[i]);
        text := text + emit;
      }
    }
    assert chunks[..|chunks|] == chunks;
    if !stopped {
      var rest := detector.FlushRemaining();
      text := text + rest;
    }
  }
}

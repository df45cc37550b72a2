/** The buffer that keeps multi-byte UTF-8 sequences whole while model output arrives in
    arbitrary pieces (ark/infra/llamacpp/chat.go, UTF8StreamBuffer). */
module Utf8Stream {
  import opened Texts

  newtype byte = x: int | 0 <= x < 256
  type Bytes = seq<byte>

  // ---- Well-formed UTF-8: the grammar of section 4 of RFC 3629 ----

  predicate IsTail(b: byte) {
    0x80 <= b <= 0xBF
  }

  /** One encoded character (the rules UTF8-1 to UTF8-4). */
  predicate IsChar(u: Bytes) {
    match |u|
    case 1 => u[0] <= 0x7F
    case 2 => 0xC2 <= u[0] <= 0xDF && IsTail(u[1])
    case 3 =>
      && IsTail(u[2])
      && (|| (u[0] == 0xE0 && 0xA0 <= u[1] <= 0xBF)
          || (0xE1 <= u[0] <= 0xEC && IsTail(u[1]))
          || (u[0] == 0xED && 0x80 <= u[1] <= 0x9F)
          || (0xEE <= u[0] <= 0xEF && IsTail(u[1])))
    case 4 =>
      && IsTail(u[2]) && IsTail(u[3])
      && (|| (u[0] == 0xF0 && 0x90 <= u[1] <= 0xBF)
          || (0xF1 <= u[0] <= 0xF3 && IsTail(u[1]))
          || (u[0] == 0xF4 && 0x80 <= u[1] <= 0x8F))
    case _ => false
  }

  /** A sequence of encoded characters. */
  ghost predicate WellFormed(s: Bytes)
    decreases |s|
  {
    s == [] || exists n: nat :: StartsWithChar(s, n) && WellFormed(s[n..])
  }

  ghost predicate StartsWithChar(s: Bytes, n: nat) {
    0 < n <= |s| && IsChar(s[..n])
  }

  // ---- The decoder of Go's unicode/utf8 package ----

  /** The length a lead byte announces, or 0 if it cannot start a character. */
  function LeadSize(b: byte): nat {
    if b < 0x80 then 1
    else if b < 0xC2 then 0
    else if b < 0xE0 then 2
    else if b < 0xF0 then 3
    else if b < 0xF5 then 4
    else 0
  }

  /** Whether `second` may follow the lead byte. */
  predicate AcceptsSecond(lead: byte, second: byte) {
    && (if lead == 0xE0 then 0xA0 else if lead == 0xF0 then 0x90 else 0x80) <= second
    && second <= (if lead == 0xED then 0x9F else if lead == 0xF4 then 0x8F else 0xBF)
  }

  /** The outcome of utf8.DecodeRune: an encoding error consumes one byte. */
  datatype Rune = Rune(valid: bool, size: nat)

  function DecodeRune(s: Bytes): Rune
    requires s != []
  {
    var n := LeadSize(s[0]);
    if n == 1 then Rune(true, 1)
    else if n == 0 || |s| < n || !AcceptsSecond(s[0], s[1]) then Rune(false, 1)
    else if n == 2 then Rune(true, 2)
    else if !IsTail(s[2]) then Rune(false, 1)
    else if n == 3 then Rune(true, 3)
    else if !IsTail(s[3]) then Rune(false, 1)
    else Rune(true, 4)
  }

  /** utf8.FullRune: s starts with a complete encoding, or with one that no more input can repair. */
  predicate FullRune(s: Bytes)
    requires s != []
  {
    || |s| >= LeadSize(s[0])
    || (|s| > 1 && !AcceptsSecond(s[0], s[1]))
    || (|s| > 2 && !IsTail(s[2]))
  }

  // ---- What a Feed may emit ----

  /** The number of bytes the scan consumes at the start of s; 0 when it has to wait. */
  function UnitSize(s: Bytes): (n: nat)
    ensures n <= |s|
  {
    if s == [] then 0
    else
      var r := DecodeRune(s);
      if !r.valid && r.size == 1 && !FullRune(s) then 0 else r.size
  }

  /** Where the scan of s stops. */
  function Boundary(s: Bytes): (n: nat)
    ensures n <= |s|
    decreases |s|
  {
    var n := UnitSize(s);
    if n == 0 then 0 else n + Boundary(s[n..])
  }

  lemma BoundaryStep(s: Bytes)
    ensures Boundary(s) == if UnitSize(s) == 0 then 0 else UnitSize(s) + Boundary(s[UnitSize(s)..])
  {
  }

  lemma UnitSizeIs(s: Bytes)
    requires s != []
    ensures var r := DecodeRune(s); 0 < r.size <= |s| && UnitSize(s) == if !r.valid && !FullRune(s) then 0 else r.size
    ensures !DecodeRune(s).valid ==> DecodeRune(s).size == 1
  {
  }

  lemma BoundaryOfEmpty()
    ensures Boundary([]) == 0
  {
  }

  lemma UnitGrows(s: Bytes, t: Bytes)
    requires UnitSize(s) > 0
    ensures UnitSize(s + t) == UnitSize(s)
  {
  }

  /** Scanning a longer input passes the earlier stop, and continues as from the held bytes. */
  lemma {:induction false} BoundaryGrows(s: Bytes, t: Bytes)
    ensures Boundary(s + t) == Boundary(s) + Boundary(s[Boundary(s)..] + t)
    decreases |s|
  {
    hide *;
    var n := UnitSize(s);
    BoundaryStep(s);
    if n > 0 {
      UnitGrows(s, t);
      BoundaryStep(s + t);
      BoundaryGrows(s[n..], t);
      DropOfAppend(s, t, n);
      DropInTwo(s, n, Boundary(s[n..]));
    } else {
      assert s[0..] == s;
    }
  }

  lemma {:induction false} BoundaryHoldsAtMostThree(s: Bytes)
    ensures |s| - Boundary(s) <= 3
    decreases |s|
  {
    var n := UnitSize(s);
    if n > 0 {
      BoundaryHoldsAtMostThree(s[n..]);
    }
  }

  // ---- Units and well-formed characters ----

  lemma CharIsUnit(s: Bytes, n: nat)
    requires StartsWithChar(s, n)
    ensures UnitSize(s) == n
  {
    assert forall i :: 0 <= i < n ==> s[..n][i] == s[i];
  }

  /** More bytes could make a character of s. */
  ghost predicate Incomplete(s: Bytes) {
    exists u: Bytes :: s < u && IsChar(u)
  }

  /** The scan consumes a character as a whole, waits exactly for the start of one, and otherwise, on
      malformed input, consumes one byte. */
  lemma UnitSizeIff(s: Bytes)
    requires s != []
    ensures UnitSize(s) == 0 <==> Incomplete(s)
    ensures forall n: nat :: StartsWithChar(s, n) ==> UnitSize(s) == n
    ensures !Incomplete(s) && (forall n: nat :: !StartsWithChar(s, n)) ==> UnitSize(s) == 1
  {
    forall n: nat | StartsWithChar(s, n) ensures UnitSize(s) == n {
      CharIsUnit(s, n);
    }
    forall u: Bytes | s < u && IsChar(u) ensures UnitSize(s) == 0 {
      StartIsHeld(s, u);
    }
    if UnitSize(s) == 0 {
      var u := Completed(s);
      assert s < u;
    } else if UnitSize(s) > 1 {
      LongUnitIsChar(s);
    }
  }

  lemma StartIsHeld(s: Bytes, u: Bytes)
    requires s != [] && s < u && IsChar(u)
    ensures UnitSize(s) == 0
  {
    assert forall i :: 0 <= i < |s| ==> s[i] == u[i];
  }

  lemma Completed(s: Bytes) returns (u: Bytes)
    requires s != [] && UnitSize(s) == 0
    ensures s < u && IsChar(u)
  {
    var second := if s[0] == 0xE0 then 0xA0 else if s[0] == 0xF0 then 0x90 else 0x80;
    var all := [s[0], if |s| > 1 then s[1] else second, if |s| > 2 then s[2] else 0x80, 0x80];
    u := all[..LeadSize(s[0])];
    assert u[..|s|] == s;
  }

  lemma LongUnitIsChar(s: Bytes)
    requires UnitSize(s) > 1
    ensures StartsWithChar(s, UnitSize(s))
  {
  }

  lemma LaterBytesAreTails(u: Bytes, i: nat)
    requires IsChar(u) && 0 < i < |u|
    ensures IsTail(u[i])
  {
  }

  /** Whatever comes before, the scan resynchronises at a byte that is no continuation: it goes on from
      there as if the input started there. */
  lemma {:induction false} Resynchronises(a: Bytes, s: Bytes)
    requires s != [] && !IsTail(s[0])
    ensures Boundary(a + s) == |a| + Boundary(s)
    decreases |a|
  {
    if a == [] {
      assert a + s == s;
    } else {
      var all := a + s;
      var n := UnitSize(all);
      assert all[|a|] == s[0];
      NoUnitAcross(all, |a|);
      BoundaryStep(all);
      Resynchronises(a[n..], s);
      DropOfAppend(a, s, n);
    }
  }

  lemma NoUnitAcross(s: Bytes, i: nat)
    requires 0 < i < |s| && !IsTail(s[i])
    ensures 0 < UnitSize(s) <= i
  {
    hide *;
    var n := UnitSize(s);
    if n == 0 {
      var u := Completed(s);
      LaterBytesAreTails(u, i);
    } else if n > i {
      LongUnitIsChar(s);
      StartMeans(s, n);
      LaterBytesAreTails(s[..n], i);
    }
  }

  lemma StartMeans(s: Bytes, n: nat)
    requires StartsWithChar(s, n)
    ensures n <= |s| && IsChar(s[..n])
  {
    hide IsChar;
  }

  lemma WellFormedStep(s: Bytes)
    requires s != []
    ensures WellFormed(s) <==> StartsWithChar(s, UnitSize(s)) && WellFormed(s[UnitSize(s)..])
  {
    if WellFormed(s) {
      var n: nat :| StartsWithChar(s, n) && WellFormed(s[n..]);
      CharIsUnit(s, n);
    }
  }

  lemma WellFormedCons(a: Bytes, n: nat, rest: Bytes)
    requires StartsWithChar(a, n) && WellFormed(rest)
    ensures WellFormed(a[..n] + rest)
  {
    var s := a[..n] + rest;
    assert s[..n] == a[..n] && s[n..] == rest;
    assert StartsWithChar(s, n);
  }

  lemma StartsWithCharGrows(a: Bytes, b: Bytes, n: nat)
    requires n <= |a|
    ensures StartsWithChar(a + b, n) <==> StartsWithChar(a, n)
  {
    assert (a + b)[..n] == a[..n];
  }

  lemma {:induction false} WellFormedAppend(a: Bytes, b: Bytes)
    requires WellFormed(a)
    ensures WellFormed(a + b) <==> WellFormed(b)
    decreases |a|
  {
    if a == [] {
      assert a + b == b;
    } else {
      var n := UnitSize(a);
      WellFormedStep(a);
      StartsWithCharGrows(a, b, n);
      CharIsUnit(a + b, n);
      WellFormedStep(a + b);
      WellFormedAppend(a[n..], b);
      assert (a + b)[n..] == a[n..] + b;
    }
  }

  /** A prefix of well-formed input that ends where the scan stops is well-formed. */
  lemma {:induction false} WellFormedUpToBoundary(a: Bytes, b: Bytes)
    requires WellFormed(a + b)
    ensures WellFormed(a[..Boundary(a)])
    decreases |a|
  {
    hide *;
    var n := UnitSize(a);
    BoundaryStep(a);
    if n == 0 {
      EmptyIsWellFormed();
      assert a[..Boundary(a)] == [];
    } else {
      var m := Boundary(a[n..]);
      UnitGrows(a, b);
      WellFormedStep(a + b);
      StartsWithCharGrows(a, b, n);
      DropOfAppend(a, b, n);
      WellFormedUpToBoundary(a[n..], b);
      WellFormedCons(a, n, a[n..][..m]);
      TakeInTwo(a, n, m);
    }
  }

  lemma {:induction false} WellFormedIsAllEmitted(s: Bytes)
    requires WellFormed(s)
    ensures Boundary(s) == |s|
    decreases |s|
  {
    if s != [] {
      WellFormedStep(s);
      WellFormedIsAllEmitted(s[UnitSize(s)..]);
    }
  }

  // ---- A whole stream ----

  /** The strings returned by feeding the chunks one by one, and the bytes held at the end. */
  datatype Fed = Fed(outs: seq<Bytes>, held: Bytes)

  function Feeds(chunks: seq<Bytes>): Fed {
    if chunks == [] then Fed([], [])
    else
      var before := Feeds(chunks[..|chunks| - 1]);
      var pending := before.held + chunks[|chunks| - 1];
      Fed(before.outs + [pending[..Boundary(pending)]], pending[Boundary(pending)..])
  }

  /** Main result: the cumulative output and the held bytes depend only on the concatenated
      input; nothing is lost or reordered and at most three bytes are ever held. */
  lemma {:induction false} FeedsDependOnConcat(chunks: seq<Bytes>)
    ensures var t := Concat(chunks);
            && Concat(Feeds(chunks).outs) == t[..Boundary(t)]
            && Feeds(chunks).held == t[Boundary(t)..]
            && |Feeds(chunks).held| <= 3
  {
    var t := Concat(chunks);
    BoundaryHoldsAtMostThree(t);
    if chunks != [] {
      var init, c := chunks[..|chunks| - 1], chunks[|chunks| - 1];
      var before, t0 := Feeds(init), Concat(init);
      FeedsDependOnConcat(init);
      assert t == t0 + c;
      assert Feeds(chunks).held == (before.held + c)[Boundary(before.held + c)..];
      assert Feeds(chunks).outs == before.outs + [(before.held + c)[..Boundary(before.held + c)]];
      hide *;
      BoundaryGrows(t0, c);
      var pending := before.held + c;
      CutsCompose(t0, c, Boundary(t0), Boundary(pending));
      ConcatSnoc(before.outs, pending[..Boundary(pending)]);
    }
  }

  lemma CutsCompose(t: Bytes, c: Bytes, i: nat, j: nat)
    requires i <= |t| && j <= |t[i..] + c|
    ensures (t + c)[..i + j] == t[..i] + (t[i..] + c)[..j]
    ensures (t + c)[i + j..] == (t[i..] + c)[j..]
  {
    assert t + c == t[..i] + (t[i..] + c);
  }

  ghost predicate AllWellFormed(outs: seq<Bytes>) {
    forall i :: 0 <= i < |outs| ==> WellFormed(outs[i])
  }

  lemma {:induction false} OutsWellFormed(chunks: seq<Bytes>, more: Bytes)
    requires WellFormed(Concat(chunks) + more)
    ensures AllWellFormed(Feeds(chunks).outs)
  {
    if chunks != [] {
      var init, c := chunks[..|chunks| - 1], chunks[|chunks| - 1];
      var before, t0, t := Feeds(init), Concat(init), Concat(chunks);
      var outs := Feeds(chunks).outs;
      var out := outs[|outs| - 1];
      assert t == t0 + c && outs == before.outs + [out];
      hide WellFormed, Feeds, Boundary, Concat;
      Assoc(t0, c, more);
      OutsWellFormed(init, c + more);
      FeedsDependOnConcat(init);
      FeedsDependOnConcat(chunks);
      WellFormedUpToBoundary(t0, c + more);
      WellFormedUpToBoundary(t, more);
      ConcatSnoc(before.outs, out);
      WellFormedAppend(t0[..Boundary(t0)], out);
    }
  }

  lemma {:induction false} ConcatWellFormed(outs: seq<Bytes>)
    requires AllWellFormed(outs)
    ensures WellFormed(Concat(outs))
  {
    if outs != [] {
      ConcatWellFormed(outs[..|outs| - 1]);
      WellFormedAppend(Concat(outs[..|outs| - 1]), outs[|outs| - 1]);
    }
  }

  /** Every string handed out, the final flush included, is well-formed exactly when the input
      is, however the input was cut. */
  lemma EmitsWellFormedIff(chunks: seq<Bytes>)
    ensures AllWellFormed(Feeds(chunks).outs) && WellFormed(Feeds(chunks).held) <==> WellFormed(Concat(chunks))
  {
    hide WellFormed, Feeds, Boundary, Concat;
    var t := Concat(chunks);
    FeedsDependOnConcat(chunks);
    CutRejoins(t, Boundary(t));
    if WellFormed(t) {
      assert t + [] == t;
      OutsWellFormed(chunks, []);
      WellFormedIsAllEmitted(t);
      EmptyIsWellFormed();
      assert Feeds(chunks).held == [];
    }
    if AllWellFormed(Feeds(chunks).outs) && WellFormed(Feeds(chunks).held) {
      ConcatWellFormed(Feeds(chunks).outs);
      WellFormedAppend(t[..Boundary(t)], t[Boundary(t)..]);
    }
  }

  lemma EmptyIsWellFormed()
    ensures WellFormed([])
  {
  }

  lemma CutRejoins(s: Bytes, i: nat)
    requires i <= |s|
    ensures s[..i] + s[i..] == s
  {
  }

  /** The scan inside Feed: how many leading bytes make up complete units. */
  method Scan(s: Bytes) returns (validLen: nat)
    ensures validLen == Boundary(s)
  {
    hide *;
    assert s[0..] == s;
    validLen := 0;
    var i := 0;
    while i < |s|
      invariant 0 <= validLen == i <= |s|
      invariant Boundary(s) == i + Boundary(s[i..])
    {
      BoundaryStep(s[i..]);
      UnitSizeIs(s[i..]);
      var r := DecodeRune(s[i..]);
      if !r.valid && r.size == 1 {
        if !FullRune(s[i..]) {
          return;
        }
      }
      DropInTwo(s, i, r.size);
      validLen := i + r.size;
      i := i + r.size;
    }
    assert s[i..] == [];
    BoundaryOfEmpty();
  }

  class UTF8StreamBuffer {
    var buf: Bytes

    constructor ()
      ensures buf == []
    {
      buf := [];
    }

    /** Appends incoming bytes and returns all complete units. */
    method Feed(chunk: Bytes) returns (out: Bytes)
      modifies this
      ensures var pending := old(buf) + chunk;
              out == pending[..Boundary(pending)] && buf == pending[Boundary(pending)..]
    {
      buf := buf + chunk;
      if |buf| == 0 {
        return [];
      }
      var validLen := Scan(buf);
      if validLen == 0 {
        return [];
      }
      out := buf[..validLen];
      buf := buf[validLen..];
    }

    /** Returns the bytes still held. */
    method Flush() returns (out: Bytes)
      modifies this
      ensures out == old(buf) && buf == []
    {
      out := buf;
      buf := [];
    }
  }

  /** A whole run of the buffer. */
  method FeedAll(chunks: seq<Bytes>) returns (outs: seq<Bytes>, rest: Bytes)
    ensures Fed(outs, rest) == Feeds(chunks)
    ensures Concat(outs) + rest == Concat(chunks)
    ensures AllWellFormed(outs) && WellFormed(rest) <==> WellFormed(Concat(chunks))
  {
    hide Boundary, WellFormed, Concat;
    var buffer := new UTF8StreamBuffer();
    outs := [];
    for i := 0 to |chunks|
      invariant Fed(outs, buffer.buf) == Feeds(chunks[..i])
    {
      var out := buffer.Feed(chunks[i]);
      assert chunks[..i + 1][..i] == chunks[..i];
      outs := outs + [out];
    }
    assert chunks[..|chunks|] == chunks;
    rest := buffer.Flush();
    FeedsDependOnConcat(chunks);
    CutRejoins(Concat(chunks), Boundary(Concat(chunks)));
    EmitsWellFormedIff(chunks);
  }
}

/** The parts of Go's strings package that the planner and the relay use. */
module GoStrings {
  import T = Texts

  /** unicode.IsSpace. */
  predicate IsSpace(c: char) {
    || '\t' <= c <= '\r' || c == ' ' || c == '\U{0085}' || c == '\U{00A0}' || c == '\U{1680}'
    || '\U{2000}' <= c <= '\U{200A}' || c == '\U{2028}' || c == '\U{2029}' || c == '\U{202F}'
    || c == '\U{205F}' || c == '\U{3000}'
  }

  function TrimLeft(s: string): string {
    if s != [] && IsSpace(s[0]) then TrimLeft(s[1..]) else s
  }

  function TrimRight(s: string): string {
    if s != [] && IsSpace(s[|s| - 1]) then TrimRight(s[..|s| - 1]) else s
  }

  function TrimSpace(s: string): string {
    TrimRight(TrimLeft(s))
  }

  predicate Blank(s: string) {
    forall i :: 0 <= i < |s| ==> IsSpace(s[i])
  }

  /** Neither end is white space. */
  predicate Tight(s: string) {
    s != [] && !IsSpace(s[0]) && !IsSpace(s[|s| - 1])
  }

  /** The white space in front, and behind. */
  function Leading(s: string): (r: string)
    ensures Blank(r)
  {
    if s != [] && IsSpace(s[0]) then [s[0]] + Leading(s[1..]) else ""
  }

  function Trailing(s: string): (r: string)
    ensures Blank(r)
  {
    if s != [] && IsSpace(s[|s| - 1]) then Trailing(s[..|s| - 1]) + [s[|s| - 1]] else ""
  }

  lemma {:induction false} TrimLeftMeans(s: string)
    ensures Leading(s) + TrimLeft(s) == s
    ensures TrimLeft(s) != [] ==> !IsSpace(TrimLeft(s)[0])
  {
    if s != [] && IsSpace(s[0]) {
      TrimLeftMeans(s[1..]);
      assert s == [s[0]] + s[1..];
      T.Assoc([s[0]], Leading(s[1..]), TrimLeft(s[1..]));
    }
  }

  lemma {:induction false} TrimRightMeans(s: string)
    ensures TrimRight(s) + Trailing(s) == s
    ensures TrimRight(s) != [] ==> !IsSpace(TrimRight(s)[|TrimRight(s)| - 1])
  {
    if s != [] && IsSpace(s[|s| - 1]) {
      var init, last := s[..|s| - 1], [s[|s| - 1]];
      TrimRightMeans(init);
      assert s == init + last;
      T.Assoc(TrimRight(init), Trailing(init), last);
    }
  }

  /** What trimming leaves lies between blank ends. */
  lemma TrimSpaceIsMiddle(s: string)
    ensures s == Leading(s) + TrimSpace(s) + Trailing(TrimLeft(s))
    ensures TrimSpace(s) == [] || Tight(TrimSpace(s))
  {
    var left := TrimLeft(s);
    TrimLeftMeans(s);
    TrimRightMeans(left);
    assert TrimSpace(s) == TrimRight(left);
    hide TrimSpace, TrimLeft, TrimRight, IsSpace, Leading, Trailing;
    T.Assoc(Leading(s), TrimSpace(s), Trailing(left));
    FirstOfPrefix(TrimSpace(s), Trailing(left));
  }

  lemma FirstOfPrefix(a: string, b: string)
    ensures a != [] ==> (a + b)[0] == a[0]
  {
  }

  /** What trimming leaves is tight or empty, and the input itself exactly when that is tight or
      empty. It is empty exactly for blank input. */
  lemma TrimSpaceMeans(s: string)
    ensures TrimSpace(s) == [] || Tight(TrimSpace(s))
    ensures TrimSpace(s) == [] <==> Blank(s)
    ensures TrimSpace(s) == s <==> s == [] || Tight(s)
    ensures |TrimSpace(s)| <= |s| && forall c :: c in TrimSpace(s) ==> c in s
  {
    TrimSpaceIsMiddle(s);
    var t := TrimSpace(s);
    var a, b := Leading(s), Trailing(TrimLeft(s));
    hide TrimSpace, Leading, Trailing, TrimLeft;
    Middle(a, t, b);
  }

  lemma Middle(a: string, t: string, b: string)
    requires Blank(a) && Blank(b) && (t == [] || Tight(t))
    ensures t == [] <==> Blank(a + t + b)
    ensures t == a + t + b <==> a + t + b == [] || Tight(a + t + b)
    ensures forall c :: c in t ==> c in a + t + b
  {
    hide IsSpace;
    var s := a + t + b;
    if t != [] {
      assert s[|a|] == t[0] && !IsSpace(s[|a|]);
    }
    if a != [] {
      assert s[0] == a[0] && IsSpace(a[0]);
    }
    if b != [] {
      assert s[|s| - 1] == b[|b| - 1] && IsSpace(b[|b| - 1]);
    }
    forall c | c in t ensures c in s {
      var i :| 0 <= i < |t| && t[i] == c;
      assert s[|a| + i] == c;
    }
  }

  lemma TrimmedIsShorter(s: string)
    ensures TrimSpace(s) == s || |TrimSpace(s)| < |s|
  {
    TrimSpaceIsMiddle(s);
    hide TrimSpace, Leading, Trailing, TrimLeft;
    var a, b := Leading(s), Trailing(TrimLeft(s));
    if a == [] && b == [] {
      assert a + TrimSpace(s) + b == TrimSpace(s);
    }
  }

  /** Trimming takes off exactly the white space around a tight text. */
  lemma TrimOfMiddle(a: string, t: string, b: string)
    requires Blank(a) && Tight(t) && Blank(b)
    ensures TrimSpace(a + t + b) == t
  {
    T.Assoc(a, t, b);
    TrimLeftOf(a, t + b);
    TrimRightOf(t, b);
    hide TrimLeft, TrimRight;
    assert (t + b)[0] == t[0];
  }

  lemma {:induction false} TrimLeftOf(a: string, s: string)
    requires Blank(a) && s != [] && !IsSpace(s[0])
    ensures TrimLeft(a + s) == s
  {
    if a == [] {
      assert a + s == s;
    } else {
      assert (a + s)[1..] == a[1..] + s;
      TrimLeftOf(a[1..], s);
    }
  }

  lemma {:induction false} TrimRightOf(s: string, b: string)
    requires Blank(b) && s != [] && !IsSpace(s[|s| - 1])
    ensures TrimRight(s + b) == s
  {
    if b == [] {
      assert s + b == s;
    } else {
      assert (s + b)[..|s + b| - 1] == s + b[..|b| - 1];
      TrimRightOf(s, b[..|b| - 1]);
    }
  }

  predicate HasPrefix(s: string, p: string) {
    |p| <= |s| && s[..|p|] == p
  }

  function TrimPrefix(s: string, p: string): string {
    if HasPrefix(s, p) then s[|p|..] else s
  }

  // ---- Bytes ----

  /** The length of a character in UTF-8 (section 3 of RFC 3629). */
  function RuneLen(c: char): (n: nat)
    ensures 1 <= n <= 4
  {
    if c as int < 0x80 then 1 else if c as int < 0x800 then 2 else if c as int < 0x1_0000 then 3 else 4
  }

  /** Go's len: offsets in Go strings count bytes, offsets here characters. */
  function ByteLen(s: string): (n: nat)
    ensures |s| <= n <= 4 * |s|
  {
    if s == [] then 0 else ByteLen(s[..|s| - 1]) + RuneLen(s[|s| - 1])
  }

  lemma {:induction false} ByteLenGrows(s: string, i: nat, j: nat)
    requires i <= j <= |s|
    ensures ByteLen(s[..i]) <= ByteLen(s[..j])
  {
    if i < j {
      ByteLenGrows(s, i, j - 1);
      assert s[..j][..j - 1] == s[..j - 1];
    }
  }

  lemma {:induction false} ByteLenOfAscii(s: string)
    requires forall i :: 0 <= i < |s| ==> s[i] as int < 0x80
    ensures ByteLen(s) == |s|
  {
    if s != [] {
      ByteLenOfAscii(s[..|s| - 1]);
    }
  }

  /** strings.LastIndex of one character, or -1. */
  function LastIndex(s: string, c: char): (r: int)
    ensures -1 <= r < |s|
    ensures r >= 0 ==> s[r] == c
    ensures forall i :: r < i < |s| ==> s[i] != c
  {
    if s == [] then -1
    else if s[|s| - 1] == c then |s| - 1
    else LastIndex(s[..|s| - 1], c)
  }

  // ---- Lines ----

  /** strings.Split(s, "\n"). */
  function Split(s: string): (lines: seq<string>)
    ensures |lines| > 0
  {
    if s == [] then [""]
    else
      var rest := Split(s[1..]);
      if s[0] == '\n' then [""] + rest else [[s[0]] + rest[0]] + rest[1..]
  }

  /** strings.Join(lines, "\n"). */
  function Join(lines: seq<string>): string {
    if |lines| == 0 then ""
    else if |lines| == 1 then lines[0]
    else lines[0] + "\n" + Join(lines[1..])
  }

  predicate OneLine(s: string) {
    '\n' !in s
  }

  lemma {:induction false} SplitGivesLines(s: string)
    ensures forall i :: 0 <= i < |Split(s)| ==> OneLine(Split(s)[i])
  {
    if s != [] {
      SplitGivesLines(s[1..]);
    }
  }

  lemma {:induction false} SplitOneLine(s: string)
    requires OneLine(s)
    ensures Split(s) == [s]
  {
    if s != [] {
      SplitOneLine(s[1..]);
      assert s == [s[0]] + s[1..];
      assert Split(s) == [[s[0]] + s[1..]];
    }
  }

  /** The lines after putting a character in front. */
  function Prepend(c: char, lines: seq<string>): seq<string>
    requires |lines| > 0
  {
    if c == '\n' then [""] + lines else [[c] + lines[0]] + lines[1..]
  }

  lemma SplitCons(c: char, s: string)
    ensures Split([c] + s) == Prepend(c, Split(s))
  {
    assert ([c] + s)[1..] == s;
  }

  lemma PrependAppend(c: char, a: seq<string>, b: seq<string>)
    requires |a| > 0
    ensures Prepend(c, a + b) == Prepend(c, a) + b
  {
    assert (a + b)[1..] == a[1..] + b;
  }

  lemma {:induction false} SplitAppend(a: string, b: string)
    ensures Split(a + "\n" + b) == Split(a) + Split(b)
  {
    if a == [] {
      assert a + "\n" + b == ['\n'] + b;
      SplitCons('\n', b);
    } else {
      var c, rest := a[0], a[1..];
      assert a == [c] + rest;
      assert a + "\n" + b == [c] + (rest + "\n" + b);
      SplitAppend(rest, b);
      SplitCons(c, rest);
      SplitCons(c, rest + "\n" + b);
      PrependAppend(c, Split(rest), Split(b));
    }
  }
}

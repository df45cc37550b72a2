/** Searching in Go strings (finite sequences): first occurrences, suffixes, and the longest
    suffix of a text that could still grow into one of a list of patterns. The tag parser and
    the stop-word detector hold exactly that suffix back while they stream. */
module Texts {

  /** p occurs in s at offset i. */
  predicate OccursAt<T(==)>(s: seq<T>, p: seq<T>, i: nat) {
    i + |p| <= |s| && s[i..i + |p|] == p
  }

  ghost predicate Contains<T>(s: seq<T>, p: seq<T>) {
    exists i: nat :: OccursAt(s, p, i)
  }

  /** i is the first offset of p in s. */
  ghost predicate IsFirst<T>(s: seq<T>, p: seq<T>, i: nat) {
    OccursAt(s, p, i) && forall j: nat :: j < i ==> !OccursAt(s, p, j)
  }

  /** The first offset of p in s, or -1. */
  ghost function Index<T>(s: seq<T>, p: seq<T>): (r: int)
    ensures r == -1 || (0 <= r && r + |p| <= |s|)
  {
    if i: nat :| IsFirst(s, p, i) then i else -1
  }

  lemma IndexIsFirst<T>(s: seq<T>, p: seq<T>)
    ensures Index(s, p) == -1 <==> !Contains(s, p)
    ensures Index(s, p) != -1 ==> OccursAt(s, p, Index(s, p))
    ensures forall j: nat :: OccursAt(s, p, j) ==> 0 <= Index(s, p) <= j
  {
    forall j: nat | OccursAt(s, p, j) ensures exists i: nat :: i <= j && IsFirst(s, p, i) {
      FirstBelow(s, p, j);
    }
  }

  lemma {:induction false} FirstBelow<T>(s: seq<T>, p: seq<T>, j: nat)
    requires OccursAt(s, p, j)
    ensures exists i: nat :: i <= j && IsFirst(s, p, i)
  {
    if !IsFirst(s, p, j) {
      var k: nat :| k < j && OccursAt(s, p, k);
      FirstBelow(s, p, k);
    }
  }

  lemma FirstIsIndex<T>(s: seq<T>, p: seq<T>, i: nat)
    requires OccursAt(s, p, i) && forall j: nat :: OccursAt(s, p, j) ==> i <= j
    ensures Index(s, p) == i
  {
    IndexIsFirst(s, p);
  }

  /** Go's strings.Index. */
  method FindIndex<T(==)>(s: seq<T>, p: seq<T>) returns (r: int)
    ensures r == Index(s, p)
  {
    var i := 0;
    while i + |p| <= |s|
      invariant forall j: nat :: j < i ==> !OccursAt(s, p, j)
    {
      if OccursAt(s, p, i) {
        FirstIsIndex(s, p, i);
        return i;
      }
      i := i + 1;
    }
    IndexIsFirst(s, p);
    r := -1;
  }

  /** Go's strings.HasSuffix. */
  predicate HasSuffix<T(==)>(s: seq<T>, w: seq<T>) {
    |w| <= |s| && s[|s| - |w|..] == w
  }

  /** The last n elements of s. */
  function Tail<T>(s: seq<T>, n: nat): seq<T>
    requires n <= |s|
  {
    s[|s| - n..]
  }

  /** w is a proper prefix of one of the patterns, so more input could still complete a match. */
  ghost predicate StartsSome<T>(w: seq<T>, ps: seq<seq<T>>) {
    exists k: nat :: k < |ps| && w < ps[k]
  }

  /** n is the length of the longest suffix of s that is a proper prefix of some pattern. */
  ghost predicate IsHeldLen<T>(s: seq<T>, ps: seq<seq<T>>, n: nat) {
    && n <= |s|
    && (n == 0 || StartsSome(Tail(s, n), ps))
    && forall m: nat :: n < m <= |s| ==> !StartsSome(Tail(s, m), ps)
  }

  ghost function HeldLen<T>(s: seq<T>, ps: seq<seq<T>>): (n: nat)
    ensures n <= |s|
  {
    if n: nat :| IsHeldLen(s, ps, n) then n else 0
  }

  /** HeldLen is the one number with the defining property. */
  lemma HeldLenIs<T>(s: seq<T>, ps: seq<seq<T>>)
    ensures IsHeldLen(s, ps, HeldLen(s, ps))
  {
    HeldLenBelow(s, ps, |s|);
  }

  lemma {:induction false} HeldLenBelow<T>(s: seq<T>, ps: seq<seq<T>>, top: nat)
    requires top <= |s|
    requires forall m: nat :: top < m <= |s| ==> !StartsSome(Tail(s, m), ps)
    ensures exists n: nat :: IsHeldLen(s, ps, n)
  {
    if top == 0 || StartsSome(Tail(s, top), ps) {
      assert IsHeldLen(s, ps, top);
    } else {
      HeldLenBelow(s, ps, top - 1);
    }
  }

  lemma HeldLenUnique<T>(s: seq<T>, ps: seq<seq<T>>, n: nat)
    requires IsHeldLen(s, ps, n)
    ensures n == HeldLen(s, ps)
  {
    HeldLenIs(s, ps);
  }

  /** The suffix held back for a single pattern is shorter than it and so does not contain it. */
  lemma HeldHasNoMatch<T>(s: seq<T>, p: seq<T>)
    requires p != []
    ensures HeldLen(s, [p]) < |p|
    ensures Index(s[|s| - HeldLen(s, [p])..], p) == -1
  {
    HeldLenIs(s, [p]);
    IndexIsFirst(s[|s| - HeldLen(s, [p])..], p);
  }

  /** An occurrence survives any extension of the text, and so does the first one. */
  lemma IndexGrows<T>(s: seq<T>, c: seq<T>, p: seq<T>)
    requires Index(s, p) != -1
    ensures Index(s + c, p) == Index(s, p)
  {
    var i := Index(s, p);
    IndexIsFirst(s, p);
    assert (s + c)[i..i + |p|] == s[i..i + |p|];
    assert OccursAt(s + c, p, i);
    forall j: nat | j < i ensures !OccursAt(s + c, p, j) {
      assert (s + c)[j..j + |p|] == s[j..j + |p|];
      assert !OccursAt(s, p, j);
    }
    FirstIsIndex(s + c, p, i);
  }

  lemma ContainsGrows<T>(a: seq<T>, s: seq<T>, c: seq<T>, p: seq<T>)
    requires Contains(s, p)
    ensures Contains(a + s + c, p)
  {
    var i: nat :| OccursAt(s, p, i);
    assert (a + s + c)[|a| + i..|a| + i + |p|] == s[i..i + |p|];
    assert OccursAt(a + s + c, p, |a| + i);
  }

  /** A new occurrence can only start inside the held suffix or later. */
  lemma OccurrenceStartsInHeld<T>(x: seq<T>, c: seq<T>, ps: seq<seq<T>>, k: nat, i: nat)
    requires k < |ps| && !Contains(x, ps[k])
    requires OccursAt(x + c, ps[k], i)
    ensures |x| - HeldLen(x, ps) <= i
  {
    var p := ps[k];
    HeldLenIs(x, ps);
    if i < |x| {
      if i + |p| <= |x| {
        assert x[i..i + |p|] == (x + c)[i..i + |p|];
        assert OccursAt(x, p, i);
      } else {
        var m := |x| - i;
        assert Tail(x, m) == (x + c)[i..i + |p|][..m];
        assert Tail(x, m) < p;
        assert StartsSome(Tail(x, m), ps);
      }
    }
  }

  lemma OccursInTail<T>(s: seq<T>, p: seq<T>, off: nat, j: nat)
    requires off <= |s|
    ensures OccursAt(s[off..], p, j) <==> OccursAt(s, p, off + j)
  {
    if off + j + |p| <= |s| {
      assert s[off..][j..j + |p|] == s[off + j..off + j + |p|];
    }
  }

  /** A search may start at any offset that no occurrence precedes. */
  lemma IndexOfTail<T>(s: seq<T>, p: seq<T>, off: nat)
    requires off <= |s| && forall i: nat :: OccursAt(s, p, i) ==> off <= i
    ensures var inner := Index(s[off..], p); Index(s, p) == if inner == -1 then -1 else off + inner
  {
    hide *;
    IndexIsFirst(s, p);
    IndexIsFirst(s[off..], p);
    var inner, outer := Index(s[off..], p), Index(s, p);
    if inner != -1 {
      OccursInTail(s, p, off, inner);
    }
    if outer != -1 {
      OccursInTail(s, p, off, outer - off);
      NotContains(s[off..], p, outer - off);
    } else {
      NotContains(s, p, off + if inner == -1 then 0 else inner);
    }
  }

  lemma NotContains<T>(s: seq<T>, p: seq<T>, i: nat)
    ensures !Contains(s, p) ==> !OccursAt(s, p, i)
  {
  }

  /** Searching the held suffix plus the new input finds the same first occurrence as searching
      everything received so far. */
  lemma IndexFromHeld<T>(x: seq<T>, c: seq<T>, ps: seq<seq<T>>, k: nat)
    requires k < |ps| && Index(x, ps[k]) == -1
    ensures var off := |x| - HeldLen(x, ps);
            var inner := Index(x[off..] + c, ps[k]);
            Index(x + c, ps[k]) == if inner == -1 then -1 else off + inner
  {
    var off := |x| - HeldLen(x, ps);
    IndexIsFirst(x, ps[k]);
    forall i: nat | OccursAt(x + c, ps[k], i) ensures off <= i {
      OccurrenceStartsInHeld(x, c, ps, k, i);
    }
    IndexOfTail(x + c, ps[k], off);
    assert (x + c)[off..] == x[off..] + c;
  }

  lemma StartsSomeShrinks<T>(x: seq<T>, c: seq<T>, ps: seq<seq<T>>, n: nat)
    requires |c| <= n <= |x + c| && StartsSome(Tail(x + c, n), ps)
    ensures StartsSome(Tail(x, n - |c|), ps)
  {
    var w := Tail(x + c, n);
    var k: nat :| k < |ps| && w < ps[k];
    assert Tail(x, n - |c|) == w[..n - |c|];
    assert Tail(x, n - |c|) < ps[k];
  }

  /** The held suffix of the whole input is the held suffix of (held suffix + new input). */
  lemma HeldFromHeld<T>(x: seq<T>, c: seq<T>, ps: seq<seq<T>>)
    ensures HeldLen(x + c, ps) == HeldLen(x[|x| - HeldLen(x, ps)..] + c, ps)
  {
    var y := x[|x| - HeldLen(x, ps)..] + c;
    var n := HeldLen(x + c, ps);
    HeldLenIs(x, ps);
    HeldLenIs(x + c, ps);
    assert forall m: nat :: m <= |y| ==> Tail(y, m) == Tail(x + c, m);
    if |c| < n {
      StartsSomeShrinks(x, c, ps, n);
    }
    HeldLenUnique(y, ps, n);
  }

  lemma Assoc<T>(a: seq<T>, b: seq<T>, c: seq<T>)
    ensures (a + b) + c == a + (b + c)
  {
  }

  lemma DropOfAppend<T>(a: seq<T>, b: seq<T>, n: nat)
    requires n <= |a|
    ensures (a + b)[n..] == a[n..] + b
  {
  }

  lemma TakeOfAppend<T>(a: seq<T>, b: seq<T>, n: nat)
    requires n <= |a|
    ensures (a + b)[..n] == a[..n]
  {
  }

  /** A list before and at its last element. */
  lemma InitAndLast<T>(s: seq<T>, x: T)
    ensures (s + [x])[..|s|] == s && (s + [x])[|s|] == x && |s + [x]| == |s| + 1
  {
  }

  lemma TakeInTwo<T>(s: seq<T>, n: nat, m: nat)
    requires n + m <= |s|
    ensures s[..n + m] == s[..n] + s[n..][..m]
  {
  }

  lemma DropInTwo<T>(s: seq<T>, n: nat, m: nat)
    requires n + m <= |s|
    ensures s[n + m..] == s[n..][m..]
  {
  }

  /** The concatenation of a list of chunks. */
  function Concat<T>(chunks: seq<seq<T>>): seq<T> {
    if chunks == [] then [] else Concat(chunks[..|chunks| - 1]) + chunks[|chunks| - 1]
  }

  lemma ConcatSnoc<T>(chunks: seq<seq<T>>, c: seq<T>)
    ensures Concat(chunks + [c]) == Concat(chunks) + c
  {
    assert (chunks + [c])[..|chunks|] == chunks;
  }

  lemma {:induction false} ConcatAppend<T>(a: seq<seq<T>>, b: seq<seq<T>>)
    ensures Concat(a + b) == Concat(a) + Concat(b)
  {
    if b == [] {
      assert a + b == a;
    } else {
      var init, last := b[..|b| - 1], b[|b| - 1];
      assert a + b == (a + init) + [last];
      ConcatSnoc(a + init, last);
      ConcatAppend(a, init);
    }
  }

  /** No element occurs twice. */
  predicate Distinct<T(==)>(s: seq<T>) {
    forall i, j :: 0 <= i < j < |s| ==> s[i] != s[j]
  }
}

/** The streaming parser that splits a model's output into answer text and <think>...</think>
    reasoning (internal/cognitor/proxy/think_parser.go). Go strings are byte strings; each
    char here stands for one byte. */
module ThinkParser {
  import opened Texts

  const OPEN_TAG: string := "<think>"
  const CLOSE_TAG: string := "</think>"

  /** The parser's two tag fields. Everything below holds for every pair of non-empty tags. */
  datatype TagFields = TagFields(open: string, close: string) {
    /** The tag the parser looks for in each mode. */
    function Of(thinking: bool): string {
      if thinking then close else open
    }
  }

  type Tags = t: TagFields | t.open != "" && t.close != "" witness TagFields("<", ">")

  /** What the parser hands to its callback: a piece of answer text, the marker that a thinking
      block starts, or a piece of thinking text. Stage and provider metadata are constant along
      a stream and are not modelled. */
  datatype Event = TextChunk(content: string) | ThinkingStart | ThinkingChunk(content: string)

  function Chunk(thinking: bool, s: string): seq<Event> {
    if s == "" then [] else if thinking then [ThinkingChunk(s)] else [TextChunk(s)]
  }

  /** The events at a mode switch: entering a block is announced, leaving it is not. */
  function Switch(thinking: bool): seq<Event> {
    if thinking then [] else [ThinkingStart]
  }

  // ---- The reference: one pass over the complete text ----

  /** The events of a complete text, each run of one mode being a single event. */
  ghost function Parse(t: Tags, s: string, thinking: bool): seq<Event>
    decreases |s|
  {
    var idx := Index(s, t.Of(thinking));
    if idx == -1 then Chunk(thinking, s)
    else Chunk(thinking, s[..idx]) + (Switch(thinking) + Parse(t, s[idx + |t.Of(thinking)|..], !thinking))
  }

  /** Whether the complete text ends inside a thinking block. */
  ghost function FinalMode(t: Tags, s: string, thinking: bool): bool
    decreases |s|
  {
    var idx := Index(s, t.Of(thinking));
    if idx == -1 then thinking else FinalMode(t, s[idx + |t.Of(thinking)|..], !thinking)
  }

  // ---- The streaming step ----

  datatype Drained = Drained(events: seq<Event>, thinking: bool, rest: string) {
    /** The same, with earlier events in front. */
    function After(sent: seq<Event>): Drained {
      Drained(sent + events, thinking, rest)
    }
  }

  /** What one Feed does with its pending content: emit what is certain, hold back the longest
      suffix that may still become the tag. */
  ghost function Drain(t: Tags, content: string, thinking: bool): Drained
    decreases |content|
  {
    var tag := t.Of(thinking);
    var idx := Index(content, tag);
    if idx == -1 then
      var safe := |content| - HeldLen(content, [tag]);
      Drained(Chunk(thinking, content[..safe]), thinking, content[safe..])
    else
      var d := Drain(t, content[idx + |tag|..], !thinking);
      d.(events := Chunk(thinking, content[..idx]) + (Switch(thinking) + d.events))
  }

  /** Feeding a list of chunks to a fresh parser. */
  ghost function Stream(t: Tags, chunks: seq<string>): Drained {
    if chunks == [] then Drained([], false, "")
    else
      var before := Stream(t, chunks[..|chunks| - 1]);
      var d := Drain(t, before.rest + chunks[|chunks| - 1], before.thinking);
      d.(events := before.events + d.events)
  }

  /** Everything a consumer has received once the stream is flushed. */
  ghost function StreamEvents(t: Tags, chunks: seq<string>): seq<Event> {
    var d := Stream(t, chunks);
    d.events + Chunk(d.thinking, d.rest)
  }

  // ---- Events up to the cutting of runs ----

  datatype Item = Mark | Char(thinking: bool, c: char)

  function Chars(thinking: bool, s: string): (r: seq<Item>)
    ensures |r| == |s|
    ensures forall i :: 0 <= i < |s| ==> r[i] == Char(thinking, s[i])
  {
    if s == "" then [] else [Char(thinking, s[0])] + Chars(thinking, s[1..])
  }

  function ItemsOf(e: Event): seq<Item> {
    if e.ThinkingStart? then [Mark] else Chars(e.ThinkingChunk?, e.content)
  }

  /** The characters with their modes, and the markers, in order. */
  function Items(events: seq<Event>): seq<Item> {
    if events == [] then [] else ItemsOf(events[0]) + Items(events[1..])
  }

  predicate SameRun(a: Event, b: Event) {
    (a.TextChunk? && b.TextChunk?) || (a.ThinkingChunk? && b.ThinkingChunk?)
  }

  /** Joins adjacent chunks of the same mode into maximal runs. */
  function Coalesce(events: seq<Event>): seq<Event> {
    if events == [] then [] else Attach(events[0], Coalesce(events[1..]))
  }

  function Attach(e: Event, runs: seq<Event>): seq<Event> {
    if runs != [] && SameRun(e, runs[0]) then
      [if e.TextChunk? then TextChunk(e.content + runs[0].content) else ThinkingChunk(e.content + runs[0].content)]
      + runs[1..]
    else [e] + runs
  }

  predicate Visible(e: Event) {
    e.ThinkingStart? || e.content != ""
  }

  predicate AllVisible(events: seq<Event>) {
    forall e :: e in events ==> Visible(e)
  }

  /** No empty chunk, and no two adjacent chunks of the same mode. */
  predicate Maximal(events: seq<Event>) {
    events != [] ==>
      && Visible(events[0])
      && (|events| > 1 ==> !SameRun(events[0], events[1]))
      && Maximal(events[1..])
  }

  // ---- Lemmas about events and items ----

  lemma ItemsCons(e: Event, events: seq<Event>)
    ensures Items([e] + events) == ItemsOf(e) + Items(events)
  {
    assert ([e] + events)[1..] == events;
  }

  lemma {:induction false} ItemsAppend(a: seq<Event>, b: seq<Event>)
    ensures Items(a + b) == Items(a) + Items(b)
  {
    if a == [] {
      assert a + b == b;
    } else {
      calc {
        Items(a + b);
        { assert a + b == [a[0]] + (a[1..] + b); ItemsCons(a[0], a[1..] + b); }
        ItemsOf(a[0]) + Items(a[1..] + b);
        { ItemsAppend(a[1..], b); }
        ItemsOf(a[0]) + (Items(a[1..]) + Items(b));
        (ItemsOf(a[0]) + Items(a[1..])) + Items(b);
        Items(a) + Items(b);
      }
    }
  }

  lemma ItemsOfChunk(thinking: bool, s: string)
    ensures Items(Chunk(thinking, s)) == Chars(thinking, s)
  {
    if s != "" {
      ItemsCons(Chunk(thinking, s)[0], []);
    }
  }

  lemma CharsSplit(thinking: bool, a: string, b: string)
    ensures Chars(thinking, a + b) == Chars(thinking, a) + Chars(thinking, b)
  {
  }

  lemma AttachKeepsItems(e: Event, runs: seq<Event>)
    ensures Items(Attach(e, runs)) == ItemsOf(e) + Items(runs)
  {
    if runs != [] && SameRun(e, runs[0]) {
      CharsSplit(e.ThinkingChunk?, e.content, runs[0].content);
      ItemsCons(Attach(e, runs)[0], runs[1..]);
    } else {
      ItemsCons(e, runs);
    }
  }

  lemma {:induction false} CoalesceKeepsItems(events: seq<Event>)
    ensures Items(Coalesce(events)) == Items(events)
  {
    if events != [] {
      CoalesceKeepsItems(events[1..]);
      AttachKeepsItems(events[0], Coalesce(events[1..]));
    }
  }

  lemma {:induction false} CoalesceIsMaximal(events: seq<Event>)
    requires AllVisible(events)
    ensures Maximal(Coalesce(events))
  {
    if events != [] {
      var e, runs := events[0], Coalesce(events[1..]);
      CoalesceIsMaximal(events[1..]);
      assert Attach(e, runs)[1..] == if runs != [] && SameRun(e, runs[0]) then runs[1..] else runs;
    }
  }

  /** The first item of a maximal list tells the kind of its first event. */
  lemma HeadItem(events: seq<Event>)
    requires Maximal(events)
    ensures events == [] <==> Items(events) == []
    ensures events != [] ==> |ItemsOf(events[0])| > 0 && Items(events)[0] == ItemsOf(events[0])[0]
  {
  }

  lemma SameItemsOf(a: Event, b: Event)
    requires Visible(a) && Visible(b) && ItemsOf(a) == ItemsOf(b)
    ensures a == b
  {
    var x, y := ItemsOf(a), ItemsOf(b);
    assert x[0] == y[0];
    if !a.ThinkingStart? {
      forall i | 0 <= i < |a.content| ensures a.content[i] == b.content[i] {
        assert x[i] == y[i];
      }
    }
  }

  predicate SameKind(i: Item, j: Item) {
    i.Char? && j.Char? && i.thinking == j.thinking
  }

  /** Where the first run of a maximal list ends, the kind of item changes. */
  lemma KindChangesAfterRun(a: seq<Event>)
    requires Maximal(a) && a != []
    ensures var n := |ItemsOf(a[0])|; 0 < n <= |Items(a)|
    ensures var n := |ItemsOf(a[0])|; n < |Items(a)| ==> !SameKind(Items(a)[0], Items(a)[n])
    ensures forall m :: 0 < m < |ItemsOf(a[0])| ==> SameKind(Items(a)[0], Items(a)[m])
  {
    HeadItem(a);
    HeadItem(a[1..]);
  }

  lemma FirstRunIsLongest(a: seq<Event>, b: seq<Event>)
    requires Maximal(a) && Maximal(b) && a != [] && b != [] && Items(a) == Items(b)
    ensures |ItemsOf(b[0])| <= |ItemsOf(a[0])|
  {
    KindChangesAfterRun(a);
    KindChangesAfterRun(b);
  }

  /** Two event lists cut into maximal runs are equal as soon as they spell the same items. */
  lemma {:induction false} MaximalIsCanonical(a: seq<Event>, b: seq<Event>)
    requires Maximal(a) && Maximal(b) && Items(a) == Items(b)
    ensures a == b
    decreases |a|
  {
    HeadItem(a);
    HeadItem(b);
    if a != [] {
      FirstRunIsLongest(a, b);
      FirstRunIsLongest(b, a);
      var n := |ItemsOf(a[0])|;
      assert ItemsOf(a[0]) == Items(a)[..n] == Items(b)[..n] == ItemsOf(b[0]);
      SameItemsOf(a[0], b[0]);
      assert Items(a[1..]) == Items(a)[n..] == Items(b)[n..] == Items(b[1..]);
      MaximalIsCanonical(a[1..], b[1..]);
      assert a == [a[0]] + a[1..] && b == [b[0]] + b[1..];
    }
  }

  lemma MaximalCons(thinking: bool, s: string, later: seq<Event>)
    requires Maximal(later)
    requires later != [] ==> later[0].ThinkingStart? || (thinking && later[0].TextChunk?)
    ensures Maximal(Chunk(thinking, s) + later)
    ensures !thinking && Chunk(thinking, s) + later != [] ==> !(Chunk(thinking, s) + later)[0].ThinkingChunk?
  {
    var all := Chunk(thinking, s) + later;
    if s == "" {
      assert all == later;
    } else {
      assert all[1..] == later;
    }
  }

  lemma {:induction false} ParseIsMaximal(t: Tags, s: string, thinking: bool)
    ensures Maximal(Parse(t, s, thinking))
    ensures !thinking && Parse(t, s, thinking) != [] ==> !Parse(t, s, thinking)[0].ThinkingChunk?
    decreases |s|
  {
    var idx := Index(s, t.Of(thinking));
    if idx == -1 {
      assert Parse(t, s, thinking) == Chunk(thinking, s);
    } else {
      var before, after := s[..idx], s[idx + |t.Of(thinking)|..];
      assert |after| < |s|;
      ParseAtHit(t, s, thinking, before, after);
      hide Index, Parse;
      ParseIsMaximal(t, after, !thinking);
      SwitchThenMaximal(thinking, Parse(t, after, !thinking));
      MaximalCons(thinking, before, Switch(thinking) + Parse(t, after, !thinking));
    }
  }

  lemma SwitchThenMaximal(thinking: bool, later: seq<Event>)
    requires Maximal(later) && (thinking && later != [] ==> !later[0].ThinkingChunk?)
    ensures Maximal(Switch(thinking) + later)
    ensures Switch(thinking) + later != [] ==>
              var e := (Switch(thinking) + later)[0]; e.ThinkingStart? || (thinking && e.TextChunk?)
  {
    if thinking {
      assert Switch(thinking) + later == later;
    } else {
      assert (Switch(thinking) + later)[1..] == later;
    }
  }

  // ---- The streaming step agrees with the reference ----

  /** The items of what one tag hit contributes, followed by what comes later. */
  lemma ItemsOfHit(thinking: bool, s: string, later: seq<Event>)
    ensures Items(Chunk(thinking, s) + (Switch(thinking) + later))
            == (Chars(thinking, s) + Items(Switch(thinking))) + Items(later)
  {
    Assoc(Chunk(thinking, s), Switch(thinking), later);
    ItemsAppend(Chunk(thinking, s) + Switch(thinking), later);
    ItemsAppend(Chunk(thinking, s), Switch(thinking));
    ItemsOfChunk(thinking, s);
  }

  lemma ParseMiss(t: Tags, s: string, thinking: bool)
    requires Index(s, t.Of(thinking)) == -1
    ensures Items(Parse(t, s, thinking)) == Chars(thinking, s)
    ensures FinalMode(t, s, thinking) == thinking
  {
    ItemsOfChunk(thinking, s);
  }

  lemma ParseAtHit(t: Tags, s: string, thinking: bool, before: string, after: string)
    requires var i := Index(s, t.Of(thinking)); i != -1 && before == s[..i] && after == s[i + |t.Of(thinking)|..]
    ensures Parse(t, s, thinking) == Chunk(thinking, before) + (Switch(thinking) + Parse(t, after, !thinking))
    ensures FinalMode(t, s, thinking) == FinalMode(t, after, !thinking)
  {
  }

  lemma ParseHit(t: Tags, s: string, thinking: bool, before: string, after: string)
    requires Index(s, t.Of(thinking)) == |before| && s == before + (t.Of(thinking) + after)
    ensures Items(Parse(t, s, thinking))
            == (Chars(thinking, before) + Items(Switch(thinking))) + Items(Parse(t, after, !thinking))
    ensures FinalMode(t, s, thinking) == FinalMode(t, after, !thinking)
  {
    assert s[..|before|] == before && s[|before| + |t.Of(thinking)|..] == after;
    hide *;
    ParseAtHit(t, s, thinking, before, after);
    ItemsOfHit(thinking, before, Parse(t, after, !thinking));
  }

  lemma CutAtIndex(s: string, tag: string)
    requires Index(s, tag) != -1
    ensures var i := Index(s, tag); s == s[..i] + (tag + s[i + |tag|..])
  {
    IndexIsFirst(s, tag);
  }

  /** Without a tag in sight, emitting the safe part changes nothing about the rest. */
  lemma EmitThenParse(t: Tags, a: string, b: string, thinking: bool)
    requires var i := Index(b, t.Of(thinking)); Index(a + b, t.Of(thinking)) == if i == -1 then -1 else |a| + i
    ensures Items(Parse(t, a + b, thinking)) == Chars(thinking, a) + Items(Parse(t, b, thinking))
    ensures FinalMode(t, a + b, thinking) == FinalMode(t, b, thinking)
  {
    var tag := t.Of(thinking);
    var j := Index(b, tag);
    if j == -1 {
      ParseMiss(t, a + b, thinking);
      ParseMiss(t, b, thinking);
      CharsSplit(thinking, a, b);
    } else {
      var before, after := b[..j], b[j + |tag|..];
      CutAtIndex(b, tag);
      ParseHit(t, b, thinking, before, after);
      Assoc(a, before, tag + after);
      ParseHit(t, a + b, thinking, a + before, after);
      CharsSplit(thinking, a, before);
      var x, y, z := Chars(thinking, before), Items(Switch(thinking)), Items(Parse(t, after, !thinking));
      Assoc(Chars(thinking, a), x, y);
      Assoc(Chars(thinking, a), x + y, z);
    }
  }

  lemma DrainMiss(t: Tags, s: string, thinking: bool)
    requires Index(s, t.Of(thinking)) == -1
    ensures var safe := |s| - HeldLen(s, [t.Of(thinking)]);
            Drain(t, s, thinking) == Drained(Chunk(thinking, s[..safe]), thinking, s[safe..])
  {
  }

  lemma DrainHit(t: Tags, s: string, thinking: bool)
    requires Index(s, t.Of(thinking)) != -1
    ensures var i := Index(s, t.Of(thinking));
            var d := Drain(t, s[i + |t.Of(thinking)|..], !thinking);
            Drain(t, s, thinking)
                == Drained(Chunk(thinking, s[..i]) + (Switch(thinking) + d.events), d.thinking, d.rest)
  {
  }

  /** Whatever follows, draining now and parsing the rest later spells what parsing it all spells. */
  ghost predicate DrainAgrees(t: Tags, s: string, thinking: bool, more: string) {
    var d := Drain(t, s, thinking);
    && Items(Parse(t, s + more, thinking)) == Items(d.events) + Items(Parse(t, d.rest + more, d.thinking))
    && FinalMode(t, s + more, thinking) == FinalMode(t, d.rest + more, d.thinking)
  }

  lemma {:induction false} DrainThenParse(t: Tags, s: string, thinking: bool, more: string)
    ensures DrainAgrees(t, s, thinking, more)
    decreases |s|
  {
    hide *;
    var tag := t.Of(thinking);
    var idx := Index(s, tag);
    if idx == -1 {
      DrainMissAgrees(t, s, thinking, more);
    } else {
      TagNonEmpty(t, thinking);
      var after := s[idx + |tag|..];
      DrainThenParse(t, after, !thinking, more);
      DrainHitAgrees(t, s, thinking, more, s[..idx], after);
    }
  }

  lemma DrainMissAgrees(t: Tags, s: string, thinking: bool, more: string)
    requires Index(s, t.Of(thinking)) == -1
    ensures DrainAgrees(t, s, thinking, more)
  {
    var tag := t.Of(thinking);
    var safe := |s| - HeldLen(s, [tag]);
    var now, held := s[..safe], s[safe..];
    DrainMiss(t, s, thinking);
    assert s == now + held;
    Assoc(now, held, more);
    IndexFromHeld(s, more, [tag], 0);
    EmitThenParse(t, now, held + more, thinking);
    ItemsOfChunk(thinking, now);
  }

  lemma DrainHitAgrees(t: Tags, s: string, thinking: bool, more: string, before: string, after: string)
    requires var i := Index(s, t.Of(thinking)); i != -1 && before == s[..i] && after == s[i + |t.Of(thinking)|..]
    requires DrainAgrees(t, after, !thinking, more)
    ensures DrainAgrees(t, s, thinking, more)
  {
    hide Index, Drain, Parse, FinalMode, Items, Chunk, Switch, Chars;
    var tag := t.Of(thinking);
    var d := Drain(t, after, !thinking);
    DrainHit(t, s, thinking);
    CutAtIndex(s, tag);
    IndexGrows(s, more, tag);
    Assoc(before, tag + after, more);
    Assoc(tag, after, more);
    ParseHit(t, s + more, thinking, before, after + more);
    ItemsOfHit(thinking, before, d.events);
    Assoc(Chars(thinking, before) + Items(Switch(thinking)), Items(d.events),
          Items(Parse(t, d.rest + more, d.thinking)));
  }

  /** What is held back holds no tag itself. */
  lemma {:induction false} RestHasNoTag(t: Tags, s: string, thinking: bool)
    ensures var d := Drain(t, s, thinking); Index(d.rest, t.Of(d.thinking)) == -1
    decreases |s|
  {
    var tag := t.Of(thinking);
    var idx := Index(s, tag);
    var d := Drain(t, s, thinking);
    if idx == -1 {
      HeldHasNoMatch(s, tag);
      assert d.rest == s[|s| - HeldLen(s, [tag])..] && d.thinking == thinking;
    } else {
      var later := Drain(t, s[idx + |tag|..], !thinking);
      RestHasNoTag(t, s[idx + |tag|..], !thinking);
      assert d.rest == later.rest && d.thinking == later.thinking;
    }
  }

  lemma {:induction false} StreamInvariant(t: Tags, chunks: seq<string>, more: string)
    ensures var d := Stream(t, chunks);
            Items(Parse(t, Concat(chunks) + more, false))
                == Items(d.events) + Items(Parse(t, d.rest + more, d.thinking))
    ensures var d := Stream(t, chunks);
            FinalMode(t, Concat(chunks) + more, false) == FinalMode(t, d.rest + more, d.thinking)
  {
    if chunks == [] {
      assert Concat(chunks) + more == more == "" + more;
      assert Items(Stream(t, chunks).events) == [];
    } else {
      var init, c := chunks[..|chunks| - 1], chunks[|chunks| - 1];
      var before := Stream(t, init);
      var now := Drain(t, before.rest + c, before.thinking);
      assert Stream(t, chunks) == Drained(before.events + now.events, now.thinking, now.rest);
      StreamInvariant(t, init, c + more);
      Assoc(Concat(init), c, more);
      Assoc(before.rest, c, more);
      DrainThenParse(t, before.rest + c, before.thinking, more);
      ItemsAppend(before.events, now.events);
      Assoc(Items(before.events), Items(now.events), Items(Parse(t, now.rest + more, now.thinking)));
    }
  }

  lemma StreamRestHasNoTag(t: Tags, chunks: seq<string>)
    ensures Index(Stream(t, chunks).rest, t.Of(Stream(t, chunks).thinking)) == -1
  {
    if chunks == [] {
      IndexIsFirst("", t.open);
    } else {
      var before := Stream(t, chunks[..|chunks| - 1]);
      RestHasNoTag(t, before.rest + chunks[|chunks| - 1], before.thinking);
    }
  }

  lemma {:induction false} DrainIsVisible(t: Tags, s: string, thinking: bool)
    ensures AllVisible(Drain(t, s, thinking).events)
    decreases |s|
  {
    var idx := Index(s, t.Of(thinking));
    if idx != -1 {
      DrainIsVisible(t, s[idx + |t.Of(thinking)|..], !thinking);
    }
  }

  lemma {:induction false} StreamIsVisible(t: Tags, chunks: seq<string>)
    ensures AllVisible(Stream(t, chunks).events)
  {
    if chunks != [] {
      var before := Stream(t, chunks[..|chunks| - 1]);
      StreamIsVisible(t, chunks[..|chunks| - 1]);
      DrainIsVisible(t, before.rest + chunks[|chunks| - 1], before.thinking);
    }
  }

  /** Main result: however the text is cut into chunks, the flushed stream delivers exactly the
      markers and maximal runs of a single pass over the concatenation. */
  lemma ChunkingDoesNotMatter(t: Tags, chunks: seq<string>)
    ensures Coalesce(StreamEvents(t, chunks)) == Parse(t, Concat(chunks), false)
    ensures Stream(t, chunks).thinking == FinalMode(t, Concat(chunks), false)
  {
    var d := Stream(t, chunks);
    StreamInvariant(t, chunks, "");
    StreamRestHasNoTag(t, chunks);
    assert Concat(chunks) + "" == Concat(chunks);
    assert d.rest + "" == d.rest;
    ItemsAppend(d.events, Chunk(d.thinking, d.rest));
    StreamIsVisible(t, chunks);
    CoalesceKeepsItems(StreamEvents(t, chunks));
    CoalesceIsMaximal(StreamEvents(t, chunks));
    ParseIsMaximal(t, Concat(chunks), false);
    MaximalIsCanonical(Coalesce(StreamEvents(t, chunks)), Parse(t, Concat(chunks), false));
  }

  // ---- The events determine the input ----

  /** The tag written before an event that arrives in the given mode, and the event's own text. */
  function RenderOne(t: Tags, e: Event, thinking: bool): string {
    match e
    case TextChunk(s) => (if thinking then t.close else "") + s
    case ThinkingStart => (if thinking then t.close else "") + t.open
    case ThinkingChunk(s) => s
  }

  /** Writes the tags back at the mode switches of a run list that starts in mode `thinking` and
      ends in mode `final`. */
  function Render(t: Tags, events: seq<Event>, thinking: bool, final: bool): string {
    if events == [] then if thinking && !final then t.close else ""
    else RenderOne(t, events[0], thinking) + Render(t, events[1..], !events[0].TextChunk?, final)
  }

  lemma RenderCons(t: Tags, e: Event, later: seq<Event>, thinking: bool, final: bool)
    ensures Render(t, [e] + later, thinking, final)
            == RenderOne(t, e, thinking) + Render(t, later, !e.TextChunk?, final)
  {
    assert ([e] + later)[1..] == later;
  }

  lemma RenderChunkFirst(t: Tags, thinking: bool, s: string, later: seq<Event>, final: bool)
    ensures Render(t, Chunk(thinking, s) + later, thinking, final) == s + Render(t, later, thinking, final)
  {
    if s == "" {
      assert Chunk(thinking, s) + later == later;
      assert s + Render(t, later, thinking, final) == Render(t, later, thinking, final);
    } else {
      var e := Chunk(thinking, s)[0];
      assert Chunk(thinking, s) == [e] && RenderOne(t, e, thinking) == s by { assert "" + s == s; }
      hide Render;
      RenderCons(t, e, later, thinking, final);
    }
  }

  lemma RenderSwitchFirst(t: Tags, later: seq<Event>, final: bool)
    ensures Render(t, Switch(false) + later, false, final) == t.open + Render(t, later, true, final)
  {
    hide Render;
    RenderCons(t, ThinkingStart, later, false, final);
    assert RenderOne(t, ThinkingStart, false) == t.open by { assert "" + t.open == t.open; }
  }

  /** Leaving a block: the closing tag is written exactly once before what follows. */
  lemma RenderLeavesBlock(t: Tags, after: string)
    ensures var later, final := Parse(t, after, false), FinalMode(t, after, false);
            Render(t, later, true, final) == t.close + Render(t, later, false, final)
  {
    ParseIsMaximal(t, after, false);
    ParseEmpty(t, after);
    var later, final := Parse(t, after, false), FinalMode(t, after, false);
    if later == [] {
      assert Render(t, later, true, final) == t.close == t.close + "";
    } else {
      hide Parse, FinalMode, Render;
      var e, rest := later[0], later[1..];
      assert later == [e] + rest;
      RenderCons(t, e, rest, true, final);
      RenderCons(t, e, rest, false, final);
      assert RenderOne(t, e, true) == t.close + RenderOne(t, e, false) by { RenderOneLeaving(t, e); }
      Assoc(t.close, RenderOne(t, e, false), Render(t, rest, !e.TextChunk?, final));
    }
  }

  lemma RenderOneLeaving(t: Tags, e: Event)
    requires !e.ThinkingChunk?
    ensures RenderOne(t, e, true) == t.close + RenderOne(t, e, false)
  {
  }

  lemma ParseEmpty(t: Tags, s: string)
    ensures Parse(t, s, false) == [] ==> !FinalMode(t, s, false)
  {
    var idx := Index(s, t.Of(false));
    if idx != -1 {
      var later := Switch(false) + Parse(t, s[idx + |t.Of(false)|..], true);
      assert |Chunk(false, s[..idx]) + later| > 0;
    }
  }

  lemma {:induction false} RenderParse(t: Tags, s: string, thinking: bool)
    ensures Render(t, Parse(t, s, thinking), thinking, FinalMode(t, s, thinking)) == s
    decreases |s|
  {
    var tag := t.Of(thinking);
    var idx := Index(s, tag);
    if idx == -1 {
      RenderMiss(t, s, thinking);
    } else {
      var after := s[idx + |tag|..];
      assert |after| < |s|;
      hide *;
      RenderParse(t, after, !thinking);
      RenderHit(t, s, thinking, s[..idx], after);
    }
  }

  lemma RenderMiss(t: Tags, s: string, thinking: bool)
    ensures Render(t, Chunk(thinking, s), thinking, thinking) == s
  {
    assert Chunk(thinking, s) == Chunk(thinking, s) + [];
    RenderChunkFirst(t, thinking, s, [], thinking);
    assert s + "" == s;
  }

  lemma RenderHit(t: Tags, s: string, thinking: bool, before: string, after: string)
    requires var i := Index(s, t.Of(thinking)); i != -1 && before == s[..i] && after == s[i + |t.Of(thinking)|..]
    requires Render(t, Parse(t, after, !thinking), !thinking, FinalMode(t, after, !thinking)) == after
    ensures Render(t, Parse(t, s, thinking), thinking, FinalMode(t, s, thinking)) == s
  {
    hide Index, Parse, FinalMode, Render;
    var tag := t.Of(thinking);
    var parsed, final := Parse(t, after, !thinking), FinalMode(t, after, !thinking);
    var later := Switch(thinking) + parsed;
    CutAtIndex(s, tag);
    ParseAtHit(t, s, thinking, before, after);
    if thinking {
      RenderLeavesBlock(t, after);
      assert later == parsed;
    } else {
      RenderSwitchFirst(t, parsed, final);
    }
    assert Render(t, later, thinking, final) == tag + after;
    RenderChunkFirst(t, thinking, before, later, final);
  }

  /** Reinserting the tags at the mode switches of the delivered runs gives back the input. */
  lemma StreamLosesNothing(t: Tags, chunks: seq<string>)
    ensures Render(t, Coalesce(StreamEvents(t, chunks)), false, Stream(t, chunks).thinking) == Concat(chunks)
  {
    ChunkingDoesNotMatter(t, chunks);
    RenderParse(t, Concat(chunks), false);
  }

  // ---- The parser itself ----

  /** The yield callback: it records every event it is called with, and its call number failAt
      (counted from 0) reports an error. A negative failAt never fails. */
  class Sink {
    const failAt: int
    var calls: seq<Event>

    constructor (failAt: int)
      ensures this.failAt == failAt && calls == []
    {
      this.failAt := failAt;
      calls := [];
    }

    method Yield(e: Event) returns (ok: bool)
      modifies this
      ensures calls == old(calls) + [e]
      ensures ok <==> |old(calls)| != failAt
    {
      ok := |calls| != failAt;
      calls := calls + [e];
    }
  }

  /** How many bytes at the start of s may be flushed: all but the longest suffix of s that is
      a prefix of tag. */
  method SafeFlushEnd(s: string, tag: string) returns (end: nat)
    ensures end <= |s| && |s| - end <= |tag| && HasSuffix(s, tag[..|s| - end])
    ensures forall i: nat :: |s| - end < i <= |tag| ==> !HasSuffix(s, tag[..i])
    ensures Index(s, tag) == -1 ==> end == |s| - HeldLen(s, [tag])
  {
    var maxMatch := 0;
    var i := 1;
    while i <= |s| && i <= |tag|
      invariant 1 <= i && maxMatch < i && maxMatch <= |s| && maxMatch <= |tag|
      invariant HasSuffix(s, tag[..maxMatch])
      invariant forall k: nat :: maxMatch < k < i && k <= |tag| ==> !HasSuffix(s, tag[..k])
    {
      if HasSuffix(s, tag[..i]) {
        maxMatch := i;
      }
      i := i + 1;
    }
    end := |s| - maxMatch;
    if Index(s, tag) == -1 {
      LongestTagPrefixIsHeld(s, tag, maxMatch);
    }
  }

  lemma LongestTagPrefixIsHeld(s: string, tag: string, n: nat)
    requires n <= |s| && n <= |tag| && HasSuffix(s, tag[..n]) && Index(s, tag) == -1
    requires forall i: nat :: n < i <= |tag| ==> !HasSuffix(s, tag[..i])
    ensures n == HeldLen(s, [tag])
  {
    var h := HeldLen(s, [tag]);
    HeldLenIs(s, [tag]);
    IndexIsFirst(s, tag);
    if n == |tag| {
      assert tag[..n] == tag;
      assert OccursAt(s, tag, |s| - n);
    }
    assert [tag][0] == tag && Tail(s, n) == tag[..n];
    assert StartsSome(Tail(s, n), [tag]);
    if 0 < h {
      assert Tail(s, h) == tag[..h];
      assert HasSuffix(s, tag[..h]);
    }
  }

  // ---- How far a Feed has come: d is the whole result, `sent` its events so far ----

  ghost predicate IsAfter(d: Drained, sent: seq<Event>, later: Drained) {
    d == later.After(sent)
  }

  lemma DrainedNothing(d: Drained)
    ensures IsAfter(d, [], d)
  {
    assert [] + d.events == d.events;
  }

  lemma TagNonEmpty(t: Tags, thinking: bool)
    ensures t.Of(thinking) != ""
  {
  }

  /** Sending a chunk moves it from the later events to the sent ones. */
  lemma IsAfterChunk(d: Drained, sent: seq<Event>, thinking: bool, s: string, events: seq<Event>, mode: bool,
      rest: string)
    requires IsAfter(d, sent, Drained(Chunk(thinking, s) + events, mode, rest))
            || (events == [] && IsAfter(d, sent, Drained(Chunk(thinking, s), mode, rest)))
    ensures IsAfter(d, sent + Chunk(thinking, s), Drained(events, mode, rest))
    ensures s == "" ==> Chunk(thinking, s) == []
    ensures s != "" ==>
            |Chunk(thinking, s)| == 1 && |sent| < |d.events| && d.events[..|sent| + 1] == sent + Chunk(thinking, s)
                        && d.events[|sent|].TextChunk? == !thinking
    ensures d.thinking == mode && d.rest == rest
    ensures events == [] ==> d.events == sent + Chunk(thinking, s)
  {
    Assoc(sent, Chunk(thinking, s), events);
    assert Chunk(thinking, s) + [] == Chunk(thinking, s);
    assert (sent + Chunk(thinking, s)) + [] == sent + Chunk(thinking, s);
  }

  lemma IsAfterSwitch(d: Drained, sent: seq<Event>, thinking: bool, later: Drained)
    requires IsAfter(d, sent, Drained(Switch(thinking) + later.events, later.thinking, later.rest))
    ensures thinking ==> IsAfter(d, sent, later)
    ensures !thinking ==> IsAfter(d, sent + [ThinkingStart], later) && |sent| < |d.events|
                          && d.events[..|sent| + 1] == sent + [ThinkingStart] && !d.events[|sent|].TextChunk?
  {
    Assoc(sent, Switch(thinking), later.events);
    assert [] + later.events == later.events;
  }

  lemma DrainEmpty(t: Tags, d: Drained, sent: seq<Event>, thinking: bool)
    requires IsAfter(d, sent, Drain(t, "", thinking))
    ensures d == Drained(sent, thinking, "")
  {
    IndexIsFirst("", t.Of(thinking));
    DrainMiss(t, "", thinking);
    assert sent + [] == sent;
  }

  class ThinkTagParser {
    var isThinking: bool
    var buf: string
    const tags: Tags

    constructor ()
      ensures !isThinking && buf == "" && tags == TagFields(OPEN_TAG, CLOSE_TAG)
    {
      isThinking, buf := false, "";
      tags := TagFields(OPEN_TAG, CLOSE_TAG);
    }

    /** Processes one chunk. When the callback fails, delivery stops with the failing event and
        the content not yet delivered is dropped; the mode stays that of the failing event. */
    method Feed(chunk: string, sink: Sink) returns (ok: bool)
      modifies this, sink
      ensures var d := Drain(tags, old(buf) + chunk, old(isThinking));
              ok <==> !(0 <= sink.failAt - |old(sink.calls)| < |d.events|)
      ensures ok ==>
                var d := Drain(tags, old(buf) + chunk, old(isThinking));
                sink.calls == old(sink.calls) + d.events && isThinking == d.thinking && buf == d.rest
      ensures !ok ==>
                var d, k := Drain(tags, old(buf) + chunk, old(isThinking)), sink.failAt - |old(sink.calls)|;
                sink.calls == old(sink.calls) + d.events[..k + 1] && buf == "" && isThinking == !d.events[k].TextChunk?
    {
      hide *;
      var content := buf + chunk;
      buf := "";
      ghost var first, d := sink.calls, Drain(tags, content, isThinking);
      ghost var sent: seq<Event> := [];
      ok := true;
      DrainedNothing(d);
      while content != ""
        invariant ok && buf == ""
        invariant sink.calls == first + sent
        invariant sink.failAt < |first| || |first| + |sent| <= sink.failAt
        invariant IsAfter(d, sent, Drain(tags, content, isThinking))
        decreases |content|
      {
        var tag := tags.Of(isThinking);
        assert tag != "" by { TagNonEmpty(tags, isThinking); }
        var idx := FindIndex(content, tag);
        if idx == -1 {
          DrainMiss(tags, content, isThinking);
          var safeEnd := SafeFlushEnd(content, tag);
          ok := Deliver(content[..safeEnd], sink);
          Assoc(first, sent, Chunk(isThinking, content[..safeEnd]));
          IsAfterChunk(d, sent, isThinking, content[..safeEnd], [], isThinking, content[safeEnd..]);
          if !ok { return; }
          buf := content[safeEnd..];
          return;
        }
        DrainHit(tags, content, isThinking);
        ghost var later := Drain(tags, content[idx + |tag|..], !isThinking);
        ok := Deliver(content[..idx], sink);
        Assoc(first, sent, Chunk(isThinking, content[..idx]));
        IsAfterChunk(d, sent, isThinking, content[..idx], Switch(isThinking) + later.events, later.thinking,
                     later.rest);
        if !ok { return; }
        sent := sent + Chunk(isThinking, content[..idx]);
        Assoc(first, sent, [ThinkingStart]);
        IsAfterSwitch(d, sent, isThinking, later);
        if !isThinking {
          isThinking := true;
          ok := sink.Yield(ThinkingStart);
          if !ok { return; }
          sent := sent + [ThinkingStart];
        } else {
          isThinking := false;
        }
        content := content[idx + |tag|..];
      }
      DrainEmpty(tags, d, sent, isThinking);
    }

    /** Yields a piece of text, if there is any, as a chunk of the current mode. */
    method Deliver(text: string, sink: Sink) returns (ok: bool)
      modifies sink
      ensures sink.calls == old(sink.calls) + Chunk(isThinking, text)
      ensures ok <==> text == "" || |old(sink.calls)| != sink.failAt
    {
      ok := true;
      if text != "" {
        ok := sink.Yield(if isThinking then ThinkingChunk(text) else TextChunk(text));
      }
    }

    /** Delivers what is still held back when the stream ends. */
    method Flush(sink: Sink) returns (ok: bool)
      modifies this, sink
      ensures buf == "" && isThinking == old(isThinking)
      ensures sink.calls == old(sink.calls) + Chunk(old(isThinking), old(buf))
      ensures ok <==> old(buf) == "" || |old(sink.calls)| != sink.failAt
    {
      var rem := buf;
      buf := "";
      ok := Deliver(rem, sink);
    }
  }

  /** A whole run of the parser with a callback that never fails. */
  method ParseStream(chunks: seq<string>, sink: Sink) returns (parser: ThinkTagParser)
    requires sink.failAt < 0 && sink.calls == []
    modifies sink
    ensures Coalesce(sink.calls) == Parse(parser.tags, Concat(chunks), false)
    ensures Render(parser.tags, Coalesce(sink.calls), false, parser.isThinking) == Concat(chunks)
    ensures parser.tags == TagFields(OPEN_TAG, CLOSE_TAG)
  {
    parser := new ThinkTagParser();
    NoChunks(parser.tags, chunks);
    hide *;
    var i := 0;
    while i < |chunks|
      invariant i <= |chunks|
      invariant fresh(parser)
      invariant Stream(parser.tags, chunks[..i]) == Drained(sink.calls, parser.isThinking, parser.buf)
    {
      NextChunk(parser.tags, chunks, i);
      var ok := parser.Feed(chunks[i], sink);
      assert ok;
      assert Stream(parser.tags, chunks[..i + 1]) == Drained(sink.calls, parser.isThinking, parser.buf);
      i := i + 1;
    }
    assert chunks[..|chunks|] == chunks;
    StreamEventsAre(parser.tags, chunks);
    ChunkingDoesNotMatter(parser.tags, chunks);
    StreamLosesNothing(parser.tags, chunks);
    var ok := parser.Flush(sink);
    assert sink.calls == StreamEvents(parser.tags, chunks);
  }

  lemma NoChunks(t: Tags, chunks: seq<string>)
    ensures Stream(t, chunks[..0]) == Drained([], false, "")
  {
  }

  lemma NextChunk(t: Tags, chunks: seq<string>, i: nat)
    requires i < |chunks|
    ensures var before := Stream(t, chunks[..i]);
            var d := Drain(t, before.rest + chunks[i], before.thinking);
            Stream(t, chunks[..i + 1]) == Drained(before.events + d.events, d.thinking, d.rest)
  {
    assert chunks[..i + 1][..i] == chunks[..i];
    hide Drain;
  }

  lemma StreamEventsAre(t: Tags, chunks: seq<string>)
    ensures var d := Stream(t, chunks); StreamEvents(t, chunks) == d.events + Chunk(d.thinking, d.rest)
  {
    hide Stream;
  }
}

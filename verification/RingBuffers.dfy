/** The two ring buffers: the short-term memory of an agent (internal/bionic/context/context_manager.go)
    and the queue of sensory signals (internal/brain/ringbuffer.go). Both refine a bounded queue that
    drops its oldest element. */
module RingBuffers {
  import opened Wrappers
  import opened ContextNodes
  import T = Texts

  // ---- The bounded queue ----

  function LastN<T>(s: seq<T>, n: nat): (r: seq<T>)
    ensures |r| == if |s| <= n then |s| else n
    ensures r == s[|s| - |r|..]
  {
    if |s| <= n then s else s[|s| - n..]
  }

  /** Cutting after every append is the same as cutting once at the end. */
  lemma LastNOfAppend<T>(s: seq<T>, x: T, n: nat)
    ensures LastN(LastN(s, n) + [x], n) == LastN(s + [x], n)
  {
    if |s| > n > 0 {
      var k := |s| - n;
      assert LastN(s, n) == s[k..] && LastN(s + [x], n) == (s + [x])[k + 1..]
             && LastN(s[k..] + [x], n) == (s[k..] + [x])[1..];
      hide *;
      T.DropOfAppend(s, [x], k + 1);
      T.DropOfAppend(s[k..], [x], 1);
      T.DropInTwo(s, k, 1);
    }
  }

  function Pushed<T>(q: seq<T>, x: T, capacity: nat): seq<T> {
    LastN(q + [x], capacity)
  }

  function PushAll<T>(xs: seq<T>, capacity: nat): seq<T> {
    if xs == [] then [] else Pushed(PushAll(xs[..|xs| - 1], capacity), xs[|xs| - 1], capacity)
  }

  /** After any run of appends the queue holds the last min(n, capacity) elements in order. */
  lemma {:induction false} PushAllIsLastN<T>(xs: seq<T>, capacity: nat)
    ensures PushAll(xs, capacity) == LastN(xs, capacity)
  {
    if xs != [] {
      var init, last := xs[..|xs| - 1], xs[|xs| - 1];
      assert xs == init + [last];
      assert PushAll(xs, capacity) == LastN(PushAll(init, capacity) + [last], capacity);
      hide *;
      PushAllIsLastN(init, capacity);
      LastNOfAppend(init, last, capacity);
    }
  }

  function Next(i: nat, n: nat): nat {
    if i + 1 == n then 0 else i + 1
  }

  /** (i + 1) % n as a step around the ring. */
  lemma NextIndex(i: nat, n: nat)
    requires i < n
    ensures (i + 1) % n == Next(i, n)
  {
  }

  method Advanced(i: nat, n: nat) returns (r: nat)
    requires i < n
    ensures r == Next(i, n)
  {
    NextIndex(i, n);
    r := (i + 1) % n;
  }

  lemma WrapIndex(offset: nat, i: nat, n: nat)
    requires offset < n && i < n
    ensures (offset + i) % n == if offset + i < n then offset + i else offset + i - n
  {
  }

  // ---- The boundary of the protected zone ----

  function TurnsOf(nodes: seq<Node>): set<string> {
    set i | 0 <= i < |nodes| :: nodes[i].turnID
  }

  function DistinctTurns(nodes: seq<Node>): nat {
    |TurnsOf(nodes)|
  }

  /** r starts the longest suffix with at most n distinct turns. */
  predicate IsBoundary(nodes: seq<Node>, n: nat, r: nat) {
    && r <= |nodes| && DistinctTurns(nodes[r..]) <= n
    && forall k :: 0 <= k < r ==> DistinctTurns(nodes[k..]) > n
  }

  lemma BoundaryIsUnique(nodes: seq<Node>, n: nat, a: nat, b: nat)
    requires IsBoundary(nodes, n, a) && IsBoundary(nodes, n, b)
    ensures a == b
  {
  }

  lemma TurnsOfCons(nodes: seq<Node>, i: nat)
    requires i < |nodes|
    ensures TurnsOf(nodes[i..]) == TurnsOf(nodes[i + 1..]) + {nodes[i].turnID}
  {
    var longer, shorter := nodes[i..], nodes[i + 1..];
    assert longer == [nodes[i]] + shorter;
    forall t | t in TurnsOf(shorter) ensures t in TurnsOf(longer) {
      var k :| 0 <= k < |shorter| && shorter[k].turnID == t;
      assert longer[k + 1].turnID == t;
    }
    assert longer[0].turnID == nodes[i].turnID;
    forall t | t in TurnsOf(longer) ensures t in TurnsOf(shorter) + {nodes[i].turnID} {
      var k :| 0 <= k < |longer| && longer[k].turnID == t;
      assert k > 0 ==> shorter[k - 1].turnID == t;
    }
  }

  lemma {:induction false} MoreTurns(nodes: seq<Node>, k: nat, i: nat)
    requires k <= i <= |nodes|
    ensures DistinctTurns(nodes[k..]) >= DistinctTurns(nodes[i..])
    decreases i - k
  {
    if k < i {
      MoreTurns(nodes, k + 1, i);
      TurnsOfCons(nodes, k);
      hide TurnsOf;
      var shorter, longer := TurnsOf(nodes[k + 1..]), TurnsOf(nodes[k..]);
      assert |longer - shorter| + |shorter| == |longer|;
    }
  }

  /** The nodes that are not nil, in order. */
  function Present(slots: seq<Option<Node>>): seq<Node> {
    if slots == [] then []
    else
      var last := slots[|slots| - 1];
      Present(slots[..|slots| - 1]) + if last.Some? then [last.value] else []
  }

  lemma {:induction false} PresentOfAppend(a: seq<Option<Node>>, b: seq<Option<Node>>, slot: Option<Node>)
    ensures Present(a + b) == Present(a) + Present(b)
    ensures Present([slot]) == if slot.Some? then [slot.value] else []
  {
    assert [slot][..0] == [];
    if b == [] {
      assert a + b == a;
    } else {
      var init, last := b[..|b| - 1], b[|b| - 1];
      PresentOfAppend(a, init, slot);
      assert (a + b)[..|a + b| - 1] == a + init && (a + b)[|a + b| - 1] == last;
      T.Assoc(Present(a), Present(init), if last.Some? then [last.value] else []);
    }
  }

  lemma FirstTooMany(nodes: seq<Node>, n: nat, i: nat)
    requires i < |nodes| && DistinctTurns(nodes[i..]) > n && DistinctTurns(nodes[i + 1..]) <= n
    ensures IsBoundary(nodes, n, i + 1)
  {
    hide DistinctTurns;
    forall k | 0 <= k < i + 1 ensures DistinctTurns(nodes[k..]) > n {
      MoreTurns(nodes, k, i);
    }
  }

  lemma WholeIsProtected(nodes: seq<Node>, n: nat)
    requires |TurnsOf(nodes[0..])| <= n
    ensures IsBoundary(nodes, n, 0)
  {
  }

  // ---- The short-term memory ----

  /** A ring that overwrites at `offset`, with `size` elements stored. */
  predicate IsRing<T>(data: seq<T>, offset: nat, size: nat) {
    size <= |data| && offset < |data| && (size < |data| ==> offset == size)
  }

  function Stored<T>(data: seq<T>, offset: nat, size: nat): (q: seq<T>)
    requires IsRing(data, offset, size)
    ensures |q| == size
  {
    if size < |data| then data[..size] else data[offset..] + data[..offset]
  }

  lemma OverwriteIsPush<T>(data: seq<T>, offset: nat, size: nat, x: T)
    requires IsRing(data, offset, size)
    ensures var data1 := data[offset := x];
            var offset1, size1 := Next(offset, |data|), if size < |data| then size + 1 else size;
            IsRing(data1, offset1, size1)
                && Stored(data1, offset1, size1) == Pushed(Stored(data, offset, size), x, |data|)
  {
    var data1 := data[offset := x];
    if size < |data| {
      assert data1[..size + 1] == data[..size] + [x];
      if size + 1 == |data| {
        assert data1[0..] + data1[..0] == data1[..size + 1];
      }
    } else {
      var q := data[offset..] + data[..offset];
      assert (q + [x])[1..] == data[offset + 1..] + data[..offset] + [x];
      assert data1[..offset + 1] == data[..offset] + [x];
      assert data1[offset + 1..] == data[offset + 1..];
      if offset + 1 == |data| {
        assert data1[0..] + data1[..0] == data1[..offset + 1];
      }
    }
  }

  lemma StoredFront<T>(data: seq<T>, offset: nat, size: nat, i: nat)
    requires IsRing(data, offset, size) && i < size < |data|
    ensures Stored(data, offset, size)[i] == data[i]
  {
  }

  lemma StoredAt<T>(data: seq<T>, offset: nat, i: nat)
    requires offset < |data| && i < |data|
    ensures IsRing(data, offset, |data|) && Stored(data, offset, |data|)[i] == data[(offset + i) % |data|]
  {
    WrapIndex(offset, i, |data|);
  }

  lemma {:induction false} PresentIsShorter(slots: seq<Option<Node>>)
    ensures |Present(slots)| <= |slots|
  {
    if slots != [] {
      PresentIsShorter(slots[..|slots| - 1]);
    }
  }

  lemma EmptyRing<T>(data: seq<T>, offset: nat, size: nat)
    requires IsRing(data, offset, size) && size == 0
    ensures offset == 0
  {
  }

  lemma RingOffset<T>(data: seq<T>, offset: nat, size: nat)
    requires IsRing(data, offset, size)
    ensures offset < |data|
  {
  }

  lemma NothingPresent(slots: seq<Option<Node>>)
    ensures Present(slots[..0]) == []
  {
  }

  lemma PresentStep(slots: seq<Option<Node>>, i: nat)
    requires i < |slots|
    ensures Present(slots[..i + 1]) == Present(slots[..i]) + if slots[i].Some? then [slots[i].value] else []
  {
    assert slots[..i + 1][..i] == slots[..i];
  }

  /** The slots behind the configured capacity are not used: a mode may lower it below the length of
      the array. */
  class STMBuffer {
    var capacity: nat
    var protectedTurns: int
    const nodes: array<Option<Node>>
    var offset: nat
    var size: nat

    ghost predicate Valid()
      reads this, nodes
    {
      capacity <= nodes.Length && IsRing(nodes[..capacity], offset, size)
    }

    /** The stored nodes, oldest first. */
    ghost function Queue(): (q: seq<Option<Node>>)
      reads this, nodes
      requires Valid()
      ensures |q| == size
    {
      Stored(nodes[..capacity], offset, size)
    }

    constructor (limit: nat, turns: int)
      requires limit > 0
      ensures Valid() && capacity == nodes.Length == limit && protectedTurns == turns && Queue() == [] && fresh(nodes)
    {
      capacity, protectedTurns, offset, size := limit, turns, 0, 0;
      nodes := new Option<Node>[limit](_ => None);
    }

    /** What a mode does to the empty buffer of a new manager. */
    method Configure(limit: nat, turns: int)
      requires Valid() && Queue() == [] && 0 < limit <= nodes.Length
      modifies this
      ensures Valid() && capacity == limit && protectedTurns == turns && Queue() == []
    {
      assert size == 0;
      assert offset == 0 by {
        EmptyRing(nodes[..capacity], offset, size);
      }
      capacity, protectedTurns := limit, turns;
    }

    method Append(node: Option<Node>)
      requires Valid()
      modifies this`offset, this`size, nodes
      ensures Valid() && Queue() == Pushed(old(Queue()), node, capacity)
    {
      ghost var data := nodes[..capacity];
      OverwriteIsPush(data, offset, size, node);
      RingOffset(data, offset, size);
      var next := Advanced(offset, capacity);
      hide Stored, Pushed, IsRing, Next;
      Overwrite(node);
      offset := next;
      if size < capacity {
        size := size + 1;
      }
    }

    method Overwrite(node: Option<Node>)
      requires offset < capacity <= nodes.Length
      modifies nodes
      ensures nodes[..capacity] == old(nodes[..capacity])[offset := node]
    {
      nodes[offset] := node;
    }

    /** Range with a function that stores every node. */
    method Snapshot() returns (result: seq<Node>)
      requires Valid()
      ensures result == Present(Queue())
    {
      ghost var data, q := nodes[..capacity], Queue();
      assert capacity <= nodes.Length && IsRing(data, offset, size) && q == Stored(data, offset, size);
      RingOffset(data, offset, size);
      NothingPresent(q);
      hide *;
      result := [];
      var i := 0;
      if size < capacity {
        while i < size
          invariant i <= size && result == Present(q[..i])
        {
          PresentStep(q, i);
          StoredFront(data, offset, size, i);
          if nodes[i].Some? {
            result := result + [nodes[i].value];
          }
          i := i + 1;
        }
        assert q[..size] == q;
        return;
      }
      while i < capacity
        invariant i <= capacity && result == Present(q[..i])
      {
        PresentStep(q, i);
        StoredAt(data, offset, i);
        var idx := (offset + i) % capacity;
        assert q[i] == nodes[idx];
        if nodes[idx].Some? {
          result := result + [nodes[idx].value];
        }
        i := i + 1;
      }
      assert q[..capacity] == q;
    }

    method ProtectedBoundary() returns (boundary: nat)
      requires Valid()
      ensures IsBoundary(Present(Queue()), if protectedTurns < 0 then 0 else protectedTurns, boundary)
    {
      if size == 0 {
        assert Queue() == [];
        return 0;
      }
      var snapshot := Snapshot();
      boundary := BoundaryOf(snapshot, protectedTurns);
    }

    static method BoundaryOf(snapshot: seq<Node>, protectedTurns: int) returns (boundary: nat)
      ensures IsBoundary(snapshot, if protectedTurns < 0 then 0 else protectedTurns, boundary)
    {
      ghost var limit := if protectedTurns < 0 then 0 else protectedTurns;
      var seen: set<string> := {};
      var protectedCount := 0;
      var i := |snapshot|;
      NoTurns(snapshot);
      hide *;
      while i > 0
        invariant 0 <= i <= |snapshot|
        invariant seen == TurnsOf(snapshot[i..]) && protectedCount == |seen| <= limit
      {
        TurnsOfCons(snapshot, i - 1);
        AddTurn(seen, snapshot[i - 1].turnID);
        i := i - 1;
        if snapshot[i].turnID !in seen {
          seen := seen + {snapshot[i].turnID};
          protectedCount := protectedCount + 1;
        }
        if protectedCount > protectedTurns {
          BoundaryAfter(snapshot, limit, i);
          return i + 1;
        }
      }
      WholeIsProtected(snapshot, limit);
      boundary := 0;
    }
  }

  lemma NoTurns(nodes: seq<Node>)
    ensures TurnsOf(nodes[|nodes|..]) == {}
  {
  }

  lemma AddTurn(seen: set<string>, turn: string)
    ensures if turn in seen then seen + {turn} == seen else |seen + {turn}| == |seen| + 1
  {
  }

  lemma BoundaryAfter(nodes: seq<Node>, n: nat, i: nat)
    requires i < |nodes| && |TurnsOf(nodes[i..])| > n && |TurnsOf(nodes[i + 1..])| <= n
    ensures IsBoundary(nodes, n, i + 1)
  {
    hide TurnsOf, IsBoundary;
    FirstTooMany(nodes, n, i);
  }

  /** A whole run of the buffer, in any mode: the snapshot is the last min(n, capacity) nodes appended,
      in order, and the boundary is that of this list. */
  method StoreAll(slots: nat, limit: nat, turns: int, xs: seq<Option<Node>>)
      returns (snapshot: seq<Node>, boundary: nat)
    requires 0 < limit <= slots
    ensures snapshot == Present(LastN(xs, limit))
    ensures IsBoundary(snapshot, if turns < 0 then 0 else turns, boundary)
  {
    hide *;
    var stm := new STMBuffer(slots, turns);
    stm.Configure(limit, turns);
    NothingPushed(xs, limit);
    var i := 0;
    while i < |xs|
      invariant i <= |xs| && fresh(stm) && fresh(stm.nodes) && stm.Valid()
      invariant stm.capacity == limit && stm.protectedTurns == turns
      invariant stm.Queue() == PushAll(xs[..i], limit)
    {
      PushNext(xs, i, limit);
      stm.Append(xs[i]);
      i := i + 1;
    }
    assert xs[..|xs|] == xs;
    PushAllIsLastN(xs, limit);
    snapshot := stm.Snapshot();
    boundary := stm.ProtectedBoundary();
  }

  lemma NothingPushed<T>(xs: seq<T>, capacity: nat)
    ensures PushAll(xs[..0], capacity) == []
  {
  }

  lemma PushNext<T>(xs: seq<T>, i: nat, capacity: nat)
    requires i < |xs|
    ensures PushAll(xs[..i + 1], capacity) == Pushed(PushAll(xs[..i], capacity), xs[i], capacity)
  {
    assert xs[..i + 1][..i] == xs[..i];
  }

  // ---- The queue of sensory signals ----

  /** The elements of a ring of which `size` are in use from `head` on. */
  function Unrolled<T>(data: seq<T>, head: nat, size: nat): (q: seq<T>)
    requires size <= |data| && (head < |data| || |data| == 0 == head)
    ensures |q| == size
    ensures forall k :: 0 <= k < size ==> q[k] == data[if head + k < |data| then head + k else head + k - |data|]
  {
    if head + size <= |data| then data[head..head + size] else data[head..] + data[..head + size - |data|]
  }

  lemma PushIntoRing<T>(data: seq<T>, head: nat, size: nat, x: T)
    requires size < |data| && head < |data|
    ensures var tail := TailOf(head, size, |data|);
            0 <= tail < |data| && Unrolled(data[tail := x], head, size + 1) == Unrolled(data, head, size) + [x]
  {
    var a, b := Unrolled(data[TailOf(head, size, |data|) := x], head, size + 1), Unrolled(data, head, size);
    hide Unrolled;
    forall k | 0 <= k < size + 1 ensures a[k] == (b + [x])[k] {
    }
  }

  /** Moving the head past the oldest element, whatever is written over it. */
  lemma WithoutOldest<T>(data: seq<T>, data1: seq<T>, head: nat, size: nat)
    requires 0 < size <= |data| && head < |data| == |data1|
    requires forall i :: 0 <= i < |data| && i != head ==> data1[i] == data[i]
    ensures Unrolled(data1, Next(head, |data|), size - 1) == Unrolled(data, head, size)[1..]
  {
    var a, b := Unrolled(data1, Next(head, |data|), size - 1), Unrolled(data, head, size);
    hide Unrolled;
    forall k | 0 <= k < size - 1 ensures a[k] == b[1..][k] {
      assert b[1..][k] == b[k + 1];
    }
  }

  lemma DropOldest<T>(data: seq<T>, head: nat, size: nat, filler: T)
    requires 0 < size <= |data| && head < |data|
    ensures var next := Next(head, |data|);
            && Unrolled(data, next, size - 1) == Unrolled(data, head, size)[1..]
            && Unrolled(data[head := filler], next, size - 1) == Unrolled(data, head, size)[1..]
            && data[head] == Unrolled(data, head, size)[0]
  {
    hide Unrolled;
    WithoutOldest(data, data, head, size);
    WithoutOldest(data, data[head := filler], head, size);
  }

  /** Where the element after the stored ones goes. */
  function TailOf(head: nat, size: nat, n: nat): int {
    if head + size < n then head + size else head + size - n
  }

  /** A bounded push makes room first if there is none. */
  lemma PushedIs<S>(q: seq<S>, x: S, capacity: nat)
    requires |q| <= capacity && capacity > 0
    ensures Pushed(q, x, capacity) == if |q| == capacity then q[1..] + [x] else q + [x]
  {
    if |q| == capacity {
      T.DropOfAppend(q, [x], 1);
    }
  }

  class SignalRingBuffer<Signal(0)> {
    const capacity: nat
    const data: array<Signal>
    const zero: Signal
    var head: nat
    var tail: nat
    var size: nat

    ghost predicate Valid()
      reads this
    {
      && data.Length == capacity && size <= capacity
      && (if capacity == 0 then head == tail == 0
          else head < capacity && tail == TailOf(head, size, capacity))
    }

    ghost function Queue(): seq<Signal>
      reads this, data
      requires Valid()
    {
      Unrolled(data[..], head, size)
    }

    constructor (limit: nat, empty: Signal)
      ensures Valid() && capacity == limit && Queue() == [] && fresh(data)
    {
      capacity, zero, head, tail, size := limit, empty, 0, 0, 0;
      data := new Signal[limit](_ => empty);
    }

    method Push(sig: Signal)
      requires Valid()
      modifies this, data
      ensures Valid() && Queue() == Pushed(old(Queue()), sig, capacity)
    {
      if capacity == 0 {
        return;
      }
      PushedIs(Queue(), sig, capacity);
      hide Pushed;
      if size == capacity {
        EvictOldest();
      }
      Put(sig);
    }

    method EvictOldest()
      requires Valid() && size == capacity > 0
      modifies this
      ensures Valid() && size < capacity && Queue() == old(Queue())[1..]
    {
      DropOldest(data[..], head, size, zero);
      head := Advanced(head, capacity);
      hide Unrolled;
      size := size - 1;
    }

    method Put(sig: Signal)
      requires Valid() && size < capacity
      modifies this, data
      ensures Valid() && Queue() == old(Queue()) + [sig]
    {
      PushIntoRing(data[..], head, size, sig);
      NextIndex(tail, capacity);
      hide Unrolled;
      ghost var data1 := data[..][tail := sig];
      data[tail] := sig;
      assert data[..] == data1;
      tail := (tail + 1) % capacity;
      size := size + 1;
    }

    method Pop() returns (sig: Signal, ok: bool)
      requires Valid()
      modifies this, data
      ensures Valid() && (ok <==> old(Queue()) != [])
      ensures if ok then [sig] + Queue() == old(Queue()) else sig == zero && Queue() == []
    {
      if size == 0 {
        return zero, false;
      }
      DropOldest(data[..], head, size, zero);
      NextIndex(head, capacity);
      sig := data[head];
      ghost var data1 := data[..][head := zero];
      data[head] := zero;
      assert data[..] == data1;
      head := (head + 1) % capacity;
      size := size - 1;
      ok := true;
    }
  }

  /** A channel as the sequence of what it holds: EvictAndPushChannel without other goroutines on it. */
  method EvictAndPushChannel<Signal>(ch: seq<Signal>, capacity: nat, sig: Signal) returns (after: seq<Signal>)
    requires |ch| <= capacity
    ensures after == Pushed(ch, sig, capacity)
  {
    after := ch;
    if |after| < capacity {
      after := after + [sig];
    } else {
      if |after| > 0 {
        after := after[1..];
      }
      if |after| < capacity {
        after := after + [sig];
      }
    }
  }
}

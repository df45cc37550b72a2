/** Request/response correlation in the MCP stdio client (internal/infra/mcp/stdio.go) as a state
    machine: callers, the reader goroutine and Close interleave freely. Each step is one critical
    section under pendingMu or one channel operation. The server's lines are arbitrary. */
module McpClient {
  import opened Wrappers
  import J = JsonRpcIds
  import D = Decimals
  import T = Texts

  type Caller = nat
  type Key = string

  datatype Response = Response(id: J.Id, body: string)

  /** The channel of a call; its buffer holds CAPACITY responses. */
  datatype Chan = Chan(buf: seq<Response>, closed: bool)

  const CAPACITY := 1

  datatype Outcome = Got(response: Response) | Cancelled | ClientClosed | ChannelClosed | NotWritten

  /** Where a call stands: it has its id; it is in the pending table; its request is written and it
      is in the select; it is about to take itself out of the table; it has returned. */
  datatype Phase = Started | Registered | Waiting | Leaving(o: Outcome) | Returned(o: Outcome)

  datatype Call = Call(id: nat, phase: Phase)

  /** A channel is named by the call that made it. When `reader` is set, the reader holds the mutex
      and is blocked sending to that call. `panicked` records a send on a closed channel. */
  datatype State = State(nextID: nat, pending: map<Key, Caller>, chans: map<Caller, Chan>, calls: map<Caller, Call>,
                         reader: Option<(Caller, Response)>, done: bool, swept: bool, panicked: bool,
                         received: seq<Response>)

  const INITIAL := State(0, map[], map[], map[], None, false, false, false, [])

  datatype Step =
    | Start(c: Caller)
    | Register(c: Caller)
    | Write(c: Caller, ok: bool)
    | Cancel(c: Caller)
    | SeeDone(c: Caller)
    | Receive(c: Caller)
    | Leave(c: Caller)
    | Line(response: Response)
    | Resume
    | CloseDone
    | Sweep

  predicate MutexFree(s: State) {
    s.reader.None?
  }

  predicate InPhase(s: State, c: Caller, p: Phase) {
    c in s.calls && s.calls[c].phase == p
  }

  function KeyOf(call: Call): Key {
    J.NormalizeID(J.Integer(call.id))
  }

  predicate Enabled(s: State, step: Step) {
    match step
    case Start(c) => c !in s.calls
    case Register(c) => MutexFree(s) && InPhase(s, c, Started)
    case Write(c, ok) => InPhase(s, c, Registered) && (ok ==> MutexFree(s))
    case Cancel(c) => InPhase(s, c, Waiting)
    case SeeDone(c) => InPhase(s, c, Waiting) && s.done
    case Receive(c) => InPhase(s, c, Waiting) && c in s.chans && (s.chans[c].buf != [] || s.chans[c].closed)
    case Leave(c) => MutexFree(s) && c in s.calls && s.calls[c].phase.Leaving?
    case Line(_) => MutexFree(s)
    case Resume => s.reader.Some? && s.reader.value.0 in s.chans && |s.chans[s.reader.value.0].buf| < CAPACITY
    case CloseDone => !s.done
    case Sweep => MutexFree(s) && s.done && !s.swept
  }

  function WithPhase(s: State, c: Caller, p: Phase): State
    requires c in s.calls
  {
    s.(calls := s.calls[c := s.calls[c].(phase := p)])
  }

  /** ch <- resp, on a channel with room. */
  function Send(s: State, c: Caller, r: Response): State
    requires c in s.chans
  {
    if s.chans[c].closed then s.(panicked := true)
    else s.(chans := s.chans[c := s.chans[c].(buf := s.chans[c].buf + [r])])
  }

  /** What the reader does with a response that has an id, under the mutex. */
  function Delivered(s: State, r: Response): State {
    var key := J.NormalizeID(r.id);
    if r.id.Null? || key !in s.pending || s.pending[key] !in s.chans then s
    else
      var c := s.pending[key];
      if |s.chans[c].buf| < CAPACITY || s.chans[c].closed then Send(s, c, r) else s.(reader := Some((c, r)))
  }

  function Apply(s: State, step: Step): State
    requires Enabled(s, step)
  {
    match step
    case Start(c) => s.(nextID := s.nextID + 1, calls := s.calls[c := Call(s.nextID + 1, Started)])
    case Register(c) =>
      WithPhase(s, c, Registered).(pending := s.pending[KeyOf(s.calls[c]) := c], chans := s.chans[c := Chan([], false)])
    case Write(c, ok) => WithPhase(s, c, if ok then Waiting else Leaving(NotWritten))
    case Cancel(c) => WithPhase(s, c, Leaving(Cancelled))
    case SeeDone(c) => WithPhase(s, c, Leaving(ClientClosed))
    case Receive(c) =>
      if s.chans[c].buf == [] then WithPhase(s, c, Leaving(ChannelClosed))
      else
        var chan := s.chans[c];
        WithPhase(s, c, Leaving(Got(chan.buf[0]))).(chans := s.chans[c := chan.(buf := chan.buf[1..])])
    case Leave(c) => WithPhase(s, c, Returned(s.calls[c].phase.o)).(pending := s.pending - {KeyOf(s.calls[c])})
    case Line(r) => Delivered(s.(received := s.received + [r]), r)
    case Resume => Send(s, s.reader.value.0, s.reader.value.1).(reader := None)
    case CloseDone => s.(done := true)
    case Sweep => s.(chans := Closed(s.chans, s.pending.Values), pending := map[], swept := true)
  }

  /** The channels after closing those of some calls. */
  function Closed(chans: map<Caller, Chan>, which: set<Caller>): map<Caller, Chan> {
    map c | c in chans :: if c in which then chans[c].(closed := true) else chans[c]
  }

  predicate IsRun(s: State, steps: seq<Step>)
    decreases |steps|
  {
    steps == [] || (Enabled(s, steps[0]) && IsRun(Apply(s, steps[0]), steps[1..]))
  }

  function Run(s: State, steps: seq<Step>): State
    requires IsRun(s, steps)
    decreases |steps|
  {
    if steps == [] then s else Run(Apply(s, steps[0]), steps[1..])
  }

  ghost predicate Reachable(s: State) {
    exists steps :: IsRun(INITIAL, steps) && Run(INITIAL, steps) == s
  }

  // ---- The invariant ----

  predicate InTable(p: Phase) {
    p.Registered? || p.Waiting? || p.Leaving?
  }

  predicate HasOutcome(p: Phase) {
    p.Leaving? || p.Returned?
  }

  predicate IsFor(s: State, r: Response, c: Caller) {
    c in s.calls && J.NormalizeID(r.id) == KeyOf(s.calls[c]) && r in s.received
  }

  /** An entry of the table names a call that has not returned, under its own key, with an open
      channel. */
  ghost predicate PendingOk(s: State, k: Key) {
    k in s.pending ==>
      var c := s.pending[k];
      c in s.calls && c in s.chans && KeyOf(s.calls[c]) == k && InTable(s.calls[c].phase) && !s.chans[c].closed
  }

  /** A call that has registered and not returned is in the table unless its channel was closed, and
      then the client is done; what it got is a response to it. */
  ghost predicate CallOk(s: State, c: Caller) {
    c in s.calls ==>
      var call := s.calls[c];
      && 1 <= call.id <= s.nextID
      && (call.phase != Started ==> c in s.chans)
      && (InTable(call.phase) && !s.chans[c].closed ==> KeyOf(call) in s.pending && s.pending[KeyOf(call)] == c)
      && (HasOutcome(call.phase) && call.phase.o.Got? ==> IsFor(s, call.phase.o.response, c))
      && (HasOutcome(call.phase) && (call.phase.o.ClientClosed? || call.phase.o.ChannelClosed?) ==> s.done)
  }

  ghost predicate ChanOk(s: State, c: Caller) {
    c in s.chans ==>
      && c in s.calls
      && |s.chans[c].buf| <= CAPACITY
      && (forall i :: 0 <= i < |s.chans[c].buf| ==> IsFor(s, s.chans[c].buf[i], c))
      && (s.chans[c].closed ==> s.done)
  }

  ghost predicate UniqueIds(s: State) {
    forall c, d :: c in s.calls && d in s.calls && s.calls[c].id == s.calls[d].id ==> c == d
  }

  ghost predicate ReaderOk(s: State) {
    s.reader.Some? ==>
      var (c, r) := s.reader.value;
      IsFor(s, r, c) && KeyOf(s.calls[c]) in s.pending && s.pending[KeyOf(s.calls[c])] == c && !AnswersOnce(s.received)
  }

  /** The server answers each id at most once. */
  ghost predicate AnswersOnce(received: seq<Response>) {
    forall i, j :: 0 <= i < j < |received| && !received[i].id.Null? && !received[j].id.Null? ==>
      J.NormalizeID(received[i].id) != J.NormalizeID(received[j].id)
  }

  ghost predicate Inv(s: State) {
    && (forall k :: k in s.pending ==> PendingOk(s, k))
    && (forall c :: c in s.calls ==> CallOk(s, c))
    && (forall c :: c in s.chans ==> ChanOk(s, c))
    && UniqueIds(s)
    && ReaderOk(s)
    && !s.panicked
  }

  lemma SameKey(s: State, c: Caller, d: Caller)
    requires UniqueIds(s) && c in s.calls && d in s.calls && KeyOf(s.calls[c]) == KeyOf(s.calls[d])
    ensures c == d
  {
    D.DecimalIsInjective(s.calls[c].id, s.calls[d].id);
  }

  /** s' differs from s in the call c, its channel and its key of the table only. */
  ghost predicate OnlyCall(s: State, s': State, c: Caller) {
    && c in s'.calls && s'.calls == s.calls[c := s'.calls[c]]
    && (c in s.calls ==> s.calls[c].id == s'.calls[c].id)
    && (forall d :: d != c ==> (d in s'.chans <==> d in s.chans) && (d in s.chans ==> s'.chans[d] == s.chans[d]))
    && (forall k :: k != KeyOf(s'.calls[c]) ==>
          (k in s'.pending <==> k in s.pending) && (k in s.pending ==> s'.pending[k] == s.pending[k]))
    && s.nextID <= s'.nextID && (s.done ==> s'.done)
    && (forall r :: r in s.received ==> r in s'.received)
  }

  /** Only the parts about c need a look. */
  lemma OnlyCallInv(s: State, s': State, c: Caller)
    requires Inv(s) && OnlyCall(s, s', c) && UniqueIds(s') && !s'.panicked
    requires PendingOk(s', KeyOf(s'.calls[c])) && CallOk(s', c) && ChanOk(s', c) && ReaderOk(s')
    ensures Inv(s')
  {
    hide ReaderOk, UniqueIds, KeyOf;
    forall k | k in s'.pending ensures PendingOk(s', k) {
      if k != KeyOf(s'.calls[c]) {
        OtherPending(s, s', c, k);
      }
    }
    forall d | d in s'.calls ensures CallOk(s', d) {
      if d != c {
        OtherCall(s, s', c, d);
      }
    }
    forall d | d in s'.chans ensures ChanOk(s', d) {
      if d != c {
        OtherChan(s, s', c, d);
      }
    }
  }

  lemma OtherPending(s: State, s': State, c: Caller, k: Key)
    requires k in s.pending ==> PendingOk(s, k)
    requires OnlyCall(s, s', c) && k in s'.pending && k != KeyOf(s'.calls[c])
    ensures PendingOk(s', k)
  {
    hide J.NormalizeID;
    assert s'.pending[k] != c;
  }

  lemma OtherCall(s: State, s': State, c: Caller, d: Caller)
    requires CallOk(s, d) && OnlyCall(s, s', c) && UniqueIds(s') && d in s'.calls && d != c
    ensures CallOk(s', d)
  {
    if KeyOf(s'.calls[d]) == KeyOf(s'.calls[c]) {
      SameKey(s', c, d);
    }
    hide KeyOf, J.NormalizeID, UniqueIds;
  }

  lemma OtherChan(s: State, s': State, c: Caller, d: Caller)
    requires d in s.chans ==> ChanOk(s, d)
    requires OnlyCall(s, s', c) && d in s'.chans && d != c
    ensures ChanOk(s', d)
  {
    hide KeyOf, J.NormalizeID;
  }

  // ---- Every step keeps it ----

  /** The parts of the invariant about c. */
  ghost predicate OwnOk(s: State, c: Caller) {
    c in s.calls && PendingOk(s, KeyOf(s.calls[c])) && CallOk(s, c) && ChanOk(s, c) && ReaderOk(s)
  }

  lemma OwnOkOf(s: State, c: Caller)
    requires Inv(s) && c in s.calls
    ensures OwnOk(s, c)
  {
    hide KeyOf, ReaderOk;
  }

  lemma SameIds(s: State, s': State, c: Caller)
    requires Inv(s) && c in s.calls && OnlyCall(s, s', c)
    ensures UniqueIds(s')
  {
  }

  lemma OwnInv(s: State, s': State, c: Caller)
    requires Inv(s) && c in s.calls && OnlyCall(s, s', c) && OwnOk(s', c) && !s'.panicked
    ensures Inv(s')
  {
    SameIds(s, s', c);
    hide KeyOf, Inv, OnlyCall, UniqueIds, PendingOk, CallOk, ChanOk, ReaderOk;
    OnlyCallInv(s, s', c);
  }

  /** Steps of a call that change nothing but its phase. */
  lemma PhaseInv(s: State, c: Caller, p: Phase)
    requires Inv(s) && c in s.calls && c in s.chans && InTable(s.calls[c].phase) && InTable(p)
    requires p.Leaving? && p.o.Got? ==> IsFor(s, p.o.response, c)
    requires p.Leaving? && (p.o.ClientClosed? || p.o.ChannelClosed?) ==> s.done
    ensures Inv(WithPhase(s, c, p))
  {
    OwnOkOf(s, c);
    PhaseFrame(s, c, p);
    PhaseOwn(s, c, p);
    hide Inv, OnlyCall, OwnOk;
    OwnInv(s, WithPhase(s, c, p), c);
  }

  lemma PhaseFrame(s: State, c: Caller, p: Phase)
    requires c in s.calls
    ensures OnlyCall(s, WithPhase(s, c, p), c)
  {
    hide J.NormalizeID;
  }

  lemma PhaseOwn(s: State, c: Caller, p: Phase)
    requires OwnOk(s, c) && c in s.chans && InTable(s.calls[c].phase) && InTable(p)
    requires p.Leaving? && p.o.Got? ==> IsFor(s, p.o.response, c)
    requires p.Leaving? && (p.o.ClientClosed? || p.o.ChannelClosed?) ==> s.done
    ensures OwnOk(WithPhase(s, c, p), c)
  {
    hide J.NormalizeID, AnswersOnce;
  }

  lemma StartInv(s: State, c: Caller)
    requires Inv(s) && Enabled(s, Start(c))
    ensures Inv(Apply(s, Start(c)))
  {
    var s' := Apply(s, Start(c));
    assert !s'.panicked;
    StartFrame(s, c);
    StartOwn(s, c);
    hide Inv, OnlyCall, OwnOk, UniqueIds, Apply, Enabled;
    assert OwnOk(s', c);
    OwnOkParts(s', c);
    hide PendingOk, CallOk, ChanOk, ReaderOk;
    OnlyCallInv(s, s', c);
  }

  lemma OwnOkParts(s: State, c: Caller)
    requires OwnOk(s, c)
    ensures c in s.calls && PendingOk(s, KeyOf(s.calls[c])) && CallOk(s, c) && ChanOk(s, c) && ReaderOk(s)
  {
  }

  lemma StartFrame(s: State, c: Caller)
    requires Inv(s) && Enabled(s, Start(c))
    ensures OnlyCall(s, Apply(s, Start(c)), c) && UniqueIds(Apply(s, Start(c)))
  {
    hide KeyOf, PendingOk, ChanOk, ReaderOk;
    forall d | d in s.calls ensures s.calls[d].id <= s.nextID {
      assert CallOk(s, d);
    }
  }

  lemma StartOwn(s: State, c: Caller)
    requires Inv(s) && Enabled(s, Start(c))
    ensures OwnOk(Apply(s, Start(c)), c)
  {
    var call := Call(s.nextID + 1, Started);
    NewKey(s, call);
    assert c !in s.chans by {
      assert c in s.chans ==> ChanOk(s, c);
    }
    StartKeepsReader(s, c);
    hide J.NormalizeID, KeyOf, Inv, UniqueIds, AnswersOnce, ReaderOk;
  }

  lemma NewKey(s: State, call: Call)
    requires Inv(s) && call.id == s.nextID + 1
    ensures KeyOf(call) !in s.pending
  {
    var k := KeyOf(call);
    if k in s.pending {
      assert PendingOk(s, k);
      assert CallOk(s, s.pending[k]);
      hide J.NormalizeID, D.Decimal, Inv;
      assert D.Decimal(call.id) == D.Decimal(s.calls[s.pending[k]].id) by {
        KeyIsDecimal(call);
        KeyIsDecimal(s.calls[s.pending[k]]);
      }
      D.DecimalIsInjective(call.id, s.calls[s.pending[k]].id);
    }
  }

  lemma KeyIsDecimal(call: Call)
    ensures KeyOf(call) == D.Decimal(call.id)
  {
  }

  lemma StartKeepsReader(s: State, c: Caller)
    requires ReaderOk(s) && Enabled(s, Start(c))
    ensures ReaderOk(Apply(s, Start(c)))
  {
    hide J.NormalizeID, AnswersOnce;
  }

  lemma RegisterInv(s: State, c: Caller)
    requires Inv(s) && Enabled(s, Register(c))
    ensures Inv(Apply(s, Register(c)))
  {
    OwnOkOf(s, c);
    RegisterFrame(s, c);
    RegisterOwn(s, c);
    hide OnlyCall, OwnOk, KeyOf;
    OwnInv(s, Apply(s, Register(c)), c);
  }

  lemma RegisterFrame(s: State, c: Caller)
    requires Enabled(s, Register(c))
    ensures OnlyCall(s, Apply(s, Register(c)), c)
  {
    hide J.NormalizeID;
  }

  lemma RegisterOwn(s: State, c: Caller)
    requires OwnOk(s, c) && Enabled(s, Register(c))
    ensures OwnOk(Apply(s, Register(c)), c)
  {
    hide J.NormalizeID, AnswersOnce;
  }

  lemma ReceiveInv(s: State, c: Caller)
    requires Inv(s) && Enabled(s, Receive(c))
    ensures Inv(Apply(s, Receive(c)))
  {
    var s' := Apply(s, Receive(c));
    assert ChanOk(s, c);
    if s.chans[c].buf == [] {
      PhaseInv(s, c, Leaving(ChannelClosed));
    } else {
      PhaseInv(s, c, Leaving(Got(s.chans[c].buf[0])));
      ShorterBufferInv(WithPhase(s, c, Leaving(Got(s.chans[c].buf[0]))), s', c);
    }
  }

  lemma ShorterBufferInv(s: State, s': State, c: Caller)
    requires Inv(s) && c in s.chans && s.chans[c].buf != []
    requires s' == s.(chans := s.chans[c := s.chans[c].(buf := s.chans[c].buf[1..])])
    ensures Inv(s')
  {
    BufferedIsCall(s, c);
    OwnOkOf(s, c);
    ShorterFrame(s, s', c);
    ShorterOwn(s, s', c);
    hide *;
    OwnInv(s, s', c);
  }

  lemma BufferedIsCall(s: State, c: Caller)
    requires Inv(s) && c in s.chans
    ensures c in s.calls && !s.panicked
  {
    assert ChanOk(s, c);
  }

  lemma ShorterFrame(s: State, s': State, c: Caller)
    requires c in s.calls && c in s.chans && s.chans[c].buf != []
    requires s' == s.(chans := s.chans[c := s.chans[c].(buf := s.chans[c].buf[1..])])
    ensures OnlyCall(s, s', c) && s'.panicked == s.panicked
  {
    hide J.NormalizeID;
  }

  lemma ShorterOwn(s: State, s': State, c: Caller)
    requires OwnOk(s, c) && c in s.chans && s.chans[c].buf != []
    requires s' == s.(chans := s.chans[c := s.chans[c].(buf := s.chans[c].buf[1..])])
    ensures OwnOk(s', c)
  {
    hide J.NormalizeID, AnswersOnce;
  }

  lemma LeaveInv(s: State, c: Caller)
    requires Inv(s) && Enabled(s, Leave(c))
    ensures Inv(Apply(s, Leave(c)))
  {
    OwnOkOf(s, c);
    LeaveFrame(s, c);
    LeaveOwn(s, c);
    hide OnlyCall, OwnOk, KeyOf;
    OwnInv(s, Apply(s, Leave(c)), c);
  }

  lemma LeaveFrame(s: State, c: Caller)
    requires Enabled(s, Leave(c))
    ensures OnlyCall(s, Apply(s, Leave(c)), c)
  {
    hide J.NormalizeID;
  }

  lemma LeaveOwn(s: State, c: Caller)
    requires OwnOk(s, c) && Enabled(s, Leave(c))
    ensures OwnOk(Apply(s, Leave(c)), c)
  {
    hide J.NormalizeID, AnswersOnce;
  }

  /** A channel with room that is in the table takes a response of its call. */
  lemma SendInv(s: State, c: Caller, r: Response)
    requires Inv(s) && MutexFree(s) && IsFor(s, r, c)
    requires KeyOf(s.calls[c]) in s.pending && s.pending[KeyOf(s.calls[c])] == c && c in s.chans
             && |s.chans[c].buf| < CAPACITY
    ensures Inv(Send(s, c, r))
  {
    var s' := Send(s, c, r);
    OwnOkOf(s, c);
    assert !s.panicked;
    SendOwn(s, c, r);
    SendFrame(s, c, r);
    hide OnlyCall, OwnOk, KeyOf, Inv, IsFor, Send;
    OwnInv(s, s', c);
  }

  lemma SendFrame(s: State, c: Caller, r: Response)
    requires c in s.calls && c in s.chans
    ensures OnlyCall(s, Send(s, c, r), c)
  {
    hide J.NormalizeID;
  }

  lemma SendOwn(s: State, c: Caller, r: Response)
    requires OwnOk(s, c) && MutexFree(s) && IsFor(s, r, c) && !s.panicked
    requires KeyOf(s.calls[c]) in s.pending && s.pending[KeyOf(s.calls[c])] == c && c in s.chans
             && |s.chans[c].buf| < CAPACITY
    ensures OwnOk(Send(s, c, r), c) && !Send(s, c, r).panicked
  {
    hide J.NormalizeID, AnswersOnce;
  }

  lemma FreeReaderInv(s: State)
    requires Inv(s)
    ensures Inv(s.(reader := None))
  {
    ReceivedInv(s, s.(reader := None));
  }

  /** Changes of the reader and the received lines only. */
  lemma ReceivedInv(s: State, s': State)
    requires Inv(s) && s' == s.(reader := s'.reader, received := s'.received, done := s'.done) && ReaderOk(s')
    requires s.done ==> s'.done
    requires forall r :: r in s.received ==> r in s'.received
    ensures Inv(s')
  {
    hide J.NormalizeID, KeyOf, ReaderOk;
    forall k | k in s'.pending ensures PendingOk(s', k) {
      assert PendingOk(s, k);
    }
    forall c | c in s'.calls ensures CallOk(s', c) {
      assert CallOk(s, c);
    }
    forall c | c in s'.chans ensures ChanOk(s', c) {
      assert ChanOk(s, c);
    }
  }

  /** A second response while the first is still in the buffer is a repeated answer. */
  lemma RepeatedAnswer(received: seq<Response>, first: Response, r: Response)
    requires first in received && !first.id.Null? && !r.id.Null? && J.NormalizeID(first.id) == J.NormalizeID(r.id)
    ensures !AnswersOnce(received + [r])
  {
    var i :| 0 <= i < |received| && received[i] == first;
    assert (received + [r])[i] == first && (received + [r])[|received|] == r;
  }

  lemma KeyIsNotNull(id: J.Id, n: int)
    requires J.NormalizeID(id) == D.Decimal(n)
    ensures !id.Null?
  {
    J.MatchesIff(id, n);
  }

  lemma LineInv(s: State, r: Response)
    requires Inv(s) && Enabled(s, Line(r))
    ensures Inv(Apply(s, Line(r)))
  {
    var s1 := s.(received := s.received + [r]);
    assert Apply(s, Line(r)) == Delivered(s1, r);
    ReceivedInv(s, s1);
    var key := J.NormalizeID(r.id);
    if !r.id.Null? && key in s.pending {
      assert PendingOk(s, key) && ChanOk(s, s.pending[key]);
      hide Inv, Apply, Enabled, J.NormalizeID, PendingOk, ChanOk, Delivered;
      DeliveredInv(s, s1, r);
    }
  }

  lemma DeliveredInv(s: State, s1: State, r: Response)
    requires Inv(s1) && MutexFree(s) && s1 == s.(received := s.received + [r])
    requires var key := J.NormalizeID(r.id);
             !r.id.Null? && key in s.pending && PendingOk(s, key) && ChanOk(s, s.pending[key])
    ensures Inv(Delivered(s1, r))
  {
    var c := s.pending[J.NormalizeID(r.id)];
    assert r in s1.received && IsFor(s1, r, c);
    if |s.chans[c].buf| < CAPACITY {
      hide Inv, KeyOf, J.NormalizeID;
      SendInv(s1, c, r);
    } else {
      var first := s.chans[c].buf[0];
      KeyIsNotNull(first.id, s.calls[c].id);
      RepeatedAnswer(s.received, first, r);
      hide J.NormalizeID, KeyOf, Inv, AnswersOnce;
      ReceivedInv(s1, Delivered(s1, r));
    }
  }

  lemma ResumeInv(s: State)
    requires Inv(s) && Enabled(s, Resume)
    ensures Inv(Apply(s, Resume))
  {
    var (c, r) := s.reader.value;
    FreeReaderInv(s);
    ReaderTarget(s);
    assert Apply(s, Resume) == Send(s.(reader := None), c, r);
    hide J.NormalizeID, KeyOf, Inv, IsFor, Apply;
    SendInv(s.(reader := None), c, r);
  }

  /** Whom a blocked reader sends to. */
  lemma ReaderTarget(s: State)
    requires Inv(s) && Enabled(s, Resume)
    ensures var (c, r) := s.reader.value;
            && IsFor(s.(reader := None), r, c) && KeyOf(s.calls[c]) in s.pending && s.pending[KeyOf(s.calls[c])] == c
            && c in s.chans && |s.chans[c].buf| < CAPACITY
  {
    hide J.NormalizeID, AnswersOnce, PendingOk, CallOk, ChanOk, UniqueIds;
  }

  lemma SweepInv(s: State)
    requires Inv(s) && Enabled(s, Sweep)
    ensures Inv(Apply(s, Sweep))
  {
    var s' := Apply(s, Sweep);
    hide J.NormalizeID, KeyOf;
    forall c | c in s'.calls ensures CallOk(s', c) {
      assert CallOk(s, c);
      if c in s.chans && KeyOf(s.calls[c]) in s.pending && s.pending[KeyOf(s.calls[c])] == c {
        assert c in s.pending.Values;
      }
    }
    forall c | c in s'.chans ensures ChanOk(s', c) {
      assert ChanOk(s, c);
    }
  }

  lemma StepInv(s: State, step: Step)
    requires Inv(s) && Enabled(s, step)
    ensures Inv(Apply(s, step))
  {
    match step
    case Start(c) => StartInv(s, c);
    case Register(c) => RegisterInv(s, c);
    case Write(c, ok) => WaitingHasChan(s, c); PhaseInv(s, c, if ok then Waiting else Leaving(NotWritten));
    case Cancel(c) => WaitingHasChan(s, c); PhaseInv(s, c, Leaving(Cancelled));
    case SeeDone(c) => WaitingHasChan(s, c); PhaseInv(s, c, Leaving(ClientClosed));
    case Receive(c) => ReceiveInv(s, c);
    case Leave(c) => LeaveInv(s, c);
    case Line(r) => LineInv(s, r);
    case Resume => ResumeInv(s);
    case CloseDone => ReceivedInv(s, s.(done := true));
    case Sweep => SweepInv(s);
  }

  lemma WaitingHasChan(s: State, c: Caller)
    requires Inv(s) && c in s.calls && s.calls[c].phase != Started
    ensures c in s.chans
  {
    assert CallOk(s, c);
  }

  lemma {:induction false} RunInv(s: State, steps: seq<Step>)
    requires Inv(s) && IsRun(s, steps)
    ensures Inv(Run(s, steps))
    decreases |steps|
  {
    if steps != [] {
      StepInv(s, steps[0]);
      RunInv(Apply(s, steps[0]), steps[1..]);
    }
  }

  lemma ReachableInv(s: State)
    requires Reachable(s)
    ensures Inv(s)
  {
    var steps :| IsRun(INITIAL, steps) && Run(INITIAL, steps) == s;
    RunInv(INITIAL, steps);
  }

  // ---- Main results ----

  /** Nothing is ever sent on a closed channel: what the table names is open. */
  lemma NeverPanics(s: State)
    requires Reachable(s)
    ensures !s.panicked
    ensures forall k :: k in s.pending ==> s.pending[k] in s.chans && !s.chans[s.pending[k]].closed
  {
    ReachableInv(s);
    forall k | k in s.pending ensures s.pending[k] in s.chans && !s.chans[s.pending[k]].closed {
      assert PendingOk(s, k);
    }
  }

  /** A call returns only a response that the server sent and whose id has the key of this call and
      of no other. */
  lemma ResponseIsForItsCall(s: State, c: Caller)
    requires Reachable(s) && c in s.calls && s.calls[c].phase.Returned? && s.calls[c].phase.o.Got?
    ensures var r := s.calls[c].phase.o.response;
            && r in s.received
            && forall d :: d in s.calls ==> (J.NormalizeID(r.id) == D.Decimal(s.calls[d].id) <==> d == c)
  {
    ReachableInv(s);
    assert CallOk(s, c);
    var r := s.calls[c].phase.o.response;
    forall d | d in s.calls ensures J.NormalizeID(r.id) == D.Decimal(s.calls[d].id) <==> d == c {
      if KeyOf(s.calls[d]) == KeyOf(s.calls[c]) {
        SameKey(s, c, d);
      }
    }
  }

  /** If the server answers each id at most once, the reader never blocks inside the mutex. */
  lemma DeliveryNeverBlocks(s: State)
    requires Reachable(s) && AnswersOnce(s.received)
    ensures MutexFree(s)
  {
    ReachableInv(s);
  }

  /** The answer to a waiting call gets through: after the line is read the call can receive, and then
      return, and returns exactly this response. */
  lemma AnswerArrives(s: State, c: Caller, r: Response)
    requires Reachable(s) && AnswersOnce(s.received + [r]) && c in s.calls && s.calls[c].phase == Waiting
    requires J.NormalizeID(r.id) == D.Decimal(s.calls[c].id) && c in s.chans && !s.chans[c].closed
    ensures Enabled(s, Line(r)) && Enabled(Apply(s, Line(r)), Receive(c))
    ensures var s2 := Apply(Apply(s, Line(r)), Receive(c));
            && s2.calls[c].phase == Leaving(Got(r)) && Enabled(s2, Leave(c))
            && Apply(s2, Leave(c)).calls[c].phase == Returned(Got(r))
  {
    hide *;
    ReachableInv(s);
    ChannelIsEmpty(s, c, r);
    LineThenReceive(s, c, r);
  }

  /** Before its only answer has come, a waiting call is in the table and its channel empty. */
  lemma ChannelIsEmpty(s: State, c: Caller, r: Response)
    requires Inv(s) && AnswersOnce(s.received + [r]) && c in s.calls && s.calls[c].phase == Waiting
    requires J.NormalizeID(r.id) == D.Decimal(s.calls[c].id) && c in s.chans && !s.chans[c].closed
    ensures s.chans[c].buf == [] && !r.id.Null? && s.reader.None?
    ensures J.NormalizeID(r.id) in s.pending && s.pending[J.NormalizeID(r.id)] == c
  {
    assert KeyOf(s.calls[c]) == D.Decimal(s.calls[c].id);
    hide J.NormalizeID, KeyOf;
    AnswersOnceBefore(s.received, r);
    assert CallOk(s, c) && ChanOk(s, c) && ReaderOk(s);
    hide Inv, AnswersOnce;
    KeyIsNotNull(r.id, s.calls[c].id);
    if s.chans[c].buf != [] {
      var first := s.chans[c].buf[0];
      KeyIsNotNull(first.id, s.calls[c].id);
      RepeatedAnswer(s.received, first, r);
    }
  }

  lemma AnswersOnceBefore(received: seq<Response>, r: Response)
    requires AnswersOnce(received + [r])
    ensures AnswersOnce(received)
  {
    hide J.NormalizeID;
    forall i, j | 0 <= i < j < |received| && !received[i].id.Null? && !received[j].id.Null?
      ensures J.NormalizeID(received[i].id) != J.NormalizeID(received[j].id)
    {
      assert (received + [r])[i] == received[i] && (received + [r])[j] == received[j];
    }
  }

  lemma LineThenReceive(s: State, c: Caller, r: Response)
    requires c in s.calls && s.calls[c].phase == Waiting && c in s.chans && s.chans[c] == Chan([], false)
    requires !r.id.Null? && s.reader.None?
    requires J.NormalizeID(r.id) in s.pending && s.pending[J.NormalizeID(r.id)] == c
    ensures Enabled(s, Line(r)) && Enabled(Apply(s, Line(r)), Receive(c))
    ensures var s2 := Apply(Apply(s, Line(r)), Receive(c));
            && s2.calls[c].phase == Leaving(Got(r)) && Enabled(s2, Leave(c))
            && Apply(s2, Leave(c)).calls[c].phase == Returned(Got(r))
  {
    hide J.NormalizeID, KeyOf;
    assert ([] + [r])[0] == r;
  }

  /** What a call takes out of its select is what it returns: no step changes an outcome. */
  lemma OutcomeStays(s: State, step: Step, c: Caller)
    requires Enabled(s, step) && c in s.calls && HasOutcome(s.calls[c].phase)
    ensures var s', o := Apply(s, step), s.calls[c].phase.o;
            && c in s'.calls
            && (s'.calls[c].phase == s.calls[c].phase || s'.calls[c].phase == Returned(o))
            && (s.calls[c].phase.Returned? ==> s'.calls[c].phase == Returned(o))
  {
    SameCalls(s, step);
    hide Delivered, Send, KeyOf;
  }

  /** Reading lines, finishing a delivery and closing leave the calls alone. */
  lemma SameCalls(s: State, step: Step)
    requires Enabled(s, step)
    ensures step.Line? || step.Resume? || step.CloseDone? || step.Sweep? ==> Apply(s, step).calls == s.calls
  {
    match step
    case Line(r) => DeliveredCalls(s.(received := s.received + [r]), r);
    case Resume => SendCalls(s, s.reader.value.0, s.reader.value.1);
    case _ => hide Delivered, Send, KeyOf;
  }

  /** The event that a call with an outcome has seen: its cancellation, the end of the client, a failed
      write, or its channel, with a response in it or closed and empty. */
  predicate Sees(s: State, step: Step, c: Caller, o: Outcome) {
    match o
    case Cancelled => step == Cancel(c)
    case ClientClosed => step == SeeDone(c) && s.done
    case NotWritten => step == Write(c, false)
    case Got(r) => step == Receive(c) && c in s.chans && s.chans[c].buf != [] && s.chans[c].buf[0] == r
    case ChannelClosed => step == Receive(c) && c in s.chans && s.chans[c].buf == [] && s.chans[c].closed
  }

  lemma OutcomeComesFrom(s: State, step: Step, c: Caller)
    requires Enabled(s, step) && !(c in s.calls && HasOutcome(s.calls[c].phase))
    ensures var s' := Apply(s, step);
            c in s'.calls && HasOutcome(s'.calls[c].phase) ==> Sees(s, step, c, s'.calls[c].phase.o)
  {
    SameCalls(s, step);
    hide Delivered, Send, KeyOf;
  }

  /** Every outcome of a run has its event: at some step k of it. */
  lemma {:induction false} OutcomeOfRun(s: State, steps: seq<Step>, c: Caller)
    requires IsRun(s, steps) && !(c in s.calls && HasOutcome(s.calls[c].phase))
    ensures var s' := Run(s, steps);
            c in s'.calls && HasOutcome(s'.calls[c].phase) ==>
              exists k :: && 0 <= k < |steps| && IsRun(s, steps[..k])
                          && Sees(Run(s, steps[..k]), steps[k], c, s'.calls[c].phase.o)
    decreases |steps|
  {
    if steps != [] {
      var s1, rest := Apply(s, steps[0]), steps[1..];
      assert steps[..0] == [] && IsRun(s, steps[..0]) && Run(s, steps[..0]) == s;
      OutcomeComesFrom(s, steps[0], c);
      if c in s1.calls && HasOutcome(s1.calls[c].phase) {
        OutcomeKept(s1, rest, c);
      } else {
        OutcomeOfRun(s1, rest, c);
        var s' := Run(s, steps);
        if c in s'.calls && HasOutcome(s'.calls[c].phase) {
          var k :| 0 <= k < |rest| && IsRun(s1, rest[..k]) && Sees(Run(s1, rest[..k]), rest[k], c, s'.calls[c].phase.o);
          assert steps[..k + 1] == [steps[0]] + rest[..k] && steps[k + 1] == rest[k];
          RunCons(s, steps[0], rest[..k]);
        }
      }
    }
  }

  lemma RunCons(s: State, step: Step, rest: seq<Step>)
    requires Enabled(s, step) && IsRun(Apply(s, step), rest)
    ensures IsRun(s, [step] + rest) && Run(s, [step] + rest) == Run(Apply(s, step), rest)
  {
    assert ([step] + rest)[1..] == rest;
    hide Enabled, Apply;
  }

  lemma {:induction false} OutcomeKept(s: State, steps: seq<Step>, c: Caller)
    requires IsRun(s, steps) && c in s.calls && HasOutcome(s.calls[c].phase)
    ensures var s' := Run(s, steps);
            c in s'.calls && HasOutcome(s'.calls[c].phase) && s'.calls[c].phase.o == s.calls[c].phase.o
    decreases |steps|
  {
    if steps != [] {
      OutcomeStays(s, steps[0], c);
      OutcomeKept(Apply(s, steps[0]), steps[1..], c);
    }
  }

  /** In every reachable state a call that saw the client closed, or its channel, is right. */
  lemma ClosedOutcomesAreTrue(s: State, c: Caller)
    requires Reachable(s) && c in s.calls && HasOutcome(s.calls[c].phase)
    ensures s.calls[c].phase.o.ClientClosed? || s.calls[c].phase.o.ChannelClosed? ==> s.done
  {
    ReachableInv(s);
    assert CallOk(s, c);
  }

  /** Nobody is kept out: a new call can always start, under the next number; a waiting one can always
      be cancelled, and see the end of the client; with the mutex free a call can go on, the reader can
      take any line, and Close can do its work. */
  lemma StepsAreEnabled(s: State, c: Caller, r: Response)
    ensures c !in s.calls ==>
              && Enabled(s, Start(c)) && Apply(s, Start(c)).nextID == s.nextID + 1
              && Apply(s, Start(c)).calls == s.calls[c := Call(s.nextID + 1, Started)]
    ensures InPhase(s, c, Waiting) ==> Enabled(s, Cancel(c)) && (s.done ==> Enabled(s, SeeDone(c)))
    ensures InPhase(s, c, Registered) ==> Enabled(s, Write(c, false))
    ensures MutexFree(s) ==>
              && Enabled(s, Line(r))
              && (InPhase(s, c, Started) ==> Enabled(s, Register(c)))
              && (InPhase(s, c, Registered) ==> Enabled(s, Write(c, true)))
              && (c in s.calls && s.calls[c].phase.Leaving? ==> Enabled(s, Leave(c)))
              && (s.done && !s.swept ==> Enabled(s, Sweep))
    ensures !s.done ==> Enabled(s, CloseDone)
  {
    hide J.NormalizeID;
  }

  /** A line without an id, or for no call in the table, is only noted. */
  lemma StrayLine(s: State, r: Response)
    requires Enabled(s, Line(r)) && (r.id.Null? || J.NormalizeID(r.id) !in s.pending)
    ensures Apply(s, Line(r)) == s.(received := s.received + [r])
  {
  }

  /** How far a call has come. */
  function Rank(s: State, c: Caller): nat {
    if c !in s.calls then 0 else
      match s.calls[c].phase
      case Started => 1
      case Registered => 2
      case Waiting => 3
      case Leaving(_) => 4
      case Returned(_) => 5
  }

  lemma RankNeverFalls(s: State, step: Step, c: Caller)
    requires Enabled(s, step)
    ensures Rank(Apply(s, step), c) >= Rank(s, c)
  {
    match step
    case Line(r) => DeliveredCalls(s.(received := s.received + [r]), r);
    case Resume => SendCalls(s, s.reader.value.0, s.reader.value.1);
    case _ => hide Delivered, Send, KeyOf;
  }

  lemma SendCalls(s: State, c: Caller, r: Response)
    requires c in s.chans
    ensures Send(s, c, r).calls == s.calls
  {
  }

  lemma DeliveredCalls(s: State, r: Response)
    ensures Delivered(s, r).calls == s.calls
  {
    hide J.NormalizeID;
  }

  /** What a call does next once the client is done. */
  function NextStep(p: Phase, c: Caller): Step
    requires !p.Returned?
  {
    match p
    case Started => Register(c)
    case Registered => Write(c, true)
    case Waiting => SeeDone(c)
    case Leaving(_) => Leave(c)
  }

  /** No call stays blocked after Close: each call that has not returned has a step it can take at
      once, which brings it further; it returns after at most four. */
  lemma NoCallStaysBlocked(s: State, c: Caller)
    requires Reachable(s) && s.done && AnswersOnce(s.received) && c in s.calls && !s.calls[c].phase.Returned?
    ensures var step := NextStep(s.calls[c].phase, c);
            Enabled(s, step) && Rank(Apply(s, step), c) == Rank(s, c) + 1 <= 5
  {
    DeliveryNeverBlocks(s);
  }

  /** When every call has returned the table is empty. */
  lemma TableIsCleaned(s: State)
    requires Reachable(s) && forall c :: c in s.calls ==> s.calls[c].phase.Returned?
    ensures s.pending == map[]
  {
    ReachableInv(s);
    forall k ensures k !in s.pending {
      assert k in s.pending ==> PendingOk(s, k);
    }
  }

  // ---- Repeated answers ----

  /** The reader holds the mutex, its channel is full and the owner is not in its select. */
  ghost predicate Stuck(s: State) {
    && s.reader.Some?
    && var c := s.reader.value.0;
       c in s.calls && s.calls[c].phase != Waiting && c in s.chans && |s.chans[c].buf| >= CAPACITY
  }

  lemma StuckStep(s: State, step: Step, d: Caller)
    requires Stuck(s) && Enabled(s, step)
    ensures var s' := Apply(s, step); Stuck(s') && s'.swept == s.swept && (Rank(s', d) == 5 ==> Rank(s, d) == 5)
  {
    hide J.NormalizeID;
  }

  /** Then nothing helps: the reader stays blocked, no call returns any more and Close never gets
      the mutex. */
  lemma {:induction false} StuckForever(s: State, steps: seq<Step>, d: Caller)
    requires Stuck(s) && IsRun(s, steps)
    ensures var s' := Run(s, steps); Stuck(s') && s'.swept == s.swept && (Rank(s', d) == 5 ==> Rank(s, d) == 5)
    decreases |steps|
  {
    if steps != [] {
      StuckStep(s, steps[0], d);
      StuckForever(Apply(s, steps[0]), steps[1..], d);
    }
  }

  lemma RunOne(s: State, step: Step)
    requires Enabled(s, step)
    ensures IsRun(s, [step]) && Run(s, [step]) == Apply(s, step)
  {
    assert [step][1..] == [];
    assert IsRun(Apply(s, step), []);
    assert Run(Apply(s, step), []) == Apply(s, step);
  }

  lemma RunTwo(s: State, a: Step, b: Step)
    requires Enabled(s, a) && Enabled(Apply(s, a), b)
    ensures IsRun(s, [a, b]) && Run(s, [a, b]) == Apply(Apply(s, a), b)
  {
    assert [a, b][1..] == [b];
    RunOne(Apply(s, a), b);
  }

  /** The reader of a blocked delivery gets free again in some continuation exactly when the call's
      buffer has room or the call is still in its select. */
  lemma BlockedForeverIff(s: State)
    requires Reachable(s) && s.reader.Some?
    ensures var c := s.reader.value.0;
            && c in s.calls && c in s.chans
            && ((exists steps :: IsRun(s, steps) && MutexFree(Run(s, steps)))
                <==> (s.chans[c].buf == [] || s.calls[c].phase == Waiting))
  {
    ReachableInv(s);
    var (c, r) := s.reader.value;
    assert CallOk(s, c) && PendingOk(s, KeyOf(s.calls[c])) && ChanOk(s, c);
    hide Inv, J.NormalizeID, KeyOf, ReaderOk;
    if s.chans[c].buf == [] {
      RunOne(s, Resume);
      assert MutexFree(Run(s, [Resume]));
    } else if s.calls[c].phase == Waiting {
      RunTwo(s, Receive(c), Resume);
      assert MutexFree(Run(s, [Receive(c), Resume]));
    } else {
      forall steps | IsRun(s, steps) ensures !MutexFree(Run(s, steps)) {
        StuckForever(s, steps, c);
      }
    }
  }

  lemma {:induction false} RunSnoc(s: State, steps: seq<Step>, step: Step)
    requires IsRun(s, steps) && Enabled(Run(s, steps), step)
    ensures IsRun(s, steps + [step]) && Run(s, steps + [step]) == Apply(Run(s, steps), step)
    decreases |steps|
  {
    if steps == [] {
      assert steps + [step] == [step];
      RunOne(s, step);
    } else {
      RunSnoc(Apply(s, steps[0]), steps[1..], step);
      assert (steps + [step])[1..] == steps[1..] + [step];
      assert (steps + [step])[0] == steps[0];
    }
  }

  lemma ReachableStep(s: State, step: Step)
    requires Reachable(s) && Enabled(s, step)
    ensures Reachable(Apply(s, step))
  {
    var steps :| IsRun(INITIAL, steps) && Run(INITIAL, steps) == s;
    RunSnoc(INITIAL, steps, step);
  }

  lemma InitialReachable()
    ensures Reachable(INITIAL)
  {
    assert IsRun(INITIAL, []) && Run(INITIAL, []) == INITIAL;
  }

  /** One answer, to a call that is still in its select. */
  lemma Answered(r: Response)
    requires J.NormalizeID(r.id) == D.Decimal(1)
    ensures var k := D.Decimal(1);
            Reachable(State(1, map[k := 0], map[0 := Chan([r], false)], map[0 := Call(1, Waiting)],
                            None, false, false, false, [r]))
  {
    var k := D.Decimal(1);
    KeyIsNotNull(r.id, 1);
    assert KeyOf(Call(1, Started)) == k;
    hide J.NormalizeID, D.Decimal, Reachable, KeyOf;
    InitialReachable();
    ReachableStep(INITIAL, Start(0));
    var s1 := State(1, map[], map[], map[0 := Call(1, Started)], None, false, false, false, []);
    assert Apply(INITIAL, Start(0)) == s1;
    ReachableStep(s1, Register(0));
    var s2 := State(1, map[k := 0], map[0 := Chan([], false)], map[0 := Call(1, Registered)], None, false, false,
        false, []);
    assert Apply(s1, Register(0)) == s2;
    ReachableStep(s2, Write(0, true));
    var s3 := State(1, map[k := 0], map[0 := Chan([], false)], map[0 := Call(1, Waiting)], None, false, false, false,
        []);
    assert Apply(s2, Write(0, true)) == s3;
    ReachableStep(s3, Line(r));
    assert [] + [r] == [r];
    assert Apply(s3, Line(r)) == State(1, map[k := 0], map[0 := Chan([r], false)], map[0 := Call(1, Waiting)],
                                       None, false, false, false, [r]);
  }

  /** A server that answers an id twice while the caller gives up blocks the client for good. */
  lemma RepeatedAnswerBlocks(r: Response)
    requires J.NormalizeID(r.id) == D.Decimal(1)
    ensures exists s :: Reachable(s) && Stuck(s) && s.received == [r, r] && InPhase(s, 0, Leaving(Cancelled))
  {
    var k := D.Decimal(1);
    KeyIsNotNull(r.id, 1);
    Answered(r);
    hide J.NormalizeID, D.Decimal, Reachable, KeyOf;
    var s1 := State(1, map[k := 0], map[0 := Chan([r], false)], map[0 := Call(1, Waiting)], None, false, false,
        false, [r]);
    ReachableStep(s1, Cancel(0));
    var s2 := s1.(calls := map[0 := Call(1, Leaving(Cancelled))]);
    assert Apply(s1, Cancel(0)) == s2;
    ReachableStep(s2, Line(r));
    var s3 := s2.(reader := Some((0, r)), received := [r, r]);
    assert [r] + [r] == [r, r];
    assert Apply(s2, Line(r)) == s3;
    assert Stuck(s3);
  }

  // ---- The client's own methods ----

  /** What the steps of the machine do to the table and the channels; the methods below promise the
      same of the fields. */
  lemma TableSteps(s: State, c: Caller)
    ensures Enabled(s, Register(c)) ==>
              var s' := Apply(s, Register(c));
              s'.pending == s.pending[D.Decimal(s.calls[c].id) := c] && s'.chans == s.chans[c := Chan([], false)]
    ensures Enabled(s, Leave(c)) ==>
              var s' := Apply(s, Leave(c));
              s'.pending == s.pending - {D.Decimal(s.calls[c].id)} && s'.chans == s.chans
    ensures Enabled(s, Sweep) ==>
              var s' := Apply(s, Sweep);
              s'.pending == map[] && s'.chans == Closed(s.chans, s.pending.Values)
  {
    if c in s.calls {
      KeyIsDecimal(s.calls[c]);
    }
    hide KeyOf, J.NormalizeID, D.Decimal, Closed;
  }

  class StdioClient {
    var nextID: nat
    var pending: map<Key, Caller>
    var chans: map<Caller, Chan>

    constructor ()
      ensures nextID == 0 && pending == map[] && chans == map[]
    {
      nextID, pending, chans := 0, map[], map[];
    }

    /** The first critical section of sendRequest. */
    method Register(id: nat, c: Caller)
      modifies this`pending, this`chans
      ensures pending == old(pending)[D.Decimal(id) := c] && chans == old(chans)[c := Chan([], false)]
    {
      chans := chans[c := Chan([], false)];
      pending := pending[J.NormalizeID(J.Integer(id)) := c];
    }

    /** Its deferred one. */
    method Forget(id: nat)
      modifies this`pending
      ensures pending == old(pending) - {D.Decimal(id)}
    {
      pending := pending - {J.NormalizeID(J.Integer(id))};
    }

    /** The loop of Close over the table, in the order of the map. */
    method CloseChannels(order: seq<Key>)
      requires T.Distinct(order)
      requires forall k :: k in pending <==> InRest(order, 0, k)
      requires pending.Values <= chans.Keys
      modifies this`pending, this`chans
      ensures pending == map[] && chans == Closed(old(chans), old(pending).Values)
    {
      ghost var closed: set<Caller> := {};
      assert chans == Closed(chans, closed) && order[0..] == order;
      hide *;
      var i := 0;
      while i < |order|
        invariant 0 <= i <= |order|
        invariant forall k :: k in pending <==> InRest(order, i, k)
        invariant closed + pending.Values == old(pending).Values <= old(chans).Keys
        invariant chans == Closed(old(chans), closed)
      {
        RestStep(order, i);
        var c := pending[order[i]];
        CloseOne(pending, order[i], old(chans), closed);
        chans := chans[c := chans[c].(closed := true)];
        pending := pending - {order[i]};
        closed := closed + {c};
        i := i + 1;
      }
      assert forall k :: !InRest(order, i, k) by {
        RestEmpty(order);
      }
      assert pending.Values == {};
    }
  }

  predicate InRest(order: seq<Key>, i: nat, k: Key) {
    i <= |order| && k in order[i..]
  }

  lemma RestStep(order: seq<Key>, i: nat)
    requires i < |order| && T.Distinct(order)
    ensures InRest(order, i, order[i]) && !InRest(order, i + 1, order[i])
    ensures forall k :: InRest(order, i, k) <==> k == order[i] || InRest(order, i + 1, k)
  {
    assert order[i..] == [order[i]] + order[i + 1..];
  }

  lemma RestEmpty(order: seq<Key>)
    ensures forall k :: !InRest(order, |order|, k)
  {
  }

  lemma CloseOne(pending: map<Key, Caller>, k: Key, chans: map<Caller, Chan>, closed: set<Caller>)
    requires k in pending && pending[k] in chans
    ensures var c, was := pending[k], Closed(chans, closed);
            && {c} + (pending - {k}).Values == pending.Values && c in was
            && was[c := was[c].(closed := true)] == Closed(chans, closed + {c})
  {
    var c := pending[k];
    forall x | x in pending.Values ensures x in {c} + (pending - {k}).Values {
      var q :| q in pending && pending[q] == x;
      assert q != k ==> q in pending - {k} && (pending - {k})[q] == x;
    }
  }
}

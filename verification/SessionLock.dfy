/** The per-session lock with reference-counted semaphores (ark/session/lock.go), as a state
    machine: each step is one critical section under the locker's mutex or one channel operation. */
module SessionLock {
  type SessionId = string
  type RefId = nat
  type Caller = nat

  /** A lockRef: the tokens in its channel of capacity 1, and its reference count. */
  datatype LockRef = LockRef(tokens: nat, ref: int)

  /** Where a call of Lock (or the unlock function it returned) stands. A Cancelling call has left
      the select through ctx.Done but has not taken the mutex yet. */
  datatype Phase = Waiting | Cancelling | Holding | Done

  datatype Call = Call(session: SessionId, ref: RefId, phase: Phase)

  /** The locks map, every lockRef ever allocated, and every call so far. */
  datatype State = State(locks: map<SessionId, RefId>, refs: map<RefId, LockRef>, calls: map<Caller, Call>)

  datatype Step =
    | Enter(c: Caller, session: SessionId, newRef: RefId)
    | Acquire(c: Caller)
    | ChooseCancel(c: Caller)
    | FinishCancel(c: Caller)
    | Unlock(c: Caller)
    | UnlockAgain(c: Caller)

  const CAPACITY := 1

  const INITIAL := State(map[], map[], map[])

  predicate InPhase(s: State, c: Caller, phase: Phase) {
    c in s.calls && s.calls[c].phase == phase && s.calls[c].ref in s.refs
  }

  /** Whether a step can be taken. Acquire needs a token in the channel; Unlock needs room in it
      unless it drops the entry. */
  predicate Enabled(s: State, step: Step) {
    match step
    case Enter(c, session, newRef) =>
      c !in s.calls && newRef !in s.refs && (session in s.locks ==> s.locks[session] in s.refs)
    case Acquire(c) => InPhase(s, c, Waiting) && s.refs[s.calls[c].ref].tokens > 0
    case ChooseCancel(c) => InPhase(s, c, Waiting)
    case FinishCancel(c) => InPhase(s, c, Cancelling)
    case Unlock(c) =>
      InPhase(s, c, Holding) && (s.refs[s.calls[c].ref].ref == 1 || s.refs[s.calls[c].ref].tokens < CAPACITY)
    case UnlockAgain(c) => InPhase(s, c, Done)
  }

  function Apply(s: State, step: Step): State
    requires Enabled(s, step)
  {
    match step
    case Enter(c, session, newRef) =>
      var s1 := if session in s.locks then s
                else State(s.locks[session := newRef], s.refs[newRef := LockRef(1, 0)], s.calls);
      var r := s1.locks[session];
      State(s1.locks, s1.refs[r := s1.refs[r].(ref := s1.refs[r].ref + 1)], s1.calls[c := Call(session, r, Waiting)])
    case Acquire(c) =>
      var r := s.calls[c].ref;
      WithPhase(s, c, Holding).(refs := s.refs[r := s.refs[r].(tokens := s.refs[r].tokens - 1)])
    case ChooseCancel(c) => WithPhase(s, c, Cancelling)
    case FinishCancel(c) =>
      var r := s.calls[c].ref;
      var left := s.refs[r].ref - 1;
      WithPhase(s, c, Done).(refs := s.refs[r := s.refs[r].(ref := left)],
                             locks := if left == 0 then s.locks - {s.calls[c].session} else s.locks)
    case Unlock(c) =>
      var r := s.calls[c].ref;
      var left := s.refs[r].ref - 1;
      if left == 0 then
        WithPhase(s, c, Done).(refs := s.refs[r := s.refs[r].(ref := left)], locks := s.locks - {s.calls[c].session})
      else
        WithPhase(s, c, Done).(refs := s.refs[r := LockRef(s.refs[r].tokens + 1, left)])
    case UnlockAgain(c) => s
  }

  function WithPhase(s: State, c: Caller, phase: Phase): State
    requires c in s.calls
  {
    s.(calls := s.calls[c := s.calls[c].(phase := phase)])
  }

  predicate IsRun(s: State, steps: seq<Step>)
    decreases |steps|
  {
    steps == [] || (Enabled(s, steps[0]) && IsRun(Apply(s, steps[0]), steps[1..]))
  }

  function Run(s: State, steps: seq<Step>): State
    requires IsRun(s, steps)
    decreases |steps|
  {
    if steps == [] then s else Run(Apply(s, steps[0]), steps[1..])
  }

  // ---- The invariant ----

  /** The calls that count in a lockRef: waiting, cancelling or holding. */
  function Users(s: State, r: RefId): set<Caller> {
    set c | c in s.calls && s.calls[c].ref == r && s.calls[c].phase != Done
  }

  function Holders(s: State, r: RefId): set<Caller> {
    set c | c in s.calls && s.calls[c].ref == r && s.calls[c].phase == Holding
  }

  /** Each live entry's count is the number of its users; its token and its holder add up to one. */
  ghost predicate EntryOk(s: State, session: SessionId) {
    session in s.locks ==>
      var r := s.locks[session];
      && r in s.refs
      && s.refs[r].ref == |Users(s, r)| > 0
      && s.refs[r].tokens + |Holders(s, r)| == 1
  }

  ghost predicate CallOk(s: State, c: Caller) {
    c in s.calls ==>
      && s.calls[c].ref in s.refs
      && (s.calls[c].phase != Done ==> s.calls[c].session in s.locks && s.locks[s.calls[c].session] == s.calls[c].ref)
  }

  ghost predicate DistinctRefs(s: State) {
    forall a, b :: a in s.locks && b in s.locks && s.locks[a] == s.locks[b] ==> a == b
  }

  ghost predicate Inv(s: State) {
    && (forall session :: session in s.locks ==> EntryOk(s, session))
    && (forall c :: c in s.calls ==> CallOk(s, c))
    && DistinctRefs(s)
    && forall r :: r in s.refs ==> RefOk(s, r)
  }

  /** A lockRef is in the map exactly while its count is positive. */
  ghost predicate RefOk(s: State, r: RefId) {
    r in s.refs ==> s.refs[r].ref >= 0 && (s.refs[r].ref > 0 <==> r in s.locks.Values)
  }

  lemma InitialInv()
    ensures Inv(INITIAL)
  {
  }

  /** A step changes one call; the users and holders of every other lockRef stay the same. */
  lemma OneCallChanges(s: State, s': State, c: Caller, call: Call)
    requires s'.calls == s.calls[c := call] && (c in s.calls ==> s.calls[c].ref == call.ref)
    ensures forall q :: q != call.ref ==> Users(s', q) == Users(s, q) && Holders(s', q) == Holders(s, q)
    ensures Users(s', call.ref) == if call.phase == Done then Users(s, call.ref) - {c} else Users(s, call.ref) + {c}
    ensures Holders(s', call.ref)
            == if call.phase == Holding then Holders(s, call.ref) + {c} else Holders(s, call.ref) - {c}
  {
  }

  /** Entries other than the one of the changed call keep their invariant. */
  lemma OtherEntries(s: State, s': State, c: Caller, call: Call)
    requires Inv(s) && s'.calls == s.calls[c := call] && (c in s.calls ==> s.calls[c].ref == call.ref)
    requires call.ref in s'.refs && s'.refs == s.refs[call.ref := s'.refs[call.ref]]
    requires forall session :: session in s'.locks && session != call.session ==>
               session in s.locks && s'.locks[session] == s.locks[session] != call.ref
    ensures forall session :: session in s'.locks && session != call.session ==> EntryOk(s', session)
  {
    OneCallChanges(s, s', c, call);
    forall session | session in s'.locks && session != call.session ensures EntryOk(s', session) {
      assert EntryOk(s, session);
    }
  }

  /** s' is s with the call c set to `call` and its lockRef to x. */
  ghost predicate Changes(s: State, s': State, c: Caller, call: Call, x: LockRef) {
    && s'.calls == s.calls[c := call] && s'.refs == s.refs[call.ref := x]
    && (c in s.calls ==> s.calls[c].ref == call.ref && s.calls[c].session == call.session)
    && forall a :: a in s.locks && a != call.session ==> s.locks[a] != call.ref
  }

  /** The entry of the changed call stays in the map or is added to it. */
  lemma KeptEntryInv(s: State, s': State, c: Caller, call: Call, x: LockRef)
    requires Inv(s) && Changes(s, s', c, call, x)
    requires s'.locks == s.locks[call.session := call.ref]
    requires call.session in s.locks ==> s.locks[call.session] == call.ref
    requires x.ref == |Users(s', call.ref)| > 0 && x.tokens + |Holders(s', call.ref)| == 1
    ensures Inv(s')
  {
    OtherEntries(s, s', c, call);
    hide Users, Holders;
    assert EntryOk(s', call.session);
    hide EntryOk, Changes, RefOk;
    forall q | q in s'.refs ensures RefOk(s', q) {
      RefsAfter(s, s', c, call, x);
      LiveRefs(s, s', call.session, call.ref, q);
    }
    forall d | d in s'.calls ensures CallOk(s', d) {
      KeptCall(s, s', c, call, x, d);
    }
  }

  lemma RefsAfter(s: State, s': State, c: Caller, call: Call, x: LockRef)
    requires Changes(s, s', c, call, x)
    ensures s'.refs == s.refs[call.ref := x] && s'.calls == s.calls[c := call]
  {
  }

  lemma KeptCall(s: State, s': State, c: Caller, call: Call, x: LockRef, d: Caller)
    requires Inv(s) && Changes(s, s', c, call, x) && d in s'.calls
    requires s'.locks == s.locks[call.session := call.ref]
    requires call.session in s.locks ==> s.locks[call.session] == call.ref
    ensures CallOk(s', d)
  {
    hide EntryOk, RefOk;
    assert d != c ==> CallOk(s, d);
  }

  /** The last user of an entry leaves and takes it out of the map. */
  lemma DroppedEntryInv(s: State, s': State, c: Caller, call: Call, x: LockRef)
    requires Inv(s) && Changes(s, s', c, call, x) && call.phase == Done
    requires call.session in s.locks && s.locks[call.session] == call.ref && call.ref in s.refs
    requires s'.locks == s.locks - {call.session}
    requires x.ref == 0 && Users(s', call.ref) == {}
    ensures Inv(s')
  {
    hide Users, Holders;
    OtherEntries(s, s', c, call);
    forall d | d in s'.calls ensures s'.calls[d].ref in s'.refs {
      assert d != c ==> CallOk(s, d);
    }
    LastUserLeaves(s, s', call);
    forall q | q in s'.refs ensures RefOk(s', q) {
      LeftRefs(s, s', call.session, call.ref, q);
    }
  }

  lemma StepInv(s: State, step: Step)
    requires Inv(s) && Enabled(s, step)
    ensures Inv(Apply(s, step))
  {
    match step
    case Enter(c, session, newRef) => EnterInv(s, c, session, newRef);
    case Acquire(c) => AcquireInv(s, c);
    case ChooseCancel(c) => ChooseCancelInv(s, c);
    case FinishCancel(c) => LeaveInv(s, step, c);
    case Unlock(c) => LeaveInv(s, step, c);
    case UnlockAgain(c) =>
  }

  lemma EnterInv(s: State, c: Caller, session: SessionId, newRef: RefId)
    requires Inv(s) && Enabled(s, Enter(c, session, newRef))
    ensures Inv(Apply(s, Enter(c, session, newRef)))
  {
    var s' := Apply(s, Enter(c, session, newRef));
    var r := s'.locks[session];
    var call, x := Call(session, r, Waiting), s'.refs[r];
    EnterChanges(s, c, session, newRef);
    hide Apply, Enabled, Inv, Changes;
    OneCallChanges(s, s', c, call);
    KeptEntryInv(s, s', c, call, x);
  }

  lemma EnterChanges(s: State, c: Caller, session: SessionId, newRef: RefId)
    requires Inv(s) && Enabled(s, Enter(c, session, newRef))
    ensures var s' := Apply(s, Enter(c, session, newRef));
            var r := if session in s.locks then s.locks[session] else newRef;
            && s'.locks == s.locks[session := r] && r in s'.refs
            && Changes(s, s', c, Call(session, r, Waiting), s'.refs[r])
            && s'.calls == s.calls[c := Call(session, r, Waiting)] && c !in s.calls
            && s'.refs[r].ref == |Users(s, r)| + 1 && s'.refs[r].tokens + |Holders(s, r)| == 1
            && c !in Users(s, r) && c !in Holders(s, r)
  {
    if session in s.locks {
      assert EntryOk(s, session);
    } else {
      NoUsers(s, newRef);
    }
    forall a | a in s.locks && a != session
      ensures s.locks[a] != if session in s.locks then s.locks[session] else newRef
    {
      assert EntryOk(s, a);
    }
  }

  /** What the invariant says about the entry of a call that is not done. */
  lemma OwnEntry(s: State, c: Caller)
    requires Inv(s) && c in s.calls && s.calls[c].phase != Done
    ensures var session, r := s.calls[c].session, s.calls[c].ref;
            && session in s.locks && s.locks[session] == r && r in s.refs
            && s.refs[r].ref == |Users(s, r)| > 0 && s.refs[r].tokens + |Holders(s, r)| == 1
            && c in Users(s, r) && (c in Holders(s, r) <==> s.calls[c].phase == Holding)
            && forall a :: a in s.locks && a != session ==> s.locks[a] != r
  {
    assert CallOk(s, c) && EntryOk(s, s.calls[c].session);
  }

  lemma AcquireInv(s: State, c: Caller)
    requires Inv(s) && Enabled(s, Acquire(c))
    ensures Inv(Apply(s, Acquire(c)))
  {
    OwnEntry(s, c);
    var s' := Apply(s, Acquire(c));
    var call := s.calls[c].(phase := Holding);
    var x := s'.refs[call.ref];
    assert Changes(s, s', c, call, x) && s'.locks == s.locks[call.session := call.ref];
    hide Inv, Apply, Enabled, Users, Holders;
    OneCallChanges(s, s', c, call);
    KeepUser(Users(s, call.ref), c);
    KeptEntryInv(s, s', c, call, x);
  }

  lemma KeepUser(users: set<Caller>, c: Caller)
    requires c in users
    ensures users + {c} == users
  {
  }

  lemma ChooseCancelInv(s: State, c: Caller)
    requires Inv(s) && Enabled(s, ChooseCancel(c))
    ensures Inv(Apply(s, ChooseCancel(c)))
  {
    OwnEntry(s, c);
    var s' := Apply(s, ChooseCancel(c));
    var call := s.calls[c].(phase := Cancelling);
    var x := s.refs[call.ref];
    CancelChanges(s, c);
    hide Inv, Apply, Enabled, Users, Holders, Changes;
    OneCallChanges(s, s', c, call);
    KeepUser(Users(s, call.ref), c);
    KeptEntryInv(s, s', c, call, x);
  }

  lemma CancelChanges(s: State, c: Caller)
    requires Inv(s) && Enabled(s, ChooseCancel(c))
    ensures var s' := Apply(s, ChooseCancel(c));
            var call := s.calls[c].(phase := Cancelling);
            && call.ref in s.refs && Changes(s, s', c, call, s.refs[call.ref])
            && s'.calls == s.calls[c := call] && s'.locks == s.locks[call.session := call.ref]
  {
    OwnEntry(s, c);
    hide Inv, Users, Holders;
  }

  lemma ChangedCalls(s: State, s': State, c: Caller, call: Call, x: LockRef)
    requires Changes(s, s', c, call, x)
    ensures s'.calls == s.calls[c := call] && s'.refs[call.ref] == x
  {
  }

  lemma LeaveChanges(s: State, step: Step, c: Caller)
    requires Inv(s) && Enabled(s, step) && (step == FinishCancel(c) || step == Unlock(c))
    ensures c in s.calls && s.calls[c].phase != Done
    ensures var s' := Apply(s, step);
            var call := s.calls[c].(phase := Done);
            && call.ref in s.refs && call.ref in s'.refs
            && var x := s'.refs[call.ref];
               && Changes(s, s', c, call, x) && x.ref == s.refs[call.ref].ref - 1
               && (x.ref == 0 ==> s'.locks == s.locks - {call.session})
               && (x.ref != 0 ==> s'.locks == s.locks[call.session := call.ref]
                                  && x.tokens == s.refs[call.ref].tokens + if s.calls[c].phase == Holding then 1 else 0)
  {
    OwnEntry(s, c);
    hide Inv, Users, Holders;
  }

  /** Unlocking and finishing a cancellation drop a user, and the entry with its last user. */
  lemma LeaveInv(s: State, step: Step, c: Caller)
    requires Inv(s) && Enabled(s, step) && (step == FinishCancel(c) || step == Unlock(c))
    ensures Inv(Apply(s, step))
  {
    LeaveChanges(s, step, c);
    var s' := Apply(s, step);
    var call := s.calls[c].(phase := Done);
    var x := s'.refs[call.ref];
    OwnEntry(s, c);
    ChangedCalls(s, s', c, call, x);
    hide Inv, Apply, Enabled, Users, Holders, Changes;
    OneCallChanges(s, s', c, call);
    assert |Users(s', call.ref)| == x.ref;
    if x.ref == 0 {
      DroppedEntryInv(s, s', c, call, x);
    } else {
      KeptEntryInv(s, s', c, call, x);
    }
  }

  lemma NoUsers(s: State, r: RefId)
    requires Inv(s) && r !in s.refs
    ensures Users(s, r) == {} && Holders(s, r) == {}
  {
    forall c | c in s.calls ensures s.calls[c].ref != r {
      assert CallOk(s, c);
    }
  }

  /** Adding or keeping one entry: which lockRefs are in the map. */
  lemma LiveRefs(s: State, s': State, session: SessionId, r: RefId, q: RefId)
    requires Inv(s) && session in s'.locks && s'.locks[session] == r && q in s'.refs
    requires s'.locks == s.locks[session := r] && (session in s.locks ==> s.locks[session] == r)
    requires r in s'.refs && s'.refs == s.refs[r := s'.refs[r]] && s'.refs[r].ref > 0
    ensures RefOk(s', q)
  {
    if q in s.locks.Values {
      var a :| a in s.locks && s.locks[a] == q;
      assert a in s'.locks && s'.locks[a] == q;
    }
    if q in s'.locks.Values {
      var a :| a in s'.locks && s'.locks[a] == q;
      assert q != r ==> a in s.locks && s.locks[a] == q;
    }
    assert session in s'.locks && s'.locks[session] == r;
  }

  /** When the count reaches zero no other call uses the entry that is deleted. */
  lemma LastUserLeaves(s: State, s': State, call: Call)
    requires Inv(s) && call.ref in s'.refs && Users(s', call.ref) == {}
    requires s'.locks == s.locks - {call.session} && call.session in s.locks && s.locks[call.session] == call.ref
    requires forall d :: d in s'.calls && s'.calls[d].phase != Done ==> d in s.calls && s.calls[d] == s'.calls[d]
    requires forall d :: d in s'.calls ==> s'.calls[d].ref in s'.refs
    ensures forall d :: d in s'.calls ==> CallOk(s', d)
  {
    forall d | d in s'.calls ensures CallOk(s', d) {
      if s'.calls[d].phase != Done {
        assert CallOk(s, d);
        assert d !in Users(s', call.ref);
      }
    }
  }

  lemma LeftRefs(s: State, s': State, session: SessionId, r: RefId, q: RefId)
    requires Inv(s) && session in s.locks && s.locks[session] == r && q in s'.refs
    requires r in s.refs && r in s'.refs && s'.refs == s.refs[r := s'.refs[r]] && s'.refs[r].ref >= 0
    requires s'.locks == if s'.refs[r].ref == 0 then s.locks - {session} else s.locks
    ensures RefOk(s', q)
  {
    if q in s.locks.Values {
      var a :| a in s.locks && s.locks[a] == q;
      assert a != session ==> a in s'.locks && s'.locks[a] == q;
      assert session in s'.locks ==> s'.locks[session] == r;
    }
    if q in s'.locks.Values {
      var a :| a in s'.locks && s'.locks[a] == q;
      assert a in s.locks && s.locks[a] == q;
    }
  }

  lemma {:induction false} RunInv(s: State, steps: seq<Step>)
    requires Inv(s) && IsRun(s, steps)
    ensures Inv(Run(s, steps))
    decreases |steps|
  {
    if steps != [] {
      StepInv(s, steps[0]);
      RunInv(Apply(s, steps[0]), steps[1..]);
    }
  }

  // ---- What every interleaving guarantees ----

  ghost predicate Reachable(s: State) {
    exists steps :: IsRun(INITIAL, steps) && Run(INITIAL, steps) == s
  }

  lemma ReachableInv(s: State)
    requires Reachable(s)
    ensures Inv(s)
  {
    var steps :| IsRun(INITIAL, steps) && Run(INITIAL, steps) == s;
    InitialInv();
    RunInv(INITIAL, steps);
  }

  predicate Holds(s: State, c: Caller, session: SessionId) {
    c in s.calls && s.calls[c].phase == Holding && s.calls[c].session == session
  }

  /** At most one caller holds a session at a time. */
  lemma MutualExclusion(s: State, c: Caller, d: Caller, session: SessionId)
    requires Reachable(s) && Holds(s, c, session) && Holds(s, d, session)
    ensures c == d
  {
    ReachableInv(s);
    OneHolder(s, c, d, session);
  }

  lemma OneHolder(s: State, c: Caller, d: Caller, session: SessionId)
    requires Inv(s) && Holds(s, c, session) && Holds(s, d, session)
    ensures c == d
  {
    OwnEntry(s, c);
    OwnEntry(s, d);
    SubsetSize({c, d}, Holders(s, s.calls[c].ref));
    assert c != d ==> |{c, d}| == 2;
  }

  /** In every reachable state each live entry's count is its waiters, cancelling waiters and
      holder, its token and holder add up to one, and it is in the map exactly while it has users. */
  lemma Accounting(s: State, r: RefId)
    requires Reachable(s) && r in s.refs
    ensures s.refs[r].ref == |Users(s, r)|
    ensures r in s.locks.Values <==> Users(s, r) != {}
    ensures r in s.locks.Values ==> s.refs[r].tokens + |Holders(s, r)| == 1
  {
    ReachableInv(s);
    assert RefOk(s, r);
    if r in s.locks.Values {
      var a :| a in s.locks && s.locks[a] == r;
      assert EntryOk(s, a);
    } else if c :| c in Users(s, r) {
      OwnEntry(s, c);
    }
  }

  /** Returning the token never blocks: the channel is empty whenever the lock is held. */
  lemma UnlockNeverBlocks(s: State, c: Caller)
    requires Reachable(s) && c in s.calls && s.calls[c].phase == Holding
    ensures Enabled(s, Unlock(c)) && s.refs[s.calls[c].ref].tokens == 0
  {
    ReachableInv(s);
    OwnEntry(s, c);
    assert {c} <= Holders(s, s.calls[c].ref);
    SubsetSize({c}, Holders(s, s.calls[c].ref));
  }

  lemma {:induction false} SubsetSize(a: set<Caller>, b: set<Caller>)
    requires a <= b
    ensures |a| <= |b|
  {
    if x :| x in a {
      SubsetSize(a - {x}, b - {x});
    }
  }

  /** Nobody waits for a free lock: unless some caller holds the session, every waiter of it can
      take the token at once, and a cancelling one can always leave. */
  lemma Progress(s: State, c: Caller)
    requires Reachable(s) && c in s.calls
    ensures s.calls[c].phase == Waiting ==>
              Enabled(s, Acquire(c)) || exists d :: Holds(s, d, s.calls[c].session)
    ensures s.calls[c].phase == Cancelling ==> Enabled(s, FinishCancel(c))
  {
    ReachableInv(s);
    if s.calls[c].phase != Done {
      OwnEntry(s, c);
      if d :| d in Holders(s, s.calls[c].ref) {
        OwnEntry(s, d);
        assert Holds(s, d, s.calls[c].session);
      }
    }
  }

  /** Once every call is over no entry is left behind. */
  lemma NoLeak(s: State)
    requires Reachable(s) && forall c :: c in s.calls ==> s.calls[c].phase == Done
    ensures s.locks == map[]
  {
    ReachableInv(s);
    assert forall r :: Users(s, r) == {};
    forall session ensures session !in s.locks {
      assert session in s.locks ==> EntryOk(s, session);
    }
  }

  // ---- What a caller can do ----

  /** Lock never refuses: any new caller can enter any session, held or not, and is then one more
      waiter of its entry; a new entry has its token. */
  lemma EnterAlways(s: State, c: Caller, session: SessionId, newRef: RefId)
    requires Reachable(s) && c !in s.calls && newRef !in s.refs
    ensures Enabled(s, Enter(c, session, newRef))
    ensures var s' := Apply(s, Enter(c, session, newRef));
            var r := if session in s.locks then s.locks[session] else newRef;
            && s'.calls == s.calls[c := Call(session, r, Waiting)]
            && session in s'.locks && s'.locks[session] == r && r in s'.refs
            && (session in s.locks ==>
                  r in s.refs && s'.refs[r] == s.refs[r].(ref := s.refs[r].ref + 1))
            && (session !in s.locks ==> s'.refs[r] == LockRef(1, 1))
  {
    ReachableInv(s);
    assert session in s.locks ==> EntryOk(s, session);
    hide Inv, Reachable;
  }

  /** The hand-over: when the holder unlocks, any waiter of the session can take the lock next. */
  lemma HandOver(s: State, c: Caller, d: Caller, session: SessionId)
    requires Reachable(s) && Holds(s, d, session)
    requires c in s.calls && s.calls[c].phase == Waiting && s.calls[c].session == session
    ensures IsRun(s, [Unlock(d), Acquire(c)])
    ensures var s' := Run(s, [Unlock(d), Acquire(c)]);
            Holds(s', c, session) && d in s'.calls && s'.calls[d].phase == Done && session in s'.locks
  {
    ReachableInv(s);
    UnlockNeverBlocks(s, d);
    OwnEntry(s, c);
    OwnEntry(s, d);
    TwoUsers(s, c, d);
    var s1 := Apply(s, Unlock(d));
    hide Inv, Reachable, Users, Holders;
    assert s1.calls[c] == s.calls[c] && s1.refs[s.calls[c].ref].tokens == 1;
    var s2 := Apply(s1, Acquire(c));
    assert s2.calls[c].phase == Holding;
    TwoSteps(s, Unlock(d), Acquire(c));
  }

  lemma TwoUsers(s: State, c: Caller, d: Caller)
    requires c in s.calls && d in s.calls && s.calls[c].phase == Waiting && s.calls[d].phase == Holding
    requires s.calls[c].ref == s.calls[d].ref
    ensures |Users(s, s.calls[c].ref)| >= 2
  {
    SubsetSize({c, d}, Users(s, s.calls[c].ref));
  }

  lemma TwoSteps(s: State, a: Step, b: Step)
    requires Enabled(s, a) && Enabled(Apply(s, a), b)
    ensures IsRun(s, [a, b]) && Run(s, [a, b]) == Apply(Apply(s, a), b)
  {
    hide Enabled, Apply;
    assert [a, b][1..] == [b] && [b][1..] == [];
    assert IsRun(Apply(Apply(s, a), b), []) && Run(Apply(Apply(s, a), b), []) == Apply(Apply(s, a), b);
    assert IsRun(Apply(s, a), [b]) && Run(Apply(s, a), [b]) == Apply(Apply(s, a), b);
  }

  /** A waiter can always give up, and is then out: it holds nothing and counts no more. */
  lemma CancelAlways(s: State, c: Caller)
    requires Reachable(s) && c in s.calls && s.calls[c].phase == Waiting
    ensures IsRun(s, [ChooseCancel(c), FinishCancel(c)])
    ensures var s', r := Run(s, [ChooseCancel(c), FinishCancel(c)]), s.calls[c].ref;
            && s'.calls == s.calls[c := s.calls[c].(phase := Done)]
            && r in s.refs && s'.refs == s.refs[r := s.refs[r].(ref := s.refs[r].ref - 1)]
  {
    ReachableInv(s);
    OwnEntry(s, c);
    hide Inv, Reachable, Users, Holders;
    TwoSteps(s, ChooseCancel(c), FinishCancel(c));
  }

  /** A caller that has entered holds the lock after its own Acquire and nothing else. */
  lemma AcquireHolds(s: State, c: Caller)
    requires Reachable(s) && Enabled(s, Acquire(c))
    ensures Holds(Apply(s, Acquire(c)), c, s.calls[c].session)
  {
  }
}

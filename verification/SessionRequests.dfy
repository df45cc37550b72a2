/** Concurrent requests on sessions: each takes the session's lock, appends messages by reading,
    changing and saving the stored session, and unlocks (internal/app/api/grpc/autopilot.go,
    internal/app/assistant/service.go, internal/infra/db/memory.go). Reads and saves of different
    requests interleave freely with each other and with every step of the lock. */
module SessionRequests {
  import L = SessionLock
  import H = SessionHistory
  import T = Texts

  type SessionId = string
  type Caller = nat

  /** One saved message: the request it belongs to and what it appended. */
  datatype Entry = Entry(caller: Caller, append: H.Append)

  /** The lock, the store, the copies that requests have read and not saved yet, and, per session,
      the saves so far. */
  datatype State = State(lock: L.State, store: map<SessionId, H.Session>, copies: map<Caller, H.Session>,
                         log: map<SessionId, seq<Entry>>)

  datatype Step =
    | LockStep(step: L.Step)
    | Read(c: Caller)
    | Save(c: Caller, append: H.Append)
    | Abandon(c: Caller)

  const INITIAL := State(L.INITIAL, map[], map[], map[])

  function Stored(s: State, session: SessionId): H.Session {
    if session in s.store then s.store[session] else H.FRESH
  }

  function LogOf(s: State, session: SessionId): seq<Entry> {
    if session in s.log then s.log[session] else []
  }

  predicate IsHolding(s: State, c: Caller) {
    c in s.lock.calls && s.lock.calls[c].phase == L.Holding
  }

  /** A request has a session id that is not empty, and unlocks only after its appends are over. */
  predicate Enabled(s: State, step: Step) {
    match step
    case LockStep(l) => L.Enabled(s.lock, l) && (l.Enter? ==> l.session != "") && (l.Unlock? ==> l.c !in s.copies)
    case Read(c) => IsHolding(s, c) && c !in s.copies
    case Save(c, _) => IsHolding(s, c) && c in s.copies
    case Abandon(c) => c in s.copies
  }

  function Apply(s: State, step: Step): State
    requires Enabled(s, step)
  {
    match step
    case LockStep(l) => s.(lock := L.Apply(s.lock, l))
    case Read(c) => s.(copies := s.copies[c := Stored(s, s.lock.calls[c].session)])
    case Save(c, append) =>
      var session := s.lock.calls[c].session;
      s.(store := s.store[session := H.Appended(s.copies[c], append)],
         copies := s.copies - {c},
         log := s.log[session := LogOf(s, session) + [Entry(c, append)]])
    case Abandon(c) => s.(copies := s.copies - {c})
  }

  predicate IsRun(s: State, steps: seq<Step>)
    decreases |steps|
  {
    steps == [] || (Enabled(s, steps[0]) && IsRun(Apply(s, steps[0]), steps[1..]))
  }

  function RunFrom(s: State, steps: seq<Step>): State
    requires IsRun(s, steps)
    decreases |steps|
  {
    if steps == [] then s else RunFrom(Apply(s, steps[0]), steps[1..])
  }

  ghost predicate Reachable(s: State) {
    exists steps :: IsRun(INITIAL, steps) && RunFrom(INITIAL, steps) == s
  }

  // ---- The invariant ----

  function Appends(log: seq<Entry>): seq<H.Append> {
    seq(|log|, i requires 0 <= i < |log| => log[i].append)
  }

  lemma AppendsSnoc(log: seq<Entry>, e: Entry)
    ensures Appends(log + [e]) == Appends(log) + [e.append]
  {
  }

  /** The saves of one request are not interleaved with those of another. */
  ghost predicate Contiguous(log: seq<Entry>) {
    forall i, j, k :: 0 <= i < j < k < |log| && log[i].caller == log[k].caller ==> log[j].caller == log[i].caller
  }

  /** The stored session is what the logged appends produce when run one after the other. */
  ghost predicate Serial(s: State, session: SessionId) {
    && Stored(s, session) == H.Runs(Appends(LogOf(s, session))).session
    && Contiguous(LogOf(s, session))
  }

  ghost predicate EntryOk(s: State, session: SessionId, i: nat) {
    i < |LogOf(s, session)| ==>
      var log := LogOf(s, session);
      var c := log[i].caller;
      && c in s.lock.calls && s.lock.calls[c].session == session
      && (s.lock.calls[c].phase == L.Done || (s.lock.calls[c].phase == L.Holding && log[|log| - 1].caller == c))
  }

  ghost predicate CopyOk(s: State, c: Caller) {
    c in s.copies ==> IsHolding(s, c) && s.copies[c] == Stored(s, s.lock.calls[c].session)
  }

  ghost predicate Inv(s: State) {
    && L.Inv(s.lock)
    && (forall c :: c in s.copies ==> CopyOk(s, c))
    && (forall session :: Serial(s, session))
    && (forall session, i: nat :: EntryOk(s, session, i))
  }

  lemma InitialInv()
    ensures Inv(INITIAL)
  {
    L.InitialInv();
    forall session ensures Serial(INITIAL, session) {
      assert Appends(LogOf(INITIAL, session)) == [];
    }
  }

  /** A lock step leaves alone what its caller has logged; a caller in a log is holding or done. */
  lemma LockStepKeeps(s: L.State, l: L.Step, c: Caller)
    requires L.Enabled(s, l) && c in s.calls
    ensures var s' := L.Apply(s, l);
            && c in s'.calls && s'.calls[c].session == s.calls[c].session
            && (s.calls[c].phase == L.Done ==> s'.calls[c].phase == L.Done)
            && (s.calls[c].phase == L.Holding ==> s'.calls[c].phase == if l == L.Unlock(c) then L.Done else L.Holding)
  {
  }

  lemma LockStepInv(s: State, l: L.Step)
    requires Inv(s) && Enabled(s, LockStep(l))
    ensures Inv(Apply(s, LockStep(l)))
  {
    var s' := Apply(s, LockStep(l));
    assert s' == s.(lock := L.Apply(s.lock, l));
    assert L.Enabled(s.lock, l) && (l.Unlock? ==> l.c !in s.copies);
    hide L.Apply, L.Inv, L.Enabled, CopyOk, EntryOk, Serial, Apply, Enabled;
    L.StepInv(s.lock, l);
    forall c | c in s'.copies ensures CopyOk(s', c) {
      LockStepKeepsCopy(s, l, c);
    }
    forall session ensures Serial(s', session) {
      SerialByStore(s, s', session);
    }
    forall session, i: nat ensures EntryOk(s', session, i) {
      LockStepKeepsEntry(s, l, session, i);
    }
  }

  lemma LockStepKeepsCopy(s: State, l: L.Step, c: Caller)
    requires L.Enabled(s.lock, l) && c in s.copies && l != L.Unlock(c) && CopyOk(s, c)
    ensures CopyOk(s.(lock := L.Apply(s.lock, l)), c)
  {
    LockStepKeeps(s.lock, l, c);
  }

  lemma LockStepKeepsEntry(s: State, l: L.Step, session: SessionId, i: nat)
    requires L.Enabled(s.lock, l) && EntryOk(s, session, i)
    ensures EntryOk(s.(lock := L.Apply(s.lock, l)), session, i)
  {
    hide L.Apply, L.Enabled;
    if i < |LogOf(s, session)| {
      LockStepKeeps(s.lock, l, LogOf(s, session)[i].caller);
    }
  }

  /** Serial speaks only of the store and the log. */
  lemma SerialByStore(s: State, s': State, session: SessionId)
    requires Serial(s, session) && s'.store == s.store && s'.log == s.log
    ensures Serial(s', session)
  {
    hide Contiguous, H.Runs, Appends;
  }

  lemma SaveEffect(s: State, c: Caller, append: H.Append, a: SessionId)
    requires Enabled(s, Save(c, append))
    ensures IsHolding(s, c) && c in s.copies
    ensures var s' := Apply(s, Save(c, append));
            && s'.lock == s.lock && s'.copies == s.copies - {c}
            && (if a == s.lock.calls[c].session then
                  LogOf(s', a) == LogOf(s, a) + [Entry(c, append)] && Stored(s', a) == H.Appended(s.copies[c], append)
                else
                  LogOf(s', a) == LogOf(s, a) && Stored(s', a) == Stored(s, a))
  {
    hide H.Appended;
  }

  lemma SaveInv(s: State, c: Caller, append: H.Append)
    requires Inv(s) && Enabled(s, Save(c, append))
    ensures Inv(Apply(s, Save(c, append)))
  {
    var s' := Apply(s, Save(c, append));
    SaveEffect(s, c, append, "");
    hide Apply, Enabled, L.Inv, CopyOk, EntryOk, Serial;
    forall d | d in s'.copies ensures CopyOk(s', d) {
      SaveKeepsCopy(s, c, append, d);
    }
    forall a ensures Serial(s', a) {
      SaveKeepsSerial(s, c, append, a);
    }
    forall a, i: nat ensures EntryOk(s', a, i) {
      SaveKeepsEntry(s, c, append, a, i);
    }
  }

  lemma SaveKeepsCopy(s: State, c: Caller, append: H.Append, d: Caller)
    requires L.Inv(s.lock) && Enabled(s, Save(c, append)) && d in s.copies && d != c && CopyOk(s, d)
    ensures CopyOk(Apply(s, Save(c, append)), d)
  {
    SaveEffect(s, c, append, s.lock.calls[d].session);
    if s.lock.calls[d].session == s.lock.calls[c].session {
      OnlyHolder(s, c, d);
    }
    hide Apply, Enabled, L.Inv, LogOf, Stored;
  }

  lemma SaveKeepsSerial(s: State, c: Caller, append: H.Append, a: SessionId)
    requires Inv(s) && Enabled(s, Save(c, append))
    ensures Serial(Apply(s, Save(c, append)), a)
  {
    SaveEffect(s, c, append, a);
    SavedIsRun(s, c, append);
    StaysContiguous(s, a, Entry(c, append));
    assert Serial(s, a);
    hide Apply, Enabled, Inv, CopyOk, H.Runs, H.Appended, Contiguous, Appends, LogOf, Stored;
  }

  /** What c saves is one more append on top of the logged ones. */
  lemma SavedIsRun(s: State, c: Caller, append: H.Append)
    requires Inv(s) && Enabled(s, Save(c, append))
    ensures IsHolding(s, c)
    ensures H.Appended(s.copies[c], append)
            == H.Runs(Appends(LogOf(s, s.lock.calls[c].session) + [Entry(c, append)])).session
  {
    var session := s.lock.calls[c].session;
    var log := LogOf(s, session);
    assert CopyOk(s, c) && Serial(s, session);
    hide Inv, Apply, Enabled, H.Runs, H.Appended, Contiguous, Appends, LogOf;
    AppendsSnoc(log, Entry(c, append));
    H.RunsStep(Appends(log), append);
  }

  lemma SaveKeepsEntry(s: State, c: Caller, append: H.Append, a: SessionId, i: nat)
    requires Inv(s) && Enabled(s, Save(c, append))
    ensures EntryOk(Apply(s, Save(c, append)), a, i)
  {
    assert EntryOk(s, a, i);
    LockInv(s);
    SaveEffect(s, c, append, a);
    hide *;
    if a == s.lock.calls[c].session {
      EntryAfterSave(s, Apply(s, Save(c, append)), c, append, i);
    } else {
      EntryElsewhere(s, Apply(s, Save(c, append)), a, i);
    }
  }

  lemma EntryAfterSave(s: State, s': State, c: Caller, append: H.Append, i: nat)
    requires L.Inv(s.lock) && IsHolding(s, c) && s'.lock == s.lock
    requires var a := s.lock.calls[c].session; EntryOk(s, a, i) && LogOf(s', a) == LogOf(s, a) + [Entry(c, append)]
    ensures EntryOk(s', s.lock.calls[c].session, i)
  {
    var log := LogOf(s, s.lock.calls[c].session);
    if i < |log| && IsHolding(s, log[i].caller) {
      OnlyHolder(s, c, log[i].caller);
    }
    hide LogOf, L.Inv;
  }

  lemma EntryElsewhere(s: State, s': State, a: SessionId, i: nat)
    requires EntryOk(s, a, i) && s'.lock == s.lock && LogOf(s', a) == LogOf(s, a)
    ensures EntryOk(s', a, i)
  {
    hide LogOf;
  }

  lemma LockInv(s: State)
    requires Inv(s)
    ensures L.Inv(s.lock)
  {
  }

  lemma OnlyHolder(s: State, c: Caller, d: Caller)
    requires L.Inv(s.lock) && IsHolding(s, c) && IsHolding(s, d) && s.lock.calls[c].session == s.lock.calls[d].session
    ensures c == d
  {
    L.OneHolder(s.lock, c, d, s.lock.calls[c].session);
  }

  lemma StaysContiguous(s: State, session: SessionId, e: Entry)
    requires Inv(s) && IsHolding(s, e.caller)
    ensures Contiguous(LogOf(s, session) + [e])
  {
    var log := LogOf(s, session);
    assert Serial(s, session);
    forall i, j, k | 0 <= i < j < k < |log| + 1 && (log + [e])[i].caller == (log + [e])[k].caller
      ensures (log + [e])[j].caller == (log + [e])[i].caller
    {
      if k == |log| {
        assert EntryOk(s, session, i);
      }
    }
  }

  lemma StepInv(s: State, step: Step)
    requires Inv(s) && Enabled(s, step)
    ensures Inv(Apply(s, step))
  {
    match step
    case LockStep(l) => LockStepInv(s, l);
    case Save(c, append) => SaveInv(s, c, append);
    case Read(c) => CopiesInv(s, step);
    case Abandon(c) => CopiesInv(s, step);
  }

  /** Reading and abandoning a copy change the copies only. */
  lemma CopiesInv(s: State, step: Step)
    requires Inv(s) && Enabled(s, step) && (step.Read? || step.Abandon?)
    ensures Inv(Apply(s, step))
  {
    var s' := Apply(s, step);
    assert s' == s.(copies := s'.copies);
    CopiesStillOk(s, step);
    hide L.Inv, CopyOk, EntryOk, Serial, Apply, Enabled;
    forall session ensures Serial(s', session) {
      SerialByStore(s, s', session);
    }
    forall session, i: nat ensures EntryOk(s', session, i) {
      assert EntryOk(s, session, i);
      EntryByLog(s, s', session, i);
    }
  }

  lemma CopiesStillOk(s: State, step: Step)
    requires Inv(s) && Enabled(s, step) && (step.Read? || step.Abandon?)
    ensures var s' := Apply(s, step); forall d :: d in s'.copies ==> CopyOk(s', d)
  {
    var s' := Apply(s, step);
    hide L.Inv, EntryOk, Serial, CopyOk, Apply, Enabled;
    forall d | d in s'.copies ensures CopyOk(s', d) {
      assert d in s.copies ==> CopyOk(s, d);
      CopyStillOk(s, step, d);
    }
  }

  lemma CopyStillOk(s: State, step: Step, d: Caller)
    requires Enabled(s, step) && (step.Read? || step.Abandon?) && CopyOk(s, d)
    ensures CopyOk(Apply(s, step), d)
  {
  }

  lemma EntryByLog(s: State, s': State, session: SessionId, i: nat)
    requires EntryOk(s, session, i) && s'.log == s.log && s'.lock == s.lock
    ensures EntryOk(s', session, i)
  {
  }

  lemma {:induction false} RunInv(s: State, steps: seq<Step>)
    requires Inv(s) && IsRun(s, steps)
    ensures Inv(RunFrom(s, steps))
    decreases |steps|
  {
    if steps != [] {
      StepInv(s, steps[0]);
      RunInv(Apply(s, steps[0]), steps[1..]);
    }
  }

  /** Main result: in every interleaving, each session is what a serial execution of its requests
      produces, with the appends of a request in one piece. */
  lemma RequestsAreSerial(s: State, session: SessionId)
    requires Reachable(s)
    ensures Stored(s, session) == H.Runs(Appends(LogOf(s, session))).session
    ensures Contiguous(LogOf(s, session))
  {
    var steps :| IsRun(INITIAL, steps) && RunFrom(INITIAL, steps) == s;
    InitialInv();
    RunInv(INITIAL, steps);
    assert Serial(s, session);
  }

  /** So no message is lost: what compression has dropped, followed by the stored history, is
      every appended message, in the serial order. */
  lemma NoMessageLost(s: State, session: SessionId)
    requires Reachable(s) && |LogOf(s, session)| <= H.INT32_MAX
    ensures var log := LogOf(s, session);
            var all := H.Runs(Appends(log)).dropped + Stored(s, session).history;
            |all| == |log| && forall i :: 0 <= i < |log| ==> H.SameText(all[i], log[i].append) && all[i].seqNo == i + 1
  {
    RequestsAreSerial(s, session);
    H.RunsConserveMessages(Appends(LogOf(s, session)));
  }

  // ---- Requests get served ----

  function LockSteps(steps: seq<Step>): seq<L.Step> {
    if steps == [] then [] else (if steps[0].LockStep? then [steps[0].step] else []) + LockSteps(steps[1..])
  }

  /** Requests drive the lock by its own steps, so all that holds of the lock holds here. */
  lemma {:induction false} LockRuns(s: State, steps: seq<Step>)
    requires IsRun(s, steps)
    ensures L.IsRun(s.lock, LockSteps(steps)) && L.Run(s.lock, LockSteps(steps)) == RunFrom(s, steps).lock
    decreases |steps|
  {
    if steps != [] {
      var rest := LockSteps(steps[1..]);
      LockRuns(Apply(s, steps[0]), steps[1..]);
      hide H.Appended;
      if steps[0].LockStep? {
        assert ([steps[0].step] + rest)[1..] == rest;
      } else {
        assert [] + rest == rest;
      }
    }
  }

  lemma LockReachable(s: State)
    requires Reachable(s)
    ensures L.Reachable(s.lock) && Inv(s)
  {
    var steps :| IsRun(INITIAL, steps) && RunFrom(INITIAL, steps) == s;
    LockRuns(INITIAL, steps);
    InitialInv();
    RunInv(INITIAL, steps);
  }

  /** A request that holds the lock can always append and then unlock, whatever the others do: the
      append works on the session as it is stored, and no other session changes. */
  lemma RequestCanAppend(s: State, c: Caller, append: H.Append)
    requires Reachable(s) && IsHolding(s, c) && c !in s.copies
    ensures var steps, session := [Read(c), Save(c, append), LockStep(L.Unlock(c))], s.lock.calls[c].session;
            && IsRun(s, steps)
            && var s' := RunFrom(s, steps);
               && s'.store == s.store[session := H.Appended(Stored(s, session), append)]
               && s'.log == s.log[session := LogOf(s, session) + [Entry(c, append)]]
               && s'.copies == s.copies && L.InPhase(s'.lock, c, L.Done)
  {
    LockReachable(s);
    L.UnlockNeverBlocks(s.lock, c);
    UnlockEnds(s.lock, c);
    ReadThenSave(s, c, append);
    hide *;
    var s2 := Apply(Apply(s, Read(c)), Save(c, append));
    ThenUnlock(s2, c);
    ThreeSteps(s, Read(c), Save(c, append), LockStep(L.Unlock(c)));
  }

  lemma UnlockEnds(s: L.State, c: Caller)
    requires L.Enabled(s, L.Unlock(c))
    ensures L.InPhase(L.Apply(s, L.Unlock(c)), c, L.Done)
  {
  }

  lemma ReadThenSave(s: State, c: Caller, append: H.Append)
    requires IsHolding(s, c) && c !in s.copies
    ensures Enabled(s, Read(c)) && Enabled(Apply(s, Read(c)), Save(c, append))
    ensures var session := s.lock.calls[c].session;
            Apply(Apply(s, Read(c)), Save(c, append))
            == State(s.lock, s.store[session := H.Appended(Stored(s, session), append)], s.copies,
                     s.log[session := LogOf(s, session) + [Entry(c, append)]])
  {
    hide H.Appended;
    assert s.copies[c := Stored(s, s.lock.calls[c].session)] - {c} == s.copies;
  }

  lemma ThenUnlock(s: State, c: Caller)
    requires L.Enabled(s.lock, L.Unlock(c)) && c !in s.copies
    ensures Enabled(s, LockStep(L.Unlock(c)))
    ensures Apply(s, LockStep(L.Unlock(c))) == s.(lock := L.Apply(s.lock, L.Unlock(c)))
  {
    hide L.Enabled, L.Apply;
  }

  lemma ThreeSteps(s: State, a: Step, b: Step, d: Step)
    requires Enabled(s, a) && Enabled(Apply(s, a), b) && Enabled(Apply(Apply(s, a), b), d)
    ensures IsRun(s, [a, b, d]) && RunFrom(s, [a, b, d]) == Apply(Apply(Apply(s, a), b), d)
  {
    hide Apply, Enabled;
    var s1, s2 := Apply(s, a), Apply(Apply(s, a), b);
    assert [a, b, d][1..] == [b, d] && [b, d][1..] == [d] && [d][1..] == [];
    assert IsRun(Apply(s2, d), []) && RunFrom(Apply(s2, d), []) == Apply(s2, d);
    assert IsRun(s2, [d]) && RunFrom(s2, [d]) == Apply(s2, d);
    assert IsRun(s1, [b, d]);
  }

  /** A request may enter any session with a name, and a waiting one may take the lock or give up,
      whenever the lock itself lets it. */
  lemma LockIsOpen(s: State, l: L.Step)
    requires Reachable(s) && L.Enabled(s.lock, l) && !l.Unlock? && (l.Enter? ==> l.session != "")
    ensures Enabled(s, LockStep(l))
    ensures Apply(s, LockStep(l)) == s.(lock := L.Apply(s.lock, l))
  {
    hide L.Enabled, L.Apply;
  }

  function SavedBy(s: State, step: Step, session: SessionId): seq<H.Append>
    requires Enabled(s, step)
  {
    if step.Save? && s.lock.calls[step.c].session == session then [step.append] else []
  }

  /** The log is exactly the saves of the run: the appends each session received, in the order in
      which they were saved. */
  function Saves(s: State, steps: seq<Step>, session: SessionId): seq<H.Append>
    requires IsRun(s, steps)
    decreases |steps|
  {
    if steps == [] then [] else SavedBy(s, steps[0], session) + Saves(Apply(s, steps[0]), steps[1..], session)
  }

  lemma {:induction false} LogIsSaves(s: State, steps: seq<Step>, session: SessionId)
    requires IsRun(s, steps)
    ensures Appends(LogOf(RunFrom(s, steps), session)) == Appends(LogOf(s, session)) + Saves(s, steps, session)
    decreases |steps|
  {
    if steps != [] {
      LogIsSaves(Apply(s, steps[0]), steps[1..], session);
      LogGrowsBySave(s, steps[0], session);
      T.Assoc(Appends(LogOf(s, session)), SavedBy(s, steps[0], session),
          Saves(Apply(s, steps[0]), steps[1..], session));
      hide Appends, LogOf, Apply, Enabled, SavedBy;
    }
  }

  lemma LogGrowsBySave(s: State, step: Step, session: SessionId)
    requires Enabled(s, step)
    ensures Appends(LogOf(Apply(s, step), session)) == Appends(LogOf(s, session)) + SavedBy(s, step, session)
  {
    if step.Save? {
      SaveEffect(s, step.c, step.append, session);
      AppendsSnoc(LogOf(s, session), Entry(step.c, step.append));
    }
  }
}

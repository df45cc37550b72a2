/** The lifecycle of tool runtimes (internal/bionic/tool/tools.go): lazy loading outside the mutex,
    in-flight counts, unloading on demand and when idle. Each step is one critical section under
    the manager's mutex. Loaders, runtimes and the clock are arbitrary inputs. */
module ToolManager {
  import opened Wrappers
  import G = GoStrings
  import T = Texts

  type Name = string
  type Caller = nat
  type RuntimeId = nat

  /** A toolState; the times are in nanoseconds, ZERO_TIME is Go's zero time. */
  datatype Tool = Tool(ttl: int, runtime: Option<RuntimeId>, lastUsed: int, inFlight: int, loading: bool)

  const ZERO_TIME := 0
  const DEFAULT_IDLE_TTL := 300_000_000_000

  function NewTool(idleTTL: int): Tool {
    Tool(if idleTTL <= 0 then DEFAULT_IDLE_TTL else idleTTL, None, ZERO_TIME, 0, false)
  }

  // ---- The critical sections, on the fields of one tool ----

  function Looked(t: Tool, now: int): Tool {
    if t.loading then t
    else if t.runtime.Some? then t.(inFlight := t.inFlight + 1, lastUsed := now)
    else t.(loading := true)
  }

  function LoadFinished(t: Tool, now: int, result: Option<RuntimeId>): Tool {
    if result.None? then t.(loading := false)
    else t.(loading := false, runtime := result, inFlight := t.inFlight + 1, lastUsed := now)
  }

  function Released(t: Tool, now: int): Tool {
    t.(inFlight := if t.inFlight > 0 then t.inFlight - 1 else t.inFlight, lastUsed := now)
  }

  /** Whether detachRuntime takes the runtime away. */
  predicate Detachable(t: Tool, force: bool) {
    t.runtime.Some? && (force || t.inFlight <= 0)
  }

  function Detached(t: Tool): Tool {
    t.(runtime := None, lastUsed := ZERO_TIME)
  }

  predicate Expired(t: Tool, now: int) {
    t.runtime.Some? && t.inFlight <= 0 && now - t.lastUsed >= t.ttl
  }

  // ---- Calls of Execute ----

  /** Where a call stands: about to take the mutex (Awake), in cond.Wait (Asleep), in its loader,
      invoking a runtime, or over. A Finished call keeps what it used and when it released it. */
  datatype Phase =
    | Awake
    | Asleep
    | Loading
    | Using(runtime: RuntimeId)
    | Finished(runtime: RuntimeId, at: int)
    | Failed

  /** A tool, the calls on it, and the runtimes its loader has returned so far and those that were
      handed out for closing. */
  datatype Slot = Slot(tool: Tool, calls: map<Caller, Phase>, loaded: set<RuntimeId>, closing: multiset<RuntimeId>)

  datatype SlotStep =
    | Arrive(c: Caller)
    | Look(c: Caller)
    | FinishLoad(c: Caller, result: Option<RuntimeId>)
    | Release(c: Caller)
    | Unload

  predicate SlotEnabled(s: Slot, step: SlotStep) {
    match step
    case Arrive(c) => c !in s.calls
    case Look(c) => c in s.calls && s.calls[c] == Awake
    case FinishLoad(c, result) => c in s.calls && s.calls[c] == Loading && (result.Some? ==> result.value !in s.loaded)
    case Release(c) => c in s.calls && s.calls[c].Using?
    case Unload => true
  }

  /** Broadcast: every sleeping call runs again. */
  function Wake(calls: map<Caller, Phase>): map<Caller, Phase> {
    map c | c in calls :: if calls[c] == Asleep then Awake else calls[c]
  }

  function PhaseAfterLook(t: Tool): Phase {
    if t.loading then Asleep else if t.runtime.Some? then Using(t.runtime.value) else Loading
  }

  function Detach(s: Slot): Slot
    requires s.tool.runtime.Some?
  {
    s.(tool := Detached(s.tool), closing := s.closing + multiset{s.tool.runtime.value})
  }

  function SlotApply(s: Slot, now: int, step: SlotStep): Slot
    requires SlotEnabled(s, step)
  {
    match step
    case Arrive(c) => s.(calls := s.calls[c := Awake])
    case Look(c) => s.(tool := Looked(s.tool, now), calls := s.calls[c := PhaseAfterLook(s.tool)])
    case FinishLoad(c, result) =>
      s.(tool := LoadFinished(s.tool, now, result),
         calls := Wake(s.calls)[c := if result.Some? then Using(result.value) else Failed],
         loaded := if result.Some? then s.loaded + {result.value} else s.loaded)
    case Release(c) =>
      s.(tool := Released(s.tool, now), calls := s.calls[c := Finished(s.calls[c].runtime, now)])
    case Unload => if Detachable(s.tool, false) then Detach(s) else s
  }

  // ---- The whole manager ----

  datatype State = State(slots: map<Name, Slot>, clock: int)

  /** A step at time `now`. Names are registered without white space around them. Collect visits the
      tools in some order of the map's keys. */
  datatype Step =
    | Register(name: Name, ttl: int)
    | On(name: Name, now: int, step: SlotStep)
    | Collect(now: int, order: seq<Name>)

  const INITIAL := State(map[], ZERO_TIME)

  predicate IsOrder(names: set<Name>, order: seq<Name>) {
    && (forall i :: 0 <= i < |order| ==> order[i] in names)
    && (forall n :: n in names ==> n in order)
    && T.Distinct(order)
  }

  predicate Enabled(s: State, step: Step) {
    match step
    case Register(name, _) => name != "" && G.TrimSpace(name) == name && name !in s.slots
    case On(name, now, st) => now >= s.clock && name in s.slots && SlotEnabled(s.slots[name], st)
    case Collect(now, order) => now >= s.clock && IsOrder(s.slots.Keys, order)
  }

  function CollectOne(s: Slot, now: int): Slot {
    if Expired(s.tool, now) then Detach(s) else s
  }

  function CollectAll(slots: map<Name, Slot>, now: int, order: seq<Name>): map<Name, Slot>
    requires forall i :: 0 <= i < |order| ==> order[i] in slots
  {
    if order == [] then slots
    else CollectAll(slots[order[0] := CollectOne(slots[order[0]], now)], now, order[1..])
  }

  function Apply(s: State, step: Step): State
    requires Enabled(s, step)
  {
    match step
    case Register(name, ttl) => s.(slots := s.slots[name := Slot(NewTool(ttl), map[], {}, multiset{})])
    case On(name, now, st) => State(s.slots[name := SlotApply(s.slots[name], now, st)], now)
    case Collect(now, order) => State(CollectAll(s.slots, now, order), now)
  }

  predicate IsRun(s: State, steps: seq<Step>)
    decreases |steps|
  {
    steps == [] || (Enabled(s, steps[0]) && IsRun(Apply(s, steps[0]), steps[1..]))
  }

  function Run(s: State, steps: seq<Step>): State
    requires IsRun(s, steps)
    decreases |steps|
  {
    if steps == [] then s else Run(Apply(s, steps[0]), steps[1..])
  }

  ghost predicate Reachable(s: State) {
    exists steps :: IsRun(INITIAL, steps) && Run(INITIAL, steps) == s
  }

  // ---- The invariant of one tool ----

  function Users(calls: map<Caller, Phase>): set<Caller> {
    set c | c in calls && calls[c].Using?
  }

  function Loaders(calls: map<Caller, Phase>): set<Caller> {
    set c | c in calls && calls[c].Loading?
  }

  ghost predicate ToolOk(s: Slot, clock: int) {
    && s.tool.inFlight == |Users(s.calls)|
    && |Loaders(s.calls)| == (if s.tool.loading then 1 else 0)
    && (s.tool.loading ==> s.tool.runtime.None?)
    && (s.tool.runtime.None? ==> s.tool.inFlight == 0)
    && s.tool.lastUsed <= clock
  }

  ghost predicate CallOk(s: Slot, c: Caller) {
    c in s.calls ==>
      match s.calls[c]
      case Awake => true
      case Asleep => s.tool.loading
      case Loading => s.tool.loading
      case Using(r) => s.tool.runtime == Some(r)
      case Finished(r, at) => r in s.loaded && (s.tool.runtime == Some(r) ==> at <= s.tool.lastUsed)
      case Failed => true
  }

  function Current(t: Tool): set<RuntimeId> {
    if t.runtime.Some? then {t.runtime.value} else {}
  }

  /** Every loaded runtime is current or was handed out for closing exactly once. */
  ghost predicate RuntimesOk(s: Slot) {
    s.closing + multiset(Current(s.tool)) == multiset(s.loaded)
  }

  ghost predicate SlotInv(s: Slot, clock: int) {
    && ToolOk(s, clock)
    && (forall c :: c in s.calls ==> CallOk(s, c))
    && RuntimesOk(s)
  }

  ghost predicate Inv(s: State) {
    s.clock >= ZERO_TIME && forall n :: n in s.slots ==> SlotInv(s.slots[n], s.clock)
  }

  lemma OneCallChanges(calls: map<Caller, Phase>, c: Caller, p: Phase)
    ensures Users(calls[c := p]) == if p.Using? then Users(calls) + {c} else Users(calls) - {c}
    ensures Loaders(calls[c := p]) == if p.Loading? then Loaders(calls) + {c} else Loaders(calls) - {c}
  {
  }

  lemma WakeKeeps(calls: map<Caller, Phase>)
    ensures Users(Wake(calls)) == Users(calls) && Loaders(Wake(calls)) == Loaders(calls)
  {
  }

  lemma InUsers(calls: map<Caller, Phase>, c: Caller)
    requires c in calls
    ensures c in Users(calls) <==> calls[c].Using?
    ensures c in Loaders(calls) <==> calls[c].Loading?
  {
  }

  lemma LookInv(s: Slot, clock: int, now: int, c: Caller)
    requires SlotInv(s, clock) && clock <= now && SlotEnabled(s, Look(c))
    ensures SlotInv(SlotApply(s, now, Look(c)), now)
  {
    var s' := SlotApply(s, now, Look(c));
    assert s' == s.(tool := Looked(s.tool, now), calls := s.calls[c := PhaseAfterLook(s.tool)]);
    LookKeepsTool(s, clock, now, c);
    forall d | d in s'.calls ensures CallOk(s', d) {
      LookKeepsCall(s, clock, now, c, d);
    }
    assert RuntimesOk(s');
  }

  lemma LookKeepsTool(s: Slot, clock: int, now: int, c: Caller)
    requires ToolOk(s, clock) && clock <= now && c in s.calls && s.calls[c] == Awake
    ensures ToolOk(s.(tool := Looked(s.tool, now), calls := s.calls[c := PhaseAfterLook(s.tool)]), now)
  {
    OneCallChanges(s.calls, c, PhaseAfterLook(s.tool));
    InUsers(s.calls, c);
    hide Users, Loaders;
  }

  lemma LookKeepsCall(s: Slot, clock: int, now: int, c: Caller, d: Caller)
    requires SlotInv(s, clock) && clock <= now && c in s.calls && d in s.calls
    ensures CallOk(s.(tool := Looked(s.tool, now), calls := s.calls[c := PhaseAfterLook(s.tool)]), d)
  {
    assert CallOk(s, d);
  }

  lemma NoOtherLoader(s: Slot, clock: int, c: Caller)
    requires SlotInv(s, clock) && c in s.calls && s.calls[c] == Loading
    ensures Loaders(s.calls) == {c} && s.tool.loading && s.tool.runtime.None? && Users(s.calls) == {}
  {
    InUsers(s.calls, c);
    hide Users, Loaders;
    assert CallOk(s, c);
    assert |Loaders(s.calls) - {c}| == 0;
  }

  lemma FinishLoadInv(s: Slot, clock: int, now: int, c: Caller, result: Option<RuntimeId>)
    requires SlotInv(s, clock) && clock <= now && SlotEnabled(s, FinishLoad(c, result))
    ensures SlotInv(SlotApply(s, now, FinishLoad(c, result)), now)
  {
    var s' := SlotApply(s, now, FinishLoad(c, result));
    OneCallChanges(Wake(s.calls), c, if result.Some? then Using(result.value) else Failed);
    WakeKeeps(s.calls);
    NoOtherLoader(s, clock, c);
    hide Users, Loaders;
    forall d | d in s'.calls ensures CallOk(s', d) {
      assert d in s.calls && CallOk(s, d);
      if d != c {
        OthersAtLoad(s, clock, c, d);
      }
    }
    if result.Some? {
      assert multiset(s.loaded + {result.value}) == multiset(s.loaded) + multiset{result.value};
    }
  }

  lemma OthersAtLoad(s: Slot, clock: int, c: Caller, d: Caller)
    requires SlotInv(s, clock) && c in s.calls && s.calls[c] == Loading && d in s.calls && d != c
    ensures !s.calls[d].Using? && !s.calls[d].Loading?
  {
    NoOtherLoader(s, clock, c);
    InUsers(s.calls, d);
    hide Users, Loaders;
  }

  lemma ReleaseInv(s: Slot, clock: int, now: int, c: Caller)
    requires SlotInv(s, clock) && clock <= now && SlotEnabled(s, Release(c))
    ensures SlotInv(SlotApply(s, now, Release(c)), now)
  {
    var s' := SlotApply(s, now, Release(c));
    var r := s.calls[c].runtime;
    assert CallOk(s, c);
    assert r in s.loaded by {
      assert r in multiset(s.loaded);
    }
    OneCallChanges(s.calls, c, Finished(r, now));
    InUsers(s.calls, c);
    hide Users, Loaders;
    assert s.tool.inFlight > 0;
    forall d | d in s'.calls ensures CallOk(s', d) {
      assert d in s.calls && CallOk(s, d);
    }
  }

  /** Both ways to detach: nobody uses the runtime, and it moves from current to closing. */
  lemma DetachInv(s: Slot, clock: int, now: int)
    requires SlotInv(s, clock) && clock <= now && ZERO_TIME <= now && s.tool.runtime.Some? && s.tool.inFlight <= 0
    ensures SlotInv(Detach(s), now)
    ensures forall c :: c in s.calls ==> s.calls[c] != Using(s.tool.runtime.value)
  {
    var s' := Detach(s);
    assert Users(s.calls) == {};
    forall c | c in s.calls ensures !s.calls[c].Using? {
      InUsers(s.calls, c);
    }
    hide Users, Loaders;
    forall d | d in s'.calls ensures CallOk(s', d) {
      assert d in s.calls && CallOk(s, d);
    }
    assert Current(s'.tool) == {};
  }

  lemma ArriveInv(s: Slot, clock: int, now: int, c: Caller)
    requires SlotInv(s, clock) && clock <= now && SlotEnabled(s, Arrive(c))
    ensures SlotInv(SlotApply(s, now, Arrive(c)), now)
  {
    var s' := SlotApply(s, now, Arrive(c));
    OneCallChanges(s.calls, c, Awake);
    assert c !in Users(s.calls) && c !in Loaders(s.calls);
    hide Users, Loaders;
    forall d | d in s'.calls ensures CallOk(s', d) {
      assert d in s.calls ==> CallOk(s, d);
    }
  }

  lemma SlotStepInv(s: Slot, clock: int, now: int, step: SlotStep)
    requires SlotInv(s, clock) && clock <= now && ZERO_TIME <= now && SlotEnabled(s, step)
    ensures SlotInv(SlotApply(s, now, step), now)
  {
    match step
    case Arrive(c) => ArriveInv(s, clock, now, c);
    case Look(c) => LookInv(s, clock, now, c);
    case FinishLoad(c, result) => FinishLoadInv(s, clock, now, c, result);
    case Release(c) => ReleaseInv(s, clock, now, c);
    case Unload =>
      if Detachable(s.tool, false) {
        DetachInv(s, clock, now);
      } else {
        ClockInv(s, clock, now);
      }
  }

  lemma ClockInv(s: Slot, clock: int, now: int)
    requires SlotInv(s, clock) && clock <= now
    ensures SlotInv(s, now)
  {
    forall c | c in s.calls ensures CallOk(s, c) {
    }
  }

  // ---- Collecting ----

  /** Whatever the order of the map, each tool is treated once and on its own. */
  lemma {:induction false} CollectEach(slots: map<Name, Slot>, now: int, order: seq<Name>)
    requires forall i :: 0 <= i < |order| ==> order[i] in slots
    requires T.Distinct(order)
    ensures CollectAll(slots, now, order)
            == map n | n in slots :: if n in order then CollectOne(slots[n], now) else slots[n]
  {
    if order != [] {
      var first, rest := order[0], order[1..];
      var slots1 := slots[first := CollectOne(slots[first], now)];
      CollectEach(slots1, now, rest);
      assert forall n :: n in order <==> n == first || n in rest;
      assert first !in rest;
    }
  }

  /** Collecting does not depend on the order in which the map is visited, and takes away exactly
      the runtimes of expired tools. */
  lemma CollectIsPointwise(slots: map<Name, Slot>, now: int, order: seq<Name>)
    requires IsOrder(slots.Keys, order)
    ensures CollectAll(slots, now, order) == map n | n in slots :: CollectOne(slots[n], now)
  {
    CollectEach(slots, now, order);
  }

  lemma CollectOneInv(s: Slot, clock: int, now: int)
    requires SlotInv(s, clock) && clock <= now && ZERO_TIME <= now
    ensures SlotInv(CollectOne(s, now), now)
  {
    if Expired(s.tool, now) {
      DetachInv(s, clock, now);
    } else {
      ClockInv(s, clock, now);
    }
  }

  lemma StepInv(s: State, step: Step)
    requires Inv(s) && Enabled(s, step)
    ensures Inv(Apply(s, step))
  {
    var s' := Apply(s, step);
    match step
    case Register(name, ttl) => NewSlotInv(ttl, s.clock);
    case On(name, now, st) =>
      SlotStepInv(s.slots[name], s.clock, now, st);
      hide SlotInv, SlotApply, SlotEnabled;
      forall n | n in s'.slots ensures SlotInv(s'.slots[n], now) {
        if n != name {
          ClockInv(s.slots[n], s.clock, now);
        }
      }
    case Collect(now, order) =>
      CollectIsPointwise(s.slots, now, order);
      hide SlotInv, CollectOne, CollectAll;
      forall n | n in s'.slots ensures SlotInv(s'.slots[n], now) {
        CollectOneInv(s.slots[n], s.clock, now);
      }
  }

  lemma NewSlotInv(ttl: int, clock: int)
    requires clock >= ZERO_TIME
    ensures SlotInv(Slot(NewTool(ttl), map[], {}, multiset{}), clock)
  {
    assert Users(map[]) == {} && Loaders(map[]) == {};
  }

  lemma {:induction false} RunInv(s: State, steps: seq<Step>)
    requires Inv(s) && IsRun(s, steps)
    ensures Inv(Run(s, steps))
    decreases |steps|
  {
    if steps != [] {
      StepInv(s, steps[0]);
      RunInv(Apply(s, steps[0]), steps[1..]);
    }
  }

  lemma ReachableInv(s: State)
    requires Reachable(s)
    ensures Inv(s)
  {
    var steps :| IsRun(INITIAL, steps) && Run(INITIAL, steps) == s;
    RunInv(INITIAL, steps);
  }

  // ---- Main results ----

  /** At most one load of a tool is in progress, and never while it has a runtime. */
  lemma OneLoader(s: State, n: Name, c: Caller, d: Caller)
    requires Reachable(s) && n in s.slots && c in s.slots[n].calls && d in s.slots[n].calls
    requires s.slots[n].calls[c] == Loading && s.slots[n].calls[d] == Loading
    ensures c == d && s.slots[n].tool.runtime == None && s.slots[n].tool.loading
  {
    ReachableInv(s);
    NoOtherLoader(s.slots[n], s.clock, c);
    InUsers(s.slots[n].calls, d);
  }

  /** The counter is the number of calls between acquire and release; each of them uses the current
      runtime, which was never handed out for closing. */
  lemma InFlightIsUse(s: State, n: Name)
    requires Reachable(s) && n in s.slots
    ensures s.slots[n].tool.inFlight == |Users(s.slots[n].calls)|
    ensures forall c :: c in Users(s.slots[n].calls) ==>
              var r := s.slots[n].calls[c].runtime;
              s.slots[n].tool.runtime == Some(r) && r in s.slots[n].loaded && s.slots[n].closing[r] == 0
  {
    ReachableInv(s);
    var slot := s.slots[n];
    forall c | c in Users(slot.calls)
      ensures slot.tool.runtime == Some(slot.calls[c].runtime)
              && slot.calls[c].runtime in slot.loaded && slot.closing[slot.calls[c].runtime] == 0
    {
      assert CallOk(slot, c);
      RuntimeOnce(slot, slot.calls[c].runtime);
    }
  }

  lemma RuntimeOnce(s: Slot, r: RuntimeId)
    requires RuntimesOk(s)
    ensures s.closing[r] + (if s.tool.runtime == Some(r) then 1 else 0) == (if r in s.loaded then 1 else 0)
  {
    assert (s.closing + multiset(Current(s.tool)))[r] == multiset(s.loaded)[r];
  }

  /** Conservation: a runtime that a loader returned is current or was handed out for closing, once
      and not both; nothing else is ever closed. */
  lemma LoadedOnce(s: State, n: Name, r: RuntimeId)
    requires Reachable(s) && n in s.slots
    ensures var slot := s.slots[n];
            slot.closing[r] + (if slot.tool.runtime == Some(r) then 1 else 0) == (if r in slot.loaded then 1 else 0)
  {
    ReachableInv(s);
    RuntimeOnce(s.slots[n], r);
  }

  /** No lost wake-up: a sleeping call has exactly one loader to wait for, and when that load ends,
      well or badly, the call is awake. */
  lemma SleeperIsWoken(s: State, n: Name, c: Caller, now: int, result: Option<RuntimeId>)
    requires Reachable(s) && n in s.slots && c in s.slots[n].calls && s.slots[n].calls[c] == Asleep
    requires now >= s.clock && (result.Some? ==> result.value !in s.slots[n].loaded)
    ensures exists d :: d in s.slots[n].calls && s.slots[n].calls[d] == Loading
    ensures forall d :: d in s.slots[n].calls && s.slots[n].calls[d] == Loading ==>
              var step := On(n, now, FinishLoad(d, result));
              Enabled(s, step) && c in Apply(s, step).slots[n].calls && Apply(s, step).slots[n].calls[c] == Awake
  {
    ReachableInv(s);
    var slot := s.slots[n];
    assert CallOk(slot, c);
    assert |Loaders(slot.calls)| == 1;
    var d :| d in Loaders(slot.calls);
    assert slot.calls[d] == Loading;
  }

  /** Idle collection is safe in time too: every call that ever used a collected runtime released
      it at least the tool's idle time ago. */
  lemma CollectedIsIdle(s: State, n: Name, now: int, c: Caller)
    requires Reachable(s) && now >= s.clock && n in s.slots && Expired(s.slots[n].tool, now)
    requires c in s.slots[n].calls
    ensures var r, p := s.slots[n].tool.runtime.value, s.slots[n].calls[c];
            p != Using(r) && (p.Finished? && p.runtime == r ==> now - p.at >= s.slots[n].tool.ttl)
  {
    ReachableInv(s);
    assert CallOk(s.slots[n], c);
    DetachInv(s.slots[n], s.clock, now);
  }

  /** An idle runtime was used last by a call that released it when the tool was last used. */
  ghost predicate LastUseKept(s: Slot) {
    s.tool.runtime.Some? && s.tool.inFlight <= 0 ==>
      exists c :: c in s.calls && s.calls[c] == Finished(s.tool.runtime.value, s.tool.lastUsed)
  }

  lemma LastUseStep(s: Slot, clock: int, now: int, step: SlotStep)
    requires SlotInv(s, clock) && LastUseKept(s) && SlotEnabled(s, step)
    ensures LastUseKept(SlotApply(s, now, step))
  {
    hide Users, Loaders;
    var s' := SlotApply(s, now, step);
    match step
    case Arrive(c) =>
      SameLastUse(s, s', c);
    case Look(c) =>
      if s.tool.loading {
        SameLastUse(s, s', c);
      }
    case FinishLoad(c, result) =>
      NoOtherLoader(s, clock, c);
    case Release(c) =>
      assert CallOk(s, c);
      assert s'.calls[c] == Finished(s.calls[c].runtime, now);
    case Unload =>
  }

  lemma SameLastUse(s: Slot, s': Slot, c: Caller)
    requires LastUseKept(s) && s'.tool == s.tool && (c in s.calls ==> s.calls[c] == Awake)
    requires forall d :: d in s.calls && d != c ==> d in s'.calls && s'.calls[d] == s.calls[d]
    ensures LastUseKept(s')
  {
  }

  ghost predicate LastUses(s: State) {
    forall n :: n in s.slots ==> LastUseKept(s.slots[n])
  }

  lemma StepLastUses(s: State, step: Step)
    requires Inv(s) && LastUses(s) && Enabled(s, step)
    ensures LastUses(Apply(s, step))
  {
    hide LastUseKept, SlotInv, SlotApply, SlotEnabled;
    match step
    case Register(name, ttl) =>
      FreshLastUse(ttl);
    case On(name, now, st) =>
      LastUseStep(s.slots[name], s.clock, now, st);
    case Collect(now, order) =>
      CollectIsPointwise(s.slots, now, order);
      hide CollectAll;
      forall n | n in s.slots ensures LastUseKept(CollectOne(s.slots[n], now)) {
        CollectedLastUse(s.slots[n], now);
      }
  }

  lemma FreshLastUse(ttl: int)
    ensures LastUseKept(Slot(NewTool(ttl), map[], {}, multiset{}))
  {
  }

  lemma CollectedLastUse(s: Slot, now: int)
    requires LastUseKept(s)
    ensures LastUseKept(CollectOne(s, now))
  {
  }

  lemma {:induction false} RunLastUses(s: State, steps: seq<Step>)
    requires Inv(s) && LastUses(s) && IsRun(s, steps)
    ensures LastUses(Run(s, steps))
    decreases |steps|
  {
    hide Inv, LastUses, Enabled, Apply;
    if steps != [] {
      StepInv(s, steps[0]);
      StepLastUses(s, steps[0]);
      RunLastUses(Apply(s, steps[0]), steps[1..]);
    }
  }

  /** Main result on idle collection: a sweep takes a runtime away exactly when no call uses it and every
      call that did has released it at least the idle time ago. */
  lemma CollectedIff(s: State, n: Name, now: int, order: seq<Name>)
    requires Reachable(s) && Enabled(s, Collect(now, order)) && n in s.slots && s.slots[n].tool.runtime.Some?
    ensures n in Apply(s, Collect(now, order)).slots
    ensures var slot := s.slots[n];
            Apply(s, Collect(now, order)).slots[n].tool.runtime.None?
            <==> forall c :: c in slot.calls ==>
                   && slot.calls[c] != Using(slot.tool.runtime.value)
                   && (slot.calls[c].Finished? && slot.calls[c].runtime == slot.tool.runtime.value ==>
                         now - slot.calls[c].at >= slot.tool.ttl)
  {
    ReachableInv(s);
    var steps :| IsRun(INITIAL, steps) && Run(INITIAL, steps) == s;
    RunLastUses(INITIAL, steps);
    CollectIsPointwise(s.slots, now, order);
    var slot := s.slots[n];
    hide *;
    IdleInv(s, n, now);
    CollectedMeans(s, n, now, order);
  }

  lemma CollectedMeans(s: State, n: Name, now: int, order: seq<Name>)
    requires Enabled(s, Collect(now, order)) && n in s.slots && s.slots[n].tool.runtime.Some?
    ensures n in Apply(s, Collect(now, order)).slots
    ensures Apply(s, Collect(now, order)).slots[n].tool.runtime.None? <==> Expired(s.slots[n].tool, now)
  {
    CollectIsPointwise(s.slots, now, order);
    hide CollectAll;
  }

  lemma IdleInv(s: State, n: Name, now: int)
    requires Inv(s) && LastUses(s) && n in s.slots && s.slots[n].tool.runtime.Some?
    ensures var slot := s.slots[n];
            Expired(slot.tool, now)
            <==> forall c :: c in slot.calls ==>
                   && slot.calls[c] != Using(slot.tool.runtime.value)
                   && (slot.calls[c].Finished? && slot.calls[c].runtime == slot.tool.runtime.value ==>
                         now - slot.calls[c].at >= slot.tool.ttl)
  {
    var slot := s.slots[n];
    forall c | c in slot.calls ensures CallOk(slot, c) && (c in Users(slot.calls) <==> slot.calls[c].Using?) {
      InUsers(slot.calls, c);
    }
    if slot.tool.inFlight > 0 {
      var c :| c in Users(slot.calls);
      assert c in slot.calls && slot.calls[c] == Using(slot.tool.runtime.value);
    } else {
      assert Users(slot.calls) == {};
      assert LastUseKept(slot);
    }
  }

  // ---- Calls are served ----

  /** A call uses the current runtime at once, whoever else does. */
  lemma CallUsesRuntime(s: State, n: Name, c: Caller, now: int)
    requires Reachable(s) && n in s.slots && c in s.slots[n].calls && s.slots[n].calls[c] == Awake && now >= s.clock
    requires s.slots[n].tool.runtime.Some?
    ensures var slot := s.slots[n];
            && Enabled(s, On(n, now, Look(c)))
            && Apply(s, On(n, now, Look(c)))
               == State(s.slots[n := slot.(tool := slot.tool.(inFlight := |Users(slot.calls)| + 1, lastUsed := now),
                                           calls := slot.calls[c := Using(slot.tool.runtime.value)])], now)
  {
    ReachableInv(s);
    hide Users;
  }

  /** Without a runtime and a load in progress it loads one; if the load succeeds it uses what was
      loaded and so does the next call, if it fails the call fails and the next one may load. */
  lemma CallLoadsRuntime(s: State, n: Name, c: Caller, now: int, later: int, result: Option<RuntimeId>)
    requires Reachable(s) && n in s.slots && c in s.slots[n].calls && s.slots[n].calls[c] == Awake
    requires s.clock <= now <= later
    requires s.slots[n].tool.runtime.None? && !s.slots[n].tool.loading
    requires result.Some? ==> result.value !in s.slots[n].loaded
    ensures var steps := [On(n, now, Look(c)), On(n, later, FinishLoad(c, result))];
            && IsRun(s, steps) && n in Run(s, steps).slots
            && var slot := Run(s, steps).slots[n];
               && slot.tool.runtime == result && !slot.tool.loading
               && slot.tool.inFlight == (if result.Some? then 1 else 0)
               && slot.calls == s.slots[n].calls[c := if result.Some? then Using(result.value) else Failed]
  {
    ReachableInv(s);
    var slot := s.slots[n];
    forall d | d in slot.calls ensures slot.calls[d] != Asleep {
      assert CallOk(slot, d);
    }
    hide SlotInv, Users, Loaders;
    var s1 := Apply(s, On(n, now, Look(c)));
    var last := On(n, later, FinishLoad(c, result));
    assert s1.slots[n] == slot.(tool := slot.tool.(loading := true), calls := slot.calls[c := Loading]);
    assert Enabled(s1, last);
    TwoSteps(s, On(n, now, Look(c)), last);
    assert Wake(slot.calls[c := Loading]) == slot.calls[c := Loading];
  }

  lemma TwoSteps(s: State, a: Step, b: Step)
    requires Enabled(s, a) && Enabled(Apply(s, a), b)
    ensures IsRun(s, [a, b]) && Run(s, [a, b]) == Apply(Apply(s, a), b)
  {
    hide Apply, Enabled;
    assert [a, b][1..] == [b] && [b][1..] == [];
    assert IsRun(Apply(Apply(s, a), b), []) && Run(Apply(Apply(s, a), b), []) == Apply(Apply(s, a), b);
    assert IsRun(Apply(s, a), [b]);
  }

  /** A call that uses a runtime can always give it back. */
  lemma CallReleases(s: State, n: Name, c: Caller, now: int)
    requires Reachable(s) && n in s.slots && c in s.slots[n].calls && s.slots[n].calls[c].Using? && now >= s.clock
    ensures var step, r := On(n, now, Release(c)), s.slots[n].calls[c].runtime;
            && Enabled(s, step)
            && Apply(s, step).slots[n].calls == s.slots[n].calls[c := Finished(r, now)]
            && Apply(s, step).slots[n].tool.runtime == Some(r)
            && Apply(s, step).slots[n].tool.inFlight == |Users(s.slots[n].calls)| - 1
  {
    ReachableInv(s);
    InUsers(s.slots[n].calls, c);
    assert CallOk(s.slots[n], c);
    hide Users;
  }

  /** Unloading takes the runtime away exactly when no call uses it, and then hands it out. */
  lemma UnloadTakesIff(s: State, n: Name, now: int)
    requires Reachable(s) && n in s.slots && now >= s.clock && s.slots[n].tool.runtime.Some?
    ensures Enabled(s, On(n, now, Unload))
    ensures var slot, after := s.slots[n], Apply(s, On(n, now, Unload)).slots[n];
            if forall c :: c in slot.calls ==> !slot.calls[c].Using? then
              after.tool.runtime.None? && after.closing == slot.closing + multiset{slot.tool.runtime.value}
            else after == slot
  {
    ReachableInv(s);
    var slot := s.slots[n];
    forall c | c in slot.calls ensures c in Users(slot.calls) <==> slot.calls[c].Using? {
      InUsers(slot.calls, c);
    }
    if slot.tool.inFlight > 0 {
      var c :| c in Users(slot.calls);
      assert c in slot.calls && slot.calls[c].Using?;
    } else {
      assert Users(slot.calls) == {};
    }
  }

  // ---- Closing the manager ----

  /** Manager.Close hands out every runtime without looking at the counters. */
  function ClosedSlot(s: Slot): Slot {
    if s.tool.runtime.Some? then Detach(s) else s
  }

  function ClosedManager(s: State): State {
    s.(slots := map n | n in s.slots :: ClosedSlot(s.slots[n]))
  }

  /** Some call uses a runtime that was handed out for closing. */
  ghost predicate ClosedInUse(s: State) {
    exists n, c :: n in s.slots && c in s.slots[n].calls && InClosing(s.slots[n], c)
  }

  predicate InClosing(s: Slot, c: Caller)
    requires c in s.calls
  {
    s.calls[c].Using? && s.closing[s.calls[c].runtime] > 0
  }

  /** No other step ever leads there; closing the manager does exactly when a tool has calls in
      flight. */
  lemma CloseIsSafeIff(s: State)
    requires Reachable(s)
    ensures !ClosedInUse(s)
    ensures ClosedInUse(ClosedManager(s)) <==> exists n :: n in s.slots && s.slots[n].tool.inFlight > 0
  {
    ReachableInv(s);
    forall n | n in s.slots
      ensures forall c :: c in s.slots[n].calls ==> !InClosing(s.slots[n], c)
      ensures (exists c :: c in s.slots[n].calls && InClosing(ClosedSlot(s.slots[n]), c))
              <==> s.slots[n].tool.inFlight > 0
    {
      CloseSlotIff(s, n);
    }
    var s' := ClosedManager(s);
    hide SlotInv, ClosedSlot, InClosing;
    if n :| n in s.slots && s.slots[n].tool.inFlight > 0 {
      assert s'.slots[n] == ClosedSlot(s.slots[n]);
      var c :| c in s.slots[n].calls && InClosing(ClosedSlot(s.slots[n]), c);
      ClosedKeepsCalls(s.slots[n]);
    }
    if ClosedInUse(s') {
      var n, c :| n in s'.slots && c in s'.slots[n].calls && InClosing(s'.slots[n], c);
      assert s'.slots[n] == ClosedSlot(s.slots[n]);
      ClosedKeepsCalls(s.slots[n]);
    }
  }

  lemma ClosedKeepsCalls(s: Slot)
    ensures ClosedSlot(s).calls == s.calls
  {
  }

  lemma CloseSlotIff(s: State, n: Name)
    requires Reachable(s) && n in s.slots
    ensures forall c :: c in s.slots[n].calls ==> !InClosing(s.slots[n], c)
    ensures (exists c :: c in s.slots[n].calls && InClosing(ClosedSlot(s.slots[n]), c))
            <==> s.slots[n].tool.inFlight > 0
  {
    var slot := s.slots[n];
    ClosedKeepsCalls(slot);
    InFlightIsUse(s, n);
    forall c | c in slot.calls
      ensures !InClosing(slot, c) && (slot.calls[c].Using? <==> InClosing(ClosedSlot(slot), c))
      ensures slot.calls[c].Using? ==> c in Users(slot.calls)
    {
      InUsers(slot.calls, c);
    }
    hide ClosedSlot, InClosing, Reachable;
    if slot.tool.inFlight > 0 {
      var c :| c in Users(slot.calls);
      InUsers(slot.calls, c);
      assert c in slot.calls && InClosing(ClosedSlot(slot), c);
    }
  }

  /** Closing completes the account of a tool: everything it ever loaded has then been handed out,
      once. */
  lemma CloseHandsOutAll(s: State, n: Name, r: RuntimeId)
    requires Reachable(s) && n in s.slots
    ensures var slot := ClosedManager(s).slots[n];
            slot.tool.runtime == None && slot.closing[r] == (if r in slot.loaded then 1 else 0)
  {
    LoadedOnce(s, n, r);
  }

  /** But a load in progress outlives it: its runtime becomes current afterwards and is in use,
      handed out to nobody. */
  lemma LoadOutlivesClose(s: State, n: Name, c: Caller, now: int, r: RuntimeId)
    requires Reachable(s) && n in s.slots && c in s.slots[n].calls && s.slots[n].calls[c] == Loading
    requires now >= s.clock && r !in s.slots[n].loaded
    ensures var step := On(n, now, FinishLoad(c, Some(r)));
            && Enabled(ClosedManager(s), step)
            && var slot := Apply(ClosedManager(s), step).slots[n];
               slot.tool.runtime == Some(r) && slot.calls[c] == Using(r) && slot.closing[r] == 0
  {
    OneLoader(s, n, c, c);
    LoadedOnce(s, n, r);
  }

  // ---- Runtimes that share a client ----

  type ClientId = nat

  /** Closing a runtime closes its client. The tools of an MCP server share one. */
  ghost predicate ClientClosed(s: State, client: (Name, RuntimeId) -> ClientId, k: ClientId) {
    exists n, r :: n in s.slots && r in s.slots[n].closing && client(n, r) == k
  }

  /** Some call uses a runtime whose client was closed, with this runtime or another one. */
  ghost predicate ClientClosedInUse(s: State, client: (Name, RuntimeId) -> ClientId) {
    exists m, c :: m in s.slots && c in s.slots[m].calls && s.slots[m].calls[c].Using?
                   && ClientClosed(s, client, client(m, s.slots[m].calls[c].runtime))
  }

  /** No call is in flight on any tool whose current runtime has the client k. */
  ghost predicate ClientIdle(s: State, client: (Name, RuntimeId) -> ClientId, k: ClientId) {
    forall m :: m in s.slots && s.slots[m].tool.runtime.Some? && client(m, s.slots[m].tool.runtime.value) == k ==>
      s.slots[m].tool.inFlight == 0
  }

  /** The tools named in `which` lose their runtimes; a tool without one stays as it is. */
  ghost predicate Detaches(s: State, s': State, which: set<Name>) {
    && s'.slots.Keys == s.slots.Keys
    && (forall n :: n in which ==> n in s.slots && s.slots[n].tool.runtime.Some?)
    && forall n :: n in s.slots ==> s'.slots[n] == if n in which then Detach(s.slots[n]) else s.slots[n]
  }

  lemma ClosedByDetach(s: State, s': State, which: set<Name>, client: (Name, RuntimeId) -> ClientId, k: ClientId)
    requires Detaches(s, s', which)
    ensures ClientClosed(s', client, k)
            <==> ClientClosed(s, client, k) || exists n :: n in which && client(n, s.slots[n].tool.runtime.value) == k
  {
    if n, r :| n in s.slots && r in s.slots[n].closing && client(n, r) == k {
      assert r in s'.slots[n].closing;
    }
    if n :| n in which && client(n, s.slots[n].tool.runtime.value) == k {
      assert s.slots[n].tool.runtime.value in s'.slots[n].closing;
    }
  }

  /** The calls that use a client are those of tools with it in flight. */
  lemma ClientUsers(s: State, client: (Name, RuntimeId) -> ClientId, k: ClientId)
    requires Reachable(s)
    ensures ClientIdle(s, client, k)
            <==> forall m, c :: m in s.slots && c in s.slots[m].calls && s.slots[m].calls[c].Using? ==>
                   client(m, s.slots[m].calls[c].runtime) != k
  {
    forall m | m in s.slots
      ensures s.slots[m].tool.inFlight != 0 ==> exists c :: c in s.slots[m].calls && s.slots[m].calls[c].Using?
      ensures forall c :: c in s.slots[m].calls && s.slots[m].calls[c].Using? ==>
                s.slots[m].tool.inFlight != 0 && s.slots[m].tool.runtime == Some(s.slots[m].calls[c].runtime)
    {
      InFlightIsUse(s, m);
      var slot := s.slots[m];
      forall c | c in slot.calls && slot.calls[c].Using?
        ensures slot.tool.inFlight != 0 && slot.tool.runtime == Some(slot.calls[c].runtime)
      {
        InUsers(slot.calls, c);
      }
      if slot.tool.inFlight != 0 {
        var c :| c in Users(slot.calls);
        InUsers(slot.calls, c);
      }
    }
    hide Reachable;
  }

  /** Detaching some tools closes a client in use exactly when one of their clients is not idle. */
  lemma DetachIsClientSafeIff(s: State, s': State, which: set<Name>, client: (Name, RuntimeId) -> ClientId)
    requires Reachable(s) && !ClientClosedInUse(s, client) && Detaches(s, s', which)
    ensures !ClientClosedInUse(s', client)
            <==> forall n :: n in which ==> ClientIdle(s, client, client(n, s.slots[n].tool.runtime.value))
  {
    hide Reachable, ClientIdle, ClientClosed;
    forall m, c | m in s.slots && c in s.slots[m].calls && s.slots[m].calls[c].Using?
      ensures s'.slots[m].calls == s.slots[m].calls
      ensures var k := client(m, s.slots[m].calls[c].runtime);
              ClientClosed(s', client, k) <==> exists n :: n in which && client(n, s.slots[n].tool.runtime.value) == k
    {
      ClosedByDetach(s, s', which, client, client(m, s.slots[m].calls[c].runtime));
    }
    forall n | n in which
      ensures ClientIdle(s, client, client(n, s.slots[n].tool.runtime.value))
              <==> forall m, c :: m in s.slots && c in s.slots[m].calls && s.slots[m].calls[c].Using? ==>
                     client(m, s.slots[m].calls[c].runtime) != client(n, s.slots[n].tool.runtime.value)
    {
      ClientUsers(s, client, client(n, s.slots[n].tool.runtime.value));
    }
    forall m | m in s.slots ensures s'.slots[m].calls == s.slots[m].calls {
    }
  }

  /** Unload looks at the tool's own counter only: it leaves the clients of all calls open exactly when
      it takes nothing away, or every tool that shares the client is idle. */
  lemma UnloadIsClientSafeIff(s: State, n: Name, now: int, client: (Name, RuntimeId) -> ClientId)
    requires Reachable(s) && !ClientClosedInUse(s, client) && n in s.slots && now >= s.clock
    ensures !ClientClosedInUse(Apply(s, On(n, now, Unload)), client)
            <==> !Detachable(s.slots[n].tool, false) || ClientIdle(s, client, client(n, s.slots[n].tool.runtime.value))
  {
    var s' := Apply(s, On(n, now, Unload));
    var which := if Detachable(s.slots[n].tool, false) then {n} else {};
    assert Detaches(s, s', which);
    DetachIsClientSafeIff(s, s', which, client);
    hide Reachable, ClientClosedInUse, ClientIdle, Apply;
    assert Detachable(s.slots[n].tool, false) ==> n in which;
  }

  /** So does the idle sweep, over all tools that it takes. */
  lemma CollectIsClientSafeIff(s: State, now: int, order: seq<Name>, client: (Name, RuntimeId) -> ClientId)
    requires Reachable(s) && !ClientClosedInUse(s, client) && Enabled(s, Collect(now, order))
    ensures !ClientClosedInUse(Apply(s, Collect(now, order)), client)
            <==> forall n :: n in s.slots && Expired(s.slots[n].tool, now) ==>
                   ClientIdle(s, client, client(n, s.slots[n].tool.runtime.value))
  {
    var s' := Apply(s, Collect(now, order));
    CollectIsPointwise(s.slots, now, order);
    var which := set n | n in s.slots && Expired(s.slots[n].tool, now);
    hide CollectAll, Reachable, ClientClosedInUse, ClientIdle;
    assert Detaches(s, s', which);
    DetachIsClientSafeIff(s, s', which, client);
  }

  /** A tool whose client was closed stays without a usable one: a call that loads a runtime with that
      client again uses a closed client. */
  lemma ReloadUsesClosedClient(s: State, n: Name, c: Caller, now: int, r: RuntimeId,
      client: (Name, RuntimeId) -> ClientId)
    requires Enabled(s, On(n, now, FinishLoad(c, Some(r)))) && ClientClosed(s, client, client(n, r))
    ensures ClientClosedInUse(Apply(s, On(n, now, FinishLoad(c, Some(r)))), client)
  {
    var s' := Apply(s, On(n, now, FinishLoad(c, Some(r))));
    var q, x :| q in s.slots && x in s.slots[q].closing && client(q, x) == client(n, r);
    assert q in s'.slots && x in s'.slots[q].closing;
    assert s'.slots[n].calls[c] == Using(r);
  }

  // ---- States in which that happens ----

  lemma {:induction false} RunSnoc(s: State, steps: seq<Step>, step: Step)
    requires IsRun(s, steps) && Enabled(Run(s, steps), step)
    ensures IsRun(s, steps + [step]) && Run(s, steps + [step]) == Apply(Run(s, steps), step)
    decreases |steps|
  {
    if steps == [] {
      assert steps + [step] == [step] && [step][1..] == [];
      assert IsRun(Apply(s, step), []) && Run(Apply(s, step), []) == Apply(s, step);
    } else {
      RunSnoc(Apply(s, steps[0]), steps[1..], step);
      assert (steps + [step])[1..] == steps[1..] + [step];
      assert (steps + [step])[0] == steps[0];
    }
  }

  lemma ReachableStep(s: State, step: Step)
    requires Reachable(s) && Enabled(s, step)
    ensures Reachable(Apply(s, step))
  {
    var steps :| IsRun(INITIAL, steps) && Run(INITIAL, steps) == s;
    RunSnoc(INITIAL, steps, step);
  }

  lemma InitialReachable()
    ensures Reachable(INITIAL)
  {
    assert IsRun(INITIAL, []) && Run(INITIAL, []) == INITIAL;
  }

  /** A tool whose first call has loaded runtime 7 and uses it. */
  const USED := Slot(Tool(1, Some(7), ZERO_TIME, 1, false), map[0 := Using(7)], {7}, multiset{})

  /** Registering a tool and calling it. */
  lemma CallOne(s: State, name: Name)
    requires Reachable(s) && s.clock == ZERO_TIME && name !in s.slots && name != "" && G.TrimSpace(name) == name
    ensures Reachable(s.(slots := s.slots[name := USED]))
  {
    hide Reachable, G.TrimSpace;
    var t := NewTool(1);
    ReachableStep(s, Register(name, 1));
    var s1 := s.(slots := s.slots[name := Slot(t, map[], {}, multiset{})]);
    assert Apply(s, Register(name, 1)) == s1;
    OnOne(s1, s, name, Arrive(0), Slot(t, map[0 := Awake], {}, multiset{}));
    var s2 := s.(slots := s.slots[name := Slot(t, map[0 := Awake], {}, multiset{})]);
    OnOne(s2, s, name, Look(0), Slot(t.(loading := true), map[0 := Loading], {}, multiset{}));
    var s3 := s.(slots := s.slots[name := Slot(t.(loading := true), map[0 := Loading], {}, multiset{})]);
    OnOne(s3, s, name, FinishLoad(0, Some(7)), USED);
  }

  lemma OnOne(s1: State, s: State, name: Name, step: SlotStep, after: Slot)
    requires Reachable(s1) && s.clock == ZERO_TIME && name in s1.slots
             && s1 == s.(slots := s.slots[name := s1.slots[name]])
    requires SlotEnabled(s1.slots[name], step) && SlotApply(s1.slots[name], ZERO_TIME, step) == after
    ensures Reachable(s.(slots := s.slots[name := after]))
  {
    hide Reachable, SlotEnabled, SlotApply;
    ReachableStep(s1, On(name, ZERO_TIME, step));
    assert Apply(s1, On(name, ZERO_TIME, step)) == s.(slots := s.slots[name := after]);
  }

  lemma ShortName(name: Name)
    requires |name| == 1 && !G.IsSpace(name[0])
    ensures G.TrimSpace(name) == name
  {
    G.TrimSpaceMeans(name);
  }

  /** Closing the manager in a reachable state takes a runtime away from a call. */
  lemma CloseInterruptsCall()
    ensures exists s :: Reachable(s) && ClosedInUse(ClosedManager(s))
  {
    InitialReachable();
    ShortName("a");
    hide Reachable;
    CallOne(INITIAL, "a");
    var s := INITIAL.(slots := INITIAL.slots["a" := USED]);
    CloseIsSafeIff(s);
    assert "a" in s.slots && s.slots["a"].tool.inFlight > 0;
  }

  /** With a client shared by two tools there is a reachable state in which no closed client is in use,
      and both unloading the idle tool and the next idle sweep close one under a call of the other. */
  lemma SharedClientClosed(client: (Name, RuntimeId) -> ClientId)
    requires client("a", 7) == client("b", 7)
    ensures exists s ::
              && Reachable(s) && !ClientClosedInUse(s, client)
              && Enabled(s, On("a", 1, Unload)) && ClientClosedInUse(Apply(s, On("a", 1, Unload)), client)
              && Enabled(s, Collect(1, ["a", "b"])) && ClientClosedInUse(Apply(s, Collect(1, ["a", "b"])), client)
  {
    InitialReachable();
    ShortName("a");
    ShortName("b");
    hide Reachable, G.TrimSpace;
    CallOne(INITIAL, "a");
    var s := INITIAL.(slots := INITIAL.slots["a" := USED]);
    OnOne(s, INITIAL, "a", Release(0), IDLE);
    var s1 := INITIAL.(slots := INITIAL.slots["a" := IDLE]);
    CallOne(s1, "b");
    var s2 := s1.(slots := s1.slots["b" := USED]);
    SharedStates(s2, client);
    hide ClientClosedInUse, Apply, Enabled;
    UnloadIsClientSafeIff(s2, "a", 1, client);
    CollectIsClientSafeIff(s2, 1, ["a", "b"], client);
  }

  /** That tool after its call has ended. */
  const IDLE := Slot(Tool(1, Some(7), ZERO_TIME, 0, false), map[0 := Finished(7, ZERO_TIME)], {7}, multiset{})

  lemma SharedStates(s: State, client: (Name, RuntimeId) -> ClientId)
    requires s == State(map["a" := IDLE, "b" := USED], ZERO_TIME) && client("a", 7) == client("b", 7)
    ensures !ClientClosedInUse(s, client) && !ClientIdle(s, client, client("a", 7))
    ensures Enabled(s, On("a", 1, Unload)) && Enabled(s, Collect(1, ["a", "b"]))
    ensures Detachable(s.slots["a"].tool, false) && Expired(s.slots["a"].tool, 1)
  {
    assert "b" in s.slots && s.slots["b"].tool.runtime == Some(7) && s.slots["b"].tool.inFlight == 1;
    forall n | n in s.slots ensures n in ["a", "b"] {
      assert n == "a" || n == "b";
      assert ["a", "b"][0] == "a" && ["a", "b"][1] == "b";
    }
  }

  // ---- Registering over a tool ----

  /** The manager after a successful registration: the new tool is stored under the trimmed name, but
      looked for under the name as given. */
  function RegisteredAs(s: State, name: Name, ttl: int): State {
    s.(slots := s.slots[G.TrimSpace(name) := Slot(NewTool(ttl), map[], {}, multiset{})])
  }

  /** A runtime that was loaded, never handed out for closing, and that no tool of s' has. */
  ghost predicate Orphaned(s: State, s': State, n: Name, r: RuntimeId) {
    && n in s.slots && r in s.slots[n].loaded && s.slots[n].closing[r] == 0
    && (n in s'.slots ==> s'.slots[n].tool.runtime != Some(r) && s'.slots[n].closing[r] == 0)
  }

  /** A registration loses a runtime for good, neither current nor ever closed, exactly when its name,
      without the white space around it, is that of a tool with a runtime. */
  lemma RegisterOrphansIff(s: State, name: Name, ttl: int)
    requires Reachable(s) && name !in s.slots && G.TrimSpace(name) != ""
    ensures var key := G.TrimSpace(name);
            (exists n, r :: Orphaned(s, RegisteredAs(s, name, ttl), n, r))
            <==> key in s.slots && s.slots[key].tool.runtime.Some?
  {
    var key := G.TrimSpace(name);
    var s' := RegisteredAs(s, name, ttl);
    hide G.TrimSpace;
    if key in s.slots && s.slots[key].tool.runtime.Some? {
      var r := s.slots[key].tool.runtime.value;
      LoadedOnce(s, key, r);
      assert Orphaned(s, s', key, r);
    }
    forall n: Name, r: RuntimeId | Orphaned(s, s', n, r) ensures n == key && s.slots[key].tool.runtime == Some(r) {
      LoadedOnce(s, n, r);
    }
  }

  /** The name " a" over a tool "a" that a call uses: its runtime is lost under the call. */
  lemma RegisterOrphansRuntime()
    ensures exists s ::
              && Reachable(s) && " a" !in s.slots && "a" in s.slots && s.slots["a"].calls == map[0 := Using(7)]
              && G.TrimSpace(" a") == "a" && Orphaned(s, RegisteredAs(s, " a", 1), "a", 7)
  {
    InitialReachable();
    ShortName("a");
    SpacedName();
    hide Reachable, G.TrimSpace;
    CallOne(INITIAL, "a");
    var s := INITIAL.(slots := INITIAL.slots["a" := USED]);
    assert " a" !in s.slots;
    assert Orphaned(s, RegisteredAs(s, " a", 1), "a", 7);
  }

  lemma SpacedName()
    ensures G.TrimSpace(" a") == "a" && " a" != "a"
  {
    ShortName("a");
    assert " a"[1..] == "a";
    assert G.TrimLeft("a") == "a" && G.TrimLeft(" a") == G.TrimLeft(" a"[1..]);
    assert |" a"| == 2;
  }

  // ---- The manager itself ----

  /** A ToolSpec, as far as registration looks at it. */
  datatype Spec = Spec(name: Name, kind: string, ttl: int, hasLoader: bool)

  const KINDS := {"internal", "cli", "grpc", "mcp"}

  predicate IsValid(spec: Spec) {
    G.TrimSpace(spec.name) != "" && spec.hasLoader && spec.kind in KINDS
  }

  /** The current runtimes, in the order of the visit. */
  function RuntimesOf(tools: map<Name, Tool>, order: seq<Name>): seq<RuntimeId>
    requires forall i :: 0 <= i < |order| ==> order[i] in tools
  {
    if order == [] then []
    else
      var t := tools[order[|order| - 1]];
      RuntimesOf(tools, order[..|order| - 1]) + if t.runtime.Some? then [t.runtime.value] else []
  }

  /** What UnloadIdle closes: it returns at the first runtime whose Close fails. */
  function ClosedOf(runtimes: seq<RuntimeId>, failing: set<RuntimeId>): seq<RuntimeId> {
    if runtimes == [] then []
    else if runtimes[0] in failing then [runtimes[0]]
    else [runtimes[0]] + ClosedOf(runtimes[1..], failing)
  }

  /** Every collected runtime gets closed exactly when no Close but the last one's fails. */
  lemma {:induction false} AllClosedIff(runtimes: seq<RuntimeId>, failing: set<RuntimeId>)
    ensures ClosedOf(runtimes, failing) <= runtimes
    ensures ClosedOf(runtimes, failing) == runtimes
            <==> (forall i :: 0 <= i < |runtimes| - 1 ==> runtimes[i] !in failing)
  {
    if runtimes != [] {
      var rest := runtimes[1..];
      AllClosedIff(rest, failing);
      assert runtimes == [runtimes[0]] + rest;
      assert forall i :: 0 <= i < |rest| ==> rest[i] == runtimes[i + 1];
    }
  }

  /** The runtimes of expired tools, in the order of the visit. */
  function ExpiredOf(tools: map<Name, Tool>, now: int, order: seq<Name>): seq<RuntimeId>
    requires forall i :: 0 <= i < |order| ==> order[i] in tools
  {
    if order == [] then []
    else
      var rest := ExpiredOf(tools, now, order[..|order| - 1]);
      var t := tools[order[|order| - 1]];
      if Expired(t, now) then rest + [t.runtime.value] else rest
  }

  /** A visit of some tools has taken the runtimes of those that it takes. */
  ghost predicate Taken(before: map<Name, Tool>, after: map<Name, Tool>, visited: seq<Name>, takes: Tool -> bool) {
    && after.Keys == before.Keys
    && forall n :: n in before ==>
         after[n] == if n in visited && takes(before[n]) then Detached(before[n]) else before[n]
  }

  lemma NothingTaken(before: map<Name, Tool>, order: seq<Name>, takes: Tool -> bool)
    ensures Taken(before, before, order[..0], takes)
  {
  }

  lemma TakeNext(before: map<Name, Tool>, after: map<Name, Tool>, order: seq<Name>, i: nat, takes: Tool -> bool)
    requires IsOrder(before.Keys, order) && i < |order| && Taken(before, after, order[..i], takes)
    ensures var n := order[i];
            && n in before && n in after && after[n] == before[n]
            && Taken(before, if takes(before[n]) then after[n := Detached(after[n])] else after, order[..i + 1], takes)
  {
    assert order[..i + 1] == order[..i] + [order[i]];
    assert order[i] !in order[..i];
    forall n ensures n in order[..i + 1] <==> n in order[..i] || n == order[i] {
    }
  }

  lemma AllTaken(before: map<Name, Tool>, after: map<Name, Tool>, order: seq<Name>, takes: Tool -> bool)
    requires IsOrder(before.Keys, order) && Taken(before, after, order[..|order|], takes)
    ensures order[..|order|] == order
    ensures after == map n | n in before :: if takes(before[n]) then Detached(before[n]) else before[n]
  {
    assert order[..|order|] == order;
  }

  lemma ExpiredNext(tools: map<Name, Tool>, now: int, order: seq<Name>, i: nat)
    requires i < |order| && forall k :: 0 <= k < |order| ==> order[k] in tools
    ensures ExpiredOf(tools, now, order[..i + 1])
            == ExpiredOf(tools, now, order[..i])
               + if Expired(tools[order[i]], now) then [tools[order[i]].runtime.value] else []
  {
    assert order[..i + 1][..i] == order[..i];
  }

  lemma RuntimesNext(tools: map<Name, Tool>, order: seq<Name>, i: nat)
    requires i < |order| && forall k :: 0 <= k < |order| ==> order[k] in tools
    ensures RuntimesOf(tools, order[..i + 1])
            == RuntimesOf(tools, order[..i])
               + if tools[order[i]].runtime.Some? then [tools[order[i]].runtime.value] else []
  {
    assert order[..i + 1][..i] == order[..i];
  }

  class Manager {
    var tools: map<Name, Tool>

    constructor ()
      ensures tools == map[]
    {
      tools := map[];
    }

    /** The new tool is stored under its trimmed name, but looked for under the name as given. */
    method Register(spec: Spec) returns (ok: bool)
      modifies this
      ensures ok <==> IsValid(spec) && spec.name !in old(tools)
      ensures tools == if ok then old(tools)[G.TrimSpace(spec.name) := NewTool(spec.ttl)] else old(tools)
      ensures ok ==> var t := tools[G.TrimSpace(spec.name)];
                     t.runtime.None? && t.inFlight == 0 && !t.loading
                     && t.ttl == if spec.ttl > 0 then spec.ttl else 300_000_000_000
    {
      if G.TrimSpace(spec.name) == "" {
        return false;
      }
      if !spec.hasLoader {
        return false;
      }
      if spec.kind !in KINDS {
        return false;
      }
      if spec.name in tools {
        return false;
      }
      tools := tools[G.TrimSpace(spec.name) := NewTool(spec.ttl)];
      ok := true;
    }

    /** The part of acquire before the loader runs, once per pass through the waiting loop. */
    method LookUp(name: Name, now: int) returns (phase: Option<Phase>)
      modifies this
      ensures phase.None? <==> name !in old(tools)
      ensures phase.None? ==> tools == old(tools)
      ensures phase.Some? ==> phase.value == PhaseAfterLook(old(tools)[name])
                              && tools == old(tools)[name := Looked(old(tools)[name], now)]
    {
      if name !in tools {
        return None;
      }
      var t := tools[name];
      if t.loading {
        assert tools == tools[name := t];
        return Some(Asleep);
      }
      if t.runtime.Some? {
        tools := tools[name := t.(inFlight := t.inFlight + 1, lastUsed := now)];
        return Some(Using(t.runtime.value));
      }
      tools := tools[name := t.(loading := true)];
      phase := Some(Loading);
    }

    /** The part of acquire after the loader has returned. */
    method FinishLoad(name: Name, now: int, result: Option<RuntimeId>)
      requires name in tools
      modifies this
      ensures tools == old(tools)[name := LoadFinished(old(tools)[name], now, result)]
    {
      var t := tools[name].(loading := false);
      if result.Some? {
        t := t.(runtime := result);
        t := t.(inFlight := t.inFlight + 1, lastUsed := now);
      }
      tools := tools[name := t];
    }

    method Release(name: Name, now: int)
      requires name in tools
      modifies this
      ensures tools == old(tools)[name := Released(old(tools)[name], now)]
    {
      var t := tools[name];
      if t.inFlight > 0 {
        t := t.(inFlight := t.inFlight - 1);
      }
      tools := tools[name := t.(lastUsed := now)];
    }

    method DetachRuntime(name: Name, force: bool) returns (ok: bool, runtime: Option<RuntimeId>)
      modifies this
      ensures ok <==> name in old(tools)
      ensures runtime.Some? <==> ok && Detachable(old(tools)[name], force)
      ensures runtime.Some? ==> runtime == old(tools)[name].runtime
                                && tools == old(tools)[name := Detached(old(tools)[name])]
      ensures runtime.None? ==> tools == old(tools)
    {
      if name !in tools {
        return false, None;
      }
      var t := tools[name];
      if t.runtime.None? {
        return true, None;
      }
      if !force && t.inFlight > 0 {
        return true, None;
      }
      tools := tools[name := t.(runtime := None, lastUsed := ZERO_TIME)];
      return true, t.runtime;
    }

    method CollectExpired(now: int, order: seq<Name>) returns (runtimes: seq<RuntimeId>)
      requires IsOrder(tools.Keys, order)
      modifies this
      ensures runtimes == ExpiredOf(old(tools), now, order)
      ensures tools == map n | n in old(tools) ::
                         if Expired(old(tools)[n], now) then Detached(old(tools)[n]) else old(tools)[n]
    {
      runtimes := [];
      ghost var before, takes := tools, (t: Tool) => Expired(t, now);
      NothingTaken(before, order, takes);
      assert ExpiredOf(before, now, order[..0]) == [];
      hide Taken, ExpiredOf;
      for i := 0 to |order|
        invariant Taken(before, tools, order[..i], takes)
        invariant runtimes == ExpiredOf(before, now, order[..i])
      {
        TakeNext(before, tools, order, i, takes);
        ExpiredNext(before, now, order, i);
        var t := tools[order[i]];
        if t.runtime.None? || t.inFlight > 0 {
          continue;
        }
        if now - t.lastUsed < t.ttl {
          continue;
        }
        runtimes := runtimes + [t.runtime.value];
        tools := tools[order[i] := t.(runtime := None, lastUsed := ZERO_TIME)];
      }
      AllTaken(before, tools, order, takes);
    }

    /** Closes every runtime, whatever the others' Close returns, and reports the first failure. */
    method Close(order: seq<Name>, failing: set<RuntimeId>)
      returns (closed: seq<RuntimeId>, firstErr: Option<RuntimeId>)
      requires IsOrder(tools.Keys, order)
      modifies this
      ensures closed == RuntimesOf(old(tools), order)
      ensures tools == map n | n in old(tools) ::
                         if old(tools)[n].runtime.Some? then Detached(old(tools)[n]) else old(tools)[n]
      ensures firstErr.None? <==> forall r :: r in closed ==> r !in failing
      ensures firstErr.Some? ==> exists i :: 0 <= i < |closed| && closed[i] == firstErr.value && closed[i] in failing
                                             && forall k :: 0 <= k < i ==> closed[k] !in failing
    {
      closed := DetachAll(order);
      firstErr := None;
      for i := 0 to |closed|
        invariant firstErr.None? <==> forall k :: 0 <= k < i ==> closed[k] !in failing
        invariant firstErr.Some? ==> exists j :: 0 <= j < i && closed[j] == firstErr.value && closed[j] in failing
                                                 && forall k :: 0 <= k < j ==> closed[k] !in failing
      {
        if closed[i] in failing && firstErr.None? {
          firstErr := Some(closed[i]);
        }
      }
    }

    method DetachAll(order: seq<Name>) returns (runtimes: seq<RuntimeId>)
      requires IsOrder(tools.Keys, order)
      modifies this
      ensures runtimes == RuntimesOf(old(tools), order)
      ensures tools == map n | n in old(tools) ::
                         if old(tools)[n].runtime.Some? then Detached(old(tools)[n]) else old(tools)[n]
    {
      runtimes := [];
      ghost var before, takes := tools, (t: Tool) => t.runtime.Some?;
      NothingTaken(before, order, takes);
      assert RuntimesOf(before, order[..0]) == [];
      hide Taken, RuntimesOf;
      for i := 0 to |order|
        invariant Taken(before, tools, order[..i], takes)
        invariant runtimes == RuntimesOf(before, order[..i])
      {
        TakeNext(before, tools, order, i, takes);
        RuntimesNext(before, order, i);
        var t := tools[order[i]];
        if t.runtime.Some? {
          runtimes := runtimes + [t.runtime.value];
          tools := tools[order[i] := t.(runtime := None, lastUsed := ZERO_TIME)];
        }
      }
      AllTaken(before, tools, order, takes);
    }

    method UnloadIdle(now: int, order: seq<Name>, failing: set<RuntimeId>)
      returns (closed: seq<RuntimeId>, ok: bool)
      requires IsOrder(tools.Keys, order)
      modifies this
      ensures closed == ClosedOf(ExpiredOf(old(tools), now, order), failing)
      ensures ok <==> forall r :: r in closed ==> r !in failing
    {
      var runtimes := CollectExpired(now, order);
      hide *;
      closed, ok := [], true;
      assert runtimes[0..] == runtimes && closed + ClosedOf(runtimes, failing) == ClosedOf(runtimes, failing);
      var i := 0;
      while i < |runtimes|
        invariant 0 <= i <= |runtimes| && ok
        invariant forall r :: r in closed ==> r !in failing
        invariant ClosedOf(runtimes, failing) == closed + ClosedOf(runtimes[i..], failing)
      {
        CloseNext(runtimes, i, failing, closed);
        closed := closed + [runtimes[i]];
        if runtimes[i] in failing {
          return closed, false;
        }
        i := i + 1;
      }
      NoneLeft(runtimes, failing);
    }
  }

  lemma CloseNext(runtimes: seq<RuntimeId>, i: nat, failing: set<RuntimeId>, closed: seq<RuntimeId>)
    requires i < |runtimes|
    ensures var rest := if runtimes[i] in failing then [] else ClosedOf(runtimes[i + 1..], failing);
            closed + ClosedOf(runtimes[i..], failing) == (closed + [runtimes[i]]) + rest
    ensures closed + [runtimes[i]] + [] == closed + [runtimes[i]] && runtimes[i] in closed + [runtimes[i]]
  {
    assert runtimes[i..][1..] == runtimes[i + 1..];
    assert (closed + [runtimes[i]])[|closed|] == runtimes[i];
    hide ClosedOf;
    T.Assoc(closed, [runtimes[i]], ClosedOf(runtimes[i + 1..], failing));
  }

  lemma NoneLeft(runtimes: seq<RuntimeId>, failing: set<RuntimeId>)
    ensures forall closed: seq<RuntimeId> :: closed + ClosedOf(runtimes[|runtimes|..], failing) == closed
  {
    assert runtimes[|runtimes|..] == [];
  }
}

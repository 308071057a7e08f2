/**
 * The credentials-agent protocol: one client slot (client.go), the agent handle (agent.go), the core
 * agent (internal/core/agent.go), the export and registration sequence (internal/connect/wiring.go)
 * and the daemon's one-agent registry (tools/test-mocks/iwdmock/internal/mock/agent.go).
 * Calls run concurrently; every step is one atomic action of one call.
 */
module AgentLifecycle {
  import opened Common

  type Call = nat   // a call in progress
  type AgentId = nat

  const ME: nat := 0   // the bus name of this client's connection
  const AGENT_PATH: string := "/spiderw/agent"

  datatype Once = Fresh | Running(runner: Call) | Done

  /** A core agent with its handle, and the history of its teardown. */
  datatype Agent = Agent(
    bound: bool,              // Bind has run
    registered: bool,         // the flag of the core agent
    handedOut: bool,          // RegisterAgent has returned the handle
    clear: Once,              // clearOnce of the handle
    taker: Option<Call>,      // the call that took the flag down
    unregisters: nat,         // UnregisterAgent calls made for it
    unexports: nat)           // unexport calls made for it

  /** The daemon's registration; `origin` is the agent of this client that asked for it. */
  datatype Entry = Entry(sender: nat, path: string, origin: AgentId)

  /** Where a call stands. */
  datatype PC =
    // Client.RegisterAgent and Wiring.NewAgent; everything after RegLock holds closeMu
    | RegLock
    | RegCheck
    | RegExport
    | RegManager(a: AgentId)
    | RegDaemon(a: AgentId)
    | RegRollback(a: AgentId)
    | RegBind(a: AgentId)
    | RegPublish(a: AgentId)
    | RegUnlock(handle: Option<AgentId>)
    // Agent.Unregister, called by a user or by Close
    | UnregFlag(a: AgentId, inClose: bool)
    | UnregDaemon(a: AgentId, inClose: bool)
    | UnregExport(a: AgentId, inClose: bool)
    | ClearOnce(a: AgentId, inClose: bool)    // about to enter clearOnce
    | ClearLock(a: AgentId, inClose: bool)    // inside clearOnce, about to lock closeMu
    | ClearSlot(a: AgentId, inClose: bool)    // inside clearOnce, holds closeMu
    | ClearUnlock(a: AgentId, inClose: bool)  // inside clearOnce, holds closeMu
    | ClearDone(a: AgentId, inClose: bool)    // inside clearOnce
    // Client.Close
    | CloseOnce                               // about to enter closeOnce
    | CloseLock                               // inside closeOnce, about to lock closeMu
    | CloseTake                               // inside closeOnce, holds closeMu
    | CloseUnlock(found: Option<AgentId>)     // inside closeOnce, holds closeMu
    | CloseCleanup                            // inside closeOnce
    | CloseLeave                              // inside closeOnce

  datatype State = State(
    agents: seq<Agent>,
    slot: Option<AgentId>,       // Client.agent
    closed: bool,
    taken: Option<AgentId>,      // history: what Close found in the slot
    closeMu: Option<Call>,
    closeOnce: Once,
    closeFailed: bool,           // Client.closeErr is set
    results: seq<bool>,          // history: what finished Close calls returned
    cleanups: nat,               // history: connection cleanups
    calls: map<Call, PC>,
    exported: Option<AgentId>,   // the object exported at the agent path
    daemon: Option<Entry>)

  function Init(): State {
    State([], None, false, None, None, Fresh, false, [], 0, map[], None, None)
  }

  /** What the environment promises. */
  datatype Regime = Regime(
    serial: bool,            // callers do not overlap Unregister on one handle
    unregisterWorks: bool,   // no UnregisterAgent call fails
    unexportWorks: bool)     // no unexport fails

  datatype Step =
    | CallRegister(t: Call)
    | CallUnregister(t: Call, a: AgentId)
    | CallClose(t: Call)
    | Advance(t: Call, ok: bool)   // `ok` is the outcome of the bus call made, if one is made
    | OtherRegister(e: Entry)
    | OtherUnregister(sender: nat, path: string)

  // ---------- the daemon side ----------

  /** The daemon keeps one agent and refuses a second. */
  function DaemonRegister(d: Option<Entry>, e: Entry): (Option<Entry>, bool) {
    if d.Some? then (d, false) else (Some(e), true)
  }

  /** Only the sender that registered a path can remove it. */
  function DaemonUnregister(d: Option<Entry>, sender: nat, path: string): (Option<Entry>, bool) {
    if d.None? || d.value.path != path || d.value.sender != sender then (d, false) else (None, true)
  }

  lemma OneSenderNeverDropsAnothers(d: Option<Entry>, sender: nat, path: string)
    requires d.Some? && d.value.sender != sender
    ensures DaemonUnregister(d, sender, path) == (d, false)
    ensures forall e :: DaemonRegister(d, e) == (d, false)
  {
  }

  // ---------- what a program counter holds and waits for ----------

  predicate HoldsCloseMu(pc: PC) {
    pc.RegCheck? || pc.RegExport? || pc.RegManager? || pc.RegDaemon? || pc.RegRollback? || pc.RegBind? || pc.RegPublish?
    || pc.RegUnlock? || pc.ClearSlot? || pc.ClearUnlock? || pc.CloseTake? || pc.CloseUnlock?
  }

  predicate InUnregister(pc: PC) {
    pc.UnregFlag? || pc.UnregDaemon? || pc.UnregExport? || pc.ClearOnce? || pc.ClearLock? || pc.ClearSlot? || pc.ClearUnlock? || pc.ClearDone?
  }

  predicate HoldsCloseOnce(pc: PC) {
    pc.CloseLock? || pc.CloseTake? || pc.CloseUnlock? || pc.CloseCleanup? || pc.CloseLeave? || (InUnregister(pc) && pc.inClose)
  }

  predicate HoldsClearOnce(pc: PC, a: AgentId) {
    (pc.ClearLock? || pc.ClearSlot? || pc.ClearUnlock? || pc.ClearDone?) && pc.a == a
  }

  predicate UserUnregisters(pc: PC, a: AgentId) {
    InUnregister(pc) && !pc.inClose && pc.a == a
  }

  /** RegisterAgent has passed its checks and not yet filled the slot. */
  predicate Registering(pc: PC) {
    pc.RegExport? || pc.RegManager? || pc.RegDaemon? || pc.RegRollback? || pc.RegBind? || pc.RegPublish?
  }

  /** The agent a call has created and not yet bound. */
  predicate Building(pc: PC, a: AgentId) {
    (pc.RegManager? || pc.RegDaemon? || pc.RegRollback? || pc.RegBind?) && pc.a == a
  }

  /** The call is between taking the flag down and removing the exported object. */
  predicate TearingDown(pc: PC, a: AgentId) {
    (pc.UnregDaemon? || pc.UnregExport?) && pc.a == a
  }

  // ---------- steps ----------

  predicate AgentsInRange(pc: PC, n: nat) {
    match pc
    case RegManager(a) => a < n
    case RegDaemon(a) => a < n
    case RegRollback(a) => a < n
    case RegBind(a) => a < n
    case RegPublish(a) => a < n
    case RegUnlock(handle) => handle.Some? ==> handle.value < n
    case UnregFlag(a, _) => a < n
    case UnregDaemon(a, _) => a < n
    case UnregExport(a, _) => a < n
    case ClearOnce(a, _) => a < n
    case ClearLock(a, _) => a < n
    case ClearSlot(a, _) => a < n
    case ClearUnlock(a, _) => a < n
    case ClearDone(a, _) => a < n
    case CloseUnlock(found) => found.Some? ==> found.value < n
    case _ => true
  }

  /** A call blocks only on a lock that another call holds. */
  predicate Runnable(s: State, pc: PC)
    requires AgentsInRange(pc, |s.agents|)
  {
    match pc
    case RegLock => s.closeMu.None?
    case ClearLock(_, _) => s.closeMu.None?
    case CloseLock => s.closeMu.None?
    case ClearOnce(a, _) => !s.agents[a].clear.Running?
    case CloseOnce => !s.closeOnce.Running?
    case _ => true
  }

  predicate Enabled(r: Regime, s: State, step: Step) {
    match step
    case CallRegister(t) => t !in s.calls
    case CallClose(t) => t !in s.calls
    case CallUnregister(t, a) =>
      && t !in s.calls && a < |s.agents| && s.agents[a].handedOut
      && (r.serial ==> forall u :: u in s.calls ==> !UserUnregisters(s.calls[u], a))
    case Advance(t, ok) =>
      && t in s.calls
      && AgentsInRange(s.calls[t], |s.agents|)
      && Runnable(s, s.calls[t])
      && (s.calls[t].UnregDaemon? && r.unregisterWorks ==> ok)
      && ((s.calls[t].UnregExport? || s.calls[t].RegRollback?) && r.unexportWorks ==> ok)
    case OtherRegister(e) => e.sender != ME
    case OtherUnregister(sender, _) => sender != ME
  }

  function At(s: State, t: Call, pc: PC): State {
    s.(calls := s.calls[t := pc])
  }

  function Return(s: State, t: Call): State {
    s.(calls := s.calls - {t})
  }

  function WithAgent(s: State, a: AgentId, g: Agent): State
    requires a < |s.agents|
  {
    s.(agents := s.agents[a := g])
  }

  /** Client.RegisterAgent around the wiring: the lock, the checks, the slot. */
  function AdvanceRegister(s: State, t: Call, pc: PC): State
    requires AgentsInRange(pc, |s.agents|)
  {
    match pc
    case RegLock => At(s.(closeMu := Some(t)), t, RegCheck)
    case RegCheck => if s.closed || s.slot.Some? then At(s, t, RegUnlock(None)) else At(s, t, RegExport)
    case RegPublish(a) => At(s.(slot := Some(a)), t, RegUnlock(Some(a)))
    case RegUnlock(handle) =>
      var released := s.(closeMu := None);
      Return(if handle.Some? then WithAgent(released, handle.value, s.agents[handle.value].(handedOut := true)) else released, t)
    case _ => s
  }

  /** Wiring.NewAgent: export, find the manager, register, bind; roll the export back on failure. */
  function AdvanceNewAgent(s: State, t: Call, pc: PC, ok: bool): State
    requires AgentsInRange(pc, |s.agents|)
  {
    match pc
    case RegExport =>
      if ok then
        At(s.(agents := s.agents + [Agent(false, false, false, Fresh, None, 0, 0)], exported := Some(|s.agents|)),
           t, RegManager(|s.agents|))
      else At(s, t, RegUnlock(None))
    case RegManager(a) => At(s, t, if ok then RegDaemon(a) else RegRollback(a))
    case RegDaemon(a) =>
      if ok then
        var (d, accepted) := DaemonRegister(s.daemon, Entry(ME, AGENT_PATH, a));
        At(s.(daemon := d), t, if accepted then RegBind(a) else RegRollback(a))
      else At(s, t, RegRollback(a))
    case RegRollback(a) =>
      var g := s.agents[a];
      At(WithAgent(s.(exported := if ok then None else s.exported), a, g.(unexports := g.unexports + 1)), t, RegUnlock(None))
    case RegBind(a) => At(WithAgent(s, a, s.agents[a].(bound := true, registered := true)), t, RegPublish(a))
    case _ => s
  }

  /** The core agent's Unregister: the flag, the daemon call, the unexport. */
  function AdvanceCore(s: State, t: Call, pc: PC, ok: bool): State
    requires AgentsInRange(pc, |s.agents|)
  {
    match pc
    case UnregFlag(a, c) =>
      if s.agents[a].registered then
        At(WithAgent(s, a, s.agents[a].(registered := false, taker := Some(t))), t, UnregDaemon(a, c))
      else At(s, t, ClearOnce(a, c))
    case UnregDaemon(a, c) =>
      var called := WithAgent(s, a, s.agents[a].(unregisters := s.agents[a].unregisters + 1));
      At(if ok then called.(daemon := DaemonUnregister(s.daemon, ME, AGENT_PATH).0) else called, t, UnregExport(a, c))
    case UnregExport(a, c) =>
      var called := WithAgent(s, a, s.agents[a].(unexports := s.agents[a].unexports + 1));
      At(if ok then called.(exported := None) else called, t, ClearOnce(a, c))
    case _ => s
  }

  /** The handle's clearOnce, which frees the client's slot. */
  function AdvanceClear(s: State, t: Call, pc: PC): State
    requires AgentsInRange(pc, |s.agents|)
  {
    match pc
    case ClearOnce(a, c) =>
      if s.agents[a].clear.Done? then (if c then At(s, t, CloseCleanup) else Return(s, t))
      else At(WithAgent(s, a, s.agents[a].(clear := Running(t))), t, ClearLock(a, c))
    case ClearLock(a, c) => At(s.(closeMu := Some(t)), t, ClearSlot(a, c))
    case ClearSlot(a, c) => At(s.(slot := if s.slot == Some(a) then None else s.slot), t, ClearUnlock(a, c))
    case ClearUnlock(a, c) => At(s.(closeMu := None), t, ClearDone(a, c))
    case ClearDone(a, c) =>
      var left := WithAgent(s, a, s.agents[a].(clear := Done));
      if c then At(left, t, CloseCleanup) else Return(left, t)
    case _ => s
  }

  /** Client.Close apart from the Unregister it calls. */
  function AdvanceClose(s: State, t: Call, pc: PC, ok: bool): State {
    match pc
    case CloseOnce =>
      if s.closeOnce.Done? then Return(s.(results := s.results + [s.closeFailed]), t)
      else At(s.(closeOnce := Running(t)), t, CloseLock)
    case CloseLock => At(s.(closeMu := Some(t)), t, CloseTake)
    case CloseTake => At(s.(closed := true, taken := s.slot, slot := None), t, CloseUnlock(s.slot))
    case CloseUnlock(found) =>
      At(s.(closeMu := None), t, if found.Some? then UnregFlag(found.value, true) else CloseCleanup)
    case CloseCleanup => At(s.(cleanups := s.cleanups + 1, closeFailed := !ok), t, CloseLeave)
    case CloseLeave => Return(s.(closeOnce := Done, results := s.results + [s.closeFailed]), t)
    case _ => s
  }

  predicate InRegister(pc: PC) {
    pc.RegLock? || pc.RegCheck? || pc.RegPublish? || pc.RegUnlock?
  }

  predicate InNewAgent(pc: PC) {
    pc.RegExport? || pc.RegManager? || pc.RegDaemon? || pc.RegRollback? || pc.RegBind?
  }

  predicate InCore(pc: PC) {
    pc.UnregFlag? || pc.UnregDaemon? || pc.UnregExport?
  }

  predicate InClear(pc: PC) {
    InUnregister(pc) && !InCore(pc)
  }

  predicate InClose(pc: PC) {
    !InRegister(pc) && !InNewAgent(pc) && !InUnregister(pc)
  }

  function Move(s: State, t: Call, pc: PC, ok: bool): State
    requires AgentsInRange(pc, |s.agents|)
  {
    if InRegister(pc) then AdvanceRegister(s, t, pc)
    else if InNewAgent(pc) then AdvanceNewAgent(s, t, pc, ok)
    else if InCore(pc) then AdvanceCore(s, t, pc, ok)
    else if InClear(pc) then AdvanceClear(s, t, pc)
    else AdvanceClose(s, t, pc, ok)
  }

  function Apply(r: Regime, s: State, step: Step): State
    requires Enabled(r, s, step)
  {
    match step
    case CallRegister(t) => At(s, t, RegLock)
    case CallUnregister(t, a) => At(s, t, UnregFlag(a, false))
    case CallClose(t) => At(s, t, CloseOnce)
    case Advance(t, ok) => Move(s, t, s.calls[t], ok)
    case OtherRegister(e) => s.(daemon := DaemonRegister(s.daemon, e).0)
    case OtherUnregister(sender, path) => s.(daemon := DaemonUnregister(s.daemon, sender, path).0)
  }

  predicate IsRun(r: Regime, s: State, run: seq<Step>)
    decreases |run|
  {
    run == [] || (Enabled(r, s, run[0]) && IsRun(r, Apply(r, s, run[0]), run[1..]))
  }

  function Exec(r: Regime, s: State, run: seq<Step>): State
    requires IsRun(r, s, run)
    decreases |run|
  {
    if run == [] then s else Exec(r, Apply(r, s, run[0]), run[1..])
  }

  // ---------- the invariant: one part for the shared fields, one per call, one per agent ----------

  ghost predicate SharedOK(s: State) {
    && (s.closeMu.Some? ==> s.closeMu.value in s.calls && HoldsCloseMu(s.calls[s.closeMu.value]))
    && (s.closeOnce.Running? ==> s.closeOnce.runner in s.calls && HoldsCloseOnce(s.calls[s.closeOnce.runner]))
    && (s.slot.Some? ==> s.slot.value < |s.agents| && s.agents[s.slot.value].bound && !s.closed)
    && (s.taken.Some? ==> s.taken.value < |s.agents| && s.agents[s.taken.value].bound && s.closed)
    && (s.closed ==> !s.closeOnce.Fresh?)
    && (s.closeOnce.Done? ==> s.closed && s.cleanups == 1)
    && (s.closeOnce.Fresh? ==> s.cleanups == 0)
    && ResultsAgree(s)
  }

  /** Close calls return only once closeOnce is done, and all return the stored outcome. */
  ghost predicate ResultsAgree(s: State) {
    && (!s.closeOnce.Done? ==> s.results == [])
    && (forall k :: 0 <= k < |s.results| ==> s.results[k] == s.closeFailed)
  }

  /** What the program counter of call `t` says about the rest of the state. */
  ghost predicate CallOK(s: State, t: Call)
    requires t in s.calls
  {
    var pc := s.calls[t];
    && AgentsInRange(pc, |s.agents|)
    && (HoldsCloseMu(pc) <==> s.closeMu == Some(t))
    && (HoldsCloseOnce(pc) <==> s.closeOnce == Running(t))
    && (Registering(pc) ==> s.slot.None? && !s.closed && s.taken.None?)
    && (HoldsCloseOnce(pc) ==> s.cleanups == (if pc.CloseLeave? then 1 else 0))
    && (HoldsCloseOnce(pc) && !pc.CloseLock? && !pc.CloseTake? ==> s.closed)
    && (pc.CloseLock? || pc.CloseTake? ==> !s.closed)
    && (pc.CloseUnlock? ==> s.taken == pc.found)
    && (InUnregister(pc) ==>
          && s.agents[pc.a].bound
          && (!pc.UnregFlag? ==> !s.agents[pc.a].registered)
          && (HoldsClearOnce(pc, pc.a) ==> s.agents[pc.a].clear == Running(t))
          && (if pc.inClose then s.taken == Some(pc.a) else s.agents[pc.a].handedOut))
    && (match pc
        case RegManager(a) => Unborn(s.agents[a])
        case RegDaemon(a) => Unborn(s.agents[a])
        case RegRollback(a) => Unborn(s.agents[a])
        case RegBind(a) => Unborn(s.agents[a])
        case RegPublish(a) => s.agents[a].bound && !s.agents[a].handedOut && s.agents[a].clear.Fresh?
        case ClearUnlock(a, _) => s.slot != Some(a)
        case ClearDone(a, _) => s.slot != Some(a)
        case RegUnlock(handle) =>
          handle.Some? ==> s.slot == handle && s.agents[handle.value].bound && !s.agents[handle.value].handedOut
        case UnregDaemon(a, _) => s.agents[a].taker == Some(t) && s.agents[a].unregisters == 0 == s.agents[a].unexports
        case UnregExport(a, _) => s.agents[a].taker == Some(t) && s.agents[a].unregisters == 1 && s.agents[a].unexports == 0
        case _ => true)
  }

  /** An agent that has been exported and not bound. */
  predicate Unborn(g: Agent) {
    !g.bound && !g.registered && !g.handedOut && g.taker.None? && g.unregisters == 0 == g.unexports && g.clear.Fresh?
  }

  /** Who answers for a raised flag: the slot, the RegisterAgent that owns closeMu, or Close. */
  ghost predicate Held(s: State, a: AgentId) {
    || s.slot == Some(a)
    || (s.closeMu.Some? && s.closeMu.value in s.calls && s.calls[s.closeMu.value] == RegPublish(a))
    || (s.taken == Some(a) && s.closeOnce.Running? && s.closeOnce.runner in s.calls
        && (s.calls[s.closeOnce.runner] == CloseUnlock(Some(a)) || s.calls[s.closeOnce.runner] == UnregFlag(a, true)))
  }

  /** The call that took the flag down has the rest of the teardown before it. */
  ghost predicate BeingTornDown(s: State, a: AgentId, t: Call) {
    t in s.calls && TearingDown(s.calls[t], a)
  }

  ghost predicate InsideUnregister(s: State, a: AgentId, t: Call) {
    t in s.calls && InUnregister(s.calls[t]) && s.calls[t].a == a
  }

  ghost predicate BeingBuilt(s: State, a: AgentId) {
    s.closeMu.Some? && s.closeMu.value in s.calls && Building(s.calls[s.closeMu.value], a)
  }

  ghost predicate AgentOK(s: State, a: AgentId)
    requires a < |s.agents|
  {
    var g := s.agents[a];
    && (g.registered ==> g.bound && g.taker.None? && g.unregisters == 0 == g.unexports && Held(s, a))
    && (g.taker.Some? ==> g.bound && !g.registered)
    && (g.bound ==> g.registered || g.taker.Some?)
    && (g.taker.Some? ==> (g.unregisters == 1 && g.unexports == 1) || BeingTornDown(s, a, g.taker.value))
    && (g.taker.Some? ==> g.clear.Done? || InsideUnregister(s, a, g.taker.value))
    && (g.handedOut ==> g.bound)
    && (!g.bound ==> g.clear.Fresh? && g.unregisters == 0 && (g.unexports == 1 || BeingBuilt(s, a)))
    && g.unregisters <= 1 && g.unexports <= 1
    && (g.clear.Running? ==> g.clear.runner in s.calls && HoldsClearOnce(s.calls[g.clear.runner], a))
    && (g.clear.Done? ==> s.slot != Some(a))
  }

  ghost predicate Inv(s: State) {
    && SharedOK(s)
    && (forall t :: t in s.calls ==> CallOK(s, t))
    && (forall a :: 0 <= a < |s.agents| ==> AgentOK(s, a))
  }

  // ---------- what one call may do to the others ----------

  predicate OnceStep(o: Once, n: Once, t: Call) {
    n == o || (!o.Done? && (o.Running? ==> o.runner == t) && (n.Running? ==> n.runner == t))
  }

  predicate AgentStep(g: Agent, n: Agent, t: Call, locked: bool, taken: bool) {
    && (g.bound ==> n.bound) && (g.handedOut ==> n.handedOut)
    && (n.handedOut != g.handedOut ==> locked)
    && (g.bound && !g.registered ==> !n.registered)
    && (g.taker.Some? && g.taker.value != t ==> n.taker == g.taker && n.unregisters == g.unregisters && n.unexports == g.unexports)
    && (Unborn(g) && !locked ==> Unborn(n))
    && OnceStep(g.clear, n.clear, t)
    && (n.clear == g.clear || g.handedOut || taken)
  }

  /**
   * The guarantee of a step of call `t`: it moves only itself, takes and releases locks only for
   * itself, changes the slot only under closeMu and Close's own fields only inside closeOnce, and
   * leaves the agents other calls are tearing down or building alone.
   */
  ghost predicate Guarantee(s: State, n: State, t: Call) {
    && (n.calls == s.calls - {t} || (t in n.calls && n.calls == s.calls[t := n.calls[t]]))
    && |s.agents| <= |n.agents|
    && (n.closeMu == s.closeMu || ((s.closeMu.Some? ==> s.closeMu.value == t) && (n.closeMu.Some? ==> n.closeMu.value == t)))
    && OnceStep(s.closeOnce, n.closeOnce, t)
    && (s.closeMu == Some(t) || (n.slot == s.slot && n.closed == s.closed && n.taken == s.taken))
    && (n.slot == s.slot || n.slot.None?
        || (s.slot.None? && !s.closed && n.slot.value < |s.agents| && !s.agents[n.slot.value].handedOut))
    && (s.closeOnce == Running(t) || (n.closed == s.closed && n.taken == s.taken && n.cleanups == s.cleanups))
    && (forall a :: 0 <= a < |s.agents| ==> AgentStep(s.agents[a], n.agents[a], t, s.closeMu == Some(t), s.taken == Some(a)))
  }

  /** Whatever keeps the guarantee keeps what every other call relies on. */
  lemma OthersRely(s: State, n: State, t: Call, u: Call)
    requires Guarantee(s, n, t) && u != t && u in s.calls && CallOK(s, u)
    ensures u in n.calls && n.calls[u] == s.calls[u] && CallOK(n, u)
  {
  }

  /** Call `t` is where the invariant allows and not blocked. */
  ghost predicate Ready(s: State, t: Call) {
    SharedOK(s) && t in s.calls && CallOK(s, t) && Runnable(s, s.calls[t])
  }

  lemma RegisterGuarantee(s: State, t: Call)
    requires Ready(s, t) && InRegister(s.calls[t])
    ensures Guarantee(s, AdvanceRegister(s, t, s.calls[t]), t)
  {
    hide SharedOK;
  }

  lemma RegisterKeepsShared(s: State, t: Call)
    requires Ready(s, t) && InRegister(s.calls[t])
    ensures SharedOK(AdvanceRegister(s, t, s.calls[t]))
  {
  }

  lemma LockKeepsMover(s: State, t: Call)
    requires Ready(s, t) && (s.calls[t].RegLock? || s.calls[t].RegCheck?)
    ensures var n := AdvanceRegister(s, t, s.calls[t]); t in n.calls ==> CallOK(n, t)
  {
  }

  lemma PublishKeepsMover(s: State, t: Call)
    requires Ready(s, t) && (s.calls[t].RegPublish? || s.calls[t].RegUnlock?)
    ensures var n := AdvanceRegister(s, t, s.calls[t]); t in n.calls ==> CallOK(n, t)
  {
    hide SharedOK;
  }

  lemma RegisterKeepsMover(s: State, t: Call)
    requires Ready(s, t) && InRegister(s.calls[t])
    ensures var n := AdvanceRegister(s, t, s.calls[t]); t in n.calls ==> CallOK(n, t)
  {
    if s.calls[t].RegLock? || s.calls[t].RegCheck? { LockKeepsMover(s, t); } else { PublishKeepsMover(s, t); }
    hide Ready, CallOK, AdvanceRegister;
  }

  lemma CheckKeepsAgent(s: State, t: Call, b: AgentId)
    requires Ready(s, t) && (s.calls[t].RegLock? || s.calls[t].RegCheck?) && b < |s.agents| && AgentOK(s, b)
    ensures AgentOK(AdvanceRegister(s, t, s.calls[t]), b)
  {
    hide SharedOK;
  }

  lemma PublishKeepsAgent(s: State, t: Call, b: AgentId)
    requires Ready(s, t) && s.calls[t].RegPublish? && b < |s.agents| && AgentOK(s, b)
    ensures AgentOK(AdvanceRegister(s, t, s.calls[t]), b)
  {
    hide SharedOK;
  }

  lemma UnlockKeepsAgent(s: State, t: Call, b: AgentId)
    requires Ready(s, t) && s.calls[t].RegUnlock? && b < |s.agents| && AgentOK(s, b)
    ensures AgentOK(AdvanceRegister(s, t, s.calls[t]), b)
  {
    hide SharedOK;
    if s.calls[t].handle == Some(b) {
      assert s.agents[b].bound && !s.agents[b].handedOut;
      hide CallOK, Runnable;
    } else {
      hide CallOK, Runnable;
    }
  }

  lemma RegisterKeepsAgent(s: State, t: Call, b: AgentId)
    requires Ready(s, t) && InRegister(s.calls[t])
    requires b < |s.agents| ==> AgentOK(s, b)
    ensures var n := AdvanceRegister(s, t, s.calls[t]); b < |n.agents| ==> AgentOK(n, b)
  {
    if b < |s.agents| {
      hide SharedOK, CallOK, AgentOK, Runnable;
      if s.calls[t].RegPublish? { PublishKeepsAgent(s, t, b); }
      else if s.calls[t].RegUnlock? { UnlockKeepsAgent(s, t, b); }
      else { CheckKeepsAgent(s, t, b); }
    }
  }

  lemma NewAgentGuarantee(s: State, t: Call, ok: bool)
    requires Ready(s, t) && InNewAgent(s.calls[t])
    ensures Guarantee(s, AdvanceNewAgent(s, t, s.calls[t], ok), t)
  {
    hide SharedOK;
  }

  lemma NewAgentKeepsShared(s: State, t: Call, ok: bool)
    requires Ready(s, t) && InNewAgent(s.calls[t])
    ensures SharedOK(AdvanceNewAgent(s, t, s.calls[t], ok))
  {
  }

  lemma ExportKeepsMover(s: State, t: Call, ok: bool)
    requires Ready(s, t) && (s.calls[t].RegExport? || s.calls[t].RegManager?)
    ensures var n := AdvanceNewAgent(s, t, s.calls[t], ok); t in n.calls ==> CallOK(n, t)
  {
    hide SharedOK;
  }

  lemma BindKeepsMover(s: State, t: Call, ok: bool)
    requires Ready(s, t) && InNewAgent(s.calls[t]) && !s.calls[t].RegExport? && !s.calls[t].RegManager?
    ensures var n := AdvanceNewAgent(s, t, s.calls[t], ok); t in n.calls ==> CallOK(n, t)
  {
    hide SharedOK;
  }

  lemma NewAgentKeepsMover(s: State, t: Call, ok: bool)
    requires Ready(s, t) && InNewAgent(s.calls[t])
    ensures var n := AdvanceNewAgent(s, t, s.calls[t], ok); t in n.calls ==> CallOK(n, t)
  {
    if s.calls[t].RegExport? || s.calls[t].RegManager? { ExportKeepsMover(s, t, ok); } else { BindKeepsMover(s, t, ok); }
    hide Ready, CallOK, AdvanceNewAgent;
  }

  lemma NewAgentKeepsAgent(s: State, t: Call, ok: bool, b: AgentId)
    requires Ready(s, t) && InNewAgent(s.calls[t])
    requires b < |s.agents| ==> AgentOK(s, b)
    ensures var n := AdvanceNewAgent(s, t, s.calls[t], ok); b < |n.agents| ==> AgentOK(n, b)
  {
    hide SharedOK;
  }

  /** A step that leaves Close's fields alone and at most empties the slot keeps the shared part. */
  lemma SharedFrame(s: State, n: State, t: Call)
    requires Ready(s, t) && Guarantee(s, n, t)
    requires if t in n.calls then CallOK(n, t) else n.closeMu != Some(t) && n.closeOnce != Running(t)
    requires n.closed == s.closed && n.taken == s.taken && n.cleanups == s.cleanups
    requires n.results == s.results && n.closeFailed == s.closeFailed
    requires n.closeOnce == s.closeOnce && (n.slot == s.slot || n.slot.None?)
    ensures SharedOK(n)
  {
  }

  lemma FlagGuarantee(s: State, t: Call, ok: bool)
    requires Ready(s, t) && s.calls[t].UnregFlag?
    requires AgentOK(s, s.calls[t].a)
    ensures Guarantee(s, AdvanceCore(s, t, s.calls[t], ok), t)
  {
    hide SharedOK;
  }

  lemma FlagKeepsMover(s: State, t: Call, ok: bool)
    requires Ready(s, t) && s.calls[t].UnregFlag?
    requires AgentOK(s, s.calls[t].a)
    ensures var n := AdvanceCore(s, t, s.calls[t], ok); if t in n.calls then CallOK(n, t) else n.closeMu != Some(t) && n.closeOnce != Running(t)
  {
    hide SharedOK;
  }

  lemma FlagKeepsAgent(s: State, t: Call, ok: bool, b: AgentId)
    requires Ready(s, t) && s.calls[t].UnregFlag? && b < |s.agents| && AgentOK(s, b)
    ensures AgentOK(AdvanceCore(s, t, s.calls[t], ok), b)
  {
    hide SharedOK;
    var a := s.calls[t].a;
    assert s.agents[a].bound;
    hide CallOK, Runnable;
    if a == b && s.agents[a].registered {
    } else if s.agents[a].registered {
    } else {
    }
  }

  lemma TeardownGuarantee(s: State, t: Call, ok: bool)
    requires Ready(s, t) && (s.calls[t].UnregDaemon? || s.calls[t].UnregExport?)
    ensures Guarantee(s, AdvanceCore(s, t, s.calls[t], ok), t)
  {
    hide SharedOK;
  }

  lemma TeardownKeepsMover(s: State, t: Call, ok: bool)
    requires Ready(s, t) && (s.calls[t].UnregDaemon? || s.calls[t].UnregExport?)
    ensures var n := AdvanceCore(s, t, s.calls[t], ok); if t in n.calls then CallOK(n, t) else n.closeMu != Some(t) && n.closeOnce != Running(t)
  {
    hide SharedOK;
  }

  lemma TeardownKeepsAgent(s: State, t: Call, ok: bool, b: AgentId)
    requires Ready(s, t) && (s.calls[t].UnregDaemon? || s.calls[t].UnregExport?) && b < |s.agents| && AgentOK(s, b)
    ensures AgentOK(AdvanceCore(s, t, s.calls[t], ok), b)
  {
    hide SharedOK;
  }

  lemma EnterGuarantee(s: State, t: Call)
    requires Ready(s, t) && (s.calls[t].ClearOnce? || s.calls[t].ClearLock?)
    ensures Guarantee(s, AdvanceClear(s, t, s.calls[t]), t)
  {
    hide SharedOK;
  }

  lemma EnterKeepsMover(s: State, t: Call)
    requires Ready(s, t) && (s.calls[t].ClearOnce? || s.calls[t].ClearLock?)
    ensures var n := AdvanceClear(s, t, s.calls[t]); if t in n.calls then CallOK(n, t) else n.closeMu != Some(t) && n.closeOnce != Running(t)
  {
    hide SharedOK;
  }

  lemma ClearSkipKeepsAgent(s: State, t: Call, b: AgentId)
    requires Ready(s, t) && s.calls[t].ClearOnce? && b < |s.agents| && AgentOK(s, b)
    requires s.agents[s.calls[t].a].clear.Done?
    ensures AgentOK(AdvanceClear(s, t, s.calls[t]), b)
  {
    hide SharedOK;
  }

  lemma ClearEnterKeepsAgent(s: State, t: Call, b: AgentId)
    requires Ready(s, t) && s.calls[t].ClearOnce? && b < |s.agents| && AgentOK(s, b)
    requires !s.agents[s.calls[t].a].clear.Done?
    ensures AgentOK(AdvanceClear(s, t, s.calls[t]), b)
  {
    hide SharedOK;
  }

  lemma ClearOnceKeepsAgent(s: State, t: Call, b: AgentId)
    requires Ready(s, t) && s.calls[t].ClearOnce? && b < |s.agents| && AgentOK(s, b)
    ensures AgentOK(AdvanceClear(s, t, s.calls[t]), b)
  {
    hide SharedOK;
    if s.agents[s.calls[t].a].clear.Done? { ClearSkipKeepsAgent(s, t, b); } else { ClearEnterKeepsAgent(s, t, b); }
    hide AgentOK, AdvanceClear;
  }

  lemma ClearLockKeepsAgent(s: State, t: Call, b: AgentId)
    requires Ready(s, t) && s.calls[t].ClearLock? && b < |s.agents| && AgentOK(s, b)
    ensures AgentOK(AdvanceClear(s, t, s.calls[t]), b)
  {
    hide SharedOK;
  }

  lemma EnterKeepsAgent(s: State, t: Call, b: AgentId)
    requires Ready(s, t) && (s.calls[t].ClearOnce? || s.calls[t].ClearLock?) && b < |s.agents| && AgentOK(s, b)
    ensures AgentOK(AdvanceClear(s, t, s.calls[t]), b)
  {
    hide SharedOK, CallOK, AgentOK, AdvanceClear, Runnable;
    if s.calls[t].ClearOnce? { ClearOnceKeepsAgent(s, t, b); } else { ClearLockKeepsAgent(s, t, b); }
  }

  lemma LeaveGuarantee(s: State, t: Call)
    requires Ready(s, t) && (s.calls[t].ClearSlot? || s.calls[t].ClearUnlock? || s.calls[t].ClearDone?)
    ensures Guarantee(s, AdvanceClear(s, t, s.calls[t]), t)
  {
    hide SharedOK;
  }

  lemma LeaveKeepsMover(s: State, t: Call)
    requires Ready(s, t) && (s.calls[t].ClearSlot? || s.calls[t].ClearUnlock? || s.calls[t].ClearDone?)
    ensures var n := AdvanceClear(s, t, s.calls[t]); if t in n.calls then CallOK(n, t) else n.closeMu != Some(t) && n.closeOnce != Running(t)
  {
    hide SharedOK;
  }

  lemma LeaveKeepsAgent(s: State, t: Call, b: AgentId)
    requires Ready(s, t) && (s.calls[t].ClearSlot? || s.calls[t].ClearUnlock? || s.calls[t].ClearDone?) && b < |s.agents| && AgentOK(s, b)
    ensures AgentOK(AdvanceClear(s, t, s.calls[t]), b)
  {
    hide SharedOK;
  }

  lemma CoreKeepsShared(s: State, t: Call, ok: bool)
    requires Ready(s, t) && InCore(s.calls[t]) && AgentOK(s, s.calls[t].a)
    ensures SharedOK(AdvanceCore(s, t, s.calls[t], ok))
  {
    hide Guarantee, AgentOK, SharedOK;
    if s.calls[t].UnregFlag? {
      FlagGuarantee(s, t, ok);
      FlagKeepsMover(s, t, ok);
    } else {
      TeardownGuarantee(s, t, ok);
      TeardownKeepsMover(s, t, ok);
    }
    SharedFrame(s, AdvanceCore(s, t, s.calls[t], ok), t);
  }

  lemma ClearKeepsShared(s: State, t: Call)
    requires Ready(s, t) && InClear(s.calls[t])
    ensures SharedOK(AdvanceClear(s, t, s.calls[t]))
  {
    hide Guarantee, AgentOK, SharedOK;
    if s.calls[t].ClearOnce? || s.calls[t].ClearLock? {
      EnterGuarantee(s, t);
      EnterKeepsMover(s, t);
    } else {
      LeaveGuarantee(s, t);
      LeaveKeepsMover(s, t);
    }
    SharedFrame(s, AdvanceClear(s, t, s.calls[t]), t);
  }

  lemma CloseGuarantee(s: State, t: Call, ok: bool)
    requires Ready(s, t) && InClose(s.calls[t])
    ensures Guarantee(s, AdvanceClose(s, t, s.calls[t], ok), t)
  {
    hide SharedOK;
  }

  lemma CloseBeginningKeepsShared(s: State, t: Call, ok: bool)
    requires Ready(s, t) && (s.calls[t].CloseOnce? || s.calls[t].CloseLock? || s.calls[t].CloseTake?)
    ensures SharedOK(AdvanceClose(s, t, s.calls[t], ok))
  {
  }

  lemma CloseEndKeepsShared(s: State, t: Call, ok: bool)
    requires Ready(s, t) && (s.calls[t].CloseUnlock? || s.calls[t].CloseCleanup? || s.calls[t].CloseLeave?)
    ensures SharedOK(AdvanceClose(s, t, s.calls[t], ok))
  {
  }

  lemma CloseKeepsShared(s: State, t: Call, ok: bool)
    requires Ready(s, t) && InClose(s.calls[t])
    ensures SharedOK(AdvanceClose(s, t, s.calls[t], ok))
  {
    var pc := s.calls[t];
    hide SharedOK, CallOK, AdvanceClose, Runnable;
    if pc.CloseOnce? || pc.CloseLock? || pc.CloseTake? { CloseBeginningKeepsShared(s, t, ok); } else { CloseEndKeepsShared(s, t, ok); }
  }

  lemma CloseKeepsMover(s: State, t: Call, ok: bool)
    requires Ready(s, t) && InClose(s.calls[t])
    ensures var n := AdvanceClose(s, t, s.calls[t], ok); t in n.calls ==> CallOK(n, t)
  {
    hide ResultsAgree;
  }

  lemma CloseTakeKeepsAgent(s: State, t: Call, ok: bool, b: AgentId)
    requires Ready(s, t) && s.calls[t].CloseTake? && b < |s.agents| && AgentOK(s, b)
    ensures AgentOK(AdvanceClose(s, t, s.calls[t], ok), b)
  {
    hide SharedOK;
  }

  lemma CloseRestKeepsAgent(s: State, t: Call, ok: bool, b: AgentId)
    requires Ready(s, t) && InClose(s.calls[t]) && !s.calls[t].CloseTake? && b < |s.agents| && AgentOK(s, b)
    ensures AgentOK(AdvanceClose(s, t, s.calls[t], ok), b)
  {
    hide SharedOK;
    match s.calls[t]
    case CloseOnce =>
    case CloseLock =>
    case CloseUnlock(_) =>
    case CloseCleanup =>
    case _ =>
  }

  lemma CloseKeepsAgent(s: State, t: Call, ok: bool, b: AgentId)
    requires Ready(s, t) && InClose(s.calls[t])
    requires b < |s.agents| ==> AgentOK(s, b)
    ensures var n := AdvanceClose(s, t, s.calls[t], ok); b < |n.agents| ==> AgentOK(n, b)
  {
    if b < |s.agents| {
      hide SharedOK, CallOK, AgentOK, Runnable;
      if s.calls[t].CloseTake? { CloseTakeKeepsAgent(s, t, ok, b); } else { CloseRestKeepsAgent(s, t, ok, b); }
    }
  }

  // ---------- every step keeps the invariant ----------

  lemma MoveGuarantee(s: State, t: Call, ok: bool)
    requires Inv(s) && t in s.calls && AgentsInRange(s.calls[t], |s.agents|) && Runnable(s, s.calls[t])
    ensures Guarantee(s, Move(s, t, s.calls[t], ok), t)
  {
    hide Guarantee, AgentOK, SharedOK, Runnable, AdvanceRegister, AdvanceNewAgent, AdvanceCore, AdvanceClear, AdvanceClose;
    var pc := s.calls[t];
    assert CallOK(s, t);
    if InRegister(pc) { RegisterGuarantee(s, t); }
    else if InNewAgent(pc) { NewAgentGuarantee(s, t, ok); }
    else if pc.UnregFlag? { FlagGuarantee(s, t, ok); }
    else if InCore(pc) { TeardownGuarantee(s, t, ok); }
    else if pc.ClearOnce? || pc.ClearLock? { EnterGuarantee(s, t); }
    else if InClear(pc) { LeaveGuarantee(s, t); }
    else { CloseGuarantee(s, t, ok); }
  }

  lemma MoveKeepsShared(s: State, t: Call, ok: bool)
    requires Inv(s) && t in s.calls && AgentsInRange(s.calls[t], |s.agents|) && Runnable(s, s.calls[t])
    ensures SharedOK(Move(s, t, s.calls[t], ok))
  {
    hide Guarantee, AgentOK, SharedOK, Runnable, AdvanceRegister, AdvanceNewAgent, AdvanceCore, AdvanceClear, AdvanceClose;
    var pc := s.calls[t];
    assert CallOK(s, t);
    if InRegister(pc) { RegisterKeepsShared(s, t); }
    else if InNewAgent(pc) { NewAgentKeepsShared(s, t, ok); }
    else if InCore(pc) { CoreKeepsShared(s, t, ok); }
    else if InClear(pc) { ClearKeepsShared(s, t); }
    else { CloseKeepsShared(s, t, ok); }
  }

  lemma MoveKeepsMover(s: State, t: Call, ok: bool)
    requires Inv(s) && t in s.calls && AgentsInRange(s.calls[t], |s.agents|) && Runnable(s, s.calls[t])
    ensures var n := Move(s, t, s.calls[t], ok); t in n.calls ==> CallOK(n, t)
  {
    hide Guarantee, AgentOK, SharedOK, Runnable, AdvanceRegister, AdvanceNewAgent, AdvanceCore, AdvanceClear, AdvanceClose;
    var pc := s.calls[t];
    assert CallOK(s, t);
    if InRegister(pc) { RegisterKeepsMover(s, t); }
    else if InNewAgent(pc) { NewAgentKeepsMover(s, t, ok); }
    else if pc.UnregFlag? { FlagKeepsMover(s, t, ok); }
    else if InCore(pc) { TeardownKeepsMover(s, t, ok); }
    else if pc.ClearOnce? || pc.ClearLock? { EnterKeepsMover(s, t); }
    else if InClear(pc) { LeaveKeepsMover(s, t); }
    else { CloseKeepsMover(s, t, ok); }
  }

  lemma MoveKeepsAgent(s: State, t: Call, ok: bool, b: AgentId)
    requires Inv(s) && t in s.calls && AgentsInRange(s.calls[t], |s.agents|) && Runnable(s, s.calls[t])
    requires b < |Move(s, t, s.calls[t], ok).agents|
    ensures AgentOK(Move(s, t, s.calls[t], ok), b)
  {
    hide Guarantee, AgentOK, SharedOK, Runnable, AdvanceNewAgent, AdvanceClose, AdvanceRegister;
    var pc := s.calls[t];
    assert CallOK(s, t);
    if InRegister(pc) { RegisterKeepsAgent(s, t, b); }
    else if InNewAgent(pc) { NewAgentKeepsAgent(s, t, ok, b); }
    else if pc.UnregFlag? { FlagKeepsAgent(s, t, ok, b); }
    else if InCore(pc) { TeardownKeepsAgent(s, t, ok, b); }
    else if pc.ClearOnce? || pc.ClearLock? { EnterKeepsAgent(s, t, b); }
    else if InClear(pc) { LeaveKeepsAgent(s, t, b); }
    else { CloseKeepsAgent(s, t, ok, b); }
  }

  lemma MoveKeepsInv(s: State, t: Call, ok: bool)
    requires Inv(s) && t in s.calls && AgentsInRange(s.calls[t], |s.agents|) && Runnable(s, s.calls[t])
    ensures Inv(Move(s, t, s.calls[t], ok))
  {
    hide AgentOK, SharedOK, CallOK, Runnable, Move;
    var n := Move(s, t, s.calls[t], ok);
    MoveGuarantee(s, t, ok);
    MoveKeepsShared(s, t, ok);
    forall u | u in n.calls ensures CallOK(n, u) {
      if u == t { MoveKeepsMover(s, t, ok); } else { OthersRely(s, n, t, u); }
    }
    forall b | 0 <= b < |n.agents| ensures AgentOK(n, b) {
      MoveKeepsAgent(s, t, ok, b);
    }
  }

  /** A call that has just begun holds nothing and waits for nothing. */
  predicate Beginning(s: State, pc: PC) {
    pc.RegLock? || pc.CloseOnce? || (pc.UnregFlag? && !pc.inClose && pc.a < |s.agents| && s.agents[pc.a].bound && s.agents[pc.a].handedOut)
  }

  lemma NewcomerOK(s: State, t: Call, pc: PC)
    requires SharedOK(s) && t !in s.calls && Beginning(s, pc)
    ensures CallOK(At(s, t, pc), t) && SharedOK(At(s, t, pc))
  {
  }

  lemma NewcomerDisturbsNobody(s: State, t: Call, pc: PC, u: Call)
    requires t !in s.calls && u in s.calls && CallOK(s, u)
    ensures CallOK(At(s, t, pc), u)
  {
  }

  lemma NewcomerDisturbsNoAgent(s: State, t: Call, pc: PC, b: AgentId)
    requires SharedOK(s) && t !in s.calls && b < |s.agents| && AgentOK(s, b)
    ensures AgentOK(At(s, t, pc), b)
  {
  }

  lemma CallKeepsInv(s: State, t: Call, pc: PC)
    requires Inv(s) && t !in s.calls
    requires pc.RegLock? || pc.CloseOnce? || (pc.UnregFlag? && !pc.inClose && pc.a < |s.agents| && s.agents[pc.a].handedOut)
    ensures Inv(At(s, t, pc))
  {
    hide SharedOK, CallOK;
    if pc.UnregFlag? { assert AgentOK(s, pc.a); }
    hide AgentOK;
    NewcomerOK(s, t, pc);
    var n := At(s, t, pc);
    forall u | u in n.calls ensures CallOK(n, u) {
      if u != t { NewcomerDisturbsNobody(s, t, pc, u); }
    }
    forall b | 0 <= b < |n.agents| ensures AgentOK(n, b) {
      NewcomerDisturbsNoAgent(s, t, pc, b);
    }
  }

  lemma DaemonIsApart(s: State, d: Option<Entry>)
    requires Inv(s)
    ensures Inv(s.(daemon := d))
  {
    var n := s.(daemon := d);
    forall u | u in n.calls ensures CallOK(n, u) { assert CallOK(s, u); }
    forall b | 0 <= b < |n.agents| ensures AgentOK(n, b) { assert AgentOK(s, b); }
  }

  lemma StepKeepsInv(r: Regime, s: State, step: Step)
    requires Inv(s) && Enabled(r, s, step)
    ensures Inv(Apply(r, s, step))
  {
    hide Inv, Move, Runnable, At;
    match step
    case CallRegister(t) => CallKeepsInv(s, t, RegLock);
    case CallUnregister(t, a) => CallKeepsInv(s, t, UnregFlag(a, false));
    case CallClose(t) => CallKeepsInv(s, t, CloseOnce);
    case Advance(t, ok) => MoveKeepsInv(s, t, ok);
    case OtherRegister(e) => DaemonIsApart(s, DaemonRegister(s.daemon, e).0);
    case OtherUnregister(sender, path) => DaemonIsApart(s, DaemonUnregister(s.daemon, sender, path).0);
  }

  lemma {:induction false} RunKeepsInv(r: Regime, s: State, run: seq<Step>)
    requires Inv(s) && IsRun(r, s, run)
    ensures Inv(Exec(r, s, run))
    decreases |run|
  {
    hide Inv, Enabled, Apply;
    if run != [] {
      StepKeepsInv(r, s, run[0]);
      RunKeepsInv(r, Apply(r, s, run[0]), run[1..]);
    }
  }
}

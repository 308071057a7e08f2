/**
 * The client's export table against the daemon's registry: the daemon only knows agents that are
 * exported, exactly when callers do not overlap Unregister on one handle and no UnregisterAgent fails.
 */
module AgentTie {
  import opened Common
  import opened AgentLifecycle
  import opened AgentTeardown

  predicate Mine(d: Option<Entry>) {
    d.Some? && d.value.sender == ME
  }

  function EntryOf(a: AgentId): Option<Entry> {
    Some(Entry(ME, AGENT_PATH, a))
  }

  /** A daemon registration for this client implies that the same agent is exported at its path. */
  predicate Tied(s: State) {
    Mine(s.daemon) ==> s.daemon.value.path == AGENT_PATH && s.exported == Some(s.daemon.value.origin)
  }

  // ---------- which calls touch the export table or the daemon ----------

  /** The call is between the checks of RegisterAgent and the slot, or between the flag and the unexport. */
  predicate Busy(pc: PC) {
    Registering(pc) || pc.UnregDaemon? || pc.UnregExport?
  }

  /** What a step of a call that is not busy leaves alone. */
  predicate QuietStep(s: State, n: State, t: Call) {
    && n.daemon == s.daemon && n.exported == s.exported && |n.agents| == |s.agents|
    && (t in n.calls ==> !n.calls[t].RegBind?)
    && (forall a | 0 <= a < |s.agents| :: QuietAgent(n, t, s.agents[a], a))
  }

  /** The flag is only taken down, by a call that then goes to the daemon. */
  predicate QuietAgent(n: State, t: Call, g: Agent, a: AgentId)
    requires a < |n.agents|
  {
    var h := n.agents[a];
    h.bound == g.bound && h.unexports == g.unexports
    && if h.registered == g.registered then h.taker == g.taker
       else g.registered && h.taker == Some(t) && t in n.calls && n.calls[t].UnregDaemon? && n.calls[t].a == a
  }

  lemma QuietRegister(s: State, t: Call)
    requires t in s.calls && AgentsInRange(s.calls[t], |s.agents|) && InRegister(s.calls[t])
    ensures QuietStep(s, AdvanceRegister(s, t, s.calls[t]), t)
  {
  }

  lemma QuietFlag(s: State, t: Call, ok: bool)
    requires t in s.calls && AgentsInRange(s.calls[t], |s.agents|) && s.calls[t].UnregFlag?
    requires s.agents[s.calls[t].a].registered ==> s.agents[s.calls[t].a].taker.None?
    ensures QuietStep(s, AdvanceCore(s, t, s.calls[t], ok), t)
  {
  }

  lemma QuietClear(s: State, t: Call)
    requires t in s.calls && AgentsInRange(s.calls[t], |s.agents|) && InClear(s.calls[t])
    ensures QuietStep(s, AdvanceClear(s, t, s.calls[t]), t)
  {
  }

  lemma QuietClose(s: State, t: Call, ok: bool)
    requires t in s.calls && AgentsInRange(s.calls[t], |s.agents|) && InClose(s.calls[t])
    ensures QuietStep(s, AdvanceClose(s, t, s.calls[t], ok), t)
  {
  }

  lemma QuietMove(s: State, t: Call, ok: bool)
    requires t in s.calls && AgentsInRange(s.calls[t], |s.agents|)
    requires !Busy(s.calls[t]) || s.calls[t].RegPublish?
    requires s.calls[t].UnregFlag? ==> AgentOK(s, s.calls[t].a)
    ensures QuietStep(s, Move(s, t, s.calls[t], ok), t)
  {
    hide QuietStep, AdvanceRegister, AdvanceNewAgent, AdvanceCore, AdvanceClear, AdvanceClose;
    var pc := s.calls[t];
    if InRegister(pc) { QuietRegister(s, t); }
    else if pc.UnregFlag? { QuietFlag(s, t, ok); }
    else if InClear(pc) { QuietClear(s, t); }
    else { QuietClose(s, t, ok); }
  }

  // ---------- what holds whatever the environment does ----------

  /** Who is exported was not unexported; who is registered with the daemon is bound or about to be. */
  ghost predicate Books(r: Regime, s: State) {
    && (s.exported.Some? ==> s.exported.value < |s.agents| && (r.unexportWorks ==> s.agents[s.exported.value].unexports == 0))
    && (Mine(s.daemon) ==> Entered(s, s.daemon.value.origin))
  }

  ghost predicate Entered(s: State, a: AgentId) {
    a < |s.agents| && (s.agents[a].bound || AboutToBind(s, a))
  }

  ghost predicate AboutToBind(s: State, a: AgentId) {
    s.closeMu.Some? && s.closeMu.value in s.calls && s.calls[s.closeMu.value] == RegBind(a)
  }

  lemma QuietKeepsBooks(r: Regime, s: State, n: State, t: Call)
    requires Books(r, s) && QuietStep(s, n, t) && Guarantee(s, n, t)
    requires t in s.calls && !s.calls[t].RegBind?
    ensures Books(r, n)
  {
  }

  lemma NewAgentKeepsBooks(r: Regime, s: State, t: Call, ok: bool)
    requires Ready(s, t) && Books(r, s) && InNewAgent(s.calls[t])
    requires s.calls[t].RegRollback? && r.unexportWorks ==> ok
    ensures Books(r, AdvanceNewAgent(s, t, s.calls[t], ok))
  {
  }

  lemma TeardownKeepsBooks(r: Regime, s: State, t: Call, ok: bool)
    requires Ready(s, t) && Books(r, s) && (s.calls[t].UnregDaemon? || s.calls[t].UnregExport?)
    requires s.calls[t].UnregExport? && r.unexportWorks ==> ok
    ensures Books(r, AdvanceCore(s, t, s.calls[t], ok))
  {
  }

  lemma MoveKeepsBooks(r: Regime, s: State, t: Call, ok: bool)
    requires Inv(s) && Books(r, s) && Enabled(r, s, Advance(t, ok))
    ensures Books(r, Move(s, t, s.calls[t], ok))
  {
    assert CallOK(s, t);
    hide SharedOK, CallOK, AgentOK, QuietStep, Guarantee, AdvanceRegister, AdvanceNewAgent, AdvanceCore, AdvanceClear, AdvanceClose, Books, Runnable;
    var pc := s.calls[t];
    if InNewAgent(pc) { NewAgentKeepsBooks(r, s, t, ok); }
    else if pc.UnregDaemon? || pc.UnregExport? { TeardownKeepsBooks(r, s, t, ok); }
    else {
      QuietMove(s, t, ok);
      MoveGuarantee(s, t, ok);
      QuietKeepsBooks(r, s, Move(s, t, pc, ok), t);
    }
  }

  // ---------- what holds when Unregister calls do not overlap and UnregisterAgent works ----------

  ghost predicate NoOverlap(s: State) {
    forall t, u, a | t in s.calls && u in s.calls :: UserUnregisters(s.calls[t], a) && UserUnregisters(s.calls[u], a) ==> t == u
  }

  /** The agent a teardown is about is still the one the slot or Close answers for. */
  predicate StillOurs(s: State, a: AgentId) {
    s.slot == Some(a) || s.taken == Some(a)
  }

  predicate TieCall(s: State, pc: PC) {
    match pc
    case RegExport => !Mine(s.daemon)
    case RegManager(a) => s.exported == Some(a) && !Mine(s.daemon)
    case RegDaemon(a) => s.exported == Some(a) && !Mine(s.daemon)
    case RegRollback(a) => s.exported == Some(a) && !Mine(s.daemon)
    case RegBind(a) => s.exported == Some(a) && s.daemon == EntryOf(a)
    case UnregDaemon(a, _) => StillOurs(s, a) && s.exported == Some(a) && s.daemon == EntryOf(a)
    case UnregExport(a, _) => StillOurs(s, a) && !Mine(s.daemon)
    case _ => true
  }

  predicate TieAgent(s: State, a: AgentId)
    requires a < |s.agents|
  {
    s.agents[a].registered ==> s.exported == Some(a) && s.daemon == EntryOf(a)
  }

  /** An agent the daemon may know: bound and not yet taken off it, or accepted and not yet bound. */
  ghost predicate Live(s: State, a: AgentId) {
    || (a < |s.agents| && s.agents[a].registered)
    || AboutToBind(s, a)
    || (a < |s.agents| && s.agents[a].taker.Some? && s.agents[a].taker.value in s.calls
        && s.calls[s.agents[a].taker.value].UnregDaemon? && s.calls[s.agents[a].taker.value].a == a)
  }

  ghost predicate TieDaemon(s: State) {
    Mine(s.daemon) ==> s.daemon == EntryOf(s.daemon.value.origin) && s.exported == Some(s.daemon.value.origin) && Live(s, s.daemon.value.origin)
  }

  ghost predicate Tie(s: State) {
    && Inv(s) && NoOverlap(s) && TieDaemon(s)
    && (forall t :: t in s.calls ==> TieCall(s, s.calls[t]))
    && (forall a :: 0 <= a < |s.agents| ==> TieAgent(s, a))
  }

  /** At most one call is busy. */
  lemma OneBusyCall(s: State, t: Call, u: Call)
    requires Inv(s) && t in s.calls && u in s.calls && Busy(s.calls[t]) && Busy(s.calls[u])
    requires TieCall(s, s.calls[t]) && TieCall(s, s.calls[u])
    ensures t == u
  {
    assert CallOK(s, t) && CallOK(s, u);
  }

  /** While a call is busy no flag is up, but for the agent it is about to publish. */
  lemma BusyExcludesRegistered(s: State, t: Call, b: AgentId)
    requires Inv(s) && t in s.calls && Busy(s.calls[t]) && TieCall(s, s.calls[t])
    requires b < |s.agents| && s.agents[b].registered
    ensures s.calls[t] == RegPublish(b)
  {
    assert CallOK(s, t) && AgentOK(s, b);
    if s.closeMu.Some? { assert CallOK(s, s.closeMu.value); }
  }

  // -- steps of a call that is not busy

  lemma QuietKeepsTieAgent(s: State, n: State, t: Call, b: AgentId)
    requires QuietStep(s, n, t) && b < |s.agents| && TieAgent(s, b)
    ensures TieAgent(n, b)
  {
  }

  lemma QuietKeepsTieDaemon(s: State, n: State, t: Call)
    requires t in s.calls && QuietStep(s, n, t) && Guarantee(s, n, t) && TieDaemon(s)
    requires !s.calls[t].RegBind? && !s.calls[t].UnregDaemon?
    ensures TieDaemon(n)
  {
  }

  /** How a step may change the slot and what Close took from it. */
  predicate SlotStep(s: State, n: State, pc: PC) {
    if pc.RegPublish? then n.taken == s.taken
    else if pc.ClearSlot? then n.taken == s.taken && (n.slot == s.slot || s.slot == Some(pc.a))
    else if pc.CloseTake? then n.taken == s.slot
    else n.slot == s.slot && n.taken == s.taken
  }

  lemma MovesSlot(s: State, t: Call, ok: bool)
    requires t in s.calls && AgentsInRange(s.calls[t], |s.agents|)
    ensures SlotStep(s, Move(s, t, s.calls[t], ok), s.calls[t])
  {
  }

  lemma StaysOurs(s: State, n: State, t: Call, u: Call, a: AgentId)
    requires Inv(s) && NoOverlap(s) && t in s.calls && u in s.calls && t != u
    requires SlotStep(s, n, s.calls[t]) && !s.calls[t].RegPublish?
    requires InUnregister(s.calls[u]) && s.calls[u].a == a && StillOurs(s, a)
    ensures StillOurs(n, a)
  {
    assert CallOK(s, t) && CallOK(s, u);
    if s.calls[t].ClearSlot? && s.calls[t].a == a && !s.calls[t].inClose && !s.calls[u].inClose {
      assert UserUnregisters(s.calls[t], a) && UserUnregisters(s.calls[u], a);
    }
  }

  lemma QuietKeepsTieCall(s: State, n: State, t: Call, u: Call)
    requires Inv(s) && NoOverlap(s) && t in s.calls && u in s.calls && t != u
    requires SlotStep(s, n, s.calls[t]) && !s.calls[t].RegPublish? && QuietStep(s, n, t)
    requires TieCall(s, s.calls[u])
    ensures TieCall(n, s.calls[u])
  {
    if s.calls[u].UnregDaemon? || s.calls[u].UnregExport? { StaysOurs(s, n, t, u, s.calls[u].a); }
    hide Inv, SlotStep, NoOverlap, StillOurs;
  }

  /** An agent the daemon may know is in the slot, with Close, or with the RegisterAgent that made it. */
  lemma LiveIsSpokenFor(s: State, c: AgentId)
    requires Tie(s) && Live(s, c)
    ensures StillOurs(s, c) || (s.closeMu.Some? && s.closeMu.value in s.calls && Registering(s.calls[s.closeMu.value]))
  {
    if c < |s.agents| { assert AgentOK(s, c); }
  }

  /** RegisterAgent finds the slot free only when the daemon holds nothing of this client. */
  lemma FreeSlotMeansNoEntry(s: State, t: Call)
    requires Tie(s) && t in s.calls && s.calls[t].RegCheck? && !s.closed && s.slot.None?
    ensures !Mine(s.daemon)
  {
    assert CallOK(s, t);
    if Mine(s.daemon) { LiveIsSpokenFor(s, s.daemon.value.origin); }
  }

  /** A flag that an Unregister finds up belongs to the agent in the slot or taken by Close. */
  lemma FlagUpMeansOurs(s: State, t: Call)
    requires Inv(s) && t in s.calls && s.calls[t].UnregFlag? && AgentsInRange(s.calls[t], |s.agents|)
    requires s.agents[s.calls[t].a].registered
    ensures StillOurs(s, s.calls[t].a)
  {
    assert CallOK(s, t) && AgentOK(s, s.calls[t].a);
    if s.closeMu.Some? { assert CallOK(s, s.closeMu.value); }
  }

  // -- where a quiet step leads

  lemma QuietRegisterLandsIdle(s: State, t: Call)
    requires t in s.calls && AgentsInRange(s.calls[t], |s.agents|) && InRegister(s.calls[t])
    ensures var n := AdvanceRegister(s, t, s.calls[t]);
      t in n.calls ==> !Busy(n.calls[t]) || (n.calls[t].RegExport? && s.calls[t].RegCheck? && !s.closed && s.slot.None?)
  {
  }

  lemma QuietUnregisterLandsIdle(s: State, t: Call, ok: bool)
    requires t in s.calls && AgentsInRange(s.calls[t], |s.agents|)
    ensures InClear(s.calls[t]) ==> var n := AdvanceClear(s, t, s.calls[t]); t in n.calls ==> !Busy(n.calls[t])
    ensures s.calls[t].UnregFlag? ==> t in AdvanceCore(s, t, s.calls[t], ok).calls
    ensures s.calls[t].UnregFlag? ==>
      var pc := AdvanceCore(s, t, s.calls[t], ok).calls[t];
      !Busy(pc) || (s.agents[s.calls[t].a].registered && pc == UnregDaemon(s.calls[t].a, s.calls[t].inClose))
  {
  }

  lemma QuietCloseLandsIdle(s: State, t: Call, ok: bool)
    requires t in s.calls && AgentsInRange(s.calls[t], |s.agents|) && InClose(s.calls[t])
    ensures var n := AdvanceClose(s, t, s.calls[t], ok); t in n.calls ==> !Busy(n.calls[t])
  {
  }

  lemma QuietMoverTie(s: State, t: Call, ok: bool)
    requires Tie(s) && t in s.calls && AgentsInRange(s.calls[t], |s.agents|) && (!Busy(s.calls[t]) || s.calls[t].RegPublish?)
    ensures var n := Move(s, t, s.calls[t], ok); t in n.calls ==> TieCall(n, n.calls[t])
  {
    var pc := s.calls[t];
    var n := Move(s, t, pc, ok);
    if pc.UnregFlag? { assert AgentOK(s, pc.a); }
    MovesSlot(s, t, ok);
    QuietMove(s, t, ok);
    if pc.RegCheck? && !s.closed && s.slot.None? { FreeSlotMeansNoEntry(s, t); }
    if pc.UnregFlag? && s.agents[pc.a].registered {
      FlagUpMeansOurs(s, t);
      assert TieAgent(s, pc.a);
    }
    hide Tie, TieAgent, QuietAgent, AdvanceRegister, AdvanceNewAgent, AdvanceCore, AdvanceClear, AdvanceClose;
    if InRegister(pc) { QuietRegisterLandsIdle(s, t); }
    else if InUnregister(pc) { QuietUnregisterLandsIdle(s, t, ok); }
    else { QuietCloseLandsIdle(s, t, ok); }
  }

  // -- steps of the busy call

  lemma BusyMoverTie(s: State, t: Call, ok: bool)
    requires t in s.calls && AgentsInRange(s.calls[t], |s.agents|) && Busy(s.calls[t]) && TieCall(s, s.calls[t])
    requires s.calls[t].UnregDaemon? ==> ok
    ensures var n := Move(s, t, s.calls[t], ok); t in n.calls ==> TieCall(n, n.calls[t])
  {
  }

  lemma BusyKeepsTieAgent(s: State, t: Call, ok: bool, b: AgentId)
    requires Inv(s) && t in s.calls && AgentsInRange(s.calls[t], |s.agents|) && Busy(s.calls[t]) && TieCall(s, s.calls[t])
    requires b < |s.agents| ==> TieAgent(s, b)
    ensures var n := Move(s, t, s.calls[t], ok); b < |n.agents| ==> TieAgent(n, b)
  {
    if b < |s.agents| && s.agents[b].registered { BusyExcludesRegistered(s, t, b); }
    hide Inv, Busy;
  }

  lemma NewAgentKeepsTieDaemon(s: State, t: Call, ok: bool)
    requires Ready(s, t) && InNewAgent(s.calls[t]) && TieCall(s, s.calls[t]) && TieDaemon(s)
    ensures TieDaemon(AdvanceNewAgent(s, t, s.calls[t], ok))
  {
    hide SharedOK;
  }

  lemma TeardownKeepsTieDaemon(s: State, t: Call, ok: bool)
    requires Ready(s, t) && (s.calls[t].UnregDaemon? || s.calls[t].UnregExport?) && TieCall(s, s.calls[t]) && TieDaemon(s)
    requires s.calls[t].UnregDaemon? ==> ok
    ensures TieDaemon(AdvanceCore(s, t, s.calls[t], ok))
  {
    hide SharedOK;
  }

  // ---------- every step ----------

  lemma MoveKeepsTieDaemon(r: Regime, s: State, t: Call, ok: bool)
    requires Tie(s) && r.unregisterWorks && Enabled(r, s, Advance(t, ok))
    ensures TieDaemon(Move(s, t, s.calls[t], ok))
  {
    assert CallOK(s, t) && TieCall(s, s.calls[t]);
    if s.calls[t].UnregFlag? { assert AgentOK(s, s.calls[t].a); }
    hide SharedOK, CallOK, AgentOK, QuietStep, Guarantee, AdvanceRegister, AdvanceNewAgent, AdvanceCore, AdvanceClear, AdvanceClose,
      TieDaemon, TieCall, TieAgent, NoOverlap, Runnable;
    var pc := s.calls[t];
    if InNewAgent(pc) { NewAgentKeepsTieDaemon(s, t, ok); }
    else if pc.UnregDaemon? || pc.UnregExport? { TeardownKeepsTieDaemon(s, t, ok); }
    else {
      QuietMove(s, t, ok);
      MoveGuarantee(s, t, ok);
      QuietKeepsTieDaemon(s, Move(s, t, pc, ok), t);
    }
  }

  lemma MoveKeepsTieCall(r: Regime, s: State, t: Call, ok: bool, u: Call)
    requires Tie(s) && r.unregisterWorks && Enabled(r, s, Advance(t, ok))
    requires u in Move(s, t, s.calls[t], ok).calls
    ensures var n := Move(s, t, s.calls[t], ok); TieCall(n, n.calls[u])
  {
    assert CallOK(s, t) && TieCall(s, s.calls[t]);
    if s.calls[t].UnregFlag? { assert AgentOK(s, s.calls[t].a); }
    hide SharedOK, CallOK, AgentOK, QuietStep, SlotStep, AgentStep, OnceStep, Move, NoOverlap, Runnable, TieDaemon;
    var pc := s.calls[t];
    var n := Move(s, t, pc, ok);
    if u == t {
      if !Busy(pc) || pc.RegPublish? { QuietMoverTie(s, t, ok); } else { BusyMoverTie(s, t, ok); }
    } else {
      MoveGuarantee(s, t, ok);
      assert u in s.calls && n.calls[u] == s.calls[u];
      assert TieCall(s, s.calls[u]);
      if Busy(pc) {
        if Busy(s.calls[u]) { OneBusyCall(s, t, u); }
      } else {
        QuietMove(s, t, ok);
        MovesSlot(s, t, ok);
        QuietKeepsTieCall(s, n, t, u);
      }
    }
  }

  lemma MoveKeepsTieAgent(r: Regime, s: State, t: Call, ok: bool, b: AgentId)
    requires Tie(s) && Enabled(r, s, Advance(t, ok)) && b < |Move(s, t, s.calls[t], ok).agents|
    ensures TieAgent(Move(s, t, s.calls[t], ok), b)
  {
    assert CallOK(s, t) && TieCall(s, s.calls[t]);
    if s.calls[t].UnregFlag? { assert AgentOK(s, s.calls[t].a); }
    hide SharedOK, CallOK, AgentOK, TieAgent, TieCall, TieDaemon, QuietAgent, Move, NoOverlap, Runnable;
    if Busy(s.calls[t]) {
      BusyKeepsTieAgent(s, t, ok, b);
    } else {
      QuietMove(s, t, ok);
      QuietKeepsTieAgent(s, Move(s, t, s.calls[t], ok), t, b);
    }
  }

  lemma NewAgentIsNoUnregister(s: State, t: Call, ok: bool)
    requires t in s.calls && AgentsInRange(s.calls[t], |s.agents|)
    ensures InRegister(s.calls[t]) ==> var n := AdvanceRegister(s, t, s.calls[t]); t in n.calls ==> !InUnregister(n.calls[t])
    ensures InNewAgent(s.calls[t]) ==> var n := AdvanceNewAgent(s, t, s.calls[t], ok); t in n.calls ==> !InUnregister(n.calls[t])
  {
  }

  lemma CloseIsNoUserUnregister(s: State, t: Call, ok: bool)
    requires t in s.calls && AgentsInRange(s.calls[t], |s.agents|) && InClose(s.calls[t])
    ensures var n := AdvanceClose(s, t, s.calls[t], ok); t in n.calls && InUnregister(n.calls[t]) ==> n.calls[t].inClose
  {
  }

  lemma UnregisterStaysUser(s: State, t: Call, ok: bool, a: AgentId)
    requires t in s.calls && AgentsInRange(s.calls[t], |s.agents|)
    ensures InCore(s.calls[t]) ==>
      var n := AdvanceCore(s, t, s.calls[t], ok); t in n.calls && UserUnregisters(n.calls[t], a) ==> UserUnregisters(s.calls[t], a)
    ensures InClear(s.calls[t]) ==>
      var n := AdvanceClear(s, t, s.calls[t]); t in n.calls && UserUnregisters(n.calls[t], a) ==> UserUnregisters(s.calls[t], a)
  {
  }

  lemma StaysUser(s: State, t: Call, ok: bool, a: AgentId)
    requires t in s.calls && AgentsInRange(s.calls[t], |s.agents|)
    ensures var n := Move(s, t, s.calls[t], ok); t in n.calls && UserUnregisters(n.calls[t], a) ==> UserUnregisters(s.calls[t], a)
  {
    hide AdvanceRegister, AdvanceNewAgent, AdvanceCore, AdvanceClear, AdvanceClose;
    var pc := s.calls[t];
    if InRegister(pc) || InNewAgent(pc) { NewAgentIsNoUnregister(s, t, ok); }
    else if InUnregister(pc) { UnregisterStaysUser(s, t, ok, a); }
    else { CloseIsNoUserUnregister(s, t, ok); }
  }

  lemma MoveKeepsNoOverlap(s: State, t: Call, ok: bool)
    requires NoOverlap(s) && t in s.calls && AgentsInRange(s.calls[t], |s.agents|)
    requires Guarantee(s, Move(s, t, s.calls[t], ok), t)
    ensures NoOverlap(Move(s, t, s.calls[t], ok))
  {
    var n := Move(s, t, s.calls[t], ok);
    hide Move, UserUnregisters, AgentStep, OnceStep;
    forall u, v, a | u in n.calls && v in n.calls && UserUnregisters(n.calls[u], a) && UserUnregisters(n.calls[v], a) ensures u == v {
      StaysUser(s, t, ok, a);
    }
  }

  lemma MoveKeepsTie(r: Regime, s: State, t: Call, ok: bool)
    requires Tie(s) && r.unregisterWorks && Enabled(r, s, Advance(t, ok))
    ensures Tie(Move(s, t, s.calls[t], ok))
  {
    hide Inv, NoOverlap, TieDaemon, TieCall, TieAgent, Move, Guarantee;
    var n := Move(s, t, s.calls[t], ok);
    MoveKeepsInv(s, t, ok);
    MoveGuarantee(s, t, ok);
    MoveKeepsNoOverlap(s, t, ok);
    MoveKeepsTieDaemon(r, s, t, ok);
    forall u | u in n.calls ensures TieCall(n, n.calls[u]) { MoveKeepsTieCall(r, s, t, ok, u); }
    forall b | 0 <= b < |n.agents| ensures TieAgent(n, b) { MoveKeepsTieAgent(r, s, t, ok, b); }
  }

  lemma NewcomerOverlapsNobody(r: Regime, s: State, step: Step)
    requires NoOverlap(s) && r.serial && Enabled(r, s, step)
    requires step.CallRegister? || step.CallUnregister? || step.CallClose?
    ensures NoOverlap(Apply(r, s, step))
  {
  }

  lemma CallKeepsTie(r: Regime, s: State, step: Step)
    requires Tie(s) && r.serial && Enabled(r, s, step)
    requires step.CallRegister? || step.CallUnregister? || step.CallClose?
    ensures Tie(Apply(r, s, step))
  {
    StepKeepsInv(r, s, step);
    hide Inv;
    NewcomerOverlapsNobody(r, s, step);
    var n := Apply(r, s, step);
    assert TieDaemon(n);
    hide NoOverlap, TieDaemon;
    forall u | u in n.calls ensures TieCall(n, n.calls[u]) {
      if u != step.t { assert TieCall(s, s.calls[u]); }
    }
    forall b | 0 <= b < |n.agents| ensures TieAgent(n, b) { assert TieAgent(s, b); }
  }

  /** Another client can neither take this client's registration away nor make one in its name. */
  lemma OtherKeepsTie(r: Regime, s: State, step: Step)
    requires Tie(s) && Enabled(r, s, step) && (step.OtherRegister? || step.OtherUnregister?)
    ensures Tie(Apply(r, s, step))
  {
    StepKeepsInv(r, s, step);
    hide Inv;
    var n := Apply(r, s, step);
    assert TieDaemon(n);
    forall u | u in n.calls ensures TieCall(n, n.calls[u]) { assert TieCall(s, s.calls[u]); }
    forall b | 0 <= b < |n.agents| ensures TieAgent(n, b) { assert TieAgent(s, b); }
  }

  lemma StepKeepsTie(r: Regime, s: State, step: Step)
    requires Tie(s) && r.serial && r.unregisterWorks && Enabled(r, s, step)
    ensures Tie(Apply(r, s, step))
  {
    hide Tie, Move, Runnable;
    match step
    case Advance(t, ok) => MoveKeepsTie(r, s, t, ok);
    case OtherRegister(_) => OtherKeepsTie(r, s, step);
    case OtherUnregister(_, _) => OtherKeepsTie(r, s, step);
    case _ => CallKeepsTie(r, s, step);
  }

  lemma {:induction false} RunKeepsTie(r: Regime, s: State, run: seq<Step>)
    requires Tie(s) && r.serial && r.unregisterWorks && IsRun(r, s, run)
    ensures Tie(Exec(r, s, run))
    decreases |run|
  {
    hide Tie, Enabled, Apply;
    if run != [] {
      StepKeepsTie(r, s, run[0]);
      RunKeepsTie(r, Apply(r, s, run[0]), run[1..]);
    }
  }

  lemma StepKeepsBooks(r: Regime, s: State, step: Step)
    requires Inv(s) && Books(r, s) && Enabled(r, s, step)
    ensures Books(r, Apply(r, s, step))
  {
    if step.Advance? { MoveKeepsBooks(r, s, step.t, step.ok); }
    hide Inv, Move, Runnable;
  }

  lemma {:induction false} RunKeepsBooks(r: Regime, s: State, run: seq<Step>)
    requires Inv(s) && Books(r, s) && IsRun(r, s, run)
    ensures Books(r, Exec(r, s, run))
    decreases |run|
  {
    hide Inv, Books, Enabled, Apply;
    if run != [] {
      StepKeepsInv(r, s, run[0]);
      StepKeepsBooks(r, s, run[0]);
      RunKeepsBooks(r, Apply(r, s, run[0]), run[1..]);
    }
  }

  // ---------- the main results ----------

  lemma TieOfRun(r: Regime, run: seq<Step>)
    requires r.serial && r.unregisterWorks && IsRun(r, Init(), run)
    ensures Tie(Exec(r, Init(), run))
  {
    InitInv();
    assert Tie(Init());
    RunKeepsTie(r, Init(), run);
  }

  /** A registered flag means the daemon holds this very agent and it is exported. */
  lemma RegisteredMeansKnownAndExported(r: Regime, run: seq<Step>, a: AgentId)
    requires r.serial && r.unregisterWorks && IsRun(r, Init(), run)
    requires var s := Exec(r, Init(), run); a < |s.agents| && s.agents[a].registered
    ensures var s := Exec(r, Init(), run); s.exported == Some(a) && s.daemon == EntryOf(a)
  {
    TieOfRun(r, run);
    assert TieAgent(Exec(r, Init(), run), a);
  }

  /** With no call in progress the slot, the export table and the daemon's registry agree. */
  lemma AgreeAtRest(r: Regime, run: seq<Step>)
    requires r.serial && r.unregisterWorks && IsRun(r, Init(), run)
    requires Exec(r, Init(), run).calls == map[]
    ensures var s := Exec(r, Init(), run);
      && (s.slot.Some? ==> s.exported == s.slot && s.daemon == EntryOf(s.slot.value))
      && (s.slot.None? ==> !Mine(s.daemon) && (r.unexportWorks ==> s.exported.None?))
  {
    var s := Exec(r, Init(), run);
    TieOfRun(r, run);
    RunKeepsBooks(r, Init(), run);
    if s.slot.Some? {
      TornDownExactlyOnceAtRest(r, run, s.slot.value);
      assert TieAgent(s, s.slot.value);
    } else {
      if s.exported.Some? { TornDownExactlyOnceAtRest(r, run, s.exported.value); }
    }
  }

  /**
   * Whatever the environment does, an agent that RegisterAgent gave up on is not known to the daemon,
   * and if unexporting works it is not exported either.
   */
  lemma FailedRegistrationLeavesNothing(r: Regime, run: seq<Step>, a: AgentId)
    requires IsRun(r, Init(), run)
    requires var s := Exec(r, Init(), run); a < |s.agents| && !s.agents[a].bound && !BeingBuilt(s, a)
    ensures var s := Exec(r, Init(), run);
      && (Mine(s.daemon) ==> s.daemon.value.origin != a)
      && (r.unexportWorks ==> s.exported != Some(a))
      && !s.agents[a].handedOut && s.slot != Some(a)
  {
    ReachedInv(r, run);
    InitInv();
    RunKeepsBooks(r, Init(), run);
    assert AgentOK(Exec(r, Init(), run), a);
  }

  // ---------- and only then ----------

  ghost predicate Reachable(r: Regime, s: State) {
    exists run :: IsRun(r, Init(), run) && Exec(r, Init(), run) == s
  }

  lemma {:induction false} RunExtends(r: Regime, s: State, run: seq<Step>, step: Step)
    requires IsRun(r, s, run) && Enabled(r, Exec(r, s, run), step)
    ensures IsRun(r, s, run + [step]) && Exec(r, s, run + [step]) == Apply(r, Exec(r, s, run), step)
    decreases |run|
  {
    hide Enabled, Apply;
    if run == [] {
      assert [step][1..] == [];
      assert IsRun(r, Apply(r, s, step), []);
    } else {
      assert (run + [step])[1..] == run[1..] + [step];
      RunExtends(r, Apply(r, s, run[0]), run[1..], step);
    }
  }

  lemma Reach(r: Regime, s: State, step: Step)
    requires Reachable(r, s) && Enabled(r, s, step)
    ensures Reachable(r, Apply(r, s, step))
  {
    hide Enabled, Apply;
    var run :| IsRun(r, Init(), run) && Exec(r, Init(), run) == s;
    RunExtends(r, Init(), run, step);
  }
}

/**
 * What the calls of the agent protocol return (client.go, internal/connect/wiring.go): every Close
 * reports the one cleanup, and RegisterAgent succeeds exactly when nothing stands in its way.
 */
module AgentOutcomes {
  import opened Common
  import opened AgentLifecycle
  import opened AgentTeardown

  // ---------- Close ----------

  lemma MoveKeepsCleanup(s: State, t: Call, pc: PC, ok: bool)
    requires AgentsInRange(pc, |s.agents|) && !pc.CloseCleanup?
    ensures var n := Move(s, t, pc, ok); n.cleanups == s.cleanups && n.closeFailed == s.closeFailed
  {
  }

  /** The connection has been cleaned up, and this is what came of it. */
  predicate CleanedUp(s: State, failed: bool) {
    s.cleanups == 1 && s.closeFailed == failed
  }

  lemma StepKeepsCleanup(r: Regime, s: State, step: Step, failed: bool)
    requires Inv(s) && Enabled(r, s, step) && CleanedUp(s, failed)
    ensures CleanedUp(Apply(r, s, step), failed)
  {
    hide Move, Runnable, SharedOK, AgentOK;
    if step.Advance? {
      CleanupComesFirst(s, step.t);
      hide Inv;
      MoveKeepsCleanup(s, step.t, s.calls[step.t], step.ok);
    }
  }

  /** A call that is about to clean up is the first. */
  lemma CleanupComesFirst(s: State, t: Call)
    requires Inv(s) && t in s.calls
    ensures s.calls[t].CloseCleanup? ==> s.cleanups == 0 && s.closeOnce == Running(t) && s.results == []
  {
    hide AgentOK;
    assert CallOK(s, t);
  }

  lemma {:induction false} CleanedUpStays(r: Regime, s: State, run: seq<Step>, failed: bool)
    requires Inv(s) && CleanedUp(s, failed) && IsRun(r, s, run)
    ensures Inv(Exec(r, s, run)) && CleanedUp(Exec(r, s, run), failed)
    decreases |run|
  {
    hide Inv, CleanedUp, Enabled, Apply;
    if run != [] {
      StepKeepsCleanup(r, s, run[0], failed);
      StepKeepsInv(r, s, run[0]);
      CleanedUpStays(r, Apply(r, s, run[0]), run[1..], failed);
    }
  }

  /**
   * No Close returns before the connection is cleaned up, and from then on every Close, the one that
   * cleaned up and any other, fails exactly when that cleanup did.
   */
  lemma CloseReportsItsCleanup(r: Regime, before: seq<Step>, t: Call, ok: bool, after: seq<Step>)
    requires IsRun(r, Init(), before)
    requires var s := Exec(r, Init(), before);
      && Enabled(r, s, Advance(t, ok)) && s.calls[t].CloseCleanup?
      && IsRun(r, Apply(r, s, Advance(t, ok)), after)
    ensures var s := Exec(r, Init(), before); var n := Exec(r, Apply(r, s, Advance(t, ok)), after);
      s.results == [] && forall k | 0 <= k < |n.results| :: n.results[k] == !ok
  {
    var s := Exec(r, Init(), before);
    ReachedInv(r, before);
    CleanupComesFirst(s, t);
    hide IsRun, Exec, CallOK, AgentOK, Runnable;
    StepKeepsInv(r, s, Advance(t, ok));
    CleanedUpStays(r, Apply(r, s, Advance(t, ok)), after, !ok);
  }

  /** Whether a step ends a Close call. */
  predicate EndsClose(r: Regime, s: State, step: Step)
    requires Enabled(r, s, step)
  {
    step.Advance? && InClose(s.calls[step.t]) && step.t !in Apply(r, s, step).calls
  }

  function ClosesEnded(r: Regime, s: State, run: seq<Step>): nat
    requires IsRun(r, s, run)
    decreases |run|
  {
    if run == [] then 0
    else (if EndsClose(r, s, run[0]) then 1 else 0) + ClosesEnded(r, Apply(r, s, run[0]), run[1..])
  }

  lemma MoveKeepsResults(s: State, t: Call, pc: PC, ok: bool)
    requires AgentsInRange(pc, |s.agents|) && !InClose(pc)
    ensures Move(s, t, pc, ok).results == s.results
  {
  }

  lemma CloseAddsResult(s: State, t: Call, pc: PC, ok: bool)
    requires InClose(pc)
    ensures var n := AdvanceClose(s, t, pc, ok); |n.results| == |s.results| + if t in n.calls then 0 else 1
  {
  }

  lemma StepCountsResults(r: Regime, s: State, step: Step)
    requires Enabled(r, s, step)
    ensures |Apply(r, s, step).results| == |s.results| + if EndsClose(r, s, step) then 1 else 0
  {
    hide Runnable, AdvanceRegister, AdvanceNewAgent, AdvanceCore, AdvanceClear, AdvanceClose;
    if step.Advance? {
      var pc := s.calls[step.t];
      if InClose(pc) { CloseAddsResult(s, step.t, pc, step.ok); } else { MoveKeepsResults(s, step.t, pc, step.ok); }
    }
  }

  /** Each Close call that ends returns one result. */
  lemma {:induction false} EveryCloseReturns(r: Regime, s: State, run: seq<Step>)
    requires IsRun(r, s, run)
    ensures |Exec(r, s, run).results| == |s.results| + ClosesEnded(r, s, run)
    decreases |run|
  {
    hide Enabled, Apply, EndsClose;
    if run != [] {
      StepCountsResults(r, s, run[0]);
      EveryCloseReturns(r, Apply(r, s, run[0]), run[1..]);
    }
  }

  // ---------- RegisterAgent ----------

  /** The rest of a run in which only call `t` moves, and ends. */
  predicate Alone(r: Regime, s: State, t: Call, run: seq<Step>) {
    && IsRun(r, s, run) && t !in Exec(r, s, run).calls
    && forall k | 0 <= k < |run| :: run[k].Advance? && run[k].t == t
  }

  lemma AloneNext(r: Regime, s: State, t: Call, run: seq<Step>)
    requires Alone(r, s, t, run)
    ensures t in s.calls <==> run != []
    ensures run != [] ==>
      && Enabled(r, s, run[0]) && run[0] == Advance(t, run[0].ok) && Alone(r, Apply(r, s, run[0]), t, run[1..])
      && Exec(r, s, run) == Exec(r, Apply(r, s, run[0]), run[1..])
  {
    hide Apply, Runnable;
    if run != [] {
      assert forall k | 0 <= k < |run| - 1 :: run[1..][k] == run[k + 1];
    }
  }

  /** What RegisterAgent may change, apart from locks: agents, slot, export and daemon entry. */
  predicate LeavesOff(n: State, agents: seq<Agent>, slot: Option<AgentId>, exported: Option<AgentId>, daemon: Option<Entry>) {
    n.agents == agents && n.slot == slot && n.exported == exported && n.daemon == daemon && n.closeMu.None?
  }

  lemma UnlockEnds(r: Regime, s: State, t: Call, run: seq<Step>)
    requires Alone(r, s, t, run) && t in s.calls && s.calls[t] == RegUnlock(None)
    ensures |run| == 1 && LeavesOff(Exec(r, s, run), s.agents, s.slot, s.exported, s.daemon)
  {
    AloneNext(r, s, t, run);
    AloneNext(r, Apply(r, s, run[0]), t, run[1..]);
  }

  lemma HandOutEnds(r: Regime, s: State, t: Call, run: seq<Step>, a: AgentId)
    requires Alone(r, s, t, run) && t in s.calls && s.calls[t] == RegUnlock(Some(a)) && a < |s.agents|
    ensures |run| == 1 && LeavesOff(Exec(r, s, run), s.agents[a := s.agents[a].(handedOut := true)], s.slot, s.exported, s.daemon)
  {
    AloneNext(r, s, t, run);
    AloneNext(r, Apply(r, s, run[0]), t, run[1..]);
  }

  lemma PublishEnds(r: Regime, s: State, t: Call, run: seq<Step>, a: AgentId)
    requires Alone(r, s, t, run) && t in s.calls && s.calls[t] == RegPublish(a) && a < |s.agents|
    ensures |run| == 2 && LeavesOff(Exec(r, s, run), s.agents[a := s.agents[a].(handedOut := true)], Some(a), s.exported, s.daemon)
  {
    AloneNext(r, s, t, run);
    HandOutEnds(r, Apply(r, s, run[0]), t, run[1..], a);
  }

  lemma BindEnds(r: Regime, s: State, t: Call, run: seq<Step>, a: AgentId)
    requires Alone(r, s, t, run) && t in s.calls && s.calls[t] == RegBind(a) && a < |s.agents|
    ensures |run| == 3
    ensures LeavesOff(Exec(r, s, run), s.agents[a := s.agents[a].(bound := true, registered := true, handedOut := true)], Some(a), s.exported, s.daemon)
  {
    AloneNext(r, s, t, run);
    PublishEnds(r, Apply(r, s, run[0]), t, run[1..], a);
  }

  lemma RollbackEnds(r: Regime, s: State, t: Call, run: seq<Step>, a: AgentId)
    requires Alone(r, s, t, run) && t in s.calls && s.calls[t] == RegRollback(a) && a < |s.agents|
    ensures |run| == 2
    ensures LeavesOff(Exec(r, s, run), s.agents[a := s.agents[a].(unexports := s.agents[a].unexports + 1)], s.slot,
                      if run[0].ok then None else s.exported, s.daemon)
  {
    AloneNext(r, s, t, run);
    UnlockEnds(r, Apply(r, s, run[0]), t, run[1..]);
  }

  /** A core agent just exported. */
  const NEW_AGENT := Agent(false, false, false, Fresh, None, 0, 0)

  /** An agent whose registration went through, and one whose export was rolled back. */
  const HANDED_OUT := Agent(true, true, true, Fresh, None, 0, 0)
  const ROLLED_BACK := Agent(false, false, false, Fresh, None, 0, 1)

  /** Registered and handed out: the slot, the export and the daemon all name the new agent. */
  predicate Succeeds(n: State, agents: seq<Agent>) {
    LeavesOff(n, agents + [HANDED_OUT], Some(|agents|), Some(|agents|), Some(Entry(ME, AGENT_PATH, |agents|)))
  }

  /** Refused after the export, which was taken back again if the unexport worked. */
  predicate RollsBack(n: State, agents: seq<Agent>, slot: Option<AgentId>, unexported: bool, daemon: Option<Entry>) {
    LeavesOff(n, agents + [ROLLED_BACK], slot, if unexported then None else Some(|agents|), daemon)
  }

  lemma LastUpdated(agents: seq<Agent>, x: Agent, y: Agent)
    ensures (agents + [x])[|agents| := y] == agents + [y]
  {
  }

  lemma DaemonEnds(r: Regime, s: State, t: Call, run: seq<Step>, agents: seq<Agent>)
    requires Alone(r, s, t, run) && t in s.calls && s.calls[t] == RegDaemon(|agents|)
    requires s.agents == agents + [NEW_AGENT] && s.exported == Some(|agents|)
    ensures |run| >= 3
    ensures if run[0].ok && s.daemon.None? then Succeeds(Exec(r, s, run), agents)
            else RollsBack(Exec(r, s, run), agents, s.slot, run[|run| - 2].ok, s.daemon)
  {
    AloneNext(r, s, t, run);
    var n := Apply(r, s, run[0]);
    LastUpdated(agents, NEW_AGENT, HANDED_OUT);
    LastUpdated(agents, NEW_AGENT, ROLLED_BACK);
    hide Alone, Exec, IsRun, Enabled, Runnable, AdvanceRegister, AdvanceCore, AdvanceClear, AdvanceClose;
    if run[0].ok && s.daemon.None? { BindEnds(r, n, t, run[1..], |agents|); } else { RollbackEnds(r, n, t, run[1..], |agents|); }
  }

  lemma ManagerEnds(r: Regime, s: State, t: Call, run: seq<Step>, agents: seq<Agent>)
    requires Alone(r, s, t, run) && t in s.calls && s.calls[t] == RegManager(|agents|)
    requires s.agents == agents + [NEW_AGENT] && s.exported == Some(|agents|)
    ensures |run| >= 3
    ensures if run[0].ok && run[1].ok && s.daemon.None? then Succeeds(Exec(r, s, run), agents)
            else RollsBack(Exec(r, s, run), agents, s.slot, run[|run| - 2].ok, s.daemon)
  {
    AloneNext(r, s, t, run);
    var n := Apply(r, s, run[0]);
    LastUpdated(agents, NEW_AGENT, ROLLED_BACK);
    hide Alone, Exec, IsRun, Succeeds, Enabled, Runnable, AdvanceRegister, AdvanceCore, AdvanceClear, AdvanceClose;
    if run[0].ok { DaemonEnds(r, n, t, run[1..], agents); } else { RollbackEnds(r, n, t, run[1..], |agents|); }
  }

  lemma ExportEnds(r: Regime, s: State, t: Call, run: seq<Step>)
    requires Alone(r, s, t, run) && t in s.calls && s.calls[t] == RegExport
    ensures |run| >= 2 && (run[0].ok ==> |run| >= 4)
    ensures if !run[0].ok then LeavesOff(Exec(r, s, run), s.agents, s.slot, s.exported, s.daemon)
            else if run[1].ok && run[2].ok && s.daemon.None? then Succeeds(Exec(r, s, run), s.agents)
            else RollsBack(Exec(r, s, run), s.agents, s.slot, run[|run| - 2].ok, s.daemon)
  {
    AloneNext(r, s, t, run);
    var n := Apply(r, s, run[0]);
    if run[0].ok { ManagerEnds(r, n, t, run[1..], s.agents); } else { UnlockEnds(r, n, t, run[1..]); }
  }

  lemma CheckEnds(r: Regime, s: State, t: Call, run: seq<Step>)
    requires Alone(r, s, t, run) && t in s.calls && s.calls[t] == RegCheck
    ensures |run| >= 2 && (!s.closed && s.slot.None? ==> |run| >= 3 && (run[1].ok ==> |run| >= 5))
    ensures if s.closed || s.slot.Some? || !run[1].ok then LeavesOff(Exec(r, s, run), s.agents, s.slot, s.exported, s.daemon)
            else if run[2].ok && run[3].ok && s.daemon.None? then Succeeds(Exec(r, s, run), s.agents)
            else RollsBack(Exec(r, s, run), s.agents, s.slot, run[|run| - 2].ok, s.daemon)
  {
    AloneNext(r, s, t, run);
    var n := Apply(r, s, run[0]);
    hide Succeeds, RollsBack, LeavesOff, Alone;
    if s.closed || s.slot.Some? { UnlockEnds(r, n, t, run[1..]); } else { ExportEnds(r, n, t, run[1..]); }
  }

  /**
   * A RegisterAgent that no other step interrupts, its bus calls answered by steps 2 to 4: it hands
   * out a registered agent, exported and in the slot, if and only if the client is open, its slot
   * free, the export, the manager lookup and the registration work and the daemon has no agent. It
   * fails without a trace before the export, and with the export rolled back after it.
   */
  lemma RegisterOutcome(r: Regime, s: State, t: Call, run: seq<Step>)
    requires t !in s.calls && Alone(r, Apply(r, s, CallRegister(t)), t, run)
    ensures |run| >= 3 && (!s.closed && s.slot.None? ==> |run| >= 4 && (run[2].ok ==> |run| >= 6))
    ensures var n := Exec(r, Apply(r, s, CallRegister(t)), run);
      if s.closed || s.slot.Some? || !run[2].ok then LeavesOff(n, s.agents, s.slot, s.exported, s.daemon)
      else if run[3].ok && run[4].ok && s.daemon.None? then Succeeds(n, s.agents)
      else RollsBack(n, s.agents, s.slot, run[|run| - 2].ok, s.daemon)
  {
    var called := Apply(r, s, CallRegister(t));
    AloneNext(r, called, t, run);
    hide Succeeds, RollsBack, LeavesOff, Alone;
    CheckEnds(r, Apply(r, called, run[0]), t, run[1..]);
  }

  // ---------- Unregister ----------

  /** Of the agents only `a` is changed, to `g`; the slot, the export and the daemon entry are as given. */
  ghost predicate Leaves(s: State, n: State, a: AgentId, g: Agent, slot: Option<AgentId>, exported: Option<AgentId>, daemon: Option<Entry>)
    requires a < |s.agents|
  {
    && |n.agents| == |s.agents| && n.agents[a] == g
    && (forall b | 0 <= b < |s.agents| && b != a :: n.agents[b] == s.agents[b])
    && n.slot == slot && n.exported == exported && n.daemon == daemon
  }

  /** The slot after an Unregister of `a` is through: freed if it held `a` and clearOnce had not run before. */
  function SlotWithout(s: State, a: AgentId): Option<AgentId>
    requires a < |s.agents|
  {
    if !s.agents[a].clear.Done? && s.slot == Some(a) then None else s.slot
  }

  lemma ClearDoneEnds(r: Regime, s: State, t: Call, run: seq<Step>, a: AgentId)
    requires Alone(r, s, t, run) && t in s.calls && s.calls[t] == ClearDone(a, false) && a < |s.agents|
    ensures Leaves(s, Exec(r, s, run), a, s.agents[a].(clear := Done), s.slot, s.exported, s.daemon)
  {
    AloneNext(r, s, t, run);
    AloneNext(r, Apply(r, s, run[0]), t, run[1..]);
  }

  lemma ClearSlotEnds(r: Regime, s: State, t: Call, run: seq<Step>, a: AgentId)
    requires Alone(r, s, t, run) && t in s.calls && s.calls[t] == ClearSlot(a, false) && a < |s.agents|
    ensures Leaves(s, Exec(r, s, run), a, s.agents[a].(clear := Done), if s.slot == Some(a) then None else s.slot, s.exported, s.daemon)
  {
    AloneNext(r, s, t, run);
    var n := Apply(r, s, run[0]);
    AloneNext(r, n, t, run[1..]);
    ClearDoneEnds(r, Apply(r, n, run[1]), t, run[1..][1..], a);
  }

  /** What UnregisterAgent does to the daemon's entry when its call goes through. */
  function Dropped(d: Option<Entry>): Option<Entry> {
    if d.Some? && d.value.sender == ME && d.value.path == AGENT_PATH then None else d
  }

  /** Where one step of the call leads, and what it leaves. */
  ghost predicate StepsTo(s: State, n: State, t: Call, pc: PC, g: Agent, slot: Option<AgentId>, exported: Option<AgentId>, daemon: Option<Entry>, a: AgentId)
    requires a < |s.agents|
  {
    t in n.calls && n.calls[t] == pc && Leaves(s, n, a, g, slot, exported, daemon)
  }

  lemma ClearOnceStep(r: Regime, s: State, t: Call, ok: bool, a: AgentId)
    requires t in s.calls && s.calls[t] == ClearOnce(a, false) && a < |s.agents| && Enabled(r, s, Advance(t, ok))
    ensures var n := Apply(r, s, Advance(t, ok));
      if s.agents[a].clear.Done? then t !in n.calls && Leaves(s, n, a, s.agents[a], s.slot, s.exported, s.daemon)
      else StepsTo(s, n, t, ClearLock(a, false), s.agents[a].(clear := Running(t)), s.slot, s.exported, s.daemon, a)
  {
  }

  lemma ClearLockStep(r: Regime, s: State, t: Call, ok: bool, a: AgentId)
    requires t in s.calls && s.calls[t] == ClearLock(a, false) && a < |s.agents| && Enabled(r, s, Advance(t, ok))
    ensures var n := Apply(r, s, Advance(t, ok));
      t in n.calls && n.calls[t] == ClearSlot(a, false) && Leaves(s, n, a, s.agents[a], s.slot, s.exported, s.daemon)
  {
  }

  lemma FlagStep(r: Regime, s: State, t: Call, ok: bool, a: AgentId)
    requires t in s.calls && s.calls[t] == UnregFlag(a, false) && a < |s.agents| && Enabled(r, s, Advance(t, ok))
    ensures var n, g := Apply(r, s, Advance(t, ok)), s.agents[a];
      if g.registered then StepsTo(s, n, t, UnregDaemon(a, false), g.(registered := false, taker := Some(t)), s.slot, s.exported, s.daemon, a)
      else StepsTo(s, n, t, ClearOnce(a, false), g, s.slot, s.exported, s.daemon, a)
  {
  }

  lemma DaemonStep(r: Regime, s: State, t: Call, ok: bool, a: AgentId)
    requires t in s.calls && s.calls[t] == UnregDaemon(a, false) && a < |s.agents| && Enabled(r, s, Advance(t, ok))
    ensures var g := s.agents[a];
      StepsTo(s, Apply(r, s, Advance(t, ok)), t, UnregExport(a, false), g.(unregisters := g.unregisters + 1), s.slot, s.exported,
              if ok then Dropped(s.daemon) else s.daemon, a)
  {
  }

  lemma ExportStep(r: Regime, s: State, t: Call, ok: bool, a: AgentId)
    requires t in s.calls && s.calls[t] == UnregExport(a, false) && a < |s.agents| && Enabled(r, s, Advance(t, ok))
    ensures var g := s.agents[a];
      StepsTo(s, Apply(r, s, Advance(t, ok)), t, ClearOnce(a, false), g.(unexports := g.unexports + 1), s.slot,
              if ok then None else s.exported, s.daemon, a)
  {
  }

  lemma ClearLockEnds(r: Regime, s: State, t: Call, run: seq<Step>, a: AgentId)
    requires Alone(r, s, t, run) && t in s.calls && s.calls[t] == ClearLock(a, false) && a < |s.agents|
    ensures Leaves(s, Exec(r, s, run), a, s.agents[a].(clear := Done), if s.slot == Some(a) then None else s.slot, s.exported, s.daemon)
  {
    AloneNext(r, s, t, run);
    hide Alone, IsRun, Enabled, Apply, Exec;
    ClearLockStep(r, s, t, run[0].ok, a);
    ClearSlotEnds(r, Apply(r, s, run[0]), t, run[1..], a);
  }

  lemma ClearEnds(r: Regime, s: State, t: Call, run: seq<Step>, a: AgentId)
    requires Alone(r, s, t, run) && t in s.calls && s.calls[t] == ClearOnce(a, false) && a < |s.agents|
    ensures Leaves(s, Exec(r, s, run), a, s.agents[a].(clear := Done), SlotWithout(s, a), s.exported, s.daemon)
  {
    AloneNext(r, s, t, run);
    hide Alone, IsRun, Enabled, Apply, Exec;
    ClearOnceStep(r, s, t, run[0].ok, a);
    if s.agents[a].clear.Done? {
      AloneNext(r, Apply(r, s, run[0]), t, run[1..]);
      NoStepsLeft(r, Apply(r, s, run[0]));
      assert s.agents[a].(clear := Done) == s.agents[a];
    } else {
      ClearLockEnds(r, Apply(r, s, run[0]), t, run[1..], a);
    }
  }

  lemma NoStepsLeft(r: Regime, s: State)
    ensures IsRun(r, s, []) && Exec(r, s, []) == s
  {
  }

  lemma ExportGoes(r: Regime, s: State, t: Call, run: seq<Step>, a: AgentId)
    requires Alone(r, s, t, run) && t in s.calls && s.calls[t] == UnregExport(a, false) && a < |s.agents|
    ensures |run| >= 1
    ensures Leaves(s, Exec(r, s, run), a, s.agents[a].(unexports := s.agents[a].unexports + 1, clear := Done), SlotWithout(s, a),
                   if run[0].ok then None else s.exported, s.daemon)
  {
    AloneNext(r, s, t, run);
    hide Alone, IsRun, Enabled, Apply, Exec;
    ExportStep(r, s, t, run[0].ok, a);
    ClearEnds(r, Apply(r, s, run[0]), t, run[1..], a);
  }

  lemma DaemonGoes(r: Regime, s: State, t: Call, run: seq<Step>, a: AgentId)
    requires Alone(r, s, t, run) && t in s.calls && s.calls[t] == UnregDaemon(a, false) && a < |s.agents|
    ensures |run| >= 2
    ensures Leaves(s, Exec(r, s, run), a, s.agents[a].(unregisters := s.agents[a].unregisters + 1, unexports := s.agents[a].unexports + 1, clear := Done),
                   SlotWithout(s, a), if run[1].ok then None else s.exported, if run[0].ok then Dropped(s.daemon) else s.daemon)
  {
    AloneNext(r, s, t, run);
    hide Alone, IsRun, Enabled, Apply, Exec, Dropped;
    DaemonStep(r, s, t, run[0].ok, a);
    ExportGoes(r, Apply(r, s, run[0]), t, run[1..], a);
  }

  lemma FlagGoes(r: Regime, s: State, t: Call, run: seq<Step>, a: AgentId)
    requires Alone(r, s, t, run) && t in s.calls && s.calls[t] == UnregFlag(a, false) && a < |s.agents| && s.agents[a].registered
    ensures |run| >= 3
    ensures var n, g := Exec(r, s, run), s.agents[a];
      Leaves(s, n, a, g.(registered := false, taker := Some(t), unregisters := g.unregisters + 1, unexports := g.unexports + 1, clear := Done),
             SlotWithout(s, a), if run[2].ok then None else s.exported, if run[1].ok then Dropped(s.daemon) else s.daemon)
  {
    AloneNext(r, s, t, run);
    hide Alone, IsRun, Enabled, Apply, Exec, Dropped;
    FlagStep(r, s, t, run[0].ok, a);
    DaemonGoes(r, Apply(r, s, run[0]), t, run[1..], a);
  }

  lemma NoFlagGoes(r: Regime, s: State, t: Call, run: seq<Step>, a: AgentId)
    requires Alone(r, s, t, run) && t in s.calls && s.calls[t] == UnregFlag(a, false) && a < |s.agents| && !s.agents[a].registered
    ensures Leaves(s, Exec(r, s, run), a, s.agents[a].(clear := Done), SlotWithout(s, a), s.exported, s.daemon)
  {
    AloneNext(r, s, t, run);
    hide Alone, IsRun, Enabled, Apply, Exec;
    FlagStep(r, s, t, run[0].ok, a);
    ClearEnds(r, Apply(r, s, run[0]), t, run[1..], a);
  }

  /**
   * An Unregister that no other step interrupts, its bus calls answered by steps 1 and 2. If it finds
   * the flag up it takes it down, makes each call once, drops the daemon's entry if that call works and
   * the entry is this client's, and the export if that call works; with the flag down it calls nothing.
   * Either way the handle is cleared and a slot that held it is free.
   */
  lemma UnregisterOutcome(r: Regime, s: State, t: Call, a: AgentId, run: seq<Step>)
    requires Enabled(r, s, CallUnregister(t, a)) && Alone(r, Apply(r, s, CallUnregister(t, a)), t, run)
    ensures s.agents[a].registered ==> |run| >= 3
    ensures var n, g := Exec(r, Apply(r, s, CallUnregister(t, a)), run), s.agents[a];
      if g.registered then
        Leaves(s, n, a, g.(registered := false, taker := Some(t), unregisters := g.unregisters + 1, unexports := g.unexports + 1, clear := Done),
               SlotWithout(s, a), if run[2].ok then None else s.exported, if run[1].ok then Dropped(s.daemon) else s.daemon)
      else Leaves(s, n, a, g.(clear := Done), SlotWithout(s, a), s.exported, s.daemon)
  {
    var called := Apply(r, s, CallUnregister(t, a));
    assert called == s.(calls := s.calls[t := UnregFlag(a, false)]);
    hide Alone, IsRun, Enabled, Apply, Exec, Dropped;
    if s.agents[a].registered { FlagGoes(r, called, t, run, a); } else { NoFlagGoes(r, called, t, run, a); }
  }

  // ---------- other clients of the daemon ----------

  /**
   * Another client's agent keeps this one's out: after its registration a RegisterAgent that reaches the
   * daemon is rolled back, until that client, at that path, unregisters it again.
   */
  lemma ForeignAgentKeepsOut(r: Regime, s: State, e: Entry, t: Call, run: seq<Step>)
    requires s.daemon.None? && e.sender != ME && t !in s.calls && !s.closed && s.slot.None?
    requires Alone(r, Apply(r, Apply(r, s, OtherRegister(e)), CallRegister(t)), t, run)
    ensures |run| >= 4
    ensures run[2].ok ==>
      RollsBack(Exec(r, Apply(r, Apply(r, s, OtherRegister(e)), CallRegister(t)), run), s.agents, s.slot, run[|run| - 2].ok, Some(e))
    ensures Apply(r, Apply(r, s, OtherRegister(e)), OtherUnregister(e.sender, e.path)) == s
    ensures forall sender: nat, path: string :: sender != ME && (sender != e.sender || path != e.path) ==>
      Apply(r, Apply(r, s, OtherRegister(e)), OtherUnregister(sender, path)) == Apply(r, s, OtherRegister(e))
  {
    RegisterOutcome(r, Apply(r, s, OtherRegister(e)), t, run);
    hide Alone, RollsBack, Succeeds, LeavesOff, Exec, IsRun;
  }
}

/**
 * What the agent protocol keeps in every run, whatever the callers overlap and whatever the bus
 * calls answer: one registered agent at most, none once Close has unregistered, every teardown once.
 */
module AgentTeardown {
  import opened Common
  import opened AgentLifecycle

  lemma InitInv()
    ensures Inv(Init())
  {
  }

  lemma ReachedInv(r: Regime, run: seq<Step>)
    requires IsRun(r, Init(), run)
    ensures Inv(Exec(r, Init(), run))
  {
    InitInv();
    RunKeepsInv(r, Init(), run);
  }

  // ---------- at most one registered agent ----------

  lemma HeldIsUnique(s: State, a: AgentId, b: AgentId)
    requires Inv(s) && Held(s, a) && Held(s, b)
    ensures a == b
  {
    if s.closeMu.Some? && s.closeMu.value in s.calls { assert CallOK(s, s.closeMu.value); }
  }

  /** At most one flag is up, and the slot, the RegisterAgent owning closeMu, or Close answers for it. */
  lemma AtMostOneRegistered(r: Regime, run: seq<Step>)
    requires IsRun(r, Init(), run)
    ensures var s := Exec(r, Init(), run);
      && (forall a | 0 <= a < |s.agents| :: s.agents[a].registered ==> Held(s, a))
      && (forall a, b | 0 <= a < |s.agents| && 0 <= b < |s.agents| ::
            s.agents[a].registered && s.agents[b].registered ==> a == b)
  {
    var s := Exec(r, Init(), run);
    ReachedInv(r, run);
    forall a | 0 <= a < |s.agents| && s.agents[a].registered ensures Held(s, a) {
      assert AgentOK(s, a);
    }
    forall a, b | 0 <= a < |s.agents| && 0 <= b < |s.agents| && s.agents[a].registered && s.agents[b].registered
      ensures a == b
    {
      HeldIsUnique(s, a, b);
    }
  }

  // ---------- after Close's unregister step ----------

  /** Close has emptied the slot and, if it found an agent, taken its flag down. */
  predicate PastUnregister(s: State) {
    s.closeOnce.Done?
    || (s.closeOnce.Running? && s.closeOnce.runner in s.calls && PastFlag(s.calls[s.closeOnce.runner]))
  }

  predicate PastFlag(pc: PC) {
    HoldsCloseOnce(pc) && !pc.CloseLock? && !pc.CloseTake? && !pc.UnregFlag? && !(pc.CloseUnlock? && pc.found.Some?)
  }

  lemma PastUnregisterLeavesNoneHeld(s: State, a: AgentId)
    requires Inv(s) && PastUnregister(s)
    ensures !Held(s, a)
  {
    if s.closeOnce.Running? { assert CallOK(s, s.closeOnce.runner); }
    if s.closeMu.Some? { assert CallOK(s, s.closeMu.value); }
  }

  lemma PastFlagStays(s: State, t: Call, ok: bool)
    requires t in s.calls && AgentsInRange(s.calls[t], |s.agents|) && PastFlag(s.calls[t])
    ensures var n := Move(s, t, s.calls[t], ok); t !in n.calls || PastFlag(n.calls[t])
    ensures var n := Move(s, t, s.calls[t], ok); t !in n.calls ==> s.calls[t].CloseLeave? && n.closeOnce.Done?
  {
  }

  /** Only the runner of closeOnce ends it, and it never starts over. */
  lemma CloseOnceMoves(s: State, t: Call, ok: bool)
    requires Inv(s) && t in s.calls && AgentsInRange(s.calls[t], |s.agents|) && Runnable(s, s.calls[t])
    requires s.closeOnce.Running? && s.closeOnce.runner == t && PastFlag(s.calls[t])
    ensures PastUnregister(Move(s, t, s.calls[t], ok))
  {
    hide Runnable, AgentOK, Guarantee, AdvanceRegister, AdvanceNewAgent, AdvanceCore, AdvanceClear, AdvanceClose, Move, SharedOK, CallOK;
    var n := Move(s, t, s.calls[t], ok);
    PastFlagStays(s, t, ok);
    if t in n.calls {
      MoveKeepsMover(s, t, ok);
      LocksOf(n, t);
    }
  }

  lemma LocksOf(s: State, t: Call)
    requires t in s.calls && CallOK(s, t)
    ensures HoldsCloseOnce(s.calls[t]) <==> s.closeOnce == Running(t)
  {
  }

  lemma MoveKeepsPast(s: State, t: Call, ok: bool)
    requires Inv(s) && t in s.calls && AgentsInRange(s.calls[t], |s.agents|) && Runnable(s, s.calls[t])
    requires PastUnregister(s)
    ensures PastUnregister(Move(s, t, s.calls[t], ok))
  {
    hide Runnable, AgentOK, SharedOK, CallOK, Move, PastFlag;
    if s.closeOnce == Running(t) {
      CloseOnceMoves(s, t, ok);
    } else {
      MoveGuarantee(s, t, ok);
    }
  }

  lemma StepKeepsPast(r: Regime, s: State, step: Step)
    requires Inv(s) && Enabled(r, s, step) && PastUnregister(s)
    ensures PastUnregister(Apply(r, s, step))
  {
    hide Inv, Move, Runnable, PastFlag;
    if step.Advance? { MoveKeepsPast(s, step.t, step.ok); }
  }

  predicate NoneRegistered(s: State) {
    forall a | 0 <= a < |s.agents| :: !s.agents[a].registered
  }

  lemma {:induction false} NoneRegisteredFrom(r: Regime, s: State, run: seq<Step>)
    requires Inv(s) && PastUnregister(s) && IsRun(r, s, run)
    ensures NoneRegistered(Exec(r, s, run))
    decreases |run|
  {
    hide Enabled, Apply, PastUnregister, SharedOK, CallOK;
    if run == [] {
      forall a | 0 <= a < |s.agents| ensures !s.agents[a].registered {
        assert AgentOK(s, a);
        PastUnregisterLeavesNoneHeld(s, a);
      }
    } else {
      StepKeepsInv(r, s, run[0]);
      StepKeepsPast(r, s, run[0]);
      NoneRegisteredFrom(r, Apply(r, s, run[0]), run[1..]);
    }
  }

  /** Once Close is past its unregister step no agent is registered and none can become so. */
  lemma NoneRegisteredAfterClose(r: Regime, before: seq<Step>, after: seq<Step>)
    requires IsRun(r, Init(), before) && PastUnregister(Exec(r, Init(), before))
    requires IsRun(r, Exec(r, Init(), before), after)
    ensures NoneRegistered(Exec(r, Exec(r, Init(), before), after))
  {
    ReachedInv(r, before);
    NoneRegisteredFrom(r, Exec(r, Init(), before), after);
  }

  // ---------- teardown happens once ----------

  /**
   * No agent is unregistered or unexported twice, the connection is cleaned up once at most, every
   * Close that has returned gave the same answer, and every answer came after the one cleanup.
   */
  lemma TornDownAtMostOnce(r: Regime, run: seq<Step>)
    requires IsRun(r, Init(), run)
    ensures var s := Exec(r, Init(), run);
      && (forall a | 0 <= a < |s.agents| :: s.agents[a].unregisters <= 1 && s.agents[a].unexports <= 1)
      && s.cleanups <= 1
      && (forall j, k | 0 <= j < |s.results| && 0 <= k < |s.results| :: s.results[j] == s.results[k])
      && (s.results != [] ==> s.closed && s.cleanups == 1)
  {
    var s := Exec(r, Init(), run);
    ReachedInv(r, run);
    forall a | 0 <= a < |s.agents| ensures s.agents[a].unregisters <= 1 && s.agents[a].unexports <= 1 {
      assert AgentOK(s, a);
    }
    if s.closeOnce.Running? { assert CallOK(s, s.closeOnce.runner); }
  }

  /**
   * When no call is in progress every agent is accounted for: it is registered and in the slot, or
   * its registration was refused and its export rolled back once, or it was torn down once.
   */
  lemma TornDownExactlyOnceAtRest(r: Regime, run: seq<Step>, a: AgentId)
    requires IsRun(r, Init(), run)
    requires var s := Exec(r, Init(), run); s.calls == map[] && a < |s.agents|
    ensures var s := Exec(r, Init(), run); var g := s.agents[a];
      && (g.registered <==> s.slot == Some(a))
      && (g.registered ==> g.unregisters == 0 && g.unexports == 0 && s.closeOnce.Fresh?)
      && (g.bound && !g.registered ==> g.unregisters == 1 && g.unexports == 1)
      && (!g.bound ==> g.unregisters == 0 && g.unexports == 1)
  {
    var s := Exec(r, Init(), run);
    ReachedInv(r, run);
    assert AgentOK(s, a);
  }
}

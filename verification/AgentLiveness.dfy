/**
 * The locks of the agent protocol are taken in one order (closeOnce, clearOnce, closeMu; the core
 * agent's mutex is a leaf inside single steps), so nobody waits in a circle and every call ends.
 */
module AgentLiveness {
  import opened Common
  import opened AgentLifecycle
  import opened AgentTeardown

  // ---------- no circle of waiting calls ----------

  /** The place in the lock order of the lock a call is about to take. */
  function WaitRank(pc: PC): nat {
    if pc.CloseOnce? then 0 else if pc.ClearOnce? then 1 else 2
  }

  predicate Blocked(s: State, t: Call) {
    t in s.calls && AgentsInRange(s.calls[t], |s.agents|) && !Runnable(s, s.calls[t])
  }

  /** The call that holds the lock `t` waits for. */
  function Blocker(s: State, t: Call): Call
    requires Blocked(s, t)
  {
    if s.calls[t].ClearOnce? then s.agents[s.calls[t].a].clear.runner
    else if s.calls[t].CloseOnce? then s.closeOnce.runner
    else if s.closeMu.Some? then s.closeMu.value
    else t
  }

  /** The holder of a lock is a live call, and if it waits itself, then for a later lock. */
  lemma WaitsClimb(s: State, t: Call)
    requires Inv(s) && Blocked(s, t)
    ensures var u := Blocker(s, t); u in s.calls && u != t
    ensures var u := Blocker(s, t); Blocked(s, u) ==> WaitRank(s.calls[t]) < WaitRank(s.calls[u])
  {
    assert CallOK(s, t);
    if s.calls[t].ClearOnce? { assert AgentOK(s, s.calls[t].a); }
    assert CallOK(s, Blocker(s, t));
  }

  ghost predicate WaitChain(s: State, chain: seq<Call>) {
    && (forall k :: 0 <= k < |chain| ==> Blocked(s, chain[k]))
    && (forall k :: 0 < k < |chain| ==> chain[k] == Blocker(s, chain[k - 1]))
  }

  lemma {:induction false} ChainClimbs(s: State, chain: seq<Call>, j: nat, k: nat)
    requires Inv(s) && WaitChain(s, chain) && j < k < |chain|
    ensures WaitRank(s.calls[chain[j]]) + (k - j) <= WaitRank(s.calls[chain[k]])
    decreases k
  {
    hide Inv, Blocked, Blocker, WaitRank;
    WaitsClimb(s, chain[k - 1]);
    if j < k - 1 { ChainClimbs(s, chain, j, k - 1); }
  }

  /** A chain of waiting calls never returns to a call, and has at most three members. */
  lemma NoWaitCycle(r: Regime, run: seq<Step>, chain: seq<Call>)
    requires IsRun(r, Init(), run) && WaitChain(Exec(r, Init(), run), chain)
    ensures |chain| <= 3
    ensures forall j, k :: 0 <= j < k < |chain| ==> chain[j] != chain[k]
  {
    hide Inv, Blocked, Blocker;
    var s := Exec(r, Init(), run);
    ReachedInv(r, run);
    forall j, k | 0 <= j < k < |chain| ensures chain[j] != chain[k] {
      ChainClimbs(s, chain, j, k);
    }
    if |chain| > 3 { ChainClimbs(s, chain, 0, 3); }
  }

  // ---------- while a call is in progress, one can move ----------

  lemma {:induction false} SomebodyRuns(s: State, t: Call) returns (u: Call)
    requires Inv(s) && t in s.calls
    ensures u in s.calls && AgentsInRange(s.calls[u], |s.agents|) && Runnable(s, s.calls[u])
    decreases 3 - WaitRank(s.calls[t])
  {
    hide Runnable, Blocker, SharedOK, AgentOK;
    assert CallOK(s, t);
    if Blocked(s, t) {
      WaitsClimb(s, t);
      var v := Blocker(s, t);
      assert CallOK(s, v);
      if Blocked(s, v) { u := SomebodyRuns(s, v); } else { u := v; }
    } else {
      u := t;
    }
  }

  // ---------- every call is a bounded number of steps ----------

  /** The most steps a call can still take. */
  function Work(pc: PC): nat {
    match pc
    case RegLock => 8
    case RegCheck => 7
    case RegExport => 6
    case RegManager(_) => 5
    case RegDaemon(_) => 4
    case RegBind(_) => 3
    case RegRollback(_) => 2
    case RegPublish(_) => 2
    case RegUnlock(_) => 1
    case UnregFlag(_, c) => 8 + Rest(c)
    case UnregDaemon(_, c) => 7 + Rest(c)
    case UnregExport(_, c) => 6 + Rest(c)
    case ClearOnce(_, c) => 5 + Rest(c)
    case ClearLock(_, c) => 4 + Rest(c)
    case ClearSlot(_, c) => 3 + Rest(c)
    case ClearUnlock(_, c) => 2 + Rest(c)
    case ClearDone(_, c) => 1 + Rest(c)
    case CloseOnce => 14
    case CloseLock => 13
    case CloseTake => 12
    case CloseUnlock(_) => 11
    case CloseCleanup => 2
    case CloseLeave => 1
  }

  /** What Close still does after its Unregister. */
  function Rest(inClose: bool): nat {
    if inClose then 2 else 0
  }

  ghost function Total(calls: map<Call, PC>): nat
    decreases |calls|
  {
    if calls == map[] then 0 else
      var t: Call :| t in calls;
      Work(calls[t]) + Total(calls - {t})
  }

  lemma {:induction false} TotalSplits(calls: map<Call, PC>, t: Call)
    requires t in calls
    ensures Total(calls) == Work(calls[t]) + Total(calls - {t})
    decreases |calls|
  {
    hide Work;
    var u: Call :| u in calls && Total(calls) == Work(calls[u]) + Total(calls - {u});
    if u != t {
      TotalSplits(calls - {u}, t);
      TotalSplits(calls - {t}, u);
      assert calls - {u} - {t} == calls - {t} - {u};
    }
  }

  predicate Shortens(s: State, n: State, t: Call)
    requires t in s.calls
  {
    Work(s.calls[t]) > 0 && (t in n.calls ==> Work(n.calls[t]) < Work(s.calls[t]))
  }

  lemma RegistrationShortens(s: State, t: Call, ok: bool)
    requires t in s.calls && AgentsInRange(s.calls[t], |s.agents|)
    ensures InRegister(s.calls[t]) ==> Shortens(s, AdvanceRegister(s, t, s.calls[t]), t)
    ensures InNewAgent(s.calls[t]) ==> Shortens(s, AdvanceNewAgent(s, t, s.calls[t], ok), t)
  {
  }

  lemma CoreShortens(s: State, t: Call, ok: bool)
    requires t in s.calls && AgentsInRange(s.calls[t], |s.agents|) && InCore(s.calls[t])
    ensures Shortens(s, AdvanceCore(s, t, s.calls[t], ok), t)
  {
  }

  lemma ClearShortens(s: State, t: Call)
    requires t in s.calls && AgentsInRange(s.calls[t], |s.agents|) && InClear(s.calls[t])
    ensures Shortens(s, AdvanceClear(s, t, s.calls[t]), t)
  {
  }

  lemma CloseShortens(s: State, t: Call, ok: bool)
    requires t in s.calls && AgentsInRange(s.calls[t], |s.agents|)
    ensures InClose(s.calls[t]) ==> Shortens(s, AdvanceClose(s, t, s.calls[t], ok), t)
  {
  }

  lemma MoveShortens(s: State, t: Call, ok: bool)
    requires t in s.calls && AgentsInRange(s.calls[t], |s.agents|)
    ensures Shortens(s, Move(s, t, s.calls[t], ok), t)
  {
    hide Shortens, AdvanceRegister, AdvanceNewAgent, AdvanceCore, AdvanceClear, AdvanceClose;
    RegistrationShortens(s, t, ok);
    if InCore(s.calls[t]) { CoreShortens(s, t, ok); }
    if InClear(s.calls[t]) { ClearShortens(s, t); }
    CloseShortens(s, t, ok);
  }

  lemma TotalFalls(s: State, n: State, t: Call)
    requires t in s.calls && Shortens(s, n, t)
    requires n.calls == s.calls - {t} || (t in n.calls && n.calls == s.calls[t := n.calls[t]])
    ensures Total(n.calls) < Total(s.calls)
  {
    hide Work, Total;
    TotalSplits(s.calls, t);
    if t in n.calls {
      TotalSplits(n.calls, t);
      assert n.calls - {t} == s.calls - {t};
    }
  }

  lemma MoveLowersTotal(s: State, t: Call, ok: bool)
    requires Inv(s) && t in s.calls && AgentsInRange(s.calls[t], |s.agents|) && Runnable(s, s.calls[t])
    ensures Total(Move(s, t, s.calls[t], ok).calls) < Total(s.calls)
  {
    hide Move, Inv, Runnable, AgentsInRange, Shortens, Total, AgentStep, OnceStep;
    MoveGuarantee(s, t, ok);
    MoveShortens(s, t, ok);
    TotalFalls(s, Move(s, t, s.calls[t], ok), t);
  }

  predicate NoNewCalls(run: seq<Step>) {
    forall k | 0 <= k < |run| :: run[k].Advance? || run[k].OtherRegister? || run[k].OtherUnregister?
  }

  /** How often the calls of this client move in a run. */
  function Moves(run: seq<Step>): nat {
    if run == [] then 0 else (if run[0].Advance? then 1 else 0) + Moves(run[1..])
  }

  lemma {:induction false} MovesAreBounded(r: Regime, s: State, run: seq<Step>)
    requires Inv(s) && IsRun(r, s, run) && NoNewCalls(run)
    ensures Moves(run) + Total(Exec(r, s, run).calls) <= Total(s.calls)
    decreases |run|
  {
    hide Inv, Total, Move, Runnable;
    if run != [] {
      StepKeepsInv(r, s, run[0]);
      if run[0].Advance? { MoveLowersTotal(s, run[0].t, run[0].ok); }
      MovesAreBounded(r, Apply(r, s, run[0]), run[1..]);
    }
  }

  /**
   * Every call ends: once no further calls are made, the calls in progress take a bounded number of
   * steps, and as long as one of them is left some call can take a step. Any outcome of its bus call
   * will do except the one the regime rules out.
   */
  lemma EveryCallEnds(r: Regime, before: seq<Step>, after: seq<Step>)
    requires IsRun(r, Init(), before) && IsRun(r, Exec(r, Init(), before), after) && NoNewCalls(after)
    ensures Moves(after) <= Total(Exec(r, Init(), before).calls)
    ensures var s := Exec(r, Exec(r, Init(), before), after);
      s.calls != map[] ==> exists t :: Enabled(r, s, Advance(t, true))
  {
    hide Inv, Total, Move, Runnable, Moves, AgentsInRange;
    var m := Exec(r, Init(), before);
    var s := Exec(r, m, after);
    ReachedInv(r, before);
    RunKeepsInv(r, m, after);
    MovesAreBounded(r, m, after);
    if s.calls != map[] {
      var t :| t in s.calls;
      var u := SomebodyRuns(s, t);
      assert Enabled(r, s, Advance(u, true));
    }
  }
}

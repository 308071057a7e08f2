/**
 * Runs that break the tie between the daemon's registry and the export table, one for each of the
 * two assumptions, and with them the exact condition under which every run keeps it.
 */
module AgentTieLimits {
  import opened Common
  import opened AgentLifecycle
  import opened AgentTeardown
  import opened AgentTie

  lemma StartIsReached(r: Regime)
    ensures Reachable(r, Init())
  {
    assert IsRun(r, Init(), []) && Exec(r, Init(), []) == Init();
  }

  /** One more step of call `t`, its bus call succeeding. */
  lemma Next(r: Regime, s: State, t: Call) returns (n: State)
    requires Reachable(r, s) && t in s.calls && AgentsInRange(s.calls[t], |s.agents|) && Runnable(s, s.calls[t])
    ensures n == Move(s, t, s.calls[t], true) && Reachable(r, n)
  {
    Reach(r, s, Advance(t, true));
    n := Move(s, t, s.calls[t], true);
  }

  /** RegisterAgent up to the daemon's answer, from a state with a free slot and no registration. */
  lemma RegisterToBind(r: Regime, s: State, t: Call) returns (n: State)
    requires Reachable(r, s) && t !in s.calls && s.closeMu.None? && !s.closed && s.slot.None? && s.daemon.None?
    ensures Reachable(r, n)
    ensures n == s.(
      agents := s.agents + [Agent(false, false, false, Fresh, None, 0, 0)],
      closeMu := Some(t), exported := Some(|s.agents|), daemon := EntryOf(|s.agents|),
      calls := s.calls[t := RegBind(|s.agents|)])
  {
    hide Reachable;
    Reach(r, s, CallRegister(t));
    n := At(s, t, RegLock);
    n := Next(r, n, t);
    n := Next(r, n, t);
    n := Next(r, n, t);
    n := Next(r, n, t);
    n := Next(r, n, t);
    assert n.calls == s.calls[t := RegBind(|s.agents|)];
  }

  /** One agent, registered and handed out, and nothing in progress. */
  function OneRegistered(): State {
    Init().(agents := [Agent(true, true, true, Fresh, None, 0, 0)], slot := Some(0), exported := Some(0), daemon := EntryOf(0))
  }

  lemma OneRegisteredIsReached(r: Regime)
    ensures Reachable(r, OneRegistered())
  {
    hide Reachable;
    StartIsReached(r);
    var n := RegisterToBind(r, Init(), 0);
    n := Next(r, n, 0);
    n := Next(r, n, 0);
    n := Next(r, n, 0);
    assert n.calls == map[];
    assert n.agents == OneRegistered().agents;
  }

  /** An Unregister of that agent, by call 1, with the flag down. */
  function FlagDown(): State {
    OneRegistered().(agents := [Agent(true, false, true, Fresh, Some(1), 0, 0)], calls := map[1 := UnregDaemon(0, false)])
  }

  lemma FlagDownIsReached(r: Regime)
    ensures Reachable(r, FlagDown())
  {
    hide Reachable;
    OneRegisteredIsReached(r);
    Reach(r, OneRegistered(), CallUnregister(1, 0));
    var n := At(OneRegistered(), 1, UnregFlag(0, false));
    n := Next(r, n, 1);
    assert n == FlagDown();
  }

  /** The UnregisterAgent call fails, the object is unexported all the same. */
  lemma FailedUnregisterBreaksTheTie(r: Regime) returns (n: State)
    requires !r.unregisterWorks
    ensures Reachable(r, n) && !Tied(n)
  {
    hide Reachable;
    FlagDownIsReached(r);
    Reach(r, FlagDown(), Advance(1, false));
    n := Move(FlagDown(), 1, UnregDaemon(0, false), false);
    n := Next(r, n, 1);
  }

  /** A second Unregister, by call 2, finds the flag down, returns early and enters clearOnce. */
  lemma SecondUnregisterReturnsEarly(r: Regime) returns (n: State)
    requires !r.serial
    ensures Reachable(r, n)
    ensures n == FlagDown().(
      agents := [Agent(true, false, true, Running(2), Some(1), 0, 0)],
      calls := map[1 := UnregDaemon(0, false), 2 := ClearLock(0, false)])
  {
    hide Reachable;
    FlagDownIsReached(r);
    Reach(r, FlagDown(), CallUnregister(2, 0));
    n := At(FlagDown(), 2, UnregFlag(0, false));
    n := Next(r, n, 2);
    n := Next(r, n, 2);
    assert n.calls == map[1 := UnregDaemon(0, false), 2 := ClearLock(0, false)];
  }

  /** So it frees the slot under the first. */
  lemma OverlapFreesTheSlot(r: Regime) returns (n: State)
    requires !r.serial
    ensures Reachable(r, n)
    ensures n == FlagDown().(agents := [Agent(true, false, true, Done, Some(1), 0, 0)], slot := None)
  {
    hide Reachable;
    n := SecondUnregisterReturnsEarly(r);
    n := Next(r, n, 2);
    n := Next(r, n, 2);
    n := Next(r, n, 2);
    n := Next(r, n, 2);
    assert n.calls == FlagDown().calls;
  }

  /** Then a new agent is exported and registered, and the first Unregister unexports it. */
  lemma OverlapBreaksTheTie(r: Regime) returns (n: State)
    requires !r.serial
    ensures Reachable(r, n) && !Tied(n)
  {
    hide Reachable;
    n := OverlapFreesTheSlot(r);
    n := Next(r, n, 1);
    n := RegisterToBind(r, n, 2);
    n := Next(r, n, 1);
  }

  /** Each assumption is needed by itself: with everything else as it should be, a run without it breaks the tie. */
  lemma EachAssumptionIsNeeded()
    ensures exists n :: Reachable(Regime(false, true, true), n) && !Tied(n)
    ensures exists n :: Reachable(Regime(true, false, true), n) && !Tied(n)
  {
    hide Reachable, Tied;
    var m := OverlapBreaksTheTie(Regime(false, true, true));
    var n := FailedUnregisterBreaksTheTie(Regime(true, false, true));
  }

  /**
   * Every run keeps the tie if and only if callers never overlap Unregister on one handle and no
   * UnregisterAgent call fails. Whether unexporting can fail does not matter.
   */
  lemma TiedExactlyWhen(r: Regime)
    ensures (forall s :: Reachable(r, s) ==> Tied(s)) <==> r.serial && r.unregisterWorks
  {
    if r.serial && r.unregisterWorks {
      forall s | Reachable(r, s) ensures Tied(s) {
        var run :| IsRun(r, Init(), run) && Exec(r, Init(), run) == s;
        TieOfRun(r, run);
      }
    } else {
      hide Reachable, Tied;
      var n;
      if r.serial { n := FailedUnregisterBreaksTheTie(r); } else { n := OverlapBreaksTheTie(r); }
      assert Reachable(r, n) && !Tied(n);
    }
  }
}

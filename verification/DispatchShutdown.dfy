/**
 * What can still start once Close has set `closing` (internal/iwdbus/introspect.go): exactly the
 * handlers already counted and not yet started, in order. The count is taken under handlerMu, the
 * go statements that start the handlers come after it.
 */
module DispatchShutdown {
  import opened Common
  import opened DBusNames
  import opened SignalIndex
  import opened DispatchLifecycle

  /** Once closing is set, starting a handler only takes it out of the dispatcher's hand. */
  lemma StartedPlusPendingFixed(s: State, run: seq<Step>)
    requires Inv(s) && s.closing && IsRun(s, run)
    ensures var after := Exec(s, run); after.spawned + Pending(after) == s.spawned + Pending(s)
  {
    NoAddOnceClosing(s, run);
    RunKeepsInv(s, run);
    hide IsRun, Exec, Flatten, IdsFresh, CallersAgree, WaitsAgree, LocksAgree;
  }

  /** Whatever starts after closing is set was in hand then, and starts in that order. */
  lemma OnlyPendingStarts(run: seq<Step>, more: seq<Step>)
    requires IsRun(Init(), run) && Exec(Init(), run).closing && IsRun(Exec(Init(), run), more)
    ensures var s, after := Exec(Init(), run), Exec(Exec(Init(), run), more);
            s.spawned <= after.spawned <= s.spawned + Pending(s)
  {
    var s := Exec(Init(), run);
    InitInv();
    RunKeepsInv(Init(), run);
    hide Enabled, Apply;
    StartedPlusPendingFixed(s, more);
    SpawnedGrows(s, more);
  }

  lemma {:induction false} SpawnedGrows(s: State, run: seq<Step>)
    requires IsRun(s, run)
    ensures s.spawned <= Exec(s, run).spawned
    decreases |run|
  {
    if run != [] {
      StepGrowsSpawned(s, run[0]);
      hide Enabled, Apply;
      SpawnedGrows(Apply(s, run[0]), run[1..]);
    }
  }

  lemma StepGrowsSpawned(s: State, t: Step)
    requires Enabled(s, t)
    ensures s.spawned <= Apply(s, t).spawned
  {
    if !t.SpawnOne? && !t.TestClosing? {
      OtherStepKeepsCount(s, t);
      hide Enabled, Apply;
    }
  }

  /**
   * From a reached state in which closing is set, no run starts a handler if and only if none is in
   * hand; equally, if and only if the wait group counts just the handlers that are running.
   */
  lemma NoneStartsExactlyWhen(run: seq<Step>)
    requires IsRun(Init(), run) && Exec(Init(), run).closing
    ensures var s := Exec(Init(), run);
            && ((forall more | IsRun(s, more) :: Exec(s, more).spawned == s.spawned) <==> Pending(s) == [])
            && (Pending(s) == [] <==> s.wg == |s.running|)
  {
    var s := Exec(Init(), run);
    InitInv();
    RunKeepsInv(Init(), run);
    if Pending(s) == [] {
      forall more | IsRun(s, more) ensures Exec(s, more).spawned == s.spawned {
        StartedPlusPendingFixed(s, more);
        SpawnedGrows(s, more);
      }
    } else {
      PendingCanStart(s);
    }
    hide IsRun, Exec, Enabled, Apply, LocksAgree, WaitsAgree, CallersAgree, IdsFresh;
  }

  lemma PendingCanStart(s: State)
    requires LocksAgree(s) && s.closing && Pending(s) != []
    ensures IsRun(s, [SpawnOne]) && Exec(s, [SpawnOne]).spawned != s.spawned
  {
    assert Enabled(s, SpawnOne);
    Then(s, SpawnOne, []);
    assert [SpawnOne] + [] == [SpawnOne];
    assert Exec(Apply(s, SpawnOne), []) == Apply(s, SpawnOne);
  }

  lemma Then(s: State, step: Step, rest: seq<Step>)
    requires Enabled(s, step) && IsRun(Apply(s, step), rest)
    ensures IsRun(s, [step] + rest)
    ensures Exec(s, [step] + rest) == Exec(Apply(s, step), rest)
  {
    assert ([step] + rest)[1..] == rest;
  }

  // ---------- a handler does start after closing is set ----------

  ghost predicate Leads(a: State, b: State) {
    exists run :: IsRun(a, run) && Exec(a, run) == b
  }

  lemma LeadsHere(a: State)
    ensures Leads(a, a)
  {
    assert IsRun(a, []) && Exec(a, []) == a;
  }

  lemma OneMore(a: State, b: State, t: Step)
    requires Leads(a, b) && Enabled(b, t)
    ensures Leads(a, Apply(b, t))
  {
    hide Enabled, Apply;
    var run :| IsRun(a, run) && Exec(a, run) == b;
    Then(b, t, []);
    assert [t] + [] == [t];
    RunsCompose(a, run, [t]);
  }

  /** One catch-all registration, and the dispatcher about to start its handler for a signal. */
  function OneInHand(): State {
    Init().(live := [Registration(1, "*", "*", 0)], nextId := 1, dispatcher := Spawning([1]), dispatchCount := 1,
            wg := 1, accepted := [[1]])
  }

  /** Close has given up on the dispatcher and has just set closing. */
  function MarkedWithOneInHand(): State {
    OneInHand().(cancelled := true, attached := false, handlerMu := ByCloser, closing := true,
                 closer := Marked, dispatchWaiter := Waiting, callers := map[0 := InClose])
  }

  lemma CatchAllIsResolved()
    ensures IdsOf(ByKeys([Registration(1, "*", "*", 0)], "a.b")) == [1]
  {
    var r := Registration(1, "*", "*", 0);
    assert "a.b" == "a" + "." + "b";
    SplitUndoesKey("a", "b");
    KeysRefineMeaning([r], "a.b");
    hide ByKeys, SplitSignalName;
    assert ByMeaning([r], "a.b") == [r];
  }

  lemma SignalIsResolved()
    ensures Leads(Init(), OneInHand().(dispatcher := Resolved([1]), wg := 0, accepted := []))
  {
    CatchAllIsResolved();
    hide ByKeys, IdsOf, Leads;
    LeadsHere(Init());
    OneMore(Init(), Init(), StartDispatcher);
    var s1 := Init().(dispatcher := Selecting, dispatchCount := 1);
    OneMore(Init(), s1, AddEntry("*", "*", 0));
    var s2 := s1.(live := [Registration(1, "*", "*", 0)], nextId := 1);
    assert [] + [Registration(1, "*", "*", 0)] == [Registration(1, "*", "*", 0)];
    OneMore(Init(), s2, Deliver("a.b"));
    assert Apply(s2, Deliver("a.b")) == s2.(buffer := ["a.b"]);
    OneMore(Init(), s2.(buffer := ["a.b"]), Receive);
    assert Apply(s2.(buffer := ["a.b"]), Receive) == s2.(dispatcher := Received("a.b"));
    OneMore(Init(), s2.(dispatcher := Received("a.b")), Resolve);
  }

  lemma OneInHandIsReached()
    ensures Leads(Init(), OneInHand())
  {
    SignalIsResolved();
    hide ByKeys, IdsOf, Leads;
    var s := OneInHand().(dispatcher := Resolved([1]), wg := 0, accepted := []);
    OneMore(Init(), s, LockForSpawn);
    OneMore(Init(), s.(dispatcher := Locked([1]), handlerMu := ByDispatcher), TestClosing);
    assert [] + [[1]] == [[1]];
    assert Apply(s.(dispatcher := Locked([1]), handlerMu := ByDispatcher), TestClosing)
      == s.(dispatcher := Counted([1]), handlerMu := ByDispatcher, wg := 1, accepted := [[1]]);
    OneMore(Init(), s.(dispatcher := Counted([1]), handlerMu := ByDispatcher, wg := 1, accepted := [[1]]), UnlockAfterAdd);
  }

  lemma MarkedIsReached()
    ensures Leads(Init(), MarkedWithOneInHand())
  {
    OneInHandIsReached();
    hide ByKeys, IdsOf, Leads;
    OneMore(Init(), OneInHand(), CallClose(0));
    var s := OneInHand().(callers := map[0 := InClose], closer := Cancelling);
    OneMore(Init(), s, Cancel);
    OneMore(Init(), s.(closer := Removing, cancelled := true), RemoveSignal);
    var t := s.(cancelled := true, attached := false, dispatchWaiter := Waiting);
    OneMore(Init(), t.(closer := AwaitDispatcher), EndDispatchWait);
    OneMore(Init(), t.(closer := Locking), LockForClose);
    OneMore(Init(), t.(closer := Marking, handlerMu := ByCloser), MarkClosing);
  }

  lemma HandlerStarts()
    ensures Leads(MarkedWithOneInHand(), MarkedWithOneInHand().(
      dispatcher := Spawning([]), spawned := [1], running := [1], closer := AwaitHandlers, handlerWaiter := Waiting))
  {
    hide ByKeys, IdsOf, Leads, Flatten;
    var s := MarkedWithOneInHand();
    LeadsHere(s);
    OneMore(s, s, StartHandlerWait);
    OneMore(s, s.(closer := AwaitHandlers, handlerWaiter := Waiting), SpawnOne);
    assert [1][1..] == [] && [] + [1] == [1];
  }

  lemma HandlerFinishes()
    ensures Leads(MarkedWithOneInHand(), MarkedWithOneInHand().(
      dispatcher := Spawning([]), spawned := [1], wg := 0, closer := AwaitHandlers, handlerWaiter := Released))
  {
    HandlerStarts();
    hide ByKeys, IdsOf, Leads, Flatten;
    var s := MarkedWithOneInHand();
    var t := s.(dispatcher := Spawning([]), spawned := [1], closer := AwaitHandlers, handlerWaiter := Waiting);
    OneMore(s, t.(running := [1]), Finish(0));
    assert [1][..0] + [1][1..] == [];
    OneMore(s, t.(wg := 0), HandlerWaiterReturns);
  }

  /**
   * A handler starts after closing is set although the handler wait of Close does not give up: the
   * wait counts the handler in hand, and Close ends only after it has finished.
   */
  lemma HandlerStartsAfterClosing() returns (s: State, after: State)
    ensures Leads(Init(), s) && s.closer.Marked? && s.closing && s.spawned == []
    ensures Leads(s, after) && after.spawned == [1] && after.closer == Closed(false)
  {
    MarkedIsReached();
    HandlerFinishes();
    hide ByKeys, IdsOf, Leads;
    s := MarkedWithOneInHand();
    var t := s.(dispatcher := Spawning([]), spawned := [1], wg := 0, closer := AwaitHandlers, handlerWaiter := Released);
    OneMore(s, t, EndHandlerWait(false));
    OneMore(s, t.(closer := Unlocking(false)), UnlockAfterWait);
    OneMore(s, t.(closer := Settling(false), handlerMu := Free), Settle);
    after := t.(closer := Closed(false), handlerMu := Free);
  }
}

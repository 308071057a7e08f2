/**
 * The typed subscriptions over whole runs of the mock: when what a subscription has been given last is
 * what the next bulk read decodes, and runs in which it is not.
 */
module SubscriptionRuns {
  import opened Common
  import opened KnownNetworkPaths
  import opened ObjectTree
  import opened TreeReplay
  import opened TreeRuns
  import opened ClientView
  import opened ClientSubscriptions
  import C = ClientReads

  // ---------- one step, seen from the devices ----------

  /** What becomes of a device in a step. */
  function Moved(f: Flags, s: State, step: Step, d: Obj): Obj
    requires Enabled(s, step) && d.Device?
  {
    if s.objs[step.i] == d then CallOne(f, d, step.call).obj else d
  }

  lemma DeviceStays(f: Flags, o: Obj, call: Call)
    requires Callable(o, call) && OneObjectCall(call)
    ensures CallOne(f, o, call).obj.Device? <==> o.Device?
  {
    if o.Device? {
      if StationTalk(call) { StationCallTold(f, o, call, {o.path}); } else { OtherCallsLeaveStation(f, o, call); }
      hide CallOne;
    }
  }

  lemma DeviceMoves(f: Flags, s: State, step: Step, d: Obj)
    requires WellFormed(s.objs) && Enabled(s, step) && d in s.objs && d.Device?
    ensures var n := Moved(f, s, step, d); n in Apply(f, s, step).objs && n.Device? && n.path == d.path
  {
    var o, after := s.objs[step.i], Apply(f, s, step).objs;
    var j :| 0 <= j < |s.objs| && s.objs[j] == d;
    if step.call.Forget? {
      ForgottenMembers(s.objs, step.i, d);
      assert d == UnlinkOne(d, o.path);
    } else if step.call.Connect? {
      assert after[j] == d;
    } else {
      CallConfined(f, o, step.call);
      DeviceStays(f, o, step.call);
      hide CallOne;
      assert after[if o == d then step.i else j] == Moved(f, s, step, d);
    }
  }

  lemma UpdatedDevice(objs: seq<Obj>, i: nat, m: Obj, n: Obj) returns (d: Obj)
    requires WellFormed(objs) && i < |objs| && n in objs[i := m] && n.Device? && m.path == objs[i].path && (m.Device? <==> objs[i].Device?)
    ensures d in objs && d.Device? && d.path == n.path && n == if d == objs[i] then m else d
  {
    var j :| 0 <= j < |objs| && objs[i := m][j] == n;
    d := objs[j];
  }

  /** No step makes a device. */
  lemma DeviceComesFrom(f: Flags, s: State, step: Step, n: Obj) returns (d: Obj)
    requires WellFormed(s.objs) && Enabled(s, step) && n in Apply(f, s, step).objs && n.Device?
    ensures d in s.objs && d.Device? && d.path == n.path && n == Moved(f, s, step, d)
  {
    hide CallOne, PathFor, UnlinkSignals;
    var o := s.objs[step.i];
    if step.call.Forget? {
      ForgottenMembers(s.objs, step.i, n);
      d :| d in s.objs && d.path != o.path && n == UnlinkOne(d, o.path);
    } else if step.call.Connect? {
      assert forall m :: m in Apply(f, s, step).objs && m.Device? ==> m in s.objs;
      d := n;
    } else {
      CallConfined(f, o, step.call);
      DeviceStays(f, o, step.call);
      d := UpdatedDevice(s.objs, step.i, CallOne(f, o, step.call).obj, n);
    }
  }

  lemma {:induction false} UnlinkSignalsAreOfNetworks(objs: seq<Obj>, known: string)
    ensures forall s :: s in UnlinkSignals(objs, known) ==> s.Changed? && s.iface == INetwork
  {
    if objs != [] { UnlinkSignalsAreOfNetworks(objs[..|objs| - 1], known); }
  }

  lemma OnlyDevicesTalk(o: Obj, iface: Iface, key: Key, v: Variant)
    requires o.Adapter? || o.Known?
    ensures SilentOn(IStation, SetOther(o, iface, key, v).signals) && SilentOn(IAccessPoint, SetOther(o, iface, key, v).signals)
  {
  }

  /** A handler of a device interface hears the device that was called, if its signals reach it, and nothing else. */
  lemma StepHeard(f: Flags, s: State, step: Step, iface: Iface, heard: set<string>)
    requires Enabled(s, step) && (iface == IStation || iface == IAccessPoint)
    ensures var o := s.objs[step.i];
      Heard(iface, heard, Perform(f, s.objs, step.i, step.call).signals) ==
      if o.Device? && o.path in heard then Heard(iface, heard, CallOne(f, o, step.call).signals) else []
  {
    var o, signals := s.objs[step.i], Perform(f, s.objs, step.i, step.call).signals;
    if !(o.Device? && o.path in heard) {
      if step.call.Forget? {
        UnlinkSignalsAreOfNetworks(s.objs, o.path);
      } else if step.call.Connect? {
      } else if o.Device? {
        CallConfined(f, o, step.call);
        hide CallOne;
      } else {
        OnlyDevicesTalk(o, step.call.iface, step.call.key, step.call.value);
        hide SetOther;
      }
      HeardNothing(iface, heard, signals);
    }
  }

  // ---------- station subscriptions ----------

  /** No other device whose signals reach the handler has a station, or could be given one. */
  ghost predicate Undisturbed(f: Flags, objs: seq<Obj>, heard: set<string>, path: string) {
    && path in heard
    && forall o :: o in objs && o.Device? && o.path in heard && o.path != path ==> !o.hasStation && f.omitStation
  }

  /** A device without a station says nothing of one, but for a scan that was pending when it was taken away. */
  lemma NoStationLittleTalk(f: Flags, e: Obj, call: Call, heard: set<string>)
    requires e.Device? && Callable(e, call) && OneObjectCall(call) && !e.hasStation && f.omitStation && e.path in heard
    ensures var r := CallOne(f, e, call); r.obj.Device? && !r.obj.hasStation
    ensures var events := Heard(IStation, heard, CallOne(f, e, call).signals);
      events == [] || events == [EventOf(IStation, map[KScanning := Bool(false)], [])]
  {
    hide EventOf, LostIfaces, GainedIfaces, Carried, GainedExports;
    var r := CallOne(f, e, call);
    if call.StationScanEnds? {
      HeardOne(IStation, heard, r.signals[0]);
    } else {
      if !StationTalk(call) { OtherCallsLeaveStation(f, e, call); }
      HeardNothing(IStation, heard, r.signals);
    }
  }

  lemma ScanEndSaysNothingElse<T(!new)>(sub: C.Subscription<T>, key: Key, held: T)
    requires Reads(sub, IStation, key) && key != KScanning
    ensures C.HearAll(sub, held, [EventOf(IStation, map[KScanning := Bool(false)], [])]) == held
  {
    var changed: Props := map[KScanning := Bool(false)];
    assert sub.name in Entries(IStation, changed) <==> key in changed;
    var ev := EventOf(IStation, changed, []);
    assert C.Hear(sub, held, ev) == held;
    assert [ev][1..] == [];
    hide Entries;
  }

  lemma UndisturbedStays(f: Flags, s: State, step: Step, heard: set<string>, path: string)
    requires WellFormed(s.objs) && Enabled(s, step) && Undisturbed(f, s.objs, heard, path)
    ensures Undisturbed(f, Apply(f, s, step).objs, heard, path)
  {
    forall n | n in Apply(f, s, step).objs && n.Device? && n.path in heard && n.path != path ensures !n.hasStation && f.omitStation {
      var d := DeviceComesFrom(f, s, step, n);
      if n != d { NoStationLittleTalk(f, d, step.call, heard); }
      hide CallOne, Apply, WellFormed;
    }
  }

  lemma StationHeldOverStep<T(!new)>(sub: C.Subscription<T>, key: Key, held: T, f: Flags, s: State, step: Step, heard: set<string>, d: Obj)
    requires d.Device? && Reads(sub, IStation, key) && key != KScanning && C.Agrees(sub, held, Entries(IStation, StationProps(d)))
    requires WellFormed(s.objs) && Enabled(s, step) && d in s.objs && Undisturbed(f, s.objs, heard, d.path)
    ensures var n, signals := Moved(f, s, step, d), Perform(f, s.objs, step.i, step.call).signals;
      n.Device? && C.Agrees(sub, C.HearAll(sub, held, Heard(IStation, heard, signals)), Entries(IStation, StationProps(n)))
  {
    hide Reads, C.Agrees, Entries, StationProps, CallOne, Perform, EventOf, Heard;
    var o := s.objs[step.i];
    StepHeard(f, s, step, IStation, heard);
    if o == d {
      StationCallTold(f, d, step.call, heard);
      var n := CallOne(f, d, step.call).obj;
      ToldIsHeard(sub, key, held, IStation, StationProps(d), StationProps(n), Heard(IStation, heard, CallOne(f, d, step.call).signals));
    } else if o.Device? && o.path in heard {
      OneAtEachPathApart(s.objs, o, d);
      NoStationLittleTalk(f, o, step.call, heard);
      ScanEndSaysNothingElse(sub, key, held);
    }
  }

  lemma OneAtEachPathApart(objs: seq<Obj>, a: Obj, b: Obj)
    requires WellFormed(objs) && a in objs && b in objs && a != b
    ensures a.path != b.path
  {
    if a.path == b.path { OneAtEachPath(objs, a, b); }
  }

  /** From any state on, over any run, the subscription ends at what the device then decodes to. */
  lemma {:induction false} StationHeldOverRun<T(!new)>(sub: C.Subscription<T>, key: Key, held: T, f: Flags, s: State, run: seq<Step>, heard: set<string>, d: Obj)
    requires Reads(sub, IStation, key) && key != KScanning && IsRun(f, s, run)
    requires WellFormed(s.objs) && d in s.objs && d.Device? && Undisturbed(f, s.objs, heard, d.path)
    requires C.Agrees(sub, held, Entries(IStation, StationProps(d)))
    ensures var o := ObjAt(Exec(f, s, run).objs, d.path);
      o.Some? && o.value.Device? && C.Agrees(sub, C.HearAll(sub, held, Heard(IStation, heard, Said(f, s, run))), Entries(IStation, StationProps(o.value)))
    decreases |run|
  {
    hide Reads, C.Agrees, Entries, StationProps, WellFormed, Undisturbed, Callable, Apply, Perform, Moved;
    if run == [] {
      ShownAtWellFormed(s.objs, d);
    } else {
      var next, n := Apply(f, s, run[0]), Moved(f, s, run[0], d);
      var signals, rest := Perform(f, s.objs, run[0].i, run[0].call).signals, Said(f, Apply(f, s, run[0]), run[1..]);
      PerformKeepsWellFormedStep(f, s, run[0]);
      DeviceMoves(f, s, run[0], d);
      UndisturbedStays(f, s, run[0], heard, d.path);
      StationHeldOverStep(sub, key, held, f, s, run[0], heard, d);
      HeardInTwo(IStation, heard, signals, rest);
      C.HearInTwo(sub, held, Heard(IStation, heard, signals), Heard(IStation, heard, rest));
      StationHeldOverRun(sub, key, C.HearAll(sub, held, Heard(IStation, heard, signals)), f, next, run[1..], heard, n);
    }
  }

  lemma ShownAtWellFormed(objs: seq<Obj>, o: Obj)
    requires WellFormed(objs) && o in objs
    ensures ObjAt(objs, o.path) == Some(o)
  {
    ShownAt(objs, o);
  }

  // -- against bulk reads of the live tree

  lemma StationDecodes(objs: seq<Obj>, d: Obj)
    requires WellFormed(objs) && d in objs && d.Device?
    ensures StationAt(Snapshot(objs), d.path) == if d.hasStation then Some(C.StationSingles(StationServer(StationProps(d)))) else None
  {
    SnapshotShows(objs, d.path);
    ShownAt(objs, d);
    hide WellFormed, Snapshot, At, StationServer, StationProps, AccessPointProps, DeviceProps, C.StationSingles;
  }

  /** The fields of a bulk read are what the subscriptions compare with. */
  lemma StationFieldsAreFresh(props: Props)
    requires C.StationSingles(StationServer(props)).Some?
    ensures var r := C.StationSingles(StationServer(props)).value;
      && C.Fresh(C.ConnectedNetworkChanged(), Entries(IStation, props)) == Ok(r.network)
      && C.Fresh(C.ConnectedAccessPointChanged(), Entries(IStation, props)) == Ok(r.ap)
      && C.Fresh(C.AffinitiesChanged(), Entries(IStation, props)) == Ok(r.affinities)
  {
    hide Field, C.ParseState, C.ParseOptionalPath, C.ParseAffinities;
  }

  /** After the run the three subscriptions, started from a bulk read, hold what the next bulk read returns. */
  ghost predicate StationFollows(f: Flags, objs: seq<Obj>, run: seq<Step>, heard: set<string>, path: string)
    requires IsRun(f, Start(objs), run)
  {
    var start, end := StationAt(Snapshot(objs), path), StationAt(Snapshot(Exec(f, Start(objs), run).objs), path);
    var events := Heard(IStation, heard, Said(f, Start(objs), run));
    start.Some? && start.value.Some? && end.Some? && end.value.Some? ==>
      && C.HearAll(C.ConnectedNetworkChanged(), start.value.value.network, events) == end.value.value.network
      && C.HearAll(C.ConnectedAccessPointChanged(), start.value.value.ap, events) == end.value.value.ap
      && C.HearAll(C.AffinitiesChanged(), start.value.value.affinities, events) == end.value.value.affinities
  }

  lemma UndisturbedFollows(f: Flags, objs: seq<Obj>, run: seq<Step>, heard: set<string>, d: Obj)
    requires WellFormed(objs) && d in objs && d.Device? && IsRun(f, Start(objs), run) && Undisturbed(f, objs, heard, d.path)
    ensures StationFollows(f, objs, run, heard, d.path)
  {
    hide WellFormed, Undisturbed, Reads, Snapshot, IsRun, Heard, Said, Exec, C.StationSingles, StationServer, StationProps, StationAt, C.HearAll, Entries;
    var s := Start(objs);
    StationDecodes(objs, d);
    if d.hasStation && C.StationSingles(StationServer(StationProps(d))).Some? {
      var start := C.StationSingles(StationServer(StationProps(d))).value;
      StationFieldsAreFresh(StationProps(d));
      StationSubscriptionsRead();
      StationHeldOverRun(C.ConnectedNetworkChanged(), KConnectedNetwork, start.network, f, s, run, heard, d);
      StationHeldOverRun(C.ConnectedAccessPointChanged(), KConnectedAccessPoint, start.ap, f, s, run, heard, d);
      StationHeldOverRun(C.AffinitiesChanged(), KAffinities, start.affinities, f, s, run, heard, d);
      var n := ObjAt(Exec(f, s, run).objs, d.path).value;
      RunKeepsWellFormed(f, s, run);
      StationDecodes(Exec(f, s, run).objs, n);
      if n.hasStation && C.StationSingles(StationServer(StationProps(n))).Some? { StationFieldsAreFresh(StationProps(n)); }
    }
  }

  // -- another station that is heard

  /** A list of affinities that is not the one held. */
  function OtherAffinities(held: Option<seq<string>>): seq<string> {
    if held == Some([]) then ["/"] else []
  }

  lemma OtherAffinitiesHeard(held: Option<seq<string>>)
    ensures C.HearAll(C.AffinitiesChanged(), held, [EventOf(IStation, map[KAffinities := Paths(OtherAffinities(held))], [])])
      == Some(OtherAffinities(held))
    ensures Some(OtherAffinities(held)) != held
  {
    var changed: Props := map[KAffinities := Paths(OtherAffinities(held))];
    var ev := EventOf(IStation, changed, []);
    StationServerHolds(changed);
    assert ev.changed["Affinities"] == C.PathsV(OtherAffinities(held));
    assert C.AllValid(OtherAffinities(held));
    assert [ev][1..] == [];
    hide StationServer;
  }

  /** A station that is heard sets its own affinities. */
  lemma ForeignSetMisleads(f: Flags, s: State, j: nat, heard: set<string>, held: Option<seq<string>>)
    requires j < |s.objs| && s.objs[j].Device? && s.objs[j].hasStation && s.objs[j].path in heard
    ensures var step := Step(j, Call.Set(IStation, KAffinities, Paths(OtherAffinities(held))));
      Enabled(s, step) && C.HearAll(C.AffinitiesChanged(), held, Heard(IStation, heard, Perform(f, s.objs, j, step.call).signals)) != held
  {
    var changed: Props := map[KAffinities := Paths(OtherAffinities(held))];
    OtherAffinitiesHeard(held);
    HeardOne(IStation, heard, Changed(s.objs[j].path, IStation, changed, []));
    hide EventOf, OtherAffinities;
  }

  /** A device without a station is given one, which no station handler hears. */
  lemma GivenAStation(f: Flags, s: State, j: nat, heard: set<string>)
    requires j < |s.objs| && s.objs[j].Device? && !s.objs[j].hasStation && !f.omitStation
    ensures var step := Step(j, Call.Set(IDevice, KMode, Text("station")));
      && Enabled(s, step) && Heard(IStation, heard, Perform(f, s.objs, j, step.call).signals) == []
      && var e := Apply(f, s, step).objs[j]; e.Device? && e.hasStation && e.path == s.objs[j].path && |Apply(f, s, step).objs| == |s.objs|
  {
    var d := s.objs[j];
    var step := Step(j, Call.Set(IDevice, KMode, Text("station")));
    SetLeavesStation(f, d, IDevice, KMode, Text("station"));
    HeardNothing(IStation, heard, Perform(f, s.objs, j, step.call).signals);
    hide LostIfaces, GainedIfaces, Carried, GainedExports;
  }

  /** From any state, a heard station that sets its affinities parts the subscription from the device. */
  lemma ForeignStepMisleads(f: Flags, s: State, j: nat, heard: set<string>, d: Obj, held: Option<seq<string>>) returns (step: Step)
    requires WellFormed(s.objs) && j < |s.objs| && s.objs[j].Device? && s.objs[j].hasStation && s.objs[j].path in heard
    requires d in s.objs && d.Device? && d.path != s.objs[j].path
    ensures Enabled(s, step) && d in Apply(f, s, step).objs && WellFormed(Apply(f, s, step).objs)
    ensures C.HearAll(C.AffinitiesChanged(), held, Heard(IStation, heard, Said(f, s, [step]))) != held
  {
    step := Step(j, Call.Set(IStation, KAffinities, Paths(OtherAffinities(held))));
    ForeignSetMisleads(f, s, j, heard, held);
    DeviceMoves(f, s, step, d);
    PerformKeepsWellFormedStep(f, s, step);
    hide WellFormed, Perform, C.HearAll, OtherAffinities;
    assert [step][1..] == [];
    assert Said(f, s, [step]) == Perform(f, s.objs, j, step.call).signals + [];
    assert Perform(f, s.objs, j, step.call).signals + [] == Perform(f, s.objs, j, step.call).signals;
  }

  lemma RunOfOne(f: Flags, s: State, step: Step)
    requires Enabled(s, step)
    ensures IsRun(f, s, [step]) && Exec(f, s, [step]) == Apply(f, s, step)
  {
    assert [step][1..] == [];
    hide Apply;
  }

  lemma RunOfOneMore(f: Flags, s: State, step: Step, run: seq<Step>)
    requires Enabled(s, step) && IsRun(f, Apply(f, s, step), run)
    ensures IsRun(f, s, [step] + run) && Exec(f, s, [step] + run) == Exec(f, Apply(f, s, step), run)
    ensures Said(f, s, [step] + run) == Perform(f, s.objs, step.i, step.call).signals + Said(f, Apply(f, s, step), run)
  {
    assert ([step] + run)[1..] == run;
    hide Apply, Perform;
  }

  lemma ForeignStationMisleads(f: Flags, objs: seq<Obj>, j: nat, heard: set<string>, d: Obj) returns (run: seq<Step>)
    requires WellFormed(objs) && d in objs && d.Device? && d.hasStation && C.StationSingles(StationServer(StationProps(d))).Some?
    requires j < |objs| && objs[j].Device? && objs[j].path in heard && objs[j].path != d.path && (objs[j].hasStation || !f.omitStation)
    ensures IsRun(f, Start(objs), run) && !StationFollows(f, objs, run, heard, d.path)
  {
    hide WellFormed, Snapshot, Heard, C.StationSingles, StationServer, StationProps, StationAt, C.HearAll, Entries, Perform, Callable;
    var s := Start(objs);
    var held := C.StationSingles(StationServer(StationProps(d))).value.affinities;
    StationDecodes(objs, d);
    if objs[j].hasStation {
      var step := ForeignStepMisleads(f, s, j, heard, d, held);
      run := [step];
      RunOfOne(f, s, step);
      StationDecodes(Apply(f, s, step).objs, d);
    } else {
      var first := Step(j, Call.Set(IDevice, KMode, Text("station")));
      GivenAStation(f, s, j, heard);
      DeviceMoves(f, s, first, d);
      PerformKeepsWellFormedStep(f, s, first);
      var next := Apply(f, s, first);
      var step := ForeignStepMisleads(f, next, j, heard, d, held);
      run := [first] + [step];
      RunOfOne(f, next, step);
      RunOfOneMore(f, s, first, [step]);
      HeardInTwo(IStation, heard, Perform(f, s.objs, j, first.call).signals, Said(f, next, [step]));
      assert Heard(IStation, heard, Said(f, s, run)) == Heard(IStation, heard, Said(f, next, [step]));
      assert Exec(f, s, run) == Apply(f, next, step);
      StationDecodes(Apply(f, next, step).objs, d);
    }
  }

  /**
   * Over every run the subscriptions of a station end at what the next bulk read returns, exactly when
   * no other device that reaches the handler has a station or can be given one.
   */
  lemma StationFollowsEveryRunExactlyWhen(f: Flags, objs: seq<Obj>, heard: set<string>, d: Obj)
    requires WellFormed(objs) && d in objs && d.Device? && d.hasStation && d.path in heard
    requires C.StationSingles(StationServer(StationProps(d))).Some?
    ensures (forall run: seq<Step> :: IsRun(f, Start(objs), run) ==> StationFollows(f, objs, run, heard, d.path))
      <==> Undisturbed(f, objs, heard, d.path)
  {
    hide WellFormed, StationFollows, IsRun, C.StationSingles, StationServer, StationProps;
    if Undisturbed(f, objs, heard, d.path) {
      forall run: seq<Step> | IsRun(f, Start(objs), run) ensures StationFollows(f, objs, run, heard, d.path) {
        UndisturbedFollows(f, objs, run, heard, d);
      }
    } else {
      var e :| e in objs && e.Device? && e.path in heard && e.path != d.path && (e.hasStation || !f.omitStation);
      var j :| 0 <= j < |objs| && objs[j] == e;
      var run := ForeignStationMisleads(f, objs, j, heard, d);
    }
  }
}

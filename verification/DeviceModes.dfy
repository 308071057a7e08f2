/**
 * The mode-specific interfaces of a device: over every run, whatever strings Mode is set to and
 * whatever the flags omit, the flags, the exports, the introspection, the ObjectManager entry and
 * the Mode property say the same.
 */
module DeviceModes {
  import opened Common
  import opened ObjectTree
  import opened TreeReplay
  import opened TreeRuns

  predicate ModeAgrees(f: Flags, d: Obj)
    requires d.Device?
  {
    && (d.hasStation <==> d.mode == "station" && !f.omitStation)
    && (d.hasAp <==> d.mode == "ap" && !f.omitAccessPoint)
    && d.exports == Carried(f, d.hasStation, d.hasAp)
    && d.introspected == d.exports
  }

  ghost predicate ModesAgree(f: Flags, objs: seq<Obj>) {
    forall d :: d in objs && d.Device? ==> ModeAgrees(f, d)
  }

  /** Taking the lost interfaces down and putting the new ones up leaves exactly the carried ones. */
  lemma SwapCarries(f: Flags, d: Obj, station: bool, ap: bool)
    requires d.Device? && d.exports == Carried(f, d.hasStation, d.hasAp)
    ensures (d.exports - (set i | i in LostIfaces(f, d.hasStation, station, d.hasAp, ap)))
            + GainedExports(f, d.hasStation, station, d.hasAp, ap)
         == Carried(f, station, ap)
  {
    LostExactly(f, d, station, ap);
    hide LostIfaces;
  }

  lemma SetModeAgrees(f: Flags, d: Obj, mode: string)
    requires d.Device? && d.exports == Carried(f, d.hasStation, d.hasAp) && d.introspected == d.exports
    ensures var n := SwitchMode(f, d.(mode := mode), mode).0; n.Device? && ModeAgrees(f, n)
  {
    var station, ap := mode == "station" && !f.omitStation, mode == "ap" && !f.omitAccessPoint;
    SwapCarries(f, d.(mode := mode), station, ap);
    hide Carried, LostIfaces, GainedIfaces;
    assert mode == "station" ==> mode != "ap";
  }

  predicate SameMode(d: Obj, n: Obj) {
    && d.Device? && n.Device? && n.mode == d.mode && n.hasStation == d.hasStation && n.hasAp == d.hasAp
    && n.exports == d.exports && n.introspected == d.introspected
  }

  lemma OtherSetsKeepMode(f: Flags, d: Obj, iface: Iface, key: Key, v: Variant)
    requires d.Device? && !(iface == IDevice && key == KMode && v.Text?)
    ensures SameMode(d, SetDevice(f, d, iface, key, v).obj)
  {
  }

  lemma OtherCallsKeepMode(f: Flags, d: Obj, call: Call)
    requires d.Device? && Callable(d, call) && OneObjectCall(call) && !call.Set?
    ensures SameMode(d, CallOne(f, d, call).obj)
  {
  }

  lemma CallKeepsModeAgreement(f: Flags, d: Obj, call: Call)
    requires d.Device? && Callable(d, call) && OneObjectCall(call) && ModeAgrees(f, d)
    ensures var n := CallOne(f, d, call).obj; n.Device? && ModeAgrees(f, n)
  {
    if call.Set? && call.iface == IDevice && call.key == KMode && call.value.Text? {
      SetModeAgrees(f, d, call.value.s);
      hide SwitchMode;
    } else if call.Set? {
      OtherSetsKeepMode(f, d, call.iface, call.key, call.value);
      hide SetDevice;
    } else {
      OtherCallsKeepMode(f, d, call);
      hide CallOne;
    }
  }

  lemma ForgetKeepsModes(f: Flags, objs: seq<Obj>, i: nat)
    requires Distinct(objs) && ModesAgree(f, objs) && i < |objs| && objs[i].Known?
    ensures ModesAgree(f, ForgetKnown(objs, i).objs)
  {
    hide ModeAgrees, Unlink;
    forall m | m in ForgetKnown(objs, i).objs && m.Device? ensures ModeAgrees(f, m) { ForgottenMembers(objs, i, m); }
  }

  lemma ConnectKeepsModes(f: Flags, objs: seq<Obj>, i: nat, answer: Answer)
    requires ModesAgree(f, objs) && i < |objs| && objs[i].Network?
    ensures ModesAgree(f, ConnectNetwork(objs, i, answer).objs)
  {
    hide ModeAgrees;
    forall m | m in ConnectNetwork(objs, i, answer).objs && m.Device? ensures ModeAgrees(f, m) { assert m in objs; }
  }

  lemma UpdateKeepsModes(f: Flags, objs: seq<Obj>, i: nat, n: Obj)
    requires ModesAgree(f, objs) && i < |objs| && (n.Device? ==> ModeAgrees(f, n))
    ensures ModesAgree(f, objs[i := n])
  {
    hide ModeAgrees;
  }

  lemma StepKeepsModes(f: Flags, s: State, step: Step)
    requires Distinct(s.objs) && ModesAgree(f, s.objs) && Enabled(s, step)
    ensures ModesAgree(f, Apply(f, s, step).objs)
  {
    var o := s.objs[step.i];
    if step.call.Forget? {
      ForgetKeepsModes(f, s.objs, step.i);
    } else if step.call.Connect? {
      ConnectKeepsModes(f, s.objs, step.i, step.call.answer);
    } else {
      if o.Device? { CallKeepsModeAgreement(f, o, step.call); } else { OnlyDevicesBecomeDevices(f, o, step.call); }
      hide ModesAgree, ModeAgrees, CallOne;
      UpdateKeepsModes(f, s.objs, step.i, CallOne(f, o, step.call).obj);
    }
    hide ModesAgree;
  }

  lemma OnlyDevicesBecomeDevices(f: Flags, o: Obj, call: Call)
    requires Callable(o, call) && OneObjectCall(call) && !o.Device?
    ensures !CallOne(f, o, call).obj.Device?
  {
  }

  lemma {:induction false} RunKeepsModes(f: Flags, s: State, run: seq<Step>)
    requires WellFormed(s.objs) && ModesAgree(f, s.objs) && IsRun(f, s, run)
    ensures ModesAgree(f, Exec(f, s, run).objs)
    decreases |run|
  {
    if run != [] {
      PerformKeepsWellFormedStep(f, s, run[0]);
      StepKeepsModes(f, s, run[0]);
      hide WellFormed, ModesAgree, Enabled, Apply;
      RunKeepsModes(f, Apply(f, s, run[0]), run[1..]);
    }
  }

  /** What an agreeing device carries: at most one mode interface, the one its Mode names. */
  lemma AgreeingDevice(f: Flags, d: Obj)
    requires d.Device? && ModeAgrees(f, d)
    ensures !(d.hasStation && d.hasAp)
    ensures IStation in d.exports <==> d.mode == "station" && !f.omitStation
    ensures IAccessPoint in d.exports <==> d.mode == "ap" && !f.omitAccessPoint
    ensures IWsc in d.exports <==> d.mode == "station" && !f.omitStation && !f.omitWsc
    ensures d.introspected == d.exports
    ensures IfacesOf(d).Keys == d.exports - {IWsc}
  {
    assert d.mode == "station" ==> d.mode != "ap";
    hide Assemble;
  }

  /**
   * After any run a device never carries both mode interfaces; each is there exactly in its mode
   * unless omitted; and the bus answers for, introspection lists and ObjectManager shows the same
   * interfaces, but for SimpleConfiguration, which ObjectManager never lists.
   */
  lemma ModeDecidesInterfaces(f: Flags, objs: seq<Obj>, run: seq<Step>, d: Obj)
    requires WellFormed(objs) && ModesAgree(f, objs) && IsRun(f, Start(objs), run)
    requires d in Exec(f, Start(objs), run).objs && d.Device?
    ensures !(d.hasStation && d.hasAp)
    ensures IStation in d.exports <==> d.mode == "station" && !f.omitStation
    ensures IAccessPoint in d.exports <==> d.mode == "ap" && !f.omitAccessPoint
    ensures IWsc in d.exports <==> d.mode == "station" && !f.omitStation && !f.omitWsc
    ensures d.introspected == d.exports
    ensures At(Snapshot(Exec(f, Start(objs), run).objs), d.path).Keys == d.exports - {IWsc}
  {
    var s := Exec(f, Start(objs), run);
    RunKeepsModes(f, Start(objs), run);
    RunKeepsWellFormed(f, Start(objs), run);
    hide Exec, IsRun, ModeAgrees, IfacesOf, Snapshot;
    AgreeingDevice(f, d);
    SnapshotShows(s.objs, d.path);
    ShownAt(s.objs, d);
  }
}

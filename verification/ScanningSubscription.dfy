/**
 * The Scanning subscription of an access point, which looks at new values only: over every run of the
 * mock, exactly when it differs from what the next bulk read decodes.
 */
module ScanningSubscription {
  import opened Common
  import opened KnownNetworkPaths
  import opened ObjectTree
  import opened TreeReplay
  import opened TreeRuns
  import opened ClientView
  import opened ClientDecodes
  import opened ClientSubscriptions
  import opened SubscriptionRuns
  import C = ClientReads

  /** Of the devices, only this one reaches the handler. */
  ghost predicate Alone(objs: seq<Obj>, heard: set<string>, path: string) {
    path in heard && forall o :: o in objs && o.Device? && o.path in heard ==> o.path == path
  }

  /** What an accepted call says about Scanning: a scan that it is on, a start or the end of a scan that it is off. */
  function WordAfter(f: Flags, d: Obj, call: Call, word: bool): bool
    requires d.Device? && Callable(d, call)
  {
    if CallOne(f, d, call).outcome != Done then word
    else if call.ApScan? then true
    else word && !Starts(call) && !call.ApScanEnds?
  }

  /** The last word on Scanning of the devices that reach the handler. */
  function LastWord(f: Flags, s: State, run: seq<Step>, heard: set<string>, word: bool): bool
    requires IsRun(f, s, run)
    decreases |run|
  {
    if run == [] then word
    else
      var o := s.objs[run[0].i];
      LastWord(f, Apply(f, s, run[0]), run[1..], heard, if o.Device? && o.path in heard then WordAfter(f, o, run[0].call, word) else word)
  }

  /** Whether an access point start has been accepted since the pending scan began, after one more call. */
  function SupersededBy(f: Flags, d: Obj, call: Call, was: bool): bool
    requires d.Device? && Callable(d, call)
  {
    if CallOne(f, d, call).outcome != Done then was
    else if call.ApScan? then false
    else was || Starts(call)
  }

  /** The same after a run. */
  function Superseded(f: Flags, s: State, run: seq<Step>, path: string, was: bool): bool
    requires IsRun(f, s, run)
    decreases |run|
  {
    if run == [] then was
    else
      var o := s.objs[run[0].i];
      Superseded(f, Apply(f, s, run[0]), run[1..], path, if o.Device? && o.path == path then SupersededBy(f, o, run[0].call, was) else was)
  }

  lemma ScanningHeard(held: bool, changed: Props, invalidated: seq<Key>)
    ensures C.HearAll(C.ApScanningChanged(), held, [EventOf(IAccessPoint, changed, invalidated)]) ==
      if KScanning in changed && changed[KScanning].Bool? then changed[KScanning].b else held
  {
    var ev := EventOf(IAccessPoint, changed, invalidated);
    ApServerHolds(changed);
    assert [ev][1..] == [];
    hide ApServer;
  }

  predicate ApTalk(call: Call) {
    call.ApStart? || call.ApStartProfile? || call.ApStop? || call.ApScan? || call.ApScanEnds?
  }

  predicate SameScanning(d: Obj, n: Obj) {
    d.Device? && n.Device? && n.apScanning == d.apScanning && n.apStarted == d.apStarted
  }

  lemma ModeSetLeavesScanning(f: Flags, d: Obj, mode: string)
    requires d.Device?
    ensures SameScanning(d, SetDevice(f, d, IDevice, KMode, Text(mode)).obj)
  {
    SwitchLeavesScanning(f, d.(mode := mode), mode);
    hide SwitchMode;
  }

  lemma OtherSetLeavesScanning(f: Flags, d: Obj, iface: Iface, key: Key, v: Variant)
    requires d.Device? && !(iface == IDevice && key == KMode && v.Text?)
    ensures var e := SetDevice(f, d, iface, key, v); SameScanning(d, e.obj) && SilentOn(IAccessPoint, e.signals)
  {
    hide SwitchMode;
  }

  lemma SetLeavesScanning(f: Flags, d: Obj, iface: Iface, key: Key, v: Variant)
    requires d.Device?
    ensures var e := SetDevice(f, d, iface, key, v); SameScanning(d, e.obj) && SilentOn(IAccessPoint, e.signals)
  {
    hide SetDevice, SameScanning, SilentOn;
    if iface == IDevice && key == KMode && v.Text? {
      ModeSetLeavesStation(f, d, v.s);
      ModeSetLeavesScanning(f, d, v.s);
    } else {
      OtherSetLeavesScanning(f, d, iface, key, v);
    }
  }

  lemma SwitchLeavesScanning(f: Flags, d: Obj, mode: string)
    requires d.Device?
    ensures SameScanning(d, SwitchMode(f, d, mode).0)
  {
    hide LostIfaces, GainedIfaces, Carried, GainedExports;
  }

  lemma OtherCallsLeaveScanning(f: Flags, d: Obj, call: Call)
    requires d.Device? && Callable(d, call) && OneObjectCall(call) && !ApTalk(call)
    ensures var e := CallOne(f, d, call); SameScanning(d, e.obj) && SilentOn(IAccessPoint, e.signals)
  {
    hide SetDevice;
    if call.Set? { SetLeavesScanning(f, d, call.iface, call.key, call.value); }
  }

  /** The subscription takes what a device that reaches it says, whichever device that is. */
  lemma WordHeard(f: Flags, d: Obj, call: Call, heard: set<string>, held: bool)
    requires d.Device? && Callable(d, call) && d.path in heard
    ensures C.HearAll(C.ApScanningChanged(), held, Heard(IAccessPoint, heard, CallOne(f, d, call).signals)) == WordAfter(f, d, call, held)
  {
    hide EventOf, SetDevice, C.HearAll, C.ApScanningChanged;
    var e := CallOne(f, d, call);
    NothingHeard(held);
    if !ApTalk(call) {
      OtherCallsLeaveScanning(f, d, call);
      HeardNothing(IAccessPoint, heard, e.signals);
    } else if e.signals != [] {
      HeardOne(IAccessPoint, heard, e.signals[0]);
      ScanningHeard(held, e.signals[0].changed, e.signals[0].invalidated);
    }
  }

  /** While the last word is that a scan is pending which no start has superseded, it stays that. */
  lemma WordIsPendingScan(f: Flags, d: Obj, call: Call, was: bool)
    requires d.Device? && Callable(d, call)
    ensures var n := CallOne(f, d, call).obj;
      n.Device? && WordAfter(f, d, call, d.apScanning && !was) == (n.apScanning && !SupersededBy(f, d, call, was))
  {
    hide SetDevice;
    if !ApTalk(call) { OtherCallsLeaveScanning(f, d, call); }
  }

  lemma NothingHeard(held: bool)
    ensures C.HearAll(C.ApScanningChanged(), held, []) == held
  {
  }

  // ---------- runs ----------

  /** From any state, over any run and whatever is heard, the subscription holds the last word. */
  lemma {:induction false} HeldIsLastWord(f: Flags, s: State, run: seq<Step>, heard: set<string>, held: bool)
    requires IsRun(f, s, run)
    ensures C.HearAll(C.ApScanningChanged(), held, Heard(IAccessPoint, heard, Said(f, s, run))) == LastWord(f, s, run, heard, held)
    decreases |run|
  {
    hide Callable, Apply, Perform, CallOne, WordAfter, C.ApScanningChanged;
    NothingHeard(held);
    if run != [] {
      var step, o := run[0], s.objs[run[0].i];
      var next := Apply(f, s, step);
      var signals, rest := Perform(f, s.objs, step.i, step.call).signals, Said(f, next, run[1..]);
      StepHeard(f, s, step, IAccessPoint, heard);
      var word := if o.Device? && o.path in heard then WordAfter(f, o, step.call, held) else held;
      if o.Device? && o.path in heard { WordHeard(f, o, step.call, heard, held); }
      HeardInTwo(IAccessPoint, heard, signals, rest);
      C.HearInTwo(C.ApScanningChanged(), held, Heard(IAccessPoint, heard, signals), Heard(IAccessPoint, heard, rest));
      HeldIsLastWord(f, next, run[1..], heard, word);
    }
  }

  lemma AloneStays(f: Flags, s: State, step: Step, heard: set<string>, path: string)
    requires WellFormed(s.objs) && Enabled(s, step) && Alone(s.objs, heard, path)
    ensures Alone(Apply(f, s, step).objs, heard, path)
  {
    forall n | n in Apply(f, s, step).objs && n.Device? && n.path in heard ensures n.path == path {
      var d := DeviceComesFrom(f, s, step, n);
      hide Apply, WellFormed;
    }
  }

  /** With one device heard the last word is that a scan of it is pending which no start has superseded. */
  lemma {:induction false} LoneWordOverRun(f: Flags, s: State, run: seq<Step>, heard: set<string>, d: Obj, was: bool)
    requires WellFormed(s.objs) && IsRun(f, s, run) && d in s.objs && d.Device? && Alone(s.objs, heard, d.path)
    ensures var o := ObjAt(Exec(f, s, run).objs, d.path);
      && o.Some? && o.value.Device?
      && LastWord(f, s, run, heard, d.apScanning && !was) == (o.value.apScanning && !Superseded(f, s, run, d.path, was))
    decreases |run|
  {
    hide WellFormed, Callable, Apply, CallOne, WordAfter, SupersededBy;
    if run == [] {
      ShownAtWellFormed(s.objs, d);
    } else {
      var step, o := run[0], s.objs[run[0].i];
      PerformKeepsWellFormedStep(f, s, step);
      DeviceMoves(f, s, step, d);
      AloneStays(f, s, step, heard, d.path);
      if o == d { WordIsPendingScan(f, d, step.call, was); } else { OneAtEachPathApart(s.objs, o, d); }
      var now := if o.Device? && o.path == d.path then SupersededBy(f, o, step.call, was) else was;
      hide Alone;
      LoneWordOverRun(f, Apply(f, s, step), run[1..], heard, Moved(f, s, step, d), now);
    }
  }

  lemma ApDecodes(objs: seq<Obj>, d: Obj)
    requires WellFormed(objs) && d in objs && d.Device?
    ensures ApAt(Snapshot(objs), d.path) == if d.hasAp then Some(C.ApSingles(ApServer(AccessPointProps(d)))) else None
  {
    SnapshotShows(objs, d.path);
    ShownAt(objs, d);
    hide WellFormed, Snapshot, At, ApServer, StationProps, AccessPointProps, DeviceProps, C.ApSingles;
  }

  lemma ScanningDecodes(d: Obj)
    requires d.Device? && C.ApSingles(ApServer(AccessPointProps(d))).Some?
    ensures C.ApSingles(ApServer(AccessPointProps(d))).value.scanning == (d.apStarted && d.apScanning)
  {
    hide ApServer, AccessPointProps, C.ApSingles;
    AccessPointDecodes(d);
  }

  /** What the subscription holds after a run, having started from a bulk read. */
  ghost function ApHeld(f: Flags, objs: seq<Obj>, run: seq<Step>, heard: set<string>, start: C.ApProps): bool
    requires IsRun(f, Start(objs), run)
  {
    C.HearAll(C.ApScanningChanged(), start.scanning, Heard(IAccessPoint, heard, Said(f, Start(objs), run)))
  }

  /**
   * After any run, whatever else is heard, the subscription and a fresh bulk read differ exactly when
   * the last word on Scanning is not whether the access point now runs and scans.
   */
  lemma ApScanningDiffersExactlyWhen(f: Flags, objs: seq<Obj>, run: seq<Step>, heard: set<string>, d: Obj)
    requires WellFormed(objs) && d in objs && d.Device? && IsRun(f, Start(objs), run)
    requires ApAt(Snapshot(objs), d.path).Some? && ApAt(Snapshot(objs), d.path).value.Some?
    requires var end := Snapshot(Exec(f, Start(objs), run).objs); ApAt(end, d.path).Some? && ApAt(end, d.path).value.Some?
    ensures var start, end := ApAt(Snapshot(objs), d.path).value.value, ApAt(Snapshot(Exec(f, Start(objs), run).objs), d.path).value.value;
      var n := ObjAt(Exec(f, Start(objs), run).objs, d.path);
      && n.Some? && n.value.Device?
      && (ApHeld(f, objs, run, heard, start) != end.scanning <==>
            LastWord(f, Start(objs), run, heard, d.apStarted && d.apScanning) != (n.value.apStarted && n.value.apScanning))
  {
    hide WellFormed, IsRun, Exec, Snapshot, ApAt, ApServer, C.ApSingles, C.HearAll, C.ApScanningChanged, LastWord, Said, Heard, AccessPointProps;
    var s := Start(objs);
    ApDecodes(objs, d);
    ScanningDecodes(d);
    HeldIsLastWord(f, s, run, heard, d.apStarted && d.apScanning);
    RunKeepsWellFormed(f, s, run);
    DeviceOverRun(f, s, run, d);
    var n := ObjAt(Exec(f, s, run).objs, d.path).value;
    ApDecodes(Exec(f, s, run).objs, n);
    ScanningDecodes(n);
  }

  lemma {:induction false} DeviceOverRun(f: Flags, s: State, run: seq<Step>, d: Obj)
    requires WellFormed(s.objs) && IsRun(f, s, run) && d in s.objs && d.Device?
    ensures var o := ObjAt(Exec(f, s, run).objs, d.path); o.Some? && o.value.Device?
    decreases |run|
  {
    hide WellFormed, Callable, Apply, Moved;
    if run == [] {
      ShownAtWellFormed(s.objs, d);
    } else {
      PerformKeepsWellFormedStep(f, s, run[0]);
      DeviceMoves(f, s, run[0], d);
      DeviceOverRun(f, Apply(f, s, run[0]), run[1..], Moved(f, s, run[0], d));
    }
  }

  /**
   * With no other device heard: exactly when a scan is pending that either no start has superseded while
   * the access point is stopped, or one has while it runs.
   */
  lemma LoneApScanningDiffersExactlyWhen(f: Flags, objs: seq<Obj>, run: seq<Step>, heard: set<string>, d: Obj)
    requires WellFormed(objs) && d in objs && d.Device? && IsRun(f, Start(objs), run) && Alone(objs, heard, d.path)
    requires ApAt(Snapshot(objs), d.path).Some? && ApAt(Snapshot(objs), d.path).value.Some?
    requires var end := Snapshot(Exec(f, Start(objs), run).objs); ApAt(end, d.path).Some? && ApAt(end, d.path).value.Some?
    ensures var start, end := ApAt(Snapshot(objs), d.path).value.value, ApAt(Snapshot(Exec(f, Start(objs), run).objs), d.path).value.value;
      var n := ObjAt(Exec(f, Start(objs), run).objs, d.path);
      && n.Some? && n.value.Device?
      && (ApHeld(f, objs, run, heard, start) != end.scanning <==>
            n.value.apScanning && (n.value.apStarted <==> Superseded(f, Start(objs), run, d.path, !d.apStarted)))
  {
    hide WellFormed, Alone, IsRun, Exec, Snapshot, ApAt, ApHeld, LastWord, Superseded;
    ApScanningDiffersExactlyWhen(f, objs, run, heard, d);
    LoneWordOverRun(f, Start(objs), run, heard, d, !d.apStarted);
    assert (d.apScanning && !!d.apStarted) == (d.apStarted && d.apScanning);
  }

  // ---------- without starts under a pending scan ----------

  lemma CarefulCallSupersedesNothing(f: Flags, d: Obj, call: Call, was: bool)
    requires d.Device? && Callable(d, call) && (d.apScanning ==> !was) && (Starts(call) ==> !d.apScanning)
    ensures var n := CallOne(f, d, call).obj; n.Device? && (n.apScanning ==> !SupersededBy(f, d, call, was))
  {
    hide SetDevice;
    if !ApTalk(call) { OtherCallsLeaveScanning(f, d, call); }
  }

  lemma {:induction false} CarefulRunSupersedesNothing(f: Flags, s: State, run: seq<Step>, d: Obj, was: bool)
    requires WellFormed(s.objs) && IsRun(f, s, run) && Careful(f, s, run) && d in s.objs && d.Device? && (d.apScanning ==> !was)
    ensures var o := ObjAt(Exec(f, s, run).objs, d.path);
      o.Some? && o.value.Device? && (o.value.apScanning ==> !Superseded(f, s, run, d.path, was))
    decreases |run|
  {
    hide WellFormed, Callable, Apply, CallOne, SupersededBy;
    if run == [] {
      ShownAtWellFormed(s.objs, d);
    } else {
      var step, o := run[0], s.objs[run[0].i];
      PerformKeepsWellFormedStep(f, s, step);
      DeviceMoves(f, s, step, d);
      if o == d { CarefulCallSupersedesNothing(f, d, step.call, was); } else { OneAtEachPathApart(s.objs, o, d); }
      var now := if o.Device? && o.path == d.path then SupersededBy(f, o, step.call, was) else was;
      CarefulRunSupersedesNothing(f, Apply(f, s, step), run[1..], Moved(f, s, step, d), now);
    }
  }

  /** With no other device heard and no start under a pending scan: exactly when it was stopped with its scan pending. */
  lemma CarefulApScanningDiffersExactlyWhen(f: Flags, objs: seq<Obj>, run: seq<Step>, heard: set<string>, d: Obj)
    requires WellFormed(objs) && d in objs && d.Device? && IsRun(f, Start(objs), run) && Alone(objs, heard, d.path)
    requires Careful(f, Start(objs), run) && (d.apScanning ==> d.apStarted)
    requires ApAt(Snapshot(objs), d.path).Some? && ApAt(Snapshot(objs), d.path).value.Some?
    requires var end := Snapshot(Exec(f, Start(objs), run).objs); ApAt(end, d.path).Some? && ApAt(end, d.path).value.Some?
    ensures var start, end := ApAt(Snapshot(objs), d.path).value.value, ApAt(Snapshot(Exec(f, Start(objs), run).objs), d.path).value.value;
      var n := ObjAt(Exec(f, Start(objs), run).objs, d.path);
      && n.Some? && n.value.Device?
      && (ApHeld(f, objs, run, heard, start) != end.scanning <==> n.value.apScanning && !n.value.apStarted)
  {
    hide WellFormed, Alone, IsRun, Exec, Snapshot, ApAt, ApHeld, Superseded, Careful;
    LoneApScanningDiffersExactlyWhen(f, objs, run, heard, d);
    CarefulRunSupersedesNothing(f, Start(objs), run, d, !d.apStarted);
  }

  function StoppedUnderScan(d: Obj): Obj
    requires d.Device?
  {
    d.(apScanning := true, apScans := d.apScans + 1, apStarted := false, apName := "", apFrequency := 0, apPairwise := [], apGroup := "",
       restarted := false)
  }

  /** Scan, then stop. */
  lemma ScanThenStop(f: Flags, s: State, i: nat)
    requires i < |s.objs| && s.objs[i].Device? && s.objs[i].hasAp && s.objs[i].apStarted && !s.objs[i].apScanning
    ensures var run := [Step(i, ApScan)] + [Step(i, ApStop)];
      IsRun(f, s, run) && Careful(f, s, run) && Exec(f, s, run).objs == s.objs[i := StoppedUnderScan(s.objs[i])]
  {
    var d, first, second := s.objs[i], Step(i, ApScan), Step(i, ApStop);
    hide Replay;
    var next := Apply(f, s, first);
    assert next.objs == s.objs[i := d.(apScanning := true, apScans := d.apScans + 1)];
    var last := Apply(f, next, second);
    assert last.objs == s.objs[i := StoppedUnderScan(d)];
    RunOfOne(f, next, second);
    RunOfOneMore(f, s, first, [second]);
    hide Apply;
    var run := [first] + [second];
    assert run[1..] == [second] && [second][1..] == [];
    assert Careful(f, next, [second]);
    assert Careful(f, s, run);
  }

  lemma WordOfScanThenStop(f: Flags, s: State, i: nat, heard: set<string>, word: bool)
    requires i < |s.objs| && s.objs[i].Device? && s.objs[i].hasAp && s.objs[i].apStarted && !s.objs[i].apScanning && s.objs[i].path in heard
    ensures var run := [Step(i, ApScan)] + [Step(i, ApStop)]; IsRun(f, s, run) && LastWord(f, s, run, heard, word)
  {
    var first, second := Step(i, ApScan), Step(i, ApStop);
    hide Replay;
    var next := Apply(f, s, first);
    assert next.objs[i].Device? && next.objs[i].path == s.objs[i].path && next.objs[i].hasAp;
    RunOfOne(f, next, second);
    RunOfOneMore(f, s, first, [second]);
    hide Apply;
    var run := [first] + [second];
    assert run[1..] == [second] && [second][1..] == [];
    assert WordAfter(f, s.objs[i], ApScan, word) && WordAfter(f, next.objs[i], ApStop, true);
    assert LastWord(f, next, [second], heard, true);
  }

  /** And such a run exists for every access point that runs, whatever else is heard. */
  lemma StopUnderScanIsReached(f: Flags, objs: seq<Obj>, i: nat, heard: set<string>)
    requires WellFormed(objs) && i < |objs| && objs[i].Device? && objs[i].hasAp && objs[i].apStarted && !objs[i].apScanning
    requires objs[i].path in heard && C.ApSingles(ApServer(AccessPointProps(objs[i]))).Some?
    ensures var run := [Step(i, ApScan)] + [Step(i, ApStop)];
      && IsRun(f, Start(objs), run) && Careful(f, Start(objs), run)
      && var start, end := ApAt(Snapshot(objs), objs[i].path), ApAt(Snapshot(Exec(f, Start(objs), run).objs), objs[i].path);
      && start.Some? && start.value.Some? && end.Some? && end.value.Some?
      && ApHeld(f, objs, run, heard, start.value.value) && !end.value.value.scanning
  {
    var s, d := Start(objs), objs[i];
    var run := [Step(i, ApScan)] + [Step(i, ApStop)];
    ScanThenStop(f, s, i);
    hide WellFormed, IsRun, Exec, Careful, Snapshot, ApServer, C.ApSingles, C.HearAll, C.ApScanningChanged, Said, Heard, LastWord, AccessPointProps, ApAt;
    var objs', n := Exec(f, s, run).objs, StoppedUnderScan(d);
    assert objs'[i] == n && n in objs';
    RunKeepsWellFormed(f, s, run);
    ApDecodes(objs, d);
    ApDecodes(objs', n);
    StoppedDecodes(n);
    var held := C.ApSingles(ApServer(AccessPointProps(d))).value.scanning;
    HeldIsLastWord(f, s, run, heard, held);
    WordOfScanThenStop(f, s, i, heard, held);
  }

  lemma StoppedDecodes(n: Obj)
    requires n.Device? && !n.apStarted
    ensures var r := C.ApSingles(ApServer(AccessPointProps(n))); r.Some? && !r.value.scanning
  {
    ApServerHolds(AccessPointProps(n));
    OptionalsAreWorded(AccessPointProps(n));
    hide ApServer;
    assert "Name" in C.AP_OPTIONALS && "Frequency" in C.AP_OPTIONALS && "PairwiseCiphers" in C.AP_OPTIONALS && "GroupCipher" in C.AP_OPTIONALS;
  }
}

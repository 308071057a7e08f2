/**
 * A client that starts from one snapshot and applies every ObjectManager and PropertiesChanged signal
 * in the order sent. Read through the client's decoders, its view is the live tree, except for an
 * access point started while a scan from before its stop is still pending.
 */
module TreeReplay {
  import opened Common
  import opened KnownNetworkPaths
  import opened ObjectTree

  // ---------- applying signals ----------

  /** The interfaces of the object at a path; none when there is no object. */
  function At(view: Tree, path: string): Ifaces {
    if path in view then view[path] else map[]
  }

  /** An object whose last interface is gone is gone. */
  function Put(view: Tree, path: string, ifaces: Ifaces): Tree {
    if ifaces == map[] then view - {path} else view[path := ifaces]
  }

  /** What a signal does to the object it names; a property change of an interface not there is dropped. */
  function ApplyTo(ifaces: Ifaces, signal: Signal): Ifaces {
    match signal
    case Added(_, added) => ifaces + added
    case Removed(_, gone) => ifaces - (set i | i in gone)
    case Changed(_, iface, changed, invalidated) =>
      if iface in ifaces then ifaces[iface := (ifaces[iface] - (set k | k in invalidated)) + changed] else ifaces
  }

  function ApplySignal(view: Tree, signal: Signal): Tree {
    Put(view, signal.path, ApplyTo(At(view, signal.path), signal))
  }

  function Replay(view: Tree, signals: seq<Signal>): Tree {
    if signals == [] then view
    else ApplySignal(Replay(view, signals[..|signals| - 1]), signals[|signals| - 1])
  }

  function ReplayTo(ifaces: Ifaces, signals: seq<Signal>): Ifaces {
    if signals == [] then ifaces
    else ApplyTo(ReplayTo(ifaces, signals[..|signals| - 1]), signals[|signals| - 1])
  }

  lemma {:induction false} ReplayElsewhere(view: Tree, signals: seq<Signal>, path: string)
    requires forall s :: s in signals ==> s.path != path
    ensures At(Replay(view, signals), path) == At(view, path)
  {
    if signals != [] { ReplayElsewhere(view, signals[..|signals| - 1], path); }
  }

  lemma {:induction false} ReplayHere(view: Tree, signals: seq<Signal>, path: string)
    requires forall s :: s in signals ==> s.path == path
    ensures At(Replay(view, signals), path) == ReplayTo(At(view, path), signals)
  {
    if signals != [] { ReplayHere(view, signals[..|signals| - 1], path); }
  }

  lemma {:induction false} ReplayInTwo(view: Tree, first: seq<Signal>, second: seq<Signal>)
    ensures Replay(view, first + second) == Replay(Replay(view, first), second)
  {
    var all := first + second;
    if second == [] {
      assert all == first;
    } else {
      assert all[..|all| - 1] == first + second[..|second| - 1];
      ReplayInTwo(view, first, second[..|second| - 1]);
    }
  }

  // ---------- what a client reads ----------

  /** The decoders: the null path and absence are both nothing, an absent AP Scanning is false. */
  function Read(iface: Iface, key: Key, props: Props): Option<Variant> {
    if key !in props then
      if iface == IAccessPoint && key == KScanning then Some(Bool(false)) else None
    else if iface == IStation && (key == KConnectedNetwork || key == KConnectedAccessPoint)
            && (props[key] == Path("/") || props[key] == Path("")) then None
    else Some(props[key])
  }

  ghost predicate SameProps(iface: Iface, a: Props, b: Props) {
    forall key: Key :: Read(iface, key, a) == Read(iface, key, b)
  }

  ghost predicate SameIfaces(a: Ifaces, b: Ifaces) {
    && (forall i: Iface :: i in a <==> i in b)
    && (forall i: Iface :: i in a && i in b ==> SameProps(i, a[i], b[i]))
  }

  /** Two trees hold the same objects with the same interfaces, and every property reads the same. */
  ghost predicate SameReads(a: Tree, b: Tree) {
    forall path: string :: SameIfaces(At(a, path), At(b, path))
  }

  // ---------- one object and its signals ----------

  /** The view's idea of an object: a restarted access point is not taken to be scanning. */
  function Believed(o: Obj): (r: Obj)
    ensures r.path == o.path && (o.Device? <==> r.Device?)
  {
    if o.Device? && o.restarted then o.(apScanning := false) else o
  }

  /** The scan flags stand for exactly one sleeping goroutine each. */
  predicate ScansCounted(o: Obj) {
    o.Device? ==>
      && o.stationScans == (if o.scanning then 1 else 0)
      && o.apScans == (if o.apScanning then 1 else 0)
      && (o.restarted ==> o.hasAp && o.apStarted && o.apScanning)
  }

  ghost predicate Tracks(v: Ifaces, o: Obj) {
    SameIfaces(v, IfacesOf(Believed(o)))
  }

  /** A property change announces a step of one interface: what it does not name reads as before. */
  ghost predicate Announces(iface: Iface, before: Props, after: Props, changed: Props, invalidated: seq<Key>) {
    forall key: Key :: Read(iface, key, after) ==
      if key in changed then Read(iface, key, changed)
      else if key in invalidated then Read(iface, key, map[])
      else Read(iface, key, before)
  }

  lemma AnnouncedProps(iface: Iface, view: Props, before: Props, after: Props, changed: Props, invalidated: seq<Key>)
    requires SameProps(iface, view, before) && Announces(iface, before, after, changed, invalidated)
    ensures SameProps(iface, (view - (set k | k in invalidated)) + changed, after)
  {
    var seen := (view - (set k | k in invalidated)) + changed;
    forall key: Key ensures Read(iface, key, seen) == Read(iface, key, after) {
      assert Read(iface, key, view) == Read(iface, key, before);
    }
  }

  ghost predicate Untouched(a: Ifaces, b: Ifaces, iface: Iface) {
    (forall i: Iface :: i in a <==> i in b) && (forall i: Iface :: i in a && i in b && i != iface ==> a[i] == b[i])
  }

  lemma ChangeTracked(v: Ifaces, o: Obj, n: Obj, iface: Iface, changed: Props, invalidated: seq<Key>)
    requires Tracks(v, o)
    requires var a, b := IfacesOf(Believed(o)), IfacesOf(Believed(n));
      Untouched(a, b, iface) && (iface in a && iface in b ==> Announces(iface, a[iface], b[iface], changed, invalidated))
    ensures Tracks(ReplayTo(v, [Changed(o.path, iface, changed, invalidated)]), n)
  {
    hide IfacesOf, Believed, SameProps, Announces;
    var signal := Changed(o.path, iface, changed, invalidated);
    assert ReplayTo(v, [signal]) == ApplyTo(v, signal) by { assert [signal][..0] == []; }
    var a, b := IfacesOf(Believed(o)), IfacesOf(Believed(n));
    if iface in v { AnnouncedProps(iface, v[iface], a[iface], b[iface], changed, invalidated); }
  }

  lemma ScansStayCountedAtSet(f: Flags, d: Obj, iface: Iface, key: Key, x: Variant)
    requires d.Device? && ScansCounted(d)
    ensures ScansCounted(SetDevice(f, d, iface, key, x).obj)
  {
  }

  lemma ScansStayCounted(f: Flags, o: Obj, call: Call)
    requires Callable(o, call) && OneObjectCall(call) && ScansCounted(o)
    ensures ScansCounted(CallOne(f, o, call).obj)
  {
    hide SetDevice;
    if call.Set? && o.Device? { ScansStayCountedAtSet(f, o, call.iface, call.key, call.value); }
  }

  lemma AdapterPowerAnnounced(a: Obj, b: bool)
    requires a.Adapter?
    ensures Announces(IAdapter, AdapterProps(a), AdapterProps(a.(radioOn := b)), map[KPowered := Bool(b)], [])
  {
  }

  lemma AutoConnectAnnounced(k: Obj, b: bool)
    requires k.Known?
    ensures Announces(IKnown, KnownProps(k), KnownProps(k.(autoConnect := b)), map[KAutoConnect := Bool(b)], [])
  {
  }

  lemma SetOtherTracked(v: Ifaces, o: Obj, iface: Iface, key: Key, x: Variant)
    requires (o.Adapter? || o.Known?) && Tracks(v, o)
    ensures var e := SetOther(o, iface, key, x); Tracks(ReplayTo(v, e.signals), e.obj)
  {
    hide Tracks, Announces, AdapterProps, KnownProps;
    var e := SetOther(o, iface, key, x);
    if e.signals != [] {
      if o.Adapter? { AdapterPowerAnnounced(o, x.b); } else { AutoConnectAnnounced(o, x.b); }
      ChangeTracked(v, o, e.obj, iface, map[key := x], []);
    }
  }

  lemma AssembledApart(d: Props, s: Props, a: Props, d': Props, s': Props, a': Props, hasStation: bool, hasAp: bool, iface: Iface)
    requires (iface == IDevice || d == d') && (iface == IStation || s == s') && (iface == IAccessPoint || a == a')
    ensures var x, y := Assemble(d, hasStation, s, hasAp, a), Assemble(d', hasStation, s', hasAp, a');
      && Untouched(x, y, iface)
      && (iface in x && iface in y ==>
            || (iface == IDevice && x[iface] == d && y[iface] == d')
            || (iface == IStation && hasStation && x[iface] == s && y[iface] == s')
            || (iface == IAccessPoint && hasAp && x[iface] == a && y[iface] == a'))
  {
    hide Assemble;
  }

  lemma BelievedIfaces(d: Obj)
    requires d.Device?
    ensures IfacesOf(Believed(d)) == Assemble(DeviceProps(d), d.hasStation, StationProps(d), d.hasAp, AccessPointProps(Believed(d)))
  {
    assert DeviceProps(Believed(d)) == DeviceProps(d) && StationProps(Believed(d)) == StationProps(d);
    hide Assemble, DeviceProps, StationProps, AccessPointProps;
  }

  lemma DeviceChangeTracked(v: Ifaces, d: Obj, n: Obj, iface: Iface, changed: Props, invalidated: seq<Key>)
    requires d.Device? && n.Device? && Tracks(v, d)
    requires n.hasStation == d.hasStation && n.hasAp == d.hasAp
    requires if iface == IDevice then Announces(IDevice, DeviceProps(d), DeviceProps(n), changed, invalidated)
             else DeviceProps(n) == DeviceProps(d)
    requires if iface == IStation then d.hasStation ==> Announces(IStation, StationProps(d), StationProps(n), changed, invalidated)
             else StationProps(n) == StationProps(d)
    requires if iface == IAccessPoint
             then d.hasAp ==> Announces(IAccessPoint, AccessPointProps(Believed(d)), AccessPointProps(Believed(n)), changed, invalidated)
             else AccessPointProps(Believed(n)) == AccessPointProps(Believed(d))
    ensures Tracks(ReplayTo(v, [Changed(d.path, iface, changed, invalidated)]), n)
  {
    hide Tracks, Announces, DeviceProps, StationProps, AccessPointProps, Assemble, IfacesOf, Believed, Untouched;
    var a, b := AccessPointProps(Believed(d)), AccessPointProps(Believed(n));
    BelievedIfaces(d);
    BelievedIfaces(n);
    AssembledApart(DeviceProps(d), StationProps(d), a, DeviceProps(n), StationProps(n), b, d.hasStation, d.hasAp, iface);
    ChangeTracked(v, d, n, iface, changed, invalidated);
  }

  lemma StationCallAnnounced(d: Obj, call: Call)
    requires d.Device? && (call.Scan? || call.Disconnect? || call.ConnectHidden?) && StationCall(d, call).signals != []
    ensures var e := StationCall(d, call); var s := e.signals[0];
      && e.signals == [s] && s.Changed? && s.path == d.path && s.iface == IStation
      && Announces(IStation, StationProps(d), StationProps(e.obj), s.changed, s.invalidated)
  {
  }

  lemma StationCallTracked(v: Ifaces, d: Obj, call: Call)
    requires d.Device? && (call.Scan? || call.Disconnect? || call.ConnectHidden?) && Tracks(v, d)
    ensures var e := StationCall(d, call); Tracks(ReplayTo(v, e.signals), e.obj)
  {
    hide Tracks, Announces;
    var e := StationCall(d, call);
    if e.signals != [] {
      StationCallAnnounced(d, call);
      DeviceChangeTracked(v, d, e.obj, IStation, e.signals[0].changed, e.signals[0].invalidated);
    }
  }

  predicate OneApChange(d: Obj, e: Effect)
    requires d.Device?
  {
    |e.signals| == 1 && e.signals[0].Changed? && e.signals[0].path == d.path && e.signals[0].iface == IAccessPoint && e.obj.Device?
  }

  lemma BringUpAnnounced(d: Obj, ssid: string)
    requires d.Device?
    ensures var e := BringUp(d, ssid);
      && OneApChange(d, e)
      && Announces(IAccessPoint, AccessPointProps(Believed(d)), AccessPointProps(Believed(e.obj)), e.signals[0].changed, e.signals[0].invalidated)
  {
  }

  lemma StopOrScanAnnounced(d: Obj, call: Call)
    requires d.Device? && (call.ApStop? || call.ApScan?) && ScansCounted(d) && ApCall(d, call).signals != []
    ensures var e := ApCall(d, call);
      && OneApChange(d, e)
      && Announces(IAccessPoint, AccessPointProps(Believed(d)), AccessPointProps(Believed(e.obj)), e.signals[0].changed, e.signals[0].invalidated)
  {
  }

  lemma ApCallTracked(v: Ifaces, d: Obj, call: Call)
    requires d.Device? && (call.ApStart? || call.ApStartProfile? || call.ApStop? || call.ApScan?) && ScansCounted(d) && Tracks(v, d)
    ensures var e := ApCall(d, call); Tracks(ReplayTo(v, e.signals), e.obj)
  {
    hide Tracks, Announces;
    var e := ApCall(d, call);
    if e.signals != [] {
      if call.ApStart? || call.ApStartProfile? { BringUpAnnounced(d, call.ssid); } else { StopOrScanAnnounced(d, call); }
      var s := e.signals[0];
      assert e.signals == [Changed(d.path, IAccessPoint, s.changed, s.invalidated)];
      DeviceChangeTracked(v, d, e.obj, IAccessPoint, s.changed, s.invalidated);
    }
  }

  lemma StationScanEndAnnounced(d: Obj)
    requires d.Device?
    ensures Announces(IStation, StationProps(d), StationProps(d.(scanning := false)), map[KScanning := Bool(false)], [])
  {
  }

  lemma ApScanEndAnnounced(d: Obj)
    requires d.Device?
    ensures Announces(IAccessPoint, AccessPointProps(d), AccessPointProps(d.(apScanning := false)), map[KScanning := Bool(false)], [])
  {
  }

  lemma ScanEndTracked(v: Ifaces, d: Obj, call: Call)
    requires Callable(d, call) && (call.StationScanEnds? || call.ApScanEnds?) && ScansCounted(d) && Tracks(v, d)
    ensures var e := ScanEnd(d, call); Tracks(ReplayTo(v, e.signals), e.obj)
  {
    hide Tracks, Announces;
    var n := ScanEnd(d, call).obj;
    StationScanEndAnnounced(d);
    ApScanEndAnnounced(Believed(d));
    DeviceChangeTracked(v, d, n, if call.StationScanEnds? then IStation else IAccessPoint, map[KScanning := Bool(false)], []);
  }

  // -- a device changing mode

  lemma {:induction false} ReplayToInTwo(v: Ifaces, first: seq<Signal>, second: seq<Signal>)
    ensures ReplayTo(v, first + second) == ReplayTo(ReplayTo(v, first), second)
  {
    var all := first + second;
    if second == [] {
      assert all == first;
    } else {
      assert all[..|all| - 1] == first + second[..|second| - 1];
      ReplayToInTwo(v, first, second[..|second| - 1]);
    }
  }

  lemma ReplayOne(v: Ifaces, signal: Signal)
    ensures ReplayTo(v, [signal]) == ApplyTo(v, signal)
  {
    assert [signal][..0] == [];
  }

  /** The removal and the addition, each sent only if there is something to send. */
  lemma ReplaySwap(v: Ifaces, path: string, lost: seq<Iface>, gained: Ifaces)
    ensures ReplayTo(v, (if lost != [] then [Removed(path, lost)] else []) + (if gained != map[] then [Added(path, gained)] else []))
         == (v - (set i | i in lost)) + gained
  {
    var first, second := if lost != [] then [Removed(path, lost)] else [], if gained != map[] then [Added(path, gained)] else [];
    ReplayToInTwo(v, first, second);
    ReplayOne(v, Removed(path, lost));
    ReplayOne(ReplayTo(v, first), Added(path, gained));
    if lost == [] { assert v - (set i | i in lost) == v; }
    if gained == map[] { assert ReplayTo(v, first) + gained == ReplayTo(v, first); }
  }

  lemma LostExactly(f: Flags, d: Obj, station: bool, ap: bool)
    requires d.Device?
    ensures forall i: Iface :: i in LostIfaces(f, d.hasStation, station, d.hasAp, ap) <==>
      (d.hasStation && !station && (i == IStation || (i == IWsc && !f.omitWsc))) || (d.hasAp && !ap && i == IAccessPoint)
  {
  }

  lemma GainedExactly(d: Obj, moved: Obj)
    requires d.Device? && moved.Device?
    ensures var g := GainedIfaces(d.hasStation, d.hasAp, moved);
      && (forall i: Iface :: i in g <==>
            (!d.hasStation && moved.hasStation && i == IStation) || (!d.hasAp && moved.hasAp && i == IAccessPoint))
      && (IStation in g ==> g[IStation] == StationProps(moved))
      && (IAccessPoint in g ==> g[IAccessPoint] == AccessPointProps(moved))
  {
    hide StationProps, AccessPointProps;
  }

  lemma SwapTracked(v: Ifaces, d: Obj, moved: Obj, lost: seq<Iface>)
    requires d.Device? && moved.Device? && Tracks(v, d)
    requires DeviceProps(moved) == DeviceProps(d) && StationProps(moved) == StationProps(d)
    requires d.hasAp && moved.hasAp ==> AccessPointProps(Believed(moved)) == AccessPointProps(Believed(d))
    requires !d.hasAp ==> Believed(moved) == moved
    requires forall i: Iface :: i == IDevice || i == IStation || i == IAccessPoint ==>
      (i in lost <==> (d.hasStation && !moved.hasStation && i == IStation) || (d.hasAp && !moved.hasAp && i == IAccessPoint))
    ensures Tracks((v - (set i | i in lost)) + GainedIfaces(d.hasStation, d.hasAp, moved), moved)
  {
    hide DeviceProps, StationProps, AccessPointProps, Assemble, GainedIfaces, IfacesOf, Believed, SameProps;
    BelievedIfaces(d);
    BelievedIfaces(moved);
    GainedExactly(d, moved);
    SamePropsRefl();
  }

  lemma SamePropsRefl()
    ensures forall i: Iface, a: Props :: SameProps(i, a, a)
  {
  }

  lemma SwitchTracked(f: Flags, v: Ifaces, d: Obj, mode: string)
    requires d.Device? && ScansCounted(d) && Tracks(v, d)
    ensures var (moved, signals) := SwitchMode(f, d, mode); Tracks(ReplayTo(v, signals), moved)
  {
    hide DeviceProps, StationProps, AccessPointProps, Tracks, LostIfaces, GainedIfaces;
    var station, ap := mode == "station" && !f.omitStation, mode == "ap" && !f.omitAccessPoint;
    if station != d.hasStation || ap != d.hasAp {
      var (moved, signals) := SwitchMode(f, d, mode);
      var lost := LostIfaces(f, d.hasStation, station, d.hasAp, ap);
      LostExactly(f, d, station, ap);
      ReplaySwap(v, d.path, lost, GainedIfaces(d.hasStation, d.hasAp, moved));
      SwitchLeavesProps(f, d, mode);
      SwapTracked(v, d, moved, lost);
    }
  }

  lemma SwitchLeavesProps(f: Flags, d: Obj, mode: string)
    requires d.Device? && ScansCounted(d)
    ensures var moved := SwitchMode(f, d, mode).0;
      && moved.Device? && DeviceProps(moved) == DeviceProps(d) && StationProps(moved) == StationProps(d)
      && (d.hasAp && moved.hasAp ==> AccessPointProps(Believed(moved)) == AccessPointProps(Believed(d)))
      && (!d.hasAp ==> Believed(moved) == moved)
  {
  }

  lemma PoweredAnnounced(d: Obj, b: bool)
    requires d.Device?
    ensures Announces(IDevice, DeviceProps(d), DeviceProps(d.(powered := b)), map[KPowered := Bool(b)], [])
  {
  }

  lemma ModeAnnounced(d: Obj, mode: string)
    requires d.Device?
    ensures Announces(IDevice, DeviceProps(d), DeviceProps(d.(mode := mode)), map[KMode := Text(mode)], [])
  {
  }

  lemma AffinitiesAnnounced(d: Obj, affinities: seq<string>)
    requires d.Device?
    ensures Announces(IStation, StationProps(d), StationProps(d.(affinities := affinities)), map[KAffinities := Paths(affinities)], [])
  {
  }

  lemma ModeStoredTracked(v: Ifaces, d: Obj, mode: string)
    requires d.Device? && Tracks(v, d)
    ensures Tracks(ReplayTo(v, [Changed(d.path, IDevice, map[KMode := Text(mode)], [])]), d.(mode := mode))
  {
    hide Tracks, Announces;
    ModeAnnounced(d, mode);
    DeviceChangeTracked(v, d, d.(mode := mode), IDevice, map[KMode := Text(mode)], []);
  }

  lemma SetModeTracked(f: Flags, v: Ifaces, d: Obj, mode: string)
    requires d.Device? && ScansCounted(d) && Tracks(v, d)
    ensures var (moved, signals) := SwitchMode(f, d.(mode := mode), mode);
      Tracks(ReplayTo(v, [Changed(d.path, IDevice, map[KMode := Text(mode)], [])] + signals), moved)
  {
    var stored := d.(mode := mode);
    var said := [Changed(d.path, IDevice, map[KMode := Text(mode)], [])];
    ModeStoredTracked(v, d, mode);
    assert ScansCounted(stored);
    hide Tracks, SwitchMode, ReplayTo, ScansCounted;
    SwitchTracked(f, ReplayTo(v, said), stored, mode);
    ReplayToInTwo(v, said, SwitchMode(f, stored, mode).1);
  }

  lemma SetDeviceTracked(f: Flags, v: Ifaces, d: Obj, iface: Iface, key: Key, x: Variant)
    requires d.Device? && ScansCounted(d) && Tracks(v, d)
    ensures var e := SetDevice(f, d, iface, key, x); Tracks(ReplayTo(v, e.signals), e.obj)
  {
    hide Tracks, Announces, SwitchMode;
    if iface == IDevice && key == KMode && x.Text? {
      SetModeTracked(f, v, d, x.s);
    } else {
      var e := SetDevice(f, d, iface, key, x);
      if e.signals != [] {
        if x.Bool? { PoweredAnnounced(d, x.b); }
        if x.Paths? { AffinitiesAnnounced(d, x.ps); }
        DeviceChangeTracked(v, d, e.obj, iface, map[key := x], []);
      }
    }
  }

  /** Whatever a call on one object does, its signals tell the client. */
  lemma CallTracked(f: Flags, v: Ifaces, o: Obj, call: Call)
    requires Callable(o, call) && OneObjectCall(call) && ScansCounted(o) && Tracks(v, o)
    ensures var e := CallOne(f, o, call); Tracks(ReplayTo(v, e.signals), e.obj)
  {
    hide Tracks, SetDevice, SetOther, StationCall, ApCall, ScanEnd;
    match call
    case Set(iface, key, x) => if o.Device? { SetDeviceTracked(f, v, o, iface, key, x); } else { SetOtherTracked(v, o, iface, key, x); }
    case Scan => StationCallTracked(v, o, call);
    case Disconnect => StationCallTracked(v, o, call);
    case ConnectHidden(_, _) => StationCallTracked(v, o, call);
    case StationScanEnds => ScanEndTracked(v, o, call);
    case ApScanEnds => ScanEndTracked(v, o, call);
    case ApStart(_, _) => ApCallTracked(v, o, call);
    case ApStartProfile(_) => ApCallTracked(v, o, call);
    case ApStop => ApCallTracked(v, o, call);
    case ApScan => ApCallTracked(v, o, call);
  }
}

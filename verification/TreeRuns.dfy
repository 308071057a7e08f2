/**
 * Runs of the mock and the client's replayed view over them. The registries keep their objects on
 * distinct paths, a network's link and its known network agree, and the view agrees with a fresh
 * snapshot exactly while no access point was restarted under a pending scan.
 */
module TreeRuns {
  import opened Common
  import opened KnownNetworkPaths
  import opened ObjectTree
  import opened TreeReplay

  // ---------- what the registries keep ----------

  ghost predicate Distinct(objs: seq<Obj>) {
    forall i, j :: 0 <= i < j < |objs| ==> objs[i].path != objs[j].path
  }

  /** Networks differ in name or security type. */
  ghost predicate NetworksDiffer(objs: seq<Obj>) {
    forall a, b :: a in objs && b in objs && a.Network? && b.Network? && a.name == b.name && a.security == b.security ==> a.path == b.path
  }

  /** Only known networks lie where a network's known network would. */
  ghost predicate KnownPathsReserved(objs: seq<Obj>) {
    forall n, o :: n in objs && o in objs && n.Network? && o.path == PathFor(n.name, n.security) ==> o.Known?
  }

  /** The known network of a network is the one it links to. */
  ghost predicate LinkedBack(objs: seq<Obj>) {
    forall n, k :: n in objs && k in objs && n.Network? && k.Known? && k.path == PathFor(n.name, n.security) ==> n.known == k.path
  }

  ghost predicate WellFormed(objs: seq<Obj>) {
    && Distinct(objs) && NetworksDiffer(objs) && KnownPathsReserved(objs) && LinkedBack(objs)
    && (forall o :: o in objs ==> ScansCounted(o))
  }

  /** Every link is empty or names an exported known network. */
  ghost predicate LinksResolve(objs: seq<Obj>) {
    forall n :: n in objs && n.Network? && n.known != "" ==> Resolves(objs, n.known)
  }

  ghost predicate Resolves(objs: seq<Obj>, path: string) {
    exists k :: k in objs && k.Known? && k.path == path
  }

  lemma OneAtEachPath(objs: seq<Obj>, a: Obj, b: Obj)
    requires Distinct(objs) && a in objs && b in objs && a.path == b.path
    ensures a == b
  {
    var i :| 0 <= i < |objs| && objs[i] == a;
    var j :| 0 <= j < |objs| && objs[j] == b;
  }

  /** The path a first connection provisions is free. */
  lemma ProvisionedPathIsFree(objs: seq<Obj>, n: Obj)
    requires WellFormed(objs) && n in objs && n.Network? && n.known == ""
    ensures forall o :: o in objs ==> o.path != PathFor(n.name, n.security)
  {
    forall o | o in objs ensures o.path != PathFor(n.name, n.security) {
    }
  }

  // -- one object changed in place

  /** What a call may not change about an object: its path, its kind, a network's identity and link. */
  predicate SameIdentity(o: Obj, n: Obj) {
    && o.path == n.path && (o.Known? <==> n.Known?)
    && (o.Network? <==> n.Network?)
    && (o.Network? ==> o.name == n.name && o.security == n.security && o.known == n.known)
  }

  predicate Confined(o: Obj, e: Effect) {
    SameIdentity(o, e.obj) && forall s | s in e.signals :: s.path == o.path
  }

  lemma SetDeviceConfined(f: Flags, d: Obj, iface: Iface, key: Key, v: Variant)
    requires d.Device?
    ensures Confined(d, SetDevice(f, d, iface, key, v))
  {
  }

  lemma DeviceCallConfined(d: Obj, call: Call)
    requires d.Device?
    ensures (call.Scan? || call.Disconnect? || call.ConnectHidden?) ==> Confined(d, StationCall(d, call))
    ensures (call.ApStart? || call.ApStartProfile? || call.ApStop? || call.ApScan?) ==> Confined(d, ApCall(d, call))
  {
  }

  lemma CallConfined(f: Flags, o: Obj, call: Call)
    requires Callable(o, call) && OneObjectCall(call)
    ensures Confined(o, CallOne(f, o, call))
  {
    if o.Device? {
      hide Confined, SetDevice, StationCall, ApCall;
      DeviceCallConfined(o, call);
      if call.Set? { SetDeviceConfined(f, o, call.iface, call.key, call.value); }
      else if call.StationScanEnds? || call.ApScanEnds? { ScanEndConfined(o, call); }
    }
  }

  lemma ScanEndConfined(d: Obj, call: Call)
    requires Callable(d, call) && (call.StationScanEnds? || call.ApScanEnds?)
    ensures Confined(d, ScanEnd(d, call))
  {
  }

  lemma UpdateKeepsWellFormed(objs: seq<Obj>, i: nat, n: Obj)
    requires WellFormed(objs) && i < |objs| && SameIdentity(objs[i], n) && ScansCounted(n)
    ensures WellFormed(objs[i := n])
  {
  }

  lemma UpdateKeepsLinks(objs: seq<Obj>, i: nat, n: Obj)
    requires LinksResolve(objs) && i < |objs| && SameIdentity(objs[i], n)
    ensures LinksResolve(objs[i := n])
  {
    var after := objs[i := n];
    forall m | m in after && m.Network? && m.known != "" ensures Resolves(after, m.known) {
      assert exists o :: o in objs && o.Network? && o.known == m.known;
      StillResolves(objs, i, n, m.known);
    }
  }

  lemma StillResolves(objs: seq<Obj>, i: nat, n: Obj, path: string)
    requires Resolves(objs, path) && i < |objs| && SameIdentity(objs[i], n)
    ensures Resolves(objs[i := n], path)
  {
    var k :| k in objs && k.Known? && k.path == path;
    var j :| 0 <= j < |objs| && objs[j] == k;
    assert objs[i := n][j] in objs[i := n];
  }

  // -- connecting

  /** A first connection to a secured network: the network is linked and its known network appended. */
  lemma ProvisionKeepsWellFormed(objs: seq<Obj>, i: nat)
    requires WellFormed(objs) && i < |objs| && objs[i].Network? && objs[i].known == ""
    ensures var k := Provisioned(objs[i]);
      WellFormed(objs[i := objs[i].(connected := true, known := k.path)] + [k])
  {
    var n := objs[i];
    var k := Provisioned(n);
    var linked := n.(connected := true, known := k.path);
    ProvisionedPathIsFree(objs, n);
    var after := objs[i := linked] + [k];
    assert forall o :: o in after ==> o == linked || o == k || o in objs;
    assert NetworksDiffer(after);
    forall m | m in after && m.Network? ensures PathFor(m.name, m.security) == k.path ==> m == linked {
      PathsIdentifyNetworks(m.name, m.security, n.name, n.security);
      if m in objs && m.name == n.name && m.security == n.security { OneAtEachPath(objs, m, n); }
    }
    hide PathFor;
  }

  lemma ProvisionKeepsLinks(objs: seq<Obj>, i: nat)
    requires WellFormed(objs) && LinksResolve(objs) && i < |objs| && objs[i].Network? && objs[i].known == ""
    ensures var k := Provisioned(objs[i]);
      LinksResolve(objs[i := objs[i].(connected := true, known := k.path)] + [k])
  {
    var k := Provisioned(objs[i]);
    var linked := objs[i].(connected := true, known := k.path);
    var after := objs[i := linked] + [k];
    assert k in after;
    hide PathFor;
    forall m | m in after && m.Network? && m.known != "" ensures Resolves(after, m.known) {
      if m != linked {
        assert m in objs;
        var t :| t in objs && t.Known? && t.path == m.known;
        var j :| 0 <= j < |objs| && objs[j] == t;
        assert after[j] in after;
      }
    }
  }

  // -- forgetting

  /** The index that an object at `j` has once the object at `i` is taken out. */
  function Behind(i: nat, j: nat): nat
    requires j != i
  {
    if j < i then j else j - 1
  }

  lemma KeptAt(objs: seq<Obj>, i: nat, j: nat)
    requires i < |objs| && j < |objs| && j != i
    ensures Behind(i, j) < |objs| - 1 && (objs[..i] + objs[i + 1..])[Behind(i, j)] == objs[j]
  {
  }

  lemma StillThere(objs: seq<Obj>, i: nat, b: Obj)
    requires i < |objs| && b in objs && b.path != objs[i].path
    ensures UnlinkOne(b, objs[i].path) in Unlink(objs[..i] + objs[i + 1..], objs[i].path)
  {
    var j :| 0 <= j < |objs| && objs[j] == b;
    KeptAt(objs, i, j);
    hide UnlinkOne;
    assert Unlink(objs[..i] + objs[i + 1..], objs[i].path)[Behind(i, j)] == UnlinkOne(b, objs[i].path);
  }

  lemma ComesFrom(objs: seq<Obj>, i: nat, o: Obj) returns (b: Obj)
    requires Distinct(objs) && i < |objs| && o in Unlink(objs[..i] + objs[i + 1..], objs[i].path)
    ensures b in objs && b.path != objs[i].path && o == UnlinkOne(b, objs[i].path)
  {
    var kept := objs[..i] + objs[i + 1..];
    var after := Unlink(kept, objs[i].path);
    var j :| 0 <= j < |after| && after[j] == o;
    b := objs[if j < i then j else j + 1];
    assert kept[j] == b;
    hide UnlinkOne;
  }

  lemma ForgottenMembers(objs: seq<Obj>, i: nat, o: Obj)
    requires Distinct(objs) && i < |objs|
    ensures o in Unlink(objs[..i] + objs[i + 1..], objs[i].path)
      <==> exists b :: b in objs && b.path != objs[i].path && o == UnlinkOne(b, objs[i].path)
  {
    hide Unlink, UnlinkOne, Distinct;
    if o in Unlink(objs[..i] + objs[i + 1..], objs[i].path) {
      var b := ComesFrom(objs, i, o);
    }
    if b :| b in objs && b.path != objs[i].path && o == UnlinkOne(b, objs[i].path) {
      StillThere(objs, i, b);
    }
  }

  lemma ForgetKeepsDistinct(objs: seq<Obj>, i: nat)
    requires Distinct(objs) && i < |objs|
    ensures Distinct(Unlink(objs[..i] + objs[i + 1..], objs[i].path))
  {
    var kept := objs[..i] + objs[i + 1..];
    assert forall j :: 0 <= j < |kept| ==> kept[j] == if j < i then objs[j] else objs[j + 1];
  }

  lemma ForgetKeepsDifferent(objs: seq<Obj>, i: nat)
    requires Distinct(objs) && NetworksDiffer(objs) && i < |objs| && objs[i].Known?
    ensures NetworksDiffer(Unlink(objs[..i] + objs[i + 1..], objs[i].path))
  {
    var after := Unlink(objs[..i] + objs[i + 1..], objs[i].path);
    hide Unlink;
    forall a, b | a in after && b in after && a.Network? && b.Network? && a.name == b.name && a.security == b.security ensures a.path == b.path {
      var x := ComesFrom(objs, i, a);
      var y := ComesFrom(objs, i, b);
    }
  }

  lemma ForgetKeepsReserved(objs: seq<Obj>, i: nat)
    requires Distinct(objs) && KnownPathsReserved(objs) && i < |objs| && objs[i].Known?
    ensures KnownPathsReserved(Unlink(objs[..i] + objs[i + 1..], objs[i].path))
  {
    var after := Unlink(objs[..i] + objs[i + 1..], objs[i].path);
    hide Unlink, PathFor;
    forall n, o | n in after && o in after && n.Network? && o.path == PathFor(n.name, n.security) ensures o.Known? {
      var x := ComesFrom(objs, i, n);
      var y := ComesFrom(objs, i, o);
    }
  }

  lemma ForgetKeepsLinkedBack(objs: seq<Obj>, i: nat)
    requires Distinct(objs) && LinkedBack(objs) && i < |objs| && objs[i].Known?
    ensures LinkedBack(Unlink(objs[..i] + objs[i + 1..], objs[i].path))
  {
    var after := Unlink(objs[..i] + objs[i + 1..], objs[i].path);
    hide Unlink, PathFor;
    forall n, k | n in after && k in after && n.Network? && k.Known? && k.path == PathFor(n.name, n.security) ensures n.known == k.path {
      var x := ComesFrom(objs, i, n);
      var y := ComesFrom(objs, i, k);
    }
  }

  lemma ForgetKeepsWellFormed(objs: seq<Obj>, i: nat)
    requires WellFormed(objs) && i < |objs| && objs[i].Known?
    ensures WellFormed(Unlink(objs[..i] + objs[i + 1..], objs[i].path))
  {
    var after := Unlink(objs[..i] + objs[i + 1..], objs[i].path);
    hide Unlink, Distinct, NetworksDiffer, KnownPathsReserved, LinkedBack;
    ForgetKeepsDistinct(objs, i);
    ForgetKeepsDifferent(objs, i);
    ForgetKeepsReserved(objs, i);
    ForgetKeepsLinkedBack(objs, i);
    forall o | o in after ensures ScansCounted(o) {
      var b := ComesFrom(objs, i, o);
    }
  }

  lemma ForgetKeepsLinks(objs: seq<Obj>, i: nat)
    requires WellFormed(objs) && LinksResolve(objs) && i < |objs| && objs[i].Known?
    ensures LinksResolve(Unlink(objs[..i] + objs[i + 1..], objs[i].path))
  {
    var after := Unlink(objs[..i] + objs[i + 1..], objs[i].path);
    hide Unlink, WellFormed;
    forall n | n in after && n.Network? && n.known != "" ensures Resolves(after, n.known) {
      ForgottenMembers(objs, i, n);
      var b :| b in objs && b.path != objs[i].path && n == UnlinkOne(b, objs[i].path);
      var k :| k in objs && k.Known? && k.path == b.known;
      ForgottenMembers(objs, i, k);
      assert k == UnlinkOne(k, objs[i].path);
    }
  }

  /** Every call, and every end of a scan, keeps the registries well formed. */
  lemma PerformKeepsWellFormed(f: Flags, objs: seq<Obj>, i: nat, call: Call)
    requires WellFormed(objs) && i < |objs| && Callable(objs[i], call)
    ensures WellFormed(Perform(f, objs, i, call).objs)
  {
    var o := objs[i];
    if call.Forget? {
      ForgetKeepsWellFormed(objs, i);
    } else if call.Connect? {
      if o.known == "" { ProvisionKeepsWellFormed(objs, i); }
      UpdateKeepsWellFormed(objs, i, o.(connected := true));
      hide WellFormed, Provisioned;
    } else {
      CallConfined(f, o, call);
      ScansStayCounted(f, o, call);
      UpdateKeepsWellFormed(objs, i, CallOne(f, o, call).obj);
      hide WellFormed, CallOne;
    }
  }

  lemma PerformKeepsLinks(f: Flags, objs: seq<Obj>, i: nat, call: Call)
    requires WellFormed(objs) && LinksResolve(objs) && i < |objs| && Callable(objs[i], call)
    ensures LinksResolve(Perform(f, objs, i, call).objs)
  {
    var o := objs[i];
    if call.Forget? {
      ForgetKeepsLinks(objs, i);
    } else if call.Connect? {
      if o.known == "" { ProvisionKeepsLinks(objs, i); }
      UpdateKeepsLinks(objs, i, o.(connected := true));
      hide WellFormed, LinksResolve, Provisioned;
    } else {
      CallConfined(f, o, call);
      UpdateKeepsLinks(objs, i, CallOne(f, o, call).obj);
      hide WellFormed, LinksResolve, CallOne;
    }
  }

  // ---------- the snapshot, object by object ----------

  /** The object a snapshot shows at a path: the last one registered there. */
  function ObjAt(objs: seq<Obj>, path: string): (r: Option<Obj>)
    ensures r.Some? ==> r.value in objs && r.value.path == path
    ensures r.None? ==> forall o :: o in objs ==> o.path != path
  {
    if objs == [] then None
    else if objs[|objs| - 1].path == path then Some(objs[|objs| - 1])
    else ObjAt(objs[..|objs| - 1], path)
  }

  function IfacesAt(objs: seq<Obj>, path: string): Ifaces {
    var o := ObjAt(objs, path);
    if o.Some? then IfacesOf(o.value) else map[]
  }

  lemma {:induction false} SnapshotShows(objs: seq<Obj>, path: string)
    ensures At(Snapshot(objs), path) == IfacesAt(objs, path)
  {
    hide IfacesOf;
    if objs != [] { SnapshotShows(objs[..|objs| - 1], path); }
  }

  lemma ShownAt(objs: seq<Obj>, o: Obj)
    requires Distinct(objs) && o in objs
    ensures ObjAt(objs, o.path) == Some(o)
  {
    var r := ObjAt(objs, o.path);
    OneAtEachPath(objs, r.value, o);
  }

  /** The view's object at a path follows the registered one. */
  ghost predicate TracksAt(view: Tree, objs: seq<Obj>, path: string) {
    var o := ObjAt(objs, path);
    if o.Some? then Tracks(At(view, path), o.value) else At(view, path) == map[]
  }

  lemma SignalAt(view: Tree, signal: Signal, path: string)
    ensures At(ApplySignal(view, signal), path) == if path == signal.path then ApplyTo(At(view, path), signal) else At(view, path)
  {
  }

  lemma UpdateTracked(f: Flags, view: Tree, objs: seq<Obj>, i: nat, call: Call, path: string)
    requires WellFormed(objs) && i < |objs| && Callable(objs[i], call) && OneObjectCall(call)
    requires TracksAt(view, objs, path)
    ensures var e := CallOne(f, objs[i], call); TracksAt(Replay(view, e.signals), objs[i := e.obj], path)
  {
    var e := CallOne(f, objs[i], call);
    CallConfined(f, objs[i], call);
    UpdateKeepsDistinct(objs, i, e.obj);
    if path == objs[i].path {
      ShownAt(objs, objs[i]);
      ShownAt(objs[i := e.obj], e.obj);
      ReplayHere(view, e.signals, path);
      CallTracked(f, At(view, path), objs[i], call);
    } else {
      ReplayElsewhere(view, e.signals, path);
      UpdateShowsOthers(objs, i, e.obj, path);
    }
  }

  lemma UpdateKeepsDistinct(objs: seq<Obj>, i: nat, n: Obj)
    requires Distinct(objs) && i < |objs| && n.path == objs[i].path
    ensures Distinct(objs[i := n]) && n in objs[i := n]
  {
    assert objs[i := n][i] == n;
  }

  lemma UpdateShowsOthers(objs: seq<Obj>, i: nat, n: Obj, path: string)
    requires Distinct(objs) && i < |objs| && n.path == objs[i].path && path != n.path
    ensures ObjAt(objs[i := n], path) == ObjAt(objs, path)
  {
    var after := objs[i := n];
    var r := ObjAt(objs, path);
    if r.Some? {
      var j :| 0 <= j < |objs| && objs[j] == r.value;
      assert after[j] in after;
      UpdateKeepsDistinct(objs, i, n);
      ShownAt(after, r.value);
    } else {
      assert forall o :: o in after ==> o == n || o in objs;
    }
  }

  // -- the signals of Connect

  lemma ConnectionAnnounced(n: Obj)
    requires n.Network?
    ensures Announces(INetwork, NetworkProps(n), NetworkProps(n.(connected := true)), map[KConnected := Bool(true)], [])
  {
  }

  lemma LinkAnnounced(n: Obj, path: string)
    requires n.Network? && path != ""
    ensures Announces(INetwork, NetworkProps(n), NetworkProps(n.(known := path)), map[KKnownNetwork := Path(path)], [])
  {
  }

  lemma UnlinkAnnounced(n: Obj)
    requires n.Network?
    ensures Announces(INetwork, NetworkProps(n), NetworkProps(n.(known := "")), map[], [KKnownNetwork])
  {
  }

  lemma NetworkAnnounced(n: Obj, path: string)
    requires n.Network? && path != ""
    ensures Announces(INetwork, NetworkProps(n), NetworkProps(n.(connected := true)), map[KConnected := Bool(true)], [])
    ensures Announces(INetwork, NetworkProps(n), NetworkProps(n.(known := path)), map[KKnownNetwork := Path(path)], [])
    ensures Announces(INetwork, NetworkProps(n), NetworkProps(n.(known := "")), map[], [KKnownNetwork])
  {
    hide Announces, NetworkProps;
    ConnectionAnnounced(n);
    LinkAnnounced(n, path);
    UnlinkAnnounced(n);
  }

  lemma NetworkChangeTracked(v: Ifaces, n: Obj, m: Obj, changed: Props, invalidated: seq<Key>)
    requires n.Network? && m.Network? && Tracks(v, n)
    requires Announces(INetwork, NetworkProps(n), NetworkProps(m), changed, invalidated)
    ensures Tracks(ApplyTo(v, Changed(n.path, INetwork, changed, invalidated)), m)
  {
    hide Tracks, Announces, NetworkProps;
    ChangeTracked(v, n, m, INetwork, changed, invalidated);
    ReplayOne(v, Changed(n.path, INetwork, changed, invalidated));
  }

  lemma ReplayThree(view: Tree, a: Signal, b: Signal, c: Signal, path: string)
    requires a.path != b.path && b.path == c.path
    ensures At(Replay(view, [a, b, c]), path) ==
      if path == a.path then ApplyTo(At(view, path), a)
      else if path == b.path then ApplyTo(ApplyTo(At(view, path), b), c)
      else At(view, path)
  {
    hide ApplySignal, ApplyTo, At;
    assert [a, b, c][..2] == [a, b] && [a, b][..1] == [a] && [a][..0] == [];
    var one := ApplySignal(view, a);
    var two := ApplySignal(one, b);
    assert Replay(view, []) == view && Replay(view, [a]) == one;
    assert Replay(view, [a, b]) == two;
    assert Replay(view, [a, b, c]) == ApplySignal(two, c);
    SignalAt(view, a, path);
    SignalAt(one, b, path);
    SignalAt(two, c, path);
  }

  lemma AppendShows(objs: seq<Obj>, k: Obj, path: string)
    ensures ObjAt(objs + [k], path) == if path == k.path then Some(k) else ObjAt(objs, path)
  {
    assert (objs + [k])[..|objs|] == objs;
  }

  /** The two changes that follow a first connection, at the network. */
  lemma LinkedAndConnectedTracked(v: Ifaces, n: Obj, known: string)
    requires n.Network? && known != "" && Tracks(v, n)
    ensures Tracks(ApplyTo(ApplyTo(v, Changed(n.path, INetwork, map[KKnownNetwork := Path(known)], [])),
                           Changed(n.path, INetwork, map[KConnected := Bool(true)], [])),
                   n.(connected := true, known := known))
  {
    var linked := n.(known := known);
    LinkAnnounced(n, known);
    ConnectionAnnounced(linked);
    hide Tracks, Announces, NetworkProps, ApplyTo;
    NetworkChangeTracked(v, n, linked, map[KKnownNetwork := Path(known)], []);
    NetworkChangeTracked(ApplyTo(v, Changed(n.path, INetwork, map[KKnownNetwork := Path(known)], [])), linked, linked.(connected := true),
                         map[KConnected := Bool(true)], []);
  }

  /** And the new object, where there was nothing. */
  lemma AddedTracked(k: Obj)
    requires k.Known?
    ensures Tracks(ApplyTo(map[], Added(k.path, IfacesOf(k))), k)
  {
    SamePropsRefl();
    hide KnownProps, SameProps;
  }

  lemma ProvisionTracked(view: Tree, objs: seq<Obj>, i: nat, path: string)
    requires WellFormed(objs) && i < |objs| && objs[i].Network? && objs[i].known == "" && objs[i].security != "open"
    requires TracksAt(view, objs, path)
    ensures var r := ConnectNetwork(objs, i, RightPassphrase); TracksAt(Replay(view, r.signals), r.objs, path)
  {
    var n := objs[i];
    var k := Provisioned(n);
    var done := n.(connected := true, known := k.path);
    ProvisionedPathIsFree(objs, n);
    ProvisionedHasPath(n);
    hide PathFor, IfacesOf, Tracks, ApplyTo, Replay;
    var a, b, c := Added(k.path, IfacesOf(k)), Changed(n.path, INetwork, map[KKnownNetwork := Path(k.path)], []),
      Changed(n.path, INetwork, map[KConnected := Bool(true)], []);
    ReplayThree(view, a, b, c, path);
    UpdateKeepsDistinct(objs, i, done);
    AppendShows(objs[i := done], k, path);
    if path == k.path {
      AddedTracked(k);
    } else if path == n.path {
      ShownAt(objs, n);
      ShownAt(objs[i := done], done);
      LinkedAndConnectedTracked(At(view, path), n, k.path);
    } else {
      UpdateShowsOthers(objs, i, done, path);
    }
  }

  lemma ProvisionedHasPath(n: Obj)
    requires n.Network?
    ensures Provisioned(n).path != ""
  {
    PathEndsInElement(n.name, n.security);
  }

  lemma ConnectTracked(view: Tree, objs: seq<Obj>, i: nat, answer: Answer, path: string)
    requires WellFormed(objs) && i < |objs| && objs[i].Network?
    requires TracksAt(view, objs, path)
    ensures var r := ConnectNetwork(objs, i, answer); TracksAt(Replay(view, r.signals), r.objs, path)
  {
    var n := objs[i];
    var r := ConnectNetwork(objs, i, answer);
    if r.outcome == Done {
      if n.known == "" && n.security != "open" {
        ProvisionTracked(view, objs, i, path);
      } else {
        var done := n.(connected := true);
        var said := Changed(n.path, INetwork, map[KConnected := Bool(true)], []);
        ReplaySingle(view, said);
        SignalAt(view, said, path);
        UpdateKeepsDistinct(objs, i, done);
        if path == n.path {
          ShownAt(objs, n);
          ShownAt(objs[i := done], done);
          NetworkAnnounced(n, "/");
          NetworkChangeTracked(At(view, path), n, done, said.changed, []);
        } else {
          UpdateShowsOthers(objs, i, done, path);
        }
      }
    }
  }

  lemma ReplaySingle(view: Tree, signal: Signal)
    ensures Replay(view, [signal]) == ApplySignal(view, signal)
  {
    assert [signal][..0] == [];
  }

  // -- the signals of Forget

  lemma {:induction false} UnlinkReplayed(view: Tree, objs: seq<Obj>, known: string, path: string)
    requires Distinct(objs)
    ensures var o := ObjAt(objs, path);
      At(Replay(view, UnlinkSignals(objs, known)), path) ==
      if o.Some? && o.value.Network? && o.value.known == known then ApplyTo(At(view, path), UnlinkSignal(o.value)) else At(view, path)
  {
    if objs != [] {
      var front, last := objs[..|objs| - 1], objs[|objs| - 1];
      assert forall i :: 0 <= i < |front| ==> front[i] == objs[i];
      UnlinkReplayed(view, front, known, path);
      var told := Replay(view, UnlinkSignals(front, known));
      if last.Network? && last.known == known {
        ReplayInTwo(view, UnlinkSignals(front, known), [UnlinkSignal(last)]);
        ReplaySingle(told, UnlinkSignal(last));
        SignalAt(told, UnlinkSignal(last), path);
      } else {
        assert UnlinkSignals(objs, known) == UnlinkSignals(front, known);
      }
      LastIsNew(objs);
    }
  }

  lemma LastIsNew(objs: seq<Obj>)
    requires Distinct(objs) && objs != []
    ensures ObjAt(objs[..|objs| - 1], objs[|objs| - 1].path) == None
  {
    forall o | o in objs[..|objs| - 1] ensures o.path != objs[|objs| - 1].path {
      var i :| 0 <= i < |objs| - 1 && objs[i] == o;
    }
  }

  /** After Forget a path shows what it showed before, unlinked, and the forgotten path shows nothing. */
  lemma ForgetShows(objs: seq<Obj>, i: nat, path: string)
    requires Distinct(objs) && i < |objs|
    ensures var o := ObjAt(objs, path);
      ObjAt(Unlink(objs[..i] + objs[i + 1..], objs[i].path), path) ==
      if path == objs[i].path || o.None? then None else Some(UnlinkOne(o.value, objs[i].path))
  {
    var after := Unlink(objs[..i] + objs[i + 1..], objs[i].path);
    var r, o := ObjAt(after, path), ObjAt(objs, path);
    ForgetKeepsDistinct(objs, i);
    if r.Some? {
      ForgottenMembers(objs, i, r.value);
      var b :| b in objs && b.path != objs[i].path && r.value == UnlinkOne(b, objs[i].path);
      ShownAt(objs, b);
    } else if o.Some? && path != objs[i].path {
      ForgottenMembers(objs, i, UnlinkOne(o.value, objs[i].path));
    }
  }

  lemma ForgetTracked(view: Tree, objs: seq<Obj>, i: nat, path: string)
    requires WellFormed(objs) && i < |objs| && objs[i].Known?
    requires TracksAt(view, objs, path)
    ensures var r := ForgetKnown(objs, i); TracksAt(Replay(view, r.signals), r.objs, path)
  {
    var k := objs[i];
    var gone := Removed(k.path, [IKnown]);
    var told := Replay(view, UnlinkSignals(objs, k.path));
    ReplayInTwo(view, UnlinkSignals(objs, k.path), [gone]);
    ReplaySingle(told, gone);
    SignalAt(told, gone, path);
    UnlinkReplayed(view, objs, k.path, path);
    ForgetShows(objs, i, path);
    hide Unlink, UnlinkSignals, Replay, ApplySignal, WellFormed;
    ShownAt(objs, k);
    var o := ObjAt(objs, path);
    if path == k.path {
      assert At(view, path).Keys == {IKnown};
      assert ApplyTo(At(view, path), gone) == map[];
    } else if o.Some? && o.value.Network? && o.value.known == k.path {
      NetworkAnnounced(o.value, "/");
      NetworkChangeTracked(At(view, path), o.value, o.value.(known := ""), map[], [KKnownNetwork]);
    }
  }

  // ---------- runs ----------

  datatype State = State(objs: seq<Obj>, view: Tree)

  /** A call on the object at an index, or the end of a scan there. */
  datatype Step = Step(i: nat, call: Call)

  /** A client that has just read GetManagedObjects. */
  function Start(objs: seq<Obj>): State {
    State(objs, Snapshot(objs))
  }

  predicate Enabled(s: State, step: Step) {
    step.i < |s.objs| && Callable(s.objs[step.i], step.call)
  }

  function Apply(f: Flags, s: State, step: Step): State
    requires Enabled(s, step)
  {
    var r := Perform(f, s.objs, step.i, step.call);
    State(r.objs, Replay(s.view, r.signals))
  }

  predicate IsRun(f: Flags, s: State, run: seq<Step>)
    decreases |run|
  {
    run == [] || (Enabled(s, run[0]) && IsRun(f, Apply(f, s, run[0]), run[1..]))
  }

  function Exec(f: Flags, s: State, run: seq<Step>): State
    requires IsRun(f, s, run)
    decreases |run|
  {
    if run == [] then s else Exec(f, Apply(f, s, run[0]), run[1..])
  }

  /** A state some run leads to from a client that read `objs`. */
  ghost predicate Reached(f: Flags, objs: seq<Obj>, s: State) {
    exists run :: IsRun(f, Start(objs), run) && Exec(f, Start(objs), run) == s
  }

  ghost predicate TracksTree(s: State) {
    forall path: string :: TracksAt(s.view, s.objs, path)
  }

  lemma StepTracked(f: Flags, s: State, step: Step)
    requires WellFormed(s.objs) && TracksTree(s) && Enabled(s, step)
    ensures WellFormed(Apply(f, s, step).objs) && TracksTree(Apply(f, s, step))
  {
    PerformKeepsWellFormed(f, s.objs, step.i, step.call);
    hide WellFormed, CallOne, ConnectNetwork, ForgetKnown, Replay, TracksAt;
    forall path: string ensures TracksAt(Apply(f, s, step).view, Apply(f, s, step).objs, path) {
      match step.call
      case Connect(answer) => ConnectTracked(s.view, s.objs, step.i, answer, path);
      case Forget => ForgetTracked(s.view, s.objs, step.i, path);
      case _ => UpdateTracked(f, s.view, s.objs, step.i, step.call, path);
    }
  }

  lemma {:induction false} RunTracked(f: Flags, s: State, run: seq<Step>)
    requires WellFormed(s.objs) && TracksTree(s) && IsRun(f, s, run)
    ensures WellFormed(Exec(f, s, run).objs) && TracksTree(Exec(f, s, run))
    decreases |run|
  {
    hide WellFormed, TracksTree, Enabled, Apply;
    if run != [] {
      StepTracked(f, s, run[0]);
      RunTracked(f, Apply(f, s, run[0]), run[1..]);
    }
  }

  /** No access point has been restarted, so far as the registry remembers. */
  ghost predicate NoneRestarted(objs: seq<Obj>) {
    forall o :: o in objs && o.Device? ==> !o.restarted
  }

  lemma StartTracks(objs: seq<Obj>)
    requires NoneRestarted(objs)
    ensures TracksTree(Start(objs))
  {
    forall path: string ensures TracksAt(Snapshot(objs), objs, path) {
      SnapshotShows(objs, path);
      SamePropsRefl();
      hide IfacesOf, Snapshot;
    }
  }

  lemma SamePropsTrans(v: Ifaces, a: Ifaces, b: Ifaces)
    requires SameIfaces(v, a) && (SameIfaces(v, b) || SameIfaces(b, v))
    ensures SameIfaces(a, b)
  {
  }

  lemma RestartedReadsWrong(d: Obj)
    requires d.Device? && d.restarted && ScansCounted(d)
    ensures !SameIfaces(IfacesOf(Believed(d)), IfacesOf(d))
  {
    BelievedIfaces(d);
    var truth, seen := AccessPointProps(d), AccessPointProps(Believed(d));
    assert Read(IAccessPoint, KScanning, truth) == Some(Bool(true)) && Read(IAccessPoint, KScanning, seen) == Some(Bool(false));
    hide Assemble, AccessPointProps, StationProps, DeviceProps, Read;
    assert !SameProps(IAccessPoint, seen, truth);
  }

  /** A tracked object reads as it is exactly when it is not a restarted access point. */
  lemma TrackedReadsTrue(v: Ifaces, o: Obj)
    requires Tracks(v, o) && ScansCounted(o)
    ensures SameIfaces(v, IfacesOf(o)) <==> !(o.Device? && o.restarted)
  {
    if o.Device? && o.restarted {
      RestartedReadsWrong(o);
      if SameIfaces(v, IfacesOf(o)) { SamePropsTrans(v, IfacesOf(Believed(o)), IfacesOf(o)); }
    }
    hide IfacesOf, SameIfaces;
  }

  /**
   * In every reached state the replayed view reads as the live tree exactly when no exported access
   * point stands restarted under a scan from before its stop.
   */
  lemma ReplayIsLiveExactlyWhen(f: Flags, objs: seq<Obj>, s: State)
    requires WellFormed(objs) && NoneRestarted(objs) && Reached(f, objs, s)
    ensures SameReads(s.view, Snapshot(s.objs)) <==> NoneRestarted(s.objs)
  {
    var run :| IsRun(f, Start(objs), run) && Exec(f, Start(objs), run) == s;
    StartTracks(objs);
    RunTracked(f, Start(objs), run);
    hide Exec, IsRun, Snapshot, Tracks, IfacesOf, SameIfaces, ScansCounted;
    forall path: string ensures SameIfaces(At(s.view, path), At(Snapshot(s.objs), path)) <==>
      var o := ObjAt(s.objs, path); !(o.Some? && o.value.Device? && o.value.restarted)
    {
      SnapshotShows(s.objs, path);
      assert TracksAt(s.view, s.objs, path);
      var o := ObjAt(s.objs, path);
      if o.Some? { TrackedReadsTrue(At(s.view, path), o.value); } else { NothingIsNothing(); }
    }
    if !NoneRestarted(s.objs) {
      var o :| o in s.objs && o.Device? && o.restarted;
      ShownAt(s.objs, o);
    }
  }

  lemma NothingIsNothing()
    ensures SameIfaces(map[], map[])
  {
  }

  // ---------- what a caller can do about it ----------

  predicate Starts(call: Call) {
    call.ApStart? || call.ApStartProfile?
  }

  /** Nobody starts an access point while a scan of it is pending. */
  predicate Careful(f: Flags, s: State, run: seq<Step>)
    requires IsRun(f, s, run)
    decreases |run|
  {
    run == [] ||
    (CarefulStep(s, run[0]) && Careful(f, Apply(f, s, run[0]), run[1..]))
  }

  predicate CarefulStep(s: State, step: Step)
    requires Enabled(s, step)
  {
    Starts(step.call) ==> !s.objs[step.i].apScanning
  }

  lemma CarefulCallRestartsNothing(f: Flags, d: Obj, call: Call)
    requires d.Device? && Callable(d, call) && OneObjectCall(call) && !d.restarted
    ensures var n := CallOne(f, d, call).obj; n.Device? && (n.restarted ==> Starts(call) && d.apScanning)
    ensures Starts(call) && CallOne(f, d, call).outcome == Done ==> CallOne(f, d, call).obj.restarted == d.apScanning
  {
    hide SetDevice;
    if call.Set? { SetRestartsNothing(f, d, call.iface, call.key, call.value); }
  }

  lemma SetRestartsNothing(f: Flags, d: Obj, iface: Iface, key: Key, v: Variant)
    requires d.Device? && !d.restarted
    ensures var n := SetDevice(f, d, iface, key, v).obj; n.Device? && !n.restarted
  {
    hide LostIfaces, GainedIfaces, Carried, GainedExports;
  }

  lemma ForgetRestartsNothing(objs: seq<Obj>, i: nat)
    requires Distinct(objs) && NoneRestarted(objs) && i < |objs| && objs[i].Known?
    ensures NoneRestarted(ForgetKnown(objs, i).objs)
  {
    var after := ForgetKnown(objs, i).objs;
    forall m | m in after && m.Device? ensures !m.restarted {
      var b := ComesFrom(objs, i, m);
      hide ForgetKnown;
    }
  }

  lemma ConnectRestartsNothing(objs: seq<Obj>, i: nat, answer: Answer)
    requires NoneRestarted(objs) && i < |objs| && objs[i].Network?
    ensures NoneRestarted(ConnectNetwork(objs, i, answer).objs)
  {
    hide PathFor;
    forall m | m in ConnectNetwork(objs, i, answer).objs && m.Device? ensures !m.restarted { assert m in objs; }
  }

  lemma UpdateRestartsNothing(objs: seq<Obj>, i: nat, n: Obj)
    requires NoneRestarted(objs) && i < |objs| && (n.Device? ==> !n.restarted)
    ensures NoneRestarted(objs[i := n])
  {
    forall m | m in objs[i := n] && m.Device? ensures !m.restarted { assert m in objs || m == n; }
  }

  lemma CarefulStepRestartsNothing(f: Flags, s: State, step: Step)
    requires WellFormed(s.objs) && NoneRestarted(s.objs) && Enabled(s, step) && CarefulStep(s, step)
    ensures NoneRestarted(Apply(f, s, step).objs)
  {
    var o := s.objs[step.i];
    if step.call.Forget? {
      ForgetRestartsNothing(s.objs, step.i);
      hide ForgetKnown, NoneRestarted;
    } else if step.call.Connect? {
      ConnectRestartsNothing(s.objs, step.i, step.call.answer);
      hide ConnectNetwork, NoneRestarted;
    } else {
      assert o.Device? ==> !o.restarted;
      hide CallOne, NoneRestarted;
      if o.Device? { CarefulCallRestartsNothing(f, o, step.call); } else { DeviceKindStays(f, o, step.call); }
      UpdateRestartsNothing(s.objs, step.i, CallOne(f, o, step.call).obj);
    }
  }

  lemma DeviceKindStays(f: Flags, o: Obj, call: Call)
    requires Callable(o, call) && OneObjectCall(call) && !o.Device?
    ensures !CallOne(f, o, call).obj.Device?
  {
  }

  lemma {:induction false} CarefulRunRestartsNothing(f: Flags, s: State, run: seq<Step>)
    requires WellFormed(s.objs) && NoneRestarted(s.objs) && IsRun(f, s, run) && Careful(f, s, run)
    ensures NoneRestarted(Exec(f, s, run).objs)
    decreases |run|
  {
    hide WellFormed, NoneRestarted, Apply, Enabled, CarefulStep;
    if run != [] {
      PerformKeepsWellFormedStep(f, s, run[0]);
      CarefulStepRestartsNothing(f, s, run[0]);
      CarefulRunRestartsNothing(f, Apply(f, s, run[0]), run[1..]);
    }
  }

  lemma PerformKeepsWellFormedStep(f: Flags, s: State, step: Step)
    requires WellFormed(s.objs) && Enabled(s, step)
    ensures WellFormed(Apply(f, s, step).objs)
  {
    PerformKeepsWellFormed(f, s.objs, step.i, step.call);
    hide WellFormed, Perform;
  }

  lemma {:induction false} RunKeepsWellFormed(f: Flags, s: State, run: seq<Step>)
    requires WellFormed(s.objs) && IsRun(f, s, run)
    ensures WellFormed(Exec(f, s, run).objs)
    decreases |run|
  {
    hide WellFormed, Enabled, Apply;
    if run != [] {
      PerformKeepsWellFormedStep(f, s, run[0]);
      RunKeepsWellFormed(f, Apply(f, s, run[0]), run[1..]);
    }
  }

  /** A state that a run with no such start leads to. */
  ghost predicate CarefullyReached(f: Flags, objs: seq<Obj>, s: State) {
    exists run :: IsRun(f, Start(objs), run) && Careful(f, Start(objs), run) && Exec(f, Start(objs), run) == s
  }

  /** As long as no access point is started under a pending scan, the replayed view is the live tree. */
  lemma CarefulReplayIsLive(f: Flags, objs: seq<Obj>, s: State)
    requires WellFormed(objs) && NoneRestarted(objs) && CarefullyReached(f, objs, s)
    ensures SameReads(s.view, Snapshot(s.objs))
  {
    hide WellFormed, NoneRestarted, SameReads;
    var run :| IsRun(f, Start(objs), run) && Careful(f, Start(objs), run) && Exec(f, Start(objs), run) == s;
    CarefulRunRestartsNothing(f, Start(objs), run);
    assert Reached(f, objs, s);
    ReplayIsLiveExactlyWhen(f, objs, s);
  }

  lemma ReachedNext(f: Flags, objs: seq<Obj>, s: State, step: Step)
    requires Reached(f, objs, s) && Enabled(s, step)
    ensures Reached(f, objs, Apply(f, s, step))
  {
    var run :| IsRun(f, Start(objs), run) && Exec(f, Start(objs), run) == s;
    hide Enabled, Apply;
    RunExtends(f, Start(objs), run, step);
  }

  /** And a start that is accepted under one makes the two differ at once. */
  lemma CarelessStartMisleads(f: Flags, objs: seq<Obj>, s: State, step: Step)
    requires WellFormed(objs) && NoneRestarted(objs) && Reached(f, objs, s) && NoneRestarted(s.objs)
    requires Enabled(s, step) && Starts(step.call) && s.objs[step.i].apScanning
    requires Perform(f, s.objs, step.i, step.call).outcome == Done
    ensures var n := Apply(f, s, step); !SameReads(n.view, Snapshot(n.objs))
  {
    var n := Apply(f, s, step);
    ReachedNext(f, objs, s, step);
    ReplayIsLiveExactlyWhen(f, objs, n);
    var o := s.objs[step.i];
    CarefulCallRestartsNothing(f, o, step.call);
    assert n.objs[step.i] == CallOne(f, o, step.call).obj;
    hide SameReads, CallOne, WellFormed;
    assert n.objs[step.i] in n.objs;
  }

  lemma {:induction false} RunExtends(f: Flags, s: State, run: seq<Step>, step: Step)
    requires IsRun(f, s, run) && Enabled(Exec(f, s, run), step)
    ensures IsRun(f, s, run + [step]) && Exec(f, s, run + [step]) == Apply(f, Exec(f, s, run), step)
    decreases |run|
  {
    hide Enabled, Apply;
    if run == [] {
      assert [step][1..] == [];
      assert IsRun(f, Apply(f, s, step), []);
    } else {
      assert (run + [step])[1..] == run[1..] + [step];
      RunExtends(f, Apply(f, s, run[0]), run[1..], step);
    }
  }

  // ---------- links ----------

  lemma {:induction false} RunKeepsLinks(f: Flags, s: State, run: seq<Step>)
    requires WellFormed(s.objs) && LinksResolve(s.objs) && IsRun(f, s, run)
    ensures WellFormed(Exec(f, s, run).objs) && LinksResolve(Exec(f, s, run).objs)
    decreases |run|
  {
    hide WellFormed, LinksResolve, Enabled, Apply;
    if run != [] {
      PerformKeepsWellFormedStep(f, s, run[0]);
      StepKeepsLinks(f, s, run[0]);
      RunKeepsLinks(f, Apply(f, s, run[0]), run[1..]);
    }
  }

  lemma StepKeepsLinks(f: Flags, s: State, step: Step)
    requires WellFormed(s.objs) && LinksResolve(s.objs) && Enabled(s, step)
    ensures LinksResolve(Apply(f, s, step).objs)
  {
    PerformKeepsLinks(f, s.objs, step.i, step.call);
    hide WellFormed, LinksResolve, Perform;
  }

  /**
   * Over every run each network is linked to nothing or to exactly one exported known network, and
   * no two known networks share a path.
   */
  lemma LinksNameExactlyOne(f: Flags, objs: seq<Obj>, run: seq<Step>)
    requires WellFormed(objs) && LinksResolve(objs) && IsRun(f, Start(objs), run)
    ensures var s := Exec(f, Start(objs), run);
      && (forall n :: n in s.objs && n.Network? && n.known != "" ==> Resolves(s.objs, n.known))
      && (forall i, j :: 0 <= i < j < |s.objs| && s.objs[i].Known? && s.objs[j].Known? ==> s.objs[i].path != s.objs[j].path)
  {
    RunKeepsLinks(f, Start(objs), run);
    hide Resolves;
  }

  /** Forgetting a network's known network undoes the link its first connection made, and only that. */
  lemma ForgetUndoesProvision(objs: seq<Obj>, i: nat)
    requires WellFormed(objs) && i < |objs| && objs[i].Network? && objs[i].known == "" && objs[i].security != "open"
    requires forall n :: n in objs && n.Network? ==> n.known != PathFor(objs[i].name, objs[i].security)
    ensures var after := ConnectNetwork(objs, i, RightPassphrase).objs;
      after[|objs|].Known? && ForgetKnown(after, |objs|).objs == objs[i := objs[i].(connected := true)]
  {
    var after := ConnectNetwork(objs, i, RightPassphrase).objs;
    var linked := objs[i := objs[i].(connected := true, known := PathFor(objs[i].name, objs[i].security))];
    hide PathFor;
    assert after[..|objs|] + after[|objs| + 1..] == linked;
    assert forall j :: 0 <= j < |objs| ==> objs[j] in objs;
  }
}

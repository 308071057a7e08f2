/**
 * The decoders of the client over the objects of the mock: what a client that replays the signals
 * decodes for a station, an access point or a network is what a fresh bulk read would decode.
 */
module ClientView {
  import opened Common
  import opened KnownNetworkPaths
  import opened ObjectTree
  import opened TreeReplay
  import opened TreeRuns
  import C = ClientReads

  /** A property value as the client's type switches see it; an SSID arrives as a string. */
  function AsValue(v: Variant): C.Value {
    match v
    case Bool(b) => C.BoolV(b)
    case Text(s) => C.StringV(s)
    case Path(p) => C.PathV(p)
    case Paths(ps) => C.PathsV(ps)
    case Texts(ss) => C.StringsV(ss)
    case Number(n) => if n >= 0 then C.Uint32V(n) else C.Other(0)
    case Bytes(bs) => C.StringV(AsString(bs))
    case Opaque(id) => C.Other(id)
  }

  function AsString(bs: Ssid): string {
    seq(|bs|, i requires 0 <= i < |bs| => bs[i] as char)
  }

  function Field(props: Props, key: Key, name: string): (r: map<string, C.Value>)
    ensures forall n: string :: n in r <==> n == name && key in props
    ensures key in props ==> r[name] == AsValue(props[key])
  {
    if key in props then map[name := AsValue(props[key])] else map[]
  }

  function StationServer(props: Props): C.Server {
    C.Server(Field(props, KState, "State") + Field(props, KScanning, "Scanning")
             + Field(props, KConnectedNetwork, "ConnectedNetwork") + Field(props, KConnectedAccessPoint, "ConnectedAccessPoint")
             + Field(props, KAffinities, "Affinities"), C.STATION_OPTIONALS)
  }

  function ApServer(props: Props): C.Server {
    C.Server(Field(props, KStarted, "Started") + Field(props, KScanning, "Scanning") + Field(props, KName, "Name")
             + Field(props, KFrequency, "Frequency") + Field(props, KPairwiseCiphers, "PairwiseCiphers")
             + Field(props, KGroupCipher, "GroupCipher"), C.AP_OPTIONALS)
  }

  function NetworkServer(props: Props): C.Server {
    C.Server(Field(props, KName, "Name") + Field(props, KConnected, "Connected") + Field(props, KDevice, "Device")
             + Field(props, KType, "Type") + Field(props, KExtendedServiceSet, "ExtendedServiceSet")
             + Field(props, KKnownNetwork, "KnownNetwork"), C.NETWORK_OPTIONALS)
  }

  // ---------- reading alike is decoding alike ----------

  /** The named entry of a server is the property under its key. */
  ghost predicate Holds(s: C.Server, props: Props, key: Key, name: string) {
    (name in s.props <==> key in props) && (key in props ==> s.props[name] == AsValue(props[key]))
  }

  lemma StationServerHolds(props: Props)
    ensures var s := StationServer(props);
      && Holds(s, props, KState, "State") && Holds(s, props, KScanning, "Scanning") && Holds(s, props, KAffinities, "Affinities")
      && Holds(s, props, KConnectedNetwork, "ConnectedNetwork") && Holds(s, props, KConnectedAccessPoint, "ConnectedAccessPoint")
  {
    hide AsValue, Field;
  }

  lemma ApServerHolds(props: Props)
    ensures var s := ApServer(props);
      && Holds(s, props, KStarted, "Started") && Holds(s, props, KScanning, "Scanning") && Holds(s, props, KName, "Name")
      && Holds(s, props, KFrequency, "Frequency") && Holds(s, props, KPairwiseCiphers, "PairwiseCiphers")
      && Holds(s, props, KGroupCipher, "GroupCipher")
  {
    hide AsValue, Field;
  }

  lemma NetworkServerHolds(props: Props)
    ensures var s := NetworkServer(props);
      && Holds(s, props, KName, "Name") && Holds(s, props, KConnected, "Connected") && Holds(s, props, KDevice, "Device")
      && Holds(s, props, KType, "Type") && Holds(s, props, KExtendedServiceSet, "ExtendedServiceSet")
      && Holds(s, props, KKnownNetwork, "KnownNetwork")
  {
    hide AsValue, Field;
  }

  predicate SameEntry(s: C.Server, t: C.Server, name: string) {
    (name in s.props <==> name in t.props) && (name in s.props && name in t.props ==> s.props[name] == t.props[name])
  }

  lemma EntriesAlike(iface: Iface, a: Props, b: Props, s: C.Server, t: C.Server, key: Key, name: string)
    requires SameProps(iface, a, b) && Holds(s, a, key, name) && Holds(t, b, key, name)
    requires !(iface == IStation && (key == KConnectedNetwork || key == KConnectedAccessPoint)) && !(iface == IAccessPoint && key == KScanning)
    ensures SameEntry(s, t, name)
  {
    assert Read(iface, key, a) == Read(iface, key, b);
    hide AsValue, SameProps;
  }

  lemma OptionalPathsAlike(a: Props, b: Props, s: C.Server, t: C.Server, key: Key, name: string)
    requires SameProps(IStation, a, b) && (key == KConnectedNetwork || key == KConnectedAccessPoint)
    requires Holds(s, a, key, name) && Holds(t, b, key, name) && name in s.worded && name in t.worded
    ensures C.GetOptionalPath(s, name) == C.GetOptionalPath(t, name)
  {
    assert Read(IStation, key, a) == Read(IStation, key, b);
    hide SameProps;
  }

  lemma ScanningAlike(a: Props, b: Props, s: C.Server, t: C.Server)
    requires SameProps(IAccessPoint, a, b)
    requires Holds(s, a, KScanning, "Scanning") && Holds(t, b, KScanning, "Scanning") && "Scanning" in s.worded && "Scanning" in t.worded
    ensures C.GetApScanning(s) == C.GetApScanning(t)
  {
    assert Read(IAccessPoint, KScanning, a) == Read(IAccessPoint, KScanning, b);
    hide SameProps;
  }

  lemma StationServersAlike(s: C.Server, t: C.Server)
    requires s.worded == t.worded && SameEntry(s, t, "State") && SameEntry(s, t, "Scanning") && SameEntry(s, t, "Affinities")
    requires C.GetOptionalPath(s, "ConnectedNetwork") == C.GetOptionalPath(t, "ConnectedNetwork")
    requires C.GetOptionalPath(s, "ConnectedAccessPoint") == C.GetOptionalPath(t, "ConnectedAccessPoint")
    ensures C.StationSingles(s) == C.StationSingles(t)
  {
    hide C.GetOptionalPath, C.ParseState, C.ParseAffinities;
  }

  lemma ApServersAlike(s: C.Server, t: C.Server)
    requires s.worded == t.worded && SameEntry(s, t, "Started") && C.GetApScanning(s) == C.GetApScanning(t)
    requires SameEntry(s, t, "Name") && SameEntry(s, t, "Frequency") && SameEntry(s, t, "PairwiseCiphers") && SameEntry(s, t, "GroupCipher")
    ensures C.ApSingles(s) == C.ApSingles(t)
  {
    hide C.GetApScanning, C.ParseOptionalString, C.ParseFrequency, C.ParseCiphers;
  }

  lemma OptionalsAreWorded(props: Props)
    ensures StationServer(props).worded == C.STATION_OPTIONALS && ApServer(props).worded == C.AP_OPTIONALS
    ensures "ConnectedNetwork" in StationServer(props).worded && "ConnectedAccessPoint" in StationServer(props).worded
    ensures "Scanning" in ApServer(props).worded
  {
    hide Field;
  }

  lemma StationsAlike(a: Props, b: Props)
    requires SameProps(IStation, a, b)
    ensures C.StationSingles(StationServer(a)) == C.StationSingles(StationServer(b))
  {
    hide StationServer, ApServer, SameProps, Holds, SameEntry, C.GetOptionalPath, C.StationSingles;
    var s, t := StationServer(a), StationServer(b);
    StationServerHolds(a);
    StationServerHolds(b);
    OptionalsAreWorded(a);
    OptionalsAreWorded(b);
    OptionalPathsAlike(a, b, s, t, KConnectedNetwork, "ConnectedNetwork");
    OptionalPathsAlike(a, b, s, t, KConnectedAccessPoint, "ConnectedAccessPoint");
    EntriesAlike(IStation, a, b, s, t, KState, "State");
    EntriesAlike(IStation, a, b, s, t, KScanning, "Scanning");
    EntriesAlike(IStation, a, b, s, t, KAffinities, "Affinities");
    StationServersAlike(s, t);
  }

  lemma ApsAlike(a: Props, b: Props)
    requires SameProps(IAccessPoint, a, b)
    ensures C.ApSingles(ApServer(a)) == C.ApSingles(ApServer(b))
  {
    hide StationServer, ApServer, SameProps, Holds, SameEntry, C.GetApScanning, C.ApSingles;
    var s, t := ApServer(a), ApServer(b);
    ApServerHolds(a);
    ApServerHolds(b);
    OptionalsAreWorded(a);
    OptionalsAreWorded(b);
    ScanningAlike(a, b, s, t);
    EntriesAlike(IAccessPoint, a, b, s, t, KStarted, "Started");
    EntriesAlike(IAccessPoint, a, b, s, t, KName, "Name");
    EntriesAlike(IAccessPoint, a, b, s, t, KFrequency, "Frequency");
    EntriesAlike(IAccessPoint, a, b, s, t, KPairwiseCiphers, "PairwiseCiphers");
    EntriesAlike(IAccessPoint, a, b, s, t, KGroupCipher, "GroupCipher");
    ApServersAlike(s, t);
  }

  lemma NetworksAlike(a: Props, b: Props)
    requires SameProps(INetwork, a, b)
    ensures C.NetworkSingles(NetworkServer(a)) == C.NetworkSingles(NetworkServer(b))
  {
    var s, t := NetworkServer(a), NetworkServer(b);
    assert s.worded == t.worded == C.NETWORK_OPTIONALS;
    NetworkServerHolds(a);
    NetworkServerHolds(b);
    hide NetworkServer, SameProps, Holds, C.ParsePath, C.ParseNetworkType, C.ParsePathList, C.ParseOptionalPath;
    EntriesAlike(INetwork, a, b, s, t, KName, "Name");
    EntriesAlike(INetwork, a, b, s, t, KConnected, "Connected");
    EntriesAlike(INetwork, a, b, s, t, KDevice, "Device");
    EntriesAlike(INetwork, a, b, s, t, KType, "Type");
    EntriesAlike(INetwork, a, b, s, t, KExtendedServiceSet, "ExtendedServiceSet");
    EntriesAlike(INetwork, a, b, s, t, KKnownNetwork, "KnownNetwork");
  }

  // ---------- what a client knows about a path ----------

  /** The decoded bulk reads of an object, for the interfaces it carries. */
  function StationAt(tree: Tree, path: string): Option<Option<C.StationProps>> {
    if IStation in At(tree, path) then Some(C.StationSingles(StationServer(At(tree, path)[IStation]))) else None
  }

  function ApAt(tree: Tree, path: string): Option<Option<C.ApProps>> {
    if IAccessPoint in At(tree, path) then Some(C.ApSingles(ApServer(At(tree, path)[IAccessPoint]))) else None
  }

  function NetworkAt(tree: Tree, path: string): Option<Option<C.NetworkProps>> {
    if INetwork in At(tree, path) then Some(C.NetworkSingles(NetworkServer(At(tree, path)[INetwork]))) else None
  }

  // After any run in which no access point is started under a pending scan, the client's replayed view
  // decodes at every path to what a fresh bulk read of the live objects decodes.

  lemma ReplayedStationsAreFresh(f: Flags, objs: seq<Obj>, s: State, path: string)
    requires WellFormed(objs) && NoneRestarted(objs) && CarefullyReached(f, objs, s)
    ensures StationAt(s.view, path) == StationAt(Snapshot(s.objs), path)
  {
    CarefulReplayIsLive(f, objs, s);
    var a, b := At(s.view, path), At(Snapshot(s.objs), path);
    hide CarefullyReached, Snapshot, At, SameProps;
    assert SameIfaces(a, b);
    if IStation in a { StationsAlike(a[IStation], b[IStation]); }
  }

  lemma ReplayedAccessPointsAreFresh(f: Flags, objs: seq<Obj>, s: State, path: string)
    requires WellFormed(objs) && NoneRestarted(objs) && CarefullyReached(f, objs, s)
    ensures ApAt(s.view, path) == ApAt(Snapshot(s.objs), path)
  {
    CarefulReplayIsLive(f, objs, s);
    var a, b := At(s.view, path), At(Snapshot(s.objs), path);
    hide CarefullyReached, Snapshot, At, SameProps;
    assert SameIfaces(a, b);
    if IAccessPoint in a { ApsAlike(a[IAccessPoint], b[IAccessPoint]); }
  }

  lemma ReplayedNetworksAreFresh(f: Flags, objs: seq<Obj>, s: State, path: string)
    requires WellFormed(objs) && NoneRestarted(objs) && CarefullyReached(f, objs, s)
    ensures NetworkAt(s.view, path) == NetworkAt(Snapshot(s.objs), path)
  {
    CarefulReplayIsLive(f, objs, s);
    var a, b := At(s.view, path), At(Snapshot(s.objs), path);
    hide CarefullyReached, Snapshot, At, SameProps;
    assert SameIfaces(a, b);
    if INetwork in a { NetworksAlike(a[INetwork], b[INetwork]); }
  }
}

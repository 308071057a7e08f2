/**
 * The whole way from an object of the mock to the client: its fields into the snapshot, property by
 * property, and through the client's decoders back to those same fields.
 */
module ClientDecodes {
  import opened Common
  import opened DBusNames
  import opened ObjectTree
  import opened TreeReplay
  import opened TreeRuns
  import opened CallReads
  import opened ClientView
  import C = ClientReads

  /** In the snapshot of distinct objects each one shows its properties under their own names, and no others. */
  lemma SnapshotReadsByName(objs: seq<Obj>, o: Obj, iface: Iface, key: Key)
    requires Distinct(objs) && o in objs
    ensures var ifaces := At(Snapshot(objs), o.path);
      (if iface in ifaces then Read(iface, key, ifaces[iface]) else None) == Reading(o, iface, key)
  {
    SnapshotShows(objs, o.path);
    ShownAt(objs, o);
    ReadsByName(o, iface, key);
    hide IfacesOf, Snapshot, Read, Reading;
  }

  // ---------- stations ----------

  predicate Decodable(path: string) {
    path == "" || path == "/" || ValidPath(path)
  }

  /** The null path names no object. */
  function ObjectOf(path: string): Option<string> {
    if path == "" || path == "/" then None else Some(path)
  }

  function StationFields(d: Obj): Option<C.StationProps>
    requires d.Device?
  {
    if d.state in {"connected", "disconnected", "connecting", "disconnecting", "roaming"}
       && Decodable(d.connectedNetwork) && Decodable(d.connectedAp) && C.AllValid(d.affinities)
    then Some(C.StationProps(d.state, d.scanning, ObjectOf(d.connectedNetwork), ObjectOf(d.connectedAp), Some(d.affinities)))
    else None
  }

  lemma PathDecodes(s: C.Server, name: string, path: string)
    requires name in s.props && s.props[name] == C.PathV(path)
    ensures C.GetOptionalPath(s, name) == if Decodable(path) then Ok(ObjectOf(path)) else Err(C.Malformed(name))
  {
    hide ValidPath;
  }

  lemma StationServerOf(d: Obj)
    requires d.Device?
    ensures var s := StationServer(StationProps(d));
      && "State" in s.props && s.props["State"] == C.StringV(d.state)
      && "Scanning" in s.props && s.props["Scanning"] == C.BoolV(d.scanning)
      && "ConnectedNetwork" in s.props && s.props["ConnectedNetwork"] == C.PathV(d.connectedNetwork)
      && "ConnectedAccessPoint" in s.props && s.props["ConnectedAccessPoint"] == C.PathV(d.connectedAp)
      && "Affinities" in s.props && s.props["Affinities"] == C.PathsV(d.affinities)
  {
    StationServerHolds(StationProps(d));
    hide StationServer;
  }

  /** The client decodes a station to its own fields, exactly when they are words and paths it takes. */
  lemma StationDecodes(d: Obj)
    requires d.Device?
    ensures C.StationSingles(StationServer(StationProps(d))) == StationFields(d)
  {
    hide StationServer, StationProps, ValidPath, Decodable, ObjectOf, C.GetOptionalPath, C.AllValid;
    var s := StationServer(StationProps(d));
    StationServerOf(d);
    PathDecodes(s, "ConnectedNetwork", d.connectedNetwork);
    PathDecodes(s, "ConnectedAccessPoint", d.connectedAp);
  }

  // ---------- access points ----------

  function TextOf(s: string): Option<string> {
    if s == "" then None else Some(s)
  }

  function ApFields(d: Obj): Option<C.ApProps>
    requires d.Device?
  {
    if !d.apStarted then Some(C.ApProps(false, false, None, None, None, None))
    else if d.apFrequency >= 0 then
      Some(C.ApProps(true, d.apScanning, TextOf(d.apName), Some(d.apFrequency), Some(d.apPairwise), TextOf(d.apGroup)))
    else None
  }

  lemma RunningProps(d: Obj)
    requires d.Device? && d.apStarted
    ensures var props := AccessPointProps(d);
      && KStarted in props && props[KStarted] == Bool(true) && KScanning in props && props[KScanning] == Bool(d.apScanning)
      && KName in props && props[KName] == Text(d.apName) && KFrequency in props && props[KFrequency] == Number(d.apFrequency)
      && KPairwiseCiphers in props && props[KPairwiseCiphers] == Texts(d.apPairwise)
      && KGroupCipher in props && props[KGroupCipher] == Text(d.apGroup)
  {
  }

  lemma RunningApServer(d: Obj)
    requires d.Device? && d.apStarted
    ensures var s := ApServer(AccessPointProps(d));
      && s.worded == C.AP_OPTIONALS && "Started" in s.props && s.props["Started"] == C.BoolV(true) && "Scanning" in s.props && s.props["Scanning"] == C.BoolV(d.apScanning) && "Name" in s.props && s.props["Name"] == C.StringV(d.apName)
      && "Frequency" in s.props && s.props["Frequency"] == AsValue(Number(d.apFrequency)) && "PairwiseCiphers" in s.props && s.props["PairwiseCiphers"] == C.StringsV(d.apPairwise)
      && "GroupCipher" in s.props && s.props["GroupCipher"] == C.StringV(d.apGroup)
  {
    hide ApServer, AccessPointProps;
    var props := AccessPointProps(d);
    RunningProps(d);
    OptionalsAreWorded(props);
    ApServerHolds(props);
  }

  lemma StoppedApServer(d: Obj)
    requires d.Device? && !d.apStarted
    ensures var s := ApServer(AccessPointProps(d));
      && s.worded == C.AP_OPTIONALS && "Started" in s.props && s.props["Started"] == C.BoolV(false) && "Scanning" !in s.props && "Name" !in s.props && "Frequency" !in s.props
      && "PairwiseCiphers" !in s.props && "GroupCipher" !in s.props
  {
    var props := AccessPointProps(d);
    assert props == map[KStarted := Bool(false)];
    hide ApServer, AccessPointProps;
    OptionalsAreWorded(props);
    ApServerHolds(props);
  }

  /** The same for an access point; a stopped one decodes to nothing but being stopped. */
  lemma AccessPointDecodes(d: Obj)
    requires d.Device?
    ensures C.ApSingles(ApServer(AccessPointProps(d))) == ApFields(d)
  {
    hide ApServer, AccessPointProps;
    if d.apStarted { RunningApServer(d); } else { StoppedApServer(d); }
  }

  // ---------- networks ----------

  function NetworkFields(n: Obj): Option<C.NetworkProps>
    requires n.Network?
  {
    if ValidPath(n.device) && n.security in {"open", "wep", "psk", "8021x", "hotspot"} && Decodable(n.known) && C.AllValid(n.ess)
    then Some(C.NetworkProps(AsString(n.name), n.connected, n.device, n.security, ObjectOf(n.known), n.ess))
    else None
  }

  lemma NetworkServerOf(n: Obj)
    requires n.Network?
    ensures var s := NetworkServer(NetworkProps(n));
      && s.worded == C.NETWORK_OPTIONALS && "Name" in s.props && s.props["Name"] == C.StringV(AsString(n.name)) && "Connected" in s.props && s.props["Connected"] == C.BoolV(n.connected)
      && "Device" in s.props && s.props["Device"] == C.PathV(n.device) && "Type" in s.props && s.props["Type"] == C.StringV(n.security)
      && "ExtendedServiceSet" in s.props && s.props["ExtendedServiceSet"] == C.PathsV(n.ess)
      && (if n.known == "" then "KnownNetwork" !in s.props else "KnownNetwork" in s.props && s.props["KnownNetwork"] == C.PathV(n.known))
  {
    hide NetworkServer;
    var props := NetworkProps(n);
    WordedNetwork(props);
    assert props[KName] == Bytes(n.name) && props[KConnected] == Bool(n.connected) && props[KDevice] == Path(n.device)
      && props[KType] == Text(n.security) && props[KExtendedServiceSet] == Paths(n.ess);
    assert if n.known == "" then KKnownNetwork !in props else KKnownNetwork in props && props[KKnownNetwork] == Path(n.known);
    hide AsString, NetworkProps;
    NetworkServerHolds(props);
  }

  lemma WordedNetwork(props: Props)
    ensures NetworkServer(props).worded == C.NETWORK_OPTIONALS
  {
    hide Field;
  }

  /** The same for a network, its SSID as a string. */
  lemma NetworkDecodes(n: Obj)
    requires n.Network?
    ensures C.NetworkSingles(NetworkServer(NetworkProps(n))) == NetworkFields(n)
  {
    hide NetworkServer, NetworkProps, ValidPath, AsString, C.AllValid;
    var s := NetworkServer(NetworkProps(n));
    NetworkServerOf(n);
    if n.known != "" { PathDecodes(s, "KnownNetwork", n.known); }
  }

  // ---------- from the live tree ----------

  /** What a client decodes of each live object is what the object holds. */
  lemma LiveObjectsDecode(objs: seq<Obj>, o: Obj)
    requires Distinct(objs) && o in objs
    ensures o.Device? && o.hasStation ==> StationAt(Snapshot(objs), o.path) == Some(StationFields(o))
    ensures o.Device? && o.hasAp ==> ApAt(Snapshot(objs), o.path) == Some(ApFields(o))
    ensures o.Network? ==> NetworkAt(Snapshot(objs), o.path) == Some(NetworkFields(o))
  {
    SnapshotShows(objs, o.path);
    ShownAt(objs, o);
    hide Snapshot, StationProps, AccessPointProps, NetworkProps, DeviceProps, StationFields, ApFields, NetworkFields;
    hide StationServer, ApServer, NetworkServer, C.StationSingles, C.ApSingles, C.NetworkSingles;
    if o.Device? {
      StationDecodes(o);
      AccessPointDecodes(o);
    }
    if o.Network? { NetworkDecodes(o); }
  }
}

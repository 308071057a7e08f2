/**
 * What each call of the mock leaves a client to read (tools/test-mocks/iwdmock/internal/mock), told
 * property by property: the named ones have their new values and every other reads as before.
 */
module CallReads {
  import opened Common
  import opened KnownNetworkPaths
  import opened ObjectTree
  import opened TreeReplay

  predicate Carries(o: Obj, iface: Iface) {
    iface in IfacesOf(o)
  }

  /** A property of an object as a client reads it from the snapshot; nothing when the interface is not there. */
  function Reads(o: Obj, iface: Iface, key: Key): Option<Variant> {
    if iface in IfacesOf(o) then Read(iface, key, IfacesOf(o)[iface]) else None
  }

  /** The new readings of some properties of one interface. */
  type Readings = map<Key, Option<Variant>>

  /** Same path, same interfaces, and of their properties only those of `news` read anew. */
  ghost predicate OnlyChanges(was: Obj, now: Obj, iface: Iface, news: Readings) {
    && now.path == was.path
    && (forall i: Iface :: Carries(now, i) <==> Carries(was, i))
    && (forall i: Iface, k: Key :: Carries(was, i) ==> Reads(now, i, k) == if i == iface && k in news then news[k] else Reads(was, i, k))
  }

  // ---------- every property under its own name ----------

  function DeviceReading(d: Obj, key: Key): Option<Variant>
    requires d.Device?
  {
    match key
    case KName => Some(Text(d.wlan))
    case KAddress => Some(Text(d.address))
    case KPowered => Some(Bool(d.powered))
    case KMode => Some(Text(d.mode))
    case KAdapter => Some(Path(d.adapter))
    case _ => None
  }

  /** The null path stands for no object, here and in the client. */
  function PathReading(path: string): Option<Variant> {
    if path == "/" || path == "" then None else Some(Path(path))
  }

  function StationReading(d: Obj, key: Key): Option<Variant>
    requires d.Device?
  {
    match key
    case KState => Some(Text(d.state))
    case KScanning => Some(Bool(d.scanning))
    case KConnectedNetwork => PathReading(d.connectedNetwork)
    case KConnectedAccessPoint => PathReading(d.connectedAp)
    case KAffinities => Some(Paths(d.affinities))
    case _ => None
  }

  function AccessPointReading(d: Obj, key: Key): Option<Variant>
    requires d.Device?
  {
    match key
    case KStarted => Some(Bool(d.apStarted))
    case KScanning => Some(Bool(d.apStarted && d.apScanning))
    case KName => if d.apStarted then Some(Text(d.apName)) else None
    case KFrequency => if d.apStarted then Some(Number(d.apFrequency)) else None
    case KPairwiseCiphers => if d.apStarted then Some(Texts(d.apPairwise)) else None
    case KGroupCipher => if d.apStarted then Some(Text(d.apGroup)) else None
    case _ => None
  }

  function AdapterReading(a: Obj, key: Key): Option<Variant>
    requires a.Adapter?
  {
    match key
    case KPowered => Some(Bool(a.radioOn))
    case KName => Some(Text(a.phy))
    case KModel => if a.model.Some? then Some(Text(a.model.value)) else None
    case KVendor => if a.vendor.Some? then Some(Text(a.vendor.value)) else None
    case KSupportedModes => Some(a.modes)
    case _ => None
  }

  function NetworkReading(n: Obj, key: Key): Option<Variant>
    requires n.Network?
  {
    match key
    case KName => Some(Bytes(n.name))
    case KConnected => Some(Bool(n.connected))
    case KDevice => Some(Path(n.device))
    case KType => Some(Text(n.security))
    case KExtendedServiceSet => Some(Paths(n.ess))
    case KKnownNetwork => if n.known != "" then Some(Path(n.known)) else None
    case _ => None
  }

  function KnownReading(o: Obj, key: Key): Option<Variant>
    requires o.Known?
  {
    match key
    case KName => Some(Bytes(o.name))
    case KType => Some(Text(o.security))
    case KHidden => Some(Bool(o.hidden))
    case KAutoConnect => Some(Bool(o.autoConnect))
    case KLastConnectedTime => if o.lastConnected != "" then Some(Text(o.lastConnected)) else None
    case _ => None
  }

  lemma DevicePropsByName(d: Obj, key: Key)
    requires d.Device?
    ensures Read(IDevice, key, DeviceProps(d)) == DeviceReading(d, key)
  {
  }

  lemma StationPropsByName(d: Obj, key: Key)
    requires d.Device?
    ensures Read(IStation, key, StationProps(d)) == StationReading(d, key)
  {
  }

  lemma AccessPointPropsByName(d: Obj, key: Key)
    requires d.Device?
    ensures Read(IAccessPoint, key, AccessPointProps(d)) == AccessPointReading(d, key)
  {
  }

  /** What a client is to read of an object, told from its fields. */
  function Reading(o: Obj, iface: Iface, key: Key): Option<Variant> {
    if o.Fixed? then if iface in o.ifaces then Read(iface, key, o.ifaces[iface]) else None
    else if o.Adapter? then if iface == IAdapter then AdapterReading(o, key) else None
    else if o.Network? then if iface == INetwork then NetworkReading(o, key) else None
    else if o.Known? then if iface == IKnown then KnownReading(o, key) else None
    else if iface == IDevice then DeviceReading(o, key)
    else if iface == IStation && o.hasStation then StationReading(o, key)
    else if iface == IAccessPoint && o.hasAp then AccessPointReading(o, key)
    else None
  }

  lemma AdapterByName(a: Obj, iface: Iface, key: Key)
    requires a.Adapter?
    ensures Reads(a, iface, key) == if iface == IAdapter then AdapterReading(a, key) else None
  {
  }

  lemma NetworkByName(n: Obj, iface: Iface, key: Key)
    requires n.Network?
    ensures Reads(n, iface, key) == if iface == INetwork then NetworkReading(n, key) else None
  {
  }

  lemma KnownByName(o: Obj, iface: Iface, key: Key)
    requires o.Known?
    ensures Reads(o, iface, key) == if iface == IKnown then KnownReading(o, key) else None
  {
    if iface == IKnown { KnownPropsByName(o, key); }
    hide KnownProps, KnownReading, Read;
  }

  lemma KnownPropsByName(o: Obj, key: Key)
    requires o.Known?
    ensures Read(IKnown, key, KnownProps(o)) == KnownReading(o, key)
  {
  }

  /** Every object shows each of its properties under its own name, and no other. */
  lemma ReadsByName(o: Obj, iface: Iface, key: Key)
    ensures Reads(o, iface, key) == Reading(o, iface, key)
  {
    if o.Adapter? { AdapterByName(o, iface, key); }
    else if o.Network? { NetworkByName(o, iface, key); }
    else if o.Known? { KnownByName(o, iface, key); }
    else if o.Device? {
      hide Reads, DeviceProps, StationProps, AccessPointProps, Read, DeviceReading, StationReading, AccessPointReading;
      DeviceReads(o, iface, key);
      DevicePropsByName(o, key);
      StationPropsByName(o, key);
      AccessPointPropsByName(o, key);
    }
  }

  // ---------- one device, interface by interface ----------

  ghost predicate PropsChange(iface: Iface, was: Props, now: Props, news: Readings) {
    forall k: Key :: Read(iface, k, now) == if k in news then news[k] else Read(iface, k, was)
  }

  function NewsOf(i: Iface, iface: Iface, news: Readings): Readings {
    if i == iface then news else map[]
  }

  lemma DeviceReads(d: Obj, i: Iface, k: Key)
    requires d.Device?
    ensures Carries(d, i) <==> i == IDevice || (i == IStation && d.hasStation) || (i == IAccessPoint && d.hasAp)
    ensures Reads(d, i, k) ==
      if i == IDevice then Read(i, k, DeviceProps(d))
      else if i == IStation && d.hasStation then Read(i, k, StationProps(d))
      else if i == IAccessPoint && d.hasAp then Read(i, k, AccessPointProps(d))
      else None
  {
    hide Read, DeviceProps, StationProps, AccessPointProps, Assemble;
  }

  lemma DeviceChanges(was: Obj, now: Obj, iface: Iface, news: Readings)
    requires was.Device? && now.Device? && now.path == was.path && now.hasStation == was.hasStation && now.hasAp == was.hasAp
    requires PropsChange(IDevice, DeviceProps(was), DeviceProps(now), NewsOf(IDevice, iface, news))
    requires PropsChange(IStation, StationProps(was), StationProps(now), NewsOf(IStation, iface, news))
    requires PropsChange(IAccessPoint, AccessPointProps(was), AccessPointProps(now), NewsOf(IAccessPoint, iface, news))
    ensures OnlyChanges(was, now, iface, news)
  {
    hide Read, DeviceProps, StationProps, AccessPointProps, Carries, Reads;
    forall i: Iface, k: Key
      ensures Carries(now, i) <==> Carries(was, i)
      ensures Carries(was, i) ==> Reads(now, i, k) == if i == iface && k in news then news[k] else Reads(was, i, k)
    {
      DeviceReads(was, i, k);
      DeviceReads(now, i, k);
    }
    assert forall i: Iface :: Carries(now, i) <==> Carries(was, i) by {
      forall i: Iface ensures Carries(now, i) <==> Carries(was, i) { DeviceReads(was, i, KName); DeviceReads(now, i, KName); }
    }
  }

  // ---------- the station calls ----------

  function StationNews(call: Call): Readings {
    match call
    case Scan => map[KScanning := Some(Bool(true))]
    case Disconnect => map[KState := Some(Text("disconnected")), KConnectedNetwork := None, KConnectedAccessPoint := None]
    case ConnectHidden(_, _) => map[KState := Some(Text("connected")), KConnectedNetwork := Some(Path(HIDDEN_NETWORK))]
    case _ => map[]
  }

  lemma StationReads(d: Obj, call: Call)
    requires d.Device? && (call.Scan? || call.Disconnect? || call.ConnectHidden?)
    ensures var e := StationCall(d, call); e.outcome == Done ==> OnlyChanges(d, e.obj, IStation, StationNews(call))
  {
    var e := StationCall(d, call);
    if e.outcome == Done {
      StationPropsChange(d, call);
      hide StationNews, StationProps, Read;
      DeviceChanges(d, e.obj, IStation, StationNews(call));
    }
  }

  lemma StationPropsChange(d: Obj, call: Call)
    requires d.Device? && (call.Scan? || call.Disconnect? || call.ConnectHidden?)
    ensures var e := StationCall(d, call);
      e.outcome == Done ==> e.obj.Device? && PropsChange(IStation, StationProps(d), StationProps(e.obj), StationNews(call))
  {
    hide StationProps, Read;
    var now := StationCall(d, call).obj;
    forall k ensures StationCall(d, call).outcome == Done ==>
      Read(IStation, k, StationProps(now)) == if k in StationNews(call) then StationNews(call)[k] else Read(IStation, k, StationProps(d))
    {
      StationPropsByName(d, k);
      StationPropsByName(now, k);
    }
  }

  // ---------- the access point calls ----------

  /** A started access point shows a scan left pending by an earlier stop. */
  function ApNews(d: Obj, call: Call): Readings
    requires d.Device?
  {
    match call
    case ApStart(ssid, _) => StartNews(d.apScanning, ssid)
    case ApStartProfile(ssid) => StartNews(d.apScanning, ssid)
    case ApStop => map[KStarted := Some(Bool(false)), KScanning := Some(Bool(false)), KName := None, KFrequency := None,
                       KPairwiseCiphers := None, KGroupCipher := None]
    case ApScan => map[KScanning := Some(Bool(true))]
    case _ => map[]
  }

  function StartNews(scanning: bool, ssid: string): Readings {
    map[KStarted := Some(Bool(true)), KScanning := Some(Bool(scanning)), KName := Some(Text(ssid)), KFrequency := Some(Number(5180)),
        KPairwiseCiphers := Some(Texts(["CCMP"])), KGroupCipher := Some(Text("CCMP"))]
  }

  lemma BringUpReads(d: Obj, ssid: string)
    requires d.Device?
    ensures BringUp(d, ssid).obj.Device?
    ensures PropsChange(IAccessPoint, AccessPointProps(d), AccessPointProps(BringUp(d, ssid).obj), StartNews(d.apScanning, ssid))
  {
    hide AccessPointProps, Read;
    forall k ensures Read(IAccessPoint, k, AccessPointProps(BringUp(d, ssid).obj)) ==
      if k in StartNews(d.apScanning, ssid) then StartNews(d.apScanning, ssid)[k] else Read(IAccessPoint, k, AccessPointProps(d))
    {
      AccessPointPropsByName(d, k);
      AccessPointPropsByName(BringUp(d, ssid).obj, k);
    }
  }

  lemma ApPropsChange(d: Obj, call: Call)
    requires d.Device? && (call.ApStart? || call.ApStartProfile? || call.ApStop? || call.ApScan?)
    ensures var e := ApCall(d, call);
      e.outcome == Done ==> e.obj.Device? && PropsChange(IAccessPoint, AccessPointProps(d), AccessPointProps(e.obj), ApNews(d, call))
  {
    hide AccessPointProps, Read;
    if call.ApStart? || call.ApStartProfile? {
      hide PropsChange, BringUp;
      BringUpReads(d, call.ssid);
    } else {
      var now := ApCall(d, call).obj;
      forall k ensures ApCall(d, call).outcome == Done ==>
        Read(IAccessPoint, k, AccessPointProps(now)) == if k in ApNews(d, call) then ApNews(d, call)[k] else Read(IAccessPoint, k, AccessPointProps(d))
      {
        AccessPointPropsByName(d, k);
        AccessPointPropsByName(now, k);
      }
    }
  }

  lemma AccessPointReads(d: Obj, call: Call)
    requires d.Device? && (call.ApStart? || call.ApStartProfile? || call.ApStop? || call.ApScan?)
    ensures var e := ApCall(d, call); e.outcome == Done ==> OnlyChanges(d, e.obj, IAccessPoint, ApNews(d, call))
  {
    var e := ApCall(d, call);
    if e.outcome == Done {
      ApPropsChange(d, call);
      hide ApNews, AccessPointProps, Read;
      DeviceChanges(d, e.obj, IAccessPoint, ApNews(d, call));
    }
  }

  // ---------- the ends of scans ----------

  lemma StationScanEndReads(d: Obj)
    requires d.Device? && d.stationScans > 0
    ensures OnlyChanges(d, ScanEnd(d, StationScanEnds).obj, IStation, map[KScanning := Some(Bool(false))])
  {
    var now := ScanEnd(d, StationScanEnds).obj;
    hide StationProps, Read;
    forall k ensures Read(IStation, k, StationProps(now)) == if k == KScanning then Some(Bool(false)) else Read(IStation, k, StationProps(d)) {
      StationPropsByName(d, k);
      StationPropsByName(now, k);
    }
    DeviceChanges(d, now, IStation, map[KScanning := Some(Bool(false))]);
  }

  lemma ApScanEndReads(d: Obj)
    requires d.Device? && d.apScans > 0
    ensures OnlyChanges(d, ScanEnd(d, ApScanEnds).obj, IAccessPoint, map[KScanning := Some(Bool(false))])
  {
    var now := ScanEnd(d, ApScanEnds).obj;
    hide AccessPointProps, Read;
    forall k ensures Read(IAccessPoint, k, AccessPointProps(now)) == if k == KScanning then Some(Bool(false)) else Read(IAccessPoint, k, AccessPointProps(d)) {
      AccessPointPropsByName(d, k);
      AccessPointPropsByName(now, k);
    }
    DeviceChanges(d, now, IAccessPoint, map[KScanning := Some(Bool(false))]);
  }

  // ---------- Properties.Set ----------

  /** What Properties.Set of a device takes; on an interface it does not know it takes anything and ignores it. */
  predicate DeviceTakes(hasStation: bool, iface: Iface, key: Key, value: Variant) {
    match iface
    case IDevice => (key == KMode && value.Text?) || (key == KPowered && value.Bool?)
    case IStation => hasStation && key == KAffinities && value.Paths?
    case _ => true
  }

  /** After a change of Mode: the mode reads as set, the interfaces are those of the mode, and those that stay read as before. */
  ghost predicate ModeChanged(f: Flags, was: Obj, now: Obj, mode: string) {
    && now.path == was.path
    && (forall i: Iface :: Carries(now, i) <==>
          i == IDevice || (i == IStation && mode == "station" && !f.omitStation) || (i == IAccessPoint && mode == "ap" && !f.omitAccessPoint))
    && (forall i: Iface, k: Key :: Carries(was, i) && Carries(now, i) ==>
          Reads(now, i, k) == if i == IDevice && k == KMode then Some(Text(mode)) else Reads(was, i, k))
  }

  lemma SwitchReads(f: Flags, d: Obj, mode: string)
    requires d.Device?
    ensures var now := SwitchMode(f, d.(mode := mode), mode).0;
      && now.Device?
      && now.hasStation == (mode == "station" && !f.omitStation) && now.hasAp == (mode == "ap" && !f.omitAccessPoint)
      && now == d.(mode := mode, hasStation := now.hasStation, hasAp := now.hasAp, exports := now.exports,
                   introspected := now.introspected, restarted := now.restarted)
  {
    hide LostIfaces, GainedExports, GainedIfaces, Carried;
  }

  lemma SwitchKeepsFields(f: Flags, d: Obj, mode: string, k: Key)
    requires d.Device?
    ensures var now := SwitchMode(f, d.(mode := mode), mode).0;
      && now.Device? && StationReading(now, k) == StationReading(d, k) && AccessPointReading(now, k) == AccessPointReading(d, k)
      && DeviceReading(now, k) == if k == KMode then Some(Text(mode)) else DeviceReading(d, k)
  {
    var now := SwitchMode(f, d.(mode := mode), mode).0;
    assert now == d.(mode := mode, hasStation := now.hasStation, hasAp := now.hasAp, exports := now.exports,
                     introspected := now.introspected, restarted := now.restarted) by { SwitchReads(f, d, mode); }
    hide SwitchMode;
  }

  lemma ModeReads(f: Flags, d: Obj, mode: string)
    requires d.Device?
    ensures ModeChanged(f, d, SwitchMode(f, d.(mode := mode), mode).0, mode)
  {
    var now := SwitchMode(f, d.(mode := mode), mode).0;
    SwitchReads(f, d, mode);
    hide SwitchMode, DeviceReading, StationReading, AccessPointReading, Carries, Reads;
    forall i: Iface, k: Key
      ensures Carries(d, i) && Carries(now, i) ==> Reads(now, i, k) == if i == IDevice && k == KMode then Some(Text(mode)) else Reads(d, i, k)
    {
      SwitchKeepsFields(f, d, mode, k);
      ReadsByName(d, i, k);
      ReadsByName(now, i, k);
      DeviceReads(d, i, k);
      DeviceReads(now, i, k);
    }
    forall i: Iface
      ensures Carries(now, i) <==>
        i == IDevice || (i == IStation && mode == "station" && !f.omitStation) || (i == IAccessPoint && mode == "ap" && !f.omitAccessPoint)
    {
      DeviceReads(now, i, KName);
    }
  }

  function SetNews(iface: Iface, key: Key, value: Variant): Readings {
    if iface == IDevice || iface == IStation then map[key := Some(value)] else map[]
  }

  lemma SetDeviceTakes(f: Flags, d: Obj, iface: Iface, key: Key, value: Variant)
    requires d.Device?
    ensures SetDevice(f, d, iface, key, value).outcome == if DeviceTakes(d.hasStation, iface, key, value) then Done else Failed
  {
    hide SwitchMode;
  }

  lemma SetDeviceReads(f: Flags, d: Obj, iface: Iface, key: Key, value: Variant)
    requires d.Device?
    ensures var e := SetDevice(f, d, iface, key, value);
      && e.outcome == (if DeviceTakes(d.hasStation, iface, key, value) then Done else Failed)
      && (e.outcome == Done ==>
            if iface == IDevice && key == KMode then ModeChanged(f, d, e.obj, value.s)
            else OnlyChanges(d, e.obj, iface, SetNews(iface, key, value)))
  {
    SetDeviceTakes(f, d, iface, key, value);
    hide SwitchMode, ModeChanged, OnlyChanges;
    if iface == IDevice && key == KMode {
      if value.Text? { ModeReads(f, d, value.s); }
    } else {
      hide SetDevice;
      if DeviceTakes(d.hasStation, iface, key, value) { SetFieldReads(f, d, iface, key, value); }
    }
  }

  /** What was set is what a client reads. */
  lemma SetIsRead(f: Flags, d: Obj, iface: Iface, key: Key, value: Variant)
    requires d.Device? && SetDevice(f, d, iface, key, value).outcome == Done && (iface == IDevice || iface == IStation)
    ensures Reads(SetDevice(f, d, iface, key, value).obj, iface, key) == Some(value)
  {
    SetDeviceTakes(f, d, iface, key, value);
    SetDeviceReads(f, d, iface, key, value);
    hide SetDevice;
    var now := SetDevice(f, d, iface, key, value).obj;
    hide Reads, Carries;
    DeviceReads(d, iface, key);
    if iface == IDevice && key == KMode { assert Carries(now, IDevice) && Carries(d, IDevice); }
  }

  lemma SetFieldReads(f: Flags, d: Obj, iface: Iface, key: Key, value: Variant)
    requires d.Device? && SetDevice(f, d, iface, key, value).outcome == Done && !(iface == IDevice && key == KMode)
    ensures OnlyChanges(d, SetDevice(f, d, iface, key, value).obj, iface, SetNews(iface, key, value))
  {
    hide SetDevice, SetNews, PropsChange, StationProps, AccessPointProps, DeviceProps, Read;
    SetPropsChange(f, d, iface, key, value);
    DeviceChanges(d, SetDevice(f, d, iface, key, value).obj, iface, SetNews(iface, key, value));
  }

  lemma SetPropsChange(f: Flags, d: Obj, iface: Iface, key: Key, value: Variant)
    requires d.Device? && SetDevice(f, d, iface, key, value).outcome == Done && !(iface == IDevice && key == KMode)
    ensures var now := SetDevice(f, d, iface, key, value).obj;
      && now.Device? && now.path == d.path && now.hasStation == d.hasStation && now.hasAp == d.hasAp
      && PropsChange(IDevice, DeviceProps(d), DeviceProps(now), NewsOf(IDevice, iface, SetNews(iface, key, value)))
      && PropsChange(IStation, StationProps(d), StationProps(now), NewsOf(IStation, iface, SetNews(iface, key, value)))
      && PropsChange(IAccessPoint, AccessPointProps(d), AccessPointProps(now), NewsOf(IAccessPoint, iface, SetNews(iface, key, value)))
  {
    hide SwitchMode, StationProps, AccessPointProps, DeviceProps, Read;
    var now := SetDevice(f, d, iface, key, value).obj;
    forall k
      ensures DeviceReading(now, k) == (if iface == IDevice && k == key then Some(value) else DeviceReading(d, k))
        && StationReading(now, k) == (if iface == IStation && k == key then Some(value) else StationReading(d, k))
        && AccessPointReading(now, k) == AccessPointReading(d, k)
    {}
    hide SetDevice, DeviceReading, StationReading, AccessPointReading;
    forall k
      ensures Read(IDevice, k, DeviceProps(now)) == (if iface == IDevice && k == key then Some(value) else Read(IDevice, k, DeviceProps(d)))
        && Read(IStation, k, StationProps(now)) == (if iface == IStation && k == key then Some(value) else Read(IStation, k, StationProps(d)))
        && Read(IAccessPoint, k, AccessPointProps(now)) == Read(IAccessPoint, k, AccessPointProps(d))
    {
      DevicePropsByName(d, k);
      DevicePropsByName(now, k);
      StationPropsByName(d, k);
      StationPropsByName(now, k);
      AccessPointPropsByName(d, k);
      AccessPointPropsByName(now, k);
    }
  }

  /** Of an adapter Powered can be set, of a known network AutoConnect. */
  predicate OtherTakes(o: Obj, iface: Iface, key: Key, value: Variant) {
    if o.Adapter? then iface == IAdapter ==> key == KPowered && value.Bool?
    else iface == IKnown ==> key == KAutoConnect && value.Bool?
  }

  lemma SetOtherReads(o: Obj, iface: Iface, key: Key, value: Variant)
    requires o.Adapter? || o.Known?
    ensures var e := SetOther(o, iface, key, value);
      && e.outcome == (if OtherTakes(o, iface, key, value) then Done else Failed)
      && (e.outcome == Done ==> OnlyChanges(o, e.obj, iface, map[key := Some(value)]))
  {
    if OtherTakes(o, iface, key, value) {
      var now := SetOther(o, iface, key, value).obj;
      CarriesOne(o);
      CarriesOne(now);
      forall i: Iface, k: Key ensures Reads(now, i, k) == if i == iface && k == key && Carries(o, i) then Some(value) else Reads(o, i, k) {
        SetOtherReading(o, iface, key, value, i, k);
      }
      hide Reads, Carries;
    }
  }

  lemma SetOtherReading(o: Obj, iface: Iface, key: Key, value: Variant, i: Iface, k: Key)
    requires (o.Adapter? || o.Known?) && OtherTakes(o, iface, key, value)
    ensures Reads(SetOther(o, iface, key, value).obj, i, k)
      == if i == iface && k == key && i == (if o.Adapter? then IAdapter else IKnown) then Some(value) else Reads(o, i, k)
  {
    hide Reads;
    ReadsByName(o, i, k);
    ReadsByName(SetOther(o, iface, key, value).obj, i, k);
  }

  lemma CarriesOne(o: Obj)
    requires o.Adapter? || o.Known?
    ensures forall i: Iface :: Carries(o, i) <==> i == if o.Adapter? then IAdapter else IKnown
  {
  }

  // ---------- Connect and Forget ----------

  /** A network joins: it reads connected, and after a first connection linked to a known network of its name and type. */
  ghost predicate Joined(objs: seq<Obj>, i: nat, now: seq<Obj>)
    requires i < |objs| && objs[i].Network?
  {
    var n := objs[i];
    var first := n.security != "open" && n.known == "";
    && |now| == |objs| + (if first then 1 else 0)
    && (forall j | 0 <= j < |objs| && j != i :: now[j] == objs[j])
    && OnlyChanges(n, now[i], INetwork,
                   if first then LinkNews(PathFor(n.name, n.security)) else map[KConnected := Some(Bool(true))])
    && (first ==> Remembers(now[|objs|], n))
  }

  /** A known network made for `n`: visible, to be joined automatically, last connected at the mock's fixed time. */
  ghost predicate Remembers(k: Obj, n: Obj)
    requires n.Network?
  {
    && k.path == PathFor(n.name, n.security)
    && (forall i: Iface :: Carries(k, i) <==> i == IKnown)
    && Reads(k, IKnown, KName) == Some(Bytes(n.name)) && Reads(k, IKnown, KType) == Some(Text(n.security))
    && Reads(k, IKnown, KHidden) == Some(Bool(false)) && Reads(k, IKnown, KAutoConnect) == Some(Bool(true))
    && Reads(k, IKnown, KLastConnectedTime) == Some(Text("2026-01-01T00:00:00Z"))
  }

  function LinkNews(link: string): Readings {
    map[KConnected := Some(Bool(true)), KKnownNetwork := Some(Path(link))]
  }

  lemma JoinReads(n: Obj, link: string)
    requires n.Network? && (n.known == "" ==> link != "")
    ensures OnlyChanges(n, n.(connected := true), INetwork, map[KConnected := Some(Bool(true))])
    ensures n.known == "" ==> OnlyChanges(n, n.(connected := true, known := link), INetwork, LinkNews(link))
  {
    var joined, linked := n.(connected := true), n.(connected := true, known := link);
    CarriesNetwork(n);
    CarriesNetwork(joined);
    CarriesNetwork(linked);
    forall i: Iface, k: Key
      ensures Reads(joined, i, k) == if i == INetwork && k == KConnected then Some(Bool(true)) else Reads(n, i, k)
      ensures n.known == "" ==> Reads(linked, i, k) == if i == INetwork && k in LinkNews(link) then LinkNews(link)[k] else Reads(n, i, k)
    {
      JoinReading(n, link, i, k);
    }
    hide Reads, Carries;
  }

  lemma JoinReading(n: Obj, link: string, i: Iface, k: Key)
    requires n.Network? && (n.known == "" ==> link != "")
    ensures Reads(n.(connected := true), i, k) == if i == INetwork && k == KConnected then Some(Bool(true)) else Reads(n, i, k)
    ensures n.known == "" ==> Reads(n.(connected := true, known := link), i, k) == if i == INetwork && k in LinkNews(link) then LinkNews(link)[k] else Reads(n, i, k)
  {
    hide Reads;
    NetworkByName(n, i, k);
    NetworkByName(n.(connected := true), i, k);
    NetworkByName(n.(connected := true, known := link), i, k);
  }

  lemma CarriesNetwork(n: Obj)
    requires n.Network?
    ensures forall i: Iface :: Carries(n, i) <==> i == INetwork
  {
  }

  lemma ProvisionedReads(n: Obj)
    requires n.Network?
    ensures Remembers(Provisioned(n), n)
  {
    var k := Provisioned(n);
    CarriesOne(k);
    hide Reads, Carries, PathFor;
    KnownByName(k, IKnown, KName);
    KnownByName(k, IKnown, KType);
    KnownByName(k, IKnown, KHidden);
    KnownByName(k, IKnown, KAutoConnect);
    KnownByName(k, IKnown, KLastConnectedTime);
  }

  lemma ConnectReads(objs: seq<Obj>, i: nat, answer: Answer)
    requires i < |objs| && objs[i].Network?
    ensures var r := ConnectNetwork(objs, i, answer); var n := objs[i];
      && (r.outcome == Done <==> n.security == "open" || n.known != "" || answer.RightPassphrase?)
      && (r.outcome == Done ==> Joined(objs, i, r.objs))
      && (r.outcome != Done ==> r.objs == objs && r.signals == [])
  {
    var n := objs[i];
    PathIsNamed(n.name, n.security);
    JoinReads(n, PathFor(n.name, n.security));
    ProvisionedReads(n);
    hide OnlyChanges, Remembers, PathFor, IfacesOf;
  }

  lemma PathIsNamed(name: Ssid, security: string)
    ensures PathFor(name, security) != ""
  {
  }

  /** The object that was at `j` before the one at `i` was taken out. */
  function Before(i: nat, j: nat): nat {
    if j < i then j else j + 1
  }

  /** A known network is forgotten: it alone is gone, and exactly the networks linked to it read as linked to none. */
  ghost predicate Unlinked(objs: seq<Obj>, i: nat, now: seq<Obj>)
    requires i < |objs|
  {
    && |now| == |objs| - 1
    && (forall j: nat | j < |now| ::
          var o := objs[Before(i, j)];
          if o.Network? && o.known == objs[i].path && o.known != "" then OnlyChanges(o, now[j], INetwork, map[KKnownNetwork := None])
          else now[j] == o)
  }

  lemma UnlinkReads(n: Obj)
    requires n.Network? && n.known != ""
    ensures OnlyChanges(n, n.(known := ""), INetwork, map[KKnownNetwork := None])
  {
    var now := n.(known := "");
    CarriesNetwork(n);
    CarriesNetwork(now);
    hide Reads, Carries;
    forall i: Iface, k: Key ensures Reads(now, i, k) == if i == INetwork && k == KKnownNetwork then None else Reads(n, i, k) {
      NetworkByName(n, i, k);
      NetworkByName(now, i, k);
    }
  }

  lemma ForgetReads(objs: seq<Obj>, i: nat)
    requires i < |objs| && objs[i].Known?
    ensures Unlinked(objs, i, ForgetKnown(objs, i).objs)
  {
    var now, path := ForgetKnown(objs, i).objs, objs[i].path;
    hide OnlyChanges, UnlinkSignals;
    forall j: nat | j < |now|
      ensures var o := objs[Before(i, j)];
        if o.Network? && o.known == path && o.known != "" then OnlyChanges(o, now[j], INetwork, map[KKnownNetwork := None]) else now[j] == o
    {
      var o := objs[Before(i, j)];
      assert (objs[..i] + objs[i + 1..])[j] == o;
      if o.Network? && o.known != "" { UnlinkReads(o); }
    }
  }
}

/**
 * The object tree of the iwd mock (tools/test-mocks/iwdmock/internal/mock): what each object looks
 * like to GetManagedObjects, and what each method call and each end of a scan does to the objects
 * and announces on the bus. A call is one step; the end of a scan is a step of its own.
 */
module ObjectTree {
  import opened Common
  import opened KnownNetworkPaths

  datatype Iface = IDaemon | IAdapter | IDevice | IStation | IWsc | IAccessPoint | IBss | INetwork | IKnown

  datatype Key =
    | KName | KType | KPowered | KModel | KVendor | KSupportedModes | KAddress | KMode | KAdapter
    | KState | KScanning | KConnectedNetwork | KConnectedAccessPoint | KAffinities
    | KStarted | KFrequency | KPairwiseCiphers | KGroupCipher
    | KConnected | KDevice | KExtendedServiceSet | KKnownNetwork | KHidden | KAutoConnect | KLastConnectedTime
    | KOther(id: nat)

  datatype Variant = Bool(b: bool) | Text(s: string) | Path(p: string) | Paths(ps: seq<string>) | Texts(ss: seq<string>)
    | Number(n: int) | Bytes(bs: Ssid) | Opaque(id: nat)

  type Props = map<Key, Variant>
  type Ifaces = map<Iface, Props>
  type Tree = map<string, Ifaces>

  datatype Flags = Flags(omitStation: bool, omitAccessPoint: bool, omitWsc: bool)

  /**
   * One exported object. Of a device, `stationScans` and `apScans` count the scan goroutines still
   * asleep, `exports` and `introspected` are what the bus answers for, and `restarted` records that
   * the access point was started while a scan from before its stop is still pending.
   */
  datatype Obj =
    | Fixed(path: string, ifaces: Ifaces)   // the daemon and the basic service sets never change
    | Adapter(path: string, radioOn: bool, phy: string, model: Option<string>, vendor: Option<string>, modes: Variant)
    | Device(path: string, wlan: string, address: string, powered: bool, mode: string, adapter: string,
             hasStation: bool, state: string, scanning: bool, connectedNetwork: string, connectedAp: string, affinities: seq<string>,
             hasAp: bool, apStarted: bool, apScanning: bool, apName: string, apFrequency: int, apPairwise: seq<string>, apGroup: string,
             stationScans: nat, apScans: nat, exports: set<Iface>, introspected: set<Iface>, restarted: bool)
    | Network(path: string, name: Ssid, connected: bool, device: string, security: string, known: string, ess: seq<string>)
    | Known(path: string, name: Ssid, security: string, hidden: bool, lastConnected: string, autoConnect: bool)

  // ---------- the snapshot ----------

  function StationProps(d: Obj): Props
    requires d.Device?
  {
    map[KState := Text(d.state), KScanning := Bool(d.scanning), KConnectedNetwork := Path(d.connectedNetwork),
        KConnectedAccessPoint := Path(d.connectedAp), KAffinities := Paths(d.affinities)]
  }

  function AccessPointProps(d: Obj): Props
    requires d.Device?
  {
    map[KStarted := Bool(d.apStarted)] +
    if d.apStarted then
      map[KScanning := Bool(d.apScanning), KName := Text(d.apName), KFrequency := Number(d.apFrequency),
          KPairwiseCiphers := Texts(d.apPairwise), KGroupCipher := Text(d.apGroup)]
    else map[]
  }

  function DeviceProps(d: Obj): Props
    requires d.Device?
  {
    map[KName := Text(d.wlan), KAddress := Text(d.address), KPowered := Bool(d.powered), KMode := Text(d.mode), KAdapter := Path(d.adapter)]
  }

  /** The interfaces of a device object, the mode-specific ones only while it carries them. */
  function Assemble(device: Props, hasStation: bool, station: Props, hasAp: bool, ap: Props): (r: Ifaces)
    ensures forall i: Iface :: i in r <==> i == IDevice || (i == IStation && hasStation) || (i == IAccessPoint && hasAp)
    ensures r[IDevice] == device && (hasStation ==> r[IStation] == station) && (hasAp ==> r[IAccessPoint] == ap)
  {
    map[IDevice := device] + (if hasStation then map[IStation := station] else map[]) + (if hasAp then map[IAccessPoint := ap] else map[])
  }

  function DeviceIfaces(d: Obj): Ifaces
    requires d.Device?
  {
    Assemble(DeviceProps(d), d.hasStation, StationProps(d), d.hasAp, AccessPointProps(d))
  }

  function AdapterProps(a: Obj): Props
    requires a.Adapter?
  {
    map[KPowered := Bool(a.radioOn), KName := Text(a.phy), KSupportedModes := a.modes]
    + (if a.model.Some? then map[KModel := Text(a.model.value)] else map[])
    + (if a.vendor.Some? then map[KVendor := Text(a.vendor.value)] else map[])
  }

  function NetworkProps(n: Obj): Props
    requires n.Network?
  {
    map[KName := Bytes(n.name), KConnected := Bool(n.connected), KDevice := Path(n.device), KType := Text(n.security),
        KExtendedServiceSet := Paths(n.ess)]
    + (if n.known != "" then map[KKnownNetwork := Path(n.known)] else map[])
  }

  function KnownProps(k: Obj): Props
    requires k.Known?
  {
    map[KName := Bytes(k.name), KType := Text(k.security), KHidden := Bool(k.hidden), KAutoConnect := Bool(k.autoConnect)]
    + (if k.lastConnected != "" then map[KLastConnectedTime := Text(k.lastConnected)] else map[])
  }

  function IfacesOf(o: Obj): Ifaces {
    match o
    case Fixed(_, ifaces) => ifaces
    case Adapter(_, _, _, _, _, _) => map[IAdapter := AdapterProps(o)]
    case Device(_, _, _, _, _, _, _, _, _, _, _, _, _, _, _, _, _, _, _, _, _, _, _, _) => DeviceIfaces(o)
    case Network(_, _, _, _, _, _, _) => map[INetwork := NetworkProps(o)]
    case Known(_, _, _, _, _, _) => map[IKnown := KnownProps(o)]
  }

  /** GetManagedObjects: the registries in order, a later object replacing an earlier one at its path. */
  function Snapshot(objs: seq<Obj>): Tree {
    if objs == [] then map[]
    else
      var last := objs[|objs| - 1];
      Snapshot(objs[..|objs| - 1])[last.path := IfacesOf(last)]
  }

  // ---------- calls ----------

  datatype Signal =
    | Added(path: string, ifaces: Ifaces)
    | Removed(path: string, gone: seq<Iface>)
    | Changed(path: string, iface: Iface, changed: Props, invalidated: seq<Key>)

  /** What the registered agent answers when asked for a passphrase. */
  datatype Answer = NoAgentRegistered | Declined | WrongPassphrase | RightPassphrase

  datatype Outcome = Done | Failed | NoAgent | NotHidden | NotFound | InProgress | AlreadyExists | InvalidArguments | NotAvailable

  datatype Call =
    | Connect(answer: Answer)
    | Forget
    | Set(iface: Iface, key: Key, value: Variant)
    | Scan
    | Disconnect
    | ConnectHidden(ssid: string, answer: Answer)
    | ApStart(ssid: string, psk: string)
    | ApStartProfile(ssid: string)
    | ApStop
    | ApScan
    | StationScanEnds   // the sleeping goroutine of a station scan wakes up
    | ApScanEnds        // the same for an access point scan

  datatype Effect = Effect(obj: Obj, signals: seq<Signal>, outcome: Outcome)

  const AP_FREQUENCY: int := 5180
  const AP_CIPHERS: seq<string> := ["CCMP"]
  const AP_GROUP_CIPHER: string := "CCMP"
  const AP_PROFILE: string := "MockProfile"
  const HIDDEN_NETWORK: string := "/net/connman/iwd/0/3/hidden0"
  const PROVISIONED_TIME: string := "2026-01-01T00:00:00Z"

  function Refusal(answer: Answer): Outcome
    requires !answer.RightPassphrase?
  {
    if answer.NoAgentRegistered? then NoAgent else Failed
  }

  // -- a device changing mode

  /** The interfaces a device carries, by its flags. */
  function Carried(f: Flags, hasStation: bool, hasAp: bool): set<Iface> {
    {IDevice} + (if hasStation then {IStation} + (if f.omitWsc then {} else {IWsc}) else {}) + (if hasAp then {IAccessPoint} else {})
  }

  function LostIfaces(f: Flags, wasStation: bool, station: bool, wasAp: bool, ap: bool): seq<Iface> {
    (if wasStation && !station then [IStation] + (if f.omitWsc then [] else [IWsc]) else []) + (if wasAp && !ap then [IAccessPoint] else [])
  }

  function GainedExports(f: Flags, wasStation: bool, station: bool, wasAp: bool, ap: bool): set<Iface> {
    (if !wasStation && station then {IStation} + (if f.omitWsc then {} else {IWsc}) else {}) + (if !wasAp && ap then {IAccessPoint} else {})
  }

  function GainedIfaces(wasStation: bool, wasAp: bool, moved: Obj): Ifaces
    requires moved.Device?
  {
    (if !wasStation && moved.hasStation then map[IStation := StationProps(moved)] else map[])
    + (if !wasAp && moved.hasAp then map[IAccessPoint := AccessPointProps(moved)] else map[])
  }

  /** switchDeviceMode, after the Mode property itself is stored. */
  function SwitchMode(f: Flags, d: Obj, mode: string): (Obj, seq<Signal>)
    requires d.Device?
  {
    var station := mode == "station" && !f.omitStation;
    var ap := mode == "ap" && !f.omitAccessPoint;
    if station == d.hasStation && ap == d.hasAp then (d, [])
    else
      var lost := LostIfaces(f, d.hasStation, station, d.hasAp, ap);
      var gained := GainedExports(f, d.hasStation, station, d.hasAp, ap);
      var moved := d.(hasStation := station, hasAp := ap,
                      exports := (d.exports - (set i | i in lost)) + gained,
                      introspected := Carried(f, station, ap),
                      restarted := d.restarted && ap && d.hasAp);
      var added := GainedIfaces(d.hasStation, d.hasAp, moved);
      (moved, (if lost != [] then [Removed(d.path, lost)] else []) + (if added != map[] then [Added(d.path, added)] else []))
  }

  // -- calls that touch one object only

  function SetDevice(f: Flags, d: Obj, iface: Iface, key: Key, v: Variant): Effect
    requires d.Device?
  {
    if iface == IStation then
      if !d.hasStation || key != KAffinities || !v.Paths? then Effect(d, [], Failed)
      else Effect(d.(affinities := v.ps), [Changed(d.path, IStation, map[KAffinities := v], [])], Done)
    else if iface != IDevice then Effect(d, [], Done)
    else match key
      case KPowered =>
        if v.Bool? then Effect(d.(powered := v.b), [Changed(d.path, IDevice, map[KPowered := v], [])], Done) else Effect(d, [], Failed)
      case KMode =>
        if !v.Text? then Effect(d, [], Failed)
        else
          var (moved, signals) := SwitchMode(f, d.(mode := v.s), v.s);
          Effect(moved, [Changed(d.path, IDevice, map[KMode := v], [])] + signals, Done)
      case _ => Effect(d, [], Failed)
  }

  function SetOther(o: Obj, iface: Iface, key: Key, v: Variant): Effect
    requires o.Adapter? || o.Known?
  {
    match o
    case Adapter(_, _, _, _, _, _) =>
      if iface != IAdapter then Effect(o, [], Done)
      else if key == KPowered && v.Bool? then Effect(o.(radioOn := v.b), [Changed(o.path, IAdapter, map[KPowered := v], [])], Done)
      else Effect(o, [], Failed)
    case Known(_, _, _, _, _, _) =>
      if iface != IKnown then Effect(o, [], Done)
      else if key == KAutoConnect && v.Bool? then Effect(o.(autoConnect := v.b), [Changed(o.path, IKnown, map[KAutoConnect := v], [])], Done)
      else Effect(o, [], Failed)
  }

  function StationCall(d: Obj, call: Call): Effect
    requires d.Device? && (call.Scan? || call.Disconnect? || call.ConnectHidden?)
  {
    if !d.hasStation then Effect(d, [], Failed)
    else match call
      case Scan =>
        if d.scanning then Effect(d, [], InProgress)
        else Effect(d.(scanning := true, stationScans := d.stationScans + 1), [Changed(d.path, IStation, map[KScanning := Bool(true)], [])], Done)
      case Disconnect =>
        Effect(d.(state := "disconnected", connectedNetwork := "/", connectedAp := "/"),
               [Changed(d.path, IStation, map[KState := Text("disconnected")], [KConnectedNetwork, KConnectedAccessPoint])], Done)
      case ConnectHidden(ssid, answer) =>
        if ssid != "HiddenOpen" && ssid != "HiddenSecured" then
          Effect(d, [], if ssid == "KnownNet" || ssid == "OpenNet" || ssid == "SecuredNet" then NotHidden else NotFound)
        else if ssid == "HiddenSecured" && !answer.RightPassphrase? then Effect(d, [], Refusal(answer))
        else
          Effect(d.(state := "connected", connectedNetwork := HIDDEN_NETWORK),
                 [Changed(d.path, IStation, map[KState := Text("connected"), KConnectedNetwork := Path(HIDDEN_NETWORK)], [])], Done)
  }

  /** startAPLocked and emitAccessPointStarted. A scan from before the last stop may still be pending. */
  function BringUp(d: Obj, ssid: string): Effect
    requires d.Device?
  {
    Effect(d.(apStarted := true, apName := ssid, apFrequency := AP_FREQUENCY, apPairwise := AP_CIPHERS, apGroup := AP_GROUP_CIPHER,
              restarted := d.apScanning),
           [Changed(d.path, IAccessPoint,
                    map[KStarted := Bool(true), KScanning := Bool(false), KName := Text(ssid), KFrequency := Number(AP_FREQUENCY),
                        KPairwiseCiphers := Texts(AP_CIPHERS), KGroupCipher := Text(AP_GROUP_CIPHER)], [])], Done)
  }

  function ApCall(d: Obj, call: Call): Effect
    requires d.Device? && (call.ApStart? || call.ApStartProfile? || call.ApStop? || call.ApScan?)
  {
    if !d.hasAp then Effect(d, [], Failed)
    else match call
      case ApStart(ssid, psk) =>
        if ssid == "" || |psk| < 8 then Effect(d, [], InvalidArguments)
        else if d.apStarted then Effect(d, [], AlreadyExists)
        else BringUp(d, ssid)
      case ApStartProfile(ssid) =>
        if d.apStarted then Effect(d, [], AlreadyExists)
        else if ssid != AP_PROFILE then Effect(d, [], NotFound)
        else BringUp(d, ssid)
      case ApStop =>
        Effect(d.(apStarted := false, apName := "", apFrequency := 0, apPairwise := [], apGroup := "", restarted := false),
               [Changed(d.path, IAccessPoint, map[KStarted := Bool(false)],
                        [KScanning, KName, KFrequency, KPairwiseCiphers, KGroupCipher])], Done)
      case ApScan =>
        if !d.apStarted then Effect(d, [], NotAvailable)
        else if d.apScanning then Effect(d, [], InProgress)
        else Effect(d.(apScanning := true, apScans := d.apScans + 1), [Changed(d.path, IAccessPoint, map[KScanning := Bool(true)], [])], Done)
  }

  function ScanEnd(d: Obj, call: Call): Effect
    requires d.Device? && ((call.StationScanEnds? && d.stationScans > 0) || (call.ApScanEnds? && d.apScans > 0))
  {
    if call.StationScanEnds? then
      Effect(d.(scanning := false, stationScans := d.stationScans - 1), [Changed(d.path, IStation, map[KScanning := Bool(false)], [])], Done)
    else
      Effect(d.(apScanning := false, apScans := d.apScans - 1, restarted := false),
             [Changed(d.path, IAccessPoint, map[KScanning := Bool(false)], [])], Done)
  }

  /** Which object answers which call; a scan ends only if it is pending. */
  predicate Callable(o: Obj, call: Call) {
    match call
    case Connect(_) => o.Network?
    case Forget => o.Known?
    case Set(_, _, _) => o.Adapter? || o.Device? || o.Known?
    case StationScanEnds => o.Device? && o.stationScans > 0
    case ApScanEnds => o.Device? && o.apScans > 0
    case _ => o.Device?
  }

  predicate OneObjectCall(call: Call) {
    !call.Connect? && !call.Forget?
  }

  function CallOne(f: Flags, o: Obj, call: Call): Effect
    requires Callable(o, call) && OneObjectCall(call)
  {
    match call
    case Set(iface, key, v) => if o.Device? then SetDevice(f, o, iface, key, v) else SetOther(o, iface, key, v)
    case Scan => StationCall(o, call)
    case Disconnect => StationCall(o, call)
    case ConnectHidden(_, _) => StationCall(o, call)
    case StationScanEnds => ScanEnd(o, call)
    case ApScanEnds => ScanEnd(o, call)
    case ApStart(_, _) => ApCall(o, call)
    case ApStartProfile(_) => ApCall(o, call)
    case ApStop => ApCall(o, call)
    case ApScan => ApCall(o, call)
  }

  // -- calls that make and destroy objects

  datatype Outcomes = Outcomes(objs: seq<Obj>, signals: seq<Signal>, outcome: Outcome)

  function Provisioned(n: Obj): Obj
    requires n.Network?
  {
    Known(PathFor(n.name, n.security), n.name, n.security, false, PROVISIONED_TIME, true)
  }

  /** Network.Connect with provisionKnownNetwork. */
  function ConnectNetwork(objs: seq<Obj>, i: nat, answer: Answer): Outcomes
    requires i < |objs| && objs[i].Network?
  {
    var n := objs[i];
    if n.security != "open" && n.known == "" && !answer.RightPassphrase? then Outcomes(objs, [], Refusal(answer))
    else
      var said := Changed(n.path, INetwork, map[KConnected := Bool(true)], []);
      if n.security == "open" || n.known != "" then Outcomes(objs[i := n.(connected := true)], [said], Done)
      else
        var k := Provisioned(n);
        Outcomes(objs[i := n.(connected := true, known := k.path)] + [k],
                 [Added(k.path, IfacesOf(k)), Changed(n.path, INetwork, map[KKnownNetwork := Path(k.path)], []), said], Done)
  }

  function UnlinkOne(o: Obj, known: string): Obj {
    if o.Network? && o.known == known then o.(known := "") else o
  }

  function Unlink(objs: seq<Obj>, known: string): (r: seq<Obj>)
    ensures |r| == |objs| && forall i :: 0 <= i < |r| ==> r[i] == UnlinkOne(objs[i], known)
  {
    seq(|objs|, i requires 0 <= i < |objs| => UnlinkOne(objs[i], known))
  }

  function UnlinkSignal(o: Obj): Signal {
    Changed(o.path, INetwork, map[], [KKnownNetwork])
  }

  function UnlinkSignals(objs: seq<Obj>, known: string): seq<Signal> {
    if objs == [] then []
    else
      var last := objs[|objs| - 1];
      UnlinkSignals(objs[..|objs| - 1], known) + if last.Network? && last.known == known then [UnlinkSignal(last)] else []
  }

  /** KnownNetwork.Forget: removeKnownNetwork. */
  function ForgetKnown(objs: seq<Obj>, i: nat): Outcomes
    requires i < |objs| && objs[i].Known?
  {
    var path := objs[i].path;
    Outcomes(Unlink(objs[..i] + objs[i + 1..], path), UnlinkSignals(objs, path) + [Removed(path, [IKnown])], Done)
  }

  /** Any call on the object at index `i`. */
  function Perform(f: Flags, objs: seq<Obj>, i: nat, call: Call): Outcomes
    requires i < |objs| && Callable(objs[i], call)
  {
    match call
    case Connect(answer) => ConnectNetwork(objs, i, answer)
    case Forget => ForgetKnown(objs, i)
    case _ =>
      var e := CallOne(f, objs[i], call);
      Outcomes(objs[i := e.obj], e.signals, e.outcome)
  }
}

/**
 * The mock's objects as the program holds them: fields updated in place, registries rebuilt in loops,
 * signals appended to the bus. Every method is proved to do what the call of ObjectTree says.
 */
module MockObjects {
  import opened Common
  import opened KnownNetworkPaths
  import opened ObjectTree
  import opened TreeReplay
  import opened CallReads

  /**
   * What a call means to a client of the bus, whose idea of the object was `v`: replaying what the call
   * added to the log makes it the object again, and a refused call neither changes nor announces anything.
   */
  ghost predicate ClientsFollow(was: Obj, before: seq<Signal>, now: Obj, after: seq<Signal>, result: Outcome) {
    && before <= after
    && (ScansCounted(was) ==>
          ScansCounted(now) && forall v: Ifaces :: Tracks(v, was) ==> Tracks(ReplayTo(v, after[|before|..]), now))
    && (result != Done ==> now == was && after == before)
  }

  lemma RefusedSetIsSilent(f: Flags, o: Obj, iface: Iface, key: Key, value: Variant)
    requires o.Adapter? || o.Device? || o.Known?
    ensures var e := if o.Device? then SetDevice(f, o, iface, key, value) else SetOther(o, iface, key, value);
      e.outcome != Done ==> e.obj == o && e.signals == []
  {
  }

  lemma RefusedCallIsSilent(f: Flags, o: Obj, call: Call)
    requires Callable(o, call) && OneObjectCall(call)
    ensures var e := CallOne(f, o, call); e.outcome != Done ==> e.obj == o && e.signals == []
  {
    hide SetDevice, SetOther;
    if call.Set? { RefusedSetIsSilent(f, o, call.iface, call.key, call.value); }
  }

  lemma ClientsFollowCall(f: Flags, o: Obj, call: Call, log: seq<Signal>)
    requires Callable(o, call) && OneObjectCall(call)
    ensures var e := CallOne(f, o, call); ClientsFollow(o, log, e.obj, log + e.signals, e.outcome)
  {
    var e := CallOne(f, o, call);
    RefusedCallIsSilent(f, o, call);
    hide CallOne, Tracks, ReplayTo, ScansCounted;
    assert (log + e.signals)[|log|..] == e.signals;
    if ScansCounted(o) {
      ScansStayCounted(f, o, call);
      forall v: Ifaces | Tracks(v, o) ensures Tracks(ReplayTo(v, e.signals), e.obj) { CallTracked(f, v, o, call); }
    }
  }

  /** The flags matter to a change of Mode only. */
  const NO_FLAGS: Flags := Flags(false, false, false)

  lemma ClientsFollowStation(d: Obj, call: Call, log: seq<Signal>)
    requires d.Device? && (call.Scan? || call.Disconnect? || call.ConnectHidden?)
    ensures var e := StationCall(d, call); ClientsFollow(d, log, e.obj, log + e.signals, e.outcome)
  {
    ClientsFollowCall(NO_FLAGS, d, call, log);
    hide ClientsFollow, StationCall;
  }

  lemma ClientsFollowScanEnd(d: Obj, call: Call, log: seq<Signal>)
    requires Callable(d, call) && (call.StationScanEnds? || call.ApScanEnds?)
    ensures var e := ScanEnd(d, call); ClientsFollow(d, log, e.obj, log + e.signals, Done)
  {
    ClientsFollowCall(NO_FLAGS, d, call, log);
    hide ClientsFollow;
  }

  lemma ClientsFollowAccessPoint(d: Obj, call: Call, log: seq<Signal>)
    requires d.Device? && (call.ApStart? || call.ApStartProfile? || call.ApStop? || call.ApScan?)
    ensures var e := ApCall(d, call); ClientsFollow(d, log, e.obj, log + e.signals, e.outcome)
  {
    ClientsFollowCall(NO_FLAGS, d, call, log);
    hide ClientsFollow, ApCall;
  }

  /** The connection objects are exported on, reduced to the signals emitted. */
  class Bus {
    var log: seq<Signal>

    constructor ()
      ensures log == []
    {
      log := [];
    }

    method Emit(signal: Signal)
      modifies this
      ensures log == old(log) + [signal]
    {
      log := log + [signal];
    }
  }

  /** device.go, station.go, accesspoint.go and switchDeviceMode. */
  class DeviceObject {
    const path: string
    const wlan: string
    const address: string
    const adapter: string
    var powered: bool
    var mode: string
    var hasStation: bool
    var state: string
    var scanning: bool
    var connectedNetwork: string
    var connectedAp: string
    var affinities: seq<string>
    var hasAp: bool
    var apStarted: bool
    var apScanning: bool
    var apName: string
    var apFrequency: int
    var apPairwise: seq<string>
    var apGroup: string
    var exports: set<Iface>
    var introspected: set<Iface>
    ghost var stationScans: nat
    ghost var apScans: nat
    ghost var restarted: bool

    constructor (d: Obj)
      requires d.Device?
      ensures View() == d
    {
      path, wlan, address, adapter := d.path, d.wlan, d.address, d.adapter;
      powered, mode := d.powered, d.mode;
      hasStation, state, scanning, connectedNetwork := d.hasStation, d.state, d.scanning, d.connectedNetwork;
      connectedAp, affinities := d.connectedAp, d.affinities;
      hasAp, apStarted, apScanning, apName := d.hasAp, d.apStarted, d.apScanning, d.apName;
      apFrequency, apPairwise, apGroup := d.apFrequency, d.apPairwise, d.apGroup;
      exports, introspected := d.exports, d.introspected;
      stationScans, apScans, restarted := d.stationScans, d.apScans, d.restarted;
    }

    ghost function View(): (d: Obj)
      reads this
      ensures d.Device?
    {
      Obj.Device(path, wlan, address, powered, mode, adapter, hasStation, state, scanning, connectedNetwork, connectedAp, affinities,
                 hasAp, apStarted, apScanning, apName, apFrequency, apPairwise, apGroup, stationScans, apScans, exports, introspected, restarted)
    }

    // -- property maps

    method BuildPropertyMap() returns (props: Props)
      ensures props == DeviceProps(View())
    {
      props := map[KName := Text(wlan), KAddress := Text(address), KPowered := Bool(powered), KMode := Text(mode), KAdapter := Path(adapter)];
    }

    method BuildStationPropertyMap() returns (props: Props)
      ensures props == StationProps(View())
    {
      props := map[KState := Text(state), KScanning := Bool(scanning), KConnectedNetwork := Path(connectedNetwork),
                   KConnectedAccessPoint := Path(connectedAp), KAffinities := Paths(affinities)];
    }

    method BuildAccessPointPropertyMap() returns (props: Props)
      ensures props == AccessPointProps(View())
      ensures apStarted ==> forall key: Key :: key in props ==> Read(IAccessPoint, key, props) == Some(props[key])
      ensures !apStarted ==>
                && Read(IAccessPoint, KStarted, props) == Read(IAccessPoint, KScanning, props) == Some(Bool(false))
                && forall key: Key :: key != KStarted && key != KScanning ==> Read(IAccessPoint, key, props) == None
    {
      props := map[KStarted := Bool(apStarted)];
      if apStarted {
        props := props[KScanning := Bool(apScanning)];
        props := props[KName := Text(apName)];
        props := props[KFrequency := Number(apFrequency)];
        props := props[KPairwiseCiphers := Texts(apPairwise)];
        props := props[KGroupCipher := Text(apGroup)];
      }
    }

    // -- station

    method BeginScan(bus: Bus)
      requires StationCall(View(), Call.Scan).outcome == Done
      modifies this, bus
      ensures var e := StationCall(old(View()), Call.Scan); View() == e.obj && bus.log == old(bus.log) + e.signals
    {
      ghost var was := View();
      scanning := true;
      stationScans := stationScans + 1;
      assert View() == StationCall(was, Call.Scan).obj && View().path == path;
      hide View;
      bus.Emit(Changed(path, IStation, map[KScanning := Bool(true)], []));
    }

    method Scan(bus: Bus) returns (result: Outcome)
      modifies this, bus
      ensures var e := StationCall(old(View()), Call.Scan); View() == e.obj && bus.log == old(bus.log) + e.signals && result == e.outcome
      ensures ClientsFollow(old(View()), old(bus.log), View(), bus.log, result)
      ensures result == Done <==> old(hasStation && !scanning)
      ensures (result == Failed <==> !old(hasStation)) && (result == InProgress <==> old(hasStation && scanning))
      ensures result == Done ==> OnlyChanges(old(View()), View(), IStation, map[KScanning := Some(Bool(true))])
    {
      ClientsFollowStation(View(), Call.Scan, bus.log);
      StationReads(View(), Call.Scan);
      hide ClientsFollow, OnlyChanges;
      if !hasStation { return Failed; }
      if scanning { return InProgress; }
      BeginScan(bus);
      return Done;
    }

    method Rest(bus: Bus)
      requires stationScans > 0
      modifies this, bus
      ensures var e := ScanEnd(old(View()), StationScanEnds); View() == e.obj && bus.log == old(bus.log) + e.signals
    {
      ghost var was := View();
      scanning := false;
      stationScans := stationScans - 1;
      assert View() == ScanEnd(was, StationScanEnds).obj && View().path == path;
      hide View;
      bus.Emit(Changed(path, IStation, map[KScanning := Bool(false)], []));
    }

    /** The goroutine that Scan started, once it wakes up. */
    method EndScan(bus: Bus)
      requires stationScans > 0
      modifies this, bus
      ensures var e := ScanEnd(old(View()), StationScanEnds); View() == e.obj && bus.log == old(bus.log) + e.signals
      ensures ClientsFollow(old(View()), old(bus.log), View(), bus.log, Done)
      ensures OnlyChanges(old(View()), View(), IStation, map[KScanning := Some(Bool(false))])
    {
      ClientsFollowScanEnd(View(), StationScanEnds, bus.log);
      StationScanEndReads(View());
      hide ClientsFollow, OnlyChanges;
      Rest(bus);
    }

    method LeaveLocked()
      modifies `state, `connectedNetwork, `connectedAp
      ensures state == "disconnected" && connectedNetwork == "/" && connectedAp == "/"
    {
      state := "disconnected";
      connectedNetwork := "/";
      connectedAp := "/";
    }

    method Leave(bus: Bus)
      requires StationCall(View(), Call.Disconnect).outcome == Done
      modifies this, bus
      ensures var e := StationCall(old(View()), Call.Disconnect); View() == e.obj && bus.log == old(bus.log) + e.signals
    {
      ghost var was := View();
      LeaveLocked();
      assert View() == StationCall(was, Call.Disconnect).obj && View().path == path;
      hide View;
      bus.Emit(Changed(path, IStation, map[KState := Text("disconnected")], [KConnectedNetwork, KConnectedAccessPoint]));
    }

    method Disconnect(bus: Bus) returns (result: Outcome)
      modifies this, bus
      ensures var e := StationCall(old(View()), Call.Disconnect); View() == e.obj && bus.log == old(bus.log) + e.signals && result == e.outcome
      ensures ClientsFollow(old(View()), old(bus.log), View(), bus.log, result)
      ensures result == Done <==> old(hasStation)
      ensures result == Done || result == Failed
      ensures result == Done ==> OnlyChanges(old(View()), View(), IStation,
                map[KState := Some(Text("disconnected")), KConnectedNetwork := None, KConnectedAccessPoint := None])
    {
      ClientsFollowStation(View(), Call.Disconnect, bus.log);
      StationReads(View(), Call.Disconnect);
      hide ClientsFollow, OnlyChanges;
      if !hasStation { return Failed; }
      Leave(bus);
      return Done;
    }

    method JoinHidden(ssid: string, answer: Answer, bus: Bus)
      requires StationCall(View(), Call.ConnectHidden(ssid, answer)).outcome == Done
      modifies this, bus
      ensures var e := StationCall(old(View()), Call.ConnectHidden(ssid, answer)); View() == e.obj && bus.log == old(bus.log) + e.signals
    {
      ghost var was := View();
      state := "connected";
      connectedNetwork := HIDDEN_NETWORK;
      assert View() == StationCall(was, Call.ConnectHidden(ssid, answer)).obj && View().path == path;
      hide View;
      bus.Emit(Changed(path, IStation, map[KState := Text("connected"), KConnectedNetwork := Path(HIDDEN_NETWORK)], []));
    }

    method ConnectHidden(ssid: string, answer: Answer, bus: Bus) returns (result: Outcome)
      modifies this, bus
      ensures var e := StationCall(old(View()), Call.ConnectHidden(ssid, answer));
        View() == e.obj && bus.log == old(bus.log) + e.signals && result == e.outcome
      ensures ClientsFollow(old(View()), old(bus.log), View(), bus.log, result)
      ensures result == Done <==> old(hasStation) && (ssid == "HiddenOpen" || (ssid == "HiddenSecured" && answer.RightPassphrase?))
      ensures result == NotHidden <==> old(hasStation) && (ssid == "KnownNet" || ssid == "OpenNet" || ssid == "SecuredNet")
      ensures result == NotFound <==>
                old(hasStation) && ssid !in ["HiddenOpen", "HiddenSecured", "KnownNet", "OpenNet", "SecuredNet"]
      ensures result == NoAgent <==> old(hasStation) && ssid == "HiddenSecured" && answer.NoAgentRegistered?
      ensures result == Failed <==> !old(hasStation) || (ssid == "HiddenSecured" && (answer.Declined? || answer.WrongPassphrase?))
      ensures result == Done ==> OnlyChanges(old(View()), View(), IStation,
                map[KState := Some(Text("connected")), KConnectedNetwork := Some(Path(HIDDEN_NETWORK))])
    {
      ClientsFollowStation(View(), Call.ConnectHidden(ssid, answer), bus.log);
      StationReads(View(), Call.ConnectHidden(ssid, answer));
      hide ClientsFollow, OnlyChanges;
      if !hasStation { return Failed; }
      if ssid != "HiddenOpen" && ssid != "HiddenSecured" {
        if ssid == "KnownNet" || ssid == "OpenNet" || ssid == "SecuredNet" { return NotHidden; }
        return NotFound;
      }
      if ssid == "HiddenSecured" {
        match answer
        case NoAgentRegistered => return NoAgent;
        case Declined => return Failed;
        case WrongPassphrase => return Failed;
        case RightPassphrase =>
      }
      JoinHidden(ssid, answer, bus);
      return Done;
    }

    // -- access point

    /** startAPLocked. */
    method StartLocked(ssid: string)
      modifies `apStarted, `apName, `apFrequency, `apPairwise, `apGroup, `restarted
      ensures apStarted && apName == ssid && apFrequency == AP_FREQUENCY && apPairwise == AP_CIPHERS && apGroup == AP_GROUP_CIPHER
      ensures restarted == apScanning
    {
      apStarted := true;
      apName := ssid;
      apFrequency := AP_FREQUENCY;
      apPairwise := AP_CIPHERS;
      apGroup := AP_GROUP_CIPHER;
      restarted := apScanning;
    }

    /** emitAccessPointStarted. */
    method EmitStarted(ssid: string, bus: Bus)
      modifies bus
      ensures bus.log == old(bus.log) + BringUp(View(), ssid).signals
    {
      bus.Emit(Changed(path, IAccessPoint,
                       map[KStarted := Bool(true), KScanning := Bool(false), KName := Text(ssid), KFrequency := Number(AP_FREQUENCY),
                           KPairwiseCiphers := Texts(AP_CIPHERS), KGroupCipher := Text(AP_GROUP_CIPHER)], []));
    }

    method BringUpNow(ssid: string, bus: Bus)
      modifies this, bus
      ensures var e := BringUp(old(View()), ssid); View() == e.obj && bus.log == old(bus.log) + e.signals
    {
      ghost var was := View();
      StartLocked(ssid);
      assert View() == BringUp(was, ssid).obj;
      hide View;
      EmitStarted(ssid, bus);
    }

    method ApStart(ssid: string, psk: string, bus: Bus) returns (result: Outcome)
      modifies this, bus
      ensures var e := ApCall(old(View()), Call.ApStart(ssid, psk)); View() == e.obj && bus.log == old(bus.log) + e.signals && result == e.outcome
      ensures ClientsFollow(old(View()), old(bus.log), View(), bus.log, result)
      ensures result == Done <==> old(hasAp && !apStarted) && ssid != "" && |psk| >= 8
      ensures result == InvalidArguments <==> old(hasAp) && (ssid == "" || |psk| < 8)
      ensures (result == AlreadyExists <==> old(hasAp && apStarted) && ssid != "" && |psk| >= 8) && (result == Failed <==> !old(hasAp))
      ensures result == Done ==> OnlyChanges(old(View()), View(), IAccessPoint, StartNews(old(apScanning), ssid))
    {
      ClientsFollowAccessPoint(View(), Call.ApStart(ssid, psk), bus.log);
      AccessPointReads(View(), Call.ApStart(ssid, psk));
      hide ClientsFollow, OnlyChanges;
      if !hasAp { return Failed; }
      if ssid == "" || |psk| < 8 { return InvalidArguments; }
      if apStarted { return AlreadyExists; }
      BringUpNow(ssid, bus);
      return Done;
    }

    method ApStartProfile(ssid: string, bus: Bus) returns (result: Outcome)
      modifies this, bus
      ensures var e := ApCall(old(View()), Call.ApStartProfile(ssid)); View() == e.obj && bus.log == old(bus.log) + e.signals && result == e.outcome
      ensures ClientsFollow(old(View()), old(bus.log), View(), bus.log, result)
      ensures result == Done <==> old(hasAp && !apStarted) && ssid == AP_PROFILE
      ensures (result == AlreadyExists <==> old(hasAp && apStarted)) && (result == Failed <==> !old(hasAp))
      ensures result == NotFound <==> old(hasAp && !apStarted) && ssid != AP_PROFILE
      ensures result == Done ==> OnlyChanges(old(View()), View(), IAccessPoint, StartNews(old(apScanning), ssid))
    {
      ClientsFollowAccessPoint(View(), Call.ApStartProfile(ssid), bus.log);
      AccessPointReads(View(), Call.ApStartProfile(ssid));
      hide ClientsFollow, OnlyChanges;
      if !hasAp { return Failed; }
      if apStarted { return AlreadyExists; }
      if ssid != AP_PROFILE { return NotFound; }
      BringUpNow(ssid, bus);
      return Done;
    }

    method StopLocked()
      modifies `apStarted, `apName, `apFrequency, `apPairwise, `apGroup, `restarted
      ensures !apStarted && apName == "" && apFrequency == 0 && apPairwise == [] && apGroup == "" && !restarted
    {
      apStarted := false;
      apName := "";
      apFrequency := 0;
      apPairwise := [];
      apGroup := "";
      restarted := false;
    }

    method BringDown(bus: Bus)
      requires ApCall(View(), Call.ApStop).outcome == Done
      modifies this, bus
      ensures var e := ApCall(old(View()), Call.ApStop); View() == e.obj && bus.log == old(bus.log) + e.signals
    {
      ghost var was := View();
      StopLocked();
      assert View() == ApCall(was, Call.ApStop).obj && View().path == path;
      hide View;
      bus.Emit(Changed(path, IAccessPoint, map[KStarted := Bool(false)], [KScanning, KName, KFrequency, KPairwiseCiphers, KGroupCipher]));
    }

    method ApStop(bus: Bus) returns (result: Outcome)
      modifies this, bus
      ensures var e := ApCall(old(View()), Call.ApStop); View() == e.obj && bus.log == old(bus.log) + e.signals && result == e.outcome
      ensures ClientsFollow(old(View()), old(bus.log), View(), bus.log, result)
      ensures result == Done <==> old(hasAp)
      ensures result == Done || result == Failed
      ensures result == Done ==> OnlyChanges(old(View()), View(), IAccessPoint,
                map[KStarted := Some(Bool(false)), KScanning := Some(Bool(false)), KName := None, KFrequency := None,
                    KPairwiseCiphers := None, KGroupCipher := None])
    {
      ClientsFollowAccessPoint(View(), Call.ApStop, bus.log);
      AccessPointReads(View(), Call.ApStop);
      hide ClientsFollow, OnlyChanges;
      if !hasAp { return Failed; }
      BringDown(bus);
      return Done;
    }

    method BeginApScan(bus: Bus)
      requires ApCall(View(), Call.ApScan).outcome == Done
      modifies this, bus
      ensures var e := ApCall(old(View()), Call.ApScan); View() == e.obj && bus.log == old(bus.log) + e.signals
    {
      ghost var was := View();
      apScanning := true;
      apScans := apScans + 1;
      assert View() == ApCall(was, Call.ApScan).obj && View().path == path;
      hide View;
      bus.Emit(Changed(path, IAccessPoint, map[KScanning := Bool(true)], []));
    }

    method ApScan(bus: Bus) returns (result: Outcome)
      modifies this, bus
      ensures var e := ApCall(old(View()), Call.ApScan); View() == e.obj && bus.log == old(bus.log) + e.signals && result == e.outcome
      ensures ClientsFollow(old(View()), old(bus.log), View(), bus.log, result)
      ensures result == Done <==> old(hasAp && apStarted && !apScanning)
      ensures (result == NotAvailable <==> old(hasAp && !apStarted)) && (result == InProgress <==> old(hasAp && apStarted && apScanning))
      ensures result == Failed <==> !old(hasAp)
      ensures result == Done ==> OnlyChanges(old(View()), View(), IAccessPoint, map[KScanning := Some(Bool(true))])
    {
      ClientsFollowAccessPoint(View(), Call.ApScan, bus.log);
      AccessPointReads(View(), Call.ApScan);
      hide ClientsFollow, OnlyChanges;
      if !hasAp { return Failed; }
      if !apStarted { return NotAvailable; }
      if apScanning { return InProgress; }
      BeginApScan(bus);
      return Done;
    }

    method RestAp(bus: Bus)
      requires apScans > 0
      modifies this, bus
      ensures var e := ScanEnd(old(View()), ApScanEnds); View() == e.obj && bus.log == old(bus.log) + e.signals
    {
      ghost var was := View();
      apScanning := false;
      apScans := apScans - 1;
      restarted := false;
      assert View() == ScanEnd(was, ApScanEnds).obj && View().path == path;
      hide View;
      bus.Emit(Changed(path, IAccessPoint, map[KScanning := Bool(false)], []));
    }

    method EndApScan(bus: Bus)
      requires apScans > 0
      modifies this, bus
      ensures var e := ScanEnd(old(View()), ApScanEnds); View() == e.obj && bus.log == old(bus.log) + e.signals
      ensures ClientsFollow(old(View()), old(bus.log), View(), bus.log, Done)
      ensures OnlyChanges(old(View()), View(), IAccessPoint, map[KScanning := Some(Bool(false))])
    {
      ClientsFollowScanEnd(View(), ApScanEnds, bus.log);
      ApScanEndReads(View());
      hide ClientsFollow, OnlyChanges;
      RestAp(bus);
    }

    // -- the device interface

    /** The flags of switchDeviceMode. */
    method SwapFlags(f: Flags, newMode: string)
      modifies `hasStation, `hasAp
      ensures hasStation == (newMode == "station" && !f.omitStation) && hasAp == (newMode == "ap" && !f.omitAccessPoint)
    {
      if newMode == "ap" {
        hasStation, hasAp := false, !f.omitAccessPoint;
      } else if newMode == "station" {
        hasStation, hasAp := !f.omitStation, false;
      } else {
        hasStation, hasAp := false, false;
      }
    }

    method ListLost(f: Flags, wasStation: bool, wasAp: bool) returns (lost: seq<Iface>)
      ensures lost == LostIfaces(f, wasStation, hasStation, wasAp, hasAp)
    {
      lost := [];
      if wasStation && !hasStation {
        lost := lost + [IStation];
        if !f.omitWsc { lost := lost + [IWsc]; }
      }
      if wasAp && !hasAp { lost := lost + [IAccessPoint]; }
    }

    /** The exports taken down and put up, and the introspection that has to agree with them. */
    method SwapExports(f: Flags, wasStation: bool, wasAp: bool, lost: seq<Iface>)
      modifies `exports, `introspected
      ensures exports == (old(exports) - (set i | i in lost)) + GainedExports(f, wasStation, hasStation, wasAp, hasAp)
      ensures introspected == Carried(f, hasStation, hasAp)
    {
      var withWsc := hasStation && !f.omitWsc;
      var kept := exports - set i | i in lost;
      if !wasStation && hasStation {
        kept := kept + {IStation};
        if withWsc { kept := kept + {IWsc}; }
      }
      if !wasAp && hasAp { kept := kept + {IAccessPoint}; }
      exports := kept;
      var listed := {IDevice};
      if hasStation { listed := listed + {IStation}; }
      if withWsc { listed := listed + {IWsc}; }
      if hasAp { listed := listed + {IAccessPoint}; }
      introspected := listed;
    }

    method ListGained(wasStation: bool, wasAp: bool) returns (added: Ifaces)
      ensures added == GainedIfaces(wasStation, wasAp, View())
    {
      added := map[];
      if !wasStation && hasStation {
        var props := BuildStationPropertyMap();
        added := added[IStation := props];
      }
      if !wasAp && hasAp {
        var props := BuildAccessPointPropertyMap();
        added := added[IAccessPoint := props];
      }
    }

    /** switchDeviceMode up to its signals: flags, exports and introspection. */
    method Swap(f: Flags, newMode: string) returns (lost: seq<Iface>, swapped: bool)
      modifies `hasStation, `hasAp, `restarted, `exports, `introspected
      ensures hasStation == (newMode == "station" && !f.omitStation) && hasAp == (newMode == "ap" && !f.omitAccessPoint)
      ensures swapped == (hasStation != old(hasStation) || hasAp != old(hasAp))
      ensures lost == LostIfaces(f, old(hasStation), hasStation, old(hasAp), hasAp)
      ensures if swapped then
                && exports == (old(exports) - (set i | i in lost)) + GainedExports(f, old(hasStation), hasStation, old(hasAp), hasAp)
                && introspected == Carried(f, hasStation, hasAp)
                && restarted == (old(restarted) && hasAp && old(hasAp))
              else exports == old(exports) && introspected == old(introspected) && restarted == old(restarted)
    {
      var wasStation, wasAp := hasStation, hasAp;
      SwapFlags(f, newMode);
      lost := ListLost(f, wasStation, wasAp);
      swapped := wasStation != hasStation || wasAp != hasAp;
      if swapped {
        restarted := restarted && hasAp && wasAp;
        SwapExports(f, wasStation, wasAp, lost);
      }
    }

    method EmitSwap(lost: seq<Iface>, added: Ifaces, bus: Bus)
      modifies bus
      ensures bus.log == old(bus.log)
        + ((if lost != [] then [Removed(path, lost)] else []) + (if added != map[] then [Added(path, added)] else []))
    {
      if |lost| > 0 { bus.Emit(Removed(path, lost)); }
      if added != map[] { bus.Emit(Added(path, added)); }
    }

    method SwapAndList(f: Flags, newMode: string) returns (lost: seq<Iface>, added: Ifaces)
      modifies this
      ensures View() == SwitchMode(f, old(View()), newMode).0
      ensures var was, now := old(View()), View();
        && lost == LostIfaces(f, was.hasStation, now.hasStation, was.hasAp, now.hasAp)
        && added == GainedIfaces(was.hasStation, was.hasAp, now)
    {
      var wasStation, wasAp := hasStation, hasAp;
      ghost var was := View();
      hide LostIfaces, Carried, GainedExports, GainedIfaces;
      var swapped;
      lost, swapped := Swap(f, newMode);
      added := ListGained(wasStation, wasAp);
      assert View() == SwitchMode(f, was, newMode).0;
    }

    /** switchDeviceMode: swap the interfaces, then announce what went and what came. */
    method SwitchTo(f: Flags, newMode: string, bus: Bus)
      modifies this, bus
      ensures var (moved, signals) := SwitchMode(f, old(View()), newMode); View() == moved && bus.log == old(bus.log) + signals
    {
      ghost var was := View();
      var lost, added := SwapAndList(f, newMode);
      EmitSwap(lost, added, bus);
      assert View().path == path;
      hide View;
    }

    method SetAffinities(value: Variant, bus: Bus) returns (result: Outcome)
      modifies this, bus
      ensures var e := SetDevice(Flags(false, false, false), old(View()), IStation, KAffinities, value);
        View() == e.obj && bus.log == old(bus.log) + e.signals && result == e.outcome
    {
      if !hasStation || !value.Paths? { return Failed; }
      affinities := value.ps;
      bus.Emit(Changed(path, IStation, map[KAffinities := value], []));
      return Done;
    }

    method SetPowered(b: bool, bus: Bus)
      modifies this, bus
      ensures old(View()).Device? && View() == old(View()).(powered := b)
      ensures bus.log == old(bus.log) + [Changed(path, IDevice, map[KPowered := Bool(b)], [])]
    {
      powered := b;
      bus.Emit(Changed(path, IDevice, map[KPowered := Bool(b)], []));
    }

    method SetMode(newMode: string, bus: Bus)
      modifies this, bus
      ensures old(View()).Device? && View() == old(View()).(mode := newMode)
      ensures bus.log == old(bus.log) + [Changed(path, IDevice, map[KMode := Text(newMode)], [])]
    {
      mode := newMode;
      bus.Emit(Changed(path, IDevice, map[KMode := Text(newMode)], []));
    }

    method Set(f: Flags, iface: Iface, key: Key, value: Variant, bus: Bus) returns (result: Outcome)
      modifies this, bus
      ensures var e := SetDevice(f, old(View()), iface, key, value);
        View() == e.obj && bus.log == old(bus.log) + e.signals && result == e.outcome
      ensures ClientsFollow(old(View()), old(bus.log), View(), bus.log, result)
      ensures result == Done || result == Failed
      ensures iface == IDevice ==> (result == Done <==> (key == KMode && value.Text?) || (key == KPowered && value.Bool?))
      ensures iface == IStation ==> (result == Done <==> old(hasStation) && key == KAffinities && value.Paths?)
      ensures iface != IDevice && iface != IStation ==> result == Done && View() == old(View()) && bus.log == old(bus.log)
      ensures result == Done && (iface == IDevice || iface == IStation) ==> Reads(View(), iface, key) == Some(value)
      ensures result == Done && iface == IDevice && key == KMode ==> ModeChanged(f, old(View()), View(), value.s)
      ensures result == Done && !(iface == IDevice && key == KMode) ==> OnlyChanges(old(View()), View(), iface, SetNews(iface, key, value))
    {
      ClientsFollowCall(f, View(), Call.Set(iface, key, value), bus.log);
      SetDeviceReads(f, View(), iface, key, value);
      if (iface == IDevice || iface == IStation) && DeviceTakes(hasStation, iface, key, value) { SetIsRead(f, View(), iface, key, value); }
      hide ClientsFollow, OnlyChanges, ModeChanged, Reads, SetNews;
      assert View().hasStation == hasStation && View().path == path;
      hide View, SwitchMode;
      if iface == IStation {
        if key != KAffinities { return Failed; }
        result := SetAffinities(value, bus);
        return;
      }
      if iface != IDevice { return Done; }
      result := SetOnDevice(f, key, value, bus);
    }

    /** A new mode: stored and announced first, then switched to. */
    method ChangeMode(f: Flags, newMode: string, bus: Bus)
      modifies this, bus
      ensures var e := SetDevice(f, old(View()), IDevice, KMode, Text(newMode));
        View() == e.obj && bus.log == old(bus.log) + e.signals
    {
      assert View().path == path;
      hide View, SwitchMode;
      SetMode(newMode, bus);
      SwitchTo(f, newMode, bus);
    }

    method SetOnDevice(f: Flags, key: Key, value: Variant, bus: Bus) returns (result: Outcome)
      modifies this, bus
      ensures var e := SetDevice(f, old(View()), IDevice, key, value);
        View() == e.obj && bus.log == old(bus.log) + e.signals && result == e.outcome
    {
      assert View().path == path;
      hide View, SwitchMode;
      match key
      case KPowered =>
        if !value.Bool? { return Failed; }
        SetPowered(value.b, bus);
        return Done;
      case KMode =>
        if !value.Text? { return Failed; }
        ChangeMode(f, value.s, bus);
        return Done;
      case _ =>
        return Failed;
    }
  }
}

/**
 * The typed subscriptions of the client over the runs of the mock: what a subscription that started
 * from a bulk read has been given last, against what the next bulk read decodes. A handler looks at
 * the interface a signal names and not at its path, so the paths whose signals reach the connection
 * are a parameter.
 */
module ClientSubscriptions {
  import opened Common
  import opened KnownNetworkPaths
  import opened ObjectTree
  import opened TreeReplay
  import opened TreeRuns
  import opened ClientView
  import C = ClientReads

  // ---------- signals as events ----------

  function Named(key: Key): string {
    match key
    case KName => "Name"
    case KType => "Type"
    case KPowered => "Powered"
    case KModel => "Model"
    case KVendor => "Vendor"
    case KSupportedModes => "SupportedModes"
    case KAddress => "Address"
    case KMode => "Mode"
    case KAdapter => "Adapter"
    case KState => "State"
    case KScanning => "Scanning"
    case KConnectedNetwork => "ConnectedNetwork"
    case KConnectedAccessPoint => "ConnectedAccessPoint"
    case KAffinities => "Affinities"
    case KStarted => "Started"
    case KFrequency => "Frequency"
    case KPairwiseCiphers => "PairwiseCiphers"
    case KGroupCipher => "GroupCipher"
    case KConnected => "Connected"
    case KDevice => "Device"
    case KExtendedServiceSet => "ExtendedServiceSet"
    case KKnownNetwork => "KnownNetwork"
    case KHidden => "Hidden"
    case KAutoConnect => "AutoConnect"
    case KLastConnectedTime => "LastConnectedTime"
    case KOther(_) => ""
  }

  /** The properties of an interface by name, those the client knows. */
  function Entries(iface: Iface, props: Props): map<string, C.Value> {
    match iface
    case IStation => StationServer(props).props
    case IAccessPoint => ApServer(props).props
    case INetwork => NetworkServer(props).props
    case _ => map[]
  }

  function EventOf(iface: Iface, changed: Props, invalidated: seq<Key>): C.Event {
    C.Event(Entries(iface, changed), seq(|invalidated|, i requires 0 <= i < |invalidated| => Named(invalidated[i])))
  }

  predicate Hears(iface: Iface, heard: set<string>, s: Signal) {
    s.Changed? && s.iface == iface && s.path in heard
  }

  function HeardOf(iface: Iface, heard: set<string>, s: Signal): seq<C.Event> {
    if Hears(iface, heard, s) then [EventOf(iface, s.changed, s.invalidated)] else []
  }

  /** The events a handler of an interface is given. */
  function Heard(iface: Iface, heard: set<string>, signals: seq<Signal>): seq<C.Event> {
    if signals == [] then [] else HeardOf(iface, heard, signals[0]) + Heard(iface, heard, signals[1..])
  }

  lemma {:induction false} HeardInTwo(iface: Iface, heard: set<string>, first: seq<Signal>, second: seq<Signal>)
    ensures Heard(iface, heard, first + second) == Heard(iface, heard, first) + Heard(iface, heard, second)
  {
    hide HeardOf;
    var all := first + second;
    if first == [] {
      assert all == second;
    } else {
      assert all[0] == first[0] && all[1..] == first[1..] + second;
      HeardInTwo(iface, heard, first[1..], second);
      assert Heard(iface, heard, all) == HeardOf(iface, heard, first[0]) + Heard(iface, heard, all[1..]);
      assert Heard(iface, heard, first) == HeardOf(iface, heard, first[0]) + Heard(iface, heard, first[1..]);
    }
  }

  lemma {:induction false} HeardNothing(iface: Iface, heard: set<string>, signals: seq<Signal>)
    requires forall s :: s in signals ==> !Hears(iface, heard, s)
    ensures Heard(iface, heard, signals) == []
  {
    hide Hears, EventOf;
    if signals != [] {
      assert signals[0] in signals;
      HeardNothing(iface, heard, signals[1..]);
    }
  }

  lemma HeardOne(iface: Iface, heard: set<string>, s: Signal)
    requires Hears(iface, heard, s)
    ensures Heard(iface, heard, [s]) == [EventOf(iface, s.changed, s.invalidated)]
  {
    assert [s][1..] == [];
    hide EventOf;
  }

  /** Everything a run says on the bus. */
  function Said(f: Flags, s: State, run: seq<Step>): seq<Signal>
    requires IsRun(f, s, run)
    decreases |run|
  {
    if run == [] then []
    else Perform(f, s.objs, run[0].i, run[0].call).signals + Said(f, Apply(f, s, run[0]), run[1..])
  }

  /** It is what the replayed view is made of. */
  lemma {:induction false} ViewIsReplayOfSaid(f: Flags, s: State, run: seq<Step>)
    requires IsRun(f, s, run)
    ensures Exec(f, s, run).view == Replay(s.view, Said(f, s, run))
    decreases |run|
  {
    hide Perform, Callable;
    if run != [] {
      ViewIsReplayOfSaid(f, Apply(f, s, run[0]), run[1..]);
      ReplayInTwo(s.view, Perform(f, s.objs, run[0].i, run[0].call).signals, Said(f, Apply(f, s, run[0]), run[1..]));
    }
  }

  // ---------- one announced change, one subscription ----------

  function FromRead<T>(sub: C.Subscription<T>, r: Option<Variant>): C.Decoded<T> {
    if r.None? then Ok(sub.nothing) else sub.parse(AsValue(r.value))
  }

  /** The subscription is for this property, and decodes it as a bulk read does. */
  ghost predicate Reads<T(!new)>(sub: C.Subscription<T>, iface: Iface, key: Key) {
    && sub.clears
    && (forall k: Key :: Named(k) == sub.name <==> k == key)
    && (forall props: Props :: (sub.name in Entries(iface, props) <==> key in props)
          && C.Fresh(sub, Entries(iface, props)) == FromRead(sub, Read(iface, key, props)))
  }

  lemma InvalidatedByName(iface: Iface, changed: Props, invalidated: seq<Key>, name: string, key: Key)
    requires forall k: Key :: Named(k) == name <==> k == key
    ensures name in EventOf(iface, changed, invalidated).invalidated <==> key in invalidated
  {
    var names := EventOf(iface, changed, invalidated).invalidated;
    assert forall i :: 0 <= i < |names| ==> names[i] == Named(invalidated[i]);
    if key in invalidated {
      var i :| 0 <= i < |invalidated| && invalidated[i] == key;
      assert names[i] == name;
    }
    hide Entries, Named;
  }

  lemma AnnouncedIsHeard<T(!new)>(sub: C.Subscription<T>, key: Key, held: T, iface: Iface, before: Props, after: Props, changed: Props, invalidated: seq<Key>)
    requires Reads(sub, iface, key) && Announces(iface, before, after, changed, invalidated)
    requires C.Agrees(sub, held, Entries(iface, before))
    ensures C.Agrees(sub, C.Hear(sub, held, EventOf(iface, changed, invalidated)), Entries(iface, after))
  {
    InvalidatedByName(iface, changed, invalidated, sub.name, key);
    assert Read(iface, key, after) ==
      if key in changed then Read(iface, key, changed) else if key in invalidated then Read(iface, key, map[]) else Read(iface, key, before);
    assert C.Fresh(sub, Entries(iface, changed)) == FromRead(sub, Read(iface, key, changed));
    assert C.Fresh(sub, Entries(iface, before)) == FromRead(sub, Read(iface, key, before));
    assert C.Fresh(sub, Entries(iface, map[])) == FromRead(sub, Read(iface, key, map[]));
    assert C.Fresh(sub, Entries(iface, after)) == FromRead(sub, Read(iface, key, after));
    hide Entries, Named, Read, FromRead, Announces;
  }

  /** The events tell one change of the interface, or none when nothing changed. */
  ghost predicate Told(iface: Iface, before: Props, after: Props, events: seq<C.Event>) {
    || (events == [] && after == before)
    || exists changed: Props, invalidated: seq<Key> ::
         events == [EventOf(iface, changed, invalidated)] && Announces(iface, before, after, changed, invalidated)
  }

  lemma ToldIsHeard<T(!new)>(sub: C.Subscription<T>, key: Key, held: T, iface: Iface, before: Props, after: Props, events: seq<C.Event>)
    requires Reads(sub, iface, key) && Told(iface, before, after, events) && C.Agrees(sub, held, Entries(iface, before))
    ensures C.Agrees(sub, C.HearAll(sub, held, events), Entries(iface, after))
  {
    hide Reads, Announces, C.Agrees, C.Hear, EventOf, Entries;
    if events != [] {
      var changed: Props, invalidated: seq<Key> :|
        events == [EventOf(iface, changed, invalidated)] && Announces(iface, before, after, changed, invalidated);
      AnnouncedIsHeard(sub, key, held, iface, before, after, changed, invalidated);
      assert events[1..] == [];
    }
  }

  lemma NamesApart(key: Key)
    requires key == KConnectedNetwork || key == KConnectedAccessPoint || key == KAffinities || key == KKnownNetwork
    ensures forall k: Key :: Named(k) == Named(key) <==> k == key
  {
  }

  lemma ConnectedNetworkReads()
    ensures Reads(C.ConnectedNetworkChanged(), IStation, KConnectedNetwork)
  {
    NamesApart(KConnectedNetwork);
    forall props: Props ensures Holds(StationServer(props), props, KConnectedNetwork, "ConnectedNetwork") { StationServerHolds(props); }
    hide StationServer, Named;
  }

  lemma ConnectedAccessPointReads()
    ensures Reads(C.ConnectedAccessPointChanged(), IStation, KConnectedAccessPoint)
  {
    NamesApart(KConnectedAccessPoint);
    forall props: Props ensures Holds(StationServer(props), props, KConnectedAccessPoint, "ConnectedAccessPoint") { StationServerHolds(props); }
    hide StationServer, Named;
  }

  lemma AffinitiesRead()
    ensures Reads(C.AffinitiesChanged(), IStation, KAffinities)
  {
    NamesApart(KAffinities);
    forall props: Props ensures Holds(StationServer(props), props, KAffinities, "Affinities") { StationServerHolds(props); }
    hide StationServer, C.ParseAffinities, Named;
  }

  lemma StationSubscriptionsRead()
    ensures Reads(C.ConnectedNetworkChanged(), IStation, KConnectedNetwork)
    ensures Reads(C.ConnectedAccessPointChanged(), IStation, KConnectedAccessPoint)
    ensures Reads(C.AffinitiesChanged(), IStation, KAffinities)
  {
    hide Reads;
    ConnectedNetworkReads();
    ConnectedAccessPointReads();
    AffinitiesRead();
  }

  lemma KnownNetworkSubscriptionReads()
    ensures Reads(C.KnownNetworkChanged(), INetwork, KKnownNetwork)
  {
    NamesApart(KKnownNetwork);
    forall props: Props ensures Holds(NetworkServer(props), props, KKnownNetwork, "KnownNetwork") { NetworkServerHolds(props); }
    hide NetworkServer, Holds;
  }

  // ---------- what a call on a device says about its station ----------

  predicate StationTalk(call: Call) {
    call.Scan? || call.Disconnect? || call.ConnectHidden? || call.StationScanEnds? || (call.Set? && call.iface == IStation)
  }

  predicate SameStation(d: Obj, n: Obj) {
    && d.Device? && n.Device? && n.state == d.state && n.scanning == d.scanning
    && n.connectedNetwork == d.connectedNetwork && n.connectedAp == d.connectedAp && n.affinities == d.affinities
  }

  predicate SilentOn(iface: Iface, signals: seq<Signal>) {
    forall s | s in signals :: !(s.Changed? && s.iface == iface)
  }

  lemma SameStationSameProps(d: Obj, n: Obj)
    requires SameStation(d, n)
    ensures StationProps(n) == StationProps(d)
  {
  }

  lemma SwitchLeavesStation(f: Flags, d: Obj, mode: string)
    requires d.Device?
    ensures var (moved, signals) := SwitchMode(f, d, mode);
      SameStation(d, moved) && SilentOn(IStation, signals) && SilentOn(IAccessPoint, signals)
  {
    hide LostIfaces, GainedIfaces, Carried, GainedExports;
  }

  lemma ModeSetLeavesStation(f: Flags, d: Obj, mode: string)
    requires d.Device?
    ensures var e := SetDevice(f, d, IDevice, KMode, Text(mode));
      SameStation(d, e.obj) && SilentOn(IStation, e.signals) && SilentOn(IAccessPoint, e.signals)
  {
    SwitchLeavesStation(f, d.(mode := mode), mode);
    hide SwitchMode;
  }

  lemma OtherSetLeavesStation(f: Flags, d: Obj, iface: Iface, key: Key, v: Variant)
    requires d.Device? && iface != IStation && !(iface == IDevice && key == KMode && v.Text?)
    ensures var e := SetDevice(f, d, iface, key, v); SameStation(d, e.obj) && SilentOn(IStation, e.signals)
  {
    hide SwitchMode;
  }

  lemma SetLeavesStation(f: Flags, d: Obj, iface: Iface, key: Key, v: Variant)
    requires d.Device? && iface != IStation
    ensures var e := SetDevice(f, d, iface, key, v); SameStation(d, e.obj) && SilentOn(IStation, e.signals)
  {
    hide SetDevice, SameStation, SilentOn;
    if iface == IDevice && key == KMode && v.Text? { ModeSetLeavesStation(f, d, v.s); } else { OtherSetLeavesStation(f, d, iface, key, v); }
  }

  lemma ApCallLeavesStation(d: Obj, call: Call)
    requires d.Device? && (call.ApStart? || call.ApStartProfile? || call.ApStop? || call.ApScan?)
    ensures var e := ApCall(d, call); SameStation(d, e.obj) && SilentOn(IStation, e.signals)
  {
  }

  lemma OtherCallsLeaveStation(f: Flags, d: Obj, call: Call)
    requires d.Device? && Callable(d, call) && OneObjectCall(call) && !StationTalk(call)
    ensures var e := CallOne(f, d, call); SameStation(d, e.obj) && SilentOn(IStation, e.signals)
  {
    hide SetDevice, ApCall;
    if call.Set? { SetLeavesStation(f, d, call.iface, call.key, call.value); }
    else if call.ApScanEnds? {}
    else { ApCallLeavesStation(d, call); }
  }

  lemma StationSetTold(f: Flags, d: Obj, key: Key, v: Variant, heard: set<string>)
    requires d.Device? && d.path in heard
    ensures var e := SetDevice(f, d, IStation, key, v);
      e.obj.Device? && Told(IStation, StationProps(d), StationProps(e.obj), Heard(IStation, heard, e.signals))
  {
    hide StationProps, Announces, EventOf, SwitchMode;
    var e := SetDevice(f, d, IStation, key, v);
    if e.signals != [] {
      AffinitiesAnnounced(d, v.ps);
      HeardOne(IStation, heard, e.signals[0]);
      assert e.signals == [e.signals[0]];
    }
  }

  lemma StationScanEndTold(d: Obj, heard: set<string>)
    requires Callable(d, StationScanEnds) && d.path in heard
    ensures var e := ScanEnd(d, StationScanEnds);
      e.obj.Device? && Told(IStation, StationProps(d), StationProps(e.obj), Heard(IStation, heard, e.signals))
  {
    var e := ScanEnd(d, StationScanEnds);
    SameStationSameProps(d.(scanning := false), e.obj);
    StationScanEndAnnounced(d);
    HeardOne(IStation, heard, e.signals[0]);
    hide StationProps, Announces, EventOf;
  }

  lemma StationTalkTold(d: Obj, call: Call, heard: set<string>)
    requires d.Device? && (call.Scan? || call.Disconnect? || call.ConnectHidden?) && d.path in heard
    ensures var e := StationCall(d, call);
      e.obj.Device? && Told(IStation, StationProps(d), StationProps(e.obj), Heard(IStation, heard, e.signals))
  {
    var e := StationCall(d, call);
    if e.signals != [] {
      StationCallAnnounced(d, call);
      HeardOne(IStation, heard, e.signals[0]);
      hide StationCall;
    }
    hide StationProps, Announces, EventOf;
  }

  lemma SilentTold(d: Obj, n: Obj, signals: seq<Signal>, heard: set<string>)
    requires SameStation(d, n) && SilentOn(IStation, signals)
    ensures Told(IStation, StationProps(d), StationProps(n), Heard(IStation, heard, signals))
  {
    SameStationSameProps(d, n);
    HeardNothing(IStation, heard, signals);
    hide StationProps, EventOf;
  }

  lemma StationCallTold(f: Flags, d: Obj, call: Call, heard: set<string>)
    requires d.Device? && Callable(d, call) && OneObjectCall(call) && d.path in heard
    ensures var e := CallOne(f, d, call);
      e.obj.Device? && Told(IStation, StationProps(d), StationProps(e.obj), Heard(IStation, heard, e.signals))
  {
    hide Told, StationProps, SetDevice, StationCall, ScanEnd, SilentOn;
    if !StationTalk(call) {
      OtherCallsLeaveStation(f, d, call);
      hide CallOne;
      SilentTold(d, CallOne(f, d, call).obj, CallOne(f, d, call).signals, heard);
    } else if call.Set? {
      StationSetTold(f, d, call.key, call.value, heard);
    } else if call.StationScanEnds? {
      StationScanEndTold(d, heard);
    } else {
      StationTalkTold(d, call, heard);
    }
  }
}

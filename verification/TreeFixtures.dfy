/**
 * The objects the mock starts with (the fixtures of daemon.go, adapter.go, device.go, bss.go, network.go
 * and knownnetwork.go), under every choice of the flags that leave some of them out, and the proof that
 * runs from them satisfy what the run theorems ask of a start.
 */
module TreeFixtures {
  import opened Common
  import opened KnownNetworkPaths
  import opened ObjectTree
  import opened TreeReplay
  import opened TreeRuns
  import opened DeviceModes

  /** The flags; `info` is what the daemon answers, `model` and `vendor` what the adapters carry, `badModes` their malformed list. */
  datatype Setup = Setup(flags: Flags, omitDaemon: bool, omitDevice: bool, omitBss: bool, omitNetwork: bool, omitKnown: bool,
                         info: Props, model: Option<string>, vendor: Option<string>, badModes: Option<Variant>)

  const KNOWN_NET: Ssid := [0x4b, 0x6e, 0x6f, 0x77] + [0x6e, 0x4e, 0x65, 0x74]
  const OPEN_NET: Ssid := [0x4f, 0x70, 0x65, 0x6e, 0x4e, 0x65, 0x74]
  const SECURED_NET: Ssid := [0x53, 0x65, 0x63, 0x75, 0x72, 0x65, 0x64, 0x4e, 0x65, 0x74]
  const GUEST_HOTSPOT: Ssid := [0x47, 0x75, 0x65, 0x73] + ([0x74, 0x48, 0x6f, 0x74] + [0x73, 0x70, 0x6f, 0x74])

  const DAEMON: string := "/net/connman/iwd"
  const ADAPTER: string := "/net/connman/iwd/0"
  const OTHER_ADAPTER: string := "/net/connman/iwd/1"
  const STATION_DEVICE: string := ADAPTER + "/3"
  const AP_DEVICE: string := OTHER_ADAPTER + "/4"
  const KNOWN_NET_AT: string := STATION_DEVICE + "/4b6e6f776e4e6574_psk"
  const OPEN_NET_AT: string := STATION_DEVICE + "/4f70656e4e6574_open"
  const SECURED_NET_AT: string := STATION_DEVICE + "/536563757265644e6574_psk"
  const KNOWN_NET_BSS: string := KNOWN_NET_AT + "/deadbeefcafe"
  const OPEN_NET_BSS: string := OPEN_NET_AT + "/112233445566"
  const OPEN_NET_OTHER_BSS: string := OPEN_NET_AT + "/778899aabbcc"
  const KNOWN_NET_HEX: string := "4b6e6f77" + "6e4e6574"
  const HOTSPOT_HEX: string := "47756573" + "74486f74" + "73706f74"
  const KNOWN_NET_PATH: string := PREFIX + KNOWN_NET_HEX + "_" + "psk"
  const HOTSPOT_PATH: string := PREFIX + HOTSPOT_HEX + "_" + "hotspot"

  function Daemons(u: Setup): seq<Obj> {
    if u.omitDaemon then [] else [Fixed(DAEMON, map[IDaemon := u.info])]
  }

  function Modes(u: Setup, modes: seq<string>): Variant {
    if u.badModes.Some? then u.badModes.value else Texts(modes)
  }

  function Adapters(u: Setup): seq<Obj> {
    [Adapter(ADAPTER, true, "phy0", u.model, u.vendor, Modes(u, ["station", "ap"])),
     Adapter(OTHER_ADAPTER, true, "phy1", u.model, u.vendor, Modes(u, ["station"]))]
  }

  function Devices(u: Setup): seq<Obj> {
    var f := u.flags;
    if u.omitDevice then []
    else
      [Device(STATION_DEVICE, "wlan0", "aa:bb:cc:dd:ee:ff", true, "station", ADAPTER,
              !f.omitStation, "connected", false, KNOWN_NET_AT, KNOWN_NET_BSS, [KNOWN_NET_BSS],
              false, false, false, "", 0, [], "",
              0, 0, Carried(f, !f.omitStation, false), Carried(f, !f.omitStation, false), false),
       Device(AP_DEVICE, "wlan1", "11:22:33:44:55:66", true, "ap", OTHER_ADAPTER,
              false, "", false, "", "", [],
              !f.omitAccessPoint, true, false, "MockAP", AP_FREQUENCY, AP_CIPHERS, AP_GROUP_CIPHER,
              0, 0, Carried(f, false, !f.omitAccessPoint), Carried(f, false, !f.omitAccessPoint), false)]
  }

  function ServiceSet(path: string, address: string): Obj {
    Fixed(path, map[IBss := map[KAddress := Text(address)]])
  }

  function ServiceSets(u: Setup): seq<Obj> {
    if u.omitBss then []
    else
      [ServiceSet(KNOWN_NET_BSS, "de:ad:be:ef:ca:fe"), ServiceSet(OPEN_NET_BSS, "11:22:33:44:55:66"),
       ServiceSet(OPEN_NET_OTHER_BSS, "77:88:99:aa:bb:cc")]
  }

  function Networks(u: Setup): seq<Obj> {
    if u.omitNetwork then []
    else
      [Network(KNOWN_NET_AT, KNOWN_NET, false, STATION_DEVICE, "psk", KNOWN_NET_PATH, [KNOWN_NET_BSS]),
       Network(OPEN_NET_AT, OPEN_NET, false, STATION_DEVICE, "open", "", [OPEN_NET_BSS, OPEN_NET_OTHER_BSS]),
       Network(SECURED_NET_AT, SECURED_NET, false, STATION_DEVICE, "psk", "", [])]
  }

  function KnownNetworks(u: Setup): seq<Obj> {
    if u.omitKnown then []
    else
      [Known(KNOWN_NET_PATH, KNOWN_NET, "psk", false, "2024-01-02T03:04:05Z", true),
       Known(HOTSPOT_PATH, GUEST_HOTSPOT, "hotspot", false, "", false)]
  }

  /** The registries in the order GetManagedObjects walks them. */
  function Fixtures(u: Setup): seq<Obj> {
    Daemons(u) + (Adapters(u) + (Devices(u) + (ServiceSets(u) + (Networks(u) + KnownNetworks(u)))))
  }

  function Four(a: Byte, b: Byte, c: Byte, d: Byte): string {
    Pair(a) + Pair(b) + Pair(c) + Pair(d)
  }

  lemma HexOfFour(a: Byte, b: Byte, c: Byte, d: Byte, rest: Ssid)
    ensures Hex([a, b, c, d] + rest) == Four(a, b, c, d) + Hex(rest)
  {
    hide Hex, Pair;
    HexOfFirst(d, rest);
    HexOfFirst(c, [d] + rest);
    HexOfFirst(b, [c] + ([d] + rest));
    HexOfFirst(a, [b] + ([c] + ([d] + rest)));
    assert [a, b, c, d] + rest == [a] + ([b] + ([c] + ([d] + rest)));
  }

  lemma KnownNetDigits()
    ensures Four(0x4b, 0x6e, 0x6f, 0x77) == "4b6e6f77" && Four(0x6e, 0x4e, 0x65, 0x74) == "6e4e6574"
  {
  }

  lemma GuestHotspotDigits()
    ensures Four(0x47, 0x75, 0x65, 0x73) == "47756573" && Four(0x74, 0x48, 0x6f, 0x74) == "74486f74"
    ensures Four(0x73, 0x70, 0x6f, 0x74) == "73706f74"
  {
  }

  lemma HexOfLastFour(a: Byte, b: Byte, c: Byte, d: Byte)
    ensures Hex([a, b, c, d]) == Four(a, b, c, d)
  {
    HexOfFour(a, b, c, d, []);
    assert [a, b, c, d] + [] == [a, b, c, d];
    hide Four;
  }

  lemma KnownNetIsEncoded()
    ensures Hex(KNOWN_NET) == KNOWN_NET_HEX
  {
    hide Four, Hex;
    KnownNetDigits();
    HexOfLastFour(0x6e, 0x4e, 0x65, 0x74);
    HexOfFour(0x4b, 0x6e, 0x6f, 0x77, [0x6e, 0x4e, 0x65, 0x74]);
  }

  lemma GuestHotspotIsEncoded()
    ensures Hex(GUEST_HOTSPOT) == HOTSPOT_HEX
  {
    hide Four, Hex;
    GuestHotspotDigits();
    HexOfLastFour(0x73, 0x70, 0x6f, 0x74);
    HexOfFour(0x74, 0x48, 0x6f, 0x74, [0x73, 0x70, 0x6f, 0x74]);
    HexOfFour(0x47, 0x75, 0x65, 0x73, [0x74, 0x48, 0x6f, 0x74] + [0x73, 0x70, 0x6f, 0x74]);
  }

  /** The literal paths of the fixtures are the ones the encoding gives. */
  lemma FixturePathsAreEncoded(u: Setup, k: Obj)
    requires k in KnownNetworks(u)
    ensures k.path == PathFor(k.name, k.security)
  {
    KnownNetIsEncoded();
    GuestHotspotIsEncoded();
    hide Hex;
  }

  // ---------- distinct paths ----------

  predicate Sized(objs: seq<Obj>, sizes: set<nat>) {
    forall o | o in objs :: |o.path| in sizes
  }

  lemma DistinctInTwo(a: seq<Obj>, b: seq<Obj>, p: set<nat>, q: set<nat>)
    requires Distinct(a) && Distinct(b) && Sized(a, p) && Sized(b, q) && p !! q
    ensures Distinct(a + b) && Sized(a + b, p + q)
  {
    var all := a + b;
    forall i, j | 0 <= i < j < |all| ensures all[i].path != all[j].path {
      if i < |a| <= j { assert |a[i].path| in p && |b[j - |a|].path| in q; }
    }
    assert forall o :: o in all ==> o in a || o in b;
  }

  lemma SmallPartsDistinct(u: Setup)
    ensures Distinct(Daemons(u)) && Sized(Daemons(u), {16})
    ensures Distinct(Adapters(u)) && Sized(Adapters(u), {18})
    ensures Distinct(Devices(u)) && Sized(Devices(u), {20})
  {
    assert ADAPTER[17] == '0' && OTHER_ADAPTER[17] == '1';
    assert STATION_DEVICE[17] == '0' && AP_DEVICE[17] == '1';
  }

  lemma ServiceSetsDistinct(u: Setup)
    ensures Distinct(ServiceSets(u)) && Sized(ServiceSets(u), {53, 54})
  {
    assert |KNOWN_NET_BSS| == 54 && |OPEN_NET_BSS| == |OPEN_NET_OTHER_BSS| == 53;
    assert OPEN_NET_BSS[41] == '1' && OPEN_NET_OTHER_BSS[41] == '7';
  }

  lemma NetworksDistinct(u: Setup)
    ensures Distinct(Networks(u)) && Sized(Networks(u), {40, 41, 45})
  {
    assert |KNOWN_NET_AT| == 41 && |OPEN_NET_AT| == 40 && |SECURED_NET_AT| == 45;
  }

  lemma KnownNetworksDistinct(u: Setup)
    ensures Distinct(KnownNetworks(u)) && Sized(KnownNetworks(u), {37, 49})
  {
    assert |KNOWN_NET_PATH| == 37 && |HOTSPOT_PATH| == 49;
  }

  lemma FixturesDistinct(u: Setup)
    ensures Distinct(Fixtures(u))
  {
    SmallPartsDistinct(u);
    ServiceSetsDistinct(u);
    NetworksDistinct(u);
    KnownNetworksDistinct(u);
    hide Daemons, Adapters, Devices, ServiceSets, Networks, KnownNetworks, Distinct, Sized;
    var links := Networks(u) + KnownNetworks(u);
    var sets := ServiceSets(u) + links;
    var devices := Devices(u) + sets;
    DistinctInTwo(Networks(u), KnownNetworks(u), {40, 41, 45}, {37, 49});
    DistinctInTwo(ServiceSets(u), links, {53, 54}, {40, 41, 45} + {37, 49});
    DistinctInTwo(Devices(u), sets, {20}, {53, 54} + ({40, 41, 45} + {37, 49}));
    DistinctInTwo(Adapters(u), devices, {18}, {20} + ({53, 54} + ({40, 41, 45} + {37, 49})));
    DistinctInTwo(Daemons(u), Adapters(u) + devices, {16}, {18} + ({20} + ({53, 54} + ({40, 41, 45} + {37, 49}))));
  }

  // ---------- known networks and the rest ----------

  predicate LiesApart(path: string) {
    '_' !in path || (|path| > |PREFIX| + 1 && path[|PREFIX| + 1] == '/')
  }

  lemma InSomePart(u: Setup, o: Obj)
    requires o in Fixtures(u)
    ensures o in Daemons(u) || o in Adapters(u) || o in Devices(u) || o in ServiceSets(u) || o in Networks(u) || o in KnownNetworks(u)
  {
    hide Daemons, Adapters, Devices, ServiceSets, Networks, KnownNetworks;
  }

  lemma KindsOfParts(u: Setup, o: Obj)
    ensures o in Daemons(u) || o in ServiceSets(u) ==> o.Fixed?
    ensures (o in Adapters(u) ==> o.Adapter?) && (o in Devices(u) ==> o.Device?)
    ensures (o in Networks(u) ==> o.Network?) && (o in KnownNetworks(u) ==> o.Known?)
  {
    hide Carried, Modes;
  }

  lemma FixtureKinds(u: Setup, o: Obj)
    requires o in Fixtures(u)
    ensures match o
      case Fixed(_, _) => o in Daemons(u) || o in ServiceSets(u)
      case Adapter(_, _, _, _, _, _) => o in Adapters(u)
      case Device(_, _, _, _, _, _, _, _, _, _, _, _, _, _, _, _, _, _, _, _, _, _, _, _) => o in Devices(u)
      case Network(_, _, _, _, _, _, _) => o in Networks(u)
      case Known(_, _, _, _, _, _) => o in KnownNetworks(u)
  {
    hide Fixtures, Daemons, Adapters, Devices, ServiceSets, Networks, KnownNetworks;
    InSomePart(u, o);
    KindsOfParts(u, o);
  }

  lemma AboveDevicesLiesApart(u: Setup, o: Obj)
    requires o in Daemons(u) || o in Adapters(u)
    ensures LiesApart(o.path)
  {
    assert forall c :: c in DAEMON ==> c != '_';
  }

  lemma DevicesLieApart(u: Setup, o: Obj)
    requires o in Devices(u)
    ensures LiesApart(o.path)
  {
    assert STATION_DEVICE[18] == '/' && AP_DEVICE[18] == '/';
    hide Carried;
  }

  lemma ServiceSetsLieApart(u: Setup, o: Obj)
    requires o in ServiceSets(u)
    ensures LiesApart(o.path)
  {
    assert KNOWN_NET_BSS[18] == '/' && OPEN_NET_BSS[18] == '/' && OPEN_NET_OTHER_BSS[18] == '/';
  }

  lemma NetworksLieApart(u: Setup, o: Obj)
    requires o in Networks(u)
    ensures LiesApart(o.path)
  {
    assert KNOWN_NET_AT[18] == '/' && OPEN_NET_AT[18] == '/' && SECURED_NET_AT[18] == '/';
  }

  lemma OthersLieApart(u: Setup, o: Obj)
    requires o in Fixtures(u) && !o.Known?
    ensures LiesApart(o.path)
  {
    hide Fixtures, Daemons, Adapters, Devices, ServiceSets, Networks, KnownNetworks, LiesApart;
    FixtureKinds(u, o);
    if o in Daemons(u) || o in Adapters(u) { AboveDevicesLiesApart(u, o); }
    if o in Devices(u) { DevicesLieApart(u, o); }
    if o in ServiceSets(u) { ServiceSetsLieApart(u, o); }
    if o in Networks(u) { NetworksLieApart(u, o); }
  }

  lemma NetworkPathsStandApart(u: Setup, path: string, n: Obj)
    requires LiesApart(path) && n in Networks(u)
    ensures path != PathFor(n.name, n.security)
  {
    KnownPathsStandApart(n.name, n.security, path);
    hide PathFor;
  }

  lemma FixtureNetworksDiffer(u: Setup)
    ensures NetworksDiffer(Networks(u))
  {
    assert |KNOWN_NET| == 8 && |OPEN_NET| == 7 && |SECURED_NET| == 10;
  }

  lemma SameFixtureNetwork(u: Setup, n: Obj, k: Obj)
    requires n in Networks(u) && k in KnownNetworks(u) && n.name == k.name && n.security == k.security
    ensures n.known == k.path
  {
    assert |KNOWN_NET| == 8 && |OPEN_NET| == 7 && |SECURED_NET| == 10 && |GUEST_HOTSPOT| == 12;
  }

  lemma FixtureLinkedBack(u: Setup, n: Obj, k: Obj)
    requires n in Networks(u) && k in KnownNetworks(u) && k.path == PathFor(n.name, n.security)
    ensures n.known == k.path
  {
    KindsOfParts(u, n);
    KindsOfParts(u, k);
    hide PathFor, Networks, KnownNetworks, Hex;
    FixturePathsAreEncoded(u, k);
    PathsIdentifyNetworks(n.name, n.security, k.name, k.security);
    SameFixtureNetwork(u, n, k);
  }

  lemma FixturesReserveKnownPaths(u: Setup)
    ensures KnownPathsReserved(Fixtures(u)) && LinkedBack(Fixtures(u)) && NetworksDiffer(Fixtures(u))
  {
    hide Fixtures, Daemons, Adapters, Devices, ServiceSets, Networks, KnownNetworks, PathFor, LiesApart;
    var all := Fixtures(u);
    forall n | n in all && n.Network? ensures n in Networks(u) { FixtureKinds(u, n); }
    FixtureNetworksDiffer(u);
    forall n, o | n in all && o in all && n.Network? && o.path == PathFor(n.name, n.security) ensures o.Known? {
      FixtureKinds(u, o);
      if !o.Known? {
        OthersLieApart(u, o);
        NetworkPathsStandApart(u, o.path, n);
      }
    }
    forall n, k | n in all && k in all && n.Network? && k.Known? && k.path == PathFor(n.name, n.security) ensures n.known == k.path {
      FixtureKinds(u, k);
      FixtureLinkedBack(u, n, k);
    }
  }

  lemma FixtureDevices(u: Setup, d: Obj)
    requires d in Devices(u)
    ensures ScansCounted(d) && d.Device? && !d.restarted && ModeAgrees(u.flags, d)
  {
    hide Carried;
  }

  /** The start is well formed, whatever is omitted. */
  lemma FixturesWellFormed(u: Setup)
    ensures WellFormed(Fixtures(u)) && NoneRestarted(Fixtures(u))
  {
    FixturesDistinct(u);
    FixturesReserveKnownPaths(u);
    hide Fixtures, Devices, Daemons, Adapters, ServiceSets, Networks, KnownNetworks;
    forall o | o in Fixtures(u) ensures ScansCounted(o) && (o.Device? ==> !o.restarted) {
      FixtureKinds(u, o);
      if o.Device? { FixtureDevices(u, o); }
    }
    hide Distinct, KnownPathsReserved, LinkedBack, NetworksDiffer, ScansCounted;
  }

  lemma FixturesAgreeOnModes(u: Setup)
    ensures ModesAgree(u.flags, Fixtures(u))
  {
    hide Fixtures, Devices, Daemons, Adapters, ServiceSets, Networks, KnownNetworks, ModeAgrees;
    forall o | o in Fixtures(u) && o.Device? ensures ModeAgrees(u.flags, o) {
      FixtureKinds(u, o);
      FixtureDevices(u, o);
    }
  }

  lemma LinkedFixture(u: Setup)
    ensures !u.omitNetwork ==> exists n :: n in Networks(u) && n.Network? && n.known == KNOWN_NET_PATH && n.known != ""
    ensures forall n :: n in Networks(u) && n.Network? && n.known != "" ==> n.known == KNOWN_NET_PATH
    ensures !u.omitKnown ==> exists k :: k in KnownNetworks(u) && k.Known? && k.path == KNOWN_NET_PATH
    ensures u.omitKnown ==> KnownNetworks(u) == []
  {
    if !u.omitNetwork { assert Networks(u)[0] in Networks(u); }
    if !u.omitKnown { assert KnownNetworks(u)[0] in KnownNetworks(u); }
  }

  lemma PartsAreIn(u: Setup, o: Obj)
    requires o in Networks(u) || o in KnownNetworks(u)
    ensures o in Fixtures(u)
  {
    hide Daemons, Adapters, Devices, ServiceSets, Networks, KnownNetworks;
  }

  /** Its links resolve unless the known networks are omitted and the networks are not: the link of the first one then dangles. */
  lemma FixtureLinksResolveExactlyWhen(u: Setup)
    ensures LinksResolve(Fixtures(u)) <==> u.omitNetwork || !u.omitKnown
  {
    var all := Fixtures(u);
    LinkedFixture(u);
    forall o | o in Networks(u) || o in KnownNetworks(u) ensures o in all { PartsAreIn(u, o); }
    forall o | o in all ensures (o.Network? ==> o in Networks(u)) && (o.Known? ==> o in KnownNetworks(u)) { FixtureKinds(u, o); }
    assert u.omitNetwork ==> Networks(u) == [];
    hide Fixtures, Networks, KnownNetworks;
    if !u.omitKnown {
      assert Resolves(all, KNOWN_NET_PATH);
    } else if !u.omitNetwork {
      assert !Resolves(all, KNOWN_NET_PATH);
    }
  }
}

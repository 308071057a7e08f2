/**
 * The objects the mock starts with, seen from the KnownNetwork subscription of the network it knows:
 * following the open network on the same connection does no harm, following the secured one does.
 */
module LinkFixtures {
  import opened Common
  import opened DBusNames
  import opened KnownNetworkPaths
  import opened ObjectTree
  import opened TreeReplay
  import opened TreeRuns
  import opened TreeFixtures
  import opened ClientView
  import opened LinkSubscription
  import opened LinkLimits
  import C = ClientReads

  // ---------- the paths of the fixtures are valid ----------

  lemma {:induction false} SplitLast(a: string, e: string, sep: char)
    requires sep !in e
    ensures Split(a + [sep] + e, sep) == Split(a, sep) + [e]
  {
    if a == "" {
      assert ("" + [sep] + e)[1..] == e;
      OnePart(e, sep);
    } else {
      assert (a + [sep] + e)[1..] == a[1..] + [sep] + e;
      SplitLast(a[1..], e, sep);
    }
  }

  lemma {:induction false} OnePart(e: string, sep: char)
    requires sep !in e
    ensures Split(e, sep) == [e]
  {
    if e != "" {
      OnePart(e[1..], sep);
      assert e == [e[0]] + e[1..];
    }
  }

  /** One more element keeps a path valid. */
  lemma ValidBelow(p: string, e: string)
    requires ValidPath(p) && p != "/" && e != "" && AllNameChars(e)
    ensures ValidPath(p + "/" + e) && p + "/" + e != "/"
  {
    assert '/' !in e;
    assert (p + "/" + e)[1..] == p[1..] + ['/'] + e;
    SplitLast(p[1..], e, '/');
    hide Split, NameChar;
    assert forall x :: x in Split(p[1..], '/') + [e] ==> x in Split(p[1..], '/') || x == e;
  }

  lemma RootIsValid()
    ensures ValidPath("/net")
  {
    assert "/net"[1..] == "net";
    OnePart("net", '/');
    hide Split;
  }

  lemma FixedNames()
    ensures AllNameChars("connman") && AllNameChars("iwd") && AllNameChars("0") && AllNameChars("3")
    ensures AllNameChars("4b6e6f776e4e6574_psk") && AllNameChars("deadbeefcafe")
  {
  }

  lemma FixturePathsAreValid()
    ensures ValidPath(STATION_DEVICE) && ValidPath(KNOWN_NET_BSS)
  {
    RootIsValid();
    FixedNames();
    hide ValidPath, AllNameChars;
    ValidBelow("/net", "connman");
    assert "/net" + "/" + "connman" == "/net/connman";
    ValidBelow("/net/connman", "iwd");
    assert "/net/connman" + "/" + "iwd" == "/net/connman/iwd";
    ValidBelow("/net/connman/iwd", "0");
    assert "/net/connman/iwd" + "/" + "0" == ADAPTER;
    ValidBelow(ADAPTER, "3");
    assert ADAPTER + "/" + "3" == STATION_DEVICE;
    ValidBelow(STATION_DEVICE, "4b6e6f776e4e6574_psk");
    assert STATION_DEVICE + "/" + "4b6e6f776e4e6574_psk" == KNOWN_NET_AT;
    ValidBelow(KNOWN_NET_AT, "deadbeefcafe");
    assert KNOWN_NET_AT + "/" + "deadbeefcafe" == KNOWN_NET_BSS;
  }

  // ---------- the start is orderly ----------

  /** The links of the start make sense, unless known networks are omitted and networks are not. */
  lemma FixturesOrderlyExactlyWhen(u: Setup)
    ensures Orderly(Fixtures(u)) <==> u.omitNetwork || !u.omitKnown
  {
    FixtureLinksResolveExactlyWhen(u);
    hide Fixtures, Networks, KnownNetworks, LinksResolve, ValidPath, PathFor;
    forall k | k in Fixtures(u) && k.Known? ensures k.path != "" {
      FixtureKinds(u, k);
      KnownFixtureHasPath(u, k);
    }
    forall n | n in Fixtures(u) && n.Network? ensures if n.security == "open" then n.known == "" else ValidPath(PathFor(n.name, n.security)) {
      FixtureKinds(u, n);
      NetworkFixtureIsOrderly(u, n);
    }
  }

  lemma KnownFixtureHasPath(u: Setup, k: Obj)
    requires k in KnownNetworks(u)
    ensures k.path != ""
  {
    assert |KNOWN_NET_PATH| == 37 && |HOTSPOT_PATH| == 49;
  }

  lemma NetworkFixtureIsOrderly(u: Setup, n: Obj)
    requires n in Networks(u)
    ensures n.Network? && if n.security == "open" then n.known == "" else ValidPath(PathFor(n.name, n.security))
  {
    assert n.security == "psk" || n.security == "open";
    hide ValidPath, PathFor;
    RecognisedTypeMakesValidPath(n);
  }

  // ---------- the network the mock knows ----------

  function KnownNet(): Obj {
    Network(KNOWN_NET_AT, KNOWN_NET, false, STATION_DEVICE, "psk", KNOWN_NET_PATH, [KNOWN_NET_BSS])
  }

  lemma KnownNetPathIsValid()
    ensures ValidPath(KNOWN_NET_PATH)
  {
    RecognisedTypeMakesValidPath(KnownNet());
    KnownNetIsEncoded();
    hide Hex, ValidPath;
  }

  lemma PskNetworkDecodes(s: C.Server, name: string, device: string, known: string, bss: string)
    requires "Name" in s.props && s.props["Name"] == C.StringV(name) && "Connected" in s.props && s.props["Connected"].BoolV?
    requires "Device" in s.props && s.props["Device"] == C.PathV(device) && "Type" in s.props && s.props["Type"] == C.StringV("psk")
    requires "KnownNetwork" in s.props && s.props["KnownNetwork"] == C.PathV(known)
    requires "ExtendedServiceSet" in s.props && s.props["ExtendedServiceSet"] == C.PathsV([bss])
    requires ValidPath(device) && ValidPath(known) && ValidPath(bss)
    ensures C.NetworkSingles(s).Some?
  {
    hide ValidPath;
  }

  lemma KnownNetDecodes()
    ensures C.NetworkSingles(NetworkServer(NetworkProps(KnownNet()))).Some?
  {
    FixturePathsAreValid();
    KnownNetPathIsValid();
    assert |KNOWN_NET_PATH| == 37;
    hide ValidPath;
    ServerOf(KnownNet(), KNOWN_NET_BSS);
    hide NetworkProps, NetworkServer;
    PskNetworkDecodes(NetworkServer(NetworkProps(KnownNet())), AsString(KNOWN_NET), STATION_DEVICE, KNOWN_NET_PATH, KNOWN_NET_BSS);
  }

  lemma ServerOf(n: Obj, bss: string)
    requires n.Network? && n.known != "" && n.security == "psk" && n.ess == [bss]
    ensures var s := NetworkServer(NetworkProps(n));
      && "Name" in s.props && s.props["Name"] == C.StringV(AsString(n.name)) && "Connected" in s.props && s.props["Connected"].BoolV?
      && "Device" in s.props && s.props["Device"] == C.PathV(n.device) && "Type" in s.props && s.props["Type"] == C.StringV("psk")
      && "KnownNetwork" in s.props && s.props["KnownNetwork"] == C.PathV(n.known)
      && "ExtendedServiceSet" in s.props && s.props["ExtendedServiceSet"] == C.PathsV([bss])
  {
    NetworkServerHolds(NetworkProps(n));
    hide NetworkServer, AsString;
  }

  lemma NetworkFixturesAre(u: Setup, m: Obj)
    requires !u.omitNetwork && m in Networks(u)
    ensures m == KnownNet() || (m.Network? && m.path == OPEN_NET_AT && m.security == "open")
            || (m.Network? && m.path == SECURED_NET_AT && m.security == "psk")
  {
  }

  lemma NetworkFixturesAreThere(u: Setup)
    requires !u.omitNetwork
    ensures KnownNet() in Fixtures(u) && exists m :: m in Fixtures(u) && m.Network? && m.path == SECURED_NET_AT && m.security == "psk"
  {
    var known, secured := Networks(u)[0], Networks(u)[2];
    assert known == KnownNet() && known in Networks(u) && secured in Networks(u);
    PartsAreIn(u, known);
    PartsAreIn(u, secured);
    hide Fixtures;
    assert secured.path == SECURED_NET_AT;
  }

  lemma FixturePathsDiffer()
    ensures KNOWN_NET_AT != SECURED_NET_AT && KNOWN_NET_AT != OPEN_NET_AT
  {
    assert |KNOWN_NET_AT| == 41 && |OPEN_NET_AT| == 40 && |SECURED_NET_AT| == 45;
  }

  /**
   * The subscription to the network the mock knows ends, over every run, at the link the next bulk read
   * returns, if and only if the secured network does not reach the handler.
   */
  lemma KnownNetFollowsExactlyWhen(u: Setup, heard: set<string>)
    requires !u.omitNetwork && !u.omitKnown && KNOWN_NET_AT in heard
    ensures (forall run: seq<Step> :: IsRun(u.flags, Start(Fixtures(u)), run) ==> LinkFollows(u.flags, Fixtures(u), run, heard, KNOWN_NET_AT))
      <==> SECURED_NET_AT !in heard
  {
    hide Fixtures, Networks, WellFormed, Orderly, LinkFollows, IsRun, C.NetworkSingles, NetworkServer, NetworkProps;
    FixturesWellFormed(u);
    FixturesOrderlyExactlyWhen(u);
    NetworkFixturesAreThere(u);
    FixturePathsDiffer();
    KnownNetDecodes();
    KnownNetworkFollowsEveryRunExactlyWhen(u.flags, Fixtures(u), heard, KnownNet());
    OthersAreOpenExactlyWhen(u, heard);
  }

  lemma OthersAreOpenExactlyWhen(u: Setup, heard: set<string>)
    requires !u.omitNetwork
    ensures OthersOpen(Fixtures(u), heard, KNOWN_NET_AT) <==> SECURED_NET_AT !in heard
  {
    hide Fixtures, Networks;
    NetworkFixturesAreThere(u);
    FixturePathsDiffer();
    forall m | m in Fixtures(u) && m.Network? ensures m == KnownNet() || (m.path == OPEN_NET_AT && m.security == "open")
        || (m.path == SECURED_NET_AT && m.security == "psk")
    {
      FixtureKinds(u, m);
      NetworkFixturesAre(u, m);
    }
  }
}

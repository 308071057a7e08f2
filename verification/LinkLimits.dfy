/**
 * Runs that part a KnownNetwork subscription from its network, where another network that can be
 * linked reaches the handler, and with them the exact condition under which every run keeps the two together.
 */
module LinkLimits {
  import opened Common
  import opened DBusNames
  import opened KnownNetworkPaths
  import opened ObjectTree
  import opened TreeReplay
  import opened TreeRuns
  import opened ClientView
  import opened ClientSubscriptions
  import opened SubscriptionRuns
  import opened LinkSubscription
  import C = ClientReads

  /**
   * A tree whose links make sense: they name exported known networks, open networks have none, and the
   * path a first connection would give a network is one the client accepts.
   */
  ghost predicate Orderly(objs: seq<Obj>) {
    && LinksResolve(objs) && KnownsHavePaths(objs)
    && forall n :: n in objs && n.Network? ==>
         if n.security == "open" then n.known == "" else ValidPath(PathFor(n.name, n.security))
  }

  /** Types the client recognises make such paths. */
  lemma RecognisedTypeMakesValidPath(n: Obj)
    requires n.Network? && C.ParseNetworkType(C.StringV(n.security)).Ok?
    ensures ValidPath(PathFor(n.name, n.security))
  {
    RecognisedTypesAreNames(n.security);
    PlainPathIsValidExactlyWhen(n.name, n.security);
    hide PathFor, ValidPath, AllNameChars;
  }

  lemma RecognisedTypesAreNames(security: string)
    requires C.ParseNetworkType(C.StringV(security)).Ok?
    ensures AllNameChars(security) && '/' !in security
  {
    assert security == "open" || security == "wep" || security == "psk" || security == "8021x" || security == "hotspot";
  }

  // ---------- what a first connection leaves in the subscription ----------

  lemma NewLinkHeard(held: Option<string>, path: string)
    requires ValidPath(path) && path != "/"
    ensures LinkHeard(held, [EventOf(INetwork, map[KKnownNetwork := Path(path)], [])]) == Some(path)
  {
    var changed: Props := map[KKnownNetwork := Path(path)];
    var ev := EventOf(INetwork, changed, []);
    NetworkServerHolds(changed);
    assert [ev][1..] == [];
    assert path != "";
    hide NetworkServer, ValidPath;
    assert "KnownNetwork" in ev.changed && ev.changed["KnownNetwork"] == C.PathV(path);
    assert C.Hear(C.KnownNetworkChanged(), held, ev) == Some(path);
    hide C.KnownNetworkChanged, C.Hear;
    assert C.HearAll(C.KnownNetworkChanged(), held, [ev]) == C.HearAll(C.KnownNetworkChanged(), Some(path), []);
  }

  /** Whatever it held before, after the first connection of a network it hears it holds that network's link. */
  lemma FirstConnectionHeard(objs: seq<Obj>, j: nat, heard: set<string>, held: Option<string>)
    requires j < |objs| && objs[j].Network? && objs[j].path in heard && objs[j].known == "" && objs[j].security != "open"
    requires ValidPath(PathFor(objs[j].name, objs[j].security))
    ensures LinkHeard(held, Heard(INetwork, heard, ConnectNetwork(objs, j, RightPassphrase).signals))
      == Some(PathFor(objs[j].name, objs[j].security))
  {
    var path := PathFor(objs[j].name, objs[j].security);
    PathEndsInElement(objs[j].name, objs[j].security);
    assert path != "/";
    var link, done := [EventOf(INetwork, map[KKnownNetwork := Path(path)], [])], [EventOf(INetwork, map[KConnected := Bool(true)], [])];
    ConnectHeard(objs, j, RightPassphrase, heard);
    hide EventOf, Heard, PathFor, ValidPath;
    C.HearInTwo(C.KnownNetworkChanged(), held, link, done);
    hide C.HearAll;
    NewLinkHeard(held, path);
    ConnectionIsNoLink(Some(path));
  }

  /** A step by which the subscription to `n` ends at a link that `n` does not have. */
  ghost predicate Misleads(f: Flags, s: State, step: Step, heard: set<string>, n: Obj, held: Option<string>)
    requires Enabled(s, step) && n.Network?
  {
    && n in Apply(f, s, step).objs
    && var now := LinkHeard(held, Heard(INetwork, heard, Perform(f, s.objs, step.i, step.call).signals));
       now.Some? && now.value != n.known
  }

  lemma FirstConnectionMisleads(f: Flags, s: State, j: nat, heard: set<string>, n: Obj, held: Option<string>)
    requires WellFormed(s.objs) && Orderly(s.objs) && n in s.objs && n.Network?
    requires j < |s.objs| && s.objs[j].Network? && s.objs[j].path in heard && s.objs[j].path != n.path
    requires s.objs[j].known == "" && s.objs[j].security != "open"
    ensures var step := Step(j, Connect(RightPassphrase)); Enabled(s, step) && Misleads(f, s, step, heard, n, held)
  {
    var m, step := s.objs[j], Step(j, Connect(RightPassphrase));
    FirstConnectionHeard(s.objs, j, heard, held);
    NetworkMoves(f, s, step, n);
    LinkIsAnothers(s.objs, m, n);
    hide WellFormed, Orderly, ConnectNetwork, Apply, LinkHeard, PathFor;
  }

  /** The path that a first connection gives a network is no other network's link. */
  lemma LinkIsAnothers(objs: seq<Obj>, m: Obj, n: Obj)
    requires WellFormed(objs) && LinksResolve(objs) && m in objs && n in objs && m.Network? && n.Network? && m.known == ""
    ensures n.known != PathFor(m.name, m.security)
  {
    ProvisionedPathIsFree(objs, m);
    ProvisionedHasPath(m);
    hide WellFormed, PathFor;
    if n.known != "" { var k :| k in objs && k.Known? && k.path == n.known; }
  }

  // ---------- forgetting first ----------

  lemma OrderlyAfterForget(f: Flags, s: State, i: nat)
    requires WellFormed(s.objs) && Orderly(s.objs) && i < |s.objs| && s.objs[i].Known?
    ensures Orderly(Apply(f, s, Step(i, Forget)).objs)
  {
    var step := Step(i, Forget);
    StepKeepsLinks(f, s, step);
    PathsStay(f, s, step);
    forall m | m in Apply(f, s, step).objs && m.Network?
      ensures if m.security == "open" then m.known == "" else ValidPath(PathFor(m.name, m.security))
    {
      var n := NetworkComesFrom(f, s, step, m);
      hide Apply, WellFormed, PathFor, ValidPath;
    }
    hide Apply, WellFormed, PathFor, ValidPath;
  }

  /** Forgetting the link of a network leaves that network unlinked in the tree. */
  lemma ForgottenThere(f: Flags, s: State, i: nat, m: Obj) returns (j: nat)
    requires WellFormed(s.objs) && i < |s.objs| && s.objs[i].Known? && m in s.objs && m.Network? && m.known == s.objs[i].path
    ensures var after := Apply(f, s, Step(i, Forget)).objs; j < |after| && after[j] == m.(known := "")
  {
    ForgetMovesNetwork(s.objs, i, m);
    hide ForgetKnown, WellFormed;
    var after := Apply(f, s, Step(i, Forget)).objs;
    assert m.(known := "") in after;
    j :| 0 <= j < |after| && after[j] == m.(known := "");
  }

  // ---------- over every run ----------

  /** After the run the subscription, started from a bulk read, holds the link the next bulk read returns. */
  ghost predicate LinkFollows(f: Flags, objs: seq<Obj>, run: seq<Step>, heard: set<string>, path: string)
    requires IsRun(f, Start(objs), run)
  {
    var start, end := NetworkAt(Snapshot(objs), path), NetworkAt(Snapshot(Exec(f, Start(objs), run).objs), path);
    start.Some? && start.value.Some? && end.Some? && end.value.Some? ==>
      LinkHeard(start.value.value.known, Heard(INetwork, heard, Said(f, Start(objs), run))) == end.value.value.known
  }

  lemma LinkReads(n: Obj)
    requires n.Network?
    ensures Read(INetwork, KKnownNetwork, NetworkProps(n)) == if n.known == "" then None else Some(Path(n.known))
  {
  }

  lemma LinkParses(p: string)
    ensures var r := FromRead(C.KnownNetworkChanged(), Some(Path(p))); r.Ok? ==> r.value == None || r.value == Some(p)
    ensures FromRead(C.KnownNetworkChanged(), None) == Ok(None)
  {
  }

  /** What a bulk read makes of a link. */
  lemma LinkDecodes(n: Obj)
    requires n.Network? && C.NetworkSingles(NetworkServer(NetworkProps(n))).Some?
    ensures var known := C.NetworkSingles(NetworkServer(NetworkProps(n))).value.known; known == None || known == Some(n.known)
  {
    var props := NetworkProps(n);
    LinkReads(n);
    LinkParses(n.known);
    hide NetworkProps, Read, FromRead, C.NetworkSingles, NetworkServer, Entries, C.KnownNetworkChanged, C.Fresh;
    LinkIsFresh(props);
    KnownNetworkSubscriptionReads();
    assert C.Fresh(C.KnownNetworkChanged(), Entries(INetwork, props)) == FromRead(C.KnownNetworkChanged(), Read(INetwork, KKnownNetwork, props));
  }

  /** An unlinked network decodes if the linked one did. */
  lemma EntryAlike(s: C.Server, t: C.Server, a: Props, b: Props, key: Key, name: string)
    requires Holds(s, a, key, name) && Holds(t, b, key, name) && (key in a <==> key in b) && (key in a && key in b ==> a[key] == b[key])
    ensures SameEntry(s, t, name)
  {
    hide AsValue;
  }

  lemma UnlinkedDecodes(n: Obj)
    requires n.Network? && C.NetworkSingles(NetworkServer(NetworkProps(n))).Some?
    ensures C.NetworkSingles(NetworkServer(NetworkProps(n.(known := "")))).Some?
  {
    var a, b := NetworkProps(n), NetworkProps(n.(known := ""));
    var s, t := NetworkServer(a), NetworkServer(b);
    NetworkServerHolds(a);
    NetworkServerHolds(b);
    OnlyTheLinkDiffers(n);
    assert "KnownNetwork" !in t.props && t.worded == s.worded == C.NETWORK_OPTIONALS;
    hide NetworkProps, NetworkServer, Holds, SameEntry, C.NetworkSingles;
    EntryAlike(s, t, a, b, KName, "Name");
    EntryAlike(s, t, a, b, KConnected, "Connected");
    EntryAlike(s, t, a, b, KDevice, "Device");
    EntryAlike(s, t, a, b, KType, "Type");
    EntryAlike(s, t, a, b, KExtendedServiceSet, "ExtendedServiceSet");
    UnlinkedServerDecodes(s, t);
  }

  lemma OnlyTheLinkDiffers(n: Obj)
    requires n.Network?
    ensures var a, b := NetworkProps(n), NetworkProps(n.(known := ""));
      && KKnownNetwork !in b
      && forall k: Key :: k != KKnownNetwork ==> (k in a <==> k in b) && (k in a && k in b ==> a[k] == b[k])
  {
  }

  lemma UnlinkedServerDecodes(s: C.Server, t: C.Server)
    requires C.NetworkSingles(s).Some? && t.worded == s.worded == C.NETWORK_OPTIONALS && "KnownNetwork" !in t.props
    requires SameEntry(s, t, "Name") && SameEntry(s, t, "Connected") && SameEntry(s, t, "Device")
    requires SameEntry(s, t, "Type") && SameEntry(s, t, "ExtendedServiceSet")
    ensures C.NetworkSingles(t).Some?
  {
    assert "KnownNetwork" in C.NETWORK_OPTIONALS;
    hide C.ParsePath, C.ParseNetworkType, C.ParsePathList, C.ParseOptionalPath, C.ParseName;
  }

  /** What the subscription to `n` holds after a run from the start. */
  ghost function HeldAfter(f: Flags, objs: seq<Obj>, run: seq<Step>, heard: set<string>, n: Obj): Option<string>
    requires IsRun(f, Start(objs), run) && n.Network? && C.NetworkSingles(NetworkServer(NetworkProps(n))).Some?
  {
    LinkHeard(C.NetworkSingles(NetworkServer(NetworkProps(n))).value.known, Heard(INetwork, heard, Said(f, Start(objs), run)))
  }

  /** From the state `t` that a run leads to, a misleading step makes the whole run one after which the two differ. */
  lemma MisledRun(f: Flags, objs: seq<Obj>, first: seq<Step>, t: State, step: Step, heard: set<string>, n: Obj, m: Obj)
    requires WellFormed(objs) && n in objs && n.Network? && C.NetworkSingles(NetworkServer(NetworkProps(n))).Some?
    requires IsRun(f, Start(objs), first) && Exec(f, Start(objs), first) == t && Enabled(t, step)
    requires m.Network? && m.path == n.path && C.NetworkSingles(NetworkServer(NetworkProps(m))).Some?
    requires Misleads(f, t, step, heard, m, HeldAfter(f, objs, first, heard, n))
    ensures IsRun(f, Start(objs), first + [step]) && !LinkFollows(f, objs, first + [step], heard, n.path)
  {
    hide WellFormed, Snapshot, Heard, C.NetworkSingles, NetworkServer, NetworkProps, NetworkAt, LinkHeard, Perform, Callable, Apply;
    var s, run := Start(objs), first + [step];
    RunExtends(f, s, first, step);
    SaidExtends(f, s, first, step);
    NetworkDecodes(objs, n);
    RunKeepsWellFormed(f, s, run);
    NetworkDecodes(Exec(f, s, run).objs, m);
    LinkDecodes(m);
    var held := C.NetworkSingles(NetworkServer(NetworkProps(n))).value.known;
    HeardOneMore(held, heard, Said(f, s, first), Perform(f, t.objs, step.i, step.call).signals);
  }

  lemma HeardOneMore(held: Option<string>, heard: set<string>, first: seq<Signal>, second: seq<Signal>)
    ensures LinkHeard(held, Heard(INetwork, heard, first + second)) ==
      LinkHeard(LinkHeard(held, Heard(INetwork, heard, first)), Heard(INetwork, heard, second))
  {
    HeardInTwo(INetwork, heard, first, second);
    C.HearInTwo(C.KnownNetworkChanged(), held, Heard(INetwork, heard, first), Heard(INetwork, heard, second));
    hide Heard, C.HearAll;
  }

  lemma {:induction false} SaidExtends(f: Flags, s: State, run: seq<Step>, step: Step)
    requires IsRun(f, s, run) && Enabled(Exec(f, s, run), step)
    ensures IsRun(f, s, run + [step])
    ensures Said(f, s, run + [step]) == Said(f, s, run) + Perform(f, Exec(f, s, run).objs, step.i, step.call).signals
    decreases |run|
  {
    hide Apply, Perform, Callable;
    RunExtends(f, s, run, step);
    if run == [] {
      assert [] + [step] == [step] && [step][1..] == [];
    } else {
      assert (run + [step])[1..] == run[1..] + [step];
      SaidExtends(f, Apply(f, s, run[0]), run[1..], step);
    }
  }

  /** Another network that is not open misleads: by its first connection, or by one after its link is forgotten. */
  lemma ForeignNetworkMisleads(f: Flags, objs: seq<Obj>, j: nat, heard: set<string>, n: Obj) returns (run: seq<Step>)
    requires WellFormed(objs) && Orderly(objs) && n in objs && n.Network? && C.NetworkSingles(NetworkServer(NetworkProps(n))).Some?
    requires j < |objs| && objs[j].Network? && objs[j].path in heard && objs[j].path != n.path && objs[j].security != "open"
    ensures IsRun(f, Start(objs), run) && !LinkFollows(f, objs, run, heard, n.path)
    ensures |run| <= 2
  {
    hide WellFormed, Orderly, LinkFollows, Misleads, C.NetworkSingles, NetworkServer, NetworkProps, HeldAfter;
    if objs[j].known == "" {
      var step := Step(j, Connect(RightPassphrase));
      FirstConnectionMisleads(f, Start(objs), j, heard, n, HeldAfter(f, objs, [], heard, n));
      MisledRun(f, objs, [], Start(objs), step, heard, n, n);
      run := [] + [step];
    } else {
      run := ForgetThenConnect(f, objs, j, heard, n);
    }
  }

  /** The network that lost its link makes a first connection, in the state after the Forget. */
  lemma ConnectAfterForget(f: Flags, s: State, i: nat, m: Obj, heard: set<string>, n: Obj, held: Option<string>) returns (step: Step)
    requires WellFormed(s.objs) && Orderly(s.objs) && n in s.objs && n.Network? && i < |s.objs| && s.objs[i].Known?
    requires m in s.objs && m.Network? && m.path in heard && m.path != n.path && m.security != "open" && m.known == s.objs[i].path
    ensures var next, after := Apply(f, s, Step(i, Forget)), UnlinkOne(n, s.objs[i].path);
      after.Network? && after.path == n.path && Enabled(next, step) && Misleads(f, next, step, heard, after, held)
  {
    hide WellFormed, Orderly, Misleads, Apply, LinkHeard;
    var forget := Step(i, Forget);
    PerformKeepsWellFormedStep(f, s, forget);
    OrderlyAfterForget(f, s, i);
    NetworkMoves(f, s, forget, n);
    var at := ForgottenThere(f, s, i, m);
    step := Step(at, Connect(RightPassphrase));
    FirstConnectionMisleads(f, Apply(f, s, forget), at, heard, UnlinkOne(n, s.objs[i].path), held);
  }

  lemma ForgetThenConnect(f: Flags, objs: seq<Obj>, j: nat, heard: set<string>, n: Obj) returns (run: seq<Step>)
    requires WellFormed(objs) && Orderly(objs) && n in objs && n.Network? && C.NetworkSingles(NetworkServer(NetworkProps(n))).Some?
    requires j < |objs| && objs[j].Network? && objs[j].path in heard && objs[j].path != n.path
    requires objs[j].security != "open" && objs[j].known != ""
    ensures IsRun(f, Start(objs), run) && !LinkFollows(f, objs, run, heard, n.path)
    ensures |run| <= 2
  {
    var i := LinkedAt(objs, objs[j]);
    hide WellFormed, Orderly, LinkFollows, Misleads, C.NetworkSingles, NetworkServer, NetworkProps, HeldAfter, Apply, UnlinkOne, IsRun, Exec;
    hide LinksResolve, KnownsHavePaths, Callable;
    var forget := Step(i, Forget);
    var held, after := HeldAfterForget(f, objs, i, heard, n);
    var step := ConnectAfterForget(f, Start(objs), i, objs[j], heard, n, held);
    MisledRun(f, objs, [forget], Apply(f, Start(objs), forget), step, heard, n, after);
    run := [forget] + [step];
  }

  /** The Forget as a run of its own: what the subscription then holds, and what the network then is. */
  lemma HeldAfterForget(f: Flags, objs: seq<Obj>, i: nat, heard: set<string>, n: Obj) returns (held: Option<string>, after: Obj)
    requires i < |objs| && objs[i].Known? && n.Network? && C.NetworkSingles(NetworkServer(NetworkProps(n))).Some?
    ensures var s, forget := Start(objs), Step(i, Forget);
      && Enabled(s, forget) && IsRun(f, s, [forget]) && Exec(f, s, [forget]) == Apply(f, s, forget)
      && held == HeldAfter(f, objs, [forget], heard, n)
    ensures after == UnlinkOne(n, objs[i].path) && after.Network? && C.NetworkSingles(NetworkServer(NetworkProps(after))).Some?
  {
    after := UnlinkOne(n, objs[i].path);
    UnlinkedDecodes(n);
    RunOfOne(f, Start(objs), Step(i, Forget));
    hide C.NetworkSingles, NetworkServer, NetworkProps, HeldAfter, Apply, IsRun, Exec;
    held := HeldAfter(f, objs, [Step(i, Forget)], heard, n);
  }

  lemma LinkedAt(objs: seq<Obj>, m: Obj) returns (i: nat)
    requires LinksResolve(objs) && m in objs && m.Network? && m.known != ""
    ensures i < |objs| && objs[i].Known? && objs[i].path == m.known
  {
    assert Resolves(objs, m.known);
    var k :| k in objs && k.Known? && k.path == m.known;
    i :| 0 <= i < |objs| && objs[i] == k;
  }

  ghost predicate OthersOpen(objs: seq<Obj>, heard: set<string>, path: string) {
    forall m :: m in objs && m.Network? && m.path in heard && m.path != path ==> m.security == "open"
  }

  lemma OthersOpenFollows(f: Flags, objs: seq<Obj>, heard: set<string>, n: Obj, run: seq<Step>)
    requires WellFormed(objs) && Orderly(objs) && n in objs && n.Network? && n.path in heard && IsRun(f, Start(objs), run)
    requires OthersOpen(objs, heard, n.path)
    ensures LinkFollows(f, objs, run, heard, n.path)
  {
    assert Undistracted(objs, heard, n.path);
    hide WellFormed, Orderly, Undistracted, IsRun, Snapshot, NetworkAt, Heard, Said, Exec;
    KnownNetworkFollows(f, objs, run, heard, n);
  }

  /**
   * Over every run a KnownNetwork subscription ends at the link the next bulk read returns, if and only
   * if every other network that reaches the handler is open.
   */
  lemma KnownNetworkFollowsEveryRunExactlyWhen(f: Flags, objs: seq<Obj>, heard: set<string>, n: Obj)
    requires WellFormed(objs) && Orderly(objs) && n in objs && n.Network? && n.path in heard
    requires C.NetworkSingles(NetworkServer(NetworkProps(n))).Some?
    ensures (forall run: seq<Step> :: IsRun(f, Start(objs), run) ==> LinkFollows(f, objs, run, heard, n.path))
      <==> OthersOpen(objs, heard, n.path)
  {
    hide WellFormed, Orderly, LinkFollows, IsRun, C.NetworkSingles, NetworkServer, NetworkProps;
    if OthersOpen(objs, heard, n.path) {
      forall run: seq<Step> | IsRun(f, Start(objs), run) ensures LinkFollows(f, objs, run, heard, n.path) {
        OthersOpenFollows(f, objs, heard, n, run);
      }
    } else {
      var m :| m in objs && m.Network? && m.path in heard && m.path != n.path && m.security != "open";
      var j :| 0 <= j < |objs| && objs[j] == m;
      var run := ForeignNetworkMisleads(f, objs, j, heard, n);
    }
  }
}

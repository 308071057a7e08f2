/**
 * The KnownNetwork subscription of a network over the runs of the mock: first connections link the
 * network, Forget unlinks it by invalidation, and the subscription ends at the link a bulk read
 * decodes, unless another network that can be linked reaches the handler.
 */
module LinkSubscription {
  import opened Common
  import opened KnownNetworkPaths
  import opened ObjectTree
  import opened TreeReplay
  import opened TreeRuns
  import opened ClientView
  import opened ClientSubscriptions
  import opened SubscriptionRuns
  import C = ClientReads

  /** No known network lies at the empty path, which stands for no link. */
  ghost predicate KnownsHavePaths(objs: seq<Obj>) {
    forall k :: k in objs && k.Known? ==> k.path != ""
  }

  /** Every other network that reaches the handler is open and unlinked, which no call changes. */
  ghost predicate Undistracted(objs: seq<Obj>, heard: set<string>, path: string) {
    && path in heard
    && forall o :: o in objs && o.Network? && o.path in heard && o.path != path ==> o.security == "open" && o.known == "" && KnownsHavePaths(objs)
  }

  /** What becomes of a network in a step. */
  function Relinked(s: State, step: Step, n: Obj): Obj
    requires Enabled(s, step) && n.Network?
  {
    match step.call
    case Connect(answer) => if s.objs[step.i] == n then ConnectNetwork(s.objs, step.i, answer).objs[step.i] else n
    case Forget => UnlinkOne(n, s.objs[step.i].path)
    case _ => n
  }

  lemma ForgetMovesNetwork(objs: seq<Obj>, i: nat, n: Obj)
    requires WellFormed(objs) && i < |objs| && objs[i].Known? && n in objs && n.Network?
    ensures UnlinkOne(n, objs[i].path) in ForgetKnown(objs, i).objs
  {
    OneAtEachPathApart(objs, objs[i], n);
    StillThere(objs, i, n);
    hide Unlink, UnlinkSignals, UnlinkOne;
  }

  lemma ConnectMovesNetwork(objs: seq<Obj>, i: nat, answer: Answer, n: Obj)
    requires i < |objs| && objs[i].Network? && n in objs && n.Network?
    ensures var r := ConnectNetwork(objs, i, answer).objs;
      i < |r| && (if objs[i] == n then r[i] else n) in r && r[i].Network? && r[i].path == objs[i].path
  {
    hide Provisioned;
    var j :| 0 <= j < |objs| && objs[j] == n;
    var r := ConnectNetwork(objs, i, answer).objs;
    assert objs[i] != n ==> r[j] == n;
  }

  lemma NetworkMoves(f: Flags, s: State, step: Step, n: Obj)
    requires WellFormed(s.objs) && Enabled(s, step) && n in s.objs && n.Network?
    ensures var m := Relinked(s, step, n); m in Apply(f, s, step).objs && m.Network? && m.path == n.path
  {
    var o := s.objs[step.i];
    if step.call.Forget? {
      ForgetMovesNetwork(s.objs, step.i, n);
      hide ForgetKnown, WellFormed;
    } else if step.call.Connect? {
      ConnectMovesNetwork(s.objs, step.i, step.call.answer, n);
      hide ConnectNetwork, WellFormed;
    } else {
      hide CallOne, WellFormed;
      var j :| 0 <= j < |s.objs| && s.objs[j] == n;
      assert Apply(f, s, step).objs[j] == n;
    }
  }

  /** No step makes a network, or moves one. */
  lemma NetworkComesFrom(f: Flags, s: State, step: Step, m: Obj) returns (n: Obj)
    requires WellFormed(s.objs) && Enabled(s, step) && m in Apply(f, s, step).objs && m.Network?
    ensures n in s.objs && n.Network? && n.path == m.path && m == Relinked(s, step, n)
  {
    var o := s.objs[step.i];
    if step.call.Forget? {
      ForgottenMembers(s.objs, step.i, m);
      n :| n in s.objs && n.path != o.path && m == UnlinkOne(n, o.path);
    } else if step.call.Connect? {
      n := ConnectedFrom(s.objs, step.i, step.call.answer, m);
      hide ConnectNetwork;
    } else {
      CallConfined(f, o, step.call);
      hide CallOne;
      n := m;
    }
  }

  lemma ConnectedFrom(objs: seq<Obj>, i: nat, answer: Answer, m: Obj) returns (n: Obj)
    requires WellFormed(objs) && i < |objs| && objs[i].Network? && m in ConnectNetwork(objs, i, answer).objs && m.Network?
    ensures n in objs && n.Network? && n.path == m.path && m == if objs[i] == n then ConnectNetwork(objs, i, answer).objs[i] else n
  {
    hide PathFor;
    var r := ConnectNetwork(objs, i, answer).objs;
    var j :| 0 <= j < |r| && r[j] == m;
    n := objs[j];
  }

  lemma KnownComesFrom(f: Flags, s: State, step: Step, k: Obj)
    requires WellFormed(s.objs) && Enabled(s, step) && k in Apply(f, s, step).objs && k.Known?
    ensures (exists b :: b in s.objs && b.Known? && b.path == k.path) || exists n :: n in s.objs && n.Network? && k == Provisioned(n)
  {
    var o := s.objs[step.i];
    if step.call.Forget? {
      ForgottenMembers(s.objs, step.i, k);
      var b :| b in s.objs && b.path != o.path && k == UnlinkOne(b, o.path);
      assert b.Known? && b.path == k.path;
    } else if step.call.Connect? {
      hide PathFor;
      assert k in s.objs || k == Provisioned(o);
    } else {
      CallConfined(f, o, step.call);
      hide CallOne;
      assert k in s.objs || k == CallOne(f, o, step.call).obj;
    }
  }

  lemma PathsStay(f: Flags, s: State, step: Step)
    requires WellFormed(s.objs) && Enabled(s, step) && KnownsHavePaths(s.objs)
    ensures KnownsHavePaths(Apply(f, s, step).objs)
  {
    forall k | k in Apply(f, s, step).objs && k.Known? ensures k.path != "" {
      KnownComesFrom(f, s, step, k);
      forall n | n in s.objs && n.Network? ensures Provisioned(n).path != "" { ProvisionedHasPath(n); }
      hide Apply, WellFormed, Provisioned;
    }
  }

  lemma UndistractedStays(f: Flags, s: State, step: Step, heard: set<string>, path: string)
    requires WellFormed(s.objs) && Enabled(s, step) && Undistracted(s.objs, heard, path)
    ensures Undistracted(Apply(f, s, step).objs, heard, path)
  {
    forall m | m in Apply(f, s, step).objs && m.Network? && m.path in heard && m.path != path
      ensures m.security == "open" && m.known == "" && KnownsHavePaths(Apply(f, s, step).objs)
    {
      var n := NetworkComesFrom(f, s, step, m);
      PathsStay(f, s, step);
      OpenStaysUnlinked(s, step, n);
      hide Apply, WellFormed, Relinked;
    }
  }

  lemma OpenStaysUnlinked(s: State, step: Step, n: Obj)
    requires Enabled(s, step) && n.Network? && n.security == "open" && n.known == ""
    ensures var m := Relinked(s, step, n); m.Network? && m.security == "open" && m.known == ""
  {
  }

  // ---------- what the calls say ----------

  lemma UnlinkHeard(o: Obj, heard: set<string>)
    ensures Heard(INetwork, heard, [UnlinkSignal(o)]) == if o.path in heard then [EventOf(INetwork, map[], [KKnownNetwork])] else []
  {
    if o.path in heard { HeardOne(INetwork, heard, UnlinkSignal(o)); } else { HeardNothing(INetwork, heard, [UnlinkSignal(o)]); }
    hide EventOf;
  }

  /** The links taken away by Forget, as the handler hears of them: its own network's, if it had the link. */
  lemma {:induction false} UnlinksHeard(objs: seq<Obj>, known: string, heard: set<string>, path: string)
    requires Distinct(objs) && path in heard
    requires forall o :: o in objs && o.Network? && o.path in heard && o.path != path ==> o.known != known
    ensures var o := ObjAt(objs, path);
      Heard(INetwork, heard, UnlinkSignals(objs, known)) ==
      if o.Some? && o.value.Network? && o.value.known == known then [EventOf(INetwork, map[], [KKnownNetwork])] else []
  {
    hide EventOf, Heard, UnlinkSignal;
    if objs == [] {
      HeardNothing(INetwork, heard, []);
    } else {
      var front, last := objs[..|objs| - 1], objs[|objs| - 1];
      assert forall i :: 0 <= i < |front| ==> front[i] == objs[i];
      UnlinksHeard(front, known, heard, path);
      LastIsNew(objs);
      if last.Network? && last.known == known {
        assert UnlinkSignals(objs, known) == UnlinkSignals(front, known) + [UnlinkSignal(last)];
        HeardInTwo(INetwork, heard, UnlinkSignals(front, known), [UnlinkSignal(last)]);
        UnlinkHeard(last, heard);
      } else {
        assert UnlinkSignals(objs, known) == UnlinkSignals(front, known);
      }
    }
  }

  lemma ForgetHeard(objs: seq<Obj>, i: nat, heard: set<string>, n: Obj)
    requires WellFormed(objs) && i < |objs| && objs[i].Known? && n in objs && n.Network? && Undistracted(objs, heard, n.path)
    ensures Heard(INetwork, heard, ForgetKnown(objs, i).signals) ==
      if n.known == objs[i].path then [EventOf(INetwork, map[], [KKnownNetwork])] else []
  {
    var gone := Removed(objs[i].path, [IKnown]);
    ShownAt(objs, n);
    assert forall o :: o in objs && o.Network? && o.path in heard && o.path != n.path ==> o.known != objs[i].path;
    UnlinksHeard(objs, objs[i].path, heard, n.path);
    HeardInTwo(INetwork, heard, UnlinkSignals(objs, objs[i].path), [gone]);
    HeardNothing(INetwork, heard, [gone]);
    hide EventOf, Heard, UnlinkSignals;
  }

  lemma OtherCallsSilent(f: Flags, o: Obj, call: Call)
    requires Callable(o, call) && OneObjectCall(call)
    ensures SilentOn(INetwork, CallOne(f, o, call).signals)
  {
    hide SetDevice, SetOther;
    if call.Set? { SetsSilent(f, o, call.iface, call.key, call.value); }
  }

  lemma SetsSilent(f: Flags, o: Obj, iface: Iface, key: Key, v: Variant)
    requires o.Adapter? || o.Device? || o.Known?
    ensures SilentOn(INetwork, (if o.Device? then SetDevice(f, o, iface, key, v) else SetOther(o, iface, key, v)).signals)
  {
    hide LostIfaces, GainedIfaces, Carried, GainedExports;
  }

  /** The signals of Connect, as the handler of that network hears them: the new link, if any, and then the connection. */
  lemma ConnectHeard(objs: seq<Obj>, i: nat, answer: Answer, heard: set<string>)
    requires i < |objs| && objs[i].Network? && objs[i].path in heard
    ensures var n, r := objs[i], ConnectNetwork(objs, i, answer);
      var done := EventOf(INetwork, map[KConnected := Bool(true)], []);
      Heard(INetwork, heard, r.signals) ==
      if r.outcome != Done then []
      else if n.known == "" && n.security != "open" then [EventOf(INetwork, map[KKnownNetwork := Path(Provisioned(n).path)], [])] + [done]
      else [done]
  {
    var n, r := objs[i], ConnectNetwork(objs, i, answer);
    hide EventOf, Provisioned;
    if r.outcome == Done {
      var said := Changed(n.path, INetwork, map[KConnected := Bool(true)], []);
      HeardOne(INetwork, heard, said);
      if n.known == "" && n.security != "open" {
        var k := Provisioned(n);
        var a, b := Added(k.path, IfacesOf(k)), Changed(n.path, INetwork, map[KKnownNetwork := Path(k.path)], []);
        assert r.signals == [a] + ([b] + [said]);
        HeardNothing(INetwork, heard, [a]);
        HeardOne(INetwork, heard, b);
        HeardInTwo(INetwork, heard, [a], [b] + [said]);
        HeardInTwo(INetwork, heard, [b], [said]);
        hide Heard;
      }
    }
  }

  ghost predicate LinkAgrees(held: Option<string>, n: Obj) {
    n.Network? && C.Agrees(C.KnownNetworkChanged(), held, Entries(INetwork, NetworkProps(n)))
  }

  function LinkHeard(held: Option<string>, events: seq<C.Event>): Option<string> {
    C.HearAll(C.KnownNetworkChanged(), held, events)
  }

  lemma OneChangeAgrees(n: Obj, m: Obj, changed: Props, invalidated: seq<Key>, held: Option<string>)
    requires LinkAgrees(held, n) && m.Network? && Announces(INetwork, NetworkProps(n), NetworkProps(m), changed, invalidated)
    ensures LinkAgrees(LinkHeard(held, [EventOf(INetwork, changed, invalidated)]), m)
  {
    KnownNetworkSubscriptionReads();
    ToldIsHeard(C.KnownNetworkChanged(), KKnownNetwork, held, INetwork, NetworkProps(n), NetworkProps(m), [EventOf(INetwork, changed, invalidated)]);
    hide C.KnownNetworkChanged, Reads, Announces, C.Agrees, Entries, NetworkProps, EventOf, C.HearAll;
  }

  lemma ProvisionAgrees(n: Obj, path: string, held: Option<string>)
    requires n.Network? && path != "" && LinkAgrees(held, n)
    ensures LinkAgrees(LinkHeard(held, [EventOf(INetwork, map[KKnownNetwork := Path(path)], [])] + [EventOf(INetwork, map[KConnected := Bool(true)], [])]),
                       n.(known := path, connected := true))
  {
    var linked := n.(known := path);
    var said, done := [EventOf(INetwork, map[KKnownNetwork := Path(path)], [])], [EventOf(INetwork, map[KConnected := Bool(true)], [])];
    NetworkAnnounced(n, path);
    NetworkAnnounced(linked, path);
    C.HearInTwo(C.KnownNetworkChanged(), held, said, done);
    hide LinkAgrees, Announces, NetworkProps, EventOf, C.HearAll;
    OneChangeAgrees(n, linked, map[KKnownNetwork := Path(path)], [], held);
    OneChangeAgrees(linked, linked.(connected := true), map[KConnected := Bool(true)], [], LinkHeard(held, said));
  }

  lemma ConnectAgrees(objs: seq<Obj>, i: nat, answer: Answer, heard: set<string>, held: Option<string>)
    requires i < |objs| && objs[i].Network? && objs[i].path in heard && LinkAgrees(held, objs[i])
    ensures var r := ConnectNetwork(objs, i, answer);
      |r.objs| >= |objs| && LinkAgrees(LinkHeard(held, Heard(INetwork, heard, r.signals)), r.objs[i])
  {
    var n, r := objs[i], ConnectNetwork(objs, i, answer);
    ConnectHeard(objs, i, answer, heard);
    NothingLinked(held);
    if r.outcome == Done {
      if n.known == "" && n.security != "open" {
        ProvisionAgrees(n, Provisioned(n).path, held);
      } else {
        NetworkAnnounced(n, "/");
        OneChangeAgrees(n, n.(connected := true), map[KConnected := Bool(true)], [], held);
      }
    }
    hide LinkAgrees, LinkHeard, Announces, NetworkProps, EventOf, Heard, IfacesOf, Hex;
  }

  lemma NothingLinked(held: Option<string>)
    ensures LinkHeard(held, []) == held
  {
  }

  lemma ForgetAgrees(objs: seq<Obj>, i: nat, heard: set<string>, n: Obj, held: Option<string>)
    requires WellFormed(objs) && i < |objs| && objs[i].Known? && n in objs && n.Network? && Undistracted(objs, heard, n.path)
    requires LinkAgrees(held, n)
    ensures LinkAgrees(LinkHeard(held, Heard(INetwork, heard, ForgetKnown(objs, i).signals)), UnlinkOne(n, objs[i].path))
  {
    ForgetHeard(objs, i, heard, n);
    NothingLinked(held);
    NetworkAnnounced(n, "/");
    OneChangeAgreesIf(n, held);
    hide WellFormed, LinkAgrees, LinkHeard, NetworkProps, EventOf, Heard, ForgetKnown;
  }

  lemma OneChangeAgreesIf(n: Obj, held: Option<string>)
    requires n.Network? && LinkAgrees(held, n)
    ensures LinkAgrees(LinkHeard(held, [EventOf(INetwork, map[], [KKnownNetwork])]), n.(known := ""))
  {
    NetworkAnnounced(n, "/");
    OneChangeAgrees(n, n.(known := ""), map[], [KKnownNetwork], held);
    hide LinkAgrees, LinkHeard, NetworkProps, EventOf;
  }

  lemma OthersConnectUnheard(objs: seq<Obj>, i: nat, answer: Answer, heard: set<string>)
    requires i < |objs| && objs[i].Network? && objs[i].path !in heard
    ensures Heard(INetwork, heard, ConnectNetwork(objs, i, answer).signals) == []
  {
    hide Provisioned, IfacesOf;
    HeardNothing(INetwork, heard, ConnectNetwork(objs, i, answer).signals);
  }

  /** A connection alone is no news of a link. */
  lemma ConnectionIsNoLink(held: Option<string>)
    ensures LinkHeard(held, [EventOf(INetwork, map[KConnected := Bool(true)], [])]) == held
  {
    var changed: Props := map[KConnected := Bool(true)];
    var ev := EventOf(INetwork, changed, []);
    KnownNetworkSubscriptionReads();
    assert C.KnownNetworkChanged().name in Entries(INetwork, changed) <==> KKnownNetwork in changed;
    assert C.Hear(C.KnownNetworkChanged(), held, ev) == held;
    assert [ev][1..] == [];
    hide Entries;
  }

  /** Nor is anything that another network says, while it is open. */
  lemma OpenConnectIsNoLink(objs: seq<Obj>, i: nat, answer: Answer, heard: set<string>, held: Option<string>)
    requires i < |objs| && objs[i].Network? && (objs[i].path in heard ==> objs[i].security == "open")
    ensures LinkHeard(held, Heard(INetwork, heard, ConnectNetwork(objs, i, answer).signals)) == held
  {
    NothingLinked(held);
    ConnectionIsNoLink(held);
    if objs[i].path in heard { ConnectHeard(objs, i, answer, heard); } else { OthersConnectUnheard(objs, i, answer, heard); }
    hide LinkHeard, EventOf, Heard, Provisioned;
  }

  lemma NetworkHeldOverStep(f: Flags, s: State, step: Step, heard: set<string>, n: Obj, held: Option<string>)
    requires WellFormed(s.objs) && Enabled(s, step) && n in s.objs && n.Network? && Undistracted(s.objs, heard, n.path) && LinkAgrees(held, n)
    ensures LinkAgrees(LinkHeard(held, Heard(INetwork, heard, Perform(f, s.objs, step.i, step.call).signals)), Relinked(s, step, n))
  {
    hide WellFormed, LinkAgrees, LinkHeard, Heard, CallOne, ForgetKnown, ConnectNetwork;
    var o := s.objs[step.i];
    NothingLinked(held);
    if step.call.Forget? {
      ForgetAgrees(s.objs, step.i, heard, n, held);
    } else if step.call.Connect? && o == n {
      ConnectAgrees(s.objs, step.i, step.call.answer, heard, held);
    } else if step.call.Connect? {
      OneAtEachPathApart(s.objs, o, n);
      OpenConnectIsNoLink(s.objs, step.i, step.call.answer, heard, held);
    } else {
      OtherCallsSilent(f, o, step.call);
      HeardNothing(INetwork, heard, CallOne(f, o, step.call).signals);
    }
  }

  // ---------- runs ----------

  lemma {:induction false} NetworkHeldOverRun(f: Flags, s: State, run: seq<Step>, heard: set<string>, n: Obj, held: Option<string>)
    requires WellFormed(s.objs) && IsRun(f, s, run) && n in s.objs && n.Network? && Undistracted(s.objs, heard, n.path) && LinkAgrees(held, n)
    ensures var o := ObjAt(Exec(f, s, run).objs, n.path);
      o.Some? && o.value.Network? && LinkAgrees(LinkHeard(held, Heard(INetwork, heard, Said(f, s, run))), o.value)
    decreases |run|
  {
    hide WellFormed, Undistracted, Callable, Apply, Perform, Relinked, LinkAgrees, C.HearAll;
    if run == [] {
      ShownAtWellFormed(s.objs, n);
      NothingLinked(held);
    } else {
      var step := run[0];
      var next := Apply(f, s, step);
      var signals, rest := Perform(f, s.objs, step.i, step.call).signals, Said(f, next, run[1..]);
      PerformKeepsWellFormedStep(f, s, step);
      NetworkMoves(f, s, step, n);
      UndistractedStays(f, s, step, heard, n.path);
      NetworkHeldOverStep(f, s, step, heard, n, held);
      HeardInTwo(INetwork, heard, signals, rest);
      C.HearInTwo(C.KnownNetworkChanged(), held, Heard(INetwork, heard, signals), Heard(INetwork, heard, rest));
      NetworkHeldOverRun(f, next, run[1..], heard, Relinked(s, step, n), LinkHeard(held, Heard(INetwork, heard, signals)));
    }
  }

  lemma NetworkDecodes(objs: seq<Obj>, n: Obj)
    requires WellFormed(objs) && n in objs && n.Network?
    ensures NetworkAt(Snapshot(objs), n.path) == Some(C.NetworkSingles(NetworkServer(NetworkProps(n))))
  {
    SnapshotShows(objs, n.path);
    ShownAt(objs, n);
    hide WellFormed, Snapshot, At, NetworkServer, NetworkProps, C.NetworkSingles;
  }

  lemma ServerLinkIsFresh(s: C.Server)
    requires C.NetworkSingles(s).Some? && s.worded == C.NETWORK_OPTIONALS
    ensures C.Fresh(C.KnownNetworkChanged(), s.props) == Ok(C.NetworkSingles(s).value.known)
  {
    assert "KnownNetwork" in C.NETWORK_OPTIONALS;
    hide C.ParsePath, C.ParseNetworkType, C.ParsePathList, C.ParseOptionalPath, C.ParseName;
  }

  lemma LinkIsFresh(props: Props)
    requires C.NetworkSingles(NetworkServer(props)).Some?
    ensures C.Fresh(C.KnownNetworkChanged(), Entries(INetwork, props)) == Ok(C.NetworkSingles(NetworkServer(props)).value.known)
  {
    hide Field, C.NetworkSingles, C.Fresh, C.KnownNetworkChanged;
    ServerLinkIsFresh(NetworkServer(props));
  }

  /**
   * After any run, a KnownNetwork subscription that started from a bulk read holds the link the next
   * bulk read decodes, if no other network that reaches the handler can be linked.
   */
  lemma KnownNetworkFollows(f: Flags, objs: seq<Obj>, run: seq<Step>, heard: set<string>, n: Obj)
    requires WellFormed(objs) && n in objs && n.Network? && IsRun(f, Start(objs), run) && Undistracted(objs, heard, n.path)
    ensures var start, end := NetworkAt(Snapshot(objs), n.path), NetworkAt(Snapshot(Exec(f, Start(objs), run).objs), n.path);
      && start.Some? && end.Some?
      && (start.value.Some? && end.value.Some? ==>
            C.HearAll(C.KnownNetworkChanged(), start.value.value.known, Heard(INetwork, heard, Said(f, Start(objs), run))) == end.value.value.known)
  {
    hide WellFormed, Undistracted, IsRun, Exec, Snapshot, NetworkAt, Said, Heard, C.HearAll, C.KnownNetworkChanged, C.NetworkSingles, Entries, NetworkServer, NetworkProps;
    var s := Start(objs);
    NetworkDecodes(objs, n);
    var read := C.NetworkSingles(NetworkServer(NetworkProps(n)));
    RunKeepsWellFormed(f, s, run);
    NetworkHeldOverRun(f, s, run, heard, n, FreshOrNone(NetworkProps(n)));
    var m := ObjAt(Exec(f, s, run).objs, n.path).value;
    NetworkDecodes(Exec(f, s, run).objs, m);
    if read.Some? { LinkIsFresh(NetworkProps(n)); }
    if C.NetworkSingles(NetworkServer(NetworkProps(m))).Some? { LinkIsFresh(NetworkProps(m)); }
  }

  ghost function FreshOrNone(props: Props): Option<string> {
    var r := C.Fresh(C.KnownNetworkChanged(), Entries(INetwork, props));
    if r.Ok? then r.value else None
  }
}

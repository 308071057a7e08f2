/**
 * The registries of exported networks and known networks, and the calls that rewrite them
 * (lifecycle.go, network.go, knownnetwork.go, objectmanager.go), proved against ObjectTree.
 */
module MockRegistry {
  import opened Common
  import opened KnownNetworkPaths
  import opened ObjectTree
  import opened TreeReplay
  import opened CallReads
  import opened MockObjects

  class NetworkObject {
    const path: string
    const name: Ssid
    const device: string
    const security: string
    const ess: seq<string>
    var connected: bool
    var known: string

    constructor (n: Obj)
      requires n.Network?
      ensures View() == n
    {
      path, name, device, security, ess := n.path, n.name, n.device, n.security, n.ess;
      connected, known := n.connected, n.known;
    }

    function View(): (n: Obj)
      reads this
      ensures n.Network?
    {
      Obj.Network(path, name, connected, device, security, known, ess)
    }

    method UnlinkFrom(path: string) returns (hit: bool)
      modifies this
      ensures View() == UnlinkOne(old(View()), path) && hit == (old(known) == path)
    {
      hit := known == path;
      if hit { known := ""; }
    }

    method BuildPropertyMap() returns (props: Props)
      ensures props == NetworkProps(View())
    {
      props := map[KName := Bytes(name), KConnected := Bool(connected), KDevice := Path(device), KType := Text(security),
                   KExtendedServiceSet := Paths(ess)];
      if known != "" { props := props[KKnownNetwork := Path(known)]; }
    }
  }

  class KnownNetworkObject {
    const path: string
    const name: Ssid
    const security: string
    const hidden: bool
    const lastConnected: string
    var autoConnect: bool

    constructor (k: Obj)
      requires k.Known?
      ensures View() == k
    {
      path, name, security, hidden, lastConnected := k.path, k.name, k.security, k.hidden, k.lastConnected;
      autoConnect := k.autoConnect;
    }

    function View(): (k: Obj)
      reads this
      ensures k.Known?
    {
      Obj.Known(path, name, security, hidden, lastConnected, autoConnect)
    }

    method BuildPropertyMap() returns (props: Props)
      ensures props == KnownProps(View())
    {
      props := map[KName := Bytes(name), KType := Text(security), KHidden := Bool(hidden), KAutoConnect := Bool(autoConnect)];
      if lastConnected != "" { props := props[KLastConnectedTime := Text(lastConnected)]; }
    }

    method Set(iface: Iface, key: Key, value: Variant, bus: Bus) returns (result: Outcome)
      modifies this, bus
      ensures var e := SetOther(old(View()), iface, key, value); View() == e.obj && bus.log == old(bus.log) + e.signals && result == e.outcome
      ensures ClientsFollow(old(View()), old(bus.log), View(), bus.log, result)
      ensures result == Done && iface == IKnown <==> iface == IKnown && key == KAutoConnect && value.Bool?
      ensures result == Done && iface == IKnown ==> Read(IKnown, KAutoConnect, KnownProps(View())) == Some(value)
      ensures result == Done ==> OnlyChanges(old(View()), View(), iface, map[key := Some(value)])
      ensures result == Done || result == Failed
    {
      ClientsFollowCall(NO_FLAGS, View(), Call.Set(iface, key, value), bus.log);
      SetOtherReads(View(), iface, key, value);
      hide ClientsFollow, OnlyChanges;
      if iface != IKnown { return Done; }
      if key != KAutoConnect || !value.Bool? { return Failed; }
      autoConnect := value.b;
      bus.Emit(Changed(path, IKnown, map[KAutoConnect := value], []));
      return Done;
    }
  }

  // ---------- lists of objects and their views ----------

  ghost function NetworkViews(ns: seq<NetworkObject>): (r: seq<Obj>)
    reads ns
    ensures |r| == |ns| && forall i :: 0 <= i < |ns| ==> r[i] == ns[i].View()
  {
    if ns == [] then [] else NetworkViews(ns[..|ns| - 1]) + [ns[|ns| - 1].View()]
  }

  ghost function KnownViews(ks: seq<KnownNetworkObject>): (r: seq<Obj>)
    reads ks
    ensures |r| == |ks| && forall i :: 0 <= i < |ks| ==> r[i] == ks[i].View()
  {
    if ks == [] then [] else KnownViews(ks[..|ks| - 1]) + [ks[|ks| - 1].View()]
  }

  ghost predicate AllDifferent<T>(s: seq<T>) {
    forall i, j :: 0 <= i < j < |s| ==> s[i] != s[j]
  }

  // ---------- Unlink and UnlinkSignals over the parts of a registry ----------

  lemma {:induction false} UnlinkSignalsOfParts(a: seq<Obj>, b: seq<Obj>, known: string)
    ensures UnlinkSignals(a + b, known) == UnlinkSignals(a, known) + UnlinkSignals(b, known)
  {
    if b == [] {
      assert a + b == a;
    } else {
      assert (a + b)[..|a + b| - 1] == a + b[..|b| - 1];
      UnlinkSignalsOfParts(a, b[..|b| - 1], known);
    }
  }

  lemma {:induction false} NothingToUnlink(a: seq<Obj>, known: string)
    requires forall o :: o in a ==> !o.Network?
    ensures UnlinkSignals(a, known) == [] && Unlink(a, known) == a
  {
    if a != [] { NothingToUnlink(a[..|a| - 1], known); }
  }

  lemma UnlinkOfParts(a: seq<Obj>, b: seq<Obj>, known: string)
    ensures Unlink(a + b, known) == Unlink(a, known) + Unlink(b, known)
  {
    hide UnlinkOne;
  }

  lemma TakenOutOfPart(a: seq<Obj>, b: seq<Obj>, j: nat)
    requires j < |b|
    ensures (a + b)[|a| + j] == b[j]
    ensures (a + b)[..|a| + j] + (a + b)[|a| + j + 1..] == a + (b[..j] + b[j + 1..])
  {
  }

  lemma UnlinkOfThree(rest: seq<Obj>, networks: seq<Obj>, knowns: seq<Obj>, path: string)
    requires forall o :: o in rest ==> !o.Network?
    requires forall o :: o in knowns ==> !o.Network?
    ensures Unlink(rest + networks + knowns, path) == rest + Unlink(networks, path) + knowns
    ensures UnlinkSignals(rest + networks + knowns, path) == UnlinkSignals(networks, path)
  {
    hide Unlink, UnlinkSignals;
    UnlinkOfParts(rest + networks, knowns, path);
    UnlinkOfParts(rest, networks, path);
    UnlinkSignalsOfParts(rest + networks, knowns, path);
    UnlinkSignalsOfParts(rest, networks, path);
    NothingToUnlink(rest, path);
    NothingToUnlink(knowns, path);
  }

  /** Forgetting the known network at index `j` of its registry, part by part. */
  lemma ForgetByParts(rest: seq<Obj>, networks: seq<Obj>, knowns: seq<Obj>, j: nat)
    requires forall o :: o in rest ==> !o.Network?
    requires forall o :: o in knowns ==> o.Known?
    requires j < |knowns|
    ensures var objs := rest + networks + knowns;
      && objs[|rest + networks| + j] == knowns[j]
      && ForgetKnown(objs, |rest + networks| + j) ==
         Outcomes(rest + Unlink(networks, knowns[j].path) + (knowns[..j] + knowns[j + 1..]),
                  UnlinkSignals(networks, knowns[j].path) + [Removed(knowns[j].path, [IKnown])], Done)
  {
    TakenOutOfPart(rest + networks, knowns, j);
    var kept := knowns[..j] + knowns[j + 1..];
    forall o | o in kept ensures o in knowns {}
    UnlinkOfThree(rest, networks, knowns, knowns[j].path);
    UnlinkOfThree(rest, networks, kept, knowns[j].path);
    hide Unlink, UnlinkSignals;
    assert (rest + networks + knowns)[|rest + networks| + j] == knowns[j];
  }

  lemma SnapshotAppend(objs: seq<Obj>, o: Obj)
    ensures Snapshot(objs + [o]) == Snapshot(objs)[o.path := IfacesOf(o)]
  {
    assert (objs + [o])[..|objs|] == objs;
  }

  ghost function DeviceViews(ds: seq<DeviceObject>): (r: seq<Obj>)
    reads ds
    ensures |r| == |ds| && forall i :: 0 <= i < |ds| ==> r[i] == ds[i].View()
  {
    if ds == [] then [] else DeviceViews(ds[..|ds| - 1]) + [ds[|ds| - 1].View()]
  }

  /** What provisioning announces. */
  function LinkSignals(path: string, k: Obj): seq<Signal> {
    [Added(k.path, IfacesOf(k)), Changed(path, INetwork, map[KKnownNetwork := Path(k.path)], [])]
  }

  /** Connecting the network at index `i` of its registry, part by part. */
  lemma ConnectByParts(rest: seq<Obj>, networks: seq<Obj>, knowns: seq<Obj>, i: nat, answer: Answer)
    requires i < |networks| && networks[i].Network?
    ensures var objs, at, n := rest + networks + knowns, |rest| + i, networks[i];
      && objs[at] == n
      && ConnectNetwork(objs, at, answer) ==
         if n.security != "open" && n.known == "" && !answer.RightPassphrase? then Outcomes(objs, [], Refusal(answer))
         else
           var said := Changed(n.path, INetwork, map[KConnected := Bool(true)], []);
           if n.security == "open" || n.known != "" then
             Outcomes(rest + networks[i := n.(connected := true)] + knowns, [said], Done)
           else
             var k := Provisioned(n);
             Outcomes(rest + networks[i := n.(connected := true, known := k.path)] + (knowns + [k]),
                      LinkSignals(n.path, k) + [said], Done)
  {
    hide Provisioned, IfacesOf;
    var n := networks[i];
    UpdatedInPart(rest, networks, knowns, i, n.(connected := true));
    UpdatedInPart(rest, networks, knowns, i, n.(connected := true, known := Provisioned(n).path));
  }

  lemma UpdatedInPart(a: seq<Obj>, b: seq<Obj>, c: seq<Obj>, i: nat, o: Obj)
    requires i < |b|
    ensures (a + b + c)[|a| + i] == b[i]
    ensures (a + b + c)[|a| + i := o] == a + b[i := o] + c
    ensures forall d: seq<Obj> :: a + b[i := o] + c + d == a + b[i := o] + (c + d)
  {
  }

  lemma ViewsWithout(ks: seq<KnownNetworkObject>, kept: seq<KnownNetworkObject>, j: nat)
    requires j < |ks| && kept == ks[..j] + ks[j + 1..]
    ensures KnownViews(kept) == KnownViews(ks)[..j] + KnownViews(ks)[j + 1..]
  {
    hide KnownViews;
  }

  /** The exported registries; the daemon and the adapters come first, the basic service sets after the devices. */
  class Registry {
    const bus: Bus
    const head: seq<Obj>
    const bsses: seq<Obj>
    var devices: seq<DeviceObject>
    var networks: seq<NetworkObject>
    var known: seq<KnownNetworkObject>

    constructor (bus: Bus, head: seq<Obj>, devices: seq<DeviceObject>, bsses: seq<Obj>, networks: seq<NetworkObject>,
                 known: seq<KnownNetworkObject>)
      requires AllDifferent(networks) && AllDifferent(known) && (forall o :: o in head + bsses ==> !o.Network?)
      ensures Valid() && this.bus == bus
      ensures Objs() == head + DeviceViews(devices) + bsses + NetworkViews(networks) + KnownViews(known)
    {
      this.bus, this.head, this.devices, this.bsses, this.networks, this.known := bus, head, devices, bsses, networks, known;
    }

    ghost predicate Valid()
      reads this
    {
      AllDifferent(networks) && AllDifferent(known) && forall o :: o in head + bsses ==> !o.Network?
    }

    /** What GetManagedObjects lists before the networks. */
    ghost function Rest(): seq<Obj>
      reads `devices, devices
    {
      head + DeviceViews(devices) + bsses
    }

    ghost function Objs(): seq<Obj>
      reads this, devices, networks, known
    {
      Rest() + NetworkViews(networks) + KnownViews(known)
    }

    /** The registry without `k`: the first loop of removeKnownNetwork. */
    method Keep(k: KnownNetworkObject, ghost j: nat) returns (kept: seq<KnownNetworkObject>)
      requires Valid() && j < |known| && known[j] == k
      ensures kept == known[..j] + known[j + 1..] && AllDifferent(kept)
    {
      kept := [];
      for i := 0 to |known|
        invariant kept == if i <= j then known[..i] else known[..j] + known[j + 1..i]
      {
        if known[i] != k { kept := kept + [known[i]]; }
      }
    }

    /** Every network that links to `path` loses the link. */
    method UnlinkNetworks(path: string) returns (unlinked: seq<NetworkObject>)
      requires Valid()
      modifies networks
      ensures NetworkViews(networks) == Unlink(old(NetworkViews(networks)), path)
      ensures SignalsOf(unlinked) == UnlinkSignals(old(NetworkViews(networks)), path)
    {
      hide NetworkViews, SignalsOf, UnlinkSignals, UnlinkOne, Unlink;
      unlinked := [];
      ghost var before := NetworkViews(networks);
      NoSignalsYet(before, path);
      for i := 0 to |networks|
        invariant forall j :: 0 <= j < i ==> networks[j].View() == UnlinkOne(before[j], path)
        invariant forall j :: i <= j < |networks| ==> networks[j].View() == before[j]
        invariant SignalsOf(unlinked) == UnlinkSignals(before[..i], path)
      {
        NextUnlinkSignal(before, i, path, networks[i], unlinked);
        var hit := networks[i].UnlinkFrom(path);
        if hit { unlinked := unlinked + [networks[i]]; }
      }
      assert before[..|networks|] == before;
    }

    /** The signals of removeKnownNetwork, one for each unlinked network and one for the object itself. */
    method Announce(unlinked: seq<NetworkObject>, path: string)
      modifies bus
      ensures bus.log == old(bus.log) + (SignalsOf(unlinked) + [Removed(path, [IKnown])])
    {
      for i := 0 to |unlinked|
        invariant bus.log == old(bus.log) + SignalsOf(unlinked[..i])
      {
        SignalsAppend(unlinked[..i], unlinked[i]);
        assert unlinked[..i + 1] == unlinked[..i] + [unlinked[i]];
        bus.Emit(Changed(unlinked[i].path, INetwork, map[], [KKnownNetwork]));
      }
      assert unlinked[..|unlinked|] == unlinked;
      bus.Emit(Removed(path, [IKnown]));
    }

    method Detach(k: KnownNetworkObject, ghost j: nat) returns (unlinked: seq<NetworkObject>)
      requires Valid() && j < |known| && known[j] == k
      modifies `known, networks
      ensures Valid() && Rest() == old(Rest())
      ensures NetworkViews(networks) == Unlink(old(NetworkViews(networks)), k.path)
      ensures KnownViews(known) == old(KnownViews(known))[..j] + old(KnownViews(known))[j + 1..]
      ensures SignalsOf(unlinked) == UnlinkSignals(old(NetworkViews(networks)), k.path)
    {
      hide NetworkViews, KnownViews, DeviceViews, Unlink, UnlinkSignals, SignalsOf, AllDifferent;
      var kept := Keep(k, j);
      ViewsWithout(known, kept, j);
      known := kept;
      unlinked := UnlinkNetworks(k.path);
    }

    /** removeKnownNetwork: rewrite the registry, unlink, then announce both. */
    method RemoveKnownNetwork(k: KnownNetworkObject, ghost j: nat)
      requires Valid() && j < |known| && known[j] == k
      modifies `known, networks, bus
      ensures Valid() && Rest() == old(Rest())
      ensures NetworkViews(networks) == Unlink(old(NetworkViews(networks)), k.path)
      ensures KnownViews(known) == old(KnownViews(known))[..j] + old(KnownViews(known))[j + 1..]
      ensures bus.log == old(bus.log) + (UnlinkSignals(old(NetworkViews(networks)), k.path) + [Removed(k.path, [IKnown])])
    {
      hide NetworkViews, KnownViews, DeviceViews, Unlink, UnlinkSignals, SignalsOf, AllDifferent;
      var unlinked := Detach(k, j);
      Announce(unlinked, k.path);
    }

    /** KnownNetwork.Forget, on an exported object. */
    method Forget(k: KnownNetworkObject, ghost j: nat)
      requires Valid() && j < |known| && known[j] == k
      modifies `known, networks, bus
      ensures Valid()
      ensures var objs, at := old(Objs()), old(|Rest() + NetworkViews(networks)|) + j;
        && at < |objs| && objs[at] == old(k.View())
        && Objs() == ForgetKnown(objs, at).objs
        && bus.log == old(bus.log) + ForgetKnown(objs, at).signals
        && Unlinked(objs, at, Objs())
    {
      hide NetworkViews, KnownViews, DeviceViews, Unlink, UnlinkSignals, ForgetKnown, AllDifferent, Unlinked;
      ghost var rest, before, knowns := Rest(), NetworkViews(networks), KnownViews(known);
      RestHasNoNetworks();
      ghost var forgotten := Forgotten(rest, before, knowns, j);
      ForgetReads(rest + before + knowns, |rest + before| + j);
      RemoveKnownNetwork(k, j);
      assert Objs() == forgotten.objs;
    }

    /** What Forget has to come to, computed from the parts. */
    ghost function Forgotten(rest: seq<Obj>, before: seq<Obj>, knowns: seq<Obj>, j: nat): (r: Outcomes)
      requires (forall o :: o in rest ==> !o.Network?) && (forall o :: o in knowns ==> o.Known?) && j < |knowns|
      ensures var objs, at := rest + before + knowns, |rest + before| + j;
        && at < |objs| && objs[at] == knowns[j]
        && r == ForgetKnown(objs, at)
    {
      ForgetByParts(rest, before, knowns, j);
      Outcomes(rest + Unlink(before, knowns[j].path) + (knowns[..j] + knowns[j + 1..]),
               UnlinkSignals(before, knowns[j].path) + [Removed(knowns[j].path, [IKnown])], Done)
    }

    /** The known network is registered and linked. */
    method Link(n: NetworkObject, ghost i: nat) returns (k: KnownNetworkObject)
      requires Valid() && i < |networks| && networks[i] == n
      modifies `known, n`known
      ensures fresh(k) && k.View() == Provisioned(old(n.View()))
      ensures Valid() && Rest() == old(Rest())
      ensures NetworkViews(networks) == old(NetworkViews(networks))[i := old(n.View()).(known := k.path)]
      ensures KnownViews(known) == old(KnownViews(known)) + [k.View()]
    {
      hide NetworkViews, KnownViews, DeviceViews, PathFor;
      k := new KnownNetworkObject(Obj.Known(PathFor(n.name, n.security), n.name, n.security, false, PROVISIONED_TIME, true));
      known := known + [k];
      n.known := k.path;
    }

    /** provisionKnownNetwork, for a network with no link yet. */
    method Provision(n: NetworkObject, ghost i: nat)
      requires Valid() && i < |networks| && networks[i] == n && n.known == ""
      modifies `known, n, bus
      ensures Valid() && Rest() == old(Rest())
      ensures var was := old(n.View()); var k := Provisioned(was);
        && NetworkViews(networks) == old(NetworkViews(networks))[i := was.(known := k.path)]
        && KnownViews(known) == old(KnownViews(known)) + [k]
        && bus.log == old(bus.log) + LinkSignals(n.path, k)
    {
      hide NetworkViews, KnownViews, DeviceViews, Provisioned, AllDifferent, IfacesOf;
      var k := Link(n, i);
      AnnounceLink(n, k);
    }

    method AnnounceLink(n: NetworkObject, k: KnownNetworkObject)
      modifies bus
      ensures bus.log == old(bus.log)
        + [Added(k.path, IfacesOf(k.View())), Changed(n.path, INetwork, map[KKnownNetwork := Path(k.path)], [])]
    {
      var props := k.BuildPropertyMap();
      bus.Emit(Added(k.path, map[IKnown := props]));
      bus.Emit(Changed(n.path, INetwork, map[KKnownNetwork := Path(k.path)], []));
    }

    method SetConnected(n: NetworkObject, ghost i: nat)
      requires Valid() && i < |networks| && networks[i] == n
      modifies n`connected
      ensures old(n.View()).Network? && n.View() == old(n.View()).(connected := true)
      ensures NetworkViews(networks) == old(NetworkViews(networks))[i := n.View()]
    {
      hide NetworkViews;
      n.connected := true;
    }

    method SayConnected(n: NetworkObject)
      modifies bus
      ensures bus.log == old(bus.log) + [Changed(n.path, INetwork, map[KConnected := Bool(true)], [])]
    {
      bus.Emit(Changed(n.path, INetwork, map[KConnected := Bool(true)], []));
    }

    /** An open or known network joins. */
    method Join(n: NetworkObject, ghost i: nat)
      requires Valid() && i < |networks| && networks[i] == n
      modifies n`connected, bus
      ensures Valid() && Rest() == old(Rest()) && KnownViews(known) == old(KnownViews(known))
      ensures old(n.View()).Network? && NetworkViews(networks) == old(NetworkViews(networks))[i := old(n.View()).(connected := true)]
      ensures bus.log == old(bus.log) + [Changed(n.path, INetwork, map[KConnected := Bool(true)], [])]
    {
      hide NetworkViews, KnownViews, DeviceViews, AllDifferent;
      SetConnected(n, i);
      SayConnected(n);
    }

    method ProvisionAndSay(n: NetworkObject, ghost i: nat)
      requires Valid() && i < |networks| && networks[i] == n && n.known == ""
      modifies `known, n, bus
      ensures Valid() && Rest() == old(Rest())
      ensures var was := old(n.View()); var k := Provisioned(was);
        && NetworkViews(networks) == old(NetworkViews(networks))[i := was.(known := k.path)]
        && KnownViews(known) == old(KnownViews(known)) + [k]
        && bus.log == old(bus.log) + (LinkSignals(n.path, k) + [Changed(n.path, INetwork, map[KConnected := Bool(true)], [])])
    {
      hide NetworkViews, KnownViews, DeviceViews, AllDifferent, LinkSignals, Provisioned, Valid;
      Provision(n, i);
      SayConnected(n);
    }

    /** A secured network joins for the first time. */
    method JoinAndProvision(n: NetworkObject, ghost i: nat)
      requires Valid() && i < |networks| && networks[i] == n && n.known == ""
      modifies `known, n, bus
      ensures Valid() && Rest() == old(Rest())
      ensures var was := old(n.View()); var k := Provisioned(was);
        && NetworkViews(networks) == old(NetworkViews(networks))[i := was.(connected := true, known := k.path)]
        && KnownViews(known) == old(KnownViews(known)) + [k]
        && bus.log == old(bus.log) + (LinkSignals(n.path, k) + [Changed(n.path, INetwork, map[KConnected := Bool(true)], [])])
    {
      hide NetworkViews, KnownViews, DeviceViews, AllDifferent, LinkSignals, PathFor, Valid;
      SetConnected(n, i);
      ProvisionAndSay(n, i);
    }

    /** Network.Connect, on an exported object. */
    method Connect(n: NetworkObject, answer: Answer, ghost i: nat) returns (result: Outcome)
      requires Valid() && i < |networks| && networks[i] == n
      modifies `known, n, bus
      ensures Valid()
      ensures var objs, at := old(Objs()), |old(Rest())| + i;
        && at < |objs| && objs[at] == old(n.View())
        && Objs() == ConnectNetwork(objs, at, answer).objs
        && bus.log == old(bus.log) + ConnectNetwork(objs, at, answer).signals
        && result == ConnectNetwork(objs, at, answer).outcome
        && (result == Done ==> Joined(objs, at, Objs()))
      ensures result == Done <==> n.security == "open" || old(n.known) != "" || answer.RightPassphrase?
      ensures result == NoAgent <==> n.security != "open" && old(n.known) == "" && answer.NoAgentRegistered?
      ensures result == Failed <==> n.security != "open" && old(n.known) == "" && (answer.Declined? || answer.WrongPassphrase?)
    {
      hide NetworkViews, KnownViews, DeviceViews, ConnectNetwork, AllDifferent, Provisioned, IfacesOf, Joined;
      ConnectReads(Objs(), |Rest()| + i, answer);
      ConnectByParts(Rest(), NetworkViews(networks), KnownViews(known), i, answer);
      if n.security != "open" && n.known == "" {
        match answer
        case NoAgentRegistered => return NoAgent;
        case Declined => return Failed;
        case WrongPassphrase => return Failed;
        case RightPassphrase =>
      }
      if n.security == "open" || n.known != "" { Join(n, i); } else { JoinAndProvision(n, i); }
      return Done;
    }

    // -- GetManagedObjects, one loop for each registry

    static method ListValues(sofar: Tree, ghost listed: seq<Obj>, objs: seq<Obj>) returns (tree: Tree)
      requires sofar == Snapshot(listed)
      ensures tree == Snapshot(listed + objs)
    {
      tree := sofar;
      assert listed + objs[..0] == listed;
      for i := 0 to |objs|
        invariant tree == Snapshot(listed + objs[..i])
      {
        assert listed + objs[..i + 1] == (listed + objs[..i]) + [objs[i]];
        SnapshotAppend(listed + objs[..i], objs[i]);
        tree := tree[objs[i].path := IfacesOf(objs[i])];
      }
      assert objs[..|objs|] == objs;
    }

    static method ListDevices(sofar: Tree, ghost listed: seq<Obj>, devices: seq<DeviceObject>) returns (tree: Tree)
      requires sofar == Snapshot(listed)
      ensures tree == Snapshot(listed + DeviceViews(devices))
    {
      hide IfacesOf, Assemble, DeviceViews;
      tree := sofar;
      ghost var views := DeviceViews(devices);
      assert listed + views[..0] == listed;
      for i := 0 to |devices|
        invariant tree == Snapshot(listed + views[..i])
      {
        assert listed + views[..i + 1] == (listed + views[..i]) + [views[i]];
        SnapshotAppend(listed + views[..i], views[i]);
        var ifaces := DeviceEntry(devices[i]);
        tree := tree[devices[i].path := ifaces];
      }
      assert views[..|devices|] == views;
    }

    static lemma AssembledInSteps(device: Props, hasStation: bool, station: Props, hasAp: bool, ap: Props)
      ensures var one: Ifaces := map[IDevice := device];
        var two := if hasStation then one[IStation := station] else one;
        (if hasAp then two[IAccessPoint := ap] else two) == Assemble(device, hasStation, station, hasAp, ap)
    {
    }

    static method DeviceEntry(d: DeviceObject) returns (ifaces: Ifaces)
      ensures ifaces == IfacesOf(d.View())
    {
      AssembledInSteps(DeviceProps(d.View()), d.hasStation, StationProps(d.View()), d.hasAp, AccessPointProps(d.View()));
      hide Assemble, DeviceProps, StationProps, AccessPointProps, Read;
      var props := d.BuildPropertyMap();
      ifaces := map[IDevice := props];
      if d.hasStation {
        var station := d.BuildStationPropertyMap();
        ifaces := ifaces[IStation := station];
      }
      if d.hasAp {
        var ap := d.BuildAccessPointPropertyMap();
        ifaces := ifaces[IAccessPoint := ap];
      }
    }

    static method ListNetworks(sofar: Tree, ghost listed: seq<Obj>, networks: seq<NetworkObject>) returns (tree: Tree)
      requires sofar == Snapshot(listed)
      ensures tree == Snapshot(listed + NetworkViews(networks))
    {
      hide NetworkProps;
      tree := sofar;
      ghost var views := NetworkViews(networks);
      assert listed + views[..0] == listed;
      for i := 0 to |networks|
        invariant tree == Snapshot(listed + views[..i])
      {
        assert listed + views[..i + 1] == (listed + views[..i]) + [views[i]];
        SnapshotAppend(listed + views[..i], views[i]);
        var props := networks[i].BuildPropertyMap();
        tree := tree[networks[i].path := map[INetwork := props]];
      }
      assert views[..|networks|] == views;
    }

    static method ListKnown(sofar: Tree, ghost listed: seq<Obj>, known: seq<KnownNetworkObject>) returns (tree: Tree)
      requires sofar == Snapshot(listed)
      ensures tree == Snapshot(listed + KnownViews(known))
    {
      hide KnownProps;
      tree := sofar;
      ghost var views := KnownViews(known);
      assert listed + views[..0] == listed;
      for i := 0 to |known|
        invariant tree == Snapshot(listed + views[..i])
      {
        assert listed + views[..i + 1] == (listed + views[..i]) + [views[i]];
        SnapshotAppend(listed + views[..i], views[i]);
        var props := known[i].BuildPropertyMap();
        tree := tree[known[i].path := map[IKnown := props]];
      }
      assert views[..|known|] == views;
    }

    /** GetManagedObjects reads the registries live; it changes nothing. */
    method GetManagedObjects() returns (tree: Tree)
      ensures tree == Snapshot(Objs())
    {
      hide DeviceViews, NetworkViews, KnownViews;
      tree := ListValues(map[], [], head);
      assert [] + head == head;
      tree := ListDevices(tree, head, devices);
      tree := ListValues(tree, head + DeviceViews(devices), bsses);
      tree := ListNetworks(tree, Rest(), networks);
      tree := ListKnown(tree, Rest() + NetworkViews(networks), known);
    }

    lemma RestHasNoNetworks()
      requires Valid()
      ensures forall o :: o in Rest() ==> !o.Network?
    {
      forall o | o in Rest() ensures !o.Network? {
        if o in DeviceViews(devices) {
          var i :| 0 <= i < |devices| && devices[i].View() == o;
        }
      }
    }
  }

  /** The signals for networks that lost their link. */
  ghost function SignalsOf(ns: seq<NetworkObject>): seq<Signal> {
    if ns == [] then [] else SignalsOf(ns[..|ns| - 1]) + [Changed(ns[|ns| - 1].path, INetwork, map[], [KKnownNetwork])]
  }

  lemma NoSignalsYet(before: seq<Obj>, path: string)
    ensures SignalsOf([]) == UnlinkSignals(before[..0], path)
  {
  }

  lemma NextUnlinkSignal(before: seq<Obj>, i: nat, path: string, n: NetworkObject, unlinked: seq<NetworkObject>)
    requires i < |before| && before[i] == n.View() && SignalsOf(unlinked) == UnlinkSignals(before[..i], path)
    ensures UnlinkSignals(before[..i + 1], path) == SignalsOf(if n.known == path then unlinked + [n] else unlinked)
  {
    assert before[..i + 1][..i] == before[..i];
    SignalsAppend(unlinked, n);
  }

  lemma SignalsAppend(ns: seq<NetworkObject>, n: NetworkObject)
    ensures SignalsOf(ns + [n]) == SignalsOf(ns) + [Changed(n.path, INetwork, map[], [KKnownNetwork])]
  {
    assert (ns + [n])[..|ns|] == ns;
  }
}

/**
 * How the client decodes properties (internal/iwdbus/station.go, network.go, accesspoint.go): one
 * property at a time with Get, all at once with GetAll, and change by change in a subscription.
 */
module ClientReads {
  import opened Common
  import opened DBusNames

  /** A decoded D-Bus value, as the client's type switches see it. */
  datatype Value =
    | Nil
    | BoolV(b: bool)
    | StringV(s: string)
    | PathV(p: string)
    | Uint32V(n: nat)
    | PathsV(paths: seq<string>)
    | StringsV(strings: seq<string>)
    | ListV(items: seq<Value>)
    | VariantV(inner: Value)
    | Other(id: nat)

  /** Which property could not be read, and whether it was missing or malformed. */
  datatype Failure = Missing(field: string) | Malformed(field: string)

  type Decoded<T> = Result<T, Failure>

  // ---------- decoders ----------

  /** parseStationObjectPath and parseOptionalObjectPath: nothing, "" and "/" are all no object. */
  function ParseOptionalPath(field: string, v: Value): Decoded<Option<string>> {
    match v
    case Nil => Ok(None)
    case PathV(p) => OptionalPath(field, p)
    case StringV(s) => OptionalPath(field, s)
    case VariantV(inner) => ParseOptionalPath(field, inner)
    case _ => Err(Malformed(field))
  }

  function OptionalPath(field: string, p: string): Decoded<Option<string>> {
    if p == "" || p == "/" then Ok(None) else if ValidPath(p) then Ok(Some(p)) else Err(Malformed(field))
  }

  /** parseNetworkObjectPath: a required path; "/" is one. */
  function ParsePath(field: string, v: Value): Decoded<string> {
    match v
    case PathV(p) => if ValidPath(p) then Ok(p) else Err(Malformed(field))
    case StringV(p) => if ValidPath(p) then Ok(p) else Err(Malformed(field))
    case _ => Err(Malformed(field))
  }

  /** The paths of a list, the first bad item failing the whole; strings count as paths only if `lenient`. */
  function ItemPaths(field: string, items: seq<Value>, lenient: bool): Decoded<seq<string>> {
    if items == [] then Ok([])
    else
      var front := ItemPaths(field, items[..|items| - 1], lenient);
      var last := items[|items| - 1];
      if front.Err? || (!lenient && !last.PathV?) || ParsePath(field, last).Err? then Err(Malformed(field))
      else Ok(front.value + [ParsePath(field, last).value])
  }

  predicate AllValid(paths: seq<string>) {
    forall p | p in paths :: ValidPath(p)
  }

  /** parseObjectPathList. */
  function ParsePathList(v: Value): Decoded<seq<string>> {
    match v
    case PathsV(paths) => if AllValid(paths) then Ok(paths) else Err(Malformed("ExtendedServiceSet"))
    case ListV(items) => ItemPaths("ExtendedServiceSet", items, true)
    case _ => Err(Malformed("ExtendedServiceSet"))
  }

  /** parseStationAffinities: nothing at all is no list, which is not the empty list. */
  function ParseAffinities(v: Value): Decoded<Option<seq<string>>> {
    match v
    case Nil => Ok(None)
    case VariantV(inner) => ParseAffinities(inner)
    case PathsV(paths) => if AllValid(paths) then Ok(Some(paths)) else Err(Malformed("Affinities"))
    case ListV(items) =>
      var r := ItemPaths("Affinities", items, false);
      if r.Ok? then Ok(Some(r.value)) else Err(r.error)
    case _ => Err(Malformed("Affinities"))
  }

  /** The loop over typed object paths, as both list decoders run it. */
  method CopyPaths(field: string, paths: seq<string>) returns (r: Decoded<seq<string>>)
    ensures r == if AllValid(paths) then Ok(paths) else Err(Malformed(field))
  {
    var out: seq<string> := [];
    for i := 0 to |paths|
      invariant out == paths[..i] && AllValid(out)
    {
      if !ValidPath(paths[i]) { return Err(Malformed(field)); }
      out := out + [paths[i]];
    }
    assert paths[..|paths|] == paths;
    return Ok(out);
  }

  /** The loop over untyped items. */
  method CollectItems(field: string, items: seq<Value>, lenient: bool) returns (r: Decoded<seq<string>>)
    ensures r == ItemPaths(field, items, lenient)
  {
    var out: seq<string> := [];
    for i := 0 to |items|
      invariant ItemPaths(field, items[..i], lenient) == Ok(out)
    {
      assert items[..i + 1][..i] == items[..i];
      if !lenient && !items[i].PathV? {
        BadItemFails(field, items, i, lenient);
        return Err(Malformed(field));
      }
      var path := ParsePath(field, items[i]);
      if path.Err? {
        BadItemFails(field, items, i, lenient);
        return Err(Malformed(field));
      }
      out := out + [path.value];
    }
    assert items[..|items|] == items;
    return Ok(out);
  }

  lemma {:induction false} BadItemFails(field: string, items: seq<Value>, i: nat, lenient: bool)
    requires i < |items| && ((!lenient && !items[i].PathV?) || ParsePath(field, items[i]).Err?)
    ensures ItemPaths(field, items, lenient) == Err(Malformed(field))
    decreases |items|
  {
    if i < |items| - 1 { BadItemFails(field, items[..|items| - 1], i, lenient); }
  }

  /** A list decodes exactly when every item is an acceptable path, and then to those paths in order. */
  lemma {:induction false} ItemPathsExactly(field: string, items: seq<Value>, lenient: bool)
    ensures ItemPaths(field, items, lenient).Ok?
      <==> forall v :: v in items ==> ParsePath(field, v).Ok? && (lenient || v.PathV?)
    ensures ItemPaths(field, items, lenient).Ok? ==>
      |ItemPaths(field, items, lenient).value| == |items|
      && forall i :: 0 <= i < |items| ==> ParsePath(field, items[i]) == Ok(ItemPaths(field, items, lenient).value[i])
  {
    if items != [] {
      var front, last := items[..|items| - 1], items[|items| - 1];
      ItemPathsExactly(field, front, lenient);
      assert items == front + [last];
    }
  }

  function ParseState(v: Value): Decoded<string> {
    if v.StringV? && v.s in {"connected", "disconnected", "connecting", "disconnecting", "roaming"} then Ok(v.s) else Err(Malformed("State"))
  }

  function ParseNetworkType(v: Value): Decoded<string> {
    if v.StringV? && v.s in {"open", "wep", "psk", "8021x", "hotspot"} then Ok(v.s) else Err(Malformed("Type"))
  }

  function ParseBool(field: string, v: Value): Decoded<bool> {
    if v.BoolV? then Ok(v.b) else Err(Malformed(field))
  }

  function ParseName(v: Value): Decoded<string> {
    if v.StringV? then Ok(v.s) else Err(Malformed("Name"))
  }

  /** parseOptionalAccessPointString: the empty string is nothing. */
  function ParseOptionalString(field: string, v: Value): Decoded<Option<string>> {
    match v
    case Nil => Ok(None)
    case StringV(s) => Ok(if s == "" then None else Some(s))
    case VariantV(inner) => ParseOptionalString(field, inner)
    case _ => Err(Malformed(field))
  }

  function ParseFrequency(v: Value): Decoded<Option<nat>> {
    match v
    case Nil => Ok(None)
    case Uint32V(n) => Ok(Some(n))
    case VariantV(inner) => ParseFrequency(inner)
    case _ => Err(Malformed("Frequency"))
  }

  function ParseCiphers(v: Value): Decoded<Option<seq<string>>> {
    match v
    case Nil => Ok(None)
    case StringsV(ss) => Ok(Some(ss))
    case VariantV(inner) => ParseCiphers(inner)
    case _ => Err(Malformed("PairwiseCiphers"))
  }

  // ---------- one property at a time ----------

  /**
   * A daemon object answering Get and GetAll for one interface. Asked for a property it does not
   * have, Get fails; `worded` are the properties whose absence it reports in iwd's wording, which
   * the optional getters take for nothing.
   */
  datatype Server = Server(props: map<string, Value>, worded: set<string>)

  function Absent<T>(s: Server, name: string, nothing: T): Decoded<T> {
    if name in s.worded then Ok(nothing) else Err(Missing(name))
  }

  function GetBool(s: Server, name: string): Decoded<bool> {
    if name in s.props then ParseBool(name, s.props[name]) else Err(Missing(name))
  }

  function GetState(s: Server): Decoded<string> {
    if "State" in s.props then ParseState(s.props["State"]) else Err(Missing("State"))
  }

  function GetOptionalPath(s: Server, name: string): Decoded<Option<string>> {
    if name in s.props then ParseOptionalPath(name, s.props[name]) else Absent(s, name, None)
  }

  function GetAffinities(s: Server): Decoded<Option<seq<string>>> {
    if "Affinities" in s.props then ParseAffinities(s.props["Affinities"]) else Absent(s, "Affinities", None)
  }

  function GetNetworkName(s: Server): Decoded<string> {
    if "Name" in s.props then ParseName(s.props["Name"]) else Err(Missing("Name"))
  }

  function GetDevice(s: Server): Decoded<string> {
    if "Device" in s.props then ParsePath("Device", s.props["Device"]) else Err(Missing("Device"))
  }

  function GetNetworkType(s: Server): Decoded<string> {
    if "Type" in s.props then ParseNetworkType(s.props["Type"]) else Err(Missing("Type"))
  }

  function GetExtendedServiceSet(s: Server): Decoded<seq<string>> {
    if "ExtendedServiceSet" in s.props then ParsePathList(s.props["ExtendedServiceSet"]) else Err(Missing("ExtendedServiceSet"))
  }

  function GetApScanning(s: Server): Decoded<bool> {
    if "Scanning" in s.props then ParseBool("Scanning", s.props["Scanning"]) else Absent(s, "Scanning", false)
  }

  function GetOptionalString(s: Server, name: string): Decoded<Option<string>> {
    if name in s.props then ParseOptionalString(name, s.props[name]) else Absent(s, name, None)
  }

  function GetFrequency(s: Server): Decoded<Option<nat>> {
    if "Frequency" in s.props then ParseFrequency(s.props["Frequency"]) else Absent(s, "Frequency", None)
  }

  function GetPairwiseCiphers(s: Server): Decoded<Option<seq<string>>> {
    if "PairwiseCiphers" in s.props then ParseCiphers(s.props["PairwiseCiphers"]) else Absent(s, "PairwiseCiphers", None)
  }

  // ---------- all at once ----------

  datatype StationProps = StationProps(state: string, scanning: bool, network: Option<string>, ap: Option<string>,
                                       affinities: Option<seq<string>>)

  datatype NetworkProps = NetworkProps(name: string, connected: bool, device: string, security: string, known: Option<string>,
                                       ess: seq<string>)

  datatype ApProps = ApProps(started: bool, scanning: bool, name: Option<string>, frequency: Option<nat>,
                             pairwise: Option<seq<string>>, group: Option<string>)

  /** What the single getters of an interface return together: all of them, or a failure of one. */
  function StationSingles(s: Server): Option<StationProps> {
    var state, scanning := GetState(s), GetBool(s, "Scanning");
    var network, ap, affinities := GetOptionalPath(s, "ConnectedNetwork"), GetOptionalPath(s, "ConnectedAccessPoint"), GetAffinities(s);
    if state.Ok? && scanning.Ok? && network.Ok? && ap.Ok? && affinities.Ok? then
      Some(StationProps(state.value, scanning.value, network.value, ap.value, affinities.value))
    else None
  }

  function NetworkSingles(s: Server): Option<NetworkProps> {
    var name, connected, device := GetNetworkName(s), GetBool(s, "Connected"), GetDevice(s);
    var security, known, ess := GetNetworkType(s), GetOptionalPath(s, "KnownNetwork"), GetExtendedServiceSet(s);
    if name.Ok? && connected.Ok? && device.Ok? && security.Ok? && known.Ok? && ess.Ok? then
      Some(NetworkProps(name.value, connected.value, device.value, security.value, known.value, ess.value))
    else None
  }

  function ApSingles(s: Server): Option<ApProps> {
    var started, scanning, name := GetBool(s, "Started"), GetApScanning(s), GetOptionalString(s, "Name");
    var frequency, pairwise, group := GetFrequency(s), GetPairwiseCiphers(s), GetOptionalString(s, "GroupCipher");
    if started.Ok? && scanning.Ok? && name.Ok? && frequency.Ok? && pairwise.Ok? && group.Ok? then
      Some(ApProps(started.value, scanning.value, name.value, frequency.value, pairwise.value, group.value))
    else None
  }

  const STATION_OPTIONALS: set<string> := {"ConnectedNetwork", "ConnectedAccessPoint", "Affinities"}
  const NETWORK_OPTIONALS: set<string> := {"KnownNetwork"}
  const AP_OPTIONALS: set<string> := {"Scanning", "Name", "Frequency", "PairwiseCiphers", "GroupCipher"}

  /** The same object, but every absence is reported in iwd's wording. */
  function Worded(s: Server, names: set<string>): Server {
    s.(worded := s.worded + names)
  }

  function Succeeded<T>(r: Decoded<T>): Option<T> {
    if r.Ok? then Some(r.value) else None
  }

  /** Station.GetProperties succeeds exactly when every getter does where absence is worded, with the same fields. */
  method GetStationProperties(s: Server) returns (r: Decoded<StationProps>)
    ensures Succeeded(r) == StationSingles(Worded(s, STATION_OPTIONALS))
  {
    hide ParseState, ParseOptionalPath, ParseAffinities;
    var network, ap, affinities := None, None, None;
    if "State" !in s.props { return Err(Missing("State")); }
    var state := ParseState(s.props["State"]);
    if state.Err? { return Err(state.error); }
    if "Scanning" !in s.props { return Err(Missing("Scanning")); }
    var scanning := s.props["Scanning"];
    if !scanning.BoolV? { return Err(Malformed("Scanning")); }
    if "ConnectedNetwork" in s.props {
      var parsed := ParseOptionalPath("ConnectedNetwork", s.props["ConnectedNetwork"]);
      if parsed.Err? { return Err(parsed.error); }
      network := parsed.value;
    }
    if "ConnectedAccessPoint" in s.props {
      var parsed := ParseOptionalPath("ConnectedAccessPoint", s.props["ConnectedAccessPoint"]);
      if parsed.Err? { return Err(parsed.error); }
      ap := parsed.value;
    }
    if "Affinities" in s.props {
      var parsed := ParseAffinities(s.props["Affinities"]);
      if parsed.Err? { return Err(parsed.error); }
      affinities := parsed.value;
    }
    return Ok(StationProps(state.value, scanning.b, network, ap, affinities));
  }

  method GetNetworkProperties(s: Server) returns (r: Decoded<NetworkProps>)
    ensures Succeeded(r) == NetworkSingles(Worded(s, NETWORK_OPTIONALS))
  {
    hide ParsePath, ParseNetworkType, ParsePathList, ParseOptionalPath;
    if "Name" !in s.props { return Err(Missing("Name")); }
    var name := s.props["Name"];
    if !name.StringV? { return Err(Malformed("Name")); }
    if "Connected" !in s.props { return Err(Missing("Connected")); }
    var connected := s.props["Connected"];
    if !connected.BoolV? { return Err(Malformed("Connected")); }
    if "Device" !in s.props { return Err(Missing("Device")); }
    var device := ParsePath("Device", s.props["Device"]);
    if device.Err? { return Err(device.error); }
    if "Type" !in s.props { return Err(Missing("Type")); }
    var security := ParseNetworkType(s.props["Type"]);
    if security.Err? { return Err(security.error); }
    if "ExtendedServiceSet" !in s.props { return Err(Missing("ExtendedServiceSet")); }
    var ess := ParsePathList(s.props["ExtendedServiceSet"]);
    if ess.Err? { return Err(ess.error); }
    var known := None;
    if "KnownNetwork" in s.props {
      var parsed := ParseOptionalPath("KnownNetwork", s.props["KnownNetwork"]);
      if parsed.Err? { return Err(parsed.error); }
      known := parsed.value;
    }
    return Ok(NetworkProps(name.s, connected.b, device.value, security.value, known, ess.value));
  }

  method GetAccessPointProperties(s: Server) returns (r: Decoded<ApProps>)
    ensures Succeeded(r) == ApSingles(Worded(s, AP_OPTIONALS))
  {
    hide ParseOptionalString, ParseFrequency, ParseCiphers;
    var scanning, name, frequency, pairwise, group := false, None, None, None, None;
    if "Started" !in s.props { return Err(Missing("Started")); }
    var started := s.props["Started"];
    if !started.BoolV? { return Err(Malformed("Started")); }
    if "Scanning" in s.props {
      if !s.props["Scanning"].BoolV? { return Err(Malformed("Scanning")); }
      scanning := s.props["Scanning"].b;
    }
    if "Name" in s.props {
      var parsed := ParseOptionalString("Name", s.props["Name"]);
      if parsed.Err? { return Err(parsed.error); }
      name := parsed.value;
    }
    if "Frequency" in s.props {
      var parsed := ParseFrequency(s.props["Frequency"]);
      if parsed.Err? { return Err(parsed.error); }
      frequency := parsed.value;
    }
    if "PairwiseCiphers" in s.props {
      var parsed := ParseCiphers(s.props["PairwiseCiphers"]);
      if parsed.Err? { return Err(parsed.error); }
      pairwise := parsed.value;
    }
    if "GroupCipher" in s.props {
      var parsed := ParseOptionalString("GroupCipher", s.props["GroupCipher"]);
      if parsed.Err? { return Err(parsed.error); }
      group := parsed.value;
    }
    return Ok(ApProps(started.b, scanning, name, frequency, pairwise, group));
  }

  // ---------- when the two ways of reading agree ----------

  ghost predicate AbsenceWorded(s: Server, optionals: set<string>) {
    forall name :: name in optionals ==> name in s.props || name in s.worded
  }

  /** One bulk read and the single reads agree unless the bulk read works and an absence is worded otherwise. */
  lemma StationReadsAgreeExactlyWhen(s: Server)
    ensures StationSingles(s) == StationSingles(Worded(s, STATION_OPTIONALS))
      <==> StationSingles(Worded(s, STATION_OPTIONALS)).None? || AbsenceWorded(s, STATION_OPTIONALS)
  {
    hide ParseState, ParseOptionalPath, ParseAffinities;
    assert "ConnectedNetwork" in STATION_OPTIONALS && "ConnectedAccessPoint" in STATION_OPTIONALS && "Affinities" in STATION_OPTIONALS;
  }

  lemma NetworkReadsAgreeExactlyWhen(s: Server)
    ensures NetworkSingles(s) == NetworkSingles(Worded(s, NETWORK_OPTIONALS))
      <==> NetworkSingles(Worded(s, NETWORK_OPTIONALS)).None? || AbsenceWorded(s, NETWORK_OPTIONALS)
  {
    hide ParsePath, ParseNetworkType, ParsePathList, ParseOptionalPath;
    assert "KnownNetwork" in NETWORK_OPTIONALS;
  }

  lemma ApReadsAgreeExactlyWhen(s: Server)
    ensures ApSingles(s) == ApSingles(Worded(s, AP_OPTIONALS))
      <==> ApSingles(Worded(s, AP_OPTIONALS)).None? || AbsenceWorded(s, AP_OPTIONALS)
  {
    hide ParseOptionalString, ParseFrequency, ParseCiphers;
    assert "Scanning" in AP_OPTIONALS && "Name" in AP_OPTIONALS && "Frequency" in AP_OPTIONALS;
    assert "PairwiseCiphers" in AP_OPTIONALS && "GroupCipher" in AP_OPTIONALS;
  }

  // ---------- subscriptions ----------

  /** One PropertiesChanged signal of the interface. */
  datatype Event = Event(changed: map<string, Value>, invalidated: seq<string>)

  /** What the object holds after the event; a value sent along with the invalidation is the newer word. */
  function Evolve(props: map<string, Value>, ev: Event): map<string, Value> {
    (props - (set name | name in ev.invalidated)) + ev.changed
  }

  function EvolveAll(props: map<string, Value>, events: seq<Event>): map<string, Value>
    decreases |events|
  {
    if events == [] then props else EvolveAll(Evolve(props, events[0]), events[1..])
  }

  /** A typed subscription: its property, its decoder, what absence means, and whether it heeds invalidation. */
  datatype Subscription<T> = Subscription(name: string, parse: Value -> Decoded<T>, nothing: T, clears: bool)

  /** What the subscription's callback has been given last, after one more event. */
  function Hear<T>(sub: Subscription<T>, held: T, ev: Event): T {
    if sub.name in ev.changed then
      var parsed := sub.parse(ev.changed[sub.name]);
      if parsed.Ok? then parsed.value else held
    else if sub.clears && sub.name in ev.invalidated then sub.nothing
    else held
  }

  function HearAll<T>(sub: Subscription<T>, held: T, events: seq<Event>): T {
    if events == [] then held else HearAll(sub, Hear(sub, held, events[0]), events[1..])
  }

  lemma {:induction false} HearInTwo<T>(sub: Subscription<T>, held: T, first: seq<Event>, second: seq<Event>)
    ensures HearAll(sub, held, first + second) == HearAll(sub, HearAll(sub, held, first), second)
    decreases |first|
  {
    hide Hear;
    if first == [] {
      assert first + second == second;
    } else {
      assert (first + second)[1..] == first[1..] + second;
      HearInTwo(sub, Hear(sub, held, first[0]), first[1..], second);
    }
  }

  lemma {:induction false} EvolveInTwo(props: map<string, Value>, first: seq<Event>, second: seq<Event>)
    ensures EvolveAll(props, first + second) == EvolveAll(EvolveAll(props, first), second)
    decreases |first|
  {
    hide Evolve;
    if first == [] {
      assert first + second == second;
    } else {
      assert (first + second)[1..] == first[1..] + second;
      EvolveInTwo(Evolve(props, first[0]), first[1..], second);
    }
  }

  /** What a fresh bulk read decodes for the property. */
  function Fresh<T>(sub: Subscription<T>, props: map<string, Value>): Decoded<T> {
    if sub.name in props then sub.parse(props[sub.name]) else Ok(sub.nothing)
  }

  ghost predicate Agrees<T>(sub: Subscription<T>, held: T, props: map<string, Value>) {
    Fresh(sub, props).Ok? ==> held == Fresh(sub, props).value
  }

  /**
   * A subscription that heeds invalidation ends, after any events, at the value a fresh read decodes;
   * a malformed value is skipped, and then a fresh read fails.
   */
  lemma {:induction false} SubscriptionAgrees<T>(sub: Subscription<T>, held: T, props: map<string, Value>, events: seq<Event>)
    requires sub.clears && Agrees(sub, held, props)
    ensures Agrees(sub, HearAll(sub, held, events), EvolveAll(props, events))
    decreases |events|
  {
    if events != [] {
      assert Agrees(sub, Hear(sub, held, events[0]), Evolve(props, events[0]));
      SubscriptionAgrees(sub, Hear(sub, held, events[0]), Evolve(props, events[0]), events[1..]);
    }
  }

  predicate Names<T>(sub: Subscription<T>, ev: Event) {
    sub.name in ev.changed || sub.name in ev.invalidated
  }

  /** The last event that names the property only invalidates it, while the subscription holds something. */
  ghost predicate StrandedBy<T>(sub: Subscription<T>, held: T, events: seq<Event>, i: nat) {
    && i < |events| && sub.name in events[i].invalidated && sub.name !in events[i].changed
    && (forall j :: i < j < |events| ==> !Names(sub, events[j]))
    && HearAll(sub, held, events[..i]) != sub.nothing
  }

  ghost predicate Stranded<T>(sub: Subscription<T>, held: T, events: seq<Event>) {
    exists i: nat :: StrandedBy(sub, held, events, i)
  }

  ghost predicate NoneNames<T>(sub: Subscription<T>, events: seq<Event>) {
    forall j :: 0 <= j < |events| ==> !Names(sub, events[j])
  }

  lemma StrandedBehind<T>(sub: Subscription<T>, held: T, events: seq<Event>, i: nat)
    requires events != []
    ensures StrandedBy(sub, held, events, i + 1) <==> StrandedBy(sub, Hear(sub, held, events[0]), events[1..], i)
  {
    var rest := events[1..];
    if i < |rest| {
      assert events[..i + 1][1..] == rest[..i];
      assert events[i + 1] == rest[i];
      assert forall j :: i < j < |rest| ==> rest[j] == events[j + 1];
      assert forall j :: i + 1 < j < |events| ==> events[j] == rest[j - 1];
    }
    hide Hear, Names;
  }

  lemma StrandedFromFirst<T>(sub: Subscription<T>, held: T, events: seq<Event>)
    requires events != []
    ensures Stranded(sub, held, events) <==>
      || Stranded(sub, Hear(sub, held, events[0]), events[1..])
      || (sub.name in events[0].invalidated && sub.name !in events[0].changed && NoneNames(sub, events[1..]) && held != sub.nothing)
  {
    var rest := events[1..];
    var next := Hear(sub, held, events[0]);
    assert events[..0] == [];
    assert NoneNames(sub, rest) <==> forall j :: 0 < j < |events| ==> !Names(sub, events[j]) by {
      assert forall j :: 0 < j < |events| ==> events[j] == rest[j - 1];
      assert forall j :: 0 <= j < |rest| ==> rest[j] == events[j + 1];
      hide Names;
    }
    hide Hear, Names, StrandedBy;
    if i: nat :| StrandedBy(sub, next, rest, i) {
      StrandedBehind(sub, held, events, i);
    }
    if i: nat :| StrandedBy(sub, held, events, i) && i > 0 {
      StrandedBehind(sub, held, events, i - 1);
    }
    FirstStrands(sub, held, events);
  }

  lemma FirstStrands<T>(sub: Subscription<T>, held: T, events: seq<Event>)
    requires events != []
    ensures StrandedBy(sub, held, events, 0) <==>
      && sub.name in events[0].invalidated && sub.name !in events[0].changed
      && (forall j :: 0 < j < |events| ==> !Names(sub, events[j])) && held != sub.nothing
  {
    assert events[..0] == [];
    hide Names;
  }

  /** A deaf subscription from any start: stranded, or wrong already and never corrected. */
  lemma {:induction false} DeafSubscriptionDiffers<T>(sub: Subscription<T>, held: T, props: map<string, Value>, events: seq<Event>)
    requires !sub.clears
    ensures !Agrees(sub, HearAll(sub, held, events), EvolveAll(props, events)) <==>
      Stranded(sub, held, events) || (NoneNames(sub, events) && !Agrees(sub, held, props))
    decreases |events|
  {
    if events != [] {
      var ev, rest := events[0], events[1..];
      StrandedFromFirst(sub, held, events);
      DeafSubscriptionDiffers(sub, Hear(sub, held, ev), Evolve(props, ev), rest);
      assert NoneNames(sub, events) <==> !Names(sub, ev) && NoneNames(sub, rest) by {
        assert forall j :: 0 < j < |events| ==> events[j] == rest[j - 1];
        assert forall j :: 0 <= j < |rest| ==> rest[j] == events[j + 1];
        hide Names;
      }
      hide HearAll, EvolveAll, Stranded, NoneNames;
    }
  }

  /**
   * One that does not goes wrong, over any events, exactly when the last of them that names the
   * property invalidates it without giving a value, while the subscription holds something.
   */
  lemma DeafSubscriptionAgreesExactlyWhen<T>(sub: Subscription<T>, held: T, props: map<string, Value>, events: seq<Event>)
    requires !sub.clears && Agrees(sub, held, props)
    ensures Agrees(sub, HearAll(sub, held, events), EvolveAll(props, events)) <==> !Stranded(sub, held, events)
  {
    DeafSubscriptionDiffers(sub, held, props, events);
    hide Agrees, Stranded, HearAll, EvolveAll;
  }

  // -- the subscriptions of the client

  function ConnectedNetworkChanged(): Subscription<Option<string>> {
    Subscription("ConnectedNetwork", v => ParseOptionalPath("ConnectedNetwork", v), None, true)
  }

  function ConnectedAccessPointChanged(): Subscription<Option<string>> {
    Subscription("ConnectedAccessPoint", v => ParseOptionalPath("ConnectedAccessPoint", v), None, true)
  }

  function KnownNetworkChanged(): Subscription<Option<string>> {
    Subscription("KnownNetwork", v => ParseOptionalPath("KnownNetwork", v), None, true)
  }

  function AffinitiesChanged(): Subscription<Option<seq<string>>> {
    Subscription("Affinities", v => ParseAffinities(v), None, true)
  }

  /** SubscribeScanningChanged of an access point looks at new values only. */
  function ApScanningChanged(): Subscription<bool> {
    Subscription("Scanning", v => ParseBool("Scanning", v), false, false)
  }

  /** After any events a station subscription that started from a bulk read holds what the next one returns. */
  lemma StationSubscriptionsFollowReads(s: Server, events: seq<Event>)
    requires StationSingles(Worded(s, STATION_OPTIONALS)).Some?
    requires StationSingles(Worded(s.(props := EvolveAll(s.props, events)), STATION_OPTIONALS)).Some?
    ensures var start := StationSingles(Worded(s, STATION_OPTIONALS)).value;
      var end := StationSingles(Worded(s.(props := EvolveAll(s.props, events)), STATION_OPTIONALS)).value;
      && HearAll(ConnectedNetworkChanged(), start.network, events) == end.network
      && HearAll(ConnectedAccessPointChanged(), start.ap, events) == end.ap
      && HearAll(AffinitiesChanged(), start.affinities, events) == end.affinities
  {
    var start := StationSingles(Worded(s, STATION_OPTIONALS)).value;
    assert "ConnectedNetwork" in STATION_OPTIONALS && "ConnectedAccessPoint" in STATION_OPTIONALS && "Affinities" in STATION_OPTIONALS;
    hide ParseState, ParseOptionalPath, ParseAffinities, HearAll, EvolveAll;
    SubscriptionAgrees(ConnectedNetworkChanged(), start.network, s.props, events);
    SubscriptionAgrees(ConnectedAccessPointChanged(), start.ap, s.props, events);
    SubscriptionAgrees(AffinitiesChanged(), start.affinities, s.props, events);
  }

  lemma KnownNetworkSubscriptionFollowsReads(s: Server, events: seq<Event>)
    requires NetworkSingles(Worded(s, NETWORK_OPTIONALS)).Some?
    requires NetworkSingles(Worded(s.(props := EvolveAll(s.props, events)), NETWORK_OPTIONALS)).Some?
    ensures HearAll(KnownNetworkChanged(), NetworkSingles(Worded(s, NETWORK_OPTIONALS)).value.known, events)
      == NetworkSingles(Worded(s.(props := EvolveAll(s.props, events)), NETWORK_OPTIONALS)).value.known
  {
    assert "KnownNetwork" in NETWORK_OPTIONALS;
    hide ParsePath, ParseNetworkType, ParsePathList, ParseOptionalPath, HearAll, EvolveAll;
    SubscriptionAgrees(KnownNetworkChanged(), NetworkSingles(Worded(s, NETWORK_OPTIONALS)).value.known, s.props, events);
  }

  const STOPPED: Event := Event(map["Started" := BoolV(false)], ["Scanning", "Name", "Frequency", "PairwiseCiphers", "GroupCipher"])

  /** After any events, an access point stopped while it is known to scan leaves its Scanning subscription at true. */
  lemma StopUnderScanStaysTrue(held: bool, props: map<string, Value>, events: seq<Event>)
    ensures var heard := HearAll(ApScanningChanged(), held, events);
      && HearAll(ApScanningChanged(), held, events + [STOPPED]) == heard
      && (Agrees(ApScanningChanged(), heard, EvolveAll(props, events + [STOPPED])) <==> !heard)
  {
    var sub := ApScanningChanged();
    HearInTwo(sub, held, events, [STOPPED]);
    EvolveInTwo(props, events, [STOPPED]);
    assert STOPPED.invalidated[0] == "Scanning";
    assert [STOPPED][1..] == [];
    var before := EvolveAll(props, events);
    assert EvolveAll(before, [STOPPED]) == Evolve(before, STOPPED);
  }
}

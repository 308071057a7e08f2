/**
 * The errors of the three layers (internal/iwdbus, internal/core and the public package) as trees,
 * and what errors.Is and errors.As find in them. A nil error is None and every wrapper keeps it nil.
 */
module ErrorChain {
  import opened Common

  /** The error names iwd sends that the client recognises; every other name is foreign. */
  datatype DBusName =
    | NameNoAgent | NameAborted | NameBusy | NameFailed | NameNotSupported | NameTimeout | NameInProgress
    | NameNotConfigured | NameNotFound | NameAlreadyExists | NameInvalidArguments | NameInvalidFormat
    | NameNotConnected | NameNotImplemented | NameServiceSetOverlap | NameAlreadyProvisioned | NameNotHidden
    | NameNotAvailable | NamePermissionDenied | NameWscSessionOverlap | NameWscNoCredentials | NameWscNotReachable
    | NameWscWalkTimeExpired | NameWscTimeExpired
    | Foreign(name: string)

  /** The sentinels that errors.Is is asked for. */
  datatype Sentinel =
    | ErrSpiderw | ErrUnavailable | ErrInvalidState | ErrInvalidArgument | ErrInternal
    | ErrCore
    | ErrDBusConnection | ErrDBusMethod | ErrDBusProperty | ErrDBusIntrospection | ErrDBusVariant
    | ErrNoAgent | ErrAborted | ErrBusy | ErrFailed | ErrNotSupported | ErrTimeout | ErrInProgress | ErrNotConfigured
    | ErrNotFound | ErrAlreadyExists | ErrInvalidArguments | ErrInvalidFormat | ErrNotConnected | ErrNotImplemented
    | ErrServiceSetOverlap | ErrAlreadyProvisioned | ErrNotHidden | ErrNotAvailable | ErrPermissionDenied
    | ErrWscSessionOverlap | ErrWscNoCredentials | ErrWscNotReachable | ErrWscWalkTimeExpired | ErrWscTimeExpired
    | ErrOther(id: nat)

  datatype Kind = KindUnavailable | KindInvalidState | KindInvalidArgument | KindOperationFailed | KindInternal | KindUnknown(id: nat)

  /** An error value and what it unwraps to. */
  datatype Error =
    | Leaf(s: Sentinel)                                        // errors.New
    | DBusError(name: DBusName)                                // the reply of the bus
    | Plain(id: nat)                                           // any other error without children
    | Joined(parts: seq<Error>)                                // errors.Join, or several %w
    | IwdError(sort: Sentinel, cause: Error)                   // iwdbus.Error
    | CoreError(kind: Kind, resource: string, cause: Error)    // core.Error
    | PublicError(kind: Kind, resource: string, cause: Error)  // the public Error

  /** iwdErrorSentinels. */
  function TableSentinel(name: DBusName): Option<Sentinel> {
    match name
    case NameNoAgent => Some(ErrNoAgent)
    case NameAborted => Some(ErrAborted)
    case NameBusy => Some(ErrBusy)
    case NameFailed => Some(ErrFailed)
    case NameNotSupported => Some(ErrNotSupported)
    case NameTimeout => Some(ErrTimeout)
    case NameInProgress => Some(ErrInProgress)
    case NameNotConfigured => Some(ErrNotConfigured)
    case NameNotFound => Some(ErrNotFound)
    case NameAlreadyExists => Some(ErrAlreadyExists)
    case NameInvalidArguments => Some(ErrInvalidArguments)
    case NameInvalidFormat => Some(ErrInvalidFormat)
    case NameNotConnected => Some(ErrNotConnected)
    case NameNotImplemented => Some(ErrNotImplemented)
    case NameServiceSetOverlap => Some(ErrServiceSetOverlap)
    case NameAlreadyProvisioned => Some(ErrAlreadyProvisioned)
    case NameNotHidden => Some(ErrNotHidden)
    case NameNotAvailable => Some(ErrNotAvailable)
    case NamePermissionDenied => Some(ErrPermissionDenied)
    case NameWscSessionOverlap => Some(ErrWscSessionOverlap)
    case NameWscNoCredentials => Some(ErrWscNoCredentials)
    case NameWscNotReachable => Some(ErrWscNotReachable)
    case NameWscWalkTimeExpired => Some(ErrWscWalkTimeExpired)
    case NameWscTimeExpired => Some(ErrWscTimeExpired)
    case Foreign(_) => None
  }

  /** sentinelForKind. */
  function SentinelForKind(k: Kind): Sentinel {
    match k
    case KindUnavailable => ErrUnavailable
    case KindInvalidState => ErrInvalidState
    case KindInvalidArgument => ErrInvalidArgument
    case _ => ErrInternal
  }

  /** failure.Public. */
  function PublicKind(k: Kind): Kind {
    if k == KindUnavailable || k == KindInvalidState || k == KindInvalidArgument || k == KindInternal then k else KindInternal
  }

  predicate Category(s: Sentinel) {
    s == ErrUnavailable || s == ErrInvalidState || s == ErrInvalidArgument || s == ErrInternal
  }

  ghost predicate FromTable(s: Sentinel) {
    exists n: DBusName :: TableSentinel(n) == Some(s)
  }

  // ---------- errors.Is and errors.As ----------

  predicate Is(e: Error, s: Sentinel) {
    match e
    case Leaf(x) => x == s
    case DBusError(_) => false
    case Plain(_) => false
    case Joined(parts) => exists i | 0 <= i < |parts| :: Is(parts[i], s)
    case IwdError(sort, cause) => sort == s || Is(cause, s)
    case CoreError(_, _, cause) => s == ErrCore || Is(cause, s)
    case PublicError(k, _, cause) => s == ErrSpiderw || s == SentinelForKind(k) || Is(cause, s)
  }

  /** The first core.Error in the order errors.As looks. */
  function AsCore(e: Error): (r: Option<Error>)
    ensures r.Some? ==> r.value.CoreError?
    decreases e, 1, 0
  {
    match e
    case Leaf(_) => None
    case DBusError(_) => None
    case Plain(_) => None
    case Joined(parts) => FirstCore(e, |parts|)
    case IwdError(_, cause) => AsCore(cause)
    case CoreError(_, _, _) => Some(e)
    case PublicError(_, _, cause) => AsCore(cause)
  }

  /** The first among the last `n` parts of a join. */
  function FirstCore(e: Error, n: nat): (r: Option<Error>)
    requires e.Joined? && n <= |e.parts|
    ensures r.Some? ==> r.value.CoreError?
    decreases e, 0, n
  {
    if n == 0 then None
    else
      var first := AsCore(e.parts[|e.parts| - n]);
      if first.Some? then first else FirstCore(e, n - 1)
  }

  /** Whether errors.As finds a public Error. */
  predicate HasPublic(e: Error) {
    match e
    case Leaf(_) => false
    case DBusError(_) => false
    case Plain(_) => false
    case Joined(parts) => exists i | 0 <= i < |parts| :: HasPublic(parts[i])
    case IwdError(_, cause) => HasPublic(cause)
    case CoreError(_, _, cause) => HasPublic(cause)
    case PublicError(_, _, _) => true
  }

  /** The first reply of the bus in the order errors.As looks. */
  function AsDBus(e: Error): Option<DBusName>
    decreases e, 1, 0
  {
    match e
    case Leaf(_) => None
    case DBusError(name) => Some(name)
    case Plain(_) => None
    case Joined(parts) => FirstDBus(e, |parts|)
    case IwdError(_, cause) => AsDBus(cause)
    case CoreError(_, _, cause) => AsDBus(cause)
    case PublicError(_, _, cause) => AsDBus(cause)
  }

  function FirstDBus(e: Error, n: nat): Option<DBusName>
    requires e.Joined? && n <= |e.parts|
    decreases e, 0, n
  {
    if n == 0 then None
    else
      var first := AsDBus(e.parts[|e.parts| - n]);
      if first.Some? then first else FirstDBus(e, n - 1)
  }

  // ---------- the wrappers ----------

  /** WrapConnection, WrapMethod, WrapProperty, WrapIntrospection and WrapVariant, by their sentinel. */
  function WrapIwd(sort: Sentinel, err: Option<Error>): Option<Error> {
    if err.None? then None else Some(IwdError(sort, err.value))
  }

  function Recognised(e: Error): Option<Sentinel> {
    var name := AsDBus(e);
    if name.Some? then TableSentinel(name.value) else None
  }

  /** wrapIwdMethod (sort ErrDBusMethod) and wrapIwdProperty (sort ErrDBusProperty). */
  function WrapNamed(sort: Sentinel, err: Option<Error>): Option<Error> {
    if err.None? then None
    else
      var named := Recognised(err.value);
      if named.Some? then Some(IwdError(sort, Joined([Leaf(named.value), err.value])))
      else WrapIwd(sort, err)
  }

  datatype Policy = Policy(resource: string, includeProperty: bool)

  /** isUnavailableDBusError. */
  predicate UnavailableOnBus(e: Error, includeProperty: bool) {
    Is(e, ErrDBusConnection) || Is(e, ErrDBusMethod) || Is(e, ErrDBusIntrospection) || Is(e, ErrDBusVariant)
    || (includeProperty && Is(e, ErrDBusProperty))
  }

  /** wrapUnavailable. */
  function WrapUnavailable(err: Option<Error>, policy: Policy): Option<Error> {
    if err.None? then None
    else Some(CoreError(if UnavailableOnBus(err.value, policy.includeProperty) then KindUnavailable else KindOperationFailed,
                        policy.resource, err.value))
  }

  /** wrapPublicError. */
  function WrapPublic(err: Option<Error>): Option<Error> {
    if err.None? then None
    else if HasPublic(err.value) then err
    else
      var core := AsCore(err.value);
      if core.Some? then Some(PublicError(PublicKind(core.value.kind), core.value.resource, err.value))
      else Some(PublicError(KindInternal, "", err.value))
  }

  // ---------- what wrapping keeps ----------

  /** errors.Is on a possibly nil error. */
  predicate Matches(err: Option<Error>, s: Sentinel) {
    err.Some? && Is(err.value, s)
  }

  lemma OfPair(a: Error, b: Error, s: Sentinel)
    ensures Is(Joined([a, b]), s) <==> Is(a, s) || Is(b, s)
    ensures HasPublic(Joined([a, b])) <==> HasPublic(a) || HasPublic(b)
  {
    var parts := [a, b];
    assert parts[0] == a && parts[1] == b;
    assert Is(Joined(parts), s) <==> exists i | 0 <= i < 2 :: Is(parts[i], s);
    assert HasPublic(Joined(parts)) <==> exists i | 0 <= i < 2 :: HasPublic(parts[i]);
  }

  lemma PlainWrapperAddsOnlyItsOwn(sort: Sentinel, err: Option<Error>, s: Sentinel)
    ensures Matches(WrapIwd(sort, err), s) <==> err.Some? && (s == sort || Matches(err, s))
  {
    if err.Some? { OfIwd(sort, err.value, s); }
    hide Is;
  }

  lemma OfLeaf(x: Sentinel, s: Sentinel)
    ensures Is(Leaf(x), s) <==> x == s
  {
  }

  lemma OfNamed(sort: Sentinel, named: Sentinel, e: Error, s: Sentinel)
    ensures Is(IwdError(sort, Joined([Leaf(named), e])), s) <==> s == sort || s == named || Is(e, s)
  {
    hide Is, HasPublic;
    OfLeaf(named, s);
    OfPair(Leaf(named), e, s);
    OfIwd(sort, Joined([Leaf(named), e]), s);
  }

  /** Every wrapper keeps every sentinel, and adds exactly its own. */
  lemma IwdWrappersAddOnlyTheirOwn(sort: Sentinel, err: Option<Error>, s: Sentinel)
    ensures Matches(WrapIwd(sort, err), s) <==> err.Some? && (s == sort || Matches(err, s))
    ensures Matches(WrapNamed(sort, err), s) <==> err.Some? && (s == sort || Recognised(err.value) == Some(s) || Matches(err, s))
  {
    hide Is, Recognised, HasPublic;
    PlainWrapperAddsOnlyItsOwn(sort, err, s);
    if err.Some? && Recognised(err.value).Some? { OfNamed(sort, Recognised(err.value).value, err.value, s); }
  }

  lemma OfIwd(sort: Sentinel, e: Error, s: Sentinel)
    ensures Is(IwdError(sort, e), s) <==> s == sort || Is(e, s)
  {
  }

  lemma CoreWrapperAddsOnlyItsOwn(err: Option<Error>, policy: Policy, s: Sentinel)
    ensures Matches(WrapUnavailable(err, policy), s) <==> err.Some? && (s == ErrCore || Matches(err, s))
  {
  }

  /** The category wrapPublicError files an error under. */
  function Filed(e: Error): Sentinel {
    var core := AsCore(e);
    if core.Some? then SentinelForKind(PublicKind(core.value.kind)) else ErrInternal
  }

  lemma PublicWrapperAddsOnlyItsOwn(err: Option<Error>, s: Sentinel)
    ensures Matches(WrapPublic(err), s) <==>
      err.Some? && (Matches(err, s) || (!HasPublic(err.value) && (s == ErrSpiderw || s == Filed(err.value))))
  {
  }

  lemma PublicWrapperIdempotent(err: Option<Error>)
    ensures WrapPublic(WrapPublic(err)) == WrapPublic(err)
    ensures err.Some? ==> WrapPublic(err).Some? && HasPublic(WrapPublic(err).value)
  {
  }

  // ---------- categories ----------

  /** No sentinel of the public package anywhere. */
  predicate FreeOfPublic(e: Error) {
    !HasPublic(e) && !Is(e, ErrUnavailable) && !Is(e, ErrInvalidState) && !Is(e, ErrInvalidArgument) && !Is(e, ErrInternal)
  }

  ghost predicate ExactlyOneCategory(err: Option<Error>) {
    && (exists s :: Category(s) && Matches(err, s))
    && (forall s, t :: Category(s) && Category(t) && Matches(err, s) && Matches(err, t) ==> s == t)
  }

  lemma WrappedMatches(e: Error)
    requires !HasPublic(e)
    ensures forall s :: Matches(WrapPublic(Some(e)), s) <==> Is(e, s) || s == ErrSpiderw || s == Filed(e)
    ensures Category(Filed(e))
  {
    forall s ensures Matches(WrapPublic(Some(e)), s) <==> Is(e, s) || s == ErrSpiderw || s == Filed(e) {
      PublicWrapperAddsOnlyItsOwn(Some(e), s);
      hide Is, HasPublic, WrapPublic, Filed;
    }
    hide Is, HasPublic, WrapPublic;
  }

  /**
   * A wrapped error that had no public Error matches exactly one category, unless one of the other
   * categories was put into the chain by hand.
   */
  lemma OneCategoryExactlyWhen(e: Error)
    requires !HasPublic(e)
    ensures ExactlyOneCategory(WrapPublic(Some(e))) <==> forall s :: Category(s) && Is(e, s) ==> s == Filed(e)
    ensures Matches(WrapPublic(Some(e)), Filed(e)) && Category(Filed(e))
  {
    hide WrapPublic, Is, AsCore, HasPublic, Matches, Filed;
    WrappedMatches(e);
    assert !Category(ErrSpiderw);
    hide Category;
  }

  lemma FreeChainsMatchOneCategory(e: Error)
    requires FreeOfPublic(e)
    ensures ExactlyOneCategory(WrapPublic(Some(e)))
  {
    OneCategoryExactlyWhen(e);
  }

  // ---------- named errors of iwd ----------

  /** Different names have different sentinels, and none is a category or a sort. */
  lemma TableInjective(a: DBusName, b: DBusName)
    requires TableSentinel(a).Some? && TableSentinel(a) == TableSentinel(b)
    ensures a == b
    ensures !Category(TableSentinel(a).value) && TableSentinel(a).value != ErrSpiderw && TableSentinel(a).value != ErrCore
    ensures TableSentinel(a).value != ErrDBusMethod && TableSentinel(a).value != ErrDBusProperty
  {
  }

  /** A public error matches the sentinel of its package wherever it stands. */
  lemma {:induction false} PublicIsSpiderw(e: Error)
    requires HasPublic(e)
    ensures Is(e, ErrSpiderw)
  {
    match e
    case Joined(parts) =>
      var i :| 0 <= i < |parts| && HasPublic(parts[i]);
      PublicIsSpiderw(parts[i]);
    case IwdError(_, cause) => PublicIsSpiderw(cause);
    case CoreError(_, _, cause) => PublicIsSpiderw(cause);
    case _ =>
  }

  /**
   * Any error tree that carries a recognised reply: a method call ends with that name under every
   * policy, and unavailable unless the tree held a public error of another category already.
   */
  lemma RecognisedMethodErrorEndsUnavailable(e: Error, policy: Policy)
    requires Recognised(e).Some?
    ensures var end := WrapPublic(WrapUnavailable(WrapNamed(ErrDBusMethod, Some(e)), policy));
      && Matches(end, Recognised(e).value) && Matches(end, ErrDBusMethod) && Matches(end, ErrCore) && Matches(end, ErrSpiderw)
      && (Matches(end, ErrUnavailable) <==> !HasPublic(e) || Is(e, ErrUnavailable))
  {
    NameIsNoCategory(e);
    hide Matches, WrapPublic, WrapUnavailable, WrapNamed, Recognised, HasPublic, UnavailableOnBus, Is;
    NamedChain(ErrDBusMethod, e, policy, Recognised(e).value);
    NamedChain(ErrDBusMethod, e, policy, ErrDBusMethod);
    NamedChain(ErrDBusMethod, e, policy, ErrUnavailable);
    NamedChain(ErrDBusMethod, e, policy, ErrCore);
    NamedChain(ErrDBusMethod, e, policy, ErrSpiderw);
    MethodIsUnavailable(e, policy);
    if HasPublic(e) { PublicIsSpiderw(e); }
  }

  lemma NameIsNoCategory(e: Error)
    ensures Recognised(e) != Some(ErrUnavailable)
  {
    hide AsDBus;
  }

  lemma MethodIsUnavailable(e: Error, policy: Policy)
    ensures UnavailableOnBus(WrapNamed(ErrDBusMethod, Some(e)).value, policy.includeProperty)
  {
    IwdWrappersAddOnlyTheirOwn(ErrDBusMethod, Some(e), ErrDBusMethod);
    hide Is, Recognised;
  }

  /** What the three layers make of a recognised reply, for every sentinel. */
  lemma NamedChain(sort: Sentinel, e: Error, policy: Policy, s: Sentinel)
    requires Recognised(e).Some?
    ensures var low := WrapNamed(sort, Some(e)); var end := WrapPublic(WrapUnavailable(low, policy));
      Matches(end, s) <==>
        || Is(e, s) || s == sort || Some(s) == Recognised(e) || s == ErrCore
        || (!HasPublic(e)
            && (s == ErrSpiderw || s == if UnavailableOnBus(low.value, policy.includeProperty) then ErrUnavailable else ErrInternal))
  {
    hide TableSentinel, AsDBus, Is;
    var low := WrapNamed(sort, Some(e));
    IwdWrappersAddOnlyTheirOwn(sort, Some(e), s);
    CoreWrapperAddsOnlyItsOwn(low, policy, s);
    PublicWrapperAddsOnlyItsOwn(WrapUnavailable(low, policy), s);
    PublicBelow(sort, e);
  }

  lemma PublicBelow(sort: Sentinel, e: Error)
    ensures HasPublic(WrapNamed(sort, Some(e)).value) <==> HasPublic(e)
  {
    hide TableSentinel, AsDBus;
    if Recognised(e).Some? { OfPair(Leaf(Recognised(e).value), e, ErrCore); }
  }

  lemma TableIsApart(s: Sentinel)
    requires FromTable(s)
    ensures !Category(s) && s != ErrSpiderw && s != ErrCore && s != ErrDBusMethod && s != ErrDBusProperty
  {
    var n: DBusName :| TableSentinel(n) == Some(s);
    TableInjective(n, n);
  }

  /** A plain recognised reply to a method call is unavailable and nothing else, and has that one name. */
  lemma NamedMethodErrorEndsUnavailable(name: DBusName, policy: Policy, s: Sentinel)
    requires TableSentinel(name).Some?
    ensures var end := WrapPublic(WrapUnavailable(WrapNamed(ErrDBusMethod, Some(DBusError(name))), policy));
      && (Category(s) ==> (Matches(end, s) <==> s == ErrUnavailable))
      && (FromTable(s) ==> (Matches(end, s) <==> Some(s) == TableSentinel(name)))
  {
    PlainReply(name, s);
    hide Matches, WrapNamed, WrapUnavailable, WrapPublic, TableSentinel, UnavailableOnBus, Recognised, HasPublic, Is;
    MethodIsUnavailable(DBusError(name), policy);
    NamedChain(ErrDBusMethod, DBusError(name), policy, s);
    TableInjective(name, name);
    if FromTable(s) { TableIsApart(s); }
    hide FromTable;
  }

  lemma PlainReply(name: DBusName, s: Sentinel)
    ensures Recognised(DBusError(name)) == TableSentinel(name) && !Is(DBusError(name), s) && !HasPublic(DBusError(name))
  {
  }

  /** To a property access it is unavailable only where the policy counts properties, and internal elsewhere. */
  lemma NamedPropertyErrorEnds(name: DBusName, policy: Policy, s: Sentinel)
    requires TableSentinel(name).Some?
    ensures var end := WrapPublic(WrapUnavailable(WrapNamed(ErrDBusProperty, Some(DBusError(name))), policy));
      && (Category(s) ==> (Matches(end, s) <==> s == if policy.includeProperty then ErrUnavailable else ErrInternal))
      && (FromTable(s) ==> (Matches(end, s) <==> Some(s) == TableSentinel(name)))
  {
    PlainReply(name, s);
    hide Matches, WrapNamed, WrapUnavailable, WrapPublic, TableSentinel, UnavailableOnBus, Recognised, HasPublic, Is;
    PropertyIsUnavailableByPolicy(name, policy);
    NamedChain(ErrDBusProperty, DBusError(name), policy, s);
    TableInjective(name, name);
    if FromTable(s) { TableIsApart(s); }
    hide FromTable;
  }

  lemma PropertyIsUnavailableByPolicy(name: DBusName, policy: Policy)
    requires TableSentinel(name).Some?
    ensures UnavailableOnBus(WrapNamed(ErrDBusProperty, Some(DBusError(name))).value, policy.includeProperty) <==> policy.includeProperty
  {
    LowMatches(name, ErrDBusProperty);
    hide WrapNamed, TableSentinel, Is;
  }

  predicate BusSort(s: Sentinel) {
    s == ErrDBusConnection || s == ErrDBusMethod || s == ErrDBusIntrospection || s == ErrDBusVariant || s == ErrDBusProperty
  }

  /** Of the five sorts a wrapped plain reply matches its own only. */
  lemma LowMatches(name: DBusName, sort: Sentinel)
    requires TableSentinel(name).Some?
    ensures forall s: Sentinel :: BusSort(s) ==> (Is(WrapNamed(sort, Some(DBusError(name))).value, s) <==> s == sort)
  {
    forall s: Sentinel | BusSort(s) ensures Is(WrapNamed(sort, Some(DBusError(name))).value, s) <==> s == sort {
      OneSort(name, sort, s);
    }
  }

  lemma OneSort(name: DBusName, sort: Sentinel, s: Sentinel)
    requires TableSentinel(name).Some? && BusSort(s)
    ensures Is(WrapNamed(sort, Some(DBusError(name))).value, s) <==> s == sort
  {
    IwdWrappersAddOnlyTheirOwn(sort, Some(DBusError(name)), s);
    NoSortInTable(name);
    hide TableSentinel;
  }

  lemma NoSortInTable(name: DBusName)
    ensures TableSentinel(name) != Some(ErrDBusConnection) && TableSentinel(name) != Some(ErrDBusMethod)
    ensures TableSentinel(name) != Some(ErrDBusIntrospection) && TableSentinel(name) != Some(ErrDBusVariant)
    ensures TableSentinel(name) != Some(ErrDBusProperty)
  {
  }

  // ---------- any stack of wrappers ----------

  datatype Wrapper = ByIwd(sort: Sentinel) | ByName(sort: Sentinel) | ByCore(policy: Policy) | ByPublic

  function WrapAll(err: Option<Error>, wrappers: seq<Wrapper>): Option<Error> {
    if wrappers == [] then err
    else
      var below := WrapAll(err, wrappers[..|wrappers| - 1]);
      match wrappers[|wrappers| - 1]
      case ByIwd(sort) => WrapIwd(sort, below)
      case ByName(sort) => WrapNamed(sort, below)
      case ByCore(policy) => WrapUnavailable(below, policy)
      case ByPublic => WrapPublic(below)
  }

  /** Through any layers in any order every sentinel stays matchable, and nil stays nil. */
  lemma {:induction false} EverySentinelSurvives(err: Option<Error>, wrappers: seq<Wrapper>, s: Sentinel)
    ensures Matches(err, s) ==> Matches(WrapAll(err, wrappers), s)
    ensures err.None? <==> WrapAll(err, wrappers).None?
    decreases |wrappers|
  {
    hide Is, AsDBus, AsCore, TableSentinel, HasPublic;
    if wrappers != [] {
      var below := WrapAll(err, wrappers[..|wrappers| - 1]);
      EverySentinelSurvives(err, wrappers[..|wrappers| - 1], s);
      match wrappers[|wrappers| - 1]
      case ByIwd(sort) => IwdWrappersAddOnlyTheirOwn(sort, below, s);
      case ByName(sort) => IwdWrappersAddOnlyTheirOwn(sort, below, s);
      case ByCore(policy) => CoreWrapperAddsOnlyItsOwn(below, policy, s);
      case ByPublic => PublicWrapperAddsOnlyItsOwn(below, s);
    }
  }
}

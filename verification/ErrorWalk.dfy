/**
 * The errors of ErrorChain against three references of their own: the one depth-first walk that
 * errors.Is and errors.As make over what an error unwraps to, the wire names of iwd's errors, and the
 * public category, kind and resource an error is filed under.
 */
module ErrorWalk {
  import opened Common
  import opened ErrorChain

  // ---------- the walk of errors.Is and errors.As ----------

  /** An error and all it unwraps to, depth first; a typed error unwraps to its sentinels before its cause. */
  function Walk(e: Error): (w: seq<Error>)
    ensures |w| > 0
    decreases e, 1, 0
  {
    match e
    case Leaf(_) => [e]
    case DBusError(_) => [e]
    case Plain(_) => [e]
    case Joined(parts) => [e] + WalkParts(e, |parts|)
    case IwdError(sort, cause) => [e, Leaf(sort)] + Walk(cause)
    case CoreError(_, _, cause) => [e, Leaf(ErrCore)] + Walk(cause)
    case PublicError(kind, _, cause) => [e, Leaf(ErrSpiderw), Leaf(SentinelForKind(kind))] + Walk(cause)
  }

  /** The walk over the last `n` parts of a join. */
  function WalkParts(e: Error, n: nat): seq<Error>
    requires e.Joined? && n <= |e.parts|
    decreases e, 0, n
  {
    if n == 0 then [] else Walk(e.parts[|e.parts| - n]) + WalkParts(e, n - 1)
  }

  /** The first error of a walk that a type asks for. */
  function First(w: seq<Error>, wanted: Error -> bool): Option<Error> {
    if w == [] then None else if wanted(w[0]) then Some(w[0]) else First(w[1..], wanted)
  }

  lemma {:induction false} FirstOfBoth(a: seq<Error>, b: seq<Error>, wanted: Error -> bool)
    ensures First(a + b, wanted) == if First(a, wanted).Some? then First(a, wanted) else First(b, wanted)
  {
    if a == [] {
      assert a + b == b;
    } else {
      assert (a + b)[1..] == a[1..] + b;
      FirstOfBoth(a[1..], b, wanted);
    }
  }

  lemma {:induction false} FirstExists(w: seq<Error>, wanted: Error -> bool)
    ensures First(w, wanted).Some? <==> exists x :: x in w && wanted(x)
    ensures First(w, wanted).Some? ==> First(w, wanted).value in w && wanted(First(w, wanted).value)
  {
    if w != [] { FirstExists(w[1..], wanted); }
  }

  /** errors.Is finds a sentinel exactly when the walk comes to it. */
  lemma {:induction false} IsFindsExactlyTheWalked(e: Error, s: Sentinel)
    ensures Is(e, s) <==> Leaf(s) in Walk(e)
    decreases e, 1, 0
  {
    match e
    case Joined(parts) => IsInParts(e, |parts|, s);
    case IwdError(_, cause) => IsFindsExactlyTheWalked(cause, s);
    case CoreError(_, _, cause) => IsFindsExactlyTheWalked(cause, s);
    case PublicError(_, _, cause) => IsFindsExactlyTheWalked(cause, s);
    case _ =>
  }

  lemma {:induction false} IsInParts(e: Error, n: nat, s: Sentinel)
    requires e.Joined? && n <= |e.parts|
    ensures (exists i | |e.parts| - n <= i < |e.parts| :: Is(e.parts[i], s)) <==> Leaf(s) in WalkParts(e, n)
    decreases e, 0, n
  {
    if n > 0 {
      IsFindsExactlyTheWalked(e.parts[|e.parts| - n], s);
      IsInParts(e, n - 1, s);
    }
  }

  predicate IsCore(e: Error) { e.CoreError? }

  predicate IsReply(e: Error) { e.DBusError? }

  /** What the walk passes over at the top changes nothing. */
  lemma PassedOver(top: seq<Error>, rest: seq<Error>, wanted: Error -> bool)
    requires forall x :: x in top ==> !wanted(x)
    ensures First(top + rest, wanted) == First(rest, wanted)
  {
    FirstExists(top, wanted);
    FirstOfBoth(top, rest, wanted);
  }

  /** What errors.As finds on its way to a core error: the first of the walk, or none when it has none. */
  lemma {:induction false} CoreFoundFirst(e: Error)
    ensures AsCore(e) == First(Walk(e), IsCore)
    decreases e, 1, 0
  {
    match e
    case Joined(parts) =>
      CoreInParts(e, |parts|);
      PassedOver([e], WalkParts(e, |parts|), IsCore);
    case IwdError(sort, cause) =>
      CoreFoundFirst(cause);
      PassedOver([e, Leaf(sort)], Walk(cause), IsCore);
    case PublicError(kind, _, cause) =>
      CoreFoundFirst(cause);
      PassedOver([e, Leaf(ErrSpiderw), Leaf(SentinelForKind(kind))], Walk(cause), IsCore);
    case _ =>
  }

  lemma {:induction false} CoreInParts(e: Error, n: nat)
    requires e.Joined? && n <= |e.parts|
    ensures FirstCore(e, n) == First(WalkParts(e, n), IsCore)
    decreases e, 0, n
  {
    if n > 0 {
      CoreFoundFirst(e.parts[|e.parts| - n]);
      CoreInParts(e, n - 1);
      FirstOfBoth(Walk(e.parts[|e.parts| - n]), WalkParts(e, n - 1), IsCore);
    }
  }

  function NameOf(reply: Option<Error>): Option<DBusName> {
    if reply.Some? && reply.value.DBusError? then Some(reply.value.name) else None
  }

  /** The same for the reply of the bus. */
  lemma {:induction false} ReplyFoundFirst(e: Error)
    ensures AsDBus(e) == NameOf(First(Walk(e), IsReply))
    decreases e, 1, 0
  {
    match e
    case Joined(parts) =>
      ReplyInParts(e, |parts|);
      PassedOver([e], WalkParts(e, |parts|), IsReply);
    case IwdError(sort, cause) =>
      ReplyFoundFirst(cause);
      PassedOver([e, Leaf(sort)], Walk(cause), IsReply);
    case CoreError(_, _, cause) =>
      ReplyFoundFirst(cause);
      PassedOver([e, Leaf(ErrCore)], Walk(cause), IsReply);
    case PublicError(kind, _, cause) =>
      ReplyFoundFirst(cause);
      PassedOver([e, Leaf(ErrSpiderw), Leaf(SentinelForKind(kind))], Walk(cause), IsReply);
    case _ =>
  }

  lemma {:induction false} ReplyInParts(e: Error, n: nat)
    requires e.Joined? && n <= |e.parts|
    ensures FirstDBus(e, n) == NameOf(First(WalkParts(e, n), IsReply))
    decreases e, 0, n
  {
    if n > 0 {
      var here := e.parts[|e.parts| - n];
      ReplyFoundFirst(here);
      ReplyInParts(e, n - 1);
      FirstExists(Walk(here), IsReply);
      FirstOfBoth(Walk(here), WalkParts(e, n - 1), IsReply);
    }
  }

  /** A public error is found exactly when the walk comes to one. */
  lemma {:induction false} PublicFoundExactly(e: Error)
    ensures HasPublic(e) <==> exists x :: x in Walk(e) && x.PublicError?
    decreases e, 1, 0
  {
    match e
    case Joined(parts) => PublicInParts(e, |parts|);
    case IwdError(_, cause) => PublicFoundExactly(cause);
    case CoreError(_, _, cause) => PublicFoundExactly(cause);
    case PublicError(_, _, _) => assert e in Walk(e);
    case _ =>
  }

  lemma {:induction false} PublicInParts(e: Error, n: nat)
    requires e.Joined? && n <= |e.parts|
    ensures (exists i | |e.parts| - n <= i < |e.parts| :: HasPublic(e.parts[i])) <==> exists x :: x in WalkParts(e, n) && x.PublicError?
    decreases e, 0, n
  {
    if n > 0 {
      PublicFoundExactly(e.parts[|e.parts| - n]);
      PublicInParts(e, n - 1);
    }
  }

  // ---------- the names of iwd ----------

  const IWD: string := "net.connman.iwd"
  const WSC: string := "net.connman.iwd.SimpleConfiguration"

  /** The error name iwd puts in a reply: the interface it belongs to and the local part. */
  function WireName(name: DBusName): Option<(string, string)> {
    match name
    case NameNoAgent => Some((IWD, "NoAgent"))
    case NameAborted => Some((IWD, "Aborted"))
    case NameBusy => Some((IWD, "Busy"))
    case NameFailed => Some((IWD, "Failed"))
    case NameNotSupported => Some((IWD, "NotSupported"))
    case NameTimeout => Some((IWD, "Timeout"))
    case NameInProgress => Some((IWD, "InProgress"))
    case NameNotConfigured => Some((IWD, "NotConfigured"))
    case NameNotFound => Some((IWD, "NotFound"))
    case NameAlreadyExists => Some((IWD, "AlreadyExists"))
    case NameInvalidArguments => Some((IWD, "InvalidArguments"))
    case NameInvalidFormat => Some((IWD, "InvalidFormat"))
    case NameNotConnected => Some((IWD, "NotConnected"))
    case NameNotImplemented => Some((IWD, "NotImplemented"))
    case NameServiceSetOverlap => Some((IWD, "ServiceSetOverlap"))
    case NameAlreadyProvisioned => Some((IWD, "AlreadyProvisioned"))
    case NameNotHidden => Some((IWD, "NotHidden"))
    case NameNotAvailable => Some((IWD, "NotAvailable"))
    case NamePermissionDenied => Some((IWD, "PermissionDenied"))
    case NameWscSessionOverlap => Some((WSC, "SessionOverlap"))
    case NameWscNoCredentials => Some((WSC, "NoCredentials"))
    case NameWscNotReachable => Some((WSC, "NotReachable"))
    case NameWscWalkTimeExpired => Some((WSC, "WalkTimeExpired"))
    case NameWscTimeExpired => Some((WSC, "TimeExpired"))
    case Foreign(_) => None
  }

  /**
   * The sentinels for iwd's errors by the names the package declares them under, where ErrWSC marks the errors of
   * SimpleConfiguration and Err all others.
   */
  function DeclaredAs(s: Sentinel): Option<(string, string)> {
    match s
    case ErrNoAgent => Some((IWD, "NoAgent"))
    case ErrAborted => Some((IWD, "Aborted"))
    case ErrBusy => Some((IWD, "Busy"))
    case ErrFailed => Some((IWD, "Failed"))
    case ErrNotSupported => Some((IWD, "NotSupported"))
    case ErrTimeout => Some((IWD, "Timeout"))
    case ErrInProgress => Some((IWD, "InProgress"))
    case ErrNotConfigured => Some((IWD, "NotConfigured"))
    case ErrNotFound => Some((IWD, "NotFound"))
    case ErrAlreadyExists => Some((IWD, "AlreadyExists"))
    case ErrInvalidArguments => Some((IWD, "InvalidArguments"))
    case ErrInvalidFormat => Some((IWD, "InvalidFormat"))
    case ErrNotConnected => Some((IWD, "NotConnected"))
    case ErrNotImplemented => Some((IWD, "NotImplemented"))
    case ErrServiceSetOverlap => Some((IWD, "ServiceSetOverlap"))
    case ErrAlreadyProvisioned => Some((IWD, "AlreadyProvisioned"))
    case ErrNotHidden => Some((IWD, "NotHidden"))
    case ErrNotAvailable => Some((IWD, "NotAvailable"))
    case ErrPermissionDenied => Some((IWD, "PermissionDenied"))
    case ErrWscSessionOverlap => Some((WSC, "SessionOverlap"))
    case ErrWscNoCredentials => Some((WSC, "NoCredentials"))
    case ErrWscNotReachable => Some((WSC, "NotReachable"))
    case ErrWscWalkTimeExpired => Some((WSC, "WalkTimeExpired"))
    case ErrWscTimeExpired => Some((WSC, "TimeExpired"))
    case _ => None
  }

  ghost predicate FollowsItsName(name: DBusName) {
    && (TableSentinel(name).Some? <==> WireName(name).Some?)
    && (TableSentinel(name).Some? ==> DeclaredAs(TableSentinel(name).value) == WireName(name))
  }

  lemma FirstNames(name: DBusName)
    requires name in {NameNoAgent, NameAborted, NameBusy, NameFailed, NameNotSupported, NameTimeout, NameInProgress, NameNotConfigured}
    ensures FollowsItsName(name)
  {
  }

  lemma MoreNames(name: DBusName)
    requires name in {NameNotFound, NameAlreadyExists, NameInvalidArguments, NameInvalidFormat, NameNotConnected, NameNotImplemented,
                      NameServiceSetOverlap, NameAlreadyProvisioned}
    ensures FollowsItsName(name)
  {
  }

  lemma LastNames(name: DBusName)
    requires name in {NameNotHidden, NameNotAvailable, NamePermissionDenied} || name.Foreign?
    ensures FollowsItsName(name)
  {
  }

  lemma WscNames(name: DBusName)
    requires name in {NameWscSessionOverlap, NameWscNoCredentials, NameWscNotReachable, NameWscWalkTimeExpired, NameWscTimeExpired}
    ensures FollowsItsName(name)
  {
  }

  /** The sentinel of a name is the one declared under its local part, marked for the errors of WSC. */
  lemma TableFollowsTheNames(name: DBusName)
    ensures TableSentinel(name).Some? <==> WireName(name).Some?
    ensures TableSentinel(name).Some? ==> DeclaredAs(TableSentinel(name).value) == WireName(name)
  {
    hide TableSentinel, DeclaredAs, WireName;
    if name in {NameNoAgent, NameAborted, NameBusy, NameFailed, NameNotSupported, NameTimeout, NameInProgress, NameNotConfigured} {
      FirstNames(name);
    } else if name in {NameNotFound, NameAlreadyExists, NameInvalidArguments, NameInvalidFormat, NameNotConnected, NameNotImplemented,
                       NameServiceSetOverlap, NameAlreadyProvisioned} {
      MoreNames(name);
    } else if name in {NameWscSessionOverlap, NameWscNoCredentials, NameWscNotReachable, NameWscWalkTimeExpired, NameWscTimeExpired} {
      WscNames(name);
    } else {
      LastNames(name);
    }
  }

  // ---------- kinds and resources ----------

  /** The category a core failure of this kind is promised to end in. */
  function Promised(k: Kind): Sentinel {
    if k.KindUnavailable? then ErrUnavailable
    else if k.KindInvalidState? then ErrInvalidState
    else if k.KindInvalidArgument? then ErrInvalidArgument
    else ErrInternal
  }

  /**
   * A core failure that leaves the package matches the category of its kind and no other, and the
   * public error carries its resource and its kind, internal standing for the kinds not made public.
   */
  lemma CoreFailureEnds(e: Error, s: Sentinel)
    requires FreeOfPublic(e) && AsCore(e).Some? && Category(s)
    ensures var end := WrapPublic(Some(e)); var core := AsCore(e).value;
      && (Matches(end, s) <==> s == Promised(core.kind))
      && end.Some? && end.value.PublicError? && end.value.cause == e && end.value.resource == core.resource
      && end.value.kind == (if core.kind.KindOperationFailed? || core.kind.KindUnknown? then KindInternal else core.kind)
  {
    PublicWrapperAddsOnlyItsOwn(Some(e), s);
    hide Is, HasPublic, AsCore;
  }

  /** Any other error leaves it internal, with no resource. */
  lemma OtherErrorEnds(e: Error, s: Sentinel)
    requires FreeOfPublic(e) && AsCore(e).None? && Category(s)
    ensures var end := WrapPublic(Some(e));
      (Matches(end, s) <==> s == ErrInternal) && end == Some(PublicError(KindInternal, "", e))
  {
    PublicWrapperAddsOnlyItsOwn(Some(e), s);
    hide Is, HasPublic, AsCore;
  }

  /** How the core layer files such a failure. */
  lemma FailureClassified(sort: Sentinel, e: Error, policy: Policy)
    requires !Category(sort) && FreeOfPublic(e) && forall x :: BusSort(x) ==> !Is(e, x)
    ensures var mid := WrapUnavailable(WrapIwd(sort, Some(e)), policy);
      && mid.Some? && mid.value.CoreError? && mid.value.resource == policy.resource
      && AsCore(mid.value) == mid && FreeOfPublic(mid.value)
      && mid.value.kind == (if sort in {ErrDBusConnection, ErrDBusMethod, ErrDBusIntrospection, ErrDBusVariant}
                               || (sort == ErrDBusProperty && policy.includeProperty) then KindUnavailable else KindOperationFailed)
  {
    SortClassified(sort, e, policy.includeProperty);
    SortedIsFree(sort, e, KindUnavailable, policy.resource);
    SortedIsFree(sort, e, KindOperationFailed, policy.resource);
    hide Is, UnavailableOnBus, FreeOfPublic;
  }

  lemma SortClassified(sort: Sentinel, e: Error, includeProperty: bool)
    requires forall x :: BusSort(x) ==> !Is(e, x)
    ensures UnavailableOnBus(IwdError(sort, e), includeProperty) <==>
      sort in {ErrDBusConnection, ErrDBusMethod, ErrDBusIntrospection, ErrDBusVariant} || (sort == ErrDBusProperty && includeProperty)
  {
    hide Is;
    OfIwd(sort, e, ErrDBusConnection);
    OfIwd(sort, e, ErrDBusMethod);
    OfIwd(sort, e, ErrDBusIntrospection);
    OfIwd(sort, e, ErrDBusVariant);
    OfIwd(sort, e, ErrDBusProperty);
  }

  lemma SortedIsFree(sort: Sentinel, e: Error, kind: Kind, resource: string)
    requires !Category(sort) && FreeOfPublic(e)
    ensures FreeOfPublic(CoreError(kind, resource, IwdError(sort, e)))
  {
    forall x ensures Is(IwdError(sort, e), x) <==> x == sort || Is(e, x) { OfIwd(sort, e, x); }
  }

  /**
   * What the sort of a failed bus operation comes to. Over a cause with no sort and no category of its
   * own, connection, method, introspection and variant failures end unavailable, property failures
   * where the policy of the resource counts them, and all else internal; the resource is the policy's.
   */
  lemma BusFailureEnds(sort: Sentinel, e: Error, policy: Policy, s: Sentinel)
    requires !Category(sort) && FreeOfPublic(e) && (forall x :: BusSort(x) ==> !Is(e, x)) && Category(s)
    ensures var end := WrapPublic(WrapUnavailable(WrapIwd(sort, Some(e)), policy));
      var unavailable := sort in {ErrDBusConnection, ErrDBusMethod, ErrDBusIntrospection, ErrDBusVariant}
                         || (sort == ErrDBusProperty && policy.includeProperty);
      && (Matches(end, s) <==> s == if unavailable then ErrUnavailable else ErrInternal)
      && end.Some? && end.value.PublicError? && end.value.resource == policy.resource
  {
    FailureClassified(sort, e, policy);
    hide Is, HasPublic, AsCore, WrapPublic, WrapUnavailable, WrapIwd;
    CoreFailureEnds(WrapUnavailable(WrapIwd(sort, Some(e)), policy).value, s);
  }
}

/**
 * The two string-keyed handler maps of internal/iwdbus/introspect.go against the plain list of
 * live registrations they stand for.
 */
module SignalIndex {
  import opened Common
  import opened DBusNames

  /** A callback, known only by its identity. */
  type Callback = int

  /** One live registration: what the caller asked for, and the id it was given. */
  datatype Registration = Registration(id: nat, iface: string, member: string, fn: Callback)

  /** Where a registration is stored: which of the two maps, and under which key. */
  datatype Slot = Exact(key: string) | Wildcard(key: string)

  /** The four-way switch of the registration code. */
  function SlotFor(iface: string, member: string): Slot {
    if iface == "*" && member == "*" then Wildcard("*")
    else if iface == "*" then Wildcard(member)
    else if member == "*" then Wildcard(iface + ".*")
    else Exact(iface + "." + member)
  }

  function SlotOf(r: Registration): Slot {
    SlotFor(r.iface, r.member)
  }

  /** The registrations kept in one bucket. */
  function InSlot(live: seq<Registration>, slot: Slot): seq<Registration> {
    Filter(live, (r: Registration) => SlotOf(r) == slot)
  }

  /** The four buckets that resolveHandlers reads for a signal, in the order it reads them. */
  function SlotsRead(name: string): seq<Slot> {
    var (iface, member) := SplitSignalName(name);
    [Exact(iface + "." + member), Wildcard(member), Wildcard(iface + ".*"), Wildcard("*")]
  }

  /** What the string-keyed maps return for a signal. */
  function ByKeys(live: seq<Registration>, name: string): seq<Registration> {
    var slots := SlotsRead(name);
    InSlot(live, slots[0]) + InSlot(live, slots[1]) + InSlot(live, slots[2]) + InSlot(live, slots[3])
  }

  // ---------- the reference meaning, without keys ----------

  datatype Group = ExactPair | AnyInterface | AnyMember | Anything

  function GroupOf(r: Registration): Group {
    if r.iface == "*" then (if r.member == "*" then Anything else AnyInterface)
    else if r.member == "*" then AnyMember
    else ExactPair
  }

  /** A registration asks for a signal when each half is the wildcard or equal. */
  predicate Matches(r: Registration, iface: string, member: string) {
    (r.iface == "*" || r.iface == iface) && (r.member == "*" || r.member == member)
  }

  function MatchingIn(live: seq<Registration>, group: Group, iface: string, member: string): seq<Registration> {
    Filter(live, (r: Registration) => GroupOf(r) == group && Matches(r, iface, member))
  }

  /** What a caller is owed: the matching registrations, grouped from exact to unrestricted. */
  function ByMeaning(live: seq<Registration>, name: string): seq<Registration> {
    var (iface, member) := SplitSignalName(name);
    MatchingIn(live, ExactPair, iface, member) + MatchingIn(live, AnyInterface, iface, member)
    + MatchingIn(live, AnyMember, iface, member) + MatchingIn(live, Anything, iface, member)
  }

  predicate FaithfulFor(live: seq<Registration>, name: string) {
    ByKeys(live, name) == ByMeaning(live, name)
  }

  function GroupRank(g: Group): nat {
    match g
    case ExactPair => 0
    case AnyInterface => 1
    case AnyMember => 2
    case Anything => 3
  }

  // ---------- when the keys are faithful ----------

  predicate EndsWith(s: string, suffix: string) {
    |suffix| <= |s| && s[|s| - |suffix|..] == suffix
  }

  /** A registration whose key cannot be mistaken for another's: checkable before registering. */
  predicate KeySafe(r: Registration) {
    match GroupOf(r)
    case ExactPair => '.' !in r.member || EndsWith(r.member, ".*")
    case AnyInterface => !EndsWith(r.member, ".*")
    case AnyMember => true
    case Anything => true
  }

  /** Every member the bus allows is safe. */
  lemma ValidNamesAreKeySafe(r: Registration)
    requires r.member == "*" || ValidMember(r.member)
    ensures KeySafe(r)
  {
    DottedEnding(r.member);
  }

  lemma DottedEnding(s: string)
    ensures EndsWith(s, ".*") ==> '.' in s
  {
    if EndsWith(s, ".*") {
      assert s[|s| - 2..][0] == '.';
    }
  }

  function SignalMember(name: string): string {
    SplitSignalName(name).1
  }

  lemma DotStarSuffix(a: string, b: string)
    ensures a + ".*" == b + ".*" <==> a == b
    ensures EndsWith(a + ".*", ".*") && '.' in a + ".*" && a + ".*" != "*"
  {
    assert a == (a + ".*")[..|a + ".*"| - 2];
    assert b == (b + ".*")[..|b + ".*"| - 2];
    assert (a + ".*")[|a|] == '.';
  }

  // ---------- each match once, in id order ----------

  predicate IncreasingIds(s: seq<Registration>) {
    forall i, j :: 0 <= i < j < |s| ==> s[i].id < s[j].id
  }

  lemma IncreasingCons(r: Registration, s: seq<Registration>)
    requires IncreasingIds(s) && forall x :: x in s ==> r.id < x.id
    ensures IncreasingIds([r] + s)
  {
  }

  lemma {:induction false} FilterKeepsOrder(s: seq<Registration>, keep: Registration -> bool)
    requires IncreasingIds(s)
    ensures IncreasingIds(Filter(s, keep))
  {
    if s != [] {
      var rest := Filter(s[1..], keep);
      FilterKeepsOrder(s[1..], keep);
      assert forall x :: x in s[1..] ==> s[0].id < x.id;
      IncreasingCons(s[0], rest);
      assert Filter(s, keep) == if keep(s[0]) then [s[0]] + rest else rest;
    }
  }

  lemma {:induction false} IncreasingIdsOnce(s: seq<Registration>, r: Registration)
    requires IncreasingIds(s)
    ensures multiset(s)[r] == if r in s then 1 else 0
  {
    if s != [] {
      assert s == [s[0]] + s[1..];
      IncreasingIdsOnce(s[1..], r);
    }
  }

  lemma MeantOnce(live: seq<Registration>, name: string, r: Registration)
    requires IncreasingIds(live)
    ensures var (iface, member) := SplitSignalName(name);
            multiset(ByMeaning(live, name))[r] == if r in live && Matches(r, iface, member) then 1 else 0
  {
    var (iface, member) := SplitSignalName(name);
    IncreasingIdsOnce(live, r);
    FilterCount(live, (x: Registration) => GroupOf(x) == ExactPair && Matches(x, iface, member), r);
    FilterCount(live, (x: Registration) => GroupOf(x) == AnyInterface && Matches(x, iface, member), r);
    FilterCount(live, (x: Registration) => GroupOf(x) == AnyMember && Matches(x, iface, member), r);
    FilterCount(live, (x: Registration) => GroupOf(x) == Anything && Matches(x, iface, member), r);
  }

  /** Exact before any-interface before any-member before all, and by id inside a group. */
  predicate InDocumentedOrder(s: seq<Registration>) {
    forall i, j :: 0 <= i < j < |s| ==>
      GroupRank(GroupOf(s[i])) < GroupRank(GroupOf(s[j]))
      || (GroupOf(s[i]) == GroupOf(s[j]) && s[i].id < s[j].id)
  }

  lemma MatchingInShape(live: seq<Registration>, group: Group, iface: string, member: string)
    requires IncreasingIds(live)
    ensures IncreasingIds(MatchingIn(live, group, iface, member))
    ensures forall x :: x in MatchingIn(live, group, iface, member) ==> GroupOf(x) == group
  {
    FilterKeepsOrder(live, (x: Registration) => GroupOf(x) == group && Matches(x, iface, member));
  }

  lemma AppendGroup(s: seq<Registration>, t: seq<Registration>, group: Group)
    requires InDocumentedOrder(s) && forall x :: x in s ==> GroupRank(GroupOf(x)) < GroupRank(group)
    requires IncreasingIds(t) && forall x :: x in t ==> GroupOf(x) == group
    ensures InDocumentedOrder(s + t)
  {
  }

  lemma MeantInOrder(live: seq<Registration>, name: string)
    requires IncreasingIds(live)
    ensures InDocumentedOrder(ByMeaning(live, name))
  {
    var (iface, member) := SplitSignalName(name);
    MatchingInShape(live, ExactPair, iface, member);
    MatchingInShape(live, AnyInterface, iface, member);
    MatchingInShape(live, AnyMember, iface, member);
    MatchingInShape(live, Anything, iface, member);
    var a, b := MatchingIn(live, ExactPair, iface, member), MatchingIn(live, AnyInterface, iface, member);
    var c, d := MatchingIn(live, AnyMember, iface, member), MatchingIn(live, Anything, iface, member);
    AppendGroup(a, b, AnyInterface);
    AppendGroup(a + b, c, AnyMember);
    AppendGroup(a + b + c, d, Anything);
  }

  // ---------- the exact condition, signal by signal and for every name ----------

  /** The maps hand `r` a signal it did not ask for, or the same signal a second time. */
  predicate Misrouted(r: Registration, name: string) {
    var (iface, member) := SplitSignalName(name);
    match GroupOf(r)
    case ExactPair => r.iface + "." + r.member == iface + "." + member && !(r.iface == iface && r.member == member)
    case AnyInterface => r.member == iface + ".*"
    case AnyMember => false
    case Anything => member == "*"
  }

  /** The read that finds a misrouted registration. */
  function MisroutedAt(r: Registration): nat {
    match GroupOf(r)
    case ExactPair => 0
    case AnyInterface => 2
    case AnyMember => 2
    case Anything => 1
  }

  lemma NamesOfKeys(name: string)
    ensures var (iface, member) := SplitSignalName(name);
            && SlotsRead(name) == [Exact(iface + "." + member), Wildcard(member), Wildcard(iface + ".*"), Wildcard("*")]
            && '.' !in member && '.' in iface + ".*" && iface + ".*" != "*" && iface + ".*" != member
  {
    SplitSignalNameAtLastDot(name);
    var (iface, member) := SplitSignalName(name);
    DotStarSuffix(iface, iface);
  }

  /** A read finds a registration for its match, or because it is misrouted: for any names at all. */
  lemma RoutedExactly(r: Registration, name: string, i: nat)
    requires i < 4
    ensures SlotOf(r) == SlotsRead(name)[i] <==>
            (GroupRank(GroupOf(r)) == i && Matches(r, SplitSignalName(name).0, SplitSignalName(name).1))
            || (MisroutedAt(r) == i && Misrouted(r, name))
  {
    NamesOfKeys(name);
    DotStarSuffix(r.iface, SplitSignalName(name).0);
    hide SplitSignalName, EndsWith;
  }

  /** How often a registration is run for a signal: once for a match, and once if it is misrouted. */
  lemma RunsExactly(live: seq<Registration>, name: string, r: Registration)
    requires IncreasingIds(live) && r in live
    ensures multiset(ByKeys(live, name))[r] ==
            (if Matches(r, SplitSignalName(name).0, SplitSignalName(name).1) then 1 else 0) + (if Misrouted(r, name) then 1 else 0)
  {
    var slots := SlotsRead(name);
    IncreasingIdsOnce(live, r);
    RoutedExactly(r, name, 0);
    RoutedExactly(r, name, 1);
    RoutedExactly(r, name, 2);
    RoutedExactly(r, name, 3);
    hide Matches, Misrouted, SlotsRead, SlotOf, SplitSignalName, IncreasingIds;
    FilterCount(live, (x: Registration) => SlotOf(x) == slots[0], r);
    FilterCount(live, (x: Registration) => SlotOf(x) == slots[1], r);
    FilterCount(live, (x: Registration) => SlotOf(x) == slots[2], r);
    FilterCount(live, (x: Registration) => SlotOf(x) == slots[3], r);
  }

  /** Every other read of a misrouted registration than its match makes the result longer. */
  lemma MisroutedMakesLonger(live: seq<Registration>, name: string, r: Registration)
    requires r in live && Misrouted(r, name)
    ensures |ByKeys(live, name)| > |ByMeaning(live, name)|
  {
    var (iface, member) := SplitSignalName(name);
    var slots := SlotsRead(name);
    forall x, i: nat | x in live && i < 4 ensures
      (GroupRank(GroupOf(x)) == i && Matches(x, iface, member) ==> SlotOf(x) == slots[i])
      && (x == r && i == MisroutedAt(r) ==> SlotOf(x) == slots[i] && !(GroupRank(GroupOf(x)) == i && Matches(x, iface, member)))
    {
      RoutedExactly(x, name, i);
    }
    hide Misrouted, SlotsRead, SlotOf, SplitSignalName, Matches;
    FilterMonotone(live, (x: Registration) => GroupOf(x) == ExactPair && Matches(x, iface, member), (x: Registration) => SlotOf(x) == slots[0]);
    FilterMonotone(live, (x: Registration) => GroupOf(x) == AnyInterface && Matches(x, iface, member), (x: Registration) => SlotOf(x) == slots[1]);
    FilterMonotone(live, (x: Registration) => GroupOf(x) == AnyMember && Matches(x, iface, member), (x: Registration) => SlotOf(x) == slots[2]);
    FilterMonotone(live, (x: Registration) => GroupOf(x) == Anything && Matches(x, iface, member), (x: Registration) => SlotOf(x) == slots[3]);
    assert SlotOf(r) == slots[MisroutedAt(r)];
  }

  lemma NoneMisroutedIsFaithful(live: seq<Registration>, name: string)
    requires forall r :: r in live ==> !Misrouted(r, name)
    ensures FaithfulFor(live, name)
  {
    var (iface, member) := SplitSignalName(name);
    var slots := SlotsRead(name);
    forall r, i: nat | r in live && i < 4 ensures SlotOf(r) == slots[i] <==> GroupRank(GroupOf(r)) == i && Matches(r, iface, member) {
      RoutedExactly(r, name, i);
    }
    hide Misrouted, SlotsRead, SlotOf, SplitSignalName, Matches;
    FilterAgree(live, (r: Registration) => SlotOf(r) == slots[0], (r: Registration) => GroupOf(r) == ExactPair && Matches(r, iface, member));
    FilterAgree(live, (r: Registration) => SlotOf(r) == slots[1], (r: Registration) => GroupOf(r) == AnyInterface && Matches(r, iface, member));
    FilterAgree(live, (r: Registration) => SlotOf(r) == slots[2], (r: Registration) => GroupOf(r) == AnyMember && Matches(r, iface, member));
    FilterAgree(live, (r: Registration) => SlotOf(r) == slots[3], (r: Registration) => GroupOf(r) == Anything && Matches(r, iface, member));
  }

  /** For every signal, whatever its name: the maps agree with the list exactly when no live registration is misrouted. */
  lemma FaithfulExactlyWhen(live: seq<Registration>, name: string)
    ensures FaithfulFor(live, name) <==> forall r :: r in live ==> !Misrouted(r, name)
  {
    hide Misrouted, ByKeys, ByMeaning;
    if forall r :: r in live ==> !Misrouted(r, name) {
      NoneMisroutedIsFaithful(live, name);
    } else {
      var r :| r in live && Misrouted(r, name);
      MisroutedMakesLonger(live, name, r);
    }
  }

  lemma StarMemberEnding(iface: string, member: string)
    requires '.' in member
    ensures SignalMember(iface + "." + member) == "*" <==> EndsWith(member, ".*")
  {
    var name := iface + "." + member;
    SplitSignalNameAtLastDot(name);
    if SignalMember(name) == "*" {
      assert name[|name| - 1] == '*' && name[|name| - 2] == '.';
      assert member == name[|iface| + 1..];
      assert |member| >= 2;
      assert member[|member| - 2..] == ".*";
    }
    if EndsWith(member, ".*") {
      var x := member[..|member| - 2];
      assert member == x + ".*";
      assert name == (iface + "." + x) + "." + "*";
      SplitUndoesKey(iface + "." + x, "*");
    }
  }

  /** A safe key is misrouted by no signal but one whose member is literally `*`. */
  lemma KeySafeIsRouted(r: Registration, name: string)
    requires KeySafe(r) && SignalMember(name) != "*"
    ensures !Misrouted(r, name)
  {
    var (iface, member) := SplitSignalName(name);
    SplitSignalNameAtLastDot(name);
    DotStarSuffix(iface, iface);
    if GroupOf(r) == ExactPair && r.iface + "." + r.member == iface + "." + member {
      if '.' in r.member {
        assert (iface + "." + member)[|iface|] == '.';
        SplitUndoesKey(iface, member);
        StarMemberEnding(r.iface, r.member);
      } else {
        DottedPairInjective(r.iface, r.member, iface, member);
      }
    }
  }

  lemma KeyUnsafeIsMisrouted(r: Registration) returns (name: string)
    requires !KeySafe(r)
    ensures SignalMember(name) != "*" && Misrouted(r, name)
  {
    if GroupOf(r) == ExactPair {
      name := r.iface + "." + r.member;
      assert name[|r.iface|] == '.';
      SplitSignalNameAtLastDot(name);
      StarMemberEnding(r.iface, r.member);
    } else {
      var x := r.member[..|r.member| - 2];
      name := x + ".x";
      assert name == x + "." + "x" && r.member == x + ".*";
      SplitUndoesKey(x, "x");
    }
  }

  /** For safe registrations a signal reads exactly its matches, in the documented order. */
  lemma KeysRefineMeaning(live: seq<Registration>, name: string)
    requires forall r :: r in live ==> KeySafe(r)
    requires SignalMember(name) != "*"
    ensures ByKeys(live, name) == ByMeaning(live, name)
  {
    forall r | r in live ensures !Misrouted(r, name) { KeySafeIsRouted(r, name); }
    hide Misrouted, ByKeys, ByMeaning;
    NoneMisroutedIsFaithful(live, name);
  }

  /** With safe keys the maps return a live registration once if it matches and otherwise not at all. */
  lemma EachMatchOnce(live: seq<Registration>, name: string, r: Registration)
    requires IncreasingIds(live) && (forall x :: x in live ==> KeySafe(x)) && SignalMember(name) != "*"
    ensures var (iface, member) := SplitSignalName(name);
            multiset(ByKeys(live, name))[r] == if r in live && Matches(r, iface, member) then 1 else 0
  {
    hide ByKeys, ByMeaning, KeySafe, Matches;
    KeysRefineMeaning(live, name);
    MeantOnce(live, name, r);
  }

  /** With safe keys the maps return them in the documented order. */
  lemma ResolvedOrder(live: seq<Registration>, name: string)
    requires IncreasingIds(live) && (forall x :: x in live ==> KeySafe(x)) && SignalMember(name) != "*"
    ensures InDocumentedOrder(ByKeys(live, name))
  {
    hide ByKeys, ByMeaning, KeySafe, InDocumentedOrder;
    KeysRefineMeaning(live, name);
    MeantInOrder(live, name);
  }

  /** For every signal whose member is not `*` the maps refine the list exactly when every live registration is safe. */
  lemma FaithfulExactlyWhenKeySafe(live: seq<Registration>)
    ensures (forall name :: SignalMember(name) != "*" ==> FaithfulFor(live, name)) <==> (forall r :: r in live ==> KeySafe(r))
  {
    hide KeySafe, Misrouted, ByKeys, ByMeaning, SignalMember;
    if forall r :: r in live ==> KeySafe(r) {
      forall name | SignalMember(name) != "*" ensures FaithfulFor(live, name) {
        KeysRefineMeaning(live, name);
      }
    } else {
      var r :| r in live && !KeySafe(r);
      var name := KeyUnsafeIsMisrouted(r);
      FaithfulExactlyWhen(live, name);
    }
  }

  /** A signal whose member is literally `*` runs every catch-all registration twice. */
  lemma StarMemberRunsCatchAllTwice(live: seq<Registration>, name: string, r: Registration)
    requires IncreasingIds(live) && r in live && GroupOf(r) == Anything && SignalMember(name) == "*"
    ensures multiset(ByKeys(live, name))[r] == 2 && multiset(ByMeaning(live, name))[r] == 1
  {
    hide ByKeys, ByMeaning;
    RunsExactly(live, name, r);
    MeantOnce(live, name, r);
  }

  /** Safe even if the bus carried any string as a name: checkable before registering. */
  predicate AlwaysSafe(r: Registration) {
    match GroupOf(r)
    case ExactPair => '.' !in r.member
    case AnyInterface => !EndsWith(r.member, ".*")
    case AnyMember => true
    case Anything => false
  }

  lemma AlwaysSafeExactlyWhen(r: Registration)
    ensures AlwaysSafe(r) <==> forall name :: !Misrouted(r, name)
  {
    if AlwaysSafe(r) {
      forall name ensures !Misrouted(r, name) { SafeIsNeverMisrouted(r, name); }
    } else {
      var name := UnsafeIsMisroutedSomewhere(r);
    }
    hide AlwaysSafe, Misrouted;
  }

  lemma SafeIsNeverMisrouted(r: Registration, name: string)
    requires AlwaysSafe(r)
    ensures !Misrouted(r, name)
  {
    var (iface, member) := SplitSignalName(name);
    NamesOfKeys(name);
    DotStarSuffix(iface, iface);
    if GroupOf(r) == ExactPair && r.iface + "." + r.member == iface + "." + member {
      DottedPairInjective(r.iface, r.member, iface, member);
    }
  }

  lemma UnsafeIsMisroutedSomewhere(r: Registration) returns (name: string)
    requires !AlwaysSafe(r)
    ensures Misrouted(r, name)
  {
    match GroupOf(r)
    case ExactPair =>
      name := r.iface + "." + r.member;
      assert name[|r.iface|] == '.';
      SplitSignalNameAtLastDot(name);
    case AnyInterface =>
      var x := r.member[..|r.member| - 2];
      name := x + ".x";
      assert name == x + "." + "x" && r.member == x + ".*";
      SplitUndoesKey(x, "x");
    case Anything =>
      name := "a" + "." + "*";
      SplitUndoesKey("a", "*");
  }

  /** The maps agree with the list for every string as a signal name exactly when every live registration is safe. */
  lemma FaithfulForEveryNameExactlyWhen(live: seq<Registration>)
    ensures (forall name :: FaithfulFor(live, name)) <==> (forall r :: r in live ==> AlwaysSafe(r))
  {
    hide Misrouted, AlwaysSafe, FaithfulFor;
    forall r | r in live ensures AlwaysSafe(r) <==> forall name :: !Misrouted(r, name) { AlwaysSafeExactlyWhen(r); }
    forall name ensures FaithfulFor(live, name) <==> forall r :: r in live ==> !Misrouted(r, name) { FaithfulExactlyWhen(live, name); }
    if r :| r in live && !AlwaysSafe(r) {
      var name :| Misrouted(r, name);
      assert !FaithfulFor(live, name);
    }
  }
}

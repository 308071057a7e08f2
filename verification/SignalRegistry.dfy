/**
 * The handler registry of an introspected object: buckets of handlers compacted in place, the two
 * string-keyed maps, and the operations on them (internal/iwdbus/introspect.go).
 */
module SignalRegistry {
  import opened Common
  import opened DBusNames
  import opened SignalIndex

  datatype SignalHandler = SignalHandler(id: nat, fn: Callback)

  function Callbacks(hs: seq<SignalHandler>): seq<Callback> {
    if hs == [] then [] else [hs[0].fn] + Callbacks(hs[1..])
  }

  lemma {:induction false} CallbacksAppend(a: seq<SignalHandler>, b: seq<SignalHandler>)
    ensures Callbacks(a + b) == Callbacks(a) + Callbacks(b)
  {
    if a == [] {
      assert a + b == b;
    } else {
      assert (a + b)[1..] == a[1..] + b;
      CallbacksAppend(a[1..], b);
    }
  }

  /** The list without its first handler of the given id. */
  function RemoveId(s: seq<SignalHandler>, id: nat): seq<SignalHandler> {
    if s == [] then []
    else if s[0].id == id then s[1..]
    else [s[0]] + RemoveId(s[1..], id)
  }

  lemma RemoveIdCons(h: SignalHandler, s: seq<SignalHandler>, id: nat)
    ensures RemoveId([h] + s, id) == if h.id == id then s else [h] + RemoveId(s, id)
  {
    assert ([h] + s)[1..] == s;
  }

  lemma {:induction false} RemoveIdAbsent(s: seq<SignalHandler>, id: nat)
    requires forall h :: h in s ==> h.id != id
    ensures RemoveId(s, id) == s
  {
    if s != [] {
      RemoveIdAbsent(s[1..], id);
    }
  }

  lemma {:induction false} RemoveIdAt(s: seq<SignalHandler>, id: nat, i: nat)
    requires i < |s| && s[i].id == id && forall k :: 0 <= k < i ==> s[k].id != id
    ensures RemoveId(s, id) == s[..i] + s[i + 1..]
  {
    if i > 0 {
      RemoveIdAt(s[1..], id, i - 1);
      assert s[1..][..i - 1] == s[1..i];
      assert s[1..][i..] == s[i + 1..];
    }
  }

  /** A handler slice: a backing array and how much of it is in use. */
  class Bucket {
    var data: array<SignalHandler>
    var len: nat

    ghost predicate Valid()
      reads this
    {
      len <= data.Length
    }

    ghost function Contents(): seq<SignalHandler>
      requires Valid()
      reads this, data
    {
      data[..len]
    }

    constructor (first: SignalHandler)
      ensures Valid() && fresh(data)
      ensures Contents() == [first]
    {
      data := new SignalHandler[1](_ => first);
      len := 1;
    }

    /** Append in place, or into a larger array when the backing array is full. */
    method Append(h: SignalHandler)
      requires Valid()
      modifies this, data
      ensures Valid() && (data == old(data) || fresh(data))
      ensures Contents() == old(Contents()) + [h]
    {
      if len == data.Length {
        var grown := new SignalHandler[2 * len + 1](_ => h);
        forall i | 0 <= i < len {
          grown[i] := data[i];
        }
        data := grown;
      }
      data[len] := h;
      len := len + 1;
    }

    /** Copy everything after position `i` down by one; the last slot keeps its value. */
    method ShiftDown(i: nat)
      requires Valid() && i < len
      modifies data
      ensures forall k :: 0 <= k < i ==> data[k] == old(data[k])
      ensures forall k :: i <= k < len - 1 ==> data[k] == old(data[k + 1])
    {
      var j := i;
      while j + 1 < len
        invariant i <= j < len
        invariant forall k :: 0 <= k < i ==> data[k] == old(data[k])
        invariant forall k :: i <= k < j ==> data[k] == old(data[k + 1])
        invariant forall k :: j <= k < len ==> data[k] == old(data[k])
      {
        data[j] := data[j + 1];
        j := j + 1;
      }
    }

    /** Drop the first handler with this id: shift the rest down, clear the slot freed at the end. */
    method Remove(id: nat)
      requires Valid()
      modifies this, data
      ensures Valid() && data == old(data)
      ensures Contents() == RemoveId(old(Contents()), id)
    {
      var i := 0;
      while i < len && data[i].id != id
        invariant i <= len
        invariant forall k :: 0 <= k < i ==> data[k].id != id
      {
        i := i + 1;
      }
      if i == len {
        RemoveIdAbsent(Contents(), id);
      } else {
        ghost var was := Contents();
        RemoveIdAt(was, id, i);
        ShiftDown(i);
        data[len - 1] := SignalHandler(0, 0);
        len := len - 1;
        ghost var now := Contents();
        assert |now| == |was| - 1;
        assert now == was[..i] + was[i + 1..] by {
          assert forall k :: 0 <= k < i ==> now[k] == was[k];
          assert forall k :: i <= k < |now| ==> now[k] == was[k + 1];
        }
      }
    }
  }

  function Lookup(lists: map<string, seq<SignalHandler>>, key: string): seq<SignalHandler> {
    if key in lists then lists[key] else []
  }

  function WithHandler(lists: map<string, seq<SignalHandler>>, key: string, h: SignalHandler): map<string, seq<SignalHandler>> {
    lists[key := Lookup(lists, key) + [h]]
  }

  function WithoutHandler(lists: map<string, seq<SignalHandler>>, key: string, id: nat): map<string, seq<SignalHandler>> {
    if key !in lists then lists
    else
      var rest := RemoveId(lists[key], id);
      if rest == [] then lists - {key} else lists[key := rest]
  }

  /** One handler map: a bucket for every key that has handlers. */
  class Table {
    var buckets: map<string, Bucket>
    ghost var lists: map<string, seq<SignalHandler>>
    ghost var owner: map<object, string>  // which key a bucket or backing array serves

    ghost function Repr(): set<object>
      reads this
    {
      {this} + owner.Keys
    }

    ghost predicate Valid()
      reads this, owner.Keys
    {
      && this !in owner
      && buckets.Keys == lists.Keys
      && forall k :: k in buckets ==> Serves(buckets[k], k, lists[k])
    }

    /** A bucket is owned for its key, with its backing array, and holds what the map lists. */
    ghost predicate Serves(b: Bucket, key: string, list: seq<SignalHandler>)
      reads this, owner.Keys
    {
      && b in owner && owner[b] == key
      && b.data in owner && owner[b.data] == key
      && b.Valid() && b.Contents() == list != []
    }

    constructor ()
      ensures Valid() && fresh(Repr()) && lists == map[]
    {
      buckets := map[];
      lists := map[];
      owner := map[];
    }

    method AppendToBucket(key: string, h: SignalHandler)
      requires Valid() && key in buckets
      modifies Repr()
      ensures Valid() && fresh(Repr() - old(Repr())) && old(Repr()) <= Repr()
      ensures lists == old(lists)[key := old(lists)[key] + [h]]
    {
      var b := buckets[key];
      b.Append(h);
      lists := lists[key := lists[key] + [h]];
      owner := owner[b.data := key];
    }

    method NewBucket(key: string, h: SignalHandler)
      requires Valid() && key !in buckets
      modifies this
      ensures Valid() && fresh(Repr() - old(Repr())) && old(Repr()) <= Repr()
      ensures lists == old(lists)[key := [h]]
    {
      var b := new Bucket(h);
      buckets := buckets[key := b];
      lists := lists[key := [h]];
      owner := owner[b := key][b.data := key];
      forall k | k in buckets ensures Serves(buckets[k], k, lists[k]) {
        if k != key { assert old(k in buckets && Serves(buckets[k], k, lists[k])); }
      }
    }

    /** Append to the bucket of a key, which is created when the key is new. */
    method Append(key: string, h: SignalHandler)
      requires Valid()
      modifies Repr()
      ensures Valid() && fresh(Repr() - old(Repr())) && old(Repr()) <= Repr()
      ensures lists == WithHandler(old(lists), key, h)
    {
      assert key in buckets <==> key in lists;
      if key in buckets {
        AppendToBucket(key, h);
      } else {
        assert Lookup(lists, key) + [h] == [h];
        NewBucket(key, h);
      }
    }

    /** Append the callbacks of one bucket, in bucket order, to a list under construction. */
    method CopyCallbacks(key: string, out: seq<Callback>) returns (all: seq<Callback>)
      requires Valid()
      ensures all == out + Callbacks(Lookup(lists, key))
    {
      all := out;
      if key in buckets {
        var b := buckets[key];
        var i := 0;
        while i < b.len
          invariant i <= b.len
          invariant all == out + Callbacks(b.Contents()[..i])
        {
          assert b.Contents()[..i + 1] == b.Contents()[..i] + [b.Contents()[i]];
          CallbacksAppend(b.Contents()[..i], [b.Contents()[i]]);
          all := all + [b.data[i].fn];
          i := i + 1;
        }
        assert b.Contents()[..i] == b.Contents();
      }
    }

    /** Take a handler out of the bucket of a key, which may be left empty. */
    method RemoveFromBucket(key: string, id: nat)
      requires Valid() && key in buckets
      modifies buckets[key], buckets[key].data
      ensures this !in owner && buckets.Keys == lists.Keys
      ensures buckets[key] in owner && buckets[key].data in owner && owner[buckets[key]] == owner[buckets[key].data] == key
      ensures buckets[key].Valid() && buckets[key].Contents() == RemoveId(lists[key], id)
      ensures forall k :: k in buckets && k != key ==> Serves(buckets[k], k, lists[k])
    {
      buckets[key].Remove(id);
      forall k | k in buckets && k != key ensures Serves(buckets[k], k, lists[k]) {
        assert old(k in buckets && Serves(buckets[k], k, lists[k]));
      }
    }

    /** List what is left of a bucket, and drop the key with it when that is nothing. */
    method DropIfEmpty(key: string, ghost rest: seq<SignalHandler>)
      requires this !in owner && buckets.Keys == lists.Keys && key in buckets
      requires buckets[key] in owner && buckets[key].data in owner && owner[buckets[key]] == owner[buckets[key].data] == key
      requires buckets[key].Valid() && buckets[key].Contents() == rest
      requires forall k :: k in buckets && k != key ==> Serves(buckets[k], k, lists[k])
      modifies `buckets, `lists
      ensures Valid()
      ensures lists == if rest == [] then old(lists) - {key} else old(lists)[key := rest]
    {
      if buckets[key].len == 0 {
        buckets := buckets - {key};
        lists := lists - {key};
      } else {
        lists := lists[key := rest];
      }
    }

    /** Drop a handler by id, and the key with it when that was its last handler. */
    method Remove(key: string, id: nat)
      requires Valid()
      modifies Repr()
      ensures Valid() && Repr() == old(Repr())
      ensures lists == WithoutHandler(old(lists), key, id)
    {
      if key in buckets {
        RemoveFromBucket(key, id);
        DropIfEmpty(key, RemoveId(lists[key], id));
      }
    }
  }

  // ---------- what the maps hold, given the live registrations ----------

  /** The handlers of one bucket, in registration order. */
  function Bucketed(live: seq<Registration>, slot: Slot): seq<SignalHandler> {
    if live == [] then [] else HandlersOf(live[0], slot) + Bucketed(live[1..], slot)
  }

  function HandlersOf(r: Registration, slot: Slot): seq<SignalHandler> {
    if SlotOf(r) == slot then [SignalHandler(r.id, r.fn)] else []
  }

  /** The registrations other than the one with this id. */
  function Without(live: seq<Registration>, id: nat): (rest: seq<Registration>)
    ensures forall r :: r in rest <==> r in live && r.id != id
  {
    if live == [] then []
    else (if live[0].id != id then [live[0]] else []) + Without(live[1..], id)
  }

  lemma {:induction false} AddToBucket(live: seq<Registration>, r: Registration, slot: Slot)
    ensures Bucketed(live + [r], slot) == Bucketed(live, slot) + (if SlotOf(r) == slot then [SignalHandler(r.id, r.fn)] else [])
  {
    if live == [] {
      assert live + [r] == [r];
    } else {
      assert (live + [r])[1..] == live[1..] + [r];
      AddToBucket(live[1..], r, slot);
    }
  }

  lemma {:induction false} WithoutAbsent(live: seq<Registration>, id: nat)
    requires forall r :: r in live ==> r.id != id
    ensures Without(live, id) == live
  {
    if live != [] {
      WithoutAbsent(live[1..], id);
    }
  }

  lemma {:induction false} WithoutIncreasing(live: seq<Registration>, id: nat)
    requires IncreasingIds(live)
    ensures IncreasingIds(Without(live, id))
  {
    if live != [] {
      WithoutIncreasing(live[1..], id);
      assert forall x :: x in live[1..] ==> live[0].id < x.id;
    }
  }

  lemma BucketedCons(head: Registration, tail: seq<Registration>, slot: Slot)
    ensures Bucketed([head] + tail, slot)
            == if SlotOf(head) == slot then [SignalHandler(head.id, head.fn)] + Bucketed(tail, slot) else Bucketed(tail, slot)
  {
    assert ([head] + tail)[1..] == tail;
  }

  lemma WithoutCons(head: Registration, tail: seq<Registration>, id: nat)
    ensures Without([head] + tail, id) == if head.id == id then Without(tail, id) else [head] + Without(tail, id)
  {
    assert ([head] + tail)[1..] == tail;
  }

  /** What removing `r` from the list means for one bucket. */
  ghost predicate RemovalReachesBucket(live: seq<Registration>, r: Registration, slot: Slot) {
    Bucketed(Without(live, r.id), slot)
    == if SlotOf(r) == slot then RemoveId(Bucketed(live, slot), r.id) else Bucketed(live, slot)
  }

  lemma RemoveHead(head: Registration, tail: seq<Registration>, slot: Slot)
    requires forall x :: x in tail ==> x.id != head.id
    ensures RemovalReachesBucket([head] + tail, head, slot)
  {
    WithoutCons(head, tail, head.id);
    WithoutAbsent(tail, head.id);
    BucketedCons(head, tail, slot);
    RemoveIdCons(SignalHandler(head.id, head.fn), Bucketed(tail, slot), head.id);
  }

  lemma RemoveBehindHead(head: Registration, tail: seq<Registration>, r: Registration, slot: Slot)
    requires head.id != r.id && RemovalReachesBucket(tail, r, slot)
    ensures RemovalReachesBucket([head] + tail, r, slot)
  {
    WithoutCons(head, tail, r.id);
    BucketedCons(head, tail, slot);
    BucketedCons(head, Without(tail, r.id), slot);
    RemoveIdCons(SignalHandler(head.id, head.fn), Bucketed(tail, slot), r.id);
  }

  /** Removing a registration takes its handler out of its bucket and leaves the others alone. */
  lemma {:induction false} RemoveFromBucket(live: seq<Registration>, r: Registration, slot: Slot)
    requires IncreasingIds(live) && r in live
    ensures RemovalReachesBucket(live, r, slot)
  {
    assert live == [live[0]] + live[1..];
    if live[0].id == r.id {
      assert live[0] == r;
      RemoveHead(r, live[1..], slot);
    } else {
      RemoveFromBucket(live[1..], r, slot);
      RemoveBehindHead(live[0], live[1..], r, slot);
    }
  }

  /** The callbacks of a list of registrations, in order. */
  function CallbacksOf(rs: seq<Registration>): seq<Callback> {
    if rs == [] then [] else [rs[0].fn] + CallbacksOf(rs[1..])
  }

  lemma {:induction false} CallbacksOfAppend(a: seq<Registration>, b: seq<Registration>)
    ensures CallbacksOf(a + b) == CallbacksOf(a) + CallbacksOf(b)
  {
    if a == [] {
      assert a + b == b;
    } else {
      assert (a + b)[1..] == a[1..] + b;
      CallbacksOfAppend(a[1..], b);
    }
  }

  lemma {:induction false} BucketHoldsSlot(live: seq<Registration>, slot: Slot)
    ensures Callbacks(Bucketed(live, slot)) == CallbacksOf(InSlot(live, slot))
  {
    if live != [] {
      BucketHoldsSlot(live[1..], slot);
      var head := if SlotOf(live[0]) == slot then [live[0]] else [];
      var handler := if SlotOf(live[0]) == slot then [SignalHandler(live[0].id, live[0].fn)] else [];
      CallbacksOfAppend(head, InSlot(live[1..], slot));
      CallbacksAppend(handler, Bucketed(live[1..], slot));
      assert Callbacks(handler) == CallbacksOf(head);
    }
  }

  // ---------- interleaved registrations ----------

  /** What other callers may do to the list between two locked sections. */
  datatype Change = Added(r: Registration) | Removed(id: nat)
  {
    predicate About(id: nat) {
      match this
      case Added(r) => r.id == id
      case Removed(i) => i == id
    }
  }

  function Changed(live: seq<Registration>, changes: seq<Change>): seq<Registration>
    decreases changes
  {
    if changes == [] then live
    else Changed(match changes[0] case Added(r) => live + [r] case Removed(id) => Without(live, id), changes[1..])
  }

  lemma {:induction false} WithoutAppend(a: seq<Registration>, b: seq<Registration>, id: nat)
    ensures Without(a + b, id) == Without(a, id) + Without(b, id)
  {
    if a == [] {
      assert a + b == b;
    } else {
      assert (a + b)[1..] == a[1..] + b;
      WithoutAppend(a[1..], b, id);
    }
  }

  lemma {:induction false} WithoutCommutes(live: seq<Registration>, i: nat, j: nat)
    ensures Without(Without(live, i), j) == Without(Without(live, j), i)
  {
    if live != [] {
      var head, tail := live[0], live[1..];
      assert live == [head] + tail;
      WithoutCommutes(tail, i, j);
      WithoutCons(head, tail, i);
      WithoutCons(head, tail, j);
      WithoutCons(head, Without(tail, i), j);
      WithoutCons(head, Without(tail, j), i);
    }
  }

  /**
   * A registration whose match rule is refused is undone without a trace, whatever other callers
   * registered and removed between its two locked sections.
   */
  lemma {:induction false} UndoneRegistrationLeavesNoTrace(live: seq<Registration>, id: nat, changes: seq<Change>)
    requires forall c :: c in changes ==> !c.About(id)
    ensures Without(Changed(live, changes), id) == Changed(Without(live, id), changes)
    decreases changes
  {
    if changes != [] {
      assert !changes[0].About(id);
      match changes[0] {
        case Added(r) =>
          WithoutAppend(live, [r], id);
          WithoutAbsent([r], id);
          UndoneRegistrationLeavesNoTrace(live + [r], id, changes[1..]);
        case Removed(other) =>
          WithoutCommutes(live, id, other);
          UndoneRegistrationLeavesNoTrace(Without(live, other), id, changes[1..]);
      }
    }
  }

  /** An UnsubscribeFunc: the entry it removes, and whether it has run. */
  class Subscription {
    const id: nat
    const slot: Slot
    var done: bool

    constructor (id: nat, slot: Slot)
      ensures this.id == id && this.slot == slot && !done
    {
      this.id, this.slot, this.done := id, slot, false;
    }
  }

  /** How the bus answers the AddMatch call; without a connection it is not asked. */
  datatype MatchReply = NoConnection | Accepted | Refused

  datatype RegisterError = NilHandler | EmptyMember | AddMatchFailed

  /** The contents of the two maps. */
  datatype Lists = Lists(exact: map<string, seq<SignalHandler>>, wildcard: map<string, seq<SignalHandler>>)
  {
    function At(slot: Slot): seq<SignalHandler> {
      match slot
      case Exact(key) => Lookup(exact, key)
      case Wildcard(key) => Lookup(wildcard, key)
    }

    function Plus(slot: Slot, h: SignalHandler): (r: Lists)
      ensures forall s: Slot :: r.At(s) == if s == slot then At(slot) + [h] else At(s)
    {
      match slot
      case Exact(key) => Lists(WithHandler(exact, key, h), wildcard)
      case Wildcard(key) => Lists(exact, WithHandler(wildcard, key, h))
    }

    function Minus(slot: Slot, id: nat): (r: Lists)
      ensures forall s: Slot :: r.At(s) == if s == slot then RemoveId(At(slot), id) else At(s)
    {
      match slot
      case Exact(key) => Lists(WithoutHandler(exact, key, id), wildcard)
      case Wildcard(key) => Lists(exact, WithoutHandler(wildcard, key, id))
    }
  }

  /** The maps hold exactly the live registrations, each in the bucket of its pattern. */
  ghost predicate Indexes(lists: Lists, live: seq<Registration>) {
    IncreasingIds(live) && forall slot: Slot :: lists.At(slot) == Bucketed(live, slot)
  }

  lemma AddKeepsIndex(lists: Lists, live: seq<Registration>, r: Registration)
    requires Indexes(lists, live)
    requires forall x :: x in live ==> x.id < r.id
    ensures Indexes(lists.Plus(SlotOf(r), SignalHandler(r.id, r.fn)), live + [r])
  {
    var after := lists.Plus(SlotOf(r), SignalHandler(r.id, r.fn));
    forall slot: Slot ensures after.At(slot) == Bucketed(live + [r], slot) {
      AddToBucket(live, r, slot);
    }
  }

  lemma RemoveKeepsIndex(lists: Lists, live: seq<Registration>, r: Registration)
    requires Indexes(lists, live) && r in live
    ensures Indexes(lists.Minus(SlotOf(r), r.id), Without(live, r.id))
  {
    WithoutIncreasing(live, r.id);
    var after := lists.Minus(SlotOf(r), r.id);
    forall slot: Slot ensures after.At(slot) == Bucketed(Without(live, r.id), slot) {
      RemoveFromBucket(live, r, slot);
    }
  }

  /** The two handler maps side by side. */
  class Maps {
    const handlersExact: Table
    const handlersWildcard: Table
    ghost var held: Lists
    ghost var Repr: set<object>

    ghost predicate Valid()
      reads this, Repr
      ensures Valid() ==> this in Repr
    {
      && {this, handlersExact, handlersWildcard} <= Repr
      && handlersExact.Repr() <= Repr && handlersWildcard.Repr() <= Repr
      && this !in handlersExact.Repr() && this !in handlersWildcard.Repr()
      && handlersExact.Repr() !! handlersWildcard.Repr()
      && handlersExact.Valid() && handlersWildcard.Valid()
      && held == Lists(handlersExact.lists, handlersWildcard.lists)
    }

    constructor ()
      ensures Valid() && fresh(Repr)
      ensures held == Lists(map[], map[])
    {
      var exact := new Table();
      var wildcard := new Table();
      handlersExact, handlersWildcard := exact, wildcard;
      held := Lists(map[], map[]);
      Repr := {this} + exact.Repr() + wildcard.Repr();
    }

    method StoreExact(key: string, h: SignalHandler)
      requires Valid()
      modifies Repr
      ensures Valid() && fresh(Repr - old(Repr))
      ensures held == Lists(WithHandler(old(held).exact, key, h), old(held).wildcard)
    {
      hide Table.Valid, WithHandler;
      handlersExact.Append(key, h);
      Repr := Repr + handlersExact.Repr();
      held := Lists(handlersExact.lists, handlersWildcard.lists);
    }

    method StoreWildcard(key: string, h: SignalHandler)
      requires Valid()
      modifies Repr
      ensures Valid() && fresh(Repr - old(Repr))
      ensures held == Lists(old(held).exact, WithHandler(old(held).wildcard, key, h))
    {
      hide Table.Valid, WithHandler;
      handlersWildcard.Append(key, h);
      Repr := Repr + handlersWildcard.Repr();
      held := Lists(handlersExact.lists, handlersWildcard.lists);
    }

    method Store(slot: Slot, h: SignalHandler)
      requires Valid()
      modifies Repr
      ensures Valid() && fresh(Repr - old(Repr))
      ensures held == old(held).Plus(slot, h)
    {
      match slot {
        case Exact(key) => StoreExact(key, h);
        case Wildcard(key) => StoreWildcard(key, h);
      }
    }

    method Discard(slot: Slot, id: nat)
      requires Valid()
      modifies Repr
      ensures Valid() && Repr == old(Repr)
      ensures held == old(held).Minus(slot, id)
    {
      hide Table.Valid, WithoutHandler;
      match slot {
        case Exact(key) =>
          handlersExact.Remove(key, id);
        case Wildcard(key) =>
          handlersWildcard.Remove(key, id);
      }
      held := Lists(handlersExact.lists, handlersWildcard.lists);
    }
  }

  lemma ReadsFourBuckets(lists: Lists, live: seq<Registration>, name: string)
    requires Indexes(lists, live)
    ensures var (iface, member) := SplitSignalName(name);
            CallbacksOf(ByKeys(live, name))
            == Callbacks(Lookup(lists.exact, iface + "." + member)) + Callbacks(Lookup(lists.wildcard, member))
               + Callbacks(Lookup(lists.wildcard, iface + ".*")) + Callbacks(Lookup(lists.wildcard, "*"))
  {
    var slots := SlotsRead(name);
    var a, b, c, d := InSlot(live, slots[0]), InSlot(live, slots[1]), InSlot(live, slots[2]), InSlot(live, slots[3]);
    BucketHoldsSlot(live, slots[0]);
    BucketHoldsSlot(live, slots[1]);
    BucketHoldsSlot(live, slots[2]);
    BucketHoldsSlot(live, slots[3]);
    CallbacksOfAppend(a + b + c, d);
    CallbacksOfAppend(a + b, c);
    CallbacksOfAppend(a, b);
    assert lists.At(slots[0]) == Bucketed(live, slots[0]) && lists.At(slots[1]) == Bucketed(live, slots[1]);
    assert lists.At(slots[2]) == Bucketed(live, slots[2]) && lists.At(slots[3]) == Bucketed(live, slots[3]);
  }

  /** Ids rise strictly inside a bucket, and no id stands in two buckets. */
  lemma BucketShape(lists: Lists, live: seq<Registration>, s: Slot, t: Slot, i: nat, j: nat)
    requires Indexes(lists, live)
    requires i < |lists.At(s)| && j < |lists.At(t)| && (s != t || i < j)
    ensures if s == t then lists.At(s)[i].id < lists.At(t)[j].id else lists.At(s)[i].id != lists.At(t)[j].id
  {
    assert lists.At(s) == Bucketed(live, s) && lists.At(t) == Bucketed(live, t);
    hide Indexes, Lists.At, Bucketed, BucketPosition, SlotOf;
    var p, q := BucketPosition(live, s, i), BucketPosition(live, t, j);
    if s == t {
      BucketPositionsRise(live, s, i, j);
    }
    assert p != q;
  }

  /** Where the i-th handler of a bucket stands in the list of registrations. */
  ghost function BucketPosition(live: seq<Registration>, slot: Slot, i: nat): (p: nat)
    requires i < |Bucketed(live, slot)|
    ensures p < |live| && SlotOf(live[p]) == slot && Bucketed(live, slot)[i] == SignalHandler(live[p].id, live[p].fn)
  {
    if SlotOf(live[0]) == slot then
      if i == 0 then 0 else 1 + BucketPosition(live[1..], slot, i - 1)
    else 1 + BucketPosition(live[1..], slot, i)
  }

  lemma {:induction false} BucketPositionsRise(live: seq<Registration>, slot: Slot, i: nat, j: nat)
    requires i < j < |Bucketed(live, slot)|
    ensures BucketPosition(live, slot, i) < BucketPosition(live, slot, j)
  {
    if SlotOf(live[0]) != slot {
      BucketPositionsRise(live[1..], slot, i, j);
    } else if i > 0 {
      BucketPositionsRise(live[1..], slot, i - 1, j - 1);
    }
  }

  /** The registration state of an IntrospectedObject. */
  class Registry {
    const maps: Maps
    var nextHandlerID: nat
    var dispatcherStarted: bool
    ghost var live: seq<Registration>

    ghost predicate Valid()
      reads this, maps, maps.Repr
    {
      && this !in maps.Repr
      && maps.Valid()
      && Indexes(maps.held, live)
      && forall r :: r in live ==> r.id <= nextHandlerID
    }

    constructor ()
      ensures Valid() && fresh(maps) && fresh(maps.Repr)
      ensures live == [] && nextHandlerID == 0 && !dispatcherStarted
    {
      maps := new Maps();
      nextHandlerID, dispatcherStarted := 0, false;
      live := [];
    }

    /** The locked part of registration: a fresh id, stored under the key of its pattern. */
    method Add(iface: string, member: string, fn: Callback) returns (s: Subscription)
      requires Valid()
      modifies this, maps.Repr
      ensures Valid() && fresh(maps.Repr - old(maps.Repr)) && fresh(s) && s !in maps.Repr
      ensures nextHandlerID == old(nextHandlerID) + 1 == s.id && !s.done
      ensures live == old(live) + [Registration(s.id, iface, member, fn)]
      ensures s.slot == SlotFor(iface, member)
      ensures maps.held == old(maps.held).Plus(s.slot, SignalHandler(s.id, fn))
      ensures dispatcherStarted == old(dispatcherStarted)
    {
      hide Indexes, Maps.Valid;
      nextHandlerID := nextHandlerID + 1;
      s := new Subscription(nextHandlerID, SlotFor(iface, member));
      ghost var r := Registration(s.id, iface, member, fn);
      AddKeepsIndex(maps.held, live, r);
      maps.Store(s.slot, SignalHandler(s.id, fn));
      live := live + [r];
    }

    /** A subscription of this registry: its entry is there until it is removed. */
    ghost predicate Owns(s: Subscription)
      reads this, s
    {
      && (!s.done ==> exists r :: r in live && r.id == s.id && SlotOf(r) == s.slot)
      && (s.done ==> forall r :: r in live ==> r.id != s.id)
    }

    /** The callbacks of a signal, in a list of their own. */
    method Resolve(name: string) returns (out: array<Callback>)
      requires Valid()
      ensures fresh(out)
      ensures out[..] == CallbacksOf(ByKeys(live, name))
    {
      hide Indexes, ByKeys, Callbacks, CallbacksOf, Lookup, Table.Valid, SplitSignalName;
      var (iface, member) := SplitSignalName(name);
      var fns := maps.handlersExact.CopyCallbacks(iface + "." + member, []);
      fns := maps.handlersWildcard.CopyCallbacks(member, fns);
      fns := maps.handlersWildcard.CopyCallbacks(iface + ".*", fns);
      fns := maps.handlersWildcard.CopyCallbacks("*", fns);
      ReadsFourBuckets(maps.held, live, name);
      out := new Callback[|fns|](i requires 0 <= i < |fns| => fns[i]);
      assert out[..] == fns;
    }

    /** The unsubscribe closure: the first call removes its own entry, later calls do nothing. */
    method Unsubscribe(s: Subscription)
      requires Valid() && s !in maps.Repr && Owns(s)
      modifies this, maps.Repr, s`done
      ensures Valid() && maps.Repr == old(maps.Repr) && Owns(s) && s.done
      ensures live == Without(old(live), s.id)
      ensures maps.held == (if old(s.done) then old(maps.held) else old(maps.held).Minus(s.slot, s.id))
      ensures nextHandlerID == old(nextHandlerID) && dispatcherStarted == old(dispatcherStarted)
    {
      if s.done {
        WithoutAbsent(live, s.id);
      } else {
        hide Indexes, Maps.Valid;
        s.done := true;
        ghost var r :| r in live && r.id == s.id && SlotOf(r) == s.slot;
        RemoveKeepsIndex(maps.held, live, r);
        maps.Discard(s.slot, s.id);
        live := Without(live, s.id);
      }
    }

    /**
     * Registration as a caller sees it: rejected arguments change nothing, a refused match rule
     * undoes the entry, and otherwise the handler is live under a new id.
     */
    method Register(iface: string, member: string, handler: Option<Callback>, reply: MatchReply)
      returns (r: Result<Subscription, RegisterError>)
      requires Valid()
      modifies this, maps.Repr
      ensures Valid() && fresh(maps.Repr - old(maps.Repr))
      ensures handler.None? ==> r == Err(NilHandler)
      ensures handler.Some? && member == "" ==> r == Err(EmptyMember)
      ensures handler.None? || member == "" ==>
                live == old(live) && nextHandlerID == old(nextHandlerID) && dispatcherStarted == old(dispatcherStarted)
      ensures handler.Some? && member != "" ==> dispatcherStarted && nextHandlerID == old(nextHandlerID) + 1
      ensures handler.Some? && member != "" && reply.Refused? ==> r == Err(AddMatchFailed) && live == old(live)
      ensures handler.Some? && member != "" && !reply.Refused? ==>
                && r.Ok? && fresh(r.value) && r.value !in maps.Repr && Owns(r.value) && !r.value.done
                && r.value.id == nextHandlerID
                && live == old(live) + [Registration(nextHandlerID, iface, member, handler.value)]
    {
      if handler.None? {
        return Err(NilHandler);
      }
      if member == "" {
        return Err(EmptyMember);
      }
      dispatcherStarted := true;
      var s := Add(iface, member, handler.value);
      assert live[|live| - 1] in live;
      if reply.Refused? {
        ghost var before := old(live);
        Unsubscribe(s);
        WithoutAppend(before, [Registration(s.id, iface, member, handler.value)], s.id);
        WithoutAbsent(before, s.id);
        return Err(AddMatchFailed);
      }
      return Ok(s);
    }
  }

  /** A list resolved before an unsubscribe is not disturbed by the compaction. */
  method ResolveThenUnsubscribe(registry: Registry, s: Subscription, name: string) returns (out: array<Callback>)
    requires registry.Valid() && s !in registry.maps.Repr && registry.Owns(s)
    modifies registry, registry.maps.Repr, s`done
    ensures out[..] == CallbacksOf(ByKeys(old(registry.live), name))
    ensures registry.Valid() && registry.live == Without(old(registry.live), s.id)
  {
    out := registry.Resolve(name);
    registry.Unsubscribe(s);
  }

  /** For names the bus allows, what the maps resolve is what the live registrations ask for. */
  lemma ResolvesByMeaning(live: seq<Registration>, iface: string, member: string)
    requires ValidMember(member)
    requires forall r :: r in live ==> r.member == "*" || ValidMember(r.member)
    ensures CallbacksOf(ByKeys(live, iface + "." + member)) == CallbacksOf(ByMeaning(live, iface + "." + member))
  {
    forall r | r in live ensures KeySafe(r) {
      ValidNamesAreKeySafe(r);
    }
    SplitUndoesKey(iface, member);
    KeysRefineMeaning(live, iface + "." + member);
  }
}

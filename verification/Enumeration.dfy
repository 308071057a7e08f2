/**
 * getRefs (internal/iwdbus/daemon.go): one reference for every managed object that carries an
 * interface, sorted by object path, whatever order the map of objects is walked in.
 */
module Enumeration {
  import opened Common

  datatype Entry<+T> = Entry(path: string, ref: T)

  // ---------- the order of paths ----------

  /** The string order of Go: by the first difference, a prefix before its extensions. */
  predicate Less(a: string, b: string) {
    if b == "" then false
    else if a == "" then true
    else a[0] < b[0] || (a[0] == b[0] && Less(a[1..], b[1..]))
  }

  /** A prefix before its extensions, and otherwise the smaller character at the first difference. */
  ghost predicate Precedes(a: string, b: string) {
    a < b || exists k :: FirstDifference(a, b, k) && a[k] < b[k]
  }

  predicate FirstDifference(a: string, b: string, k: int) {
    0 <= k < |a| && k < |b| && a[..k] == b[..k] && a[k] != b[k]
  }

  /** The comparison is the order of strings: both directions, for all strings. */
  lemma {:induction false} LessIsStringOrder(a: string, b: string)
    ensures Less(a, b) <==> Precedes(a, b)
    decreases |a|
  {
    if a != "" && b != "" {
      if a[0] == b[0] {
        LessIsStringOrder(a[1..], b[1..]);
        PrecedesTail(a, b);
      } else {
        assert FirstDifference(a, b, 0);
        assert forall k | 0 < k <= |a| && k <= |b| :: a[..k][0] == a[0] && b[..k][0] == b[0];
      }
    }
  }

  lemma PrecedesTail(a: string, b: string)
    requires a != "" && b != "" && a[0] == b[0]
    ensures Precedes(a, b) <==> Precedes(a[1..], b[1..])
  {
    assert a == [a[0]] + a[1..] && b == [b[0]] + b[1..];
    forall k ensures FirstDifference(a, b, k + 1) <==> FirstDifference(a[1..], b[1..], k) {
      if 0 <= k < |a| - 1 && k < |b| - 1 {
        assert a[..k + 1] == [a[0]] + a[1..][..k] && b[..k + 1] == [b[0]] + b[1..][..k];
        assert a[..k + 1][1..] == a[1..][..k] && b[..k + 1][1..] == b[1..][..k];
      }
    }
    assert !FirstDifference(a, b, 0);
    forall k | FirstDifference(a, b, k) ensures FirstDifference(a[1..], b[1..], k - 1) && a[k] == a[1..][k - 1] && b[k] == b[1..][k - 1] {
      assert FirstDifference(a, b, (k - 1) + 1);
    }
    forall k | FirstDifference(a[1..], b[1..], k) ensures FirstDifference(a, b, k + 1) && a[k + 1] == a[1..][k] && b[k + 1] == b[1..][k] {}
  }

  lemma {:induction false} LessTrans(a: string, b: string, c: string)
    requires Less(a, b) && Less(b, c)
    ensures Less(a, c)
    decreases |a|
  {
    if a != "" && a[0] == b[0] && b[0] == c[0] { LessTrans(a[1..], b[1..], c[1..]); }
  }

  lemma {:induction false} LessTotal(a: string, b: string)
    ensures Less(a, b) || Less(b, a) || a == b
    ensures !(Less(a, b) && Less(b, a)) && !Less(a, a)
    decreases |a|
  {
    if a != "" { LessIrreflexive(a); }
    if a != "" && b != "" && a[0] == b[0] {
      LessTotal(a[1..], b[1..]);
      assert a == [a[0]] + a[1..] && b == [b[0]] + b[1..];
    }
  }

  lemma {:induction false} LessIrreflexive(a: string)
    ensures !Less(a, a)
    decreases |a|
  {
    if a != "" { LessIrreflexive(a[1..]); }
  }

  ghost predicate Ascending<T>(s: seq<Entry<T>>) {
    forall i, j :: 0 <= i < j < |s| ==> Less(s[i].path, s[j].path)
  }

  /** Each path precedes every later one in the order of strings. */
  ghost predicate InPathOrder<T>(s: seq<Entry<T>>) {
    forall i, j :: 0 <= i < j < |s| ==> Precedes(s[i].path, s[j].path)
  }

  lemma AscendingInPathOrder<T>(s: seq<Entry<T>>)
    requires Ascending(s)
    ensures InPathOrder(s)
  {
    hide Less, Precedes;
    forall i, j | 0 <= i < j < |s| ensures Precedes(s[i].path, s[j].path) {
      LessIsStringOrder(s[i].path, s[j].path);
    }
  }

  // ---------- a sorted list is determined by its members ----------

  lemma {:induction false} AscendingUnique<T(!new)>(a: seq<Entry<T>>, b: seq<Entry<T>>)
    requires Ascending(a) && Ascending(b) && forall e: Entry<T> :: e in a <==> e in b
    ensures a == b
    decreases |a|
  {
    NonEmptyHasMember(b);
    if a == [] {
    } else {
      assert a[0] in a && a[0] in b;
      assert b[0] in b && b[0] in a;
      SameHead(a, b);
      forall e: Entry<T> ensures e in a[1..] <==> e in b[1..] {
        TailMembers(a, e);
        TailMembers(b, e);
      }
      AscendingUnique(a[1..], b[1..]);
      assert a == [a[0]] + a[1..] && b == [b[0]] + b[1..];
    }
  }

  lemma NonEmptyHasMember<T>(s: seq<Entry<T>>)
    ensures s == [] || exists e: Entry<T> :: e in s
  {
    if s != [] { assert s[0] in s; }
  }

  lemma SameHead<T>(a: seq<Entry<T>>, b: seq<Entry<T>>)
    requires Ascending(a) && Ascending(b) && a != [] && b != [] && a[0] in b && b[0] in a
    ensures a[0] == b[0]
  {
    var i :| 0 <= i < |b| && b[i] == a[0];
    var j :| 0 <= j < |a| && a[j] == b[0];
    LessTotal(a[0].path, b[0].path);
  }

  lemma TailMembers<T>(s: seq<Entry<T>>, e: Entry<T>)
    requires Ascending(s) && s != []
    ensures e in s[1..] <==> e in s && e != s[0]
  {
    LessIrreflexive(s[0].path);
    if e in s && e != s[0] {
      var i :| 0 <= i < |s| && s[i] == e;
      assert s[1..][i - 1] == e;
    }
    if e in s[1..] {
      var i :| 0 <= i < |s| - 1 && s[1..][i] == e;
      assert s[i + 1] == e;
    }
  }

  // ---------- the sort ----------

  /** Where an entry goes in an ascending list. */
  method Insert<T(!new)>(s: seq<Entry<T>>, e: Entry<T>) returns (r: seq<Entry<T>>)
    requires Ascending(s) && forall x: Entry<T> :: x in s ==> x.path != e.path
    ensures |r| == |s| + 1 && Ascending(r) && forall x: Entry<T> :: x in r <==> x in s || x == e
  {
    var i := 0;
    while i < |s| && Less(s[i].path, e.path)
      invariant 0 <= i <= |s|
      invariant forall j :: 0 <= j < i ==> Less(s[j].path, e.path)
    {
      i := i + 1;
    }
    r := s[..i] + [e] + s[i..];
    forall j | i <= j < |s| ensures Less(e.path, s[j].path) {
      assert s[i] in s;
      LessTotal(s[i].path, e.path);
      if i < j { LessTrans(e.path, s[i].path, s[j].path); }
    }
    hide Less;
    InsertedMembers(s, e, i);
    InsertedAscends(s, e, i);
  }

  lemma InsertedMembers<T>(s: seq<Entry<T>>, e: Entry<T>, i: nat)
    requires i <= |s|
    ensures forall x: Entry<T> :: x in s[..i] + [e] + s[i..] <==> x in s || x == e
  {
    assert s == s[..i] + s[i..];
  }

  lemma InsertedAscends<T>(s: seq<Entry<T>>, e: Entry<T>, i: nat)
    requires Ascending(s) && i <= |s| && (forall j :: 0 <= j < i ==> Less(s[j].path, e.path))
    requires forall j :: i <= j < |s| ==> Less(e.path, s[j].path)
    ensures Ascending(s[..i] + [e] + s[i..])
  {
    hide Less;
    var r := s[..i] + [e] + s[i..];
    assert forall j :: 0 <= j < |r| ==> r[j] == if j < i then s[j] else if j == i then e else s[j - 1];
  }

  /** sort.Slice by path, on entries with distinct paths. */
  method SortByPath<T(!new)>(entries: seq<Entry<T>>) returns (sorted: seq<Entry<T>>)
    requires forall i, j :: 0 <= i < j < |entries| ==> entries[i].path != entries[j].path
    ensures Ascending(sorted) && forall x: Entry<T> :: x in sorted <==> x in entries
    ensures InPathOrder(sorted) && |sorted| == |entries|
  {
    sorted := [];
    for i := 0 to |entries|
      invariant |sorted| == i && Ascending(sorted) && forall x: Entry<T> :: x in sorted <==> x in entries[..i]
    {
      sorted := Insert(sorted, entries[i]);
      assert entries[..i + 1] == entries[..i] + [entries[i]];
    }
    assert entries[..|entries|] == entries;
    AscendingInPathOrder(sorted);
  }

  // ---------- getRefs ----------

  /** One entry for every object that carries the interface, ascending by path. */
  ghost predicate IsListing<P, T(!new), E>(entries: seq<Entry<T>>, objects: map<string, map<string, P>>, iface: string,
                                     makeRef: (string, map<string, P>) -> Result<T, E>) {
    Ascending(entries) && forall e: Entry<T> :: e in entries <==> Listed(e, objects, iface, makeRef)
  }

  ghost predicate Listed<P, T(!new), E>(e: Entry<T>, objects: map<string, map<string, P>>, iface: string,
                                  makeRef: (string, map<string, P>) -> Result<T, E>) {
    e.path in objects && iface in objects[e.path] && makeRef(e.path, objects[e.path]) == Ok(e.ref)
  }

  function Refs<T>(entries: seq<Entry<T>>): seq<T> {
    seq(|entries|, i requires 0 <= i < |entries| => entries[i].ref)
  }

  /** There is one listing at most, so the order in which the map was walked cannot show. */
  lemma ListingUnique<P, T(!new), E>(a: seq<Entry<T>>, b: seq<Entry<T>>, objects: map<string, map<string, P>>, iface: string,
                               makeRef: (string, map<string, P>) -> Result<T, E>)
    requires IsListing(a, objects, iface, makeRef) && IsListing(b, objects, iface, makeRef)
    ensures a == b
  {
    hide Ascending, Listed;
    forall e: Entry<T> ensures e in a <==> e in b {}
    AscendingUnique(a, b);
  }

  /** The entries made of the paths in `done`. */
  ghost predicate Collected<P, T(!new), E>(entries: seq<Entry<T>>, done: set<string>, objects: map<string, map<string, P>>, iface: string,
                                     makeRef: (string, map<string, P>) -> Result<T, E>) {
    && (forall i, j :: 0 <= i < j < |entries| ==> entries[i].path != entries[j].path)
    && (forall e: Entry<T> :: e in entries <==> e.path in done && Listed(e, objects, iface, makeRef))
  }

  lemma CollectOne<P, T(!new), E>(entries: seq<Entry<T>>, done: set<string>, path: string, objects: map<string, map<string, P>>, iface: string,
                            makeRef: (string, map<string, P>) -> Result<T, E>)
    requires Collected(entries, done, objects, iface, makeRef) && path in objects && path !in done
    requires iface in objects[path] ==> makeRef(path, objects[path]).Ok?
    ensures var more := if iface in objects[path] then entries + [Entry(path, makeRef(path, objects[path]).value)] else entries;
      Collected(more, done + {path}, objects, iface, makeRef)
  {
    forall i | 0 <= i < |entries| ensures entries[i].path != path {
      assert entries[i] in entries;
    }
  }

  /** No connection, no reply from the ObjectManager, or an object whose reference cannot be made. */
  datatype RefsError<E> = NotConnected | NotListed(cause: E) | NotMade(cause: E)

  ghost predicate AllMade<P, T(!new), E>(objects: map<string, map<string, P>>, iface: string, makeRef: (string, map<string, P>) -> Result<T, E>) {
    forall path :: path in objects && iface in objects[path] ==> makeRef(path, objects[path]).Ok?
  }

  /**
   * The walk over the map takes its objects in an arbitrary order. The result is the references of
   * the one listing; it fails exactly when there is no connection, the ObjectManager does not reply
   * or some selected object's reference cannot be made, with the error of the first of these.
   */
  method GetRefs<P, T(!new), E>(connected: bool, reply: Result<map<string, map<string, P>>, E>, iface: string,
                                makeRef: (string, map<string, P>) -> Result<T, E>)
    returns (r: Result<seq<T>, RefsError<E>>, ghost listing: seq<Entry<T>>)
    ensures r.Ok? <==> connected && reply.Ok? && AllMade(reply.value, iface, makeRef)
    ensures r.Ok? ==> IsListing(listing, reply.value, iface, makeRef) && r.value == Refs(listing) && InPathOrder(listing)
    ensures r.Err? && r.error == NotConnected <==> !connected
    ensures r.Err? && r.error.NotListed? <==> connected && reply.Err?
    ensures r.Err? && r.error.NotListed? ==> r.error.cause == reply.error
    ensures r.Err? && r.error.NotMade? ==>
              exists path :: path in reply.value && iface in reply.value[path] && makeRef(path, reply.value[path]) == Err(r.error.cause)
  {
    listing := [];
    if !connected { return Err(NotConnected), []; }
    if reply.Err? { return Err(NotListed(reply.error)), []; }
    var objects := reply.value;
    var entries: seq<Entry<T>> := [];
    var left := objects.Keys;
    while left != {}
      invariant left <= objects.Keys
      invariant Collected(entries, objects.Keys - left, objects, iface, makeRef)
      invariant forall path :: path in objects && path !in left && iface in objects[path] ==> makeRef(path, objects[path]).Ok?
      decreases |left|
    {
      var path :| path in left;
      var rest := left - {path};
      assert objects.Keys - rest == (objects.Keys - left) + {path};
      if iface in objects[path] {
        var made := makeRef(path, objects[path]);
        if made.Err? { return Err(NotMade(made.error)), []; }
        CollectOne(entries, objects.Keys - left, path, objects, iface, makeRef);
        entries := entries + [Entry(path, made.value)];
      } else {
        CollectOne(entries, objects.Keys - left, path, objects, iface, makeRef);
      }
      left := rest;
    }
    assert objects.Keys - {} == objects.Keys;
    var sorted := SortByPath(entries);
    listing := sorted;
    r := Ok(Refs(sorted));
  }
}

/**
 * The object path of a known network (tools/test-mocks/iwdmock/internal/mock/lifecycle.go): the SSID
 * in lower-case hex, an underscore, the security type. An SSID is any sequence of bytes.
 */
module KnownNetworkPaths {
  import opened DBusNames

  type Byte = b: int | 0 <= b < 256

  type Ssid = seq<Byte>

  const DIGITS: string := "0123456789abcdef"
  const PREFIX: string := "/net/connman/iwd/"

  predicate HexDigit(c: char) {
    '0' <= c <= '9' || 'a' <= c <= 'f'
  }

  function DigitValue(c: char): nat
    requires HexDigit(c)
  {
    if c <= '9' then (c - '0') as int else (c - 'a') as int + 10
  }

  /** The two digits of a byte. */
  function Pair(b: Byte): (digits: string)
    ensures |digits| == 2 && HexDigit(digits[0]) && HexDigit(digits[1])
  {
    DigitsRoundTrip(b / 16);
    DigitsRoundTrip(b % 16);
    [DIGITS[b / 16], DIGITS[b % 16]]
  }

  function Hex(ssid: Ssid): (h: string)
    ensures |h| == 2 * |ssid|
    ensures forall c :: c in h ==> HexDigit(c)
  {
    if ssid == [] then "" else Pair(ssid[0]) + Hex(ssid[1..])
  }

  function Unhex(h: string): Ssid
    requires |h| % 2 == 0 && forall c :: c in h ==> HexDigit(c)
  {
    if h == "" then [] else [DigitValue(h[0]) * 16 + DigitValue(h[1])] + Unhex(h[2..])
  }

  lemma DigitsRoundTrip(d: nat)
    requires d < 16
    ensures HexDigit(DIGITS[d]) && DigitValue(DIGITS[d]) == d
  {
  }

  lemma PairRoundTrips(b: Byte)
    ensures DigitValue(Pair(b)[0]) * 16 + DigitValue(Pair(b)[1]) == b
  {
    DigitsRoundTrip(b / 16);
    DigitsRoundTrip(b % 16);
    hide DigitValue, HexDigit;
  }

  lemma {:induction false} UnhexUndoesHex(ssid: Ssid)
    ensures Unhex(Hex(ssid)) == ssid
  {
    hide Pair, DigitValue, HexDigit;
    if ssid != [] {
      PairRoundTrips(ssid[0]);
      UnhexUndoesHex(ssid[1..]);
      assert Hex(ssid)[2..] == Hex(ssid[1..]);
    }
  }

  lemma HexOfFirst(b: Byte, rest: Ssid)
    ensures Hex([b] + rest) == Pair(b) + Hex(rest)
  {
    assert ([b] + rest)[1..] == rest;
    hide Pair, HexDigit;
  }

  lemma {:induction false} HexOfSum(a: Ssid, b: Ssid)
    ensures Hex(a + b) == Hex(a) + Hex(b)
  {
    hide Pair, HexDigit;
    if a == [] {
      assert a + b == b;
    } else {
      assert (a + b)[1..] == a[1..] + b;
      HexOfSum(a[1..], b);
    }
  }

  lemma HexAppends(ssid: Ssid, b: Byte)
    ensures Hex(ssid + [b]) == Hex(ssid) + Pair(b)
  {
    hide Pair, HexDigit;
    HexOfSum(ssid, [b]);
    assert Hex([b]) == Pair(b) by { assert [b][1..] == []; }
  }

  /** hexSSID: one pass over the bytes, two digits appended for each. */
  method HexSSID(ssid: Ssid) returns (out: string)
    ensures out == Hex(ssid)
    ensures Unhex(out) == ssid
  {
    out := "";
    for i := 0 to |ssid|
      invariant out == Hex(ssid[..i])
    {
      assert ssid[..i + 1] == ssid[..i] + [ssid[i]];
      HexAppends(ssid[..i], ssid[i]);
      out := out + [DIGITS[ssid[i] / 16], DIGITS[ssid[i] % 16]];
    }
    assert ssid[..|ssid|] == ssid;
    UnhexUndoesHex(ssid);
  }

  function PathFor(ssid: Ssid, security: string): string {
    PREFIX + Hex(ssid) + "_" + security
  }

  // ---------- distinct networks have distinct paths ----------

  lemma FirstUnique(s: string, i: nat, j: nat, mark: char)
    requires i < |s| && s[i] == mark && forall k :: 0 <= k < i ==> s[k] != mark
    requires j < |s| && s[j] == mark && forall k :: 0 <= k < j ==> s[k] != mark
    ensures i == j
  {
  }

  /** The first underscore separates what stands before it from what stands after it. */
  lemma FirstMarkUnique(a: string, x: string, b: string, y: string, mark: char)
    requires mark !in a && mark !in b && a + [mark] + x == b + [mark] + y
    ensures a == b && x == y
  {
    var s, t := a + [mark] + x, b + [mark] + y;
    assert s == t && s[|a|] == mark && t[|b|] == mark;
    assert forall k :: 0 <= k < |a| ==> s[k] == a[k];
    assert forall k :: 0 <= k < |b| ==> t[k] == b[k];
    FirstUnique(s, |a|, |b|, mark);
    assert a == s[..|a|] && b == t[..|a|] && x == s[|a| + 1..] && y == t[|a| + 1..];
  }

  /** Any two SSIDs and types, of whatever bytes and characters, share a path only when equal. */
  lemma PathsIdentifyNetworks(ssid: Ssid, security: string, ssid': Ssid, security': string)
    ensures PathFor(ssid, security) == PathFor(ssid', security') <==> ssid == ssid' && security == security'
  {
    if PathFor(ssid, security) == PathFor(ssid', security') {
      assert PathFor(ssid, security) == PREFIX + Hex(ssid) + ['_'] + security;
      assert PathFor(ssid', security') == PREFIX + Hex(ssid') + ['_'] + security';
      FirstMarkUnique(PREFIX + Hex(ssid), security, PREFIX + Hex(ssid'), security', '_');
      assert Hex(ssid) == (PREFIX + Hex(ssid))[|PREFIX|..];
      assert Hex(ssid') == (PREFIX + Hex(ssid'))[|PREFIX|..];
      UnhexUndoesHex(ssid);
      UnhexUndoesHex(ssid');
    }
  }

  /** The last element of the path. */
  function Element(ssid: Ssid, security: string): string {
    Hex(ssid) + "_" + security
  }

  lemma PathEndsInElement(ssid: Ssid, security: string)
    ensures PathFor(ssid, security) == PREFIX + Element(ssid, security)
    ensures forall c :: c in Element(ssid, security) <==> c in Hex(ssid) || c == '_' || c in security
  {
  }

  /** No adapter, device, network or access point lies at the path of a known network. */
  lemma KnownPathsStandApart(ssid: Ssid, security: string, other: string)
    requires '/' !in security
    requires '_' !in other || exists i: nat :: |PREFIX| <= i < |other| && other[i] == '/'
    ensures PathFor(ssid, security) != other
  {
    hide Hex, Element, PathFor;
    PathEndsInElement(ssid, security);
    var p, e := PathFor(ssid, security), Element(ssid, security);
    assert '_' in p by { assert p == PREFIX + e && '_' in e; }
    forall i: nat | |PREFIX| <= i < |p| ensures p[i] != '/' {
      assert p[i] == e[i - |PREFIX|] && e[i - |PREFIX|] in e;
    }
  }

  // ---------- and valid ones ----------

  lemma {:induction false} SplitFirst(a: string, rest: string, sep: char)
    requires sep !in a
    ensures Split(a + [sep] + rest, sep) == [a] + Split(rest, sep)
  {
    var s := a + [sep] + rest;
    if a == "" {
      assert s[1..] == rest;
    } else {
      assert s[1..] == a[1..] + [sep] + rest;
      SplitFirst(a[1..], rest, sep);
      assert a == [a[0]] + a[1..];
    }
  }

  /** Cutting behind a stretch without separators leaves that stretch before the first part. */
  lemma {:induction false} SplitBehind(a: string, s: string, sep: char)
    requires sep !in a
    ensures Split(a + s, sep) == [a + Split(s, sep)[0]] + Split(s, sep)[1..]
  {
    if a == "" {
      assert a + s == s && a + Split(s, sep)[0] == Split(s, sep)[0];
    } else {
      assert (a + s)[1..] == a[1..] + s;
      SplitBehind(a[1..], s, sep);
      assert a + Split(s, sep)[0] == [a[0]] + (a[1..] + Split(s, sep)[0]);
    }
  }

  predicate AllNameChars(s: string) {
    forall c | c in s :: NameChar(c)
  }

  /** The elements of a path of a known network: the fixed ones, the SSID with the first part of the type, the rest. */
  lemma ElementsOfPath(ssid: Ssid, security: string)
    ensures var parts := Split(security, '/');
      Split(PathFor(ssid, security)[1..], '/') == ["net", "connman", "iwd", Hex(ssid) + "_" + parts[0]] + parts[1..]
  {
    hide Split, Hex;
    var parts := Split(security, '/');
    var e := Hex(ssid) + "_";
    var iwd := "iwd" + ['/'] + (e + security);
    var connman := "connman" + ['/'] + iwd;
    assert PathFor(ssid, security)[1..] == "net" + ['/'] + connman;
    SplitFirst("net", connman, '/');
    SplitFirst("connman", iwd, '/');
    SplitFirst("iwd", e + security, '/');
    SplitBehind(e, security, '/');
  }

  lemma FixedElementsAreNames(ssid: Ssid)
    ensures AllNameChars("net") && AllNameChars("connman") && AllNameChars("iwd") && AllNameChars(Hex(ssid) + "_")
  {
  }

  lemma NamesOfPath(ssid: Ssid, first: string)
    ensures AllNameChars(Hex(ssid) + "_" + first) <==> AllNameChars(first)
  {
    FixedElementsAreNames(ssid);
    hide NameChar, Hex;
    var e := Hex(ssid) + "_";
    assert forall c :: c in e + first <==> c in e || c in first;
  }

  /**
   * The path is a valid object path exactly when the type consists of name characters, and where it
   * has slashes of its own, has no empty stretch behind one.
   */
  lemma PathIsValidExactlyWhen(ssid: Ssid, security: string)
    ensures var parts := Split(security, '/');
      ValidPath(PathFor(ssid, security)) <==>
        (forall k :: 0 <= k < |parts| ==> AllNameChars(parts[k])) && (forall k :: 0 < k < |parts| ==> parts[k] != "")
  {
    var parts := Split(security, '/');
    var last := Hex(ssid) + "_" + parts[0];
    ElementsOfPath(ssid, security);
    FixedElementsAreNames(ssid);
    NamesOfPath(ssid, parts[0]);
    assert last != "";
    assert PathFor(ssid, security) != "/" && PathFor(ssid, security) != "" && PathFor(ssid, security)[0] == '/';
    hide Split, Hex, PathFor, NameChar, AllNameChars, ValidPath;
    ValidByElements(PathFor(ssid, security), ["net", "connman", "iwd", last] + parts[1..]);
    GoodElements("net", "connman", "iwd", last, parts);
  }

  predicate Good(e: string) {
    e != "" && AllNameChars(e)
  }

  lemma ValidByElements(p: string, elements: seq<string>)
    requires p != "/" && p != "" && p[0] == '/' && Split(p[1..], '/') == elements
    ensures ValidPath(p) <==> forall k :: 0 <= k < |elements| ==> Good(elements[k])
  {
    hide Split, NameChar;
    if ValidPath(p) {
      forall k | 0 <= k < |elements| ensures Good(elements[k]) {
        assert elements[k] in elements;
      }
    }
  }

  lemma GoodElements(a: string, b: string, c: string, d: string, parts: seq<string>)
    requires |parts| >= 1 && Good(a) && Good(b) && Good(c) && (Good(d) <==> AllNameChars(parts[0]))
    ensures var elements := [a, b, c, d] + parts[1..];
      (forall k :: 0 <= k < |elements| ==> Good(elements[k])) <==>
        (forall k :: 0 <= k < |parts| ==> AllNameChars(parts[k])) && (forall k :: 0 < k < |parts| ==> parts[k] != "")
  {
    var elements := [a, b, c, d] + parts[1..];
    hide AllNameChars;
    forall k | 0 < k < |parts| ensures elements[k + 3] == parts[k] {}
    if forall k :: 0 <= k < |elements| ==> Good(elements[k]) {
      assert Good(elements[3]);
      forall k | 0 < k < |parts| ensures AllNameChars(parts[k]) && parts[k] != "" { assert Good(elements[k + 3]); }
    }
    if (forall k :: 0 <= k < |parts| ==> AllNameChars(parts[k])) && (forall k :: 0 < k < |parts| ==> parts[k] != "") {
      forall k | 0 <= k < |elements| ensures Good(elements[k]) {
        if k >= 4 { assert elements[k] == parts[k - 3]; }
      }
    }
  }

  /** For a type without slashes: exactly when it consists of name characters. */
  lemma PlainPathIsValidExactlyWhen(ssid: Ssid, security: string)
    requires '/' !in security
    ensures ValidPath(PathFor(ssid, security)) <==> AllNameChars(security)
  {
    PathIsValidExactlyWhen(ssid, security);
    JoinUndoesSplit(security, '/');
    hide Split, PathFor, ValidPath, AllNameChars;
  }
}

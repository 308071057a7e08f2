/**
 * Names on the bus, under the section "Valid Names" of the D-Bus Specification, and how the
 * client splits a signal name into interface and member (internal/iwdbus/utils.go).
 */
module DBusNames {

  // ---------- strings.Split and strings.Join, as the client uses them ----------

  /** Cut `s` at every `sep`; a string without `sep` is one part. */
  function Split(s: string, sep: char): (parts: seq<string>)
    ensures |parts| >= 1
    ensures forall p :: p in parts ==> sep !in p
    ensures |parts| == 1 <==> sep !in s
  {
    if s == "" then [""]
    else
      var rest := Split(s[1..], sep);
      if s[0] == sep then [""] + rest
      else [[s[0]] + rest[0]] + rest[1..]
  }

  function Join(parts: seq<string>, sep: char): string
    requires |parts| >= 1
  {
    if |parts| == 1 then parts[0] else parts[0] + [sep] + Join(parts[1..], sep)
  }

  lemma JoinBehindSeparator(rest: seq<string>, sep: char)
    requires |rest| >= 1
    ensures Join([""] + rest, sep) == [sep] + Join(rest, sep)
  {
    assert ([""] + rest)[1..] == rest;
  }

  lemma JoinBehindChar(c: char, rest: seq<string>, sep: char)
    requires |rest| >= 1
    ensures Join([[c] + rest[0]] + rest[1..], sep) == [c] + Join(rest, sep)
  {
    assert ([[c] + rest[0]] + rest[1..])[1..] == rest[1..];
  }

  lemma {:induction false} JoinUndoesSplit(s: string, sep: char)
    ensures Join(Split(s, sep), sep) == s
  {
    hide Join;
    if s == "" {
      JoinOne("", sep);
    } else {
      var rest := Split(s[1..], sep);
      JoinUndoesSplit(s[1..], sep);
      JoinBehindSeparator(rest, sep);
      JoinBehindChar(s[0], rest, sep);
      assert s == [s[0]] + s[1..];
    }
  }

  lemma JoinOne(s: string, sep: char)
    ensures Join([s], sep) == s
  {
  }

  lemma {:induction false} JoinLast(parts: seq<string>, sep: char)
    requires |parts| >= 2
    ensures Join(parts, sep) == Join(parts[..|parts| - 1], sep) + [sep] + parts[|parts| - 1]
  {
    if |parts| > 2 {
      JoinLast(parts[1..], sep);
      assert parts[1..][..|parts| - 2] == parts[..|parts| - 1][1..];
    } else {
      assert parts[1..] == [parts[1]];
      assert parts[..1] == [parts[0]];
    }
  }

  // ---------- splitSignalName ----------

  /** Interface and member of a signal name; a name without a dot is all interface. */
  function SplitSignalName(name: string): (r: (string, string))
  {
    var parts := Split(name, '.');
    if |parts| < 2 then (name, "")
    else (Join(parts[..|parts| - 1], '.'), parts[|parts| - 1])
  }

  /** The cut is at the last dot: putting it back restores the name, and the member has none. */
  lemma SplitSignalNameAtLastDot(name: string)
    ensures var (iface, member) := SplitSignalName(name);
            '.' !in member
            && (if '.' in name then iface + "." + member == name else iface == name && member == "")
  {
    JoinUndoesSplit(name, '.');
    var parts := Split(name, '.');
    hide Split, Join;
    assert parts[|parts| - 1] in parts;
    if |parts| >= 2 {
      JoinLast(parts, '.');
      assert "." == ['.'];
    } else {
      JoinOne(parts[0], '.');
      assert parts == [parts[0]];
    }
  }

  lemma LastDotUnique(s: string, i: nat, j: nat)
    requires i < |s| && s[i] == '.' && forall k :: i < k < |s| ==> s[k] != '.'
    requires j < |s| && s[j] == '.' && forall k :: j < k < |s| ==> s[k] != '.'
    ensures i == j
  {
  }

  /** A dotted pair determines its halves as soon as both right halves are free of dots. */
  lemma DottedPairInjective(a: string, m: string, b: string, n: string)
    requires '.' !in m && '.' !in n
    requires a + "." + m == b + "." + n
    ensures a == b && m == n
  {
    var s, t := a + "." + m, b + "." + n;
    assert s == t && s[|a|] == '.' && t[|b|] == '.';
    assert forall k :: |a| < k < |s| ==> s[k] == m[k - |a| - 1];
    assert forall k :: |b| < k < |t| ==> t[k] == n[k - |b| - 1];
    LastDotUnique(s, |a|, |b|);
    assert a == s[..|a|] && b == t[..|b|] && m == s[|a| + 1..] && n == t[|b| + 1..];
  }

  /** splitSignalName undoes the registration key of every pair whose member has no dot. */
  lemma SplitUndoesKey(iface: string, member: string)
    requires '.' !in member
    ensures SplitSignalName(iface + "." + member) == (iface, member)
  {
    var name := iface + "." + member;
    assert name[|iface|] == '.';
    SplitSignalNameAtLastDot(name);
    var (i, m) := SplitSignalName(name);
    DottedPairInjective(i, m, iface, member);
  }

  // ---------- validity of names and object paths ----------

  predicate NameStart(c: char) {
    'A' <= c <= 'Z' || 'a' <= c <= 'z' || c == '_'
  }

  predicate NameChar(c: char) {
    NameStart(c) || '0' <= c <= '9'
  }

  /** One element of a name: not empty, not starting with a digit. */
  predicate ValidElement(s: string) {
    s != "" && NameStart(s[0]) && forall c :: c in s ==> NameChar(c)
  }

  predicate ValidMember(s: string) {
    ValidElement(s) && |s| <= 255
  }

  /** An object path: the root, or '/' followed by non-empty elements of [A-Za-z0-9_]. */
  predicate ValidPath(p: string) {
    p == "/" ||
    (p != "" && p[0] == '/' &&
     forall e :: e in Split(p[1..], '/') ==> e != "" && forall c :: c in e ==> NameChar(c))
  }

  /** Element characters and slashes, each slash before an element. */
  predicate SlashesLead(s: string) {
    && (forall i :: 0 <= i < |s| ==> s[i] == '/' || NameChar(s[i]))
    && (forall i :: 0 <= i < |s| && s[i] == '/' ==> i + 1 < |s| && s[i + 1] != '/')
  }

  predicate ElementChars(e: string) {
    forall c :: c in e ==> NameChar(c)
  }

  lemma SlashesLeadBehind(c: char, s: string)
    ensures SlashesLead([c] + s) <==> SlashesLead(s) && if c == '/' then s != "" && s[0] != '/' else NameChar(c)
  {
    var all := [c] + s;
    hide NameChar;
    assert all[0] == c && forall i :: 0 <= i < |s| ==> all[i + 1] == s[i];
    assert SlashesLead(all) ==> SlashesLead(s) by {
      if SlashesLead(all) {
        forall i | 0 <= i < |s| ensures s[i] == '/' || NameChar(s[i]) { assert all[i + 1] == s[i]; }
        forall i | 0 <= i < |s| && s[i] == '/' ensures i + 1 < |s| && s[i + 1] != '/' { assert all[i + 1] == '/'; }
      }
    }
  }

  /** The parts of a string between slashes, the first of which may be empty. */
  lemma {:induction false} PartsByCharacters(s: string)
    ensures var parts := Split(s, '/');
      && (ElementChars(parts[0]) && (forall k :: 1 <= k < |parts| ==> parts[k] != "" && ElementChars(parts[k])) <==> SlashesLead(s))
      && (parts[0] == "" <==> s == "" || s[0] == '/')
  {
    hide NameChar;
    if s != "" {
      var rest, parts := Split(s[1..], '/'), Split(s, '/');
      PartsByCharacters(s[1..]);
      SlashesLeadBehind(s[0], s[1..]);
      assert s == [s[0]] + s[1..];
      if s[0] == '/' {
        assert forall k :: 1 <= k < |parts| ==> parts[k] == rest[k - 1];
        assert forall k :: 0 <= k < |rest| ==> rest[k] == parts[k + 1];
      } else {
        assert forall k :: 1 <= k < |parts| ==> parts[k] == rest[k];
        assert parts[0] == [s[0]] + rest[0];
      }
      hide SlashesLead;
    }
  }

  lemma EachPart(parts: seq<string>)
    ensures (forall e :: e in parts ==> e != "" && forall c :: c in e ==> NameChar(c))
      <==> forall k :: 0 <= k < |parts| ==> parts[k] != "" && ElementChars(parts[k])
  {
    hide NameChar;
    assert forall k :: 0 <= k < |parts| ==> parts[k] in parts;
  }

  /** Character by character: the root, or a leading slash and after each slash an element of one character or more. */
  lemma ValidPathByCharacters(p: string)
    ensures ValidPath(p) <==>
      p == "/" || (p != "" && p[0] == '/' && (forall i :: 0 <= i < |p| ==> p[i] == '/' || NameChar(p[i]))
                   && forall i :: 0 <= i < |p| && p[i] == '/' ==> i + 1 < |p| && p[i + 1] != '/')
  {
    hide NameChar;
    if p != "" && p[0] == '/' {
      var parts := Split(p[1..], '/');
      PartsByCharacters(p[1..]);
      SlashesLeadBehind('/', p[1..]);
      assert p == ['/'] + p[1..];
      EachPart(parts);
      hide Split, ElementChars;
    }
  }
}

/**
 * Which values of the bus each decoder of the client takes, and for what (internal/iwdbus/station.go,
 * network.go, accesspoint.go), told without following the decoders: a value under any number of
 * variants, a path sent as a string, nothing at all.
 */
module ClientWire {
  import opened Common
  import opened DBusNames
  import opened ClientReads

  /** What a value holds under its variants. */
  function Bare(v: Value): Value {
    match v
    case VariantV(inner) => Bare(inner)
    case _ => v
  }

  /** A path, or a string in its place. */
  predicate Spells(v: Value, p: string) {
    v == PathV(p) || v == StringV(p)
  }

  /** Nothing, the empty path and the null path are no object; a valid path is that object; all else is malformed. */
  lemma {:induction false} OptionalPathExactly(field: string, v: Value)
    ensures ParseOptionalPath(field, v).Ok? && ParseOptionalPath(field, v).value.None? <==>
      Bare(v) == Nil || Spells(Bare(v), "") || Spells(Bare(v), "/")
    ensures forall p: string :: ParseOptionalPath(field, v) == Ok(Some(p)) <==> p != "" && p != "/" && ValidPath(p) && Spells(Bare(v), p)
    ensures ParseOptionalPath(field, v).Err? ==> ParseOptionalPath(field, v).error == Malformed(field)
  {
    hide ValidPath;
    if v.VariantV? { OptionalPathExactly(field, v.inner); }
  }

  /** A required path: exactly the valid ones, the null path among them, and never under a variant. */
  lemma PathExactly(field: string, v: Value, p: string)
    ensures ParsePath(field, v) == Ok(p) <==> ValidPath(p) && Spells(v, p)
    ensures ParsePath(field, v).Err? ==> ParsePath(field, v).error == Malformed(field)
  {
    hide ValidPath;
  }

  /** The list decodes to `ps` from a typed list of those paths, or item by item from an untyped one. */
  ghost predicate ListsPaths(v: Value, ps: seq<string>, lenient: bool) {
    || v == PathsV(ps)
    || (v.ListV? && |v.items| == |ps| && forall i :: 0 <= i < |ps| ==> v.items[i] == PathV(ps[i]) || (lenient && v.items[i] == StringV(ps[i])))
  }

  lemma ItemsExactly(field: string, items: seq<Value>, lenient: bool, ps: seq<string>)
    ensures ItemPaths(field, items, lenient) == Ok(ps) <==> AllValid(ps) && ListsPaths(ListV(items), ps, lenient)
  {
    ItemPathsExactly(field, items, lenient);
    var r := ItemPaths(field, items, lenient);
    hide ItemPaths, ValidPath;
    forall i, p | 0 <= i < |items| ensures ParsePath(field, items[i]) == Ok(p) <==> ValidPath(p) && Spells(items[i], p) {
      PathExactly(field, items[i], p);
    }
    hide ParsePath;
    if AllValid(ps) && ListsPaths(ListV(items), ps, lenient) {
      forall v | v in items ensures ParsePath(field, v).Ok? && (lenient || v.PathV?) {
        var i :| 0 <= i < |items| && items[i] == v;
        assert ps[i] in ps;
        assert ParsePath(field, items[i]) == Ok(ps[i]);
      }
      assert forall i | 0 <= i < |items| :: ParsePath(field, items[i]) == Ok(ps[i]) by {
        forall i | 0 <= i < |items| ensures ParsePath(field, items[i]) == Ok(ps[i]) { assert ps[i] in ps; }
      }
      assert r.value == ps;
    }
    if r == Ok(ps) {
      forall p | p in ps ensures ValidPath(p) {
        var i :| 0 <= i < |ps| && ps[i] == p;
        assert ParsePath(field, items[i]) == Ok(ps[i]);
      }
      forall i | 0 <= i < |ps| ensures items[i] == PathV(ps[i]) || (lenient && items[i] == StringV(ps[i])) {
        assert items[i] in items && ParsePath(field, items[i]) == Ok(ps[i]);
      }
    }
  }

  /** The service sets of a network: strings do for paths, variants do not, and there must be a list. */
  lemma ServiceSetExactly(v: Value, ps: seq<string>)
    ensures ParsePathList(v) == Ok(ps) <==> AllValid(ps) && ListsPaths(v, ps, true)
  {
    if v.ListV? { ItemsExactly("ExtendedServiceSet", v.items, true, ps); }
    hide ItemPaths, ValidPath;
  }

  /** The affinities of a station: paths only, under any variants, and nothing is no list. */
  lemma {:induction false} AffinitiesExactly(v: Value, ps: seq<string>)
    ensures ParseAffinities(v) == Ok(Some(ps)) <==> AllValid(ps) && ListsPaths(Bare(v), ps, false)
    ensures ParseAffinities(v) == Ok(None) <==> Bare(v) == Nil
  {
    if v.ListV? { ItemsExactly("Affinities", v.items, false, ps); }
    if v.VariantV? { AffinitiesExactly(v.inner, ps); }
    hide ItemPaths, ValidPath;
  }

  /** The optional properties of an access point: nothing and the empty string are nothing, at any depth. */
  lemma {:induction false} ApOptionalsExactly(field: string, v: Value)
    ensures forall s: string :: ParseOptionalString(field, v) == Ok(Some(s)) <==> s != "" && Bare(v) == StringV(s)
    ensures ParseOptionalString(field, v) == Ok(None) <==> Bare(v) == Nil || Bare(v) == StringV("")
    ensures forall n: nat :: ParseFrequency(v) == Ok(Some(n)) <==> Bare(v) == Uint32V(n)
    ensures forall ss: seq<string> :: ParseCiphers(v) == Ok(Some(ss)) <==> Bare(v) == StringsV(ss)
    ensures (ParseFrequency(v) == Ok(None) <==> Bare(v) == Nil) && (ParseCiphers(v) == Ok(None) <==> Bare(v) == Nil)
  {
    if v.VariantV? { ApOptionalsExactly(field, v.inner); }
  }

  /** The required ones: exactly a value of the type, and of iwd's words where there are such. */
  lemma RequiredExactly(field: string, v: Value)
    ensures forall b: bool :: ParseBool(field, v) == Ok(b) <==> v == BoolV(b)
    ensures forall s: string :: ParseName(v) == Ok(s) <==> v == StringV(s)
    ensures forall s: string :: ParseState(v) == Ok(s) <==>
      v == StringV(s) && (s == "connected" || s == "disconnected" || s == "connecting" || s == "disconnecting" || s == "roaming")
    ensures forall s: string :: ParseNetworkType(v) == Ok(s) <==>
      v == StringV(s) && (s == "open" || s == "wep" || s == "psk" || s == "8021x" || s == "hotspot")
  {
  }

  // ---------- what a subscription holds ----------

  /** The last word of some events on a property, malformed ones passed over; `held` if there is none. */
  function LastGood<T>(sub: Subscription<T>, held: T, events: seq<Event>): T {
    if events == [] then held
    else
      var ev, before := events[|events| - 1], events[..|events| - 1];
      if sub.name in ev.changed && sub.parse(ev.changed[sub.name]).Ok? then sub.parse(ev.changed[sub.name]).value
      else if sub.name !in ev.changed && sub.name in ev.invalidated && sub.clears then sub.nothing
      else LastGood(sub, held, before)
  }

  /** A subscription holds the last good word, whatever malformed values came in between. */
  lemma {:induction false} HoldsLastGoodWord<T>(sub: Subscription<T>, held: T, events: seq<Event>)
    ensures HearAll(sub, held, events) == LastGood(sub, held, events)
    decreases |events|
  {
    if events != [] {
      var before, last := events[..|events| - 1], events[|events| - 1];
      HoldsLastGoodWord(sub, held, before);
      HearInTwo(sub, held, before, [last]);
      assert before + [last] == events && [last][1..] == [];
    }
  }
}

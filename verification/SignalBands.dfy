/**
 * Signal-level thresholds (internal/core/signalagent.go) and the dBm ranges the command line prints
 * for a band index (cmd/spiderw/cli/station.go).
 */
module SignalBands {
  import opened Common

  const MIN_INT16: int := -32768
  const MAX_INT16: int := 32767

  ghost predicate Descending(thresholds: seq<int>) {
    forall i, j :: 0 <= i < j < |thresholds| ==> thresholds[j] < thresholds[i]
  }

  ghost predicate InRange(thresholds: seq<int>) {
    forall t :: t in thresholds ==> MIN_INT16 <= t <= MAX_INT16
  }

  datatype Refusal = NoCallback | NoThresholds | OutOfRange(t: int) | NotDescending

  /** The first fault of a list, if any, comes at `k` or later. */
  ghost predicate FineUpTo(thresholds: seq<int>, k: nat)
    requires k <= |thresholds|
  {
    InRange(thresholds[..k]) && Descending(thresholds[..k])
  }

  /** Validate accepts exactly a callback with a non-empty, in-range, strictly descending list, and else reports the first fault. */
  method Validate(hasChanged: bool, thresholds: seq<int>) returns (r: Result<(), Refusal>)
    ensures r.Ok? <==> hasChanged && thresholds != [] && InRange(thresholds) && Descending(thresholds)
    ensures r == Err(NoCallback) <==> !hasChanged
    ensures r.Err? && r.error.OutOfRange? ==> exists k | 0 <= k < |thresholds| ::
      thresholds[k] == r.error.t && !(MIN_INT16 <= r.error.t <= MAX_INT16) && FineUpTo(thresholds, k)
    ensures r == Err(NotDescending) ==> exists k | 0 < k < |thresholds| ::
      MIN_INT16 <= thresholds[k] <= MAX_INT16 && thresholds[k] >= thresholds[k - 1] && FineUpTo(thresholds, k)
  {
    if !hasChanged { return Err(NoCallback); }
    if |thresholds| == 0 { return Err(NoThresholds); }
    for i := 0 to |thresholds|
      invariant InRange(thresholds[..i]) && Descending(thresholds[..i])
    {
      var t := thresholds[i];
      assert t in thresholds;
      if t < MIN_INT16 || t > MAX_INT16 { return Err(OutOfRange(t)); }
      if i > 0 && t >= thresholds[i - 1] { return Err(NotDescending); }
      assert thresholds[..i + 1] == thresholds[..i] + [t];
    }
    assert thresholds[..|thresholds|] == thresholds;
    return Ok(());
  }

  /** The order check of parseSignalThresholds, on the parsed numbers. */
  method CheckOrder(thresholds: seq<int>) returns (ok: bool)
    ensures ok <==> Descending(thresholds)
  {
    var i := 1;
    while i < |thresholds|
      invariant 1 <= i && (i <= |thresholds| || i == 1) && (i <= |thresholds| ==> Descending(thresholds[..i]))
    {
      if thresholds[i] >= thresholds[i - 1] { return false; }
      assert thresholds[..i + 1] == thresholds[..i] + [thresholds[i]];
      i := i + 1;
    }
    assert thresholds[..|thresholds|] == thresholds;
    return true;
  }

  // ---------- the conversion ----------

  /** int16(t): the low sixteen bits, read as a signed number. */
  function ToInt16(t: int): int {
    (t + 32768) % 65536 - 32768
  }

  lemma ToInt16LosslessExactlyWhen(t: int)
    ensures MIN_INT16 <= ToInt16(t) <= MAX_INT16
    ensures ToInt16(t) == t <==> MIN_INT16 <= t <= MAX_INT16
  {
  }

  /** NewSignalLevelAgent: accepted thresholds reach iwd as they are, still descending. */
  method Levels(thresholds: seq<int>) returns (levels: array<int>)
    ensures fresh(levels) && levels.Length == |thresholds|
    ensures forall i :: 0 <= i < |thresholds| ==> levels[i] == ToInt16(thresholds[i])
  {
    levels := new int[|thresholds|];
    for i := 0 to |thresholds|
      invariant forall j :: 0 <= j < i ==> levels[j] == ToInt16(thresholds[j])
    {
      levels[i] := ToInt16(thresholds[i]);
    }
  }

  lemma AcceptedThresholdsSurvive(thresholds: seq<int>, levels: seq<int>)
    requires InRange(thresholds) && Descending(thresholds)
    requires |levels| == |thresholds| && forall i :: 0 <= i < |levels| ==> levels[i] == ToInt16(thresholds[i])
    ensures levels == thresholds && Descending(levels)
  {
    forall i | 0 <= i < |levels| ensures levels[i] == thresholds[i] {
      assert thresholds[i] in thresholds;
      ToInt16LosslessExactlyWhen(thresholds[i]);
    }
  }

  // ---------- bands ----------

  datatype Range = AtLeast(low: int) | Below(high: int) | Between(from: int, to: int)

  /** signalBandRange, before it is printed. */
  function BandRange(level: int, thresholds: seq<int>): Range
    requires thresholds != []
  {
    if level <= 0 then AtLeast(thresholds[0])
    else if level >= |thresholds| then Below(thresholds[|thresholds| - 1])
    else Between(thresholds[level], thresholds[level - 1])
  }

  predicate Within(signal: int, r: Range) {
    match r
    case AtLeast(low) => signal >= low
    case Below(high) => signal < high
    case Between(from, to) => from <= signal < to
  }

  /** How many thresholds a signal falls short of. */
  function BandIndex(signal: int, thresholds: seq<int>): (n: nat)
    ensures n <= |thresholds|
  {
    if thresholds == [] || signal >= thresholds[0] then 0 else 1 + BandIndex(signal, thresholds[1..])
  }

  lemma {:induction false} BandIndexSplits(signal: int, thresholds: seq<int>)
    requires Descending(thresholds)
    ensures var n := BandIndex(signal, thresholds);
      forall i :: 0 <= i < |thresholds| ==> (signal < thresholds[i] <==> i < n)
  {
    if thresholds != [] && signal < thresholds[0] {
      BandIndexSplits(signal, thresholds[1..]);
      assert forall i :: 0 < i < |thresholds| ==> thresholds[i] == thresholds[1..][i - 1];
    }
  }

  /** The N+1 bands cover every signal, each by exactly one band. */
  lemma BandsPartition(signal: int, thresholds: seq<int>, level: nat)
    requires thresholds != [] && Descending(thresholds) && level <= |thresholds|
    ensures Within(signal, BandRange(level, thresholds)) <==> level == BandIndex(signal, thresholds)
  {
    BandIndexSplits(signal, thresholds);
  }

  /** The stronger of two signals never has the higher index. */
  lemma IndexFallsAsSignalRises(weaker: int, stronger: int, thresholds: seq<int>, i: nat, j: nat)
    requires thresholds != [] && Descending(thresholds) && weaker <= stronger && i <= |thresholds| && j <= |thresholds|
    requires Within(weaker, BandRange(i, thresholds)) && Within(stronger, BandRange(j, thresholds))
    ensures j <= i
  {
    BandsPartition(weaker, thresholds, i);
    BandsPartition(stronger, thresholds, j);
    IndexMonotone(weaker, stronger, thresholds);
  }

  lemma {:induction false} IndexMonotone(weaker: int, stronger: int, thresholds: seq<int>)
    requires weaker <= stronger
    ensures BandIndex(stronger, thresholds) <= BandIndex(weaker, thresholds)
  {
    if thresholds != [] && stronger < thresholds[0] { IndexMonotone(weaker, stronger, thresholds[1..]); }
  }

  ghost predicate Inhabited(level: nat, thresholds: seq<int>)
    requires thresholds != []
  {
    exists signal :: Within(signal, BandRange(level, thresholds))
  }

  /** No band is empty exactly when the thresholds strictly descend: what both checks ask for. */
  lemma BandsInhabitedExactlyWhen(thresholds: seq<int>)
    requires thresholds != []
    ensures (forall level: nat :: level <= |thresholds| ==> Inhabited(level, thresholds)) <==> Descending(thresholds)
  {
    if Descending(thresholds) {
      forall level: nat | level <= |thresholds| ensures Inhabited(level, thresholds) {
        assert Within(if level == |thresholds| then thresholds[level - 1] - 1 else thresholds[level], BandRange(level, thresholds));
      }
    }
    if forall level: nat :: level <= |thresholds| ==> Inhabited(level, thresholds) {
      forall i | 0 < i < |thresholds| ensures thresholds[i] < thresholds[i - 1] {
        assert Inhabited(i, thresholds);
        var signal :| Within(signal, BandRange(i, thresholds));
      }
      NeighboursDescend(thresholds);
    }
  }

  lemma {:induction false} NeighboursDescend(thresholds: seq<int>)
    requires forall i :: 0 < i < |thresholds| ==> thresholds[i] < thresholds[i - 1]
    ensures Descending(thresholds)
  {
    if |thresholds| > 1 {
      var front := thresholds[..|thresholds| - 1];
      NeighboursDescend(front);
      forall i | 0 <= i < |thresholds| - 1 ensures thresholds[|thresholds| - 1] < thresholds[i] {
        assert front[|front| - 1] <= front[i];
      }
    }
  }
}

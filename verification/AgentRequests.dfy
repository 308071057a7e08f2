/**
 * Credential requests and their cancellation (internal/core/agent.go): each request runs under a
 * context of its own whose cancel is recorded in the one `currentCancel` field; Cancel and Unregister
 * take a snapshot of that field under the mutex and call it after letting go. Every step below is one
 * critical section or one call of a cancel function. Contexts are numbered in the order they begin.
 */
module AgentRequests {
  import opened Common

  type Thread = nat
  type Context = nat

  datatype Request =
    | Made(c: Context)        // the context exists, its cancel is not recorded yet
    | InCallback(c: Context)  // the callback runs under it
    | Cleared(c: Context)     // the record is cleared, the context not yet released

  datatype Canceller =
    | Snapping(unregister: bool)      // about to read the record: Cancel, or Unregister if set
    | Firing(target: Option<Context>) // about to call what it read

  datatype State = State(
    begun: nat,                        // how many contexts were made
    current: Option<Context>,          // currentCancel
    registered: bool,
    cancelled: set<Context>,
    seen: set<Context>,                // history: contexts some snapshot has read
    requests: map<Thread, Request>,
    cancels: map<Thread, Canceller>)

  function Init(): State {
    State(0, None, true, {}, {}, map[], map[])
  }

  datatype Step =
    | Begin(t: Thread)
    | Proceed(t: Thread)     // the next step of the request of `t`
    | CallCancel(t: Thread)
    | CallUnregister(t: Thread)
    | Snap(t: Thread)
    | Fire(t: Thread)

  /** In a `serial` run the daemon has at most one request in progress per agent. */
  predicate Enabled(serial: bool, s: State, step: Step) {
    match step
    case Begin(t) => t !in s.requests && (serial ==> s.requests == map[])
    case Proceed(t) => t in s.requests
    case CallCancel(t) => t !in s.cancels
    case CallUnregister(t) => t !in s.cancels
    case Snap(t) => t in s.cancels && s.cancels[t].Snapping?
    case Fire(t) => t in s.cancels && s.cancels[t].Firing?
  }

  /** The steps of beginRequest and of the done function it returns. */
  function ProceedRequest(s: State, t: Thread): State
    requires t in s.requests
  {
    match s.requests[t]
    case Made(c) => s.(current := Some(c), requests := s.requests[t := InCallback(c)])
    case InCallback(c) => s.(current := None, requests := s.requests[t := Cleared(c)])
    case Cleared(c) => s.(cancelled := s.cancelled + {c}, requests := s.requests - {t})
  }

  /** Cancel always reads the record; Unregister returns at once when the flag is already down. */
  function TakeSnapshot(s: State, t: Thread): State
    requires t in s.cancels && s.cancels[t].Snapping?
  {
    if s.cancels[t].unregister && !s.registered then s.(cancels := s.cancels - {t})
    else s.(
      registered := s.registered && !s.cancels[t].unregister,
      seen := if s.current.Some? then s.seen + {s.current.value} else s.seen,
      cancels := s.cancels[t := Firing(s.current)])
  }

  function Apply(serial: bool, s: State, step: Step): State
    requires Enabled(serial, s, step)
  {
    match step
    case Begin(t) => s.(begun := s.begun + 1, requests := s.requests[t := Made(s.begun)])
    case Proceed(t) => ProceedRequest(s, t)
    case CallCancel(t) => s.(cancels := s.cancels[t := Snapping(false)])
    case CallUnregister(t) => s.(cancels := s.cancels[t := Snapping(true)])
    case Snap(t) => TakeSnapshot(s, t)
    case Fire(t) =>
      var target := s.cancels[t].target;
      s.(cancelled := if target.Some? then s.cancelled + {target.value} else s.cancelled, cancels := s.cancels - {t})
  }

  predicate IsRun(serial: bool, s: State, run: seq<Step>)
    decreases |run|
  {
    run == [] || (Enabled(serial, s, run[0]) && IsRun(serial, Apply(serial, s, run[0]), run[1..]))
  }

  function Exec(serial: bool, s: State, run: seq<Step>): State
    requires IsRun(serial, s, run)
    decreases |run|
  {
    if run == [] then s else Exec(serial, Apply(serial, s, run[0]), run[1..])
  }

  // ---------- the invariant ----------

  /** The record belongs to a request in its callback. */
  ghost predicate RecordInFlight(s: State) {
    s.current.Some? ==> exists t :: t in s.requests && s.requests[t] == InCallback(s.current.value)
  }

  /** No two requests share a context, and every context in use has begun. */
  ghost predicate ContextsApart(s: State) {
    && (forall t :: t in s.requests ==> s.requests[t].c < s.begun)
    && (forall t, u :: t in s.requests && u in s.requests && s.requests[t].c == s.requests[u].c ==> t == u)
  }

  /** What is about to be cancelled was seen; what is cancelled was seen or is over. */
  ghost predicate SeenBeforeCancelled(s: State) {
    && (forall t :: t in s.cancels && s.cancels[t].Firing? && s.cancels[t].target.Some? ==> s.cancels[t].target.value in s.seen)
    && (forall t :: t in s.requests && s.requests[t].c in s.cancelled ==> s.requests[t].c in s.seen)
    && (forall c :: c in s.seen || c in s.cancelled ==> c < s.begun)
  }

  /** With one request at a time the record names the request in its callback. */
  ghost predicate RecordsTheRequest(s: State) {
    forall t :: t in s.requests && s.requests[t].InCallback? ==> s.current == Some(s.requests[t].c)
  }

  ghost predicate OneRequest(s: State) {
    forall t, u :: t in s.requests && u in s.requests ==> t == u
  }

  ghost predicate Inv(serial: bool, s: State) {
    RecordInFlight(s) && ContextsApart(s) && SeenBeforeCancelled(s) && (serial ==> OneRequest(s) && RecordsTheRequest(s))
  }

  lemma StepKeepsRecord(serial: bool, s: State, step: Step)
    requires Inv(serial, s) && Enabled(serial, s, step)
    ensures RecordInFlight(Apply(serial, s, step)) && ContextsApart(Apply(serial, s, step))
  {
    StepKeepsContextsApart(serial, s, step);
    hide ContextsApart;
    var n := Apply(serial, s, step);
    if n.current.Some? {
      if n.current == s.current {
        var t :| t in s.requests && s.requests[t] == InCallback(s.current.value);
        StepKeepsCallback(serial, s, step, t);
      } else {
        assert n.requests[step.t] == InCallback(n.current.value);
      }
    }
  }

  lemma StepKeepsContextsApart(serial: bool, s: State, step: Step)
    requires ContextsApart(s) && Enabled(serial, s, step)
    ensures ContextsApart(Apply(serial, s, step))
  {
    match step
    case Begin(_) =>
    case Proceed(t) => match s.requests[t] { case Made(_) => case InCallback(_) => case Cleared(_) => }
    case Snap(_) =>
    case _ =>
  }

  /** A request leaves its callback only when the record is erased. */
  lemma StepKeepsCallback(serial: bool, s: State, step: Step, t: Thread)
    requires Enabled(serial, s, step) && t in s.requests && s.current.Some? && s.requests[t] == InCallback(s.current.value)
    requires Apply(serial, s, step).current == s.current
    ensures var n := Apply(serial, s, step); t in n.requests && n.requests[t] == s.requests[t]
  {
    match step
    case Begin(_) =>
    case Proceed(u) => match s.requests[u] { case Made(_) => case InCallback(_) => case Cleared(_) => }
    case Snap(_) =>
    case _ =>
  }

  lemma StepKeepsSeen(serial: bool, s: State, step: Step)
    requires Inv(serial, s) && Enabled(serial, s, step)
    ensures SeenBeforeCancelled(Apply(serial, s, step))
  {
    hide RecordsTheRequest, OneRequest;
  }

  lemma StepKeepsSerial(s: State, step: Step)
    requires Inv(true, s) && Enabled(true, s, step)
    ensures OneRequest(Apply(true, s, step)) && RecordsTheRequest(Apply(true, s, step))
  {
    hide SeenBeforeCancelled, ContextsApart;
  }

  lemma StepKeepsInv(serial: bool, s: State, step: Step)
    requires Inv(serial, s) && Enabled(serial, s, step)
    ensures Inv(serial, Apply(serial, s, step))
  {
    hide RecordInFlight, ContextsApart, SeenBeforeCancelled, OneRequest, RecordsTheRequest, Apply, Enabled;
    StepKeepsRecord(serial, s, step);
    StepKeepsSeen(serial, s, step);
    if serial { StepKeepsSerial(s, step); }
  }

  lemma {:induction false} RunKeepsInv(serial: bool, s: State, run: seq<Step>)
    requires Inv(serial, s) && IsRun(serial, s, run)
    ensures Inv(serial, Exec(serial, s, run))
    decreases |run|
  {
    hide Inv, Apply, Enabled;
    if run != [] {
      StepKeepsInv(serial, s, run[0]);
      RunKeepsInv(serial, Apply(serial, s, run[0]), run[1..]);
    }
  }

  lemma ReachedInv(serial: bool, run: seq<Step>)
    requires IsRun(serial, Init(), run)
    ensures Inv(serial, Exec(serial, Init(), run))
  {
    RunKeepsInv(serial, Init(), run);
  }

  // ---------- the main results ----------

  /** A recorded cancel belongs to a request in flight, overlapping requests or not. */
  lemma RecordedMeansInFlight(serial: bool, run: seq<Step>)
    requires IsRun(serial, Init(), run)
    ensures RecordInFlight(Exec(serial, Init(), run))
  {
    ReachedInv(serial, run);
  }

  /** A callback still running is cancelled only by a Cancel or Unregister made during it. */
  lemma CancelledOnlyOnDemand(serial: bool, run: seq<Step>, t: Thread)
    requires IsRun(serial, Init(), run)
    requires var s := Exec(serial, Init(), run); t in s.requests && s.requests[t].c in s.cancelled
    ensures var s := Exec(serial, Init(), run); s.requests[t].c in s.seen
  {
    ReachedInv(serial, run);
  }

  /** What stays true of a cancel call that has read `c`: it will call it, or has. */
  predicate Hits(s: State, u: Thread, c: Context) {
    c in s.cancelled || (u in s.cancels && s.cancels[u] == Firing(Some(c)))
  }

  lemma {:induction false} HitsStays(serial: bool, s: State, run: seq<Step>, u: Thread, c: Context)
    requires Hits(s, u, c) && IsRun(serial, s, run)
    ensures Hits(Exec(serial, s, run), u, c)
    decreases |run|
  {
    if run != [] {
      assert Hits(Apply(serial, s, run[0]), u, c);
      HitsStays(serial, Apply(serial, s, run[0]), run[1..], u, c);
    }
  }

  /** The request under context `c` is in progress, from the making of its context to its release. */
  predicate Alive(s: State, t: Thread, c: Context) {
    t in s.requests && s.requests[t].c == c
  }

  /**
   * With one request at a time, a Cancel, or an Unregister that finds the flag up, whose snapshot falls
   * between a request's record and its clear cancels that request's context by the time the call is
   * over, whatever runs in between.
   */
  lemma CancelReachesTheRequest(before: seq<Step>, t: Thread, u: Thread, after: seq<Step>)
    requires IsRun(true, Init(), before)
    requires var s := Exec(true, Init(), before);
      && t in s.requests && s.requests[t].InCallback?
      && Enabled(true, s, Snap(u)) && (s.cancels[u].unregister ==> s.registered)
      && IsRun(true, Apply(true, s, Snap(u)), after)
      && u !in Exec(true, Apply(true, s, Snap(u)), after).cancels
    ensures var s := Exec(true, Init(), before);
      s.requests[t].c in Exec(true, Apply(true, s, Snap(u)), after).cancelled
  {
    var s := Exec(true, Init(), before);
    ReachedInv(true, before);
    HitsStays(true, Apply(true, s, Snap(u)), after, u, s.requests[t].c);
  }

  /** With one request at a time a context is on record exactly from its record to its clear. */
  lemma OnRecordExactlyInCallback(before: seq<Step>, c: Context)
    requires IsRun(true, Init(), before)
    ensures var s := Exec(true, Init(), before);
      s.current == Some(c) <==> exists t :: t in s.requests && s.requests[t] == InCallback(c)
  {
    ReachedInv(true, before);
  }

  /**
   * What one call does: from its snapshot to its last step it cancels the context that was on record
   * at the snapshot and no other; an Unregister that finds the flag down ends there and cancels nothing.
   */
  lemma CancelsExactlyTheRecorded(serial: bool, before: seq<Step>, u: Thread, after: seq<Step>, c: Context)
    requires IsRun(serial, Init(), before)
    requires var s := Exec(serial, Init(), before); Enabled(serial, s, Snap(u))
    requires var n := Apply(serial, Exec(serial, Init(), before), Snap(u)); IsRun(serial, n, after) && Fire(u) !in after
    ensures var s := Exec(serial, Init(), before); var n := Apply(serial, s, Snap(u)); var m := Exec(serial, n, after);
      && n.cancelled == s.cancelled
      && if s.cancels[u].unregister && !s.registered then u !in n.cancels
         else Enabled(serial, m, Fire(u))
              && (c in Apply(serial, m, Fire(u)).cancelled <==> c in m.cancelled || s.current == Some(c))
  {
    var s := Exec(serial, Init(), before);
    if !s.cancels[u].unregister || s.registered {
      SnapshotStays(serial, Apply(serial, s, Snap(u)), after, u, s.current);
    }
  }

  lemma {:induction false} SnapshotStays(serial: bool, s: State, run: seq<Step>, u: Thread, target: Option<Context>)
    requires u in s.cancels && s.cancels[u] == Firing(target) && IsRun(serial, s, run) && Fire(u) !in run
    ensures var n := Exec(serial, s, run); u in n.cancels && n.cancels[u] == Firing(target)
    decreases |run|
  {
    if run != [] {
      assert run[0] in run;
      SnapshotStays(serial, Apply(serial, s, run[0]), run[1..], u, target);
    }
  }

  // -- seen from the caller: one Cancel, one request, and whether it was cancelled

  predicate NoNewCancel(run: seq<Step>) {
    forall k | 0 <= k < |run| :: !run[k].CallCancel? && !run[k].CallUnregister?
  }

  /** `u` is the only cancel call about, it has read `target`, and `c` is cancelled only if it fired at it. */
  predicate OnlyCall(s: State, u: Thread, target: Option<Context>, c: Context) {
    && (forall v | v in s.cancels :: v == u)
    && (u in s.cancels ==> s.cancels[u] == Firing(target))
    && (c in s.cancelled <==> u !in s.cancels && target == Some(c))
  }

  lemma {:induction false} OnlyCallStays(s: State, run: seq<Step>, u: Thread, target: Option<Context>, t: Thread, c: Context)
    requires Inv(true, s) && IsRun(true, s, run) && NoNewCancel(run) && OnlyCall(s, u, target, c) && Alive(s, t, c)
    requires Alive(Exec(true, s, run), t, c)
    ensures OnlyCall(Exec(true, s, run), u, target, c)
    decreases |run|
  {
    if run != [] {
      var n := Apply(true, s, run[0]);
      StepKeepsInv(true, s, run[0]);
      assert NoNewCancel(run[1..]) by { assert forall k | 0 <= k < |run| - 1 :: run[1..][k] == run[k + 1]; }
      if Alive(n, t, c) {
        hide Inv;
        OnlyCallStays(n, run[1..], u, target, t, c);
      } else {
        OverStaysOver(n, run[1..], t, c);
      }
    }
  }

  /** A context is used by one request only: once over it does not come back. */
  lemma {:induction false} OverStaysOver(s: State, run: seq<Step>, t: Thread, c: Context)
    requires IsRun(true, s, run) && c < s.begun && !Alive(s, t, c)
    ensures !Alive(Exec(true, s, run), t, c)
    decreases |run|
  {
    if run != [] {
      OverStaysOver(Apply(true, s, run[0]), run[1..], t, c);
    }
  }

  /**
   * Let one Cancel, or the Unregister that takes the flag, be made while a request is in progress and
   * end before the request does. The request's context is then cancelled if and only if the snapshot
   * fell between the request's record and its clear.
   */
  lemma CancelWorksExactlyWhenRecorded(before: seq<Step>, t: Thread, u: Thread, after: seq<Step>)
    requires IsRun(true, Init(), before)
    requires var s := Exec(true, Init(), before);
      && t in s.requests && s.requests[t].c !in s.cancelled && s.cancels.Keys == {u}
      && Enabled(true, s, Snap(u)) && (s.cancels[u].unregister ==> s.registered)
      && IsRun(true, Apply(true, s, Snap(u)), after) && NoNewCancel(after)
    requires var s := Exec(true, Init(), before); var m := Exec(true, Apply(true, s, Snap(u)), after);
      u !in m.cancels && Alive(m, t, s.requests[t].c)
    ensures var s := Exec(true, Init(), before); var m := Exec(true, Apply(true, s, Snap(u)), after);
      s.requests[t].c in m.cancelled <==> s.requests[t].InCallback?
  {
    var s := Exec(true, Init(), before);
    var n := Apply(true, s, Snap(u));
    var c := s.requests[t].c;
    ReachedInv(true, before);
    StepKeepsInv(true, s, Snap(u));
    assert s.current == Some(c) <==> s.requests[t].InCallback?;
    assert OnlyCall(n, u, s.current, c) by {
      assert forall v | v in n.cancels :: v in s.cancels.Keys;
    }
    OnlyCallStays(n, after, u, s.current, t, c);
  }

  /**
   * A Cancel that runs from start to end after a request's context is made and before its cancel is
   * recorded misses it: the callback then runs uncancelled.
   */
  lemma CancelMissesAnUnrecordedRequest()
    ensures var run := [Begin(0), CallCancel(1), Snap(1), Fire(1), Proceed(0)];
      IsRun(true, Init(), run)
      && var s := Exec(true, Init(), run); s.requests == map[0 := InCallback(0)] && s.cancels == map[] && s.cancelled == {}
  {
    var s1 := Init().(begun := 1, requests := map[0 := Made(0)]);
    var s2 := s1.(cancels := map[1 := Snapping(false)]);
    var s3 := s1.(cancels := map[1 := Firing(None)]);
    var s5 := s1.(current := Some(0), requests := map[0 := InCallback(0)]);
    assert Apply(true, Init(), Begin(0)) == s1;
    assert Apply(true, s1, CallCancel(1)) == s2;
    assert Apply(true, s2, Snap(1)) == s3;
    assert Apply(true, s3, Fire(1)) == s1;
    assert Apply(true, s1, Proceed(0)) == s5;
    hide Apply;
    ThenStep(true, s1, Proceed(0), []);
    ThenStep(true, s3, Fire(1), [Proceed(0)]);
    ThenStep(true, s2, Snap(1), [Fire(1), Proceed(0)]);
    ThenStep(true, s1, CallCancel(1), [Snap(1), Fire(1), Proceed(0)]);
    ThenStep(true, Init(), Begin(0), [CallCancel(1), Snap(1), Fire(1), Proceed(0)]);
    assert [Begin(0)] + [CallCancel(1), Snap(1), Fire(1), Proceed(0)] == [Begin(0), CallCancel(1), Snap(1), Fire(1), Proceed(0)];
  }

  // ---------- the flag: one Unregister takes it, once and for all ----------

  /** The step is the snapshot of an Unregister that goes on to fire. */
  predicate TakesFlag(serial: bool, s: State, step: Step)
    requires Enabled(serial, s, step)
  {
    step.Snap? && s.cancels[step.t].unregister && step.t in Apply(serial, s, step).cancels
  }

  function FlagsTaken(serial: bool, s: State, run: seq<Step>): nat
    requires IsRun(serial, s, run)
    decreases |run|
  {
    if run == [] then 0
    else (if TakesFlag(serial, s, run[0]) then 1 else 0) + FlagsTaken(serial, Apply(serial, s, run[0]), run[1..])
  }

  function Up(s: State): nat {
    if s.registered then 1 else 0
  }

  lemma StepTakesFlag(serial: bool, s: State, step: Step)
    requires Enabled(serial, s, step)
    ensures Up(s) == Up(Apply(serial, s, step)) + if TakesFlag(serial, s, step) then 1 else 0
  {
    match step
    case Proceed(t) => match s.requests[t] { case Made(_) => case InCallback(_) => case Cleared(_) => }
    case Snap(_) =>
    case _ =>
  }

  lemma {:induction false} FlagsTakenFrom(serial: bool, s: State, run: seq<Step>)
    requires IsRun(serial, s, run)
    ensures Up(s) == Up(Exec(serial, s, run)) + FlagsTaken(serial, s, run)
    decreases |run|
  {
    hide Apply, Enabled, TakesFlag, Up;
    if run != [] {
      StepTakesFlag(serial, s, run[0]);
      FlagsTakenFrom(serial, Apply(serial, s, run[0]), run[1..]);
    }
  }

  /** In every run at most one Unregister fires, and the flag is down exactly when one took it. */
  lemma FlagTakenAtMostOnce(serial: bool, run: seq<Step>)
    requires IsRun(serial, Init(), run)
    ensures FlagsTaken(serial, Init(), run) <= 1
    ensures Exec(serial, Init(), run).registered <==> FlagsTaken(serial, Init(), run) == 0
  {
    hide Apply, Enabled, TakesFlag, IsRun, Exec, FlagsTaken;
    FlagsTakenFrom(serial, Init(), run);
  }

  /**
   * From the snapshot of an Unregister on the flag is down, and every Unregister whose snapshot comes
   * later ends with it: it reads no record and cancels nothing.
   */
  lemma LaterUnregistersDoNothing(serial: bool, before: seq<Step>, u: Thread, after: seq<Step>, v: Thread)
    requires IsRun(serial, Init(), before)
    requires var s := Exec(serial, Init(), before);
      Enabled(serial, s, Snap(u)) && s.cancels[u].unregister && IsRun(serial, Apply(serial, s, Snap(u)), after)
    ensures var m := Exec(serial, Apply(serial, Exec(serial, Init(), before), Snap(u)), after);
      && !m.registered
      && (Enabled(serial, m, Snap(v)) && m.cancels[v].unregister ==>
            Apply(serial, m, Snap(v)) == m.(cancels := m.cancels - {v}))
  {
    var n := Apply(serial, Exec(serial, Init(), before), Snap(u));
    assert !n.registered;
    hide IsRun, Exec, TakesFlag, FlagsTaken;
    FlagsTakenFrom(serial, n, after);
  }

  // ---------- every context is released ----------

  /** A context that has begun is used by a request in progress or has been cancelled. */
  ghost predicate Released(s: State) {
    forall c: Context :: c < s.begun && c !in s.cancelled ==> exists t :: t in s.requests && s.requests[t].c == c
  }

  lemma StepReleases(serial: bool, s: State, step: Step)
    requires Released(s) && Enabled(serial, s, step)
    ensures Released(Apply(serial, s, step))
  {
    var n := Apply(serial, s, step);
    forall c: Context | c < n.begun && c !in n.cancelled ensures exists t :: t in n.requests && n.requests[t].c == c {
      if c == s.begun {
        assert step.Begin? && n.requests[step.t].c == c;
      } else {
        CancelsOnly(serial, s, step, c);
        var t :| t in s.requests && s.requests[t].c == c;
        StaysUntilCancelled(serial, s, step, t);
      }
    }
  }

  lemma CancelsOnly(serial: bool, s: State, step: Step, c: Context)
    requires Enabled(serial, s, step) && c !in Apply(serial, s, step).cancelled
    ensures c !in s.cancelled && (c < Apply(serial, s, step).begun && c != s.begun ==> c < s.begun)
  {
  }

  lemma StaysUntilCancelled(serial: bool, s: State, step: Step, t: Thread)
    requires Enabled(serial, s, step) && t in s.requests && s.requests[t].c !in Apply(serial, s, step).cancelled
    ensures var n := Apply(serial, s, step); t in n.requests && n.requests[t].c == s.requests[t].c
  {
  }

  lemma {:induction false} ReleasedFrom(serial: bool, s: State, run: seq<Step>)
    requires Released(s) && IsRun(serial, s, run)
    ensures Released(Exec(serial, s, run))
    decreases |run|
  {
    hide Apply, Enabled, Released;
    if run != [] {
      StepReleases(serial, s, run[0]);
      ReleasedFrom(serial, Apply(serial, s, run[0]), run[1..]);
    }
  }

  /** No context leaks: once no request is in progress every context ever made is cancelled. */
  lemma FinishedContextsReleased(serial: bool, run: seq<Step>)
    requires IsRun(serial, Init(), run)
    ensures var s := Exec(serial, Init(), run);
      forall c: Context | c < s.begun :: c in s.cancelled || exists t :: t in s.requests && s.requests[t].c == c
    ensures var s := Exec(serial, Init(), run);
      s.requests == map[] ==> forall c: Context | c < s.begun :: c in s.cancelled
  {
    ReleasedFrom(serial, Init(), run);
  }

  /** A call that has taken its snapshot holds on to what it read, and its step cancels nothing else. */
  predicate Aims(s: State, u: Thread, from: nat) {
    u in s.cancels && s.cancels[u].Firing? && (s.cancels[u].target.Some? ==> s.cancels[u].target.value < from)
  }

  lemma {:induction false} AimsStays(serial: bool, s: State, run: seq<Step>, u: Thread, from: nat)
    requires Aims(s, u, from) && IsRun(serial, s, run) && Fire(u) !in run
    ensures Aims(Exec(serial, s, run), u, from)
    decreases |run|
  {
    if run != [] {
      assert run[0] in run;
      assert Aims(Apply(serial, s, run[0]), u, from);
      AimsStays(serial, Apply(serial, s, run[0]), run[1..], u, from);
    }
  }

  /** No Cancel or Unregister cancels a request begun after it took its snapshot. */
  lemma CancelSparesLaterRequests(serial: bool, before: seq<Step>, u: Thread, after: seq<Step>, c: Context)
    requires IsRun(serial, Init(), before)
    requires var s := Exec(serial, Init(), before);
      && Enabled(serial, s, Snap(u)) && s.begun <= c
      && (s.cancels[u].unregister ==> s.registered)
      && IsRun(serial, Apply(serial, s, Snap(u)), after) && Fire(u) !in after
    ensures var m := Exec(serial, Apply(serial, Exec(serial, Init(), before), Snap(u)), after);
      Enabled(serial, m, Fire(u)) && (c in Apply(serial, m, Fire(u)).cancelled <==> c in m.cancelled)
  {
    var s := Exec(serial, Init(), before);
    ReachedInv(serial, before);
    assert Aims(Apply(serial, s, Snap(u)), u, s.begun);
    AimsStays(serial, Apply(serial, s, Snap(u)), after, u, s.begun);
  }

  /**
   * The record always names the request in its callback exactly when requests are serial: with two
   * at once the first to finish erases the record of the other, which then cannot be cancelled.
   */
  lemma RecordsTheRequestExactlyWhenSerial(serial: bool)
    ensures (forall run | IsRun(serial, Init(), run) :: RecordsTheRequest(Exec(serial, Init(), run))) <==> serial
  {
    if serial {
      forall run | IsRun(serial, Init(), run) ensures RecordsTheRequest(Exec(serial, Init(), run)) {
        ReachedInv(serial, run);
      }
    } else {
      OverlapLosesTheRecord();
    }
  }

  lemma OverlapLosesTheRecord()
    ensures exists run :: IsRun(false, Init(), run) && !RecordsTheRequest(Exec(false, Init(), run))
  {
    var s1 := Init().(begun := 1, requests := map[0 := Made(0)]);
    var s2 := s1.(current := Some(0), requests := map[0 := InCallback(0)]);
    var s3 := s2.(begun := 2, requests := map[0 := InCallback(0), 1 := Made(1)]);
    var s4 := s3.(current := Some(1), requests := map[0 := InCallback(0), 1 := InCallback(1)]);
    var s5 := s4.(current := None, requests := map[0 := Cleared(0), 1 := InCallback(1)]);
    assert Apply(false, Init(), Begin(0)) == s1;
    assert Apply(false, s1, Proceed(0)) == s2;
    assert Apply(false, s2, Begin(1)) == s3;
    assert Apply(false, s3, Proceed(1)) == s4;
    assert Apply(false, s4, Proceed(0)) == s5;
    hide Apply;
    ThenStep(false, s4, Proceed(0), []);
    ThenStep(false, s3, Proceed(1), [Proceed(0)]);
    ThenStep(false, s2, Begin(1), [Proceed(1), Proceed(0)]);
    ThenStep(false, s1, Proceed(0), [Begin(1), Proceed(1), Proceed(0)]);
    ThenStep(false, Init(), Begin(0), [Proceed(0), Begin(1), Proceed(1), Proceed(0)]);
    var run := [Begin(0)] + [Proceed(0), Begin(1), Proceed(1), Proceed(0)];
    assert Exec(false, Init(), run) == s5;
    assert 1 in s5.requests && s5.requests[1].InCallback?;
  }

  lemma ThenStep(serial: bool, s: State, step: Step, rest: seq<Step>)
    requires Enabled(serial, s, step) && IsRun(serial, Apply(serial, s, step), rest)
    ensures IsRun(serial, s, [step] + rest)
    ensures Exec(serial, s, [step] + rest) == Exec(serial, Apply(serial, s, step), rest)
  {
    assert ([step] + rest)[1..] == rest;
  }
}

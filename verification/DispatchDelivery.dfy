/**
 * What becomes of a delivered signal (internal/iwdbus/introspect.go): the channel hands signals on in
 * the order they came and loses none, and each one dispatched starts the handlers of exactly the
 * registrations that match it at that moment.
 */
module DispatchDelivery {
  import opened Common
  import opened DBusNames
  import opened SignalIndex
  import opened DispatchLifecycle

  // ---------- what a run delivers, receives and dispatches ----------

  function NamesIn(t: Step): seq<string> {
    match t
    case Deliver(name) => [name]
    case _ => []
  }

  /** The name the dispatcher goes on with after a step that takes a signal from the channel. */
  function NamesOut(s: State, t: Step): seq<string>
    requires Enabled(s, t)
  {
    if !t.Receive? then []
    else match Apply(s, t).dispatcher
         case Received(name) => [name]
         case _ => []
  }

  function Delivered(run: seq<Step>): seq<string> {
    if run == [] then [] else NamesIn(run[0]) + Delivered(run[1..])
  }

  function ReceivedIn(s: State, run: seq<Step>): seq<string>
    requires IsRun(s, run)
    decreases |run|
  {
    if run == [] then [] else NamesOut(s, run[0]) + ReceivedIn(Apply(s, run[0]), run[1..])
  }

  /** A signal about to be resolved, and the registrations live at that moment. */
  datatype Dispatch = Dispatch(name: string, live: seq<Registration>)

  function DispatchOf(s: State, t: Step): seq<Dispatch> {
    match t
    case Resolve => if s.dispatcher.Received? then [Dispatch(s.dispatcher.name, s.live)] else []
    case _ => []
  }

  function Dispatches(s: State, run: seq<Step>): seq<Dispatch>
    requires IsRun(s, run)
    decreases |run|
  {
    if run == [] then [] else DispatchOf(s, run[0]) + Dispatches(Apply(s, run[0]), run[1..])
  }

  // ---------- first in, first out, none lost ----------

  lemma DispatcherKeepsQueue(s: State, t: Step)
    requires DispatcherCan(s, t)
    ensures var n := DispatcherStep(s, t);
      if t.Receive? then n.dispatcher.Received? && s.buffer == [n.dispatcher.name] + n.buffer else n.buffer == s.buffer
  {
    match t
    case Receive =>
    case Resolve =>
    case TestClosing =>
    case SpawnOne =>
    case _ =>
  }

  lemma CloseKeepsQueue(s: State, t: Step)
    requires CloseCan(s, t)
    ensures CloseStep(s, t).buffer == s.buffer
  {
  }

  lemma OthersKeepQueue(s: State, t: Step)
    requires OthersCan(s, t)
    ensures OthersStep(s, t).buffer == s.buffer + NamesIn(t)
  {
    match t
    case Deliver(_) =>
    case AddEntry(_, _, _) =>
    case RemoveEntry(_) =>
    case Finish(_) =>
    case CallClose(_) =>
    case ReturnClose(_) =>
    case _ =>
  }

  lemma StepKeepsQueue(s: State, t: Step)
    requires Enabled(s, t)
    ensures s.buffer + NamesIn(t) == NamesOut(s, t) + Apply(s, t).buffer
  {
    hide DispatcherCan, CloseCan, OthersCan, DispatcherStep, CloseStep, OthersStep;
    if OfDispatcher(t) { DispatcherKeepsQueue(s, t); } else if OfClose(t) { CloseKeepsQueue(s, t); } else { OthersKeepQueue(s, t); }
  }

  lemma {:induction false} QueueFrom(s: State, run: seq<Step>)
    requires IsRun(s, run)
    ensures s.buffer + Delivered(run) == ReceivedIn(s, run) + Exec(s, run).buffer
    decreases |run|
  {
    hide Enabled, Apply, NamesIn, NamesOut;
    if run != [] {
      var n := Apply(s, run[0]);
      StepKeepsQueue(s, run[0]);
      QueueFrom(n, run[1..]);
      calc {
        s.buffer + Delivered(run);
        (s.buffer + NamesIn(run[0])) + Delivered(run[1..]);
        NamesOut(s, run[0]) + (n.buffer + Delivered(run[1..]));
        NamesOut(s, run[0]) + (ReceivedIn(n, run[1..]) + Exec(n, run[1..]).buffer);
        ReceivedIn(s, run) + Exec(s, run).buffer;
      }
    }
  }

  /** Signals are received in the order they were delivered, and what is not yet received is still buffered. */
  lemma SignalsInOrder(run: seq<Step>)
    requires IsRun(Init(), run)
    ensures Delivered(run) == ReceivedIn(Init(), run) + Exec(Init(), run).buffer
  {
    hide Enabled, Apply, NamesIn, NamesOut;
    QueueFrom(Init(), run);
    assert Init().buffer + Delivered(run) == Delivered(run);
  }

  // ---------- every named signal received is dispatched ----------

  /** The signal received and not yet resolved. */
  function OnHand(d: Dispatcher): seq<string> {
    match d
    case Received(name) => if name == "" then [] else [name]
    case _ => []
  }

  function Named(names: seq<string>): seq<string> {
    Filter(names, (name: string) => name != "")
  }

  function NamesOf(ds: seq<Dispatch>): seq<string> {
    seq(|ds|, i requires 0 <= i < |ds| => ds[i].name)
  }

  lemma {:induction false} NamedAppend(a: seq<string>, b: seq<string>)
    ensures Named(a + b) == Named(a) + Named(b)
  {
    if a == [] {
      assert a + b == b;
    } else {
      assert (a + b)[1..] == a[1..] + b;
      NamedAppend(a[1..], b);
    }
  }

  lemma NamesAppend(a: seq<Dispatch>, b: seq<Dispatch>)
    ensures NamesOf(a + b) == NamesOf(a) + NamesOf(b)
  {
  }

  lemma DispatcherTakesUp(s: State, t: Step)
    requires DispatcherCan(s, t)
    ensures var d := DispatcherStep(s, t).dispatcher;
      match t
      case Receive => OnHand(s.dispatcher) == [] && d.Received?
      case Resolve => s.dispatcher.Received? && OnHand(s.dispatcher) == [s.dispatcher.name] && OnHand(d) == []
      case _ => OnHand(s.dispatcher) == [] && OnHand(d) == []
  {
    match t
    case Receive =>
    case Resolve =>
    case TestClosing =>
    case SpawnOne =>
    case SkipNameless =>
    case _ =>
  }

  lemma OthersLeaveOnHand(s: State, t: Step)
    requires OthersCan(s, t)
    ensures OnHand(OthersStep(s, t).dispatcher) == OnHand(s.dispatcher)
  {
    match t
    case StartDispatcher =>
    case AddEntry(_, _, _) =>
    case RemoveEntry(_) =>
    case _ =>
  }

  lemma SingleNamed(name: string)
    ensures Named([name]) == if name == "" then [] else [name]
  {
    assert [name][1..] == [];
  }

  lemma StepDispatches(s: State, t: Step)
    requires Enabled(s, t)
    ensures OnHand(s.dispatcher) + Named(NamesOut(s, t)) == NamesOf(DispatchOf(s, t)) + OnHand(Apply(s, t).dispatcher)
  {
    hide DispatcherCan, CloseCan, OthersCan, DispatcherStep, CloseStep, OthersStep;
    if OfDispatcher(t) {
      DispatcherTakesUp(s, t);
      if t.Receive? { SingleNamed(Apply(s, t).dispatcher.name); }
    } else if OfClose(t) {
      CloseFrame(s, t);
    } else {
      OthersLeaveOnHand(s, t);
    }
  }

  lemma {:induction false} DispatchedFrom(s: State, run: seq<Step>)
    requires IsRun(s, run)
    ensures OnHand(s.dispatcher) + Named(ReceivedIn(s, run)) == NamesOf(Dispatches(s, run)) + OnHand(Exec(s, run).dispatcher)
    decreases |run|
  {
    hide Enabled, Apply, NamesOut, DispatchOf, Named, NamesOf, OnHand;
    if run == [] {
      assert Named([]) == [] && NamesOf([]) == [] by { EmptyNames(); }
    } else {
      var n := Apply(s, run[0]);
      StepDispatches(s, run[0]);
      DispatchedFrom(n, run[1..]);
      NamedAppend(NamesOut(s, run[0]), ReceivedIn(n, run[1..]));
      NamesAppend(DispatchOf(s, run[0]), Dispatches(n, run[1..]));
      calc {
        OnHand(s.dispatcher) + Named(ReceivedIn(s, run));
        (OnHand(s.dispatcher) + Named(NamesOut(s, run[0]))) + Named(ReceivedIn(n, run[1..]));
        NamesOf(DispatchOf(s, run[0])) + (OnHand(n.dispatcher) + Named(ReceivedIn(n, run[1..])));
        NamesOf(DispatchOf(s, run[0])) + (NamesOf(Dispatches(n, run[1..])) + OnHand(Exec(n, run[1..]).dispatcher));
        NamesOf(Dispatches(s, run)) + OnHand(Exec(s, run).dispatcher);
      }
    }
  }

  lemma EmptyNames()
    ensures Named([]) == [] && NamesOf([]) == []
  {
  }

  // ---------- what a dispatch starts ----------

  /** The handlers a dispatch owes: those of the registrations the signal matches. */
  function Owed(d: Dispatch): seq<nat> {
    IdsOf(ByMeaning(d.live, d.name))
  }

  function AllOwed(ds: seq<Dispatch>): seq<seq<nat>> {
    seq(|ds|, i requires 0 <= i < |ds| => Owed(ds[i]))
  }

  /** The list resolved and not yet counted. */
  function Waiting(d: Dispatcher): seq<seq<nat>> {
    if d.Resolved? || d.Locked? then [d.hs] else []
  }

  /** The lists owed are those accepted and then the one in hand, or one refused because closing was set. */
  predicate Answers(s: State, owed: seq<seq<nat>>) {
    || owed == s.accepted + Waiting(s.dispatcher)
    || (s.closing && (s.dispatcher.Refused? || s.dispatcher.Exited?)
        && |owed| == |s.accepted| + 1 && owed[..|s.accepted|] == s.accepted)
  }

  lemma ResolveOwes(s: State)
    requires NamesSafe(s) && DispatcherCan(s, Resolve)
    ensures DispatcherStep(s, Resolve).dispatcher == Resolved(Owed(Dispatch(s.dispatcher.name, s.live)))
  {
    hide ByKeys, ByMeaning, KeySafe;
    KeysRefineMeaning(s.live, s.dispatcher.name);
  }

  lemma ResolveAnswers(s: State, owed: seq<seq<nat>>)
    requires NamesSafe(s) && DispatcherCan(s, Resolve) && Answers(s, owed)
    ensures Answers(DispatcherStep(s, Resolve), owed + AllOwed(DispatchOf(s, Resolve)))
  {
    hide ByKeys, Owed, NamesSafe;
    ResolveOwes(s);
    assert AllOwed(DispatchOf(s, Resolve)) == [Owed(Dispatch(s.dispatcher.name, s.live))];
    assert s.accepted + [] == s.accepted;
  }

  lemma TestAnswers(s: State, owed: seq<seq<nat>>)
    requires DispatcherCan(s, TestClosing) && Answers(s, owed)
    ensures Answers(DispatcherStep(s, TestClosing), owed)
  {
    assert owed == s.accepted + [s.dispatcher.hs];
    assert owed + [] == owed;
  }

  lemma DispatcherAnswers(s: State, t: Step, owed: seq<seq<nat>>)
    requires DispatcherCan(s, t) && !t.Resolve? && !t.TestClosing? && Answers(s, owed)
    ensures Answers(DispatcherStep(s, t), owed)
  {
    match t
    case Resolve =>
    case TestClosing =>
    case Receive =>
    case SpawnOne =>
    case LockForSpawn =>
    case UnlockAfterAdd =>
    case UnlockAndExit =>
    case _ =>
  }

  lemma CloseAnswers(s: State, t: Step, owed: seq<seq<nat>>)
    requires CloseCan(s, t) && Answers(s, owed)
    ensures Answers(CloseStep(s, t), owed)
  {
    CloseFrame(s, t);
    hide CloseStep, CloseCan;
  }

  lemma OthersAnswer(s: State, t: Step, owed: seq<seq<nat>>)
    requires OthersCan(s, t) && Answers(s, owed)
    ensures Answers(OthersStep(s, t), owed)
  {
    OthersKeepCount(s, t);
    OthersLeaveDispatcher(s, t);
    hide OthersStep, OthersCan;
  }

  lemma OthersLeaveDispatcher(s: State, t: Step)
    requires OthersCan(s, t)
    ensures var d := OthersStep(s, t).dispatcher; d == s.dispatcher || (s.dispatcher.NotStarted? && d.Selecting?)
  {
    match t
    case StartDispatcher =>
    case AddEntry(_, _, _) =>
    case RemoveEntry(_) =>
    case _ =>
  }

  lemma StepAnswers(s: State, t: Step, owed: seq<seq<nat>>)
    requires NamesSafe(s) && Enabled(s, t) && Answers(s, owed)
    ensures Answers(Apply(s, t), owed + AllOwed(DispatchOf(s, t)))
  {
    hide NamesSafe, Answers, Owed, DispatcherCan, CloseCan, OthersCan, DispatcherStep, CloseStep, OthersStep;
    if t.Resolve? {
      ResolveAnswers(s, owed);
    } else {
      assert owed + AllOwed(DispatchOf(s, t)) == owed;
      if t.TestClosing? { TestAnswers(s, owed); }
      else if OfDispatcher(t) { DispatcherAnswers(s, t, owed); }
      else if OfClose(t) { CloseAnswers(s, t, owed); }
      else { OthersAnswer(s, t, owed); }
    }
  }

  lemma OwedAppend(a: seq<Dispatch>, b: seq<Dispatch>)
    ensures AllOwed(a + b) == AllOwed(a) + AllOwed(b)
  {
    hide Owed;
  }

  lemma {:induction false} AnswersFrom(s: State, run: seq<Step>, owed: seq<seq<nat>>)
    requires IdsFresh(s) && NamesSafe(s) && IsRun(s, run) && (forall t :: t in run ==> WellNamed(t))
    requires Answers(s, owed)
    ensures Answers(Exec(s, run), owed + AllOwed(Dispatches(s, run)))
    decreases |run|
  {
    hide IdsFresh, NamesSafe, WellNamed, Enabled, Apply, Answers, DispatchOf, Owed;
    if run == [] {
      assert owed + AllOwed([]) == owed;
    } else {
      var n := Apply(s, run[0]);
      var now, later := AllOwed(DispatchOf(s, run[0])), AllOwed(Dispatches(n, run[1..]));
      StepAnswers(s, run[0], owed);
      StepKeepsNames(s, run[0]);
      StepKeepsIds(s, run[0]);
      AnswersFrom(n, run[1..], owed + now);
      OwedAppend(DispatchOf(s, run[0]), Dispatches(n, run[1..]));
      hide AllOwed;
      assert owed + (now + later) == owed + now + later;
    }
  }

  lemma ReachedNames(run: seq<Step>)
    requires IsRun(Init(), run)
    ensures Named(ReceivedIn(Init(), run)) == NamesOf(Dispatches(Init(), run)) + OnHand(Exec(Init(), run).dispatcher)
  {
    hide Enabled, Apply, Named, NamesOf, IsRun, Exec;
    DispatchedFrom(Init(), run);
    assert OnHand(Init().dispatcher) == [];
    hide OnHand;
  }

  lemma ReachedAnswers(run: seq<Step>)
    requires IsRun(Init(), run) && forall t :: t in run ==> WellNamed(t)
    ensures Answers(Exec(Init(), run), AllOwed(Dispatches(Init(), run)))
  {
    hide Enabled, Apply, Owed, WellNamed, IsRun, Exec;
    AnswersFrom(Init(), run, []);
    assert [] + AllOwed(Dispatches(Init(), run)) == AllOwed(Dispatches(Init(), run));
  }

  /** The lists accepted are those owed to the first dispatches; at most one more is owed, in hand or refused. */
  ghost predicate InStep(s: State, ds: seq<Dispatch>) {
    && |s.accepted| <= |ds| <= |s.accepted| + 1
    && (forall k | 0 <= k < |s.accepted| :: s.accepted[k] == IdsOf(ByMeaning(ds[k].live, ds[k].name)))
    && (|ds| > |s.accepted| ==> s.dispatcher.Resolved? || s.dispatcher.Locked? || (s.closing && (s.dispatcher.Refused? || s.dispatcher.Exited?)))
    && (s.dispatcher.Resolved? || s.dispatcher.Locked? ==>
          |ds| > |s.accepted| && s.dispatcher.hs == IdsOf(ByMeaning(ds[|ds| - 1].live, ds[|ds| - 1].name)))
  }

  lemma AnswersInStep(s: State, ds: seq<Dispatch>)
    requires Answers(s, AllOwed(ds))
    ensures InStep(s, ds)
  {
    hide ByMeaning, IdsOf;
    var owed := AllOwed(ds);
    assert |owed| == |ds|;
    forall k | 0 <= k < |s.accepted| ensures k < |ds| && s.accepted[k] == Owed(ds[k]) {
      assert s.accepted[k] == owed[..|s.accepted|][k];
    }
    if s.dispatcher.Resolved? || s.dispatcher.Locked? {
      assert owed[|ds| - 1] == s.dispatcher.hs;
    }
  }

  /**
   * Each accepted list is that of a received signal: the k-th holds the ids of exactly the
   * registrations that matched the k-th named signal when it was resolved. At most one list owed is
   * not among them: the one in hand, or the one refused because Close had set closing.
   */
  lemma AcceptedAreOwed(run: seq<Step>)
    requires IsRun(Init(), run) && forall t :: t in run ==> WellNamed(t)
    ensures var s, ds := Exec(Init(), run), Dispatches(Init(), run);
      && Named(ReceivedIn(Init(), run)) == NamesOf(ds) + OnHand(s.dispatcher)
      && |s.accepted| <= |ds| <= |s.accepted| + 1
      && (forall k | 0 <= k < |s.accepted| :: s.accepted[k] == IdsOf(ByMeaning(ds[k].live, ds[k].name)))
      && (|ds| > |s.accepted| ==> s.dispatcher.Resolved? || s.dispatcher.Locked? || (s.closing && (s.dispatcher.Refused? || s.dispatcher.Exited?)))
      && (s.dispatcher.Resolved? || s.dispatcher.Locked? ==> |ds| > |s.accepted| && s.dispatcher.hs == IdsOf(ByMeaning(ds[|ds| - 1].live, ds[|ds| - 1].name)))
  {
    hide Named, NamesOf, OnHand, ByMeaning, IdsOf, WellNamed, Enabled, Apply, IsRun, Exec, Answers, AllOwed, Dispatches, ReceivedIn;
    ReachedNames(run);
    ReachedAnswers(run);
    AnswersInStep(Exec(Init(), run), Dispatches(Init(), run));
  }

  /**
   * In every reached state the dispatcher resolves a signal to each live registration that matches it
   * exactly once, to no other, and in the documented order.
   */
  lemma ResolvesExactlyTheMatching(run: seq<Step>, r: Registration)
    requires IsRun(Init(), run) && (forall t :: t in run ==> WellNamed(t))
    requires Enabled(Exec(Init(), run), Resolve)
    ensures var s := Exec(Init(), run); var d := Apply(s, Resolve).dispatcher; var (iface, member) := SplitSignalName(s.dispatcher.name);
      && d.Resolved?
      && d.hs == IdsOf(ByMeaning(s.live, s.dispatcher.name))
      && InDocumentedOrder(ByMeaning(s.live, s.dispatcher.name))
      && (r in s.live ==> multiset(d.hs)[r.id] == if Matches(r, iface, member) then 1 else 0)
      && (r.id in d.hs ==> exists x :: x in s.live && x.id == r.id && Matches(x, iface, member))
  {
    var s := Exec(Init(), run);
    InitInv();
    RunKeepsInv(Init(), run);
    RunKeepsNames(Init(), run);
    hide IsRun, Exec, WellNamed;
    MatchingExactly(s.live, s.dispatcher.name, r);
    ResolveOwes(s);
  }

  lemma MatchingExactly(live: seq<Registration>, name: string, r: Registration)
    requires IncreasingIds(live)
    ensures var hs := IdsOf(ByMeaning(live, name)); var (iface, member) := SplitSignalName(name);
      && InDocumentedOrder(ByMeaning(live, name))
      && (r in live ==> multiset(hs)[r.id] == if Matches(r, iface, member) then 1 else 0)
      && (r.id in hs ==> exists x :: x in live && x.id == r.id && Matches(x, iface, member))
  {
    hide ByMeaning, Matches, InDocumentedOrder, IncreasingIds, SplitSignalName;
    MeantInOrder(live, name);
    if r in live { MeantIdOnce(live, name, r); }
    if r.id in IdsOf(ByMeaning(live, name)) { MeantIdMatches(live, name, r.id); }
  }

  lemma MeantMatches(live: seq<Registration>, name: string, x: Registration)
    requires x in ByMeaning(live, name)
    ensures x in live && Matches(x, SplitSignalName(name).0, SplitSignalName(name).1)
  {
    hide SplitSignalName, Matches;
  }

  lemma MeantIdOnce(live: seq<Registration>, name: string, r: Registration)
    requires IncreasingIds(live) && r in live
    ensures multiset(IdsOf(ByMeaning(live, name)))[r.id]
      == if Matches(r, SplitSignalName(name).0, SplitSignalName(name).1) then 1 else 0
  {
    hide ByMeaning, Matches, IdsOf, SplitSignalName;
    var rs := ByMeaning(live, name);
    MeantOnce(live, name, r);
    forall x | x in rs && x.id == r.id ensures x == r {
      MeantMatches(live, name, x);
      SameIdSameRegistration(live, x, r);
    }
    IdsOfCount(rs, r);
  }

  lemma MeantIdMatches(live: seq<Registration>, name: string, id: nat)
    requires id in IdsOf(ByMeaning(live, name))
    ensures exists x :: x in live && x.id == id && Matches(x, SplitSignalName(name).0, SplitSignalName(name).1)
  {
    hide ByMeaning, Matches, SplitSignalName;
    var rs := ByMeaning(live, name);
    var i :| 0 <= i < |rs| && IdsOf(rs)[i] == id;
    assert rs[i] in rs;
    MeantMatches(live, name, rs[i]);
  }

  // ---------- which registrations are live ----------

  /** The registration an AddEntry makes in state `s`. */
  function Made(s: State, t: Step): Registration
    requires t.AddEntry?
  {
    Registration(s.nextId + 1, t.iface, t.member, t.fn)
  }

  /** The registrations a run adds and does not remove again. */
  function Kept(s: State, run: seq<Step>): seq<Registration>
    requires IsRun(s, run)
    decreases |run|
  {
    if run == [] then []
    else (if run[0].AddEntry? && RemoveEntry(s.nextId + 1) !in run[1..] then [Made(s, run[0])] else []) + Kept(Apply(s, run[0]), run[1..])
  }

  function Unremoved(live: seq<Registration>, run: seq<Step>): seq<Registration> {
    Filter(live, (r: Registration) => RemoveEntry(r.id) !in run)
  }

  lemma {:induction false} FilterAppend(a: seq<Registration>, b: seq<Registration>, keep: Registration -> bool)
    ensures Filter(a + b, keep) == Filter(a, keep) + Filter(b, keep)
  {
    if a == [] {
      assert a + b == b;
    } else {
      assert (a + b)[1..] == a[1..] + b;
      FilterAppend(a[1..], b, keep);
    }
  }

  lemma {:induction false} FilterTwice(s: seq<Registration>, p: Registration -> bool, q: Registration -> bool)
    ensures Filter(Filter(s, p), q) == Filter(s, (r: Registration) => p(r) && q(r))
  {
    if s != [] {
      FilterTwice(s[1..], p, q);
      FilterAppend(if p(s[0]) then [s[0]] else [], Filter(s[1..], p), q);
    }
  }

  lemma RemoveKeepsLive(live: seq<Registration>, id: nat, rest: seq<Step>)
    ensures Unremoved(Filter(live, (r: Registration) => r.id != id), rest) == Unremoved(live, [RemoveEntry(id)] + rest)
  {
    var p, q := (r: Registration) => r.id != id, (r: Registration) => RemoveEntry(r.id) !in rest;
    FilterTwice(live, p, q);
    FilterAgree(live, (r: Registration) => p(r) && q(r), (r: Registration) => RemoveEntry(r.id) !in [RemoveEntry(id)] + rest);
  }

  lemma AddKeepsLive(live: seq<Registration>, r: Registration, rest: seq<Step>, t: Step)
    requires !t.RemoveEntry?
    ensures Unremoved(live + [r], rest) == Unremoved(live, [t] + rest) + if RemoveEntry(r.id) !in rest then [r] else []
  {
    FilterAppend(live, [r], (x: Registration) => RemoveEntry(x.id) !in rest);
    LeaveKeepsLive(live, rest, t);
  }

  lemma LeaveKeepsLive(live: seq<Registration>, rest: seq<Step>, t: Step)
    requires !t.RemoveEntry?
    ensures Unremoved(live, rest) == Unremoved(live, [t] + rest)
  {
    FilterAgree(live, (r: Registration) => RemoveEntry(r.id) !in rest, (r: Registration) => RemoveEntry(r.id) !in [t] + rest);
  }

  lemma StepKeepsLive(s: State, t: Step, rest: seq<Step>)
    requires Enabled(s, t)
    ensures Unremoved(Apply(s, t).live, rest) == Unremoved(s.live, [t] + rest)
      + if t.AddEntry? && RemoveEntry(s.nextId + 1) !in rest then [Made(s, t)] else []
  {
    hide Unremoved, DispatcherStep, CloseStep, DispatcherCan, CloseCan;
    if t.AddEntry? {
      AddKeepsLive(s.live, Made(s, t), rest, t);
    } else if t.RemoveEntry? {
      RemoveKeepsLive(s.live, t.id, rest);
    } else {
      EntriesStay(s, t);
      LeaveKeepsLive(s.live, rest, t);
    }
  }

  lemma {:induction false} LiveFrom(s: State, run: seq<Step>)
    requires IsRun(s, run)
    ensures Exec(s, run).live == Unremoved(s.live, run) + Kept(s, run)
    decreases |run|
  {
    hide Enabled, Apply, Made, Unremoved;
    if run == [] {
      FilterAll(s.live);
    } else {
      StepKeepsLive(s, run[0], run[1..]);
      LiveFrom(Apply(s, run[0]), run[1..]);
      assert [run[0]] + run[1..] == run;
      assert Exec(s, run) == Exec(Apply(s, run[0]), run[1..]);
    }
  }

  lemma {:induction false} FilterAll(live: seq<Registration>)
    ensures Unremoved(live, []) == live
  {
    if live != [] { FilterAll(live[1..]); }
  }

  /** Live are exactly the registrations made and not unsubscribed since, in the order they were made. */
  lemma LiveExactly(run: seq<Step>)
    requires IsRun(Init(), run)
    ensures Exec(Init(), run).live == Kept(Init(), run)
  {
    hide Enabled, Apply, Made;
    LiveFrom(Init(), run);
  }

  // ---------- when deliveries and the dispatcher end ----------

  /** A dispatcher that has ended had a reason to, and registrations are made only once it was started. */
  ghost predicate EndsForAReason(s: State) {
    && (s.dispatcher.Exited? ==> s.cancelled || s.closing || (!s.channelOpen && s.buffer == []))
    && (s.dispatcher.Refused? ==> s.closing)
    && (s.live != [] ==> !s.dispatcher.NotStarted?)
    && |s.buffer| <= 64
  }

  lemma DispatcherKeepsReason(s: State, t: Step)
    requires EndsForAReason(s) && DispatcherCan(s, t)
    ensures EndsForAReason(DispatcherStep(s, t))
  {
    match t
    case Receive =>
    case Resolve =>
    case TestClosing =>
    case SpawnOne =>
    case _ =>
  }

  lemma CloseKeepsReason(s: State, t: Step)
    requires EndsForAReason(s) && CloseCan(s, t)
    ensures EndsForAReason(CloseStep(s, t))
  {
  }

  lemma OthersKeepReason(s: State, t: Step)
    requires EndsForAReason(s) && OthersCan(s, t)
    ensures EndsForAReason(OthersStep(s, t))
  {
    hide Filter;
    match t
    case Deliver(_) =>
    case StartDispatcher =>
    case AddEntry(_, _, _) =>
    case RemoveEntry(_) => assert s.live == [] ==> OthersStep(s, t).live == [];
    case Finish(_) =>
    case _ =>
  }

  lemma {:induction false} ReasonFrom(s: State, run: seq<Step>)
    requires EndsForAReason(s) && IsRun(s, run)
    ensures EndsForAReason(Exec(s, run))
    decreases |run|
  {
    hide EndsForAReason, DispatcherCan, CloseCan, OthersCan, DispatcherStep, CloseStep, OthersStep;
    if run != [] {
      var t := run[0];
      if OfDispatcher(t) { DispatcherKeepsReason(s, t); } else if OfClose(t) { CloseKeepsReason(s, t); } else { OthersKeepReason(s, t); }
      hide Enabled, Apply;
      ReasonFrom(Apply(s, t), run[1..]);
    }
  }

  /**
   * The dispatcher ends only when its context is cancelled, its channel closed and drained, or Close
   * has set closing; until one of these it goes on for ever taking signals.
   */
  lemma DispatcherEndsOnlyWhenTold(run: seq<Step>)
    requires IsRun(Init(), run)
    ensures var s := Exec(Init(), run);
      && (s.dispatcher.Exited? ==> s.cancelled || s.closing || (!s.channelOpen && s.buffer == []))
      && (s.live != [] ==> !s.dispatcher.NotStarted?)
      && |s.buffer| <= 64
  {
    hide IsRun, Exec;
    ReasonFrom(Init(), run);
  }

  /** And told to it can end: a cancelled context or a drained closed channel stops a selecting dispatcher. */
  lemma DispatcherCanEnd(s: State)
    requires s.dispatcher.Selecting?
    ensures var n := Apply(s, ParentCancel); Enabled(n, ObserveCancel) && Apply(n, ObserveCancel).dispatcher.Exited?
    ensures s.buffer == [] ==> var n := Apply(s, CloseChannel); Enabled(n, ObserveClosedChannel) && Apply(n, ObserveClosedChannel).dispatcher.Exited?
    ensures s.buffer != [] ==> Enabled(s, Receive)
  {
  }

  /** No signal gets in any more: the channel is closed, or Close has detached it from the bus. */
  predicate Deaf(s: State) {
    !s.channelOpen || !s.attached
  }

  lemma StepStaysDeaf(s: State, t: Step)
    requires Deaf(s) && Enabled(s, t)
    ensures !t.Deliver? && Deaf(Apply(s, t))
  {
    hide DispatcherStep, CloseStep, OthersStep, DispatcherCan, CloseCan;
    if OfDispatcher(t) { DispatcherLeavesChannel(s, t); } else if OfClose(t) { CloseOnlyDetaches(s, t); } else { OthersOnlyClose(s, t); }
  }

  lemma DispatcherLeavesChannel(s: State, t: Step)
    requires DispatcherCan(s, t)
    ensures DispatcherStep(s, t).channelOpen == s.channelOpen && DispatcherStep(s, t).attached == s.attached
  {
    match t
    case Resolve =>
    case TestClosing =>
    case SpawnOne =>
    case Receive =>
    case _ =>
  }

  lemma CloseOnlyDetaches(s: State, t: Step)
    requires CloseCan(s, t)
    ensures CloseStep(s, t).channelOpen == s.channelOpen && (CloseStep(s, t).attached ==> s.attached)
  {
  }

  lemma OthersOnlyClose(s: State, t: Step)
    requires OthersCan(s, t)
    ensures (OthersStep(s, t).channelOpen ==> s.channelOpen) && OthersStep(s, t).attached == s.attached
  {
    match t
    case AddEntry(_, _, _) =>
    case RemoveEntry(_) =>
    case _ =>
  }

  /** Once the channel is closed or Close has detached it, nothing is delivered in any run. */
  lemma {:induction false} NothingDeliveredWhenDeaf(s: State, run: seq<Step>)
    requires Deaf(s) && IsRun(s, run)
    ensures Delivered(run) == []
    decreases |run|
  {
    hide Deaf, Enabled, Apply;
    if run != [] {
      StepStaysDeaf(s, run[0]);
      NothingDeliveredWhenDeaf(Apply(s, run[0]), run[1..]);
    }
  }
}

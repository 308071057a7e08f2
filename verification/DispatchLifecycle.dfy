/**
 * The concurrency contract of an introspected object: one dispatcher, the handler goroutines it
 * spawns, and Close (internal/iwdbus/introspect.go). Every step below is one atomic action of one
 * goroutine; a timed wait may end by its event or by its timeout.
 */
module DispatchLifecycle {
  import opened Common
  import opened DBusNames
  import opened SignalIndex

  /** Where the dispatcher goroutine stands. `hs` are the ids of the handlers resolved for a signal. */
  datatype Dispatcher =
    | NotStarted
    | Selecting
    | Received(name: string)
    | Resolved(hs: seq<nat>)   // about to lock handlerMu
    | Locked(hs: seq<nat>)     // holds handlerMu, about to test closing
    | Refused                  // holds handlerMu, saw closing
    | Counted(hs: seq<nat>)    // holds handlerMu, has added |hs| to the wait group
    | Spawning(hs: seq<nat>)   // handlers counted but not yet spawned
    | Exited

  /** Where the body of Close stands; sync.Once runs it once. */
  datatype Closer =
    | Open
    | Cancelling
    | Removing
    | AwaitDispatcher
    | Locking
    | Marking                  // holds handlerMu
    | Marked                   // holds handlerMu, closing is set
    | AwaitHandlers            // holds handlerMu
    | Unlocking(timedOut: bool)  // holds handlerMu
    | Settling(timedOut: bool)
    | Closed(timedOut: bool)

  /** The goroutine of a timed wait, which outlives the wait when it times out. */
  datatype Waiter = Unborn | Waiting | Released

  datatype LockOwner = Free | ByDispatcher | ByCloser

  datatype Caller = InClose | Returned

  datatype State = State(
    cancelled: bool,
    attached: bool,               // the bus still delivers into the channel
    channelOpen: bool,
    buffer: seq<string>,          // buffered signal names, "" for a signal without one
    live: seq<Registration>,
    nextId: nat,
    dispatcher: Dispatcher,
    dispatchCount: int,           // the counter of dispatchWG
    handlerMu: LockOwner,
    closing: bool,
    wg: int,                      // the counter of the handler wait group
    accepted: seq<seq<nat>>,      // history: the handler lists added to wg, in order
    spawned: seq<nat>,            // history: the handlers started, in order
    running: seq<nat>,
    closer: Closer,
    dispatchWaiter: Waiter,
    handlerWaiter: Waiter,
    callers: map<nat, Caller>)

  const CAPACITY: nat := 64

  function Init(): State {
    State(false, true, true, [], [], 0, NotStarted, 0, Free, false, 0, [], [], [], Open, Unborn, Unborn, map[])
  }

  datatype Step =
    // the bus
    | Deliver(name: string)
    | CloseChannel
    | ParentCancel                // the context the object was made with ends
    // callers of register and unsubscribe
    | StartDispatcher
    | AddEntry(iface: string, member: string, fn: Callback)
    | RemoveEntry(id: nat)
    // the dispatcher
    | ObserveCancel
    | ObserveClosedChannel
    | Receive
    | SkipNameless
    | Resolve
    | LockForSpawn
    | TestClosing
    | UnlockAfterAdd
    | UnlockAndExit
    | SpawnOne
    | SpawnedAll
    // a handler
    | Finish(index: nat)
    // callers and the body of Close
    | CallClose(caller: nat)
    | Cancel
    | RemoveSignal
    | DispatchWaiterReturns
    | EndDispatchWait
    | LockForClose
    | MarkClosing
    | StartHandlerWait
    | HandlerWaiterReturns
    | EndHandlerWait(timedOut: bool)
    | UnlockAfterWait
    | Settle
    | ReturnClose(caller: nat)

  function IdsOf(rs: seq<Registration>): (ids: seq<nat>)
    ensures |ids| == |rs|
    ensures forall i :: 0 <= i < |rs| ==> ids[i] == rs[i].id
  {
    if rs == [] then [] else [rs[0].id] + IdsOf(rs[1..])
  }

  predicate DispatcherRuns(d: Dispatcher) {
    !d.NotStarted? && !d.Exited?
  }

  /** A step of the dispatcher. */
  predicate OfDispatcher(t: Step) {
    t.ObserveCancel? || t.ObserveClosedChannel? || t.Receive? || t.SkipNameless? || t.Resolve? || t.LockForSpawn? || t.TestClosing?
    || t.UnlockAfterAdd? || t.UnlockAndExit? || t.SpawnOne? || t.SpawnedAll?
  }

  /** A step of the body of Close. */
  predicate OfClose(t: Step) {
    t.Cancel? || t.RemoveSignal? || t.EndDispatchWait? || t.LockForClose? || t.MarkClosing? || t.StartHandlerWait?
    || t.EndHandlerWait? || t.UnlockAfterWait? || t.Settle?
  }

  predicate DispatcherCan(s: State, t: Step) {
    match t
    case ObserveCancel => s.dispatcher.Selecting? && s.cancelled
    case ObserveClosedChannel => s.dispatcher.Selecting? && !s.channelOpen && s.buffer == []
    case Receive => s.dispatcher.Selecting? && s.buffer != []
    case SkipNameless => s.dispatcher == Received("")
    case Resolve => s.dispatcher.Received? && s.dispatcher.name != ""
    case LockForSpawn => s.dispatcher.Resolved? && s.handlerMu.Free?
    case TestClosing => s.dispatcher.Locked?
    case UnlockAfterAdd => s.dispatcher.Counted?
    case UnlockAndExit => s.dispatcher.Refused?
    case SpawnOne => s.dispatcher.Spawning? && s.dispatcher.hs != []
    case SpawnedAll => s.dispatcher == Spawning([])
    case _ => false
  }

  predicate CloseCan(s: State, t: Step) {
    match t
    case Cancel => s.closer.Cancelling?
    case RemoveSignal => s.closer.Removing?
    case EndDispatchWait => s.closer.AwaitDispatcher?
    case LockForClose => s.closer.Locking? && s.handlerMu.Free?
    case MarkClosing => s.closer.Marking?
    case StartHandlerWait => s.closer.Marked?
    case EndHandlerWait(timedOut) => s.closer.AwaitHandlers? && (timedOut || s.handlerWaiter.Released?)
    case UnlockAfterWait => s.closer.Unlocking?
    case Settle => s.closer.Settling?
    case _ => false
  }

  predicate OthersCan(s: State, t: Step) {
    match t
    case Deliver(_) => s.attached && s.channelOpen && |s.buffer| < CAPACITY
    case CloseChannel => true
    case ParentCancel => true
    case StartDispatcher => true
    case AddEntry(_, member, _) => !s.dispatcher.NotStarted? && member != ""
    case RemoveEntry(_) => true
    case Finish(index) => index < |s.running|
    case CallClose(caller) => caller !in s.callers
    case DispatchWaiterReturns => s.dispatchWaiter.Waiting? && s.dispatchCount == 0
    case HandlerWaiterReturns => s.handlerWaiter.Waiting? && s.wg == 0
    case ReturnClose(caller) => s.closer.Closed? && caller in s.callers && s.callers[caller].InClose?
    case _ => false
  }

  predicate Enabled(s: State, t: Step) {
    if OfDispatcher(t) then DispatcherCan(s, t) else if OfClose(t) then CloseCan(s, t) else OthersCan(s, t)
  }

  function DispatcherStep(s: State, t: Step): State
    requires DispatcherCan(s, t)
  {
    match t
    case ObserveCancel => s.(dispatcher := Exited, dispatchCount := s.dispatchCount - 1)
    case ObserveClosedChannel => s.(dispatcher := Exited, dispatchCount := s.dispatchCount - 1)
    case Receive => s.(dispatcher := Received(s.buffer[0]), buffer := s.buffer[1..])
    case SkipNameless => s.(dispatcher := Selecting)
    case Resolve => s.(dispatcher := Resolved(IdsOf(ByKeys(s.live, s.dispatcher.name))))
    case LockForSpawn => s.(dispatcher := Locked(s.dispatcher.hs), handlerMu := ByDispatcher)
    case TestClosing =>
      if s.closing then s.(dispatcher := Refused)
      else s.(dispatcher := Counted(s.dispatcher.hs), wg := s.wg + |s.dispatcher.hs|, accepted := s.accepted + [s.dispatcher.hs])
    case UnlockAfterAdd => s.(dispatcher := Spawning(s.dispatcher.hs), handlerMu := Free)
    case UnlockAndExit =>
      s.(dispatcher := Exited, handlerMu := Free, dispatchCount := s.dispatchCount - 1)
    case SpawnOne =>
      var h := s.dispatcher.hs[0];
      s.(dispatcher := Spawning(s.dispatcher.hs[1..]), spawned := s.spawned + [h], running := s.running + [h])
    case SpawnedAll => s.(dispatcher := Selecting)
  }

  function CloseStep(s: State, t: Step): State
    requires CloseCan(s, t)
  {
    match t
    case Cancel => s.(closer := Removing, cancelled := true)
    case RemoveSignal => s.(closer := AwaitDispatcher, attached := false, dispatchWaiter := Waiting)
    case EndDispatchWait => s.(closer := Locking)
    case LockForClose => s.(closer := Marking, handlerMu := ByCloser)
    case MarkClosing => s.(closer := Marked, closing := true)
    case StartHandlerWait => s.(closer := AwaitHandlers, handlerWaiter := Waiting)
    case EndHandlerWait(timedOut) => s.(closer := Unlocking(timedOut))
    case UnlockAfterWait => s.(closer := Settling(s.closer.timedOut), handlerMu := Free)
    case Settle => s.(closer := Closed(s.closer.timedOut))
  }

  function OthersStep(s: State, t: Step): State
    requires OthersCan(s, t)
  {
    match t
    case Deliver(name) => s.(buffer := s.buffer + [name])
    case CloseChannel => s.(channelOpen := false)
    case ParentCancel => s.(cancelled := true)
    case StartDispatcher =>
      if s.dispatcher.NotStarted? then s.(dispatcher := Selecting, dispatchCount := s.dispatchCount + 1) else s
    case AddEntry(iface, member, fn) =>
      s.(nextId := s.nextId + 1, live := s.live + [Registration(s.nextId + 1, iface, member, fn)])
    case RemoveEntry(id) => s.(live := Filter(s.live, (r: Registration) => r.id != id))
    case Finish(index) => s.(running := s.running[..index] + s.running[index + 1..], wg := s.wg - 1)
    case CallClose(caller) =>
      s.(callers := s.callers[caller := InClose], closer := if s.closer.Open? then Cancelling else s.closer)
    case DispatchWaiterReturns => s.(dispatchWaiter := Released)
    case HandlerWaiterReturns => s.(handlerWaiter := Released)
    case ReturnClose(caller) => s.(callers := s.callers[caller := Returned])
  }

  function Apply(s: State, t: Step): State
    requires Enabled(s, t)
  {
    if OfDispatcher(t) then DispatcherStep(s, t) else if OfClose(t) then CloseStep(s, t) else OthersStep(s, t)
  }

  // ---------- runs ----------

  predicate IsRun(s: State, run: seq<Step>)
    decreases |run|
  {
    run == [] || (Enabled(s, run[0]) && IsRun(Apply(s, run[0]), run[1..]))
  }

  function Exec(s: State, run: seq<Step>): State
    requires IsRun(s, run)
    decreases |run|
  {
    if run == [] then s else Exec(Apply(s, run[0]), run[1..])
  }

  lemma {:induction false} RunsCompose(s: State, first: seq<Step>, second: seq<Step>)
    requires IsRun(s, first) && IsRun(Exec(s, first), second)
    ensures IsRun(s, first + second) && Exec(s, first + second) == Exec(Exec(s, first), second)
    decreases |first|
  {
    hide Enabled, Apply;
    if first == [] {
      assert first + second == second;
    } else {
      RunsCompose(Apply(s, first[0]), first[1..], second);
      assert (first + second)[1..] == first[1..] + second;
    }
  }

  // ---------- the invariant ----------

  function Pending(s: State): seq<nat> {
    if s.dispatcher.Counted? || s.dispatcher.Spawning? then s.dispatcher.hs else []
  }

  function Flatten(lists: seq<seq<nat>>): seq<nat> {
    if lists == [] then [] else Flatten(lists[..|lists| - 1]) + lists[|lists| - 1]
  }

  predicate HoldsAsDispatcher(d: Dispatcher) {
    d.Locked? || d.Refused? || d.Counted?
  }

  predicate HoldsAsCloser(c: Closer) {
    c.Marking? || c.Marked? || c.AwaitHandlers? || c.Unlocking?
  }

  predicate PastMark(c: Closer) {
    c.Marked? || c.AwaitHandlers? || c.Unlocking? || c.Settling? || c.Closed?
  }

  predicate WaitedFully(c: Closer) {
    (c.Unlocking? || c.Settling? || c.Closed?) && !c.timedOut
  }

  /** Mutual exclusion on handlerMu, and who may be in its critical section once closing is set. */
  ghost predicate LocksAgree(s: State) {
    && (s.handlerMu.ByDispatcher? <==> HoldsAsDispatcher(s.dispatcher))
    && (s.handlerMu.ByCloser? <==> HoldsAsCloser(s.closer))
    && (s.closing <==> PastMark(s.closer))
    && (s.closing ==> !s.dispatcher.Counted?)
    && s.dispatchCount == (if DispatcherRuns(s.dispatcher) then 1 else 0)
  }

  /** What the progress of Close says about cancellation and about the handler wait. */
  ghost predicate WaitsAgree(s: State) {
    && (!s.handlerWaiter.Unborn? <==> PastMark(s.closer) && !s.closer.Marked?)
    && (s.handlerWaiter.Released? ==> s.wg == 0)
    && (WaitedFully(s.closer) ==> s.handlerWaiter.Released?)
    && (!s.closer.Open? && !s.closer.Cancelling? ==> s.cancelled)
    && (!s.closer.Open? && !s.closer.Cancelling? && !s.closer.Removing? ==> !s.attached)
  }

  /** The wait group counts exactly the handlers counted but not spawned and those running. */
  ghost predicate CountExact(s: State) {
    Balanced(s.wg, s.accepted, s.spawned, Pending(s), s.running)
  }

  ghost predicate CallersAgree(s: State) {
    && (s.callers != map[] <==> !s.closer.Open?)
    && (forall c :: c in s.callers && s.callers[c].Returned? ==> s.closer.Closed?)
  }

  ghost predicate IdsFresh(s: State) {
    IncreasingIds(s.live) && forall r :: r in s.live ==> r.id <= s.nextId
  }

  ghost predicate Inv(s: State) {
    LocksAgree(s) && WaitsAgree(s) && CountExact(s) && CallersAgree(s) && IdsFresh(s)
  }

  lemma FlattenAppend(lists: seq<seq<nat>>, l: seq<nat>)
    ensures Flatten(lists + [l]) == Flatten(lists) + l
  {
    assert (lists + [l])[..|lists|] == lists;
  }

  lemma DispatcherKeepsLocks(s: State, t: Step)
    requires LocksAgree(s) && DispatcherCan(s, t)
    ensures LocksAgree(DispatcherStep(s, t))
  {
    hide ByKeys, IdsOf;
  }

  lemma CloseKeepsLocks(s: State, t: Step)
    requires LocksAgree(s) && CloseCan(s, t)
    ensures LocksAgree(CloseStep(s, t))
  {
  }

  lemma OthersKeepLocks(s: State, t: Step)
    requires LocksAgree(s) && OthersCan(s, t)
    ensures LocksAgree(OthersStep(s, t))
  {
    hide Filter;
  }

  lemma StepKeepsLocks(s: State, t: Step)
    requires LocksAgree(s) && Enabled(s, t)
    ensures LocksAgree(Apply(s, t))
  {
    hide LocksAgree, DispatcherCan, CloseCan, OthersCan, DispatcherStep, CloseStep, OthersStep;
    if OfDispatcher(t) { DispatcherKeepsLocks(s, t); } else if OfClose(t) { CloseKeepsLocks(s, t); } else { OthersKeepLocks(s, t); }
  }

  lemma DispatcherLeavesClose(s: State, t: Step)
    requires DispatcherCan(s, t)
    ensures DispatcherStep(s, t).callers == s.callers && DispatcherStep(s, t).closer == s.closer
  {
    match t
    case Resolve =>
    case TestClosing =>
    case SpawnOne =>
    case Receive =>
    case LockForSpawn =>
    case UnlockAfterAdd =>
    case _ =>
  }

  lemma DispatcherLeavesEntries(s: State, t: Step)
    requires DispatcherCan(s, t)
    ensures DispatcherStep(s, t).live == s.live && DispatcherStep(s, t).nextId == s.nextId
  {
    match t
    case Resolve =>
    case TestClosing =>
    case SpawnOne =>
    case Receive =>
    case LockForSpawn =>
    case UnlockAfterAdd =>
    case _ =>
  }

  lemma DispatcherLeavesWaits(s: State, t: Step)
    requires DispatcherCan(s, t)
    ensures var n := DispatcherStep(s, t);
      n.cancelled == s.cancelled && n.attached == s.attached && n.closing == s.closing && n.handlerWaiter == s.handlerWaiter
  {
    match t
    case Resolve =>
    case TestClosing =>
    case SpawnOne =>
    case Receive =>
    case LockForSpawn =>
    case UnlockAfterAdd =>
    case _ =>
  }

  lemma DispatcherCountsAtTest(s: State, t: Step)
    requires DispatcherCan(s, t) && !(t.TestClosing? && !s.closing)
    ensures var n := DispatcherStep(s, t); n.wg == s.wg && n.accepted == s.accepted
  {
    match t
    case Resolve =>
    case TestClosing =>
    case SpawnOne =>
    case Receive =>
    case LockForSpawn =>
    case UnlockAfterAdd =>
    case _ =>
  }

  /** The dispatcher leaves Close, its waits and the registrations alone, and counts in one step only. */
  lemma DispatcherFrame(s: State, t: Step)
    requires DispatcherCan(s, t)
    ensures var n := DispatcherStep(s, t);
      && n.callers == s.callers && n.closer == s.closer && n.live == s.live && n.nextId == s.nextId
      && n.cancelled == s.cancelled && n.attached == s.attached && n.closing == s.closing && n.handlerWaiter == s.handlerWaiter
      && (n.wg == s.wg || (t.TestClosing? && !s.closing))
      && (n.accepted == s.accepted || (t.TestClosing? && !s.closing))
  {
    hide DispatcherCan, DispatcherStep;
    DispatcherLeavesClose(s, t);
    DispatcherLeavesEntries(s, t);
    DispatcherLeavesWaits(s, t);
    if !(t.TestClosing? && !s.closing) { DispatcherCountsAtTest(s, t); }
  }

  lemma DispatcherKeepsWaits(s: State, t: Step)
    requires LocksAgree(s) && WaitsAgree(s) && DispatcherCan(s, t)
    ensures WaitsAgree(DispatcherStep(s, t))
  {
    DispatcherFrame(s, t);
    hide DispatcherStep, DispatcherCan;
  }

  lemma CloseKeepsWaits(s: State, t: Step)
    requires WaitsAgree(s) && CloseCan(s, t)
    ensures WaitsAgree(CloseStep(s, t))
  {
  }

  lemma OthersKeepWaits(s: State, t: Step)
    requires WaitsAgree(s) && CountExact(s) && OthersCan(s, t)
    ensures WaitsAgree(OthersStep(s, t))
  {
    hide Filter, Flatten;
  }

  lemma StepKeepsWaits(s: State, t: Step)
    requires LocksAgree(s) && WaitsAgree(s) && CountExact(s) && Enabled(s, t)
    ensures WaitsAgree(Apply(s, t))
  {
    hide LocksAgree, WaitsAgree, CountExact, DispatcherCan, CloseCan, OthersCan, DispatcherStep, CloseStep, OthersStep;
    if OfDispatcher(t) { DispatcherKeepsWaits(s, t); } else if OfClose(t) { CloseKeepsWaits(s, t); } else { OthersKeepWaits(s, t); }
  }

  /** The count, on the parts of the state it speaks of. */
  predicate Balanced(wg: int, accepted: seq<seq<nat>>, spawned: seq<nat>, pending: seq<nat>, running: seq<nat>) {
    wg == |pending| + |running| && Flatten(accepted) == spawned + pending
  }

  lemma AcceptBalanced(wg: int, accepted: seq<seq<nat>>, spawned: seq<nat>, running: seq<nat>, hs: seq<nat>)
    requires Balanced(wg, accepted, spawned, [], running)
    ensures Balanced(wg + |hs|, accepted + [hs], spawned, hs, running)
  {
    FlattenAppend(accepted, hs);
    assert spawned + [] == spawned;
  }

  lemma SpawnBalanced(wg: int, accepted: seq<seq<nat>>, spawned: seq<nat>, hs: seq<nat>, running: seq<nat>)
    requires hs != [] && Balanced(wg, accepted, spawned, hs, running)
    ensures Balanced(wg, accepted, spawned + [hs[0]], hs[1..], running + [hs[0]])
  {
    assert spawned + hs == spawned + [hs[0]] + hs[1..];
  }

  /** Every other step leaves the histories and the dispatcher's hand alone, and ends a handler or none. */
  lemma OtherStepKeepsCount(s: State, t: Step)
    requires Enabled(s, t) && !t.SpawnOne? && (t.TestClosing? ==> s.closing)
    ensures var after := Apply(s, t);
            && Pending(after) == Pending(s) && after.accepted == s.accepted && after.spawned == s.spawned
            && after.wg - s.wg == |after.running| - |s.running|
  {
    hide Pending, DispatcherCan, CloseCan, OthersCan, DispatcherStep, CloseStep, OthersStep;
    if OfDispatcher(t) { DispatcherKeepsCount(s, t); } else if OfClose(t) { CloseFrame(s, t); } else { OthersKeepCount(s, t); }
  }

  lemma DispatcherKeepsCount(s: State, t: Step)
    requires DispatcherCan(s, t) && !t.SpawnOne? && (t.TestClosing? ==> s.closing)
    ensures var n := DispatcherStep(s, t);
      Pending(n) == Pending(s) && n.accepted == s.accepted && n.spawned == s.spawned && n.wg == s.wg && n.running == s.running
  {
    hide ByKeys, IdsOf;
  }

  /** The body of Close leaves the dispatcher, the handlers and the registrations alone. */
  lemma CloseFrame(s: State, t: Step)
    requires CloseCan(s, t)
    ensures var n := CloseStep(s, t);
      && n.dispatcher == s.dispatcher && n.accepted == s.accepted && n.spawned == s.spawned && n.wg == s.wg && n.running == s.running
      && n.live == s.live && n.nextId == s.nextId && n.callers == s.callers && (s.closing ==> n.closing)
      && !n.closer.Open? && !s.closer.Open? && !s.closer.Closed? && Pending(n) == Pending(s)
  {
  }

  lemma OthersKeepCount(s: State, t: Step)
    requires OthersCan(s, t)
    ensures var n := OthersStep(s, t);
      && Pending(n) == Pending(s) && n.accepted == s.accepted && n.spawned == s.spawned && n.wg - s.wg == |n.running| - |s.running|
      && n.closing == s.closing && n.wg <= s.wg && (s.handlerWaiter.Released? ==> n.handlerWaiter.Released?)
  {
    hide Filter;
  }

  lemma AcceptKeepsCount(s: State)
    requires CountExact(s) && s.dispatcher.Locked? && !s.closing
    ensures CountExact(DispatcherStep(s, TestClosing))
  {
    AcceptBalanced(s.wg, s.accepted, s.spawned, s.running, s.dispatcher.hs);
    hide Balanced;
  }

  lemma SpawnKeepsCount(s: State)
    requires CountExact(s) && s.dispatcher.Spawning? && s.dispatcher.hs != []
    ensures CountExact(DispatcherStep(s, SpawnOne))
  {
    SpawnBalanced(s.wg, s.accepted, s.spawned, s.dispatcher.hs, s.running);
    hide Balanced;
  }

  lemma StepKeepsCount(s: State, t: Step)
    requires CountExact(s) && Enabled(s, t)
    ensures CountExact(Apply(s, t))
  {
    hide Flatten, DispatcherStep, CloseStep, OthersStep;
    if t.TestClosing? && !s.closing {
      AcceptKeepsCount(s);
    } else if t.SpawnOne? {
      SpawnKeepsCount(s);
    } else {
      hide Enabled, Apply;
      OtherStepKeepsCount(s, t);
    }
  }

  lemma StepKeepsIds(s: State, t: Step)
    requires IdsFresh(s) && Enabled(s, t)
    ensures IdsFresh(Apply(s, t))
  {
    if t.RemoveEntry? {
      FilterKeepsOrder(s.live, (r: Registration) => r.id != t.id);
    } else if !t.AddEntry? {
      EntriesStay(s, t);
      hide Enabled, Apply;
    }
  }

  lemma OthersLeaveEntries(s: State, t: Step)
    requires OthersCan(s, t) && !t.AddEntry? && !t.RemoveEntry?
    ensures var n := OthersStep(s, t); n.live == s.live && n.nextId == s.nextId
  {
    hide Filter;
  }

  lemma EntriesStay(s: State, t: Step)
    requires Enabled(s, t) && !t.AddEntry? && !t.RemoveEntry?
    ensures Apply(s, t).live == s.live && Apply(s, t).nextId == s.nextId
  {
    hide DispatcherCan, CloseCan, OthersCan, DispatcherStep, CloseStep, OthersStep;
    if OfDispatcher(t) { DispatcherFrame(s, t); } else if OfClose(t) { CloseFrame(s, t); } else { OthersLeaveEntries(s, t); }
  }

  lemma StepKeepsCallers(s: State, t: Step)
    requires CallersAgree(s) && Enabled(s, t)
    ensures CallersAgree(Apply(s, t))
  {
    hide Flatten, ByKeys, IdsOf;
    if t.CallClose? || t.ReturnClose? {
      assert t.caller in Apply(s, t).callers;
    } else {
      OtherStepLeavesCallers(s, t);
      hide Apply;
    }
  }

  lemma OthersLeaveClose(s: State, t: Step)
    requires OthersCan(s, t) && !t.CallClose? && !t.ReturnClose?
    ensures OthersStep(s, t).callers == s.callers && OthersStep(s, t).closer == s.closer
  {
    match t
    case AddEntry(_, _, _) =>
    case RemoveEntry(_) =>
    case Finish(_) =>
    case StartDispatcher =>
    case _ =>
  }

  lemma OtherStepLeavesCallers(s: State, t: Step)
    requires Enabled(s, t) && !t.CallClose? && !t.ReturnClose?
    ensures var n := Apply(s, t); n.callers == s.callers && (n.closer.Open? <==> s.closer.Open?) && (s.closer.Closed? ==> n.closer.Closed?)
  {
    hide DispatcherCan, CloseCan, OthersCan, DispatcherStep, CloseStep, OthersStep;
    if OfDispatcher(t) { DispatcherFrame(s, t); } else if OfClose(t) { CloseFrame(s, t); } else { OthersLeaveClose(s, t); }
  }

  lemma StepKeepsInv(s: State, t: Step)
    requires Inv(s) && Enabled(s, t)
    ensures Inv(Apply(s, t))
  {
    hide LocksAgree, WaitsAgree, CountExact, CallersAgree, IdsFresh, Enabled, Apply;
    StepKeepsLocks(s, t);
    StepKeepsWaits(s, t);
    StepKeepsCount(s, t);
    StepKeepsCallers(s, t);
    StepKeepsIds(s, t);
  }

  lemma {:induction false} RunKeepsInv(s: State, run: seq<Step>)
    requires Inv(s) && IsRun(s, run)
    ensures Inv(Exec(s, run))
    decreases |run|
  {
    hide Inv, Enabled, Apply;
    if run != [] {
      StepKeepsInv(s, run[0]);
      RunKeepsInv(Apply(s, run[0]), run[1..]);
    }
  }

  lemma InitInv()
    ensures Inv(Init())
  {
  }

  // ---------- the handler wait group ----------

  /** In every reachable state the counter is what it should be, and is never negative. */
  lemma WaitGroupIsExact(run: seq<Step>)
    requires IsRun(Init(), run)
    ensures var s := Exec(Init(), run);
            s.wg == |Pending(s)| + |s.running| && s.wg >= 0
    ensures var s := Exec(Init(), run);
            s.dispatchCount == if DispatcherRuns(s.dispatcher) then 1 else 0
  {
    hide IsRun, Exec, Enabled, Apply;
    InitInv();
    RunKeepsInv(Init(), run);
  }

  /**
   * A signal is handled whole or not at all: outside a spawning burst, the handlers started are
   * exactly the lists accepted, each complete and in order.
   */
  lemma AcceptedSignalsAreSpawnedWhole(run: seq<Step>)
    requires IsRun(Init(), run)
    ensures var s := Exec(Init(), run);
            Flatten(s.accepted) == s.spawned + Pending(s)
    ensures var s := Exec(Init(), run);
            s.dispatcher.Selecting? || s.dispatcher.Exited? ==> Flatten(s.accepted) == s.spawned
  {
    hide IsRun, Exec, Enabled, Apply, Flatten;
    InitInv();
    RunKeepsInv(Init(), run);
  }

  lemma StepAfterClosing(s: State, t: Step)
    requires Inv(s) && s.closing && Enabled(s, t)
    ensures var after := Apply(s, t);
            after.closing && after.accepted == s.accepted && after.wg <= s.wg
  {
    hide Inv, Pending, DispatcherCan, CloseCan, OthersCan, DispatcherStep, CloseStep, OthersStep;
    if OfDispatcher(t) { DispatcherFrame(s, t); } else if OfClose(t) { CloseFrame(s, t); } else { OthersKeepCount(s, t); }
  }

  /** Once closing is set, nothing is ever added to the wait group again. */
  lemma {:induction false} NoAddOnceClosing(s: State, run: seq<Step>)
    requires Inv(s) && s.closing && IsRun(s, run)
    ensures var after := Exec(s, run);
            after.closing && after.accepted == s.accepted && after.wg <= s.wg
    decreases |run|
  {
    hide Inv, Enabled, Apply;
    if run != [] {
      StepAfterClosing(s, run[0]);
      StepKeepsInv(s, run[0]);
      NoAddOnceClosing(Apply(s, run[0]), run[1..]);
    }
  }

  /** Add never races with Wait: from the moment the handler wait exists, the counter only falls. */
  lemma NoAddOnceWaiting(run: seq<Step>, more: seq<Step>)
    requires IsRun(Init(), run) && IsRun(Exec(Init(), run), more)
    requires !Exec(Init(), run).handlerWaiter.Unborn?
    ensures var s := Exec(Init(), run);
            Exec(s, more).wg <= s.wg && Exec(s, more).accepted == s.accepted
  {
    hide IsRun, Exec, Enabled, Apply;
    InitInv();
    RunKeepsInv(Init(), run);
    NoAddOnceClosing(Exec(Init(), run), more);
  }

  lemma DispatcherSpawnsInOneStep(s: State, t: Step)
    requires DispatcherCan(s, t) && !t.SpawnOne?
    ensures DispatcherStep(s, t).spawned == s.spawned
  {
    match t
    case Resolve =>
    case TestClosing =>
    case Receive =>
    case _ =>
  }

  lemma CloseKeepsRelease(s: State, t: Step)
    requires WaitsAgree(s) && s.handlerWaiter.Released? && CloseCan(s, t)
    ensures CloseStep(s, t).handlerWaiter.Released?
  {
    match t
    case StartHandlerWait =>
    case _ =>
  }

  lemma StepWhenQuiet(s: State, t: Step)
    requires WaitsAgree(s) && CountExact(s) && s.handlerWaiter.Released? && Enabled(s, t)
    ensures Apply(s, t).handlerWaiter.Released? && Apply(s, t).spawned == s.spawned
  {
    assert Pending(s) == [];
    if OfDispatcher(t) {
      assert !t.SpawnOne?;
      hide WaitsAgree, CountExact, DispatcherStep, CloseStep, OthersStep, DispatcherCan, Pending;
      DispatcherFrame(s, t);
      DispatcherSpawnsInOneStep(s, t);
    } else if OfClose(t) {
      hide CountExact, DispatcherStep, CloseStep, OthersStep, CloseCan, Pending;
      CloseKeepsRelease(s, t);
      CloseFrame(s, t);
    } else {
      hide WaitsAgree, CountExact, DispatcherStep, CloseStep, OthersStep, OthersCan, Pending;
      OthersKeepCount(s, t);
    }
  }

  lemma {:induction false} QuietStaysQuiet(s: State, run: seq<Step>)
    requires Inv(s) && s.handlerWaiter.Released? && IsRun(s, run)
    ensures var after := Exec(s, run);
            after.handlerWaiter.Released? && after.spawned == s.spawned && after.running == [] == Pending(after)
    decreases |run|
  {
    if run == [] {
      assert s.wg == 0;
    } else {
      hide Inv, Enabled, Apply;
      StepWhenQuiet(s, run[0]);
      StepKeepsInv(s, run[0]);
      QuietStaysQuiet(Apply(s, run[0]), run[1..]);
    }
  }

  /**
   * When the handler wait of Close did not time out, no handler runs after Close returned and none
   * ever starts, whatever happens next: signals still buffered, a late first registration, a
   * dispatcher abandoned by the first timed wait.
   */
  lemma NoHandlerAfterCleanClose(run: seq<Step>, more: seq<Step>)
    requires IsRun(Init(), run) && IsRun(Exec(Init(), run), more)
    requires Exec(Init(), run).closer == Closed(false)
    ensures var s, after := Exec(Init(), run), Exec(Exec(Init(), run), more);
            after.spawned == s.spawned && after.running == [] && Pending(after) == []
  {
    hide IsRun, Exec, Enabled, Apply;
    InitInv();
    RunKeepsInv(Init(), run);
    QuietStaysQuiet(Exec(Init(), run), more);
  }

  /** Close is idempotent under concurrency: a caller returns only after the one body has finished. */
  lemma ReturnedMeansClosed(run: seq<Step>, caller: nat)
    requires IsRun(Init(), run)
    requires var s := Exec(Init(), run); caller in s.callers && s.callers[caller].Returned?
    ensures var s := Exec(Init(), run); s.closer.Closed? && s.closing && s.cancelled && !s.attached
  {
    hide IsRun, Exec, Enabled, Apply;
    InitInv();
    RunKeepsInv(Init(), run);
  }

  // ---------- Close always finishes ----------

  function Stage(c: Closer): nat {
    match c
    case Open => 10
    case Cancelling => 9
    case Removing => 8
    case AwaitDispatcher => 7
    case Locking => 6
    case Marking => 5
    case Marked => 4
    case AwaitHandlers => 3
    case Unlocking(_) => 2
    case Settling(_) => 1
    case Closed(_) => 0
  }

  /** How many steps the body of Close still needs, waiting for the dispatcher's lock included. */
  function Rank(s: State): nat {
    3 * Stage(s.closer) +
    (if !s.closer.Locking? then 0
     else if s.dispatcher.Locked? then 2
     else if s.dispatcher.Counted? || s.dispatcher.Refused? then 1
     else 0)
  }

  /** A step of the body of Close, or a step in which the dispatcher lets go of handlerMu. */
  predicate OfCloseOrLockHolder(t: Step) {
    t.Cancel? || t.RemoveSignal? || t.EndDispatchWait? || t.LockForClose? || t.MarkClosing? || t.StartHandlerWait?
    || t.EndHandlerWait? || t.UnlockAfterWait? || t.Settle? || t.TestClosing? || t.UnlockAfterAdd? || t.UnlockAndExit?
  }

  function NextTowardsClosed(s: State): Step {
    match s.closer
    case Removing => RemoveSignal
    case AwaitDispatcher => EndDispatchWait
    case Locking =>
      if s.dispatcher.Locked? then TestClosing
      else if s.dispatcher.Counted? then UnlockAfterAdd
      else if s.dispatcher.Refused? then UnlockAndExit
      else LockForClose
    case Marking => MarkClosing
    case Marked => StartHandlerWait
    case AwaitHandlers => EndHandlerWait(true)
    case Unlocking(_) => UnlockAfterWait
    case Settling(_) => Settle
    case _ => Cancel
  }

  predicate Advances(s: State, t: Step) {
    Enabled(s, t) && OfCloseOrLockHolder(t) && Rank(Apply(s, t)) < Rank(s) && !Apply(s, t).closer.Open?
  }

  lemma LockingAdvances(s: State)
    requires LocksAgree(s) && s.closer.Locking?
    ensures Advances(s, NextTowardsClosed(s))
  {
    hide Flatten, ByKeys, IdsOf;
  }

  lemma EarlyStagesAdvance(s: State)
    requires s.closer.Cancelling? || s.closer.Removing? || s.closer.AwaitDispatcher? || s.closer.Marking?
    ensures Advances(s, NextTowardsClosed(s))
  {
  }

  lemma LateStagesAdvance(s: State)
    requires s.closer.Marked? || s.closer.AwaitHandlers? || s.closer.Unlocking? || s.closer.Settling?
    ensures Advances(s, NextTowardsClosed(s))
  {
  }

  lemma CloseAdvances(s: State)
    requires Inv(s) && !s.closer.Open? && !s.closer.Closed?
    ensures Advances(s, NextTowardsClosed(s))
  {
    hide Advances, LocksAgree, WaitsAgree, CountExact, CallersAgree, IdsFresh, NextTowardsClosed;
    if s.closer.Locking? {
      LockingAdvances(s);
    } else if s.closer.Cancelling? || s.closer.Removing? || s.closer.AwaitDispatcher? || s.closer.Marking? {
      EarlyStagesAdvance(s);
    } else {
      LateStagesAdvance(s);
    }
  }

  /**
   * A Close under way is never stuck: from every reachable state its body, helped at most by the
   * dispatcher leaving its critical section, runs to the end. No handler has to finish for it.
   */
  lemma {:induction false} CloseCanFinish(s: State) returns (run: seq<Step>)
    requires Inv(s) && !s.closer.Open?
    ensures IsRun(s, run) && Exec(s, run).closer.Closed?
    ensures |run| <= Rank(s)
    ensures forall t :: t in run ==> OfCloseOrLockHolder(t)
    decreases Rank(s)
  {
    hide Inv, Enabled, Apply, OfCloseOrLockHolder, NextTowardsClosed;
    if s.closer.Closed? {
      run := [];
    } else {
      var t := NextTowardsClosed(s);
      CloseAdvances(s);
      StepKeepsInv(s, t);
      var rest := CloseCanFinish(Apply(s, t));
      run := [t] + rest;
      assert run[1..] == rest;
    }
  }

  // ---------- unsubscribing ----------

  /** Handlers resolved for a signal but not yet counted. */
  function InFlight(s: State): seq<nat> {
    if s.dispatcher.Resolved? || s.dispatcher.Locked? then s.dispatcher.hs else []
  }

  /** How often handler `id` has been counted or may still be from a signal already resolved. */
  function Committed(s: State, id: nat): nat {
    multiset(Flatten(s.accepted))[id] + multiset(InFlight(s))[id]
  }

  predicate Dead(s: State, id: nat) {
    id <= s.nextId && forall r :: r in s.live ==> r.id != id
  }

  lemma {:induction false} IdsOfAbsent(rs: seq<Registration>, id: nat)
    requires forall r :: r in rs ==> r.id != id
    ensures multiset(IdsOf(rs))[id] == 0
  {
    if rs != [] {
      IdsOfAbsent(rs[1..], id);
    }
  }

  lemma DeadIsNeverResolved(live: seq<Registration>, name: string, id: nat)
    requires forall r :: r in live ==> r.id != id
    ensures multiset(IdsOf(ByKeys(live, name)))[id] == 0
  {
    forall r | r in ByKeys(live, name) ensures r.id != id {
      assert r in live;
    }
    IdsOfAbsent(ByKeys(live, name), id);
  }

  lemma DeadStep(s: State, t: Step, id: nat)
    requires Inv(s) && Enabled(s, t) && Dead(s, id)
    ensures Dead(Apply(s, t), id) && Committed(Apply(s, t), id) <= Committed(s, id)
  {
    hide Flatten, ByKeys, IdsOf, LocksAgree, WaitsAgree, CountExact, CallersAgree;
    if t.Resolve? {
      DeadIsNeverResolved(s.live, s.dispatcher.name, id);
    } else if t.TestClosing? {
      FlattenAppend(s.accepted, s.dispatcher.hs);
    } else {
      DeadOtherStep(s, t, id);
    }
  }

  lemma DeadStays(s: State, t: Step, id: nat)
    requires Enabled(s, t) && Dead(s, id)
    ensures Dead(Apply(s, t), id)
  {
    hide Flatten, ByKeys, IdsOf;
    if !t.AddEntry? && !t.RemoveEntry? {
      EntriesStay(s, t);
      hide Apply, Enabled;
    }
  }

  lemma DispatcherResolvesNothing(s: State, t: Step)
    requires DispatcherCan(s, t) && !t.Resolve? && !t.TestClosing?
    ensures var n := DispatcherStep(s, t); n.accepted == s.accepted && InFlight(n) == InFlight(s)
  {
    match t
    case Resolve =>
    case TestClosing =>
    case SpawnOne =>
    case Receive =>
    case LockForSpawn =>
    case UnlockAfterAdd =>
    case _ =>
  }

  lemma OthersLeaveInFlight(s: State, t: Step)
    requires OthersCan(s, t)
    ensures InFlight(OthersStep(s, t)) == InFlight(s)
  {
    hide Filter;
  }

  /** Only these two steps resolve or count handlers. */
  lemma OthersResolveNothing(s: State, t: Step)
    requires Enabled(s, t) && !t.Resolve? && !t.TestClosing?
    ensures var n := Apply(s, t); n.accepted == s.accepted && InFlight(n) == InFlight(s)
  {
    hide DispatcherCan, CloseCan, OthersCan, DispatcherStep, CloseStep, OthersStep;
    if OfDispatcher(t) {
      DispatcherResolvesNothing(s, t);
    } else if OfClose(t) {
      CloseFrame(s, t);
    } else {
      OthersKeepCount(s, t);
      OthersLeaveInFlight(s, t);
    }
  }

  lemma DeadOtherStep(s: State, t: Step, id: nat)
    requires Enabled(s, t) && Dead(s, id) && !t.Resolve? && !t.TestClosing?
    ensures Dead(Apply(s, t), id) && Committed(Apply(s, t), id) <= Committed(s, id)
  {
    hide Apply, Enabled, Flatten, InFlight, Dead;
    DeadStays(s, t, id);
    OthersResolveNothing(s, t);
  }

  lemma {:induction false} DeadRun(s: State, run: seq<Step>, id: nat)
    requires Inv(s) && IsRun(s, run) && Dead(s, id)
    ensures Dead(Exec(s, run), id) && Committed(Exec(s, run), id) <= Committed(s, id)
    decreases |run|
  {
    hide Inv, Enabled, Apply, Dead, Committed;
    if run != [] {
      DeadStep(s, run[0], id);
      StepKeepsInv(s, run[0]);
      DeadRun(Apply(s, run[0]), run[1..], id);
    }
  }

  /** Names the bus can carry: no registration and no signal with a member that breaks the keys. */
  predicate WellNamed(t: Step) {
    match t
    case AddEntry(_, member, _) => member == "*" || ValidMember(member)
    case Deliver(name) => SignalMember(name) != "*"
    case _ => true
  }

  /** The handlers of the signal the dispatcher is working on. */
  function InHand(d: Dispatcher): seq<nat> {
    if d.Resolved? || d.Locked? || d.Counted? || d.Spawning? then d.hs else []
  }

  predicate SafeName(name: string) {
    SignalMember(name) != "*"
  }

  /** Registrations and signals in the system carry names the bus allows. */
  ghost predicate NamesSafe(s: State) {
    && (forall r :: r in s.live ==> KeySafe(r))
    && (forall name :: name in s.buffer ==> SafeName(name))
    && (s.dispatcher.Received? ==> SafeName(s.dispatcher.name))
  }

  /** No handler is twice in the dispatcher's hand. */
  ghost predicate InHandOnce(s: State) {
    AtMostOnce(InHand(s.dispatcher))
  }

  lemma {:induction false} IdsOfCount(rs: seq<Registration>, r: Registration)
    requires forall x :: x in rs && x.id == r.id ==> x == r
    ensures multiset(IdsOf(rs))[r.id] == multiset(rs)[r]
  {
    if rs != [] {
      assert rs == [rs[0]] + rs[1..];
      IdsOfCount(rs[1..], r);
    }
  }

  lemma SameIdSameRegistration(live: seq<Registration>, x: Registration, y: Registration)
    requires IncreasingIds(live) && x in live && y in live && x.id == y.id
    ensures x == y
  {
  }

  lemma LiveIdResolvedOnce(live: seq<Registration>, name: string, r: Registration)
    requires IncreasingIds(live) && r in live && (forall x :: x in live ==> KeySafe(x)) && SafeName(name)
    ensures multiset(IdsOf(ByKeys(live, name)))[r.id] <= 1
  {
    hide ByKeys, ByMeaning, KeySafe, Matches;
    KeysRefineMeaning(live, name);
    EachMatchOnce(live, name, r);
    forall x | x in ByKeys(live, name) && x.id == r.id ensures x == r {
      ResolvedIsLive(live, name, x);
      SameIdSameRegistration(live, x, r);
    }
    IdsOfCount(ByKeys(live, name), r);
  }

  lemma ResolvedIsLive(live: seq<Registration>, name: string, r: Registration)
    requires r in ByKeys(live, name)
    ensures r in live
  {
  }

  lemma ResolvedIdsOnce(live: seq<Registration>, name: string, id: nat)
    requires IncreasingIds(live) && (forall r :: r in live ==> KeySafe(r)) && SafeName(name)
    ensures multiset(IdsOf(ByKeys(live, name)))[id] <= 1
  {
    hide ByKeys, IncreasingIds, IdsOf, SafeName, KeySafe;
    if r :| r in live && r.id == id {
      LiveIdResolvedOnce(live, name, r);
    } else {
      DeadIsNeverResolved(live, name, id);
    }
  }

  lemma DispatcherKeepsNames(s: State, t: Step)
    requires NamesSafe(s) && DispatcherCan(s, t)
    ensures NamesSafe(DispatcherStep(s, t))
  {
    hide KeySafe, SafeName;
    DispatcherLeavesEntries(s, t);
    match t
    case Receive => assert s.buffer[0] in s.buffer;
    case Resolve =>
    case TestClosing =>
    case SpawnOne =>
    case _ =>
  }

  lemma CloseKeepsNames(s: State, t: Step)
    requires NamesSafe(s) && CloseCan(s, t)
    ensures NamesSafe(CloseStep(s, t))
  {
    hide KeySafe, SafeName;
  }

  lemma OthersKeepNames(s: State, t: Step)
    requires NamesSafe(s) && OthersCan(s, t) && WellNamed(t)
    ensures NamesSafe(OthersStep(s, t))
  {
    hide KeySafe, SafeName, ValidMember;
    match t
    case AddEntry(iface, member, fn) => ValidNamesAreKeySafe(Registration(s.nextId + 1, iface, member, fn));
    case Deliver(name) => NamedSafely(name);
    case RemoveEntry(_) =>
    case _ =>
  }

  lemma StepKeepsNames(s: State, t: Step)
    requires NamesSafe(s) && Enabled(s, t) && WellNamed(t)
    ensures NamesSafe(Apply(s, t))
  {
    hide NamesSafe, WellNamed, DispatcherStep, CloseStep, OthersStep, DispatcherCan, CloseCan, OthersCan;
    if OfDispatcher(t) { DispatcherKeepsNames(s, t); } else if OfClose(t) { CloseKeepsNames(s, t); } else { OthersKeepNames(s, t); }
  }

  lemma NamedSafely(name: string)
    requires WellNamed(Deliver(name))
    ensures SafeName(name)
  {
  }

  ghost predicate AtMostOnce(hs: seq<nat>) {
    forall id: nat :: multiset(hs)[id] <= 1
  }

  lemma TailAtMostOnce(hs: seq<nat>)
    requires hs != [] && AtMostOnce(hs)
    ensures AtMostOnce(hs[1..])
  {
    assert hs == [hs[0]] + hs[1..];
    forall id: nat ensures multiset(hs[1..])[id] <= 1 {
      assert multiset(hs)[id] <= 1;
    }
  }

  lemma ResolvedAtMostOnce(live: seq<Registration>, name: string)
    requires IncreasingIds(live) && (forall r :: r in live ==> KeySafe(r)) && SafeName(name)
    ensures AtMostOnce(IdsOf(ByKeys(live, name)))
  {
    forall id: nat ensures multiset(IdsOf(ByKeys(live, name)))[id] <= 1 {
      ResolvedIdsOnce(live, name, id);
    }
  }

  lemma DispatcherKeepsInHandOnce(s: State, t: Step)
    requires DispatcherCan(s, t) && !t.Resolve? && !t.SpawnOne?
    ensures InHand(DispatcherStep(s, t).dispatcher) == InHand(s.dispatcher) || InHand(DispatcherStep(s, t).dispatcher) == []
  {
    match t
    case TestClosing =>
    case LockForSpawn =>
    case UnlockAfterAdd =>
    case Receive =>
    case _ =>
  }

  lemma OthersLeaveHand(s: State, t: Step)
    requires OthersCan(s, t)
    ensures InHand(OthersStep(s, t).dispatcher) == InHand(s.dispatcher)
  {
    match t
    case StartDispatcher =>
    case AddEntry(_, _, _) =>
    case RemoveEntry(_) =>
    case _ =>
  }

  lemma StepKeepsInHandOnce(s: State, t: Step)
    requires IdsFresh(s) && NamesSafe(s) && InHandOnce(s) && Enabled(s, t)
    ensures InHandOnce(Apply(s, t))
  {
    hide ByKeys, IdsOf, IncreasingIds, KeySafe, AtMostOnce;
    if t.Resolve? {
      ResolvedAtMostOnce(s.live, s.dispatcher.name);
    } else if t.SpawnOne? {
      TailAtMostOnce(s.dispatcher.hs);
    } else {
      hide DispatcherStep, CloseStep, OthersStep, DispatcherCan, CloseCan, OthersCan, InHand, IdsFresh, NamesSafe;
      EmptyAtMostOnce();
      if OfDispatcher(t) { DispatcherKeepsInHandOnce(s, t); } else if OfClose(t) { CloseFrame(s, t); } else { OthersLeaveHand(s, t); }
    }
  }

  lemma EmptyAtMostOnce()
    ensures AtMostOnce([])
  {
  }

  lemma {:induction false} RunKeepsNames(s: State, run: seq<Step>)
    requires IdsFresh(s) && NamesSafe(s) && InHandOnce(s) && IsRun(s, run) && forall t :: t in run ==> WellNamed(t)
    ensures NamesSafe(Exec(s, run)) && InHandOnce(Exec(s, run))
    decreases |run|
  {
    hide IdsFresh, NamesSafe, InHandOnce, Enabled, Apply, WellNamed;
    if run != [] {
      StepKeepsNames(s, run[0]);
      StepKeepsInHandOnce(s, run[0]);
      StepKeepsIds(s, run[0]);
      RunKeepsNames(Apply(s, run[0]), run[1..]);
    }
  }

  /**
   * After an unsubscribe the callback starts at most once more, and only if its signal was already
   * being dispatched; every later dispatch leaves it out.
   */
  lemma UnsubscribedRunsAtMostOnceMore(run: seq<Step>, id: nat, more: seq<Step>)
    requires IsRun(Init(), run) && (forall t :: t in run ==> WellNamed(t))
    requires id <= Exec(Init(), run).nextId
    requires IsRun(Apply(Exec(Init(), run), RemoveEntry(id)), more)
    ensures var s := Exec(Init(), run);
            var after := Exec(Apply(s, RemoveEntry(id)), more);
            && multiset(after.spawned)[id] <= multiset(s.spawned)[id] + 1
            && (id !in InHand(s.dispatcher) ==> multiset(after.spawned)[id] <= multiset(s.spawned)[id])
  {
    hide IsRun, Exec, Flatten;
    var s := Exec(Init(), run);
    InitInv();
    RunKeepsInv(Init(), run);
    RunKeepsNames(Init(), run);
    var removed := Apply(s, RemoveEntry(id));
    StepKeepsInv(s, RemoveEntry(id));
    RunKeepsInv(removed, more);
    assert Dead(removed, id);
    DeadRun(removed, more, id);
    var after := Exec(removed, more);
    SpawnedWithinCommitted(s, id);
    SpawnedWithinCommitted(after, id);
  }

  /** What is committed is what was started plus what is in hand. */
  lemma SpawnedWithinCommitted(s: State, id: nat)
    requires CountExact(s)
    ensures Committed(s, id) == multiset(s.spawned)[id] + multiset(InHand(s.dispatcher))[id]
  {
    hide Flatten;
  }
}

/**
 * Signal-level monitors: one exported object per station (internal/connect/wiring.go), the core agent's
 * flag (internal/core/signalagent.go) and the daemon's registry of one agent per station
 * (tools/test-mocks/iwdmock/internal/mock/signalagent.go). Steps of different monitors interleave.
 */
module SignalAgents {
  import opened Common

  type AgentId = nat

  const ME: nat := 0
  const PREFIX: string := "/spiderw/signalagent"

  /** signalLevelAgentObjectPath. */
  function AgentPath(station: string): (path: string)
    ensures forall other: string :: PREFIX + other == path ==> other == station
  {
    assert forall other: string :: (PREFIX + other)[|PREFIX|..] == other;
    PREFIX + station
  }

  datatype Phase =
    | Exported      // the object is exported, the station not asked yet
    | RollingBack   // the station refused or could not be reached
    | Accepted      // the station accepted, Bind not run yet
    | Bound         // the registered flag is up
    | TakenDown     // an Unregister took the flag, the station not told yet
    | Unexporting   // the station was told
    | Over          // rolled back or torn down

  datatype Agent = Agent(station: string, phase: Phase)

  datatype Entry = Entry(sender: nat, path: string, origin: AgentId)

  datatype State = State(
    agents: seq<Agent>,
    exported: map<string, AgentId>,   // the connection's objects, by path
    daemon: map<string, Entry>)       // byStation

  function Init(): State {
    State([], map[], map[])
  }

  /** `exclusive`: one monitor per station, the next begun when the last is over. */
  datatype Regime = Regime(exclusive: bool, unregisterWorks: bool)

  datatype Step =
    | Monitor(station: string)
    | AskStation(a: AgentId, ok: bool)
    | RollBack(a: AgentId, ok: bool)
    | Bind(a: AgentId)
    | TakeFlag(a: AgentId)                 // an Unregister that finds the flag up; others change nothing
    | TellStation(a: AgentId, ok: bool)
    | Unexport(a: AgentId, ok: bool)
    | OtherRegister(station: string, e: Entry)
    | OtherUnregister(station: string, sender: nat, path: string)

  predicate InPhase(s: State, a: AgentId, phase: Phase) {
    a < |s.agents| && s.agents[a].phase == phase
  }

  predicate Enabled(r: Regime, s: State, step: Step) {
    match step
    case Monitor(station) => r.exclusive ==> forall a | 0 <= a < |s.agents| :: s.agents[a].station == station ==> s.agents[a].phase == Over
    case AskStation(a, _) => InPhase(s, a, Exported)
    case RollBack(a, _) => InPhase(s, a, RollingBack)
    case Bind(a) => InPhase(s, a, Accepted)
    case TakeFlag(a) => InPhase(s, a, Bound)
    case TellStation(a, ok) => InPhase(s, a, TakenDown) && (r.unregisterWorks ==> ok)
    case Unexport(a, _) => InPhase(s, a, Unexporting)
    case OtherRegister(_, e) => e.sender != ME
    case OtherUnregister(_, sender, _) => sender != ME
  }

  function Register(d: map<string, Entry>, station: string, e: Entry): (map<string, Entry>, bool) {
    if station in d then (d, false) else (d[station := e], true)
  }

  function Unregister(d: map<string, Entry>, station: string, sender: nat, path: string): map<string, Entry> {
    if station !in d || d[station].path != path || d[station].sender != sender then d else d - {station}
  }

  function Move(s: State, a: AgentId, phase: Phase): State
    requires a < |s.agents|
  {
    s.(agents := s.agents[a := s.agents[a].(phase := phase)])
  }

  function Apply(r: Regime, s: State, step: Step): State
    requires Enabled(r, s, step)
  {
    match step
    case Monitor(station) =>
      s.(agents := s.agents + [Agent(station, Exported)], exported := s.exported[AgentPath(station) := |s.agents|])
    case AskStation(a, ok) =>
      var station := s.agents[a].station;
      var (d, accepted) := Register(s.daemon, station, Entry(ME, AgentPath(station), a));
      if ok && accepted then Move(s, a, Accepted).(daemon := d) else Move(s, a, RollingBack)
    case RollBack(a, ok) => Move(s, a, Over).(exported := if ok then s.exported - {AgentPath(s.agents[a].station)} else s.exported)
    case Bind(a) => Move(s, a, Bound)
    case TakeFlag(a) => Move(s, a, TakenDown)
    case TellStation(a, ok) =>
      var station := s.agents[a].station;
      Move(s, a, Unexporting).(daemon := if ok then Unregister(s.daemon, station, ME, AgentPath(station)) else s.daemon)
    case Unexport(a, ok) => Move(s, a, Over).(exported := if ok then s.exported - {AgentPath(s.agents[a].station)} else s.exported)
    case OtherRegister(station, e) => s.(daemon := Register(s.daemon, station, e).0)
    case OtherUnregister(station, sender, path) => s.(daemon := Unregister(s.daemon, station, sender, path))
  }

  predicate IsRun(r: Regime, s: State, run: seq<Step>)
    decreases |run|
  {
    run == [] || (Enabled(r, s, run[0]) && IsRun(r, Apply(r, s, run[0]), run[1..]))
  }

  function Exec(r: Regime, s: State, run: seq<Step>): State
    requires IsRun(r, s, run)
    decreases |run|
  {
    if run == [] then s else Exec(r, Apply(r, s, run[0]), run[1..])
  }

  // ---------- the tie ----------

  predicate Mine(s: State, station: string) {
    station in s.daemon && s.daemon[station].sender == ME
  }

  function ExportedAt(s: State, path: string): Option<AgentId> {
    if path in s.exported then Some(s.exported[path]) else None
  }

  /** What the daemon would call for a station is exported, at the path it would call. */
  predicate TiedAt(s: State, station: string) {
    Mine(s, station) ==> s.daemon[station].path == AgentPath(station) && ExportedAt(s, AgentPath(station)) == Some(s.daemon[station].origin)
  }

  ghost predicate Tied(s: State) {
    forall station: string :: TiedAt(s, station)
  }

  /** What the phase of an agent says about its station and its object. */
  predicate AgentOK(s: State, a: AgentId)
    requires a < |s.agents|
  {
    var station := s.agents[a].station;
    match s.agents[a].phase
    case Exported => ExportedAt(s, AgentPath(station)) == Some(a) && !Mine(s, station)
    case RollingBack => ExportedAt(s, AgentPath(station)) == Some(a) && !Mine(s, station)
    case Accepted => Known(s, a)
    case Bound => Known(s, a)
    case TakenDown => Known(s, a)
    case Unexporting => !Mine(s, station)
    case Over => true
  }

  predicate Known(s: State, a: AgentId)
    requires a < |s.agents|
  {
    var station := s.agents[a].station;
    ExportedAt(s, AgentPath(station)) == Some(a) && Mine(s, station) && s.daemon[station] == Entry(ME, AgentPath(station), a)
  }

  /** A registration of this client is that of an agent of the station in the middle of its life. */
  predicate EntryOK(s: State, station: string) {
    Mine(s, station) ==>
      var a := s.daemon[station].origin;
      a < |s.agents| && s.agents[a].station == station && (s.agents[a].phase == Accepted || s.agents[a].phase == Bound || s.agents[a].phase == TakenDown)
  }

  ghost predicate OnePerStation(s: State) {
    forall a, b | 0 <= a < |s.agents| && 0 <= b < |s.agents| ::
      s.agents[a].station == s.agents[b].station && s.agents[a].phase != Over && s.agents[b].phase != Over ==> a == b
  }

  ghost predicate Inv(s: State) {
    && OnePerStation(s)
    && (forall a :: 0 <= a < |s.agents| ==> AgentOK(s, a))
    && (forall station: string :: EntryOK(s, station))
  }

  lemma StepKeepsOne(r: Regime, s: State, step: Step)
    requires OnePerStation(s) && r.exclusive && Enabled(r, s, step)
    ensures OnePerStation(Apply(r, s, step))
  {
    hide Register, Unregister, AgentPath;
  }

  lemma StepKeepsAgent(r: Regime, s: State, step: Step, b: AgentId)
    requires OnePerStation(s) && (forall a :: 0 <= a < |s.agents| ==> AgentOK(s, a)) && (forall station: string :: EntryOK(s, station))
    requires r.exclusive && r.unregisterWorks && Enabled(r, s, step) && b < |Apply(r, s, step).agents|
    ensures AgentOK(Apply(r, s, step), b)
  {
    if b < |s.agents| { assert AgentOK(s, b); }
    match step
    case Monitor(station) => assert EntryOK(s, station);
    case AskStation(a, _) => assert AgentOK(s, a);
    case RollBack(a, _) => assert AgentOK(s, a);
    case TellStation(a, _) => assert AgentOK(s, a);
    case Unexport(a, _) => assert AgentOK(s, a);
    case _ =>
  }

  lemma StepKeepsEntry(r: Regime, s: State, step: Step, station: string)
    requires Inv(s) && r.exclusive && r.unregisterWorks && Enabled(r, s, step)
    ensures EntryOK(Apply(r, s, step), station)
  {
    assert EntryOK(s, station);
    hide OnePerStation;
    match step
    case TellStation(a, _) => assert AgentOK(s, a);
    case _ =>
  }

  lemma StepKeepsInv(r: Regime, s: State, step: Step)
    requires Inv(s) && r.exclusive && r.unregisterWorks && Enabled(r, s, step)
    ensures Inv(Apply(r, s, step))
  {
    hide Apply, Enabled, AgentOK, EntryOK, OnePerStation;
    StepKeepsOne(r, s, step);
    var n := Apply(r, s, step);
    forall b | 0 <= b < |n.agents| ensures AgentOK(n, b) { StepKeepsAgent(r, s, step, b); }
    forall station: string ensures EntryOK(n, station) { StepKeepsEntry(r, s, step, station); }
  }

  lemma {:induction false} RunKeepsInv(r: Regime, s: State, run: seq<Step>)
    requires Inv(s) && r.exclusive && r.unregisterWorks && IsRun(r, s, run)
    ensures Inv(Exec(r, s, run))
    decreases |run|
  {
    hide Inv, Enabled, Apply;
    if run != [] {
      StepKeepsInv(r, s, run[0]);
      RunKeepsInv(r, Apply(r, s, run[0]), run[1..]);
    }
  }

  lemma InvIsTied(s: State)
    requires Inv(s)
    ensures Tied(s)
  {
    forall station: string ensures TiedAt(s, station) {
      assert EntryOK(s, station);
      if Mine(s, station) { assert AgentOK(s, s.daemon[station].origin); }
    }
  }

  // ---------- while a monitor works, and when it is over ----------

  predicate UnexportsWork(run: seq<Step>) {
    forall k | 0 <= k < |run| :: (run[k].RollBack? || run[k].Unexport?) ==> run[k].ok
  }

  /** No finished agent is still exported. */
  ghost predicate Cleared(s: State) {
    forall a | 0 <= a < |s.agents| && s.agents[a].phase == Over :: ExportedAt(s, AgentPath(s.agents[a].station)) != Some(a)
  }

  lemma StepClears(r: Regime, s: State, step: Step)
    requires Cleared(s) && (forall p: string :: p in s.exported ==> s.exported[p] < |s.agents|)
    requires Enabled(r, s, step) && (step.RollBack? || step.Unexport? ==> step.ok)
    ensures var n := Apply(r, s, step); Cleared(n) && forall p: string :: p in n.exported ==> n.exported[p] < |n.agents|
  {
    hide Register, Unregister, AgentPath;
    match step
    case Monitor(_) =>
    case AskStation(_, _) =>
    case RollBack(_, _) =>
    case TellStation(_, _) =>
    case Unexport(_, _) =>
    case _ =>
  }

  lemma {:induction false} RunClears(r: Regime, s: State, run: seq<Step>)
    requires Cleared(s) && (forall p: string :: p in s.exported ==> s.exported[p] < |s.agents|) && IsRun(r, s, run) && UnexportsWork(run)
    ensures Cleared(Exec(r, s, run))
    decreases |run|
  {
    hide Cleared, Enabled, Apply;
    if run != [] {
      StepClears(r, s, run[0]);
      assert UnexportsWork(run[1..]) by { assert forall k | 0 <= k < |run| - 1 :: run[1..][k] == run[k + 1]; }
      RunClears(r, Apply(r, s, run[0]), run[1..]);
    }
  }

  /**
   * With one monitor per station and working unregistration a monitor that is bound is exported and
   * registered, and of one that is over nothing stays registered, nor exported where unexporting works.
   */
  lemma NothingStaysBehind(r: Regime, run: seq<Step>, a: AgentId)
    requires r.exclusive && r.unregisterWorks && IsRun(r, Init(), run) && a < |Exec(r, Init(), run).agents|
    ensures var s := Exec(r, Init(), run); var station := s.agents[a].station;
      && (s.agents[a].phase == Bound ==>
            ExportedAt(s, AgentPath(station)) == Some(a) && station in s.daemon && s.daemon[station] == Entry(ME, AgentPath(station), a))
      && (s.agents[a].phase == Over ==> forall other: string :: Mine(s, other) ==> s.daemon[other].origin != a)
      && (s.agents[a].phase == Over && UnexportsWork(run) ==> ExportedAt(s, AgentPath(station)) != Some(a))
  {
    var s := Exec(r, Init(), run);
    RunKeepsInv(r, Init(), run);
    assert AgentOK(s, a);
    hide Exec, IsRun, OnePerStation, AgentPath;
    forall other: string | Mine(s, other) ensures s.agents[a].phase == Over ==> s.daemon[other].origin != a {
      assert EntryOK(s, other);
    }
    if UnexportsWork(run) { RunClears(r, Init(), run); }
  }

  // ---------- and only then ----------

  lemma Then(r: Regime, s: State, step: Step, rest: seq<Step>)
    requires Enabled(r, s, step) && IsRun(r, Apply(r, s, step), rest)
    ensures IsRun(r, s, [step] + rest)
    ensures Exec(r, s, [step] + rest) == Exec(r, Apply(r, s, step), rest)
  {
    assert ([step] + rest)[1..] == rest;
  }

  /** One monitor, registered and bound. */
  function Monitored(station: string): State {
    State([Agent(station, Bound)], map[AgentPath(station) := 0], map[station := Entry(ME, AgentPath(station), 0)])
  }

  lemma FromMonitored(r: Regime, station: string, rest: seq<Step>)
    requires IsRun(r, Monitored(station), rest)
    ensures exists run :: IsRun(r, Init(), run) && Exec(r, Init(), run) == Exec(r, Monitored(station), rest)
  {
    hide AgentPath;
    var s1 := Apply(r, Init(), Monitor(station));
    var s2 := Apply(r, s1, AskStation(0, true));
    assert Apply(r, s2, Bind(0)) == Monitored(station);
    Then(r, s2, Bind(0), rest);
    Then(r, s1, AskStation(0, true), [Bind(0)] + rest);
    Then(r, Init(), Monitor(station), [AskStation(0, true)] + ([Bind(0)] + rest));
  }

  /** A second monitor of the station is refused, and its rollback unexports the path of the first. */
  lemma TwoMonitorsBreakTheTie(r: Regime, station: string)
    requires !r.exclusive
    ensures exists run :: IsRun(r, Init(), run) && !Tied(Exec(r, Init(), run))
  {
    hide AgentPath;
    var s3 := Monitored(station);
    var s4 := Apply(r, s3, Monitor(station));
    var s5 := Apply(r, s4, AskStation(1, true));
    var s6 := Apply(r, s5, RollBack(1, true));
    assert !TiedAt(s6, station);
    Then(r, s5, RollBack(1, true), []);
    Then(r, s4, AskStation(1, true), [RollBack(1, true)]);
    Then(r, s3, Monitor(station), [AskStation(1, true), RollBack(1, true)]);
    FromMonitored(r, station, [Monitor(station), AskStation(1, true), RollBack(1, true)]);
  }

  /** The station is not told, the object is unexported all the same. */
  lemma FailedUnregisterBreaksTheTie(r: Regime, station: string)
    requires !r.unregisterWorks
    ensures exists run :: IsRun(r, Init(), run) && !Tied(Exec(r, Init(), run))
  {
    hide AgentPath;
    var s3 := Monitored(station);
    var s4 := Apply(r, s3, TakeFlag(0));
    var s5 := Apply(r, s4, TellStation(0, false));
    var s6 := Apply(r, s5, Unexport(0, true));
    assert !TiedAt(s6, station);
    Then(r, s5, Unexport(0, true), []);
    Then(r, s4, TellStation(0, false), [Unexport(0, true)]);
    Then(r, s3, TakeFlag(0), [TellStation(0, false), Unexport(0, true)]);
    FromMonitored(r, station, [TakeFlag(0), TellStation(0, false), Unexport(0, true)]);
  }

  /**
   * In every run what the daemon has registered for this client is exported at its path, if and only
   * if a station has one monitor at a time and no UnregisterSignalLevelAgent call fails.
   */
  lemma TiedExactlyWhen(r: Regime)
    ensures (forall run | IsRun(r, Init(), run) :: Tied(Exec(r, Init(), run))) <==> r.exclusive && r.unregisterWorks
  {
    if r.exclusive && r.unregisterWorks {
      forall run | IsRun(r, Init(), run) ensures Tied(Exec(r, Init(), run)) {
        RunKeepsInv(r, Init(), run);
        InvIsTied(Exec(r, Init(), run));
      }
    } else if r.exclusive {
      FailedUnregisterBreaksTheTie(r, "/");
    } else {
      TwoMonitorsBreakTheTie(r, "/");
    }
  }

  /** The station a step is about. */
  function StationOf(r: Regime, s: State, step: Step): string
    requires Enabled(r, s, step)
  {
    match step
    case Monitor(station) => station
    case AskStation(a, _) => s.agents[a].station
    case RollBack(a, _) => s.agents[a].station
    case Bind(a) => s.agents[a].station
    case TakeFlag(a) => s.agents[a].station
    case TellStation(a, _) => s.agents[a].station
    case Unexport(a, _) => s.agents[a].station
    case OtherRegister(station, _) => station
    case OtherUnregister(station, _, _) => station
  }

  /** Stations share nothing: any step about one, however its bus call ends, leaves every other as it was. */
  lemma StationsApart(r: Regime, s: State, step: Step, other: string)
    requires Enabled(r, s, step) && StationOf(r, s, step) != other
    ensures var n := Apply(r, s, step);
      && ExportedAt(n, AgentPath(other)) == ExportedAt(s, AgentPath(other))
      && (other in n.daemon <==> other in s.daemon) && (other in s.daemon ==> n.daemon[other] == s.daemon[other])
      && (forall b :: 0 <= b < |n.agents| && n.agents[b].station == other ==> b < |s.agents| && n.agents[b] == s.agents[b])
      && (forall b :: 0 <= b < |s.agents| && s.agents[b].station == other ==> b < |n.agents| && n.agents[b] == s.agents[b])
  {
    assert AgentPath(other) != AgentPath(StationOf(r, s, step));
    hide AgentPath;
  }

  // ---------- the daemon's registry ----------

  /** One agent for each station: taken only when there is none, dropped only by its sender at its path, stations apart. */
  lemma OneAgentPerStation(d: map<string, Entry>, station: string, e: Entry, sender: nat, path: string, other: string)
    requires other != station
    ensures Register(d, station, e).1 <==> station !in d
    ensures station in Register(d, station, e).0 && Register(d, station, e).0[station] == if station in d then d[station] else e
    ensures var n := Unregister(d, station, sender, path);
      station in n <==> station in d && !(d[station].sender == sender && d[station].path == path)
    ensures station in Unregister(d, station, sender, path) ==> Unregister(d, station, sender, path)[station] == d[station]
    ensures other in Register(d, station, e).0 <==> other in d
    ensures other in Unregister(d, station, sender, path) <==> other in d
    ensures other in d ==> Register(d, station, e).0[other] == d[other] && Unregister(d, station, sender, path)[other] == d[other]
  {
  }

  /** A station asked to monitor accepts exactly when the call goes through and no client monitors it yet. */
  lemma AcceptedExactlyWhenFree(r: Regime, s: State, a: AgentId, ok: bool)
    requires Enabled(r, s, AskStation(a, ok))
    ensures var n, station := Apply(r, s, AskStation(a, ok)), s.agents[a].station;
      && a < |n.agents|
      && (n.agents[a].phase == Accepted <==> ok && station !in s.daemon) && (n.agents[a].phase == RollingBack <==> !ok || station in s.daemon)
      && (ok && station !in s.daemon ==> station in n.daemon && n.daemon[station] == Entry(ME, AgentPath(station), a))
      && (!ok || station in s.daemon ==> n.daemon == s.daemon)
  {
    hide AgentPath;
  }

  /** Another client's monitor keeps this one's out until that client takes it away again. */
  lemma ForeignMonitorKeepsOut(r: Regime, s: State, a: AgentId, ok: bool, e: Entry)
    requires Enabled(r, s, AskStation(a, ok)) && s.agents[a].station !in s.daemon && e.sender != ME
    ensures var station := s.agents[a].station; var held := Apply(r, s, OtherRegister(station, e));
      && Enabled(r, held, AskStation(a, ok)) && a < |Apply(r, held, AskStation(a, ok)).agents|
      && Apply(r, held, AskStation(a, ok)).agents[a].phase == RollingBack
      && Apply(r, held, OtherUnregister(station, e.sender, e.path)) == s
  {
    hide AgentPath;
    var station := s.agents[a].station;
    assert s.daemon[station := e] - {station} == s.daemon;
  }
}

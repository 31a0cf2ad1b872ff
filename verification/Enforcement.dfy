/** Enforcement flows as interleaved steps.

    Arming schedules a flow; cancelling bumps the generation and cancels the scheduled task. A flow
    runs from one `await` to the next, and between two of its steps anything may happen: the
    status may change, the manager may be armed or cancelled, other flows may run. An `await` that
    the code skips when a timeout is zero is kept here as a step, which only adds interleavings. */
module Enforcement {
  import opened Basics
  import opened Records

  datatype Settings = Settings(
    graceSeconds: int, closeTimeoutSeconds: int, launchGraceSeconds: int,
    safeProcessFallback: bool, forceKillEnabled: bool)

  datatype Plan = Plan(
    level: int, graceSeconds: int, closeTimeoutSeconds: int,
    requestClose: bool, processFallback: bool, allowForceKill: bool)

  function BuildPlan(s: Settings, level: int): Plan {
    Plan(level, s.graceSeconds, s.closeTimeoutSeconds,
         level >= 2,
         level >= 2 && s.safeProcessFallback,
         level >= 2 && s.forceKillEnabled)
  }

  /** What a flow does that others can see: the close request, the two signal attempts with their
      records, and the report that the game is still running. */
  datatype Act = CloseRequested | TermStarted | TermRecorded | KillStarted | KillRecorded | StillRunning

  /** Where a flow is suspended. */
  datatype Stage =
    | Waiting | Requesting | Settling | Terminating | RecordingTerm | Pausing | Killing | RecordingKill | Reporting
    | Finished

  datatype Flow = Flow(game: Game, plan: Plan, delay: int, stage: Stage, cancelled: bool)

  /** The part of the engine's status that a flow checks. */
  datatype Status = Status(game: Option<Game>, level: int)

  /** An act, the flow that did it, and the generation and status at that moment. */
  datatype LogEntry = LogEntry(flow: nat, act: Act, generation: nat, status: Status)

  datatype Manager = Manager(generation: nat, task: Option<nat>, flows: map<nat, Flow>, log: seq<LogEntry>)

  const IDLE_MANAGER := Manager(0, None, map[], [])

  /** The status is still about the flow's game, at the flow's level or above. */
  predicate StatusMatches(s: Status, game: Game, level: int) {
    && s.game.Some?
    && (if game.appId.Some? && game.appId.value != "" then s.game.value.appId == game.appId
        else s.game.value.folded == game.folded)
    && level <= s.level
  }

  predicate StillApplicable(m: Manager, g: nat, s: Status)
    requires g in m.flows
  {
    g == m.generation && StatusMatches(s, m.flows[g].game, m.flows[g].plan.level)
  }

  // ----- transitions

  function Cancel(m: Manager): Manager {
    m.(generation := m.generation + 1,
       flows := if m.task.Some? && m.task.value in m.flows
                then m.flows[m.task.value := m.flows[m.task.value].(cancelled := true)] else m.flows,
       task := None)
  }

  function Arm(m: Manager, game: Game, s: Settings, level: int, launchBlock: bool): Manager {
    var c := Cancel(m);
    if level < 2 then c
    else
      var g := c.generation + 1;
      var plan := BuildPlan(s, level);
      var delay := if launchBlock then s.launchGraceSeconds else plan.graceSeconds;
      c.(generation := g, flows := c.flows[g := Flow(game, plan, delay, Waiting, false)], task := Some(g))
  }

  function MoveTo(m: Manager, g: nat, stage: Stage): Manager
    requires g in m.flows
  {
    m.(flows := m.flows[g := m.flows[g].(stage := stage)])
  }

  function Finish(m: Manager, g: nat): Manager
    requires g in m.flows
  {
    MoveTo(m, g, Finished).(task := if g == m.generation then None else m.task)
  }

  function Perform(m: Manager, g: nat, act: Act, s: Status, stage: Stage): Manager
    requires g in m.flows
  {
    MoveTo(m, g, stage).(log := m.log + [LogEntry(g, act, m.generation, s)])
  }

  /** One flow runs until it waits again. */
  function Resume(m: Manager, g: nat, s: Status): Manager {
    if g !in m.flows || m.flows[g].stage == Finished then m
    else
      var f := m.flows[g];
      if f.cancelled then Finish(m, g)
      else match f.stage
        case Waiting =>
          if !StillApplicable(m, g, s) then Finish(m, g)
          else if f.plan.requestClose then Perform(m, g, CloseRequested, s, Requesting)
          else MoveTo(m, g, Settling)
        case Requesting => MoveTo(m, g, Settling)
        case Settling =>
          if !StillApplicable(m, g, s) then Finish(m, g)
          else if f.plan.processFallback then Perform(m, g, TermStarted, s, Terminating)
          else MoveTo(m, g, Pausing)
        case Terminating => Perform(m, g, TermRecorded, s, RecordingTerm)
        case RecordingTerm => MoveTo(m, g, Pausing)
        case Pausing =>
          if !StillApplicable(m, g, s) then Finish(m, g)
          else if f.plan.allowForceKill && f.plan.processFallback then Perform(m, g, KillStarted, s, Killing)
          else Perform(m, g, StillRunning, s, Reporting)
        case Killing => Perform(m, g, KillRecorded, s, RecordingKill)
        case RecordingKill => Finish(m, g)
        case Reporting => Finish(m, g)
  }

  /** What may happen next: a command to the manager, or a step of some flow under some status. */
  datatype Happening =
    | Armed(game: Game, settings: Settings, level: int, launchBlock: bool)
    | Cancelled
    | Resumed(flow: nat, status: Status)

  function Next(m: Manager, h: Happening): Manager {
    match h
    case Armed(game, s, level, launchBlock) => Arm(m, game, s, level, launchBlock)
    case Cancelled => Cancel(m)
    case Resumed(g, s) => Resume(m, g, s)
  }

  function After(hs: seq<Happening>): Manager {
    if hs == [] then IDLE_MANAGER else Next(After(hs[..|hs| - 1]), hs[|hs| - 1])
  }

  // ----- what a flow does, in order

  /** The acts of one flow, oldest first. */
  function ActsOf(log: seq<LogEntry>, g: nat): seq<Act> {
    if log == [] then []
    else ActsOf(log[..|log| - 1], g) + if log[|log| - 1].flow == g then [log[|log| - 1].act] else []
  }

  /** The acts of a flow that nothing interrupts: the close request first, then SIGTERM if the
      process fallback is on, then SIGKILL if force kill is on as well, or else the report. */
  function Script(p: Plan): seq<Act> {
    (if p.requestClose then [CloseRequested] else [])
    + (if p.processFallback then [TermStarted, TermRecorded] else [])
    + if p.allowForceKill && p.processFallback then [KillStarted, KillRecorded] else [StillRunning]
  }

  /** The acts that lie behind a flow waiting at a stage. */
  function Behind(p: Plan, stage: Stage): seq<Act> {
    var close := if p.requestClose then [CloseRequested] else [];
    var term := close + if p.processFallback then [TermStarted, TermRecorded] else [];
    match stage
    case Waiting => []
    case Requesting => close
    case Settling => close
    case Terminating => close + [TermStarted]
    case RecordingTerm => term
    case Pausing => term
    case Killing => term + [KillStarted]
    case _ => Script(p)
  }

  predicate EntersStage(a: Act) { a == CloseRequested || a == TermStarted || a == KillStarted || a == StillRunning }

  /** A stage is only waited at by flows whose plan leads there. */
  predicate StageFits(p: Plan, stage: Stage) {
    match stage
    case Requesting => p.requestClose
    case Terminating => p.processFallback
    case RecordingTerm => p.processFallback
    case Killing => p.allowForceKill && p.processFallback
    case RecordingKill => p.allowForceKill && p.processFallback
    case Reporting => !(p.allowForceKill && p.processFallback)
    case _ => true
  }

  ghost predicate FlowOk(m: Manager, g: nat)
    requires g in m.flows
  {
    var f := m.flows[g];
    && g <= m.generation
    && 2 <= f.plan.level
    && (!f.cancelled && f.stage != Finished ==> m.task == Some(g))
    && StageFits(f.plan, f.stage)
    && (if f.stage == Finished then ActsOf(m.log, g) <= Script(f.plan)
        else ActsOf(m.log, g) == Behind(f.plan, f.stage))
  }

  /** The flow of an entry was the current generation; a stage was entered while the status was
      still about its game and at least at its level. */
  ghost predicate EntryOk(m: Manager, e: LogEntry) {
    && e.flow in m.flows && e.flow == e.generation
    && var f := m.flows[e.flow];
    && 2 <= f.plan.level
    && (EntersStage(e.act) ==> StatusMatches(e.status, f.game, f.plan.level))
  }

  ghost predicate Inv(m: Manager) {
    && (m.task.Some? ==> m.task.value == m.generation && m.task.value in m.flows
                         && !m.flows[m.task.value].cancelled && m.flows[m.task.value].stage != Finished)
    && (forall g :: g in m.flows ==> FlowOk(m, g))
    && (forall i :: 0 <= i < |m.log| ==> EntryOk(m, m.log[i]))
  }

  lemma ActsAppend(log: seq<LogEntry>, e: LogEntry, g: nat)
    ensures ActsOf(log + [e], g) == ActsOf(log, g) + if e.flow == g then [e.act] else []
  { }

  /** The acts behind any stage are the beginning of the script. */
  lemma BehindBegins(p: Plan, stage: Stage)
    requires StageFits(p, stage)
    ensures Behind(p, stage) <= Script(p)
  { }

  lemma CancelKeepsInv(m: Manager)
    requires Inv(m)
    ensures Inv(Cancel(m))
    ensures Cancel(m).task == None && m.generation < Cancel(m).generation
  { }

  lemma {:induction false} NoActsYet(m: Manager, log: seq<LogEntry>, g: nat)
    requires forall i :: 0 <= i < |log| ==> EntryOk(m, log[i])
    requires g !in m.flows
    ensures ActsOf(log, g) == []
  {
    if log != [] {
      var rest := log[..|log| - 1];
      assert forall i :: 0 <= i < |rest| ==> rest[i] == log[i];
      assert EntryOk(m, log[|log| - 1]);
      NoActsYet(m, rest, g);
    }
  }

  lemma ArmKeepsInv(m: Manager, game: Game, s: Settings, level: int, launchBlock: bool)
    requires Inv(m)
    ensures Inv(Arm(m, game, s, level, launchBlock))
  {
    CancelKeepsInv(m);
    if 2 <= level {
      var c, a := Cancel(m), Arm(m, game, s, level, launchBlock);
      var n := c.generation + 1;
      forall g | g in c.flows ensures g != n {
        assert FlowOk(c, g);
      }
      NoActsYet(c, c.log, n);
      forall g | g in a.flows ensures FlowOk(a, g) {
        if g != n { assert FlowOk(c, g); }
      }
      forall i | 0 <= i < |a.log| ensures EntryOk(a, a.log[i]) {
        assert EntryOk(c, c.log[i]);
      }
    }
  }

  lemma FinishKeepsInv(m: Manager, g: nat)
    requires Inv(m) && g in m.flows && m.flows[g].stage != Finished
    ensures Inv(Finish(m, g))
  {
    var v := Finish(m, g);
    assert FlowOk(m, g);
    BehindBegins(m.flows[g].plan, m.flows[g].stage);
    forall h | h in v.flows ensures FlowOk(v, h) {
      assert FlowOk(m, h);
    }
    forall i | 0 <= i < |v.log| ensures EntryOk(v, v.log[i]) {
      assert EntryOk(m, m.log[i]);
    }
  }

  lemma MoveKeepsInv(m: Manager, g: nat, stage: Stage)
    requires Inv(m) && g in m.flows && m.flows[g].stage != Finished && stage != Finished
    requires StageFits(m.flows[g].plan, stage)
    requires Behind(m.flows[g].plan, stage) == Behind(m.flows[g].plan, m.flows[g].stage)
    ensures Inv(MoveTo(m, g, stage))
  { }

  lemma PerformKeepsInv(m: Manager, g: nat, act: Act, s: Status, stage: Stage)
    requires Inv(m) && g in m.flows && m.flows[g].stage != Finished && stage != Finished
    requires !m.flows[g].cancelled
    requires StageFits(m.flows[g].plan, stage)
    requires Behind(m.flows[g].plan, stage) == Behind(m.flows[g].plan, m.flows[g].stage) + [act]
    requires EntersStage(act) ==> StillApplicable(m, g, s)
    ensures Inv(Perform(m, g, act, s, stage))
  {
    var v := Perform(m, g, act, s, stage);
    assert FlowOk(m, g);
    forall h | h in v.flows ensures FlowOk(v, h) {
      assert FlowOk(m, h);
      ActsAppend(m.log, LogEntry(g, act, m.generation, s), h);
    }
    forall i | 0 <= i < |v.log| ensures EntryOk(v, v.log[i]) {
      if i < |m.log| { assert EntryOk(m, m.log[i]); }
    }
  }

  /** The stages that begin with a check. */
  lemma CheckedStageKeepsInv(m: Manager, g: nat, s: Status)
    requires Inv(m) && g in m.flows && !m.flows[g].cancelled && m.flows[g].stage in {Waiting, Settling, Pausing}
    ensures Inv(Resume(m, g, s))
  {
    var f := m.flows[g];
    if !StillApplicable(m, g, s) {
      FinishKeepsInv(m, g);
    } else {
      assert FlowOk(m, g);
      match f.stage
      case Waiting =>
        if f.plan.requestClose { PerformKeepsInv(m, g, CloseRequested, s, Requesting); }
        else { MoveKeepsInv(m, g, Settling); }
      case Settling =>
        if f.plan.processFallback { PerformKeepsInv(m, g, TermStarted, s, Terminating); }
        else { MoveKeepsInv(m, g, Pausing); }
      case Pausing =>
        if f.plan.allowForceKill && f.plan.processFallback { PerformKeepsInv(m, g, KillStarted, s, Killing); }
        else { PerformKeepsInv(m, g, StillRunning, s, Reporting); }
    }
  }

  lemma PlainStageKeepsInv(m: Manager, g: nat, s: Status)
    requires Inv(m) && g in m.flows && !m.flows[g].cancelled
    requires m.flows[g].stage !in {Waiting, Settling, Pausing, Finished}
    ensures Inv(Resume(m, g, s))
  {
    assert FlowOk(m, g);
    match m.flows[g].stage
    case Requesting => MoveKeepsInv(m, g, Settling);
    case Terminating => PerformKeepsInv(m, g, TermRecorded, s, RecordingTerm);
    case RecordingTerm => MoveKeepsInv(m, g, Pausing);
    case Killing => PerformKeepsInv(m, g, KillRecorded, s, RecordingKill);
    case RecordingKill => FinishKeepsInv(m, g);
    case Reporting => FinishKeepsInv(m, g);
  }

  lemma ResumeKeepsInv(m: Manager, g: nat, s: Status)
    requires Inv(m)
    ensures Inv(Resume(m, g, s))
  {
    if g in m.flows && m.flows[g].stage != Finished {
      if m.flows[g].cancelled {
        FinishKeepsInv(m, g);
      } else if m.flows[g].stage in {Waiting, Settling, Pausing} {
        CheckedStageKeepsInv(m, g, s);
      } else {
        PlainStageKeepsInv(m, g, s);
      }
    }
  }

  lemma {:induction false} RunKeepsInv(hs: seq<Happening>)
    ensures Inv(After(hs))
  {
    if hs != [] {
      var m, h := After(hs[..|hs| - 1]), hs[|hs| - 1];
      RunKeepsInv(hs[..|hs| - 1]);
      match h
      case Armed(game, s, level, launchBlock) => ArmKeepsInv(m, game, s, level, launchBlock);
      case Cancelled => CancelKeepsInv(m);
      case Resumed(g, s) => ResumeKeepsInv(m, g, s);
    }
  }

  // ----- main results

  /** For every interleaving: each flow's acts are the beginning of its script, so each happens at
      most once and in the order close request, SIGTERM, SIGKILL; and whatever is done was done
      by the flow of the generation then current, at level two or above, each stage entered while
      the status was about the flow's game and at least at its level. */
  lemma FlowsFollowTheirScripts(hs: seq<Happening>)
    ensures var m := After(hs);
            && (forall g :: g in m.flows ==> ActsOf(m.log, g) <= Script(m.flows[g].plan))
            && (forall i :: 0 <= i < |m.log| ==> EntryOk(m, m.log[i]))
  {
    RunKeepsInv(hs);
    var m := After(hs);
    forall g | g in m.flows ensures ActsOf(m.log, g) <= Script(m.flows[g].plan) {
      assert FlowOk(m, g);
      BehindBegins(m.flows[g].plan, m.flows[g].stage);
    }
  }

  lemma {:induction false} ActRecorded(log: seq<LogEntry>, i: nat)
    requires i < |log|
    ensures log[i].act in ActsOf(log, log[i].flow)
  {
    var n := |log| - 1;
    if i < n {
      ActRecorded(log[..n], i);
    }
  }

  /** The `i`th happening was the arming that scheduled flow `g`. */
  ghost predicate Created(hs: seq<Happening>, i: nat, g: nat) {
    i < |hs| && hs[i].Armed? && 2 <= hs[i].level && g == After(hs[..i]).generation + 2
  }

  /** A flow's game and plan stay as they were when it was scheduled. */
  lemma NextKeepsPlan(m: Manager, h: Happening, g: nat)
    requires Inv(m) && g in m.flows
    ensures var v := Next(m, h);
            g in v.flows && v.flows[g].game == m.flows[g].game && v.flows[g].plan == m.flows[g].plan
  {
    if h.Resumed? {
      ResumeKeepsPlans(m, h.flow, h.status, g);
    } else {
      assert FlowOk(m, g);
    }
  }

  lemma ResumeKeepsPlans(m: Manager, r: nat, s: Status, g: nat)
    requires g in m.flows
    ensures var v := Resume(m, r, s);
            g in v.flows && v.flows[g].game == m.flows[g].game && v.flows[g].plan == m.flows[g].plan
  { }

  /** Every flow goes back to an arming at level two or above, whose game it has and whose settings its
      plan was made from. */
  lemma {:induction false} FlowOrigin(hs: seq<Happening>, g: nat) returns (i: nat)
    requires g in After(hs).flows
    ensures Created(hs, i, g)
    ensures var f := After(hs).flows[g];
            f.game == hs[i].game && f.plan == BuildPlan(hs[i].settings, hs[i].level)
  {
    var prefix, h := hs[..|hs| - 1], hs[|hs| - 1];
    var m := After(prefix);
    RunKeepsInv(prefix);
    if g in m.flows {
      i := FlowOrigin(prefix, g);
      assert prefix[..i] == hs[..i];
      NextKeepsPlan(m, h, g);
    } else {
      i := |prefix|;
      if h.Resumed? {
        ResumeLog(m, h.flow, h.status);
      }
    }
  }

  /** What is done goes back to the consent of the settings that its flow was armed with: SIGKILL to
      force kill and the process fallback, SIGTERM to the fallback. */
  lemma SignalsNeedConsent(hs: seq<Happening>, e: LogEntry) returns (i: nat)
    requires e in After(hs).log
    ensures Created(hs, i, e.flow)
    ensures e.act == KillStarted ==> hs[i].settings.forceKillEnabled && hs[i].settings.safeProcessFallback
    ensures e.act == TermStarted ==> hs[i].settings.safeProcessFallback
  {
    FlowsFollowTheirScripts(hs);
    var m := After(hs);
    var k :| 0 <= k < |m.log| && m.log[k] == e;
    assert EntryOk(m, m.log[k]);
    i := FlowOrigin(hs, e.flow);
    ActRecorded(m.log, k);
    assert e.act in Script(m.flows[e.flow].plan);
  }

  /** Once cancelled or replaced, a flow does nothing more, whatever happens. */
  lemma {:induction false} SupersededFlowsAreSilent(m: Manager, hs: seq<Happening>, g: nat)
    requires Inv(m) && g in m.flows && g < m.generation
    ensures var v := Continue(m, hs);
            && Inv(v) && g in v.flows && m.generation <= v.generation
            && ActsOf(v.log, g) == ActsOf(m.log, g)
  {
    if hs != [] {
      var u, h := Continue(m, hs[..|hs| - 1]), hs[|hs| - 1];
      SupersededFlowsAreSilent(m, hs[..|hs| - 1], g);
      SilentStep(u, h, g);
    }
  }

  function Continue(m: Manager, hs: seq<Happening>): Manager {
    if hs == [] then m else Next(Continue(m, hs[..|hs| - 1]), hs[|hs| - 1])
  }

  lemma SilentStep(u: Manager, h: Happening, g: nat)
    requires Inv(u) && g in u.flows && g < u.generation
    ensures var v := Next(u, h);
            && Inv(v) && g in v.flows && u.generation <= v.generation
            && ActsOf(v.log, g) == ActsOf(u.log, g)
  {
    assert FlowOk(u, g);
    match h
    case Armed(game, s, level, launchBlock) => ArmKeepsInv(u, game, s, level, launchBlock);
    case Cancelled => CancelKeepsInv(u);
    case Resumed(other, s) =>
      ResumeKeepsInv(u, other, s);
      ResumeLog(u, other, s);
      var v := Resume(u, other, s);
      if v.log != u.log {
        ActsAppend(u.log, v.log[|u.log|], g);
      }
  }

  /** A step adds at most one entry, for the flow that ran; a cancelled flow adds none. */
  lemma ResumeLog(m: Manager, g: nat, s: Status)
    ensures var v := Resume(m, g, s);
            && v.flows.Keys == m.flows.Keys && v.generation == m.generation
            && (v.log == m.log
                || (g in m.flows && !m.flows[g].cancelled && m.flows[g].stage != Finished
                    && |v.log| == |m.log| + 1 && v.log == m.log + [v.log[|m.log|]] && v.log[|m.log|].flow == g))
  { }

  /** A flow that is left alone, under a status that stays applicable, goes through its whole
      script. */
  lemma UndisturbedFlowCompletes(m: Manager, game: Game, settings: Settings, level: int, launchBlock: bool, s: Status)
    requires Inv(m) && 2 <= level && StatusMatches(s, game, level)
    ensures var a := Arm(m, game, settings, level, launchBlock);
            var v := ResumeTimes(a, a.generation, s, 9);
            && a.generation in v.flows && v.flows[a.generation].stage == Finished && v.task == None
            && ActsOf(v.log, a.generation) == Script(BuildPlan(settings, level))
  {
    ArmKeepsInv(m, game, settings, level, launchBlock);
    var a := Arm(m, game, settings, level, launchBlock);
    StagesLeftSuffice(a, a.generation, s, 9);
  }

  /** Arming replaces whatever was scheduled, also at a level that schedules nothing. */
  lemma ArmingSupersedes(m: Manager, game: Game, s: Settings, level: int, launchBlock: bool)
    requires Inv(m)
    ensures var a := Arm(m, game, s, level, launchBlock);
            && m.generation < a.generation
            && a.task == (if level < 2 then None else Some(a.generation))
            && (forall g :: g in m.flows ==> g in a.flows && (m.task == Some(g) ==> a.flows[g].cancelled))
  {
    if m.task.Some? {
      assert FlowOk(m, m.task.value);
    }
  }

  /** The status is about this game: it has the same id, or, if this game has none, the same folded name. */
  predicate About(s: Status, game: Game) {
    && s.game.Some?
    && if game.appId == None || game.appId == Some("") then s.game.value.folded == game.folded
       else s.game.value.appId == game.appId
  }

  /** In terms of the settings: a flow of level two or above has that level and the settings' times, and
      waits for the launch grace if a launch is blocked, for the ordinary grace if not. Left alone under a
      status about its game and at its level or above, it asks the game to close; then, with the process
      fallback on, it sends SIGTERM; and it ends with SIGKILL if force kill is on as well, or else with the
      report that the game is still running. */
  lemma LeftAloneExact(m: Manager, game: Game, settings: Settings, level: int, launchBlock: bool, s: Status)
    requires Inv(m) && 2 <= level <= s.level && About(s, game)
    ensures var a := Arm(m, game, settings, level, launchBlock);
            && m.generation < a.generation && a.task == Some(a.generation) && a.generation in a.flows
            && var f := a.flows[a.generation];
               && f.game == game && f.plan.level == level
               && f.plan.graceSeconds == settings.graceSeconds
               && f.plan.closeTimeoutSeconds == settings.closeTimeoutSeconds
               && f.delay == if launchBlock then settings.launchGraceSeconds else settings.graceSeconds
    ensures var a := Arm(m, game, settings, level, launchBlock);
            var v := ResumeTimes(a, a.generation, s, 9);
            && v.task == None && a.generation in v.flows && v.flows[a.generation].stage == Finished
            && ActsOf(v.log, a.generation) ==
               [CloseRequested]
               + (if settings.safeProcessFallback then [TermStarted, TermRecorded] else [])
               + if settings.safeProcessFallback && settings.forceKillEnabled then [KillStarted, KillRecorded]
                 else [StillRunning]
  {
    UndisturbedFlowCompletes(m, game, settings, level, launchBlock, s);
  }

  /** Wherever a flow checks, it goes on exactly if it is still the manager's generation and the status is
      about its game and at its level or above. Otherwise it ends there and does nothing. */
  lemma ChecksExact(m: Manager, g: nat, s: Status)
    requires g in m.flows && !m.flows[g].cancelled && m.flows[g].stage in {Waiting, Settling, Pausing}
    ensures var v := Resume(m, g, s);
            && (v.flows[g].stage == Finished <==>
                  !(g == m.generation && About(s, m.flows[g].game) && m.flows[g].plan.level <= s.level))
            && (v.flows[g].stage == Finished ==> v.log == m.log)
  { }

  function ResumeTimes(m: Manager, g: nat, s: Status, n: nat): Manager
    decreases n
  {
    if n == 0 then m else ResumeTimes(Resume(m, g, s), g, s, n - 1)
  }

  /** How many steps a flow still takes at most. */
  function StagesLeft(stage: Stage): nat {
    match stage
    case Waiting => 9
    case Requesting => 8
    case Settling => 7
    case Terminating => 6
    case RecordingTerm => 5
    case Pausing => 4
    case Killing => 3
    case RecordingKill => 2
    case Reporting => 2
    case Finished => 0
  }

  /** A flow on its way through its script, or at its end. */
  ghost predicate OnItsWay(m: Manager, g: nat, s: Status) {
    && Inv(m) && g in m.flows && g == m.generation && !m.flows[g].cancelled
    && StatusMatches(s, m.flows[g].game, m.flows[g].plan.level)
    && (m.flows[g].stage == Finished ==> ActsOf(m.log, g) == Script(m.flows[g].plan) && m.task == None)
  }

  lemma NextStage(m: Manager, g: nat, s: Status)
    requires OnItsWay(m, g, s)
    ensures var v := Resume(m, g, s);
            && OnItsWay(v, g, s) && v.flows[g].plan == m.flows[g].plan
            && (m.flows[g].stage == Finished || StagesLeft(v.flows[g].stage) < StagesLeft(m.flows[g].stage))
  {
    ResumeKeepsInv(m, g, s);
    ResumeKeepsPlans(m, g, s, g);
    assert FlowOk(m, g);
    assert FlowOk(Resume(m, g, s), g);
  }

  lemma {:induction false} StagesLeftSuffice(m: Manager, g: nat, s: Status, n: nat)
    requires OnItsWay(m, g, s) && StagesLeft(m.flows[g].stage) <= n
    ensures var v := ResumeTimes(m, g, s, n);
            && g in v.flows && v.flows[g].stage == Finished && v.task == None
            && ActsOf(v.log, g) == Script(m.flows[g].plan)
    decreases n
  {
    if n > 0 {
      NextStage(m, g, s);
      StagesLeftSuffice(Resume(m, g, s), g, s, n - 1);
    }
  }

  // ----- the manager object

  class EnforcementManager {
    var generation: nat
    var task: Option<nat>
    var flows: map<nat, Flow>
    var log: seq<LogEntry>

    constructor ()
      ensures View() == IDLE_MANAGER
    {
      generation, task, flows, log := 0, None, map[], [];
    }

    function View(): Manager
      reads this
    {
      Manager(generation, task, flows, log)
    }

    method CancelFlow()
      modifies this
      ensures View() == Cancel(old(View()))
    {
      generation := generation + 1;
      if task.Some? {
        if task.value in flows {
          flows := flows[task.value := flows[task.value].(cancelled := true)];
        }
        task := None;
      }
    }

    method ArmFlow(game: Game, s: Settings, level: int, launchBlock: bool)
      modifies this
      ensures View() == Arm(old(View()), game, s, level, launchBlock)
    {
      CancelFlow();
      if level < 2 {
        return;
      }
      generation := generation + 1;
      var plan := BuildPlan(s, level);
      var delay := if launchBlock then s.launchGraceSeconds else plan.graceSeconds;
      flows := flows[generation := Flow(game, plan, delay, Waiting, false)];
      task := Some(generation);
    }

    method FinishFlow(g: nat)
      requires g in flows
      modifies this
      ensures View() == Finish(old(View()), g)
    {
      flows := flows[g := flows[g].(stage := Finished)];
      if g == generation {
        task := None;
      }
    }

    method PerformAct(g: nat, act: Act, s: Status, stage: Stage)
      requires g in flows
      modifies this
      ensures View() == Perform(old(View()), g, act, s, stage)
    {
      log := log + [LogEntry(g, act, generation, s)];
      flows := flows[g := flows[g].(stage := stage)];
    }

    /** Lets flow `g` run under status `s` until it waits again. */
    method ResumeFlow(g: nat, s: Status)
      modifies this
      ensures View() == Resume(old(View()), g, s)
    {
      if g !in flows || flows[g].stage == Finished {
        return;
      }
      var f := flows[g];
      if f.cancelled {
        FinishFlow(g);
        return;
      }
      if f.stage in {Waiting, Settling, Pausing} && !StillApplicable(View(), g, s) {
        FinishFlow(g);
        return;
      }
      match f.stage
      case Waiting =>
        if f.plan.requestClose {
          PerformAct(g, CloseRequested, s, Requesting);
        } else {
          flows := flows[g := f.(stage := Settling)];
        }
      case Requesting => flows := flows[g := f.(stage := Settling)];
      case Settling =>
        if f.plan.processFallback {
          PerformAct(g, TermStarted, s, Terminating);
        } else {
          flows := flows[g := f.(stage := Pausing)];
        }
      case Terminating => PerformAct(g, TermRecorded, s, RecordingTerm);
      case RecordingTerm => flows := flows[g := f.(stage := Pausing)];
      case Pausing =>
        if f.plan.allowForceKill && f.plan.processFallback {
          PerformAct(g, KillStarted, s, Killing);
        } else {
          PerformAct(g, StillRunning, s, Reporting);
        }
      case Killing => PerformAct(g, KillRecorded, s, RecordingKill);
      case RecordingKill => FinishFlow(g);
      case Reporting => FinishFlow(g);
    }
  }
}

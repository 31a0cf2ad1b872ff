/** The service around the engine: which events arm or cancel enforcement, and the action that wraps
    every command. */
module Service {
  import opened Basics
  import opened Records
  import opened Engine
  import opened Frames
  import opened SessionLaws
  import opened TransitionLaws
  import F = Enforcement
  import EngineObject

  // ----- dispatching events to enforcement

  /** An event that is being dispatched, with the game, the level and the settings that the dispatcher
      reads when its turn comes. Between two events it waits, so that they need not be the same. */
  datatype Delivery = Delivery(event: Event, game: Option<Game>, level: int, settings: F.Settings)

  /** What an event asks of enforcement: at which level a flow is armed, and with which grace. */
  datatype Order = Leave | CancelIt | ArmIt(game: Game, level: int, launchBlock: bool)

  function OrderFor(d: Delivery): Order {
    match d.event
    case RestrictionChanged(_, _, newReason, newLevel) =>
      if newReason == Unrestricted then CancelIt
      else if newLevel >= 2 && d.game.Some? then ArmIt(d.game.value, newLevel, false)
      else Leave
    case NewGameBlocked(_) => if d.game.Some? then ArmIt(d.game.value, Max(3, d.level), true) else Leave
    case StartedWhileRestricted(_) => if d.game.Some? then ArmIt(d.game.value, Max(2, d.level), false) else Leave
    case GameStopped(_, _, _) => CancelIt
    case _ => Leave
  }

  function Dispatch(m: F.Manager, d: Delivery): F.Manager {
    match OrderFor(d)
    case Leave => m
    case CancelIt => F.Cancel(m)
    case ArmIt(g, l, launchBlock) => F.Arm(m, g, d.settings, l, launchBlock)
  }

  /** Dispatches in order. */
  function DispatchAll(m: F.Manager, ds: seq<Delivery>): F.Manager {
    if ds == [] then m else Dispatch(DispatchAll(m, ds[..|ds| - 1]), ds[|ds| - 1])
  }

  /** The deliveries are those of the events, each with whatever was read when its turn came. */
  predicate Delivers(ds: seq<Delivery>, es: seq<Event>) {
    |ds| == |es| && forall i :: 0 <= i < |es| ==> ds[i].event == es[i]
  }

  /** Deliveries between which nothing happens. */
  function Together(es: seq<Event>, game: Option<Game>, level: int, s: F.Settings): seq<Delivery> {
    seq(|es|, i requires 0 <= i < |es| => Delivery(es[i], game, level, s))
  }

  lemma {:induction false} DispatchKeepsInv(m: F.Manager, ds: seq<Delivery>)
    requires F.Inv(m)
    ensures F.Inv(DispatchAll(m, ds))
  {
    if ds != [] {
      var u, d := DispatchAll(m, ds[..|ds| - 1]), ds[|ds| - 1];
      DispatchKeepsInv(m, ds[..|ds| - 1]);
      F.CancelKeepsInv(u);
      match OrderFor(d)
      case Leave =>
      case CancelIt =>
      case ArmIt(g, l, launchBlock) => F.ArmKeepsInv(u, g, d.settings, l, launchBlock);
    }
  }

  /** While no game is being played nothing is armed, and a flow once cancelled stays so. */
  lemma {:induction false} NothingArmedWithoutGame(m: F.Manager, ds: seq<Delivery>)
    requires forall i :: 0 <= i < |ds| ==> ds[i].game == None
    ensures var v := DispatchAll(m, ds);
            v.task == None || v.task == m.task
    ensures (exists i :: 0 <= i < |ds| && ds[i].event.GameStopped?) ==> DispatchAll(m, ds).task == None
  {
    if ds != [] {
      var rest := ds[..|ds| - 1];
      assert forall i :: 0 <= i < |rest| ==> rest[i] == ds[i];
      NothingArmedWithoutGame(m, rest);
      if i :| 0 <= i < |ds| && ds[i].event.GameStopped? {
        if i < |rest| {
          assert rest[i].event.GameStopped?;
        }
      }
    }
  }

  /** Stopping the game that is being played ends enforcement, unless another game has been started
      while the events were on their way. */
  lemma StopGameEndsEnforcement(t: World, r: Reading, m: F.Manager, ds: seq<Delivery>)
    requires Linked(t) && t.session.Some?
    requires Delivers(ds, EventsOf(StopGameTail(t, r)))
    requires forall i :: 0 <= i < |ds| ==> ds[i].game == None
    ensures StopGameTail(t, r).Done? && StopGameTail(t, r).world.game == None
    ensures DispatchAll(m, ds).task == None
  {
    var es := EventsOf(StopGameTail(t, r));
    assert es[0].GameStopped?;
    assert ds[0].event == es[0];
    NothingArmedWithoutGame(m, ds);
  }

  /** After a game has started under restriction level two or three, whatever game is being played when
      the last event is dispatched has a flow scheduled for it: at that level or above, and with the
      launch grace when new games are blocked. */
  lemma RestrictedStartIsArmed(t: World, g: Game, r: Reading, m: F.Manager, ds: seq<Delivery>)
    requires Linked(t) && 2 <= t.level && !(t.game.Some? && SameGame(t.game.value, g))
    requires Delivers(ds, EventsOf(SetGameTail(t, g, r)))
    requires ds != [] && ds[|ds| - 1].game.Some?
    ensures SetGameTail(t, g, r).Done? && SetGameTail(t, g, r).world.game == Some(g)
    ensures var v, last := DispatchAll(m, ds), ds[|ds| - 1];
            && v.task == Some(v.generation) && v.generation in v.flows
            && v.flows[v.generation].game == last.game.value
            && v.flows[v.generation].plan == F.BuildPlan(last.settings, Max(if t.level >= 3 then 3 else 2, last.level))
            && v.flows[v.generation].delay ==
               if t.level >= 3 then last.settings.launchGraceSeconds else last.settings.graceSeconds
  {
    RestrictedStartEvents(t, g, r);
    var es := EventsOf(SetGameTail(t, g, r));
    assert ds[|ds| - 1].event == es[|es| - 1];
    LastIsArmed(m, ds, if t.level >= 3 then NewGameBlocked(g) else StartedWhileRestricted(g));
  }

  lemma LastIsArmed(m: F.Manager, ds: seq<Delivery>, e: Event)
    requires ds != [] && ds[|ds| - 1].event == e && ds[|ds| - 1].game.Some?
    requires e.NewGameBlocked? || e.StartedWhileRestricted?
    ensures var v, last := DispatchAll(m, ds), ds[|ds| - 1];
            && v.task == Some(v.generation) && v.generation in v.flows
            && v.flows[v.generation].game == last.game.value
            && v.flows[v.generation].plan ==
               F.BuildPlan(last.settings, Max(if e.NewGameBlocked? then 3 else 2, last.level))
            && v.flows[v.generation].delay ==
               if e.NewGameBlocked? then last.settings.launchGraceSeconds else last.settings.graceSeconds
  { }

  /** The last event of such a start says that the game is restricted. */
  lemma RestrictedStartEvents(t: World, g: Game, r: Reading)
    requires Linked(t) && 2 <= t.level && !(t.game.Some? && SameGame(t.game.value, g))
    ensures var v := SetGameTail(t, g, r);
            && v.Done? && v.world.game == Some(g) && v.world.level == t.level
            && |v.events| > 0
            && v.events[|v.events| - 1] == if t.level >= 3 then NewGameBlocked(g) else StartedWhileRestricted(g)
  {
    SetGameTailBooks(t, g, r, 0);
    var c := if t.game.Some? then CloseCurrent(t, r.now) else Effect(t, []);
    assert EventsOf(SetGameTail(t, g, r)) == c.events + StartEvents(g, c.world.db.nextId, t.level);
  }

  /** The last event of a tick that has changed the restriction says to what. */
  lemma TickTellsLast(w: World, r: Reading)
    requires Pair(Tick(w, r).world) != Pair(w)
    ensures var t := Tick(w, r);
            && |t.events| > 0
            && t.events[|t.events| - 1] == RestrictionChanged(w.reason, w.level, t.world.reason, t.world.level)
  {
    var e, before := Elapse(w, r), TakeSnapshot(w, r.now);
    ElapsePair(w, r);
    AnnounceTellsLast(e.world, r.now, before);
    var a := Announce(e.world, r.now, before);
    assert Tick(w, r).events == e.events + a.events;
  }

  lemma AnnounceTellsLast(w: World, now: int, before: Snapshot)
    requires Pair(Announce(w, now, before).world) != Pair(w)
    ensures var v := Announce(w, now, before);
            && |v.events| > 0
            && v.events[|v.events| - 1] == RestrictionChanged(w.reason, w.level, v.world.reason, v.world.level)
  {
    WarnOnlyMarks(w, now, before);
  }

  /** After a tick that has raised or changed the restriction to level two or above, whatever game is being
      played when its last event is dispatched has a flow scheduled for it, at that level and with the
      ordinary grace. */
  lemma RestrictingTickArms(w: World, r: Reading, m: F.Manager, ds: seq<Delivery>)
    requires Pair(Tick(w, r).world) != Pair(w) && 2 <= Tick(w, r).world.level
    requires Delivers(ds, Tick(w, r).events) && ds != [] && ds[|ds| - 1].game.Some?
    ensures var v, last := DispatchAll(m, ds), ds[|ds| - 1];
            && v.task == Some(v.generation) && v.generation in v.flows
            && v.flows[v.generation].game == last.game.value
            && v.flows[v.generation].plan == F.BuildPlan(last.settings, Tick(w, r).world.level)
            && v.flows[v.generation].delay == last.settings.graceSeconds
  {
    TickTellsLast(w, r);
    LevelHasReason(w, r);
    var t := Tick(w, r);
    assert ds[|ds| - 1].event == t.events[|t.events| - 1];
    ChangeIsArmed(m, ds, t.world.level);
  }

  /** Without a reason there is no level. */
  lemma LevelHasReason(w: World, r: Reading)
    requires 2 <= Tick(w, r).world.level
    ensures Tick(w, r).world.reason != Unrestricted
  {
    AnnounceRests(Elapse(w, r).world, r.now, TakeSnapshot(w, r.now));
  }

  lemma ChangeIsArmed(m: F.Manager, ds: seq<Delivery>, level: int)
    requires ds != [] && ds[|ds| - 1].game.Some? && 2 <= level
    requires var e := ds[|ds| - 1].event;
             e.RestrictionChanged? && e.newReason != Unrestricted && e.newLevel == level
    ensures var v, last := DispatchAll(m, ds), ds[|ds| - 1];
            && v.task == Some(v.generation) && v.generation in v.flows
            && v.flows[v.generation].game == last.game.value
            && v.flows[v.generation].plan == F.BuildPlan(last.settings, level)
            && v.flows[v.generation].delay == last.settings.graceSeconds
  { }

  /** A tick that has lifted the restriction ends enforcement. */
  lemma LiftingTickCancels(w: World, r: Reading, m: F.Manager, ds: seq<Delivery>)
    requires Pair(Tick(w, r).world) != Pair(w) && Tick(w, r).world.reason == Unrestricted
    requires Delivers(ds, Tick(w, r).events)
    ensures var v := DispatchAll(m, ds);
            v.task == None && m.generation < v.generation
  {
    TickTellsLast(w, r);
    var t := Tick(w, r);
    assert ds[|ds| - 1].event == t.events[|t.events| - 1];
    GenerationsRise(m, ds[..|ds| - 1]);
    CancelLast(m, ds);
  }

  lemma CancelLast(m: F.Manager, ds: seq<Delivery>)
    requires ds != [] && m.generation <= DispatchAll(m, ds[..|ds| - 1]).generation
    requires var e := ds[|ds| - 1].event;
             e.RestrictionChanged? && e.newReason == Unrestricted
    ensures DispatchAll(m, ds).task == None && m.generation < DispatchAll(m, ds).generation
  { }

  lemma {:induction false} GenerationsRise(m: F.Manager, ds: seq<Delivery>)
    ensures m.generation <= DispatchAll(m, ds).generation
  {
    if ds != [] {
      GenerationsRise(m, ds[..|ds| - 1]);
    }
  }

  /** Nothing else touches enforcement: neither a restriction of level zero or one that is in force, nor any
      event that is not about the restriction or about a game that starts under one or stops. */
  lemma OthersLeaveEnforcement(m: F.Manager, d: Delivery)
    requires d.event.RestrictionChanged? ==> d.event.newReason != Unrestricted && d.event.newLevel < 2
    requires !d.event.NewGameBlocked? && !d.event.StartedWhileRestricted? && !d.event.GameStopped?
    ensures Dispatch(m, d) == m
  { }

  /** Levels zero and one never arm: whatever is dispatched, a flow that is scheduled afterwards and was
      not before has a plan of level two or above. */
  lemma {:induction false} ArmedPlansAreHigh(m: F.Manager, ds: seq<Delivery>)
    ensures var v := DispatchAll(m, ds);
            v.task.Some? && v.task != m.task ==> v.task.value in v.flows && 2 <= v.flows[v.task.value].plan.level
  {
    if ds != [] {
      ArmedPlansAreHigh(m, ds[..|ds| - 1]);
    }
  }

  // ----- the service object

  class GuardianService {
    const engine: EngineObject.GuardianEngine
    const enforcement: F.EnforcementManager
    const settings: F.Settings

    constructor (e: EngineObject.GuardianEngine, m: F.EnforcementManager, s: F.Settings)
      ensures engine == e && enforcement == m && settings == s
    {
      engine, enforcement, settings := e, m, s;
    }

    /** Ticks and then performs the command; what the first tick reports is published even if the
        command is refused, but not if it fails in any other way. */
    method EngineAction(c: Command, first: Reading, second: Reading) returns (published: seq<Event>, fate: Fate)
      requires engine.Valid() && ValidCommand(c) && !c.DoRestart?
      modifies engine, engine.storage
      ensures engine.Valid()
      ensures TransitionLaws.EngineAction(old(engine.View()), c, first, second) ==
              Answer(engine.View(), published, fate)
    {
      published := engine.Tick(first);
      var outcome := engine.Perform(c, second);
      match outcome
      case Completed(more) =>
        published := published + more;
        fate := Accepted;
      case Rejected(why) =>
        fate := TransitionLaws.Rejected(why);
      case Crashed =>
        published, fate := [], TransitionLaws.Crashed;
    }

    /** What the dispatcher reads when it comes to an event. */
    function Deliver(e: Event): Delivery
      reads engine
    {
      Delivery(e, engine.game, engine.level, settings)
    }

    /** Arms or cancels enforcement for one event. */
    method DispatchOne(event: Event)
      modifies enforcement
      ensures enforcement.View() == Dispatch(old(enforcement.View()), Deliver(event))
    {
      var game := engine.game;
      match event
      case RestrictionChanged(_, _, newReason, newLevel) =>
        if newReason == Unrestricted {
          enforcement.CancelFlow();
        } else if newLevel >= 2 && game.Some? {
          enforcement.ArmFlow(game.value, settings, newLevel, false);
        }
      case NewGameBlocked(_) =>
        if game.Some? {
          enforcement.ArmFlow(game.value, settings, Max(3, engine.level), true);
        }
      case StartedWhileRestricted(_) =>
        if game.Some? {
          enforcement.ArmFlow(game.value, settings, Max(2, engine.level), false);
        }
      case GameStopped(_, _, _) => enforcement.CancelFlow();
      case _ =>
    }

    /** Dispatches each event in turn, without anything happening in between. */
    method DispatchMany(events: seq<Event>)
      modifies enforcement
      ensures enforcement.View() ==
              DispatchAll(old(enforcement.View()), Together(events, engine.game, engine.level, settings))
    {
      for i := 0 to |events|
        invariant enforcement.View() ==
                  DispatchAll(old(enforcement.View()), Together(events[..i], engine.game, engine.level, settings))
      {
        assert Together(events[..i + 1], engine.game, engine.level, settings)[..i]
            == Together(events[..i], engine.game, engine.level, settings);
        DispatchOne(events[i]);
      }
      assert events[..|events|] == events;
    }
  }
}

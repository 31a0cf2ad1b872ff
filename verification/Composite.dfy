/** The detector arbiter: several detectors report games, one stream of events comes out. */
module Composite {
  import opened Basics
  import opened Records

  datatype Kind = Started | Stopped | Changed | SystemSuspend | SystemResume | DetectorError

  datatype Event = Event(kind: Kind, game: Option<Game>)

  /** A game as the arbiter tells games apart: its id, if any, and its folded name. */
  datatype Key = Key(appId: Option<string>, folded: string)

  function SourcePriority(source: string): int {
    if source == "decky" then 100
    else if source == "simulation" then 95
    else if source == "steam_log" then 80
    else if source == "procfs" then 50
    else 0
  }

  function Priority(e: Event): (p: int)
    ensures 0 <= p <= 100
  {
    if e.game.Some? then SourcePriority(e.game.value.source) else 0
  }

  /** Of two sources the more trusted one comes first: Decky, the simulation, Steam's log, the process table,
      and then anything else. */
  lemma SourcesInOrder(a: Event, b: Event)
    requires a.game.Some? && b.game.Some?
    ensures Priority(a) <= Priority(b) <==>
            var s, t := a.game.value.source, b.game.value.source;
            || t == "decky"
            || (t == "simulation" && s != "decky")
            || (t == "steam_log" && s != "decky" && s != "simulation")
            || (t == "procfs" && s != "decky" && s != "simulation" && s != "steam_log")
            || (s != "decky" && s != "simulation" && s != "steam_log" && s != "procfs")
    ensures Priority(a) == 0 <==>
            a.game.value.source !in {"decky", "simulation", "steam_log", "procfs"}
  { }

  function KeyOf(e: Event): Option<Key> {
    if e.game.Some? then Some(Key(e.game.value.appId, e.game.value.folded)) else None
  }

  predicate IsStart(e: Event) { e.kind == Started || e.kind == Changed }

  /** What the arbiter remembers. */
  datatype Arbiter = Arbiter(priority: int, key: Option<Key>)

  const IDLE := Arbiter(0, None)

  datatype Decision = Decision(arbiter: Arbiter, forward: bool)

  function Decide(a: Arbiter, e: Event): Decision {
    if IsStart(e) then
      if a.priority <= Priority(e) then Decision(Arbiter(Priority(e), KeyOf(e)), true) else Decision(a, false)
    else if e.kind == Stopped then
      if a.priority <= Priority(e) && (a.key == None || KeyOf(e) == a.key) then Decision(IDLE, true)
      else Decision(a, false)
    else Decision(a, true)
  }

  /** The arbiter and the events forwarded after a stream of child events. */
  datatype Progress = Progress(arbiter: Arbiter, output: seq<Event>)

  function Arbitrate(es: seq<Event>): Progress {
    if es == [] then Progress(IDLE, [])
    else
      var before := Arbitrate(es[..|es| - 1]);
      var d := Decide(before.arbiter, es[|es| - 1]);
      Progress(d.arbiter, before.output + if d.forward then [es[|es| - 1]] else [])
  }

  // ----- the same, told from the output alone

  /** The forwarded start that no forwarded stop has ended. */
  function Outstanding(output: seq<Event>): Option<Event> {
    if output == [] then None
    else
      var e := output[|output| - 1];
      if IsStart(e) then Some(e)
      else if e.kind == Stopped then None
      else Outstanding(output[..|output| - 1])
  }

  /** Whether an event belongs in the output: a start unless one of higher priority is
      outstanding; a stop unless something it may not end is outstanding; anything else always. */
  predicate Admissible(output: seq<Event>, e: Event) {
    var o := Outstanding(output);
    if IsStart(e) then o.None? || Priority(o.value) <= Priority(e)
    else if e.kind == Stopped then
      o.None? || (Priority(o.value) <= Priority(e) && (o.value.game.None? || KeyOf(e) == KeyOf(o.value)))
    else true
  }

  function Reference(es: seq<Event>): seq<Event> {
    if es == [] then []
    else
      var before, e := Reference(es[..|es| - 1]), es[|es| - 1];
      if Admissible(before, e) then before + [e] else before
  }

  /** Priority and key describe the outstanding start. */
  predicate Describes(a: Arbiter, output: seq<Event>) {
    match Outstanding(output)
    case None => a == IDLE
    case Some(e) => a == Arbiter(Priority(e), KeyOf(e))
  }

  lemma DecideIsAdmissible(a: Arbiter, output: seq<Event>, e: Event)
    requires Describes(a, output)
    ensures var d := Decide(a, e);
            d.forward == Admissible(output, e)
            && Describes(d.arbiter, if d.forward then output + [e] else output)
  { }

  /** The arbiter's two fields are all that is needed: for every stream of child events it forwards
      exactly the events that are admissible given what has been forwarded so far, and the
      fields describe the outstanding start throughout. */
  lemma {:induction false} ArbiterIsReference(es: seq<Event>)
    ensures var p := Arbitrate(es);
            p.output == Reference(es) && Describes(p.arbiter, p.output)
  {
    if es != [] {
      ArbiterIsReference(es[..|es| - 1]);
      var before := Arbitrate(es[..|es| - 1]);
      DecideIsAdmissible(before.arbiter, before.output, es[|es| - 1]);
    }
  }

  /** No event in the output breaks the rules at its place: an outstanding start is displaced only by
      a start of equal or higher priority, and a stop that ends a start with a game carries that
      start's key and at least its priority. */
  ghost predicate Orderly(output: seq<Event>) {
    forall i :: 0 <= i < |output| ==>
                  var o, e := Outstanding(output[..i]), output[i];
                  o.Some? ==>
                    && (IsStart(e) ==> Priority(o.value) <= Priority(e))
                    && (e.kind == Stopped ==> Priority(o.value) <= Priority(e)
                                              && (o.value.game.Some? ==> KeyOf(e) == KeyOf(o.value)))
  }

  lemma {:induction false} OutputIsOrderly(es: seq<Event>)
    ensures Orderly(Arbitrate(es).output)
  {
    ArbiterIsReference(es);
    if es != [] {
      var rest := es[..|es| - 1];
      OutputIsOrderly(rest);
      ArbiterIsReference(rest);
      var before, output := Arbitrate(rest).output, Arbitrate(es).output;
      forall i | 0 <= i < |output|
        ensures var o, e := Outstanding(output[..i]), output[i];
                o.Some? ==>
                  && (IsStart(e) ==> Priority(o.value) <= Priority(e))
                  && (e.kind == Stopped ==> Priority(o.value) <= Priority(e)
                                            && (o.value.game.Some? ==> KeyOf(e) == KeyOf(o.value)))
      {
        if i < |before| {
          assert output[..i] == before[..i] && output[i] == before[i];
        } else {
          assert output[..i] == before;
        }
      }
    }
  }

  /** A start that carries no game takes the place of any outstanding one of priority zero, without
      leaving a key, so that the next stop is forwarded whatever game it is about. Against a higher
      priority it is dropped. */
  lemma GamelessStartLosesKey(es: seq<Event>, start: Event, stop: Event)
    requires IsStart(start) && start.game.None? && stop.kind == Stopped
    ensures var before := Arbitrate(es);
            if before.arbiter.priority <= 0
            then Arbitrate(es + [start, stop]).output == before.output + [start, stop]
            else Arbitrate(es + [start]) == before
  {
    var one, two := es + [start], es + [start, stop];
    assert one[..|one| - 1] == es && two[..|two| - 1] == one;
    assert Arbitrate(es).output + [] == Arbitrate(es).output;
  }

  class CompositeDetector {
    var currentSourcePriority: int
    var currentKey: Option<Key>

    constructor ()
      ensures View() == IDLE
    {
      currentSourcePriority, currentKey := 0, None;
    }

    function View(): Arbiter
      reads this
    {
      Arbiter(currentSourcePriority, currentKey)
    }

    /** Consumes the child events that arrive until the detector is stopped. */
    method Run(events: seq<Event>) returns (output: seq<Event>)
      requires View() == IDLE
      modifies this
      ensures View() == Arbitrate(events).arbiter && output == Arbitrate(events).output
    {
      output := [];
      for i := 0 to |events|
        invariant View() == Arbitrate(events[..i]).arbiter && output == Arbitrate(events[..i]).output
      {
        var event := events[i];
        assert events[..i + 1][..i] == events[..i];
        if event.kind == DetectorError {
          output := output + [event];
          continue;
        }
        var priority := Priority(event);
        if event.kind == Started || event.kind == Changed {
          if priority >= currentSourcePriority {
            currentSourcePriority := priority;
            currentKey := KeyOf(event);
            output := output + [event];
          }
        } else if event.kind == Stopped {
          if priority >= currentSourcePriority && (currentKey == None || KeyOf(event) == currentKey) {
            currentSourcePriority := 0;
            currentKey := None;
            output := output + [event];
          }
        } else {
          output := output + [event];
        }
      }
      assert events[..|events|] == events;
    }
  }
}

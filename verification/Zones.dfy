/** Instants, durations and time zones.

    An instant is a whole number of microseconds since 1970-01-01T00:00Z, the resolution of a
    Python `datetime`; an elapsed time is a real number of seconds. A zone is the table that
    `zoneinfo` works from: an initial offset and a list of transitions to later offsets. */
module Zones {
  import opened Basics

  const SECOND := 1_000_000
  const MINUTE := 60_000_000
  const DAY := 86_400_000_000

  /** The length, in seconds, of a stretch of `us` microseconds. */
  function Seconds(us: int): real { us as real / 1000000.0 }

  datatype Transition = Transition(at: int, offset: int)

  datatype Zone = Zone(base: int, transitions: seq<Transition>)

  function Last(z: Zone): Transition
    requires z.transitions != []
  {
    z.transitions[|z.transitions| - 1]
  }

  /** The zone as it was before its last transition was announced. */
  function Earlier(z: Zone): Zone
    requires z.transitions != []
  {
    Zone(z.base, z.transitions[..|z.transitions| - 1])
  }

  function FinalOffset(z: Zone): int {
    if z.transitions == [] then z.base else Last(z).offset
  }

  /** The smaller and larger local reading of the clock at the last transition: for a
      daylight-saving gap the skipped clock values, for an overlap the repeated ones. */
  function EdgeLow(z: Zone): int
    requires z.transitions != []
  {
    Last(z).at + Min(FinalOffset(Earlier(z)), Last(z).offset)
  }

  function EdgeHigh(z: Zone): int
    requires z.transitions != []
  {
    Last(z).at + Max(FinalOffset(Earlier(z)), Last(z).offset)
  }

  /** `utcoffset()` of an aware UTC instant converted to the zone. */
  function OffsetAt(z: Zone, t: int): int
    decreases |z.transitions|
  {
    if z.transitions == [] then z.base
    else if Last(z).at <= t then Last(z).offset
    else OffsetAt(Earlier(z), t)
  }

  /** `utcoffset()` of a local clock value with `fold=0`: values in a gap and the first
      occurrence of repeated values belong to the offset before the transition. */
  function OffsetOfLocal(z: Zone, l: int): int
    decreases |z.transitions|
  {
    if z.transitions == [] then z.base
    else if EdgeHigh(z) <= l then Last(z).offset
    else OffsetOfLocal(Earlier(z), l)
  }

  function Local(z: Zone, t: int): int { t + OffsetAt(z, t) }

  function ToUtc(z: Zone, l: int): int { l - OffsetOfLocal(z, l) }

  /** Transitions are in order, and each one comes after the clock values touched by the one
      before it have gone by. Every zone in use is like this. */
  predicate WellSpaced(z: Zone)
    decreases |z.transitions|
  {
    z.transitions == [] ||
    var e := Earlier(z);
    && WellSpaced(e)
    && (e.transitions != [] ==> Last(e).at < Last(z).at && EdgeHigh(e) <= EdgeLow(z))
  }

  /** No transition skips or repeats the clock value `l`. (A transition that starts exactly at
      `l` is harmless, so the bounds are strict.) */
  predicate RegularAt(z: Zone, l: int)
    decreases |z.transitions|
  {
    z.transitions == [] || (RegularAt(Earlier(z), l) && !(EdgeLow(z) < l < EdgeHigh(z)))
  }

  /** The offset at an instant is the one of the last transition that has taken place, or else the first. */
  lemma {:induction false} OffsetAtExact(z: Zone, t: int, i: int)
    requires -1 <= i < |z.transitions|
    requires 0 <= i ==> z.transitions[i].at <= t
    requires forall j :: i < j < |z.transitions| ==> t < z.transitions[j].at
    ensures OffsetAt(z, t) == if i < 0 then z.base else z.transitions[i].offset
    decreases |z.transitions|
  {
    if i < |z.transitions| - 1 {
      OffsetAtExact(Earlier(z), t, i);
    }
  }

  /** After the last transition only the final offset matters. */
  lemma {:induction false} OffsetAfter(z: Zone, t: int)
    requires z.transitions != [] ==> Last(z).at <= t
    ensures OffsetAt(z, t) == FinalOffset(z)
  { }

  lemma {:induction false} LocalOffsetAfter(z: Zone, l: int)
    requires z.transitions != [] ==> EdgeHigh(z) <= l
    ensures OffsetOfLocal(z, l) == FinalOffset(z)
  { }

  /** In a zone that neither skips nor repeats `l`, the local clock has reached `l` exactly from
      the instant `ToUtc` gives: the conversion back is the first such instant and there is no
      return below it. */
  lemma {:induction false} Crossing(z: Zone, l: int, t: int)
    requires WellSpaced(z) && RegularAt(z, l)
    ensures l <= Local(z, t) <==> ToUtc(z, l) <= t
    decreases |z.transitions|
  {
    if z.transitions != [] {
      var e := Earlier(z);
      Crossing(e, l, t);
      if Last(z).at <= t {
        OffsetAfter(e, t);
      }
      if EdgeHigh(z) <= l {
        LocalOffsetAfter(e, l);
      }
    }
  }

  /** Conversely, a zone that skips or repeats `l` always has an instant at which the two disagree:
      the offending transition itself. */
  lemma {:induction false} CrossingFails(z: Zone, l: int) returns (t: int)
    requires WellSpaced(z) && !RegularAt(z, l)
    ensures !(l <= Local(z, t) <==> ToUtc(z, l) <= t)
    ensures t <= Last(z).at && l < EdgeHigh(z)
    decreases |z.transitions|
  {
    var e := Earlier(z);
    if RegularAt(e, l) {
      t := Last(z).at;
      LocalOffsetAfter(e, l);
    } else {
      t := CrossingFails(e, l);
    }
  }

  /** The clock value `l` is met cleanly by every instant exactly when the zone is regular at it. */
  lemma CrossingExact(z: Zone, l: int)
    requires WellSpaced(z)
    ensures RegularAt(z, l) <==> forall t :: l <= Local(z, t) <==> ToUtc(z, l) <= t
  {
    if RegularAt(z, l) {
      forall t ensures l <= Local(z, t) <==> ToUtc(z, l) <= t {
        Crossing(z, l, t);
      }
    } else {
      var t := CrossingFails(z, l);
    }
  }

  // ----- clocks that only go forward past a reading

  /** No transition repeats the clock value `l`; one may skip it. */
  predicate NotRepeatedAt(z: Zone, l: int)
    decreases |z.transitions|
  {
    z.transitions == [] ||
    (NotRepeatedAt(Earlier(z), l)
     && !(Last(z).offset < FinalOffset(Earlier(z)) && EdgeLow(z) < l < EdgeHigh(z)))
  }

  lemma {:induction false} RegularIsNotRepeated(z: Zone, l: int)
    requires RegularAt(z, l)
    ensures NotRepeatedAt(z, l)
    decreases |z.transitions|
  {
    if z.transitions != [] {
      RegularIsNotRepeated(Earlier(z), l);
    }
  }

  /** Before its last transition the local clock has not come to the end of that transition's edge. */
  lemma {:induction false} LocalBeforeEdge(z: Zone, t: int)
    requires WellSpaced(z) && z.transitions != [] && t < Last(z).at
    ensures Local(z, t) < EdgeHigh(z)
    decreases |z.transitions|
  {
    var e := Earlier(z);
    if e.transitions != [] && t < Last(e).at {
      LocalBeforeEdge(e, t);
    } else {
      OffsetAfter(e, t);
    }
  }

  /** A clock value that is never repeated stays behind once it has been reached. */
  lemma {:induction false} StaysReached(z: Zone, l: int, t: int, u: int)
    requires WellSpaced(z) && NotRepeatedAt(z, l)
    requires t <= u && l <= Local(z, t)
    ensures l <= Local(z, u)
    decreases |z.transitions|
  {
    if z.transitions != [] && t < Last(z).at {
      var e := Earlier(z);
      StaysReached(e, l, t, u);
      if Last(z).at <= u {
        OffsetAfter(e, u);
        LocalBeforeEdge(z, t);
      }
    }
  }

  /** A repeated clock value is reached and then left again, at the transition that repeats it. */
  lemma {:induction false} RepeatedIsLeft(z: Zone, l: int) returns (t: int, u: int)
    requires WellSpaced(z) && !NotRepeatedAt(z, l)
    ensures t <= u <= Last(z).at && Local(z, u) < l <= Local(z, t)
    decreases |z.transitions|
  {
    var e := Earlier(z);
    if NotRepeatedAt(e, l) {
      t, u := Last(z).at - 1, Last(z).at;
      OffsetAfter(e, t);
    } else {
      t, u := RepeatedIsLeft(e, l);
    }
  }
}

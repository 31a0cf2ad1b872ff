/** Amounts of play time filed under an accounting day, a four-hour block and an application: the
    shape shared by the engine's pending slices and by the stored `usage_buckets` rows. */
module Ledger {

  datatype Entry<K> = Entry(day: int, index: int, who: K, seconds: real)

  /** A selection of entries: a whole accounting day, or one of its six blocks. */
  datatype Cell = WholeDay(day: int) | OneBlock(day: int, index: int)

  predicate Selects(c: Cell, day: int, index: int) {
    match c
    case WholeDay(d) => d == day
    case OneBlock(d, i) => d == day && i == index
  }

  /** Adds an amount under a key: to the entry that has the key, or as a new last entry. */
  function Put<K(==)>(s: seq<Entry<K>>, e: Entry<K>): seq<Entry<K>> {
    if s == [] then [e]
    else if s[0].day == e.day && s[0].index == e.index && s[0].who == e.who then
      [s[0].(seconds := s[0].seconds + e.seconds)] + s[1..]
    else [s[0]] + Put(s[1..], e)
  }

  function Total<K>(s: seq<Entry<K>>, c: Cell): real {
    if s == [] then 0.0
    else (if Selects(c, s[0].day, s[0].index) then s[0].seconds else 0.0) + Total(s[1..], c)
  }

  /** What the storage layer accepts: a block index from 0 to 5 and a positive amount. */
  predicate Acceptable<K>(s: seq<Entry<K>>) {
    forall i :: 0 <= i < |s| ==> 0 <= s[i].index < 6 && s[i].seconds > 0.0
  }

  lemma {:induction false} TotalPut<K>(s: seq<Entry<K>>, e: Entry<K>, c: Cell)
    ensures Total(Put(s, e), c) ==
            Total(s, c) + if Selects(c, e.day, e.index) then e.seconds else 0.0
  {
    if s == [] {
      assert Put(s, e)[1..] == [];
    } else {
      TotalPut(s[1..], e, c);
      assert Put(s, e)[1..] == if s[0].day == e.day && s[0].index == e.index && s[0].who == e.who
                               then s[1..] else Put(s[1..], e);
    }
  }

  lemma {:induction false} PutAcceptable<K>(s: seq<Entry<K>>, e: Entry<K>)
    requires Acceptable(s) && 0 <= e.index < 6 && e.seconds > 0.0
    ensures Acceptable(Put(s, e))
  {
    if s != [] {
      assert Acceptable(s[1..]);
      PutAcceptable(s[1..], e);
    }
  }

  /** A day is the sum of its blocks. */
  lemma {:induction false} DayIsSumOfBlocks<K>(s: seq<Entry<K>>, d: int)
    requires Acceptable(s)
    ensures Total(s, WholeDay(d)) ==
            Total(s, OneBlock(d, 0)) + Total(s, OneBlock(d, 1)) + Total(s, OneBlock(d, 2))
            + Total(s, OneBlock(d, 3)) + Total(s, OneBlock(d, 4)) + Total(s, OneBlock(d, 5))
  {
    if s != [] {
      assert Acceptable(s[1..]);
      DayIsSumOfBlocks(s[1..], d);
    }
  }

  // ----- whose time it is

  /** The part of a cell's total that is filed under certain keys. */
  ghost function TotalOf<K(!new)>(s: seq<Entry<K>>, c: Cell, keys: iset<K>): real {
    if s == [] then 0.0
    else (if Selects(c, s[0].day, s[0].index) && s[0].who in keys then s[0].seconds else 0.0)
         + TotalOf(s[1..], c, keys)
  }

  /** An amount is added where its own key is counted, and nowhere else. */
  lemma {:induction false} TotalOfPut<K(!new)>(s: seq<Entry<K>>, e: Entry<K>, c: Cell, keys: iset<K>)
    ensures TotalOf(Put(s, e), c, keys) ==
            TotalOf(s, c, keys) + if Selects(c, e.day, e.index) && e.who in keys then e.seconds else 0.0
  {
    if s == [] {
      assert Put(s, e)[1..] == [];
    } else {
      TotalOfPut(s[1..], e, c, keys);
      assert Put(s, e)[0].who == s[0].who;
      assert Put(s, e)[1..] == s[1..] || Put(s, e)[1..] == Put(s[1..], e);
    }
  }

  /** The seconds of one day, block and key grow by the amount if they are those of the entry, and stay as
      they were if not. */
  lemma PutExact<K(!new)>(s: seq<Entry<K>>, e: Entry<K>, day: int, index: int, who: K)
    ensures TotalOf(Put(s, e), OneBlock(day, index), iset{who}) ==
            TotalOf(s, OneBlock(day, index), iset{who})
            + if day == e.day && index == e.index && who == e.who then e.seconds else 0.0
  {
    TotalOfPut(s, e, OneBlock(day, index), iset{who});
  }

  ghost predicate SameKey<K(!new)>(a: Entry<K>, b: Entry<K>) {
    a.day == b.day && a.index == b.index && a.who == b.who
  }

  /** No two entries share day, block and key. */
  ghost predicate Distinct<K(!new)>(s: seq<Entry<K>>) {
    forall i, j :: 0 <= i < j < |s| ==> !SameKey(s[i], s[j])
  }

  /** Adding an amount brings in no key but its own. */
  lemma {:induction false} PutKeys<K(!new)>(s: seq<Entry<K>>, e: Entry<K>, x: Entry<K>)
    requires x in Put(s, e)
    ensures SameKey(x, e) || exists i :: 0 <= i < |s| && SameKey(x, s[i])
  {
    if s != [] && !SameKey(x, e) {
      if x in Put(s[1..], e) && !SameKey(x, s[0]) {
        PutKeys(s[1..], e, x);
        var i :| 0 <= i < |s[1..]| && SameKey(x, s[1..][i]);
        assert SameKey(x, s[i + 1]);
      } else if !SameKey(x, s[0]) {
        var i :| 0 <= i < |s[1..]| && s[1..][i] == x;
        assert SameKey(x, s[i + 1]);
      }
    }
  }

  lemma {:induction false} PutDistinct<K(!new)>(s: seq<Entry<K>>, e: Entry<K>)
    requires Distinct(s)
    ensures Distinct(Put(s, e))
  {
    if s != [] && !SameKey(s[0], e) {
      var more := Put(s[1..], e);
      PutDistinct(s[1..], e);
      forall j | 0 <= j < |more| ensures !SameKey(s[0], more[j]) {
        PutKeys(s[1..], e, more[j]);
      }
      assert Put(s, e) == [s[0]] + more;
    }
  }
}

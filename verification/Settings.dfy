/** Configuration trees: defaults, merging, migration, validation and update. */
module Settings {
  import opened Basics
  import opened Records

  datatype Json =
    | JNull
    | JBool(b: bool)
    | JInt(n: int)
    | JReal(r: real)
    | JText(s: string)
    | JList(items: seq<Json>)
    | JObject(fields: map<string, Json>)

  // ----- merging

  /** Objects are merged key by key; anything else supplied replaces the default. */
  function Merge(default: Json, supplied: Json): Json
    decreases supplied
  {
    if default.JObject? && supplied.JObject? then
      JObject(map k | k in default.fields.Keys + supplied.fields.Keys ::
                if k !in supplied.fields then default.fields[k]
                else if k in default.fields then Merge(default.fields[k], supplied.fields[k])
                else supplied.fields[k])
    else supplied
  }

  /** Every key of the tree is known to the template, object by object. */
  predicate KnownKeys(supplied: Json, template: Json)
    decreases supplied
  {
    supplied.JObject? && template.JObject? ==>
      forall k :: k in supplied.fields ==> k in template.fields && KnownKeys(supplied.fields[k], template.fields[k])
  }

  /** Every key of the template is present, object by object. */
  predicate Covers(template: Json, c: Json)
    decreases template
  {
    template.JObject? && c.JObject? ==>
      forall k :: k in template.fields ==> k in c.fields && Covers(template.fields[k], c.fields[k])
  }

  lemma {:induction false} CoversSelf(j: Json)
    ensures Covers(j, j)
    decreases j
  {
    if j.JObject? {
      forall k | k in j.fields ensures Covers(j.fields[k], j.fields[k]) {
        CoversSelf(j.fields[k]);
      }
    }
  }

  lemma {:induction false} KnownSelf(j: Json)
    ensures KnownKeys(j, j)
    decreases j
  {
    if j.JObject? {
      forall k | k in j.fields ensures KnownKeys(j.fields[k], j.fields[k]) {
        KnownSelf(j.fields[k]);
      }
    }
  }

  lemma {:induction false} MergeCovers(default: Json, supplied: Json)
    ensures Covers(default, Merge(default, supplied))
    decreases default
  {
    if default.JObject? && supplied.JObject? {
      forall k | k in default.fields ensures Covers(default.fields[k], Merge(default, supplied).fields[k]) {
        CoversSelf(default.fields[k]);
        if k in supplied.fields {
          MergeCovers(default.fields[k], supplied.fields[k]);
        }
      }
    }
  }

  lemma {:induction false} MergeKnown(default: Json, supplied: Json)
    requires KnownKeys(supplied, default)
    ensures KnownKeys(Merge(default, supplied), default)
    decreases supplied
  {
    if default.JObject? && supplied.JObject? {
      var merged := Merge(default, supplied);
      forall k | k in merged.fields
        ensures k in default.fields && KnownKeys(merged.fields[k], default.fields[k])
      {
        if k in supplied.fields {
          MergeKnown(default.fields[k], supplied.fields[k]);
        } else {
          KnownSelf(default.fields[k]);
        }
      }
    }
  }

  /** A tree that has every key of the template is its own merge with it. */
  lemma {:induction false} MergeCovered(template: Json, c: Json)
    requires Covers(template, c)
    ensures Merge(template, c) == c
    decreases c
  {
    if template.JObject? && c.JObject? {
      var merged := Merge(template, c);
      forall k | k in c.fields ensures merged.fields[k] == c.fields[k] {
        if k in template.fields {
          MergeCovered(template.fields[k], c.fields[k]);
        }
      }
      assert merged.fields.Keys == c.fields.Keys;
      assert merged.fields == c.fields;
    }
  }

  /** Merging is idempotent: on one tree, over the same defaults, and of the same patch. */
  lemma {:induction false} MergeIdempotent(d: Json, p: Json)
    ensures Merge(p, p) == p
    ensures Merge(d, Merge(d, p)) == Merge(d, p)
    ensures Merge(Merge(d, p), p) == Merge(d, p)
    decreases p
  {
    CoversSelf(p);
    MergeCovered(p, p);
    MergeCovers(d, p);
    MergeCovered(d, Merge(d, p));
    if d.JObject? && p.JObject? {
      var once := Merge(d, p);
      var twice := Merge(once, p);
      forall k | k in once.fields ensures twice.fields[k] == once.fields[k] {
        if k in p.fields {
          MergeIdempotent(if k in d.fields then d.fields[k] else p.fields[k], p.fields[k]);
        }
      }
      assert twice.fields.Keys == once.fields.Keys;
      assert twice.fields == once.fields;
    }
  }

  // ----- paths

  function Get(j: Json, path: seq<string>): Option<Json> {
    if path == [] then Some(j)
    else if j.JObject? && path[0] in j.fields then Get(j.fields[path[0]], path[1..])
    else None
  }

  /** The patch says something about the path, or about a setting above it. */
  predicate Mentions(patch: Json, path: seq<string>) {
    path == [] || !patch.JObject? || (path[0] in patch.fields && Mentions(patch.fields[path[0]], path[1..]))
  }

  lemma {:induction false} UnmentionedIsAbsent(patch: Json, path: seq<string>)
    requires !Mentions(patch, path)
    ensures Get(patch, path) == None
    decreases |path|
  {
    if path[0] in patch.fields {
      UnmentionedIsAbsent(patch.fields[path[0]], path[1..]);
    }
  }

  /** A merge leaves every path alone that the patch does not mention, and sets every leaf that it
      does. */
  lemma {:induction false} MergeAtPath(c: Json, patch: Json, path: seq<string>)
    ensures !Mentions(patch, path) ==> Get(Merge(c, patch), path) == Get(c, path)
    ensures Get(patch, path).Some? && !Get(patch, path).value.JObject? ==>
              Get(Merge(c, patch), path) == Get(patch, path)
    decreases |path|
  {
    if path != [] && c.JObject? && patch.JObject? && path[0] in patch.fields && path[0] in c.fields {
      MergeAtPath(c.fields[path[0]], patch.fields[path[0]], path[1..]);
    } else if !Mentions(patch, path) {
      UnmentionedIsAbsent(patch, path);
    }
  }

  // ----- normal forms of lists

  function Strip(s: string): string {
    if s == "" then ""
    else if s[0] in " \t\n\r" then Strip(s[1..])
    else if s[|s| - 1] in " \t\n\r" then Strip(s[..|s| - 1])
    else s
  }

  lemma {:induction false} StripIsStripped(s: string)
    ensures Strip(Strip(s)) == Strip(s) && |Strip(s)| <= |s|
    ensures IsBlank(s) <==> Strip(s) == ""
  {
    if s == "" {
    } else if s[0] in " \t\n\r" {
      StripIsStripped(s[1..]);
      assert IsBlank(s) <==> IsBlank(s[1..]) by {
        assert forall i :: 1 <= i < |s| ==> s[i] == s[1..][i - 1];
      }
    } else if s[|s| - 1] in " \t\n\r" {
      StripIsStripped(s[..|s| - 1]);
      assert IsBlank(s) <==> IsBlank(s[..|s| - 1]);
    }
  }

  function StripAll(names: seq<string>): seq<string> {
    seq(|names|, i requires 0 <= i < |names| => Strip(names[i]))
  }

  /** The distinct elements in the order of their first occurrence. */
  function Distinct(s: seq<string>): seq<string> {
    if s == [] then []
    else
      var rest := Distinct(s[..|s| - 1]);
      if s[|s| - 1] in rest then rest else rest + [s[|s| - 1]]
  }

  predicate NoDuplicates(s: seq<string>) { forall i, j :: 0 <= i < j < |s| ==> s[i] != s[j] }

  lemma {:induction false} DistinctExact(s: seq<string>)
    ensures NoDuplicates(Distinct(s))
    ensures forall x :: x in Distinct(s) <==> x in s
    ensures NoDuplicates(s) ==> Distinct(s) == s
  {
    if s != [] {
      var rest := s[..|s| - 1];
      assert s == rest + [s[|s| - 1]];
      DistinctExact(rest);
    }
  }

  /** Inserts into a strictly decreasing list, unless it is there already. */
  function InsertDown(s: seq<int>, x: int): seq<int> {
    if s == [] || s[0] < x then [x] + s
    else if s[0] == x then s
    else [s[0]] + InsertDown(s[1..], x)
  }

  /** `sorted(set(s), reverse=True)` */
  function SortedDown(s: seq<int>): seq<int> {
    if s == [] then [] else InsertDown(SortedDown(s[1..]), s[0])
  }

  lemma {:induction false} InsertDownExact(s: seq<int>, x: int)
    requires StrictlyDecreasing(s)
    ensures StrictlyDecreasing(InsertDown(s, x))
    ensures forall y :: y in InsertDown(s, x) <==> y == x || y in s
  {
    if s != [] && x < s[0] {
      var rest := InsertDown(s[1..], x);
      InsertDownExact(s[1..], x);
      assert forall y :: y in s <==> y == s[0] || y in s[1..];
      forall i | 0 <= i < |rest| ensures rest[i] < s[0] {
        assert rest[i] in rest;
      }
    } else if s != [] {
      assert forall i :: 0 < i < |s| ==> s[i] < s[0];
    }
  }

  lemma {:induction false} SortedDownExact(s: seq<int>)
    ensures StrictlyDecreasing(SortedDown(s))
    ensures forall y :: y in SortedDown(s) <==> y in s
    ensures StrictlyDecreasing(s) ==> SortedDown(s) == s
  {
    if s != [] {
      SortedDownExact(s[1..]);
      InsertDownExact(SortedDown(s[1..]), s[0]);
      assert forall y :: y in s <==> y == s[0] || y in s[1..];
      if StrictlyDecreasing(s) {
        assert StrictlyDecreasing(s[1..]);
        assert SortedDown(s[1..]) == s[1..];
        assert |s| > 1 ==> s[1..][0] < s[0];
      }
    }
  }
}

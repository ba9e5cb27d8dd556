/** When a branch path answers a search: one relation per tree walk, as the walks decide it,
    and how they relate to the matching of section 4.7 of MQTT 3.1.1. */
module Matching {
  import opened Topics

  /** Branch.SearchLeaves: do the leaves of the branch at the end of `names` answer topic `keys`? */
  predicate SearchHits(names: Path, keys: seq<string>)
    requires names != [] && keys != []
  {
    if names[0] == "#" then |names| == 1
    else if names[0] == "+" || names[0] == keys[0] then
      if |keys| == 1 then |names| == 1 else |names| > 1 && SearchHits(names[1..], keys[1..])
    else false
  }

  /** Branch.ScanRemoveLeaf: is the leaf removed from the branch at the end of `names`? */
  predicate ScanHits(names: Path, keys: seq<string>)
    requires names != [] && keys != []
  {
    if names[0] == "#" then |names| == 1
    else if names[0] == keys[0] then
      if |keys| == 1 then |names| == 1 else |names| > 1 && ScanHits(names[1..], keys[1..])
    else false
  }

  /** Branch.SearchRetain: are the retained messages of that branch returned for filter `keys`? */
  predicate RetainHits(names: Path, keys: seq<string>)
    requires names != [] && keys != []
  {
    if keys[0] == "#" then true
    else if keys[0] == "+" || names[0] == keys[0] then
      if |keys| == 1 then |names| == 1 else |names| > 1 && RetainHits(names[1..], keys[1..])
    else false
  }

  /** Matching as section 4.7.1 of MQTT 3.1.1 defines it: "+" stands for one level, "#" for the
      parent level and any number of levels below it. */
  predicate FilterMatches(filter: Path, topic: Path) {
    if filter == [] then topic == []
    else if filter[0] == "#" then true
    else topic != [] && (filter[0] == "+" || filter[0] == topic[0]) && FilterMatches(filter[1..], topic[1..])
  }

  /** The same, level by level: without "#" as many levels, each equal or under a "+". */
  lemma {:induction false} MatchesByLevel(filter: Path, topic: Path)
    requires "#" !in filter
    ensures FilterMatches(filter, topic) <==>
            |filter| == |topic| && forall i | 0 <= i < |filter| :: filter[i] == "+" || filter[i] == topic[i]
  {
    if filter != [] && topic != [] {
      MatchesByLevel(filter[1..], topic[1..]);
      assert forall i | 0 < i < |filter| :: filter[i] == filter[1..][i - 1];
      assert forall i | 0 < i < |topic| :: topic[i] == topic[1..][i - 1];
    }
  }

  /** With a "#" the levels in front of it do, and any number of levels may follow, also none. */
  lemma {:induction false} HashMatchesByLevel(front: Path, back: Path, topic: Path)
    requires "#" !in front
    ensures FilterMatches(front + ["#"] + back, topic) <==> |front| <= |topic| && FilterMatches(front, topic[..|front|])
  {
    var filter := front + ["#"] + back;
    if front != [] && topic != [] {
      assert filter[1..] == front[1..] + ["#"] + back;
      HashMatchesByLevel(front[1..], back, topic[1..]);
      if |front| <= |topic| {
        assert topic[..|front|][1..] == topic[1..][..|front| - 1];
      }
    }
  }

  /** Retained search, level by level. */
  lemma {:induction false} RetainHitsByLevel(names: Path, filter: Path)
    requires names != [] && filter != [] && "#" !in filter
    ensures RetainHits(names, filter) <==>
            |filter| == |names| && forall i | 0 <= i < |filter| :: filter[i] == "+" || filter[i] == names[i]
  {
    if |filter| > 1 && |names| > 1 {
      RetainHitsByLevel(names[1..], filter[1..]);
      assert forall i | 0 < i < |filter| :: filter[i] == filter[1..][i - 1];
      assert forall i | 0 < i < |names| :: names[i] == names[1..][i - 1];
    }
  }

  /** With a "#", at least one level must follow what is in front of it. */
  lemma {:induction false} RetainHashByLevel(front: Path, back: Path, names: Path)
    requires names != [] && "#" !in front
    ensures RetainHits(names, front + ["#"] + back) <==> |front| < |names| && FilterMatches(front, names[..|front|])
  {
    var filter := front + ["#"] + back;
    if front != [] && |names| > 1 {
      assert filter[1..] == front[1..] + ["#"] + back;
      RetainHashByLevel(front[1..], back, names[1..]);
      if |front| < |names| {
        assert names[..|front|][1..] == names[1..][..|front| - 1];
      }
    }
  }

  /** A leaf at p answers the topic itself; a leaf at p = q/# also has a copy on q. Exactly one of
      the two is found when the filter matches the topic, and neither when it does not. */
  lemma {:induction false} SearchIsMatching(p: Path, topic: seq<string>)
    requires p != [] && HashLast(p) && topic != []
    ensures FilterMatches(p, topic) <==>
            SearchHits(p, topic) || (EndsInHash(p) && |p| > 1 && SearchHits(Parent(p), topic))
    ensures EndsInHash(p) && |p| > 1 ==> !(SearchHits(p, topic) && SearchHits(Parent(p), topic))
  {
    if |p| > 1 {
      assert p[0] != "#";
      assert Parent(p)[0] == p[0];
      if |p| == 2 {
        assert Parent(p) == [p[0]];
      } else {
        assert Parent(p)[1..] == Parent(p[1..]);
      }
      if |topic| > 1 {
        assert Last(p[1..]) == Last(p);
        SearchIsMatching(p[1..], topic[1..]);
      } else {
        assert topic[1..] == [];
        assert FilterMatches(p[1..], []) <==> p[1] == "#";
      }
    } else {
      assert p == [Last(p)];
      assert FilterMatches(p[1..], topic[1..]) <==> |topic| == 1;
    }
  }

  /** Retained search leaves out exactly one case of section 4.7.1: the messages retained on the
      parent level of a trailing "#". */
  lemma {:induction false} RetainedSearchGap(filter: seq<string>, names: Path)
    requires filter != [] && HashLast(filter) && names != []
    ensures FilterMatches(filter, names) <==>
            RetainHits(names, filter) || (EndsInHash(filter) && |filter| > 1 && RetainHits(names, Parent(filter)))
    ensures EndsInHash(filter) && |filter| > 1 ==> !(RetainHits(names, filter) && RetainHits(names, Parent(filter)))
  {
    if |filter| > 1 {
      assert Parent(filter)[0] == filter[0];
      if |filter| == 2 {
        assert Parent(filter) == [filter[0]];
      } else {
        assert Parent(filter)[1..] == Parent(filter[1..]);
      }
      if |names| > 1 {
        assert Last(filter[1..]) == Last(filter);
        RetainedSearchGap(filter[1..], names[1..]);
      } else {
        assert names[1..] == [];
        assert FilterMatches(filter[1..], []) <==> filter[1] == "#";
      }
    } else {
      assert filter == [Last(filter)];
      assert FilterMatches(filter[1..], names[1..]) <==> |names| == 1;
    }
  }

  /** The levels up to and including the first "#"; no walk looks further. */
  function Cut(filter: seq<string>): (c: seq<string>)
    ensures c == [] <==> filter == []
    ensures HashLast(c)
  {
    if filter == [] then []
    else if filter[0] == "#" then ["#"]
    else
      var rest := Cut(filter[1..]);
      assert forall i | 0 < i < |rest| :: ([filter[0]] + rest)[i] == rest[i - 1];
      [filter[0]] + rest
  }

  lemma {:induction false} CutSame(filter: seq<string>, names: Path)
    requires filter != []
    ensures FilterMatches(Cut(filter), names) <==> FilterMatches(filter, names)
    ensures names != [] ==> (RetainHits(names, Cut(filter)) <==> RetainHits(names, filter))
  {
    if filter[0] != "#" {
      var c := Cut(filter);
      assert c[1..] == Cut(filter[1..]);
      if |filter| == 1 {
        assert c == filter;
      } else if names != [] {
        CutSame(filter[1..], names[1..]);
      }
    }
  }

  /** Exactly when retained search decides as section 4.7.1 does: unless there is a "#" behind other
      levels and the names are the parent level of it. */
  lemma RetainedSearchExact(filter: seq<string>, names: Path)
    requires filter != [] && names != []
    ensures var c := Cut(filter);
            (RetainHits(names, filter) <==> FilterMatches(filter, names)) <==>
            !(EndsInHash(c) && |c| > 1 && RetainHits(names, Parent(c)))
  {
    CutSame(filter, names);
    RetainedSearchGap(Cut(filter), names);
  }

  /** An unsubscribe reaches the leaf of its own filter exactly when the levels in front of a "#"
      carry no white space to trim. */
  predicate Scannable(filter: string) {
    var p, keys := SubPath(filter), Levels(filter);
    forall i | 0 <= i < |p| :: p[i] == "#" || p[i] == keys[i]
  }

  lemma {:induction false} ScanReaches(keys: seq<string>)
    requires keys != []
    ensures var p := FilterPath(keys);
            ScanHits(p, keys) <==> forall i | 0 <= i < |p| :: p[i] == "#" || p[i] == keys[i]
  {
    var p := FilterPath(keys);
    if p[0] != "#" && |keys| > 1 {
      ScanReaches(keys[1..]);
      assert p[1..] == FilterPath(keys[1..]);
      if forall i | 0 <= i < |p[1..]| :: p[1..][i] == "#" || p[1..][i] == keys[1..][i] {
        forall i | 1 <= i < |p| ensures p[i] == "#" || p[i] == keys[i] {
          assert p[i] == p[1..][i - 1];
        }
      } else {
        var i :| 0 <= i < |p[1..]| && !(p[1..][i] == "#" || p[1..][i] == keys[1..][i]);
        assert !(p[i + 1] == "#" || p[i + 1] == keys[i + 1]);
      }
    }
  }

  /** A search that ends on anything but a "#" has matched level by level. */
  lemma {:induction false} SearchStops(names: Path, keys: seq<string>)
    requires names != [] && keys != [] && SearchHits(names, keys)
    ensures EndsInHash(names) || |names| == |keys|
  {
    if |names| > 1 {
      SearchStops(names[1..], keys[1..]);
      assert Last(names[1..]) == Last(names);
    }
  }

  /** Where a scan removes a leaf, no earlier name is "#" and the walk has used up all levels
      unless it stands on a "#". */
  lemma {:induction false} ScanStops(names: Path, keys: seq<string>)
    requires names != [] && keys != [] && ScanHits(names, keys)
    ensures HashLast(names)
    ensures EndsInHash(names) || |names| == |keys|
  {
    if |names| > 1 {
      ScanStops(names[1..], keys[1..]);
      forall i | 0 <= i < |names| - 1 ensures names[i] != "#" {
        if i > 0 {
          assert names[i] == names[1..][i - 1];
        }
      }
    }
  }
}

/** What the walks of the trie find, on the trie value, and that it is what the table says. */
module TrieSearch {
  import opened Topics
  import opened Matching
  import opened Table
  import opened TrieSpec
  import opened TrieLaws
  import opened Listing

  /** The names from the branch at q (its own name first) down to its descendant at x. */
  predicate Below(q: Path, x: Path) {
    q != [] && q <= x
  }

  function From(q: Path, x: Path): (names: Path)
    requires Below(q, x)
    ensures names != []
  {
    x[|q| - 1..]
  }

  predicate Searched(q: Path, keys: seq<string>, x: Path)
    requires keys != []
  {
    Below(q, x) && SearchHits(From(q, x), keys)
  }

  predicate Scanned(q: Path, keys: seq<string>, x: Path)
    requires keys != []
  {
    Below(q, x) && ScanHits(From(q, x), keys)
  }

  predicate Retained(q: Path, keys: seq<string>, x: Path)
    requires keys != []
  {
    Below(q, x) && RetainHits(From(q, x), keys)
  }

  /** Standing on q itself. */
  lemma AtSelf(q: Path, keys: seq<string>)
    requires q != [] && keys != []
    ensures Below(q, q) && From(q, q) == [Tip(q)]
    ensures Searched(q, keys, q) <==> Tip(q) == "#" || (|keys| == 1 && (Tip(q) == "+" || Tip(q) == keys[0]))
    ensures Scanned(q, keys, q) <==> Tip(q) == "#" || (|keys| == 1 && Tip(q) == keys[0])
    ensures Retained(q, keys, q) <==> keys[0] == "#" || (|keys| == 1 && (keys[0] == "+" || Tip(q) == keys[0]))
  {
    assert q[|q| - 1..] == [Tip(q)];
  }

  /** Which walks stop on q and which go further down. */
  lemma Deeper(q: Path, keys: seq<string>, x: Path)
    requires keys != [] && Below(q, x) && x != q
    ensures |keys| == 1 || Tip(q) == "#" || !(Tip(q) == "+" || Tip(q) == keys[0]) ==> !Searched(q, keys, x)
    ensures |keys| == 1 || Tip(q) == "#" || Tip(q) != keys[0] ==> !Scanned(q, keys, x)
    ensures keys[0] != "#" && (|keys| == 1 || !(keys[0] == "+" || Tip(q) == keys[0])) ==> !Retained(q, keys, x)
    ensures keys[0] == "#" ==> Retained(q, keys, x)
  {
    var names := From(q, x);
    assert names[0] == x[|q| - 1] == Tip(q);
    assert |names| > 1;
  }

  /** The child of q on the way to x. */
  function Toward(q: Path, x: Path): string
    requires q <= x && q != x
  {
    assert |q| < |x|;
    x[|q|]
  }

  /** Going one branch down uses up one name and one level. */
  lemma Descend(q: Path, keys: seq<string>, x: Path)
    requires Below(q, x) && x != q
    ensures var k := Toward(q, x);
            && Below(Snoc(q, k), x)
            && (|keys| > 1 ==>
                  && (Tip(q) != "#" ==>
                        && (Searched(q, keys, x) <==>
                              (Tip(q) == "+" || Tip(q) == keys[0]) && Searched(Snoc(q, k), keys[1..], x))
                        && (Scanned(q, keys, x) <==> Tip(q) == keys[0] && Scanned(Snoc(q, k), keys[1..], x)))
                  && (keys[0] != "#" ==>
                        (Retained(q, keys, x) <==>
                           (keys[0] == "+" || Tip(q) == keys[0]) && Retained(Snoc(q, k), keys[1..], x))))
  {
    var k := Toward(q, x);
    var names := From(q, x);
    assert q + [k] == x[..|q| + 1];
    assert names[0] == x[|q| - 1] == Tip(q);
    assert names[1..] == From(Snoc(q, k), x);
  }

  lemma BelowChild(q: Path, k: string, x: Path)
    requires Below(Snoc(q, k), x)
    ensures q <= x && q != x && Toward(q, x) == k
    ensures q != [] ==> Below(q, x)
  {
    assert q == (q + [k])[..|q|];
  }

  lemma ChildLinked(tree: Tree, q: Path, x: Path)
    requires PrefixClosed(tree) && x in tree && q <= x && x != q
    ensures Snoc(q, Toward(q, x)) in tree
  {
    assert x[..|q| + 1] == q + [Toward(q, x)];
  }

  lemma FromRoot(x: Path)
    requires x != []
    ensures Below([x[0]], x) && From([x[0]], x) == x
    ensures Toward([], x) == x[0] && Snoc([], x[0]) == [x[0]]
  {
    var q := [x[0]];
    assert q == x[..1];
    assert |q| == 1 && x[0..] == x;
    assert [] + q == q;
  }

  /** The only branch that a scan for f can take a leaf of f from is f's own. */
  lemma ScanFinds(tree: Tree, f: string, x: Path)
    requires AllPlaced(tree) && Wild(f) && x in tree && x != [] && f in tree[x]
    ensures !Blank(f)
    ensures ScanHits(x, Levels(f)) <==> x == SubPath(f) && Scannable(f)
  {
    hide Split, TrimSpace, ScanHits;
    WildHasLevels(f);
    WildPathShape(f);
    ScanReaches(Levels(f));
    assert Placed(f, x, tree[x][f]);
    if ScanHits(x, Levels(f)) {
      ScanStops(x, Levels(f));
      var p := SubPath(f);
    }
  }

  /** A scan from q for this topic takes the leaf on `home`. */
  ghost predicate ScanFound(tree: Tree, q: Path, keys: seq<string>, topic: string, home: Path)
    requires keys != []
  {
    home in tree && topic in tree[home] && Scanned(q, keys, home)
  }

  lemma SnocLength(p: Path, k: string)
    ensures |Snoc(p, k)| == |p| + 1 && Snoc(p, k) != []
  {
  }

  /** What one call of ScanRemoveLeaf does, by the branch it takes. */
  lemma ScanOutcome(tree: Tree, q: Path, keys: seq<string>, topic: string, id: string, home: Path)
    requires q in tree && q != [] && keys != []
    requires forall x | x in tree && Scanned(q, keys, x) && topic in tree[x] :: x == home
    ensures Tip(q) == "#" || (|keys| == 1 && Tip(q) == keys[0]) ==>
              && (ScanFound(tree, q, keys, topic, home) <==> topic in tree[q])
              && (topic in tree[q] ==>
                    Clean(tree[q := DropSub(tree[q], topic, id)], q) == UnsubscribeTree(tree, home, topic, id, |q|))
    ensures Tip(q) != "#" && Tip(q) != keys[0] ==> !ScanFound(tree, q, keys, topic, home)
    ensures ScanFound(tree, q, keys, topic, home) && home != q ==>
              Clean(UnsubscribeTree(tree, home, topic, id, |q| + 1), q) == UnsubscribeTree(tree, home, topic, id, |q|)
  {
    AtSelf(q, keys);
    if ScanFound(tree, q, keys, topic, home) && home != q {
      Deeper(q, keys, home);
      assert home[..|q|] == q;
      PruneStep(tree[home := DropSub(LeavesAt(tree, home), topic, id)], home, |q|);
    }
    var t := tree[q := DropSub(tree[q], topic, id)];
    assert Prune(Clean(t, q), Parent(q), |q|) == Clean(t, q);
  }

  /** A scan that goes on to the children finds the leaf through exactly one of them. */
  lemma ScanVia(tree: Tree, q: Path, keys: seq<string>, topic: string, home: Path)
    requires q != [] && |keys| > 1 && Tip(q) == keys[0] && Tip(q) != "#" && PrefixClosed(tree)
    ensures forall k, x :: Scanned(Snoc(q, k), keys[1..], x) ==> Scanned(q, keys, x)
    ensures forall k :: ScanFound(tree, Snoc(q, k), keys[1..], topic, home) ==>
        ScanFound(tree, q, keys, topic, home) && home != q
    ensures ScanFound(tree, q, keys, topic, home) ==>
              && q <= home && home != q
              && Snoc(q, Toward(q, home)) in tree
              && ScanFound(tree, Snoc(q, Toward(q, home)), keys[1..], topic, home)
  {
    forall k, x | Scanned(Snoc(q, k), keys[1..], x)
      ensures Scanned(q, keys, x) && x != q
    {
      BelowChild(q, k, x);
      Descend(q, keys, x);
    }
    if ScanFound(tree, q, keys, topic, home) {
      AtSelf(q, keys);
      Descend(q, keys, home);
      ChildLinked(tree, q, home);
    }
  }

  lemma PruneKeepsShort(tree: Tree, p: Path, topic: string, id: string, x: Path)
    requires x in tree && p in tree
    ensures x in UnsubscribeTree(tree, p, topic, id, |x| + 1)
  {
    ShortStays(tree[p := DropSub(LeavesAt(tree, p), topic, id)], p, x);
  }

  lemma {:induction false} ShortStays(tree: Tree, p: Path, x: Path)
    requires x in tree
    ensures x in Prune(tree, p, |x| + 1)
    decreases |p|
  {
    if |p| > |x| {
      ShortStays(Clean(tree, p), Parent(p), x);
    }
  }

  // ---------------------------------------------------------------- leaves that answer a topic

  /** The search from q finds a leaf with this key on x. */
  ghost predicate LeafFound(tree: Tree, q: Path, keys: seq<string>, x: Path, key: string)
    requires keys != []
  {
    x in tree && key in tree[x] && Searched(q, keys, x)
  }

  lemma SearchOutcome(tree: Tree, q: Path, keys: seq<string>)
    requires q in tree && q != [] && keys != []
    ensures Tip(q) == "#" || (|keys| == 1 && (Tip(q) == "+" || Tip(q) == keys[0])) ==>
              forall x, f :: LeafFound(tree, q, keys, x, f) <==> x == q && f in tree[q]
    ensures Tip(q) != "#" && !(Tip(q) == "+" || Tip(q) == keys[0]) ==>
              forall x, f :: !LeafFound(tree, q, keys, x, f)
  {
    AtSelf(q, keys);
    forall x | Searched(q, keys, x) && x != q
      ensures !(Tip(q) == "#" || |keys| == 1 || !(Tip(q) == "+" || Tip(q) == keys[0]))
    {
      Deeper(q, keys, x);
    }
  }

  lemma SearchVia(tree: Tree, q: Path, keys: seq<string>)
    requires q != [] && |keys| > 1 && Tip(q) != "#" && (Tip(q) == "+" || Tip(q) == keys[0]) && PrefixClosed(tree)
    ensures forall k, x, f :: LeafFound(tree, Snoc(q, k), keys[1..], x, f) ==> LeafFound(tree, q, keys, x, f)
    ensures forall x, f :: LeafFound(tree, q, keys, x, f) ==>
              && q <= x && q != x && Snoc(q, Toward(q, x)) in tree
              && LeafFound(tree, Snoc(q, Toward(q, x)), keys[1..], x, f)
  {
    forall k, x | Searched(Snoc(q, k), keys[1..], x) ensures Searched(q, keys, x) {
      BelowChild(q, k, x);
      Descend(q, keys, x);
    }
    forall x | x in tree && Searched(q, keys, x)
      ensures q <= x && q != x && Snoc(q, Toward(q, x)) in tree && Searched(Snoc(q, Toward(q, x)), keys[1..], x)
    {
      AtSelf(q, keys);
      Descend(q, keys, x);
      ChildLinked(tree, q, x);
    }
  }

  // ---------------------------------------------------------------- retained messages

  /** The messages retained on these branches, by branch and topic. */
  ghost function KeptOn(tree: Tree, paths: set<Path>): map<(Path, string), Message> {
    map x, f | x in paths && x in tree && f in tree[x] && tree[x][f].retain.Some? :: (x, f) := tree[x][f].retain.value
  }

  ghost function OwnKept(ls: Leaves, q: Path, topics: set<string>): map<(Path, string), Message> {
    map f | f in topics && f in ls && ls[f].retain.Some? :: (q, f) := ls[f].retain.value
  }

  ghost function Under(tree: Tree, q: Path): set<Path> {
    set x | x in tree && Below(q, x)
  }

  ghost function RetainedUnder(tree: Tree, q: Path, keys: seq<string>): set<Path>
    requires keys != []
  {
    set x | x in tree && Retained(q, keys, x)
  }

  /** Those reached through the named children of q. */
  ghost function Via(paths: set<Path>, q: Path, names: set<string>): set<Path> {
    set x | x in paths && q <= x && x != q && Toward(q, x) in names
  }

  lemma KeptOnBoth(tree: Tree, a: set<Path>, b: set<Path>)
    requires a !! b
    ensures KeptOn(tree, a + b) == KeptOn(tree, a) + KeptOn(tree, b)
    ensures KeptOn(tree, a).Keys !! KeptOn(tree, b).Keys
  {
  }

  lemma OwnKeptAll(tree: Tree, q: Path)
    requires q in tree
    ensures OwnKept(tree[q], q, tree[q].Keys) == KeptOn(tree, {q})
  {
  }

  lemma OwnKeptNone(ls: Leaves, q: Path)
    ensures OwnKept(ls, q, {}) == map[]
  {
  }

  lemma OwnKeptMore(ls: Leaves, q: Path, topics: set<string>, f: string)
    requires f in ls && f !in topics
    ensures var m := OwnKept(ls, q, topics);
            && (q, f) !in m
            && OwnKept(ls, q, topics + {f}) == if ls[f].retain.Some? then m[(q, f) := ls[f].retain.value] else m
  {
  }

  lemma ViaMore(paths: set<Path>, q: Path, names: set<string>, k: string)
    requires k !in names
    ensures Via(paths, q, names + {k}) == Via(paths, q, names) + Via(paths, q, {k})
    ensures Via(paths, q, names) !! Via(paths, q, {k})
    ensures q !in Via(paths, q, names) && q !in Via(paths, q, {k})
  {
  }

  lemma UnderVia(tree: Tree, q: Path, k: string)
    requires q != []
    ensures Under(tree, Snoc(q, k)) == Via(Under(tree, q), q, {k})
  {
    forall x | x in Under(tree, Snoc(q, k)) ensures x in Via(Under(tree, q), q, {k}) {
      BelowChild(q, k, x);
    }
    forall x | x in Via(Under(tree, q), q, {k}) ensures x in Under(tree, Snoc(q, k)) {
      Descend(q, [""], x);
    }
  }

  lemma UnderAll(tree: Tree, q: Path, names: set<string>)
    requires q in tree && q != [] && PrefixClosed(tree)
    requires forall k :: k in names <==> Snoc(q, k) in tree
    ensures Under(tree, q) == {q} + Via(Under(tree, q), q, names)
  {
    forall x | x in Under(tree, q) && x != q ensures x in Via(Under(tree, q), q, names) {
      ChildLinked(tree, q, x);
    }
  }

  lemma RetainedVia(tree: Tree, q: Path, keys: seq<string>, k: string)
    requires q != [] && |keys| > 1 && keys[0] != "#" && (keys[0] == "+" || Tip(q) == keys[0])
    ensures RetainedUnder(tree, Snoc(q, k), keys[1..]) == Via(RetainedUnder(tree, q, keys), q, {k})
  {
    forall x | x in RetainedUnder(tree, Snoc(q, k), keys[1..]) ensures x in Via(RetainedUnder(tree, q, keys), q, {k}) {
      BelowChild(q, k, x);
      Descend(q, keys, x);
    }
    forall x | x in Via(RetainedUnder(tree, q, keys), q, {k}) ensures x in RetainedUnder(tree, Snoc(q, k), keys[1..]) {
      Descend(q, keys, x);
    }
  }

  lemma UnderShrinks(tree: Tree, q: Path, k: string)
    requires q in tree && q != []
    ensures Under(tree, Snoc(q, k)) < Under(tree, q)
  {
    UnderVia(tree, q, k);
    assert q in Under(tree, q) && q !in Via(Under(tree, q), q, {k});
  }

  lemma NoneVia(paths: set<Path>, q: Path)
    ensures Via(paths, q, {}) == {}
    ensures {q} + Via(paths, q, {}) == {q}
    ensures {} + Via(paths, q, {}) == {}
  {
  }

  lemma ListsNone(tree: Tree)
    ensures Lists<(Path, string), Message>([], [], KeptOn(tree, {}))
  {
  }

  /** One more child: its list goes behind the list so far. */
  lemma ListsVia(tree: Tree, paths: set<Path>, q: Path, done: set<string>, k: string, retains: seq<Message>,
                 from: seq<(Path, string)>, more: seq<Message>, moreFrom: seq<(Path, string)>, own: set<Path>)
    requires own <= {q} && k !in done
    requires Lists(retains, from, KeptOn(tree, own + Via(paths, q, done)))
    requires Lists(more, moreFrom, KeptOn(tree, Via(paths, q, {k})))
    ensures Lists(retains + more, from + moreFrom, KeptOn(tree, own + Via(paths, q, done + {k})))
  {
    hide KeptOn, Lists;
    var a, b := own + Via(paths, q, done), Via(paths, q, {k});
    ViaMore(paths, q, done, k);
    assert a + b == own + Via(paths, q, done + {k});
    KeptOnBoth(tree, a, b);
    ListsBoth(retains, from, KeptOn(tree, a), more, moreFrom, KeptOn(tree, b));
  }

  /** What one call of SearchRetain covers, by the branch it takes. */
  lemma RetainOutcome(tree: Tree, q: Path, keys: seq<string>, names: set<string>)
    requires q in tree && q != [] && keys != [] && PrefixClosed(tree)
    requires forall k :: k in names <==> Snoc(q, k) in tree
    ensures keys[0] == "#" ==> RetainedUnder(tree, q, keys) == Under(tree, q)
    ensures keys[0] != "#" && |keys| == 1 && (keys[0] == "+" || Tip(q) == keys[0]) ==>
              RetainedUnder(tree, q, keys) == {q}
    ensures keys[0] != "#" && !(keys[0] == "+" || Tip(q) == keys[0]) ==> RetainedUnder(tree, q, keys) == {}
    ensures keys[0] != "#" && |keys| > 1 ==> RetainedUnder(tree, q, keys) == Via(RetainedUnder(tree, q, keys), q, names)
  {
    AtSelf(q, keys);
    forall x | x in tree && Below(q, x) && x != q
      ensures keys[0] == "#" ==> Retained(q, keys, x)
      ensures keys[0] != "#" && (|keys| == 1 || !(keys[0] == "+" || Tip(q) == keys[0])) ==> !Retained(q, keys, x)
      ensures Toward(q, x) in names
    {
      Deeper(q, keys, x);
      ChildLinked(tree, q, x);
    }
  }

  /** The one branch that RemoveRetain looks at: the levels, untrimmed, are its path. */
  function Target(q: Path, keys: seq<string>): Path {
    Up(q) + keys
  }

  ghost predicate KeptThere(tree: Tree, q: Path, keys: seq<string>)
    requires keys != []
  {
    && Tip(q) == keys[0] && Target(q, keys) in tree
    && exists f :: f in tree[Target(q, keys)] && tree[Target(q, keys)][f].retain.Some?
  }

  lemma TargetVia(tree: Tree, q: Path, keys: seq<string>, names: set<string>)
    requires q in tree && q != [] && keys != [] && Tip(q) == keys[0] && PrefixClosed(tree)
    requires forall k :: k in names <==> Snoc(q, k) in tree
    ensures |keys| == 1 ==> Target(q, keys) == q
    ensures |keys| > 1 ==>
              && (forall k :: KeptThere(tree, Snoc(q, k), keys[1..]) ==>
                  Target(Snoc(q, k), keys[1..]) == Target(q, keys))
              && (KeptThere(tree, q, keys) <==> exists k :: k in names && KeptThere(tree, Snoc(q, k), keys[1..]))
  {
    assert q == Up(q) + [Tip(q)];
    if |keys| > 1 {
      assert keys == [keys[0]] + keys[1..];
      forall k ensures Target(Snoc(q, k), keys[1..]) == Target(q, keys) {
        assert Up(Snoc(q, k)) == q;
        assert q + keys[1..] == Up(q) + keys;
      }
      if KeptThere(tree, q, keys) {
        var x := Target(q, keys);
        assert x[..|q| + 1] == Snoc(q, keys[1]);
        assert KeptThere(tree, Snoc(q, keys[1]), keys[1..]);
      }
    } else {
      assert keys == [keys[0]];
    }
  }

  // ---------------------------------------------------------------- from the root

  lemma RootScan(tree: Tree, f: string)
    requires AllPlaced(tree) && Wild(f)
    ensures SubPath(f) != [] && Levels(f) != []
    ensures forall k, x | x in tree && f in tree[x] && Scanned(Snoc([], k), Levels(f), x) :: x == SubPath(f)
    ensures forall k :: ScanFound(tree, Snoc([], k), Levels(f), f, SubPath(f)) <==>
                        f in LeavesAt(tree, SubPath(f)) && Scannable(f) && SubPath(f)[0] == k
  {
    hide Scannable;
    WildPathShape(f);
    WildHasLevels(f);
    var p := SubPath(f);
    forall k, x | x in tree && f in tree[x] && x != []
      ensures Scanned(Snoc([], k), Levels(f), x) <==> x == p && Scannable(f) && x[0] == k
    {
      FromRoot(x);
      ScanFinds(tree, f, x);
      assert Below(Snoc([], k), x) ==> x[0] == k;
      if x[0] == k {
        assert Snoc([], k) == [x[0]];
      }
    }
  }

  /** The pairs a search from the root branch named k finds. */
  ghost function AnswersVia(t: Table, topic: string, names: set<string>): map<Pair, Client>
    requires !Blank(topic)
  {
    map pr | pr in t.Answers(topic) && Wild(pr.0) && SubPath(pr.0) != [] && SubPath(pr.0)[0] in names
      :: t.Answers(topic)[pr]
  }

  ghost function AnswersPlain(t: Table, topic: string): map<Pair, Client>
    requires !Blank(topic)
  {
    map pr | pr in t.Answers(topic) && !Wild(pr.0) :: t.Answers(topic)[pr]
  }

  lemma PlainAnswers(s: State, t: Table, topic: string, pr: Pair)
    requires WF(s, t) && !Blank(topic) && !Wild(topic)
    ensures pr in AnswersPlain(t, topic) <==> pr.0 == topic && topic in s.foliage && pr.1 in s.foliage[topic].subs
    ensures pr in AnswersPlain(t, topic) ==> AnswersPlain(t, topic)[pr] == s.foliage[topic].subs[pr.1]
  {
    hide SubPath, KeepPath, WellBuilt, Blank, SearchHits;
    if !Wild(pr.0) {
      assert pr in t.live <==> pr.1 in Holders(s, pr.0);
    }
  }

  lemma PlacedAt(tree: Tree, x: Path, f: string)
    requires WellBuilt(tree) && x in tree && f in tree[x]
    ensures Placed(f, x, tree[x][f])
  {
    hide Placed;
  }

  /** A pair that has a leaf on a branch found by the search is an answer, and every answer of a
      wildcard filter has such a leaf, below the root branch its path begins with. */
  lemma AnswerLeaf(s: State, t: Table, topic: string, pr: Pair, x: Path)
    requires WF(s, t) && !Blank(topic) && !Wild(topic)
    requires x in s.tree && x != [] && pr.0 in s.tree[x] && pr.1 in s.tree[x][pr.0].subs && SearchHits(x, Levels(topic))
    ensures pr in AnswersVia(t, topic, {x[0]})
    ensures AnswersVia(t, topic, {x[0]})[pr] == s.tree[x][pr.0].subs[pr.1]
  {
    hide SubPath, KeepPath, Blank, SearchHits, WellBuilt, Table.Ok, Matches;
    var f := pr.0;
    PlacedAt(s.tree, x, f);
    WildPathShape(f);
    assert pr in t.live <==> pr.1 in Holders(s, f);
    assert pr in t.copies <==> pr.1 in Copied(s, f);
    t.AnsweredOnce(pr, topic);
  }

  lemma AnswerHasLeaf(s: State, t: Table, topic: string, pr: Pair, k: string) returns (x: Path)
    requires WF(s, t) && !Blank(topic) && !Wild(topic) && pr in AnswersVia(t, topic, {k})
    ensures x in s.tree && x != [] && x[0] == k && pr.0 in s.tree[x] && pr.1 in s.tree[x][pr.0].subs
    ensures SearchHits(x, Levels(topic))
  {
    hide SubPath, KeepPath, Blank, SearchHits, WellBuilt;
    var f := pr.0;
    assert pr in t.live <==> pr.1 in Holders(s, f);
    assert pr in t.copies <==> pr.1 in Copied(s, f);
    x := if pr in t.live && LiveHit(f, topic) then SubPath(f) else Parent(SubPath(f));
  }

  lemma RootLinked(tree: Tree, x: Path)
    requires PrefixClosed(tree) && x != []
    ensures x in tree ==> Snoc([], x[0]) in tree
  {
    FromRoot(x);
    if x in tree {
      ChildLinked(tree, [], x);
    }
  }

  /** The branch that the untrimmed levels of a topic lead to holds the messages of the topics
      whose own path, trimmed, is that branch. */
  lemma RootTarget(s: State, t: Table, topic: string)
    requires WF(s, t) && !Blank(topic)
    ensures forall k :: KeptThere(s.tree, Snoc([], k), Levels(topic)) ==>
                        && Target(Snoc([], k), Levels(topic)) == Levels(topic)
                        && exists f :: Cleared(t, topic, f)
    ensures (exists f :: Cleared(t, topic, f)) ==>
              && Snoc([], Levels(topic)[0]) in s.tree
              && KeptThere(s.tree, Snoc([], Levels(topic)[0]), Levels(topic))
  {
    hide KeepPath, Levels, SubPath;
    var ks := Levels(topic);
    forall k ensures Target(Snoc([], k), ks) == ks {
      assert Up(Snoc([], k)) == [];
      assert [] + ks == ks;
    }
    forall f | ks in s.tree && f in s.tree[ks] && s.tree[ks][f].retain.Some? ensures Cleared(t, topic, f) {
      KeptHere(s, ks, f);
      assert f in t.retained <==> Kept(s, f).Some?;
    }
    forall f | Cleared(t, topic, f)
      ensures ks in s.tree && f in s.tree[ks] && s.tree[ks][f].retain.Some?
    {
      assert f in t.retained <==> Kept(s, f).Some?;
    }
    RootLinked(s.tree, ks);
  }

  lemma WellBuiltParts(s: State, t: Table)
    requires WF(s, t)
    ensures PrefixClosed(s.tree) && AllPlaced(s.tree) && NoEmptyBranch(s.tree)
  {
  }

  /** All branches whose retained messages a filter with these levels asks for. */
  ghost function RetainHitsAll(tree: Tree, keys: seq<string>): set<Path>
    requires keys != []
  {
    set x | x in tree && x != [] && RetainHits(x, keys)
  }

  lemma RootRetained(tree: Tree, keys: seq<string>, k: string)
    requires keys != []
    ensures RetainedUnder(tree, Snoc([], k), keys) == Via(RetainHitsAll(tree, keys), [], {k})
  {
    forall x | x in tree && x != []
      ensures Retained(Snoc([], k), keys, x) <==> RetainHits(x, keys) && Toward([], x) == k
    {
      FromRoot(x);
      assert Below(Snoc([], k), x) ==> x[0] == k;
    }
  }

  /** Everything that a walk over the named root branches returns for this filter. */
  ghost function KeptFrom(tree: Tree, keys: seq<string>, names: set<string>): map<(Path, string), Message>
    requires keys != []
  {
    KeptOn(tree, {} + Via(RetainHitsAll(tree, keys), [], names))
  }

  lemma KeptFromMeans(s: State, t: Table, topic: string, names: set<string>, x: Path, f: string)
    requires WF(s, t) && !Blank(topic)
    requires forall k :: k in names <==> Snoc([], k) in s.tree
    ensures (x, f) in KeptFrom(s.tree, Levels(topic), names) <==> x == KeepPath(f) && f in t.RetainAnswers(topic)
    ensures (x, f) in KeptFrom(s.tree, Levels(topic), names) ==>
              KeptFrom(s.tree, Levels(topic), names)[(x, f)] == t.RetainAnswers(topic)[f]
  {
    hide Levels, SubPath, KeepPath, WellBuilt;
    assert f in t.retained <==> Kept(s, f).Some?;
    WellBuiltParts(s, t);
    if x in s.tree && f in s.tree[x] && s.tree[x][f].retain.Some? {
      KeptHere(s, x, f);
      FromRoot(x);
      RootLinked(s.tree, x);
    }
  }

  /** A topic is retained on one branch only, so the list by branch is a list by topic. */
  lemma RetainsByTopic(s: State, t: Table, topic: string, retains: seq<Message>, from: seq<(Path, string)>,
                       names: set<string>) returns (topics: seq<string>)
    requires WF(s, t) && !Blank(topic)
    requires forall k :: k in names <==> Snoc([], k) in s.tree
    requires Lists(retains, from, KeptOn(s.tree, {} + Via(RetainHitsAll(s.tree, Levels(topic)), [], names)))
    ensures Lists(retains, topics, t.RetainAnswers(topic))
  {
    hide Levels, SubPath, KeepPath, WF, KeptOn, Via;
    topics := seq(|from|, i requires 0 <= i < |from| => from[i].1);
    var m := KeptFrom(s.tree, Levels(topic), names);
    forall i | 0 <= i < |from|
      ensures from[i] == (KeepPath(topics[i]), topics[i])
      ensures topics[i] in t.RetainAnswers(topic) && retains[i] == t.RetainAnswers(topic)[topics[i]]
    {
      KeptFromMeans(s, t, topic, names, from[i].0, from[i].1);
    }
    forall f | f in t.RetainAnswers(topic) ensures f in topics {
      KeptFromMeans(s, t, topic, names, KeepPath(f), f);
      var i :| 0 <= i < |from| && from[i] == (KeepPath(f), f);
      assert topics[i] == f;
    }
  }

  lemma NoAnswers(t: Table, topic: string)
    requires !Blank(topic)
    ensures Wild(topic) ==> t.Answers(topic) == map[]
  {
  }

  /** Entries of one leaf, as pairs of its filter. */
  ghost function PairsOf(f: string, subs: map<string, Client>, ids: set<string>): map<Pair, Client> {
    map id | id in ids && id in subs :: (f, id) := subs[id]
  }

  ghost function SubsOf(leaves: map<string, map<string, Client>>, filters: set<string>): map<Pair, Client> {
    map f, id | f in filters && f in leaves && id in leaves[f] :: (f, id) := leaves[f][id]
  }

  lemma NoPairs(f: string, subs: map<string, Client>)
    ensures PairsOf(f, subs, {}) == map[]
  {
  }

  lemma PairsOfMore(f: string, subs: map<string, Client>, names: set<string>, id: string)
    requires id in subs && id !in names
    ensures var m := PairsOf(f, subs, names);
            (f, id) !in m && PairsOf(f, subs, names + {id}) == m[(f, id) := subs[id]]
  {
  }

  lemma SubsOfMore(leaves: map<string, map<string, Client>>, names: set<string>, f: string)
    requires f in leaves && f !in names
    ensures SubsOf(leaves, names + {f}) == SubsOf(leaves, names) + PairsOf(f, leaves[f], leaves[f].Keys)
    ensures SubsOf(leaves, names).Keys !! PairsOf(f, leaves[f], leaves[f].Keys).Keys
  {
    hide SubsOf;
    var a, b, c := SubsOf(leaves, names + {f}), SubsOf(leaves, names), PairsOf(f, leaves[f], leaves[f].Keys);
    forall pr: Pair
      ensures pr in a <==> pr in b + c
      ensures !(pr in b && pr in c)
      ensures pr in a ==> a[pr] == (b + c)[pr]
    {
      SubsOfAt(leaves, names + {f}, pr);
      SubsOfAt(leaves, names, pr);
      assert pr == (pr.0, pr.1);
    }
  }

  lemma SubsOfAt(leaves: map<string, map<string, Client>>, names: set<string>, pr: Pair)
    ensures pr in SubsOf(leaves, names) <==> pr.0 in names && pr.0 in leaves && pr.1 in leaves[pr.0]
    ensures pr in SubsOf(leaves, names) ==> SubsOf(leaves, names)[pr] == leaves[pr.0][pr.1]
  {
    assert pr == (pr.0, pr.1);
  }

  lemma PlainAnswersAll(s: State, t: Table, topic: string)
    requires WF(s, t) && !Blank(topic) && !Wild(topic)
    ensures AnswersPlain(t, topic) ==
        if topic in s.foliage then PairsOf(topic, s.foliage[topic].subs, s.foliage[topic].subs.Keys) else map[]
  {
    hide WF, Blank, Wild, AnswersPlain;
    forall pr: Pair
      ensures pr in AnswersPlain(t, topic) <==> pr.0 == topic && topic in s.foliage && pr.1 in s.foliage[topic].subs
      ensures pr in AnswersPlain(t, topic) ==> AnswersPlain(t, topic)[pr] == s.foliage[topic].subs[pr.1]
    {
      PlainAnswers(s, t, topic, pr);
    }
  }

  lemma AnswersMore(t: Table, topic: string, names: set<string>, k: string)
    requires !Blank(topic) && k !in names
    ensures AnswersVia(t, topic, names) + AnswersVia(t, topic, {k}) == AnswersVia(t, topic, names + {k})
    ensures AnswersVia(t, topic, names).Keys !! AnswersVia(t, topic, {k}).Keys
  {
    hide SubPath, Blank, Wild;
  }

  lemma NoneVia0(t: Table, topic: string)
    requires !Blank(topic)
    ensures AnswersVia(t, topic, {}) == map[]
  {
    hide SubPath, Blank, Wild;
  }

  lemma AllAnswers(s: State, t: Table, topic: string, names: set<string>)
    requires WF(s, t) && !Blank(topic) && !Wild(topic)
    requires forall k :: k in names <==> Snoc([], k) in s.tree
    ensures AnswersPlain(t, topic) + AnswersVia(t, topic, names) == t.Answers(topic)
    ensures AnswersPlain(t, topic).Keys !! AnswersVia(t, topic, names).Keys
  {
    hide SubPath, Blank, WF;
    forall pr | pr in t.Answers(topic) && Wild(pr.0)
      ensures SubPath(pr.0) != [] && SubPath(pr.0)[0] in names
    {
      WildPathShape(pr.0);
      var x := AnswerHasLeaf(s, t, topic, pr, SubPath(pr.0)[0]);
      WellBuiltParts(s, t);
      RootLinked(s.tree, x);
    }
  }

  lemma SubsOfNone(leaves: map<string, map<string, Client>>)
    ensures SubsOf(leaves, {}) == map[]
  {
  }

  lemma UnderRoot(k: string, x: Path)
    requires Below(Snoc([], k), x)
    ensures x != [] && x[0] == k && From(Snoc([], k), x) == x
  {
    assert Snoc([], k) == [k];
    assert x[0..] == x;
  }

  lemma FoundAtRoot(tree: Tree, k: string, keys: seq<string>, x: Path, f: string)
    requires keys != []
    ensures LeafFound(tree, Snoc([], k), keys, x, f) <==>
            x in tree && f in tree[x] && x != [] && x[0] == k && SearchHits(x, keys)
  {
    if x != [] {
      FromRoot(x);
    }
    if Below(Snoc([], k), x) {
      UnderRoot(k, x);
    }
  }

  /** A search finds at most one branch that has subscribers of a filter. */
  lemma OneLeafFound(s: State, t: Table, topic: string, pr: Pair, k: string, x: Path, y: Path)
    requires WF(s, t) && !Blank(topic) && !Wild(topic)
    requires LeafFound(s.tree, Snoc([], k), Levels(topic), x, pr.0) && pr.1 in s.tree[x][pr.0].subs
    requires LeafFound(s.tree, Snoc([], k), Levels(topic), y, pr.0)
    ensures x == y
  {
    hide SubPath, KeepPath, Blank, SearchHits, Wild;
    var f := pr.0;
    UnderRoot(k, x);
    UnderRoot(k, y);
    assert Placed(f, x, s.tree[x][f]);
    assert Placed(f, y, s.tree[y][f]);
    WildPathShape(f);
    t.AnsweredOnce(pr, topic);
    if y == KeepPath(f) {
      KeepNotFound(f, topic);
    }
  }

  /** A leaf that only keeps a message stands off the branch of the filter only below a "#". */
  lemma KeepNotFound(f: string, topic: string)
    requires Wild(f) && !Blank(topic) && KeepPath(f) != [] && SearchHits(KeepPath(f), Levels(topic))
    ensures SubPath(f) == KeepPath(f) && SubPath(f) != []
  {
    hide Levels, SubPath, KeepPath;
    WildPathShape(f);
    HitEndsAtHash(KeepPath(f), Levels(topic));
    var p, q := SubPath(f), KeepPath(f);
    assert EndsInHash(p) ==> q[|p| - 1] == "#";
  }

  lemma {:induction false} HitEndsAtHash(names: Path, keys: seq<string>)
    requires names != [] && keys != [] && SearchHits(names, keys)
    ensures HashLast(names)
  {
    if |names| > 1 {
      HitEndsAtHash(names[1..], keys[1..]);
      forall i | 0 <= i < |names| - 1 ensures names[i] != "#" {
        if i > 0 {
          assert names[i] == names[1..][i - 1];
        }
      }
    }
  }
}

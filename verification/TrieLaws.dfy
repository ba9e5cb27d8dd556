/** Each operation on the trie value keeps its invariant and does to the table exactly what the
    table's own operation does. */
module TrieLaws {
  import opened Topics
  import opened Table
  import opened TrieSpec

  ghost predicate NoEmptyExcept(tree: Tree, x: Path) {
    forall p | p != x :: Fruitful(tree, p)
  }

  ghost predicate SameLeaves(a: Tree, b: Tree) {
    forall p :: LeavesAt(a, p) == LeavesAt(b, p)
  }

  /** A tree in which only x may be an empty branch. */
  ghost predicate Sound(tree: Tree, x: Path) {
    PrefixClosed(tree) && AllPlaced(tree) && NoEmptyExcept(tree, x) && x in tree
  }

  lemma WithBranchKeeps(tree: Tree, q: Path, k: string)
    requires Sound(tree, q)
    ensures var t := WithBranch(tree, q + [k]); Sound(t, q + [k]) && SameLeaves(t, tree)
  {
    var c := q + [k];
    var t := WithBranch(tree, c);
    forall p: Path, n: nat | p in t && n <= |p| ensures p[..n] in t {
      if p == c {
        assert n <= |q| ==> c[..n] == q[..n];
        assert n > |q| ==> c[..n] == c;
      }
    }
    forall p | p != c ensures Fruitful(t, p) {
      if p == q {
        assert Snoc(q, k) in t;
      } else if p in tree && p != [] {
        assert Fruitful(tree, p);
        if HasChild(tree, p) {
          var j :| Snoc(p, j) in tree;
          assert Snoc(p, j) in t;
        }
      }
    }
  }

  lemma {:induction false} GrowKeeps(tree: Tree, q: Path, names: Path)
    requires Sound(tree, q)
    ensures var t := Grow(tree, q, names); Sound(t, q + names) && SameLeaves(t, tree)
    decreases |names|
  {
    if names == [] {
      assert q + names == q;
    } else {
      WithBranchKeeps(tree, q, names[0]);
      GrowKeeps(WithBranch(tree, q + [names[0]]), q + [names[0]], names[1..]);
      assert q + [names[0]] + names[1..] == q + names;
    }
  }

  /** New leaves on one branch: the branch must not lose its last leaf. */
  lemma SetKeeps(tree: Tree, x: Path, p: Path, ls: Leaves)
    requires Sound(tree, x) && p in tree
    requires forall key | key in ls :: Placed(key, p, ls[key])
    ensures ls != map[] ==> Sound(tree[p := ls], x)
    ensures ls != map[] && p == x ==> NoEmptyBranch(tree[p := ls])
    ensures p == x ==> Sound(tree[p := ls], x)
  {
    var t := tree[p := ls];
    assert t.Keys == tree.Keys;
    forall y ensures y != x || (ls != map[] && p == x) ==> (ls != map[] || p == x ==> Fruitful(t, y)) {
      assert y != x ==> Fruitful(tree, y);
      if HasChild(tree, y) {
        var j :| Snoc(y, j) in tree;
        assert Snoc(y, j) in t;
      }
    }
  }

  lemma CleanClosed(tree: Tree, p: Path)
    requires PrefixClosed(tree) && p in tree && p != [] && !HasChild(tree, p)
    ensures PrefixClosed(tree - {p})
  {
    var t := tree - {p};
    forall q: Path, n: nat | q in t && n <= |q| ensures q[..n] in t {
      if n < |q| {
        assert q[..n + 1] == Snoc(q[..n], q[n]);
        assert q[..n + 1] in tree;
      } else {
        assert q[..n] == q;
      }
    }
  }

  lemma CleanKeeps(tree: Tree, p: Path)
    requires Sound(tree, p) && p != []
    ensures Sound(Clean(tree, p), Parent(p)) && SameLeaves(Clean(tree, p), tree)
  {
    var t := Clean(tree, p);
    assert p[..|p| - 1] in tree;
    if t != tree {
      CleanClosed(tree, p);
      forall y | y != Parent(p) ensures Fruitful(t, y) {
        if y in t && y != [] {
          assert Fruitful(tree, y);
          if HasChild(tree, y) {
            var j :| Snoc(y, j) in tree;
            assert Parent(Snoc(y, j)) == y;
            assert Snoc(y, j) in t;
          }
        }
      }
    }
  }

  lemma {:induction false} PruneKeeps(tree: Tree, p: Path, n: nat)
    requires Sound(tree, p)
    ensures var t := Prune(tree, p, n);
            PrefixClosed(t) && AllPlaced(t) && SameLeaves(t, tree) && (n <= 1 ==> NoEmptyBranch(t))
    decreases |p|
  {
    if |p| < n || p == [] {
      assert n <= 1 ==> p == [];
    } else {
      CleanKeeps(tree, p);
      PruneKeeps(Clean(tree, p), Parent(p), n);
    }
  }

  /** One more level of CheckClean on top of a pruned tree. */
  lemma {:induction false} PruneStep(tree: Tree, p: Path, n: nat)
    requires 0 < n < |p|
    ensures Prune(tree, p, n) == Clean(Prune(tree, p, n + 1), p[..n])
    decreases |p|
  {
    var t := Clean(tree, p);
    var q := Parent(p);
    assert q[..n] == p[..n];
    if n < |q| {
      PruneStep(t, q, n);
    } else {
      assert q == p[..n];
      assert Prune(t, q, n + 1) == t;
      assert Prune(t, q, n) == Prune(Clean(t, q), Parent(q), n) == Clean(t, q);
    }
  }

  // ---------------------------------------------------------------- operations

  ghost function SubscribeState(s: State, f: string, id: string, c: Client): State {
    if Wild(f) then
      WildPathShape(f);
      State(if f in s.foliage then s.foliage else s.foliage[f := LeafVal(map[], None)],
            SubscribeTree(s.tree, [], SubPath(f), f, id, c))
    else State(PutLeaf(s.foliage, f, id, Some(c)), s.tree)
  }

  ghost predicate HasLeaf(s: State, f: string) {
    if Wild(f) then f in LeavesAt(s.tree, SubPath(f)) else f in s.foliage
  }

  ghost function UnsubscribeState(s: State, f: string, id: string): State {
    if !Table.Removable(f) || !HasLeaf(s, f) then s
    else if Wild(f) then State(s.foliage, UnsubscribeTree(s.tree, SubPath(f), f, id, 1))
    else State(DropSub(s.foliage, f, id), s.tree)
  }

  ghost function KeepState(s: State, t: string, m: Message): State {
    State(s.foliage, KeepTree(s.tree, [], KeepPath(t), t, m))
  }

  ghost function DropKeptState(s: State, p: Path, key: string): State {
    State(s.foliage, s.tree[p := SetKept(LeavesAt(s.tree, p), key, None)])
  }

  lemma PutKeeps(tree: Tree, p: Path, f: string, id: string, c: Client)
    requires Sound(tree, p) && Wild(f)
    requires p == SubPath(f) || (CopiesUp(f) && p == Parent(SubPath(f)))
    ensures WellBuilt(AddSub(tree, p, f, id, c))
    ensures forall q :: LeavesAt(AddSub(tree, p, f, id, c), q) ==
                        if q == p then PutLeaf(LeavesAt(tree, q), f, id, Some(c)) else LeavesAt(tree, q)
  {
    hide SubPath, KeepPath, Wild, CopiesUp;
    var ls := PutLeaf(LeavesAt(tree, p), f, id, Some(c));
    assert f in ls;
    SetKeeps(tree, p, p, ls);
  }

  lemma SubscribeWildTree(tree: Tree, f: string, id: string, c: Client)
    requires WellBuilt(tree) && Wild(f)
    ensures SubPath(f) != []
    ensures WellBuilt(SubscribeTree(tree, [], SubPath(f), f, id, c))
    ensures forall p :: LeavesAt(SubscribeTree(tree, [], SubPath(f), f, id, c), p) ==
                        if p == SubPath(f) || (CopiesUp(f) && p == Parent(SubPath(f)))
                        then PutLeaf(LeavesAt(tree, p), f, id, Some(c)) else LeavesAt(tree, p)
  {
    hide SubPath, KeepPath, Wild, AddSub, NoEmptyBranch, AllPlaced, Fruitful;
    WildPathShape(f);
    var p := SubPath(f);
    var g := Grow(tree, [], p);
    StillSound(tree, []);
    GrowKeeps(tree, [], p);
    assert [] + p == p;
    PutKeeps(g, p, f, id, c);
    if EndsInHash(p) {
      var t1 := AddSub(g, p, f, id, c);
      InTree(g, p, f, id, c);
      StillSound(t1, Parent(p));
      PutKeeps(t1, Parent(p), f, id, c);
    }
  }

  lemma StillSound(tree: Tree, x: Path)
    requires WellBuilt(tree) && x in tree
    ensures Sound(tree, x)
  {
    hide SubPath, KeepPath, Wild;
  }

  lemma InTree(tree: Tree, p: Path, f: string, id: string, c: Client)
    requires PrefixClosed(tree) && p in tree && p != []
    ensures Parent(p) in AddSub(tree, p, f, id, c)
  {
    assert p[..|p| - 1] in tree;
  }

  lemma SubscribeLookups(s: State, f: string, id: string, c: Client)
    requires WellBuilt(s.tree)
    ensures var s' := SubscribeState(s, f, id, c);
            && WellBuilt(s'.tree)
            && (forall g :: Holders(s', g) == if g == f then Holders(s, f)[id := c] else Holders(s, g))
            && (forall g :: Copied(s', g) == if g == f && CopiesUp(f) then Copied(s, f)[id := c] else Copied(s, g))
            && (forall x :: Kept(s', x) == Kept(s, x))
  {
    hide SubPath, KeepPath, Blank, Wild, WellBuilt, SubscribeTree, Holders, Copied, Kept, LeavesAt, PutLeaf;
    var s' := SubscribeState(s, f, id, c);
    if Wild(f) {
      SubscribeWildTree(s.tree, f, id, c);
    }
    forall g
      ensures Holders(s', g) == if g == f then Holders(s, f)[id := c] else Holders(s, g)
      ensures Copied(s', g) == if g == f && CopiesUp(f) then Copied(s, f)[id := c] else Copied(s, g)
      ensures Kept(s', g) == Kept(s, g)
    {
      if Wild(f) {
        WildLookup(s, s', f, id, c, g);
      } else {
        PlainLookup(s, s', f, id, c, g);
      }
    }
  }

  lemma PutLeafParts(ls: Leaves, f: string, id: string, c: Client, g: string)
    ensures SubsIn(PutLeaf(ls, f, id, Some(c)), g) == if g == f then SubsIn(ls, f)[id := c] else SubsIn(ls, g)
    ensures KeptIn(PutLeaf(ls, f, id, Some(c)), g) == KeptIn(ls, g)
  {
  }

  lemma PlainLookup(s: State, s': State, f: string, id: string, c: Client, g: string)
    requires !Wild(f) && s' == State(PutLeaf(s.foliage, f, id, Some(c)), s.tree)
    ensures Holders(s', g) == if g == f then Holders(s, f)[id := c] else Holders(s, g)
    ensures Copied(s', g) == if g == f && CopiesUp(f) then Copied(s, f)[id := c] else Copied(s, g)
    ensures Kept(s', g) == Kept(s, g)
  {
    hide SubPath, KeepPath, Blank, Wild, LeavesAt, PutLeaf, SubsIn, KeptIn;
    PutLeafParts(s.foliage, f, id, c, g);
  }

  lemma WildLookup(s: State, s': State, f: string, id: string, c: Client, g: string)
    requires Wild(f) && SubPath(f) != []
    requires s'.foliage == if f in s.foliage then s.foliage else s.foliage[f := LeafVal(map[], None)]
    requires forall p :: LeavesAt(s'.tree, p) ==
                         if p == SubPath(f) || (CopiesUp(f) && p == Parent(SubPath(f)))
                         then PutLeaf(LeavesAt(s.tree, p), f, id, Some(c)) else LeavesAt(s.tree, p)
    ensures Holders(s', g) == if g == f then Holders(s, f)[id := c] else Holders(s, g)
    ensures Copied(s', g) == if g == f && CopiesUp(f) then Copied(s, f)[id := c] else Copied(s, g)
    ensures Kept(s', g) == Kept(s, g)
  {
    hide SubPath, KeepPath, Blank, Wild, LeavesAt, PutLeaf, KeptIn;
    if Wild(g) {
      WildPathShape(g);
      PutLeafParts(LeavesAt(s.tree, SubPath(g)), f, id, c, g);
      PutLeafParts(LeavesAt(s.tree, Parent(SubPath(g))), f, id, c, g);
    }
    PutLeafParts(LeavesAt(s.tree, KeepPath(g)), f, id, c, g);
  }

  lemma FoliageGains(s: State, f: string, id: string, c: Client)
    requires FoliageOk(s.foliage)
    ensures FoliageOk(SubscribeState(s, f, id, c).foliage)
    ensures SubscribeState(s, f, id, c).foliage.Keys == s.foliage.Keys + {f}
  {
    hide SubPath, KeepPath, Wild, SubscribeTree;
    assert id in PutLeaf(s.foliage, f, id, Some(c))[f].subs;
  }

  lemma FoliageLoses(s: State, f: string, id: string)
    requires FoliageOk(s.foliage)
    ensures FoliageOk(UnsubscribeState(s, f, id).foliage)
    ensures UnsubscribeState(s, f, id).foliage.Keys ==
            if !Wild(f) && Holders(s, f) - {id} == map[] then s.foliage.Keys - {f} else s.foliage.Keys
  {
    hide SubPath, KeepPath, Wild, UnsubscribeTree, LeavesAt;
  }

  lemma LivePut(s: State, s': State, live: map<Pair, Client>, f: string, id: string, c: Client)
    requires LiveIs(s, live)
    requires forall g :: Holders(s', g) == if g == f then Holders(s, f)[id := c] else Holders(s, g)
    ensures LiveIs(s', live[(f, id) := c])
  {
    hide Holders;
  }

  lemma CopiesPut(s: State, s': State, copies: map<Pair, Client>, f: string, id: string, c: Client)
    requires CopiesAre(s, copies)
    requires forall g :: Copied(s', g) == if g == f then Copied(s, f)[id := c] else Copied(s, g)
    ensures CopiesAre(s', copies[(f, id) := c])
  {
    hide Copied;
  }

  lemma LiveCut(s: State, s': State, live: map<Pair, Client>, f: string, id: string)
    requires LiveIs(s, live)
    requires forall g :: Holders(s', g) == if g == f then Holders(s, f) - {id} else Holders(s, g)
    ensures LiveIs(s', live - {(f, id)})
  {
    hide Holders;
  }

  lemma SubscribeLaw(s: State, t: Table, f: string, id: string, c: Client)
    requires WF(s, t)
    ensures WF(SubscribeState(s, f, id, c), t.Subscribe(f, id, c))
  {
    hide SubPath, KeepPath, Blank, Wild, CopiesUp, WellBuilt, SubscribeState, FoliageOk, Holders, Copied, Kept;
    hide Table.Ok;
    t.SubscribeOk(f, id, c);
    FoliageGains(s, f, id, c);
    SubscribeLookups(s, f, id, c);
    var s' := SubscribeState(s, f, id, c);
    LivePut(s, s', t.live, f, id, c);
    if CopiesUp(f) {
      CopiesPut(s, s', t.copies, f, id, c);
    }
  }

  lemma UnsubscribeWildTree(tree: Tree, f: string, id: string)
    requires WellBuilt(tree) && Wild(f) && f in LeavesAt(tree, SubPath(f))
    ensures WellBuilt(UnsubscribeTree(tree, SubPath(f), f, id, 1))
    ensures forall p :: LeavesAt(UnsubscribeTree(tree, SubPath(f), f, id, 1), p) ==
                        if p == SubPath(f) then DropSub(LeavesAt(tree, p), f, id) else LeavesAt(tree, p)
  {
    hide SubPath, KeepPath, Wild;
    var p := SubPath(f);
    var ls := DropSub(LeavesAt(tree, p), f, id);
    SetKeeps(tree, p, p, ls);
    PruneKeeps(tree[p := ls], p, 1);
  }

  lemma UnsubscribeLookups(s: State, f: string, id: string)
    requires WellBuilt(s.tree) && Table.Removable(f)
    ensures var s' := UnsubscribeState(s, f, id);
            && WellBuilt(s'.tree)
            && (forall g :: Holders(s', g) == if g == f then Holders(s, f) - {id} else Holders(s, g))
            && (forall g :: Copied(s', g) == Copied(s, g))
            && (forall x :: Kept(s', x) == Kept(s, x))
  {
    hide SubPath, KeepPath, Blank, Wild, WellBuilt, UnsubscribeTree, Table.Removable;
    if Wild(f) && HasLeaf(s, f) {
      WildPathShape(f);
      UnsubscribeWildTree(s.tree, f, id);
    }
  }

  lemma UnsubscribeNothing(s: State, f: string, id: string)
    requires !Table.Removable(f)
    ensures UnsubscribeState(s, f, id) == s
  {
  }

  lemma UnsubscribeLaw(s: State, t: Table, f: string, id: string)
    requires WF(s, t)
    ensures WF(UnsubscribeState(s, f, id), t.Unsubscribe(f, id))
    ensures (f, id) in t.live ==> HasLeaf(s, f)
  {
    hide SubPath, KeepPath, Blank, Wild, CopiesUp, WellBuilt, UnsubscribeTree, UnsubscribeState, FoliageOk, HasLeaf;
    hide Table.Removable, Holders, Copied, Kept, Table.Ok;
    if !Table.Removable(f) {
      UnsubscribeNothing(s, f, id);
    } else {
      t.UnsubscribeOk(f, id);
      FoliageLoses(s, f, id);
      UnsubscribeLookups(s, f, id);
      HeldAfter(s, t, f, id);
      LiveCut(s, UnsubscribeState(s, f, id), t.live, f, id);
    }
    if (f, id) in t.live {
      LiveHasLeaf(s, t, f, id);
    }
  }

  lemma LiveHasLeaf(s: State, t: Table, f: string, id: string)
    requires LiveIs(s, t.live) && (f, id) in t.live
    ensures HasLeaf(s, f)
  {
    hide SubPath, KeepPath, Wild;
  }

  lemma HeldAfter(s: State, t: Table, f: string, id: string)
    requires LiveIs(s, t.live)
    ensures t.(live := t.live - {(f, id)}).Held(f) <==> Holders(s, f) - {id} != map[]
  {
    hide Holders;
    var b := t.(live := t.live - {(f, id)});
    var rest := Holders(s, f) - {id};
    if rest != map[] {
      var x :| x in rest;
      assert (f, x) in b.live;
    }
    if b.Held(f) {
      var x :| (f, x) in b.live;
      assert x in rest;
    }
  }

  /** Storing a retained message, on a branch that may have to grow first. */
  lemma KeepOne(tree: Tree, p: Path, key: string, m: Message)
    requires WellBuilt(tree) && p == KeepPath(key) && p != []
    ensures var t := KeepTree(tree, [], p, key, m);
            && WellBuilt(t)
            && forall q :: LeavesAt(t, q) ==
                           if q == p then SetKept(LeavesAt(tree, q), key, Some(m)) else LeavesAt(tree, q)
  {
    hide SubPath, KeepPath, Wild;
    var g := Grow(tree, [], p);
    GrowKeeps(tree, [], p);
    assert [] + p == p;
    var ls := SetKept(LeavesAt(g, p), key, Some(m));
    assert key in ls;
    SetKeeps(g, p, p, ls);
  }

  /** Clearing one; the leaf stays, so no branch loses its last leaf. */
  lemma ClearOne(tree: Tree, p: Path, key: string)
    requires WellBuilt(tree) && p in tree && key in tree[p] && p != []
    ensures var t := tree[p := SetKept(LeavesAt(tree, p), key, None)];
            && WellBuilt(t)
            && forall q :: LeavesAt(t, q) ==
                           if q == p then SetKept(LeavesAt(tree, q), key, None) else LeavesAt(tree, q)
  {
    hide SubPath, KeepPath, Wild;
    var ls := SetKept(LeavesAt(tree, p), key, None);
    assert key in ls;
    SetKeeps(tree, p, p, ls);
  }

  lemma KeptLookups(s: State, s': State, p: Path, key: string, m: Option<Message>)
    requires p == KeepPath(key) && p != [] && s'.foliage == s.foliage
    requires forall q :: LeavesAt(s'.tree, q) ==
                         if q == p then SetKept(LeavesAt(s.tree, q), key, m) else LeavesAt(s.tree, q)
    ensures forall g :: Holders(s', g) == Holders(s, g)
    ensures forall g :: Copied(s', g) == Copied(s, g)
    ensures forall x :: Kept(s', x) == if x == key then m else Kept(s, x)
  {
    hide SubPath, KeepPath, Blank, Wild;
    KeepPathNonempty(key);
  }

  lemma KeepLaw(s: State, t: Table, topic: string, m: Message)
    requires WF(s, t) && !Blank(topic)
    ensures WF(KeepState(s, topic, m), t.Retain(topic, m))
  {
    hide SubPath, KeepPath, Blank, Wild, CopiesUp, WellBuilt, KeepTree, Holders, Copied, Kept;
    KeepPathNonempty(topic);
    var p := KeepPath(topic);
    KeepOne(s.tree, p, topic, m);
    KeptLookups(s, KeepState(s, topic, m), p, topic, Some(m));
  }

  lemma DropKeptLaw(s: State, t: Table, p: Path, key: string)
    requires WF(s, t) && p in s.tree && key in s.tree[p] && s.tree[p][key].retain.Some?
    ensures WF(DropKeptState(s, p, key), t.DropRetained(key))
    ensures key in t.retained && KeepPath(key) == p
  {
    hide SubPath, KeepPath, Blank, Wild, CopiesUp, WellBuilt, Holders, Copied, Kept;
    KeptHere(s, p, key);
    ClearOne(s.tree, p, key);
    KeptLookups(s, DropKeptState(s, p, key), p, key, None);
  }

  lemma KeptHere(s: State, p: Path, key: string)
    requires WellBuilt(s.tree) && p in s.tree && key in s.tree[p] && s.tree[p][key].retain.Some?
    ensures KeepPath(key) == p && p != [] && Kept(s, key) == s.tree[p][key].retain
  {
    hide SubPath, KeepPath, Wild, CopiesUp;
    assert Placed(key, p, s.tree[p][key]);
    KeepPathNonempty(key);
  }
}

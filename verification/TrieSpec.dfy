/** The trie as a value: the leaves of every branch by the branch's path, and the foliage. What
    each operation does to it, the invariant it keeps, and the table it stands for. */
module TrieSpec {
  import opened Topics
  import opened Table

  datatype LeafVal = LeafVal(subs: map<string, Client>, retain: Option<Message>)
  type Leaves = map<string, LeafVal>
  type Tree = map<Path, Leaves>
  datatype State = State(foliage: Leaves, tree: Tree)

  // ---------------------------------------------------------------- leaves of one branch

  function SubsIn(ls: Leaves, key: string): map<string, Client> {
    if key in ls then ls[key].subs else map[]
  }

  function KeptIn(ls: Leaves, key: string): Option<Message> {
    if key in ls then ls[key].retain else None
  }

  /** Branch.AddLeaf; without a subscriber it only makes sure that the leaf exists. */
  function PutLeaf(ls: Leaves, key: string, id: string, subscriber: Option<Client>): Leaves {
    var subs := SubsIn(ls, key);
    ls[key := LeafVal(if subscriber.Some? then subs[id := subscriber.value] else subs, KeptIn(ls, key))]
  }

  /** Branch.RemoveLeaf: an emptied leaf goes too, unless it keeps a message. */
  function DropSub(ls: Leaves, key: string, id: string): Leaves {
    if key !in ls then ls
    else
      var v := LeafVal(ls[key].subs - {id}, ls[key].retain);
      if v.subs == map[] && v.retain.None? then ls - {key} else ls[key := v]
  }

  function SetKept(ls: Leaves, key: string, retain: Option<Message>): Leaves {
    ls[key := LeafVal(SubsIn(ls, key), retain)]
  }

  // ---------------------------------------------------------------- trees

  function LeavesAt(tree: Tree, p: Path): Leaves {
    if p in tree then tree[p] else map[]
  }

  function WithBranch(tree: Tree, p: Path): Tree {
    if p in tree then tree else tree[p := map[]]
  }

  /** Makes the branches q + names[..1], q + names[..2], ..., q + names. */
  function Grow(tree: Tree, q: Path, names: Path): Tree
    decreases |names|
  {
    if names == [] then tree
    else Grow(WithBranch(tree, q + [names[0]]), q + [names[0]], names[1..])
  }

  function AddSub(tree: Tree, p: Path, key: string, id: string, client: Client): Tree {
    tree[p := PutLeaf(LeavesAt(tree, p), key, id, Some(client))]
  }

  /** The branch above a "#" gets its own leaf for the filter. */
  function SubscribeTree(tree: Tree, q: Path, names: Path, key: string, id: string, client: Client): Tree
    requires names != []
  {
    var p := q + names;
    var t := AddSub(Grow(tree, q, names), p, key, id, client);
    if Last(names) == "#" then AddSub(t, Parent(p), key, id, client) else t
  }

  function KeepTree(tree: Tree, q: Path, names: Path, key: string, message: Message): Tree {
    var t := Grow(tree, q, names);
    var ls := LeavesAt(t, q + names);
    t[q + names := SetKept(ls, key, Some(message))]
  }

  ghost predicate HasChild(tree: Tree, p: Path) {
    exists k :: Snoc(p, k) in tree
  }

  /** Branch.CheckClean: the branch is unlinked when it has neither leaves nor children. */
  ghost function Clean(tree: Tree, p: Path): Tree {
    if p in tree && p != [] && tree[p] == map[] && !HasChild(tree, p) then tree - {p} else tree
  }

  /** CheckClean on the way back up, from p to its ancestor of length n. */
  ghost function Prune(tree: Tree, p: Path, n: nat): Tree
    decreases |p|
  {
    if |p| < n || p == [] then tree else Prune(Clean(tree, p), Parent(p), n)
  }

  ghost function UnsubscribeTree(tree: Tree, p: Path, key: string, id: string, n: nat): Tree {
    Prune(tree[p := DropSub(LeavesAt(tree, p), key, id)], p, n)
  }

  // ---------------------------------------------------------------- the invariant

  /** Which leaves may stand on a branch, and what they may hold there. */
  predicate Placed(key: string, p: Path, v: LeafVal) {
    && (p == SubPath(key) || p == KeepPath(key) || (CopiesUp(key) && p == Parent(SubPath(key))))
    && (v.subs != map[] ==> Wild(key) && (p == SubPath(key) || (CopiesUp(key) && p == Parent(SubPath(key)))))
    && (v.retain.Some? ==> p == KeepPath(key) && p != [])
  }

  ghost predicate PrefixClosed(tree: Tree) {
    && [] in tree
    && forall p: Path, n: nat | p in tree && n <= |p| :: p[..n] in tree
  }

  ghost predicate Fruitful(tree: Tree, p: Path) {
    p in tree && p != [] ==> tree[p] != map[] || HasChild(tree, p)
  }

  ghost predicate NoEmptyBranch(tree: Tree) {
    forall p :: Fruitful(tree, p)
  }

  ghost predicate AllPlaced(tree: Tree) {
    forall p: Path, key: string | p in tree && key in tree[p] :: Placed(key, p, tree[p][key])
  }

  ghost predicate FoliageOk(foliage: Leaves) {
    forall f | f in foliage ::
      foliage[f].retain.None? && (Wild(f) <==> foliage[f].subs == map[])
  }

  // ---------------------------------------------------------------- the table it stands for

  function Holders(s: State, f: string): map<string, Client> {
    if Wild(f) then SubsIn(LeavesAt(s.tree, SubPath(f)), f) else SubsIn(s.foliage, f)
  }

  function Copied(s: State, f: string): map<string, Client> {
    if CopiesUp(f) then SubsIn(LeavesAt(s.tree, Parent(SubPath(f))), f) else map[]
  }

  function Kept(s: State, t: string): Option<Message> {
    if Blank(t) then None else KeptIn(LeavesAt(s.tree, KeepPath(t)), t)
  }

  ghost predicate LiveIs(s: State, live: map<Pair, Client>) {
    forall pr: Pair ::
      (pr in live <==> pr.1 in Holders(s, pr.0)) && (pr in live ==> live[pr] == Holders(s, pr.0)[pr.1])
  }

  ghost predicate CopiesAre(s: State, copies: map<Pair, Client>) {
    forall pr: Pair ::
      (pr in copies <==> pr.1 in Copied(s, pr.0)) && (pr in copies ==> copies[pr] == Copied(s, pr.0)[pr.1])
  }

  ghost predicate RetainedAre(s: State, retained: map<string, Message>) {
    forall x :: (x in retained <==> Kept(s, x).Some?) && (x in retained ==> retained[x] == Kept(s, x).value)
  }

  /** The state holds the table: every pair in the leaf of its own filter, every copy one branch
      up, every retained message in the leaf of its own topic. */
  ghost predicate StandsFor(s: State, t: Table) {
    && LiveIs(s, t.live)
    && CopiesAre(s, t.copies)
    && RetainedAre(s, t.retained)
    && t.topics == s.foliage.Keys
  }

  /** A state stands for one table only. */
  lemma StandsForOne(s: State, a: Table, b: Table)
    requires StandsFor(s, a) && StandsFor(s, b)
    ensures a == b
  {
    hide Holders, Copied, Kept;
    assert a.live == b.live;
    assert a.copies == b.copies;
    assert a.retained == b.retained;
  }

  ghost predicate WellBuilt(tree: Tree) {
    PrefixClosed(tree) && NoEmptyBranch(tree) && AllPlaced(tree)
  }

  ghost predicate WF(s: State, t: Table) {
    && WellBuilt(s.tree)
    && FoliageOk(s.foliage)
    && StandsFor(s, t)
    && t.Ok()
  }
}

/** The trie in memory: branches linked by name and by parent, leaves with their subscribers. */
module TopicTrie {
  import opened Topics
  import opened Matching
  import opened Table
  import opened Listing
  import opened TrieSpec
  import opened TrieLaws
  import opened TrieSearch

  class Leaf {
    var subscribers: map<string, Client>
    var retain: Option<Message>
    const parent: Branch?
    ghost const key: string

    constructor (parent: Branch?, ghost key: string)
      ensures this.parent == parent && this.key == key
      ensures subscribers == map[] && retain == None
    {
      this.parent, this.key := parent, key;
      subscribers, retain := map[], None;
    }

    function Val(): LeafVal
      reads this
    {
      LeafVal(subscribers, retain)
    }

    method SetRetain(message: Message) returns (existed: bool)
      modifies this`retain
      ensures retain == Some(message) && existed == old(retain).Some?
    {
      existed := retain.Some?;
      retain := Some(message);
    }

    method RemoveRetain() returns (existed: bool)
      modifies this`retain
      ensures retain == None && existed == old(retain).Some?
      ensures !existed ==> unchanged(this)
    {
      existed := retain.Some?;
      retain := None;
    }

    method AddSubscriber(identity: string, subscriber: Client) returns (exist: bool)
      modifies this`subscribers
      ensures subscribers == old(subscribers)[identity := subscriber]
      ensures exist == (identity in old(subscribers))
    {
      exist := identity in subscribers;
      subscribers := subscribers[identity := subscriber];
    }

    /** The subscribers, and the pairs they are entries of. */
    method Collect() returns (found: seq<Client>, ghost pairs: seq<Pair>)
      ensures Lists(found, pairs, PairsOf(key, subscribers, subscribers.Keys))
    {
      hide Lists, PairsOf;
      found, pairs := [], [];
      ghost var done: set<string> := {};
      var rest := subscribers.Keys;
      ListsNothing<Pair, Client>();
      NoPairs(key, subscribers);
      while rest != {}
        invariant rest <= subscribers.Keys && done == subscribers.Keys - rest
        invariant Lists(found, pairs, PairsOf(key, subscribers, done))
      {
        var id :| id in rest;
        PairsOfMore(key, subscribers, done, id);
        ListsOneMore(found, pairs, PairsOf(key, subscribers, done), (key, id), subscribers[id]);
        found, pairs := found + [subscribers[id]], pairs + [(key, id)];
        rest, done := rest - {id}, done + {id};
      }
      assert done == subscribers.Keys;
    }

    method RemoveSubscriber(identity: string)
      modifies this`subscribers
      ensures subscribers == old(subscribers) - {identity}
    {
      subscribers := subscribers - {identity};
    }
  }

  class Branch {
    const trie: Trie
    var name: string
    var parent: Branch?
    var leaves: map<string, Leaf>
    var branches: map<string, Branch>
    ghost const path: Path

    constructor (trie: Trie, name: string, parent: Branch?, ghost path: Path)
      ensures this.trie == trie && this.name == name && this.parent == parent && this.path == path
      ensures leaves == map[] && branches == map[]
    {
      this.trie, this.name, this.parent, this.path := trie, name, parent, path;
      leaves, branches := map[], map[];
    }

    /** This branch is the one linked at its path. */
    ghost predicate Here()
      reads trie`root, trie`g, trie.g.wood
    {
      trie.Shape() && path in trie.g.at && trie.g.at[path] == this
    }

    /** What is known of a linked branch and of a name below it. */
    lemma Known(key: string)
      requires Here()
      ensures path in trie.g.node && path in trie.g.tree && [] in trie.g.at
      ensures this in trie.g.wood && trie !in trie.g.wood
      ensures trie.g.node[path] == Node(name, parent, branches, leaves)
      ensures leaves.Keys == trie.g.tree[path].Keys
      ensures if path == [] then parent == null && this == trie.root
              else Up(path) in trie.g.at && parent == trie.g.at[Up(path)] && name == Tip(path)
                   && parent.Here() && parent.path == Up(path) && parent.trie == trie && parent in trie.g.wood
      ensures key in branches <==> Snoc(path, key) in trie.g.at
      ensures key in branches ==>
                var b := branches[key];
                && b.trie == trie && b.path == Snoc(path, key) && b.Here() && b.name == key && b.parent == this
      ensures key in leaves ==>
                var l := leaves[key];
                && l in trie.g.wood && l.parent == this && l.key == key && l.Val() == trie.g.tree[path][key]
    {
      hide Snoc, Up, Tip, Links, Closed;
      PathFacts();
      var g := trie.g;
      assert Links(g.at, path, g.node[path]);
      LinksHere(g.at, path, g.node[path], key);
      if key in branches {
        LinksHere(g.at, Snoc(path, key), g.node[Snoc(path, key)], key);
      }
    }

    /** The part of it that is about its own leaves. */
    lemma Own(key: string)
      requires Here()
      ensures path in trie.g.node && path in trie.g.tree && [] in trie.g.at
      ensures this in trie.g.wood && trie !in trie.g.wood
      ensures trie.g.node[path] == Node(name, parent, branches, leaves)
      ensures leaves.Keys == trie.g.tree[path].Keys
      ensures key in leaves ==>
                var l := leaves[key];
                && l in trie.g.wood && l.parent == this && l.key == key && l.Val() == trie.g.tree[path][key]
    {
      hide Snoc, Up, Tip, Links, Closed;
      Known(key);
    }

    /** In a valid trie every branch but the root has a leaf or a child, is its parent's child of that
        name, and keeps only leaves whose filter or topic belongs on its path. */
    lemma NeverEmpty(f: string)
      requires Here() && trie.Valid()
      ensures path != [] ==>
                && (leaves != map[] || branches != map[])
                && parent != null && parent.Here() && name in parent.branches && parent.branches[name] == this
      ensures f in leaves ==> Placed(f, path, leaves[f].Val())
    {
      hide Snoc, Up, Tip, Placed;
      Known(f);
      PathFacts();
      hide Trie.Shape, Trie.FoliageAgrees, LiveIs, CopiesAre, RetainedAre, FoliageOk, PrefixClosed;
      if path != [] {
        parent.Known(name);
        assert Fruitful(trie.g.tree, path);
        if trie.g.tree[path] == map[] {
          var k :| Snoc(path, k) in trie.g.tree;
          ChildNames();
          assert k in branches.Keys;
        }
      }
    }

    /** The child with this name, made and linked if it is missing. */
    method Child(key: string) returns (branch: Branch)
      requires Here()
      modifies trie`g, this`branches
      ensures trie.Shape() && branch.trie == trie && branch.Here()
      ensures branch.path == Snoc(path, key) && branch.name == key && branch.parent == this
      ensures old(trie.g.wood) <= trie.g.wood && fresh(trie.g.wood - old(trie.g.wood))
      ensures trie.g.tree == WithBranch(old(trie.g.tree), Snoc(path, key))
    {
      hide Snoc, Up, Tip, Good, trie.BranchesAgree, trie.LeavesAgree;
      Known(key);
      if key in branches {
        branch := branches[key];
      } else {
        branch := new Branch(trie, key, this, Snoc(path, key));
        Link(branch);
      }
    }

    method Link(child: Branch)
      requires Here() && Snoc(path, child.name) !in trie.g.at && child !in trie.g.wood
      requires child.trie == trie && child.parent == this && child.path == Snoc(path, child.name)
      requires child.leaves == map[] && child.branches == map[]
      modifies trie`g, this`branches
      ensures trie.Shape() && child.Here()
      ensures trie.g.tree == old(trie.g.tree)[child.path := map[]]
      ensures trie.g.wood == old(trie.g.wood) + {child}
      ensures child.name == old(child.name) && child.parent == this
    {
      hide Snoc, Up, Tip, Good, trie.BranchesAgree, trie.LeavesAgree;
      SproutGood(trie.g, path, child.name, child);
      trie.g := SproutGhost(trie.g, path, child.name, child);
      branches := branches[child.name := child];
      LinkBranches(this, child);
      LinkLeaves(this, child);
    }

    method AddLeaf(topic: string, identity: string, subscriber: Option<Client>) returns (leaf: Leaf, exist: bool)
      requires Here()
      modifies trie`g, trie.g.wood
      ensures trie.Shape() && trie.g.at == old(trie.g.at)
      ensures topic in leaves && leaf == leaves[topic]
      ensures old(trie.g.wood) <= trie.g.wood && fresh(trie.g.wood - old(trie.g.wood))
      ensures trie.g.tree == old(trie.g.tree[path := PutLeaf(trie.g.tree[path], topic, identity, subscriber)])
      ensures exist == (subscriber.Some? && identity in old(SubsIn(trie.g.tree[path], topic)))
    {
      hide Snoc, Up, Tip, Good, trie.BranchesAgree, trie.LeavesAgree;
      Own(topic);
      leaf := FindLeaf(topic);
      exist := false;
      PutLeafTwice(trie.g.tree, old(trie.g.tree), path, topic, identity, subscriber);
      if subscriber.Some? {
        exist := PutSubscriber(topic, identity, subscriber.value);
      }
    }

    /** The leaf for this topic, made and linked if it is missing. */
    method FindLeaf(topic: string) returns (leaf: Leaf)
      requires Here()
      modifies trie`g, this`leaves
      ensures Here() && trie.g.at == old(trie.g.at)
      ensures topic in leaves && leaf == leaves[topic] && leaf in trie.g.wood
      ensures old(trie.g.wood) <= trie.g.wood && fresh(trie.g.wood - old(trie.g.wood))
      ensures trie.g.tree == old(trie.g.tree[path := PutLeaf(trie.g.tree[path], topic, "", None)])
      ensures leaf.Val() == trie.g.tree[path][topic]
    {
      hide Snoc, Up, Tip, Good, trie.BranchesAgree, trie.LeavesAgree;
      Own(topic);
      if topic in leaves {
        leaf := leaves[topic];
        assert trie.g.tree[path][topic := trie.g.tree[path][topic]] == trie.g.tree[path];
      } else {
        leaf := new Leaf(this, topic);
        Plant(topic, leaf);
      }
      Own(topic);
    }

    method PutSubscriber(topic: string, identity: string, subscriber: Client) returns (exist: bool)
      requires Here() && topic in leaves
      modifies trie`g, leaves[topic]
      ensures Here()
      ensures var v := old(trie.g.tree[path][topic]);
              && trie.g == ValueGhost(old(trie.g), path, topic, LeafVal(v.subs[identity := subscriber], v.retain))
              && exist == (identity in v.subs)
    {
      hide Snoc, Up, Tip, Good, trie.BranchesAgree, trie.LeavesAgree;
      Own(topic);
      exist := leaves[topic].AddSubscriber(identity, subscriber);
      ValueGood(trie.g, path, topic, leaves[topic].Val());
      trie.g := ValueGhost(trie.g, path, topic, leaves[topic].Val());
      ValueBranches(this, topic);
      ValueLeaves(this, topic);
    }

    method CutSubscriber(topic: string, identity: string)
      requires Here() && topic in leaves
      modifies trie`g, leaves[topic]
      ensures Here()
      ensures var v := old(trie.g.tree[path][topic]);
              trie.g == ValueGhost(old(trie.g), path, topic, LeafVal(v.subs - {identity}, v.retain))
      ensures leaves[topic].Val() == trie.g.tree[path][topic]
    {
      hide Snoc, Up, Tip, Good, trie.BranchesAgree, trie.LeavesAgree;
      Own(topic);
      leaves[topic].RemoveSubscriber(identity);
      ValueGood(trie.g, path, topic, leaves[topic].Val());
      trie.g := ValueGhost(trie.g, path, topic, leaves[topic].Val());
      ValueBranches(this, topic);
      ValueLeaves(this, topic);
    }

    method KeepMessage(topic: string, message: Message) returns (existed: bool)
      requires Here() && topic in leaves
      modifies trie`g, leaves[topic]
      ensures Here()
      ensures var v := old(trie.g.tree[path][topic]);
              && trie.g == ValueGhost(old(trie.g), path, topic, LeafVal(v.subs, Some(message)))
              && existed == v.retain.Some?
    {
      hide Snoc, Up, Tip, Good, trie.BranchesAgree, trie.LeavesAgree;
      Own(topic);
      existed := leaves[topic].SetRetain(message);
      ValueGood(trie.g, path, topic, leaves[topic].Val());
      trie.g := ValueGhost(trie.g, path, topic, leaves[topic].Val());
      ValueBranches(this, topic);
      ValueLeaves(this, topic);
    }

    method ClearMessage(topic: string) returns (existed: bool)
      requires Here() && topic in leaves
      modifies trie`g, leaves[topic]
      ensures Here()
      ensures var v := old(trie.g.tree[path][topic]);
              && trie.g == ValueGhost(old(trie.g), path, topic, LeafVal(v.subs, None))
              && existed == v.retain.Some?
      ensures !existed ==> unchanged(leaves[topic])
    {
      hide Snoc, Up, Tip, Good, trie.BranchesAgree, trie.LeavesAgree;
      Own(topic);
      existed := leaves[topic].RemoveRetain();
      ValueGood(trie.g, path, topic, leaves[topic].Val());
      trie.g := ValueGhost(trie.g, path, topic, leaves[topic].Val());
      ValueBranches(this, topic);
      ValueLeaves(this, topic);
    }

    method Pluck(topic: string)
      requires Here() && topic in leaves
      modifies trie`g, this`leaves
      ensures Here() && trie.g.at == old(trie.g.at) && trie.g.wood == old(trie.g.wood)
      ensures leaves == old(leaves) - {topic}
      ensures trie.g.tree == old(trie.g.tree[path := trie.g.tree[path] - {topic}])
    {
      hide Snoc, Up, Tip, Good, trie.BranchesAgree, trie.LeavesAgree;
      Own(topic);
      LeavesGood(trie.g, path, leaves - {topic}, trie.g.tree[path] - {topic}, trie.g.wood);
      trie.g := LeavesGhost(trie.g, path, leaves - {topic}, trie.g.tree[path] - {topic}, trie.g.wood);
      leaves := leaves - {topic};
      LeavesSetBranches(this, trie.g.tree[path]);
      PluckLeaves(this, topic);
    }

    method RemoveLeaf(topic: string, identity: string) returns (exist: bool)
      requires Here()
      modifies trie`g, trie.g.wood
      ensures Here() && trie.g.at == old(trie.g.at) && trie.g.wood == old(trie.g.wood)
      ensures exist == (topic in old(trie.g.tree[path]))
      ensures trie.g.tree == old(trie.g.tree[path := DropSub(trie.g.tree[path], topic, identity)])
      ensures !exist ==> unchanged(old(trie.g.wood)) && trie.g == old(trie.g)
    {
      hide Snoc, Up, Tip, Good, trie.BranchesAgree, trie.LeavesAgree;
      Own(topic);
      exist := topic in leaves;
      if exist {
        ghost var before := trie.g.tree;
        CutSubscriber(topic, identity);
        var leaf := leaves[topic];
        DropSubSteps(before, path, topic, identity);
        if leaf.subscribers == map[] && leaf.retain.None? {
          Pluck(topic);
        }
      }
    }

    lemma Childless()
      requires Here()
      ensures path in trie.g.tree
      ensures branches == map[] <==> !HasChild(trie.g.tree, path)
      ensures leaves == map[] <==> trie.g.tree[path] == map[]
    {
      hide Snoc, Up, Tip, Good, trie.BranchesAgree, trie.LeavesAgree;
      Known("");
      if branches != map[] {
        var k :| k in branches;
        Known(k);
        assert Snoc(path, k) in trie.g.tree;
      }
      if HasChild(trie.g.tree, path) {
        var k :| Snoc(path, k) in trie.g.tree;
        Known(k);
      }
    }

    method CheckClean()
      requires Here()
      modifies trie`g, trie.g.wood
      ensures trie.Shape() && trie.g.wood == old(trie.g.wood)
      ensures trie.g.tree == Clean(old(trie.g.tree), path)
      ensures forall q | q in trie.g.at :: q in old(trie.g.at) && trie.g.at[q] == old(trie.g.at[q])
    {
      hide Snoc, Up, Tip, Good, trie.BranchesAgree, trie.LeavesAgree;
      Known("");
      Childless();
      if leaves == map[] && branches == map[] {
        if parent != null {
          UnlinkGood(trie.g, path);
          trie.g := UnlinkGhost(trie.g, path);
          parent.branches := parent.branches - {name};
          UnlinkBranches(this);
          UnlinkLeaves(this);
        }
      }
    }

    method AddBranch(topic: string, identity: string, subscriber: Client, keys: seq<string>, index: nat)
      returns (exist: bool)
      requires Here() && index < |keys|
      modifies trie`g, trie.g.wood
      ensures trie.Shape()
      ensures old(trie.g.wood) <= trie.g.wood && fresh(trie.g.wood - old(trie.g.wood))
      ensures var names := FilterPath(keys[index..]);
              && trie.g.tree == SubscribeTree(old(trie.g.tree), path, names, topic, identity, subscriber)
              && exist == (identity in SubsIn(LeavesAt(old(trie.g.tree), path + names), topic))
      decreases |keys| - index
    {
      hide Snoc, Up, Tip, Good, trie.BranchesAgree, trie.LeavesAgree, TrimSpace;
      hide WithBranch, SubscribeTree, FilterPath, PutLeaf, AddSub, SubsIn;
      Known("");
      var key := TrimSpace(keys[index]);
      SubscribeStep(trie.g.tree, path, keys, index, topic, identity, subscriber);
      var branch := Child(key);
      branch.Known("");
      if branch.name == "#" {
        exist := branch.AddToBoth(topic, identity, subscriber);
      } else if index + 1 < |keys| {
        exist := branch.AddBranch(topic, identity, subscriber, keys, index + 1);
      } else {
        exist := branch.AddToSelf(topic, identity, subscriber);
      }
    }

    method AddToSelf(topic: string, identity: string, subscriber: Client) returns (exist: bool)
      requires Here()
      modifies trie`g, trie.g.wood
      ensures Here() && trie.g.at == old(trie.g.at)
      ensures old(trie.g.wood) <= trie.g.wood && fresh(trie.g.wood - old(trie.g.wood))
      ensures trie.g.tree == AddSub(old(trie.g.tree), path, topic, identity, subscriber)
      ensures exist == (identity in SubsIn(LeavesAt(old(trie.g.tree), path), topic))
    {
      hide Snoc, Up, Tip, Good, trie.BranchesAgree, trie.LeavesAgree, PutLeaf;
      Known("");
      var _, e := AddLeaf(topic, identity, Some(subscriber));
      exist := e;
    }

    /** A "#" branch files the subscriber in its own leaf and in a leaf of its parent. */
    method AddToBoth(topic: string, identity: string, subscriber: Client) returns (exist: bool)
      requires Here() && path != []
      modifies trie`g, trie.g.wood
      ensures trie.Shape()
      ensures old(trie.g.wood) <= trie.g.wood && fresh(trie.g.wood - old(trie.g.wood))
      ensures var up := AddSub(old(trie.g.tree), path, topic, identity, subscriber);
              trie.g.tree == AddSub(up, Up(path), topic, identity, subscriber)
      ensures exist == (identity in SubsIn(LeavesAt(old(trie.g.tree), path), topic))
    {
      hide Snoc, Up, Tip, Good, trie.BranchesAgree, trie.LeavesAgree, AddSub;
      Known("");
      exist := AddToSelf(topic, identity, subscriber);
      Known("");
      if parent != null {
        var _ := parent.AddToSelf(topic, identity, subscriber);
      }
    }

    method AddRetain(topic: string, keys: seq<string>, index: nat, retain: Message) returns (exist: bool)
      requires Here() && index < |keys|
      modifies trie`g, trie.g.wood
      ensures trie.Shape()
      ensures old(trie.g.wood) <= trie.g.wood && fresh(trie.g.wood - old(trie.g.wood))
      ensures var names := TrimAll(keys[index..]);
              && trie.g.tree == KeepTree(old(trie.g.tree), path, names, topic, retain)
              && exist == KeptIn(LeavesAt(old(trie.g.tree), path + names), topic).Some?
      decreases |keys| - index
    {
      hide Snoc, Up, Tip, Good, trie.BranchesAgree, trie.LeavesAgree, TrimSpace;
      hide WithBranch, KeepTree, TrimAll, SetKept, KeptIn;
      Known("");
      var key := TrimSpace(keys[index]);
      KeepStep(trie.g.tree, path, keys, index, topic, retain);
      var branch := Child(key);
      branch.Known("");
      if index + 1 < |keys| {
        exist := branch.AddRetain(topic, keys, index + 1, retain);
      } else {
        exist := branch.KeepHere(topic, retain);
      }
    }

    method KeepHere(topic: string, retain: Message) returns (exist: bool)
      requires Here()
      modifies trie`g, trie.g.wood
      ensures trie.Shape() && path in old(trie.g.tree)
      ensures old(trie.g.wood) <= trie.g.wood && fresh(trie.g.wood - old(trie.g.wood))
      ensures trie.g.tree == old(trie.g.tree)[path := SetKept(old(trie.g.tree)[path], topic, Some(retain))]
      ensures exist == KeptIn(old(trie.g.tree)[path], topic).Some?
    {
      hide Snoc, Up, Tip, Good, trie.BranchesAgree, trie.LeavesAgree, SetKept, KeptIn, PutLeaf;
      Known("");
      KeepLeafSteps(trie.g.tree, path, topic, retain);
      var leaf, _ := AddLeaf(topic, "", None);
      Own(topic);
      exist := KeepMessage(topic, retain);
    }

    /** `home` is the only branch from which the scan could take a leaf of this topic. */
    method ScanRemoveLeaf(identity: string, topic: string, keys: seq<string>, index: nat, ghost home: Path)
      returns (exist: bool)
      requires Here() && path != [] && index < |keys| && PrefixClosed(trie.g.tree)
      requires forall x | x in trie.g.tree && Scanned(path, keys[index..], x) && topic in trie.g.tree[x] :: x == home
      modifies trie`g, trie.g.wood
      ensures trie.Shape() && trie.g.wood == old(trie.g.wood)
      ensures exist <==> ScanFound(old(trie.g.tree), path, keys[index..], topic, home)
      ensures exist ==> trie.g.tree == UnsubscribeTree(old(trie.g.tree), home, topic, identity, |path|)
      ensures !exist ==> trie.g == old(trie.g) && unchanged(old(trie.g.wood))
      ensures forall q | q in trie.g.at :: q in old(trie.g.at) && trie.g.at[q] == old(trie.g.at[q])
      decreases |keys| - index, 1
    {
      hide Snoc, Up, Tip, Good, trie.BranchesAgree, trie.LeavesAgree, Scanned, UnsubscribeTree, DropSub, Clean;
      hide PrefixClosed;
      Known("");
      ScanOutcome(trie.g.tree, path, keys[index..], topic, identity, home);
      exist := false;
      if name == "#" {
        exist := RemoveLeaf(topic, identity);
      } else if index + 1 == |keys| && name == keys[index] {
        exist := RemoveLeaf(topic, identity);
      } else if name == keys[index] {
        exist := ScanChildren(identity, topic, keys, index, home);
      }
      if exist {
        CheckClean();
      }
    }

    /** The loop of ScanRemoveLeaf over the children; it stops at the first that had the leaf. */
    method ScanChildren(identity: string, topic: string, keys: seq<string>, index: nat, ghost home: Path)
      returns (exist: bool)
      requires Here() && path != [] && index + 1 < |keys| && PrefixClosed(trie.g.tree)
      requires name != "#" && name == keys[index]
      requires forall x | x in trie.g.tree && Scanned(path, keys[index..], x) && topic in trie.g.tree[x] :: x == home
      modifies trie`g, trie.g.wood
      ensures trie.Shape() && trie.g.wood == old(trie.g.wood)
      ensures exist <==> ScanFound(old(trie.g.tree), path, keys[index..], topic, home)
      ensures exist ==> home != path
      ensures exist ==> trie.g.tree == UnsubscribeTree(old(trie.g.tree), home, topic, identity, |path| + 1)
      ensures exist ==> Here()
      ensures !exist ==> trie.g == old(trie.g) && unchanged(old(trie.g.wood))
      ensures forall q | q in trie.g.at :: q in old(trie.g.at) && trie.g.at[q] == old(trie.g.at[q])
      decreases |keys| - index, 0
    {
      hide Snoc, Up, Tip, Good, trie.BranchesAgree, trie.LeavesAgree, Scanned, UnsubscribeTree, PrefixClosed, Below;
      Known("");
      ghost var tree: Tree := trie.g.tree;
      assert keys[index..][1..] == keys[index + 1..] && keys[index..][0] == keys[index];
      ScanVia(tree, path, keys[index..], topic, home);
      var rest := branches.Keys;
      while rest != {}
        invariant rest <= branches.Keys
        invariant trie.g == old(trie.g) && unchanged(old(trie.g.wood)) && Here()
        invariant forall k | k in branches && k !in rest ::
                    !ScanFound(tree, Snoc(path, k), keys[index + 1..], topic, home)
      {
        var k :| k in rest;
        Known(k);
        SnocLength(path, k);
        var found := branches[k].ScanRemoveLeaf(identity, topic, keys, index + 1, home);
        if found {
          PruneKeepsShort(tree, home, topic, identity, path);
          return true;
        }
        rest := rest - {k};
      }
      if ScanFound(tree, path, keys[index..], topic, home) {
        Known(Toward(path, home));
      }
      exist := false;
    }

    /** Clears the message of one leaf, any one that has a message. */
    method RemoveOwnRetain() returns (ok: bool, ghost key: string)
      requires Here()
      modifies trie`g, trie.g.wood
      ensures trie.Shape() && trie.g.wood == old(trie.g.wood) && path in old(trie.g.tree)
      ensures ok <==> exists f :: f in old(trie.g.tree)[path] && old(trie.g.tree)[path][f].retain.Some?
      ensures ok ==> ClearedAt(old(trie.g.tree), trie.g.tree, path, key)
      ensures !ok ==> trie.g == old(trie.g) && unchanged(old(trie.g.wood))
    {
      hide Snoc, Up, Tip, Good, trie.BranchesAgree, trie.LeavesAgree, SetKept, ClearedAt;
      Known("");
      ghost var tree: Tree := trie.g.tree;
      var rest := leaves.Keys;
      key := "";
      while rest != {}
        invariant rest <= leaves.Keys
        invariant trie.g == old(trie.g) && unchanged(old(trie.g.wood)) && Here()
        invariant forall f: string | f in tree[path] && f !in rest :: tree[path][f].retain.None?
      {
        var k :| k in rest;
        Known(k);
        ClearSteps(trie.g, path, k);
        var existed := ClearMessage(k);
        if existed {
          return true, k;
        }
        rest := rest - {k};
      }
      ok := false;
    }

    method RemoveRetain(topic: string, keys: seq<string>, index: nat) returns (ok: bool, ghost key: string)
      requires Here() && path != [] && index < |keys| && PrefixClosed(trie.g.tree)
      modifies trie`g, trie.g.wood
      ensures trie.Shape() && trie.g.wood == old(trie.g.wood)
      ensures ok <==> KeptThere(old(trie.g.tree), path, keys[index..])
      ensures ok ==> ClearedAt(old(trie.g.tree), trie.g.tree, Target(path, keys[index..]), key)
      ensures !ok ==> trie.g == old(trie.g) && unchanged(old(trie.g.wood))
      decreases |keys| - index
    {
      hide Snoc, Up, Tip, Good, trie.BranchesAgree, trie.LeavesAgree, ClearedAt, PrefixClosed, Target;
      Known("");
      ghost var tree: Tree := trie.g.tree;
      ok, key := false, "";
      if name == keys[index] {
        ChildNames();
        TargetVia(tree, path, keys[index..], branches.Keys);
        assert keys[index..][1..] == keys[index + 1..];
        if index + 1 == |keys| {
          ok, key := RemoveOwnRetain();
        } else {
          var rest := branches.Keys;
          while rest != {}
            invariant rest <= branches.Keys
            invariant trie.g == old(trie.g) && unchanged(old(trie.g.wood)) && Here()
            invariant forall k | k in branches && k !in rest :: !KeptThere(tree, Snoc(path, k), keys[index + 1..])
          {
            var k :| k in rest;
            Known(k);
            SnocLength(path, k);
            ok, key := branches[k].RemoveRetain(topic, keys, index + 1);
            if ok {
              return;
            }
            rest := rest - {k};
          }
        }
      }
    }

    lemma ChildNames()
      requires Here()
      ensures forall k :: k in branches.Keys <==> Snoc(path, k) in trie.g.tree
    {
      hide Snoc, Up, Tip, Good, trie.BranchesAgree, trie.LeavesAgree;
      forall k ensures k in branches.Keys <==> Snoc(path, k) in trie.g.tree {
        Known(k);
      }
    }

    method SearchLeaves(topic: string, keys: seq<string>, index: nat) returns (found: map<string, Leaf>)
      requires Here() && path != [] && index < |keys| && PrefixClosed(trie.g.tree)
      ensures trie.Finds(found, path, keys[index..])
      decreases |keys| - index, 1
    {
      hide Snoc, Up, Tip, Good, trie.BranchesAgree, trie.LeavesAgree, Searched, PrefixClosed;
      Known("");
      ghost var ks := keys[index..];
      SearchOutcome(trie.g.tree, path, ks);
      forall f | f in leaves && LeafFound(trie.g.tree, path, ks, path, f)
        ensures trie.LeafAt(path, f) == Some(leaves[f])
      {
        Known(f);
      }
      found := map[];
      if name == "#" {
        found := leaves;
      } else if index + 1 == |keys| && (name == "+" || name == keys[index]) {
        found := leaves;
      } else if name == "+" || name == keys[index] {
        found := SearchChildren(topic, keys, index);
      }
    }

    /** The loop of SearchLeaves over the children. */
    method SearchChildren(topic: string, keys: seq<string>, index: nat) returns (found: map<string, Leaf>)
      requires Here() && path != [] && index + 1 < |keys| && PrefixClosed(trie.g.tree)
      requires name != "#" && (name == "+" || name == keys[index])
      ensures trie.Finds(found, path, keys[index..])
      decreases |keys| - index, 0
    {
      hide Snoc, Up, Tip, Good, trie.BranchesAgree, trie.LeavesAgree, LeafFound, PrefixClosed;
      Known("");
      ghost var tree: Tree := trie.g.tree;
      ghost var ks := keys[index..];
      SearchVia(tree, path, ks);
      assert ks[1..] == keys[index + 1..];
      found := map[];
      ghost var done: set<string> := {};
      var rest := branches.Keys;
      while rest != {}
        invariant rest <= branches.Keys && done == branches.Keys - rest
        invariant trie.FindsVia(found, path, ks, done)
      {
        var k :| k in rest;
        Known(k);
        SnocLength(path, k);
        var subLeaves := branches[k].SearchLeaves(topic, keys, index + 1);
        trie.FindsMore(found, subLeaves, path, ks, done, k);
        found := found + subLeaves;
        rest, done := rest - {k}, done + {k};
      }
      assert done == branches.Keys;
      forall x, f | LeafFound(tree, path, ks, x, f) ensures f in found {
        Known(Toward(path, x));
      }
    }

    /** The messages retained on this branch alone. */
    method OwnRetains() returns (retains: seq<Message>, ghost from: seq<(Path, string)>)
      requires Here()
      ensures Lists(retains, from, KeptOn(trie.g.tree, {path}))
    {
      hide Snoc, Up, Tip, Good, trie.BranchesAgree, trie.LeavesAgree, KeptOn, Lists, OwnKept;
      Known("");
      ghost var ls := trie.g.tree[path];
      retains, from := [], [];
      var rest := leaves.Keys;
      ListsNothing<(Path, string), Message>();
      OwnKeptNone(ls, path);
      assert leaves.Keys - rest == {};
      while rest != {}
        invariant rest <= leaves.Keys
        invariant Lists(retains, from, OwnKept(ls, path, leaves.Keys - rest))
      {
        var k :| k in rest;
        Known(k);
        OwnKeptMore(ls, path, leaves.Keys - rest, k);
        if leaves[k].retain.Some? {
          ListsOneMore(retains, from, OwnKept(ls, path, leaves.Keys - rest), (path, k), leaves[k].retain.value);
          retains := retains + [leaves[k].retain.value];
          from := from + [(path, k)];
        }
        assert leaves.Keys - rest + {k} == leaves.Keys - (rest - {k});
        rest := rest - {k};
      }
      assert leaves.Keys - rest == ls.Keys;
      OwnKeptAll(trie.g.tree, path);
    }

    method GetRestRetain() returns (retains: seq<Message>, ghost from: seq<(Path, string)>)
      requires Here() && path != [] && PrefixClosed(trie.g.tree)
      ensures Lists(retains, from, KeptOn(trie.g.tree, Under(trie.g.tree, path)))
      ensures Enumerates(retains, KeptOn(trie.g.tree, Under(trie.g.tree, path)))
      decreases Under(trie.g.tree, path)
    {
      hide Snoc, Up, Tip, Good, trie.BranchesAgree, trie.LeavesAgree, KeptOn, Lists, Under, Via, PrefixClosed;
      Known("");
      ghost var tree: Tree := trie.g.tree;
      ghost var under := Under(tree, path);
      retains, from := OwnRetains();
      ghost var done: set<string> := {};
      var rest := branches.Keys;
      NoneVia(under, path);
      while rest != {}
        invariant rest <= branches.Keys && done == branches.Keys - rest
        invariant Lists(retains, from, KeptOn(tree, {path} + Via(under, path, done)))
      {
        var k :| k in rest;
        Known(k);
        SnocLength(path, k);
        UnderVia(tree, path, k);
        UnderShrinks(tree, path, k);
        var more, moreFrom := branches[k].GetRestRetain();
        ListsVia(tree, under, path, done, k, retains, from, more, moreFrom, {path});
        retains, from := retains + more, from + moreFrom;
        rest, done := rest - {k}, done + {k};
      }
      assert done == branches.Keys;
      ChildNames();
      UnderAll(tree, path, branches.Keys);
    }

    method SearchRetain(topic: string, keys: seq<string>, index: nat)
      returns (retains: seq<Message>, ghost from: seq<(Path, string)>)
      requires Here() && path != [] && index < |keys| && PrefixClosed(trie.g.tree)
      ensures Lists(retains, from, KeptOn(trie.g.tree, RetainedUnder(trie.g.tree, path, keys[index..])))
      ensures Enumerates(retains, KeptOn(trie.g.tree, RetainedUnder(trie.g.tree, path, keys[index..])))
      decreases |keys| - index
    {
      hide Snoc, Up, Tip, Good, trie.BranchesAgree, trie.LeavesAgree, KeptOn, Lists, Under, Via, RetainedUnder;
      hide PrefixClosed;
      Known("");
      ghost var tree: Tree := trie.g.tree;
      ghost var ks := keys[index..];
      ghost var hits := RetainedUnder(tree, path, ks);
      ChildNames();
      RetainOutcome(tree, path, ks, branches.Keys);
      ListsNone(tree);
      retains, from := [], [];
      if keys[index] == "#" {
        retains, from := GetRestRetain();
      } else if index + 1 == |keys| && (keys[index] == "+" || name == keys[index]) {
        retains, from := OwnRetains();
      } else if keys[index] == "+" || name == keys[index] {
        assert ks[1..] == keys[index + 1..];
        ghost var done: set<string> := {};
        var rest := branches.Keys;
        NoneVia(hits, path);
        while rest != {}
          invariant rest <= branches.Keys && done == branches.Keys - rest
          invariant Lists(retains, from, KeptOn(tree, {} + Via(hits, path, done)))
        {
          var k :| k in rest;
          Known(k);
          SnocLength(path, k);
          RetainedVia(tree, path, ks, k);
          var more, moreFrom := branches[k].SearchRetain(topic, keys, index + 1);
          ListsVia(tree, hits, path, done, k, retains, from, more, moreFrom, {});
          retains, from := retains + more, from + moreFrom;
          rest, done := rest - {k}, done + {k};
        }
        assert done == branches.Keys;
        assert {} + hits == hits;
      }
    }

    method Plant(topic: string, leaf: Leaf)
      requires Here() && topic !in leaves && leaf !in trie.g.wood
      requires leaf.parent == this && leaf.key == topic && leaf.Val() == LeafVal(map[], None)
      modifies trie`g, this`leaves
      ensures Here() && trie.g.at == old(trie.g.at) && topic in leaves && leaf == leaves[topic]
      ensures trie.g.wood == old(trie.g.wood) + {leaf}
      ensures trie.g.tree == old(trie.g.tree[path := trie.g.tree[path][topic := LeafVal(map[], None)]])
    {
      hide Snoc, Up, Tip, Good, trie.BranchesAgree, trie.LeavesAgree;
      Own(topic);
      LeavesGood(trie.g, path, leaves[topic := leaf], trie.g.tree[path][topic := leaf.Val()], trie.g.wood + {leaf});
      trie.g := LeavesGhost(trie.g, path, leaves[topic := leaf], trie.g.tree[path][topic := leaf.Val()],
                            trie.g.wood + {leaf});
      leaves := leaves[topic := leaf];
      LeavesSetBranches(this, trie.g.tree[path]);
      PlantLeaves(this, topic, leaf);
    }
  }

  twostate lemma LinkBranches(b: Branch, new child: Branch)
    requires old(b.Here()) && child !in old(b.trie.g.wood)
    requires child.trie == b.trie && child.parent == b && child.path == Snoc(b.path, child.name)
    requires child.leaves == map[] && child.branches == map[]
    requires child.path !in old(b.trie.g.at) && child.path != b.path
    requires b.trie.g == SproutGhost(old(b.trie.g), b.path, child.name, child) && Domains(b.trie.g)
    requires b.branches == old(b.branches)[child.name := child]
    requires unchanged(b`name, b`parent, b`leaves) && unchanged(old(b.trie.g.wood) - {b})
    ensures b.trie.BranchesAgree()
  {
    hide Snoc, Up, Tip, Good, b.trie.LeavesAgree;
  }

  twostate lemma LinkLeaves(b: Branch, new child: Branch)
    requires old(b.Here()) && child !in old(b.trie.g.wood)
    requires child.trie == b.trie && child.parent == b && child.path == Snoc(b.path, child.name)
    requires child.leaves == map[] && child.branches == map[]
    requires child.path !in old(b.trie.g.at) && child.path != b.path
    requires b.trie.g == SproutGhost(old(b.trie.g), b.path, child.name, child) && Domains(b.trie.g)
    requires b.branches == old(b.branches)[child.name := child]
    requires unchanged(b`name, b`parent, b`leaves) && unchanged(old(b.trie.g.wood) - {b})
    ensures b.trie.LeavesAgree()
  {
    hide Snoc, Up, Tip, Good;
  }

  /** Nothing of the tree changed. */
  twostate lemma SameShape(t: Trie)
    requires old(t.Shape()) && t.g == old(t.g) && t.root == old(t.root) && unchanged(old(t.g.wood))
    ensures t.Shape()
  {
    hide Good;
  }

  /** Only the leaves of b changed, and only as links: the branches still agree. */
  twostate lemma LeavesSetBranches(b: Branch, new values: Leaves)
    requires old(b.Here()) && Domains(b.trie.g)
    requires b.trie.g == LeavesGhost(old(b.trie.g), b.path, b.leaves, values, b.trie.g.wood)
    requires old(b.trie.g.wood) <= b.trie.g.wood
    requires unchanged(b`name, b`parent, b`branches) && unchanged(b.trie`root)
    requires forall o: Branch | o in old(b.trie.g.wood) && o != b :: unchanged(o)
    ensures b.trie.BranchesAgree()
  {
    hide Snoc, Up, Tip, Good, b.trie.LeavesAgree;
  }

  twostate lemma PlantLeaves(b: Branch, new topic: string, new leaf: Leaf)
    requires old(b.Here()) && Domains(b.trie.g) && topic !in old(b.leaves)
    requires leaf.parent == b && leaf.key == topic && leaf.Val() == LeafVal(map[], None)
    requires b.leaves == old(b.leaves)[topic := leaf]
    requires b.trie.g == LeavesGhost(old(b.trie.g), b.path, b.leaves,
                                     old(b.trie.g.tree)[b.path][topic := LeafVal(map[], None)],
                                         old(b.trie.g.wood) + {leaf})
    requires forall o: Leaf | o in old(b.trie.g.wood) :: unchanged(o)
    ensures b.trie.LeavesAgree()
  {
    hide Snoc, Up, Tip, Good;
    assert Same(old(b.leaves), old(b.trie.g).node[b.path].leaves);
  }

  twostate lemma PluckLeaves(b: Branch, new topic: string)
    requires old(b.Here()) && Domains(b.trie.g)
    requires b.trie.g == LeavesGhost(old(b.trie.g), b.path, old(b.leaves) - {topic},
                                     old(b.trie.g.tree)[b.path] - {topic}, old(b.trie.g.wood))
    requires forall o: Leaf | o in old(b.trie.g.wood) :: unchanged(o)
    ensures b.trie.LeavesAgree()
  {
    hide Snoc, Up, Tip, Good;
    assert Same(old(b.leaves), old(b.trie.g).node[b.path].leaves);
  }

  twostate lemma UnlinkBranches(b: Branch)
    requires old(b.Here()) && old(b.parent) != null && old(b.parent.Here()) && Domains(b.trie.g)
    requires old(b.parent).path == Up(b.path) && old(b.parent).trie == b.trie
    requires Up(b.path) in old(b.trie.g.node) && b.trie.g == UnlinkGhost(old(b.trie.g), b.path)
    requires old(b.name) == Tip(b.path) && Up(b.path) != b.path
    requires old(b.parent).branches == old(b.parent.branches) - {old(b.name)}
    requires unchanged(old(b.parent)`name) && unchanged(old(b.parent)`parent) && unchanged(old(b.parent)`leaves)
    requires forall o: Branch | o in old(b.trie.g.wood) && o != old(b.parent) :: unchanged(o)
    ensures b.trie.BranchesAgree()
  {
    hide Snoc, Up, Tip, Good, b.trie.LeavesAgree;
  }

  twostate lemma UnlinkLeaves(b: Branch)
    requires old(b.Here()) && Domains(b.trie.g)
    requires Up(b.path) in old(b.trie.g.node) && b.trie.g == UnlinkGhost(old(b.trie.g), b.path)
    requires forall o: Leaf | o in old(b.trie.g.wood) :: unchanged(o)
    ensures b.trie.LeavesAgree()
  {
    hide Snoc, Up, Tip, Good;
  }

  /** Only one leaf object changed. */
  twostate lemma ValueBranches(b: Branch, new key: string)
    requires old(b.Here()) && Domains(b.trie.g) && key in old(b.leaves)
    requires b.trie.g == ValueGhost(old(b.trie.g), b.path, key, old(b.leaves)[key].Val())
    requires forall o: Branch | o in old(b.trie.g.wood) :: unchanged(o)
    ensures b.trie.BranchesAgree()
  {
    hide Snoc, Up, Tip, Good, b.trie.LeavesAgree;
  }

  /** A leaf object is filed in one place only. */
  twostate lemma OnePlace(b: Branch, new key: string)
    requires old(b.Here()) && key in old(b.leaves) && key in old(b.trie.g.tree)[b.path]
    ensures var g := old(b.trie.g);
            forall q, f | q in g.at && f in g.node[q].leaves && f in g.tree[q]
                && g.node[q].leaves[f] == old(b.leaves)[key] ::
              q == b.path && f == key
  {
    hide Snoc, Up, Tip, Good;
    var g := old(b.trie.g);
    assert Same(old(b.leaves), g.node[b.path].leaves);
    assert g.node[b.path].leaves[key] == old(b.leaves)[key];
    forall q, f | q in g.at && f in g.node[q].leaves && f in g.tree[q] && g.node[q].leaves[f] == old(b.leaves)[key]
      ensures q == b.path && f == key
    {
      var l := g.node[q].leaves[f];
      assert l.parent == g.at[q] && l.parent == b;
      assert Same(l.key, f) && Same(l.key, key);
      assert Same(g.at[q].path, q) && Same(b.path, q);
    }
  }

  twostate lemma ValueLeaves(b: Branch, new key: string)
    requires old(b.Here()) && Domains(b.trie.g) && key in old(b.leaves) && key in old(b.trie.g.tree)[b.path]
    requires b.trie.g == ValueGhost(old(b.trie.g), b.path, key, old(b.leaves)[key].Val())
    requires forall o: Leaf | o in old(b.trie.g.wood) && o != old(b.leaves)[key] :: unchanged(o)
    ensures b.trie.LeavesAgree()
  {
    hide Snoc, Up, Tip, Good;
    OnePlace(b, key);
    assert Same(old(b.leaves), old(b.trie.g).node[b.path].leaves);
  }

  /** Equality; stated for any type, it is cheaper for the solver than element-wise equality. */
  ghost predicate Same<T>(a: T, b: T) {
    a == b
  }

  /** The fields of a branch, as a value. */
  datatype Node = Node(name: string, parent: Branch?, branches: map<string, Branch>, leaves: map<string, Leaf>)

  /** The linked branches by path, their fields, what their leaves hold, and every object used so far. */
  datatype Ghost = Ghost(at: map<Path, Branch>, node: map<Path, Node>, tree: Tree, wood: set<object>)

  /** Links that agree with `at`: the parent one level up, the children one level down. */
  ghost predicate Links(at: map<Path, Branch>, p: Path, n: Node) {
    && (if p == [] then n.parent == null else Up(p) in at && n.parent == at[Up(p)] && n.name == Tip(p))
    && (forall k :: k in n.branches <==> Snoc(p, k) in at)
    && (forall k | k in n.branches :: n.branches[k] == at[Snoc(p, k)])
  }

  ghost predicate Closed(at: map<Path, Branch>) {
    forall q: Path, k: string | Snoc(q, k) in at :: q in at
  }

  ghost predicate Good(g: Ghost)
    requires Domains(g)
  {
    && [] in g.at
    && Closed(g.at)
    && (forall p | p in g.at :: Links(g.at, p, g.node[p]))
    && (forall p | p in g.at :: g.node[p].leaves.Keys == g.tree[p].Keys)
  }

  ghost predicate Domains(g: Ghost) {
    g.node.Keys == g.at.Keys && g.tree.Keys == g.at.Keys
  }

  lemma LinksHere(at: map<Path, Branch>, p: Path, n: Node, key: string)
    requires Links(at, p, n)
    ensures if p == [] then n.parent == null else Up(p) in at && n.parent == at[Up(p)] && n.name == Tip(p)
    ensures key in n.branches <==> Snoc(p, key) in at
    ensures key in n.branches ==> n.branches[key] == at[Snoc(p, key)]
  {
  }

  lemma PutLeafTwice(tree: Tree, before: Tree, p: Path, key: string, id: string, subscriber: Option<Client>)
    requires p in before && tree == before[p := PutLeaf(before[p], key, "", None)]
    ensures tree[p := tree[p][key := PutLeaf(before[p], key, id, subscriber)[key]]] ==
            before[p := PutLeaf(before[p], key, id, subscriber)]
    ensures tree[p][key] == LeafVal(SubsIn(before[p], key), KeptIn(before[p], key))
  {
    var v := PutLeaf(before[p], key, id, subscriber)[key];
    assert tree[p][key := v] == before[p][key := v];
    assert tree[p := before[p][key := v]] == before[p := before[p][key := v]];
  }

  /** One level of AddBranch. */
  lemma SubscribeStep(tree: Tree, q: Path, keys: seq<string>, index: nat, f: string, id: string, c: Client)
    requires index < |keys| && q in tree
    ensures var k := TrimSpace(keys[index]);
            var names := FilterPath(keys[index..]);
            var t := WithBranch(tree, Snoc(q, k));
            var up := AddSub(t, Snoc(q, k), f, id, c);
            && q in t && Snoc(q, k) in t && Up(Snoc(q, k)) == q && Snoc(q, k) != []
                && LeavesAt(t, Snoc(q, k)) == LeavesAt(tree, Snoc(q, k))
            && (k == "#" || index + 1 == |keys| ==>
                  && names == [k] && q + names == Snoc(q, k)
                  && SubscribeTree(tree, q, names, f, id, c) == if k == "#" then AddSub(up, q, f, id, c) else up)
            && (k != "#" && index + 1 < |keys| ==>
                  var rest := FilterPath(keys[index + 1..]);
                  && q + names == Snoc(q, k) + rest
                  && LeavesAt(t, Snoc(q, k) + rest) == LeavesAt(tree, Snoc(q, k) + rest)
                  && SubscribeTree(tree, q, names, f, id, c) == SubscribeTree(t, Snoc(q, k), rest, f, id, c))
  {
    hide TrimSpace;
    var k := TrimSpace(keys[index]);
    var names := FilterPath(keys[index..]);
    assert keys[index..][1..] == keys[index + 1..];
    if k != "#" && index + 1 < |keys| {
      assert names[1..] == FilterPath(keys[index + 1..]);
      assert q + names == Snoc(q, k) + names[1..];
      assert Last(names) == Last(names[1..]);
    } else {
      assert names == [k];
      assert Grow(tree, q, names) == Grow(WithBranch(tree, q + [k]), q + [k], []);
      assert Parent(q + names) == q;
    }
  }

  /** One level of AddRetain. */
  lemma KeepStep(tree: Tree, q: Path, keys: seq<string>, index: nat, f: string, m: Message)
    requires index < |keys| && q in tree
    ensures var k := TrimSpace(keys[index]);
            var names := TrimAll(keys[index..]);
            var t := WithBranch(tree, Snoc(q, k));
            var rest := TrimAll(keys[index + 1..]);
            && Snoc(q, k) in t && LeavesAt(t, Snoc(q, k)) == LeavesAt(tree, Snoc(q, k))
            && q + names == Snoc(q, k) + rest
            && LeavesAt(t, Snoc(q, k) + rest) == LeavesAt(tree, Snoc(q, k) + rest)
            && KeepTree(tree, q, names, f, m) == KeepTree(t, Snoc(q, k), rest, f, m)
            && (index + 1 == |keys| ==>
                  && rest == [] && Snoc(q, k) + rest == Snoc(q, k)
                  && KeepTree(t, Snoc(q, k), [], f, m) == t[Snoc(q, k) := SetKept(t[Snoc(q, k)], f, Some(m))])
  {
    hide TrimSpace;
    var names := TrimAll(keys[index..]);
    assert names[1..] == TrimAll(keys[index + 1..]);
    assert q + names == Snoc(q, names[0]) + names[1..];
  }

  lemma KeepLeafSteps(tree: Tree, p: Path, key: string, m: Message)
    requires p in tree
    ensures var t := tree[p := PutLeaf(tree[p], key, "", None)];
            key in t[p] &&
            var v := t[p][key];
            && t[p := t[p][key := LeafVal(v.subs, Some(m))]] == tree[p := SetKept(tree[p], key, Some(m))]
            && v.retain == KeptIn(tree[p], key)
  {
    var ls := PutLeaf(tree[p], key, "", None);
    assert ls[key := LeafVal(ls[key].subs, Some(m))] == SetKept(tree[p], key, Some(m));
  }

  /** One message is cleared, and its leaf stays. */
  ghost predicate ClearedAt(before: Tree, after: Tree, p: Path, key: string) {
    && p in before && key in before[p] && before[p][key].retain.Some?
    && after == before[p := SetKept(before[p], key, None)]
  }

  lemma ClearSteps(g: Ghost, p: Path, key: string)
    requires p in g.tree && key in g.tree[p]
    ensures var v := g.tree[p][key];
            var h := ValueGhost(g, p, key, LeafVal(v.subs, None));
            if v.retain.Some? then ClearedAt(g.tree, h.tree, p, key) else h == g
  {
    var v := g.tree[p][key];
    if v.retain.None? {
      assert g.tree[p][key := LeafVal(v.subs, None)] == g.tree[p];
    }
  }

  lemma HoldersMeans(s: State, f: string)
    ensures Wild(f) ==> Holders(s, f) == SubsIn(LeavesAt(s.tree, SubPath(f)), f)
    ensures !Wild(f) ==> Holders(s, f) == SubsIn(s.foliage, f)
    ensures LeafVal(SubsIn(s.foliage, f), KeptIn(s.foliage, f)) ==
        if f in s.foliage then s.foliage[f] else LeafVal(map[], None)
  {
  }

  /** Making an empty leaf first does not change what AddSubscriber leaves behind. */
  lemma PutAfterMake(ls: Leaves, f: string, id: string, c: Client)
    ensures var made := if f in ls then ls else ls[f := LeafVal(map[], None)];
            PutLeaf(made, f, id, Some(c)) == PutLeaf(ls, f, id, Some(c)) && SubsIn(made, f) == SubsIn(ls, f)
  {
    if f !in ls {
      assert ls[f := LeafVal(map[], None)][f := PutLeaf(ls, f, id, Some(c))[f]] == PutLeaf(ls, f, id, Some(c));
    }
  }

  lemma KeptMeans(s: State, t: Table, f: string)
    requires WF(s, t) && !Blank(f)
    ensures f in t.retained <==> KeptIn(LeavesAt(s.tree, KeepPath(f)), f).Some?
  {
    hide WellBuilt, KeepPath, LiveIs, CopiesAre;
    assert f in t.retained <==> Kept(s, f).Some?;
  }

  lemma PlainStart(f: string, keys: seq<string>, index: nat)
    requires !Blank(f) && keys == Split(f) && index == Start(keys)
    ensures index < |keys| && keys[index..] == Levels(f) && Levels(f) != []
  {
  }

  lemma KeepStart(f: string, keys: seq<string>, index: nat)
    requires !Blank(f) && keys == Split(f) && index == Start(keys)
    ensures index < |keys| && TrimAll(keys[index..]) == KeepPath(f) && [] + TrimAll(keys[index..]) == KeepPath(f)
  {
    hide TrimAll;
  }

  ghost function FirstGhost(b: Branch): Ghost {
    Ghost(map[[] := b], map[[] := Node("root", null, map[], map[])], map[[] := map[]], {b})
  }

  lemma FirstGood(b: Branch)
    ensures Domains(FirstGhost(b)) && Good(FirstGhost(b))
  {
    hide Snoc, Up, Tip;
    PathFacts();
  }

  lemma FirstShape(t: Trie, b: Branch)
    requires t.root == b && t.g == FirstGhost(b)
    requires b.trie == t && b.name == "root" && b.parent == null && b.path == [] && b.leaves == map[]
        && b.branches == map[]
    ensures t.Shape()
  {
    hide Snoc, Up, Tip, Good;
    FirstGood(b);
  }

  lemma RootCleared(s: State, t: Table, after: Tree, p: Path, key: string)
    requires WF(s, t) && ClearedAt(s.tree, after, p, key)
    ensures WF(State(s.foliage, after), t.DropRetained(key))
    ensures State(s.foliage, after) == DropKeptState(s, p, key)
    ensures key in t.retained && KeepPath(key) == p
  {
    hide WF;
    assert LeavesAt(s.tree, p) == s.tree[p];
    DropKeptLaw(s, t, p, key);
  }

  lemma EmptyWF(t: Table)
    requires t == EMPTY
    ensures WF(State(map[], map[[] := map[]]), t)
  {
    hide SubPath, KeepPath, Wild, Blank;
  }

  lemma LiveMeans(s: State, t: Table, f: string, id: string)
    requires WF(s, t)
    ensures (f, id) in t.live <==> id in Holders(s, f)
  {
    hide Holders, WellBuilt;
    var pr := (f, id);
    assert pr in t.live <==> pr.1 in Holders(s, pr.0);
  }

  /** The start index of a wildcard filter leaves at least one level. */
  lemma RootStart(f: string, keys: seq<string>, index: nat)
    requires Wild(f) && keys == Split(f) && index == Start(keys)
    ensures index < |keys| && keys[index..] == Levels(f)
    ensures FilterPath(keys[index..]) == SubPath(f) && [] + SubPath(f) == SubPath(f)
  {
    WildHasLevels(f);
  }

  lemma DropSubSteps(tree: Tree, p: Path, key: string, id: string)
    requires p in tree && key in tree[p]
    ensures var v := LeafVal(tree[p][key].subs - {id}, tree[p][key].retain);
            var t := tree[p := tree[p][key := v]];
            tree[p := DropSub(tree[p], key, id)] ==
            if v.subs == map[] && v.retain.None? then t[p := t[p] - {key}] else t
  {
    var v := LeafVal(tree[p][key].subs - {id}, tree[p][key].retain);
    assert tree[p][key := v] - {key} == tree[p] - {key};
  }

  ghost function UnlinkGhost(g: Ghost, p: Path): Ghost
    requires Up(p) in g.node
  {
    var n := g.node[Up(p)];
    Ghost(g.at - {p}, (g.node - {p})[Up(p) := n.(branches := n.branches - {Tip(p)})], g.tree - {p}, g.wood)
  }

  lemma UnlinkGood(g: Ghost, p: Path)
    requires Domains(g) && Good(g) && p in g.at && p != [] && !HasChild(g.tree, p)
    ensures Up(p) in g.at && Up(p) != p
    ensures Domains(UnlinkGhost(g, p)) && Good(UnlinkGhost(g, p))
  {
    hide Snoc, Up, Tip, Links;
    PathFacts();
    LinksHere(g.at, p, g.node[p], "");
    UpNotSelf(p);
    var h := UnlinkGhost(g, p);
    forall q | q in h.at ensures Links(h.at, q, h.node[q]) {
      assert Links(g.at, q, g.node[q]);
      UnlinkOne(g.at, p, q, g.node[q]);
    }
    forall q: Path, k: string | Snoc(q, k) in h.at ensures q in h.at {
      assert q in g.at;
    }
  }

  lemma UpNotSelf(p: Path)
    requires p != []
    ensures Up(p) != p
  {
    assert |Up(p)| < |p|;
  }

  lemma UnlinkOne(at: map<Path, Branch>, p: Path, q: Path, n: Node)
    requires p in at && p != [] && q in at && q != p && Links(at, q, n)
    requires forall k :: Snoc(p, k) !in at
    ensures Links(at - {p}, q, if q == Up(p) then n.(branches := n.branches - {Tip(p)}) else n)
  {
    hide Snoc, Up, Tip;
    PathFacts();
    assert Snoc(Up(p), Tip(p)) == p;
    if q != [] {
      assert Snoc(Up(q), Tip(q)) == q;
    }
    forall k ensures Snoc(q, k) == p <==> q == Up(p) && k == Tip(p) {
      assert Up(Snoc(q, k)) == q && Tip(Snoc(q, k)) == k;
    }
  }

  ghost function ValueGhost(g: Ghost, p: Path, key: string, v: LeafVal): Ghost
    requires p in g.tree
  {
    Ghost(g.at, g.node, g.tree[p := g.tree[p][key := v]], g.wood)
  }

  lemma ValueGood(g: Ghost, p: Path, key: string, v: LeafVal)
    requires Domains(g) && Good(g) && p in g.at && key in g.tree[p]
    ensures Domains(ValueGhost(g, p, key, v)) && Good(ValueGhost(g, p, key, v))
  {
    hide Snoc, Up, Tip, Links, Closed;
  }

  ghost function LeavesGhost(g: Ghost, p: Path, leaves: map<string, Leaf>, values: Leaves, wood: set<object>): Ghost
    requires p in g.node
  {
    Ghost(g.at, g.node[p := g.node[p].(leaves := leaves)], g.tree[p := values], wood)
  }

  lemma LeavesGood(g: Ghost, p: Path, leaves: map<string, Leaf>, values: Leaves, wood: set<object>)
    requires Domains(g) && Good(g) && p in g.at && leaves.Keys == values.Keys
    ensures Domains(LeavesGhost(g, p, leaves, values, wood)) && Good(LeavesGhost(g, p, leaves, values, wood))
  {
    hide Snoc, Up, Tip, Closed;
    hide Links;
    LinksOnly(g.at, p, g.node[p], leaves);
  }

  lemma LinksOnly(at: map<Path, Branch>, p: Path, n: Node, leaves: map<string, Leaf>)
    requires p in at ==> Links(at, p, n)
    ensures p in at ==> Links(at, p, n.(leaves := leaves))
  {
    hide Snoc, Up, Tip;
  }

  ghost function SproutGhost(g: Ghost, p: Path, key: string, child: Branch): Ghost
    requires p in g.at && p in g.node
  {
    var c := Snoc(p, key);
    var n := g.node[p];
    Ghost(g.at[c := child],
          g.node[p := n.(branches := n.branches[key := child])][c := Node(key, g.at[p], map[], map[])],
          g.tree[c := map[]], g.wood + {child})
  }

  lemma SproutGood(g: Ghost, p: Path, key: string, child: Branch)
    requires Domains(g) && Good(g) && p in g.at && Snoc(p, key) !in g.at
    ensures Good(SproutGhost(g, p, key, child)) && Domains(SproutGhost(g, p, key, child))
    ensures Snoc(p, key) != p
  {
    hide Snoc, Up, Tip, Links;
    PathFacts();
    var h := SproutGhost(g, p, key, child);
    SproutHere(g.at, p, key, child, g.node[p]);
    ClosedStill(g.at, p, key, child);
    forall q | q in h.at ensures Links(h.at, q, h.node[q]) {
      if q in g.at && q != p {
        SproutElsewhere(g.at, p, key, child, q, g.node[q]);
      }
    }
  }

  lemma ClosedStill(at: map<Path, Branch>, p: Path, key: string, child: Branch)
    requires p in at && Closed(at)
    ensures Closed(at[Snoc(p, key) := child])
  {
    hide Snoc, Up, Tip;
    PathFacts();
    forall q: Path, k: string | Snoc(q, k) == Snoc(p, key) ensures q == p {
      assert Up(Snoc(q, k)) == q;
    }
  }

  lemma SproutHere(at: map<Path, Branch>, p: Path, key: string, child: Branch, n: Node)
    requires p in at && Closed(at) && Links(at, p, n) && Snoc(p, key) !in at
    ensures Links(at[Snoc(p, key) := child], p, n.(branches := n.branches[key := child]))
    ensures Links(at[Snoc(p, key) := child], Snoc(p, key), Node(key, at[p], map[], map[]))
    ensures Snoc(p, key) != p
  {
    hide Snoc, Up, Tip;
    PathFacts();
    forall k ensures Snoc(Snoc(p, key), k) !in at[Snoc(p, key) := child] {
      assert Up(Snoc(Snoc(p, key), k)) == Snoc(p, key);
    }
  }

  lemma SproutElsewhere(at: map<Path, Branch>, p: Path, key: string, child: Branch, q: Path, n: Node)
    requires q in at && q != p && Links(at, q, n) && Snoc(p, key) !in at
    ensures Links(at[Snoc(p, key) := child], q, n)
  {
    hide Snoc, Up, Tip;
    PathFacts();
  }

  class Trie {
    var root: Branch?
    var foliage: map<string, Leaf>
    ghost var g: Ghost
    /** What the foliage leaves hold, every foliage leaf used so far, and the table all of it stands for. */
    ghost var plain: Leaves
    ghost var sap: set<object>
    ghost var table: Table

    /** The objects are linked as the ghost state says. */
    ghost predicate Shape()
      reads this`root, this`g, g.wood
    {
      && Domains(g) && Good(g) && [] in g.at && g.at[[]] == root && this !in g.wood
      && BranchesAgree() && LeavesAgree()
    }

    ghost function LeafAt(p: Path, key: string): Option<Leaf>
      reads this`g
    {
      if p in g.node && key in g.node[p].leaves then Some(g.node[p].leaves[key]) else None
    }

    /** Every leaf found answers the search from q, and every topic key that has one is there. */
    ghost predicate Finds(found: map<string, Leaf>, q: Path, keys: seq<string>)
      requires keys != []
      reads this`g
    {
      && (forall f | f in found :: exists x :: LeafFound(g.tree, q, keys, x, f) && LeafAt(x, f) == Some(found[f]))
      && (forall x, f :: LeafFound(g.tree, q, keys, x, f) ==> f in found)
    }

    /** The same, as far as the named children have been searched. */
    ghost predicate FindsVia(found: map<string, Leaf>, q: Path, keys: seq<string>, names: set<string>)
      requires |keys| > 1
      reads this`g
    {
      && (forall f | f in found :: exists x :: LeafFound(g.tree, q, keys, x, f) && LeafAt(x, f) == Some(found[f]))
      && (forall k, x, f | k in names && LeafFound(g.tree, Snoc(q, k), keys[1..], x, f) :: f in found)
    }

    lemma FindsMore(found: map<string, Leaf>, sub: map<string, Leaf>, q: Path, keys: seq<string>, names: set<string>,
                    k: string)
      requires |keys| > 1 && FindsVia(found, q, keys, names) && Finds(sub, Snoc(q, k), keys[1..])
      requires forall x, f :: LeafFound(g.tree, Snoc(q, k), keys[1..], x, f) ==> LeafFound(g.tree, q, keys, x, f)
      ensures FindsVia(found + sub, q, keys, names + {k})
    {
      hide Snoc, LeafFound, LeafAt;
      forall f | f in sub
        ensures exists x :: LeafFound(g.tree, q, keys, x, f) && LeafAt(x, f) == Some(sub[f])
      {
        var x :| LeafFound(g.tree, Snoc(q, k), keys[1..], x, f) && LeafAt(x, f) == Some(sub[f]);
        assert LeafFound(g.tree, q, keys, x, f);
      }
    }

    ghost predicate BranchesAgree()
      requires Domains(g)
      reads this`g, g.wood
    {
      forall p | p in g.at ::
        var b := g.at[p];
        && b in g.wood && b.trie == this && Same(b.path, p)
        && Same(b.name, g.node[p].name) && b.parent == g.node[p].parent
        && Same(b.branches, g.node[p].branches) && Same(b.leaves, g.node[p].leaves)
    }

    ghost predicate LeavesAgree()
      requires Domains(g)
      reads this`g, g.wood
    {
      forall p, f | p in g.at && f in g.node[p].leaves && f in g.tree[p] ::
        var l := g.node[p].leaves[f];
        && l in g.wood && l.parent == g.at[p] && Same(l.key, f)
        && Same(l.subscribers, g.tree[p][f].subs) && Same(l.retain, g.tree[p][f].retain)
    }

    ghost predicate FoliageAgrees()
      reads this`foliage, this`plain, this`sap, sap
    {
      && (forall f :: f in foliage <==> f in plain)
      && (forall f | f in foliage ::
            foliage[f] in sap && Same(foliage[f].key, f) && Same(foliage[f].Val(), plain[f]))
    }

    ghost predicate Agrees()
      reads this`root, this`foliage, this`g, this`plain, this`sap, g.wood, sap
    {
      Shape() && FoliageAgrees() && this !in g.wood && this !in sap && g.wood !! sap
    }

    ghost function Value(): State
      reads this`g, this`plain
    {
      State(plain, g.tree)
    }

    /** The objects are a well-formed trie that stands for `table`. */
    ghost predicate Valid()
      reads this, g.wood, sap
    {
      Agrees() && WF(Value(), table)
    }

    ghost function Repr(): set<object>
      reads this
    {
      {this} + g.wood + sap
    }

    constructor ()
      ensures Valid() && fresh(Repr())
      ensures table == EMPTY && Value() == State(map[], map[[] := map[]])
    {
      root, foliage := null, map[];
      new;
      hide Shape, Good, WF, Snoc;
      var b := new Branch(this, "root", null, []);
      root := b;
      g := FirstGhost(b);
      plain, sap := map[], {};
      table := EMPTY;
      FirstShape(this, b);
      EmptyWF(table);
    }

    method Subscribe(topic: string, identity: string, subscriber: Client) returns (exist: bool)
      requires Valid()
      modifies Repr()
      ensures Valid() && fresh(Repr() - old(Repr()))
      ensures table == old(table).Subscribe(topic, identity, subscriber)
      ensures Value() == SubscribeState(old(Value()), topic, identity, subscriber)
      ensures exist <==> (topic, identity) in old(table).live
    {
      hide Shape, FoliageAgrees, WF, SubPath, Levels, SubscribeTree, PutLeaf, Snoc, Wild, Holders;
      LiveMeans(Value(), table, topic, identity);
      HoldersMeans(Value(), topic);
      SubscribeLaw(Value(), table, topic, identity, subscriber);
      ghost var next := SubscribeState(Value(), topic, identity, subscriber);
      var leaf := FindFoliage(topic);
      if Wild(topic) {
        var keys := Split(topic);
        var index := Start(keys);
        RootStart(topic, keys, index);
        exist := TreeSubscribe(topic, identity, subscriber, keys, index);
      } else {
        PutAfterMake(old(plain), topic, identity, subscriber);
        exist := PlainSubscribe(topic, identity, subscriber);
      }
      table := table.Subscribe(topic, identity, subscriber);
      assert Value() == next;
    }

    /** The foliage leaf for this topic, made if it is missing. */
    method FindFoliage(topic: string) returns (leaf: Leaf)
      requires Agrees()
      modifies this`foliage, this`plain, this`sap
      ensures Agrees() && topic in foliage && leaf == foliage[topic] && leaf in sap
      ensures old(sap) <= sap && fresh(sap - old(sap))
      ensures plain == if topic in old(plain) then old(plain) else old(plain)[topic := LeafVal(map[], None)]
    {
      hide Shape;
      if topic in foliage {
        leaf := foliage[topic];
      } else {
        leaf := new Leaf(null, topic);
        foliage := foliage[topic := leaf];
        plain := plain[topic := leaf.Val()];
        sap := sap + {leaf};
        SameShape(this);
      }
    }

    lemma RootHere()
      requires Shape()
      ensures root != null && root.trie == this && root.path == [] && root.Here()
      ensures this !in g.wood
    {
      hide Good, Snoc;
    }

    lemma FoliageAt(topic: string)
      requires FoliageAgrees()
      ensures topic in foliage <==> topic in plain
      ensures topic in foliage ==> foliage[topic] in sap && foliage[topic].Val() == plain[topic]
    {
    }

    /** Only the leaf of one topic changed, and the ghost state follows it. */
    twostate lemma FoliageFollows(new topic: string)
      requires old(FoliageAgrees()) && topic in old(foliage) && sap == old(sap)
      requires forall o: Leaf | o in sap && o != old(foliage)[topic] :: unchanged(o)
      requires || (foliage == old(foliage) && plain == old(plain)[topic := foliage[topic].Val()])
               || (foliage == old(foliage) - {topic} && plain == old(plain) - {topic})
      ensures FoliageAgrees()
    {
      var f := old(foliage);
      assert Same(f[topic].key, topic);
      forall g | g in f && g != topic ensures f[g] != f[topic] {
        assert Same(f[g].key, g);
      }
    }

    method PlainSubscribe(topic: string, identity: string, subscriber: Client) returns (exist: bool)
      requires Agrees() && topic in foliage
      modifies foliage[topic], this`plain
      ensures Agrees()
      ensures plain == PutLeaf(old(plain), topic, identity, Some(subscriber))
      ensures exist == (identity in SubsIn(old(plain), topic))
    {
      hide Shape, FoliageAgrees, PutLeaf, SubsIn, KeptIn;
      FoliageAt(topic);
      var leaf := foliage[topic];
      assert leaf in sap && leaf !in g.wood;
      PutSubIs(plain, topic, identity, subscriber);
      exist := leaf.AddSubscriber(identity, subscriber);
      plain := plain[topic := leaf.Val()];
      FoliageFollows(topic);
      SameShape(this);
    }

    lemma PutSubIs(was: Leaves, key: string, id: string, subscriber: Client)
      requires key in was
      ensures SubsIn(was, key) == was[key].subs
      ensures PutLeaf(was, key, id, Some(subscriber)) ==
              was[key := LeafVal(was[key].subs[id := subscriber], was[key].retain)]
    {
    }

    method TreeSubscribe(topic: string, identity: string, subscriber: Client, keys: seq<string>, index: nat)
      returns (exist: bool)
      requires Agrees() && index < |keys|
      modifies this`g, g.wood
      ensures Agrees() && old(g.wood) <= g.wood && fresh(g.wood - old(g.wood))
      ensures var names := FilterPath(keys[index..]);
              && g.tree == SubscribeTree(old(g.tree), [], names, topic, identity, subscriber)
              && exist == (identity in SubsIn(LeavesAt(old(g.tree), [] + names), topic))
    {
      hide Good, Snoc, BranchesAgree, LeavesAgree, SubscribeTree, FilterPath;
      RootHere();
      exist := root.AddBranch(topic, identity, subscriber, keys, index);
    }

    method PlainUnsubscribe(topic: string, identity: string)
      requires Agrees() && topic in foliage
      modifies foliage[topic], this`foliage, this`plain
      ensures Agrees()
      ensures plain == DropSub(old(plain), topic, identity)
    {
      hide Shape, FoliageAgrees, DropSub;
      FoliageAt(topic);
      var leaf := foliage[topic];
      assert leaf in sap && leaf !in g.wood;
      leaf.RemoveSubscriber(identity);
      DropSubIs(plain, topic, identity, leaf.Val());
      if leaf.subscribers == map[] && leaf.retain.None? {
        foliage, plain := foliage - {topic}, plain - {topic};
      } else {
        plain := plain[topic := leaf.Val()];
      }
      FoliageFollows(topic);
      SameShape(this);
    }

    lemma DropSubIs(was: Leaves, key: string, id: string, now: LeafVal)
      requires key in was && now == LeafVal(was[key].subs - {id}, was[key].retain)
      ensures DropSub(was, key, id) == if now.subs == map[] && now.retain.None? then was - {key} else was[key := now]
    {
    }

    method TreeUnsubscribe(topic: string, identity: string, keys: seq<string>, index: nat) returns (exist: bool)
      requires Agrees() && WellBuilt(g.tree) && Wild(topic) && index < |keys| && keys[index..] == Levels(topic)
      modifies this`g, g.wood
      ensures Agrees() && g.wood == old(g.wood)
      ensures SubPath(topic) != []
      ensures exist <==> Scannable(topic) && topic in LeavesAt(old(g.tree), SubPath(topic))
      ensures g.tree == if exist then UnsubscribeTree(old(g.tree), SubPath(topic), topic, identity, 1) else old(g.tree)
    {
      hide Good, Snoc, BranchesAgree, LeavesAgree, UnsubscribeTree, SubPath, Wild, Scannable, Scanned, FoliageAgrees;
      RootHere();
      root.Known("");
      ghost var tree: Tree := g.tree;
      ghost var home := SubPath(topic);
      RootScan(tree, topic);
      var rest := root.branches.Keys;
      while rest != {}
        invariant rest <= root.branches.Keys && root == old(root)
        invariant g == old(g) && unchanged(old(g.wood)) && Agrees() && root.Here()
        invariant forall k | k in root.branches
            && k !in rest :: !ScanFound(tree, Snoc([], k), keys[index..], topic, home)
      {
        var k :| k in rest;
        root.Known(k);
        SnocLength([], k);
        var found := root.branches[k].ScanRemoveLeaf(identity, topic, keys, index, home);
        if found {
          return true;
        }
        rest := rest - {k};
      }
      exist := false;
      root.Known(home[0]);
      RootLinked(tree, home);
    }

    method Unsubscribe(topic: string, identity: string) returns (exist: bool)
      requires Valid()
      modifies Repr()
      ensures Valid() && fresh(Repr() - old(Repr()))
      ensures table == old(table).Unsubscribe(topic, identity)
      ensures Value() == UnsubscribeState(old(Value()), topic, identity)
      ensures exist <==> Table.Removable(topic) && HasLeaf(old(Value()), topic)
      ensures (topic, identity) in old(table).live && Table.Removable(topic) ==> exist
    {
      hide Shape, FoliageAgrees, SubPath, Levels, UnsubscribeTree, DropSub, Snoc, Wild, Scannable;
      hide LiveIs, CopiesAre, RetainedAre, FoliageOk, WellBuilt;
      UnsubscribeLaw(Value(), table, topic, identity);
      ghost var next := UnsubscribeState(Value(), topic, identity);
      exist := false;
      if Wild(topic) {
        var keys := Split(topic);
        var index := Start(keys);
        RootStart(topic, keys, index);
        exist := TreeUnsubscribe(topic, identity, keys, index);
      } else {
        FoliageAt(topic);
        if topic in foliage {
          PlainUnsubscribe(topic, identity);
          exist := true;
        }
      }
      table := table.Unsubscribe(topic, identity);
      assert Value() == next;
    }

    /** The keys of the foliage, in some order. */
    method RangeTopics() returns (topics: seq<string>)
      requires Valid()
      ensures Distinct(topics) && forall f :: f in topics <==> f in table.topics
    {
      hide Shape, WellBuilt, LiveIs, CopiesAre, RetainedAre, FoliageOk;
      topics := [];
      var rest := foliage.Keys;
      while rest != {}
        invariant rest <= foliage.Keys
        invariant Distinct(topics) && forall f :: f in topics <==> f in foliage && f !in rest
      {
        var f :| f in rest;
        topics := topics + [f];
        rest := rest - {f};
      }
    }

    method AddRetain(topic: string, packet: Message) returns (exist: bool)
      requires Valid() && !Blank(topic)
      modifies Repr()
      ensures Valid() && fresh(Repr() - old(Repr()))
      ensures table == old(table).Retain(topic, packet)
      ensures Value() == KeepState(old(Value()), topic, packet)
      ensures exist <==> topic in old(table).retained
    {
      hide Shape, FoliageAgrees, KeepPath, KeepTree, Snoc, TrimAll, KeptIn;
      hide LiveIs, CopiesAre, RetainedAre, FoliageOk, WellBuilt;
      KeptMeans(Value(), table, topic);
      KeepLaw(Value(), table, topic, packet);
      ghost var next := KeepState(Value(), topic, packet);
      var keys := Split(topic);
      var index := Start(keys);
      RootHere();
      KeepStart(topic, keys, index);
      exist := root.AddRetain(topic, keys, index, packet);
      table := table.Retain(topic, packet);
      assert Value() == next;
    }

    /** Clears the message of one topic filed where this topic's untrimmed levels lead. */
    method RemoveRetain(topic: string) returns (exist: bool, ghost key: string)
      requires Valid() && !Blank(topic)
      modifies Repr()
      ensures Valid() && fresh(Repr() - old(Repr()))
      ensures exist <==> exists t :: Cleared(old(table), topic, t)
      ensures exist ==> Cleared(old(table), topic, key)
      ensures exist ==> table == old(table).DropRetained(key)
      ensures exist ==> Value() == DropKeptState(old(Value()), KeepPath(key), key)
      ensures !exist ==> table == old(table) && Value() == old(Value())
    {
      hide Shape, FoliageAgrees, WF, ClearedAt, KeepPath, Levels, KeptThere, PrefixClosed, Snoc;
      ghost var s := Value();
      WellBuiltParts(s, table);
      RootTarget(s, table, topic);
      var keys := Split(topic);
      var index := Start(keys);
      PlainStart(topic, keys, index);
      exist, key := TreeRemoveRetain(topic, keys, index);
      if exist {
        RootCleared(s, table, g.tree, Levels(topic), key);
        table := table.DropRetained(key);
      }
    }

    method TreeRemoveRetain(topic: string, keys: seq<string>, index: nat) returns (exist: bool, ghost key: string)
      requires Agrees() && index < |keys| && PrefixClosed(g.tree)
      requires forall k :: KeptThere(g.tree, Snoc([], k), keys[index..]) ==>
          Target(Snoc([], k), keys[index..]) == keys[index..]
      modifies this`g, g.wood
      ensures Agrees() && g.wood == old(g.wood)
      ensures exist <==> exists k :: Snoc([], k) in old(g.tree) && KeptThere(old(g.tree), Snoc([], k), keys[index..])
      ensures exist ==> ClearedAt(old(g.tree), g.tree, keys[index..], key)
      ensures !exist ==> g == old(g)
    {
      hide Good, BranchesAgree, LeavesAgree, Snoc, FoliageAgrees, ClearedAt, KeptThere, Target, PrefixClosed;
      RootHere();
      root.Known("");
      root.ChildNames();
      ghost var tree: Tree := g.tree;
      exist, key := false, "";
      var rest := root.branches.Keys;
      while rest != {}
        invariant root == old(root) && root != null && rest <= root.branches.Keys && !exist
        invariant g == old(g) && unchanged(old(g.wood)) && Agrees() && root.Here()
        invariant forall k | k in root.branches && k !in rest :: !KeptThere(tree, Snoc([], k), keys[index..])
      {
        var k :| k in rest;
        root.Known(k);
        SnocLength([], k);
        exist, key := root.branches[k].RemoveRetain(topic, keys, index);
        if exist {
          return;
        }
        rest := rest - {k};
      }
    }

    method SearchRetain(topic: string) returns (retains: seq<Message>)
      requires Valid() && !Blank(topic)
      ensures Enumerates(retains, table.RetainAnswers(topic))
    {
      hide Good, BranchesAgree, LeavesAgree, Snoc, FoliageAgrees, WF, Levels, PrefixClosed, Lists, KeptOn;
      hide RetainedUnder, Via;
      RootHere();
      root.Known("");
      ghost var s := Value();
      WellBuiltParts(s, table);
      var keys := Split(topic);
      var index := Start(keys);
      ghost var from: seq<(Path, string)>, done: set<string> := [], {};
      PlainStart(topic, keys, index);
      ghost var hits := RetainHitsAll(s.tree, Levels(topic));
      retains := [];
      var rest := root.branches.Keys;
      NoneVia(hits, []);
      ListsNone(s.tree);
      while rest != {}
        invariant rest <= root.branches.Keys && done == root.branches.Keys - rest
        invariant Lists(retains, from, KeptOn(s.tree, {} + Via(hits, [], done)))
      {
        var k :| k in rest;
        root.Known(k);
        SnocLength([], k);
        RootRetained(s.tree, Levels(topic), k);
        var more, moreFrom := root.branches[k].SearchRetain(topic, keys, index);
        ListsVia(s.tree, hits, [], done, k, retains, from, more, moreFrom, {});
        retains, from := retains + more, from + moreFrom;
        rest, done := rest - {k}, done + {k};
      }
      assert done == root.branches.Keys;
      root.ChildNames();
      ghost var topics := RetainsByTopic(s, table, topic, retains, from, done);
      assert Lists(retains, topics, table.RetainAnswers(topic));
    }

    ghost function SubsNow(leaves: map<string, Leaf>): map<string, map<string, Client>>
      reads leaves.Values
    {
      map f | f in leaves :: leaves[f].subscribers
    }

    /** The subscribers of all these leaves. */
    method CollectAll(leaves: map<string, Leaf>) returns (found: seq<Client>, ghost pairs: seq<Pair>)
      requires forall f | f in leaves :: Same(leaves[f].key, f)
      ensures Lists(found, pairs, SubsOf(SubsNow(leaves), leaves.Keys))
    {
      hide Lists, SubsOf, PairsOf;
      found, pairs := [], [];
      ghost var now := SubsNow(leaves);
      ghost var done: set<string> := {};
      var rest := leaves.Keys;
      ListsNothing<Pair, Client>();
      SubsOfNone(now);
      while rest != {}
        invariant rest <= leaves.Keys && done == leaves.Keys - rest
        invariant Lists(found, pairs, SubsOf(now, done))
      {
        var f :| f in rest;
        var more, morePairs := leaves[f].Collect();
        SubsOfMore(now, done, f);
        ListsBoth(found, pairs, SubsOf(now, done), more, morePairs, PairsOf(f, now[f], now[f].Keys));
        found, pairs := found + more, pairs + morePairs;
        rest, done := rest - {f}, done + {f};
      }
      assert done == leaves.Keys;
    }

    lemma LeafFacts(x: Path, f: string)
      requires Shape() && x in g.tree && f in g.tree[x]
      ensures LeafAt(x, f).Some?
      ensures var l := LeafAt(x, f).value;
              l in g.wood && Same(l.key, f) && l.subscribers == g.tree[x][f].subs
    {
      hide Snoc, BranchesAgree;
      assert f in g.node[x].leaves;
    }

    /** The leaves that a search found below the root branch k hold exactly the answers through k. */
    lemma FoundAnswers(leaves: map<string, Leaf>, topic: string, k: string)
      requires Shape() && WF(Value(), table) && !Blank(topic) && !Wild(topic)
      requires Finds(leaves, Snoc([], k), Levels(topic))
      ensures forall f | f in leaves :: Same(leaves[f].key, f)
      ensures SubsOf(SubsNow(leaves), leaves.Keys) == AnswersVia(table, topic, {k})
    {
      hide Shape, WF, Wild, Levels, AnswersVia, LeafAt, LeafFound, SubsOf;
      var s := Value();
      var ks := Levels(topic);
      forall f | f in leaves ensures Same(leaves[f].key, f) {
        var x :| LeafFound(g.tree, Snoc([], k), ks, x, f) && LeafAt(x, f) == Some(leaves[f]);
        FoundAtRoot(g.tree, k, ks, x, f);
        LeafFacts(x, f);
      }
      forall f, id | f in leaves && id in leaves[f].subscribers
        ensures (f, id) in AnswersVia(table, topic, {k})
        ensures AnswersVia(table, topic, {k})[(f, id)] == leaves[f].subscribers[id]
      {
        var x :| LeafFound(g.tree, Snoc([], k), ks, x, f) && LeafAt(x, f) == Some(leaves[f]);
        FoundAtRoot(g.tree, k, ks, x, f);
        LeafFacts(x, f);
        AnswerLeaf(s, table, topic, (f, id), x);
      }
      forall pr | pr in AnswersVia(table, topic, {k})
        ensures pr.0 in leaves && pr.1 in leaves[pr.0].subscribers
      {
        FoundHasPair(leaves, topic, k, pr);
      }
      var a, b := SubsOf(SubsNow(leaves), leaves.Keys), AnswersVia(table, topic, {k});
      forall pr: Pair ensures pr in a <==> pr in b ensures pr in a ==> a[pr] == b[pr] {
        SubsOfAt(SubsNow(leaves), leaves.Keys, pr);
        assert pr == (pr.0, pr.1);
      }
    }

    lemma FoundHasPair(leaves: map<string, Leaf>, topic: string, k: string, pr: Pair)
      requires Shape() && WF(Value(), table) && !Blank(topic) && !Wild(topic)
      requires Finds(leaves, Snoc([], k), Levels(topic)) && pr in AnswersVia(table, topic, {k})
      ensures pr.0 in leaves && pr.1 in leaves[pr.0].subscribers
    {
      hide Shape, WF, Wild, Levels, AnswersVia, LeafAt, LeafFound, SubsOf;
      var f := pr.0;
      var x := AnswerHasLeaf(Value(), table, topic, pr, k);
      FoundAtRoot(g.tree, k, Levels(topic), x, f);
      var y :| LeafFound(g.tree, Snoc([], k), Levels(topic), y, f) && LeafAt(y, f) == Some(leaves[f]);
      FoundAtRoot(g.tree, k, Levels(topic), y, f);
      OneLeafFound(Value(), table, topic, pr, k, x, y);
      LeafFacts(y, f);
    }

    method Subscribers(topic: string) returns (subscribers: seq<Client>)
      requires Valid() && !Blank(topic)
      ensures Enumerates(subscribers, table.Answers(topic))
    {
      hide Shape, FoliageAgrees, WF, Levels, PrefixClosed, Lists, AnswersVia, AnswersPlain, Wild, PairsOf, Snoc;
      subscribers := [];
      ghost var pairs: seq<Pair> := [];
      ListsNothing<Pair, Client>();
      NoAnswers(table, topic);
      if Wild(topic) {
        assert Lists(subscribers, pairs, table.Answers(topic));
        return;
      }
      ghost var s := Value();
      WellBuiltParts(s, table);
      FoliageAt(topic);
      PlainAnswersAll(s, table, topic);
      if topic in foliage {
        KeyAt(topic);
        subscribers, pairs := foliage[topic].Collect();
      }
      var keys := Split(topic);
      var index := Start(keys);
      PlainStart(topic, keys, index);
      var more, morePairs, names := TreeSubscribers(topic, keys, index);
      AllAnswers(s, table, topic, names);
      ListsBoth(subscribers, pairs, AnswersPlain(table, topic), more, morePairs, AnswersVia(table, topic, names));
      subscribers, pairs := subscribers + more, pairs + morePairs;
      assert Lists(subscribers, pairs, table.Answers(topic));
    }

    lemma KeyAt(topic: string)
      requires FoliageAgrees() && topic in foliage
      ensures foliage[topic].key == topic
    {
    }

    /** The loop of Subscribers over the branches below the root. */
    method TreeSubscribers(topic: string, keys: seq<string>, index: nat)
      returns (subscribers: seq<Client>, ghost pairs: seq<Pair>, ghost names: set<string>)
      requires Valid() && !Blank(topic) && !Wild(topic) && PrefixClosed(g.tree)
      requires index < |keys| && keys[index..] == Levels(topic)
      ensures Lists(subscribers, pairs, AnswersVia(table, topic, names))
      ensures forall k :: k in names <==> Snoc([], k) in g.tree
    {
      hide Good, BranchesAgree, LeavesAgree, FoliageAgrees, WF, Levels, PrefixClosed, Lists, AnswersVia, Wild, SubsOf;
      hide Snoc, Blank;
      RootHere();
      root.Known("");
      subscribers, pairs, names := [], [], {};
      ListsNothing<Pair, Client>();
      NoneVia0(table, topic);
      var rest := root.branches.Keys;
      while rest != {}
        invariant rest <= root.branches.Keys && names == root.branches.Keys - rest
        invariant Lists(subscribers, pairs, AnswersVia(table, topic, names))
      {
        var k :| k in rest;
        var more, morePairs := BranchSubscribers(k, topic, keys, index);
        AnswersMore(table, topic, names, k);
        ListsBoth(subscribers, pairs, AnswersVia(table, topic, names), more, morePairs, AnswersVia(table, topic, {k}));
        subscribers, pairs := subscribers + more, pairs + morePairs;
        rest, names := rest - {k}, names + {k};
      }
      assert names == root.branches.Keys;
      root.ChildNames();
    }

    method BranchSubscribers(k: string, topic: string, keys: seq<string>, index: nat)
      returns (subscribers: seq<Client>, ghost pairs: seq<Pair>)
      requires Valid() && !Blank(topic) && !Wild(topic) && PrefixClosed(g.tree) && root != null && k in root.branches
      requires index < |keys| && keys[index..] == Levels(topic)
      ensures Lists(subscribers, pairs, AnswersVia(table, topic, {k}))
    {
      hide Good, BranchesAgree, LeavesAgree, FoliageAgrees, WF, Levels, PrefixClosed, Lists, AnswersVia, Wild, SubsOf;
      hide Snoc, Finds;
      RootHere();
      root.Known(k);
      SnocLength([], k);
      var leaves := root.branches[k].SearchLeaves(topic, keys, index);
      FoundAnswers(leaves, topic, k);
      subscribers, pairs := CollectAll(leaves);
    }
  }
}

/** The clients' index of one broker together with the gauges that its handlers keep beside it: what
    each handler's code does to the counts, and how far they are off what they should count. */
module Ledgers {
  import opened Topics
  import opened Table
  import opened Listing
  import opened TrieSpec
  import opened TrieLaws
  import Cluster

  datatype Ledger = Ledger(value: State, table: Table, subCount: int, retain: int)
  {
    /** One topic of a SUBSCRIBE: counted if the trie says that the pair is new. */
    ghost function Enter(filter: string, c: Client): Ledger {
      Ledger(SubscribeState(value, filter, c.id, c), table.Subscribe(filter, c.id, c),
             subCount + if (filter, c.id) in table.live then 0 else 1, retain)
    }

    /** What the trie answers to an unsubscribe: the filter has a leaf and the scan reaches it. */
    ghost predicate Found(filter: string) {
      Table.Removable(filter) && HasLeaf(value, filter)
    }

    /** One topic of an UNSUBSCRIBE or of a session that ends: counted off if the trie says yes. */
    ghost function Leave(filter: string, id: string): Ledger {
      Ledger(UnsubscribeState(value, filter, id), table.Unsubscribe(filter, id),
             subCount - if Found(filter) then 1 else 0, retain)
    }

    ghost function EnterAll(filters: seq<string>, c: Client): Ledger
      decreases |filters|
    {
      if filters == [] then this else EnterAll(Parent(filters), c).Enter(Last(filters), c)
    }

    ghost function LeaveAll(filters: seq<string>, id: string): Ledger
      decreases |filters|
    {
      if filters == [] then this else LeaveAll(Parent(filters), id).Leave(Last(filters), id)
    }

    /** A retained publish with a payload, and one without that clears topic k. */
    ghost function Keep(m: Message): Ledger {
      Ledger(KeepState(value, m.topic, m), table.Retain(m.topic, m), subCount,
             retain + if m.topic in table.retained then 0 else 1)
    }

    ghost function Clear(k: string): Ledger {
      Ledger(DropKeptState(value, KeepPath(k), k), table.DropRetained(k), subCount, retain - 1)
    }

    /** The retained part of a publish, whichever leaf an empty payload clears. */
    ghost predicate Publishes(m: Message, next: Ledger) {
      if !m.retain then next == this
      else if m.payload != [] then next == Keep(m)
      else if Clears(table, m.topic) then exists k :: Cleared(table, m.topic, k) && next == Clear(k)
      else next == this
    }

    /** A peer's retained publish, which clears a message and leaves the gauge. */
    ghost function Forget(k: string): Ledger {
      Clear(k).(retain := retain)
    }

    ghost predicate Forgets(m: Message, next: Ledger) {
      if m.retain && Clears(table, m.topic) then exists k :: Cleared(table, m.topic, k) && next == Forget(k)
      else next == this
    }

    /** The trie is well built and stands for the table. */
    ghost predicate Sound() {
      WF(value, table)
    }

    function SubDrift(): int {
      subCount - |table.live|
    }

    function RetainDrift(): int {
      retain - |table.retained|
    }

    /** How many topics of the packet, each in its turn, have a leaf that this client is not on. */
    ghost function Strays(filters: seq<string>, id: string): nat
      decreases |filters|
    {
      if filters == [] then 0
      else Strays(Parent(filters), id) + if LeaveAll(Parent(filters), id).Stray(Last(filters), id) then 1 else 0
    }

    ghost predicate Stray(filter: string, id: string) {
      Found(filter) && (filter, id) !in table.live
    }

    // -------------------------------------------------------------- one topic

    lemma EnterCounts(filter: string, c: Client)
      requires Sound()
      ensures Enter(filter, c).Sound() && Enter(filter, c).SubDrift() == SubDrift()
      ensures Enter(filter, c).RetainDrift() == RetainDrift()
    {
      hide WF, SubscribeState, CopiesUp;
      SubscribeLaw(value, table, filter, c.id, c);
      PutSize(table.live, (filter, c.id), c);
    }

    lemma LeaveCounts(filter: string, id: string)
      requires Sound()
      ensures Leave(filter, id).Sound()
      ensures Leave(filter, id).SubDrift() == SubDrift() - if Stray(filter, id) then 1 else 0
      ensures Leave(filter, id).RetainDrift() == RetainDrift()
    {
      hide WF, UnsubscribeState, HasLeaf, Table.Removable;
      UnsubscribeLaw(value, table, filter, id);
      DropSize(table.live, (filter, id));
    }

    lemma KeepCounts(m: Message)
      requires Sound() && !Blank(m.topic)
      ensures Keep(m).Sound() && Keep(m).RetainDrift() == RetainDrift()
    {
      hide WF, KeepState, Blank;
      KeepLaw(value, table, m.topic, m);
      PutSize(table.retained, m.topic, m);
    }

    lemma ClearCounts(k: string)
      requires Sound() && k in table.retained
      ensures Clear(k).Sound() && Clear(k).RetainDrift() == RetainDrift()
    {
      hide WF, DropKeptState, KeepPath;
      KeptPlace(value, table, k);
      DropKeptLaw(value, table, KeepPath(k), k);
      DropSize(table.retained, k);
    }

    /** A publish never moves the gauge away from the number of retained messages. */
    lemma PublishCounts(m: Message, next: Ledger)
      requires Sound() && !Blank(m.topic) && Publishes(m, next)
      ensures next.Sound() && next.RetainDrift() == RetainDrift() && next.SubDrift() == SubDrift()
      ensures Cluster.RetainStep(table, m, next.table)
    {
      hide WF, KeepState, DropKeptState, KeepPath, Levels, Sound;
      if m.retain {
        if m.payload != [] {
          KeepCounts(m);
        } else if k :| Cleared(table, m.topic, k) && next == Clear(k) {
          ClearCounts(k);
        }
      }
    }

    /** A peer's publish takes the gauge one too high exactly when it finds a message here to clear. */
    lemma ForgetCounts(m: Message, next: Ledger)
      requires Sound() && Forgets(m, next)
      ensures next.Sound() && next.SubDrift() == SubDrift()
      ensures next.RetainDrift() == RetainDrift() + if m.retain && Clears(table, m.topic) then 1 else 0
      ensures if m.retain then DropStep(table, m.topic, next.table) else next.table == table
    {
      hide WF, DropKeptState, KeepPath, Levels, Sound;
      if m.retain && Clears(table, m.topic) {
        var k :| Cleared(table, m.topic, k) && next == Forget(k);
        ClearCounts(k);
        StillSound(Clear(k), next);
      }
    }

    lemma StillSound(was: Ledger, next: Ledger)
      requires was.Sound() && next.value == was.value && next.table == was.table
      ensures next.Sound()
    {
    }

    // -------------------------------------------------------------- whole packets

    lemma {:induction false} EnterAllCounts(filters: seq<string>, c: Client)
      requires Sound()
      ensures var next := EnterAll(filters, c);
              && next.Sound() && next.SubDrift() == SubDrift() && next.RetainDrift() == RetainDrift()
              && next.table == Cluster.SubscribeAll(table, filters, c)
      decreases |filters|
    {
      if filters != [] {
        hide Sound, SubDrift, RetainDrift, SubscribeState, Table.Subscribe;
        EnterAllCounts(Parent(filters), c);
        EnterAll(Parent(filters), c).EnterCounts(Last(filters), c);
      }
    }

    /** Exactly how far a packet takes SubCount below the number of live pairs. */
    lemma {:induction false} LeaveAllCounts(filters: seq<string>, id: string)
      requires Sound()
      ensures var next := LeaveAll(filters, id);
              && next.Sound()
              && next.SubDrift() == SubDrift() - Strays(filters, id) && next.RetainDrift() == RetainDrift()
              && next.table == Cluster.UnsubscribeAll(table, filters, id)
      decreases |filters|
    {
      if filters != [] {
        hide Sound, SubDrift, RetainDrift, UnsubscribeState, Table.Unsubscribe, Stray, Found;
        LeaveAllCounts(Parent(filters), id);
        LeaveAll(Parent(filters), id).LeaveCounts(Last(filters), id);
      }
    }

    ghost predicate StrayAt(filters: seq<string>, i: nat, id: string) {
      i < |filters| && LeaveAll(filters[..i], id).Stray(filters[i], id)
    }

    lemma StrayAtFront(filters: seq<string>, i: nat, id: string)
      requires filters != [] && i < |filters| - 1
      ensures StrayAt(filters, i, id) == StrayAt(Parent(filters), i, id)
    {
      hide LeaveAll, Stray;
      assert filters[..i] == Parent(filters)[..i];
    }

    /** The count stays right exactly if no topic, in its turn, has a leaf that the client is not on. */
    lemma {:induction false} NoStrays(filters: seq<string>, id: string)
      ensures Strays(filters, id) == 0 <==> forall i: nat :: !StrayAt(filters, i, id)
      decreases |filters|
    {
      if filters == [] {
        NothingStrays(id);
      } else {
        hide LeaveAll, Stray, StrayAt;
        var n := |filters| - 1;
        NoStrays(Parent(filters), id);
        LastStray(filters, id);
        forall i: nat | i < n ensures StrayAt(filters, i, id) == StrayAt(Parent(filters), i, id) {
          StrayAtFront(filters, i, id);
        }
        forall i: nat | i > n ensures !StrayAt(filters, i, id) {
          BeyondStray(filters, i, id);
        }
        forall i: nat | i >= n ensures !StrayAt(Parent(filters), i, id) {
          BeyondStray(Parent(filters), i, id);
        }
      }
    }

    lemma NothingStrays(id: string)
      ensures forall i: nat :: !StrayAt([], i, id)
    {
    }

    lemma BeyondStray(filters: seq<string>, i: nat, id: string)
      requires i >= |filters|
      ensures !StrayAt(filters, i, id)
    {
    }

    lemma LastStray(filters: seq<string>, id: string)
      requires filters != []
      ensures StrayAt(filters, |filters| - 1, id) == LeaveAll(Parent(filters), id).Stray(Last(filters), id)
    {
      hide LeaveAll, Stray;
      assert filters[..|filters| - 1] == Parent(filters);
    }

    /** In particular if the client holds them all and names none twice. */
    lemma HeldNoStrays(filters: seq<string>, id: string)
      requires Sound() && Distinct(filters) && HoldsAll(table, filters, id)
      ensures Strays(filters, id) == 0
    {
      hide LeaveAll, Sound;
      NoStrays(filters, id);
      forall i: nat ensures !StrayAt(filters, i, id) {
        if i < |filters| {
          LeaveAllCounts(filters[..i], id);
          StillHolds(table, filters, i, id);
        }
      }
    }
  }

  /** Does a publish of this topic find a retained message to clear? */
  ghost predicate Clears(t: Table, topic: string) {
    exists k :: Cleared(t, topic, k)
  }

  lemma KeptPlace(s: State, t: Table, k: string)
    requires WF(s, t) && k in t.retained
    ensures var p := KeepPath(k); p in s.tree && k in s.tree[p] && s.tree[p][k].retain.Some?
  {
    hide KeepPath, Blank, WellBuilt, FoliageOk, LiveIs, CopiesAre;
    assert Kept(s, k).Some?;
  }

  lemma PutSize<K, V>(m: map<K, V>, k: K, v: V)
    ensures |m[k := v]| == |m| + if k in m then 0 else 1
  {
    assert m[k := v].Keys == m.Keys + {k};
    assert |m[k := v]| == |m[k := v].Keys| && |m| == |m.Keys|;
  }

  lemma DropSize<K, V>(m: map<K, V>, k: K)
    ensures |m - {k}| == |m| - if k in m then 1 else 0
  {
    assert (m - {k}).Keys == m.Keys - {k};
    assert |m - {k}| == |(m - {k}).Keys| && |m| == |m.Keys|;
  }

  // ---------------------------------------------------------------- filters that a client holds

  ghost predicate HoldsAll(t: Table, filters: seq<string>, id: string) {
    forall f | f in filters :: (f, id) in t.live
  }

  lemma StillHolds(t: Table, filters: seq<string>, i: nat, id: string)
    requires Distinct(filters) && HoldsAll(t, filters, id) && i < |filters|
    ensures (filters[i], id) in Cluster.UnsubscribeAll(t, filters[..i], id).live
  {
    hide Cluster.UnsubscribeAll;
    OthersStay(t, filters[..i], id, filters[i], id);
  }

  /** Unsubscribing some filters leaves the client's other filters alone, and everybody else's. */
  lemma {:induction false} OthersStay(t: Table, gone: seq<string>, id: string, f: string, i: string)
    requires (f, i) in t.live && (i != id || f !in gone)
    ensures (f, i) in Cluster.UnsubscribeAll(t, gone, id).live
  {
    if gone != [] {
      hide Table.Unsubscribe;
      assert gone == Parent(gone) + [Last(gone)];
      OthersStay(t, Parent(gone), id, f, i);
      OtherStays(Cluster.UnsubscribeAll(t, Parent(gone), id), Last(gone), id, f, i);
    }
  }

  lemma OtherStays(t: Table, gone: string, id: string, f: string, i: string)
    requires (f, i) in t.live && (f, i) != (gone, id)
    ensures (f, i) in t.Unsubscribe(gone, id).live
  {
    hide Table.Removable;
  }

  /** Subscribing adds the named filters and takes none away. */
  lemma {:induction false} AllStay(t: Table, more: seq<string>, c: Client)
    ensures var t' := Cluster.SubscribeAll(t, more, c);
            (forall pr | pr in t.live :: pr in t'.live) && (forall f | f in more :: (f, c.id) in t'.live)
  {
    if more != [] {
      hide CopiesUp;
      AllStay(t, Parent(more), c);
      assert more == Parent(more) + [Last(more)];
    }
  }
}

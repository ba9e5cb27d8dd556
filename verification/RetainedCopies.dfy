/** "Only one retain message for a topic in the entire clusters": when another node drops its copy, over
    whole runs. */
module RetainedCopies {
  import opened Topics
  import opened Table
  import opened Fanout
  import opened Cluster
  import opened Coverage
  import opened Delivery

  // ---------------------------------------------------------------- who is sent the publish

  lemma SentMore(s: State, step: Step, s': State, b: Name, c: Client, e: Event)
    requires Next(s, step, s') && e in s.origin
    ensures s'.sent[(b, c, e)] == s.sent[(b, c, e)]
  {
    hide Blank, RetainStep, DropStep, SubscribeAll, UnsubscribeAll, Replays, Syncs, Broadcast, Forwarded;
    hide Marks, OneEach;
    hide CoversPeer;
    if step.DoPublish? {
      MarksCount(step.a, step.remotes, step.e, (b, c, e));
    }
  }

  lemma SentFirst(s: State, b: Name, m: Message, e: Event, locals: seq<Client>, remotes: seq<Client>, s': State,
                  c: Client)
    requires Inv(s) && ClientPublishes(s, b, m, e, locals, remotes, s')
    ensures s'.sent[(b, c, e)] == if c in remotes then 1 else 0
    ensures e in s'.origin
  {
    hide Blank, RetainStep, Broadcast, Forwarded, Marks, OneEach, Homed, Single, WrittenOnce;
    MarksCount(b, remotes, e, (b, c, e));
    assert (b, c, e) !in s.sent;
  }

  /** Over every run: a publish is written to a peer's connection, once, if and only if the fan-out picked it. */
  lemma {:induction false} SentExactly(steps: seq<Step>, ss: seq<State>, i: nat, k: nat, c: Client)
    requires Run(steps, ss) && i < k <= |steps| && steps[i].DoPublish?
    ensures ss[k].sent[(steps[i].a, c, steps[i].e)] == if c in steps[i].remotes then 1 else 0
    ensures steps[i].e in ss[k].origin
    decreases k
  {
    hide ClientPublishes, Receives, Init, Blank, Inv;
    assert Next(ss[k - 1], steps[k - 1], ss[k]);
    if k == i + 1 {
      RunInv(steps, ss, i);
      SentFirst(ss[i], steps[i].a, steps[i].m, steps[i].e, steps[i].locals, steps[i].remotes, ss[k], c);
    } else {
      SentExactly(steps, ss, i, k - 1, c);
      OriginStays(ss[k - 1], steps[k - 1], ss[k], steps[i].e);
      SentMore(ss[k - 1], steps[k - 1], ss[k], steps[i].a, c, steps[i].e);
    }
  }

  /** Exactly when a peer is forwarded to whatever order the index answers in: its current connection answers,
      and no connection that it left behind does. */
  lemma ForwardedExactly(n: Node, topic: string, x: Name)
    requires !Blank(topic) && x in n.peers && forall b | b in n.peers :: n.peers[b].id == b
    ensures var answers := n.interest.Answers(topic);
            (forall remotes | OneEach(remotes, answers) :: x in Forwarded(n, remotes)) <==>
            Answering(answers, n.peers[x]) && Undisputed(answers, n.peers[x])
  {
    hide Blank, Table.Answers, OneEach, Answering, Undisputed;
    var answers := n.interest.Answers(topic);
    AlwaysWritten(answers, n.peers[x]);
    forall remotes ensures x in Forwarded(n, remotes) <==> n.peers[x] in remotes {
    }
  }

  // ---------------------------------------------------------------- a node that is not sent it

  /** The message retained for topic r, if any. */
  function MessageOf(t: Table, r: string): Option<Message> {
    if r in t.retained then Some(t.retained[r]) else None
  }

  /** A retained publish of this topic can change what is kept for r. */
  predicate Bears(m: Message, r: string) {
    m.retain && (m.topic == r || KeepPath(r) == Levels(m.topic))
  }

  /** The step handles a retained publish at node x that can change what x keeps for r. */
  predicate Touches(s: State, step: Step, x: Name, r: string) {
    || (step.DoPublish? && step.a == x && Bears(step.m, r))
    || (step.DoReceive? && step.b == x && Channel(s, step.a, x) != [] && Channel(s, step.a, x)[0].Pub?
        && Bears(Channel(s, step.a, x)[0].message, r))
  }

  /** Node x takes the publish off its channel. */
  predicate Takes(s: State, step: Step, x: Name, m: Message, e: Event) {
    step.DoReceive? && step.b == x && Channel(s, step.a, x) != [] && Channel(s, step.a, x)[0] == Pub(m, Some(e))
  }

  lemma DropKeeps(t: Table, m: Message, t': Table, r: string)
    requires !Blank(m.topic) && m.retain && !Bears(m, r)
    requires RetainStep(t, m, t') || DropStep(t, m.topic, t')
    ensures MessageOf(t', r) == MessageOf(t, r)
  {
    hide KeepPath, Levels, Blank;
  }

  lemma OneTopicKeeps(t: Table, topic: string, c: Client, id: string)
    ensures t.Subscribe(topic, c.id, c).retained == t.retained && t.Unsubscribe(topic, id).retained == t.retained
  {
    hide Table.Removable, CopiesUp, Table.Held;
  }

  lemma {:induction false} TablesKeep(t: Table, topics: seq<string>, c: Client, id: string)
    ensures SubscribeAll(t, topics, c).retained == t.retained
    ensures UnsubscribeAll(t, topics, id).retained == t.retained
  {
    if topics != [] {
      hide Table.Subscribe, Table.Unsubscribe;
      TablesKeep(t, Parent(topics), c, id);
      OneTopicKeeps(SubscribeAll(t, Parent(topics), c), Last(topics), c, id);
      OneTopicKeeps(UnsubscribeAll(t, Parent(topics), id), Last(topics), c, id);
    }
  }

  /** What a node keeps for a topic changes only when a retained publish that bears on it is handled there. */
  lemma StepRetains(s: State, step: Step, s': State, x: Name, r: string)
    requires Next(s, step, s') && x in s.nodes && !Touches(s, step, x, r)
    ensures x in s'.nodes && MessageOf(s'.nodes[x].local, r) == MessageOf(s.nodes[x].local, r)
  {
    hide MessageOf, Bears, SubscribeAll, UnsubscribeAll, ClientPublishes, Receives, Connects, Disconnects, Broadcast;
    hide Blank;
    match step
    case DoSubscribe(a, c, topics) =>
      TablesKeep(s.nodes[a].local, topics, c, c.id);
      SameKept(s.nodes[a].local, s'.nodes[a].local, r);
    case DoUnsubscribe(a, id, topics) =>
      TablesKeep(s.nodes[a].local, topics, Client(id, 0), id);
      SameKept(s.nodes[a].local, s'.nodes[a].local, r);
    case DoDisconnect(a, id, topics) =>
      TablesKeep(s.nodes[a].local, topics, Client(id, 0), id);
      SameKept(s.nodes[a].local, s'.nodes[a].local, r);
    case DoPublish(a, m, e, locals, remotes) => PublishRetains(s, a, m, e, locals, remotes, s', x, r);
    case DoReceive(a, b, locals) => ReceiveRetains(s, a, b, locals, s', x, r);
    case LinkUp(a, b, c) => LinksRetain(s, step, s', x);
    case LinkDown(a, b) => LinksRetain(s, step, s', x);
  }

  lemma SameKept(t: Table, t': Table, r: string)
    requires t'.retained == t.retained
    ensures MessageOf(t', r) == MessageOf(t, r)
  {
  }

  lemma NotRetained(t: Table, m: Message, t': Table)
    requires !Blank(m.topic) && !m.retain && RetainStep(t, m, t')
    ensures t' == t
  {
    hide Blank;
  }

  lemma PublishRetains(s: State, a: Name, m: Message, e: Event, locals: seq<Client>, remotes: seq<Client>, s': State,
                       x: Name, r: string)
    requires ClientPublishes(s, a, m, e, locals, remotes, s') && x in s.nodes
    requires !Touches(s, DoPublish(a, m, e, locals, remotes), x, r)
    ensures x in s'.nodes && MessageOf(s'.nodes[x].local, r) == MessageOf(s.nodes[x].local, r)
  {
    hide RetainStep, MessageOf, Bears, OneEach, Forwarded, Marks, Blank, Broadcast;
    if x == a && m.retain {
      DropKeeps(s.nodes[a].local, m, s'.nodes[a].local, r);
    } else if x == a {
      NotRetained(s.nodes[a].local, m, s'.nodes[a].local);
    }
  }

  lemma ReceiveRetains(s: State, a: Name, b: Name, locals: seq<Client>, s': State, x: Name, r: string)
    requires Receives(s, a, b, locals, s') && x in s.nodes && !Touches(s, DoReceive(a, b, locals), x, r)
    ensures x in s'.nodes && MessageOf(s'.nodes[x].local, r) == MessageOf(s.nodes[x].local, r)
  {
    hide DropStep, MessageOf, Bears, OneEach, Marks, Blank, SubscribeAll, UnsubscribeAll, Replays;
    var p := Channel(s, a, b)[0];
    if x == b && p.Pub? && p.message.retain {
      DropKeeps(s.nodes[b].local, p.message, s'.nodes[b].local, r);
    }
  }

  lemma LinksRetain(s: State, step: Step, s': State, x: Name)
    requires Next(s, step, s') && (step.LinkUp? || step.LinkDown?) && x in s.nodes
    ensures x in s'.nodes && s'.nodes[x].local == s.nodes[x].local
  {
    hide Syncs, UnsubscribeAll, CoversPeer;
  }

  /** A node that a publish is not forwarded to never handles it, and keeps whatever it keeps unless some
      other retained publish bears on it: on the channels nothing else can take its copy away. */
  lemma {:induction false} NotSentKeeps(steps: seq<Step>, ss: seq<State>, i: nat, k: nat, x: Name, r: string)
    requires Run(steps, ss) && i < k <= |steps| && steps[i].DoPublish? && x != steps[i].a && x in ss[i].nodes
    requires steps[i].a in ss[i].nodes
    requires x !in Forwarded(ss[i].nodes[steps[i].a], steps[i].remotes)
    requires forall j | i < j < k && Touches(ss[j], steps[j], x, r) :: Takes(ss[j], steps[j], x, steps[i].m, steps[i].e)
    ensures forall j | i <= j < k :: !Takes(ss[j], steps[j], x, steps[i].m, steps[i].e)
    ensures x in ss[k].nodes && MessageOf(ss[k].nodes[x].local, r) == MessageOf(ss[i].nodes[x].local, r)
    decreases k
  {
    hide Next, Touches, Takes, MessageOf, Forwarded, OneEach, Blank, Arrives, Init;
    assert Next(ss[k - 1], steps[k - 1], ss[k]);
    if k == i + 1 {
      OwnPublish(steps[i], ss[i], x, r);
    } else {
      NotSentKeeps(steps, ss, i, k - 1, x, r);
      OnlyForwarded(steps, ss, i, k - 1, x);
      NotTaken(ss[k - 1], steps[k - 1], x, steps[i].m, steps[i].e);
    }
    StepRetains(ss[k - 1], steps[k - 1], ss[k], x, r);
  }

  lemma OwnPublish(step: Step, s: State, x: Name, r: string)
    requires step.DoPublish? && x != step.a
    ensures !Touches(s, step, x, r) && forall m, e :: !Takes(s, step, x, m, e)
  {
  }

  lemma NotTaken(s: State, step: Step, x: Name, m: Message, e: Event)
    requires !Arrives(s, x, e)
    ensures !Takes(s, step, x, m, e)
  {
    if Takes(s, step, x, m, e) {
      HeadPends(Channel(s, step.a, x));
    }
  }

  // ---------------------------------------------------------------- a node that is sent it

  /** The publish was taken in some step of a stretch of the run. */
  ghost predicate TakenIn(steps: seq<Step>, ss: seq<State>, i: nat, k: nat, x: Name, m: Message, e: Event)
    requires k <= |steps| < |ss|
  {
    exists j :: i < j < k && steps[j].DoReceive? && steps[j].a == steps[i].a && Takes(ss[j], steps[j], x, m, e)
  }

  lemma {:induction false} SentOrTaken(steps: seq<Step>, ss: seq<State>, i: nat, k: nat, x: Name)
    requires Run(steps, ss) && i < k <= |steps| && steps[i].DoPublish?
    requires steps[i].a in ss[i].nodes
    requires x in Forwarded(ss[i].nodes[steps[i].a], steps[i].remotes)
    requires forall j | i <= j < k :: !Cuts(steps[j], x, steps[i].a)
    ensures Pub(steps[i].m, Some(steps[i].e)) in Channel(ss[k], steps[i].a, x)
            || TakenIn(steps, ss, i, k, x, steps[i].m, steps[i].e)
    decreases k
  {
    hide ClientPublishes, Receives, Takes, Forwarded, OneEach, Blank, Cuts, Init, Channel, Sane;
    var b, m, e := steps[i].a, steps[i].m, steps[i].e;
    assert Next(ss[k - 1], steps[k - 1], ss[k]);
    if k == i + 1 {
      PublishPuts(ss[i], b, m, e, steps[i].locals, steps[i].remotes, ss[k], x);
    } else {
      SentOrTaken(steps, ss, i, k - 1, x);
      RunSane(steps, ss, k - 1);
      if Pub(m, Some(e)) in Channel(ss[k - 1], b, x) {
        var step := steps[k - 1];
        if step.DoReceive? && step.a == b && step.b == x && Channel(ss[k - 1], b, x)[0] == Pub(m, Some(e)) {
          HeadTaken(ss[k - 1], b, x, step.locals, m, e);
        } else {
          PacketStays(ss[k - 1], steps[k - 1], ss[k], b, x, Pub(m, Some(e)));
        }
      }
    }
  }

  lemma HeadTaken(s: State, b: Name, x: Name, locals: seq<Client>, m: Message, e: Event)
    requires Channel(s, b, x) != [] && Channel(s, b, x)[0] == Pub(m, Some(e))
    ensures Takes(s, DoReceive(b, x, locals), x, m, e)
  {
  }

  /** Once the channel from the publishing node has drained without a cut, another node has handled the
      publish if and only if it was forwarded to. */
  lemma TakenExactly(steps: seq<Step>, ss: seq<State>, i: nat, k: nat, x: Name)
    requires Run(steps, ss) && i < k <= |steps| && steps[i].DoPublish? && x != steps[i].a
    requires steps[i].a in ss[i].nodes
    requires forall j | i <= j < k :: !Cuts(steps[j], x, steps[i].a)
    requires Channel(ss[k], steps[i].a, x) == []
    ensures TakenIn(steps, ss, i, k, x, steps[i].m, steps[i].e) <==>
            x in Forwarded(ss[i].nodes[steps[i].a], steps[i].remotes)
  {
    hide Next, Init, Takes, Forwarded, OneEach, Blank, Cuts, Arrives, Channel;
    var m, e := steps[i].m, steps[i].e;
    if x in Forwarded(ss[i].nodes[steps[i].a], steps[i].remotes) {
      SentOrTaken(steps, ss, i, k, x);
    } else if TakenIn(steps, ss, i, k, x, m, e) {
      var j :| i < j < k && steps[j].DoReceive? && steps[j].a == steps[i].a && Takes(ss[j], steps[j], x, m, e);
      OnlyForwarded(steps, ss, i, j, x);
      NotTaken(ss[j], steps[j], x, m, e);
    }
  }

  /** A node that handles a retained publish loses one message filed on the topic's levels, if there is any:
      its own copy for sure if nothing else retained there has the same levels. */
  lemma TakingDrops(s: State, step: Step, s': State, x: Name, m: Message, e: Event)
    requires Next(s, step, s') && Takes(s, step, x, m, e) && m.retain
    ensures x in s.nodes && x in s'.nodes && DropStep(s.nodes[x].local, m.topic, s'.nodes[x].local)
    ensures OwnLeaf(s.nodes[x].local, m.topic) ==> MessageOf(s'.nodes[x].local, m.topic) == None
  {
    hide OneEach, Marks, Blank, DropStep, KeepPath, Levels;
    var t, t' := s.nodes[x].local, s'.nodes[x].local;
    assert DropStep(t, m.topic, t');
    if OwnLeaf(t, m.topic) {
      if m.topic in t.retained {
        DropsOwnByLevels(t, m.topic);
      } else {
        NothingAppears(t, m.topic, t');
      }
    }
  }

  lemma NothingAppears(t: Table, topic: string, t': Table)
    requires DropStep(t, topic, t') && MessageOf(t, topic) == None
    ensures MessageOf(t', topic) == None
  {
    hide Cleared;
  }

  // ---------------------------------------------------------------- one copy in the cluster, exactly when

  /** Nothing but this publish bears on what x keeps for its topic. */
  ghost predicate Undisturbed(steps: seq<Step>, ss: seq<State>, i: nat, k: nat, x: Name)
    requires i < k <= |steps| < |ss| && steps[i].DoPublish?
  {
    forall j | i < j < k && Touches(ss[j], steps[j], x, steps[i].m.topic) ::
      Takes(ss[j], steps[j], x, steps[i].m, steps[i].e)
  }

  /** At x, the topic has its levels to itself. */
  ghost predicate Unaliased(ss: seq<State>, i: nat, k: nat, x: Name, topic: string)
    requires i < k < |ss|
  {
    forall j | i < j < k :: AloneAt(ss[j], x, topic)
  }

  ghost predicate AloneAt(s: State, x: Name, topic: string) {
    x in s.nodes && OwnLeaf(s.nodes[x].local, topic)
  }

  lemma {:induction false} GoneStays(steps: seq<Step>, ss: seq<State>, i: nat, j: nat, k: nat, x: Name)
    requires Run(steps, ss) && i < j <= k <= |steps| && steps[i].DoPublish? && steps[i].m.retain
    requires Undisturbed(steps, ss, i, k, x)
    requires x in ss[j].nodes && MessageOf(ss[j].nodes[x].local, steps[i].m.topic) == None
    ensures x in ss[k].nodes && MessageOf(ss[k].nodes[x].local, steps[i].m.topic) == None
    decreases k
  {
    hide Next, Touches, Takes, Init, MessageOf, DropStep, OwnLeaf;
    if j < k {
      var m, e := steps[i].m, steps[i].e;
      GoneStays(steps, ss, i, j, k - 1, x);
      assert Next(ss[k - 1], steps[k - 1], ss[k]);
      if Touches(ss[k - 1], steps[k - 1], x, m.topic) {
        TakingDrops(ss[k - 1], steps[k - 1], ss[k], x, m, e);
        NothingAppears(ss[k - 1].nodes[x].local, m.topic, ss[k].nodes[x].local);
      } else {
        StepRetains(ss[k - 1], steps[k - 1], ss[k], x, m.topic);
      }
    }
  }

  /** Over every run: after a retained publish has drained to another node, that node still retains a
      message of the topic if and only if it did so before and was not forwarded to. */
  lemma CopyLeftExactly(steps: seq<Step>, ss: seq<State>, i: nat, k: nat, x: Name)
    requires Run(steps, ss) && i < k <= |steps| && steps[i].DoPublish? && steps[i].m.retain && x != steps[i].a
    requires steps[i].a in ss[i].nodes && x in ss[i].nodes
    requires forall j | i <= j < k :: !Cuts(steps[j], x, steps[i].a)
    requires Channel(ss[k], steps[i].a, x) == []
    requires Undisturbed(steps, ss, i, k, x) && Unaliased(ss, i, k, x, steps[i].m.topic)
    ensures x in ss[k].nodes
    ensures MessageOf(ss[k].nodes[x].local, steps[i].m.topic).Some? <==>
            MessageOf(ss[i].nodes[x].local, steps[i].m.topic).Some?
            && x !in Forwarded(ss[i].nodes[steps[i].a], steps[i].remotes)
  {
    hide Next, Init, Takes, Touches, Forwarded, OneEach, Blank, Cuts, Channel, MessageOf, KeepPath, Levels;
    var m, e := steps[i].m, steps[i].e;
    if x in Forwarded(ss[i].nodes[steps[i].a], steps[i].remotes) {
      TakenExactly(steps, ss, i, k, x);
      var j :| i < j < k && steps[j].DoReceive? && steps[j].a == steps[i].a && Takes(ss[j], steps[j], x, m, e);
      assert Next(ss[j], steps[j], ss[j + 1]) && AloneAt(ss[j], x, m.topic);
      TakingDrops(ss[j], steps[j], ss[j + 1], x, m, e);
      GoneStays(steps, ss, i, j + 1, k, x);
    } else {
      NotSentKeeps(steps, ss, i, k, x, m.topic);
    }
  }

  // ---------------------------------------------------------------- when the last copy goes

  ghost predicate Holds(s: State, x: Name, r: string) {
    x in s.nodes && r in s.nodes[x].local.retained
  }

  ghost predicate SoleHolder(s: State, x: Name, r: string) {
    forall y :: Holds(s, y, r) <==> y == x
  }

  /** The step handles at node x a retained publish that clears what lies on r's levels: an empty one of an own
      client, or any one of a peer, replays included. */
  predicate ClearsAt(s: State, step: Step, x: Name, r: string) {
    || (step.DoPublish? && step.a == x && step.m.retain && step.m.payload == [] && Levels(step.m.topic) == KeepPath(r))
    || (step.DoReceive? && step.b == x && Channel(s, step.a, x) != [] && Channel(s, step.a, x)[0].Pub?
        && Channel(s, step.a, x)[0].message.retain && Levels(Channel(s, step.a, x)[0].message.topic) == KeepPath(r))
  }

  /** Exactly when the last copy of a topic in the cluster goes: the node that has it clears it for an own client,
      or takes a retained publish of the topic from a peer, though no node may retain that any more. */
  lemma LastCopyExactly(s: State, step: Step, s': State, x: Name, r: string)
    requires Next(s, step, s') && x in s.nodes && SoleHolder(s, x, r) && OwnLeaf(s.nodes[x].local, r)
    ensures (forall y :: !Holds(s', y, r)) <==> ClearsAt(s, step, x, r)
  {
    hide Next, OwnLeaf, Touches, ClearsAt;
    assert Holds(s, x, r);
    if ClearsAt(s, step, x, r) {
      Clearing(s, step, s', x, r);
      forall y ensures !Holds(s', y, r) {
        if y in s'.nodes && y != x {
          ElsewhereKept(s, step, s', x, r, y);
        }
      }
    } else {
      StillHolds(s, step, s', x, r);
      assert Holds(s', x, r);
    }
  }

  lemma Clearing(s: State, step: Step, s': State, x: Name, r: string)
    requires Next(s, step, s') && ClearsAt(s, step, x, r) && Holds(s, x, r) && OwnLeaf(s.nodes[x].local, r)
    ensures s'.nodes.Keys == s.nodes.Keys && !Holds(s', x, r)
  {
    hide OneEach, Marks, Forwarded, Blank, KeepPath, Levels, DropStep, Broadcast, SubscribeAll, UnsubscribeAll, Replays;
    var topic := if step.DoPublish? then step.m.topic else Channel(s, step.a, x)[0].message.topic;
    assert DropStep(s.nodes[x].local, topic, s'.nodes[x].local);
    DropsAlone(s.nodes[x].local, topic, r, s'.nodes[x].local);
  }

  lemma DropsAlone(t: Table, topic: string, r: string, t': Table)
    requires DropStep(t, topic, t') && OwnLeaf(t, r) && r in t.retained && Levels(topic) == KeepPath(r)
    ensures r !in t'.retained
  {
    hide KeepPath, Levels;
    assert Cleared(t, topic, r);
  }

  lemma ElsewhereKept(s: State, step: Step, s': State, x: Name, r: string, y: Name)
    requires Next(s, step, s') && ClearsAt(s, step, x, r) && y != x && y in s'.nodes && !Holds(s, y, r)
    requires s'.nodes.Keys == s.nodes.Keys
    ensures !Holds(s', y, r)
  {
    hide Next, Bears, KeepPath, Levels;
    assert !Touches(s, step, y, r);
    StepRetains(s, step, s', y, r);
  }

  lemma StillHolds(s: State, step: Step, s': State, x: Name, r: string)
    requires Next(s, step, s') && Holds(s, x, r) && OwnLeaf(s.nodes[x].local, r) && !ClearsAt(s, step, x, r)
    ensures Holds(s', x, r)
  {
    if Touches(s, step, x, r) {
      OnlySets(s, step, x, r);
      hide OneEach, Marks, Forwarded, Blank, DropStep, Broadcast, OwnLeaf, Touches, ClearsAt;
    } else {
      hide Next, Touches, ClearsAt, OwnLeaf;
      StepRetains(s, step, s', x, r);
    }
  }

  lemma OnlySets(s: State, step: Step, x: Name, r: string)
    requires Touches(s, step, x, r) && !ClearsAt(s, step, x, r) && x in s.nodes && OwnLeaf(s.nodes[x].local, r)
    ensures step.DoPublish? && step.a == x && step.m.retain && step.m.payload != []
  {
    hide KeepPath, Levels;
  }
}

/** What a newly connected peer is told, over whole runs of the cluster. */
module Replay {
  import opened Topics
  import opened Table
  import opened Listing
  import opened Fanout
  import opened Cluster

  /** Some client of node a subscribed the filter before state k. */
  ghost predicate EverAt(steps: seq<Step>, k: nat, a: Name, f: string)
    requires k <= |steps|
  {
    exists i :: 0 <= i < k && steps[i].DoSubscribe? && steps[i].a == a && f in steps[i].topics
  }

  lemma {:induction false} SubscribeAllTopics(t: Table, topics: seq<string>, c: Client, f: string, ever: bool)
    requires t.TopicsAre(f, ever)
    ensures SubscribeAll(t, topics, c).TopicsAre(f, ever || f in topics)
  {
    if topics != [] {
      hide Table.TopicsAre;
      SubscribeAllTopics(t, Parent(topics), c, f, ever);
      SubscribeAll(t, Parent(topics), c).SubscribeTopics(Last(topics), c.id, c, f, ever || f in Parent(topics));
      assert topics == Parent(topics) + [Last(topics)];
    }
  }

  lemma {:induction false} UnsubscribeAllTopics(t: Table, topics: seq<string>, id: string, f: string, ever: bool)
    requires t.TopicsAre(f, ever)
    ensures UnsubscribeAll(t, topics, id).TopicsAre(f, ever)
  {
    if topics != [] {
      hide Table.TopicsAre, Table.Unsubscribe;
      UnsubscribeAllTopics(t, Parent(topics), id, f, ever);
      UnsubscribeAll(t, Parent(topics), id).UnsubscribeTopics(Last(topics), id, f, ever);
    }
  }

  lemma RetainTopics(t: Table, t': Table, f: string, ever: bool)
    requires t.TopicsAre(f, ever) && t'.live == t.live && t'.topics == t.topics
    ensures t'.TopicsAre(f, ever)
  {
  }

  /** What a step does to the local table of a node, as far as its filters go. */
  ghost predicate LocalStep(s: State, step: Step, s': State, a: Name)
    requires a in s.nodes && a in s'.nodes
  {
    var t, t' := s.nodes[a].local, s'.nodes[a].local;
    if step.DoSubscribe? && step.a == a then t' == SubscribeAll(t, step.topics, step.c)
    else if step.DoUnsubscribe? && step.a == a then t' == UnsubscribeAll(t, step.topics, step.id)
    else if step.DoDisconnect? && step.a == a then t' == UnsubscribeAll(t, step.topics, step.id)
    else t'.live == t.live && t'.topics == t.topics
  }

  lemma LocalSteps(s: State, step: Step, s': State, a: Name)
    requires Next(s, step, s') && a in s.nodes
    ensures a in s'.nodes && LocalStep(s, step, s', a)
  {
    hide SubscribeAll, UnsubscribeAll, ClientPublishes, Receives, Connects, Disconnects, Broadcast, Blank;
    match step
    case DoSubscribe(x, c, topics) =>
    case DoUnsubscribe(x, id, topics) =>
    case DoDisconnect(x, id, topics) =>
    case DoPublish(x, m, e, locals, remotes) => LocalPublish(s, x, m, e, locals, remotes, s', a);
    case DoReceive(x, y, locals) => LocalReceive(s, x, y, locals, s', a);
    case LinkUp(x, y, c) => LocalLinkUp(s, x, y, c, s', a);
    case LinkDown(x, y) => LocalLinkDown(s, x, y, s', a);
  }

  lemma LocalPublish(s: State, x: Name, m: Message, e: Event, locals: seq<Client>, remotes: seq<Client>, s': State,
                     a: Name)
    requires ClientPublishes(s, x, m, e, locals, remotes, s') && a in s.nodes
    ensures a in s'.nodes
    ensures s'.nodes[a].local.live == s.nodes[a].local.live && s'.nodes[a].local.topics == s.nodes[a].local.topics
  {
    hide OneEach, Blank, Broadcast, Forwarded, Marks;
  }

  lemma LocalReceive(s: State, x: Name, y: Name, locals: seq<Client>, s': State, a: Name)
    requires Receives(s, x, y, locals, s') && a in s.nodes
    ensures a in s'.nodes
    ensures s'.nodes[a].local.live == s.nodes[a].local.live && s'.nodes[a].local.topics == s.nodes[a].local.topics
  {
    hide OneEach, Marks, Blank, SubscribeAll, UnsubscribeAll, Replays;
  }

  lemma LocalLinkUp(s: State, x: Name, y: Name, c: Client, s': State, a: Name)
    requires Connects(s, x, y, c, s') && a in s.nodes
    ensures a in s'.nodes && s'.nodes[a].local == s.nodes[a].local
  {
    hide Syncs;
  }

  lemma LocalLinkDown(s: State, x: Name, y: Name, s': State, a: Name)
    requires Disconnects(s, x, y, s') && a in s.nodes
    ensures a in s'.nodes && s'.nodes[a].local == s.nodes[a].local
  {
    hide UnsubscribeAll;
  }

  lemma EverNow(steps: seq<Step>, k: nat, a: Name, f: string)
    requires 0 < k <= |steps|
    ensures EverAt(steps, k, a, f) <==>
            EverAt(steps, k - 1, a, f) || (steps[k - 1].DoSubscribe? && steps[k - 1].a == a && f in steps[k - 1].topics)
  {
  }

  /** In every state of every run a node enumerates a wildcard filter from its first subscription on for
      good, and any other filter exactly while one of its clients holds it. */
  lemma {:induction false} RunTopics(steps: seq<Step>, ss: seq<State>, k: nat, a: Name, f: string)
    requires Run(steps, ss) && k <= |steps| && a in ss[0].nodes
    ensures a in ss[k].nodes && ss[k].nodes[a].local.TopicsAre(f, EverAt(steps, k, a, f))
  {
    hide Next, Table.TopicsAre, EverAt, Wild;
    if k == 0 {
      NeverAt(steps, a, f);
    } else {
      var s, step, s' := ss[k - 1], steps[k - 1], ss[k];
      RunTopics(steps, ss, k - 1, a, f);
      LocalSteps(s, step, s', a);
      EverNow(steps, k, a, f);
      var t, ever := s.nodes[a].local, EverAt(steps, k - 1, a, f);
      match step
      case DoSubscribe(x, c, topics) =>
        if x == a {
          SubscribeAllTopics(t, topics, c, f, ever);
        } else {
          RetainTopics(t, s'.nodes[a].local, f, ever);
        }
      case DoUnsubscribe(x, id, topics) =>
        if x == a {
          UnsubscribeAllTopics(t, topics, id, f, ever);
        } else {
          RetainTopics(t, s'.nodes[a].local, f, ever);
        }
      case DoDisconnect(x, id, topics) =>
        if x == a {
          UnsubscribeAllTopics(t, topics, id, f, ever);
        } else {
          RetainTopics(t, s'.nodes[a].local, f, ever);
        }
      case _ => RetainTopics(t, s'.nodes[a].local, f, ever);
    }
  }

  lemma NeverAt(steps: seq<Step>, a: Name, f: string)
    ensures !EverAt(steps, 0, a, f)
    ensures EMPTY.TopicsAre(f, false)
  {
  }

  /** So, over every run, a new link's replay names a wildcard filter exactly if some client of the node
      ever subscribed it, though all of them may be gone, and any other filter exactly if one holds it. */
  lemma ReplayNames(steps: seq<Step>, ss: seq<State>, k: nat, f: string)
    requires Run(steps, ss) && k < |steps| && steps[k].LinkUp?
    ensures var a, b := steps[k].a, steps[k].b;
            && a in ss[k].nodes
            && Channel(ss[k], a, b) <= Channel(ss[k + 1], a, b)
            && (Sub([f]) in Channel(ss[k + 1], a, b)[|Channel(ss[k], a, b)|..] <==>
                if '#' in f || '+' in f then EverAt(steps, k, a, f) else ss[k].nodes[a].local.Held(f))
  {
    hide EverAt, Next;
    var a, b := steps[k].a, steps[k].b;
    assert Next(ss[k], steps[k], ss[k + 1]);
    LinkUpSends(ss[k], a, b, steps[k].c, ss[k + 1], f);
    SameNodes(steps, ss, k, a);
    RunTopics(steps, ss, k, a, f);
  }

  lemma LinkUpSends(s: State, a: Name, b: Name, c: Client, s': State, f: string)
    requires Next(s, LinkUp(a, b, c), s')
    ensures a in s.nodes && Channel(s, a, b) <= Channel(s', a, b)
    ensures Sub([f]) in Channel(s', a, b)[|Channel(s, a, b)|..] <==> f in s.nodes[a].local.topics
  {
    hide Syncs;
    var ps :| Syncs(s.nodes[a].local, ps)
      && s' == s.(nodes := s.nodes[a := s.nodes[a].(peers := s.nodes[a].peers[b := c])],
                  channels := s.channels[(a, b) := Channel(s, a, b) + ps]);
    assert Channel(s', a, b)[|Channel(s, a, b)|..] == ps;
    SyncNames(s.nodes[a].local, ps, f);
  }

  lemma SyncNames(t: Table, ps: seq<Packet>, f: string)
    requires Syncs(t, ps)
    ensures Sub([f]) in ps <==> f in t.topics
  {
    var fs :| Distinct(fs) && (forall f :: f in fs <==> f in t.topics) && ps == Announced(fs);
    if i :| 0 <= i < |fs| && fs[i] == f {
      assert ps[i] == Sub([f]);
    }
    if i :| 0 <= i < |ps| && ps[i] == Sub([f]) {
      assert [fs[i]][0] == [f][0];
    }
  }

  lemma {:induction false} SameNodes(steps: seq<Step>, ss: seq<State>, k: nat, a: Name)
    requires Run(steps, ss) && k <= |steps| && a in ss[k].nodes
    ensures a in ss[0].nodes
  {
    if k > 0 {
      NodesStay(ss[k - 1], steps[k - 1], ss[k]);
      SameNodes(steps, ss, k - 1, a);
    }
  }

  lemma NodesStay(s: State, step: Step, s': State)
    requires Next(s, step, s')
    ensures s'.nodes.Keys == s.nodes.Keys
  {
    hide SubscribeAll, UnsubscribeAll, Replays, Syncs, OneEach, Blank, Broadcast, Forwarded, Marks;
  }
}

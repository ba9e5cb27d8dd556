/** The table of a node's own clients at any time of a run is what the history of its calls made it, so that
    all that holds of histories holds of runs. */
module NodeHistory {
  import opened Topics
  import opened Table
  import opened Fanout
  import opened Cluster
  import History

  function SubscribeOps(topics: seq<string>, c: Client): (ops: seq<History.Op>)
    ensures |ops| == |topics|
  {
    if topics == [] then [] else SubscribeOps(Parent(topics), c) + [History.Subscribe(Last(topics), c)]
  }

  function UnsubscribeOps(topics: seq<string>, id: string): (ops: seq<History.Op>)
    ensures |ops| == |topics|
  {
    if topics == [] then [] else UnsubscribeOps(Parent(topics), id) + [History.Unsubscribe(Last(topics), id)]
  }

  function PublishOps(m: Message): seq<History.Op> {
    if !m.retain then []
    else if m.payload != [] then [History.AddRetain(m.topic, m)]
    else [History.RemoveRetain(m.topic)]
  }

  /** The calls on the clients' index that a step of the cluster makes at node a. */
  function StepOps(s: State, step: Step, a: Name): seq<History.Op> {
    match step
    case DoSubscribe(x, c, topics) => if x == a then SubscribeOps(topics, c) else []
    case DoUnsubscribe(x, id, topics) => if x == a then UnsubscribeOps(topics, id) else []
    case DoDisconnect(x, id, topics) => if x == a then UnsubscribeOps(topics, id) else []
    case DoPublish(x, m, _, _, _) => if x == a then PublishOps(m) else []
    case DoReceive(x, y, _) =>
      if y == a && Channel(s, x, y) != [] && Channel(s, x, y)[0].Pub? && Channel(s, x, y)[0].message.retain
      then [History.RemoveRetain(Channel(s, x, y)[0].message.topic)] else []
    case _ => []
  }

  function RunOps(steps: seq<Step>, ss: seq<State>, k: nat, a: Name): seq<History.Op>
    requires k <= |steps| < |ss|
  {
    if k == 0 then [] else RunOps(steps, ss, k - 1, a) + StepOps(ss[k - 1], steps[k - 1], a)
  }

  /** The calls lead from one table to another. */
  ghost predicate Leads(t: Table, ops: seq<History.Op>, t': Table)
    decreases |ops|
  {
    if ops == [] then t' == t else exists u :: Leads(t, Parent(ops), u) && History.Step(u, Last(ops), t')
  }

  lemma {:induction false} LeadsOn(t: Table, ops: seq<History.Op>, u: Table, more: seq<History.Op>, t': Table)
    requires Leads(t, ops, u) && Leads(u, more, t')
    ensures Leads(t, ops + more, t')
    decreases |more|
  {
    if more == [] {
      assert ops + more == ops;
    } else {
      hide History.Step;
      var v :| Leads(u, Parent(more), v) && History.Step(v, Last(more), t');
      LeadsOn(t, ops, u, Parent(more), v);
      LeadsMore(t, ops + Parent(more), v, Last(more), t');
      assert ops + more == (ops + Parent(more)) + [Last(more)];
    }
  }

  lemma LeadsMore(t: Table, ops: seq<History.Op>, u: Table, op: History.Op, t': Table)
    requires Leads(t, ops, u) && History.Step(u, op, t')
    ensures Leads(t, ops + [op], t')
  {
    hide History.Step;
    assert Parent(ops + [op]) == ops && Last(ops + [op]) == op;
  }

  lemma LeadsOne(t: Table, op: History.Op, t': Table)
    requires History.Step(t, op, t')
    ensures Leads(t, [op], t')
  {
    hide History.Step;
    assert Leads(t, [], t);
    LeadsMore(t, [], t, op, t');
    assert [] + [op] == [op];
  }

  lemma {:induction false} SubscribeLeads(t: Table, topics: seq<string>, c: Client)
    ensures Leads(t, SubscribeOps(topics, c), SubscribeAll(t, topics, c))
  {
    if topics != [] {
      hide Leads, Table.Subscribe;
      SubscribeLeads(t, Parent(topics), c);
      LeadsMore(t, SubscribeOps(Parent(topics), c), SubscribeAll(t, Parent(topics), c),
                History.Subscribe(Last(topics), c), SubscribeAll(t, topics, c));
    }
  }

  lemma {:induction false} UnsubscribeLeads(t: Table, topics: seq<string>, id: string)
    ensures Leads(t, UnsubscribeOps(topics, id), UnsubscribeAll(t, topics, id))
  {
    if topics != [] {
      hide Leads, Table.Unsubscribe;
      UnsubscribeLeads(t, Parent(topics), id);
      LeadsMore(t, UnsubscribeOps(Parent(topics), id), UnsubscribeAll(t, Parent(topics), id),
                History.Unsubscribe(Last(topics), id), UnsubscribeAll(t, topics, id));
    }
  }

  lemma PublishLeads(t: Table, m: Message, t': Table)
    requires !Blank(m.topic) && RetainStep(t, m, t')
    ensures Leads(t, PublishOps(m), t')
  {
    hide Blank, DropStep, Leads;
    if m.retain {
      LeadsOne(t, PublishOps(m)[0], t');
    } else {
      LeadsNowhere(t);
    }
  }

  lemma LeadsNowhere(t: Table)
    ensures Leads(t, [], t)
  {
  }

  lemma ReceiveLeads(s: State, x: Name, a: Name, locals: seq<Client>, s': State)
    requires Receives(s, x, a, locals, s')
    ensures a in s'.nodes
    ensures Leads(s.nodes[a].local, StepOps(s, DoReceive(x, a, locals), a), s'.nodes[a].local)
  {
    hide Blank, DropStep, Leads, OneEach, Marks, Replays, SubscribeAll, UnsubscribeAll;
    var p := Channel(s, x, a)[0];
    if p.Pub? && p.message.retain {
      LeadsOne(s.nodes[a].local, History.RemoveRetain(p.message.topic), s'.nodes[a].local);
    } else {
      LeadsNowhere(s.nodes[a].local);
    }
  }

  lemma OwnStep(s: State, step: Step, s': State, a: Name)
    requires Next(s, step, s') && a in s.nodes
    ensures a in s'.nodes && Leads(s.nodes[a].local, StepOps(s, step, a), s'.nodes[a].local)
  {
    hide Leads, SubscribeAll, UnsubscribeAll, SubscribeOps, UnsubscribeOps, PublishOps, RetainStep, Broadcast, Blank;
    hide OneEach, Forwarded, Marks, Receives, Connects, Disconnects;
    LeadsNowhere(s.nodes[a].local);
    match step
    case DoSubscribe(x, c, topics) => SubscribeLeads(s.nodes[x].local, topics, c);
    case DoUnsubscribe(x, id, topics) => UnsubscribeLeads(s.nodes[x].local, topics, id);
    case DoDisconnect(x, id, topics) => UnsubscribeLeads(s.nodes[x].local, topics, id);
    case DoPublish(x, m, e, locals, remotes) => PublishLeads(s.nodes[x].local, m, s'.nodes[x].local);
    case DoReceive(x, y, locals) =>
      ReceiveLeads(s, x, y, locals, s');
      OtherReceives(s, x, y, locals, s', a);
    case LinkUp(x, y, c) => LinksLeave(s, step, s', a);
    case LinkDown(x, y) => LinksLeave(s, step, s', a);
  }

  lemma OtherReceives(s: State, x: Name, y: Name, locals: seq<Client>, s': State, a: Name)
    requires Receives(s, x, y, locals, s') && a in s.nodes
    ensures a in s'.nodes && (a != y ==> s'.nodes[a].local == s.nodes[a].local)
  {
    hide Blank, DropStep, OneEach, Marks, Replays, SubscribeAll, UnsubscribeAll;
  }

  lemma LinksLeave(s: State, step: Step, s': State, a: Name)
    requires Next(s, step, s') && (step.LinkUp? || step.LinkDown?) && a in s.nodes
    ensures a in s'.nodes && s'.nodes[a].local == s.nodes[a].local
  {
    hide Syncs, UnsubscribeAll, CoversPeer;
  }

  lemma {:induction false} RunLeads(steps: seq<Step>, ss: seq<State>, k: nat, a: Name)
    requires Run(steps, ss) && k <= |steps| && a in ss[0].nodes
    ensures a in ss[k].nodes && Leads(EMPTY, RunOps(steps, ss, k, a), ss[k].nodes[a].local)
  {
    hide Next, Leads, StepOps;
    if k == 0 {
      LeadsNowhere(EMPTY);
    } else {
      RunLeads(steps, ss, k - 1, a);
      OwnStep(ss[k - 1], steps[k - 1], ss[k], a);
      LeadsOn(EMPTY, RunOps(steps, ss, k - 1, a), ss[k - 1].nodes[a].local, StepOps(ss[k - 1], steps[k - 1], a),
              ss[k].nodes[a].local);
    }
  }

  lemma {:induction false} LeadsIsRun(ops: seq<History.Op>, t: Table) returns (ts: seq<Table>)
    requires Leads(EMPTY, ops, t)
    ensures History.Run(ops, ts) && Last(ts) == t
    decreases |ops|
  {
    if ops == [] {
      ts := [EMPTY];
    } else {
      hide History.Step;
      var u :| Leads(EMPTY, Parent(ops), u) && History.Step(u, Last(ops), t);
      var before := LeadsIsRun(Parent(ops), u);
      ts := before + [t];
      forall i | 0 <= i < |ops| ensures History.Step(ts[i], ops[i], ts[i + 1]) {
        if i < |ops| - 1 {
          assert History.Step(before[i], Parent(ops)[i], before[i + 1]);
        }
      }
    }
  }

  /** Over every run: the table of a node's clients is one that the history of its calls makes. */
  lemma RunHistory(steps: seq<Step>, ss: seq<State>, k: nat, a: Name) returns (ts: seq<Table>)
    requires Run(steps, ss) && k <= |steps| && a in ss[0].nodes
    ensures a in ss[k].nodes && History.Run(RunOps(steps, ss, k, a), ts) && Last(ts) == ss[k].nodes[a].local
  {
    hide Next, Init, Leads, History.Step;
    RunLeads(steps, ss, k, a);
    ts := LeadsIsRun(RunOps(steps, ss, k, a), ss[k].nodes[a].local);
  }

  /** So, over every run of the cluster, a publish at node a cannot miss the connection with which a matching
      subscription stands if and only if no other connection of its client id answers: none whose own matching
      subscription stands, and none whose "#" subscription was taken back and left a copy that answers. */
  lemma RunServed(steps: seq<Step>, ss: seq<State>, k: nat, a: Name, f: string, id: string, topic: string)
    requires Run(steps, ss) && k <= |steps| && a in ss[0].nodes && !Blank(topic) && !Wild(topic) && Matches(f, topic)
    requires History.Standing(RunOps(steps, ss, k, a), f, id).Some?
    ensures a in ss[k].nodes
    ensures var ops := RunOps(steps, ss, k, a);
            var h := History.Standing(ops, f, id).value;
            (forall cs | OneEach(cs, ss[k].nodes[a].local.Answers(topic)) :: h in cs) <==>
            !History.Contested(ops, topic, h)
  {
    hide Next, Init, History.Step, History.Standing, History.Contested, OneEach, Table.Answers, Blank, Wild, Matches;
    var ts := RunHistory(steps, ss, k, a);
    History.HistoryServed(RunOps(steps, ss, k, a), ts, f, id, topic);
  }
}

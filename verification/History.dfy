/** Whole histories of calls on the topic index. */
module History {
  import opened Topics
  import opened Matching
  import opened Table
  import opened Fanout

  datatype Op =
    | Subscribe(filter: string, client: Client)
    | Unsubscribe(filter: string, id: string)
    | AddRetain(topic: string, message: Message)
    | RemoveRetain(topic: string)

  /** One call, as the contracts of the trie's methods state it. */
  ghost predicate Step(t: Table, op: Op, t': Table) {
    match op
    case Subscribe(f, c) => t' == t.Subscribe(f, c.id, c)
    case Unsubscribe(f, id) => t' == t.Unsubscribe(f, id)
    case AddRetain(topic, m) => !Blank(topic) && t' == t.Retain(topic, m)
    case RemoveRetain(topic) => !Blank(topic) && DropStep(t, topic, t')
  }

  /** ts are the tables before, between and after the calls. */
  ghost predicate Run(ops: seq<Op>, ts: seq<Table>) {
    && |ts| == |ops| + 1
    && ts[0] == EMPTY
    && forall i | 0 <= i < |ops| :: Step(ts[i], ops[i], ts[i + 1])
  }

  lemma {:induction false} RunOk(ops: seq<Op>, ts: seq<Table>)
    requires Run(ops, ts)
    ensures Last(ts).Ok()
  {
    if ops == [] {
      assert Last(ts) == EMPTY;
    } else {
      var n := |ops| - 1;
      RunFront(ops, ts);
      RunOk(ops[..n], ts[..n + 1]);
      StepOk(ts[n], ops[n], ts[n + 1]);
    }
  }

  lemma StepOk(t: Table, op: Op, t': Table)
    requires t.Ok() && Step(t, op, t')
    ensures t'.Ok()
  {
    hide Blank, CopiesUp;
    match op {
      case Subscribe(f, c) => t.SubscribeOk(f, c.id, c);
      case Unsubscribe(f, id) => t.UnsubscribeOk(f, id);
      case AddRetain(topic, m) =>
      case RemoveRetain(topic) =>
    }
  }

  lemma RunFront(ops: seq<Op>, ts: seq<Table>)
    requires Run(ops, ts) && ops != []
    ensures var n := |ops| - 1;
            Run(ops[..n], ts[..n + 1]) && Last(ts[..n + 1]) == ts[n] && Step(ts[n], ops[n], ts[n + 1])
                && Last(ts) == ts[n + 1]
  {
    hide Step;
    var n := |ops| - 1;
    forall i | 0 <= i < n ensures Step(ts[..n + 1][i], ops[..n][i], ts[..n + 1][i + 1]) {
    }
  }

  /** The connection with which the pair's last effective call left it, if that was a Subscribe. */
  function Standing(ops: seq<Op>, f: string, id: string): Option<Client> {
    if ops == [] then None
    else
      match Last(ops)
      case Subscribe(g, c) => if g == f && c.id == id then Some(c) else Standing(ops[..|ops| - 1], f, id)
      case Unsubscribe(g, i) =>
        if g == f && i == id && Table.Removable(f) then None else Standing(ops[..|ops| - 1], f, id)
      case _ => Standing(ops[..|ops| - 1], f, id)
  }

  /** The pair was subscribed at some time. */
  predicate Ever(ops: seq<Op>, f: string, id: string) {
    exists i :: 0 <= i < |ops| && ops[i].Subscribe? && ops[i].filter == f && ops[i].client.id == id
  }

  lemma {:induction false} RunMeans(ops: seq<Op>, ts: seq<Table>, f: string, id: string)
    requires Run(ops, ts)
    ensures (f, id) in Last(ts).live <==> Standing(ops, f, id).Some?
    ensures (f, id) in Last(ts).live ==> Last(ts).live[(f, id)] == Standing(ops, f, id).value
    ensures (f, id) in Last(ts).copies <==> CopiesUp(f) && Ever(ops, f, id)
  {
    hide Step, CopiesUp, Ever;
    if ops == [] {
      assert Last(ts) == EMPTY;
      NeverYet(f, id);
    } else {
      var n := |ops| - 1;
      RunFront(ops, ts);
      RunMeans(ops[..n], ts[..n + 1], f, id);
      EverMore(ops, f, id);
      StepMeans(ts[n], ops[n], ts[n + 1], f, id);
    }
  }

  lemma NeverYet(f: string, id: string)
    ensures !Ever([], f, id)
  {
  }

  /** What one call does to one pair and its copy. */
  lemma StepMeans(t: Table, op: Op, t': Table, f: string, id: string)
    requires Step(t, op, t')
    ensures match op
            case Subscribe(g, c) =>
              if g == f && c.id == id
              then
                && (f, id) in t'.live && t'.live[(f, id)] == c
                && ((f, id) in t'.copies <==> CopiesUp(f) || (f, id) in t.copies)
              else SamePair(t, t', f, id)
            case Unsubscribe(g, i) =>
              if g == f && i == id && Table.Removable(f)
              then (f, id) !in t'.live && ((f, id) in t'.copies <==> (f, id) in t.copies)
              else SamePair(t, t', f, id)
            case _ => SamePair(t, t', f, id)
  {
    hide CopiesUp, Blank, Table.Removable;
  }

  ghost predicate SamePair(t: Table, t': Table, f: string, id: string) {
    && ((f, id) in t'.live <==> (f, id) in t.live) && ((f, id) in t.live ==> t'.live[(f, id)] == t.live[(f, id)])
    && ((f, id) in t'.copies <==> (f, id) in t.copies)
  }

  lemma EverMore(ops: seq<Op>, f: string, id: string)
    requires ops != []
    ensures var n := |ops| - 1;
            Ever(ops, f, id) <==>
              Ever(ops[..n], f, id) || (ops[n].Subscribe? && ops[n].filter == f && ops[n].client.id == id)
  {
    var n := |ops| - 1;
    if Ever(ops[..n], f, id) {
      var i :| 0 <= i < n && ops[..n][i].Subscribe? && ops[..n][i].filter == f && ops[..n][i].client.id == id;
      assert ops[i] == ops[..n][i];
    }
    if Ever(ops, f, id) {
      var i :| 0 <= i < |ops| && ops[i].Subscribe? && ops[i].filter == f && ops[i].client.id == id;
      assert i < n ==> ops[..n][i] == ops[i];
    }
  }

  /** A "p/#" subscription that was taken back although its copy on p answers the topic. */
  ghost predicate Outlived(ops: seq<Op>, topic: string)
    requires !Blank(topic)
  {
    exists pr: Pair :: CopyHit(pr.0, topic) && Ever(ops, pr.0, pr.1) && Standing(ops, pr.0, pr.1).None?
  }

  /** The answers are the standing pairs whose filter matches the topic. */
  ghost predicate AnswersAreStanding(answers: map<Pair, Client>, ops: seq<Op>, topic: string) {
    forall pr: Pair ::
      && (pr in answers <==> Standing(ops, pr.0, pr.1).Some? && Matches(pr.0, topic))
      && (pr in answers ==> Some(answers[pr]) == Standing(ops, pr.0, pr.1))
  }

  /** Over every history, a topic finds exactly the standing subscriptions that match it, if and
      only if no subscription one of whose copies answers the topic has been taken back. */
  lemma HistoryAnswers(ops: seq<Op>, ts: seq<Table>, topic: string)
    requires Run(ops, ts) && !Blank(topic) && !Wild(topic)
    ensures AnswersAreStanding(Last(ts).Answers(topic), ops, topic) <==> !Outlived(ops, topic)
  {
    hide Blank, Wild, CopiesUp, Matches, CopyHit, Step, Standing, Ever, Table.Answers, Table.Ok;
    var t := Last(ts);
    RunOk(ops, ts);
    t.AnswersAreMatches(topic);
    var want := map pr | pr in t.live && Matches(pr.0, topic) :: t.live[pr];
    forall pr: Pair
      ensures pr in t.live <==> Standing(ops, pr.0, pr.1).Some?
      ensures pr in t.live ==> t.live[pr] == Standing(ops, pr.0, pr.1).value
      ensures CopyHit(pr.0, topic) ==> (pr in t.copies <==> Ever(ops, pr.0, pr.1))
    {
      RunMeans(ops, ts, pr.0, pr.1);
      HitCopiesUp(pr.0, topic);
      assert pr == (pr.0, pr.1);
    }
    assert t.StaleFor(topic) <==> Outlived(ops, topic);
    assert AnswersAreStanding(want, ops, topic);
    if AnswersAreStanding(t.Answers(topic), ops, topic) {
      assert t.Answers(topic) == want;
    }
  }

  /** In particular, histories that never unsubscribe a filter ending in "#" are exact for every topic. */
  lemma {:induction false} NoHashNoStale(ops: seq<Op>, topic: string)
    requires !Blank(topic)
    requires forall i | 0 <= i < |ops| && ops[i].Unsubscribe? :: !CopiesUp(ops[i].filter)
    ensures !Outlived(ops, topic)
  {
    forall pr: Pair | CopyHit(pr.0, topic) && Ever(ops, pr.0, pr.1) ensures Standing(ops, pr.0, pr.1).Some? {
      StillStanding(ops, pr.0, pr.1);
    }
  }

  lemma {:induction false} StillStanding(ops: seq<Op>, f: string, id: string)
    requires forall i | 0 <= i < |ops| && ops[i].Unsubscribe? :: ops[i].filter != f
    requires Ever(ops, f, id)
    ensures Standing(ops, f, id).Some?
  {
    var n := |ops| - 1;
    EverMore(ops, f, id);
    assert Last(ops) == ops[n];
    if Ever(ops[..n], f, id) {
      assert forall i | 0 <= i < n :: ops[..n][i] == ops[i];
      StillStanding(ops[..n], f, id);
    }
  }

  // ---------------------------------------------------------------- connections

  /** The connection of the last call that subscribed the pair, taken back or not. */
  function LastConn(ops: seq<Op>, f: string, id: string): Option<Client> {
    if ops == [] then None
    else if Last(ops).Subscribe? && Last(ops).filter == f && Last(ops).client.id == id then Some(Last(ops).client)
    else LastConn(ops[..|ops| - 1], f, id)
  }

  /** A copy keeps the connection that subscribed last. */
  lemma {:induction false} CopyMeans(ops: seq<Op>, ts: seq<Table>, f: string, id: string)
    requires Run(ops, ts)
    ensures (f, id) in Last(ts).copies <==> CopiesUp(f) && LastConn(ops, f, id).Some?
    ensures (f, id) in Last(ts).copies ==> Some(Last(ts).copies[(f, id)]) == LastConn(ops, f, id)
  {
    hide CopiesUp, Blank, Table.Removable, Cleared;
    if ops == [] {
      assert Last(ts) == EMPTY;
    } else {
      var n := |ops| - 1;
      RunFront(ops, ts);
      CopyMeans(ops[..n], ts[..n + 1], f, id);
    }
  }

  lemma {:induction false} StandingId(ops: seq<Op>, f: string, id: string)
    ensures Standing(ops, f, id).Some? ==> Standing(ops, f, id).value.id == id
    ensures LastConn(ops, f, id).Some? ==> LastConn(ops, f, id).value.id == id
  {
    hide Table.Removable;
    if ops != [] {
      StandingId(ops[..|ops| - 1], f, id);
    }
  }

  /** Which connection answers for a pair, if any. */
  function Answerer(ops: seq<Op>, g: string, id: string, topic: string): Option<Client>
    requires !Blank(topic)
  {
    if Standing(ops, g, id).Some? then if Matches(g, topic) then Standing(ops, g, id) else None
    else if CopyHit(g, topic) then LastConn(ops, g, id)
    else None
  }

  lemma AnswererAnswers(ops: seq<Op>, ts: seq<Table>, g: string, id: string, topic: string)
    requires Run(ops, ts) && !Blank(topic) && !Wild(topic)
    ensures var answers := Last(ts).Answers(topic);
            && ((g, id) in answers <==> Answerer(ops, g, id, topic).Some?)
            && ((g, id) in answers ==> Some(answers[(g, id)]) == Answerer(ops, g, id, topic))
  {
    hide Blank, Wild, CopiesUp, Matches, CopyHit, LiveHit, Step, Standing, LastConn, Ever;
    RunMeans(ops, ts, g, id);
    CopyMeans(ops, ts, g, id);
    RunOk(ops, ts);
    HitsAreMatches(g, topic);
    HitCopiesUp(g, topic);
    Last(ts).AnsweredOnce((g, id), topic);
  }

  /** Another connection of this client id answers the topic: one whose own matching subscription stands, or one
      whose "#" subscription was taken back and left its copy. */
  ghost predicate Contested(ops: seq<Op>, topic: string, h: Client)
    requires !Blank(topic)
  {
    exists g :: Answerer(ops, g, h.id, topic).Some? && Answerer(ops, g, h.id, topic) != Some(h)
  }

  /** Over every history: the connection with which a matching subscription stands is written to, whatever order
      the index answers in, if and only if no other connection of its client id answers. */
  lemma HistoryServed(ops: seq<Op>, ts: seq<Table>, f: string, id: string, topic: string)
    requires Run(ops, ts) && !Blank(topic) && !Wild(topic) && Matches(f, topic) && Standing(ops, f, id).Some?
    ensures var h := Standing(ops, f, id).value;
            (forall cs | OneEach(cs, Last(ts).Answers(topic)) :: h in cs) <==> !Contested(ops, topic, h)
  {
    hide Blank, Wild, Matches, Step, Standing, LastConn, Answerer, Table.Answers, OneEach, CopyHit;
    var answers, h := Last(ts).Answers(topic), Standing(ops, f, id).value;
    AlwaysWritten(answers, h);
    StandingId(ops, f, id);
    StandingAnswers(ops, f, id, topic);
    AnswererAnswers(ops, ts, f, id, topic);
    assert Answering(answers, h);
    forall pr: Pair
      ensures pr in answers <==> Answerer(ops, pr.0, pr.1, topic).Some?
      ensures pr in answers ==> Some(answers[pr]) == Answerer(ops, pr.0, pr.1, topic) && answers[pr].id == pr.1
    {
      AnswererAnswers(ops, ts, pr.0, pr.1, topic);
      AnswererId(ops, pr.0, pr.1, topic);
      assert pr == (pr.0, pr.1);
    }
    if g :| Answerer(ops, g, h.id, topic).Some? && Answerer(ops, g, h.id, topic) != Some(h) {
      assert (g, h.id) in answers && answers[(g, h.id)] != h;
    }
  }

  lemma StandingAnswers(ops: seq<Op>, f: string, id: string, topic: string)
    requires !Blank(topic) && Matches(f, topic) && Standing(ops, f, id).Some?
    ensures Answerer(ops, f, id, topic) == Standing(ops, f, id)
  {
    hide Matches, Standing, Blank;
  }

  lemma AnswererId(ops: seq<Op>, g: string, id: string, topic: string)
    requires !Blank(topic)
    ensures Answerer(ops, g, id, topic).Some? ==> Answerer(ops, g, id, topic).value.id == id
  {
    hide Matches, Standing, Blank, LastConn, CopyHit;
    StandingId(ops, g, id);
  }

  // ---------------------------------------------------------------- the foliage

  /** Some call subscribed the filter. */
  ghost predicate EverNamed(ops: seq<Op>, f: string) {
    exists i :: 0 <= i < |ops| && ops[i].Subscribe? && ops[i].filter == f
  }

  lemma EverNamedMore(ops: seq<Op>, f: string)
    requires ops != []
    ensures EverNamed(ops, f) <==> EverNamed(Parent(ops), f) || (Last(ops).Subscribe? && Last(ops).filter == f)
  {
    var front := Parent(ops);
    if i :| 0 <= i < |ops| && ops[i].Subscribe? && ops[i].filter == f {
      assert i < |front| ==> front[i] == ops[i];
    }
    if i :| 0 <= i < |front| && front[i].Subscribe? && front[i].filter == f {
      assert ops[i] == front[i];
    }
  }

  /** Some client's last effective call about the filter subscribed it. */
  ghost predicate SomeoneStands(ops: seq<Op>, f: string) {
    exists id :: Standing(ops, f, id).Some?
  }

  lemma HeldIsStanding(ops: seq<Op>, ts: seq<Table>, f: string)
    requires Run(ops, ts)
    ensures Last(ts).Held(f) <==> SomeoneStands(ops, f)
  {
    hide Step;
    if id :| Standing(ops, f, id).Some? {
      RunMeans(ops, ts, f, id);
    }
    if id :| (f, id) in Last(ts).live {
      RunMeans(ops, ts, f, id);
    }
  }

  /** Over every history: a wildcard filter is enumerated, and so replayed to peers, from its first
      subscription on for good; any other filter exactly while some client holds it. */
  lemma {:induction false} TopicsMean(ops: seq<Op>, ts: seq<Table>, f: string)
    requires Run(ops, ts)
    ensures f in Last(ts).topics <==> if '#' in f || '+' in f then EverNamed(ops, f) else SomeoneStands(ops, f)
  {
    hide EverNamed, SomeoneStands, Table.Held, Step;
    TopicsRun(ops, ts, f);
    HeldIsStanding(ops, ts, f);
  }

  lemma {:induction false} TopicsRun(ops: seq<Op>, ts: seq<Table>, f: string)
    requires Run(ops, ts)
    ensures Last(ts).TopicsAre(f, EverNamed(ops, f))
  {
    hide Wild, EverNamed, Blank;
    if ops == [] {
      assert Last(ts) == EMPTY;
      NeverNamed(f);
    } else {
      var n := |ops| - 1;
      RunFront(ops, ts);
      TopicsRun(ops[..n], ts[..n + 1], f);
      EverNamedMore(ops, f);
      match ops[n]
      case Subscribe(g, c) => ts[n].SubscribeTopics(g, c.id, c, f, EverNamed(ops[..n], f));
      case Unsubscribe(g, id) => ts[n].UnsubscribeTopics(g, id, f, EverNamed(ops[..n], f));
      case AddRetain(topic, m) =>
      case RemoveRetain(topic) =>
    }
  }

  lemma NeverNamed(f: string)
    ensures !EverNamed([], f)
  {
  }

  // ---------------------------------------------------------------- retained messages

  /** The message that the last call about this topic left, if any. */
  function Keeping(ops: seq<Op>, topic: string): Option<Message> {
    if ops == [] then None
    else
      match Last(ops)
      case AddRetain(t, m) => if t == topic then Some(m) else Keeping(ops[..|ops| - 1], topic)
      case RemoveRetain(t) => if t == topic then None else Keeping(ops[..|ops| - 1], topic)
      case _ => Keeping(ops[..|ops| - 1], topic)
  }

  ghost predicate Named(ops: seq<Op>, topic: string) {
    exists a :: a in ops && a.AddRetain? && a.topic == topic
  }

  /** No call about another topic reaches this topic's leaf, and none about this topic another's. */
  ghost predicate Alone(ops: seq<Op>, topic: string) {
    && (forall a | a in ops && a.RemoveRetain? :: KeepPath(topic) == Levels(a.topic) <==> a.topic == topic)
    && (forall a | a in ops && a.AddRetain? && KeepPath(a.topic) == Levels(topic) :: a.topic == topic)
  }

  lemma NamedMore(ops: seq<Op>, topic: string)
    requires ops != []
    ensures Named(ops, topic) <==> Named(Parent(ops), topic) || (Last(ops).AddRetain? && Last(ops).topic == topic)
  {
    assert ops == Parent(ops) + [Last(ops)];
    if a :| a in Parent(ops) && a.AddRetain? && a.topic == topic {
      assert a in ops;
    }
    if a :| a in ops && a.AddRetain? && a.topic == topic {
      assert a in Parent(ops) || a == Last(ops);
    }
  }

  lemma {:induction false} RetainedNamed(ops: seq<Op>, ts: seq<Table>, topic: string)
    requires Run(ops, ts) && topic in Last(ts).retained
    ensures Named(ops, topic)
  {
    if ops != [] {
      var n := |ops| - 1;
      RunFront(ops, ts);
      NamedMore(ops, topic);
      StepRetained(ts[n], ops[n], ts[n + 1]);
      if topic in ts[n].retained {
        RetainedNamed(ops[..n], ts[..n + 1], topic);
      }
    }
  }

  /** What one call does to the retained messages. */
  lemma StepRetained(t: Table, op: Op, t': Table)
    requires Step(t, op, t')
    ensures match op
            case AddRetain(x, m) => t'.retained == t.retained[x := m]
            case RemoveRetain(x) =>
              t'.retained == t.retained || exists k :: Cleared(t, x, k) && t'.retained == t.retained - {k}
            case _ => t'.retained == t.retained
    ensures op.RemoveRetain? && t'.retained == t.retained ==> forall k :: !Cleared(t, op.topic, k)
  {
    hide Blank, Cleared, Table.Removable, CopiesUp;
    if op.RemoveRetain? && exists k :: Cleared(t, op.topic, k) {
      var k :| Cleared(t, op.topic, k) && t' == t.DropRetained(k);
      ClearedIn(t, op.topic, k);
    }
  }

  lemma ClearedIn(t: Table, topic: string, k: string)
    requires Cleared(t, topic, k)
    ensures k in t.retained
  {
  }

  /** Over every history whatever: a retained message is the one that the last AddRetain of its topic
      brought; and it is retained unless a RemoveRetain since then led to where the topic is filed. */
  lemma {:induction false} RetainedLast(ops: seq<Op>, ts: seq<Table>, topic: string)
    requires Run(ops, ts)
    ensures topic in Last(ts).retained ==> Some(Last(ts).retained[topic]) == Added(ops, topic)
    ensures Added(ops, topic).Some? && !Threatened(ops, topic) ==> topic in Last(ts).retained
  {
    if ops == [] {
      assert Last(ts) == EMPTY;
    } else {
      hide KeepPath, Levels;
      var n := |ops| - 1;
      RunFront(ops, ts);
      RetainedLast(ops[..n], ts[..n + 1], topic);
      StepRetained(ts[n], ops[n], ts[n + 1]);
    }
  }

  function Added(ops: seq<Op>, topic: string): Option<Message> {
    if ops == [] then None
    else if Last(ops).AddRetain? && Last(ops).topic == topic then Some(Last(ops).message)
    else Added(ops[..|ops| - 1], topic)
  }

  predicate Threatened(ops: seq<Op>, topic: string) {
    && ops != []
    && !(Last(ops).AddRetain? && Last(ops).topic == topic)
    && ((Last(ops).RemoveRetain? && KeepPath(topic) == Levels(Last(ops).topic)) || Threatened(ops[..|ops| - 1], topic))
  }

  /** Over every history in which nothing shares the topic's levels, the topic is retained exactly as
      the last call about it left it. */
  lemma {:induction false} RetainedMeans(ops: seq<Op>, ts: seq<Table>, topic: string)
    requires Run(ops, ts) && Alone(ops, topic)
    ensures topic in Last(ts).retained <==> Keeping(ops, topic).Some?
    ensures topic in Last(ts).retained ==> Last(ts).retained[topic] == Keeping(ops, topic).value
  {
    if ops == [] {
      assert Last(ts) == EMPTY;
    } else {
      hide KeepPath, Levels, Step, Named;
      var n := |ops| - 1;
      RunFront(ops, ts);
      assert ops == ops[..n] + [ops[n]];
      RetainedMeans(ops[..n], ts[..n + 1], topic);
      StepRetained(ts[n], ops[n], ts[n + 1]);
      if ops[n].RemoveRetain? {
        OnlyOwn(ops, ts, topic);
      }
    }
  }

  lemma OnlyOwn(ops: seq<Op>, ts: seq<Table>, topic: string)
    requires Run(ops, ts) && Alone(ops, topic) && ops != [] && Last(ops).RemoveRetain?
    ensures var t := ts[|ops| - 1];
            forall k | Cleared(t, Last(ops).topic, k) :: k == topic <==> Last(ops).topic == topic
    ensures topic in ts[|ops| - 1].retained && Last(ops).topic == topic ==> Cleared(ts[|ops| - 1], topic, topic)
  {
    hide KeepPath, Levels, Step;
    var n := |ops| - 1;
    RunFront(ops, ts);
    assert ops == ops[..n] + [ops[n]];
    forall k | Cleared(ts[n], ops[n].topic, k) ensures k == topic <==> ops[n].topic == topic {
      RetainedNamed(ops[..n], ts[..n + 1], k);
      var a :| a in ops[..n] && a.AddRetain? && a.topic == k;
      assert a in ops && Last(ops) in ops;
    }
    assert Last(ops) in ops;
  }

  /** Over those histories, a filter is sent exactly the messages that the last call about their topic
      left and whose levels it matches by retained search. */
  lemma HistoryRetains(ops: seq<Op>, ts: seq<Table>, filter: string, topic: string)
    requires Run(ops, ts) && Alone(ops, topic) && !Blank(filter)
    ensures var answers := Last(ts).RetainAnswers(filter);
            && (topic in answers <==>
                  Keeping(ops, topic).Some? && KeepPath(topic) != [] && RetainHits(KeepPath(topic), Levels(filter)))
            && (topic in answers ==> Some(answers[topic]) == Keeping(ops, topic))
  {
    hide KeepPath, Levels, Step, Alone;
    RunOk(ops, ts);
    RetainedMeans(ops, ts, topic);
  }
}

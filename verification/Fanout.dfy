/** The fan-out of a publish: among the subscribers that an index finds, the first of each client id. */
module Fanout {
  import opened Topics
  import opened Table
  import opened Listing

  function Ids(cs: seq<Client>): set<string> {
    if cs == [] then {} else Ids(Parent(cs)) + {Last(cs).id}
  }

  lemma {:induction false} IdsOf(cs: seq<Client>)
    ensures forall c | c in cs :: c.id in Ids(cs)
    ensures forall id | id in Ids(cs) :: exists c :: c in cs && c.id == id
  {
    if cs != [] {
      IdsOf(Parent(cs));
      assert cs == Parent(cs) + [Last(cs)];
      forall id | id in Ids(cs) ensures exists c :: c in cs && c.id == id {
        if id in Ids(Parent(cs)) {
          var c :| c in Parent(cs) && c.id == id;
          assert c in cs;
        } else {
          assert Last(cs) in cs;
        }
      }
    }
  }

  /** The first client of each id, in order. */
  function Firsts(cs: seq<Client>): seq<Client> {
    if cs == [] then []
    else Firsts(Parent(cs)) + if Last(cs).id in Ids(Parent(cs)) then [] else [Last(cs)]
  }

  /** No id twice, no stranger, nobody forgotten. */
  ghost predicate OneEach(sent: seq<Client>, answers: map<Pair, Client>) {
    && NoIdTwice(sent)
    && (forall c | c in sent :: exists pr :: pr in answers && answers[pr] == c)
    && (forall pr | pr in answers :: answers[pr].id in Ids(sent))
  }

  ghost predicate NoIdTwice(cs: seq<Client>) {
    forall i, j | 0 <= i < j < |cs| :: cs[i].id != cs[j].id
  }

  lemma {:induction false} FirstsOnce(cs: seq<Client>)
    ensures NoIdTwice(Firsts(cs))
    ensures forall c | c in Firsts(cs) :: c in cs
    ensures Ids(Firsts(cs)) == Ids(cs) && |Firsts(cs)| == |Ids(cs)|
  {
    if cs != [] {
      hide NoIdTwice;
      var front, c := Parent(cs), Last(cs);
      FirstsOnce(front);
      assert cs == front + [c];
      if c.id in Ids(front) {
        assert Firsts(cs) == Firsts(front);
      } else {
        OneIdMore(Firsts(front), c);
        assert Parent(Firsts(cs)) == Firsts(front);
      }
    }
  }

  lemma OneIdMore(cs: seq<Client>, c: Client)
    requires NoIdTwice(cs) && c.id !in Ids(cs)
    ensures NoIdTwice(cs + [c])
  {
    IdsOf(cs);
    assert forall i | 0 <= i < |cs| :: cs[i] in cs;
  }

  lemma FirstsNext(cs: seq<Client>, i: nat)
    requires i < |cs|
    ensures Ids(cs[..i + 1]) == Ids(cs[..i]) + {cs[i].id}
    ensures Firsts(cs[..i + 1]) == Firsts(cs[..i]) + if cs[i].id in Ids(cs[..i]) then [] else [cs[i]]
  {
    assert Parent(cs[..i + 1]) == cs[..i] && Last(cs[..i + 1]) == cs[i];
  }

  lemma AnswerIds(subs: seq<Client>, pairs: seq<Pair>, answers: map<Pair, Client>)
    requires Lists(subs, pairs, answers)
    ensures forall c | c in subs :: exists pr :: pr in answers && answers[pr] == c
    ensures Ids(subs) == set pr | pr in answers :: answers[pr].id
  {
    hide Ids;
    IdsOf(subs);
    forall c | c in subs ensures exists pr :: pr in answers && answers[pr] == c {
      var i :| 0 <= i < |subs| && subs[i] == c;
      assert pairs[i] in answers;
    }
    forall pr | pr in answers ensures answers[pr].id in Ids(subs) {
      var i :| 0 <= i < |pairs| && pairs[i] == pr;
      assert subs[i] in subs;
    }
  }

  /** Exact fan-out: however often the overlapping filters return a client, it is among the firsts once. */
  lemma FirstsOneEach(subs: seq<Client>, answers: map<Pair, Client>)
    requires Enumerates(subs, answers)
    ensures OneEach(Firsts(subs), answers)
    ensures |Firsts(subs)| == |set pr | pr in answers :: answers[pr].id|
  {
    hide NoIdTwice, Firsts, Ids, Lists;
    FirstsOnce(subs);
    var pairs :| Lists(subs, pairs, answers);
    AnswerIds(subs, pairs, answers);
  }

  // ---------------------------------------------------------------- which connection is written to

  /** The connection is among the answers; and every answer of its id is this connection. */
  ghost predicate Answering(answers: map<Pair, Client>, h: Client) {
    exists pr :: pr in answers && answers[pr] == h
  }

  ghost predicate Undisputed(answers: map<Pair, Client>, h: Client) {
    forall pr | pr in answers && answers[pr].id == h.id :: answers[pr] == h
  }

  /** A finite map can be listed in some order. */
  lemma {:induction false} CanBeListed<K, V>(m: map<K, V>) returns (vals: seq<V>, keys: seq<K>)
    ensures Lists(vals, keys, m)
    decreases |m|
  {
    if m == map[] {
      vals, keys := [], [];
      ListsNothing<K, V>();
    } else {
      hide Lists;
      var k :| k in m;
      var rest := m - {k};
      assert rest.Keys == m.Keys - {k};
      assert |rest| == |rest.Keys| && |m| == |m.Keys|;
      vals, keys := CanBeListed(rest);
      ListsOneMore(vals, keys, rest, k, m[k]);
      vals, keys := vals + [m[k]], keys + [k];
      assert rest[k := m[k]] == m;
    }
  }

  lemma {:induction false} FirstIsFirst(cs: seq<Client>)
    requires cs != []
    ensures Firsts(cs) != [] && Firsts(cs)[0] == cs[0]
  {
    if |cs| == 1 {
      assert Parent(cs) == [] && Last(cs) == cs[0];
    } else {
      hide Ids;
      FirstIsFirst(Parent(cs));
    }
  }

  /** Whatever answers may come first, and is then written to. */
  lemma CanComeFirst(answers: map<Pair, Client>, pr: Pair) returns (cs: seq<Client>)
    requires pr in answers
    ensures OneEach(cs, answers) && answers[pr] in cs
  {
    hide Lists, OneEach, Firsts;
    var rest := answers - {pr};
    var vals, keys := CanBeListed(rest);
    var subs := [answers[pr]] + vals;
    FirstListed(vals, keys, rest, pr, answers[pr]);
    assert map[pr := answers[pr]] + rest == answers;
    FirstsOneEach(subs, answers);
    FirstIsFirst(subs);
    cs := Firsts(subs);
  }

  lemma FirstListed(vals: seq<Client>, keys: seq<Pair>, rest: map<Pair, Client>, pr: Pair, c: Client)
    requires Lists(vals, keys, rest) && pr !in rest
    ensures Enumerates([c] + vals, map[pr := c] + rest)
  {
    assert Lists([c], [pr], map[pr := c]) by {
      assert [pr][0] == pr;
    }
    ListsBoth([c], [pr], map[pr := c], vals, keys, rest);
  }

  lemma CanBeWritten(answers: map<Pair, Client>) returns (cs: seq<Client>)
    ensures OneEach(cs, answers)
  {
    if pr :| pr in answers {
      cs := CanComeFirst(answers, pr);
    } else {
      cs := [];
    }
  }

  lemma AnswerWritten(cs: seq<Client>, answers: map<Pair, Client>, h: Client)
    requires OneEach(cs, answers) && Answering(answers, h) && Undisputed(answers, h)
    ensures h in cs
  {
    hide NoIdTwice, Ids;
    IdsOf(cs);
    var c :| c in cs && c.id == h.id;
  }

  lemma OneOfTwo(cs: seq<Client>, h: Client, c: Client)
    requires NoIdTwice(cs) && h in cs && c in cs && h.id == c.id
    ensures h == c
  {
  }

  /** Exactly when a connection is written to whatever order the index answers in: it answers, and no answer
      of its id is another connection. */
  lemma AlwaysWritten(answers: map<Pair, Client>, h: Client)
    ensures (forall cs | OneEach(cs, answers) :: h in cs) <==> Answering(answers, h) && Undisputed(answers, h)
  {
    hide Ids;
    if Answering(answers, h) && Undisputed(answers, h) {
      forall cs | OneEach(cs, answers) ensures h in cs {
        AnswerWritten(cs, answers, h);
      }
    } else if !Answering(answers, h) {
      var cs := CanBeWritten(answers);
      assert h !in cs;
    } else {
      var cs := Skips(answers, h);
    }
  }

  /** Otherwise it may be skipped. */
  lemma Skips(answers: map<Pair, Client>, h: Client) returns (cs: seq<Client>)
    requires !Undisputed(answers, h)
    ensures OneEach(cs, answers) && h !in cs
  {
    hide NoIdTwice, Ids;
    var pr :| pr in answers && answers[pr].id == h.id && answers[pr] != h;
    cs := CanComeFirst(answers, pr);
    if h in cs {
      OneOfTwo(cs, h, answers[pr]);
    }
  }
}

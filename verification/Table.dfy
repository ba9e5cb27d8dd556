/** What the topic index must agree with: a flat table of (filter, client id) pairs, and the
    retained messages by topic. */
module Table {
  import opened Topics
  import opened Matching
  import Wire

  /** A connection as the index stores it; GetId() is `id`. */
  datatype Client = Client(id: string, conn: nat)

  datatype Message = Message(topic: string, payload: Wire.Bytes, qos: nat, retain: bool, messageId: nat)

  datatype Option<+T> = None | Some(value: T)

  type Pair = (string, string)

  /** A filter whose path ends in "#" is also filed on the branch above. */
  predicate CopiesUp(filter: string) {
    Wild(filter) && EndsInHash(SubPath(filter))
  }

  predicate LiveHit(filter: string, topic: string)
    requires !Blank(topic)
  {
    if Wild(filter) then SubPath(filter) != [] && SearchHits(SubPath(filter), Levels(topic)) else filter == topic
  }

  predicate CopyHit(filter: string, topic: string)
    requires !Blank(topic)
  {
    CopiesUp(filter) && |SubPath(filter)| > 1 && SearchHits(Parent(SubPath(filter)), Levels(topic))
  }

  /** The meaning of a subscription, in the terms of section 4.7 of MQTT 3.1.1. */
  predicate Matches(filter: string, topic: string) {
    if Wild(filter) then FilterMatches(SubPath(filter), Levels(topic)) else filter == topic
  }

  /** The search finds a filter that matches through its own leaf or its copy, and no other filter. */
  lemma HitsAreMatches(filter: string, topic: string)
    requires !Blank(topic)
    ensures Matches(filter, topic) <==> LiveHit(filter, topic) || CopyHit(filter, topic)
  {
    if Wild(filter) {
      WildPathShape(filter);
      SearchIsMatching(SubPath(filter), Levels(topic));
    }
  }

  lemma HitCopiesUp(f: string, topic: string)
    requires !Blank(topic)
    ensures CopyHit(f, topic) ==> CopiesUp(f)
  {
  }

  /** The topic lies on the parent level of the filter's first "#". */
  predicate OnHashParent(topic: string, filter: string) {
    var keys, names := Cut(Levels(filter)), KeepPath(topic);
    EndsInHash(keys) && |keys| > 1 && names != [] && RetainHits(names, Parent(keys))
  }

  /** `copies` holds what was filed on the branch above a "#" and is never taken back;
      `topics` is what RangeTopics enumerates. */
  datatype Table = Table(live: map<Pair, Client>, copies: map<Pair, Client>,
                         retained: map<string, Message>, topics: set<string>)
  {
    ghost predicate Ok() {
      && (forall pr | pr in live :: pr.0 in topics)
      && (forall pr | pr in live && CopiesUp(pr.0) :: pr in copies && copies[pr] == live[pr])
      && (forall pr | pr in copies :: CopiesUp(pr.0))
      && (forall t | t in retained :: !Blank(t))
    }

    function Subscribe(filter: string, id: string, client: Client): Table {
      this.(live := live[(filter, id) := client],
            copies := if CopiesUp(filter) then copies[(filter, id) := client] else copies,
            topics := topics + {filter})
    }

    /** Does the call take the pair away? */
    static predicate Removable(filter: string) {
      Wild(filter) ==> Scannable(filter)
    }

    ghost predicate Held(filter: string) {
      exists id :: (filter, id) in live
    }

    ghost function Unsubscribe(filter: string, id: string): Table {
      if !Removable(filter) then this
      else
        var t := this.(live := live - {(filter, id)});
        if !Wild(filter) && !t.Held(filter) then t.(topics := topics - {filter}) else t
    }

    function Retain(topic: string, message: Message): Table {
      this.(retained := retained[topic := message])
    }

    function DropRetained(topic: string): Table {
      this.(retained := retained - {topic})
    }

    /** The pairs that a publish to `topic` finds, each with the connection it is written to. */
    ghost function Answers(topic: string): map<Pair, Client>
      requires !Blank(topic)
    {
      if Wild(topic) then map[]
      else (map pr | pr in live && LiveHit(pr.0, topic) :: live[pr])
           + (map pr | pr in copies && CopyHit(pr.0, topic) :: copies[pr])
    }

    /** A copy that outlived its subscription and still answers. */
    ghost predicate StaleFor(topic: string)
      requires !Blank(topic)
    {
      exists pr :: pr in copies && pr !in live && CopyHit(pr.0, topic)
    }

    /** The retained messages that a subscription to `filter` is sent. */
    ghost function RetainAnswers(filter: string): map<string, Message>
      requires !Blank(filter)
    {
      map t | t in retained && KeepPath(t) != [] && RetainHits(KeepPath(t), Levels(filter)) :: retained[t]
    }

    /** The retained messages that section 4.7 gives a filter. */
    ghost function RetainMatches(filter: string): map<string, Message> {
      map t | t in retained && FilterMatches(Levels(filter), KeepPath(t)) :: retained[t]
    }

    /** Exactly when a filter is sent the retained messages of section 4.7: none is retained on the
        parent level of a "#" in it. */
    lemma RetainAnswersExact(filter: string)
      requires Ok() && !Blank(filter)
      ensures RetainAnswers(filter) == RetainMatches(filter) <==>
              !exists t :: t in retained && OnHashParent(t, filter)
    {
      hide Levels, KeepPath, FilterMatches, RetainHits;
      forall t | t in retained
        ensures KeepPath(t) != []
        ensures (RetainHits(KeepPath(t), Levels(filter)) <==> FilterMatches(Levels(filter), KeepPath(t)))
                <==> !OnHashParent(t, filter)
      {
        KeepPathNonempty(t);
        RetainedSearchExact(Levels(filter), KeepPath(t));
      }
      var a, b := RetainAnswers(filter), RetainMatches(filter);
      if t :| t in retained && OnHashParent(t, filter) {
        assert t in a <==> t !in b;
      } else {
        assert a.Keys == b.Keys;
      }
    }

    lemma SubscribeOk(filter: string, id: string, client: Client)
      requires Ok()
      ensures Subscribe(filter, id, client).Ok()
    {
      hide Blank, CopiesUp;
    }

    lemma UnsubscribeOk(filter: string, id: string)
      requires Ok()
      ensures Unsubscribe(filter, id).Ok()
    {
      hide Blank, CopiesUp, Removable;
      var t := this.(live := live - {(filter, id)});
      forall pr | pr in t.live && pr.0 == filter ensures t.Held(filter) {
        assert (filter, pr.1) in t.live;
      }
    }

    /** What RangeTopics enumerates: every wildcard filter that was ever subscribed, and every other
        filter that a client holds now. */
    ghost predicate TopicsAre(filter: string, ever: bool) {
      filter in topics <==> if Wild(filter) then ever else Held(filter)
    }

    lemma SubscribeTopics(g: string, id: string, client: Client, filter: string, ever: bool)
      requires TopicsAre(filter, ever)
      ensures Subscribe(g, id, client).TopicsAre(filter, ever || filter == g)
    {
      hide Wild, CopiesUp;
      var t := Subscribe(g, id, client);
      assert (g, id) in t.live;
      if i :| (filter, i) in live {
        assert (filter, i) in t.live;
      }
      if i :| (filter, i) in t.live && filter != g {
        assert (filter, i) in live;
      }
    }

    lemma UnsubscribeTopics(g: string, id: string, filter: string, ever: bool)
      requires TopicsAre(filter, ever)
      ensures Unsubscribe(g, id).TopicsAre(filter, ever)
    {
      hide Wild, Removable;
      var t := Unsubscribe(g, id);
      if i :| (filter, i) in live && (filter, i) != (g, id) {
        assert (filter, i) in t.live;
      }
      if i :| (filter, i) in t.live {
        assert (filter, i) in live;
      }
      assert !Wild(g) ==> Removable(g) by {
        PlainRemovable(g);
      }
    }

    lemma PlainRemovable(g: string)
      ensures !Wild(g) ==> Removable(g)
    {
    }

    /** Exactness against section 4.7: a topic finds the live pairs whose filter matches it,
        with "p/#" matching p itself, if and only if no outlived copy answers it. */
    lemma AnswersAreMatches(topic: string)
      requires Ok() && !Blank(topic) && !Wild(topic)
      ensures Answers(topic) == (map pr | pr in live && Matches(pr.0, topic) :: live[pr]) <==> !StaleFor(topic)
    {
      var want := map pr | pr in live && Matches(pr.0, topic) :: live[pr];
      forall pr: Pair ensures Matches(pr.0, topic) <==> LiveHit(pr.0, topic) || CopyHit(pr.0, topic) {
        HitsAreMatches(pr.0, topic);
      }
      if StaleFor(topic) {
        var pr :| pr in copies && pr !in live && CopyHit(pr.0, topic);
        assert pr in Answers(topic) && pr !in want;
      } else {
        assert Answers(topic).Keys == want.Keys;
        forall pr | pr in want ensures Answers(topic)[pr] == want[pr] {
        }
      }
    }

    /** A removable unsubscribe takes the pair's own leaf away and nothing else: every other pair and
        every retained message answers as before, and the pair itself only through a copy, on topics one
        level short of its filter and so never below its prefix. */
    lemma UnsubscribeExact(filter: string, id: string, topic: string)
      requires Removable(filter) && !Blank(topic) && !Wild(topic)
      ensures var t := Unsubscribe(filter, id);
              && (forall pr | pr != (filter, id) ::
                    (pr in t.Answers(topic) <==> pr in Answers(topic))
                    && (pr in t.Answers(topic) ==> t.Answers(topic)[pr] == Answers(topic)[pr]))
              && ((filter, id) in t.Answers(topic) <==> (filter, id) in copies && CopyHit(filter, topic))
              && t.retained == retained
      ensures CopyHit(filter, topic) ==> |Levels(topic)| + 1 == |SubPath(filter)|
    {
      hide LiveHit, Blank, Wild, Levels, SubPath, Removable;
      if CopyHit(filter, topic) {
        CopyLength(filter, topic);
      }
      hide CopyHit;
    }

    lemma CopyLength(filter: string, topic: string)
      requires !Blank(topic) && CopyHit(filter, topic)
      ensures |Levels(topic)| + 1 == |SubPath(filter)|
    {
      WildPathShape(filter);
      var p := SubPath(filter);
      SearchStops(Parent(p), Levels(topic));
      assert Last(Parent(p)) == p[|p| - 2];
    }

    /** A pair is found through its own leaf or through its copy, never through both. */
    lemma AnsweredOnce(pr: Pair, topic: string)
      requires !Blank(topic)
      ensures !(LiveHit(pr.0, topic) && CopyHit(pr.0, topic))
    {
      if CopyHit(pr.0, topic) {
        WildPathShape(pr.0);
        SearchIsMatching(SubPath(pr.0), Levels(topic));
      }
    }
  }

  const EMPTY := Table(map[], map[], map[], {})

  /** Subscribing and unsubscribing a filter that ends in "#" leaves nothing but the copy one
      branch up, and that copy still answers every topic on the parent level. */
  lemma OutlivedCopy(t: Table, filter: string, id: string, client: Client, topic: string)
    requires CopiesUp(filter) && Scannable(filter)
    requires !Blank(topic) && !Wild(topic) && CopyHit(filter, topic)
    ensures var left := t.Subscribe(filter, id, client).Unsubscribe(filter, id);
            && (filter, id) !in left.live
            && left.StaleFor(topic)
            && (filter, id) in left.Answers(topic) && left.Answers(topic)[(filter, id)] == client
  {
    var left := t.Subscribe(filter, id, client).Unsubscribe(filter, id);
    assert (filter, id) in left.copies && (filter, id) !in left.live;
  }

  /** Such filters and topics exist: "a/#" and "a". */
  lemma OutlivedCopyExists()
    ensures CopiesUp("a/#") && Scannable("a/#")
    ensures !Blank("a") && !Wild("a") && CopyHit("a/#", "a")
  {
    hide Split, TrimSpace;
    SplitNoSlash("#");
    SplitNoSlash("a");
    SplitAtSlash("a", "#");
    assert "a" + "/" + "#" == "a/#";
    TrimNothing("a");
    TrimNothing("#");
    var p := ["a", "#"];
    assert Levels("a/#") == p && Levels("a") == ["a"];
    assert p[1..] == ["#"];
    assert FilterPath(p) == p;
    assert Parent(p) == ["a"];
    assert "a/#"[2] == '#';
  }

  /** A retained topic that RemoveRetain(topic) may clear: one filed where the topic's levels lead. */
  predicate Cleared(t: Table, topic: string, k: string) {
    k in t.retained && KeepPath(k) == Levels(topic)
  }

  ghost predicate DropStep(t: Table, topic: string, t': Table) {
    if exists k :: Cleared(t, topic, k) then exists k :: Cleared(t, topic, k) && t' == t.DropRetained(k) else t' == t
  }

  /** Exactly when clearing a topic clears its own message whatever leaf the code picks: no other topic
      is filed where its levels lead, and the topic itself is, if it is retained at all. */
  lemma DropsOwnExactly(t: Table, topic: string)
    ensures (forall t' | DropStep(t, topic, t') :: t' == t.DropRetained(topic)) <==>
            (forall k | Cleared(t, topic, k) :: k == topic) && (topic in t.retained ==> Cleared(t, topic, topic))
  {
    hide KeepPath, Levels;
    if k :| Cleared(t, topic, k) && k != topic {
      assert DropStep(t, topic, t.DropRetained(k));
      assert k in t.retained && k !in t.DropRetained(k).retained;
    }
    if !exists k :: Cleared(t, topic, k) {
      assert DropStep(t, topic, t);
      assert t.DropRetained(topic) == t <==> topic !in t.retained;
    }
  }

  /** The topic is filed under its own levels, and nothing else retained has the same. */
  ghost predicate OwnLeaf(t: Table, topic: string) {
    KeepPath(topic) == Levels(topic) && forall k | k in t.retained && KeepPath(k) == KeepPath(topic) :: k == topic
  }

  /** The same in terms of the levels alone: a retained topic is sure to be cleared by its own name if
      and only if no level of it carries white space and no other retained topic has its levels. */
  lemma DropsOwnByLevels(t: Table, topic: string)
    requires topic in t.retained
    ensures (forall t' | DropStep(t, topic, t') :: t' == t.DropRetained(topic)) <==>
            OwnLeaf(t, topic)
  {
    hide KeepPath, Levels;
    DropsOwnExactly(t, topic);
    assert Cleared(t, topic, topic) <==> KeepPath(topic) == Levels(topic);
    if Cleared(t, topic, topic) {
      forall k | k in t.retained ensures Cleared(t, topic, k) <==> KeepPath(k) == KeepPath(topic) {
      }
    }
  }

  /** Retained search misses something: "a" lies on the parent level of "a/#". */
  lemma HashParentExists()
    ensures OnHashParent("a", "a/#")
    ensures FilterMatches(Levels("a/#"), KeepPath("a")) && !RetainHits(KeepPath("a"), Levels("a/#"))
  {
    hide Split, TrimSpace;
    SplitNoSlash("#");
    SplitNoSlash("a");
    SplitAtSlash("a", "#");
    assert "a" + "/" + "#" == "a/#";
    TrimNothing("a");
    TrimNothing("#");
    var p := ["a", "#"];
    assert Levels("a/#") == p && KeepPath("a") == ["a"];
    assert p[1..] == ["#"] && Parent(p) == ["a"];
    assert Cut(["#"]) == ["#"] && Cut(p) == p;
  }

  lemma AliasLevels()
    ensures KeepPath("/a") == ["a"] && Levels("a") == ["a"]
  {
    hide Split, TrimSpace;
    SplitNoSlash("a");
    SplitAtSlash("", "a");
    TrimNothing("a");
    TrimNothing("");
    assert "" + "/" + "a" == "/a";
    assert ["", "a"][1..] == ["a"];
  }

  /** "/a" and "a" are filed on the same branch: clearing one may clear the message of the other. */
  lemma AliasClears(t: Table)
    requires "/a" in t.retained
    ensures DropStep(t, "a", t.DropRetained("/a"))
  {
    hide KeepPath, Levels;
    AliasLevels();
    assert Cleared(t, "a", "/a");
  }
}

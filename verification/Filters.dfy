/** What filters and topics mean, read off the strings themselves: their levels are what the slashes
    separate, and matching is section 4.7.1 of MQTT 3.1.1 on those. */
module Filters {
  import opened Topics
  import opened Matching
  import opened Table

  /** No level has white space around it. */
  predicate Trimmed(s: string) {
    forall l | l in Split(s) :: TrimSpace(l) == l
  }

  /** `names` are the levels without the white space around them. */
  predicate Trims(names: seq<string>, keys: seq<string>) {
    |names| == |keys| && forall i | 0 <= i < |keys| :: names[i] == TrimSpace(keys[i])
  }

  lemma TrimmedTrims(s: string)
    requires Trimmed(s)
    ensures Trims(Split(s), Split(s)) && Trims(Split(s)[1..], Split(s)[1..])
  {
    hide TrimSpace, Split;
  }

  // ---------------------------------------------------------------- where a filter is filed

  lemma {:induction false} PathIsCut(names: seq<string>, keys: seq<string>)
    requires Trims(names, keys)
    ensures FilterPath(keys) == Cut(names)
  {
    hide TrimSpace;
    if keys != [] {
      PathIsCut(names[1..], keys[1..]);
    }
  }

  lemma {:induction false} SplitJoined(a: string, b: string)
    requires Split(a) == Split(b)
    ensures a == b
  {
    SplitThenJoin(a);
    SplitThenJoin(b);
  }

  /** Without wildcard characters, matching is equality. */
  lemma PlainMatches(filter: string, topic: string)
    requires '#' !in filter && '+' !in filter
    ensures FilterMatches(Split(filter), Split(topic)) <==> filter == topic
  {
    hide Split;
    NoWildLevels(filter);
    MatchesByLevel(Split(filter), Split(topic));
    if FilterMatches(Split(filter), Split(topic)) {
      assert Split(filter) == Split(topic);
      SplitJoined(filter, topic);
    }
  }

  lemma {:induction false} NoWildLevels(s: string)
    requires '#' !in s && '+' !in s
    ensures "#" !in Split(s) && "+" !in Split(s)
  {
    if s != "" {
      NoWildLevels(s[1..]);
      var rest := Split(s[1..]);
      assert s[0] != '#' && s[0] != '+' && ([s[0]] + rest[0])[0] == s[0];
    }
  }

  // ---------------------------------------------------------------- matching

  lemma MatchesLevels(filter: string, names: seq<string>, topic: string)
    requires Trims(names, Levels(filter)) && ('#' in filter || '+' in filter)
    ensures Matches(filter, topic) <==> FilterMatches(names, Levels(topic))
  {
    hide FilterMatches, Levels, Trims;
    PathIsCut(names, Levels(filter));
    WildHasLevels(filter);
    SomeNames(names, Levels(filter));
    CutSame(names, Levels(topic));
  }

  lemma SomeNames(names: seq<string>, keys: seq<string>)
    requires Trims(names, keys) && keys != []
    ensures names != []
  {
  }

  /** The levels of a wildcard filter are compared without the white space around them, those of the topic as
      they are. */
  lemma WildMatchesTrimmed(filter: string, names: seq<string>, topic: string)
    requires ('#' in filter || '+' in filter) && Trims(names, Split(filter))
    requires TrimSpace(Split(filter)[0]) != "" && TrimSpace(Split(topic)[0]) != ""
    ensures Matches(filter, topic) <==> FilterMatches(names, Split(topic))
  {
    hide Split, TrimSpace, FilterMatches, Levels, Trims;
    LevelsOf(filter);
    LevelsOf(topic);
    MatchesLevels(filter, names, topic);
  }

  /** A filter matches a topic exactly by section 4.7.1 on what the slashes separate, if neither starts
      with a blank level; */
  lemma MatchesAsSpelled(filter: string, topic: string)
    requires Trimmed(filter) && TrimSpace(Split(filter)[0]) != "" && TrimSpace(Split(topic)[0]) != ""
    ensures Matches(filter, topic) <==> FilterMatches(Split(filter), Split(topic))
  {
    hide Split, TrimSpace, Trimmed, FilterMatches, Levels, Trims;
    TrimmedTrims(filter);
    if '#' in filter || '+' in filter {
      WildMatchesTrimmed(filter, Split(filter), topic);
    } else {
      PlainMatches(filter, topic);
    }
  }

  /** and also if both start with an empty one, which is skipped in both. */
  lemma MatchesAfterSlash(filter: string, topic: string)
    requires Trimmed(filter) && Split(filter)[0] == "" == Split(topic)[0]
    ensures Matches(filter, topic) <==> FilterMatches(Split(filter)[1..], Split(topic)[1..])
    ensures Matches(filter, topic) <==> FilterMatches(Split(filter), Split(topic))
  {
    hide Split, Trimmed, Levels, Trims;
    TrimmedTrims(filter);
    LevelsOf(filter);
    LevelsOf(topic);
    if '#' in filter || '+' in filter {
      MatchesLevels(filter, Split(filter)[1..], topic);
    } else {
      PlainMatches(filter, topic);
    }
  }

  /** If only one of them does, a filter with a wildcard is compared as if it did not: the code and section
      4.7.1, which counts the empty level, part exactly where this comparison says something else. */
  lemma MatchesAcrossSlash(filter: string, topic: string)
    requires Trimmed(filter)
    ensures Split(filter)[0] == "" && TrimSpace(Split(topic)[0]) != "" ==>
              !FilterMatches(Split(filter), Split(topic))
              && (Matches(filter, topic) <==>
                  ('#' in filter || '+' in filter) && FilterMatches(Split(filter)[1..], Split(topic)))
    ensures Split(filter)[0] != "" && Split(topic)[0] == "" ==>
              (Matches(filter, topic) <==>
               ('#' in filter || '+' in filter) && FilterMatches(Split(filter), Split(topic)[1..]))
  {
    hide Split, Levels, Trims;
    TrimmedTrims(filter);
    LevelsOf(filter);
    LevelsOf(topic);
    assert Split(filter)[0] in Split(filter);
    assert TrimSpace("") == "";
    hide Trimmed, TrimSpace;
    if '#' in filter || '+' in filter {
      MatchesLevels(filter, if Split(filter)[0] == "" then Split(filter)[1..] else Split(filter), topic);
    }
  }

  /** So "/+" finds the topic "a", which section 4.7.1 rules out, and "+/a" does not find "/a", which it asks for. */
  lemma SlashGap()
    ensures Matches("/+", "a") && !FilterMatches(Split("/+"), Split("a"))
    ensures !Matches("+/a", "/a") && FilterMatches(Split("+/a"), Split("/a"))
  {
    hide Split, TrimSpace;
    SplitNoSlash("+");
    SplitNoSlash("a");
    SplitAtSlash("", "+");
    SplitAtSlash("", "a");
    SplitAtSlash("+", "a");
    assert "" + "/" + "+" == "/+" && "" + "/" + "a" == "/a" && "+" + "/" + "a" == "+/a";
    TrimNothing("+");
    TrimNothing("a");
    TrimNothing("");
    assert "/+"[1] == '+' && "+/a"[0] == '+';
    MatchesAcrossSlash("/+", "a");
    MatchesAcrossSlash("+/a", "/a");
    assert ["", "+"][1..] == ["+"] && ["", "a"][1..] == ["a"] && ["+", "a"][1..] == ["a"] && ["a"][1..] == [];
  }

  // ---------------------------------------------------------------- answers

  /** A publish to a topic with a wildcard character finds nobody. */
  lemma WildTopicFindsNobody(t: Table, topic: string)
    requires '#' in topic || '+' in topic
    ensures !Blank(topic) && t.Answers(topic) == map[]
  {
    WildHasLevels(topic);
  }

  lemma LiveAnswers(t: Table, filter: string, id: string, topic: string)
    requires t.Ok() && (filter, id) in t.live && !Blank(topic) && '#' !in topic && '+' !in topic
    ensures (filter, id) in t.Answers(topic) <==> Matches(filter, topic)
    ensures (filter, id) in t.Answers(topic) ==> t.Answers(topic)[(filter, id)] == t.live[(filter, id)]
  {
    hide Blank, Matches, LiveHit, CopyHit, CopiesUp;
    HitsAreMatches(filter, topic);
    HitCopiesUp(filter, topic);
  }

  /** Whoever holds a filter is found by exactly the topics that match it by section 4.7.1, with the connection
      that it was subscribed on; and with a leading slash on both sides as well. */
  lemma AnswersAsSpelled(t: Table, filter: string, id: string, topic: string)
    requires t.Ok() && (filter, id) in t.live && Trimmed(filter) && '#' !in topic && '+' !in topic && topic != ""
    requires || (TrimSpace(Split(filter)[0]) != "" && TrimSpace(Split(topic)[0]) != "")
             || Split(filter)[0] == "" == Split(topic)[0]
    ensures !Blank(topic)
    ensures (filter, id) in t.Answers(topic) <==> FilterMatches(Split(filter), Split(topic))
    ensures (filter, id) in t.Answers(topic) ==> t.Answers(topic)[(filter, id)] == t.live[(filter, id)]
  {
    hide Split, TrimSpace, Trimmed, Table.Answers, Table.Ok, Matches, Levels, FilterMatches;
    NotBlank(topic);
    LiveAnswers(t, filter, id, topic);
    if TrimSpace(Split(filter)[0]) != "" && TrimSpace(Split(topic)[0]) != "" {
      MatchesAsSpelled(filter, topic);
    } else {
      MatchesAfterSlash(filter, topic);
    }
  }

  lemma NotBlank(topic: string)
    requires TrimSpace(Split(topic)[0]) != "" || (Split(topic)[0] == "" && topic != "")
    ensures !Blank(topic)
  {
    hide TrimSpace;
    LevelsOf(topic);
  }

  // ---------------------------------------------------------------- unsubscribing

  /** No level in front of the first "#" has white space around it. */
  predicate FrontTrimmed(keys: seq<string>) {
    keys == [] || TrimSpace(keys[0]) == "#" || (TrimSpace(keys[0]) == keys[0] && FrontTrimmed(keys[1..]))
  }

  lemma {:induction false} ScansFront(keys: seq<string>)
    ensures var p := FilterPath(keys);
            (forall i | 0 <= i < |p| :: p[i] == "#" || p[i] == keys[i]) <==> FrontTrimmed(keys)
  {
    hide TrimSpace;
    var p := FilterPath(keys);
    if keys != [] && TrimSpace(keys[0]) != "#" {
      ScansFront(keys[1..]);
      assert p[1..] == FilterPath(keys[1..]);
      assert forall i | 0 < i < |p| :: p[i] == p[1..][i - 1] && keys[i] == keys[1..][i - 1];
      if FrontTrimmed(keys) {
        forall i | 0 <= i < |p| ensures p[i] == "#" || p[i] == keys[i] {
        }
      } else if TrimSpace(keys[0]) == keys[0] {
        var i :| 0 <= i < |p[1..]| && !(p[1..][i] == "#" || p[1..][i] == keys[1..][i]);
        assert !(p[i + 1] == "#" || p[i + 1] == keys[i + 1]);
      }
    }
  }

  /** A filter can be taken back exactly if it has no wildcard character, or no white space in front of its
      first "#"; a blank first level is not looked at. */
  lemma RemovableAsSpelled(filter: string)
    ensures '#' !in filter && '+' !in filter ==> Table.Removable(filter)
    ensures ('#' in filter || '+' in filter) && TrimSpace(Split(filter)[0]) != "" ==>
              (Table.Removable(filter) <==> FrontTrimmed(Split(filter)))
    ensures ('#' in filter || '+' in filter) && TrimSpace(Split(filter)[0]) == "" ==>
              (Table.Removable(filter) <==> FrontTrimmed(Split(filter)[1..]))
  {
    hide Split, TrimSpace, Levels, FilterPath, FrontTrimmed;
    LevelsOf(filter);
    ScansFront(Levels(filter));
  }

  /** Whoever unsubscribes such a filter is not found through it any more, but through the copy that a "#"
      leaves behind, by exactly the topics that match what stands in front of the "#", if something does. */
  lemma LeftAsSpelled(t: Table, filter: string, id: string, topic: string)
    requires t.Ok() && Trimmed(filter) && '#' !in topic && '+' !in topic
    requires TrimSpace(Split(filter)[0]) != "" && TrimSpace(Split(topic)[0]) != ""
    ensures !Blank(topic)
    ensures (filter, id) !in t.Unsubscribe(filter, id).live
    ensures (filter, id) in t.Unsubscribe(filter, id).Answers(topic) <==>
            (filter, id) in t.copies && exists front :: HashBehind(filter, front) && FilterMatches(front, Split(topic))
  {
    hide Split, TrimSpace, Levels, Blank, LiveHit, CopyHit, FilterMatches, Table.Removable, Trimmed;
    NotBlank(topic);
    TrimmedRemovable(filter);
    t.UnsubscribeExact(filter, id, topic);
    CopyAsSpelled(filter, topic);
  }

  lemma TrimmedRemovable(filter: string)
    requires Trimmed(filter)
    ensures Table.Removable(filter)
  {
    hide Split, TrimSpace, Levels, Table.Removable;
    RemovableAsSpelled(filter);
    AllTrimmed(Split(filter));
    AllTrimmed(Split(filter)[1..]);
  }

  lemma {:induction false} AllTrimmed(keys: seq<string>)
    requires forall l | l in keys :: TrimSpace(l) == l
    ensures FrontTrimmed(keys)
  {
    hide TrimSpace;
    if keys != [] {
      AllTrimmed(keys[1..]);
    }
  }

  /** The levels in front of the filter's first "#". */
  ghost predicate HashBehind(filter: string, front: seq<string>) {
    front != [] && "#" !in front && front + ["#"] <= Split(filter)
  }

  lemma CopyAsSpelled(filter: string, topic: string)
    requires Trimmed(filter) && !Blank(topic)
    requires TrimSpace(Split(filter)[0]) != "" && TrimSpace(Split(topic)[0]) != ""
    ensures CopyHit(filter, topic) <==> exists front :: HashBehind(filter, front) && FilterMatches(front, Split(topic))
  {
    hide Split, TrimSpace, Levels, Trimmed, SearchHits, FilterMatches, Trims;
    LevelsOf(filter);
    LevelsOf(topic);
    TrimmedTrims(filter);
    PathIsCut(Split(filter), Split(filter));
    var keys := Split(filter);
    CutParts(keys);
    if front :| HashBehind(filter, front) && FilterMatches(front, Split(topic)) {
      CutBefore(keys, front);
      HashMakesWild(filter);
      SearchIsMatching(front, Split(topic));
      assert Parent(Cut(keys)) == front;
    }
    if CopyHit(filter, topic) {
      var front := Parent(Cut(keys));
      SearchIsMatching(front, Split(topic));
      assert HashBehind(filter, front);
    }
  }

  lemma HashMakesWild(filter: string)
    requires "#" in Split(filter)
    ensures '#' in filter || '+' in filter
  {
    hide Split;
    if '#' !in filter && '+' !in filter {
      NoWildLevels(filter);
    }
  }

  lemma {:induction false} CutParts(keys: seq<string>)
    ensures Cut(keys) <= keys && (keys != [] ==> "#" !in Parent(Cut(keys)))
  {
    if keys != [] && keys[0] != "#" {
      var c := Cut(keys[1..]);
      CutParts(keys[1..]);
      assert keys == [keys[0]] + keys[1..];
      if c == [] {
        assert Parent(Cut(keys)) == [];
      } else {
        assert Parent([keys[0]] + c) == [keys[0]] + Parent(c);
      }
    }
  }

  lemma {:induction false} CutBefore(keys: seq<string>, front: seq<string>)
    requires "#" !in front && front + ["#"] <= keys
    ensures Cut(keys) == front + ["#"]
  {
    if front != [] {
      assert (front + ["#"])[1..] == front[1..] + ["#"];
      CutBefore(keys[1..], front[1..]);
      assert keys[0] == front[0];
    } else {
      assert keys[0] == "#";
    }
  }

  // ---------------------------------------------------------------- retained messages

  lemma KeptAsSpelled(topic: string, names: seq<string>)
    requires Trims(names, Split(topic))
    ensures TrimSpace(Split(topic)[0]) != "" ==> KeepPath(topic) == names
    ensures TrimSpace(Split(topic)[0]) == "" ==> KeepPath(topic) == names[1..]
  {
    hide TrimSpace, Split;
    LevelsOf(topic);
    if TrimSpace(Split(topic)[0]) != "" {
      assert KeepPath(topic) == names;
    } else {
      assert KeepPath(topic) == names[1..];
    }
  }

  /** A retained message is filed under its topic's levels without the white space around them; a filter is sent
      it exactly if retained search matches those with the filter's own levels; */
  lemma RetainedAsSpelled(t: Table, filter: string, topic: string, names: seq<string>)
    requires Trims(names, Split(topic))
    requires TrimSpace(Split(filter)[0]) != "" && TrimSpace(Split(topic)[0]) != ""
    ensures !Blank(filter) && !Blank(topic)
    ensures topic in t.RetainAnswers(filter) <==> topic in t.retained && RetainHits(names, Split(filter))
    ensures topic in t.RetainAnswers(filter) ==> t.RetainAnswers(filter)[topic] == t.retained[topic]
  {
    hide Split, TrimSpace, Levels, RetainHits, KeepPath;
    LevelsOf(filter);
    NotBlank(topic);
    NotBlank(filter);
    KeptAsSpelled(topic, names);
  }

  /** with a leading slash in both, exactly if it matches what follows. */
  lemma RetainedAfterSlash(t: Table, filter: string, topic: string, names: seq<string>)
    requires Trims(names, Split(topic)) && Split(filter)[0] == "" == Split(topic)[0] && filter != "" && topic != ""
    ensures !Blank(filter) && !Blank(topic) && |names| > 1 && |Split(filter)| > 1
    ensures topic in t.RetainAnswers(filter) <==> topic in t.retained && RetainHits(names[1..], Split(filter)[1..])
  {
    hide TrimSpace, Levels, RetainHits, KeepPath;
    BlankTrims();
    LevelsOf(filter);
    NotBlank(topic);
    NotBlank(filter);
    hide Split;
    KeptAsSpelled(topic, names);
  }

  lemma BlankTrims()
    ensures TrimSpace("") == ""
  {
  }

  /** Clearing a topic reaches a retained message exactly if its levels without the white space are the topic's
      own levels; a blank first level counts on neither side. */
  lemma ClearedAsSpelled(t: Table, topic: string, k: string, names: seq<string>)
    requires Trims(names, Split(k))
    ensures var levels := if TrimSpace(Split(topic)[0]) == "" then Split(topic)[1..] else Split(topic);
            Cleared(t, topic, k) <==>
            k in t.retained && levels == if TrimSpace(Split(k)[0]) == "" then names[1..] else names
  {
    hide Split, TrimSpace, Levels, KeepPath;
    LevelsOf(topic);
    KeptAsSpelled(k, names);
  }
}

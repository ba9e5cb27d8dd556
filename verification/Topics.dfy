/** Topic strings as the broker reads them: trimming, splitting on '/', and the path of branch
    names that a filter or a retained topic is filed under. */
module Topics {

  type Path = seq<string>

  /** The white space that Go's strings.TrimSpace removes (unicode.IsSpace). */
  predicate IsSpace(c: char) {
    || c == ' ' || '\t' <= c <= '\r' || c == '\U{85}' || c == '\U{A0}' || c == '\U{1680}'
    || '\U{2000}' <= c <= '\U{200A}' || c == '\U{2028}' || c == '\U{2029}' || c == '\U{202F}'
    || c == '\U{205F}' || c == '\U{3000}'
  }

  /** The code points that Unicode gives the property White_Space. */
  lemma SpacesAre(c: char)
    ensures IsSpace(c) <==>
            c as int in {9, 10, 11, 12, 13, 0x20, 0x85, 0xA0, 0x1680, 0x2000, 0x2001, 0x2002, 0x2003, 0x2004, 0x2005,
                         0x2006, 0x2007, 0x2008, 0x2009, 0x200A, 0x2028, 0x2029, 0x202F, 0x205F, 0x3000}
  {
  }

  function TrimLeft(s: string): string {
    if s != "" && IsSpace(s[0]) then TrimLeft(s[1..]) else s
  }

  function TrimRight(s: string): string {
    if s != "" && IsSpace(s[|s| - 1]) then TrimRight(s[..|s| - 1]) else s
  }

  function TrimSpace(s: string): string {
    TrimRight(TrimLeft(s))
  }

  /** strings.Split(s, "/"). */
  function Split(s: string): (keys: seq<string>)
    ensures |keys| >= 1
  {
    if s == "" then [""]
    else
      var rest := Split(s[1..]);
      if s[0] == '/' then [""] + rest else [[s[0]] + rest[0]] + rest[1..]
  }

  function Join(keys: seq<string>): string
    requires |keys| >= 1
  {
    if |keys| == 1 then keys[0] else keys[0] + "/" + Join(keys[1..])
  }

  lemma {:induction false} SplitThenJoin(s: string)
    ensures Join(Split(s)) == s
    ensures forall i | 0 <= i < |Split(s)| :: '/' !in Split(s)[i]
  {
    if s != "" {
      var rest := Split(s[1..]);
      SplitThenJoin(s[1..]);
      assert s == [s[0]] + s[1..];
      if s[0] == '/' {
        assert Split(s)[1..] == rest;
      } else {
        var keys := Split(s);
        assert keys[1..] == rest[1..];
        if |rest| > 1 {
          assert [s[0]] + rest[0] + "/" + Join(rest[1..]) == [s[0]] + Join(rest);
        }
      }
    }
  }

  lemma {:induction false} SplitNoSlash(s: string)
    requires '/' !in s
    ensures Split(s) == [s]
  {
    if s != "" {
      SplitNoSlash(s[1..]);
      assert [s[0]] + s[1..] == s;
    }
  }

  lemma {:induction false} SplitAtSlash(level: string, rest: string)
    requires '/' !in level
    ensures Split(level + "/" + rest) == [level] + Split(rest)
  {
    var s := level + "/" + rest;
    if level == "" {
      assert s[1..] == rest;
    } else {
      SplitAtSlash(level[1..], rest);
      assert s[1..] == level[1..] + "/" + rest;
      assert [level[0]] + level[1..] == level;
    }
  }

  lemma TrimNothing(s: string)
    requires forall c | c in s :: !IsSpace(c)
    ensures TrimSpace(s) == s
  {
    if s != "" {
      assert s[0] in s && s[|s| - 1] in s;
    }
  }

  /** Only white space goes, all of it, and only at the two ends. */
  lemma {:induction false} TrimSpaceExact(s: string) returns (from: nat, to: nat)
    ensures from <= to <= |s| && TrimSpace(s) == s[from..to]
    ensures forall i | 0 <= i < |s| && !(from <= i < to) :: IsSpace(s[i])
    ensures TrimSpace(s) != "" ==> !IsSpace(s[from]) && !IsSpace(s[to - 1])
  {
    from := TrimLeftExact(s);
    var t := s[from..];
    var n := TrimRightExact(t);
    to := from + n;
    assert forall i | from + n <= i < |s| :: s[i] == t[i - from];
  }

  lemma {:induction false} TrimLeftExact(s: string) returns (from: nat)
    ensures from <= |s| && TrimLeft(s) == s[from..] && (from < |s| ==> !IsSpace(s[from]))
    ensures forall i | 0 <= i < from :: IsSpace(s[i])
  {
    from := 0;
    if s != "" && IsSpace(s[0]) {
      var n := TrimLeftExact(s[1..]);
      assert forall i | 1 <= i < n + 1 :: s[i] == s[1..][i - 1];
      from := n + 1;
    }
  }

  lemma {:induction false} TrimRightExact(s: string) returns (to: nat)
    ensures to <= |s| && TrimRight(s) == s[..to] && (to > 0 ==> !IsSpace(s[to - 1]))
    ensures forall i | to <= i < |s| :: IsSpace(s[i])
  {
    to := |s|;
    if s != "" && IsSpace(s[|s| - 1]) {
      to := TrimRightExact(s[..|s| - 1]);
    }
  }

  /** A topic that holds '#' or '+' anywhere lives in the tree, every other one in the foliage. */
  predicate Wild(topic: string) {
    '#' in topic || '+' in topic
  }

  /** The index at which every tree operation starts: a blank first level is skipped. */
  function Start(keys: seq<string>): (index: nat)
    requires |keys| >= 1
    ensures index <= 1
  {
    if TrimSpace(keys[0]) == "" then 1 else 0
  }

  function Levels(topic: string): seq<string> {
    var keys := Split(topic);
    keys[Start(keys)..]
  }

  /** Exactly one level is ever skipped, the first one, and only if it is blank. */
  lemma LevelsOf(topic: string)
    ensures TrimSpace(Split(topic)[0]) != "" ==> Levels(topic) == Split(topic)
    ensures TrimSpace(Split(topic)[0]) == "" ==> Levels(topic) == Split(topic)[1..]
  {
    hide Split, TrimSpace;
  }

  /** The one kind of topic that leaves no level at all, such as the empty string. */
  predicate Blank(topic: string) {
    Levels(topic) == []
  }

  function Last<T>(s: seq<T>): T
    requires s != []
  {
    s[|s| - 1]
  }

  function Parent<T>(s: seq<T>): (p: seq<T>)
    requires s != []
    ensures s == p + [Last(s)]
  {
    s[..|s| - 1]
  }

  /** One branch further down; and back up. */
  function Snoc(p: Path, name: string): Path {
    p + [name]
  }

  function Up(p: Path): Path {
    if p == [] then [] else p[..|p| - 1]
  }

  function Tip(p: Path): string {
    if p == [] then "" else p[|p| - 1]
  }

  lemma PathFacts()
    ensures forall p, name {:trigger Snoc(p, name)} ::
              Snoc(p, name) != [] && Up(Snoc(p, name)) == p && Tip(Snoc(p, name)) == name
    ensures forall p {:trigger Up(p)} | p != [] :: Snoc(Up(p), Tip(p)) == p
  {
  }

  /** Branch names that a filter with these levels is filed under: trimmed, cut after a "#". */
  function FilterPath(keys: seq<string>): (p: Path)
    ensures |p| <= |keys|
    ensures p == [] <==> keys == []
  {
    if keys == [] then []
    else if TrimSpace(keys[0]) == "#" then ["#"]
    else [TrimSpace(keys[0])] + FilterPath(keys[1..])
  }

  /** Branch names that a retained topic with these levels is filed under: trimmed only. */
  function TrimAll(keys: seq<string>): (p: Path)
    ensures |p| == |keys|
  {
    seq(|keys|, i requires 0 <= i < |keys| => TrimSpace(keys[i]))
  }

  function SubPath(filter: string): Path {
    FilterPath(Levels(filter))
  }

  function KeepPath(topic: string): Path {
    TrimAll(Levels(topic))
  }

  lemma KeepPathNonempty(topic: string)
    ensures Blank(topic) <==> KeepPath(topic) == []
  {
  }

  /** "#" may only be the last name. */
  predicate HashLast(p: Path) {
    forall i | 0 <= i < |p| - 1 :: p[i] != "#"
  }

  predicate EndsInHash(p: Path) {
    p != [] && Last(p) == "#"
  }

  lemma {:induction false} FilterPathShape(keys: seq<string>)
    ensures HashLast(FilterPath(keys))
    ensures FilterPath(keys) <= TrimAll(keys)
    ensures FilterPath(keys) == TrimAll(keys) || EndsInHash(FilterPath(keys))
  {
    if keys != [] && TrimSpace(keys[0]) != "#" {
      FilterPathShape(keys[1..]);
      assert TrimAll(keys) == [TrimSpace(keys[0])] + TrimAll(keys[1..]);
    }
  }

  lemma {:induction false} LevelKeepsChar(s: string, c: char)
    requires c in s && c != '/'
    ensures exists i :: 0 <= i < |Split(s)| && c in Split(s)[i]
  {
    var rest := Split(s[1..]);
    var keys := Split(s);
    if s[0] == c {
      assert c in keys[0];
    } else {
      LevelKeepsChar(s[1..], c);
      var i :| 0 <= i < |rest| && c in rest[i];
      var j := if s[0] == '/' then i + 1 else i;
      assert c in keys[j];
    }
  }

  lemma {:induction false} TrimKeepsChar(s: string, c: char)
    requires c in s && !IsSpace(c)
    ensures c in TrimSpace(s)
  {
    LeftKeepsChar(s, c);
    RightKeepsChar(TrimLeft(s), c);
  }

  lemma LeftKeepsChar(s: string, c: char)
    requires c in s && !IsSpace(c)
    ensures c in TrimLeft(s)
  {
    if IsSpace(s[0]) {
      LeftKeepsChar(s[1..], c);
    }
  }

  lemma RightKeepsChar(s: string, c: char)
    requires c in s && !IsSpace(c)
    ensures c in TrimRight(s)
  {
    if IsSpace(s[|s| - 1]) {
      RightKeepsChar(s[..|s| - 1], c);
    }
  }

  /** Skipping a blank first level never empties a wildcard filter, so its path has a branch. */
  lemma WildHasLevels(filter: string)
    requires Wild(filter)
    ensures !Blank(filter)
  {
    var c := if '#' in filter then '#' else '+';
    LevelKeepsChar(filter, c);
    var keys := Split(filter);
    var i :| 0 <= i < |keys| && c in keys[i];
    TrimKeepsChar(keys[i], c);
  }

  lemma WildPathShape(filter: string)
    requires Wild(filter)
    ensures SubPath(filter) != [] && HashLast(SubPath(filter))
    ensures SubPath(filter) <= KeepPath(filter)
    ensures SubPath(filter) == KeepPath(filter) || EndsInHash(SubPath(filter))
  {
    WildHasLevels(filter);
    FilterPathShape(Levels(filter));
  }
}

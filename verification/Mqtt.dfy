/** The allowlist matcher for MQTT topics, against the matching relation of sections
    4.7.1.2, 4.7.1.3 and 4.7.2 of MQTT 3.1.1. */
module Mqtt {

  /** The levels of a topic or filter. */
  function Split(s: string): (levels: seq<string>)
    ensures levels != []
    decreases |s|
  {
    var n := LevelLength(s);
    if n == |s| then [s] else [s[..n]] + Split(s[n + 1..])
  }

  function LevelLength(s: string): (n: nat)
    ensures n <= |s| && '/' !in s[..n] && (n < |s| ==> s[n] == '/')
  {
    if s == "" || s[0] == '/' then 0
    else
      var n := LevelLength(s[1..]);
      assert s[..n + 1] == [s[0]] + s[1..][..n];
      n + 1
  }

  function Join(levels: seq<string>): string
    requires levels != []
  {
    if |levels| == 1 then levels[0] else levels[0] + "/" + Join(levels[1..])
  }

  /** Splitting loses nothing and leaves no separator. */
  lemma {:induction false} SplitJoin(s: string)
    ensures Join(Split(s)) == s && forall l | l in Split(s) :: '/' !in l
    decreases |s|
  {
    var n := LevelLength(s);
    if n < |s| {
      SplitJoin(s[n + 1..]);
      assert s == s[..n] + "/" + s[n + 1..];
      assert Split(s)[1..] == Split(s[n + 1..]);
    } else {
      assert s[..n] == s;
    }
  }

  // ---------------------------------------------------------------- the standard

  /** Wildcards stand alone in their level, and "#" only in the last. */
  ghost predicate WellFormed(filter: seq<string>) {
    forall i | 0 <= i < |filter| ::
      && ('+' in filter[i] ==> filter[i] == "+")
      && ('#' in filter[i] ==> filter[i] == "#" && i == |filter| - 1)
  }

  ghost predicate LevelMatches(level: string, name: string) {
    level == "+" || level == name
  }

  /** A final "#" stands for the parent and any number of levels below it. */
  ghost predicate LevelsMatch(filter: seq<string>, topic: seq<string>) {
    var multi := filter != [] && filter[|filter| - 1] == "#";
    var fixed := if multi then filter[..|filter| - 1] else filter;
    && (if multi then |fixed| <= |topic| else |fixed| == |topic|)
    && forall i | 0 <= i < |fixed| :: LevelMatches(fixed[i], topic[i])
  }

  ghost predicate Wildcard(level: string) {
    level == "+" || level == "#"
  }

  ghost predicate Matches(filter: string, topic: string) {
    && filter != "" && WellFormed(Split(filter))
    && !("$" <= topic && Wildcard(Split(filter)[0]))
    && LevelsMatch(Split(filter), Split(topic))
  }

  // ---------------------------------------------------------------- the matcher

  /** A topic name that can be published to. */
  predicate TopicNameIsConcrete(topic: string) {
    topic != "" && '+' !in topic && '#' !in topic
  }

  lemma {:induction false} ConcreteLevels(topic: string)
    requires '+' !in topic && '#' !in topic
    ensures forall l | l in Split(topic) :: '+' !in l && '#' !in l
    decreases |topic|
  {
    var n := LevelLength(topic);
    if n < |topic| {
      ConcreteLevels(topic[n + 1..]);
    }
  }

  // ---------------------------------------------------------------- what the relation says

  lemma {:induction false} LevelAt(a: string, rest: string)
    requires '/' !in a && (rest == "" || rest[0] == '/')
    ensures LevelLength(a + rest) == |a|
  {
    if a != "" {
      assert (a + rest)[0] == a[0] && (a + rest)[1..] == a[1..] + rest && a[0] in a;
      LevelAt(a[1..], rest);
    } else {
      assert a + rest == rest;
    }
  }

  lemma SplitFirst(a: string, b: string)
    requires '/' !in a
    ensures Split(a) == [a] && Split(a + "/" + b) == [a] + Split(b)
  {
    LevelAt(a, "");
    assert a + "" == a;
    LevelAt(a, "/" + b);
    assert a + ("/" + b) == a + "/" + b;
    assert (a + "/" + b)[..|a|] == a && (a + "/" + b)[|a| + 1..] == b;
  }

  /** Joining loses nothing either. */
  lemma {:induction false} JoinSplit(levels: seq<string>)
    requires levels != [] && forall l | l in levels :: '/' !in l
    ensures Split(Join(levels)) == levels
  {
    if |levels| == 1 {
      SplitFirst(levels[0], "");
    } else {
      JoinSplit(levels[1..]);
      SplitFirst(levels[0], Join(levels[1..]));
    }
  }

  lemma {:induction false} JoinConcat(a: seq<string>, b: seq<string>)
    requires a != [] && b != []
    ensures Join(a + b) == Join(a) + "/" + Join(b)
  {
    if |a| == 1 {
      assert (a + b)[1..] == b;
    } else {
      JoinConcat(a[1..], b);
      assert (a + b)[1..] == a[1..] + b;
      assert Join(a + b) == a[0] + "/" + (Join(a[1..]) + "/" + Join(b));
      assert Join(a) + "/" + Join(b) == a[0] + "/" + (Join(a[1..]) + "/" + Join(b));
    }
  }

  /** The levels of two texts with a separator between them. */
  lemma SplitConcat(a: string, b: string)
    ensures Split(a + "/" + b) == Split(a) + Split(b)
  {
    SplitJoin(a);
    SplitJoin(b);
    JoinConcat(Split(a), Split(b));
    JoinSplit(Split(a) + Split(b));
    hide Split, Join;
  }

  /** A topic lies at or below `p` exactly if its levels begin with those of `p`. */
  lemma Below(p: string, topic: string)
    ensures Split(p) <= Split(topic) <==> topic == p || p + "/" <= topic
  {
    hide Split, Join;
    SplitJoin(p);
    SplitJoin(topic);
    if Split(p) <= Split(topic) {
      var rest := Split(topic)[|Split(p)|..];
      assert Split(topic) == Split(p) + rest;
      if rest == [] {
        assert Split(topic) == Split(p);
      } else {
        JoinConcat(Split(p), rest);
        assert topic == p + "/" + Join(rest);
      }
    }
    if p + "/" <= topic {
      var below := topic[|p| + 1..];
      assert topic == p + "/" + below;
      SplitConcat(p, below);
    }
  }

  /** A filter without wildcards matches its own topic. */
  lemma PlainFilter(filter: string, topic: string)
    requires filter != "" && '+' !in filter && '#' !in filter
    ensures Matches(filter, topic) <==> topic == filter
  {
    var f, t := Split(filter), Split(topic);
    ConcreteLevels(filter);
    SplitJoin(filter);
    SplitJoin(topic);
    assert f[|f| - 1] in f && f[0] in f;
    hide Split, Join;
    if Matches(filter, topic) {
      forall i | 0 <= i < |f| ensures f[i] == t[i] { assert f[i] in f; }
      assert f == t;
    } else if topic == filter {
      forall i | 0 <= i < |f| ensures '+' !in f[i] && '#' !in f[i] { assert f[i] in f; }
    }
  }

  /** A final "#" below a plain filter matches that topic and everything below it. */
  lemma HashFilter(p: string, topic: string)
    requires p != "" && '+' !in p && '#' !in p
    ensures Matches(p + "/#", topic) <==> topic == p || p + "/" <= topic
  {
    assert p + "/#" == p + "/" + "#";
    SplitConcat(p, "#");
    SplitFirst("#", "");
    ConcreteLevels(p);
    Below(p, topic);
    hide Split;
    HashLevels(Split(p), Split(topic));
    assert Split(p)[0] in Split(p);
  }

  lemma HashLevels(f: seq<string>, t: seq<string>)
    requires f != [] && forall l | l in f :: '+' !in l && '#' !in l
    ensures WellFormed(f + ["#"]) && !Wildcard((f + ["#"])[0]) && (LevelsMatch(f + ["#"], t) <==> f <= t)
  {
    var g := f + ["#"];
    assert g[|g| - 1] == "#" && g[..|g| - 1] == f && g[0] == f[0] && f[0] in f;
    forall i | 0 <= i < |f| ensures g[i] == f[i] && '+' !in f[i] && '#' !in f[i] { assert f[i] in f; }
    if f <= t {
      assert forall i | 0 <= i < |f| :: t[i] == f[i];
    }
    if |f| <= |t| && forall i | 0 <= i < |f| :: LevelMatches(f[i], t[i]) {
      assert f == t[..|f|];
    }
  }

  /** "#" alone matches every topic, and "+" every topic of one level, unless it begins with "$". */
  lemma LoneWildcards(topic: string)
    ensures Matches("#", topic) <==> !("$" <= topic)
    ensures Matches("+", topic) <==> !("$" <= topic) && '/' !in topic
  {
    SplitFirst("#", "");
    SplitFirst("+", "");
    SplitJoin(topic);
    if '/' !in topic { SplitFirst(topic, ""); }
    if |Split(topic)| == 1 { assert Join(Split(topic)) == Split(topic)[0]; }
    hide Split, Join;
  }

  /** For every pattern and topic: a concrete topic matches as the standard says, and no
      malformed pattern matches anything. */
  method TopicMatch(pattern: string, topic: string) returns (r: bool)
    ensures r <==> topic != "" && '+' !in topic && '#' !in topic && Matches(pattern, topic)
  {
    if pattern == "" || !TopicNameIsConcrete(topic) {
      return false;
    }
    var patternParts, topicParts := Split(pattern), Split(topic);
    ConcreteLevels(topic);
    hide Split;
    if topic[0] == '$' && (patternParts[0] == "+" || patternParts[0] == "#") {
      return false;
    }
    for i := 0 to |patternParts|
      invariant i <= |topicParts|
      invariant forall k | 0 <= k < i :: patternParts[k] != "#" && LevelMatches(patternParts[k], topicParts[k])
    {
      var part := patternParts[i];
      if part == "#" {
        PrefixWellFormed(patternParts, topicParts, i);
        return i == |patternParts| - 1;
      }
      if i >= |topicParts| {
        return false;
      }
      if part != "+" && part != topicParts[i] {
        return false;
      }
    }
    PrefixWellFormed(patternParts, topicParts, |patternParts|);
    r := |patternParts| == |topicParts|;
  }

  /** Levels that match a concrete topic are well formed. */
  lemma PrefixWellFormed(filter: seq<string>, topic: seq<string>, n: nat)
    requires n <= |filter| && n <= |topic| && forall l | l in topic :: '+' !in l && '#' !in l
    requires forall k | 0 <= k < n :: LevelMatches(filter[k], topic[k])
    ensures forall k | 0 <= k < n :: ('+' in filter[k] ==> filter[k] == "+") && '#' !in filter[k]
  {
    forall k | 0 <= k < n ensures ('+' in filter[k] ==> filter[k] == "+") && '#' !in filter[k] {
      assert topic[k] in topic;
    }
  }

  /** A topic is allowed exactly when some pattern of the list matches it. */
  method TopicAllowed(topic: string, patterns: seq<string>) returns (r: bool)
    ensures r <==> topic != "" && '+' !in topic && '#' !in topic && exists p :: p in patterns && Matches(p, topic)
  {
    for i := 0 to |patterns|
      invariant !(TopicNameIsConcrete(topic) && exists p :: p in patterns[..i] && Matches(p, topic))
    {
      var matched := TopicMatch(patterns[i], topic);
      if matched {
        return true;
      }
    }
    assert patterns[..|patterns|] == patterns;
    r := false;
  }
}

/** The single `platform` string of a game, built from the selected platform
    tags with `Array.prototype.join(', ')`, and its inverse. */
module Platforms {

  const Separator := ", "

  /** `platforms.join(', ')`: the tags in input order with the separator between them. */
  function Join(platforms: seq<string>): (s: string)
    ensures |platforms| == 0 ==> s == ""
    ensures |platforms| == 1 ==> s == platforms[0]
  {
    if |platforms| == 0 then ""
    else if |platforms| == 1 then platforms[0]
    else platforms[0] + Separator + Join(platforms[1..])
  }

  /** The separator starts at index `i` of `s`. */
  predicate SeparatorAt(s: string, i: int)
  {
    0 <= i && i + 1 < |s| && s[i] == ',' && s[i + 1] == ' '
  }

  predicate ContainsSeparator(s: string)
  {
    exists i | 0 <= i < |s| :: SeparatorAt(s, i)
  }

  /** Cutting a string at every occurrence of the separator, scanning left to right. */
  function Split(s: string): (parts: seq<string>)
    ensures |parts| >= 1
    decreases |s|
  {
    if |s| < 2 then [s]
    else if s[0] == ',' && s[1] == ' ' then [""] + Split(s[2..])
    else
      var rest := Split(s[1..]);
      [[s[0]] + rest[0]] + rest[1..]
  }

  /** A tag without the separator is a single piece. */
  lemma {:induction false} SplitPlain(a: string)
    requires !ContainsSeparator(a)
    ensures Split(a) == [a]
    decreases |a|
  {
    if |a| >= 2 {
      assert !SeparatorAt(a, 0);
      forall i | SeparatorAt(a[1..], i) ensures SeparatorAt(a, i + 1) { }
      SplitPlain(a[1..]);
      assert [a[0]] + a[1..] == a;
    }
  }

  /** The first separator after a tag without one ends exactly that tag. */
  lemma {:induction false} SplitAfterPlain(a: string, t: string)
    requires !ContainsSeparator(a)
    ensures Split(a + Separator + t) == [a] + Split(t)
    decreases |a|
  {
    var s := a + Separator + t;
    if |a| == 0 {
      assert s[2..] == t;
    } else {
      assert s[1..] == a[1..] + Separator + t;
      if |a| >= 2 {
        assert !SeparatorAt(a, 0);
      }
      forall i | SeparatorAt(a[1..], i) ensures SeparatorAt(a, i + 1) { }
      SplitAfterPlain(a[1..], t);
      assert [a[0]] + a[1..] == a;
    }
  }

  /** Round trip: the joined string gives back the selected tags, in order,
      whenever at least one tag is selected and none contains the separator. */
  lemma {:induction false} SplitJoin(platforms: seq<string>)
    requires |platforms| >= 1
    requires forall i :: 0 <= i < |platforms| ==> !ContainsSeparator(platforms[i])
    ensures Split(Join(platforms)) == platforms
  {
    if |platforms| == 1 {
      SplitPlain(platforms[0]);
    } else {
      SplitAfterPlain(platforms[0], Join(platforms[1..]));
      SplitJoin(platforms[1..]);
      assert [platforms[0]] + platforms[1..] == platforms;
    }
  }

  /** Corollary: on such selections, different selections give different strings. */
  lemma JoinInjective(p: seq<string>, q: seq<string>)
    requires |p| >= 1 && |q| >= 1
    requires forall i :: 0 <= i < |p| ==> !ContainsSeparator(p[i])
    requires forall i :: 0 <= i < |q| ==> !ContainsSeparator(q[i])
    requires Join(p) == Join(q)
    ensures p == q
  {
    SplitJoin(p);
    SplitJoin(q);
  }

  /** Joining distributes over concatenation: the tags keep their input order. */
  lemma {:induction false} JoinAppend(p: seq<string>, q: seq<string>)
    requires |p| >= 1 && |q| >= 1
    ensures Join(p + q) == Join(p) + Separator + Join(q)
  {
    if |p| == 1 {
      assert (p + q)[1..] == q;
    } else {
      assert (p + q)[1..] == p[1..] + q;
      JoinAppend(p[1..], q);
    }
  }
}

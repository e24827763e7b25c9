/**
 * Address patterns: the four replacements that turn a glob into a LIKE pattern, against what a glob
 * means: `*` stands for any string, every other character for itself.
 */
module Glob {
  // ----- what a glob means -----

  function Stars(p: string): nat {
    if p == "" then 0 else Stars(p[1..]) + if p[0] == '*' then 1 else 0
  }

  /** The pattern with its stars replaced, in order, by the given strings. */
  function Fill(p: string, fills: seq<string>): string
    requires |fills| == Stars(p)
  {
    if p == "" then ""
    else if p[0] == '*' then fills[0] + Fill(p[1..], fills[1..])
    else [p[0]] + Fill(p[1..], fills)
  }

  ghost predicate FillsTo(p: string, fills: seq<string>, s: string) { |fills| == Stars(p) && Fill(p, fills) == s }

  ghost predicate GlobMatches(p: string, s: string) { exists fills :: FillsTo(p, fills, s) }

  // ----- LIKE with a backslash as escape character -----

  /** Every escape character is followed by a character it may escape. */
  predicate ValidLike(p: string) {
    if p == "" then true
    else if p[0] == '\\' then |p| > 1 && p[1] in {'%', '_', '\\'} && ValidLike(p[2..])
    else ValidLike(p[1..])
  }

  predicate Like(p: string, s: string)
    decreases |p|
  {
    if p == "" then s == ""
    else if p[0] == '\\' then |p| > 1 && s != "" && s[0] == p[1] && Like(p[2..], s[1..])
    else if p[0] == '%' then exists k :: 0 <= k <= |s| && Like(p[1..], s[k..])
    else if p[0] == '_' then s != "" && Like(p[1..], s[1..])
    else s != "" && s[0] == p[0] && Like(p[1..], s[1..])
  }

  // ----- the translation -----

  /** strings.ReplaceAll for a pattern of one character. */
  function ReplaceAll(s: string, c: char, to: string): string {
    if s == "" then "" else (if s[0] == c then to else [s[0]]) + ReplaceAll(s[1..], c, to)
  }

  method ToLike(addressPattern: string) returns (likePattern: string)
    ensures likePattern == Rewrite(addressPattern)
  {
    likePattern := ReplaceAll(addressPattern, '\\', "\\\\");
    likePattern := ReplaceAll(likePattern, '%', "\\%");
    likePattern := ReplaceAll(likePattern, '_', "\\_");
    likePattern := ReplaceAll(likePattern, '*', "%");
    FourPasses(addressPattern);
  }

  /** What one character of the glob becomes. */
  function RewriteChar(c: char): string {
    if c == '\\' then "\\\\" else if c == '%' then "\\%" else if c == '_' then "\\_" else if c == '*' then "%" else [c]
  }

  function Rewrite(p: string): string {
    if p == "" then "" else RewriteChar(p[0]) + Rewrite(p[1..])
  }

  lemma {:induction false} ReplaceConcat(s: string, t: string, c: char, to: string)
    ensures ReplaceAll(s + t, c, to) == ReplaceAll(s, c, to) + ReplaceAll(t, c, to)
  {
    if s == "" {
      assert s + t == t;
    } else {
      assert (s + t)[1..] == s[1..] + t;
      ReplaceConcat(s[1..], t, c, to);
    }
  }

  function Passes(p: string): string {
    ReplaceAll(ReplaceAll(ReplaceAll(ReplaceAll(p, '\\', "\\\\"), '%', "\\%"), '_', "\\_"), '*', "%")
  }

  lemma {:induction false} PassesConcat(p: string, q: string)
    ensures Passes(p + q) == Passes(p) + Passes(q)
  {
    ReplaceConcat(p, q, '\\', "\\\\");
    var p1, q1 := ReplaceAll(p, '\\', "\\\\"), ReplaceAll(q, '\\', "\\\\");
    ReplaceConcat(p1, q1, '%', "\\%");
    var p2, q2 := ReplaceAll(p1, '%', "\\%"), ReplaceAll(q1, '%', "\\%");
    ReplaceConcat(p2, q2, '_', "\\_");
    ReplaceConcat(ReplaceAll(p2, '_', "\\_"), ReplaceAll(q2, '_', "\\_"), '*', "%");
  }

  lemma {:induction false} ReplaceOne(x: char, c: char, to: string)
    ensures ReplaceAll([x], c, to) == if x == c then to else [x]
  {
    assert [x][1..] == "";
  }

  lemma {:induction false} ReplaceTwo(x: char, y: char, c: char, to: string)
    ensures ReplaceAll([x, y], c, to) == (if x == c then to else [x]) + (if y == c then to else [y])
  {
    assert [x, y] == [x] + [y];
    ReplaceConcat([x], [y], c, to);
    ReplaceOne(x, c, to);
    ReplaceOne(y, c, to);
  }

  lemma {:induction false} PassesOne(x: char)
    ensures Passes([x]) == RewriteChar(x)
  {
    ReplaceOne(x, '\\', "\\\\");
    if x == '\\' {
      ReplaceTwo('\\', '\\', '%', "\\%");
      ReplaceTwo('\\', '\\', '_', "\\_");
      ReplaceTwo('\\', '\\', '*', "%");
    } else {
      ReplaceOne(x, '%', "\\%");
      if x == '%' {
        ReplaceTwo('\\', '%', '_', "\\_");
        ReplaceTwo('\\', '%', '*', "%");
      } else {
        ReplaceOne(x, '_', "\\_");
        if x == '_' {
          ReplaceTwo('\\', '_', '*', "%");
        } else {
          ReplaceOne(x, '*', "%");
        }
      }
    }
  }

  /** Four passes over the whole string, in their order, are one map over its characters. */
  lemma {:induction false} FourPasses(p: string)
    ensures Passes(p) == Rewrite(p)
  {
    if p != "" {
      FourPasses(p[1..]);
      PassesConcat([p[0]], p[1..]);
      PassesOne(p[0]);
      assert [p[0]] + p[1..] == p;
    }
  }

  /** The order matters: escaping the escape character last would undo the others. */
  lemma {:induction false} OrderMatters()
    ensures ReplaceAll(ReplaceAll("%", '%', "\\%"), '\\', "\\\\") != Rewrite("%")
  {
    ReplaceOne('%', '%', "\\%");
    ReplaceTwo('\\', '%', '\\', "\\\\");
    assert Rewrite("%") == "\\%" + Rewrite("");
  }

  lemma {:induction false} RewriteIsValid(p: string)
    ensures ValidLike(Rewrite(p))
  {
    if p != "" {
      RewriteIsValid(p[1..]);
      var r := RewriteChar(p[0]);
      assert Rewrite(p)[|r|..] == Rewrite(p[1..]);
    }
  }

  /** A star takes any prefix. */
  lemma {:induction false} StarMatches(p: string, s: string)
    requires p != "" && p[0] == '*'
    ensures GlobMatches(p, s) <==> exists k :: 0 <= k <= |s| && GlobMatches(p[1..], s[k..])
  {
    if GlobMatches(p, s) {
      var fills :| FillsTo(p, fills, s);
      var k := |fills[0]|;
      assert s[k..] == Fill(p[1..], fills[1..]) && FillsTo(p[1..], fills[1..], s[k..]);
    }
    if k :| 0 <= k <= |s| && GlobMatches(p[1..], s[k..]) {
      var fills :| FillsTo(p[1..], fills, s[k..]);
      var all := [s[..k]] + fills;
      assert all[0] == s[..k] && all[1..] == fills && s[..k] + s[k..] == s;
      assert FillsTo(p, all, s);
    }
  }

  /** Any other character takes itself. */
  lemma {:induction false} LiteralMatches(p: string, s: string)
    requires p != "" && p[0] != '*'
    ensures GlobMatches(p, s) <==> s != "" && s[0] == p[0] && GlobMatches(p[1..], s[1..])
  {
    if GlobMatches(p, s) {
      var fills :| FillsTo(p, fills, s);
      assert s[1..] == Fill(p[1..], fills) && FillsTo(p[1..], fills, s[1..]);
    }
    if s != "" && s[0] == p[0] && GlobMatches(p[1..], s[1..]) {
      var fills :| FillsTo(p[1..], fills, s[1..]);
      assert [s[0]] + s[1..] == s && FillsTo(p, fills, s);
    }
  }

  /** Matching the translation under LIKE is matching the glob, for every pattern and every string. */
  lemma {:induction false} LikeIsGlob(p: string, s: string)
    ensures Like(Rewrite(p), s) <==> GlobMatches(p, s)
    decreases |p|
  {
    if p == "" {
      assert FillsTo("", [], "");
    } else {
      var r := RewriteChar(p[0]);
      assert Rewrite(p)[|r|..] == Rewrite(p[1..]);
      if p[0] == '*' {
        StarMatches(p, s);
        forall k | 0 <= k <= |s|
          ensures Like(Rewrite(p[1..]), s[k..]) <==> GlobMatches(p[1..], s[k..])
        {
          LikeIsGlob(p[1..], s[k..]);
        }
      } else {
        LiteralMatches(p, s);
        if s != "" {
          LikeIsGlob(p[1..], s[1..]);
        }
      }
    }
  }
}

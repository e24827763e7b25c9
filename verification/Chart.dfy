/**
 * The chart of accounts: a tree whose edges are literal or variable (`$name`) segments. Go visits
 * the children of a node in any order, so validation is a relation between inputs and verdicts.
 */
module Chart {
  import opened Wrappers

  type Children = map<string, ChartNode>

  /** A node; `pattern` is a compiled constraint on variable segments, if any. */
  datatype ChartNode = ChartNode(children: map<string, ChartNode>, pattern: Option<string>, self: bool)
  {
    predicate Leaf() { self || children == map[] }
  }

  /** A regular expression applied to a segment. */
  type Regex = (string, string) -> bool

  datatype ChartError = IncompleteAddress | SegmentNotAllowed | NotALeaf | TooManySegments

  // ----- addresses -----

  function Join(segments: seq<string>): string
    requires segments != []
  {
    if |segments| == 1 then segments[0] else segments[0] + ":" + Join(segments[1..])
  }

  /** The segments between colons; an address always has one. */
  function Split(address: string): (r: seq<string>)
    ensures r != [] && Join(r) == address
    ensures forall i :: 0 <= i < |r| ==> ':' !in r[i]
  {
    if address == "" then [""]
    else
      var rest := Split(address[1..]);
      if address[0] == ':' then
        assert ([""] + rest)[1..] == rest && "" + ":" + Join(rest) == address;
        [""] + rest
      else
        var head := [address[0]] + rest[0];
        assert ([head] + rest[1..])[1..] == rest[1..];
        [head] + rest[1..]
  }

  // ----- paths -----

  predicate Variable(key: string) { key != "" && key[0] == '$' }

  /** A key stands for itself; a variable key also for every segment its pattern admits. */
  predicate Stands(re: Regex, key: string, node: ChartNode, seg: string) { key == seg || Admits(re, key, node, seg) }

  predicate Admits(re: Regex, key: string, node: ChartNode, seg: string) {
    Variable(key) && (node.pattern.Some? ==> re(node.pattern.value, seg))
  }

  /** The keys lead from these children to a leaf, each standing for its segment. */
  predicate Leads(re: Regex, nodes: Children, keys: seq<string>, segments: seq<string>)
    decreases |keys|
  {
    && keys != [] && |keys| == |segments|
    && keys[0] in nodes && Stands(re, keys[0], nodes[keys[0]], segments[0])
    && (if |keys| == 1 then nodes[keys[0]].Leaf()
        else Leads(re, nodes[keys[0]].children, keys[1..], segments[1..]))
  }

  ghost predicate HasPath(re: Regex, nodes: Children, segments: seq<string>) {
    exists keys :: Leads(re, nodes, keys, segments)
  }

  // ----- verdicts -----

  /** Validation under some iteration order gives this verdict. */
  ghost predicate MaySay(re: Regex, nodes: Children, segments: seq<string>, accepts: bool)
    decreases |segments|, 1
  {
    if segments == [] then !accepts
    else if segments[0] in nodes then NodeMaySay(re, nodes[segments[0]], segments[1..], accepts)
    else if forall k :: k in nodes ==> !Admits(re, k, nodes[k], segments[0]) then !accepts
    else exists k :: k in nodes && Admits(re, k, nodes[k], segments[0]) && NodeMaySay(re, nodes[k], segments[1..], accepts)
  }

  ghost predicate NodeMaySay(re: Regex, node: ChartNode, remaining: seq<string>, accepts: bool)
    decreases |remaining|, 2
  {
    if remaining == [] then accepts == node.Leaf()
    else if node.children == map[] then !accepts
    else MaySay(re, node.children, remaining, accepts)
  }

  method ValidateSegments(re: Regex, segments: seq<string>, nodes: Children) returns (r: Outcome<ChartError>)
    ensures MaySay(re, nodes, segments, r.Pass?)
    decreases |segments|, 1
  {
    if |segments| == 0 { return Fail(IncompleteAddress); }
    var seg, remaining := segments[0], segments[1..];
    if seg in nodes {
      r := MatchNode(re, remaining, nodes[seg]);
      return;
    }
    var todo := nodes.Keys;
    while todo != {}
      invariant todo <= nodes.Keys
      invariant forall k :: k in nodes && k !in todo ==> !Admits(re, k, nodes[k], seg)
      decreases |todo|
    {
      var key :| key in todo;
      todo := todo - {key};
      if !Variable(key) { continue; }
      if nodes[key].pattern.Some? && !re(nodes[key].pattern.value, seg) { continue; }
      r := MatchNode(re, remaining, nodes[key]);
      return;
    }
    return Fail(SegmentNotAllowed);
  }

  method MatchNode(re: Regex, remaining: seq<string>, node: ChartNode) returns (r: Outcome<ChartError>)
    ensures NodeMaySay(re, node, remaining, r.Pass?)
    decreases |remaining|, 2
  {
    if |remaining| == 0 {
      if node.self || |node.children| == 0 { return Pass; }
      return Fail(NotALeaf);
    }
    if |node.children| == 0 { return Fail(TooManySegments); }
    r := ValidateSegments(re, remaining, node.children);
  }

  /** No chart, or an empty one, accepts every address. */
  method ValidateAccount(re: Regex, chart: Option<Children>, address: string) returns (r: Outcome<ChartError>)
    ensures chart.None? || chart.value == map[] ==> r == Pass
    ensures chart.Some? && chart.value != map[] ==> MaySay(re, chart.value, Split(address), r.Pass?)
  {
    if chart.None? || |chart.value| == 0 { return Pass; }
    r := ValidateSegments(re, Split(address), chart.value);
  }

  /** A key that begins with a dollar sign and whose pattern, if any, matches. */
  predicate Takes(re: Regex, nodes: Children, key: string, seg: string) {
    key in nodes && "$" <= key && match nodes[key].pattern case Some(p) => re(p, seg) case None => true
  }

  /** One level: the literal child decides where there is one, else any variable child that takes the segment, else nothing accepts. */
  lemma {:induction false} LevelDecides(re: Regex, nodes: Children, seg: string, rest: seq<string>, accepts: bool)
    ensures MaySay(re, nodes, [seg] + rest, accepts) <==>
      if seg in nodes then BelowSays(re, nodes[seg], rest, accepts)
      else if exists k :: Takes(re, nodes, k, seg) then exists k :: Takes(re, nodes, k, seg) && BelowSays(re, nodes[k], rest, accepts)
      else !accepts
  {
    assert ([seg] + rest)[1..] == rest;
    forall k
      ensures Takes(re, nodes, k, seg) <==> k in nodes && Admits(re, k, nodes[k], seg)
    {
      assert "$" <= k <==> Variable(k);
    }
    forall k | k in nodes
      ensures NodeMaySay(re, nodes[k], rest, accepts) <==> BelowSays(re, nodes[k], rest, accepts)
    {
    }
  }

  /** The last segment needs a node marked as a leaf or without children, an earlier one needs children. */
  ghost predicate BelowSays(re: Regex, node: ChartNode, rest: seq<string>, accepts: bool) {
    if rest == [] then accepts == (node.self || node.children == map[])
    else if node.children == map[] then !accepts
    else MaySay(re, node.children, rest, accepts)
  }

  // ----- accepted addresses -----

  lemma {:induction false} PathOfOne(re: Regex, nodes: Children, key: string, segments: seq<string>)
    requires segments != [] && key in nodes && Stands(re, key, nodes[key], segments[0])
    requires if |segments| == 1 then nodes[key].Leaf() else HasPath(re, nodes[key].children, segments[1..])
    ensures HasPath(re, nodes, segments)
  {
    if |segments| == 1 {
      assert Leads(re, nodes, [key], segments);
    } else {
      var rest :| Leads(re, nodes[key].children, rest, segments[1..]);
      assert ([key] + rest)[1..] == rest;
      assert Leads(re, nodes, [key] + rest, segments);
    }
  }

  lemma {:induction false} NodeAccepts(re: Regex, node: ChartNode, remaining: seq<string>)
    requires NodeMaySay(re, node, remaining, true)
    ensures if remaining == [] then node.Leaf() else MaySay(re, node.children, remaining, true)
  {
  }

  /** In any iteration order, an accepted address has a path from the root to a leaf. */
  lemma {:induction false} AcceptedHasPath(re: Regex, nodes: Children, segments: seq<string>)
    requires MaySay(re, nodes, segments, true)
    ensures HasPath(re, nodes, segments)
    decreases |segments|
  {
    var key :| key in nodes && Stands(re, key, nodes[key], segments[0])
               && NodeMaySay(re, nodes[key], segments[1..], true);
    NodeAccepts(re, nodes[key], segments[1..]);
    if |segments| > 1 {
      AcceptedHasPath(re, nodes[key].children, segments[1..]);
    }
    PathOfOne(re, nodes, key, segments);
  }

  // ----- unambiguous charts -----

  /** At most one child stands for any segment. */
  ghost predicate Unambiguous(re: Regex, nodes: Children) {
    forall seg, j, k :: j in nodes && k in nodes && Stands(re, j, nodes[j], seg) && Stands(re, k, nodes[k], seg) ==> j == k
  }

  ghost predicate UnambiguousBelow(re: Regex, node: ChartNode)
    decreases node
  {
    Unambiguous(re, node.children) && forall k :: k in node.children ==> UnambiguousBelow(re, node.children[k])
  }

  ghost predicate UnambiguousChart(re: Regex, nodes: Children) {
    Unambiguous(re, nodes) && forall k :: k in nodes ==> UnambiguousBelow(re, nodes[k])
  }

  /** Some verdict is always given. */
  lemma {:induction false} SomeVerdict(re: Regex, nodes: Children, segments: seq<string>)
    ensures MaySay(re, nodes, segments, true) || MaySay(re, nodes, segments, false)
    decreases |segments|
  {
    if segments != [] && exists k :: k in nodes && Stands(re, k, nodes[k], segments[0]) {
      var key :| key in nodes && Stands(re, key, nodes[key], segments[0])
                 && (segments[0] in nodes ==> key == segments[0]);
      if |segments| > 1 {
        SomeVerdict(re, nodes[key].children, segments[1..]);
      }
      assert NodeMaySay(re, nodes[key], segments[1..], true) || NodeMaySay(re, nodes[key], segments[1..], false);
    }
  }

  /** On an unambiguous chart an address with a path is never rejected. */
  lemma {:induction false} PathIsAccepted(re: Regex, nodes: Children, segments: seq<string>)
    requires UnambiguousChart(re, nodes) && HasPath(re, nodes, segments)
    ensures !MaySay(re, nodes, segments, false)
    decreases |segments|
  {
    var keys :| Leads(re, nodes, keys, segments);
    var node := nodes[keys[0]];
    if |segments| > 1 {
      assert UnambiguousChart(re, node.children);
      assert Leads(re, node.children, keys[1..], segments[1..]);
      PathIsAccepted(re, node.children, segments[1..]);
      assert node.children != map[];
    }
    assert !NodeMaySay(re, node, segments[1..], false);
    assert segments[0] in nodes ==> Stands(re, segments[0], nodes[segments[0]], segments[0]);
  }

  /** There, acceptance is having a path and does not depend on the iteration order. */
  lemma {:induction false} AcceptedIffPath(re: Regex, nodes: Children, segments: seq<string>)
    requires UnambiguousChart(re, nodes)
    ensures MaySay(re, nodes, segments, true) <==> HasPath(re, nodes, segments)
    ensures MaySay(re, nodes, segments, false) <==> !HasPath(re, nodes, segments)
  {
    SomeVerdict(re, nodes, segments);
    if MaySay(re, nodes, segments, true) {
      AcceptedHasPath(re, nodes, segments);
    }
    if HasPath(re, nodes, segments) {
      PathIsAccepted(re, nodes, segments);
    }
  }

  /** At most one variable child admits any segment that is not itself a child. */
  ghost predicate OneVariable(re: Regex, nodes: Children) {
    forall seg, j, k :: seg !in nodes && j in nodes && k in nodes ==>
      Admits(re, j, nodes[j], seg) && Admits(re, k, nodes[k], seg) ==> j == k
  }

  ghost predicate OneVariableBelow(re: Regex, node: ChartNode)
    decreases node
  {
    OneVariable(re, node.children) && forall k :: k in node.children ==> OneVariableBelow(re, node.children[k])
  }

  /** That is enough for one verdict in every order, literal children hiding variable ones or not. */
  lemma {:induction false} OneVerdict(re: Regex, nodes: Children, segments: seq<string>)
    requires OneVariable(re, nodes) && forall k :: k in nodes ==> OneVariableBelow(re, nodes[k])
    ensures MaySay(re, nodes, segments, true) <==> !MaySay(re, nodes, segments, false)
    decreases |segments|
  {
    SomeVerdict(re, nodes, segments);
    if segments != [] {
      var remaining := segments[1..];
      forall k | k in nodes && Stands(re, k, nodes[k], segments[0])
        ensures NodeMaySay(re, nodes[k], remaining, true) <==> !NodeMaySay(re, nodes[k], remaining, false)
      {
        if remaining != [] {
          OneVerdict(re, nodes[k].children, remaining);
        }
      }
    }
  }

  // ----- exactly when -----

  /** The child validation may go to: the literal one if there is one, else any admitted one. */
  predicate Chosen(re: Regex, nodes: Children, key: string, seg: string) {
    key in nodes && if seg in nodes then key == seg else Admits(re, key, nodes[key], seg)
  }

  /** Going down along chosen children, one for each of the first segments, leads to `at`. */
  predicate Route(re: Regex, nodes: Children, keys: seq<string>, segments: seq<string>, at: Children)
    decreases |keys|
  {
    if keys == [] then at == nodes
    else segments != [] && Chosen(re, nodes, keys[0], segments[0])
         && Route(re, nodes[keys[0]].children, keys[1..], segments[1..], at)
  }

  /** A chosen child stands for the last segment and is a leaf. */
  predicate Ends(re: Regex, at: Children, key: string, rest: seq<string>) {
    |rest| == 1 && Chosen(re, at, key, rest[0]) && at[key].Leaf()
  }

  /** Two chosen children of which one can accept the rest and the other reject it. */
  ghost predicate Disagree(re: Regex, at: Children, j: string, k: string, rest: seq<string>) {
    rest != [] && j != k && Chosen(re, at, j, rest[0]) && Chosen(re, at, k, rest[0])
    && NodeMaySay(re, at[j], rest[1..], true) && NodeMaySay(re, at[k], rest[1..], false)
  }

  lemma {:induction false} RouteOneLonger(
    re: Regex, nodes: Children, key: string, keys: seq<string>, segments: seq<string>, at: Children)
    requires segments != [] && Chosen(re, nodes, key, segments[0])
    requires Route(re, nodes[key].children, keys, segments[1..], at)
    ensures Route(re, nodes, [key] + keys, segments, at)
    ensures |keys| <= |segments[1..]| ==> segments[|[key] + keys|..] == segments[1..][|keys|..]
  {
    assert ([key] + keys)[1..] == keys;
  }

  lemma {:induction false} ChosenSays(re: Regex, nodes: Children, key: string, segments: seq<string>, accepts: bool)
    requires segments != [] && Chosen(re, nodes, key, segments[0])
    requires NodeMaySay(re, nodes[key], segments[1..], accepts)
    ensures MaySay(re, nodes, segments, accepts)
  {
  }

  /** What can be said at the end of a route can be said at its start. */
  lemma {:induction false} RouteSays(
    re: Regex, nodes: Children, keys: seq<string>, segments: seq<string>, at: Children, accepts: bool)
    requires Route(re, nodes, keys, segments, at) && |keys| < |segments| && at != map[]
    requires MaySay(re, at, segments[|keys|..], accepts)
    ensures MaySay(re, nodes, segments, accepts)
    decreases |keys|
  {
    if keys == [] {
      assert segments[0..] == segments;
    } else {
      var node, rest := nodes[keys[0]], segments[1..];
      assert rest[|keys[1..]|..] == segments[|keys|..];
      RouteSays(re, node.children, keys[1..], rest, at, accepts);
      assert node.children != map[] by { RouteStarts(re, node.children, keys[1..], rest, at); }
      ChosenSays(re, nodes, keys[0], segments, accepts);
    }
  }

  lemma {:induction false} RouteStarts(re: Regex, nodes: Children, keys: seq<string>, segments: seq<string>, at: Children)
    requires Route(re, nodes, keys, segments, at) && at != map[]
    ensures nodes != map[]
  {
  }

  ghost predicate AcceptingRoute(re: Regex, nodes: Children, segments: seq<string>) {
    exists keys, at, key ::
      Route(re, nodes, keys, segments, at) && |keys| <= |segments| && Ends(re, at, key, segments[|keys|..])
  }

  lemma {:induction false} AcceptanceHasRoute(re: Regex, nodes: Children, segments: seq<string>)
    requires MaySay(re, nodes, segments, true)
    ensures AcceptingRoute(re, nodes, segments)
    decreases |segments|
  {
    var key :| Chosen(re, nodes, key, segments[0]) && NodeMaySay(re, nodes[key], segments[1..], true);
    assert Chosen(re, nodes, key, segments[0]);
    NodeAccepts(re, nodes[key], segments[1..]);
    if |segments| == 1 {
      var none: seq<string> := [];
      assert segments[|none|..] == segments;
      assert Route(re, nodes, none, segments, nodes) && Ends(re, nodes, key, segments[|none|..]);
    } else {
      AcceptanceHasRoute(re, nodes[key].children, segments[1..]);
      var keys, at, last :|
        Route(re, nodes[key].children, keys, segments[1..], at) && |keys| <= |segments[1..]| && Ends(re, at, last, segments[1..][|keys|..]);
      RouteOneLonger(re, nodes, key, keys, segments, at);
      assert Ends(re, at, last, segments[|[key] + keys|..]);
    }
  }

  /** Some order accepts exactly when chosen children lead to a leaf, literal ones first all the way. */
  lemma {:induction false} MayAcceptIff(re: Regex, nodes: Children, segments: seq<string>)
    ensures MaySay(re, nodes, segments, true) <==> AcceptingRoute(re, nodes, segments)
  {
    if MaySay(re, nodes, segments, true) {
      AcceptanceHasRoute(re, nodes, segments);
    }
    if AcceptingRoute(re, nodes, segments) {
      var keys, at, key :|
        Route(re, nodes, keys, segments, at) && |keys| <= |segments| && Ends(re, at, key, segments[|keys|..]);
      ChosenSays(re, at, key, segments[|keys|..], true);
      RouteSays(re, nodes, keys, segments, at, true);
    }
  }

  ghost predicate DisagreeingRoute(re: Regex, nodes: Children, segments: seq<string>) {
    exists keys, at, j, k ::
      Route(re, nodes, keys, segments, at) && |keys| <= |segments| && Disagree(re, at, j, k, segments[|keys|..])
  }

  lemma {:induction false} NodeSaysBoth(re: Regex, node: ChartNode, remaining: seq<string>)
    requires NodeMaySay(re, node, remaining, true) && NodeMaySay(re, node, remaining, false)
    ensures MaySay(re, node.children, remaining, true) && MaySay(re, node.children, remaining, false)
  {
  }

  lemma {:induction false} BothHaveRoute(re: Regex, nodes: Children, segments: seq<string>)
    requires MaySay(re, nodes, segments, true) && MaySay(re, nodes, segments, false)
    ensures DisagreeingRoute(re, nodes, segments)
    decreases |segments|
  {
    var j :| Chosen(re, nodes, j, segments[0]) && NodeMaySay(re, nodes[j], segments[1..], true);
    var k :| Chosen(re, nodes, k, segments[0]) && NodeMaySay(re, nodes[k], segments[1..], false);
    if j != k {
      var none: seq<string> := [];
      assert segments[|none|..] == segments;
      assert Route(re, nodes, none, segments, nodes) && Disagree(re, nodes, j, k, segments[|none|..]);
    } else {
      assert Chosen(re, nodes, j, segments[0]);
      NodeSaysBoth(re, nodes[j], segments[1..]);
      BothHaveRoute(re, nodes[j].children, segments[1..]);
      var keys, at, j', k' :|
        Route(re, nodes[j].children, keys, segments[1..], at) && |keys| <= |segments[1..]|
        && Disagree(re, at, j', k', segments[1..][|keys|..]);
      RouteOneLonger(re, nodes, j, keys, segments, at);
      assert Disagree(re, at, j', k', segments[|[j] + keys|..]);
    }
  }

  /** The order decides exactly when a route comes to a node two of whose chosen children disagree. */
  lemma {:induction false} OrderDecidesIff(re: Regex, nodes: Children, segments: seq<string>)
    ensures MaySay(re, nodes, segments, true) && MaySay(re, nodes, segments, false) <==> DisagreeingRoute(re, nodes, segments)
  {
    if MaySay(re, nodes, segments, true) && MaySay(re, nodes, segments, false) {
      BothHaveRoute(re, nodes, segments);
    }
    if DisagreeingRoute(re, nodes, segments) {
      var keys, at, j, k :|
        Route(re, nodes, keys, segments, at) && |keys| <= |segments| && Disagree(re, at, j, k, segments[|keys|..]);
      ChosenSays(re, at, j, segments[|keys|..], true);
      ChosenSays(re, at, k, segments[|keys|..], false);
      RouteSays(re, nodes, keys, segments, at, true);
      RouteSays(re, nodes, keys, segments, at, false);
    }
  }

  /** Two variable children: the verdict depends on which is visited first. */
  lemma {:induction false} OrderCanDecide(re: Regex)
    ensures exists nodes, segments :: MaySay(re, nodes, segments, true) && MaySay(re, nodes, segments, false)
  {
    var leaf := ChartNode(map[], None, true);
    var x, y := ChartNode(map["a" := leaf], None, false), ChartNode(map["b" := leaf], None, false);
    var nodes: Children := map["$x" := x, "$y" := y];
    var segments := ["user", "a"];
    assert segments[1..] == ["a"] && ["a"][1..] == [];
    assert NodeMaySay(re, leaf, [], true);
    assert NodeMaySay(re, x, ["a"], true) by {
      assert MaySay(re, x.children, ["a"], true);
    }
    assert NodeMaySay(re, y, ["a"], false) by {
      assert "a" !in y.children && MaySay(re, y.children, ["a"], false);
    }
    assert Admits(re, "$x", nodes["$x"], "user") && Admits(re, "$y", nodes["$y"], "user");
    assert MaySay(re, nodes, segments, true) && MaySay(re, nodes, segments, false);
  }

  /** A literal child hides a variable one: a path exists and every order rejects. */
  lemma {:induction false} LiteralHidesVariable(re: Regex)
    ensures exists nodes, segments :: HasPath(re, nodes, segments) && !MaySay(re, nodes, segments, true)
  {
    var leaf := ChartNode(map[], None, true);
    var x, y := ChartNode(map["a" := leaf], None, false), ChartNode(map["b" := leaf], None, false);
    var nodes: Children := map["user" := x, "$y" := y];
    var segments := ["user", "b"];
    assert segments[1..] == ["b"] && ["$y", "b"][1..] == ["b"];
    assert Leads(re, y.children, ["b"], ["b"]);
    assert Leads(re, nodes, ["$y", "b"], segments);
    assert "b" !in x.children && !MaySay(re, x.children, ["b"], true);
    assert HasPath(re, nodes, segments) && !MaySay(re, nodes, segments, true);
  }
}

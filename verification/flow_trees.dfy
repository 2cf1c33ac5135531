/** Tree-shaped graphs: unique paths, and the links a node goes along whatever its task does. */
module FlowTrees {
  import opened FlowSpec

  predicate LinkAt(g: Graph, m: string, i: int, n: string) {
    m in g.nodes && 0 <= i < |g.nodes[m].next| && g.nodes[m].next[i].next == n
  }

  ghost predicate Child(g: Graph, m: string, n: string) {
    n in g.nodes && exists i :: LinkAt(g, m, i, n)
  }

  /** The start has no incoming link, every other node at most one, and no gateway is a loop. */
  ghost predicate TreeShaped(g: Graph) {
    && WellFormed(g)
    && (forall m, i :: !LinkAt(g, m, i, g.start))
    && (forall n, m, i, m', i' | n in g.nodes && LinkAt(g, m, i, n) && LinkAt(g, m', i', n) :: m == m' && i == i')
    && (forall n <- g.nodes :: !g.nodes[n].typ.Loop? && g.nodes[n].incoming <= 1)
  }

  /** Conditions that no task can change and that never fail to run. */
  ghost predicate FixedConditions(w: World) {
    forall c: string, ctx: Ctx :: w.cond(c, ctx) == w.cond(c, map[]) && !w.cond(c, ctx).CondError?
  }

  // ---- paths from the start ----

  ghost predicate IsPath(g: Graph, p: seq<string>) {
    && |p| > 0 && p[|p| - 1] in g.nodes
    && if |p| == 1 then p[0] == g.start
       else IsPath(g, p[..|p| - 1]) && Child(g, p[|p| - 2], p[|p| - 1])
  }

  lemma {:induction false} UniquePath(g: Graph, p: seq<string>, q: seq<string>)
    requires TreeShaped(g) && IsPath(g, p) && IsPath(g, q) && p[|p| - 1] == q[|q| - 1]
    ensures p == q
  {
    if |p| > 1 && |q| > 1 {
      UniquePath(g, p[..|p| - 1], q[..|q| - 1]);
      assert p == p[..|p| - 1] + [p[|p| - 1]] && q == q[..|q| - 1] + [q[|q| - 1]];
    }
  }

  lemma {:induction false} PathPrefix(g: Graph, p: seq<string>, i: nat)
    requires IsPath(g, p) && 0 < i <= |p|
    ensures IsPath(g, p[..i])
    decreases |p|
  {
    if i < |p| {
      PathPrefix(g, p[..|p| - 1], i);
      assert p[..|p| - 1][..i] == p[..i];
    } else {
      assert p[..i] == p;
    }
  }

  function Members(p: seq<string>): set<string> {
    set x | x in p
  }

  lemma {:induction false} PathLength(g: Graph, p: seq<string>)
    requires TreeShaped(g) && IsPath(g, p)
    ensures Members(p) <= g.nodes.Keys && |Members(p)| == |p| && |p| <= |g.nodes|
  {
    var last := p[|p| - 1];
    if |p| == 1 {
      assert Members(p) == {last};
    } else {
      var q := p[..|p| - 1];
      PathLength(g, q);
      NoRepeat(g, p);
      assert p == q + [last];
      assert Members(p) == Members(q) + {last};
    }
    Fewer(Members(p), g.nodes.Keys);
  }

  lemma NoRepeat(g: Graph, p: seq<string>)
    requires TreeShaped(g) && IsPath(g, p)
    ensures p[|p| - 1] !in p[..|p| - 1]
  {
    if i :| 0 <= i < |p| - 1 && p[i] == p[|p| - 1] {
      PathPrefix(g, p, i + 1);
      UniquePath(g, p[..i + 1], p);
    }
  }

  lemma {:induction false} Fewer(a: set<string>, b: set<string>)
    requires a <= b
    ensures |a| <= |b|
  {
    if a != {} {
      var x :| x in a;
      Fewer(a - {x}, b - {x});
    }
  }

  // ---- the links a node goes along ----

  /** A node goes along these links unless its task or a callback ends the branch. */
  function Along(w: World, g: Graph, n: Node): seq<Link> {
    var s := Begin(map[], Trace(false, "", map[]), 0);
    match n.typ
    case Start => n.next
    case Activity => n.next
    case Exclusive => (match Choose(w, n.next, None, s) case Take(next) => Always([next]) case _ => [])
    case Inclusive => (match Matching(w, n.next, s) case Some(nodes) => Always(nodes) case None => [])
    case Parallel => Always(NextNodes(g, n.next))
    case _ => []
  }

  lemma {:induction false} ChooseFixed(w: World, links: seq<Link>, def: Option<string>, s: State, s': State)
    requires FixedConditions(w)
    ensures Choose(w, links, def, s) == Choose(w, links, def, s') && !Choose(w, links, def, s).Error?
  {
    if links != [] {
      assert w.cond(links[0].when, s.ctx) == w.cond(links[0].when, s'.ctx);
      ChooseFixed(w, links[1..], if links[0].when == "" then Some(links[0].next) else def, s, s');
    }
  }

  lemma {:induction false} MatchingFixed(w: World, links: seq<Link>, s: State, s': State)
    requires FixedConditions(w)
    ensures Matching(w, links, s) == Matching(w, links, s') && Matching(w, links, s).Some?
  {
    if links != [] {
      assert w.cond(links[0].when, s.ctx) == w.cond(links[0].when, s'.ctx);
      MatchingFixed(w, links[1..], s, s');
    }
  }

  /** Distinct children of n. */
  ghost predicate Kids(g: Graph, n: string, links: seq<Link>) {
    && (forall i | 0 <= i < |links| && links[i].next in g.nodes :: Child(g, n, links[i].next))
    && (forall i, j | 0 <= i < j < |links| && links[i].next in g.nodes :: links[i].next != links[j].next)
  }

  ghost predicate TargetFrom(g: Graph, n: string, i: nat, x: string) {
    exists j :: j >= i && LinkAt(g, n, j, x)
  }

  /** Targets of n's links from position i on, each at most once. */
  ghost predicate Targets(g: Graph, n: string, i: nat, nodes: seq<string>) {
    && (forall k | 0 <= k < |nodes| :: TargetFrom(g, n, i, nodes[k]))
    && (forall k, l | 0 <= k < l < |nodes| && nodes[k] in g.nodes :: nodes[k] != nodes[l])
  }

  lemma TargetsMore(g: Graph, n: string, i: nat, nodes: seq<string>)
    requires TreeShaped(g) && n in g.nodes && i < |g.nodes[n].next| && Targets(g, n, i + 1, nodes)
    ensures Targets(g, n, i, nodes) && Targets(g, n, i, [g.nodes[n].next[i].next] + nodes)
  {
    var a := g.nodes[n].next[i].next;
    assert LinkAt(g, n, i, a);
    forall k | 0 <= k < |nodes|
      ensures TargetFrom(g, n, i, nodes[k]) && (a in g.nodes ==> nodes[k] != a)
    {
      var j :| j >= i + 1 && LinkAt(g, n, j, nodes[k]);
    }
    assert Targets(g, n, i, nodes);
    var all := [a] + nodes;
    assert forall k | 0 < k < |all| :: all[k] == nodes[k - 1];
  }

  lemma {:induction false} NextTargets(w: World, g: Graph, n: string, i: nat, s: State)
    requires TreeShaped(g) && FixedConditions(w) && n in g.nodes && i <= |g.nodes[n].next|
    ensures var links := g.nodes[n].next[i..];
      && Targets(g, n, i, NextNodes(g, links))
      && Matching(w, links, s).Some? && Targets(g, n, i, Matching(w, links, s).value)
    decreases |g.nodes[n].next| - i
  {
    var links := g.nodes[n].next[i..];
    MatchingFixed(w, links, s, s);
    if i < |g.nodes[n].next| {
      assert links[0] == g.nodes[n].next[i] && links[1..] == g.nodes[n].next[i + 1..];
      NextTargets(w, g, n, i + 1, s);
      MatchingFixed(w, links[1..], s, s);
      TargetsMore(g, n, i, NextNodes(g, links[1..]));
      TargetsMore(g, n, i, Matching(w, links[1..], s).value);
      assert NextNodes(g, links) ==
        (if links[0].next in g.nodes then [links[0].next] else []) + NextNodes(g, links[1..]);
    }
  }

  lemma {:induction false} ChosenTarget(w: World, links: seq<Link>, def: Option<string>, s: State)
    ensures var c := Choose(w, links, def, s);
      c.Take? ==> def == Some(c.next) || exists i :: 0 <= i < |links| && links[i].next == c.next
  {
    if links != [] {
      var d := if links[0].when == "" then Some(links[0].next) else def;
      ChosenTarget(w, links[1..], d, s);
      assert forall i | 0 <= i < |links| - 1 :: links[1..][i] == links[i + 1];
      assert links[0].next == links[0].next;
    }
  }

  lemma AlongKids(w: World, g: Graph, n: string)
    requires TreeShaped(g) && FixedConditions(w) && n in g.nodes
    ensures Kids(g, n, Along(w, g, g.nodes[n]))
  {
    var nd := g.nodes[n];
    var s := Begin(map[], Trace(false, "", map[]), 0);
    NextTargets(w, g, n, 0, s);
    assert nd.next[0..] == nd.next;
    ChosenTarget(w, nd.next, None, s);
    assert forall i | 0 <= i < |nd.next| :: LinkAt(g, n, i, nd.next[i].next);
    var c := Choose(w, nd.next, None, s);
    if c.Take? {
      var i :| 0 <= i < |nd.next| && nd.next[i].next == c.next;
      assert LinkAt(g, n, i, c.next);
    }
  }

  // ---- plans on trees ----

  /** A plan is done or goes along the node's links; in the resume mode it always goes along them. */
  predicate PlanAlong(w: World, g: Graph, n: Node, s: State) {
    var p := PlanOf(w, g, n, s);
    && !p.Iterate?
    && (p.FanOut? ==> p.links == Along(w, g, n))
    && (p.Done? && s.reverting ==> Along(w, g, n) == [])
  }

  /** A node that is not a loop and never waits. */
  predicate Treelike(n: Node) {
    !n.typ.Loop? && n.incoming <= 1
  }

  lemma ChoiceAlong(w: World, g: Graph, n: Node, s: State, t: Exec)
    requires FixedConditions(w) && (s.reverting ==> t.go)
    ensures n.typ.Exclusive? ==>
      var p := PlanChoice(w, n, t);
      && !p.Iterate?
      && (p.FanOut? ==> p.links == Along(w, g, n))
      && (p.Done? && s.reverting ==> Along(w, g, n) == [])
    ensures n.typ.Inclusive? ==>
      var p := PlanMatching(w, n, t);
      && !p.Iterate?
      && (p.FanOut? ==> p.links == Along(w, g, n))
      && (p.Done? && s.reverting ==> Along(w, g, n) == [])
  {
    var s0 := Begin(map[], Trace(false, "", map[]), 0);
    ChooseFixed(w, n.next, None, t.s, s0);
    MatchingFixed(w, n.next, t.s, s0);
  }

  lemma RevertGoesOn(w: World, n: Node, s: State)
    ensures s.reverting ==> TaskExec(w, n, s).go && Callbacks(w, n, s).go
  {
  }

  lemma PlanGoesAlong(w: World, g: Graph, n: Node, s: State)
    requires FixedConditions(w) && Treelike(n)
    ensures PlanAlong(w, g, n, s)
  {
    hide FixedConditions, PlanChoice, PlanMatching, NextNodes, Matching, Choose, TaskExec, Callbacks, Always, ArriveAt,
      FireJoin;
    RevertGoesOn(w, n, s);
    if n.typ.Exclusive? || n.typ.Inclusive? {
      ChoiceAlong(w, g, n, s, TaskExec(w, n, s));
    } else if n.typ.Parallel? {
      NeverWaits(n, s);
      RevertGoesOn(w, n, ArriveAt(n.id, s));
    }
  }

  lemma NeverWaits(n: Node, s: State)
    requires Treelike(n)
    ensures n.incoming <= CountOf(ArriveAt(n.id, s).temp, n.id) && ArriveAt(n.id, s).reverting == s.reverting
  {
  }
}

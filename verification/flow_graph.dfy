/** flow/graph.go: a graph built from its node specs, with the links into each node and its start. */
module FlowGraph {
  import opened FlowSpec

  datatype LinkSpec = LinkSpec(next: string, when: string, priority: int)

  datatype NodeSpec = NodeSpec(id: string, typ: NodeType, when: string, forKey: string, source: InSpec,
      links: seq<LinkSpec>)

  /** No two specs have one id. */
  predicate Distinct(specs: seq<NodeSpec>) {
    forall i, j | 0 <= i < j < |specs| :: specs[i].id != specs[j].id
  }

  // ---- links ----

  /** A list and its rearrangement by descending priority in which equal priorities keep their order. */
  function Insert(l: LinkSpec, ls: seq<LinkSpec>): seq<LinkSpec> {
    if ls == [] || ls[|ls| - 1].priority >= l.priority then ls + [l]
    else Insert(l, ls[..|ls| - 1]) + [ls[|ls| - 1]]
  }

  function Sorted(ls: seq<LinkSpec>): seq<LinkSpec> {
    if ls == [] then [] else Insert(ls[|ls| - 1], Sorted(ls[..|ls| - 1]))
  }

  predicate Descending(ls: seq<LinkSpec>) {
    forall i, j | 0 <= i < j < |ls| :: ls[i].priority >= ls[j].priority
  }

  /** The links of one priority, in their order. */
  function Level(ls: seq<LinkSpec>, p: int): seq<LinkSpec> {
    if ls == [] then []
    else Level(ls[..|ls| - 1], p) + if ls[|ls| - 1].priority == p then [ls[|ls| - 1]] else []
  }

  lemma LevelOne(ls: seq<LinkSpec>, l: LinkSpec, p: int)
    ensures Level(ls + [l], p) == Level(ls, p) + if l.priority == p then [l] else []
  {
    assert (ls + [l])[..|ls|] == ls;
  }

  lemma {:induction false} InsertKeeps(l: LinkSpec, ls: seq<LinkSpec>)
    requires Descending(ls)
    ensures var r := Insert(l, ls); Descending(r) && |r| == |ls| + 1 && forall x | x in r :: x == l || x in ls
  {
    if ls != [] && ls[|ls| - 1].priority < l.priority {
      var init, last := ls[..|ls| - 1], ls[|ls| - 1];
      InsertKeeps(l, init);
      var r := Insert(l, init);
      assert forall i | 0 <= i < |r| :: r[i] in r && (r[i] == l || r[i] in init);
    }
  }

  lemma {:induction false} InsertLevel(l: LinkSpec, ls: seq<LinkSpec>, p: int)
    ensures Level(Insert(l, ls), p) == Level(ls, p) + if l.priority == p then [l] else []
  {
    if ls == [] || ls[|ls| - 1].priority >= l.priority {
      LevelOne(ls, l, p);
    } else {
      var init, last := ls[..|ls| - 1], ls[|ls| - 1];
      InsertLevel(l, init, p);
      LevelOne(Insert(l, init), last, p);
    }
  }

  /** Sorting is by descending priority and stable: each priority keeps its links in their order. */
  lemma {:induction false} SortedIs(ls: seq<LinkSpec>, p: int)
    ensures Descending(Sorted(ls)) && |Sorted(ls)| == |ls| && Level(Sorted(ls), p) == Level(ls, p)
  {
    if ls != [] {
      var init := ls[..|ls| - 1];
      SortedIs(init, p);
      InsertKeeps(ls[|ls| - 1], Sorted(init));
      InsertLevel(ls[|ls| - 1], Sorted(init), p);
    }
  }

  /** The link at position i sinks below the links before it that have a lower priority. */
  method SinkLink(a: array<LinkSpec>, i: nat)
    requires i < a.Length
    modifies a
    ensures a[..i + 1] == Insert(old(a[i]), old(a[..i])) && a[i + 1..] == old(a[i + 1..])
  {
    hide Insert, Sunk;
    ghost var before, l, rest := a[..i], a[i], a[i + 1..];
    var j := i;
    assert before[..i] == before;
    assert Sunk(a[..], before, l, rest, i) by { SinkStart(a[..], i); }
    while j > 0 && a[j].priority > a[j - 1].priority
      invariant 0 <= j <= i && |before| == i && |rest| == a.Length - i - 1 && Sunk(a[..], before, l, rest, j)
      invariant Insert(l, before) == Insert(l, before[..j]) + before[j..]
    {
      SunkAt(a[..], before, l, rest, j);
      InsertStep(l, before, j);
      ghost var was := a[..];
      a[j], a[j - 1] := a[j - 1], a[j];
      SinkOne(was, before, l, rest, j);
      assert a[..] == was[j := was[j - 1]][j - 1 := was[j]];
      j := j - 1;
    }
    SunkAt(a[..], before, l, rest, j);
    InsertEnd(l, before, j);
    SinkEnd(a[..], before, l, rest, j);
  }

  /** The link has sunk to position j among the links before it. */
  predicate Sunk(s: seq<LinkSpec>, before: seq<LinkSpec>, l: LinkSpec, rest: seq<LinkSpec>, j: nat) {
    j <= |before| && s == before[..j] + [l] + before[j..] + rest
  }

  lemma SinkStart(s: seq<LinkSpec>, i: nat)
    requires i < |s|
    ensures Sunk(s, s[..i], s[i], s[i + 1..], i)
  {
  }

  lemma SunkAt(s: seq<LinkSpec>, before: seq<LinkSpec>, l: LinkSpec, rest: seq<LinkSpec>, j: nat)
    requires Sunk(s, before, l, rest, j)
    ensures j <= |before| && |s| == |before| + 1 + |rest| && s[j] == l && (j > 0 ==> s[j - 1] == before[j - 1])
  {
  }

  lemma SinkOne(s: seq<LinkSpec>, before: seq<LinkSpec>, l: LinkSpec, rest: seq<LinkSpec>, j: nat)
    requires Sunk(s, before, l, rest, j) && j > 0 && j < |s|
    ensures Sunk(s[j := s[j - 1]][j - 1 := s[j]], before, l, rest, j - 1)
  {
  }

  lemma SinkEnd(s: seq<LinkSpec>, before: seq<LinkSpec>, l: LinkSpec, rest: seq<LinkSpec>, j: nat)
    requires Sunk(s, before, l, rest, j)
    ensures |before| < |s| && s[..|before| + 1] == before[..j] + [l] + before[j..] && s[|before| + 1..] == rest
  {
  }

  lemma InsertStep(l: LinkSpec, ls: seq<LinkSpec>, j: nat)
    requires 0 < j <= |ls| && ls[j - 1].priority < l.priority
    ensures Insert(l, ls[..j]) + ls[j..] == Insert(l, ls[..j - 1]) + ls[j - 1..]
  {
    assert ls[..j][..j - 1] == ls[..j - 1];
    assert ls[j - 1..] == [ls[j - 1]] + ls[j..];
  }

  lemma InsertEnd(l: LinkSpec, ls: seq<LinkSpec>, j: nat)
    requires j <= |ls| && (j > 0 ==> ls[j - 1].priority >= l.priority)
    ensures Insert(l, ls[..j]) + ls[j..] == ls[..j] + [l] + ls[j..]
  {
  }

  /** The insertion sort of the links, in place. */
  method SortLinks(a: array<LinkSpec>)
    modifies a
    ensures a[..] == Sorted(old(a[..]))
  {
    hide Insert;
    ghost var was := a[..];
    var i := 0;
    while i < a.Length
      invariant 0 <= i <= a.Length && a[..i] == Sorted(was[..i]) && a[i..] == was[i..]
    {
      assert a[i] == a[i..][0] == was[i] && a[i + 1..] == a[i..][1..] == was[i + 1..];
      assert was[..i + 1][..i] == was[..i];
      SinkLink(a, i);
      i := i + 1;
    }
    assert was[..a.Length] == was;
  }

  // ---- the graph ----

  /** How many links lead to a node. */
  function CountTo(ls: seq<LinkSpec>, id: string): nat {
    if ls == [] then 0 else CountTo(ls[..|ls| - 1], id) + if ls[|ls| - 1].next == id then 1 else 0
  }

  function AllLinks(specs: seq<NodeSpec>): seq<LinkSpec> {
    if specs == [] then [] else AllLinks(specs[..|specs| - 1]) + specs[|specs| - 1].links
  }

  function AsLinks(ls: seq<LinkSpec>): seq<Link> {
    seq(|ls|, i requires 0 <= i < |ls| => Link(ls[i].next, ls[i].when))
  }

  /** A node with its links by descending priority and the number of links into it; a start node has no
      reverse index. */
  function NodeOf(specs: seq<NodeSpec>, s: NodeSpec): Node {
    Node(s.id, s.typ, s.when, s.forKey, s.source, AsLinks(Sorted(s.links)),
         if s.typ.Start? then 0 else CountTo(AllLinks(specs), s.id))
  }

  /** The positions of the links that lead to a node: of which spec, and where among its links. */
  function LinksInto(specs: seq<NodeSpec>, id: string): set<(int, int)> {
    set j, i | 0 <= j < |specs| && 0 <= i < |specs[j].links| && specs[j].links[i].next == id :: (j, i)
  }

  /** The same among the first n links of the j-th spec. */
  function LinksAmong(links: seq<LinkSpec>, n: nat, j: int, id: string): set<(int, int)>
    requires n <= |links|
  {
    set i | 0 <= i < n && links[i].next == id :: (j, i)
  }

  lemma {:induction false} CountAmong(links: seq<LinkSpec>, n: nat, j: int, id: string)
    requires n <= |links|
    ensures CountTo(links[..n], id) == |LinksAmong(links, n, j, id)|
  {
    hide *;
    AmongStep(links, n, j, id);
    CountStep(links, n, id);
    if n > 0 {
      CountAmong(links, n - 1, j, id);
    }
  }

  lemma AmongStep(links: seq<LinkSpec>, n: nat, j: int, id: string)
    requires n <= |links|
    ensures n == 0 ==> LinksAmong(links, n, j, id) == {}
    ensures n > 0 ==>
      |LinksAmong(links, n, j, id)| ==
        |LinksAmong(links, n - 1, j, id)| + if links[n - 1].next == id then 1 else 0
  {
    if n > 0 {
      var before, after := LinksAmong(links, n - 1, j, id), LinksAmong(links, n, j, id);
      forall p: (int, int)
        ensures p in after <==> p in before || (links[n - 1].next == id && p == (j, n - 1))
      {
      }
      assert (j, n - 1) !in before;
      hide LinksAmong;
      assert after == before + if links[n - 1].next == id then {(j, n - 1)} else {};
    }
  }

  lemma CountStep(links: seq<LinkSpec>, n: nat, id: string)
    requires n <= |links|
    ensures n == 0 ==> CountTo(links[..n], id) == 0
    ensures n > 0 ==>
      CountTo(links[..n], id) == CountTo(links[..n - 1], id) + if links[n - 1].next == id then 1 else 0
  {
    if n > 0 {
      assert links[..n][..n - 1] == links[..n - 1];
    }
  }

  lemma {:induction false} CountAppend(a: seq<LinkSpec>, b: seq<LinkSpec>, id: string)
    ensures CountTo(a + b, id) == CountTo(a, id) + CountTo(b, id)
  {
    if b == [] {
      assert a + b == a;
    } else {
      CountAppend(a, b[..|b| - 1], id);
      assert (a + b)[..|a + b| - 1] == a + b[..|b| - 1];
    }
  }

  /** The reverse index of a node has as many links as lead to it. */
  lemma {:induction false} IncomingIs(specs: seq<NodeSpec>, id: string)
    ensures CountTo(AllLinks(specs), id) == |LinksInto(specs, id)|
  {
    hide CountTo;
    if specs == [] {
      CountAmong([], 0, 0, id);
      assert LinksAmong([], 0, 0, id) == {} && LinksInto(specs, id) == {} && [][..0] == AllLinks(specs);
    } else {
      var n := |specs| - 1;
      var init, links := specs[..n], specs[n].links;
      IncomingIs(init, id);
      CountAppend(AllLinks(init), links, id);
      CountAmong(links, |links|, n, id);
      assert links[..|links|] == links;
      var a, b := LinksInto(init, id), LinksAmong(links, |links|, n, id);
      assert forall j | 0 <= j < n :: init[j] == specs[j];
      assert LinksInto(specs, id) == a + b && a * b == {};
    }
  }

  /** What became of the j-th spec. */
  ghost predicate Built(specs: seq<NodeSpec>, j: nat, n: Node)
    requires j < |specs| && |Sorted(specs[j].links)| == |specs[j].links|
  {
    var s := specs[j];
    && n.id == s.id && n.typ == s.typ && n.when == s.when && n.forKey == s.forKey && n.source == s.source
    && |n.next| == |s.links|
    && (forall k | 0 <= k < |n.next| :: n.next[k] == Link(Sorted(s.links)[k].next, Sorted(s.links)[k].when))
    && n.incoming == if s.typ.Start? then 0 else |LinksInto(specs, s.id)|
  }

  lemma NodeIsBuilt(specs: seq<NodeSpec>, j: nat)
    requires j < |specs|
    ensures |Sorted(specs[j].links)| == |specs[j].links| && Built(specs, j, NodeOf(specs, specs[j]))
  {
    hide Sorted, CountTo, AllLinks;
    SortedIs(specs[j].links, 0);
    IncomingIs(specs, specs[j].id);
  }

  /** The last node of start type. */
  ghost predicate LastStart(specs: seq<NodeSpec>, start: string) {
    exists i | 0 <= i < |specs| ::
      specs[i].typ.Start? && specs[i].id == start && forall j | i < j < |specs| :: !specs[j].typ.Start?
  }

  ghost predicate NoStart(specs: seq<NodeSpec>) {
    forall j | 0 <= j < |specs| :: !specs[j].typ.Start?
  }

  /** The first node no link leads to. */
  ghost predicate FirstSource(specs: seq<NodeSpec>, start: string) {
    exists i | 0 <= i < |specs| ::
      LinksInto(specs, specs[i].id) == {} && specs[i].id == start
      && forall j | 0 <= j < i :: LinksInto(specs, specs[j].id) != {}
  }

  ghost predicate NoSource(specs: seq<NodeSpec>) {
    forall j | 0 <= j < |specs| :: LinksInto(specs, specs[j].id) != {}
  }

  /** All specs became nodes, and nothing else. */
  ghost predicate NodesOf(specs: seq<NodeSpec>, nodes: map<string, Node>) {
    && (forall j | 0 <= j < |specs| :: specs[j].id in nodes && nodes[specs[j].id] == NodeOf(specs, specs[j]))
    && (forall n | n in nodes :: exists j :: 0 <= j < |specs| && specs[j].id == n)
  }

  method CollectLinks(specs: seq<NodeSpec>) returns (links: seq<LinkSpec>, start: Option<string>)
    ensures links == AllLinks(specs)
    ensures if start.None? then NoStart(specs) else LastStart(specs, start.value)
  {
    links, start := [], None;
    ghost var at := 0;
    for i := 0 to |specs|
      invariant links == AllLinks(specs[..i])
      invariant start.None? ==> forall j | 0 <= j < i :: !specs[j].typ.Start?
      invariant start.Some? ==> at < i && specs[at].typ.Start? && specs[at].id == start.value
      invariant start.Some? ==> forall j | at < j < i :: !specs[j].typ.Start?
    {
      assert specs[..i + 1][..i] == specs[..i];
      links := links + specs[i].links;
      if specs[i].typ == Start {
        start, at := Some(specs[i].id), i;
      }
    }
    assert specs[..|specs|] == specs;
  }

  method BuildNodes(specs: seq<NodeSpec>, links: seq<LinkSpec>) returns (nodes: map<string, Node>)
    requires Distinct(specs) && links == AllLinks(specs)
    ensures NodesOf(specs, nodes)
  {
    hide CountTo, Sorted, AsLinks, AllLinks;
    nodes := map[];
    for i := 0 to |specs|
      invariant forall j | 0 <= j < i :: specs[j].id in nodes && nodes[specs[j].id] == NodeOf(specs, specs[j])
      invariant forall n | n in nodes :: exists j :: 0 <= j < i && specs[j].id == n
    {
      var s := specs[i];
      var a := new LinkSpec[|s.links|](k requires 0 <= k < |s.links| => s.links[k]);
      assert a[..] == s.links;
      SortLinks(a);
      var incoming := 0;
      if s.typ != Start {
        incoming := CountLinks(links, s.id);
      }
      nodes := nodes[s.id := Node(s.id, s.typ, s.when, s.forKey, s.source, AsLinks(a[..]), incoming)];
    }
  }

  method FindSource(specs: seq<NodeSpec>, nodes: map<string, Node>) returns (start: Option<string>)
    requires NodesOf(specs, nodes) && NoStart(specs)
    ensures if start.None? then NoSource(specs) else FirstSource(specs, start.value)
  {
    hide CountTo, AllLinks, Sorted, AsLinks, LinksInto;
    for i := 0 to |specs|
      invariant forall j | 0 <= j < i :: LinksInto(specs, specs[j].id) != {}
    {
      IncomingIs(specs, specs[i].id);
      assert nodes[specs[i].id].incoming == CountTo(AllLinks(specs), specs[i].id);
      if nodes[specs[i].id].incoming == 0 {
        return Some(specs[i].id);
      }
    }
    return None;
  }

  /** NewGraph: the start is the last node of start type, else the first one no link leads to; without
      one of these there is no graph. */
  method NewGraph(id: string, specs: seq<NodeSpec>) returns (g: Option<Graph>)
    requires Distinct(specs)
    ensures g.None? <==> NoStart(specs) && NoSource(specs)
    ensures g.Some? ==> WellFormed(g.value) && g.value.id == id && NodesOf(specs, g.value.nodes)
    ensures g.Some? ==> forall j | 0 <= j < |specs| ::
      |Sorted(specs[j].links)| == |specs[j].links| && Built(specs, j, g.value.nodes[specs[j].id])
    ensures g.Some? ==> if NoStart(specs) then FirstSource(specs, g.value.start) else LastStart(specs, g.value.start)
  {
    var links, start := CollectLinks(specs);
    var nodes := BuildNodes(specs, links);
    if start.None? {
      start := FindSource(specs, nodes);
    }
    if start.None? {
      return None;
    }
    g := Some(Graph(id, nodes, start.value));
    forall j | 0 <= j < |specs|
      ensures |Sorted(specs[j].links)| == |specs[j].links| && Built(specs, j, nodes[specs[j].id])
    {
      NodeIsBuilt(specs, j);
    }
  }

  method CountLinks(links: seq<LinkSpec>, id: string) returns (n: nat)
    ensures n == CountTo(links, id)
  {
    n := 0;
    for i := 0 to |links|
      invariant n == CountTo(links[..i], id)
    {
      assert links[..i + 1][..i] == links[..i];
      if links[i].next == id {
        n := n + 1;
      }
    }
    assert links[..|links|] == links;
  }
}

/** Radix trees as values: where each node stands, what is registered, and what a step keeps. */
module RouterShape {

  datatype Option<T> = None | Some(value: T)

  /** Where a node stands: its method and the whole path from the root. */
  datatype Place = Place(verb: string, path: string)

  /** Both paths are of one method and the first is a prefix of the second. */
  predicate Leads(a: Place, b: Place) {
    a.verb == b.verb && a.path <= b.path
  }

  function Down(p: Place, path: string): Place {
    Place(p.verb, p.path + path)
  }

  datatype Info<N, H> = Info(path: string, children: seq<N>, handlers: Option<H>, at: Place)

  /** The trees of a router, one root per method, and everything that has been registered. */
  datatype Shape<N(==), H> = Shape(nodes: map<N, Info<N, H>>, roots: map<string, N>, routes: map<Place, Option<H>>)

  function Route<N(==), H>(s: Shape<N, H>, p: Place): Option<H> {
    if p in s.routes then s.routes[p] else None
  }

  // ---- the invariant ----

  /** Children stand below their parent. */
  ghost predicate Linked<N, H>(s: Shape<N, H>, n: N)
    requires n in s.nodes
  {
    forall c | c in s.nodes[n].children ::
      c in s.nodes && s.nodes[c].path != "" && s.nodes[c].at == Down(s.nodes[n].at, s.nodes[c].path)
  }

  /** No two siblings start with the same byte. */
  ghost predicate Branching<N, H>(s: Shape<N, H>, n: N)
    requires n in s.nodes
  {
    forall c, d | c in s.nodes[n].children && d in s.nodes[n].children && c in s.nodes && d in s.nodes ::
      s.nodes[c].path != "" && s.nodes[d].path != "" && s.nodes[c].path[0] == s.nodes[d].path[0] ==> c == d
  }

  /** Whatever stands below n stands below one of its children. */
  ghost predicate Covers<N, H>(s: Shape<N, H>, n: N, x: N)
    requires n in s.nodes && x in s.nodes
  {
    Leads(s.nodes[n].at, s.nodes[x].at) && n != x ==>
      exists c :: c in s.nodes[n].children && c in s.nodes && Leads(s.nodes[c].at, s.nodes[x].at)
  }

  ghost predicate Apart<N, H>(s: Shape<N, H>, n: N, x: N)
    requires n in s.nodes && x in s.nodes
  {
    s.nodes[n].at == s.nodes[x].at ==> n == x
  }

  /** The root of x's method leads to x. */
  ghost predicate Grounded<N, H>(s: Shape<N, H>, x: N)
    requires x in s.nodes
  {
    var v := s.nodes[x].at.verb;
    v in s.roots && s.roots[v] in s.nodes && Leads(s.nodes[s.roots[v]].at, s.nodes[x].at)
  }

  /** A root starts with a slash. */
  ghost predicate Root<N, H>(s: Shape<N, H>, v: string)
    requires v in s.roots
  {
    var r := s.roots[v];
    r in s.nodes && s.nodes[r].at == Place(v, s.nodes[r].path) && s.nodes[r].path != "" && s.nodes[r].path[0] == '/'
  }

  /** n holds what is registered at its place. */
  ghost predicate Holds<N, H>(s: Shape<N, H>, n: N)
    requires n in s.nodes
  {
    s.nodes[n].handlers == Route(s, s.nodes[n].at) && s.nodes[n].path != ""
  }

  ghost predicate Stands<N, H>(s: Shape<N, H>, p: Place) {
    exists x :: x in s.nodes && s.nodes[x].at == p
  }

  ghost predicate Sound<N, H>(s: Shape<N, H>) {
    && (forall n | n in s.nodes :: Linked(s, n) && Branching(s, n) && Grounded(s, n) && Holds(s, n))
    && (forall n, x | n in s.nodes && x in s.nodes :: Covers(s, n, x) && Apart(s, n, x))
    && (forall v | v in s.roots :: Root(s, v))
    && (forall p | p in s.routes :: Stands(s, p))
  }

  // ---- strings ----

  lemma DownLeads(at: Place, rest: string)
    ensures Leads(at, Down(at, rest)) && Leads(Down(at, rest), Down(at, rest))
    ensures rest != "" ==> Down(at, rest) != at
    ensures rest == "" ==> Down(at, rest) == at
  {
    assert |(at.path + rest)| == |at.path| + |rest|;
    assert at.path + "" == at.path;
  }

  lemma DownDown(at: Place, first: string, path: string)
    requires first <= path
    ensures Down(at, path) == Down(Down(at, first), path[|first|..])
  {
    assert path == first + path[|first|..];
    assert at.path + path == (at.path + first) + path[|first|..];
  }

  lemma FirstByte(at: Place, rest: string, target: Place)
    requires rest != "" && Leads(Down(at, rest), target)
    ensures |at.path| < |target.path| && target.path[|at.path|] == rest[0] && Leads(at, target)
  {
    assert target.path[..|at.path + rest|] == at.path + rest;
    assert (at.path + rest)[|at.path|] == rest[0];
    assert at.path == target.path[..|at.path|];
  }

  lemma Strip(at: Place, a: string, b: string)
    ensures Leads(Down(at, a), Down(at, b)) <==> a <= b
  {
    var p := at.path;
    if p + a <= p + b {
      assert (p + b)[|p|..] == b && (p + b)[..|p + a|][|p|..] == b[..|a|];
      assert (p + a)[|p|..] == a;
    }
    if a <= b {
      assert p + b == p + a + b[|a|..];
    }
  }

  lemma LeadsTrans(a: Place, b: Place, c: Place)
    requires Leads(a, b) && Leads(b, c)
    ensures Leads(a, c)
  {
  }

  lemma LeadsAnti(a: Place, b: Place)
    requires Leads(a, b) && Leads(b, a)
    ensures a == b
  {
  }

  /** Two places that lead to a third are in line. */
  lemma InLine(a: Place, b: Place, c: Place)
    requires Leads(a, c) && Leads(b, c)
    ensures Leads(a, b) || Leads(b, a)
  {
  }

  // ---- what soundness says of a node ----

  lemma NodeSound<N, H>(s: Shape<N, H>, n: N)
    requires Sound(s) && n in s.nodes
    ensures Linked(s, n) && Branching(s, n) && Grounded(s, n) && Holds(s, n)
  {
    hide Linked, Branching, Grounded, Holds, Covers, Apart, Root, Stands;
  }

  lemma PairSound<N, H>(s: Shape<N, H>, n: N, x: N)
    requires Sound(s) && n in s.nodes && x in s.nodes
    ensures Covers(s, n, x) && Apart(s, n, x)
  {
    hide Linked, Branching, Grounded, Holds, Covers, Apart, Root, Stands;
  }

  lemma ChildAt<N, H>(s: Shape<N, H>, n: N, c: N)
    requires Sound(s) && n in s.nodes && c in s.nodes[n].children
    ensures c in s.nodes && s.nodes[c].path != "" && s.nodes[c].at == Down(s.nodes[n].at, s.nodes[c].path)
  {
    hide Sound, Down;
    NodeSound(s, n);
  }

  lemma OneChild<N, H>(s: Shape<N, H>, n: N, c: N, d: N)
    requires Sound(s) && n in s.nodes && c in s.nodes[n].children && d in s.nodes[n].children
    requires c in s.nodes && d in s.nodes && s.nodes[c].path != "" && s.nodes[d].path != ""
    requires s.nodes[c].path[0] == s.nodes[d].path[0]
    ensures c == d
  {
    hide Sound, Down;
    NodeSound(s, n);
  }

  lemma ChildToward<N, H>(s: Shape<N, H>, n: N, x: N) returns (c: N)
    requires Sound(s) && n in s.nodes && x in s.nodes && n != x && Leads(s.nodes[n].at, s.nodes[x].at)
    ensures c in s.nodes[n].children && c in s.nodes && Leads(s.nodes[c].at, s.nodes[x].at)
    ensures s.nodes[c].path != "" && s.nodes[c].at == Down(s.nodes[n].at, s.nodes[c].path)
    ensures var at, to := s.nodes[n].at, s.nodes[x].at;
      |at.path| < |to.path| && to.path[|at.path|] == s.nodes[c].path[0]
  {
    hide Sound, Leads, Down;
    PairSound(s, n, x);
    c :| c in s.nodes[n].children && c in s.nodes && Leads(s.nodes[c].at, s.nodes[x].at);
    ChildAt(s, n, c);
    FirstByte(s.nodes[n].at, s.nodes[c].path, s.nodes[x].at);
  }

  /** Nothing is registered where no node stands. */
  lemma NothingThere<N, H>(s: Shape<N, H>, p: Place)
    requires Sound(s) && forall x | x in s.nodes :: s.nodes[x].at != p
    ensures Route(s, p) == None
  {
    hide Linked, Branching, Grounded, Holds, Covers, Apart, Root;
  }

  // ---- looking up ----

  /** If a node stands at the target, it stands at or below n. */
  ghost predicate OnTheWay<N, H>(s: Shape<N, H>, n: N, target: Place)
    requires n in s.nodes
  {
    forall x | x in s.nodes && s.nodes[x].at == target :: Leads(s.nodes[n].at, target)
  }

  lemma OffTheWay<N, H>(s: Shape<N, H>, n: N, target: Place)
    requires Sound(s) && n in s.nodes && OnTheWay(s, n, target) && !Leads(s.nodes[n].at, target)
    ensures Route(s, target) == None
  {
    hide Sound, Route;
    NothingThere(s, target);
  }

  lemma RootOnTheWay<N, H>(s: Shape<N, H>, v: string, path: string)
    requires Sound(s) && v in s.roots
    ensures var r := s.roots[v];
      r in s.nodes && OnTheWay(s, r, Place(v, path)) && s.nodes[r].at == Place(v, s.nodes[r].path)
  {
    hide Linked, Branching, Holds, Covers, Apart, Stands;
    var r := s.roots[v];
    assert Root(s, v);
    forall x | x in s.nodes && s.nodes[x].at == Place(v, path) ensures Leads(s.nodes[r].at, Place(v, path)) {
      NodeSound(s, x);
    }
  }

  lemma NoRoot<N, H>(s: Shape<N, H>, v: string, path: string)
    requires Sound(s) && v !in s.roots
    ensures Route(s, Place(v, path)) == None
  {
    hide Linked, Branching, Holds, Covers, Apart, Stands, Sound, Route;
    forall x | x in s.nodes ensures s.nodes[x].at != Place(v, path) {
      NodeSound(s, x);
    }
    NothingThere(s, Place(v, path));
  }

  /** The child with the right first byte is on the way to the rest. */
  lemma ChildOnTheWay<N, H>(s: Shape<N, H>, n: N, k: N, rest: string)
    requires Sound(s) && n in s.nodes && rest != "" && k in s.nodes[n].children && k in s.nodes && s.nodes[k].path != ""
    requires rest[0] == s.nodes[k].path[0]
    ensures OnTheWay(s, k, Down(s.nodes[n].at, rest))
  {
    hide Sound, Leads, Down;
    var at := s.nodes[n].at;
    var target := Down(at, rest);
    DownLeads(at, rest);
    forall x | x in s.nodes && s.nodes[x].at == target ensures Leads(s.nodes[k].at, target) {
      FirstByte(at, rest, target);
      var c := ChildToward(s, n, x);
      OneChild(s, n, c, k);
    }
  }

  /** No child of n starts with the first byte of the rest. */
  ghost predicate Untaken<N, H>(s: Shape<N, H>, n: N, rest: string)
    requires n in s.nodes && rest != ""
  {
    forall c | c in s.nodes[n].children && c in s.nodes :: s.nodes[c].path == "" || s.nodes[c].path[0] != rest[0]
  }

  lemma NoChild<N, H>(s: Shape<N, H>, n: N, rest: string)
    requires Sound(s) && n in s.nodes && rest != "" && Untaken(s, n, rest)
    ensures Route(s, Down(s.nodes[n].at, rest)) == None
    ensures forall x | x in s.nodes :: !Leads(Down(s.nodes[n].at, rest), s.nodes[x].at)
    ensures forall x | x in s.nodes && Leads(s.nodes[x].at, Down(s.nodes[n].at, rest)) ::
      Leads(s.nodes[x].at, s.nodes[n].at)
  {
    hide Sound, Leads, Down, Route;
    var at := s.nodes[n].at;
    DownLeads(at, rest);
    forall x | x in s.nodes ensures !Leads(Down(at, rest), s.nodes[x].at) {
      if Leads(Down(at, rest), s.nodes[x].at) {
        FirstByte(at, rest, s.nodes[x].at);
        var c := ChildToward(s, n, x);
      }
    }
    forall x | x in s.nodes && Leads(s.nodes[x].at, Down(at, rest)) ensures Leads(s.nodes[x].at, at) {
      InLine(at, s.nodes[x].at, Down(at, rest));
      if Leads(at, s.nodes[x].at) {
        if x != n {
          var c := ChildToward(s, n, x);
          NextByte(at, s.nodes[x].at, rest);
        }
        DownLeads(at, "");
      }
    }
    NothingThere(s, Down(at, rest));
  }

  lemma NextByte(at: Place, mid: Place, rest: string)
    requires rest != "" && Leads(at, mid) && Leads(mid, Down(at, rest)) && |at.path| < |mid.path|
    ensures mid.path[|at.path|] == rest[0]
  {
    assert (at.path + rest)[|at.path|] == rest[0];
  }

  // ---- adding ----

  /** n is where a walk down from base arrived: all that starts like n's path stands below n. */
  ghost predicate Walked<N, H>(s: Shape<N, H>, n: N, base: Place)
    requires n in s.nodes
  {
    && s.nodes[n].path != "" && s.nodes[n].at == Down(base, s.nodes[n].path)
    && forall x | x in s.nodes && Leads(Down(base, s.nodes[n].path[..1]), s.nodes[x].at) ::
         Leads(s.nodes[n].at, s.nodes[x].at)
  }

  lemma WalkedRoot<N, H>(s: Shape<N, H>, v: string)
    requires Sound(s) && v in s.roots && s.roots[v] in s.nodes && s.nodes[s.roots[v]].path != ""
    ensures Walked(s, s.roots[v], Place(v, ""))
  {
    hide Linked, Branching, Holds, Covers, Apart, Stands, Sound;
    RootOnTheWay(s, v, "");
    var r := s.roots[v];
    assert "" + s.nodes[r].path == s.nodes[r].path;
    forall x | x in s.nodes && Leads(Down(Place(v, ""), s.nodes[r].path[..1]), s.nodes[x].at)
      ensures Leads(s.nodes[r].at, s.nodes[x].at)
    {
      NodeSound(s, x);
    }
  }

  lemma WalkedChild<N, H>(s: Shape<N, H>, n: N, c: N)
    requires Sound(s) && n in s.nodes && c in s.nodes[n].children && c in s.nodes
    ensures Walked(s, c, s.nodes[n].at)
  {
    hide Sound, Leads, Down;
    ChildAt(s, n, c);
    var at, first := s.nodes[n].at, s.nodes[c].path[..1];
    forall x | x in s.nodes && Leads(Down(at, first), s.nodes[x].at) ensures Leads(s.nodes[c].at, s.nodes[x].at) {
      FirstByte(at, first, s.nodes[x].at);
      var d := ChildToward(s, n, x);
      OneChild(s, n, c, d);
    }
  }

  /** n keeps the first i bytes of its path; a new child takes over the rest and all n had. */
  function Split<N(==), H>(s: Shape<N, H>, n: N, i: nat, child: N): Shape<N, H>
    requires n in s.nodes && i <= |s.nodes[n].path|
  {
    var o := s.nodes[n];
    var base := Place(o.at.verb, if |o.at.path| >= |o.path| then o.at.path[..|o.at.path| - |o.path|] else "");
    s.(nodes := s.nodes[child := Info(o.path[i..], o.children, o.handlers, o.at)]
                       [n := Info(o.path[..i], [child], None, Down(base, o.path[..i]))])
  }

  /** r is s with n split at i, seen from the base of n. */
  ghost predicate IsSplit<N, H>(s: Shape<N, H>, r: Shape<N, H>, n: N, i: nat, child: N, base: Place) {
    && Sound(s) && n in s.nodes && 0 < i < |s.nodes[n].path| && Walked(s, n, base) && child !in s.nodes
    && r.nodes.Keys == s.nodes.Keys + {child} && r.roots == s.roots && r.routes == s.routes
    && (var o, cut := s.nodes[n], Down(base, s.nodes[n].path[..i]);
        && r.nodes[n] == Info(o.path[..i], [child], None, cut)
        && r.nodes[child] == Info(o.path[i..], o.children, o.handlers, o.at)
        && o.at == Down(cut, o.path[i..]) && Leads(cut, o.at) && Leads(base, cut) && !Leads(o.at, cut))
    && (forall x | x in s.nodes && x != n :: r.nodes[x] == s.nodes[x])
  }

  lemma SplitParts<N, H>(s: Shape<N, H>, n: N, i: nat, child: N, base: Place)
    requires Sound(s) && n in s.nodes && 0 < i < |s.nodes[n].path| && Walked(s, n, base) && child !in s.nodes
    ensures IsSplit(s, Split(s, n, i, child), n, i, child, base)
  {
    hide Sound;
    var o := s.nodes[n];
    assert (base.path + o.path)[..|base.path|] == base.path;
    DownDown(base, o.path[..i], o.path);
    DownLeads(Down(base, o.path[..i]), o.path[i..]);
    DownLeads(base, o.path[..i]);
    Shorter(base, o.path, i);
  }

  /** Nothing stands strictly between the base and n, nor where n stands after a split. */
  lemma NothingBetween<N, H>(s: Shape<N, H>, n: N, base: Place, i: nat, x: N)
    requires n in s.nodes && 0 < i < |s.nodes[n].path| && Walked(s, n, base) && x in s.nodes
    ensures s.nodes[x].at != Down(base, s.nodes[n].path[..i])
    ensures Leads(Down(base, s.nodes[n].path[..i]), s.nodes[x].at) ==> Leads(s.nodes[n].at, s.nodes[x].at)
    ensures Leads(s.nodes[x].at, s.nodes[n].at) && x != n && s.nodes[x].at != s.nodes[n].at ==>
      Leads(s.nodes[x].at, base)
  {
    hide Leads, Down;
    var o, at := s.nodes[n], s.nodes[x].at;
    var cut, first := Down(base, o.path[..i]), Down(base, o.path[..1]);
    assert o.path[..1] <= o.path[..i];
    Strip(base, o.path[..1], o.path[..i]);
    if Leads(cut, at) {
      LeadsTrans(first, cut, at);
      if at == cut {
        Shorter(base, o.path, i);
      }
    }
    DownLeads(base, o.path[..i]);
    if Leads(at, o.at) && !Leads(at, base) {
      DownLeads(base, o.path);
      InLine(at, base, o.at);
      Between(base, at, o.path);
      LeadsAnti(at, o.at);
    }
  }

  lemma Shorter(base: Place, path: string, i: nat)
    requires i < |path|
    ensures !Leads(Down(base, path), Down(base, path[..i]))
  {
  }

  lemma Between(base: Place, at: Place, path: string)
    requires Leads(base, at) && !Leads(at, base) && Leads(at, Down(base, path)) && path != ""
    ensures Leads(Down(base, path[..1]), at)
  {
    var k := |at.path|;
    assert at.path == (base.path + path)[..k];
    assert k > |base.path|;
    assert at.path[..|base.path| + 1] == base.path + path[..1];
  }

  lemma SplitNode<N, H>(s: Shape<N, H>, r: Shape<N, H>, n: N, i: nat, child: N, base: Place, y: N)
    requires IsSplit(s, r, n, i, child, base) && y in r.nodes
    ensures Linked(r, y) && Branching(r, y)
  {
    hide Sound, Leads, Down, Walked;
    var o := s.nodes[n];
    NodeSound(s, n);
    assert n !in o.children by {
      if n in o.children { ChildAt(s, n, n); DownLeads(o.at, o.path); }
    }
    if y != n && y != child {
      NodeSound(s, y);
      if n in s.nodes[y].children {
        ChildAt(s, y, n);
        SameBase(s, n, base, s.nodes[y].at);
      }
    }
  }

  lemma SameBase<N, H>(s: Shape<N, H>, n: N, base: Place, at: Place)
    requires n in s.nodes && Walked(s, n, base) && s.nodes[n].at == Down(at, s.nodes[n].path)
    ensures at == base
  {
    var path := s.nodes[n].path;
    assert |base.path + path| == |at.path + path|;
    assert (base.path + path)[..|base.path|] == (at.path + path)[..|at.path|];
    assert (base.path + path)[..|base.path|] == base.path && (at.path + path)[..|at.path|] == at.path;
  }

  lemma SplitCovers<N, H>(s: Shape<N, H>, r: Shape<N, H>, n: N, i: nat, child: N, base: Place, y: N, x: N)
    requires IsSplit(s, r, n, i, child, base) && y in r.nodes && x in r.nodes
    ensures Covers(r, y, x)
  {
    hide Sound, Leads, Down, Walked;
    var o, cut := s.nodes[n], r.nodes[n].at;
    if Leads(r.nodes[y].at, r.nodes[x].at) && y != x {
      if y == n {
        if x != child { NothingBetween(s, n, base, i, x); }
        DownLeads(o.at, "");
        assert Leads(r.nodes[child].at, r.nodes[x].at);
      } else if y == child {
        if x == n { assert false; }
        var c := ChildToward(s, n, x);
        NotOwnChild(s, n);
        assert c in r.nodes[y].children && Leads(r.nodes[c].at, r.nodes[x].at);
      } else {
        var z := if x == child || x == n then n else x;
        if x == n { LeadsTrans(s.nodes[y].at, cut, o.at); }
        var c := ChildToward(s, y, z);
        if c == n {
          if x == n { DownLeads(cut, ""); } else { LeadsTrans(cut, o.at, r.nodes[x].at); }
        } else if x == n {
          NothingBetween(s, n, base, i, c);
          PairSound(s, n, c);
          LeadsTrans(s.nodes[c].at, base, cut);
        }
        assert c in r.nodes[y].children && Leads(r.nodes[c].at, r.nodes[x].at);
      }
    }
  }

  lemma NotOwnChild<N, H>(s: Shape<N, H>, n: N)
    requires Sound(s) && n in s.nodes
    ensures n !in s.nodes[n].children
  {
    hide Sound;
    if n in s.nodes[n].children {
      ChildAt(s, n, n);
      DownLeads(s.nodes[n].at, s.nodes[n].path);
    }
  }

  lemma SplitApart<N, H>(s: Shape<N, H>, r: Shape<N, H>, n: N, i: nat, child: N, base: Place, y: N, x: N)
    requires IsSplit(s, r, n, i, child, base) && y in r.nodes && x in r.nodes
    ensures Apart(r, y, x)
  {
    hide Sound, Leads, Down, Walked;
    DownLeads(s.nodes[n].at, "");
    if y in s.nodes {
      NothingBetween(s, n, base, i, y);
      PairSound(s, n, y);
    }
    if x in s.nodes {
      NothingBetween(s, n, base, i, x);
      PairSound(s, n, x);
    }
    if x in s.nodes && y in s.nodes {
      PairSound(s, y, x);
    }
  }

  lemma SplitGrounded<N, H>(s: Shape<N, H>, r: Shape<N, H>, n: N, i: nat, child: N, base: Place, x: N)
    requires IsSplit(s, r, n, i, child, base) && x in r.nodes
    ensures Grounded(r, x) && Holds(r, x)
  {
    hide Sound, Leads, Walked, Down;
    var o, cut := s.nodes[n], r.nodes[n].at;
    NodeSound(s, n);
    SameVerb(cut, o.at);
    var z := if x == child then n else x;
    NodeSound(s, z);
    var root := s.roots[s.nodes[z].at.verb];
    if root == n {
      LeadsTrans(cut, o.at, s.nodes[z].at);
      DownLeads(cut, "");
    } else if x == n {
      PairSound(s, n, root);
      NothingBetween(s, n, base, i, root);
      LeadsTrans(s.nodes[root].at, base, cut);
    }
    if x == n {
      NothingCut(s, n, base, i);
    }
  }

  lemma SameVerb(a: Place, b: Place)
    requires Leads(a, b)
    ensures a.verb == b.verb
  {
  }

  lemma NothingCut<N, H>(s: Shape<N, H>, n: N, base: Place, i: nat)
    requires Sound(s) && n in s.nodes && 0 < i < |s.nodes[n].path| && Walked(s, n, base)
    ensures Route(s, Down(base, s.nodes[n].path[..i])) == None
  {
    hide Sound, Leads, Walked, Down, Route;
    forall x | x in s.nodes ensures s.nodes[x].at != Down(base, s.nodes[n].path[..i]) {
      NothingBetween(s, n, base, i, x);
    }
    NothingThere(s, Down(base, s.nodes[n].path[..i]));
  }

  lemma SplitRoot<N, H>(s: Shape<N, H>, r: Shape<N, H>, n: N, i: nat, child: N, base: Place, v: string)
    requires IsSplit(s, r, n, i, child, base) && v in r.roots
    ensures Root(r, v)
  {
    hide Leads, Linked, Branching, Holds, Covers, Apart, Stands, Grounded;
    assert Root(s, v);
    if s.roots[v] == n {
      var path := s.nodes[n].path;
      assert "" + path == path;
      SameBase(s, n, base, Place(v, ""));
      assert "" + path[..i] == path[..i];
    }
  }

  lemma SplitStands<N, H>(s: Shape<N, H>, r: Shape<N, H>, n: N, i: nat, child: N, base: Place, p: Place)
    requires IsSplit(s, r, n, i, child, base) && p in r.routes
    ensures Stands(r, p)
  {
    hide Leads, Linked, Branching, Holds, Covers, Apart, Root, Grounded, Walked, Down;
    assert Stands(s, p);
    var x :| x in s.nodes && s.nodes[x].at == p;
    var z := if x == n then child else x;
    assert r.nodes[z].at == p;
  }

  /** Splitting a node keeps the trees sound and changes no route. */
  lemma SplitSound<N, H>(s: Shape<N, H>, r: Shape<N, H>, n: N, i: nat, child: N, base: Place)
    requires IsSplit(s, r, n, i, child, base)
    ensures Sound(r)
  {
    hide Linked, Branching, Grounded, Holds, Covers, Apart, Root, Stands, IsSplit;
    forall y | y in r.nodes ensures Linked(r, y) && Branching(r, y) && Grounded(r, y) && Holds(r, y) {
      SplitNode(s, r, n, i, child, base, y);
      SplitGrounded(s, r, n, i, child, base, y);
    }
    forall y, x | y in r.nodes && x in r.nodes ensures Covers(r, y, x) && Apart(r, y, x) {
      SplitCovers(s, r, n, i, child, base, y, x);
      SplitApart(s, r, n, i, child, base, y, x);
    }
    forall v | v in r.roots ensures Root(r, v) { SplitRoot(s, r, n, i, child, base, v); }
    forall p | p in r.routes ensures Stands(r, p) { SplitStands(s, r, n, i, child, base, p); }
  }

  /** A new leaf under n. */
  function Extend<N(==), H>(s: Shape<N, H>, n: N, leaf: N, rest: string, handlers: Option<H>): Shape<N, H>
    requires n in s.nodes
  {
    var o := s.nodes[n];
    var at := Down(o.at, rest);
    s.(nodes := s.nodes[leaf := Info(rest, [], handlers, at)][n := o.(children := o.children + [leaf])],
       routes := s.routes[at := handlers])
  }

  /** n may get a new leaf for the rest. */
  ghost predicate Extensible<N, H>(s: Shape<N, H>, n: N, leaf: N, rest: string) {
    Sound(s) && n in s.nodes && leaf !in s.nodes && rest != "" && s.nodes[n].path != "" && Untaken(s, n, rest)
  }

  lemma ExtendNode<N, H>(s: Shape<N, H>, n: N, leaf: N, rest: string, handlers: Option<H>, y: N)
    requires Extensible(s, n, leaf, rest) && y in Extend(s, n, leaf, rest, handlers).nodes
    ensures var r := Extend(s, n, leaf, rest, handlers);
      Linked(r, y) && Branching(r, y) && Holds(r, y) && Grounded(r, y)
  {
    hide Sound, Leads, Down;
    var r := Extend(s, n, leaf, rest, handlers);
    NoChild(s, n, rest);
    DownLeads(s.nodes[n].at, rest);
    DownLeads(Down(s.nodes[n].at, rest), "");
    NodeSound(s, n);
    if y != leaf {
      NodeSound(s, y);
      ExtendRoute(s, n, leaf, rest, handlers, y);
    }
    var root := s.roots[s.nodes[if y == leaf then n else y].at.verb];
    if y == leaf {
      SameVerb(s.nodes[n].at, r.nodes[y].at);
      LeadsTrans(s.nodes[root].at, s.nodes[n].at, r.nodes[y].at);
    }
  }

  lemma ExtendRoute<N, H>(s: Shape<N, H>, n: N, leaf: N, rest: string, handlers: Option<H>, y: N)
    requires Extensible(s, n, leaf, rest) && y in s.nodes
    ensures s.nodes[y].at != Down(s.nodes[n].at, rest)
    ensures Route(Extend(s, n, leaf, rest, handlers), s.nodes[y].at) == Route(s, s.nodes[y].at)
  {
    hide Sound, Leads, Down;
    NoChild(s, n, rest);
    DownLeads(s.nodes[n].at, rest);
  }

  lemma ExtendPair<N, H>(s: Shape<N, H>, n: N, leaf: N, rest: string, handlers: Option<H>, y: N, x: N)
    requires Extensible(s, n, leaf, rest)
    requires var r := Extend(s, n, leaf, rest, handlers); y in r.nodes && x in r.nodes
    ensures var r := Extend(s, n, leaf, rest, handlers); Covers(r, y, x) && Apart(r, y, x)
  {
    hide Sound, Leads, Down;
    var r := Extend(s, n, leaf, rest, handlers);
    var at := Down(s.nodes[n].at, rest);
    NoChild(s, n, rest);
    DownLeads(s.nodes[n].at, rest);
    if y in s.nodes { ExtendRoute(s, n, leaf, rest, handlers, y); }
    if x in s.nodes { ExtendRoute(s, n, leaf, rest, handlers, x); }
    if x in s.nodes && y in s.nodes { PairSound(s, y, x); }
    if Leads(r.nodes[y].at, r.nodes[x].at) && y != x {
      if x == leaf {
        assert Leads(s.nodes[y].at, s.nodes[n].at);
        if y == n {
          assert leaf in r.nodes[y].children;
        } else {
          var c := ChildToward(s, y, n);
          LeadsTrans(s.nodes[c].at, s.nodes[n].at, at);
          assert c in r.nodes[y].children && c in r.nodes && Leads(r.nodes[c].at, at);
        }
      } else if y != leaf {
        var c := ChildToward(s, y, x);
        assert c in r.nodes[y].children && c in r.nodes && Leads(r.nodes[c].at, r.nodes[x].at);
      }
    }
  }

  /** A new leaf keeps the trees sound and registers exactly its own path. */
  lemma ExtendSound<N, H>(s: Shape<N, H>, n: N, leaf: N, rest: string, handlers: Option<H>)
    requires Extensible(s, n, leaf, rest)
    ensures Sound(Extend(s, n, leaf, rest, handlers))
  {
    hide Linked, Branching, Grounded, Holds, Covers, Apart, Leads, Down, Untaken;
    var r := Extend(s, n, leaf, rest, handlers);
    forall y | y in r.nodes ensures Linked(r, y) && Branching(r, y) && Grounded(r, y) && Holds(r, y) {
      ExtendNode(s, n, leaf, rest, handlers, y);
    }
    forall y, x | y in r.nodes && x in r.nodes ensures Covers(r, y, x) && Apart(r, y, x) {
      ExtendPair(s, n, leaf, rest, handlers, y, x);
    }
    forall v | v in r.roots ensures Root(r, v) { assert Root(s, v); }
    forall p | p in r.routes ensures Stands(r, p) {
      if p in s.routes {
        assert Stands(s, p);
        var x :| x in s.nodes && s.nodes[x].at == p;
        assert r.nodes[x].at == p;
      } else {
        assert r.nodes[leaf].at == p;
      }
    }
  }

  /** New handlers where a node stands. */
  function Assign<N(==), H>(s: Shape<N, H>, n: N, handlers: Option<H>): Shape<N, H>
    requires n in s.nodes
  {
    s.(nodes := s.nodes[n := s.nodes[n].(handlers := handlers)], routes := s.routes[s.nodes[n].at := handlers])
  }

  lemma AssignSound<N, H>(s: Shape<N, H>, n: N, handlers: Option<H>)
    requires Sound(s) && n in s.nodes
    ensures Sound(Assign(s, n, handlers))
  {
    hide *;
    var r := Assign(s, n, handlers);
    AssignKeys(s, n, handlers);
    forall y | y in r.nodes ensures Linked(r, y) && Branching(r, y) && Grounded(r, y) && Holds(r, y) {
      AssignNode(s, n, handlers, y);
    }
    forall y, x | y in r.nodes && x in r.nodes ensures Covers(r, y, x) && Apart(r, y, x) {
      AssignPair(s, n, handlers, y, x);
    }
    AssignRest(s, n, handlers);
    SoundParts(r);
  }

  lemma AssignKeys<N, H>(s: Shape<N, H>, n: N, handlers: Option<H>)
    requires n in s.nodes
    ensures Assign(s, n, handlers).nodes.Keys == s.nodes.Keys
  {
  }

  lemma AssignNode<N, H>(s: Shape<N, H>, n: N, handlers: Option<H>, y: N)
    requires Sound(s) && n in s.nodes && y in s.nodes
    ensures var r := Assign(s, n, handlers); Linked(r, y) && Branching(r, y) && Grounded(r, y) && Holds(r, y)
  {
    hide Leads, Down, Sound;
    NodeSound(s, y);
    PairSound(s, y, n);
  }

  lemma AssignPair<N, H>(s: Shape<N, H>, n: N, handlers: Option<H>, y: N, x: N)
    requires Sound(s) && n in s.nodes && y in s.nodes && x in s.nodes
    ensures var r := Assign(s, n, handlers); Covers(r, y, x) && Apart(r, y, x)
  {
    hide Leads, Down, Sound;
    PairSound(s, y, x);
    var r := Assign(s, n, handlers);
    if Leads(r.nodes[y].at, r.nodes[x].at) && y != x {
      var c := ChildToward(s, y, x);
      assert c in r.nodes[y].children && c in r.nodes && Leads(r.nodes[c].at, r.nodes[x].at);
    }
  }

  lemma AssignRest<N, H>(s: Shape<N, H>, n: N, handlers: Option<H>)
    requires Sound(s) && n in s.nodes
    ensures var r := Assign(s, n, handlers);
      (forall v | v in r.roots :: Root(r, v)) && (forall p | p in r.routes :: Stands(r, p))
  {
    hide Leads, Down, Linked, Branching, Grounded, Holds, Covers, Apart;
    var r := Assign(s, n, handlers);
    forall v | v in r.roots ensures Root(r, v) { assert Root(s, v); }
    forall p | p in r.routes ensures Stands(r, p) {
      if p in s.routes {
        assert Stands(s, p);
        var x :| x in s.nodes && s.nodes[x].at == p;
        assert r.nodes[x].at == p;
      } else {
        assert r.nodes[n].at == p;
      }
    }
  }

  lemma SoundParts<N, H>(s: Shape<N, H>)
    requires forall n | n in s.nodes :: Linked(s, n) && Branching(s, n) && Grounded(s, n) && Holds(s, n)
    requires forall n, x | n in s.nodes && x in s.nodes :: Covers(s, n, x) && Apart(s, n, x)
    requires (forall v | v in s.roots :: Root(s, v)) && (forall p | p in s.routes :: Stands(s, p))
    ensures Sound(s)
  {
    hide Linked, Branching, Grounded, Holds, Covers, Apart, Root, Stands;
  }

  /** The first path of a method becomes its whole tree. */
  function Plant<N(==), H>(s: Shape<N, H>, v: string, root: N, path: string, handlers: Option<H>): Shape<N, H> {
    Shape(s.nodes[root := Info(path, [], handlers, Place(v, path))], s.roots[v := root],
      s.routes[Place(v, path) := handlers])
  }

  lemma PlantSound<N, H>(s: Shape<N, H>, v: string, root: N, path: string, handlers: Option<H>)
    requires Sound(s) && root !in s.nodes && v !in s.roots && path != "" && path[0] == '/'
    ensures Sound(Plant(s, v, root, path, handlers))
  {
    hide *;
    var r := Plant(s, v, root, path, handlers);
    PlantKeys(s, v, root, path, handlers);
    forall y | y in r.nodes ensures Linked(r, y) && Branching(r, y) && Grounded(r, y) && Holds(r, y) {
      PlantNode(s, v, root, path, handlers, y);
    }
    forall y, x | y in r.nodes && x in r.nodes ensures Covers(r, y, x) && Apart(r, y, x) {
      PlantPair(s, v, root, path, handlers, y, x);
    }
    PlantRest(s, v, root, path, handlers);
    SoundParts(r);
  }

  lemma PlantKeys<N, H>(s: Shape<N, H>, v: string, root: N, path: string, handlers: Option<H>)
    ensures Plant(s, v, root, path, handlers).nodes.Keys == s.nodes.Keys + {root}
  {
  }

  lemma PlantNode<N, H>(s: Shape<N, H>, v: string, root: N, path: string, handlers: Option<H>, y: N)
    requires Sound(s) && root !in s.nodes && v !in s.roots && path != "" && path[0] == '/'
    requires y in s.nodes || y == root
    ensures var r := Plant(s, v, root, path, handlers); Linked(r, y) && Branching(r, y) && Grounded(r, y) && Holds(r, y)
  {
    hide Down, Sound;
    if y in s.nodes {
      NodeSound(s, y);
    }
  }

  lemma PlantPair<N, H>(s: Shape<N, H>, v: string, root: N, path: string, handlers: Option<H>, y: N, x: N)
    requires Sound(s) && root !in s.nodes && v !in s.roots
    requires (y in s.nodes || y == root) && (x in s.nodes || x == root)
    ensures var r := Plant(s, v, root, path, handlers); Covers(r, y, x) && Apart(r, y, x)
  {
    hide Down, Sound;
    var r := Plant(s, v, root, path, handlers);
    if y in s.nodes { NodeSound(s, y); }
    if x in s.nodes { NodeSound(s, x); }
    if y in s.nodes && x in s.nodes {
      PairSound(s, y, x);
      if Leads(r.nodes[y].at, r.nodes[x].at) && y != x {
        var c := ChildToward(s, y, x);
        assert c in r.nodes[y].children && c in r.nodes && Leads(r.nodes[c].at, r.nodes[x].at);
      }
    }
  }

  lemma PlantRest<N, H>(s: Shape<N, H>, v: string, root: N, path: string, handlers: Option<H>)
    requires Sound(s) && root !in s.nodes && v !in s.roots && path != "" && path[0] == '/'
    ensures var r := Plant(s, v, root, path, handlers);
      (forall w | w in r.roots :: Root(r, w)) && (forall p | p in r.routes :: Stands(r, p))
  {
    hide Leads, Down, Linked, Branching, Grounded, Holds, Covers, Apart;
    var r := Plant(s, v, root, path, handlers);
    forall w | w in r.roots ensures Root(r, w) {
      if w in s.roots { assert Root(s, w); }
    }
    forall p | p in r.routes ensures Stands(r, p) {
      if p in s.routes {
        assert Stands(s, p);
        var x :| x in s.nodes && s.nodes[x].at == p;
        assert r.nodes[x].at == p;
      } else {
        assert r.nodes[root].at == p;
      }
    }
  }
}

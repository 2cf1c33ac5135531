/** aifei/router.go for static paths: radix trees whose nodes split in place, one tree per method. */
module Router {
  import opened RouterShape

  class Node<H> {
    var path: string
    var children: seq<Node<H>>
    var handlers: Option<H>

    constructor (path: string, children: seq<Node<H>>, handlers: Option<H>)
      ensures this.path == path && this.children == children && this.handlers == handlers
    {
      this.path, this.children, this.handlers := path, children, handlers;
    }
  }

  /** No parameter and no catch-all. */
  predicate Static(path: string) {
    ':' !in path && '*' !in path
  }

  /** The path Handle registers. */
  function Rooted(path: string): (r: string)
    ensures r != "" && r[0] == '/'
    ensures path != "" && path[0] == '/' ==> r == path
  {
    if path == "" then "/" else if path[0] != '/' then "/" + path else path
  }

  method CommonPrefix(a: string, b: string) returns (i: nat)
    ensures i <= |a| && i <= |b| && a[..i] == b[..i]
    ensures i < |a| && i < |b| ==> a[i] != b[i]
  {
    var max := |a|;
    if |b| < max {
      max := |b|;
    }
    i := 0;
    while i < max && a[i] == b[i]
      invariant i <= max && a[..i] == b[..i]
    {
      i := i + 1;
    }
  }

  class Router<H> {
    var trees: map<string, Node<H>>
    ghost var shape: Shape<Node<H>, H>

    /** The nodes are what the shape says. */
    ghost predicate Mirrors()
      reads this`shape, shape.nodes.Keys
    {
      forall n | n in shape.nodes ::
        n.path == shape.nodes[n].path && n.children == shape.nodes[n].children && n.handlers == shape.nodes[n].handlers
    }

    ghost predicate Valid()
      reads this, shape.nodes.Keys
    {
      Mirrors() && trees == shape.roots && Sound(shape)
    }

    constructor ()
      ensures Valid() && shape == Shape(map[], map[], map[])
    {
      trees, shape := map[], Shape(map[], map[], map[]);
    }

    // ---- adding ----

    ghost predicate Settled()
      reads this`shape, shape.nodes.Keys
    {
      Mirrors() && Sound(shape)
    }

    lemma Mirrored(n: Node<H>)
      requires Settled() && n in shape.nodes
      ensures n.path == shape.nodes[n].path && n.children == shape.nodes[n].children
      ensures n.handlers == shape.nodes[n].handlers
      ensures n.path != ""
    {
      hide Sound;
      NodeSound(shape, n);
    }

    lemma MirroredChild(n: Node<H>, c: Node<H>)
      requires Settled() && n in shape.nodes && c in n.children
      ensures c in shape.nodes && c.path != ""
    {
      hide Sound;
      ChildAt(shape, n, c);
    }

    /** The child that shares the longest prefix with the path. */
    method LongestMatch(n: Node<H>, path: string) returns (best: int)
      requires Settled() && n in shape.nodes && path != ""
      ensures -1 <= best < |n.children|
      ensures best < 0 ==> Untaken(shape, n, path)
      ensures best >= 0 ==>
        n.children[best] in shape.nodes && n.children[best].path != "" && n.children[best].path[0] == path[0]
    {
      hide Settled, Sound, Untaken;
      Mirrored(n);
      best := -1;
      var bestCP := 0;
      for k := 0 to |n.children|
        invariant -1 <= best < k && (best < 0 <==> bestCP == 0)
        invariant best < 0 ==> forall j | 0 <= j < k :: n.children[j].path == "" || n.children[j].path[0] != path[0]
        invariant best >= 0 ==> n.children[best].path != "" && n.children[best].path[0] == path[0]
      {
        var child := n.children[k];
        if |child.path| > 0 {
          var cp := CommonPrefix(child.path, path);
          assert cp > 0 ==> child.path[..cp][0] == path[..cp][0];
          if cp > bestCP {
            best, bestCP := k, cp;
          }
        }
      }
      if best < 0 {
        AllUntaken(n, path);
      } else {
        MirroredChild(n, n.children[best]);
      }
    }

    lemma AllUntaken(n: Node<H>, path: string)
      requires Settled() && n in shape.nodes && path != ""
      requires forall j | 0 <= j < |n.children| :: n.children[j].path == "" || n.children[j].path[0] != path[0]
      ensures Untaken(shape, n, path)
    {
      hide Sound;
      forall c | c in shape.nodes[n].children && c in shape.nodes
        ensures shape.nodes[c].path == "" || shape.nodes[c].path[0] != path[0]
      {
        var j :| 0 <= j < |n.children| && n.children[j] == c;
      }
    }

    /** Splits n after its first i bytes. */
    method SplitAt(n: Node<H>, i: nat, ghost base: Place)
      requires Settled() && n in shape.nodes && 0 < i < |n.path| && Walked(shape, n, base)
      modifies this`shape, n
      ensures Settled() && n in shape.nodes && fresh(shape.nodes.Keys - old(shape.nodes.Keys))
      ensures old(shape.nodes.Keys) <= shape.nodes.Keys && shape.routes == old(shape.routes)
      ensures shape.roots == old(shape.roots)
      ensures n.path == old(n.path[..i]) && shape.nodes[n].at == Down(base, n.path)
    {
      hide Sound, Walked;
      Mirrored(n);
      var child := new Node(n.path[i..], n.children, n.handlers);
      SplitParts(shape, n, i, child, base);
      SplitSound(shape, Split(shape, n, i, child), n, i, child, base);
      n.path, n.handlers, n.children := n.path[..i], None, [child];
      shape := Split(shape, n, i, child);
    }

    /** A new leaf for the rest of the path. */
    method AddLeaf(n: Node<H>, rest: string, handlers: Option<H>)
      requires Settled() && n in shape.nodes && rest != "" && Untaken(shape, n, rest)
      modifies this`shape, n
      ensures Settled() && fresh(shape.nodes.Keys - old(shape.nodes.Keys)) && shape.roots == old(shape.roots)
      ensures shape.routes == old(shape.routes[Down(shape.nodes[n].at, rest) := handlers])
    {
      hide Sound, Untaken;
      Mirrored(n);
      var leaf := new Node(rest, [], handlers);
      ExtendSound(shape, n, leaf, rest, handlers);
      n.children := n.children + [leaf];
      shape := Extend(shape, n, leaf, rest, handlers);
    }

    method SetHandlers(n: Node<H>, handlers: Option<H>)
      requires Settled() && n in shape.nodes
      modifies this`shape, n
      ensures Settled() && shape.nodes.Keys == old(shape.nodes.Keys) && shape.roots == old(shape.roots)
      ensures shape.routes == old(shape.routes[shape.nodes[n].at := handlers])
    {
      hide Sound;
      AssignSound(shape, n, handlers);
      n.handlers := handlers;
      shape := Assign(shape, n, handlers);
    }

    /** The walk of node.add: down the longest common prefixes, splitting where a path parts. */
    method Add(root: Node<H>, path: string, handlers: Option<H>, ghost v: string)
      requires Settled() && path != "" && path[0] == '/'
      requires v in shape.roots ==> root == shape.roots[v]
      requires v !in shape.roots ==> root !in shape.nodes && root.path == "" && root.children == []
      modifies this`shape, root, shape.nodes.Keys
      ensures Settled() && fresh(shape.nodes.Keys - old(shape.nodes.Keys) - {root})
      ensures shape.roots == old(shape.roots[v := root])
      ensures shape.routes == old(shape.routes)[Place(v, path) := handlers]
    {
      hide *;
      if root.path == "" && |root.children| == 0 {
        if v in shape.roots {
          RootFacts(v);
        }
        FirstPath(root, path, handlers, v);
        return;
      }
      RootFacts(v);
      ghost var base := Place(v, "");
      var n, rest := root, path;
      assert Down(base, rest) == Place(v, path) by { FromRoot(v, path); }
      while true
        invariant Settled() && n in shape.nodes && Walked(shape, n, base) && shape.nodes[n].path == n.path
        invariant n.path != "" && rest != "" && n.path[0] == rest[0] && Down(base, rest) == Place(v, path)
        invariant fresh(shape.nodes.Keys - old(shape.nodes.Keys)) && shape.roots == old(shape.roots)
        invariant shape.routes == old(shape.routes)
        decreases |rest|
      {
        var i := CommonPrefix(n.path, rest);
        WalkedAt(n, base);
        if i < |n.path| {
          SplitAt(n, i, base);
        }
        assert n.path == rest[..i];
        DownDown(base, n.path, rest);
        rest := rest[i..];
        base := shape.nodes[n].at;
        if rest != "" {
          var best := LongestMatch(n, rest);
          if best < 0 {
            AddLeaf(n, rest, handlers);
            return;
          }
          SettledSound();
          Mirrored(n);
          WalkedChild(shape, n, n.children[best]);
          n := n.children[best];
          Mirrored(n);
        } else {
          DownLeads(base, rest);
          SetHandlers(n, handlers);
          return;
        }
      }
    }

    lemma WalkedAt(n: Node<H>, base: Place)
      requires Settled() && n in shape.nodes && Walked(shape, n, base)
      ensures shape.nodes[n].at == Down(base, n.path)
    {
      hide Sound;
    }

    method FirstPath(root: Node<H>, path: string, handlers: Option<H>, ghost v: string)
      requires Settled() && path != "" && path[0] == '/' && v !in shape.roots
      requires root !in shape.nodes && root.children == []
      modifies this`shape, root
      ensures Settled() && shape.nodes.Keys == old(shape.nodes.Keys) + {root}
      ensures shape.roots == old(shape.roots[v := root])
      ensures shape.routes == old(shape.routes)[Place(v, path) := handlers]
    {
      hide Sound;
      PlantSound(shape, v, root, path, handlers);
      root.path := path;
      root.handlers := handlers;
      shape := Plant(shape, v, root, path, handlers);
    }

    lemma RootFacts(v: string)
      requires Settled() && v in shape.roots
      ensures var r := shape.roots[v];
        && r in shape.nodes && r.path != "" && r.path[0] == '/' && r.path == shape.nodes[r].path
        && Walked(shape, r, Place(v, "")) && shape.roots[v := r] == shape.roots
    {
      hide Linked, Branching, Grounded, Holds, Covers, Apart, Stands, Walked;
      assert Root(shape, v);
      WalkedRoot(shape, v);
    }

    // ---- registering and looking up ----

    lemma ValidSettled()
      ensures Valid() <==> Settled() && trees == shape.roots
    {
      hide Sound;
    }

    /** Registers handlers; none at all takes the path out of service. */
    method Handle(verb: string, path: string, handlers: Option<H>)
      requires Valid() && Static(path)
      modifies this, shape.nodes.Keys
      ensures Valid() && fresh(shape.nodes.Keys - old(shape.nodes.Keys))
      ensures shape.routes == old(shape.routes)[Place(verb, Rooted(path)) := handlers]
    {
      hide *;
      ValidSettled();
      RootedIs(path);
      var full := path;
      if full == "" {
        full := "/";
      }
      if full[0] != '/' {
        full := "/" + full;
      }
      var root;
      if verb in trees {
        root := trees[verb];
        RootFacts(verb);
      } else {
        root := new Node("", [], None);
        trees := trees[verb := root];
      }
      Add(root, full, handlers, verb);
      ValidSettled();
    }

    /** The handlers last registered, if any. */
    method Lookup(verb: string, path: string) returns (r: Option<H>)
      requires Valid()
      ensures r == Route(shape, Place(verb, path))
    {
      hide *;
      ValidSettled();
      if verb !in trees {
        NoRoot(shape, verb, path) by { SettledSound(); }
        return None;
      }
      SettledSound();
      RootOnTheWay(shape, verb, path);
      RootFacts(verb);
      FromRoot(verb, path);
      FromRoot(verb, trees[verb].path);
      r := Find(trees[verb], path, Place(verb, ""));
    }

    method Find(n: Node<H>, path: string, ghost base: Place) returns (r: Option<H>)
      requires Settled() && n in shape.nodes && shape.nodes[n].at == Down(base, n.path)
      requires OnTheWay(shape, n, Down(base, path))
      ensures r == Route(shape, Down(base, path))
      decreases |path|
    {
      hide *;
      SettledSound();
      Mirrored(n);
      Strip(base, n.path, path);
      if |path| < |n.path| || path[..|n.path|] != n.path {
        OffTheWay(shape, n, Down(base, path));
        return None;
      }
      var rest := path[|n.path|..];
      ghost var at := shape.nodes[n].at;
      DownDown(base, n.path, path);
      if rest == "" {
        DownLeads(at, rest);
        Held(n);
        return n.handlers;
      }
      for k := 0 to |n.children|
        invariant forall j | 0 <= j < k :: n.children[j].path == "" || n.children[j].path[0] != rest[0]
      {
        var c := n.children[k];
        if |c.path| > 0 && rest[0] == c.path[0] {
          MirroredChild(n, c);
          Mirrored(c);
          ChildAt(shape, n, c);
          ChildOnTheWay(shape, n, c, rest);
          r := Find(c, rest, at);
          return;
        }
      }
      AllUntaken(n, rest);
      NoChild(shape, n, rest);
      return None;
    }

    lemma SettledSound()
      requires Settled()
      ensures Sound(shape)
    {
    }

    lemma Held(n: Node<H>)
      requires Settled() && n in shape.nodes
      ensures n.handlers == Route(shape, shape.nodes[n].at)
    {
      hide Sound;
      NodeSound(shape, n);
    }
  }

  lemma FromRoot(v: string, path: string)
    ensures Down(Place(v, ""), path) == Place(v, path)
  {
    assert "" + path == path;
  }

  lemma RootedIs(path: string)
    ensures Rooted(path) == if path == "" then "/" else if path[0] != '/' then "/" + path else path
  {
  }

  // ---- any sequence of registrations ----

  datatype Registration<H> = Registration(verb: string, path: string, handlers: Option<H>)

  /** The handlers last registered for a method and a path. */
  function LastRegistered<H>(rs: seq<Registration<H>>, p: Place): Option<H> {
    if rs == [] then None
    else
      var r := rs[|rs| - 1];
      if p == Place(r.verb, Rooted(r.path)) then r.handlers else LastRegistered(rs[..|rs| - 1], p)
  }

  /** A registration is for a path as it stands, with a slash put in front if it has none. */
  predicate Serves<H>(reg: Registration<H>, verb: string, path: string) {
    && reg.verb == verb && path != "" && path[0] == '/'
    && (reg.path == path || ((reg.path == "" || reg.path[0] != '/') && "/" + reg.path == path))
  }

  lemma ServesIs<H>(reg: Registration<H>, verb: string, path: string)
    ensures Serves(reg, verb, path) <==> Place(verb, path) == Place(reg.verb, Rooted(reg.path))
  {
    assert "/" + "" == "/";
  }

  /** At i stands the last registration that serves the method and the path; i is -1 if none does. */
  ghost predicate LastAt<H>(rs: seq<Registration<H>>, verb: string, path: string, i: int) {
    && -1 <= i < |rs| && (i >= 0 ==> Serves(rs[i], verb, path))
    && forall j | i < j < |rs| :: !Serves(rs[j], verb, path)
  }

  lemma {:induction false} LastIs<H>(rs: seq<Registration<H>>, verb: string, path: string, i: int)
    requires LastAt(rs, verb, path, i)
    ensures LastRegistered(rs, Place(verb, path)) == if i < 0 then None else rs[i].handlers
  {
    if rs != [] {
      hide Serves, Rooted;
      var n := |rs| - 1;
      ServesIs(rs[n], verb, path);
      if i < n {
        LastIs(rs[..n], verb, path, i);
      }
    }
  }

  /** After any registrations of static paths, a lookup finds what was last registered there. */
  method LookupAfter<H>(rs: seq<Registration<H>>, verb: string, path: string) returns (r: Option<H>)
    requires forall reg | reg in rs :: Static(reg.path)
    ensures r == LastRegistered(rs, Place(verb, path))
    ensures forall i | -1 <= i < |rs| && LastAt(rs, verb, path, i) :: r == if i < 0 then None else rs[i].handlers
  {
    hide Sound, LastAt;
    var router := new Router();
    for i := 0 to |rs|
      invariant router.Valid() && fresh(router) && fresh(router.shape.nodes.Keys)
      invariant forall p :: Route(router.shape, p) == LastRegistered(rs[..i], p)
    {
      router.Handle(rs[i].verb, rs[i].path, rs[i].handlers);
      assert rs[..i + 1][..i] == rs[..i];
    }
    assert rs[..|rs|] == rs;
    r := router.Lookup(verb, path);
    LastAre(rs, verb, path);
  }

  lemma LastAre<H>(rs: seq<Registration<H>>, verb: string, path: string)
    ensures forall i | -1 <= i < |rs| && LastAt(rs, verb, path, i) ::
      LastRegistered(rs, Place(verb, path)) == if i < 0 then None else rs[i].handlers
  {
    hide LastAt, LastRegistered;
    forall i | -1 <= i < |rs| && LastAt(rs, verb, path, i)
      ensures LastRegistered(rs, Place(verb, path)) == if i < 0 then None else rs[i].handlers
    {
      LastIs(rs, verb, path, i);
    }
  }
}

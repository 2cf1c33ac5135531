/** The engine in the form of flow/engine.go: an exchanger whose flags, counters and stacks the
    recursive methods update in place, proved equal to the specification. */
module FlowEngine {
  import opened FlowSpec

  lemma OneNode(w: World, g: Graph, target: string, fuel: nat, n: string, s: State)
    requires s.status.Running?
    ensures LinksRun(w, g, target, fuel, Always([n]), s) == FlowSpec.NodeRun(w, g, target, fuel, n, s)
  {
    hide FlowSpec.NodeRun;
    var links := Always([n]);
    assert links[1..] == [];
  }

  lemma FirstNode(w: World, g: Graph, target: string, fuel: nat, nodes: seq<string>, i: nat, s: State)
    requires i < |nodes| && s.status.Running?
    ensures var s1 := FlowSpec.NodeRun(w, g, target, fuel, nodes[i], s);
      LinksRun(w, g, target, fuel, Always(nodes[i..]), s) ==
        if s1.status.Running? then LinksRun(w, g, target, fuel, Always(nodes[i + 1..]), s1) else s1
  {
    hide FlowSpec.NodeRun;
    assert Always(nodes[i..])[1..] == Always(nodes[i + 1..]);
  }

  /** flow/temporary.go. */
  class Memory {
    var counts: map<string, nat>
    var matched: seq<nat>
    var loops: seq<nat>
    var iterators: seq<seq<Value>>

    function Value(): Temporary
      reads this
    {
      Temporary(counts, matched, loops, iterators)
    }

    constructor ()
      ensures Value() == Temporary(map[], [], [], [])
    {
      counts, matched, loops, iterators := map[], [], [], [];
    }

    method CountIncr(n: string) returns (c: nat)
      modifies this
      ensures Value() == CountIn(n, old(Value())) && c == CountOf(Value(), n)
    {
      c := (if n in counts then counts[n] else 0) + 1;
      counts := counts[n := c];
    }

    method CountReset(n: string)
      modifies this
      ensures Value() == old(Value()).(counts := old(counts)[n := 0])
    {
      counts := counts[n := 0];
    }

    method PushMatched(size: nat)
      modifies this
      ensures Value() == old(Value()).(matched := old(matched) + [size])
    {
      matched := matched + [size];
    }

    method PopMatched()
      requires matched != []
      modifies this
      ensures Value() == FlowSpec.PopMatched(old(Value()))
    {
      matched := matched[..|matched| - 1];
    }

    method PushLoop(items: seq<FlowSpec.Value>) returns (id: nat)
      modifies this
      ensures Value() == FlowSpec.PushLoop(old(Value()), items)
      ensures id == |old(iterators)| && id < |iterators| && iterators[id] == items
    {
      id := |iterators|;
      loops := loops + [id];
      iterators := iterators + [items];
    }

    method PopLoop()
      modifies this
      ensures Value() == FlowSpec.PopLoop(old(Value()))
    {
      if loops != [] {
        loops := loops[..|loops| - 1];
      }
    }

    method SetRest(id: nat, items: seq<FlowSpec.Value>)
      modifies this
      ensures Value() == SetItems(old(Value()), id, items)
    {
      if id < |iterators| {
        iterators := iterators[id := items];
      }
    }
  }

  /** flow/trace.go. */
  class TraceLog {
    var enabled: bool
    var root: string
    var last: map<string, string>

    function Value(): Trace
      reads this
    {
      Trace(enabled, root, last)
    }

    constructor (t: Trace)
      ensures Value() == t
    {
      enabled, root, last := t.enabled, t.root, t.last;
    }

    method RecordNode(g: Graph, n: string)
      modifies this
      ensures Value() == FlowSpec.RecordNode(old(Value()), g, n)
    {
      if !enabled {
        return;
      }
      if root == "" {
        root := g.id;
      }
      last := last[g.id := n];
    }

    method LastNode(g: Graph) returns (n: string)
      ensures n == FlowSpec.LastNode(Value(), g)
    {
      n := g.start;
      var key := if g.id == "" then root else g.id;
      if enabled && key != "" && key in last {
        n := last[key];
      }
    }
  }

  /** flow/exchanger.go with the engine's methods on it; `target` is the node to resume at. */
  class Exchanger {
    const world: World
    const graph: Graph
    const target: string
    const steps: int
    const memory: Memory
    const trace: TraceLog
    var ctx: Ctx
    var count: int
    var stopped: bool
    var interrupted: bool
    var reverting: bool
    ghost var log: seq<Event>

    function Parts(): set<object> {
      {this, memory, trace}
    }

    /** What the specification calls this moment of the run. */
    ghost function Now(): State
      reads Parts()
    {
      State(ctx, trace.Value(), steps, count, stopped, interrupted, reverting, memory.Value(), Running, log)
    }

    ghost function Ends(err: bool): State
      reads Parts()
    {
      Now().(status := if err then Failed else Running)
    }

    constructor (w: World, g: Graph, t: TraceLog, target: string, steps: int, ctx: Ctx)
      ensures Now() == Begin(ctx, t.Value(), steps) && fresh(memory)
      ensures world == w && graph == g && trace == t && this.target == target
    {
      world, graph, trace, this.target := w, g, t, target;
      this.steps, this.ctx := steps, ctx;
      memory := new Memory();
      count, stopped, interrupted, reverting, log := 0, false, false, true, [];
    }

    method Stop()
      modifies this
      ensures Now() == FlowSpec.Stop(old(Now()))
    {
      if !stopped {
        log := log + [Stopped];
      }
      stopped := true;
    }

    method NextStep() returns (ok: bool)
      modifies this
      ensures Now() == FlowSpec.NextStep(old(Now())) && ok == WithinBudget(Now())
    {
      if steps < 0 {
        return true;
      }
      count := Int32(count + 1);
      return count <= Int32(steps);
    }

    /** What a callback or a task does to the exchanger. */
    method Perform(e: Effect)
      modifies this
      ensures Now() == Apply(old(Now()), e)
    {
      ctx := e.ctx;
      if e.interrupt {
        interrupted := true;
      }
      if e.stop {
        Stop();
      }
    }

    method MayGoOn() returns (ok: bool)
      modifies this
      ensures Exec(ok, Now()) == GoOn(old(Now()))
    {
      if stopped {
        return false;
      }
      if interrupted {
        interrupted := false;
        return false;
      }
      return true;
    }

    method OnNodeStart(n: Node) returns (ok: bool)
      modifies this
      ensures Exec(ok, Now()) == FlowSpec.OnNodeStart(world, n, old(Now()))
    {
      if reverting {
        return true;
      }
      Perform(world.onStart(n.id, ctx));
      ok := MayGoOn();
    }

    method OnNodeEnd(n: Node) returns (ok: bool)
      modifies this
      ensures Exec(ok, Now()) == FlowSpec.OnNodeEnd(world, n, old(Now()))
    {
      if reverting {
        return true;
      }
      Perform(world.onEnd(n.id, ctx));
      ok := MayGoOn();
    }

    method HandleTask(n: Node) returns (err: bool)
      modifies this
      ensures Ends(err) == RunTask(world, n, old(Now()))
    {
      hide Apply, Skeleton;
      var e := world.task(n.id, ctx);
      log := log + [Ran(n.id, ctx)];
      Perform(e);
      err := e.error;
    }

    method TaskExec(n: Node) returns (ok: bool, err: bool)
      modifies this
      ensures Exec(ok, Ends(err)) == FlowSpec.TaskExec(world, n, old(Now())) && !(ok && err)
    {
      hide FlowSpec.OnNodeStart, FlowSpec.OnNodeEnd, RunTask, GoOn, Skeleton;
      ok, err := true, false;
      if reverting {
        return;
      }
      ok := OnNodeStart(n);
      if !ok {
        return;
      }
      var c := if n.when == "" then Yes else world.cond(n.when, ctx);
      if c == CondError {
        return false, true;
      }
      if c == Yes {
        err := HandleTask(n);
        if err {
          return false, true;
        }
      }
      ok := MayGoOn();
      if ok {
        ok := OnNodeEnd(n);
      }
    }

    // ---- the recursive walk ----

    method NodeRun(ghost fuel: nat, n: string) returns (err: bool)
      requires !FlowSpec.NodeRun(world, graph, target, fuel, n, Now()).status.Starved?
      modifies Parts()
      ensures Ends(err) == FlowSpec.NodeRun(world, graph, target, fuel, n, old(Now()))
      decreases fuel, 0
    {
      hide Follow, PlanOf, Enter;
      if n !in graph.nodes || stopped {
        return false;
      }
      if interrupted {
        interrupted := false;
        return false;
      }
      var ok := EnterNode(n);
      if !ok {
        return false;
      }
      err := KindRun(fuel - 1, graph.nodes[n]);
    }

    /** The head of a node: the resume point or a record, then a step. */
    method EnterNode(n: string) returns (ok: bool)
      requires !stopped
      modifies Parts()
      ensures Now() == Enter(graph, target, n, old(Now())) && ok == !Now().stopped
    {
      hide Int32, FlowSpec.RecordNode, Skeleton;
      log := log + [Visit(n, memory.counts, ctx, reverting)];
      if reverting {
        if n == target {
          reverting := false;
        }
      } else {
        log := log + [Record(n)];
        trace.RecordNode(graph, n);
      }
      ok := true;
      if !reverting {
        ok := NextStep();
        if !ok {
          Stop();
          return;
        }
        log := log + [Pass(n)];
      }
    }

    /** The switch over node types. */
    method KindRun(ghost fuel: nat, n: Node) returns (err: bool)
      requires !Follow(world, graph, target, fuel, PlanOf(world, graph, n, Now())).status.Starved?
      modifies Parts()
      ensures Ends(err) == Follow(world, graph, target, fuel, PlanOf(world, graph, n, old(Now())))
      decreases fuel, 5
    {
      hide LinksRun, ItemsRun, PlanChoice, PlanInclusive, PlanParallel, PlanInflow, PlanOutflow, FlowSpec.TaskExec,
        Callbacks, PlanOut;
      match n.typ
      case Start => err := StartRun(fuel, n);
      case End => err := EndRun(n);
      case Activity => err := ActivityRun(fuel, n);
      case Inclusive => err := InclusiveRun(fuel, n);
      case Exclusive => err := ExclusiveRun(fuel, n);
      case Parallel => err := ParallelRun(fuel, n);
      case Loop => err := LoopRun(fuel, n);
      case Unknown => return false;
    }

    method StartRun(ghost fuel: nat, n: Node) returns (err: bool)
      requires !Follow(world, graph, target, fuel, PlanOut(n.next, Callbacks(world, n, Now()))).status.Starved?
      modifies Parts()
      ensures Ends(err) == Follow(world, graph, target, fuel, PlanOut(n.next, Callbacks(world, n, old(Now()))))
      decreases fuel, 4
    {
      hide FlowSpec.OnNodeStart, FlowSpec.OnNodeEnd, LinksRun;
      var ok := OnNodeStart(n);
      if ok {
        ok := OnNodeEnd(n);
      }
      if !ok {
        return false;
      }
      err := LinksOut(fuel, n.next);
    }

    method EndRun(n: Node) returns (err: bool)
      modifies Parts()
      ensures !err && Now() == Callbacks(world, n, old(Now())).s
    {
      hide FlowSpec.OnNodeStart, FlowSpec.OnNodeEnd;
      var ok := OnNodeStart(n);
      if ok {
        ok := OnNodeEnd(n);
      }
      err := false;
    }

    method ActivityRun(ghost fuel: nat, n: Node) returns (err: bool)
      requires !Follow(world, graph, target, fuel, PlanOut(n.next, FlowSpec.TaskExec(world, n, Now()))).status.Starved?
      modifies Parts()
      ensures Ends(err) == Follow(world, graph, target, fuel, PlanOut(n.next, FlowSpec.TaskExec(world, n, old(Now()))))
      decreases fuel, 4
    {
      hide FlowSpec.TaskExec, LinksRun;
      var ok, failed := TaskExec(n);
      if failed {
        return true;
      }
      if !ok {
        return false;
      }
      err := LinksOut(fuel, n.next);
    }

    /** The loop over outgoing links (activityRunOut). */
    method LinksOut(ghost fuel: nat, links: seq<Link>) returns (err: bool)
      requires !LinksRun(world, graph, target, fuel, links, Now()).status.Starved?
      modifies Parts()
      ensures Ends(err) == LinksRun(world, graph, target, fuel, links, old(Now()))
      decreases fuel, 1
    {
      hide FlowSpec.NodeRun;
      for i := 0 to |links|
        invariant LinksRun(world, graph, target, fuel, links[i..], Now()) ==
          LinksRun(world, graph, target, fuel, links, old(Now()))
      {
        var l := links[i];
        assert links[i..][0] == l && links[i..][1..] == links[i + 1..];
        var c := if l.when == "" then Yes else world.cond(l.when, ctx);
        if c == CondError {
          return true;
        }
        if c == Yes {
          err := NodeRun(fuel, l.next);
          if err {
            return;
          }
        }
      }
      err := false;
    }

    /** The first link whose condition holds, else the last one without a condition. */
    method ExclusiveRun(ghost fuel: nat, n: Node) returns (err: bool)
      requires !Follow(world, graph, target, fuel,
        PlanChoice(world, n, FlowSpec.TaskExec(world, n, Now()))).status.Starved?
      modifies Parts()
      ensures Ends(err) == Follow(world, graph, target, fuel,
        PlanChoice(world, n, FlowSpec.TaskExec(world, n, old(Now()))))
      decreases fuel, 4
    {
      hide FlowSpec.TaskExec, LinksRun;
      var ok, failed := TaskExec(n);
      if failed {
        return true;
      }
      if !ok {
        return false;
      }
      var def := None;
      var links := n.next;
      for i := 0 to |links|
        invariant Choose(world, links[i..], def, Now()) == Choose(world, links, None, Now())
      {
        var l := links[i];
        assert links[i..][0] == l && links[i..][1..] == links[i + 1..];
        if l.when == "" {
          def := Some(l.next);
        } else {
          var c := world.cond(l.when, ctx);
          if c == CondError {
            return true;
          }
          if c == Yes {
            OneNode(world, graph, target, fuel, l.next, Now());
            err := NodeRun(fuel, l.next);
            return;
          }
        }
      }
      if def.None? {
        return false;
      }
      OneNode(world, graph, target, fuel, def.value, Now());
      err := NodeRun(fuel, def.value);
    }

    /** The loop over the chosen next nodes. */
    method VisitAll(ghost fuel: nat, nodes: seq<string>) returns (err: bool)
      requires !LinksRun(world, graph, target, fuel, Always(nodes), Now()).status.Starved?
      modifies Parts()
      ensures Ends(err) == LinksRun(world, graph, target, fuel, Always(nodes), old(Now()))
      decreases fuel, 1
    {
      hide FlowSpec.NodeRun, LinksRun, Always;
      assert nodes[0..] == nodes;
      for i := 0 to |nodes|
        invariant LinksRun(world, graph, target, fuel, Always(nodes[i..]), Now()) ==
          LinksRun(world, graph, target, fuel, Always(nodes), old(Now()))
      {
        FirstNode(world, graph, target, fuel, nodes, i, Now());
        err := NodeRun(fuel, nodes[i]);
        if err {
          return;
        }
      }
      NoNodes(world, graph, target, fuel, nodes[|nodes|..], Now());
      err := false;
    }

    /** Join: wait for as many branches as were matched. Out: all links that hold. */
    method InclusiveRun(ghost fuel: nat, n: Node) returns (err: bool)
      requires !Follow(world, graph, target, fuel, PlanInclusive(world, n, Now())).status.Starved?
      modifies Parts()
      ensures Ends(err) == Follow(world, graph, target, fuel, PlanInclusive(world, n, old(Now())))
      decreases fuel, 4
    {
      hide FlowSpec.TaskExec, LinksRun, Matching, CountOf;
      if n.incoming > 1 && memory.matched != [] {
        var size := memory.matched[|memory.matched| - 1];
        var arrived := memory.CountIncr(n.id);
        if size > arrived {
          return false;
        }
        memory.PopMatched();
      }
      var ok, failed := TaskExec(n);
      if failed {
        return true;
      }
      if !ok {
        return false;
      }
      err := MatchedOut(fuel, n);
    }

    method MatchedOut(ghost fuel: nat, n: Node) returns (err: bool)
      requires !Follow(world, graph, target, fuel, PlanMatching(world, n, Exec(true, Now()))).status.Starved?
      modifies Parts()
      ensures Ends(err) == Follow(world, graph, target, fuel, PlanMatching(world, n, Exec(true, old(Now()))))
      decreases fuel, 3
    {
      hide LinksRun;
      var nodes := [];
      var links := n.next;
      for i := 0 to |links|
        invariant Matching(world, links, Now()).Some? == Matching(world, links[i..], Now()).Some?
        invariant Matching(world, links, Now()).Some? ==>
          Matching(world, links, Now()).value == nodes + Matching(world, links[i..], Now()).value
      {
        var l := links[i];
        assert links[i..][0] == l && links[i..][1..] == links[i + 1..];
        var c := if l.when == "" then Yes else world.cond(l.when, ctx);
        if c == CondError {
          return true;
        }
        if c == Yes {
          nodes := nodes + [l.next];
        }
      }
      assert links[|links|..] == [];
      assert Matching(world, links, Now()).value == nodes;
      if nodes == [] {
        return false;
      }
      memory.PushMatched(|nodes|);
      err := VisitAll(fuel, nodes);
    }

    /** Join: wait for every incoming link. Out: all next nodes. */
    method ParallelRun(ghost fuel: nat, n: Node) returns (err: bool)
      requires !Follow(world, graph, target, fuel, PlanParallel(world, graph, n, Now())).status.Starved?
      modifies Parts()
      ensures Ends(err) == Follow(world, graph, target, fuel, PlanParallel(world, graph, n, old(Now())))
      decreases fuel, 4
    {
      hide FlowSpec.TaskExec, LinksRun, NextNodes, Always, CountOf, Skeleton;
      log := log + [Arrive(n.id)];
      var arrived := memory.CountIncr(n.id);
      if n.incoming > arrived {
        return false;
      }
      var ok, failed := TaskExec(n);
      if failed {
        return true;
      }
      if !ok {
        return false;
      }
      log := log + [Fire(n.id)];
      memory.CountReset(n.id);
      err := VisitAll(fuel, NextNodes(graph, n.next));
    }

    method LoopRun(ghost fuel: nat, n: Node) returns (err: bool)
      requires var s := Now();
        !Follow(world, graph, target, fuel,
                if n.forKey == "" then PlanInflow(world, n, s)
                else PlanOutflow(world, n, FlowSpec.TaskExec(world, n, s))).status.Starved?
      modifies Parts()
      ensures var s := old(Now());
        Ends(err) == Follow(world, graph, target, fuel,
                            if n.forKey == "" then PlanInflow(world, n, s)
                            else PlanOutflow(world, n, FlowSpec.TaskExec(world, n, s)))
      decreases fuel, 4
    {
      hide FlowSpec.TaskExec, LinksRun, ItemsRun, BuildIterator, Skeleton;
      if n.forKey == "" {
        if memory.loops != [] {
          var top := memory.loops[|memory.loops| - 1];
          if top < |memory.iterators| && memory.iterators[top] != [] {
            return false;
          }
          memory.PopLoop();
        }
        var ok, failed := TaskExec(n);
        if failed {
          return true;
        }
        if !ok {
          return false;
        }
        err := LinksOut(fuel, n.next);
        return;
      }
      var ok, failed := TaskExec(n);
      if failed {
        return true;
      }
      if !ok {
        return false;
      }
      var items := BuildIterator(n.source, ctx);
      if items.None? {
        return true;
      }
      var id := memory.PushLoop(items.value);
      err := Iterations(fuel, n, id, items.value);
    }

    /** While the iterator has items: bind the next one and run the body. */
    method Iterations(ghost fuel: nat, n: Node, id: nat, items: seq<FlowSpec.Value>) returns (err: bool)
      requires !ItemsRun(world, graph, target, fuel, n, id, items, Now()).status.Starved?
      modifies Parts()
      ensures Ends(err) == ItemsRun(world, graph, target, fuel, n, id, items, old(Now()))
      decreases fuel, 2
    {
      hide LinksRun;
      var rest := items;
      while rest != []
        invariant ItemsRun(world, graph, target, fuel, n, id, rest, Now()) ==
          ItemsRun(world, graph, target, fuel, n, id, items, old(Now()))
        decreases |rest|
      {
        memory.SetRest(id, rest[1..]);
        ctx := Put(ctx, n.forKey, rest[0]);
        rest := rest[1..];
        err := LinksOut(fuel, n.next);
        if err {
          return;
        }
      }
      err := false;
    }
  }

  lemma NoNodes(w: World, g: Graph, target: string, fuel: nat, nodes: seq<string>, s: State)
    requires nodes == []
    ensures LinksRun(w, g, target, fuel, Always(nodes), s) == s
  {
  }

  /** EvalWithSteps on a context with these variables and this trace. */
  method Eval(w: World, g: Graph, ghost fuel: nat, steps: int, ctx: Ctx, t: TraceLog) returns (ex: Exchanger, err: bool)
    requires !FlowSpec.Eval(w, g, fuel, steps, ctx, t.Value()).status.Starved?
    modifies t
    ensures ex.trace == t && ex.Ends(err) == FlowSpec.Eval(w, g, fuel, steps, ctx, old(t.Value()))
  {
    var target := t.LastNode(g);
    ex := new Exchanger(w, g, t, target, steps, ctx);
    err := ex.NodeRun(fuel, g.start);
  }
}

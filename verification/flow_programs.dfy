/** Properly nested graphs: loops, forks and choices run as the structured program they draw. */
module FlowPrograms {
  import opened FlowSpec
  import opened FlowRuns
  import opened FlowChoices

  // ---- structured programs and the graphs that draw them ----

  datatype Prog =
    | Task(n: string)
    | Seq(first: Prog, second: Prog)
    | For(out: string, body: Prog, inflow: string)
    | Par(fork: string, branches: Progs, join: string)
    | Alt(gate: string, arms: Progs)

  datatype Progs = Nope | Also(head: Prog, tail: Progs)

  function Entry(p: Prog): string {
    match p
    case Task(n) => n
    case Seq(a, _) => Entry(a)
    case For(out, _, _) => out
    case Par(fork, _, _) => fork
    case Alt(gate, _) => gate
  }

  function Entries(ps: Progs): seq<string> {
    match ps
    case Nope => []
    case Also(p, rest) => [Entry(p)] + Entries(rest)
  }

  function Length(ps: Progs): nat {
    match ps
    case Nope => 0
    case Also(_, rest) => 1 + Length(rest)
  }

  function At(g: Graph, n: string): Node {
    if n in g.nodes then g.nodes[n] else Node(n, Unknown, "", "", BadIn, [], 0)
  }

  predicate IsNode(g: Graph, n: string, typ: NodeType) {
    n in g.nodes && g.nodes[n].typ == typ && g.nodes[n].id == n
  }

  predicate LeadsTo(g: Graph, n: string, e: string) {
    At(g, n).next == [Link(e, "")]
  }

  /** g draws p with e as the node that follows it. */
  predicate Draws(g: Graph, p: Prog, e: string) {
    match p
    case Task(n) => IsNode(g, n, Activity) && LeadsTo(g, n, e)
    case Seq(a, b) => Draws(g, a, Entry(b)) && Draws(g, b, e)
    case For(out, body, inflow) =>
      && IsNode(g, out, Loop) && At(g, out).forKey != "" && LeadsTo(g, out, Entry(body))
      && Draws(g, body, inflow)
      && IsNode(g, inflow, Loop) && At(g, inflow).forKey == "" && LeadsTo(g, inflow, e)
    case Par(fork, bs, join) =>
      && IsNode(g, fork, Parallel) && At(g, fork).incoming <= 1 && NextNodes(g, At(g, fork).next) == Entries(bs)
      && bs.Also? && DrawsAll(g, bs, join) && fork != join && ApartAll(fork, bs) && ApartAll(join, bs)
      && IsNode(g, join, Parallel) && At(g, join).incoming == Length(bs) && NextNodes(g, At(g, join).next) == [e]
    case Alt(gate, arms) => IsNode(g, gate, Exclusive) && DrawsAll(g, arms, e)
  }

  predicate DrawsAll(g: Graph, ps: Progs, e: string) {
    match ps
    case Nope => true
    case Also(p, rest) => Draws(g, p, e) && DrawsAll(g, rest, e)
  }

  /** n is not a parallel gateway of p. */
  predicate Apart(n: string, p: Prog) {
    match p
    case Task(_) => true
    case Seq(a, b) => Apart(n, a) && Apart(n, b)
    case For(_, body, _) => Apart(n, body)
    case Par(fork, bs, join) => n != fork && n != join && ApartAll(n, bs)
    case Alt(_, arms) => ApartAll(n, arms)
  }

  predicate ApartAll(n: string, ps: Progs) {
    match ps
    case Nope => true
    case Also(p, rest) => Apart(n, p) && ApartAll(n, rest)
  }

  /** No branch waits at a parallel gateway of p. */
  predicate Clear(p: Prog, t: Temporary) {
    match p
    case Task(_) => true
    case Seq(a, b) => Clear(a, t) && Clear(b, t)
    case For(_, body, _) => Clear(body, t)
    case Par(fork, bs, join) => CountOf(t, fork) == 0 && CountOf(t, join) == 0 && ClearAll(bs, t)
    case Alt(_, arms) => ClearAll(arms, t)
  }

  predicate ClearAll(ps: Progs, t: Temporary) {
    match ps
    case Nope => true
    case Also(p, rest) => Clear(p, t) && ClearAll(rest, t)
  }

  /** Recursion depth below the node that follows p. */
  function Cost(p: Prog): nat {
    match p
    case Task(_) => 1
    case Seq(a, b) => Cost(a) + Cost(b)
    case For(_, body, _) => Cost(body) + 2
    case Par(_, bs, _) => CostAll(bs) + 2
    case Alt(_, arms) => CostAll(arms) + 1
  }

  function CostAll(ps: Progs): nat {
    match ps
    case Nope => 0
    case Also(p, rest) => Cost(p) + CostAll(rest)
  }

  // ---- what a structured program does: no graph walk, no counters, no stacks ----

  /** The variables afterwards, and each task that ran with the variables it saw. */
  datatype Did = Did(ctx: Ctx, ran: seq<Event>)

  /** One node: callbacks, condition, task. None when one of them stops, interrupts or fails. */
  function DoNode(w: World, n: Node, ctx: Ctx): Option<Did> {
    var e1 := w.onStart(n.id, ctx);
    if e1.stop || e1.interrupt then None
    else
      var d := DoTask(w, n, e1.ctx);
      if d.None? then None
      else
        var e3 := w.onEnd(n.id, d.value.ctx);
        if e3.stop || e3.interrupt then None else Some(d.value.(ctx := e3.ctx))
  }

  function DoTask(w: World, n: Node, ctx: Ctx): Option<Did> {
    match if n.when == "" then Yes else w.cond(n.when, ctx)
    case CondError => None
    case No => Some(Did(ctx, []))
    case Yes =>
      var e := w.task(n.id, ctx);
      if e.error || e.stop || e.interrupt then None else Some(Did(e.ctx, [Ran(n.id, ctx)]))
  }

  function After(first: Option<Did>, second: Option<Did>): Option<Did> {
    if first.None? || second.None? then None
    else Some(Did(second.value.ctx, first.value.ran + second.value.ran))
  }

  function CtxOf(d: Option<Did>): Ctx {
    if d.None? then map[] else d.value.ctx
  }

  /** There is something to iterate over. */
  ghost predicate Iterates(source: InSpec, ctx: Ctx) {
    exists items: seq<Value> :: items != [] && Delivers(source, ctx, items)
  }

  ghost function RunProg(w: World, g: Graph, p: Prog, ctx: Ctx): Option<Did>
    decreases p, 0
  {
    match p
    case Task(n) => DoNode(w, At(g, n), ctx)
    case Seq(a, b) =>
      var d := RunProg(w, g, a, ctx);
      After(d, RunProg(w, g, b, CtxOf(d)))
    case For(out, body, inflow) =>
      var d := DoNode(w, At(g, out), ctx);
      if Iterates(At(g, out).source, CtxOf(d)) then
        var items :| items != [] && Delivers(At(g, out).source, CtxOf(d), items);
        var b := RunItems(w, g, At(g, out).forKey, body, items, CtxOf(d));
        After(d, After(b, DoNode(w, At(g, inflow), CtxOf(b))))
      else None
    case Par(fork, bs, join) =>
      var d := DoNode(w, At(g, fork), ctx);
      var b := RunAll(w, g, bs, CtxOf(d));
      After(d, After(b, DoNode(w, At(g, join), CtxOf(b))))
    case Alt(gate, arms) =>
      var d := DoNode(w, At(g, gate), ctx);
      if exists next: string :: Picks(w, At(g, gate).next, CtxOf(d), next) then
        var next :| Picks(w, At(g, gate).next, CtxOf(d), next);
        After(d, RunArm(w, g, arms, next, CtxOf(d)))
      else None
  }

  /** With the variable set to the item, unless that is no value. */
  function Bound(ctx: Ctx, key: string, item: Value): Ctx {
    if item.NoValue? then ctx else ctx[key := item]
  }

  /** The body once per item, in order, with the variable bound. */
  ghost function RunItems(w: World, g: Graph, key: string, body: Prog, items: seq<Value>, ctx: Ctx): Option<Did>
    decreases body, |items|
  {
    if items == [] then Some(Did(ctx, []))
    else
      var d := RunProg(w, g, body, Bound(ctx, key, items[0]));
      After(d, RunItems(w, g, key, body, items[1..], CtxOf(d)))
  }

  /** Every branch once, in order. */
  ghost function RunAll(w: World, g: Graph, ps: Progs, ctx: Ctx): Option<Did>
    decreases ps, 0
  {
    match ps
    case Nope => Some(Did(ctx, []))
    case Also(p, rest) =>
      var d := RunProg(w, g, p, ctx);
      After(d, RunAll(w, g, rest, CtxOf(d)))
  }

  /** The arm that starts at the chosen node. */
  ghost function RunArm(w: World, g: Graph, ps: Progs, next: string, ctx: Ctx): Option<Did>
    decreases ps, 0
  {
    match ps
    case Nope => None
    case Also(p, rest) => if Entry(p) == next then RunProg(w, g, p, ctx) else RunArm(w, g, rest, next, ctx)
  }

  // ---- the engine on one node ----

  function Tasks(log: seq<Event>): seq<Event> {
    if log == [] then []
    else
      var e := log[|log| - 1];
      Tasks(log[..|log| - 1]) + if e.Ran? then [e] else []
  }

  lemma TasksNote(s: State, e: Event)
    ensures Tasks(Note(s, e).log) == Tasks(s.log) + if e.Ran? then [e] else []
  {
    assert (s.log + [e])[..|s.log|] == s.log;
    assert Tasks(s.log) + [] == Tasks(s.log);
  }

  /** An unlimited run past its resume point, going on. */
  predicate Quiet(s: State) {
    s.steps < 0 && !s.reverting && !s.stopped && !s.interrupted && s.status.Running?
  }

  /** From s to r the run did d, and left the gateway state alone. */
  predicate Doing(s: State, r: State, d: Did) {
    Quiet(r) && r.ctx == d.ctx && Tasks(r.log) == Tasks(s.log) + d.ran
  }

  lemma EnterQuiet(g: Graph, target: string, n: string, s: State)
    requires Quiet(s)
    ensures var r := Enter(g, target, n, s);
      Doing(s, r, Did(s.ctx, [])) && r.temp == s.temp
  {
    var v := Visited(n, s);
    var s1 := Note(v, Record(n)).(trace := RecordNode(s.trace, g, n));
    TasksNote(s, VisitOf(n, s));
    TasksNote(v, Record(n));
    TasksNote(s1, Pass(n));
    hide Tasks, Skeleton, RecordNode;
    assert Tasks(s.log) + [] == Tasks(s.log);
  }

  lemma CallbackDoes(w: World, n: Node, s: State)
    requires Quiet(s)
    ensures var e, t := w.onStart(n.id, s.ctx), OnNodeStart(w, n, s);
      !e.stop && !e.interrupt ==> t.go && t.s == s.(ctx := e.ctx)
    ensures var e, t := w.onEnd(n.id, s.ctx), OnNodeEnd(w, n, s);
      !e.stop && !e.interrupt ==> t.go && t.s == s.(ctx := e.ctx)
  {
    hide Skeleton;
  }

  lemma TaskDoes(w: World, n: Node, s: State)
    requires Quiet(s) && DoTask(w, n, s.ctx).Some?
    ensures var t, d := WhenTask(w, n, s), DoTask(w, n, s.ctx).value;
      t.go && Doing(s, t.s, d) && t.s.temp == s.temp
  {
    TasksNote(s, Ran(n.id, s.ctx));
    hide Tasks, Skeleton;
    assert Tasks(s.log) + [] == Tasks(s.log);
  }

  /** An undisturbed node does what DoNode says, and goes on. */
  lemma NodeDoes(w: World, n: Node, s: State)
    requires Quiet(s) && DoNode(w, n, s.ctx).Some?
    ensures var t, d := TaskExec(w, n, s), DoNode(w, n, s.ctx).value;
      t.go && Doing(s, t.s, d) && t.s.temp == s.temp
  {
    hide Tasks, Skeleton, OnNodeStart, OnNodeEnd, WhenTask, DoTask;
    CallbackDoes(w, n, s);
    var s1 := s.(ctx := w.onStart(n.id, s.ctx).ctx);
    TaskDoes(w, n, s1);
    CallbackDoes(w, n, WhenTask(w, n, s1).s);
  }

  /** The gateway state as before; iterators that have run out may be left over. */
  ghost predicate SameGates(t: Temporary, u: Temporary) {
    && u.loops == t.loops && t.iterators <= u.iterators
    && forall n :: CountOf(u, n) == CountOf(t, n)
  }

  ghost predicate Kept(s: State, r: State, d: Did) {
    Doing(s, r, d) && SameGates(s.temp, r.temp)
  }

  lemma QuietNode(w: World, g: Graph, target: string, fuel: nat, n: string, s: State)
    requires Quiet(s) && n in g.nodes && fuel > 0
    ensures var s1 := Enter(g, target, n, s);
      NodeRun(w, g, target, fuel, n, s) == Follow(w, g, target, fuel - 1, PlanOf(w, g, At(g, n), s1))
  {
    hide PlanOf, Follow, Enter, Doing;
    EnterGoesOn(g, target, n, s);
  }

  lemma EnterGoesOn(g: Graph, target: string, n: string, s: State)
    requires Quiet(s)
    ensures !Enter(g, target, n, s).stopped
  {
  }

  lemma OneLink(w: World, g: Graph, target: string, fuel: nat, links: seq<Link>, e: string, s: State)
    requires links == [Link(e, "")] && Quiet(s)
    ensures LinksRun(w, g, target, fuel, links, s) == NodeRun(w, g, target, fuel, e, s)
  {
    hide NodeRun;
    assert links[1..] == [];
  }

  lemma DoingThen(s: State, m: State, r: State, a: Did, b: Did)
    requires Doing(s, m, a) && Doing(m, r, b)
    ensures Doing(s, r, Did(b.ctx, a.ran + b.ran))
  {
    hide Tasks;
  }

  /** Entering n and doing its task. */
  lemma EnterDoes(w: World, g: Graph, target: string, n: string, s: State)
    requires Quiet(s) && DoNode(w, At(g, n), s.ctx).Some?
    ensures var t, d := TaskExec(w, At(g, n), Enter(g, target, n, s)), DoNode(w, At(g, n), s.ctx).value;
      t.go && Doing(s, t.s, d) && t.s.temp == s.temp
  {
    hide TaskExec, Enter, DoNode, Tasks;
    EnterQuiet(g, target, n, s);
    NodeDoes(w, At(g, n), Enter(g, target, n, s));
    var d := DoNode(w, At(g, n), s.ctx).value;
    assert [] + d.ran == d.ran;
    DoingThen(s, Enter(g, target, n, s), TaskExec(w, At(g, n), Enter(g, target, n, s)).s, Did(s.ctx, []), d);
  }

  // ---- the engine on a program ----

  /** Running node n from s comes to the same as running e from r, in any continuation that ends. */
  predicate Onto(w: World, g: Graph, target: string, more: nat, n: string, s: State, fuel: nat, e: string, r: State) {
    var z := NodeRun(w, g, target, fuel, e, r);
    !z.status.Starved? ==> NodeRun(w, g, target, more, n, s) == z
  }

  lemma OntoMore(w: World, g: Graph, target: string, more: nat, n: string, s: State, fuel: nat, mid: nat, e: string,
      r: State)
    requires fuel <= mid
    requires NodeRun(w, g, target, more, n, s) == NodeRun(w, g, target, mid, e, r)
    ensures Onto(w, g, target, more, n, s, fuel, e, r)
  {
    hide NodeRun;
    if !NodeRun(w, g, target, fuel, e, r).status.Starved? {
      NodeMore(w, g, target, fuel, mid, e, r);
    }
  }

  lemma RunsTask(w: World, g: Graph, target: string, n: string, e: string, s: State, fuel: nat, more: nat)
      returns (r: State)
    requires IsNode(g, n, Activity) && LeadsTo(g, n, e) && Quiet(s) && DoNode(w, At(g, n), s.ctx).Some?
    requires more >= fuel + 1
    ensures Kept(s, r, DoNode(w, At(g, n), s.ctx).value)
    ensures Onto(w, g, target, more, n, s, fuel, e, r)
  {
    hide TaskExec, Enter, DoNode, Doing, NodeRun, Onto, Follow;
    EnterDoes(w, g, target, n, s);
    var t := TaskExec(w, At(g, n), Enter(g, target, n, s));
    r := t.s;
    QuietNode(w, g, target, more, n, s);
    FollowLinks(w, g, target, more - 1, At(g, n).next, r);
    DoingQuiet(s, r, DoNode(w, At(g, n), s.ctx).value);
    OneLink(w, g, target, more - 1, At(g, n).next, e, r);
    OntoMore(w, g, target, more, n, s, fuel, more - 1, e, r);
  }

  lemma FollowLinks(w: World, g: Graph, target: string, fuel: nat, links: seq<Link>, s: State)
    ensures Follow(w, g, target, fuel, FanOut(links, s)) == LinksRun(w, g, target, fuel, links, s)
  {
  }

  lemma DoingQuiet(s: State, r: State, d: Did)
    requires Doing(s, r, d)
    ensures Quiet(r) && r.ctx == d.ctx
  {
  }

  // ---- loops ----

  /** The loop iterator `id` is on top of the stack and holds these items. */
  predicate OnTop(t: Temporary, below: seq<nat>, id: nat, items: seq<Value>) {
    t.loops == below + [id] && id < |t.iterators| && t.iterators[id] == items
  }

  /** From s to r a loop ran: its iterator is off the stack, older iterators are untouched. */
  ghost predicate LoopGates(t: Temporary, u: Temporary, below: seq<nat>, id: nat)
    requires id <= |t.iterators|
  {
    && u.loops == below && id <= |u.iterators| && u.iterators[..id] == t.iterators[..id]
    && forall n :: CountOf(u, n) == CountOf(t, n)
  }

  /** The inflow gateway while items are left: the branch ends there. */
  lemma InflowWaits(w: World, g: Graph, target: string, inflow: string, s: State, below: seq<nat>, id: nat,
      items: seq<Value>)
    requires IsNode(g, inflow, Loop) && At(g, inflow).forKey == "" && Quiet(s) && OnTop(s.temp, below, id, items)
    requires items != []
    ensures NodeRun(w, g, target, 1, inflow, s) == Enter(g, target, inflow, s)
  {
    hide Enter, TaskExec;
    QuietNode(w, g, target, 1, inflow, s);
    EnterQuiet(g, target, inflow, s);
  }

  /** The inflow gateway after the last item: the loop is left, its task runs, the flow goes on. */
  lemma InflowLeaves(w: World, g: Graph, target: string, inflow: string, e: string, s: State, below: seq<nat>,
      id: nat, fuel: nat) returns (r: State)
    requires IsNode(g, inflow, Loop) && At(g, inflow).forKey == "" && LeadsTo(g, inflow, e)
    requires Quiet(s) && OnTop(s.temp, below, id, []) && DoNode(w, At(g, inflow), s.ctx).Some?
    ensures Doing(s, r, DoNode(w, At(g, inflow), s.ctx).value) && r.temp == s.temp.(loops := below)
    ensures NodeRun(w, g, target, fuel + 1, inflow, s) == NodeRun(w, g, target, fuel, e, r)
  {
    hide Enter, TaskExec, DoNode, Tasks, NodeRun, Follow;
    var n := At(g, inflow);
    QuietNode(w, g, target, fuel + 1, inflow, s);
    EnterQuiet(g, target, inflow, s);
    var s1 := Enter(g, target, inflow, s);
    var s2 := s1.(temp := PopLoop(s1.temp));
    assert (below + [id])[..|below|] == below;
    NodeDoes(w, n, s2);
    r := TaskExec(w, n, s2).s;
    var d := DoNode(w, n, s.ctx).value;
    assert [] + d.ran == d.ran;
    DoingThen(s, s2, r, Did(s.ctx, []), d);
    FollowLinks(w, g, target, fuel, n.next, r);
    OneLink(w, g, target, fuel, n.next, e, r);
  }

  lemma ItemsStep(w: World, g: Graph, target: string, fuel: nat, n: Node, id: nat, items: seq<Value>, s: State,
      e: string)
    requires items != [] && n.next == [Link(e, "")] && Quiet(s)
    ensures var s1 := NextItem(n, id, items, s);
      var s2 := NodeRun(w, g, target, fuel, e, s1);
      && Quiet(s1)
      && ItemsRun(w, g, target, fuel, n, id, items, s) ==
           if !s2.status.Running? || |items| == 1 then s2 else ItemsRun(w, g, target, fuel, n, id, items[1..], s2)
  {
    hide NodeRun, LinksRun;
    OneLink(w, g, target, fuel, n.next, e, NextItem(n, id, items, s));
  }

  lemma NextItemTop(n: Node, below: seq<nat>, id: nat, items: seq<Value>, s: State)
    requires OnTop(s.temp, below, id, items) && items != []
    ensures var s1 := NextItem(n, id, items, s);
      && OnTop(s1.temp, below, id, items[1..]) && s1.ctx == Bound(s.ctx, n.forKey, items[0])
      && |s1.temp.iterators| == |s.temp.iterators| && s1.temp.iterators[..id] == s.temp.iterators[..id]
      && s1.log == s.log && s1.temp.counts == s.temp.counts
  {
  }

  lemma TopKept(t: Temporary, u: Temporary, below: seq<nat>, id: nat, items: seq<Value>)
    requires OnTop(t, below, id, items) && SameGates(t, u)
    ensures OnTop(u, below, id, items) && u.iterators[..id] == t.iterators[..id]
  {
  }

  lemma {:induction false} ClearKept(p: Prog, t: Temporary, u: Temporary)
    requires Clear(p, t) && forall n :: Apart(n, p) || CountOf(u, n) == CountOf(t, n)
    ensures Clear(p, u)
  {
    hide CountOf;
    match p
    case Task(_) =>
    case Seq(a, b) => ClearKept(a, t, u); ClearKept(b, t, u);
    case For(_, body, _) => ClearKept(body, t, u);
    case Par(fork, bs, join) =>
      assert !Apart(fork, p) && !Apart(join, p);
      ClearAllKept(bs, t, u);
    case Alt(_, arms) => ClearAllKept(arms, t, u);
  }

  lemma {:induction false} ClearAllKept(ps: Progs, t: Temporary, u: Temporary)
    requires ClearAll(ps, t) && forall n :: ApartAll(n, ps) || CountOf(u, n) == CountOf(t, n)
    ensures ClearAll(ps, u)
  {
    hide CountOf;
    match ps
    case Nope =>
    case Also(p, rest) => ClearKept(p, t, u); ClearAllKept(rest, t, u);
  }

  lemma DoingAll(s: State, m: State, r: State, a: Option<Did>, b: Option<Did>)
    requires a.Some? && b.Some? && Doing(s, m, a.value) && Doing(m, r, b.value)
    ensures After(a, b).Some? && Doing(s, r, After(a, b).value)
  {
    hide Tasks;
  }

  lemma DoingSame(s: State, s': State, r: State, d: Did)
    requires Doing(s', r, d) && s'.log == s.log
    ensures Doing(s, r, d)
  {
  }

  /** The rest of a loop, from before its next item to the node that follows it. */
  lemma {:induction false} RunsItems(w: World, g: Graph, target: string, p: Prog, e: string, below: seq<nat>, id: nat,
      items: seq<Value>, s: State, fuel: nat, more: nat) returns (r: State)
    requires p.For? && Draws(g, p, e) && Quiet(s) && OnTop(s.temp, below, id, items) && items != []
    requires Clear(p.body, s.temp)
    requires RunItems(w, g, At(g, p.out).forKey, p.body, items, s.ctx).Some?
    requires DoNode(w, At(g, p.inflow), RunItems(w, g, At(g, p.out).forKey, p.body, items, s.ctx).value.ctx).Some?
    requires more >= fuel + Cost(p.body) + 1
    ensures var b := RunItems(w, g, At(g, p.out).forKey, p.body, items, s.ctx);
      var d := After(b, DoNode(w, At(g, p.inflow), b.value.ctx));
      d.Some? && Doing(s, r, d.value) && LoopGates(s.temp, r.temp, below, id)
    ensures var z := NodeRun(w, g, target, fuel, e, r);
      !z.status.Starved? ==> ItemsRun(w, g, target, more, At(g, p.out), id, items, s) == z
    decreases p.body, |items| + 1
  {
    hide NodeRun, Enter, DoNode, Doing, ItemsRun, CountOf, Bound, Follow;
    var out := At(g, p.out);
    var s1 := NextItem(out, id, items, s);
    ItemsStep(w, g, target, more, out, id, items, s, Entry(p.body));
    NextItemTop(out, below, id, items, s);
    SameCounts(s.temp, s1.temp);
    ClearKept(p.body, s.temp, s1.temp);
    var d1 := RunProg(w, g, p.body, s1.ctx);
    if |items| == 1 {
      var m := RunsProg(w, g, target, p.body, p.inflow, s1, fuel + 1, more);
      TopKept(s1.temp, m.temp, below, id, []);
      DoingQuiet(s1, m, d1.value);
      LastItem(w, g, out.forKey, p.body, items, s.ctx);
      r := InflowLeaves(w, g, target, p.inflow, e, m, below, id, fuel);
      SameCounts(m.temp, r.temp);
      DoingSame(s, s1, m, d1.value);
      DoingAll(s, m, r, d1, DoNode(w, At(g, p.inflow), m.ctx));
    } else {
      var m := RunsProg(w, g, target, p.body, p.inflow, s1, 1, more);
      TopKept(s1.temp, m.temp, below, id, items[1..]);
      DoingQuiet(s1, m, d1.value);
      InflowWaits(w, g, target, p.inflow, m, below, id, items[1..]);
      var q := Enter(g, target, p.inflow, m);
      EnterQuiet(g, target, p.inflow, m);
      DoingQuiet(m, q, Did(m.ctx, []));
      ClearKept(p.body, s1.temp, q.temp);
      r := RunsItems(w, g, target, p, e, below, id, items[1..], q, fuel, more);
      var b := RunItems(w, g, out.forKey, p.body, items[1..], q.ctx);
      var i := DoNode(w, At(g, p.inflow), b.value.ctx);
      DoingSame(s, s1, m, d1.value);
      DoingNothing(s, m, q, d1.value);
      DoingAll(s, q, r, d1, After(b, i));
      AfterAssoc(d1, b, i);
    }
  }

  lemma SameCounts(t: Temporary, u: Temporary)
    requires t.counts == u.counts
    ensures forall n :: CountOf(u, n) == CountOf(t, n)
  {
  }

  lemma LastItem(w: World, g: Graph, key: string, body: Prog, items: seq<Value>, ctx: Ctx)
    requires |items| == 1 && RunItems(w, g, key, body, items, ctx).Some?
    ensures RunItems(w, g, key, body, items, ctx) == RunProg(w, g, body, Bound(ctx, key, items[0]))
  {
    hide RunProg;
    var d := RunProg(w, g, body, Bound(ctx, key, items[0]));
    assert RunItems(w, g, key, body, items[1..], CtxOf(d)) == Some(Did(CtxOf(d), []));
    assert d.value.ran + [] == d.value.ran;
  }

  lemma DoingNothing(s: State, m: State, q: State, d: Did)
    requires Doing(s, m, d) && Doing(m, q, Did(m.ctx, []))
    ensures Doing(s, q, d)
  {
    assert d.ran + [] == d.ran;
    hide Tasks;
    DoingThen(s, m, q, d, Did(m.ctx, []));
  }

  lemma AfterAssoc(a: Option<Did>, b: Option<Did>, c: Option<Did>)
    ensures After(a, After(b, c)) == After(After(a, b), c)
  {
    if a.Some? && b.Some? && c.Some? {
      assert a.value.ran + (b.value.ran + c.value.ran) == (a.value.ran + b.value.ran) + c.value.ran;
    }
  }

  // ---- forks and joins ----

  /** From s to r the branches of a fork met in their join. */
  ghost predicate JoinGates(t: Temporary, u: Temporary, join: string) {
    && u.loops == t.loops && t.iterators <= u.iterators
    && forall n :: CountOf(u, n) == if n == join then 0 else CountOf(t, n)
  }

  lemma ArriveCounts(n: string, s: State)
    ensures var r := ArriveAt(n, s);
      && r.ctx == s.ctx && r.temp.loops == s.temp.loops && r.temp.iterators == s.temp.iterators
      && (Quiet(s) ==> Doing(s, r, Did(s.ctx, [])))
      && forall m :: CountOf(r.temp, m) == CountOf(s.temp, m) + if m == n then 1 else 0
  {
    TasksNote(s, Arrive(n));
    hide Tasks, Skeleton;
  }

  lemma FireCounts(n: string, s: State)
    ensures var r := FireJoin(n, s);
      && r.ctx == s.ctx && r.temp.loops == s.temp.loops && r.temp.iterators == s.temp.iterators
      && (Quiet(s) ==> Doing(s, r, Did(s.ctx, [])))
      && forall m :: CountOf(r.temp, m) == if m == n then 0 else CountOf(s.temp, m)
  {
    TasksNote(s, Fire(n));
    hide Tasks, Skeleton;
    assert Tasks(FireJoin(n, s).log) == Tasks(s.log) + [];
  }

  /** A branch that is not the last one ends at the join. */
  lemma JoinWaits(w: World, g: Graph, target: string, join: string, s: State) returns (r: State)
    requires IsNode(g, join, Parallel) && Quiet(s) && CountOf(s.temp, join) + 1 < At(g, join).incoming
    ensures NodeRun(w, g, target, 1, join, s) == r
    ensures Doing(s, r, Did(s.ctx, [])) && r.temp.loops == s.temp.loops && r.temp.iterators == s.temp.iterators
    ensures forall m :: CountOf(r.temp, m) == CountOf(s.temp, m) + if m == join then 1 else 0
  {
    hide Enter, TaskExec, CountOf, ArriveAt, FireJoin, Doing, Always, NextNodes;
    QuietNode(w, g, target, 1, join, s);
    EnterQuiet(g, target, join, s);
    var s1 := Enter(g, target, join, s);
    DoingQuiet(s, s1, Did(s.ctx, []));
    ArriveCounts(join, s1);
    r := ArriveAt(join, s1);
    DoingNothing(s, s1, r, Did(s.ctx, []));
  }

  /** A gateway all of whose branches arrived runs its task once and goes on along every link. */
  lemma GatewayFires(w: World, g: Graph, target: string, n: string, s: State, fuel: nat) returns (r: State)
    requires IsNode(g, n, Parallel) && Quiet(s) && CountOf(s.temp, n) + 1 >= At(g, n).incoming
    requires DoNode(w, At(g, n), s.ctx).Some?
    ensures Doing(s, r, DoNode(w, At(g, n), s.ctx).value)
    ensures r.temp.loops == s.temp.loops && r.temp.iterators == s.temp.iterators
    ensures forall m :: CountOf(r.temp, m) == if m == n then 0 else CountOf(s.temp, m)
    ensures NodeRun(w, g, target, fuel + 1, n, s) ==
      LinksRun(w, g, target, fuel, Always(NextNodes(g, At(g, n).next)), r)
  {
    hide Enter, TaskExec, CountOf, ArriveAt, FireJoin, Doing, Always, NextNodes, Follow, LinksRun, DoNode;
    QuietNode(w, g, target, fuel + 1, n, s);
    EnterQuiet(g, target, n, s);
    var s1 := Enter(g, target, n, s);
    DoingQuiet(s, s1, Did(s.ctx, []));
    ArriveCounts(n, s1);
    var s2 := ArriveAt(n, s1);
    DoingQuiet(s1, s2, Did(s1.ctx, []));
    var d := DoNode(w, At(g, n), s.ctx).value;
    NodeDoes(w, At(g, n), s2);
    var t := TaskExec(w, At(g, n), s2).s;
    DoingQuiet(s2, t, d);
    FireCounts(n, t);
    r := FireJoin(n, t);
    DoingNothing(s, s1, s2, Did(s.ctx, []));
    DoingThen(s, s2, t, Did(s.ctx, []), d);
    assert [] + d.ran == d.ran;
    DoingNothing(s, t, r, d);
    FollowLinks(w, g, target, fuel, Always(NextNodes(g, At(g, n).next)), r);
  }

  lemma AlwaysStep(nodes: seq<string>)
    ensures nodes == [] ==> Always(nodes) == []
    ensures nodes != [] ==>
      Always(nodes) != [] && Always(nodes)[0] == Link(nodes[0], "") && Always(nodes)[1..] == Always(nodes[1..])
  {
  }

  /** The first of several unconditional links. */
  lemma FirstLink(w: World, g: Graph, target: string, fuel: nat, links: seq<Link>, e: string, s: State)
    requires links != [] && links[0] == Link(e, "") && Quiet(s)
    ensures var s1 := NodeRun(w, g, target, fuel, e, s);
      LinksRun(w, g, target, fuel, links, s) ==
        if s1.status.Running? then LinksRun(w, g, target, fuel, links[1..], s1) else s1
  {
    hide NodeRun;
  }

  /** The remaining branches of a fork, up to the node that follows the join. */
  lemma {:induction false} RunsAll(w: World, g: Graph, target: string, ps: Progs, join: string, e: string, s: State,
      fuel: nat, more: nat) returns (r: State)
    requires ps.Also? && DrawsAll(g, ps, join) && ApartAll(join, ps) && ClearAll(ps, s.temp) && Quiet(s)
    requires IsNode(g, join, Parallel) && At(g, join).incoming == CountOf(s.temp, join) + Length(ps)
    requires NextNodes(g, At(g, join).next) == [e] && more >= fuel + CostAll(ps) + 1
    requires RunAll(w, g, ps, s.ctx).Some? && DoNode(w, At(g, join), RunAll(w, g, ps, s.ctx).value.ctx).Some?
    ensures var b := RunAll(w, g, ps, s.ctx);
      var d := After(b, DoNode(w, At(g, join), b.value.ctx));
      d.Some? && Doing(s, r, d.value) && JoinGates(s.temp, r.temp, join)
    ensures var z := NodeRun(w, g, target, fuel, e, r);
      !z.status.Starved? ==> LinksRun(w, g, target, more, Always(Entries(ps)), s) == z
    decreases ps, 0
  {
    hide NodeRun, Enter, DoNode, Doing, LinksRun, CountOf, Always, NextNodes;
    var p, rest := ps.head, ps.tail;
    var d1 := RunProg(w, g, p, s.ctx);
    AlwaysStep(Entries(ps));
    FirstLink(w, g, target, more, Always(Entries(ps)), Entry(p), s);
    if rest.Nope? {
      var m := RunsProg(w, g, target, p, join, s, fuel + 1, more);
      DoingQuiet(s, m, d1.value);
      LastBranch(w, g, ps, s.ctx);
      r := GatewayFires(w, g, target, join, m, fuel);
      AlwaysStep([e]);
      OneLink(w, g, target, fuel, Always([e]), e, r) by {
        DoingQuiet(m, r, DoNode(w, At(g, join), m.ctx).value);
        AlwaysOne(e);
        assert Always([e]) == [Link(e, "")];
      }
      DoingAll(s, m, r, d1, DoNode(w, At(g, join), m.ctx));
      LinksEnd(w, g, target, more, Always(Entries(rest)), NodeRun(w, g, target, more, Entry(p), s));
    } else {
      var m := RunsProg(w, g, target, p, join, s, 1, more);
      DoingQuiet(s, m, d1.value);
      var q := JoinWaits(w, g, target, join, m);
      DoingQuiet(m, q, Did(m.ctx, []));
      ClearAllKept(rest, s.temp, q.temp);
      r := RunsAll(w, g, target, rest, join, e, q, fuel, more);
      var b := RunAll(w, g, rest, q.ctx);
      var i := DoNode(w, At(g, join), b.value.ctx);
      DoingNothing(s, m, q, d1.value);
      DoingAll(s, q, r, d1, After(b, i));
      AfterAssoc(d1, b, i);
    }
  }

  lemma AlwaysOne(e: string)
    ensures Always([e]) == [Link(e, "")]
  {
  }

  lemma LastBranch(w: World, g: Graph, ps: Progs, ctx: Ctx)
    requires ps.Also? && ps.tail.Nope? && RunAll(w, g, ps, ctx).Some?
    ensures RunAll(w, g, ps, ctx) == RunProg(w, g, ps.head, ctx)
  {
    hide RunProg;
    var d := RunProg(w, g, ps.head, ctx);
    assert RunAll(w, g, ps.tail, CtxOf(d)) == Some(Did(CtxOf(d), []));
    assert d.value.ran + [] == d.value.ran;
  }

  /** The arm an exclusive gateway chose. */
  lemma {:induction false} RunsArm(w: World, g: Graph, target: string, ps: Progs, next: string, e: string, s: State,
      fuel: nat, more: nat) returns (r: State)
    requires DrawsAll(g, ps, e) && ClearAll(ps, s.temp) && Quiet(s) && RunArm(w, g, ps, next, s.ctx).Some?
    requires more >= fuel + CostAll(ps)
    ensures Kept(s, r, RunArm(w, g, ps, next, s.ctx).value)
    ensures Onto(w, g, target, more, next, s, fuel, e, r)
    decreases ps, 0
  {
    hide NodeRun, Kept, Onto;
    if Entry(ps.head) == next {
      r := RunsProg(w, g, target, ps.head, e, s, fuel, more);
    } else {
      r := RunsArm(w, g, target, ps.tail, next, e, s, fuel, more);
    }
  }

  // ---- the main theorem ----

  lemma {:induction false} RunsProg(w: World, g: Graph, target: string, p: Prog, e: string, s: State, fuel: nat,
      more: nat) returns (r: State)
    requires Draws(g, p, e) && Clear(p, s.temp) && Quiet(s) && RunProg(w, g, p, s.ctx).Some? && more >= fuel + Cost(p)
    ensures Kept(s, r, RunProg(w, g, p, s.ctx).value)
    ensures Onto(w, g, target, more, Entry(p), s, fuel, e, r)
    decreases p, 1
  {
    hide NodeRun, Enter, DoNode, Doing, CountOf;
    match p
    case Task(n) =>
      r := RunsTask(w, g, target, n, e, s, fuel, more);
    case Seq(a, b) =>
      var m := RunsProg(w, g, target, a, Entry(b), s, fuel + Cost(b), more);
      DoingQuiet(s, m, RunProg(w, g, a, s.ctx).value);
      ClearKept(b, s.temp, m.temp);
      r := RunsProg(w, g, target, b, e, m, fuel, fuel + Cost(b));
      DoingAll(s, m, r, RunProg(w, g, a, s.ctx), RunProg(w, g, b, m.ctx));
    case For(_, _, _) => r := RunsFor(w, g, target, p, e, s, fuel, more);
    case Par(_, _, _) => r := RunsPar(w, g, target, p, e, s, fuel, more);
    case Alt(_, _) => r := RunsAlt(w, g, target, p, e, s, fuel, more);
  }

  lemma {:induction false} RunsFor(w: World, g: Graph, target: string, p: Prog, e: string, s: State, fuel: nat,
      more: nat) returns (r: State)
    requires p.For? && Draws(g, p, e) && Clear(p, s.temp) && Quiet(s) && RunProg(w, g, p, s.ctx).Some?
    requires more >= fuel + Cost(p)
    ensures Kept(s, r, RunProg(w, g, p, s.ctx).value)
    ensures Onto(w, g, target, more, p.out, s, fuel, e, r)
    decreases p, 0
  {
    hide NodeRun, Enter, DoNode, Doing, CountOf, TaskExec, BuildIterator, ItemsRun, Follow, Delivers;
    var n := At(g, p.out);
    EnterDoes(w, g, target, p.out, s);
    var d := DoNode(w, n, s.ctx);
    var t := TaskExec(w, n, Enter(g, target, p.out, s)).s;
    DoingQuiet(s, t, d.value);
    QuietNode(w, g, target, more, p.out, s);
    DeliversIs(n.source, t.ctx);
    var items: seq<Value> :| items != [] && Delivers(n.source, t.ctx, items);
    var id, below := |t.temp.iterators|, t.temp.loops;
    var s1 := t.(temp := PushLoop(t.temp, items));
    SameCounts(t.temp, s1.temp);
    ClearKept(p.body, t.temp, s1.temp);
    r := RunsItems(w, g, target, p, e, below, id, items, s1, fuel, more - 1);
    FollowItems(w, g, target, more - 1, n, id, items, s1);
    var b := RunItems(w, g, n.forKey, p.body, items, t.ctx);
    var rest := After(b, DoNode(w, At(g, p.inflow), b.value.ctx));
    DoingSame(t, s1, r, rest.value);
    DoingAll(s, t, r, d, rest);
    assert s1.temp.iterators[..id] == t.temp.iterators;
  }

  lemma FollowItems(w: World, g: Graph, target: string, fuel: nat, n: Node, id: nat, items: seq<Value>, s: State)
    ensures Follow(w, g, target, fuel, Iterate(n, id, items, s)) == ItemsRun(w, g, target, fuel, n, id, items, s)
  {
  }

  lemma {:induction false} RunsPar(w: World, g: Graph, target: string, p: Prog, e: string, s: State, fuel: nat,
      more: nat) returns (r: State)
    requires p.Par? && Draws(g, p, e) && Clear(p, s.temp) && Quiet(s) && RunProg(w, g, p, s.ctx).Some?
    requires more >= fuel + Cost(p)
    ensures Kept(s, r, RunProg(w, g, p, s.ctx).value)
    ensures Onto(w, g, target, more, p.fork, s, fuel, e, r)
    decreases p, 0
  {
    hide NodeRun, Enter, DoNode, Doing, CountOf, LinksRun, Always, NextNodes;
    var d := DoNode(w, At(g, p.fork), s.ctx);
    var m := GatewayFires(w, g, target, p.fork, s, more - 1);
    DoingQuiet(s, m, d.value);
    ClearAllKept(p.branches, s.temp, m.temp);
    r := RunsAll(w, g, target, p.branches, p.join, e, m, fuel, more - 1);
    var b := RunAll(w, g, p.branches, m.ctx);
    DoingAll(s, m, r, d, After(b, DoNode(w, At(g, p.join), b.value.ctx)));
  }

  lemma {:induction false} RunsAlt(w: World, g: Graph, target: string, p: Prog, e: string, s: State, fuel: nat,
      more: nat) returns (r: State)
    requires p.Alt? && Draws(g, p, e) && Clear(p, s.temp) && Quiet(s) && RunProg(w, g, p, s.ctx).Some?
    requires more >= fuel + Cost(p)
    ensures Kept(s, r, RunProg(w, g, p, s.ctx).value)
    ensures Onto(w, g, target, more, p.gate, s, fuel, e, r)
    decreases p, 0
  {
    hide NodeRun, Enter, DoNode, Doing, CountOf, LinksRun, Always, TaskExec, Choose, Follow, Onto, Picks;
    var n := At(g, p.gate);
    EnterDoes(w, g, target, p.gate, s);
    var d := DoNode(w, n, s.ctx);
    var t := TaskExec(w, n, Enter(g, target, p.gate, s)).s;
    DoingQuiet(s, t, d.value);
    QuietNode(w, g, target, more, p.gate, s);
    PicksIs(w, n.next, t);
    var next :| Picks(w, n.next, t.ctx, next);
    r := RunsArm(w, g, target, p.arms, next, e, t, fuel, more - 1);
    AlwaysOne(next);
    FollowLinks(w, g, target, more - 1, Always([next]), t);
    OneLink(w, g, target, more - 1, Always([next]), next, t);
    OntoFrom(w, g, target, more, p.gate, s, more - 1, next, t, fuel, e, r);
    DoingAll(s, t, r, d, RunArm(w, g, p.arms, next, t.ctx));
  }

  lemma OntoFrom(w: World, g: Graph, target: string, more: nat, n: string, s: State, mid: nat, n': string, s': State,
      fuel: nat, e: string, r: State)
    requires NodeRun(w, g, target, more, n, s) == NodeRun(w, g, target, mid, n', s')
    requires Onto(w, g, target, mid, n', s', fuel, e, r)
    ensures Onto(w, g, target, more, n, s, fuel, e, r)
  {
    hide NodeRun;
  }

  /** Over an empty collection the loop never reaches its inflow: what follows is not run and the
      iterator stays on the stack. */
  lemma EmptyLoop(w: World, g: Graph, target: string, p: Prog, e: string, s: State, fuel: nat)
    requires p.For? && Draws(g, p, e) && Quiet(s) && DoNode(w, At(g, p.out), s.ctx).Some? && fuel > 0
    requires Delivers(At(g, p.out).source, DoNode(w, At(g, p.out), s.ctx).value.ctx, [])
    ensures var r := NodeRun(w, g, target, fuel, p.out, s);
      Doing(s, r, DoNode(w, At(g, p.out), s.ctx).value) && |r.temp.loops| == |s.temp.loops| + 1
  {
    hide NodeRun, Enter, DoNode, Tasks, TaskExec, BuildIterator, ItemsRun, Follow, Delivers;
    var n := At(g, p.out);
    DeliversIs(n.source, DoNode(w, n, s.ctx).value.ctx);
    EnterDoes(w, g, target, p.out, s);
    var t := TaskExec(w, n, Enter(g, target, p.out, s)).s;
    QuietNode(w, g, target, fuel, p.out, s);
    FollowItems(w, g, target, fuel - 1, n, |t.temp.iterators|, [], t.(temp := PushLoop(t.temp, [])));
    NoItems(w, g, target, fuel - 1, n, |t.temp.iterators|, [], t.(temp := PushLoop(t.temp, [])));
  }

  lemma NoItems(w: World, g: Graph, target: string, fuel: nat, n: Node, id: nat, items: seq<Value>, s: State)
    requires items == []
    ensures ItemsRun(w, g, target, fuel, n, id, items, s) == s
  {
  }

  // ---- whole evaluations ----

  /** A start or an end node: callbacks only. */
  function DoCallbacks(w: World, n: Node, ctx: Ctx): Option<Did> {
    var e1 := w.onStart(n.id, ctx);
    if e1.stop || e1.interrupt then None
    else
      var e3 := w.onEnd(n.id, e1.ctx);
      if e3.stop || e3.interrupt then None else Some(Did(e3.ctx, []))
  }

  lemma CallbacksDo(w: World, n: Node, s: State)
    requires Quiet(s) && DoCallbacks(w, n, s.ctx).Some?
    ensures var t := Callbacks(w, n, s);
      t.go && t.s == s.(ctx := DoCallbacks(w, n, s.ctx).value.ctx)
  {
    hide Skeleton, OnNodeStart, OnNodeEnd;
    CallbackDoes(w, n, s);
    CallbackDoes(w, n, s.(ctx := w.onStart(n.id, s.ctx).ctx));
  }

  /** g is a start node, a program and an end node. */
  predicate Whole(g: Graph, p: Prog, end: string) {
    && IsNode(g, g.start, Start) && LeadsTo(g, g.start, Entry(p)) && Draws(g, p, end) && IsNode(g, end, End)
  }

  ghost function RunWhole(w: World, g: Graph, p: Prog, end: string, ctx: Ctx): Option<Did> {
    var d := DoCallbacks(w, At(g, g.start), ctx);
    var b := RunProg(w, g, p, CtxOf(d));
    After(d, After(b, DoCallbacks(w, At(g, end), CtxOf(b))))
  }

  lemma {:induction false} ClearFirst(p: Prog, t: Temporary)
    requires t.counts == map[]
    ensures Clear(p, t)
  {
    match p
    case Task(_) =>
    case Seq(a, b) => ClearFirst(a, t); ClearFirst(b, t);
    case For(_, body, _) => ClearFirst(body, t);
    case Par(_, bs, _) => ClearFirstAll(bs, t);
    case Alt(_, arms) => ClearFirstAll(arms, t);
  }

  lemma {:induction false} ClearFirstAll(ps: Progs, t: Temporary)
    requires t.counts == map[]
    ensures ClearAll(ps, t)
  {
    match ps
    case Nope =>
    case Also(p, rest) => ClearFirst(p, t); ClearFirstAll(rest, t);
  }

  lemma FreshWhole(w: World, g: Graph, fuel: nat, ctx: Ctx, trace: Trace, p: Prog) returns (s: State)
    requires IsNode(g, g.start, Start) && LeadsTo(g, g.start, Entry(p)) && LastNode(trace, g) == g.start && fuel > 0
    requires DoCallbacks(w, At(g, g.start), ctx).Some?
    ensures Quiet(s) && s.ctx == DoCallbacks(w, At(g, g.start), ctx).value.ctx && s.temp == Temporary(map[], [], [], [])
    ensures Tasks(s.log) == [] && DoCallbacks(w, At(g, g.start), ctx).value.ran == []
    ensures Eval(w, g, fuel, -1, ctx, trace) == NodeRun(w, g, g.start, fuel - 1, Entry(p), s)
  {
    hide NodeRun, Follow, Callbacks, LastNode, Tasks, TakeStep, Eval;
    FreshStart(w, g, fuel, -1, ctx, trace);
    var s0 := Visited(g.start, Begin(ctx, trace, -1)).(reverting := false);
    UnlimitedStep(g.start, s0);
    var s1 := TakeStep(g.start, s0);
    CallbacksDo(w, At(g, g.start), s1);
    s := Callbacks(w, At(g, g.start), s1).s;
    FollowLinks(w, g, g.start, fuel - 1, At(g, g.start).next, s);
    OneLink(w, g, g.start, fuel - 1, At(g, g.start).next, Entry(p), s);
    NoTasks(Begin(ctx, trace, -1));
    TasksNote(Begin(ctx, trace, -1), VisitOf(g.start, Begin(ctx, trace, -1)));
  }

  lemma NoTasks(s: State)
    requires s.log == []
    ensures Tasks(s.log) == []
  {
  }

  lemma UnlimitedStep(n: string, s: State)
    requires s.steps < 0
    ensures var r := TakeStep(n, s);
      r == s.(log := r.log) && Tasks(r.log) == Tasks(s.log)
  {
    TasksNote(s, Pass(n));
    hide Tasks, Skeleton;
    assert Tasks(s.log) + [] == Tasks(s.log);
  }

  lemma EndDoes(w: World, g: Graph, target: string, end: string, s: State)
    requires IsNode(g, end, End) && Quiet(s) && DoCallbacks(w, At(g, end), s.ctx).Some?
    ensures var r := NodeRun(w, g, target, 1, end, s);
      Doing(s, r, DoCallbacks(w, At(g, end), s.ctx).value) && r.temp == s.temp
  {
    hide Enter, Callbacks, Tasks;
    QuietNode(w, g, target, 1, end, s);
    EnterQuiet(g, target, end, s);
    CallbacksDo(w, At(g, end), Enter(g, target, end, s));
  }

  /** A properly nested graph evaluates as the program it draws: what ran, the variables each
      saw and those in the end are the program's, no loop is left open and no branch is left waiting. */
  lemma {:induction false} NestedRun(w: World, g: Graph, p: Prog, end: string, fuel: nat, ctx: Ctx, trace: Trace)
    requires Whole(g, p, end) && LastNode(trace, g) == g.start && fuel >= Cost(p) + 2
    requires RunWhole(w, g, p, end, ctx).Some?
    ensures var r, d := Eval(w, g, fuel, -1, ctx, trace), RunWhole(w, g, p, end, ctx).value;
      && r.status.Running? && !r.stopped && r.ctx == d.ctx && Tasks(r.log) == d.ran
      && r.temp.loops == [] && forall n :: CountOf(r.temp, n) == 0
  {
    hide NodeRun, Doing, DoCallbacks, RunProg, Draws, Eval, Clear, CountOf, LastNode, Tasks;
    var d := DoCallbacks(w, At(g, g.start), ctx);
    var s := FreshWhole(w, g, fuel, ctx, trace, p);
    ClearFirst(p, s.temp);
    var m := RunsProg(w, g, g.start, p, end, s, 1, fuel - 1);
    var b := RunProg(w, g, p, s.ctx);
    DoingQuiet(s, m, b.value);
    EndDoes(w, g, g.start, end, m);
    var r := NodeRun(w, g, g.start, 1, end, m);
    var x := DoCallbacks(w, At(g, end), m.ctx);
    DoingQuiet(m, r, x.value);
    DoingAll(s, m, r, b, x);
    Finish(s, r, After(b, x).value, d.value);
    NoCounts(s.temp, r.temp);
  }

  lemma NoCounts(t: Temporary, u: Temporary)
    requires t.counts == map[] && forall n :: CountOf(u, n) == CountOf(t, n)
    ensures forall n :: CountOf(u, n) == 0
  {
  }

  lemma Finish(s: State, r: State, b: Did, d: Did)
    requires Doing(s, r, b) && Tasks(s.log) == [] && d.ran == []
    ensures r.ctx == b.ctx && Tasks(r.log) == d.ran + b.ran && r.status.Running? && !r.stopped
  {
  }
}

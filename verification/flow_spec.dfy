/** Graphs, the run state and what one evaluation of flow/engine.go computes. */
module FlowSpec {

  // ---- graphs (flow/graph.go, flow/node.go, flow/link.go) ----

  datatype Option<T> = None | Some(value: T)

  datatype NodeType = Unknown | Start | End | Activity | Exclusive | Inclusive | Parallel | Loop

  /** An outgoing link; an empty `when` is no condition. */
  datatype Link = Link(next: string, when: string)

  datatype Value = NoValue | Scalar(n: int) | Collection(items: seq<Value>)

  /** The $in meta of a loop gateway, as buildIterator tells its forms apart. */
  datatype InSpec = Items(items: seq<Value>) | Steps(start: int, end: int, step: int) | Variable(name: string) | BadIn

  /** `next` are the outgoing links by descending priority, `incoming` counts the links into the node
      (0 for a start node, whose reverse index is never built). */
  datatype Node = Node(id: string, typ: NodeType, when: string, forKey: string, source: InSpec,
                       next: seq<Link>, incoming: nat)

  datatype Graph = Graph(id: string, nodes: map<string, Node>, start: string)

  predicate WellFormed(g: Graph) {
    && g.start in g.nodes
    && (forall n <- g.nodes :: g.nodes[n].id == n)
  }

  // ---- the outside world: driver, interceptors and task scripts ----

  type Ctx = map<string, Value>

  datatype CondResult = Yes | No | CondError

  /** What a task or a node callback does: new variables, ctx.Stop(), ctx.Interrupt(), an error. */
  datatype Effect = Effect(ctx: Ctx, stop: bool, interrupt: bool, error: bool)

  datatype World = World(
    cond: (string, Ctx) -> CondResult,
    task: (string, Ctx) -> Effect,
    onStart: (string, Ctx) -> Effect,
    onEnd: (string, Ctx) -> Effect)

  // ---- trace (flow/trace.go) ----

  datatype Trace = Trace(enabled: bool, root: string, last: map<string, string>)

  function RecordNode(t: Trace, g: Graph, n: string): Trace {
    if !t.enabled then t
    else t.(root := if t.root == "" then g.id else t.root, last := t.last[g.id := n])
  }

  function LastRecord(t: Trace, graphId: string): Option<string> {
    var key := if graphId == "" then t.root else graphId;
    if !t.enabled || key == "" || key !in t.last then None else Some(t.last[key])
  }

  function LastNode(t: Trace, g: Graph): string {
    match LastRecord(t, g.id)
    case None => g.start
    case Some(n) => n
  }

  // ---- run state (flow/exchanger.go, flow/temporary.go) ----

  /** What happens in a run: a node is entered with the arrival counters, variables and resume mode of
      that moment, is recorded, gets past the step budget, arrives at or fires a parallel gateway, runs its
      task with the variables of that moment; the flow is stopped. */
  datatype Event =
    | Visit(n: string, counts: map<string, nat>, ctx: Ctx, reverting: bool)
    | Record(n: string) | Pass(n: string) | Arrive(n: string) | Fire(n: string)
    | Ran(n: string, ctx: Ctx) | Stopped

  /** The per-run gateway state: arrival counters, the stack of matched counts, the stack of loop
      iterators. Iterator objects are shared by reference: the stack holds indices into `iterators`,
      each entry the items its iterator still has to deliver. */
  datatype Temporary = Temporary(counts: map<string, nat>, matched: seq<nat>, loops: seq<nat>,
                                 iterators: seq<seq<Value>>)

  /** Failed: an error was returned. Starved: the recursion bound of the model was reached. */
  datatype Status = Running | Failed | Starved

  datatype State = State(
    ctx: Ctx, trace: Trace, steps: int, count: int,
    stopped: bool, interrupted: bool, reverting: bool,
    temp: Temporary, status: Status, log: seq<Event>)

  /** The events that are not about a task or the stop. */
  function Skeleton(log: seq<Event>): seq<Event> {
    if log == [] then []
    else
      var e := log[|log| - 1];
      Skeleton(log[..|log| - 1]) + if e.Ran? || e.Stopped? then [] else [e]
  }

  function Note(s: State, e: Event): (r: State)
    ensures Skeleton(r.log) == Skeleton(s.log) + if e.Ran? || e.Stopped? then [] else [e]
  {
    assert (s.log + [e])[..|s.log|] == s.log;
    s.(log := s.log + [e])
  }

  /** What callbacks, conditions and tasks leave alone. */
  predicate Beside(s: State, r: State) {
    && r.temp == s.temp && r.trace == s.trace && r.steps == s.steps && r.count == s.count
    && r.reverting == s.reverting && (s.stopped ==> r.stopped)
    && Skeleton(r.log) == Skeleton(s.log)
  }

  function Int32(x: int): int {
    (x + 0x8000_0000) % 0x1_0000_0000 - 0x8000_0000
  }

  /** nextStep: an atomic int32 counter against the budget cut to int32. */
  function NextStep(s: State): State {
    if s.steps < 0 then s else s.(count := Int32(s.count + 1))
  }

  predicate WithinBudget(s: State) {
    s.steps < 0 || s.count <= Int32(s.steps)
  }

  function Stop(s: State): (r: State)
    ensures Beside(s, r) && r.stopped && r.status == s.status
  {
    if s.stopped then s else Note(s, Stopped).(stopped := true)
  }

  function Put(ctx: Ctx, key: string, v: Value): Ctx {
    if v.NoValue? then ctx else ctx[key := v]
  }

  function CountOf(t: Temporary, n: string): nat {
    if n in t.counts then t.counts[n] else 0
  }

  // ---- one node ----

  function Apply(s: State, e: Effect): (r: State)
    ensures Beside(s, r) && r.status == s.status
  {
    var s1 := s.(ctx := e.ctx, interrupted := s.interrupted || e.interrupt);
    if e.stop then Stop(s1) else s1
  }

  datatype Exec = Exec(go: bool, s: State)

  /** The check after a callback or a task: a stop or an interrupt ends the branch. */
  function GoOn(s: State): (r: Exec)
    ensures Beside(s, r.s) && r.s.status == s.status
  {
    if s.stopped then Exec(false, s)
    else if s.interrupted then Exec(false, s.(interrupted := false))
    else Exec(true, s)
  }

  function OnNodeStart(w: World, n: Node, s: State): (r: Exec)
    ensures Beside(s, r.s) && r.s.status == s.status
  {
    if s.reverting then Exec(true, s) else GoOn(Apply(s, w.onStart(n.id, s.ctx)))
  }

  function OnNodeEnd(w: World, n: Node, s: State): (r: Exec)
    ensures Beside(s, r.s) && r.s.status == s.status
  {
    if s.reverting then Exec(true, s) else GoOn(Apply(s, w.onEnd(n.id, s.ctx)))
  }

  /** onNodeStart and onNodeEnd of a node without task. */
  function Callbacks(w: World, n: Node, s: State): (r: Exec)
    ensures Beside(s, r.s) && r.s.status == s.status
  {
    var b := OnNodeStart(w, n, s);
    if !b.go then b else OnNodeEnd(w, n, b.s)
  }

  function Test(w: World, when: string, s: State): CondResult {
    if when == "" then Yes else w.cond(when, s.ctx)
  }

  function Fail(s: State): (r: State)
    ensures Beside(s, r)
  {
    s.(status := Failed)
  }

  function RunTask(w: World, n: Node, s: State): (r: State)
    ensures Beside(s, r) && r.status == if w.task(n.id, s.ctx).error then Failed else s.status
  {
    var e := w.task(n.id, s.ctx);
    var s1 := Apply(Note(s, Ran(n.id, s.ctx)), e);
    if e.error then Fail(s1) else s1
  }

  /** The when-condition of a node, then its task. */
  function WhenTask(w: World, n: Node, s: State): (r: Exec)
    ensures Beside(s, r.s)
    ensures s.status.Running? ==> !r.s.status.Starved? && (r.go ==> r.s.status.Running?)
  {
    var c := Test(w, n.when, s);
    if c.CondError? then Exec(false, Fail(s))
    else
      var t := if c.Yes? then RunTask(w, n, s) else s;
      if t.status.Failed? then Exec(false, t) else GoOn(t)
  }

  function TaskExec(w: World, n: Node, s: State): (r: Exec)
    ensures Beside(s, r.s)
    ensures s.status.Running? ==> !r.s.status.Starved? && (r.go ==> r.s.status.Running?)
  {
    if s.reverting then Exec(true, s)
    else
      var b := OnNodeStart(w, n, s);
      if !b.go then b
      else
        var t := WhenTask(w, n, b.s);
        if !t.go then t else OnNodeEnd(w, n, t.s)
  }

  // ---- gateways without recursion ----

  datatype Choice = Take(next: string) | Nothing | Error

  /** A fan-out that asks no condition. */
  function Always(nodes: seq<string>): (links: seq<Link>)
    ensures |links| == |nodes| && forall i | 0 <= i < |nodes| :: links[i] == Link(nodes[i], "")
  {
    seq(|nodes|, i requires 0 <= i < |nodes| => Link(nodes[i], ""))
  }

  /** The exclusive gateway: the first link whose condition holds, else the last unconditional one. */
  function Choose(w: World, links: seq<Link>, def: Option<string>, s: State): Choice {
    if links == [] then (if def.None? then Nothing else Take(def.value))
    else if links[0].when == "" then Choose(w, links[1..], Some(links[0].next), s)
    else
      match w.cond(links[0].when, s.ctx)
      case CondError => Error
      case Yes => Take(links[0].next)
      case No => Choose(w, links[1..], def, s)
  }

  /** The inclusive gateway: the targets of all links that hold; None when a condition fails to run. */
  function Matching(w: World, links: seq<Link>, s: State): Option<seq<string>> {
    if links == [] then Some([])
    else
      match Test(w, links[0].when, s)
      case CondError => None
      case Yes =>
        var rest := Matching(w, links[1..], s);
        if rest.None? then None else Some([links[0].next] + rest.value)
      case No => Matching(w, links[1..], s)
  }

  /** NextNodes: the targets that exist, whatever the conditions say. */
  function NextNodes(g: Graph, links: seq<Link>): seq<string> {
    if links == [] then []
    else (if links[0].next in g.nodes then [links[0].next] else []) + NextNodes(g, links[1..])
  }

  /** The values of a stepper from `start` in steps below `end`. */
  function StepValues(start: int, end: int, step: int): seq<Value>
    requires step > 0
    decreases end - start
  {
    if start < end then [Scalar(start)] + StepValues(start + step, end, step) else []
  }

  function BuildIterator(source: InSpec, ctx: Ctx): Option<seq<Value>> {
    match source
    case Items(items) => Some(items)
    case Steps(start, end, step) => if step <= 0 then None else Some(StepValues(start, end, step))
    case Variable(name) => if name in ctx && ctx[name].Collection? then Some(ctx[name].items) else None
    case BadIn => None
  }

  // ---- the gateway state ----

  predicate Joining(n: Node, t: Temporary) {
    n.incoming > 1 && t.matched != []
  }

  function CountIn(n: string, t: Temporary): Temporary {
    t.(counts := t.counts[n := CountOf(t, n) + 1])
  }

  function PopMatched(t: Temporary): Temporary
    requires t.matched != []
  {
    t.(matched := t.matched[..|t.matched| - 1])
  }

  predicate HasNext(t: Temporary, id: nat) {
    id < |t.iterators| && t.iterators[id] != []
  }

  /** The iterator on top of the loop stack still has items. */
  predicate Iterating(t: Temporary) {
    t.loops != [] && HasNext(t, t.loops[|t.loops| - 1])
  }

  function PopLoop(t: Temporary): Temporary {
    if t.loops == [] then t else t.(loops := t.loops[..|t.loops| - 1])
  }

  function PushLoop(t: Temporary, items: seq<Value>): Temporary {
    t.(loops := t.loops + [|t.iterators|], iterators := t.iterators + [items])
  }

  function SetItems(t: Temporary, id: nat, items: seq<Value>): Temporary {
    if id < |t.iterators| then t.(iterators := t.iterators[id := items]) else t
  }

  // ---- what a node does on entry, before any other node runs ----

  /** A node is done, or goes on along links, or iterates its links over items. */
  datatype Plan =
    | Done(s: State)
    | FanOut(links: seq<Link>, s: State)
    | Iterate(n: Node, id: nat, items: seq<Value>, s: State)

  function PlanOf(w: World, g: Graph, n: Node, s: State): Plan {
    match n.typ
    case Unknown => Done(s)
    case End => Done(Callbacks(w, n, s).s)
    case Start => PlanOut(n.next, Callbacks(w, n, s))
    case Activity => PlanOut(n.next, TaskExec(w, n, s))
    case Exclusive => PlanChoice(w, n, TaskExec(w, n, s))
    case Inclusive => PlanInclusive(w, n, s)
    case Parallel => PlanParallel(w, g, n, s)
    case Loop => if n.forKey == "" then PlanInflow(w, n, s) else PlanOutflow(w, n, TaskExec(w, n, s))
  }

  function PlanOut(links: seq<Link>, t: Exec): Plan {
    if t.go then FanOut(links, t.s) else Done(t.s)
  }

  function PlanChoice(w: World, n: Node, t: Exec): Plan {
    if !t.go then Done(t.s)
    else
      match Choose(w, n.next, None, t.s)
      case Error => Done(Fail(t.s))
      case Nothing => Done(t.s)
      case Take(next) => FanOut(Always([next]), t.s)
  }

  /** Join: wait until as many branches arrived as were matched. Out: all links that hold. */
  function PlanInclusive(w: World, n: Node, s: State): Plan {
    if !Joining(n, s.temp) then PlanMatching(w, n, TaskExec(w, n, s))
    else
      var t1 := CountIn(n.id, s.temp);
      if t1.matched[|t1.matched| - 1] > CountOf(t1, n.id) then Done(s.(temp := t1))
      else PlanMatching(w, n, TaskExec(w, n, s.(temp := PopMatched(t1))))
  }

  function PlanMatching(w: World, n: Node, t: Exec): Plan {
    if !t.go then Done(t.s)
    else
      var m := Matching(w, n.next, t.s);
      if m.None? then Done(Fail(t.s))
      else if m.value == [] then Done(t.s)
      else FanOut(Always(m.value), t.s.(temp := t.s.temp.(matched := t.s.temp.matched + [|m.value|])))
  }

  function ArriveAt(n: string, s: State): State {
    Note(s, Arrive(n)).(temp := CountIn(n, s.temp))
  }

  function FireJoin(n: string, s: State): State {
    Note(s, Fire(n)).(temp := s.temp.(counts := s.temp.counts[n := 0]))
  }

  /** Join: wait until every incoming link was taken; then reset the count and take every link. */
  function PlanParallel(w: World, g: Graph, n: Node, s: State): Plan {
    var s1 := ArriveAt(n.id, s);
    if n.incoming > CountOf(s1.temp, n.id) then Done(s1)
    else
      var t := TaskExec(w, n, s1);
      if !t.go then Done(t.s) else FanOut(Always(NextNodes(g, n.next)), FireJoin(n.id, t.s))
  }

  /** A loop gateway without $for ends a loop body: it waits while the top iterator has items. */
  function PlanInflow(w: World, n: Node, s: State): Plan {
    if Iterating(s.temp) then Done(s) else PlanOut(n.next, TaskExec(w, n, s.(temp := PopLoop(s.temp))))
  }

  /** A loop gateway with $for builds its iterator and drives the body. */
  function PlanOutflow(w: World, n: Node, t: Exec): Plan {
    if !t.go then Done(t.s)
    else
      var items := BuildIterator(n.source, t.s.ctx);
      if items.None? then Done(Fail(t.s))
      else Iterate(n, |t.s.temp.iterators|, items.value, t.s.(temp := PushLoop(t.s.temp, items.value)))
  }

  // ---- the recursive walk, with a bound on the recursion depth ----

  function VisitOf(n: string, s: State): Event {
    Visit(n, s.temp.counts, s.ctx, s.reverting)
  }

  function Visited(n: string, s: State): (r: State)
    ensures r == s.(log := r.log)
  {
    Note(s, VisitOf(n, s))
  }

  /** The head of nodeRun. */
  function Enter(g: Graph, target: string, n: string, s: State): (r: State)
    ensures r.temp == s.temp
  {
    Head(g, target, n, Visited(n, s))
  }

  /** Find the resume point or record the node, then take a step. */
  function Head(g: Graph, target: string, n: string, s: State): (r: State)
    ensures r.temp == s.temp
  {
    if s.reverting && n != target then s
    else if s.reverting then TakeStep(n, s.(reverting := false))
    else TakeStep(n, Note(s, Record(n)).(trace := RecordNode(s.trace, g, n)))
  }

  function TakeStep(n: string, s: State): (r: State)
    ensures r.temp == s.temp
  {
    var s1 := NextStep(s);
    if WithinBudget(s1) then Note(s1, Pass(n)) else Stop(s1)
  }

  function NodeRun(w: World, g: Graph, target: string, fuel: nat, n: string, s: State): State
    decreases fuel, 0
  {
    if fuel == 0 then s.(status := Starved)
    else if n !in g.nodes || s.stopped then s
    else if s.interrupted then s.(interrupted := false)
    else
      var s1 := Enter(g, target, n, s);
      if s1.stopped then s1 else Follow(w, g, target, fuel - 1, PlanOf(w, g, g.nodes[n], s1))
  }

  function Follow(w: World, g: Graph, target: string, fuel: nat, p: Plan): State
    decreases fuel, 3
  {
    match p
    case Done(s) => s
    case FanOut(links, s) => LinksRun(w, g, target, fuel, links, s)
    case Iterate(n, id, items, s) => ItemsRun(w, g, target, fuel, n, id, items, s)
  }

  /** The loop over outgoing links: those whose condition holds run, in order, until one fails. */
  function LinksRun(w: World, g: Graph, target: string, fuel: nat, links: seq<Link>, s: State): State
    decreases fuel, 1, |links|
  {
    if links == [] then s
    else
      var c := Test(w, links[0].when, s);
      if c.CondError? then Fail(s)
      else
        var s1 := if c.Yes? then NodeRun(w, g, target, fuel, links[0].next, s) else s;
        if !s1.status.Running? then s1 else LinksRun(w, g, target, fuel, links[1..], s1)
  }

  /** The next item leaves the iterator and is bound to the loop variable. */
  function NextItem(n: Node, id: nat, items: seq<Value>, s: State): State
    requires items != []
  {
    s.(temp := SetItems(s.temp, id, items[1..]), ctx := Put(s.ctx, n.forKey, items[0]))
  }

  /** The iteration of a loop gateway whose iterator `id` still holds `items`. */
  function ItemsRun(w: World, g: Graph, target: string, fuel: nat, n: Node, id: nat, items: seq<Value>, s: State): State
    decreases fuel, 2, |items|
  {
    if items == [] then s
    else
      var s1 := LinksRun(w, g, target, fuel, n.next, NextItem(n, id, items, s));
      if !s1.status.Running? then s1 else ItemsRun(w, g, target, fuel, n, id, items[1..], s1)
  }

  // ---- a whole evaluation ----

  /** NewExchanger and the reset at the head of eval: flags, counters and stacks start afresh, the
      variables and the trace of the context stay. */
  function Begin(ctx: Ctx, trace: Trace, steps: int): State {
    State(ctx, trace, steps, 0, false, false, true, Temporary(map[], [], [], []), Running, [])
  }

  /** EvalWithSteps: walk from the start, reverting up to the last recorded node. */
  function Eval(w: World, g: Graph, fuel: nat, steps: int, ctx: Ctx, trace: Trace): State {
    NodeRun(w, g, LastNode(trace, g), fuel, g.start, Begin(ctx, trace, steps))
  }
}

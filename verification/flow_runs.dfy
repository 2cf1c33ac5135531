/** Whole runs of the engine: more recursion depth changes nothing, and a step budget bounds them. */
module FlowRuns {
  import opened FlowSpec

  /** The state a plan goes on from. */
  function PlanState(p: Plan): State {
    match p
    case Done(s) => s
    case FanOut(_, s) => s
    case Iterate(_, _, _, s) => s
  }

  function Passed(log: seq<Event>): seq<string> {
    if log == [] then []
    else
      var e := log[|log| - 1];
      Passed(log[..|log| - 1]) + if e.Pass? then [e.n] else []
  }

  lemma PassedOne(log: seq<Event>, e: Event)
    ensures Passed(log + [e]) == Passed(log) + if e.Pass? then [e.n] else []
  {
    assert (log + [e])[..|log|] == log;
  }

  function Passes(s: State): seq<string> {
    Passed(Skeleton(s.log))
  }

  /** Neither a step, a record nor a change of the resume mode. */
  predicate Aside(s: State, r: State) {
    && r.count == s.count && r.steps == s.steps && r.reverting == s.reverting && r.trace == s.trace
    && (s.stopped ==> r.stopped) && Passes(r) == Passes(s) && !r.status.Starved?
  }

  predicate AsidePlan(s: State, p: Plan) {
    Aside(s, PlanState(p)) && (!p.Done? ==> PlanState(p).status.Running?)
  }

  lemma TaskAside(w: World, n: Node, s: State)
    requires s.status.Running?
    ensures var t := TaskExec(w, n, s); Aside(s, t.s) && (t.go ==> t.s.status.Running?)
    ensures var t := Callbacks(w, n, s); Aside(s, t.s) && t.s.status.Running?
  {
    hide TaskExec, Callbacks, Passed, Skeleton;
  }

  lemma AsideTrans(s: State, m: State, r: State)
    requires Aside(s, m) && Aside(m, r)
    ensures Aside(s, r)
  {
    hide Passes;
  }

  lemma AsideSame(s: State, r: State)
    requires !r.status.Starved? && Skeleton(r.log) == Skeleton(s.log)
    requires r.count == s.count && r.steps == s.steps && r.reverting == s.reverting && r.trace == s.trace
    requires s.stopped ==> r.stopped
    ensures Aside(s, r)
  {
  }

  /** Carrying out a node before its successors run. */
  lemma PlanLocal(w: World, g: Graph, n: Node, s: State)
    requires s.status.Running?
    ensures AsidePlan(s, PlanOf(w, g, n, s))
  {
    hide Aside, TaskExec, Callbacks, PlanParallel, PlanInclusive, PlanChoice, PlanInflow, PlanOutflow;
    TaskAside(w, n, s);
    if n.typ.Parallel? {
      ParallelLocal(w, g, n, s);
    } else if n.typ.Inclusive? {
      InclusiveLocal(w, n, s);
    } else if n.typ.Exclusive? {
      ChoiceLocal(w, n, s, TaskExec(w, n, s));
    } else if n.typ.Loop? {
      LoopLocal(w, n, s);
    } else {
      AsideSame(s, s);
    }
  }

  lemma ChoiceLocal(w: World, n: Node, s: State, t: Exec)
    requires Aside(s, t.s) && (t.go ==> t.s.status.Running?)
    ensures AsidePlan(s, PlanChoice(w, n, t)) && AsidePlan(s, PlanMatching(w, n, t))
    ensures AsidePlan(s, PlanOutflow(w, n, t))
  {
    hide Choose, Matching, BuildIterator, Passed, Skeleton;
  }

  lemma LoopLocal(w: World, n: Node, s: State)
    requires s.status.Running?
    ensures AsidePlan(s, PlanInflow(w, n, s)) && AsidePlan(s, PlanOutflow(w, n, TaskExec(w, n, s)))
  {
    hide Aside, TaskExec, Callbacks, PlanOutflow, Iterating;
    TaskAside(w, n, s);
    ChoiceLocal(w, n, s, TaskExec(w, n, s));
    var s1 := s.(temp := PopLoop(s.temp));
    AsideSame(s, s1);
    AsideSame(s, s);
    TaskAside(w, n, s1);
    AsideTrans(s, s1, TaskExec(w, n, s1).s);
  }

  lemma InclusiveLocal(w: World, n: Node, s: State)
    requires s.status.Running?
    ensures AsidePlan(s, PlanInclusive(w, n, s))
  {
    hide Aside, TaskExec, PlanMatching, CountOf;
    if !Joining(n, s.temp) {
      TaskAside(w, n, s);
      ChoiceLocal(w, n, s, TaskExec(w, n, s));
    } else {
      var t1 := CountIn(n.id, s.temp);
      AsideSame(s, s.(temp := t1));
      var s1 := s.(temp := PopMatched(t1));
      AsideSame(s, s1);
      TaskAside(w, n, s1);
      AsideTrans(s, s1, TaskExec(w, n, s1).s);
      ChoiceLocal(w, n, s, TaskExec(w, n, s1));
    }
  }

  lemma ParallelLocal(w: World, g: Graph, n: Node, s: State)
    requires s.status.Running?
    ensures AsidePlan(s, PlanParallel(w, g, n, s))
  {
    hide Aside, TaskExec, ArriveAt, FireJoin, Always, NextNodes, CountOf;
    var s1 := ArriveAt(n.id, s);
    ArriveAside(n.id, s);
    TaskAside(w, n, s1);
    var t := TaskExec(w, n, s1);
    AsideTrans(s, s1, t.s);
    if t.go {
      FireAside(n.id, t.s);
      AsideTrans(s, t.s, FireJoin(n.id, t.s));
    }
  }

  lemma ArriveAside(n: string, s: State)
    requires !s.status.Starved?
    ensures Aside(s, ArriveAt(n, s)) && ArriveAt(n, s).status == s.status
  {
    PassedOne(Skeleton(s.log), Arrive(n));
  }

  lemma FireAside(n: string, s: State)
    requires !s.status.Starved?
    ensures Aside(s, FireJoin(n, s)) && FireJoin(n, s).status == s.status
  {
    PassedOne(Skeleton(s.log), Fire(n));
  }

  // ---- steps of the walk ----

  lemma EnterStatus(g: Graph, target: string, n: string, s: State)
    ensures Enter(g, target, n, s).status == s.status
  {
    hide Skeleton;
  }

  lemma LinksEnd(w: World, g: Graph, target: string, fuel: nat, links: seq<Link>, s: State)
    requires links == []
    ensures LinksRun(w, g, target, fuel, links, s) == s
  {
  }

  // ---- more depth changes nothing ----

  lemma {:induction false} NodeMore(w: World, g: Graph, target: string, fuel: nat, more: nat, n: string, s: State)
    requires fuel <= more && !NodeRun(w, g, target, fuel, n, s).status.Starved?
    ensures NodeRun(w, g, target, more, n, s) == NodeRun(w, g, target, fuel, n, s)
    decreases fuel, 0
  {
    hide PlanOf, Enter, Follow;
    if fuel > 0 && n in g.nodes && !s.stopped && !s.interrupted {
      var s1 := Enter(g, target, n, s);
      if !s1.stopped {
        FollowMore(w, g, target, fuel - 1, more - 1, PlanOf(w, g, g.nodes[n], s1));
      }
    }
  }

  lemma {:induction false} FollowMore(w: World, g: Graph, target: string, fuel: nat, more: nat, p: Plan)
    requires fuel <= more && !Follow(w, g, target, fuel, p).status.Starved?
    ensures Follow(w, g, target, more, p) == Follow(w, g, target, fuel, p)
    decreases fuel, 3
  {
    match p
    case Done(_) =>
    case FanOut(links, s) => LinksMore(w, g, target, fuel, more, links, s);
    case Iterate(n, id, items, s) => ItemsMore(w, g, target, fuel, more, n, id, items, s);
  }

  lemma {:induction false} LinksMore(w: World, g: Graph, target: string, fuel: nat, more: nat, links: seq<Link>,
      s: State)
    requires fuel <= more && !LinksRun(w, g, target, fuel, links, s).status.Starved?
    ensures LinksRun(w, g, target, more, links, s) == LinksRun(w, g, target, fuel, links, s)
    decreases fuel, 1, |links|
  {
    if links != [] {
      var c := Test(w, links[0].when, s);
      if !c.CondError? {
        if c.Yes? { NodeMore(w, g, target, fuel, more, links[0].next, s); }
        var s1 := if c.Yes? then NodeRun(w, g, target, fuel, links[0].next, s) else s;
        if s1.status.Running? {
          LinksMore(w, g, target, fuel, more, links[1..], s1);
        }
      }
    }
  }

  lemma {:induction false} ItemsMore(w: World, g: Graph, target: string, fuel: nat, more: nat, n: Node, id: nat,
      items: seq<Value>, s: State)
    requires fuel <= more && !ItemsRun(w, g, target, fuel, n, id, items, s).status.Starved?
    ensures ItemsRun(w, g, target, more, n, id, items, s) == ItemsRun(w, g, target, fuel, n, id, items, s)
    decreases fuel, 2, |items|
  {
    if items != [] {
      var s1 := NextItem(n, id, items, s);
      LinksMore(w, g, target, fuel, more, n.next, s1);
      var s2 := LinksRun(w, g, target, fuel, n.next, s1);
      if s2.status.Running? {
        ItemsMore(w, g, target, fuel, more, n, id, items[1..], s2);
      }
    }
  }

  // ---- a step budget bounds every run, whatever the graph and the world do ----

  const MAX_STEPS := 0x7fff_ffff

  /** The nodes a budget lets through: it is compared as an int32. */
  function Cap(steps: int): nat {
    if Int32(steps) < 0 then 0 else Int32(steps)
  }

  /** The budgets the int32 counter can exceed. */
  predicate Binding(steps: int) {
    steps >= 0 && Int32(steps) != MAX_STEPS
  }

  /** A run with a budget that is past its resume point. The number of nodes that passed is bounded
      by the counter and by the budget, and a run that is not stopped has not used it up. */
  predicate Budgeted(s: State) {
    && Binding(s.steps) && 0 <= s.count <= Cap(s.steps) + 1 && !s.reverting
    && (!s.stopped ==> s.count <= Cap(s.steps))
    && |Passes(s)| <= s.count && |Passes(s)| <= Cap(s.steps)
  }

  /** Steps a run can still take: none once it is stopped. */
  function Remaining(s: State): nat
    requires Budgeted(s)
  {
    if s.stopped then 0 else Cap(s.steps) + 1 - s.count
  }

  /** r is a later state of the same run. */
  predicate Later(s: State, r: State) {
    Budgeted(s) ==> Budgeted(r) && Remaining(r) <= Remaining(s) && r.steps == s.steps && !r.status.Starved?
  }

  lemma EnterBudgeted(g: Graph, target: string, n: string, s: State)
    requires Budgeted(s) && !s.stopped
    ensures var r := Enter(g, target, n, s);
      && Budgeted(r) && Remaining(r) < Remaining(s) && r.steps == s.steps && r.status == s.status
  {
    var v := Visited(n, s);
    PassedOne(Skeleton(s.log), VisitOf(n, s));
    PassedOne(Skeleton(v.log), Record(n));
    hide Skeleton, Passed, RecordNode, Int32;
    StepBudgeted(n, Note(v, Record(n)).(trace := RecordNode(s.trace, g, n)));
  }

  lemma StepBudgeted(n: string, s: State)
    requires Budgeted(s) && !s.stopped
    ensures var r := TakeStep(n, s);
      && Budgeted(r) && Remaining(r) < Remaining(s) && r.steps == s.steps && r.status == s.status
  {
    hide NextStep, WithinBudget, Skeleton, Passed;
    StepCounts(s);
    PassesOne(NextStep(s), n);
  }

  lemma SmallBudget(steps: int)
    requires 0 <= steps < MAX_STEPS
    ensures Binding(steps) && Cap(steps) == steps
  {
  }

  /** The counter counts, and the budget is its int32 part. */
  lemma StepCounts(s: State)
    requires Binding(s.steps) && 0 <= s.count <= Cap(s.steps)
    ensures NextStep(s) == s.(count := s.count + 1)
    ensures WithinBudget(NextStep(s)) <==> s.count < Cap(s.steps)
  {
  }

  lemma PassesOne(s: State, n: string)
    ensures Passes(Note(s, Pass(n))) == Passes(s) + [n]
  {
    PassedOne(Skeleton(s.log), Pass(n));
  }

  lemma PlanBudgeted(w: World, g: Graph, n: Node, s: State)
    requires Budgeted(s) && s.status.Running?
    ensures var p := PlanOf(w, g, n, s);
      Later(s, PlanState(p)) && (!p.Done? ==> PlanState(p).status.Running?)
  {
    PlanLocal(w, g, n, s);
    hide PlanOf, Passed, Skeleton;
  }

  lemma {:induction false} NodeBounded(w: World, g: Graph, target: string, fuel: nat, n: string, s: State)
    requires Budgeted(s) && s.status.Running? && fuel > Remaining(s)
    ensures Later(s, NodeRun(w, g, target, fuel, n, s))
    decreases fuel, 0
  {
    hide PlanOf, Enter, Follow, Passed, Skeleton;
    if n in g.nodes && !s.stopped && !s.interrupted {
      EnterBudgeted(g, target, n, s);
      var s1 := Enter(g, target, n, s);
      if !s1.stopped {
        PlanBudgeted(w, g, g.nodes[n], s1);
        FollowBounded(w, g, target, fuel - 1, PlanOf(w, g, g.nodes[n], s1));
      }
    }
  }

  lemma {:induction false} FollowBounded(w: World, g: Graph, target: string, fuel: nat, p: Plan)
    requires var s := PlanState(p); Budgeted(s) && fuel > Remaining(s) && !s.status.Starved?
    requires !p.Done? ==> PlanState(p).status.Running?
    ensures Later(PlanState(p), Follow(w, g, target, fuel, p))
    decreases fuel, 3
  {
    match p
    case Done(_) =>
    case FanOut(links, s) => LinksBounded(w, g, target, fuel, links, s);
    case Iterate(n, id, items, s) => ItemsBounded(w, g, target, fuel, n, id, items, s);
  }

  lemma {:induction false} LinksBounded(w: World, g: Graph, target: string, fuel: nat, links: seq<Link>, s: State)
    requires Budgeted(s) && s.status.Running? && fuel > Remaining(s)
    ensures Later(s, LinksRun(w, g, target, fuel, links, s))
    decreases fuel, 1, |links|
  {
    if links != [] {
      var c := Test(w, links[0].when, s);
      if !c.CondError? {
        if c.Yes? { NodeBounded(w, g, target, fuel, links[0].next, s); }
        var s1 := if c.Yes? then NodeRun(w, g, target, fuel, links[0].next, s) else s;
        if s1.status.Running? {
          LinksBounded(w, g, target, fuel, links[1..], s1);
        }
      }
    }
  }

  lemma {:induction false} ItemsBounded(w: World, g: Graph, target: string, fuel: nat, n: Node, id: nat,
      items: seq<Value>, s: State)
    requires Budgeted(s) && s.status.Running? && fuel > Remaining(s)
    ensures Later(s, ItemsRun(w, g, target, fuel, n, id, items, s))
    decreases fuel, 2, |items|
  {
    if items != [] {
      var s1 := NextItem(n, id, items, s);
      LinksBounded(w, g, target, fuel, n.next, s1);
      var s2 := LinksRun(w, g, target, fuel, n.next, s1);
      if s2.status.Running? {
        ItemsBounded(w, g, target, fuel, n, id, items[1..], s2);
      }
    }
  }

  /** A context that holds no record of the graph: the start node is the resume point, so reverting
      ends at once. */
  lemma FreshStart(w: World, g: Graph, fuel: nat, steps: int, ctx: Ctx, trace: Trace)
    requires fuel > 0 && LastNode(trace, g) == g.start
    ensures var s := Begin(ctx, trace, steps);
      Eval(w, g, fuel, steps, ctx, trace) ==
        if g.start !in g.nodes then s
        else
          var s1 := TakeStep(g.start, Visited(g.start, s).(reverting := false));
          if s1.stopped then s1 else Follow(w, g, g.start, fuel - 1, PlanOf(w, g, g.nodes[g.start], s1))
  {
    hide PlanOf, Follow, TakeStep, LastNode, Note;
  }

  lemma BeginBudgeted(g: Graph, ctx: Ctx, trace: Trace, steps: int)
    requires Binding(steps)
    ensures var s := Begin(ctx, trace, steps); var v := Visited(g.start, s).(reverting := false);
      && Passes(s) == [] && s.status.Running? && s.steps == steps
      && Budgeted(v) && v.status.Running? && v.steps == steps && !v.stopped && Remaining(v) == Cap(steps) + 1
  {
    PassedOne([], VisitOf(g.start, Begin(ctx, trace, steps)));
  }

  /** From a fresh context, on any graph and in any world, a binding budget ends the evaluation, at most
      as many nodes as its int32 part get past the budget check, and two more bound the recursion depth. */
  lemma {:induction false} BudgetBoundsRun(w: World, g: Graph, fuel: nat, steps: int, ctx: Ctx, trace: Trace)
    requires Binding(steps) && fuel >= Cap(steps) + 3 && LastNode(trace, g) == g.start
    ensures var r := Eval(w, g, fuel, steps, ctx, trace);
      !r.status.Starved? && |Passes(r)| <= Cap(steps) && r.steps == steps
  {
    hide PlanOf, Follow, Passes, TakeStep, Eval, Begin, PlanState, LastNode;
    BeginBudgeted(g, ctx, trace, steps);
    FreshStart(w, g, fuel, steps, ctx, trace);
    var s := Visited(g.start, Begin(ctx, trace, steps)).(reverting := false);
    StepBudgeted(g.start, s);
    var s1 := TakeStep(g.start, s);
    if g.start in g.nodes && !s1.stopped {
      var p := PlanOf(w, g, g.nodes[g.start], s1);
      PlanBudgeted(w, g, g.nodes[g.start], s1);
      FollowBounded(w, g, g.start, fuel - 1, p);
    }
  }

  // ---- the budgets that bound nothing ----

  /** They are within at every counter: 2^31 - 1 because the counter wraps before it exceeds it. */
  lemma BudgetNeverExhausted(s: State)
    ensures !Binding(s.steps) <==> forall c: int :: WithinBudget(NextStep(s.(count := c)))
  {
    if Binding(s.steps) {
      assert !WithinBudget(NextStep(s.(count := MAX_STEPS - 1)));
    }
  }

  /** A start node that is linked to itself, in a world that does nothing. */
  function Whirl(): Graph {
    Graph("", map["s" := Node("s", Start, "", "", BadIn, [Link("s", "")], 0)], "s")
  }

  function Calm(): World {
    var none := (n: string, ctx: Ctx) => Effect(ctx, false, false, false);
    World((when: string, ctx: Ctx) => Yes, none, none, none)
  }

  /** A state from which Whirl goes round once more. */
  predicate Whirling(s: State) {
    !Binding(s.steps) && !s.stopped && !s.interrupted && s.status.Running? && !s.reverting
  }

  lemma OneRound(s: State) returns (t: State)
    requires Whirling(s)
    ensures Whirling(t) && t == Enter(Whirl(), "s", "s", s)
    ensures PlanOf(Calm(), Whirl(), Whirl().nodes["s"], t) == FanOut([Link("s", "")], t)
  {
    hide Binding, WithinBudget, RecordNode, Skeleton, NextStep;
    var r := Note(Visited("s", s), Record("s")).(trace := RecordNode(s.trace, Whirl(), "s"));
    BudgetNeverExhausted(r);
    assert r.(count := r.count) == r;
    t := TakeStep("s", r);
    StepFlags(r);
    CalmNode(t);
  }

  lemma StepFlags(s: State)
    ensures NextStep(s) == s.(count := NextStep(s).count)
  {
  }

  lemma CalmNode(s: State)
    requires !s.stopped && !s.interrupted
    ensures PlanOf(Calm(), Whirl(), Whirl().nodes["s"], s) == FanOut([Link("s", "")], s)
  {
    hide Skeleton;
    var e := Effect(s.ctx, false, false, false);
    assert Apply(s, e) == s;
    assert OnNodeStart(Calm(), Whirl().nodes["s"], s) == Exec(true, s);
  }

  lemma {:induction false} WhirlsOn(fuel: nat, s: State)
    requires Whirling(s)
    ensures NodeRun(Calm(), Whirl(), "s", fuel, "s", s).status.Starved?
    decreases fuel
  {
    hide PlanOf, Enter, Binding;
    if fuel > 0 {
      var t := OneRound(s);
      WhirlsOn(fuel - 1, t);
      assert NodeRun(Calm(), Whirl(), "s", fuel, "s", s) ==
        LinksRun(Calm(), Whirl(), "s", fuel - 1, [Link("s", "")], t);
    }
  }

  lemma Untraced()
    ensures LastNode(Trace(false, "", map[]), Whirl()) == Whirl().start
  {
  }

  /** From a fresh context, a run of Whirl on such a budget goes on at every depth. */
  lemma WhirlRun(fuel: nat, steps: int, ctx: Ctx)
    requires !Binding(steps)
    ensures Eval(Calm(), Whirl(), fuel, steps, ctx, Trace(false, "", map[])).status.Starved?
  {
    hide Binding, PlanOf, LastNode, WithinBudget, NextStep;
    var trace := Trace(false, "", map[]);
    if fuel > 0 {
      var s := Visited("s", Begin(ctx, trace, steps)).(reverting := false);
      Untraced();
      FreshStart(Calm(), Whirl(), fuel, steps, ctx, trace);
      BudgetNeverExhausted(s);
      assert s.(count := s.count) == s;
      StepFlags(s);
      var t := TakeStep("s", s);
      CalmNode(t);
      WhirlsOn(fuel - 1, t);
    }
  }

  /** A run from a fresh context ends within its budget. */
  predicate EndsInBudget(w: World, g: Graph, steps: int, ctx: Ctx, trace: Trace) {
    var r := Eval(w, g, Cap(steps) + 3, steps, ctx, trace);
    LastNode(trace, g) == g.start ==> !r.status.Starved? && |Passes(r)| <= Cap(steps)
  }

  /** A budget bounds every run exactly when the counter can exceed it. */
  lemma BoundsIffBinding(steps: int)
    ensures Binding(steps) <==>
      forall w: World, g: Graph, ctx: Ctx, trace: Trace :: EndsInBudget(w, g, steps, ctx, trace)
  {
    hide Binding, Passes, Eval, Cap;
    if Binding(steps) {
      forall w: World, g: Graph, ctx: Ctx, trace: Trace
        ensures EndsInBudget(w, g, steps, ctx, trace)
      {
        if LastNode(trace, g) == g.start {
          BudgetBoundsRun(w, g, Cap(steps) + 3, steps, ctx, trace);
        }
      }
    } else {
      Untraced();
      WhirlRun(Cap(steps) + 3, steps, map[]);
      assert !EndsInBudget(Calm(), Whirl(), steps, map[], Trace(false, "", map[]));
    }
  }

  // ---- the stop is final ----

  /** Nothing is recorded, run or counted. */
  predicate Idle(s: State, r: State) {
    r.stopped && r.log == s.log && r.trace == s.trace && r.count == s.count
  }

  lemma {:induction false} StopEndsLinks(w: World, g: Graph, target: string, fuel: nat, links: seq<Link>, s: State)
    requires s.stopped && fuel > 0
    ensures Idle(s, LinksRun(w, g, target, fuel, links, s))
    decreases |links|
  {
    if links != [] {
      assert NodeRun(w, g, target, fuel, links[0].next, s) == s;
      StopEndsLinks(w, g, target, fuel, links[1..], s);
    }
  }

  /** Once the flow is stopped, whatever the callers on the stack still walk is neither recorded nor
      run: not their remaining links, not their remaining items. */
  lemma {:induction false} StopEndsItems(w: World, g: Graph, target: string, fuel: nat, n: Node, id: nat,
      items: seq<Value>, s: State)
    requires s.stopped && fuel > 0
    ensures Idle(s, ItemsRun(w, g, target, fuel, n, id, items, s))
    decreases |items|
  {
    if items != [] {
      var s1 := NextItem(n, id, items, s);
      StopEndsLinks(w, g, target, fuel, n.next, s1);
      StopEndsItems(w, g, target, fuel, n, id, items[1..], LinksRun(w, g, target, fuel, n.next, s1));
    }
  }
}

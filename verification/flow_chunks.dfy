/** Whole evaluations on trees: what a budget cuts off, and any chunking of budgets. */
module FlowChunks {
  import opened FlowSpec
  import opened FlowRuns
  import opened FlowTrees
  import opened FlowResume

  // ---- a resumed run takes up the recorded node first ----

  /** The resume point was reached and passed before anything else. */
  predicate Found(t: string, r: State) {
    Live(r) && [Pass(t)] <= Seen(r.log)
  }

  /** Dormant, with steps to go. */
  predicate Waking(r: State) {
    Dormant(r) && r.trace.enabled && r.steps != 0 && r.steps < MAX_STEPS
  }

  lemma StepFinds(w: World, g: Graph, fuel: nat, n: string, r: State)
    requires TreeShaped(g) && FixedConditions(w) && n in g.nodes && Waking(r)
    ensures Found(n, StepRun(w, g, n, fuel, n, r.(reverting := false)))
  {
    hide *;
    var x := r.(reverting := false);
    AwakeLive(n, r);
    TreeNode(g, n);
    FollowGrow(w, g, n, fuel, g.nodes[n], TakeStep(n, x));
    StepUnfold(w, g, n, fuel, n, x);
    GrownFound(n, TakeStep(n, x), Follow(w, g, n, fuel, PlanOf(w, g, g.nodes[n], TakeStep(n, x))));
  }

  lemma AwakeLive(n: string, r: State)
    requires Waking(r)
    ensures var x := TakeStep(n, r.(reverting := false));
      Found(n, x) && Live(x) && !x.stopped && x.status.Running?
  {
    hide *;
    var x := r.(reverting := false);
    Awake(r);
    StepTaken(n, x);
    StepKeeps(n, x);
    PassAlike(n, x, x, [], 0);
    FoundFirst(n, TakeStep(n, x));
  }

  lemma Awake(r: State)
    requires Waking(r)
    ensures var x := r.(reverting := false);
      && Live(x) && !x.stopped && Seen(x.log) == [] && x.status.Running? && x.count == 0
      && x.steps != 0 && x.steps < MAX_STEPS
  {
  }

  lemma FoundFirst(n: string, x: State)
    requires Live(x) && Seen(x.log) == [] + [Pass(n)]
    ensures Found(n, x)
  {
  }

  lemma StepUnfold(w: World, g: Graph, target: string, fuel: nat, n: string, x: State)
    requires n in g.nodes && !TakeStep(n, x).stopped
    ensures StepRun(w, g, target, fuel, n, x) == Follow(w, g, target, fuel, PlanOf(w, g, g.nodes[n], TakeStep(n, x)))
  {
  }

  lemma GrownFound(t: string, x: State, r: State)
    requires Found(t, x) && Grown(x, r)
    ensures Found(t, r)
  {
    hide Seen, Alike;
  }

  lemma RestsWaking(r: State, q: State)
    requires Waking(r) && Rests(r, q)
    ensures Waking(q)
  {
  }

  lemma WakingVisit(n: string, r: State)
    requires Waking(r)
    ensures Waking(Visited(n, r))
  {
    hide Seen, Skeleton;
    VisitRests(n, r);
    RestsWaking(r, Visited(n, r));
  }

  /** A walk a recorded t last, below p; then a resumed walk r from p passes t first. */
  lemma {:induction false} NodeFinds(w: World, g: Graph, tx: string, fuel: nat, p: seq<string>, tp: seq<string>,
      a: State, r: State)
    requires TreeShaped(g) && FixedConditions(w) && g.id != "" && IsPath(g, p) && IsPath(g, tp)
    requires fuel + |p| >= |g.nodes| + 2
    requires Live(a) && !a.stopped && !a.interrupted && a.status.Running? && Waking(r)
    requires LastNode(NodeRun(w, g, tx, fuel, p[|p| - 1], a).trace, g) == tp[|tp| - 1]
    ensures Found(tp[|tp| - 1], NodeRun(w, g, tp[|tp| - 1], fuel, p[|p| - 1], r))
    decreases fuel, 0
  {
    hide *;
    PathSome(g, p);
    PathSome(g, tp);
    WakingFacts(r);
    PathFuel(g, p, fuel);
    var n, t := p[|p| - 1], tp[|tp| - 1];
    NodeUnfold(w, g, tx, fuel, n, a);
    NodeSteps(w, g, t, fuel, n, r);
    EnterLast(g, tx, n, a);
    WakingVisit(n, r);
    var v := Visited(n, r);
    if n == t {
      StepFinds(w, g, fuel - 1, n, v);
    } else {
      FollowFinds(w, g, tx, fuel - 1, p, tp, Enter(g, tx, n, a), v);
    }
  }

  lemma WakingFacts(r: State)
    requires Waking(r)
    ensures Dormant(r) && r.reverting && !r.stopped && !r.interrupted && r.status.Running?
  {
  }

  lemma PathFuel(g: Graph, p: seq<string>, fuel: nat)
    requires TreeShaped(g) && IsPath(g, p) && fuel + |p| >= |g.nodes| + 1
    ensures fuel > 0
  {
    PathLength(g, p);
  }

  lemma {:induction false} FollowFinds(w: World, g: Graph, tx: string, fuel: nat, p: seq<string>, tp: seq<string>,
      a: State, r: State)
    requires TreeShaped(g) && FixedConditions(w) && g.id != "" && IsPath(g, p) && IsPath(g, tp)
    requires fuel + |p| >= |g.nodes| + 1
    requires Live(a) && !a.stopped && a.status.Running? && Waking(r)
    requires LastNode(a.trace, g) != tp[|tp| - 1]
    requires LastNode(Follow(w, g, tx, fuel, PlanOf(w, g, g.nodes[p[|p| - 1]], a)).trace, g) == tp[|tp| - 1]
    ensures Found(tp[|tp| - 1], Follow(w, g, tp[|tp| - 1], fuel, PlanOf(w, g, g.nodes[p[|p| - 1]], r)))
    decreases fuel, 3
  {
    hide *;
    PathSome(g, p);
    PathSome(g, tp);
    WakingFacts(r);
    var n, t := p[|p| - 1], tp[|tp| - 1];
    var z := Follow(w, g, tx, fuel, PlanOf(w, g, g.nodes[n], a));
    var entered, j, q := FollowLast(w, g, tx, fuel, p, a);
    if !entered {
      UnenteredLast(g, a, z);
    }
    TreeNode(g, n);
    SamePlan(w, g, n, a, r);
    var f, o := PlanOf(w, g, g.nodes[n], a), PlanOf(w, g, g.nodes[n], r);
    UnenteredLast(g, a, f.s);
    FollowUnfold(w, g, tx, fuel, f);
    FollowUnfold(w, g, t, fuel, o);
    LinksFind(w, g, tx, fuel, p, tp, f.links, f.s, o.s);
  }

  /** A walk on its way back goes along the same links. */
  lemma SamePlan(w: World, g: Graph, n: string, a: State, r: State)
    requires TreeShaped(g) && FixedConditions(w) && n in g.nodes && Live(a) && a.status.Running? && Waking(r)
    requires var f := PlanOf(w, g, g.nodes[n], a); f.FanOut? && f.links != []
    ensures var f, o := PlanOf(w, g, g.nodes[n], a), PlanOf(w, g, g.nodes[n], r);
      && o.FanOut? && o.links == f.links && Kids(g, n, f.links) && Waking(o.s)
      && Live(f.s) && f.s.status.Running? && Unentered(g, a, f.s)
  {
    hide Alike, Dormant, PlanOf, FixedConditions, Along, Kids;
    DormantFacts(r);
    PlanLast(w, g, n, a);
    PlanRests(w, g, g.nodes[n], r);
    PlanGoesAlong(w, g, g.nodes[n], a);
    PlanGoesAlong(w, g, g.nodes[n], r);
    RestsWaking(r, PlanState(PlanOf(w, g, g.nodes[n], r)));
  }

  lemma {:induction false} LinksFind(w: World, g: Graph, tx: string, fuel: nat, p: seq<string>, tp: seq<string>,
      links: seq<Link>, y: State, r: State)
    requires TreeShaped(g) && FixedConditions(w) && g.id != "" && IsPath(g, p) && IsPath(g, tp)
    requires fuel + |p| >= |g.nodes| + 1
    requires Kids(g, p[|p| - 1], links) && Live(y) && y.status.Running? && Waking(r)
    requires LastNode(y.trace, g) != tp[|tp| - 1]
    requires LastNode(LinksRun(w, g, tx, fuel, links, y).trace, g) == tp[|tp| - 1]
    ensures Found(tp[|tp| - 1], LinksRun(w, g, tp[|tp| - 1], fuel, links, r))
    decreases fuel, 1, |links|
  {
    hide *;
    PathSome(g, p);
    PathSome(g, tp);
    WakingFacts(r);
    PathFuel(g, p, fuel);
    var t := tp[|tp| - 1];
    if links == [] {
      LinksEnd(w, g, tx, fuel, links, y);
    } else {
      var n := links[0].next;
      TestAlike(w, links[0].when, y, r);
      LinksStep(w, g, tx, fuel, links, y);
      LinksStep(w, g, t, fuel, links, r);
      LiveNode(w, g, tx, fuel, n, y);
      KidsTail(g, p[|p| - 1], links);
      var z := LinksRun(w, g, tx, fuel, links, y);
      var yes := Test(w, links[0].when, y).Yes?;
      var y1 := if yes then NodeRun(w, g, tx, fuel, n, y) else y;
      var r1 := if yes then NodeRun(w, g, t, fuel, n, r) else r;
      if LastNode(y1.trace, g) == t {
        ChildFinds(w, g, tx, fuel, p, tp, links, y, r);
        if r1.status.Running? {
          FoundLive(t, r1);
          LinksGrow(w, g, t, fuel, links[1..], r1);
          GrownFound(t, r1, LinksRun(w, g, t, fuel, links[1..], r1));
        }
      } else {
        var entered, j, q := LinksLast(w, g, tx, fuel, p, links[1..], y1);
        if !entered {
          UnenteredLast(g, y1, z);
        }
        RecordElsewhere(g, p, links, j, q, tp, z);
        ChildRests(w, g, fuel, p, tp, links, r);
        RestsSame(r);
        RestsWaking(r, r1);
        WakingFacts(r1);
        LinksFind(w, g, tx, fuel, p, tp, links[1..], y1, r1);
      }
    }
  }

  lemma FoundLive(t: string, r: State)
    requires Found(t, r)
    ensures Live(r)
  {
  }

  lemma RestsSame(r: State)
    requires Dormant(r)
    ensures Rests(r, r)
  {
  }

  /** The walk of the first child recorded t last. */
  lemma {:induction false} ChildFinds(w: World, g: Graph, tx: string, fuel: nat, p: seq<string>, tp: seq<string>,
      links: seq<Link>, y: State, r: State)
    requires TreeShaped(g) && FixedConditions(w) && g.id != "" && IsPath(g, p) && IsPath(g, tp)
    requires fuel + |p| >= |g.nodes| + 1
    requires links != [] && Kids(g, p[|p| - 1], links) && Live(y) && y.status.Running? && Waking(r) && fuel > 0
    requires LastNode(y.trace, g) != tp[|tp| - 1]
    requires LastNode(NodeRun(w, g, tx, fuel, links[0].next, y).trace, g) == tp[|tp| - 1]
    ensures Found(tp[|tp| - 1], NodeRun(w, g, tp[|tp| - 1], fuel, links[0].next, r))
    decreases fuel, 1, 0
  {
    hide *;
    PathSome(g, p);
    PathSome(g, tp);
    var n := links[0].next;
    if n !in g.nodes || y.stopped || y.interrupted {
      NotEntered(w, g, tx, fuel, n, y);
    } else {
      PathStep(g, p, links, 0);
      var q := p + [n];
      assert q[|q| - 1] == n;
      NodeFinds(w, g, tx, fuel, q, tp, y, r);
    }
  }

  // ---- the recursion depth ----

  lemma {:induction false} NodeDepth(w: World, g: Graph, target: string, fuel: nat, p: seq<string>, s: State)
    requires TreeShaped(g) && FixedConditions(w) && IsPath(g, p) && fuel + |p| >= |g.nodes| + 2 && s.status.Running?
    ensures !NodeRun(w, g, target, fuel, p[|p| - 1], s).status.Starved?
    decreases fuel, 0
  {
    hide *;
    PathSome(g, p);
    PathFuel(g, p, fuel);
    var n := p[|p| - 1];
    if s.stopped || s.interrupted {
      NoNode(w, g, target, fuel, n, s);
    } else {
      NodeUnfold(w, g, target, fuel, n, s);
      var s1 := Enter(g, target, n, s);
      EnterStatus(g, target, n, s);
      TreeNode(g, n);
      PlanDepth(w, g, n, s1);
      var f := PlanOf(w, g, g.nodes[n], s1);
      FollowUnfold(w, g, target, fuel - 1, f);
      if f.FanOut? {
        LinksDepth(w, g, target, fuel - 1, p, f.links, f.s);
      }
    }
  }

  lemma PlanDepth(w: World, g: Graph, n: string, s: State)
    requires TreeShaped(g) && FixedConditions(w) && n in g.nodes && s.status.Running?
    ensures var f := PlanOf(w, g, g.nodes[n], s);
      && !f.Iterate? && !f.s.status.Starved? && (f.FanOut? ==> Kids(g, n, f.links) && f.s.status.Running?)
  {
    hide PlanOf, FixedConditions, Along, Kids;
    PlanLocal(w, g, g.nodes[n], s);
    PlanGoesAlong(w, g, g.nodes[n], s);
    AlongKids(w, g, n);
  }

  lemma {:induction false} LinksDepth(w: World, g: Graph, target: string, fuel: nat, p: seq<string>, links: seq<Link>,
      s: State)
    requires TreeShaped(g) && FixedConditions(w) && IsPath(g, p) && fuel + |p| >= |g.nodes| + 1 && s.status.Running?
    requires Kids(g, p[|p| - 1], links)
    ensures !LinksRun(w, g, target, fuel, links, s).status.Starved?
    decreases fuel, 1, |links|
  {
    hide *;
    PathSome(g, p);
    PathFuel(g, p, fuel);
    if links == [] {
      LinksEnd(w, g, target, fuel, links, s);
    } else {
      var n := links[0].next;
      TestAlike(w, links[0].when, s, s);
      LinksStep(w, g, target, fuel, links, s);
      KidsTail(g, p[|p| - 1], links);
      if n in g.nodes {
        PathStep(g, p, links, 0);
        var q := p + [n];
        assert q[|q| - 1] == n;
        NodeDepth(w, g, target, fuel, q, s);
      } else {
        NoNode(w, g, target, fuel, n, s);
      }
      var s1 := if Test(w, links[0].when, s).Yes? then NodeRun(w, g, target, fuel, n, s) else s;
      if s1.status.Running? {
        LinksDepth(w, g, target, fuel, p, links[1..], s1);
      }
    }
  }

  lemma NoNode(w: World, g: Graph, target: string, fuel: nat, n: string, s: State)
    requires fuel > 0 && (n !in g.nodes || s.stopped || s.interrupted)
    ensures NodeRun(w, g, target, fuel, n, s).status == s.status
  {
  }

  // ---- whole evaluations ----

  /** A context without a record of the graph. */
  predicate Fresh(g: Graph, trace: Trace) {
    trace.enabled && g.id != "" && g.id !in trace.last
  }

  /** What a run leaves behind: variables, trace, stop flag, error. */
  predicate SameEnd(x: State, y: State) {
    x.ctx == y.ctx && x.trace == y.trace && x.stopped == y.stopped && x.status == y.status
  }

  /** x ends like y, and its node log is that of y after `before`. */
  predicate SameRun(x: State, y: State, before: seq<Event>) {
    SameEnd(x, y) && Seen(x.log) == before + Seen(y.log) && !x.status.Starved?
  }

  lemma AlikeSame(x: State, y: State, b: seq<Event>, d: nat)
    requires Alike(x, y, b, d) && !x.status.Starved?
    ensures SameRun(x, y, b)
  {
  }

  /** The graph is a tree, its conditions are fixed, and the recursion is as deep as the graph is big. */
  ghost predicate Setting(w: World, g: Graph, fuel: nat) {
    TreeShaped(g) && FixedConditions(w) && fuel > |g.nodes|
  }

  lemma StartPath(g: Graph)
    requires TreeShaped(g)
    ensures IsPath(g, [g.start])
  {
  }

  /** The start node is entered. */
  function Entering(g: Graph, ctx: Ctx, trace: Trace, k: int): State {
    Visited(g.start, Begin(ctx, trace, k))
  }

  lemma EnteringUnseen(g: Graph, ctx: Ctx, trace: Trace, k: int)
    ensures Seen(Entering(g, ctx, trace, k).log) == []
  {
    SeenVisit(g.start, Begin(ctx, trace, k));
  }

  /** The first state past the resume point of a fresh run. */
  function Awoken(g: Graph, ctx: Ctx, trace: Trace, k: int): State {
    Entering(g, ctx, trace, k).(reverting := false)
  }

  lemma EvalFresh(w: World, g: Graph, fuel: nat, k: int, ctx: Ctx, trace: Trace)
    requires Setting(w, g, fuel) && Fresh(g, trace)
    ensures Eval(w, g, fuel, k, ctx, trace) == StepRun(w, g, g.start, fuel - 1, g.start, Awoken(g, ctx, trace, k))
    ensures !Eval(w, g, fuel, k, ctx, trace).status.Starved?
  {
    hide TreeShaped, FixedConditions, NodeRun, StepRun;
    hide LastNode;
    assert LastNode(trace, g) == g.start by { FreshLast(g, trace); }
    StartPath(g);
    NodeDepth(w, g, g.start, fuel, [g.start], Begin(ctx, trace, k));
    PathSome(g, [g.start]);
    NodeSteps(w, g, g.start, fuel, g.start, Begin(ctx, trace, k));
  }

  lemma FreshLast(g: Graph, trace: Trace)
    requires Fresh(g, trace)
    ensures LastNode(trace, g) == g.start
  {
  }

  lemma AwokenAlike(g: Graph, ctx: Ctx, trace: Trace, k: int, k': int, d: nat)
    requires trace.enabled && k < MAX_STEPS && k' < MAX_STEPS
    requires if k < 0 then k' < 0 && d == 0 else if d == MAX_STEPS then k' < 0 else k' == k + d
    ensures Alike(Awoken(g, ctx, trace, k'), Awoken(g, ctx, trace, k), [], d)
  {
    EnteringUnseen(g, ctx, trace, k);
    EnteringUnseen(g, ctx, trace, k');
    assert Passed([]) == [];
  }

  /** Where a run ends, as a path. */
  lemma EndPath(w: World, g: Graph, fuel: nat, k: nat, ctx: Ctx, trace: Trace) returns (tp: seq<string>)
    requires Setting(w, g, fuel) && Fresh(g, trace) && k < MAX_STEPS
    ensures IsPath(g, tp) && LastNode(Eval(w, g, fuel, k, ctx, trace).trace, g) == tp[|tp| - 1]
  {
    hide *;
    SettingFacts(w, g, fuel);
    FreshFacts(g, trace);
    EvalFresh(w, g, fuel, k, ctx, trace);
    StartPath(g);
    var p := [g.start];
    var a := Awoken(g, ctx, trace, k);
    AwokenFacts(g, ctx, trace, k);
    AwokenAlike(g, ctx, trace, k, k, 0);
    AlikeLive(a, a, [], 0);
    StepKeeps(g.start, a);
    PassAlike(g.start, a, a, [], 0);
    var a1 := TakeStep(g.start, a);
    AlikeLive(a1, a1, [], 0);
    tp := p;
    StepRule(w, g, g.start, fuel - 1, g.start, a);
    if !a1.stopped {
      var z := Follow(w, g, g.start, fuel - 1, PlanOf(w, g, g.nodes[g.start], a1));
      var entered, j, q := FollowLast(w, g, g.start, fuel - 1, p, a1);
      if entered {
        RecordAbove(g, p, PlanOf(w, g, g.nodes[g.start], a1).links[j].next, q, z);
        RecordFacts(g, p, q, z);
        tp := q;
      } else {
        UnenteredLast(g, a1, z);
      }
    }
  }

  lemma SettingFacts(w: World, g: Graph, fuel: nat)
    requires Setting(w, g, fuel)
    ensures TreeShaped(g) && FixedConditions(w) && fuel > |g.nodes| && g.start in g.nodes
  {
  }

  lemma FreshFacts(g: Graph, trace: Trace)
    requires Fresh(g, trace)
    ensures trace.enabled && g.id != "" && LastNode(trace, g) == g.start
  {
  }

  lemma AwokenFacts(g: Graph, ctx: Ctx, trace: Trace, k: int)
    ensures var a := Awoken(g, ctx, trace, k);
      && a.trace == trace && a.ctx == ctx && a.steps == k && a.count == 0 && a.status.Running?
      && !a.stopped && !a.interrupted
  {
  }

  lemma RecordFacts(g: Graph, p: seq<string>, q: seq<string>, r: State)
    requires RecordAt(g, p, q, r)
    ensures IsPath(g, q) && |q| > 0 && LastNode(r.trace, g) == q[|q| - 1]
  {
  }

  lemma StepRule(w: World, g: Graph, target: string, fuel: nat, n: string, x: State)
    requires n in g.nodes
    ensures StepRun(w, g, target, fuel, n, x) ==
      var x1 := TakeStep(n, x);
      if x1.stopped then x1 else Follow(w, g, target, fuel, PlanOf(w, g, g.nodes[n], x1))
  {
  }

  /** Stopped by its budget, a run resumed with k' further steps is the run with k + k' steps. */
  lemma ResumeIsExact(w: World, g: Graph, fuel: nat, k: nat, k': int, ctx: Ctx, trace: Trace)
    requires Setting(w, g, fuel) && Fresh(g, trace) && k < MAX_STEPS
    requires k' < 0 || k + k' < MAX_STEPS
    requires Cut(Eval(w, g, fuel, k, ctx, trace))
    ensures var a := Eval(w, g, fuel, k, ctx, trace);
      SameRun(Eval(w, g, fuel, if k' < 0 then k' else k + k', ctx, trace),
              Eval(w, g, fuel, k', a.ctx, a.trace), Seen(a.log))
  {
    hide *;
    SettingFacts(w, g, fuel);
    FreshFacts(g, trace);
    var total := if k' < 0 then k' else k + k';
    var a, f := Eval(w, g, fuel, k, ctx, trace), Eval(w, g, fuel, total, ctx, trace);
    var r0 := Entering(g, a.ctx, a.trace, k');
    EvalFresh(w, g, fuel, k, ctx, trace);
    EvalFresh(w, g, fuel, total, ctx, trace);
    var tp := EndPath(w, g, fuel, k, ctx, trace);
    PathSome(g, tp);
    var t, d := tp[|tp| - 1], if k' < 0 then MAX_STEPS else k';
    StartPath(g);
    AwokenAlike(g, ctx, trace, k, total, d);
    BeginResuming(g, ctx, trace, k, total, a, k', d);
    BeginHandover(g, a, tp, k');
    AwokenFacts(g, ctx, trace, k);
    var p := [g.start];
    assert p[|p| - 1] == g.start;
    ResumeStep(w, g, g.start, fuel - 1, p, tp, Awoken(g, ctx, trace, total), Awoken(g, ctx, trace, k), r0, d);
    EvalResumed(w, g, fuel, k', a.ctx, a.trace);
    AlikeSame(f, Eval(w, g, fuel, k', a.ctx, a.trace), Seen(a.log), 0);
  }

  lemma BeginResuming(g: Graph, ctx: Ctx, trace: Trace, k: int, total: int, a: State, k': int, d: nat)
    requires Alike(Awoken(g, ctx, trace, total), Awoken(g, ctx, trace, k), [], d)
    requires if d == MAX_STEPS then k' < 0 else k' == d < MAX_STEPS
    ensures Resuming(Awoken(g, ctx, trace, total), Awoken(g, ctx, trace, k), Entering(g, a.ctx, a.trace, k'), d)
  {
    EnteringUnseen(g, a.ctx, a.trace, k');
  }

  lemma BeginHandover(g: Graph, a: State, tp: seq<string>, k': int)
    requires Cut(a) && IsPath(g, tp) && LastNode(a.trace, g) == tp[|tp| - 1]
    ensures Handover(g, a, tp, Entering(g, a.ctx, a.trace, k'))
  {
  }

  /** Resuming from the record of the trace. */
  lemma EvalResumed(w: World, g: Graph, fuel: nat, k: int, ctx: Ctx, trace: Trace)
    requires fuel > 0 && g.start in g.nodes
    ensures var r, t := Entering(g, ctx, trace, k), LastNode(trace, g);
      Eval(w, g, fuel, k, ctx, trace) ==
        if g.start == t then StepRun(w, g, t, fuel - 1, g.start, r.(reverting := false))
        else Follow(w, g, t, fuel - 1, PlanOf(w, g, g.nodes[g.start], r))
  {
    hide StepRun, Follow, PlanOf, NodeRun, LastNode;
    NodeSteps(w, g, LastNode(trace, g), fuel, g.start, Begin(ctx, trace, k));
  }

  /** Resuming any earlier run, cut or not, takes up its last recorded node first. */
  lemma EvalFinds(w: World, g: Graph, fuel: nat, k: nat, k': int, ctx: Ctx, trace: Trace)
    requires Setting(w, g, fuel) && Fresh(g, trace) && k < MAX_STEPS && k' != 0 && k' < MAX_STEPS
    ensures var a := Eval(w, g, fuel, k, ctx, trace);
      Found(LastNode(a.trace, g), Eval(w, g, fuel, k', a.ctx, a.trace))
  {
    hide *;
    SettingFacts(w, g, fuel);
    FreshFacts(g, trace);
    EvalFresh(w, g, fuel, k, ctx, trace);
    var a, a0 := Eval(w, g, fuel, k, ctx, trace), Awoken(g, ctx, trace, k);
    var tp := EndPath(w, g, fuel, k, ctx, trace);
    PathSome(g, tp);
    StartPath(g);
    AwokenFacts(g, ctx, trace, k);
    AwokenAlike(g, ctx, trace, k, k, 0);
    StepAlike(w, g, g.start, g.start, fuel - 1, g.start, a0, a0, [], 0);
    BeginWaking(g, a, k');
    EvalResumed(w, g, fuel, k', a.ctx, a.trace);
    var t, r := tp[|tp| - 1], Entering(g, a.ctx, a.trace, k');
    if t == g.start {
      StepFinds(w, g, fuel - 1, t, r);
    } else {
      StepKeeps(g.start, a0);
      PassAlike(g.start, a0, a0, [], 0);
      var a1 := TakeStep(g.start, a0);
      AlikeLive(a1, a1, [], 0);
      StepRule(w, g, g.start, fuel - 1, g.start, a0);
      var p := [g.start];
      assert p[|p| - 1] == g.start;
      FollowFinds(w, g, g.start, fuel - 1, p, tp, a1, r);
    }
  }

  lemma BeginWaking(g: Graph, a: State, k: int)
    requires Alike(a, a, [], 0) && k != 0 && k < MAX_STEPS
    ensures Waking(Entering(g, a.ctx, a.trace, k))
  {
    EnteringUnseen(g, a.ctx, a.trace, k);
  }

  /** A budget that is not used up made no difference. */
  lemma UncutIsWhole(w: World, g: Graph, fuel: nat, k: nat, k': int, ctx: Ctx, trace: Trace)
    requires Setting(w, g, fuel) && Fresh(g, trace) && k < MAX_STEPS && (k' < 0 || k <= k' < MAX_STEPS)
    requires !Cut(Eval(w, g, fuel, k, ctx, trace))
    ensures SameRun(Eval(w, g, fuel, k', ctx, trace), Eval(w, g, fuel, k, ctx, trace), [])
  {
    hide *;
    SettingFacts(w, g, fuel);
    FreshFacts(g, trace);
    EvalFresh(w, g, fuel, k, ctx, trace);
    EvalFresh(w, g, fuel, k', ctx, trace);
    var d := if k' < 0 then MAX_STEPS else k' - k;
    AwokenFacts(g, ctx, trace, k);
    AwokenAlike(g, ctx, trace, k, k', d);
    StepAlike(w, g, g.start, g.start, fuel - 1, g.start, Awoken(g, ctx, trace, k'), Awoken(g, ctx, trace, k), [], d);
    AlikeSame(Eval(w, g, fuel, k', ctx, trace), Eval(w, g, fuel, k, ctx, trace), [], d);
  }

  /** The number of nodes past the budget check. */
  function Count(s: State): nat {
    |Passed(Seen(s.log))|
  }

  lemma EvalCounts(w: World, g: Graph, fuel: nat, k: nat, ctx: Ctx, trace: Trace)
    requires Setting(w, g, fuel) && Fresh(g, trace) && k < MAX_STEPS
    ensures var a := Eval(w, g, fuel, k, ctx, trace);
      Count(a) <= k && (Cut(a) ==> Count(a) == k && a.stopped)
  {
    hide *;
    SettingFacts(w, g, fuel);
    FreshFacts(g, trace);
    EvalFresh(w, g, fuel, k, ctx, trace);
    AwokenFacts(g, ctx, trace, k);
    AwokenAlike(g, ctx, trace, k, k, 0);
    StepAlike(w, g, g.start, g.start, fuel - 1, g.start, Awoken(g, ctx, trace, k), Awoken(g, ctx, trace, k), [], 0);
    var a := Eval(w, g, fuel, k, ctx, trace);
    var more := fuel + k + 3;
    EvalMore(w, g, fuel, more, k, ctx, trace);
    SmallBudget(k);
    BudgetBoundsRun(w, g, more, k, ctx, trace);
    CountTally(a, k);
  }

  lemma EvalMore(w: World, g: Graph, fuel: nat, more: nat, k: int, ctx: Ctx, trace: Trace)
    requires fuel <= more && !Eval(w, g, fuel, k, ctx, trace).status.Starved?
    ensures Eval(w, g, more, k, ctx, trace) == Eval(w, g, fuel, k, ctx, trace)
  {
    hide NodeRun, Begin, LastNode;
    NodeMore(w, g, LastNode(trace, g), fuel, more, g.start, Begin(ctx, trace, k));
  }

  lemma CountTally(a: State, k: nat)
    requires Alike(a, a, [], 0) && a.steps == k
    ensures Count(a) <= k && (Cut(a) ==> Count(a) == k && a.stopped)
  {
    hide Seen, Passed;
  }

  /** A budget k makes a fresh run the first k nodes of the unlimited run, and records the next one. */
  lemma BudgetIsPrefix(w: World, g: Graph, fuel: nat, k: nat, ctx: Ctx, trace: Trace)
    requires Setting(w, g, fuel) && Fresh(g, trace) && k < MAX_STEPS
    ensures var a, u := Eval(w, g, fuel, k, ctx, trace), Eval(w, g, fuel, -1, ctx, trace);
      && (Cut(a) <==> k < Count(u))
      && (Cut(a) ==> a.stopped && Count(a) == k && Seen(a.log) + [Pass(LastNode(a.trace, g))] <= Seen(u.log))
      && (!Cut(a) ==> SameRun(u, a, []))
  {
    hide *;
    var a, u := Eval(w, g, fuel, k, ctx, trace), Eval(w, g, fuel, -1, ctx, trace);
    EvalCounts(w, g, fuel, k, ctx, trace);
    if Cut(a) {
      var r := Eval(w, g, fuel, -1, a.ctx, a.trace);
      ResumeIsExact(w, g, fuel, k, -1, ctx, trace);
      EvalFinds(w, g, fuel, k, -1, ctx, trace);
      FoundNext(u, r, a, LastNode(a.trace, g));
    } else {
      UncutIsWhole(w, g, fuel, k, -1, ctx, trace);
      SameCount(u, a);
    }
  }

  lemma FoundNext(f: State, r: State, a: State, t: string)
    requires SameRun(f, r, Seen(a.log)) && Found(t, r)
    ensures Seen(a.log) + [Pass(t)] <= Seen(f.log) && Count(a) < Count(f)
  {
    var rest := Seen(r.log)[1..];
    assert Seen(f.log) == Seen(a.log) + [Pass(t)] + rest;
    PassedOne(Seen(a.log), Pass(t));
    PassedMore(Seen(a.log) + [Pass(t)], rest);
  }

  lemma {:induction false} PassedMore(log: seq<Event>, more: seq<Event>)
    ensures |Passed(log)| <= |Passed(log + more)|
  {
    if more == [] {
      assert log + more == log;
    } else {
      var most := more[..|more| - 1];
      PassedMore(log, most);
      assert log + more == (log + most) + [more[|more| - 1]];
      PassedOne(log + most, more[|more| - 1]);
    }
  }

  lemma SameCount(x: State, y: State)
    requires SameRun(x, y, [])
    ensures Count(x) == Count(y)
  {
    assert [] + Seen(y.log) == Seen(y.log);
  }

  /** Resuming is exact only then: after a run that used less than its budget it repeats the last node. */
  lemma ResumeIsExactIffCut(w: World, g: Graph, fuel: nat, k: nat, k': int, ctx: Ctx, trace: Trace)
    requires Setting(w, g, fuel) && Fresh(g, trace) && k < MAX_STEPS
    requires k' != 0 && (k' < 0 || k + k' < MAX_STEPS)
    ensures var a := Eval(w, g, fuel, k, ctx, trace);
      var u := Eval(w, g, fuel, -1, ctx, trace);
      SameRun(Eval(w, g, fuel, if k' < 0 then k' else k + k', ctx, trace),
              Eval(w, g, fuel, k', a.ctx, a.trace), Seen(a.log))
      <==> k < Count(u)
  {
    hide *;
    var a, r := Eval(w, g, fuel, k, ctx, trace),
      Eval(w, g, fuel, k', Eval(w, g, fuel, k, ctx, trace).ctx, Eval(w, g, fuel, k, ctx, trace).trace);
    var total := if k' < 0 then k' else k + k';
    BudgetIsPrefix(w, g, fuel, k, ctx, trace);
    if Cut(a) {
      ResumeIsExact(w, g, fuel, k, k', ctx, trace);
    } else {
      var f := Eval(w, g, fuel, total, ctx, trace);
      UncutIsWhole(w, g, fuel, k, total, ctx, trace);
      SameCount(f, a);
      EvalFinds(w, g, fuel, k, k', ctx, trace);
      if SameRun(f, r, Seen(a.log)) {
        FoundNext(f, r, a, LastNode(a.trace, g));
      }
    }
  }

  // ---- any chunking of budgets ----

  datatype Outcome = Outcome(seen: seq<Event>, end: State)

  /** Evaluate with each budget in turn, then with the last one, always with the same context. */
  function Chain(w: World, g: Graph, fuel: nat, ks: seq<nat>, last: int, ctx: Ctx, trace: Trace): Outcome {
    if ks == [] then
      var s := Eval(w, g, fuel, last, ctx, trace);
      Outcome(Seen(s.log), s)
    else
      var a := Eval(w, g, fuel, ks[0], ctx, trace);
      var o := Chain(w, g, fuel, ks[1..], last, a.ctx, a.trace);
      Outcome(Seen(a.log) + o.seen, o.end)
  }

  function Sum(ks: seq<nat>): nat {
    if ks == [] then 0 else ks[0] + Sum(ks[1..])
  }

  lemma ChainStep(w: World, g: Graph, fuel: nat, ks: seq<nat>, last: int, ctx: Ctx, trace: Trace)
    requires ks != []
    ensures var a := Eval(w, g, fuel, ks[0], ctx, trace);
      var o := Chain(w, g, fuel, ks[1..], last, a.ctx, a.trace);
      Chain(w, g, fuel, ks, last, ctx, trace) == Outcome(Seen(a.log) + o.seen, o.end)
  {
    hide Eval;
  }

  lemma ChainEnd(w: World, g: Graph, fuel: nat, last: int, ctx: Ctx, trace: Trace, ks: seq<nat>)
    requires ks == []
    ensures var s := Eval(w, g, fuel, last, ctx, trace);
      Chain(w, g, fuel, ks, last, ctx, trace) == Outcome(Seen(s.log), s)
  {
    hide Eval;
  }

  /** As long as the budgets but the last do not exceed the run, any chunking of budgets is one run. */
  lemma {:induction false} AnyChunking(w: World, g: Graph, fuel: nat, ks: seq<nat>, last: int, ctx: Ctx, trace: Trace)
    requires Setting(w, g, fuel) && Fresh(g, trace)
    requires if last < 0 then Sum(ks) < MAX_STEPS else Sum(ks) + last < MAX_STEPS
    requires Sum(ks) < Count(Eval(w, g, fuel, -1, ctx, trace)) || ks == []
    ensures var o := Chain(w, g, fuel, ks, last, ctx, trace);
      var f := Eval(w, g, fuel, if last < 0 then last else Sum(ks) + last, ctx, trace);
      o.seen == Seen(f.log) && SameEnd(f, o.end) && !f.status.Starved?
    decreases |ks|
  {
    hide *;
    SumRules(ks);
    if ks == [] {
      ChainEnd(w, g, fuel, last, ctx, trace, ks);
      EvalFresh(w, g, fuel, last, ctx, trace);
      SameRefl(Eval(w, g, fuel, last, ctx, trace));
    } else {
      var k := ks[0];
      var a := Eval(w, g, fuel, k, ctx, trace);
      ChainStep(w, g, fuel, ks, last, ctx, trace);
      BudgetIsPrefix(w, g, fuel, k, ctx, trace);
      if |ks| == 1 {
        assert ks[1..] == [];
        SumRules(ks[1..]);
        ChainEnd(w, g, fuel, last, a.ctx, a.trace, ks[1..]);
        ResumeIsExact(w, g, fuel, k, last, ctx, trace);
        SameParts(Eval(w, g, fuel, if last < 0 then last else k + last, ctx, trace),
          Eval(w, g, fuel, last, a.ctx, a.trace), Seen(a.log));
      } else {
        var k2, rest := ks[1], ks[2..];
        var joined := [k + k2] + rest;
        assert ks[1..][0] == k2 && ks[1..][1..] == rest && joined[1..] == rest;
        SumRules(ks[1..]);
        SumRules(joined);
        var r, f := Eval(w, g, fuel, k2, a.ctx, a.trace), Eval(w, g, fuel, k + k2, ctx, trace);
        ResumeIsExact(w, g, fuel, k, k2, ctx, trace);
        SameParts(f, r, Seen(a.log));
        ChainStep(w, g, fuel, ks[1..], last, a.ctx, a.trace);
        ChainStep(w, g, fuel, joined, last, ctx, trace);
        AnyChunking(w, g, fuel, joined, last, ctx, trace);
        var o := Chain(w, g, fuel, rest, last, r.ctx, r.trace);
        assert Seen(a.log) + (Seen(r.log) + o.seen) == (Seen(a.log) + Seen(r.log)) + o.seen;
      }
    }
  }

  lemma SumRules(ks: seq<nat>)
    ensures ks == [] ==> Sum(ks) == 0
    ensures ks != [] ==> Sum(ks) == ks[0] + Sum(ks[1..]) && ks[0] <= Sum(ks)
  {
  }

  lemma SameRefl(x: State)
    ensures SameEnd(x, x)
  {
  }

  lemma SameParts(f: State, r: State, b: seq<Event>)
    requires SameRun(f, r, b)
    ensures SameEnd(f, r) && f.ctx == r.ctx && f.trace == r.trace && Seen(f.log) == b + Seen(r.log)
    ensures !f.status.Starved?
  {
  }
}

/** Checkpoint and resume: on a tree, a run cut by its budget and then resumed is one run. */
module FlowResume {
  import opened FlowSpec
  import opened FlowRuns
  import opened FlowTrees

  /** The node log: the nodes recorded, passed and run, with the variables each task saw. */
  function Seen(log: seq<Event>): seq<Event> {
    if log == [] then []
    else
      var e := log[|log| - 1];
      Seen(log[..|log| - 1]) + if e.Record? || e.Pass? || e.Ran? then [e] else []
  }

  lemma SeenNote(s: State, e: Event)
    ensures Seen(Note(s, e).log) == Seen(s.log) + if e.Record? || e.Pass? || e.Ran? then [e] else []
    ensures Passed(Seen(Note(s, e).log)) == Passed(Seen(s.log)) + if e.Pass? then [e.n] else []
  {
    assert (s.log + [e])[..|s.log|] == s.log;
    PassedOne(Seen(s.log), e);
    assert Seen(Note(s, e).log) == Seen(s.log) + if e.Record? || e.Pass? || e.Ran? then [e] else [];
    if !(e.Record? || e.Pass? || e.Ran?) { assert Seen(Note(s, e).log) == Seen(s.log); }
  }

  /** The step budget ran out. */
  predicate Cut(s: State) {
    0 <= s.steps < s.count
  }

  /** x has d more steps to go than y; MAX_STEPS stands for no budget at all. */
  predicate Paced(x: State, y: State, d: nat) {
    if y.steps < 0 then x.steps < 0 && d == 0
    else
      && y.steps < MAX_STEPS && 0 <= y.count <= y.steps + 1
      && if d == MAX_STEPS then x.steps < 0 && !Cut(y)
         else 0 <= x.steps < MAX_STEPS && 0 <= x.count && x.steps - x.count == y.steps - y.count + d
  }

  /** The counter counts the nodes that passed, and the node that did not. */
  predicate Tallied(s: State) {
    s.steps < 0 || |Passed(Seen(s.log))| == if Cut(s) then s.steps else s.count
  }

  /** Two live runs that cannot be told apart but for the gateway counters and the budget; x has
      already seen `before`. */
  predicate Alike(x: State, y: State, before: seq<Event>, d: nat) {
    && x.ctx == y.ctx && x.trace == y.trace && x.status == y.status
    && x.stopped == y.stopped && x.interrupted == y.interrupted && !x.reverting && !y.reverting
    && x.trace.enabled
    && (!y.stopped ==> !Cut(y)) && Paced(x, y, d) && Tallied(y)
    && Seen(x.log) == before + Seen(y.log)
  }

  // ---- two live runs stay alike through tasks and gateways ----

  /** The same events happen in both, none of them a step; traces and gateway counters may change. */
  lemma GrowAlike(x: State, y: State, x': State, y': State, es: seq<Event>, b: seq<Event>, d: nat)
    requires Alike(x, y, b, d)
    requires x' == x.(log := x'.log, temp := x'.temp, trace := x'.trace)
    requires y' == y.(log := y'.log, temp := y'.temp, trace := y'.trace)
    requires x'.trace == y'.trace && x'.trace.enabled
    requires Seen(x'.log) == Seen(x.log) + es && Seen(y'.log) == Seen(y.log) + es
    requires Passed(Seen(y'.log)) == Passed(Seen(y.log))
    ensures Alike(x', y', b, d)
  {
    hide Seen, Passed, Skeleton;
    assert Seen(x'.log) == b + Seen(y'.log);
  }

  lemma NotedAlike(e: Event, x: State, y: State, b: seq<Event>, d: nat)
    requires Alike(x, y, b, d) && !e.Pass?
    ensures Alike(Note(x, e), Note(y, e), b, d)
  {
    SeenNote(x, e);
    SeenNote(y, e);
    hide Seen, Passed, Skeleton, Paced, Tallied;
    GrowAlike(x, y, Note(x, e), Note(y, e), if e.Record? || e.Ran? then [e] else [], b, d);
  }

  lemma RetracedAlike(x: State, y: State, t: Trace, m: Temporary, m': Temporary, b: seq<Event>, d: nat)
    requires Alike(x, y, b, d) && t.enabled
    ensures Alike(x.(trace := t, temp := m), y.(trace := t, temp := m'), b, d)
  {
    hide Seen, Passed, Skeleton, Paced, Tallied;
    GrowAlike(x, y, x.(trace := t, temp := m), y.(trace := t, temp := m'), [], b, d);
  }

  lemma ApplyAlike(x: State, y: State, e: Effect, b: seq<Event>, d: nat)
    requires Alike(x, y, b, d)
    ensures Alike(Apply(x, e), Apply(y, e), b, d)
  {
    hide Skeleton, Seen, Passed;
    SeenNote(x.(ctx := e.ctx, interrupted := x.interrupted || e.interrupt), Stopped);
    SeenNote(y.(ctx := e.ctx, interrupted := y.interrupted || e.interrupt), Stopped);
  }

  predicate AlikeExec(x: Exec, y: Exec, b: seq<Event>, d: nat) {
    x.go == y.go && Alike(x.s, y.s, b, d)
  }

  lemma GoOnAlike(x: State, y: State, b: seq<Event>, d: nat)
    requires Alike(x, y, b, d)
    ensures AlikeExec(GoOn(x), GoOn(y), b, d)
  {
    hide Seen, Skeleton;
  }

  lemma CallbackAlike(w: World, n: Node, x: State, y: State, b: seq<Event>, d: nat)
    requires Alike(x, y, b, d)
    ensures AlikeExec(OnNodeStart(w, n, x), OnNodeStart(w, n, y), b, d)
    ensures AlikeExec(OnNodeEnd(w, n, x), OnNodeEnd(w, n, y), b, d)
  {
    hide Seen, Skeleton, Paced, Apply, GoOn;
    ApplyAlike(x, y, w.onStart(n.id, x.ctx), b, d);
    ApplyAlike(x, y, w.onEnd(n.id, x.ctx), b, d);
    GoOnAlike(Apply(x, w.onStart(n.id, x.ctx)), Apply(y, w.onStart(n.id, x.ctx)), b, d);
    GoOnAlike(Apply(x, w.onEnd(n.id, x.ctx)), Apply(y, w.onEnd(n.id, x.ctx)), b, d);
  }

  lemma RunAlike(w: World, n: Node, x: State, y: State, b: seq<Event>, d: nat)
    requires Alike(x, y, b, d)
    ensures Alike(RunTask(w, n, x), RunTask(w, n, y), b, d)
  {
    hide Seen, Passed, Skeleton, Apply, Note, Alike;
    var e := w.task(n.id, x.ctx);
    AlikeFlags(x, y, b, d);
    NotedAlike(Ran(n.id, x.ctx), x, y, b, d);
    ApplyAlike(Note(x, Ran(n.id, x.ctx)), Note(y, Ran(n.id, x.ctx)), e, b, d);
    var x1, y1 := Apply(Note(x, Ran(n.id, x.ctx)), e), Apply(Note(y, Ran(n.id, x.ctx)), e);
    StatusAlike(x1, y1, b, d, Failed, false);
  }

  lemma WhenAlike(w: World, n: Node, x: State, y: State, b: seq<Event>, d: nat)
    requires Alike(x, y, b, d)
    ensures AlikeExec(WhenTask(w, n, x), WhenTask(w, n, y), b, d)
  {
    hide Seen, Skeleton, RunTask, GoOn;
    RunAlike(w, n, x, y, b, d);
    GoOnAlike(x, y, b, d);
    GoOnAlike(RunTask(w, n, x), RunTask(w, n, y), b, d);
  }

  lemma TaskAlike(w: World, n: Node, x: State, y: State, b: seq<Event>, d: nat)
    requires Alike(x, y, b, d)
    ensures AlikeExec(TaskExec(w, n, x), TaskExec(w, n, y), b, d)
    ensures AlikeExec(Callbacks(w, n, x), Callbacks(w, n, y), b, d)
  {
    hide Seen, Skeleton, Paced, OnNodeStart, OnNodeEnd, WhenTask;
    CallbackAlike(w, n, x, y, b, d);
    var x1, y1 := OnNodeStart(w, n, x), OnNodeStart(w, n, y);
    CallbackAlike(w, n, x1.s, y1.s, b, d);
    WhenAlike(w, n, x1.s, y1.s, b, d);
    CallbackAlike(w, n, WhenTask(w, n, x1.s).s, WhenTask(w, n, y1.s).s, b, d);
  }

  predicate AlikePlan(p: Plan, q: Plan, b: seq<Event>, d: nat) {
    p.Done? == q.Done? && Alike(PlanState(p), PlanState(q), b, d)
  }

  lemma ChoiceAlike(w: World, n: Node, t: Exec, u: Exec, b: seq<Event>, d: nat)
    requires FixedConditions(w) && AlikeExec(t, u, b, d)
    ensures AlikePlan(PlanChoice(w, n, t), PlanChoice(w, n, u), b, d)
    ensures AlikePlan(PlanMatching(w, n, t), PlanMatching(w, n, u), b, d)
  {
    hide Seen, Skeleton, Choose, Matching, FixedConditions;
    ChooseFixed(w, n.next, None, t.s, u.s);
    MatchingFixed(w, n.next, t.s, u.s);
  }

  lemma ParallelAlike(w: World, g: Graph, n: Node, x: State, y: State, b: seq<Event>, d: nat)
    requires Treelike(n) && Alike(x, y, b, d)
    ensures AlikePlan(PlanParallel(w, g, n, x), PlanParallel(w, g, n, y), b, d)
  {
    hide Alike, TaskExec, Always, NextNodes, CountOf, FireJoin, ArriveAt;
    NeverWaits(n, x);
    NeverWaits(n, y);
    NoteAlike(n.id, x, y, b, d);
    var t, u := TaskExec(w, n, ArriveAt(n.id, x)), TaskExec(w, n, ArriveAt(n.id, y));
    TaskAlike(w, n, ArriveAt(n.id, x), ArriveAt(n.id, y), b, d);
    NoteAlike(n.id, t.s, u.s, b, d);
  }

  lemma NoteAlike(n: string, x: State, y: State, b: seq<Event>, d: nat)
    requires Alike(x, y, b, d)
    ensures Alike(ArriveAt(n, x), ArriveAt(n, y), b, d) && Alike(FireJoin(n, x), FireJoin(n, y), b, d)
  {
    hide Alike, Note, CountIn;
    AlikeFlags(x, y, b, d);
    NotedAlike(Arrive(n), x, y, b, d);
    NotedAlike(Fire(n), x, y, b, d);
    NoteFlags(x, y, Arrive(n));
    NoteFlags(x, y, Fire(n));
    RetracedAlike(Note(x, Arrive(n)), Note(y, Arrive(n)), x.trace, CountIn(n, x.temp), CountIn(n, y.temp), b, d);
    RetracedAlike(Note(x, Fire(n)), Note(y, Fire(n)), x.trace, FireJoin(n, x).temp, FireJoin(n, y).temp, b, d);
  }

  lemma PlanAlike(w: World, g: Graph, n: Node, x: State, y: State, b: seq<Event>, d: nat)
    requires FixedConditions(w) && Treelike(n) && Alike(x, y, b, d)
    ensures AlikePlan(PlanOf(w, g, n, x), PlanOf(w, g, n, y), b, d)
  {
    hide FixedConditions, Alike, TaskExec, Callbacks, PlanChoice, PlanMatching, PlanParallel;
    TaskAlike(w, n, x, y, b, d);
    ChoiceAlike(w, n, TaskExec(w, n, x), TaskExec(w, n, y), b, d);
    ParallelAlike(w, g, n, x, y, b, d);
  }

  lemma PassAlike(n: string, x: State, y: State, b: seq<Event>, d: nat)
    requires Alike(x, y, b, d) && !y.stopped
    requires d == 0 || !Cut(TakeStep(n, y))
    ensures Alike(TakeStep(n, x), TakeStep(n, y), b, d)
  {
    hide Seen, Skeleton, NextStep, WithinBudget;
    StepTaken(n, x);
    StepTaken(n, y);
  }

  /** A step passes the node or stops the flow. */
  lemma StepTaken(n: string, s: State)
    requires !s.stopped && (s.steps < 0 || (s.steps < MAX_STEPS && 0 <= s.count <= s.steps))
    ensures var r := TakeStep(n, s);
      var pass := s.steps < 0 || s.count < s.steps;
      && r == s.(count := if s.steps < 0 then s.count else s.count + 1, log := r.log, stopped := !pass)
      && Cut(r) == !pass && (Tallied(s) ==> Tallied(r))
      && Seen(r.log) == Seen(s.log) + if pass then [Pass(n)] else []
  {
    if s.steps >= 0 {
      SmallBudget(s.steps);
      StepCounts(s);
    }
    hide Skeleton, Int32;
    SeenNote(NextStep(s), Pass(n));
    SeenNote(NextStep(s), Stopped);
  }

  lemma RecordAlike(g: Graph, n: string, x: State, y: State, b: seq<Event>, d: nat)
    requires Alike(x, y, b, d)
    ensures Alike(Recorded(g, n, x), Recorded(g, n, y), b, d)
  {
    hide Alike, RecordNode, Note;
    AlikeFlags(x, y, b, d);
    RecordEnabled(x.trace, g, n);
    var x1, y1 := Visited(n, x), Visited(n, y);
    VisitAlike(n, x, y, b, d);
    NotedAlike(Record(n), x1, y1, b, d);
    NoteFlags(x1, y1, Record(n));
    RetracedAlike(Note(x1, Record(n)), Note(y1, Record(n)), RecordNode(x.trace, g, n), x.temp, y.temp, b, d);
  }

  lemma RecordEnabled(t: Trace, g: Graph, n: string)
    ensures RecordNode(t, g, n).enabled == t.enabled
  {
  }

  lemma NoteFlags(x: State, y: State, e: Event)
    ensures Note(x, e) == x.(log := Note(x, e).log) && Note(y, e) == y.(log := Note(y, e).log)
  {
  }

  /** An entry is not seen. */
  lemma VisitAlike(n: string, x: State, y: State, b: seq<Event>, d: nat)
    requires Alike(x, y, b, d)
    ensures Alike(Visited(n, x), Visited(n, y), b, d)
  {
    SeenVisit(n, x);
    SeenVisit(n, y);
    hide Seen, Passed, Skeleton, Paced, Tallied, Visited;
    GrowAlike(x, y, Visited(n, x), Visited(n, y), [], b, d);
  }

  lemma SeenVisit(n: string, s: State)
    ensures Seen(Visited(n, s).log) == Seen(s.log)
  {
    SeenNote(s, VisitOf(n, s));
  }

  function Recorded(g: Graph, n: string, s: State): State {
    Note(Visited(n, s), Record(n)).(trace := RecordNode(s.trace, g, n))
  }

  lemma EnterAlike(g: Graph, tx: string, ty: string, n: string, x: State, y: State, b: seq<Event>, d: nat)
    requires Alike(x, y, b, d) && !y.stopped && (d == 0 || !Cut(Enter(g, ty, n, y)))
    ensures Alike(Enter(g, tx, n, x), Enter(g, ty, n, y), b, d)
  {
    hide Seen, Skeleton, TakeStep, RecordNode, Paced;
    RecordAlike(g, n, x, y, b, d);
    PassAlike(n, Recorded(g, n, x), Recorded(g, n, y), b, d);
  }

  // ---- once cut, a run stays cut ----

  lemma {:induction false} LinksStayCut(w: World, g: Graph, target: string, fuel: nat, links: seq<Link>, s: State)
    requires Cut(s) && s.stopped && fuel > 0
    ensures var r := LinksRun(w, g, target, fuel, links, s);
      Cut(r) && r.stopped && r.log == s.log && r.trace == s.trace && r.ctx == s.ctx && r.count == s.count
    decreases |links|
  {
    if links != [] {
      assert NodeRun(w, g, target, fuel, links[0].next, s) == s;
      LinksStayCut(w, g, target, fuel, links[1..], s);
    }
  }

  // ---- two live runs stay alike ----

  /** A run that counts its budget properly. */
  predicate Live(s: State) {
    Alike(s, s, [], 0)
  }

  lemma AlikeLive(x: State, y: State, b: seq<Event>, d: nat)
    requires Alike(x, y, b, d)
    ensures Live(y) && (Cut(y) ==> y.stopped)
  {
  }

  lemma AlikeFlags(x: State, y: State, b: seq<Event>, d: nat)
    requires Alike(x, y, b, d)
    ensures x.ctx == y.ctx && x.stopped == y.stopped && x.interrupted == y.interrupted && x.status == y.status
    ensures !x.reverting && !y.reverting && x.trace == y.trace && x.trace.enabled
  {
  }

  lemma StatusAlike(x: State, y: State, b: seq<Event>, d: nat, st: Status, i: bool)
    requires Alike(x, y, b, d)
    ensures Alike(x.(status := st), y.(status := st), b, d)
    ensures Alike(x.(interrupted := i), y.(interrupted := i), b, d)
  {
    hide Seen, Skeleton;
  }

  /** While y's budget lasts, or if x has the same left, nothing tells x from y. */
  lemma {:induction false} NodeAlike(w: World, g: Graph, tx: string, ty: string, fuel: nat, n: string, x: State,
      y: State, b: seq<Event>, d: nat)
    requires TreeShaped(g) && FixedConditions(w) && Alike(x, y, b, d) && y.status.Running?
    requires d == 0 || !Cut(NodeRun(w, g, ty, fuel, n, y))
    ensures Alike(NodeRun(w, g, tx, fuel, n, x), NodeRun(w, g, ty, fuel, n, y), b, d)
    decreases fuel, 0
  {
    hide Alike, PlanOf, Enter, Follow, Along, FixedConditions;
    AlikeFlags(x, y, b, d);
    StatusAlike(x, y, b, d, Starved, false);
    if fuel > 0 && n in g.nodes && !y.stopped && !y.interrupted {
      var x1, y1 := Enter(g, tx, n, x), Enter(g, ty, n, y);
      EnterAlike(g, ty, ty, n, y, y, [], 0) by { AlikeLive(x, y, b, d); }
      AlikeLive(y1, y1, [], 0);
      EnterAlike(g, tx, ty, n, x, y, b, d);
      AlikeFlags(x1, y1, b, d);
      if !y1.stopped {
        EnterStatus(g, ty, n, y);
        FollowAlike(w, g, tx, ty, fuel - 1, g.nodes[n], x1, y1, b, d);
      }
    }
  }

  /** The links a live run goes along after its node, none when the node ended the branch. */
  lemma PlanLive(w: World, g: Graph, n: Node, y: State)
    requires TreeShaped(g) && FixedConditions(w) && Treelike(n) && Live(y) && y.status.Running?
    ensures var q := PlanOf(w, g, n, y);
      && !q.Iterate? && Live(PlanState(q)) && PlanState(q).count == y.count && PlanState(q).steps == y.steps
      && (q.FanOut? ==> q.links == Along(w, g, n) && q.s.status.Running?)
  {
    PlanGoesAlong(w, g, n, y);
    PlanLocal(w, g, n, y);
    hide Alike, PlanOf, Along, FixedConditions, Passes;
    PlanAlike(w, g, n, y, y, [], 0);
  }

  lemma {:induction false} FollowAlike(w: World, g: Graph, tx: string, ty: string, fuel: nat, n: Node, x: State,
      y: State, b: seq<Event>, d: nat)
    requires TreeShaped(g) && FixedConditions(w) && Treelike(n) && Alike(x, y, b, d) && y.status.Running?
    requires d == 0 || !Cut(Follow(w, g, ty, fuel, PlanOf(w, g, n, y)))
    ensures Alike(Follow(w, g, tx, fuel, PlanOf(w, g, n, x)), Follow(w, g, ty, fuel, PlanOf(w, g, n, y)), b, d)
    decreases fuel, 3
  {
    hide Alike, PlanOf, Along, FixedConditions;
    PlanAlike(w, g, n, x, y, b, d);
    PlanGoesAlong(w, g, n, x);
    AlikeLive(x, y, b, d);
    PlanLive(w, g, n, y);
    var p, q := PlanOf(w, g, n, x), PlanOf(w, g, n, y);
    if q.FanOut? {
      LinksAlike(w, g, tx, ty, fuel, q.links, p.s, q.s, b, d);
    }
  }

  lemma TestAlike(w: World, when: string, x: State, y: State)
    requires FixedConditions(w)
    ensures Test(w, when, x) == Test(w, when, y) && !Test(w, when, x).CondError? && !Test(w, when, y).CondError?
  {
    assert w.cond(when, x.ctx) == w.cond(when, map[]) && w.cond(when, y.ctx) == w.cond(when, map[]);
  }

  lemma {:induction false} LinksAlike(w: World, g: Graph, tx: string, ty: string, fuel: nat, links: seq<Link>,
      x: State, y: State, b: seq<Event>, d: nat)
    requires TreeShaped(g) && FixedConditions(w) && Alike(x, y, b, d) && y.status.Running?
    requires d == 0 || !Cut(LinksRun(w, g, ty, fuel, links, y))
    ensures Alike(LinksRun(w, g, tx, fuel, links, x), LinksRun(w, g, ty, fuel, links, y), b, d)
    decreases fuel, 1, |links|
  {
    hide Alike, NodeRun, FixedConditions, Test, Cut;
    if links != [] {
      AlikeFlags(x, y, b, d);
      TestAlike(w, links[0].when, x, y);
      var n := links[0].next;
      if Test(w, links[0].when, y).Yes? {
        AlikeLive(x, y, b, d);
        NodeAlike(w, g, ty, ty, fuel, n, y, y, [], 0);
        var x1, y1 := NodeRun(w, g, tx, fuel, n, x), NodeRun(w, g, ty, fuel, n, y);
        AlikeLive(y1, y1, [], 0);
        if Cut(y1) && y1.status.Running? {
          EmptyFuel(w, g, ty, n, y);
          LinksStayCut(w, g, ty, fuel, links[1..], y1);
        }
        NodeAlike(w, g, tx, ty, fuel, n, x, y, b, d);
        AlikeFlags(x1, y1, b, d);
        if y1.status.Running? {
          LinksAlike(w, g, tx, ty, fuel, links[1..], x1, y1, b, d);
        }
      } else {
        LinksAlike(w, g, tx, ty, fuel, links[1..], x, y, b, d);
      }
    }
  }

  lemma EmptyFuel(w: World, g: Graph, target: string, n: string, s: State)
    ensures NodeRun(w, g, target, 0, n, s).status.Starved?
  {
  }

  // ---- which node a run records last ----

  lemma PathStep(g: Graph, p: seq<string>, links: seq<Link>, j: nat)
    requires IsPath(g, p) && Kids(g, p[|p| - 1], links) && j < |links| && links[j].next in g.nodes
    ensures IsPath(g, p + [links[j].next])
  {
    var q := p + [links[j].next];
    assert q[..|q| - 1] == p;
  }

  lemma KidsTail(g: Graph, n: string, links: seq<Link>)
    requires Kids(g, n, links) && links != []
    ensures Kids(g, n, links[1..])
  {
    var rest := links[1..];
    assert forall i | 0 <= i < |rest| :: rest[i] == links[i + 1];
  }

  lemma PathSome(g: Graph, p: seq<string>)
    requires IsPath(g, p)
    ensures |p| > 0 && p[|p| - 1] in g.nodes
  {
  }

  /** The last record of r is at the end of q, below p. */
  ghost predicate RecordAt(g: Graph, p: seq<string>, q: seq<string>, r: State) {
    IsPath(g, q) && p <= q && LastNode(r.trace, g) == q[|q| - 1]
  }

  /** No node was entered. */
  predicate Unentered(g: Graph, s: State, r: State) {
    r.count == s.count && r.steps == s.steps && LastNode(r.trace, g) == LastNode(s.trace, g)
  }

  lemma EnterLast(g: Graph, target: string, n: string, y: State)
    requires Live(y) && !y.stopped && g.id != ""
    ensures var r := Enter(g, target, n, y);
      LastNode(r.trace, g) == n && Live(r) && (Cut(r) <==> r.stopped) && r.status == y.status
  {
    RecordAlike(g, n, y, y, [], 0);
    PassAlike(n, Recorded(g, n, y), Recorded(g, n, y), [], 0);
    StepTaken(n, Recorded(g, n, y));
    hide Seen, Skeleton, TakeStep;
    StepKeeps(n, Recorded(g, n, y));
  }

  lemma LiveFlags(s: State)
    requires Live(s)
    ensures Cut(s) ==> s.stopped
    ensures !s.reverting && Live(s.(interrupted := false)) && Live(s.(status := Starved))
  {
  }

  lemma RecordHere(g: Graph, p: seq<string>, r: State)
    requires IsPath(g, p) && LastNode(r.trace, g) == p[|p| - 1]
    ensures RecordAt(g, p, p, r)
  {
  }

  lemma RecordAbove(g: Graph, p: seq<string>, n: string, q: seq<string>, r: State)
    requires RecordAt(g, p + [n], q, r)
    ensures RecordAt(g, p, q, r)
  {
    assert p <= p + [n];
  }

  lemma NodeUnfold(w: World, g: Graph, target: string, fuel: nat, n: string, s: State)
    requires fuel > 0 && n in g.nodes && !s.stopped && !s.interrupted
    ensures var s1 := Enter(g, target, n, s);
      NodeRun(w, g, target, fuel, n, s) ==
        if s1.stopped then s1 else Follow(w, g, target, fuel - 1, PlanOf(w, g, g.nodes[n], s1))
  {
    hide Enter, Follow, PlanOf;
  }

  lemma {:induction false} NodeLast(w: World, g: Graph, target: string, fuel: nat, p: seq<string>, y: State)
      returns (q: seq<string>)
    requires TreeShaped(g) && FixedConditions(w) && g.id != "" && IsPath(g, p)
    requires Live(y) && !y.stopped && !y.interrupted && y.status.Running? && fuel > 0
    ensures RecordAt(g, p, q, NodeRun(w, g, target, fuel, p[|p| - 1], y))
    decreases fuel, 0
  {
    hide *;
    PathSome(g, p);
    var n := p[|p| - 1];
    NodeUnfold(w, g, target, fuel, n, y);
    EnterLast(g, target, n, y);
    var y1 := Enter(g, target, n, y);
    q := p;
    if y1.stopped {
      RecordHere(g, p, y1);
    } else {
      var z := Follow(w, g, target, fuel - 1, PlanOf(w, g, g.nodes[n], y1));
      var entered, j, r := FollowLast(w, g, target, fuel - 1, p, y1);
      if entered {
        q := r;
        RecordAbove(g, p, PlanOf(w, g, g.nodes[n], y1).links[j].next, q, z);
      } else {
        UnenteredLast(g, y1, z);
        RecordHere(g, p, z);
      }
    }
  }

  lemma UnenteredLast(g: Graph, s: State, r: State)
    requires Unentered(g, s, r)
    ensures LastNode(r.trace, g) == LastNode(s.trace, g) && Cut(r) == Cut(s)
  {
  }

  lemma {:induction false} FollowLast(w: World, g: Graph, target: string, fuel: nat, p: seq<string>, y: State)
    returns (entered: bool, j: nat, q: seq<string>)
    requires TreeShaped(g) && FixedConditions(w) && g.id != "" && IsPath(g, p) && Live(y) && y.status.Running?
    ensures var f := PlanOf(w, g, g.nodes[p[|p| - 1]], y);
      var z := Follow(w, g, target, fuel, f);
      if entered then f.FanOut? && j < |f.links| && RecordAt(g, p + [f.links[j].next], q, z) && !f.s.stopped
      else Unentered(g, y, z)
    decreases fuel, 3
  {
    hide *;
    PathSome(g, p);
    var n := p[|p| - 1];
    TreeNode(g, n);
    PlanLast(w, g, n, y);
    var f := PlanOf(w, g, g.nodes[n], y);
    FollowUnfold(w, g, target, fuel, f);
    entered, j, q := false, 0, [];
    if f.FanOut? {
      entered, j, q := LinksLast(w, g, target, fuel, p, f.links, f.s);
      PlanThen(g, y, f.s, LinksRun(w, g, target, fuel, f.links, f.s), entered);
    }
  }

  lemma TreeNode(g: Graph, n: string)
    requires TreeShaped(g) && n in g.nodes
    ensures Treelike(g.nodes[n])
  {
  }

  lemma PlanLast(w: World, g: Graph, n: string, y: State)
    requires TreeShaped(g) && FixedConditions(w) && n in g.nodes && Live(y) && y.status.Running?
    ensures var f := PlanOf(w, g, g.nodes[n], y);
      && !f.Iterate? && Unentered(g, y, f.s)
      && (f.FanOut? ==> Kids(g, n, f.links) && Live(f.s) && f.s.status.Running?)
  {
    hide Alike, PlanOf, Along, FixedConditions;
    PlanLive(w, g, g.nodes[n], y);
    PlanLocal(w, g, g.nodes[n], y);
    AlongKids(w, g, n);
  }

  lemma PlanThen(g: Graph, y: State, s: State, z: State, entered: bool)
    requires Unentered(g, y, s) && (!entered ==> Unentered(g, s, z))
    ensures !entered ==> Unentered(g, y, z)
  {
  }

  /** A stopped run changes no more, whatever its links. */
  lemma {:induction false} StoppedLinks(w: World, g: Graph, target: string, fuel: nat, links: seq<Link>, s: State)
    requires s.stopped
    ensures var r := LinksRun(w, g, target, fuel, links, s);
      r.count == s.count && r.steps == s.steps && r.trace == s.trace && r.log == s.log
    decreases |links|
  {
    if links != [] {
      var s1 := NodeRun(w, g, target, fuel, links[0].next, s);
      assert s1.count == s.count && s1.steps == s.steps && s1.stopped && s1.trace == s.trace && s1.log == s.log;
      StoppedLinks(w, g, target, fuel, links[1..], s1);
      StoppedLinks(w, g, target, fuel, links[1..], s);
    }
  }

  lemma {:induction false} LinksLast(w: World, g: Graph, target: string, fuel: nat, p: seq<string>, links: seq<Link>,
      y: State)
    returns (entered: bool, j: nat, q: seq<string>)
    requires TreeShaped(g) && FixedConditions(w) && g.id != "" && IsPath(g, p) && Kids(g, p[|p| - 1], links)
    requires Live(y) && y.status.Running?
    ensures var z := LinksRun(w, g, target, fuel, links, y);
      if entered then j < |links| && links[j].next in g.nodes && RecordAt(g, p + [links[j].next], q, z) && !y.stopped
      else Unentered(g, y, z)
    decreases fuel, 1, |links|
  {
    hide *;
    PathSome(g, p);
    entered, j, q := false, 0, [];
    UnenteredSame(g, y, y);
    if y.stopped {
      StoppedLinks(w, g, target, fuel, links, y);
      UnenteredSame(g, y, LinksRun(w, g, target, fuel, links, y));
    } else if links == [] {
      LinksEnd(w, g, target, fuel, links, y);
    } else {
      TestAlike(w, links[0].when, y, y);
      LinksStep(w, g, target, fuel, links, y);
      var n := links[0].next;
      var y1 := if Test(w, links[0].when, y).Yes? then NodeRun(w, g, target, fuel, n, y) else y;
      LiveNode(w, g, target, fuel, n, y);
      if Test(w, links[0].when, y).Yes? {
        if fuel > 0 && n in g.nodes && !y.interrupted {
          PathStep(g, p, links, 0);
          PathSome(g, p + [n]);
          q := NodeLast(w, g, target, fuel, p + [n], y);
          entered := true;
        } else {
          NotEntered(w, g, target, fuel, n, y);
          UnenteredSame(g, y, y1);
        }
      }
      if y1.status.Running? {
        KidsTail(g, p[|p| - 1], links);
        var e, i, r := LinksLast(w, g, target, fuel, p, links[1..], y1);
        TailRecord(g, p, links, e, i, r, entered, q, y, y1, LinksRun(w, g, target, fuel, links, y));
        if e { entered, j, q := true, i + 1, r; }
      }
    }
  }

  lemma UnenteredSame(g: Graph, s: State, r: State)
    requires r.count == s.count && r.steps == s.steps && r.trace == s.trace
    ensures Unentered(g, s, r)
  {
  }

  lemma NotEntered(w: World, g: Graph, target: string, fuel: nat, n: string, y: State)
    requires fuel == 0 || n !in g.nodes || y.interrupted || y.stopped
    ensures var r := NodeRun(w, g, target, fuel, n, y); r.count == y.count && r.steps == y.steps && r.trace == y.trace
  {
  }

  lemma TailRecord(g: Graph, p: seq<string>, links: seq<Link>, e: bool, i: nat, r: seq<string>, entered: bool,
      q: seq<string>, y: State, y1: State, z: State)
    requires links != []
    requires if e then i < |links[1..]| && RecordAt(g, p + [links[1..][i].next], r, z) else Unentered(g, y1, z)
    requires if entered then RecordAt(g, p + [links[0].next], q, y1) else Unentered(g, y, y1)
    ensures e ==> links[i + 1] == links[1..][i]
    ensures !e ==> if entered then RecordAt(g, p + [links[0].next], q, z) else Unentered(g, y, z)
  {
  }

  lemma LiveNode(w: World, g: Graph, target: string, fuel: nat, n: string, y: State)
    requires TreeShaped(g) && FixedConditions(w) && Live(y) && y.status.Running?
    ensures Live(NodeRun(w, g, target, fuel, n, y))
  {
    hide Alike, NodeRun, FixedConditions;
    NodeAlike(w, g, target, target, fuel, n, y, y, [], 0);
  }

  // ---- walking back to the resume point ----

  /** Reverting, and nothing done yet. */
  predicate Dormant(r: State) {
    r.reverting && !r.stopped && !r.interrupted && r.status.Running? && r.count == 0 && Seen(r.log) == []
  }

  predicate Rests(r: State, q: State) {
    Dormant(q) && q.ctx == r.ctx && q.trace == r.trace && q.steps == r.steps
  }

  lemma RestsTrans(r: State, q: State, z: State)
    requires Rests(r, q) && (q == z || Rests(q, z))
    ensures Rests(r, z) && Dormant(q) && Dormant(z)
  {
  }

  lemma VisitRests(n: string, r: State)
    requires Dormant(r)
    ensures Rests(r, Visited(n, r))
  {
    SeenVisit(n, r);
  }

  lemma PlanRests(w: World, g: Graph, n: Node, r: State)
    requires FixedConditions(w) && Treelike(n) && Dormant(r)
    ensures Rests(r, PlanState(PlanOf(w, g, n, r)))
  {
    hide FixedConditions, Rests, PlanChoice, PlanMatching, PlanParallel, TaskExec, Callbacks, Skeleton;
    RevertRests(w, n, r);
    ChoiceRests(w, n, r);
    if n.typ.Parallel? {
      ParallelRests(w, g, n, r);
    }
  }

  lemma RevertRests(w: World, n: Node, r: State)
    requires Dormant(r)
    ensures TaskExec(w, n, r) == Exec(true, r) && Callbacks(w, n, r) == Exec(true, r) && Rests(r, r)
  {
    hide Seen, WhenTask;
  }

  lemma ChoiceRests(w: World, n: Node, r: State)
    requires FixedConditions(w) && Dormant(r)
    ensures Rests(r, PlanState(PlanChoice(w, n, Exec(true, r))))
    ensures Rests(r, PlanState(PlanMatching(w, n, Exec(true, r))))
  {
    hide FixedConditions, Seen, Choose, Matching, Always;
    ChooseFixed(w, n.next, None, r, r);
    MatchingFixed(w, n.next, r, r);
  }

  lemma ParallelRests(w: World, g: Graph, n: Node, r: State)
    requires Treelike(n) && Dormant(r)
    ensures Rests(r, PlanState(PlanParallel(w, g, n, r)))
  {
    hide Seen, TaskExec, Always, NextNodes, Skeleton, Note;
    NeverWaits(n, r);
    NoteRests(n.id, r);
    RevertRests(w, n, ArriveAt(n.id, r));
    NoteRests(n.id, ArriveAt(n.id, r));
  }

  lemma NoteRests(n: string, r: State)
    requires Dormant(r)
    ensures Rests(r, ArriveAt(n, r)) && Rests(r, FireJoin(n, r))
  {
    SeenNote(r, Arrive(n));
    SeenNote(r, Fire(n));
    hide Seen, Skeleton;
  }

  lemma PlanResting(w: World, g: Graph, n: string, r: State)
    requires TreeShaped(g) && FixedConditions(w) && n in g.nodes && Dormant(r)
    ensures var f := PlanOf(w, g, g.nodes[n], r);
      !f.Iterate? && Rests(r, f.s) && (f.FanOut? ==> Kids(g, n, f.links))
  {
    hide Along, PlanOf, Rests, FixedConditions, Kids, Dormant;
    PlanRests(w, g, g.nodes[n], r);
    PlanGoesAlong(w, g, g.nodes[n], r);
    AlongKids(w, g, n);
  }

  /** Links that do not lead to the resume point are walked in vain. */
  lemma {:induction false} NodeRests(w: World, g: Graph, fuel: nat, p: seq<string>, tp: seq<string>, r: State)
    requires TreeShaped(g) && FixedConditions(w) && IsPath(g, p) && IsPath(g, tp) && !(p <= tp)
    requires Dormant(r) && fuel + |p| >= |g.nodes| + 2
    ensures Rests(r, NodeRun(w, g, tp[|tp| - 1], fuel, p[|p| - 1], r))
    decreases fuel, 0
  {
    hide *;
    PathSome(g, p);
    PathSome(g, tp);
    PathLength(g, p);
    var n, t := p[|p| - 1], tp[|tp| - 1];
    if n == t {
      UniquePath(g, p, tp);
    }
    DormantFacts(r);
    VisitRests(n, r);
    var v := Visited(n, r);
    RestsTrans(r, v, v);
    NodeSteps(w, g, t, fuel, n, r);
    PlanResting(w, g, n, v);
    var f := PlanOf(w, g, g.nodes[n], v);
    RestsTrans(r, v, f.s);
    FollowUnfold(w, g, t, fuel - 1, f);
    if f.FanOut? {
      LinksRest(w, g, fuel - 1, p, tp, f.links, f.s);
      RestsTrans(r, f.s, LinksRun(w, g, t, fuel - 1, f.links, f.s));
    }
  }

  lemma FollowUnfold(w: World, g: Graph, target: string, fuel: nat, f: Plan)
    requires !f.Iterate?
    ensures Follow(w, g, target, fuel, f) == if f.Done? then f.s else LinksRun(w, g, target, fuel, f.links, f.s)
  {
  }

  lemma NotBelow(p: seq<string>, n: string, tp: seq<string>)
    ensures p + [n] <= tp <==> p <= tp && |p| < |tp| && tp[|p|] == n
  {
    if p + [n] <= tp {
      assert (p + [n])[..|p|] == p && (p + [n])[|p|] == n;
    }
  }

  lemma {:induction false} LinksRest(w: World, g: Graph, fuel: nat, p: seq<string>, tp: seq<string>, links: seq<Link>,
      r: State)
    requires TreeShaped(g) && FixedConditions(w) && IsPath(g, p) && IsPath(g, tp) && !(p <= tp)
    requires Dormant(r) && fuel + |p| >= |g.nodes| + 1 && Kids(g, p[|p| - 1], links)
    ensures Rests(r, LinksRun(w, g, tp[|tp| - 1], fuel, links, r))
    decreases fuel, 1, |links|
  {
    hide FixedConditions, NodeRun, Test;
    if links != [] {
      TestAlike(w, links[0].when, r, r);
      KidsTail(g, p[|p| - 1], links);
      var q := if Test(w, links[0].when, r).Yes? then NodeRun(w, g, tp[|tp| - 1], fuel, links[0].next, r) else r;
      ChildRests(w, g, fuel, p, tp, links, r);
      LinksRest(w, g, fuel, p, tp, links[1..], q);
    }
  }

  lemma {:induction false} ChildRests(w: World, g: Graph, fuel: nat, p: seq<string>, tp: seq<string>,
      links: seq<Link>, r: State)
    requires TreeShaped(g) && FixedConditions(w) && IsPath(g, p) && IsPath(g, tp)
    requires links != [] && !(p + [links[0].next] <= tp)
    requires Dormant(r) && fuel + |p| >= |g.nodes| + 1 && Kids(g, p[|p| - 1], links)
    ensures Rests(r, NodeRun(w, g, tp[|tp| - 1], fuel, links[0].next, r))
    decreases fuel, 1, 0
  {
    hide FixedConditions, Follow, PlanOf, Enter;
    if links[0].next in g.nodes {
      PathStep(g, p, links, 0);
      NodeRests(w, g, fuel, p + [links[0].next], tp, r);
    } else {
      PathLength(g, p);
    }
  }

  // ---- two chunks are one run ----

  /** A whole run f, its first chunk a as far as f, and the second chunk r on its way back to the node
      where a will be cut; f may go d steps further than a, which is what r may go. */
  predicate Resuming(f: State, a: State, r: State, d: nat) {
    && Alike(f, a, [], d) && !a.stopped && a.status.Running? && Dormant(r)
    && if d == MAX_STEPS then r.steps < 0 else r.steps == d < MAX_STEPS
  }

  /** z is where the first chunk ends: cut, with the record at the end of tp, which r starts from. */
  ghost predicate Handover(g: Graph, z: State, tp: seq<string>, r: State) {
    Cut(z) && r.ctx == z.ctx && r.trace == z.trace && IsPath(g, tp) && LastNode(z.trace, g) == tp[|tp| - 1]
  }

  /** The rest of nodeRun once a node counts a step. */
  function StepRun(w: World, g: Graph, target: string, fuel: nat, n: string, s: State): State
    requires n in g.nodes
  {
    var s1 := TakeStep(n, s);
    if s1.stopped then s1 else Follow(w, g, target, fuel, PlanOf(w, g, g.nodes[n], s1))
  }

  lemma StepAlike(w: World, g: Graph, tx: string, ty: string, fuel: nat, n: string, x: State, y: State, b: seq<Event>,
      d: nat)
    requires TreeShaped(g) && FixedConditions(w) && n in g.nodes
    requires Alike(x, y, b, d) && !y.stopped && y.status.Running?
    requires d == 0 || !Cut(StepRun(w, g, ty, fuel, n, y))
    ensures Alike(StepRun(w, g, tx, fuel, n, x), StepRun(w, g, ty, fuel, n, y), b, d)
  {
    hide Alike, PlanOf, TakeStep, Follow, FixedConditions;
    var x1, y1 := TakeStep(n, x), TakeStep(n, y);
    AlikeLive(x, y, b, d);
    PassAlike(n, y, y, [], 0);
    AlikeLive(y1, y1, [], 0);
    PassAlike(n, x, y, b, d);
    AlikeFlags(x1, y1, b, d);
    StepKeeps(n, y);
    if !y1.stopped {
      FollowAlike(w, g, tx, ty, fuel, g.nodes[n], x1, y1, b, d);
    }
  }

  lemma StepKeeps(n: string, s: State)
    ensures var r := TakeStep(n, s);
      && r.status == s.status && r.trace == s.trace && r.ctx == s.ctx && r.steps == s.steps
      && r.interrupted == s.interrupted
  {
    hide Skeleton, Int32, WithinBudget;
  }

  lemma NodeSteps(w: World, g: Graph, target: string, fuel: nat, n: string, s: State)
    requires fuel > 0 && n in g.nodes && !s.stopped && !s.interrupted
    ensures !s.reverting ==> NodeRun(w, g, target, fuel, n, s) == StepRun(w, g, target, fuel - 1, n, Recorded(g, n, s))
    ensures s.reverting && n == target ==>
      NodeRun(w, g, target, fuel, n, s) == StepRun(w, g, target, fuel - 1, n, Visited(n, s).(reverting := false))
    ensures s.reverting && n != target ==>
      NodeRun(w, g, target, fuel, n, s) == Follow(w, g, target, fuel - 1, PlanOf(w, g, g.nodes[n], Visited(n, s)))
  {
    hide PlanOf, Follow, TakeStep, Note, RecordNode;
  }

  /** The first chunk is cut at n, the second takes n up. */
  lemma Restart(g: Graph, n: string, f: State, a: State, r: State, d: nat)
    requires Alike(f, a, [], d) && !a.stopped && Dormant(r)
    requires if d == MAX_STEPS then r.steps < 0 else r.steps == d < MAX_STEPS
    requires var z := TakeStep(n, a); Cut(z) && z.ctx == r.ctx && z.trace == r.trace
    requires a.status.Running? && !a.interrupted
    ensures Alike(f, r.(reverting := false), Seen(TakeStep(n, a).log), 0)
  {
    hide Seen, Skeleton, TakeStep;
    StepTaken(n, a);
  }

  lemma {:induction false} ResumeNode(w: World, g: Graph, tx: string, fuel: nat, p: seq<string>, tp: seq<string>,
      f: State, a: State, r: State, d: nat)
    requires TreeShaped(g) && FixedConditions(w) && g.id != "" && IsPath(g, p) && fuel + |p| >= |g.nodes| + 2
    requires Resuming(f, a, r, d) && Handover(g, NodeRun(w, g, tx, fuel, p[|p| - 1], a), tp, r)
    ensures Alike(NodeRun(w, g, tx, fuel, p[|p| - 1], f), NodeRun(w, g, tp[|tp| - 1], fuel, p[|p| - 1], r),
                  Seen(NodeRun(w, g, tx, fuel, p[|p| - 1], a).log), 0)
    decreases fuel, 0
  {
    hide *;
    PathSome(g, p);
    ResumingFacts(f, a, r, d);
    HandoverFacts(g, NodeRun(w, g, tx, fuel, p[|p| - 1], a), tp, r);
    var n, t := p[|p| - 1], tp[|tp| - 1];
    if fuel == 0 || a.interrupted {
      NotEntered(w, g, tx, fuel, n, a);
      UnenteredSame(g, a, NodeRun(w, g, tx, fuel, n, a));
      UnenteredLast(g, a, NodeRun(w, g, tx, fuel, n, a));
    }
    NodeSteps(w, g, tx, fuel, n, a);
    NodeSteps(w, g, tx, fuel, n, f);
    NodeSteps(w, g, t, fuel, n, r);
    ResumingRecorded(g, n, f, a, r, d);
    VisitRests(n, r);
    var v := Visited(n, r);
    RestsResuming(Recorded(g, n, f), Recorded(g, n, a), r, v, d);
    RestsHandover(g, NodeRun(w, g, tx, fuel, n, a), tp, r, v);
    ResumeStep(w, g, tx, fuel - 1, p, tp, Recorded(g, n, f), Recorded(g, n, a), v, d);
  }

  lemma ResumingFacts(f: State, a: State, r: State, d: nat)
    requires Resuming(f, a, r, d)
    ensures Alike(f, a, [], d) && !a.stopped && !f.stopped && a.status.Running? && Dormant(r)
    ensures r.reverting && !r.stopped && !r.interrupted && !f.reverting && !a.reverting
    ensures a.interrupted == f.interrupted
    ensures !Cut(a) && if d == MAX_STEPS then r.steps < 0 else r.steps == d < MAX_STEPS
  {
  }

  lemma HandoverFacts(g: Graph, z: State, tp: seq<string>, r: State)
    requires Handover(g, z, tp, r)
    ensures Cut(z) && r.ctx == z.ctx && r.trace == z.trace && IsPath(g, tp) && |tp| > 0
    ensures LastNode(z.trace, g) == tp[|tp| - 1]
  {
  }

  lemma RestsResuming(f: State, a: State, r: State, q: State, d: nat)
    requires Resuming(f, a, r, d) && Rests(r, q)
    ensures Resuming(f, a, q, d)
  {
    hide Alike;
  }

  lemma RestsHandover(g: Graph, z: State, tp: seq<string>, r: State, q: State)
    requires Handover(g, z, tp, r) && Rests(r, q)
    ensures Handover(g, z, tp, q)
  {
    hide Cut, IsPath, LastNode, Dormant;
  }

  lemma ResumingRecorded(g: Graph, n: string, f: State, a: State, r: State, d: nat)
    requires Resuming(f, a, r, d) && g.id != ""
    ensures Resuming(Recorded(g, n, f), Recorded(g, n, a), r, d)
    ensures var z := Recorded(g, n, a); LastNode(z.trace, g) == n && z.interrupted == a.interrupted
  {
    RecordAlike(g, n, f, a, [], d);
    hide Seen, Skeleton, Alike;
  }

  /** The same from the step count on: f and a have recorded n, or start there. */
  lemma {:induction false} ResumeStep(w: World, g: Graph, tx: string, fuel: nat, p: seq<string>, tp: seq<string>,
      f: State, a: State, r: State, d: nat)
    requires TreeShaped(g) && FixedConditions(w) && g.id != "" && IsPath(g, p) && fuel + |p| >= |g.nodes| + 1
    requires Resuming(f, a, r, d) && !a.interrupted && LastNode(a.trace, g) == p[|p| - 1]
    requires Handover(g, StepRun(w, g, tx, fuel, p[|p| - 1], a), tp, r)
    ensures var n, t := p[|p| - 1], tp[|tp| - 1];
      Alike(StepRun(w, g, tx, fuel, n, f),
            if n == t then StepRun(w, g, t, fuel, n, r.(reverting := false))
            else Follow(w, g, t, fuel, PlanOf(w, g, g.nodes[n], r)),
            Seen(StepRun(w, g, tx, fuel, n, a).log), 0)
    decreases fuel, 4
  {
    hide Alike, Dormant, PlanOf, TakeStep, Follow, FixedConditions, Along, IsPath, LastNode, Kids, TreeShaped;
    PathSome(g, p);
    ResumingFacts(f, a, r, d);
    HandoverFacts(g, StepRun(w, g, tx, fuel, p[|p| - 1], a), tp, r);
    var n, t := p[|p| - 1], tp[|tp| - 1];
    var a1 := TakeStep(n, a);
    StepKeeps(n, a);
    StepKeeps(n, f);
    if a1.stopped {
      Restart(g, n, f, a, r, d);
      StepAlike(w, g, tx, t, fuel, n, f, r.(reverting := false), Seen(a1.log), 0);
    } else {
      AlikeLive(f, a, [], d);
      PassAlike(n, a, a, [], 0);
      AlikeLive(a1, a1, [], 0);
      PassAlike(n, f, a, [], d);
      AlikeFlags(TakeStep(n, f), a1, [], d);
      ResumeFollow(w, g, tx, fuel, p, tp, TakeStep(n, f), a1, r, d);
    }
  }

  /** r's plan goes along the same links as those of f and a. */
  lemma ResumePlans(w: World, g: Graph, n: Node, f: State, a: State, r: State, d: nat)
    requires TreeShaped(g) && FixedConditions(w) && Treelike(n) && Resuming(f, a, r, d)
    requires var q := PlanOf(w, g, n, a); q.FanOut? && q.links != [] && !q.s.stopped
    ensures var p, q, o := PlanOf(w, g, n, f), PlanOf(w, g, n, a), PlanOf(w, g, n, r);
      && p.FanOut? && o.FanOut? && p.links == q.links == o.links && Resuming(p.s, q.s, o.s, d)
      && o.s.ctx == r.ctx && o.s.trace == r.trace
  {
    hide Alike, Dormant, PlanOf, FixedConditions, Along, TreeShaped;
    PlanAlike(w, g, n, f, a, [], d);
    AlikeFlags(f, a, [], d);
    AlikeLive(f, a, [], d);
    DormantFacts(r);
    PlanLive(w, g, n, a);
    PlanRests(w, g, n, r);
    PlanGoesAlong(w, g, n, f);
    PlanGoesAlong(w, g, n, r);
    PlanLocal(w, g, n, f);
  }

  lemma {:induction false} ResumeFollow(w: World, g: Graph, tx: string, fuel: nat, p: seq<string>, tp: seq<string>,
      f: State, a: State, r: State, d: nat)
    requires TreeShaped(g) && FixedConditions(w) && g.id != "" && IsPath(g, p) && fuel + |p| >= |g.nodes| + 1
    requires Resuming(f, a, r, d)
    requires Handover(g, Follow(w, g, tx, fuel, PlanOf(w, g, g.nodes[p[|p| - 1]], a)), tp, r)
    ensures var n, t := p[|p| - 1], tp[|tp| - 1];
      && n != t
      && Alike(Follow(w, g, tx, fuel, PlanOf(w, g, g.nodes[n], f)), Follow(w, g, t, fuel, PlanOf(w, g, g.nodes[n], r)),
               Seen(Follow(w, g, tx, fuel, PlanOf(w, g, g.nodes[n], a)).log), 0)
    decreases fuel, 3
  {
    hide Alike, Dormant, PlanOf, FixedConditions, Along, Kids, Resuming, LastNode, Follow, Cut;
    var n, t := p[|p| - 1], tp[|tp| - 1];
    var z := Follow(w, g, tx, fuel, PlanOf(w, g, g.nodes[n], a));
    ResumingFacts(f, a, r, d);
    AlikeLive(f, a, [], d);
    var entered, j, q := FollowLast(w, g, tx, fuel, p, a);
    if !entered {
      UnenteredLast(g, a, z);
    }
    var links := PlanOf(w, g, g.nodes[n], a).links;
    UniquePath(g, q, tp);
    NotBelow(p, links[j].next, tp);
    if n == t {
      UniquePath(g, p, tp);
    }
    ResumePlans(w, g, g.nodes[n], f, a, r, d);
    AlongKids(w, g, n);
    PlanGoesAlong(w, g, g.nodes[n], a);
    FollowUnfold(w, g, tx, fuel, PlanOf(w, g, g.nodes[n], f));
    FollowUnfold(w, g, tx, fuel, PlanOf(w, g, g.nodes[n], a));
    FollowUnfold(w, g, t, fuel, PlanOf(w, g, g.nodes[n], r));
    ResumeLinks(w, g, tx, fuel, p, tp, links, PlanOf(w, g, g.nodes[n], f).s, PlanOf(w, g, g.nodes[n], a).s,
      PlanOf(w, g, g.nodes[n], r).s, d);
  }

  lemma {:induction false} ResumeLinks(w: World, g: Graph, tx: string, fuel: nat, p: seq<string>, tp: seq<string>,
      links: seq<Link>, f: State, a: State, r: State, d: nat)
    requires TreeShaped(g) && FixedConditions(w) && g.id != "" && IsPath(g, p) && fuel + |p| >= |g.nodes| + 1
    requires Kids(g, p[|p| - 1], links) && Resuming(f, a, r, d)
    requires Handover(g, LinksRun(w, g, tx, fuel, links, a), tp, r)
    ensures Alike(LinksRun(w, g, tx, fuel, links, f), LinksRun(w, g, tp[|tp| - 1], fuel, links, r),
                  Seen(LinksRun(w, g, tx, fuel, links, a).log), 0)
    decreases fuel, 1, |links|
  {
    hide *;
    PathSome(g, p);
    ResumingFacts(f, a, r, d);
    AlikeFlags(f, a, [], d);
    DormantFacts(r);
    HandoverFacts(g, LinksRun(w, g, tx, fuel, links, a), tp, r);
    var t := tp[|tp| - 1];
    if links == [] {
      LinksEnd(w, g, tx, fuel, links, a);
    } else {
      KidsTail(g, p[|p| - 1], links);
      TestAlike(w, links[0].when, f, a);
      TestAlike(w, links[0].when, a, r);
      LinksStep(w, g, tx, fuel, links, f);
      LinksStep(w, g, tx, fuel, links, a);
      LinksStep(w, g, t, fuel, links, r);
      if !Test(w, links[0].when, a).Yes? {
        ResumeLinks(w, g, tx, fuel, p, tp, links[1..], f, a, r, d);
      } else {
        ResumeChild(w, g, tx, fuel, p, tp, links, f, a, r, d);
      }
    }
  }

  lemma LinksStep(w: World, g: Graph, target: string, fuel: nat, links: seq<Link>, s: State)
    requires links != [] && !Test(w, links[0].when, s).CondError? && s.status.Running?
    ensures LinksRun(w, g, target, fuel, links, s) ==
      var s1 := if Test(w, links[0].when, s).Yes? then NodeRun(w, g, target, fuel, links[0].next, s) else s;
      if !s1.status.Running? then s1 else LinksRun(w, g, target, fuel, links[1..], s1)
  {
    hide NodeRun, Test;
  }

  lemma DormantFacts(r: State)
    requires Dormant(r)
    ensures r.reverting && !r.stopped && !r.interrupted && r.status.Running?
  {
  }

  /** The first link is taken: the cut is below it or below a later one. */
  lemma {:induction false} ResumeChild(w: World, g: Graph, tx: string, fuel: nat, p: seq<string>, tp: seq<string>,
      links: seq<Link>, f: State, a: State, r: State, d: nat)
    requires TreeShaped(g) && FixedConditions(w) && g.id != "" && IsPath(g, p) && fuel + |p| >= |g.nodes| + 1
    requires Kids(g, p[|p| - 1], links) && Resuming(f, a, r, d) && links != []
    requires Test(w, links[0].when, a).Yes? && Handover(g, LinksRun(w, g, tx, fuel, links, a), tp, r)
    ensures Alike(LinksRun(w, g, tx, fuel, links, f), LinksRun(w, g, tp[|tp| - 1], fuel, links, r),
                  Seen(LinksRun(w, g, tx, fuel, links, a).log), 0)
    decreases fuel, 1, |links|, 0
  {
    hide *;
    PathSome(g, p);
    ResumingFacts(f, a, r, d);
    AlikeFlags(f, a, [], d);
    AlikeLive(f, a, [], d);
    DormantFacts(r);
    var z := LinksRun(w, g, tx, fuel, links, a);
    HandoverFacts(g, z, tp, r);
    var t, n := tp[|tp| - 1], links[0].next;
    TestAlike(w, links[0].when, f, a);
    TestAlike(w, links[0].when, a, r);
    LinksStep(w, g, tx, fuel, links, f);
    LinksStep(w, g, tx, fuel, links, a);
    LinksStep(w, g, t, fuel, links, r);
    var f1, a1, r1 := NodeRun(w, g, tx, fuel, n, f), NodeRun(w, g, tx, fuel, n, a), NodeRun(w, g, t, fuel, n, r);
    LiveNode(w, g, tx, fuel, n, a);
    LiveFlags(a1);
    if Cut(a1) {
      if n !in g.nodes {
        NotEntered(w, g, tx, fuel, n, a);
        UnenteredSame(g, a, a1);
        UnenteredLast(g, a, a1);
      }
      PathStep(g, p, links, 0);
      if a1.status.Running? {
        EmptyFuel(w, g, tx, n, a);
        LinksStayCut(w, g, tx, fuel, links[1..], a1);
      }
      HandoverFrom(g, z, a1, tp, r);
      ResumeNode(w, g, tx, fuel, p + [n], tp, f, a, r, d);
      AlikeFlags(f1, r1, Seen(a1.log), 0);
      if r1.status.Running? {
        LinksAlike(w, g, tx, t, fuel, links[1..], f1, r1, Seen(a1.log), 0);
      }
    } else {
      KidsTail(g, p[|p| - 1], links);
      var entered, j, q := LinksLast(w, g, tx, fuel, p, links[1..], a1);
      if !entered {
        UnenteredLast(g, a1, z);
      }
      RecordElsewhere(g, p, links, j, q, tp, z);
      NodeAlike(w, g, tx, tx, fuel, n, f, a, [], d);
      AlikeFlags(f1, a1, [], d);
      ChildRests(w, g, fuel, p, tp, links, r);
      ResumingOn(f, a, r, f1, a1, r1, d);
      ResumingFacts(f1, a1, r1, d);
      DormantFacts(r1);
      HandoverOn(g, z, tp, r, r1);
      ResumeLinks(w, g, tx, fuel, p, tp, links[1..], f1, a1, r1, d);
    }
  }

  lemma HandoverFrom(g: Graph, z: State, y: State, tp: seq<string>, r: State)
    requires Handover(g, z, tp, r) && Cut(y) && y.ctx == z.ctx && y.trace == z.trace
    ensures Handover(g, y, tp, r)
  {
  }

  lemma HandoverOn(g: Graph, z: State, tp: seq<string>, r: State, q: State)
    requires Handover(g, z, tp, r) && Rests(r, q)
    ensures Handover(g, z, tp, q)
  {
  }

  lemma ResumingOn(f: State, a: State, r: State, f1: State, a1: State, r1: State, d: nat)
    requires Resuming(f, a, r, d) && Alike(f1, a1, [], d) && !a1.stopped && a1.status.Running?
    requires Rests(r, r1)
    ensures Resuming(f1, a1, r1, d)
  {
  }

  /** When the last record is below a later link, the first one does not lead to it. */
  lemma RecordElsewhere(g: Graph, p: seq<string>, links: seq<Link>, j: nat, q: seq<string>, tp: seq<string>, z: State)
    requires TreeShaped(g) && links != [] && |p| > 0 && Kids(g, p[|p| - 1], links)
    requires j < |links| - 1 && links[1..][j].next in g.nodes && RecordAt(g, p + [links[1..][j].next], q, z)
    requires IsPath(g, tp) && LastNode(z.trace, g) == tp[|tp| - 1]
    ensures !(p + [links[0].next] <= tp)
  {
    hide LastNode;
    UniquePath(g, q, tp);
    assert links[1..][j] == links[j + 1];
    NotBelow(p, links[0].next, tp);
    NotBelow(p, links[j + 1].next, tp);
  }

  // ---- the log only grows ----

  /** The rest of a run, with a log and a budget of its own. */
  function Afresh(x: State): State {
    x.(log := [], count := 0, steps := if x.steps < 0 then x.steps else x.steps - x.count)
  }

  lemma AfreshAlike(x: State)
    requires Live(x) && !x.stopped
    ensures Alike(x, Afresh(x), Seen(x.log), 0) && Afresh(x).status == x.status
  {
  }

  /** A later state of the same live run. */
  predicate Grown(x: State, r: State) {
    Live(r) && Seen(x.log) <= Seen(r.log)
  }

  lemma AlikeGrown(x: State, r: State, y: State)
    requires Alike(r, y, Seen(x.log), 0) && Live(r)
    ensures Grown(x, r)
  {
  }

  lemma StoppedGrown(x: State, r: State)
    requires Live(r) && r.log == x.log
    ensures Grown(x, r)
  {
  }

  lemma LinksGrow(w: World, g: Graph, target: string, fuel: nat, links: seq<Link>, x: State)
    requires TreeShaped(g) && FixedConditions(w) && Live(x) && x.status.Running?
    ensures Grown(x, LinksRun(w, g, target, fuel, links, x))
  {
    hide *;
    var r := LinksRun(w, g, target, fuel, links, x);
    LiveLinks(w, g, target, fuel, links, x);
    if x.stopped {
      StoppedLinks(w, g, target, fuel, links, x);
      StoppedGrown(x, r);
    } else {
      AfreshAlike(x);
      LinksAlike(w, g, target, target, fuel, links, x, Afresh(x), Seen(x.log), 0);
      AlikeGrown(x, r, LinksRun(w, g, target, fuel, links, Afresh(x)));
    }
  }

  lemma LiveLinks(w: World, g: Graph, target: string, fuel: nat, links: seq<Link>, x: State)
    requires TreeShaped(g) && FixedConditions(w) && Live(x) && x.status.Running?
    ensures Live(LinksRun(w, g, target, fuel, links, x))
  {
    hide Alike, LinksRun, FixedConditions;
    LinksAlike(w, g, target, target, fuel, links, x, x, [], 0);
  }

  lemma FollowGrow(w: World, g: Graph, target: string, fuel: nat, n: Node, x: State)
    requires TreeShaped(g) && FixedConditions(w) && Treelike(n) && Live(x) && !x.stopped && x.status.Running?
    ensures Grown(x, Follow(w, g, target, fuel, PlanOf(w, g, n, x)))
  {
    hide Seen, Follow, PlanOf, TreeShaped, FixedConditions, Treelike, Grown, Alike;
    AfreshAlike(x);
    FollowAlike(w, g, target, target, fuel, n, x, x, [], 0);
    FollowAlike(w, g, target, target, fuel, n, x, Afresh(x), Seen(x.log), 0);
    AlikeGrown(x, Follow(w, g, target, fuel, PlanOf(w, g, n, x)),
      Follow(w, g, target, fuel, PlanOf(w, g, n, Afresh(x))));
  }
}

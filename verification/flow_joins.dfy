/** Parallel joins: arrivals and firings of every gateway balance at every node entry. */
module FlowJoins {
  import opened FlowSpec
  import opened FlowRuns

  function Occurs(log: seq<Event>, e: Event): nat {
    if log == [] then 0
    else Occurs(log[..|log| - 1], e) + if log[|log| - 1] == e then 1 else 0
  }

  lemma OccursOne(log: seq<Event>, x: Event, e: Event)
    ensures Occurs(log + [x], e) == Occurs(log, e) + if x == e then 1 else 0
  {
    assert (log + [x])[..|log|] == log;
  }

  predicate IsJoin(g: Graph, n: string) {
    n in g.nodes && g.nodes[n].typ.Parallel? && g.nodes[n].incoming >= 1
  }

  /** n's arrivals are its firings times its incoming links, plus c branches still waiting. */
  predicate Counted(g: Graph, n: string, log: seq<Event>, c: nat)
    requires IsJoin(g, n)
  {
    && Occurs(log, Arrive(n)) == g.nodes[n].incoming * Occurs(log, Fire(n)) + c
    && c < g.nodes[n].incoming
  }

  /** The counters hold exactly the waiting branches. */
  ghost predicate Balanced(g: Graph, log: seq<Event>, counts: map<string, nat>) {
    forall n | IsJoin(g, n) :: Counted(g, n, log, if n in counts then counts[n] else 0)
  }

  /** Balanced whenever a node is entered, with the counters of that moment. */
  ghost predicate BalancedEntries(g: Graph, log: seq<Event>) {
    log == []
    || (var before := log[..|log| - 1];
        BalancedEntries(g, before) && (log[|log| - 1].Visit? ==> Balanced(g, before, log[|log| - 1].counts)))
  }

  lemma EntriesOne(g: Graph, log: seq<Event>, e: Event)
    requires BalancedEntries(g, log) && (e.Visit? ==> Balanced(g, log, e.counts))
    ensures BalancedEntries(g, log + [e])
  {
    assert (log + [e])[..|log|] == log;
  }

  ghost predicate Joined(g: Graph, s: State) {
    forall n | IsJoin(g, n) :: Counted(g, n, Skeleton(s.log), CountOf(s.temp, n))
  }

  ghost predicate Over(s: State) {
    s.stopped || !s.status.Running?
  }

  /** What every run keeps: the entries so far were balanced, and the counters are exact until the run
      is stopped or ends. */
  ghost predicate JoinInv(g: Graph, s: State) {
    BalancedEntries(g, Skeleton(s.log)) && (Over(s) || Joined(g, s))
  }

  // ---- joins that stall ----

  /** The callbacks and the task of a live node end the branch by an interrupt, and neither stop the flow
      nor fail: what is left to onEnd. */
  predicate EndStalls(w: World, n: string, c: Ctx) {
    !w.onEnd(n, c).stop && w.onEnd(n, c).interrupt
  }

  predicate TaskStalls(w: World, n: string, when: string, c: Ctx) {
    match if when == "" then Yes else w.cond(when, c)
    case CondError => false
    case No => EndStalls(w, n, c)
    case Yes =>
      var e := w.task(n, c);
      !e.error && !e.stop && (e.interrupt || EndStalls(w, n, e.ctx))
  }

  predicate Stalls(w: World, n: string, when: string, c: Ctx) {
    var e := w.onStart(n, c);
    !e.stop && (e.interrupt || TaskStalls(w, n, when, e.ctx))
  }

  /** A node in a run that is past its resume point. */
  predicate Live(s: State) {
    !s.reverting && !s.stopped && !s.interrupted && s.status.Running?
  }

  lemma CallbackEnds(w: World, n: Node, s: State)
    requires Live(s)
    ensures var e, t := w.onStart(n.id, s.ctx), OnNodeStart(w, n, s);
      && t.go == (!e.stop && !e.interrupt) && t.s.stopped == e.stop && t.s.ctx == e.ctx
      && (!e.stop ==> Live(t.s))
    ensures var e, t := w.onEnd(n.id, s.ctx), OnNodeEnd(w, n, s);
      && t.go == (!e.stop && !e.interrupt) && t.s.stopped == e.stop && t.s.ctx == e.ctx
      && (!e.stop ==> Live(t.s))
  {
    hide Skeleton;
  }

  lemma WhenEnds(w: World, n: Node, s: State)
    requires Live(s)
    ensures var t, c := WhenTask(w, n, s), Test(w, n.when, s);
      var e := w.task(n.id, s.ctx);
      && (c.CondError? ==> !t.go && Over(t.s))
      && (c.No? ==> t.go && t.s == s)
      && (c.Yes? ==> t.go == (!e.error && !e.stop && !e.interrupt) && Over(t.s) == (e.error || e.stop))
      && (c.Yes? && !Over(t.s) ==> Live(t.s) && t.s.ctx == e.ctx)
  {
    hide Skeleton;
  }

  /** The task of a live node ends its branch, and not the flow, exactly when the node stalls. */
  lemma StallsIs(w: World, n: Node, s: State)
    requires Live(s)
    ensures var t := TaskExec(w, n, s);
      && (!t.go && !Over(t.s) <==> Stalls(w, n.id, n.when, s.ctx))
      && (!t.go && !Over(t.s) ==> Live(t.s))
  {
    hide Skeleton, OnNodeStart, OnNodeEnd, WhenTask;
    CallbackEnds(w, n, s);
    var a := OnNodeStart(w, n, s);
    if a.go {
      WhenEnds(w, n, a.s);
      var t := WhenTask(w, n, a.s);
      if t.go {
        CallbackEnds(w, n, t.s);
      }
    }
  }

  /** A live join that this arrival completes does not stall. */
  predicate Harmless(w: World, n: Node, s: State) {
    !s.reverting && n.typ.Parallel? && 1 <= n.incoming <= CountOf(s.temp, n.id) + 1 ==>
      !Stalls(w, n.id, n.when, s.ctx)
  }

  lemma JoinedBalanced(g: Graph, s: State)
    requires Joined(g, s)
    ensures Balanced(g, Skeleton(s.log), s.temp.counts)
  {
  }

  /** Tasks and callbacks keep the counters and the structural log. */
  lemma BesideInv(g: Graph, s: State, r: State)
    requires JoinInv(g, s) && Beside(s, r) && (!s.status.Running? ==> !r.status.Running?)
    ensures JoinInv(g, r)
  {
  }

  lemma TaskInv(w: World, g: Graph, n: Node, s: State)
    requires JoinInv(g, s) && s.status.Running?
    ensures var t := TaskExec(w, n, s); JoinInv(g, t.s) && Beside(s, t.s)
    ensures var t := Callbacks(w, n, s); JoinInv(g, t.s) && Beside(s, t.s)
  {
    hide TaskExec, Callbacks, JoinInv, Beside;
    BesideInv(g, s, TaskExec(w, n, s).s);
    BesideInv(g, s, Callbacks(w, n, s).s);
  }

  lemma TaskQuiet(w: World, n: Node, s: State)
    requires !s.stopped && !s.interrupted && s.status.Running? && (!s.reverting ==> !Stalls(w, n.id, n.when, s.ctx))
    ensures var t := TaskExec(w, n, s); (t.go || Over(t.s)) && Beside(s, t.s)
  {
    hide Skeleton, OnNodeStart, OnNodeEnd, WhenTask, Stalls;
    if !s.reverting {
      StallsIs(w, n, s);
    }
  }

  /** A change of the gateway state that leaves the counters of joins alone. */
  lemma TempInv(g: Graph, s: State, t: Temporary)
    requires JoinInv(g, s) && forall n | IsJoin(g, n) :: CountOf(t, n) == CountOf(s.temp, n)
    ensures JoinInv(g, s.(temp := t))
  {
  }

  /** A node of the graph as it stands there. */
  predicate In(g: Graph, n: Node) {
    n.id in g.nodes && g.nodes[n.id] == n
  }

  lemma PlanInv(w: World, g: Graph, n: Node, s: State)
    requires In(g, n) && JoinInv(g, s) && Harmless(w, n, s) && !s.stopped && !s.interrupted && s.status.Running?
    ensures JoinInv(g, PlanState(PlanOf(w, g, n, s)))
  {
    hide TaskExec, Callbacks, JoinInv, PlanParallel, PlanInclusive, PlanChoice, PlanOutflow, Beside, Harmless;
    TaskInv(w, g, n, s);
    if n.typ.Parallel? {
      ParallelInv(w, g, n, s);
    } else if n.typ.Inclusive? {
      InclusiveInv(w, g, n, s);
    } else if n.typ.Loop? {
      LoopInv(w, g, n, s);
    } else {
      ChoiceInv(w, g, n, TaskExec(w, n, s));
    }
  }

  lemma FailInv(g: Graph, s: State)
    requires JoinInv(g, s)
    ensures JoinInv(g, Fail(s))
  {
  }

  lemma ChoiceInv(w: World, g: Graph, n: Node, t: Exec)
    requires JoinInv(g, t.s)
    ensures JoinInv(g, PlanState(PlanChoice(w, n, t)))
    ensures JoinInv(g, PlanState(PlanMatching(w, n, t)))
    ensures JoinInv(g, PlanState(PlanOutflow(w, n, t)))
  {
    hide JoinInv, Choose, Matching, BuildIterator;
    FailInv(g, t.s);
    var m := Matching(w, n.next, t.s);
    if m.Some? {
      TempInv(g, t.s, t.s.temp.(matched := t.s.temp.matched + [|m.value|]));
    }
    var items := BuildIterator(n.source, t.s.ctx);
    if items.Some? {
      TempInv(g, t.s, PushLoop(t.s.temp, items.value));
    }
  }

  lemma LoopInv(w: World, g: Graph, n: Node, s: State)
    requires JoinInv(g, s) && s.status.Running?
    ensures JoinInv(g, PlanState(PlanInflow(w, n, s)))
    ensures JoinInv(g, PlanState(PlanOutflow(w, n, TaskExec(w, n, s))))
  {
    hide TaskExec, Callbacks, JoinInv, PlanOutflow, Beside, Iterating;
    TaskInv(w, g, n, s);
    ChoiceInv(w, g, n, TaskExec(w, n, s));
    TempInv(g, s, PopLoop(s.temp));
    TaskInv(w, g, n, s.(temp := PopLoop(s.temp)));
  }

  lemma InclusiveInv(w: World, g: Graph, n: Node, s: State)
    requires In(g, n) && n.typ.Inclusive? && JoinInv(g, s) && s.status.Running?
    ensures JoinInv(g, PlanState(PlanInclusive(w, n, s)))
  {
    hide TaskExec, Callbacks, JoinInv, PlanMatching, Beside;
    if !Joining(n, s.temp) {
      TaskInv(w, g, n, s);
      ChoiceInv(w, g, n, TaskExec(w, n, s));
    } else {
      var t1 := CountIn(n.id, s.temp);
      TempInv(g, s, t1);
      var s1 := s.(temp := PopMatched(t1));
      TempInv(g, s, PopMatched(t1));
      TaskInv(w, g, n, s1);
      ChoiceInv(w, g, n, TaskExec(w, n, s1));
    }
  }

  /** An arrival either waits, and is counted, or completes the join, which starts afresh. */
  lemma ParallelInv(w: World, g: Graph, n: Node, s: State)
    requires In(g, n) && n.typ.Parallel? && JoinInv(g, s) && Harmless(w, n, s)
    requires !s.stopped && !s.interrupted && s.status.Running?
    ensures JoinInv(g, PlanState(PlanParallel(w, g, n, s)))
  {
    hide TaskExec, Callbacks, Skeleton, Always, NextNodes, BalancedEntries, Joined;
    var s1 := ArriveAt(n.id, s);
    EntriesOne(g, Skeleton(s.log), Arrive(n.id));
    if n.incoming > CountOf(s1.temp, n.id) {
      WaitInv(g, n.id, s);
    } else {
      var t := TaskExec(w, n, s1);
      if n.incoming == 0 {
        WaitInv(g, n.id, s);
        TaskInv(w, g, n, s1);
      } else {
        TaskQuiet(w, n, s1);
      }
      EntriesOne(g, Skeleton(t.s.log), Fire(n.id));
      if t.go && !Over(t.s) {
        FireInv(g, n.id, s, t.s);
      }
    }
  }

  lemma WaitInv(g: Graph, n: string, s: State)
    requires IsJoin(g, n) ==> CountOf(s.temp, n) + 1 < g.nodes[n].incoming
    ensures Joined(g, s) ==> Joined(g, ArriveAt(n, s))
  {
    if Joined(g, s) {
      forall m | IsJoin(g, m)
        ensures Counted(g, m, Skeleton(ArriveAt(n, s).log), CountOf(ArriveAt(n, s).temp, m))
      {
        OccursOne(Skeleton(s.log), Arrive(n), Arrive(m));
        OccursOne(Skeleton(s.log), Arrive(n), Fire(m));
      }
    }
  }

  /** From s, n's last branch arrives, its task runs up to t, and the gateway fires. */
  lemma FireInv(g: Graph, n: string, s: State, t: State)
    requires n in g.nodes && g.nodes[n].typ.Parallel? && CountOf(s.temp, n) + 1 >= g.nodes[n].incoming
    requires Joined(g, s) && Beside(ArriveAt(n, s), t)
    ensures Joined(g, FireJoin(n, t))
  {
    var r := FireJoin(n, t);
    forall m | IsJoin(g, m) ensures Counted(g, m, Skeleton(r.log), CountOf(r.temp, m)) {
      FireCounted(g, n, m, Skeleton(s.log), CountOf(s.temp, m));
      assert Skeleton(r.log) == Skeleton(s.log) + [Arrive(n)] + [Fire(n)];
      assert CountOf(r.temp, m) == if m == n then 0 else CountOf(s.temp, m);
    }
  }

  lemma FireCounted(g: Graph, n: string, m: string, log: seq<Event>, c: nat)
    requires IsJoin(g, m) && Counted(g, m, log, c) && (m == n ==> c + 1 >= g.nodes[m].incoming)
    ensures Counted(g, m, log + [Arrive(n)] + [Fire(n)], if m == n then 0 else c)
  {
    OccursOne(log, Arrive(n), Arrive(m));
    OccursOne(log, Arrive(n), Fire(m));
    OccursOne(log + [Arrive(n)], Fire(n), Arrive(m));
    OccursOne(log + [Arrive(n)], Fire(n), Fire(m));
    var k, f := g.nodes[m].incoming, Occurs(log, Fire(m));
    assert k * (f + 1) == k * f + k;
  }

  /** Entering a node: the join counters are balanced at that moment. */
  lemma EnterInv(g: Graph, target: string, n: string, s: State)
    requires JoinInv(g, s) && !Over(s)
    ensures JoinInv(g, Enter(g, target, n, s))
  {
    hide JoinInv, TakeStep, Skeleton;
    var v := Visited(n, s);
    NoteInv(g, VisitOf(n, s), s, v);
    if s.reverting {
      if n == target {
        CopyInv(g, v, v.(reverting := false));
        StepInv(g, n, v.(reverting := false));
      }
    } else {
      var s1 := Note(v, Record(n)).(trace := RecordNode(s.trace, g, n));
      NoteInv(g, Record(n), v, s1);
      StepInv(g, n, s1);
    }
  }

  lemma CopyInv(g: Graph, s: State, r: State)
    requires JoinInv(g, s) && !Over(s)
    requires Skeleton(r.log) == Skeleton(s.log) && r.temp == s.temp && !r.stopped
    ensures JoinInv(g, r)
  {
  }

  lemma NoteInv(g: Graph, e: Event, s: State, r: State)
    requires JoinInv(g, s) && !Over(s) && r.temp == s.temp
    requires (e.Visit? && e.counts == s.temp.counts) || e.Record?
    requires Skeleton(r.log) == Skeleton(s.log) + [e]
    ensures JoinInv(g, r)
  {
    JoinedBalanced(g, s);
    EntriesOne(g, Skeleton(s.log), e);
    NoteJoined(g, s, r, e);
  }

  lemma StepInv(g: Graph, n: string, s: State)
    requires JoinInv(g, s) && !s.stopped
    ensures JoinInv(g, TakeStep(n, s))
  {
    var s1 := NextStep(s);
    hide Skeleton, Int32;
    EntriesOne(g, Skeleton(s.log), Pass(n));
    NoteJoined(g, s, Note(s1, Pass(n)), Pass(n));
  }

  lemma NoteJoined(g: Graph, s: State, r: State, e: Event)
    requires (e.Visit? || e.Record? || e.Pass?) && r.temp == s.temp && Skeleton(r.log) == Skeleton(s.log) + [e]
    ensures Joined(g, s) ==> Joined(g, r)
  {
    if Joined(g, s) {
      forall m | IsJoin(g, m) ensures Counted(g, m, Skeleton(r.log), CountOf(r.temp, m)) {
        OccursOne(Skeleton(s.log), e, Arrive(m));
        OccursOne(Skeleton(s.log), e, Fire(m));
      }
    }
  }

  // ---- what a log says of stalled joins ----

  /** The entry of a join that was live, was completed by it, and stalled. */
  predicate StallsAt(w: World, g: Graph, target: string, e: Event) {
    && e.Visit? && IsJoin(g, e.n) && (e.reverting ==> e.n == target)
    && g.nodes[e.n].incoming <= (if e.n in e.counts then e.counts[e.n] else 0) + 1
    && Stalls(w, e.n, g.nodes[e.n].when, e.ctx)
  }

  predicate Stalled(w: World, g: Graph, target: string, log: seq<Event>) {
    log != [] && (Stalled(w, g, target, log[..|log| - 1]) || StallsAt(w, g, target, log[|log| - 1]))
  }

  /** A node is entered after a join stalled. */
  predicate Overtaken(w: World, g: Graph, target: string, log: seq<Event>) {
    log != [] && (var before := log[..|log| - 1];
                  Overtaken(w, g, target, before) || (log[|log| - 1].Visit? && Stalled(w, g, target, before)))
  }

  lemma StalledOne(w: World, g: Graph, target: string, log: seq<Event>, e: Event)
    ensures Stalled(w, g, target, log + [e]) <==> Stalled(w, g, target, log) || StallsAt(w, g, target, e)
    ensures Overtaken(w, g, target, log + [e]) <==>
      Overtaken(w, g, target, log) || (e.Visit? && Stalled(w, g, target, log))
    ensures BalancedEntries(g, log + [e]) <==> BalancedEntries(g, log) && (e.Visit? ==> Balanced(g, log, e.counts))
  {
    assert (log + [e])[..|log|] == log;
  }

  /** b goes on from a, and enters no node. */
  predicate Onward(a: seq<Event>, b: seq<Event>) {
    a <= b && forall k | |a| <= k < |b| :: !b[k].Visit?
  }

  lemma OnwardOne(a: seq<Event>, b: seq<Event>, e: Event)
    requires Onward(a, b) && !e.Visit?
    ensures Onward(a, b + [e])
  {
  }

  lemma {:induction false} OnwardKeeps(w: World, g: Graph, target: string, a: seq<Event>, b: seq<Event>)
    requires Onward(a, b)
    ensures Stalled(w, g, target, b) == Stalled(w, g, target, a)
    ensures Overtaken(w, g, target, b) == Overtaken(w, g, target, a)
    ensures BalancedEntries(g, b) == BalancedEntries(g, a)
    decreases |b|
  {
    if |a| == |b| {
      assert a == b;
    } else {
      var c := b[..|b| - 1];
      assert b == c + [b[|b| - 1]];
      OnwardKeeps(w, g, target, a, c);
      StalledOne(w, g, target, c, b[|b| - 1]);
    }
  }

  /** After its entry a node enters no other before it goes on. */
  lemma EnterOnward(g: Graph, target: string, n: string, s: State)
    ensures Onward(Skeleton(s.log) + [VisitOf(n, s)], Skeleton(Enter(g, target, n, s).log))
  {
    hide Skeleton, RecordNode, NextStep, WithinBudget;
    var a := Skeleton(s.log) + [VisitOf(n, s)];
    var v := Visited(n, s);
    var s1 := if s.reverting then v.(reverting := false)
              else Note(v, Record(n)).(trace := RecordNode(s.trace, g, n));
    StepLog(n, s1);
    if !s.reverting {
      OnwardOne(a, a, Record(n));
    }
    OnwardOne(a, Skeleton(s1.log), Pass(n));
  }

  lemma StepLog(n: string, s: State)
    ensures var r := TakeStep(n, s);
      Skeleton(r.log) == Skeleton(s.log) || Skeleton(r.log) == Skeleton(s.log) + [Pass(n)]
    ensures NextStep(s).log == s.log
  {
    hide Skeleton, Int32;
  }

  lemma PlanOnward(w: World, g: Graph, n: Node, s: State)
    ensures Onward(Skeleton(s.log), Skeleton(PlanState(PlanOf(w, g, n, s)).log))
  {
    hide *;
    if n.typ.Parallel? {
      PlanIsParallel(w, g, n, s);
      ParallelOnward(w, g, n, s);
    } else {
      PlanLog(w, g, n, s);
      OnwardSame(Skeleton(s.log));
    }
  }

  lemma OnwardSame(a: seq<Event>)
    ensures Onward(a, a)
  {
  }

  lemma PlanIsParallel(w: World, g: Graph, n: Node, s: State)
    requires n.typ.Parallel?
    ensures PlanOf(w, g, n, s) == PlanParallel(w, g, n, s)
  {
    hide TaskExec, Callbacks, PlanParallel, PlanInclusive, PlanChoice, PlanInflow, PlanOutflow, PlanOut;
  }

  lemma ParallelOnward(w: World, g: Graph, n: Node, s: State)
    ensures Onward(Skeleton(s.log), Skeleton(PlanState(PlanParallel(w, g, n, s)).log))
  {
    hide TaskExec, Skeleton, Always, NextNodes, CountOf, Onward;
    var a := Skeleton(s.log);
    OnwardSame(a);
    OnwardOne(a, a, Arrive(n.id));
    OnwardOne(a, a + [Arrive(n.id)], Fire(n.id));
  }

  lemma PlanLog(w: World, g: Graph, n: Node, s: State)
    requires !n.typ.Parallel?
    ensures Skeleton(PlanState(PlanOf(w, g, n, s)).log) == Skeleton(s.log)
  {
    hide TaskExec, Callbacks, Skeleton, PlanInclusive, PlanChoice, PlanInflow, PlanOutflow;
    ChoiceLog(w, n, TaskExec(w, n, s));
    if n.typ.Inclusive? {
      InclusiveLog(w, n, s);
    } else if n.typ.Loop? {
      InflowLog(w, n, s);
    }
  }

  lemma ChoiceLog(w: World, n: Node, t: Exec)
    ensures PlanState(PlanChoice(w, n, t)).log == t.s.log && PlanState(PlanMatching(w, n, t)).log == t.s.log
    ensures PlanState(PlanOutflow(w, n, t)).log == t.s.log
  {
    hide Choose, Matching, BuildIterator, Skeleton;
  }

  lemma InclusiveLog(w: World, n: Node, s: State)
    ensures Skeleton(PlanState(PlanInclusive(w, n, s)).log) == Skeleton(s.log)
  {
    hide TaskExec, PlanMatching, Skeleton, CountOf;
    ChoiceLog(w, n, TaskExec(w, n, s));
    if Joining(n, s.temp) {
      ChoiceLog(w, n, TaskExec(w, n, s.(temp := PopMatched(CountIn(n.id, s.temp)))));
    }
  }

  lemma InflowLog(w: World, n: Node, s: State)
    ensures Skeleton(PlanState(PlanInflow(w, n, s)).log) == Skeleton(s.log)
  {
    hide TaskExec, Skeleton, Iterating;
  }

  // ---- whole runs ----

  /** What every run keeps: the entries so far were balanced unless a node was entered after a join
      stalled, and until then the counters are exact unless a join stalled or the run is over. */
  ghost predicate Tracked(w: World, g: Graph, target: string, s: State) {
    var log := Skeleton(s.log);
    && (BalancedEntries(g, log) <==> !Overtaken(w, g, target, log))
    && (Overtaken(w, g, target, log) || Over(s) || (Joined(g, s) <==> !Stalled(w, g, target, log)))
  }

  /** Entering any node once the counters are off. */
  lemma OffEntry(w: World, g: Graph, target: string, n: string, s: State, r: State)
    requires Tracked(w, g, target, s) && !Over(s) && Onward(Skeleton(s.log) + [VisitOf(n, s)], Skeleton(r.log))
    requires Overtaken(w, g, target, Skeleton(s.log)) || Stalled(w, g, target, Skeleton(s.log))
    ensures Tracked(w, g, target, r)
  {
    hide Stalled, Overtaken, BalancedEntries, Counted, Onward, StallsAt;
    StalledOne(w, g, target, Skeleton(s.log), VisitOf(n, s));
    OnwardKeeps(w, g, target, Skeleton(s.log) + [VisitOf(n, s)], Skeleton(r.log));
  }

  /** A step that keeps the counters exact, or ends the run, and stalls only then. */
  lemma CalmEntry(w: World, g: Graph, target: string, n: string, s: State, r: State)
    requires Tracked(w, g, target, s) && Onward(Skeleton(s.log) + [VisitOf(n, s)], Skeleton(r.log))
    requires !Overtaken(w, g, target, Skeleton(s.log)) && !Stalled(w, g, target, Skeleton(s.log))
    requires BalancedEntries(g, Skeleton(r.log))
    requires Over(r) || (Joined(g, r) <==> !StallsAt(w, g, target, VisitOf(n, s)))
    ensures Tracked(w, g, target, r)
  {
    hide Stalled, Overtaken, BalancedEntries, Joined, Onward, StallsAt;
    StalledOne(w, g, target, Skeleton(s.log), VisitOf(n, s));
    OnwardKeeps(w, g, target, Skeleton(s.log) + [VisitOf(n, s)], Skeleton(r.log));
  }

  lemma TrackedInv(w: World, g: Graph, target: string, s: State)
    requires Tracked(w, g, target, s) && !Over(s)
    requires !Overtaken(w, g, target, Skeleton(s.log)) && !Stalled(w, g, target, Skeleton(s.log))
    ensures JoinInv(g, s)
  {
  }

  /** A completing arrival that stalls: the join keeps it and does not fire. */
  lemma StallInv(w: World, g: Graph, n: Node, s: State)
    requires In(g, n) && IsJoin(g, n.id) && JoinInv(g, s) && Live(s)
    requires n.incoming <= CountOf(s.temp, n.id) + 1 && Stalls(w, n.id, n.when, s.ctx)
    ensures var r := PlanState(PlanParallel(w, g, n, s));
      BalancedEntries(g, Skeleton(r.log)) && !Over(r) && !Joined(g, r)
  {
    hide TaskExec, Stalls, Skeleton, BalancedEntries, Always, NextNodes, Balanced;
    var s1 := ArriveAt(n.id, s);
    EntriesOne(g, Skeleton(s.log), Arrive(n.id));
    StallsIs(w, n, s1);
    var r := TaskExec(w, n, s1).s;
    assert !Counted(g, n.id, Skeleton(r.log), CountOf(r.temp, n.id));
  }

  lemma EnterLive(g: Graph, target: string, n: string, s: State)
    ensures var r := Enter(g, target, n, s);
      && r.ctx == s.ctx && r.interrupted == s.interrupted && r.status == s.status
      && (r.reverting <==> s.reverting && n != target)
  {
    hide Skeleton, RecordNode, Int32;
  }

  /** One entry: its head and, unless that stops the flow, what the node does before it goes on. */
  lemma EntryTracked(w: World, g: Graph, target: string, n: string, s: State)
    requires WellFormed(g) && n in g.nodes && Tracked(w, g, target, s) && !Over(s) && !s.interrupted
    ensures var s1 := Enter(g, target, n, s);
      Tracked(w, g, target, if s1.stopped then s1 else PlanState(PlanOf(w, g, g.nodes[n], s1)))
  {
    hide *;
    OverIs(s);
    var s1, log := Enter(g, target, n, s), Skeleton(s.log);
    var r := if s1.stopped then s1 else PlanState(PlanOf(w, g, g.nodes[n], s1));
    EnterOnward(g, target, n, s);
    PlanOnward(w, g, g.nodes[n], s1);
    EntryOnward(log + [VisitOf(n, s)], Skeleton(s1.log), Skeleton(PlanState(PlanOf(w, g, g.nodes[n], s1)).log));
    if Overtaken(w, g, target, log) || Stalled(w, g, target, log) {
      OffEntry(w, g, target, n, s, r);
    } else {
      TrackedInv(w, g, target, s);
      EnterInv(g, target, n, s);
      EntryInv(w, g, target, n, s, s1);
      CalmEntry(w, g, target, n, s, r);
    }
  }

  lemma OverIs(s: State)
    ensures Over(s) <==> s.stopped || !s.status.Running?
  {
  }

  lemma EntryOnward(a: seq<Event>, b: seq<Event>, c: seq<Event>)
    requires Onward(a, b) && Onward(b, c)
    ensures Onward(a, c)
  {
  }

  lemma EntryInv(w: World, g: Graph, target: string, n: string, s: State, s1: State)
    requires WellFormed(g) && n in g.nodes && !Over(s) && !s.interrupted
    requires s1 == Enter(g, target, n, s) && JoinInv(g, s1)
    ensures s1.stopped ==> BalancedEntries(g, Skeleton(s1.log)) && Over(s1)
    ensures !s1.stopped ==>
      var r := PlanState(PlanOf(w, g, g.nodes[n], s1));
      && BalancedEntries(g, Skeleton(r.log))
      && (Over(r) || (Joined(g, r) <==> !StallsAt(w, g, target, VisitOf(n, s))))
  {
    hide Enter, Stalls, PlanParallel, PlanInclusive, PlanInflow, PlanOutflow, TaskExec, Callbacks, PlanChoice, PlanOut,
      Skeleton, BalancedEntries, Joined;
    EnterLive(g, target, n, s);
    EnterTemp(g, target, n, s);
    if !s1.stopped {
      if StallsAt(w, g, target, VisitOf(n, s)) {
        StallInv(w, g, g.nodes[n], s1);
      } else {
        PlanInv(w, g, g.nodes[n], s1);
      }
    }
  }

  lemma EnterTemp(g: Graph, target: string, n: string, s: State)
    ensures Enter(g, target, n, s).temp == s.temp
  {
  }

  lemma TrackedFail(w: World, g: Graph, target: string, s: State)
    requires Tracked(w, g, target, s)
    ensures Tracked(w, g, target, Fail(s)) && Tracked(w, g, target, s.(status := Starved))
    ensures Tracked(w, g, target, s.(interrupted := false))
  {
    hide Stalled, Overtaken, BalancedEntries, Counted;
  }

  lemma TrackedItem(w: World, g: Graph, target: string, n: Node, id: nat, items: seq<Value>, s: State)
    requires Tracked(w, g, target, s) && items != []
    ensures Tracked(w, g, target, NextItem(n, id, items, s))
  {
    hide Stalled, Overtaken, BalancedEntries, Counted;
  }

  lemma {:induction false} NodeTracked(w: World, g: Graph, target: string, fuel: nat, n: string, s: State)
    requires WellFormed(g) && Tracked(w, g, target, s) && s.status.Running?
    ensures Tracked(w, g, target, NodeRun(w, g, target, fuel, n, s))
    decreases fuel, 0
  {
    hide PlanOf, Enter, Follow, Tracked;
    TrackedFail(w, g, target, s);
    if fuel > 0 && n in g.nodes && !s.stopped && !s.interrupted {
      var s1 := Enter(g, target, n, s);
      EntryTracked(w, g, target, n, s);
      EnterStatus(g, target, n, s);
      if !s1.stopped {
        PlanLocal(w, g, g.nodes[n], s1);
        FollowTracked(w, g, target, fuel - 1, PlanOf(w, g, g.nodes[n], s1));
      }
    }
  }

  lemma {:induction false} FollowTracked(w: World, g: Graph, target: string, fuel: nat, p: Plan)
    requires WellFormed(g) && Tracked(w, g, target, PlanState(p))
    requires !p.Done? ==> PlanState(p).status.Running?
    ensures Tracked(w, g, target, Follow(w, g, target, fuel, p))
    decreases fuel, 3
  {
    hide Tracked;
    match p
    case Done(_) =>
    case FanOut(links, s) => LinksTracked(w, g, target, fuel, links, s);
    case Iterate(n, id, items, s) => ItemsTracked(w, g, target, fuel, n, id, items, s);
  }

  lemma {:induction false} LinksTracked(w: World, g: Graph, target: string, fuel: nat, links: seq<Link>, s: State)
    requires WellFormed(g) && Tracked(w, g, target, s) && s.status.Running?
    ensures Tracked(w, g, target, LinksRun(w, g, target, fuel, links, s))
    decreases fuel, 1, |links|
  {
    hide Tracked;
    if links != [] {
      var c := Test(w, links[0].when, s);
      TrackedFail(w, g, target, s);
      if !c.CondError? {
        if c.Yes? { NodeTracked(w, g, target, fuel, links[0].next, s); }
        var s1 := if c.Yes? then NodeRun(w, g, target, fuel, links[0].next, s) else s;
        if s1.status.Running? {
          LinksTracked(w, g, target, fuel, links[1..], s1);
        }
      }
    }
  }

  lemma {:induction false} ItemsTracked(w: World, g: Graph, target: string, fuel: nat, n: Node, id: nat,
      items: seq<Value>, s: State)
    requires WellFormed(g) && Tracked(w, g, target, s) && s.status.Running?
    ensures Tracked(w, g, target, ItemsRun(w, g, target, fuel, n, id, items, s))
    decreases fuel, 2, |items|
  {
    hide Tracked;
    if items != [] {
      var s1 := NextItem(n, id, items, s);
      TrackedItem(w, g, target, n, id, items, s);
      LinksTracked(w, g, target, fuel, n.next, s1);
      var s2 := LinksRun(w, g, target, fuel, n.next, s1);
      if s2.status.Running? {
        ItemsTracked(w, g, target, fuel, n, id, items[1..], s2);
      }
    }
  }

  lemma {:induction false} StalledSome(w: World, g: Graph, target: string, log: seq<Event>)
    ensures Stalled(w, g, target, log) <==> exists e <- log :: StallsAt(w, g, target, e)
    ensures Overtaken(w, g, target, log) ==> Stalled(w, g, target, log)
  {
    hide StallsAt;
    if log != [] {
      var before := log[..|log| - 1];
      StalledSome(w, g, target, before);
      assert log == before + [log[|log| - 1]];
    }
  }

  /** In any run of any graph, at every node entry each parallel gateway with n incoming links has seen n
      arrivals per firing plus the fewer than n its counter holds, if and only if no node is entered after
      a join stalled; so always when no join that is entered stalls. */
  lemma JoinsBalance(w: World, g: Graph, fuel: nat, steps: int, ctx: Ctx, trace: Trace)
    requires WellFormed(g)
    ensures var log, target := Skeleton(Eval(w, g, fuel, steps, ctx, trace).log), LastNode(trace, g);
      && (BalancedEntries(g, log) <==> !Overtaken(w, g, target, log))
      && ((forall e <- log :: !StallsAt(w, g, target, e)) ==> BalancedEntries(g, log))
  {
    hide NodeRun, StallsAt;
    var s := Begin(ctx, trace, steps);
    assert Tracked(w, g, LastNode(trace, g), s);
    NodeTracked(w, g, LastNode(trace, g), fuel, g.start, s);
    StalledSome(w, g, LastNode(trace, g), Skeleton(Eval(w, g, fuel, steps, ctx, trace).log));
  }

  // ---- every stall unbalances some run ----

  /** A start, a join of one link, and an end behind it. */
  function Beyond(n: string, when: string): Graph {
    var s, e := n + "<", n + ">";
    Graph("g", map[s := Node(s, Start, "", "", BadIn, [Link(n, ""), Link(e, "")], 0),
                   n := Node(n, Parallel, when, "", BadIn, [], 1),
                   e := Node(e, NodeType.End, "", "", BadIn, [], 1)], s)
  }

  lemma Apart(n: string)
    ensures n + "<" != n && n + ">" != n && n + "<" != n + ">"
  {
    assert |n + "<"| == |n| + 1 && |n + ">"| == |n| + 1;
    assert (n + "<")[|n|] == '<' && (n + ">")[|n|] == '>';
  }

  function At(n: string): Trace {
    Trace(true, "g", map["g" := n])
  }

  /** The start is walked through while reverting. */
  lemma StartReverts(w: World, n: string, when: string, c: Ctx)
    ensures var g, s := Beyond(n, when), Visited(n + "<", Begin(c, At(n), -1));
      && LastNode(At(n), g) == n
      && Eval(w, g, 2, -1, c, At(n)) == LinksRun(w, g, n, 1, [Link(n, ""), Link(n + ">", "")], s)
  {
    hide LinksRun, Skeleton, Note;
    Apart(n);
    var g, s := Beyond(n, when), Visited(n + "<", Begin(c, At(n), -1));
    assert Enter(g, n, n + "<", Begin(c, At(n), -1)) == s;
    assert Callbacks(w, g.nodes[n + "<"], s) == Exec(true, s);
  }

  /** The resume point is a join that this arrival completes; it stalls, and the flow goes on. */
  lemma JoinStalls(w: World, n: string, when: string, s: State)
    requires Stalls(w, n, when, s.ctx) && s.reverting && s.steps < 0 && s.temp.counts == map[]
    requires !s.stopped && !s.interrupted && s.status.Running?
    ensures var g := Beyond(n, when);
      var r := NodeRun(w, g, n, 1, n, s);
      Live(r) && r.steps < 0 && Stalled(w, g, n, Skeleton(r.log))
  {
    hide Enter, Skeleton, Stalls, TaskExec, Stalled, NextNodes, Always, StallsAt;
    Apart(n);
    var g := Beyond(n, when);
    var s1 := Enter(g, n, n, s);
    EnterLive(g, n, n, s);
    EnterTemp(g, n, n, s);
    EnterUnlimited(g, n, n, s);
    var s2 := ArriveAt(n, s1);
    StallsIs(w, g.nodes[n], s2);
    PlanIsParallel(w, g, g.nodes[n], s1);
    var t := TaskExec(w, g.nodes[n], s2);
    assert PlanParallel(w, g, g.nodes[n], s1) == Done(t.s);
    var r := NodeRun(w, g, n, 1, n, s);
    assert r == t.s;
    JoinEntered(w, n, when, s, r);
  }

  lemma EnterUnlimited(g: Graph, target: string, n: string, s: State)
    requires s.steps < 0 && !s.stopped
    ensures var r := Enter(g, target, n, s); !r.stopped && r.steps < 0
  {
    hide Skeleton, RecordNode;
  }

  lemma JoinEntered(w: World, n: string, when: string, s: State, r: State)
    requires Stalls(w, n, when, s.ctx) && s.temp.counts == map[]
    requires var g := Beyond(n, when);
      var s1 := Enter(g, n, n, s);
      Skeleton(r.log) == Skeleton(PlanState(PlanOf(w, g, g.nodes[n], s1)).log)
    ensures Stalled(w, Beyond(n, when), n, Skeleton(r.log))
  {
    hide Enter, PlanOf, Stalled, Skeleton, Stalls, Onward;
    Apart(n);
    var g := Beyond(n, when);
    var s1, log := Enter(g, n, n, s), Skeleton(s.log) + [VisitOf(n, s)];
    StalledOne(w, g, n, Skeleton(s.log), VisitOf(n, s));
    EnterOnward(g, n, n, s);
    PlanOnward(w, g, g.nodes[n], s1);
    EntryOnward(log, Skeleton(s1.log), Skeleton(r.log));
    OnwardKeeps(w, g, n, log, Skeleton(r.log));
  }

  /** The end is entered after the stall. */
  lemma EndOvertakes(w: World, n: string, when: string, s: State)
    requires Live(s) && s.steps < 0 && Stalled(w, Beyond(n, when), n, Skeleton(s.log))
    ensures var g := Beyond(n, when); Overtaken(w, g, n, Skeleton(NodeRun(w, g, n, 1, n + ">", s).log))
  {
    hide Enter, PlanOf, Stalled, Skeleton, Onward, Overtaken;
    Apart(n);
    var g, e := Beyond(n, when), n + ">";
    var s1, log := Enter(g, n, e, s), Skeleton(s.log) + [VisitOf(e, s)];
    EnterUnlimited(g, n, e, s);
    var r := PlanState(PlanOf(w, g, g.nodes[e], s1));
    EndIsDone(w, g, g.nodes[e], s1);
    StalledOne(w, g, n, Skeleton(s.log), VisitOf(e, s));
    EnterOnward(g, n, e, s);
    PlanOnward(w, g, g.nodes[e], s1);
    EntryOnward(log, Skeleton(s1.log), Skeleton(r.log));
    OnwardKeeps(w, g, n, log, Skeleton(r.log));
  }

  lemma EndIsDone(w: World, g: Graph, n: Node, s: State)
    requires n.typ.End?
    ensures PlanOf(w, g, n, s).Done?
  {
    hide Callbacks;
  }

  lemma TwoLinks(w: World, g: Graph, target: string, a: string, b: string, s: State)
    requires NodeRun(w, g, target, 1, a, s).status.Running?
    ensures LinksRun(w, g, target, 1, [Link(a, ""), Link(b, "")], s) ==
      NodeRun(w, g, target, 1, b, NodeRun(w, g, target, 1, a, s))
  {
    hide NodeRun;
    var links, rest := [Link(a, ""), Link(b, "")], [Link(b, "")];
    var m := NodeRun(w, g, target, 1, a, s);
    assert links[1..] == rest && rest[1..] == [];
    assert LinksRun(w, g, target, 1, links, s) == LinksRun(w, g, target, 1, rest, m);
    LinksEnd(w, g, target, 1, [], NodeRun(w, g, target, 1, b, m));
  }

  /** Whatever stalls: resumed at it, a join is overtaken by the node behind it. */
  lemma StallUnbalances(w: World, n: string, when: string, c: Ctx)
    requires Stalls(w, n, when, c)
    ensures var g := Beyond(n, when);
      WellFormed(g) && !BalancedEntries(g, Skeleton(Eval(w, g, 2, -1, c, At(n)).log))
  {
    hide NodeRun, Eval, Skeleton, Stalls, Stalled, Overtaken, BalancedEntries, StallsAt;
    Apart(n);
    var g, s := Beyond(n, when), Visited(n + "<", Begin(c, At(n), -1));
    StartReverts(w, n, when, c);
    JoinStalls(w, n, when, s);
    var sj := NodeRun(w, g, n, 1, n, s);
    EndOvertakes(w, n, when, sj);
    TwoLinks(w, g, n, n, n + ">", s);
    JoinsBalance(w, g, 2, -1, c, At(n));
  }

  ghost predicate BalancedRun(w: World, g: Graph, fuel: nat, steps: int, ctx: Ctx, trace: Trace) {
    WellFormed(g) ==> BalancedEntries(g, Skeleton(Eval(w, g, fuel, steps, ctx, trace).log))
  }

  /** Joins balance in all runs of all graphs exactly when no node can stall. */
  lemma JoinsBalanceIff(w: World)
    ensures (forall n: string, when: string, c: Ctx :: !Stalls(w, n, when, c)) <==>
      forall g: Graph, fuel: nat, steps: int, ctx: Ctx, trace: Trace :: BalancedRun(w, g, fuel, steps, ctx, trace)
  {
    hide Stalls, BalancedEntries, Eval;
    if forall n: string, when: string, c: Ctx :: !Stalls(w, n, when, c) {
      forall g: Graph, fuel: nat, steps: int, ctx: Ctx, trace: Trace
        ensures BalancedRun(w, g, fuel, steps, ctx, trace)
      {
        if WellFormed(g) {
          JoinsBalance(w, g, fuel, steps, ctx, trace);
        }
      }
    } else {
      var n, when, c :| Stalls(w, n, when, c);
      StallUnbalances(w, n, when, c);
      assert !BalancedRun(w, Beyond(n, when), 2, -1, c, At(n));
    }
  }

  /** Every task interrupts. */
  function Impatient(): World {
    var none := (n: string, ctx: Ctx) => Effect(ctx, false, false, false);
    World((when: string, ctx: Ctx) => Yes, (n: string, ctx: Ctx) => Effect(ctx, false, true, false), none, none)
  }

  /** One such run: the task of a complete join interrupts. */
  lemma InterruptedJoin()
    ensures !BalancedRun(Impatient(), Beyond("j", ""), 2, -1, map[], At("j"))
  {
    hide Eval, BalancedEntries;
    assert Stalls(Impatient(), "j", "", map[]);
    StallUnbalances(Impatient(), "j", "", map[]);
  }
}

/** Which links a gateway follows and what a loop iterates over, told by positions in the link list. */
module FlowChoices {
  import opened FlowSpec
  import opened FlowStepper

  predicate Says(w: World, link: Link, c: Ctx, r: CondResult) {
    link.when != "" && w.cond(link.when, c) == r
  }

  /** The conditional links before i say no. */
  predicate NoBefore(w: World, links: seq<Link>, c: Ctx, i: int)
    requires i <= |links|
  {
    forall j | 0 <= j < i && links[j].when != "" :: w.cond(links[j].when, c) == No
  }

  /** i is the first link whose condition holds, and no condition before it fails to run. */
  predicate FirstYes(w: World, links: seq<Link>, c: Ctx, i: int) {
    0 <= i < |links| && Says(w, links[i], c, Yes) && NoBefore(w, links, c, i)
  }

  predicate FirstError(w: World, links: seq<Link>, c: Ctx, i: int) {
    0 <= i < |links| && Says(w, links[i], c, CondError) && NoBefore(w, links, c, i)
  }

  /** i is the last link without a condition. */
  predicate LastPlain(links: seq<Link>, i: int) {
    0 <= i < |links| && links[i].when == "" && forall j | i < j < |links| :: links[j].when != ""
  }

  /** The target of an exclusive gateway: of the first link whose condition holds, and if all say no, of
      the last one without a condition. */
  ghost predicate Picks(w: World, links: seq<Link>, c: Ctx, next: string) {
    || (exists i :: FirstYes(w, links, c, i) && links[i].next == next)
    || (NoBefore(w, links, c, |links|) && exists i :: LastPlain(links, i) && links[i].next == next)
  }

  ghost predicate Breaks(w: World, links: seq<Link>, c: Ctx) {
    exists i :: FirstError(w, links, c, i)
  }

  /** The loop over the links, with the default found so far. */
  lemma {:induction false} ChooseIs(w: World, links: seq<Link>, def: Option<string>, s: State)
    ensures forall i :: FirstYes(w, links, s.ctx, i) ==> Choose(w, links, def, s) == Take(links[i].next)
    ensures Choose(w, links, def, s) == Error <==> Breaks(w, links, s.ctx)
    ensures NoBefore(w, links, s.ctx, |links|) ==>
      && (forall i :: LastPlain(links, i) ==> Choose(w, links, def, s) == Take(links[i].next))
      && ((forall i | 0 <= i < |links| :: links[i].when != "") ==>
           Choose(w, links, def, s) == if def.None? then Nothing else Take(def.value))
    ensures NoBefore(w, links, s.ctx, |links|) || Breaks(w, links, s.ctx) || exists i :: FirstYes(w, links, s.ctx, i)
  {
    hide Breaks;
    if links == [] {
      NothingBreaks(w, s.ctx);
    } else {
      var rest, def' := links[1..], if links[0].when == "" then Some(links[0].next) else def;
      ChooseIs(w, rest, def', s);
      forall i | 0 < i < |links|
        ensures links[0].when == "" || Says(w, links[0], s.ctx, No) ==>
          && (FirstYes(w, links, s.ctx, i) <==> FirstYes(w, rest, s.ctx, i - 1))
          && (FirstError(w, links, s.ctx, i) <==> FirstError(w, rest, s.ctx, i - 1))
      {
        if links[0].when == "" || Says(w, links[0], s.ctx, No) {
          Shifted(w, links, s.ctx, i);
        }
      }
      BreaksHere(w, links, s.ctx);
      if links[0].when == "" || Says(w, links[0], s.ctx, No) {
        Shifted(w, links, s.ctx, |links|);
      }
      forall i | 0 < i < |links| ensures LastPlain(links, i) <==> LastPlain(rest, i - 1) {
        assert forall j | i < j < |links| :: links[j] == rest[j - 1];
      }
      if j :| FirstYes(w, rest, s.ctx, j) {
        assert links[j + 1] == rest[j];
        assert links[0].when == "" || Says(w, links[0], s.ctx, No) ==> FirstYes(w, links, s.ctx, j + 1);
      }
      assert forall i | 0 <= i < |rest| :: rest[i] == links[i + 1];
      if LastPlain(links, 0) {
        assert forall i | 0 <= i < |rest| :: rest[i].when != "";
      }
    }
  }

  lemma NothingBreaks(w: World, c: Ctx)
    ensures !Breaks(w, [], c)
  {
  }

  lemma Shifted(w: World, links: seq<Link>, c: Ctx, i: int)
    requires links != [] && 0 < i <= |links| && (links[0].when == "" || Says(w, links[0], c, No))
    ensures NoBefore(w, links, c, i) <==> NoBefore(w, links[1..], c, i - 1)
    ensures i < |links| ==> links[i] == links[1..][i - 1]
  {
    var rest := links[1..];
    assert forall j | 0 <= j < |rest| :: rest[j] == links[j + 1];
    if NoBefore(w, rest, c, i - 1) {
      forall j | 0 <= j < i && links[j].when != "" ensures w.cond(links[j].when, c) == No {
        if j > 0 { assert links[j] == rest[j - 1]; }
      }
    }
  }

  lemma BreaksHere(w: World, links: seq<Link>, c: Ctx)
    requires links != []
    ensures Says(w, links[0], c, CondError) ==> Breaks(w, links, c)
    ensures Says(w, links[0], c, Yes) ==> !Breaks(w, links, c)
    ensures links[0].when == "" || Says(w, links[0], c, No) ==> (Breaks(w, links, c) <==> Breaks(w, links[1..], c))
  {
    var rest := links[1..];
    if Says(w, links[0], c, CondError) {
      assert FirstError(w, links, c, 0);
    }
    if links[0].when == "" || Says(w, links[0], c, No) {
      if i :| FirstError(w, links, c, i) {
        Shifted(w, links, c, i);
        assert FirstError(w, rest, c, i - 1);
      }
      if i :| FirstError(w, rest, c, i) {
        Shifted(w, links, c, i + 1);
        assert FirstError(w, links, c, i + 1);
      }
    }
  }

  // ---- the exclusive gateway ----

  /** Once its task has gone on, an exclusive gateway goes on to the target it picks alone, fails if a
      condition fails to run before one holds, and ends the branch if there is nothing to pick. */
  lemma ExclusiveTakes(w: World, g: Graph, n: Node, s: State)
    requires n.typ.Exclusive? && s.status.Running? && TaskExec(w, n, s).go
    ensures var t, p := TaskExec(w, n, s).s, PlanOf(w, g, n, s);
      && (forall next: string :: Picks(w, n.next, t.ctx, next) <==> p == FanOut([Link(next, "")], t))
      && (Breaks(w, n.next, t.ctx) <==> p == Done(t.(status := Failed)))
      && (Nowhere(w, n.next, t.ctx) <==> p == Done(t))
  {
    hide TaskExec, Choose;
    var t := TaskExec(w, n, s).s;
    PicksIs(w, n.next, t);
    var c := Choose(w, n.next, None, t);
    if c.Take? {
      assert Always([c.next]) == [Link(c.next, "")];
      assert forall x: string :: [Link(x, "")][0].next == x;
    }
  }

  /** Every condition says no, and no link is without one. */
  predicate Nowhere(w: World, links: seq<Link>, c: Ctx) {
    forall i | 0 <= i < |links| :: Says(w, links[i], c, No)
  }

  lemma PicksIs(w: World, links: seq<Link>, s: State)
    ensures forall next: string :: Picks(w, links, s.ctx, next) <==> Choose(w, links, None, s) == Take(next)
    ensures Choose(w, links, None, s) == Error <==> Breaks(w, links, s.ctx)
    ensures Choose(w, links, None, s) == Nothing <==> Nowhere(w, links, s.ctx)
  {
    hide Choose, FirstYes, FirstError;
    ChooseIs(w, links, None, s);
    OneCase(w, links, s.ctx);
    LastOne(links);
  }

  /** The cases exclude each other. */
  lemma OneCase(w: World, links: seq<Link>, c: Ctx)
    ensures Nowhere(w, links, c) <==>
      NoBefore(w, links, c, |links|) && forall i | 0 <= i < |links| :: links[i].when != ""
    ensures forall i :: FirstYes(w, links, c, i) ==> !NoBefore(w, links, c, |links|)
  {
  }

  lemma {:induction false} LastOne(links: seq<Link>)
    ensures (exists i :: LastPlain(links, i)) <==> exists i :: 0 <= i < |links| && links[i].when == ""
  {
    if links != [] {
      var init, n := links[..|links| - 1], |links| - 1;
      LastOne(init);
      assert forall i | 0 <= i < n :: init[i] == links[i];
      if links[n].when == "" {
        assert LastPlain(links, n);
      } else if i :| LastPlain(init, i) {
        assert LastPlain(links, i);
      }
    }
  }

  // ---- the inclusive and the parallel gateway ----

  /** The number of true flags before position i. */
  function Rank(flags: seq<bool>, i: nat): nat
    requires i <= |flags|
  {
    if i == 0 then 0 else Rank(flags, i - 1) + if flags[i - 1] then 1 else 0
  }

  lemma {:induction false} RankShift(flags: seq<bool>, i: nat)
    requires 0 < i <= |flags|
    ensures Rank(flags, i) == Rank(flags[1..], i - 1) + if flags[0] then 1 else 0
    decreases i
  {
    if i > 1 {
      RankShift(flags, i - 1);
      assert flags[1..][i - 2] == flags[i - 1];
    } else {
      assert Rank(flags, 0) == 0;
    }
  }

  /** The links an inclusive gateway follows: those whose condition holds and those without one. */
  function Followed(w: World, links: seq<Link>, c: Ctx): (flags: seq<bool>)
    ensures |flags| == |links|
    ensures forall i | 0 <= i < |links| ::
      flags[i] <==> links[i].when == "" || w.cond(links[i].when, c) == Yes
  {
    seq(|links|, i requires 0 <= i < |links| => links[i].when == "" || w.cond(links[i].when, c) == Yes)
  }

  /** The links a parallel gateway follows: those to a node of the graph, whatever their conditions. */
  function Existing(g: Graph, links: seq<Link>): (flags: seq<bool>)
    ensures |flags| == |links| && forall i | 0 <= i < |links| :: flags[i] <==> links[i].next in g.nodes
  {
    seq(|links|, i requires 0 <= i < |links| => links[i].next in g.nodes)
  }

  /** These are the targets of the flagged links, in order: each stands behind those of the ones before. */
  predicate Targets(links: seq<Link>, flags: seq<bool>, nodes: seq<string>)
    requires |flags| == |links|
  {
    && |nodes| == Rank(flags, |flags|)
    && forall i | 0 <= i < |links| && flags[i] :: Rank(flags, i) < |nodes| && nodes[Rank(flags, i)] == links[i].next
  }

  lemma TargetsStep(links: seq<Link>, flags: seq<bool>, nodes: seq<string>)
    requires |flags| == |links| > 0 && Targets(links[1..], flags[1..], nodes)
    ensures Targets(links, flags, (if flags[0] then [links[0].next] else []) + nodes)
  {
    hide Rank;
    var all := (if flags[0] then [links[0].next] else []) + nodes;
    RankShift(flags, |flags|);
    forall i | 0 <= i < |links| && flags[i]
      ensures Rank(flags, i) < |all| && all[Rank(flags, i)] == links[i].next
    {
      if i == 0 {
        RankNone(flags);
      } else {
        RankShift(flags, i);
        assert links[1..][i - 1] == links[i] && flags[1..][i - 1];
      }
    }
  }

  lemma RankNone(flags: seq<bool>)
    ensures Rank(flags, 0) == 0
  {
  }

  lemma NoTargets(links: seq<Link>)
    requires links == []
    ensures Targets(links, [], [])
  {
  }

  /** An inclusive gateway follows all links that hold, in order, unless a condition fails to run. */
  lemma {:induction false} MatchingIs(w: World, links: seq<Link>, s: State)
    ensures Matching(w, links, s).None? <==> exists i :: 0 <= i < |links| && Says(w, links[i], s.ctx, CondError)
    ensures Matching(w, links, s).Some? ==> Targets(links, Followed(w, links, s.ctx), Matching(w, links, s).value)
  {
    hide Targets;
    if links == [] {
      NoTargets(links);
      assert Followed(w, links, s.ctx) == [];
    } else {
      var rest := links[1..];
      MatchingIs(w, rest, s);
      assert forall i | 0 <= i < |rest| :: rest[i] == links[i + 1];
      assert Followed(w, links, s.ctx)[1..] == Followed(w, rest, s.ctx);
      if Matching(w, rest, s).Some? {
        TargetsStep(links, Followed(w, links, s.ctx), Matching(w, rest, s).value);
        assert [] + Matching(w, rest, s).value == Matching(w, rest, s).value;
      }
      if i :| 0 <= i < |rest| && Says(w, rest[i], s.ctx, CondError) {
        assert Says(w, links[i + 1], s.ctx, CondError);
      }
      assert Says(w, links[0], s.ctx, CondError) <==> Test(w, links[0].when, s).CondError?;
    }
  }

  lemma {:induction false} NextNodesIs(g: Graph, links: seq<Link>)
    ensures Targets(links, Existing(g, links), NextNodes(g, links))
  {
    hide Targets;
    if links == [] {
      NoTargets(links);
      assert Existing(g, links) == [];
    } else {
      NextNodesIs(g, links[1..]);
      assert Existing(g, links)[1..] == Existing(g, links[1..]);
      TargetsStep(links, Existing(g, links), NextNodes(g, links[1..]));
    }
  }

  /** An inclusive gateway with several links into it waits while fewer branches arrived than the last
      fork matched; otherwise its task runs, and if that goes on the targets that hold are matched anew. */
  lemma InclusiveGateway(w: World, g: Graph, n: Node, s: State)
    requires n.typ.Inclusive? && s.status.Running?
    ensures var top := |s.temp.matched| - 1;
      var arrived := 1 + if n.id in s.temp.counts then s.temp.counts[n.id] else 0;
      var counted := s.(temp := s.temp.(counts := s.temp.counts[n.id := arrived]));
      var p := PlanOf(w, g, n, s);
      if n.incoming > 1 && top >= 0 && arrived < s.temp.matched[top] then p == Done(counted)
      else
        var s1 := if n.incoming > 1 && top >= 0
                  then counted.(temp := counted.temp.(matched := s.temp.matched[..top])) else s;
        InclusiveGoesOn(w, n, TaskExec(w, n, s1), p)
  {
    hide TaskExec;
    var top := |s.temp.matched| - 1;
    var arrived := 1 + if n.id in s.temp.counts then s.temp.counts[n.id] else 0;
    var s1 := if n.incoming > 1 && top >= 0
              then s.(temp := s.temp.(counts := s.temp.counts[n.id := arrived], matched := s.temp.matched[..top]))
                else s;
    OutIs(w, n, TaskExec(w, n, s1));
  }

  ghost predicate InclusiveGoesOn(w: World, n: Node, t: Exec, p: Plan) {
    if !t.go then p == Done(t.s)
    else if exists i :: 0 <= i < |n.next| && Says(w, n.next[i], t.s.ctx, CondError) then
      p == Done(t.s.(status := Failed))
    else
      exists nodes: seq<string> :: Targets(n.next, Followed(w, n.next, t.s.ctx), nodes)
        && if nodes == [] then p == Done(t.s)
           else
             && p.FanOut? && |p.links| == |nodes| && (forall k | 0 <= k < |nodes| :: p.links[k] == Link(nodes[k], ""))
             && p.s == t.s.(temp := t.s.temp.(matched := t.s.temp.matched + [|nodes|]))
  }

  lemma OutIs(w: World, n: Node, t: Exec)
    ensures InclusiveGoesOn(w, n, t, PlanMatching(w, n, t))
  {
    hide Matching, Followed, Targets, Says;
    MatchingIs(w, n.next, t.s);
  }

  // ---- the task of a node ----

  /** What a callback or a task leaves behind: a stop stays and is noted, an interrupt ends this branch only. */
  function Upon(s: State, e: Effect): Exec {
    if e.stop then
      Exec(false, s.(ctx := e.ctx, stopped := true, interrupted := e.interrupt, log := s.log + [Stopped]))
    else Exec(!e.interrupt, s.(ctx := e.ctx))
  }

  lemma UponIs(s: State, e: Effect)
    requires !s.stopped && !s.interrupted
    ensures GoOn(Apply(s, e)) == Upon(s, e)
  {
    hide Skeleton;
  }

  /** How far a node gets: to its first callback, to its condition, to its task or to its last callback. A task
      runs only behind a condition that holds, with the variables the first callback left, and the last callback
      sees those of the task; an error of the task or the condition is one of the whole run. */
  lemma TaskTells(w: World, n: Node, s: State)
    requires !s.reverting && !s.stopped && !s.interrupted && s.status.Running?
    ensures var t, first := TaskExec(w, n, s), Upon(s, w.onStart(n.id, s.ctx));
      var c := first.s.ctx;
      if !first.go then t == first
      else if n.when == "" || w.cond(n.when, c) == Yes then
        var e, run := w.task(n.id, c), first.s.(log := s.log + [Ran(n.id, c)]);
        if e.error then t == Exec(false, Upon(run, e).s.(interrupted := e.interrupt, status := Failed))
        else if !Upon(run, e).go then t == Upon(run, e)
        else t == Upon(run.(ctx := e.ctx), w.onEnd(n.id, e.ctx))
      else if w.cond(n.when, c) == No then t == Upon(first.s, w.onEnd(n.id, c))
      else t == Exec(false, first.s.(status := Failed))
  {
    hide Skeleton;
    var a := w.onStart(n.id, s.ctx);
    UponIs(s, a);
    var s1 := Upon(s, a).s;
    if Upon(s, a).go {
      UponIs(s1, w.onEnd(n.id, s1.ctx));
      var run := s1.(log := s.log + [Ran(n.id, s1.ctx)]);
      var e := w.task(n.id, s1.ctx);
      UponIs(run, e);
      if !e.error && Upon(run, e).go {
        UponIs(run.(ctx := e.ctx), w.onEnd(n.id, e.ctx));
      }
    }
  }

  /** Start and end nodes have callbacks but no task, an end node leads nowhere, and while a run looks for its
      resume point neither callbacks nor tasks are run. */
  lemma PlainNodes(w: World, g: Graph, n: Node, s: State)
    requires n.typ.Start? || n.typ.End? || n.typ.Activity?
    ensures s.reverting ==> PlanOf(w, g, n, s) == if n.typ.End? then Done(s) else FanOut(n.next, s)
    ensures !s.reverting && !s.stopped && !s.interrupted && s.status.Running? && !n.typ.Activity? ==>
      var first := Upon(s, w.onStart(n.id, s.ctx));
      var last := if first.go then Upon(first.s, w.onEnd(n.id, first.s.ctx)) else first;
      PlanOf(w, g, n, s) == if last.go && n.typ.Start? then FanOut(n.next, last.s) else Done(last.s)
    ensures n.typ.Activity? ==>
      PlanOf(w, g, n, s) ==
        if TaskExec(w, n, s).go then FanOut(n.next, TaskExec(w, n, s).s) else Done(TaskExec(w, n, s).s)
  {
    hide Skeleton;
    if !s.reverting && !s.stopped && !s.interrupted {
      UponIs(s, w.onStart(n.id, s.ctx));
      var first := Upon(s, w.onStart(n.id, s.ctx));
      if first.go {
        UponIs(first.s, w.onEnd(n.id, first.s.ctx));
      }
    }
  }

  // ---- following links ----

  /** The states between the links: a link whose condition holds at its turn is entered, the others are
      passed over, and a failure ends it. */
  ghost predicate Walk(w: World, g: Graph, target: string, fuel: nat, links: seq<Link>, s: State, ms: seq<State>) {
    && 0 < |ms| <= |links| + 1 && ms[0] == s
    && (forall i | 0 <= i < |ms| - 1 ::
          && ms[i].status.Running?
          && ms[i + 1] ==
            if links[i].when == "" || w.cond(links[i].when, ms[i].ctx) == Yes
            then NodeRun(w, g, target, fuel, links[i].next, ms[i])
            else if w.cond(links[i].when, ms[i].ctx) == No then ms[i] else ms[i].(status := Failed))
    && (|ms| == |links| + 1 || !ms[|ms| - 1].status.Running?)
  }

  lemma {:induction false} LinksWalk(w: World, g: Graph, target: string, fuel: nat, links: seq<Link>, s: State)
      returns (ms: seq<State>)
    requires s.status.Running?
    ensures Walk(w, g, target, fuel, links, s, ms) && ms[|ms| - 1] == LinksRun(w, g, target, fuel, links, s)
    decreases |links|
  {
    hide NodeRun;
    ms := [s];
    if links != [] {
      var c := Test(w, links[0].when, s);
      var s1 := if c.CondError? then Fail(s)
                else if c.Yes? then NodeRun(w, g, target, fuel, links[0].next, s) else s;
      if s1.status.Running? {
        var rest := LinksWalk(w, g, target, fuel, links[1..], s1);
        ms := [s] + rest;
        forall i | 0 < i < |ms| - 1
          ensures ms[i] == rest[i - 1] && ms[i + 1] == rest[i] && links[i] == links[1..][i - 1]
        {
        }
      } else {
        ms := [s, s1];
      }
    }
  }

  // ---- what a loop iterates over ----

  function Nth(start: int, step: int, i: int): int {
    start + i * step
  }

  /** The items a loop source delivers. */
  predicate Delivers(source: InSpec, c: Ctx, items: seq<Value>) {
    match source
    case Items(xs) => items == xs
    case Steps(start, end, step) =>
      && step > 0 && Nth(start, step, |items|) >= end
      && forall i | 0 <= i < |items| :: Nth(start, step, i) < end && items[i] == Scalar(Nth(start, step, i))
    case Variable(name) => name in c && c[name] == Collection(items)
    case BadIn => false
  }

  lemma StepsDeliver(start: int, end: int, step: int, items: seq<Value>)
    requires step > 0
    ensures items == StepValues(start, end, step) <==> Delivers(Steps(start, end, step), map[], items)
  {
    hide StepValues;
    var values := StepValues(start, end, step);
    forall i: nat
      ensures i < |values| <==> Nth(start, step, i) < end
      ensures i < |values| ==> values[i] == Scalar(Nth(start, step, i))
    {
      StepValuesAre(start, end, step, i);
    }
    assert Nth(start, step, |values|) >= end && Nth(start, step, |items|) == start + |items| * step;
  }

  lemma DeliversIs(source: InSpec, c: Ctx)
    ensures forall items: seq<Value> :: Delivers(source, c, items) <==> BuildIterator(source, c) == Some(items)
  {
    hide StepValues;
    if source.Steps? && source.step > 0 {
      forall items: seq<Value> ensures Delivers(source, c, items) <==> BuildIterator(source, c) == Some(items) {
        StepsDeliver(source.start, source.end, source.step, items);
      }
    }
  }

  // ---- the trace ----

  /** A record is the last one of its graph, changes that of no other, and an empty id asks for the graph
      that was recorded first; without a record, or with a trace switched off, the start is meant. */
  lemma TraceKeeps(t: Trace, g: Graph, n: string, h: Graph)
    ensures t.enabled && g.id != "" ==> LastNode(RecordNode(t, g, n), g) == n
    ensures h.id != g.id && h.id != "" ==> LastNode(RecordNode(t, g, n), h) == LastNode(t, h)
    ensures t.enabled && t.root == "" && h.id == "" && g.id != "" ==> LastNode(RecordNode(t, g, n), h) == n
    ensures t.enabled && t.root != "" && t.root != g.id && h.id == "" ==>
      LastNode(RecordNode(t, g, n), h) == LastNode(t, h)
    ensures !t.enabled ==> LastNode(RecordNode(t, g, n), h) == h.start
    ensures t.last == map[] ==> LastNode(t, h) == h.start
  {
  }
}

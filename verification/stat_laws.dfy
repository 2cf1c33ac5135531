/** Laws of statement execution: jumps, output, scopes, and the recursion bound. */
module StatLaws {
  import opened StatSpec

  // ---- jumps ----

  function Append(a: Stats, b: Stats): Stats {
    match a
    case Empty => b
    case Cons(s, rest) => Cons(s, Append(rest, b))
  }

  /** A list runs its first part, and the second part only if the first ended normally: nothing after a
      jump writes, evaluates or defines anything. */
  lemma {:induction false} NothingAfterJump(w: World, fuel: nat, a: Stats, b: Stats, st: State)
    ensures var r := RunAll(w, fuel, a, st);
      RunAll(w, fuel, Append(a, b), st) == if r.o.Normal? then RunAll(w, fuel, b, r.st) else r
    decreases a
  {
    hide Run;
    match a
    case Empty =>
    case Cons(s, rest) =>
      var r := Run(w, fuel, s, st);
      if r.o.Normal? {
        NothingAfterJump(w, fuel, rest, b, r.st);
      }
  }

  /** A loop takes up the break and continue of its body; a return, and a jump of #else, pass. */
  lemma {:induction false} LoopAbsorbs(w: World, fuel: nat, name: string, body: Stat, items: seq<Value>, i: nat,
      outer: Value, st: State)
    requires i <= |items|
    ensures var o := Loop(w, fuel, name, body, items, i, outer, st).o; !o.Broke? && !o.Continued?
    decreases |items| - i
  {
    hide Run;
    if i < |items| {
      var m := Bind(Bind(Opened(st.mem), name, items[i]), "for", LoopStatus(outer, i, |items|));
      var r := Leave(Run(w, fuel, body, st.(mem := m)));
      if r.o.Normal? || r.o.Continued? {
        LoopAbsorbs(w, fuel, name, body, items, i + 1, outer, r.st);
      }
    }
  }

  lemma ForAbsorbs(w: World, fuel: nat, name: string, e: Expr, body: Stat, orElse: Stat, st: State)
    ensures var v := w.eval(e, st.mem);
      var o := Run(w, fuel, For(name, e, body, orElse), st).o;
      o.Broke? || o.Continued? ==>
        v.Done? && w.slice(v.v, v.mem) == [] && Run(w, fuel, orElse, st.(mem := v.mem)).o == o
  {
    hide Loop;
    var v := w.eval(e, st.mem);
    if v.Done? && w.slice(v.v, v.mem) != [] {
      LoopAbsorbs(w, fuel, name, body, w.slice(v.v, v.mem), 0, Get(v.mem.chain, "for"), st.(mem := v.mem));
    }
  }

  lemma CallAbsorbs(w: World, fuel: nat, name: string, nullSafe: bool, args: seq<Expr>, st: State)
    ensures var o := Run(w, fuel, Call(name, nullSafe, args), st).o; o.Normal? || o.Panicked? || o.Starved?
  {
    hide EvalAll, BindAll;
  }

  // ---- output is only appended to, and scopes are closed again ----

  predicate Kept(st: State, r: State) {
    st.out <= r.out && |r.mem.chain| == |st.mem.chain|
  }

  lemma {:induction false} EvalAllKept(w: World, es: seq<Expr>, m: Memory)
    requires Scoped(w)
    ensures |EvalAll(w, es, m).mem.chain| == |m.chain|
    decreases |es|
  {
    var v := w.eval(if es == [] then 0 else es[0], m);
    assert |v.mem.chain| == |m.chain|;
    if es != [] {
      EvalAllKept(w, es[1..], v.mem);
    }
  }

  lemma {:induction false} AssignKept(w: World, assigns: seq<(string, Expr)>, inner: map<string, Value>, m: Memory)
    requires Scoped(w)
    ensures |Assign(w, assigns, inner, m).2.chain| == |m.chain|
    decreases |assigns|
  {
    if assigns != [] {
      var v := w.eval(assigns[0].1, m);
      assert |v.mem.chain| == |m.chain|;
      if v.Done? {
        AssignKept(w, assigns[1..], inner[assigns[0].0 := v.v], v.mem);
      }
    }
  }

  lemma {:induction false} BindAllKept(m: Memory, names: seq<string>, vs: seq<Value>)
    ensures |BindAll(m, names, vs).chain| == |m.chain|
    decreases |names|
  {
    if names != [] && vs != [] {
      BindAllKept(Bind(m, names[0], vs[0]), names[1..], vs[1..]);
    }
  }

  lemma {:induction false} TryKept(w: World, v: Value, es: seq<Expr>, m: Memory)
    requires Scoped(w)
    ensures |TryCase(w, v, es, m).1.chain| == |m.chain|
    decreases |es|
  {
    if es != [] {
      var x := w.eval(es[0], m);
      assert |x.mem.chain| == |m.chain|;
      TryKept(w, v, es[1..], x.mem);
    }
  }

  /** Output is only appended to, and every scope that was opened is closed, however a statement ends. */
  lemma {:induction false} RunKeeps(w: World, fuel: nat, s: Stat, st: State)
    requires Scoped(w)
    ensures Kept(st, Run(w, fuel, s, st).st)
    decreases fuel, s, 1
  {
    hide Loop, RunAll, Choose, EvalAll, BindAll, Assign, Store, Get, Scoped;
    match s
    case Output(e) => EvalKept(w, e, st.mem);
    case If(cond, body, rest) =>
      EvalKept(w, cond, st.mem);
      var v := w.eval(cond, st.mem);
      if v.Done? { RunKeeps(w, fuel, if w.truthy(v.v) then body else rest, st.(mem := v.mem)); }
    case For(name, e, body, orElse) =>
      EvalKept(w, e, st.mem);
      var v := w.eval(e, st.mem);
      if v.Done? {
        RunKeeps(w, fuel, orElse, st.(mem := v.mem));
        LoopKeeps(w, fuel, name, body, w.slice(v.v, v.mem), 0, Get(v.mem.chain, "for"), st.(mem := v.mem));
      }
    case Set(_, _, e) => EvalKept(w, e, st.mem);
    case SetElement(e) => EvalKept(w, e, st.mem);
    case Call(name, _, args) => CallKeeps(w, fuel, s, st);
    case Return(e) => if e.Some? { EvalKept(w, e.value, st.mem); }
    case ReturnIf(e) => if e.Some? { EvalKept(w, e.value, st.mem); }
    case Include(assigns, sub) =>
      AssignKept(w, assigns, map[], st.mem);
      var (ok, inner, m) := Assign(w, assigns, map[], st.mem);
      RunKeeps(w, fuel, sub, st.(mem := m.(chain := [inner] + m.chain)));
    case Switch(e, cases) =>
      EvalKept(w, e, st.mem);
      var v := w.eval(e, st.mem);
      if v.Done? { ChooseKeeps(w, fuel, v.v, cases, st.(mem := v.mem)); }
    case Block(stats) => RunAllKeeps(w, fuel, stats, st);
    case _ =>
  }

  lemma EvalKept(w: World, e: Expr, m: Memory)
    requires Scoped(w)
    ensures |w.eval(e, m).mem.chain| == |m.chain|
  {
  }

  lemma {:induction false} CallKeeps(w: World, fuel: nat, s: Stat, st: State)
    requires Scoped(w) && s.Call?
    ensures Kept(st, Run(w, fuel, s, st).st)
    decreases fuel, s, 0
  {
    hide Scoped, EvalAll, BindAll;
    EvalAllKept(w, s.args, st.mem);
    if s.name in st.fns && fuel > 0 {
      var vs := EvalAll(w, s.args, st.mem);
      var fn := st.fns[s.name];
      if vs.vs.Some? {
        var m := BindAll(Opened(vs.mem), fn.params, vs.vs.value);
        BindAllKept(Opened(vs.mem), fn.params, vs.vs.value);
        RunKeeps(w, fuel - 1, fn.body, st.(mem := m));
      }
    }
  }

  lemma {:induction false} RunAllKeeps(w: World, fuel: nat, ss: Stats, st: State)
    requires Scoped(w)
    ensures Kept(st, RunAll(w, fuel, ss, st).st)
    decreases fuel, ss, 0
  {
    hide Run, Scoped;
    if ss.Cons? {
      RunKeeps(w, fuel, ss.head, st);
      RunAllKeeps(w, fuel, ss.tail, Run(w, fuel, ss.head, st).st);
    }
  }

  lemma {:induction false} LoopKeeps(w: World, fuel: nat, name: string, body: Stat, items: seq<Value>, i: nat,
      outer: Value, st: State)
    requires i <= |items| && Scoped(w)
    ensures Kept(st, Loop(w, fuel, name, body, items, i, outer, st).st)
    decreases fuel, body, |items| - i + 1
  {
    hide Run, Scoped;
    if i < |items| {
      var m := Bind(Bind(Opened(st.mem), name, items[i]), "for", LoopStatus(outer, i, |items|));
      RunKeeps(w, fuel, body, st.(mem := m));
      var r := Leave(Run(w, fuel, body, st.(mem := m)));
      LoopKeeps(w, fuel, name, body, items, i + 1, outer, r.st);
    }
  }

  lemma {:induction false} IfMatchKeeps(w: World, fuel: nat, v: Value, cs: Cases, st: State)
    requires Scoped(w)
    ensures match IfMatch(w, fuel, v, cs, st)
            case Ran(r) => Kept(st, r.st)
            case Unmatched(m) => |m.chain| == |st.mem.chain|
    decreases fuel, cs, 0
  {
    hide Run, Scoped, TryCase;
    if cs.Case? {
      TryKept(w, v, cs.values, st.mem);
      var st1 := st.(mem := TryCase(w, v, cs.values, st.mem).1);
      RunKeeps(w, fuel, cs.body, st1);
      IfMatchKeeps(w, fuel, v, cs.next, st1);
    }
  }

  lemma {:induction false} ChooseKeeps(w: World, fuel: nat, v: Value, cs: Cases, st: State)
    requires Scoped(w)
    ensures Kept(st, Choose(w, fuel, v, cs, st).st)
    decreases fuel, cs, 1
  {
    hide Run, Scoped, IfMatch;
    if cs.Default? {
      RunKeeps(w, fuel, cs.body, st);
    } else {
      IfMatchKeeps(w, fuel, v, cs, st);
      var t := IfMatch(w, fuel, v, cs, st);
      if t.Unmatched? {
        ChooseKeeps(w, fuel, v, cs.next, st.(mem := t.mem));
      }
    }
  }

  // ---- #switch tries cases again ----

  /** Each case tried once, in order, then the default. */
  function ChooseOnce(w: World, fuel: nat, v: Value, cs: Cases, st: State): Result
    decreases fuel, cs, 1
  {
    match cs
    case Default(body) => Run(w, fuel, body, st)
    case Case(es, body, next) =>
      var (hit, m) := TryCase(w, v, es, st.mem);
      var st1 := st.(mem := m);
      match hit
      case Fault => Result(Panicked, st1)
      case Hit => Run(w, fuel, body, st1)
      case Miss => ChooseOnce(w, fuel, v, next, st1)
  }

  /** Evaluating the values of these cases changes nothing. */
  ghost predicate Pure(w: World, cs: Cases) {
    cs.Case? ==> Pure(w, cs.next) && forall e, m: Memory | e in cs.values :: w.eval(e, m).mem == m
  }

  lemma {:induction false} PureTry(w: World, v: Value, es: seq<Expr>, m: Memory)
    requires forall e, m: Memory | e in es :: w.eval(e, m).mem == m
    ensures TryCase(w, v, es, m).1 == m
    decreases |es|
  {
    if es != [] {
      assert w.eval(es[0], m).mem == m;
      PureTry(w, v, es[1..], m);
    }
  }

  /** The first pass over all cases decides as trying each once would. */
  lemma {:induction false} FirstPass(w: World, fuel: nat, v: Value, cs: Cases, st: State)
    ensures match IfMatch(w, fuel, v, cs, st)
            case Ran(r) => ChooseOnce(w, fuel, v, cs, st) == r
            case Unmatched(m) => ChooseOnce(w, fuel, v, cs, st) == Run(w, fuel, LastBody(cs), st.(mem := m))
    decreases cs
  {
    hide Run, TryCase;
    if cs.Case? {
      FirstPass(w, fuel, v, cs.next, st.(mem := TryCase(w, v, cs.values, st.mem).1));
    }
  }

  function LastBody(cs: Cases): Stat {
    if cs.Default? then cs.body else LastBody(cs.next)
  }

  lemma {:induction false} PurePass(w: World, fuel: nat, v: Value, cs: Cases, st: State)
    requires Pure(w, cs)
    ensures IfMatch(w, fuel, v, cs, st).Unmatched? ==>
      IfMatch(w, fuel, v, cs, st).mem == st.mem && (cs.Case? ==> IfMatch(w, fuel, v, cs.next, st).Unmatched?)
    decreases cs
  {
    hide Run, TryCase;
    if cs.Case? {
      PureTry(w, v, cs.values, st.mem);
      PurePass(w, fuel, v, cs.next, st);
      assert st.(mem := st.mem) == st;
    }
  }

  /** Trying cases again is harmless when the values of all cases but the first are pure. */
  lemma SwitchTriesOnce(w: World, fuel: nat, v: Value, cs: Cases, st: State)
    requires cs.Case? ==> Pure(w, cs.next)
    ensures Choose(w, fuel, v, cs, st) == ChooseOnce(w, fuel, v, cs, st)
  {
    hide Run, TryCase, IfMatch, Pure;
    FirstPass(w, fuel, v, cs, st);
    if cs.Case? {
      var t := IfMatch(w, fuel, v, cs, st);
      if t.Unmatched? {
        RestMisses(w, fuel, v, cs, st);
        PureChoose(w, fuel, v, cs.next, st.(mem := t.mem));
      }
    }
  }

  /** After the first case missed, a pass over the others that finds none left their memory as it was. */
  lemma RestMisses(w: World, fuel: nat, v: Value, cs: Cases, st: State)
    requires cs.Case? && Pure(w, cs.next) && IfMatch(w, fuel, v, cs, st).Unmatched?
    ensures var m := IfMatch(w, fuel, v, cs, st).mem; IfMatch(w, fuel, v, cs.next, st.(mem := m)) == Unmatched(m)
  {
    hide Run, TryCase, Pure;
    var st1 := st.(mem := TryCase(w, v, cs.values, st.mem).1);
    PurePass(w, fuel, v, cs.next, st1);
  }

  /** Pure cases of which none matches: the default runs. */
  lemma {:induction false} PureChoose(w: World, fuel: nat, v: Value, cs: Cases, st: State)
    requires Pure(w, cs) && IfMatch(w, fuel, v, cs, st) == Unmatched(st.mem)
    ensures Choose(w, fuel, v, cs, st) == Run(w, fuel, LastBody(cs), st)
    decreases cs
  {
    hide Run, TryCase, IfMatch, Pure;
    if cs.Case? {
      PurePass(w, fuel, v, cs, st);
      PureNext(w, cs);
      PurePass(w, fuel, v, cs.next, st);
      assert st.(mem := st.mem) == st;
      PureChoose(w, fuel, v, cs.next, st);
    }
  }

  lemma PureNext(w: World, cs: Cases)
    requires Pure(w, cs) && cs.Case?
    ensures Pure(w, cs.next)
  {
  }

  // ---- and exactly when it is harmless in every world ----

  /** None of these cases has a value to evaluate. */
  predicate NoValues(cs: Cases) {
    cs.Case? ==> cs.values == [] && NoValues(cs.next)
  }

  lemma {:induction false} NoValuesPure(w: World, cs: Cases)
    requires NoValues(cs)
    ensures Pure(w, cs)
    decreases cs
  {
    if cs.Case? {
      NoValuesPure(w, cs.next);
    }
  }

  function Clock(m: Memory): int {
    if 0 in m.objects && m.objects[0].Number? then m.objects[0].n else 0
  }

  function Tick(m: Memory, k: nat): Memory {
    if k == 0 then m else m.(objects := m.objects[0 := Number(Clock(m) + k)])
  }

  function Late(st: State, k: nat): State {
    st.(mem := Tick(st.mem, k))
  }

  /** A world that counts its evaluations and does nothing else; no value equals another. */
  function Counting(): World {
    World((e: Expr, m: Memory) => StatSpec.Done(Nil, Tick(m, 1)),
          v => false, (v, m) => [], (v, m) => "", (v, u, m) => false)
  }

  lemma Ticks(m: Memory, a: nat, b: nat)
    ensures Tick(Tick(m, a), b) == Tick(m, a + b) && Clock(Tick(m, a)) == Clock(m) + a
  {
    if a > 0 && b > 0 {
      assert m.objects[0 := Number(Clock(m) + a)][0 := Number(Clock(m) + a + b)] ==
        m.objects[0 := Number(Clock(m) + a + b)];
    }
  }

  lemma EvalLate(e: Expr, m: Memory, k: nat)
    ensures Counting().eval(e, Tick(m, k)) == StatSpec.Done(Nil, Tick(Counting().eval(e, m).mem, k))
    ensures Counting().eval(e, m) == StatSpec.Done(Nil, Tick(m, 1))
  {
    Ticks(m, k, 1);
    Ticks(m, 1, k);
  }

  lemma {:induction false} EvalAllLate(es: seq<Expr>, m: Memory, k: nat)
    ensures var vs := EvalAll(Counting(), es, m);
      EvalAll(Counting(), es, Tick(m, k)) == vs.(mem := Tick(vs.mem, k))
    decreases |es|
  {
    hide Counting, Tick;
    if es != [] {
      EvalLate(es[0], m, k);
      EvalAllLate(es[1..], Counting().eval(es[0], m).mem, k);
    }
  }

  lemma {:induction false} AssignLate(assigns: seq<(string, Expr)>, inner: map<string, Value>, m: Memory, k: nat)
    ensures var (ok, vars, r) := Assign(Counting(), assigns, inner, m);
      Assign(Counting(), assigns, inner, Tick(m, k)) == (ok, vars, Tick(r, k))
    decreases |assigns|
  {
    hide Counting, Tick;
    if assigns != [] {
      EvalLate(assigns[0].1, m, k);
      AssignLate(assigns[1..], inner[assigns[0].0 := Nil], Counting().eval(assigns[0].1, m).mem, k);
    }
  }

  lemma {:induction false} BindAllLate(m: Memory, names: seq<string>, vs: seq<Value>, k: nat)
    ensures BindAll(Tick(m, k), names, vs) == Tick(BindAll(m, names, vs), k)
    decreases |names|
  {
    if names != [] && vs != [] {
      assert Bind(Tick(m, k), names[0], vs[0]) == Tick(Bind(m, names[0], vs[0]), k);
      BindAllLate(Bind(m, names[0], vs[0]), names[1..], vs[1..], k);
    }
  }

  lemma {:induction false} TryCounts(v: Value, es: seq<Expr>, m: Memory)
    ensures TryCase(Counting(), v, es, m) == (Miss, Tick(m, |es|))
    decreases |es|
  {
    if es != [] {
      TryCounts(v, es[1..], Tick(m, 1));
      Ticks(m, 1, |es| - 1);
    }
  }

  function ValuesOf(cs: Cases): nat {
    if cs.Default? then 0 else |cs.values| + ValuesOf(cs.next)
  }

  /** What the passes from the second case on evaluate. */
  function Repeated(cs: Cases): nat {
    if cs.Default? then 0 else ValuesOf(cs.next) + Repeated(cs.next)
  }

  lemma {:induction false} NoneRepeated(cs: Cases)
    requires cs.Case? && !NoValues(cs.next)
    ensures ValuesOf(cs.next) > 0
    decreases cs
  {
    if cs.next.values == [] {
      NoneRepeated(cs.next);
    }
  }

  lemma {:induction false} PassCounts(fuel: nat, v: Value, cs: Cases, st: State)
    ensures IfMatch(Counting(), fuel, v, cs, st) == Unmatched(Tick(st.mem, ValuesOf(cs)))
    decreases cs
  {
    hide Run, TryCase, Counting, Tick;
    if cs.Case? {
      TryCounts(v, cs.values, st.mem);
      PassCounts(fuel, v, cs.next, Late(st, |cs.values|));
      Ticks(st.mem, |cs.values|, ValuesOf(cs.next));
    } else {
      NoTick(st.mem);
    }
  }

  lemma NoTick(m: Memory)
    ensures Tick(m, 0) == m
  {
  }

  lemma {:induction false} ChooseCounts(fuel: nat, v: Value, cs: Cases, st: State)
    ensures Choose(Counting(), fuel, v, cs, st) ==
      Run(Counting(), fuel, LastBody(cs), Late(st, ValuesOf(cs) + Repeated(cs)))
    ensures ChooseOnce(Counting(), fuel, v, cs, st) == Run(Counting(), fuel, LastBody(cs), Late(st, ValuesOf(cs)))
    decreases cs
  {
    hide Run, TryCase, Counting, Tick, IfMatch, ChooseOnce;
    PassCounts(fuel, v, cs, st);
    FirstPass(Counting(), fuel, v, cs, st);
    NoTick(st.mem);
    if cs.Case? {
      ChooseCounts(fuel, v, cs.next, Late(st, ValuesOf(cs)));
      Ticks(st.mem, ValuesOf(cs), ValuesOf(cs.next) + Repeated(cs.next));
    }
  }

  function LateResult(r: Result, k: nat): Result {
    Result(r.o, Late(r.st, k))
  }

  /** A later clock changes nothing but the clock. */
  lemma {:induction false} RunLate(fuel: nat, s: Stat, st: State, k: nat)
    ensures Run(Counting(), fuel, s, Late(st, k)) == LateResult(Run(Counting(), fuel, s, st), k)
    decreases fuel, s, 1
  {
    hide Loop, RunAll, Choose, EvalAll, BindAll, Assign, Store, Get, Tick, Counting;
    var w := Counting();
    CountingIdle();
    match s
    case Output(e) => EvalLate(e, st.mem, k);
    case If(cond, body, rest) =>
      EvalLate(cond, st.mem, k);
      RunLate(fuel, rest, Late(st, 1), k);
    case For(name, e, body, orElse) =>
      EvalLate(e, st.mem, k);
      RunLate(fuel, orElse, Late(st, 1), k);
    case Set(level, name, e) =>
      EvalLate(e, st.mem, k);
      ChainLate(Tick(st.mem, 1), Store(Tick(st.mem, 1).chain, level, name, Nil), k);
    case SetElement(e) => EvalLate(e, st.mem, k);
    case Call(name, _, args) => CallLate(fuel, s, st, k);
    case Return(e) => if e.Some? { EvalLate(e.value, st.mem, k); }
    case ReturnIf(e) => if e.Some? { EvalLate(e.value, st.mem, k); }
    case Include(assigns, sub) =>
      AssignLate(assigns, map[], st.mem, k);
      var (ok, inner, m) := Assign(w, assigns, map[], st.mem);
      var m1 := m.(chain := [inner] + m.chain);
      ChainLate(m, [inner] + m.chain, k);
      RunLate(fuel, sub, st.(mem := m1), k);
      LeaveLate(Run(w, fuel, sub, st.(mem := m1)), k);
    case Switch(e, cases) =>
      EvalLate(e, st.mem, k);
      ChooseLate(fuel, Nil, cases, Late(st, 1), k);
    case Block(stats) => RunAllLate(fuel, stats, st, k);
    case _ =>
  }

  lemma CountingIdle()
    ensures var w := Counting();
      && (forall v: Value :: !w.truthy(v)) && (forall v: Value, m: Memory :: w.slice(v, m) == [] && w.show(v, m) == "")
  {
  }

  lemma ChainLate(m: Memory, chain: seq<map<string, Value>>, k: nat)
    ensures Tick(m, k).chain == m.chain && Tick(m, k).(chain := chain) == Tick(m.(chain := chain), k)
  {
  }

  lemma LeaveLate(r: Result, k: nat)
    ensures Leave(LateResult(r, k)) == LateResult(Leave(r), k)
  {
  }

  lemma {:induction false} CallLate(fuel: nat, s: Stat, st: State, k: nat)
    requires s.Call?
    ensures Run(Counting(), fuel, s, Late(st, k)) == LateResult(Run(Counting(), fuel, s, st), k)
    decreases fuel, s, 0
  {
    hide EvalAll, BindAll, Tick, Counting;
    EvalAllLate(s.args, st.mem, k);
    var vs := EvalAll(Counting(), s.args, st.mem);
    if s.name in st.fns && fuel > 0 && vs.vs.Some? {
      var fn := st.fns[s.name];
      ChainLate(vs.mem, [map[]] + vs.mem.chain, k);
      BindAllLate(Opened(vs.mem), fn.params, vs.vs.value, k);
      var st1 := st.(mem := BindAll(Opened(vs.mem), fn.params, vs.vs.value));
      RunLate(fuel - 1, fn.body, st1, k);
      LeaveLate(Run(Counting(), fuel - 1, fn.body, st1), k);
    }
  }

  lemma {:induction false} RunAllLate(fuel: nat, ss: Stats, st: State, k: nat)
    ensures RunAll(Counting(), fuel, ss, Late(st, k)) == LateResult(RunAll(Counting(), fuel, ss, st), k)
    decreases fuel, ss, 0
  {
    hide Run, Counting, Tick;
    if ss.Cons? {
      RunLate(fuel, ss.head, st, k);
      RunAllLate(fuel, ss.tail, Run(Counting(), fuel, ss.head, st).st, k);
    }
  }

  lemma {:induction false} ChooseLate(fuel: nat, v: Value, cs: Cases, st: State, k: nat)
    ensures Choose(Counting(), fuel, v, cs, Late(st, k)) == LateResult(Choose(Counting(), fuel, v, cs, st), k)
    decreases fuel, cs, 1
  {
    hide Run, IfMatch, Counting, Tick;
    if cs.Default? {
      RunLate(fuel, cs.body, st, k);
    } else {
      var n := ValuesOf(cs);
      PassCounts(fuel, v, cs, st);
      PassCounts(fuel, v, cs, Late(st, k));
      Ticks(st.mem, k, n);
      Ticks(st.mem, n, k);
      ChooseLate(fuel, v, cs.next, Late(st, n), k);
    }
  }

  /** #switch as the code has it and #switch that tries each case once. */
  predicate SameSwitch(w: World, fuel: nat, v: Value, cs: Cases, st: State) {
    Choose(w, fuel, v, cs, st) == ChooseOnce(w, fuel, v, cs, st)
  }

  /** They agree in every world exactly when no case after the first has a value to evaluate. */
  lemma SwitchTriesOnceIff(cs: Cases)
    ensures (cs.Case? ==> NoValues(cs.next)) <==>
      forall w: World, fuel: nat, v: Value, st: State :: SameSwitch(w, fuel, v, cs, st)
  {
    hide Choose, ChooseOnce, Pure, Counting;
    if cs.Case? ==> NoValues(cs.next) {
      forall w: World, fuel: nat, v: Value, st: State ensures SameSwitch(w, fuel, v, cs, st) {
        if cs.Case? {
          NoValuesPure(w, cs.next);
        }
        SwitchTriesOnce(w, fuel, v, cs, st);
      }
    } else {
      NoneRepeated(cs);
      SwitchTriesAgain(cs, State(Memory([], map[]), map[], "", Nil));
    }
  }

  /** Where it counts: from any state, the evaluations of the later passes come on top. */
  lemma SwitchTriesAgain(cs: Cases, st: State)
    ensures var again, once := Choose(Counting(), 0, Nil, cs, st), ChooseOnce(Counting(), 0, Nil, cs, st);
      again.o == once.o && Clock(again.st.mem) == Clock(once.st.mem) + Repeated(cs)
    ensures Repeated(cs) > 0 ==> !SameSwitch(Counting(), 0, Nil, cs, st)
  {
    hide Run, Choose, ChooseOnce, Counting, Tick;
    ChooseCounts(0, Nil, cs, st);
    var n, k := ValuesOf(cs), Repeated(cs);
    Ticks(st.mem, n, k);
    RunLate(0, LastBody(cs), Late(st, n), k);
    Ticks(Run(Counting(), 0, LastBody(cs), Late(st, n)).st.mem, k, 0);
  }

  // ---- the recursion bound ----

  /** A run that does not reach the recursion bound does not depend on it. */
  lemma {:induction false} RunMore(w: World, fuel: nat, more: nat, s: Stat, st: State)
    requires fuel <= more && !Run(w, fuel, s, st).o.Starved?
    ensures Run(w, more, s, st) == Run(w, fuel, s, st)
    decreases fuel, s, 1
  {
    hide Loop, RunAll, Choose, EvalAll, BindAll, Assign, Store, Get, Bind, Opened, Closed;
    match s
    case If(cond, body, rest) =>
      var v := w.eval(cond, st.mem);
      if v.Done? { RunMore(w, fuel, more, if w.truthy(v.v) then body else rest, st.(mem := v.mem)); }
    case For(name, e, body, orElse) =>
      var v := w.eval(e, st.mem);
      if v.Done? {
        if w.slice(v.v, v.mem) == [] {
          RunMore(w, fuel, more, orElse, st.(mem := v.mem));
        } else {
          LoopMore(w, fuel, more, name, body, w.slice(v.v, v.mem), 0, Get(v.mem.chain, "for"), st.(mem := v.mem));
        }
      }
    case Call(name, _, args) => CallMore(w, fuel, more, s, st);
    case Include(assigns, sub) =>
      var (ok, inner, m) := Assign(w, assigns, map[], st.mem);
      if ok { RunMore(w, fuel, more, sub, st.(mem := m.(chain := [inner] + m.chain))); }
    case Switch(e, cases) =>
      var v := w.eval(e, st.mem);
      if v.Done? { ChooseMore(w, fuel, more, v.v, cases, st.(mem := v.mem)); }
    case Block(stats) => RunAllMore(w, fuel, more, stats, st);
    case _ =>
  }

  lemma {:induction false} CallMore(w: World, fuel: nat, more: nat, s: Stat, st: State)
    requires fuel <= more && s.Call? && !Run(w, fuel, s, st).o.Starved?
    ensures Run(w, more, s, st) == Run(w, fuel, s, st)
    decreases fuel, s, 0
  {
    hide EvalAll, BindAll;
    if s.name in st.fns && |s.args| == |st.fns[s.name].params| && fuel > 0 {
      var vs := EvalAll(w, s.args, st.mem);
      var fn := st.fns[s.name];
      if vs.vs.Some? {
        RunMore(w, fuel - 1, more - 1, fn.body, st.(mem := BindAll(Opened(vs.mem), fn.params, vs.vs.value)));
      }
    }
  }

  lemma {:induction false} RunAllMore(w: World, fuel: nat, more: nat, ss: Stats, st: State)
    requires fuel <= more && !RunAll(w, fuel, ss, st).o.Starved?
    ensures RunAll(w, more, ss, st) == RunAll(w, fuel, ss, st)
    decreases fuel, ss, 0
  {
    hide Run;
    if ss.Cons? {
      RunMore(w, fuel, more, ss.head, st);
      var r := Run(w, fuel, ss.head, st);
      if r.o.Normal? { RunAllMore(w, fuel, more, ss.tail, r.st); }
    }
  }

  lemma {:induction false} LoopMore(w: World, fuel: nat, more: nat, name: string, body: Stat, items: seq<Value>,
      i: nat, outer: Value, st: State)
    requires fuel <= more && i <= |items| && !Loop(w, fuel, name, body, items, i, outer, st).o.Starved?
    ensures Loop(w, more, name, body, items, i, outer, st) == Loop(w, fuel, name, body, items, i, outer, st)
    decreases fuel, body, |items| - i + 1
  {
    hide Run;
    if i < |items| {
      var st1 := st.(mem := Bind(Bind(Opened(st.mem), name, items[i]), "for", LoopStatus(outer, i, |items|)));
      RunMore(w, fuel, more, body, st1);
      var r := Leave(Run(w, fuel, body, st1));
      if r.o.Normal? || r.o.Continued? { LoopMore(w, fuel, more, name, body, items, i + 1, outer, r.st); }
    }
  }

  lemma {:induction false} IfMatchMore(w: World, fuel: nat, more: nat, v: Value, cs: Cases, st: State)
    requires fuel <= more
    requires IfMatch(w, fuel, v, cs, st).Ran? ==> !IfMatch(w, fuel, v, cs, st).r.o.Starved?
    ensures IfMatch(w, more, v, cs, st) == IfMatch(w, fuel, v, cs, st)
    decreases fuel, cs, 0
  {
    hide Run, TryCase;
    if cs.Case? {
      var (hit, m) := TryCase(w, v, cs.values, st.mem);
      if hit.Hit? { RunMore(w, fuel, more, cs.body, st.(mem := m)); }
      if hit.Miss? { IfMatchMore(w, fuel, more, v, cs.next, st.(mem := m)); }
    }
  }

  lemma {:induction false} ChooseMore(w: World, fuel: nat, more: nat, v: Value, cs: Cases, st: State)
    requires fuel <= more && !Choose(w, fuel, v, cs, st).o.Starved?
    ensures Choose(w, more, v, cs, st) == Choose(w, fuel, v, cs, st)
    decreases fuel, cs, 1
  {
    hide Run, IfMatch;
    if cs.Default? {
      RunMore(w, fuel, more, cs.body, st);
    } else {
      IfMatchMore(w, fuel, more, v, cs, st);
      var t := IfMatch(w, fuel, v, cs, st);
      if t.Unmatched? { ChooseMore(w, fuel, more, v, cs.next, st.(mem := t.mem)); }
    }
  }
}

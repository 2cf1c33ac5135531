/** enjoy/stat_parser.go: execution with jump flags, proved to do what the outcomes say. */
module StatExec {
  import opened StatSpec

  /** enjoy/ctrl.go. */
  class Ctrl {
    var brk: bool
    var cont: bool
    var ret: bool
    var attachment: Value

    constructor ()
      ensures Clear() && attachment == Nil
    {
      brk, cont, ret, attachment := false, false, false, Nil;
    }

    predicate Clear()
      reads this
    {
      !brk && !cont && !ret
    }

    /** The flags say exactly how a statement ended; at most one of them is set. */
    predicate Says(o: Outcome)
      reads this
    {
      brk == o.Broke? && cont == o.Continued? && ret == o.Returned?
    }

    method Reset()
      modifies this`brk, this`cont, this`ret
      ensures Clear()
    {
      brk := false;
      cont := false;
      ret := false;
    }
  }

  /** A #for statement by itself. */
  function RunFor(w: World, fuel: nat, s: Stat, st: State): Result
    requires s.For?
  {
    var v := w.eval(s.e, st.mem);
    var st1 := st.(mem := v.mem);
    if v.Panic? then Result(Panicked, st1)
    else
      var items := w.slice(v.v, v.mem);
      if items == [] then Run(w, fuel, s.orElse, st1)
      else Loop(w, fuel, s.name, s.body, items, 0, Get(v.mem.chain, "for"), st1)
  }

  lemma ForRule(w: World, fuel: nat, s: Stat, st: State)
    requires s.For?
    ensures Run(w, fuel, s, st) == RunFor(w, fuel, s, st)
  {
    hide Loop;
  }

  lemma LoopRule(w: World, fuel: nat, name: string, body: Stat, items: seq<Value>, i: nat, outer: Value, st: State)
    requires i <= |items|
    ensures i == |items| ==> Loop(w, fuel, name, body, items, i, outer, st) == Result(Normal, st)
    ensures i < |items| ==>
      var m := Bind(Bind(Opened(st.mem), name, items[i]), "for", LoopStatus(outer, i, |items|));
      var r := Leave(Run(w, fuel, body, st.(mem := m)));
      Loop(w, fuel, name, body, items, i, outer, st) ==
        if r.o.Normal? || r.o.Continued? then Loop(w, fuel, name, body, items, i + 1, outer, r.st)
        else if r.o.Broke? then Result(Normal, r.st) else r
  {
    hide Run;
  }

  class Interpreter {
    const w: World
    const ctrl: Ctrl
    var mem: Memory
    var fns: map<string, Fn>
    var out: string

    function Now(): State
      reads this, ctrl
    {
      State(mem, fns, out, ctrl.attachment)
    }

    constructor (w: World, mem: Memory, fns: map<string, Fn>)
      ensures this.w == w && fresh(ctrl) && ctrl.Clear() && Now() == State(mem, fns, "", Nil)
    {
      this.w, this.mem, this.fns := w, mem, fns;
      out := "";
      ctrl := new Ctrl();
    }


    method Eval(e: Expr) returns (v: Value, panic: bool)
      modifies this`mem
      ensures match w.eval(e, old(mem))
              case Panic(m) => panic && mem == m
              case Done(x, m) => !panic && v == x && mem == m
    {
      match w.eval(e, mem)
      case Panic(m) => mem := m; return Nil, true;
      case Done(x, m) => mem := m; return x, false;
    }

    method WriteOut(s: string)
      modifies this`out
      ensures out == old(out) + s
    {
      out := out + s;
    }

    method Exec(ghost fuel: nat, s: Stat) returns (panic: bool)
      requires ctrl.Clear() && !Run(w, fuel, s, Now()).o.Starved?
      modifies this, ctrl
      ensures var r := Run(w, fuel, s, old(Now()));
        panic == r.o.Panicked? && Now() == r.st && (!panic ==> ctrl.Says(r.o))
      decreases fuel, s, 2
    {
      hide Assign, EvalAll, BindAll, Store, TryCase;
      panic := false;
      match s
      case Null =>
      case Text(content) => WriteOut(content);
      case Output(e) =>
        var v;
        v, panic := Eval(e);
        if !panic && !v.Nil? {
          WriteOut(w.show(v, mem));
        }
      case If(cond, body, rest) =>
        var v;
        v, panic := Eval(cond);
        if !panic {
          panic := Exec(fuel, if w.truthy(v) then body else rest);
        }
      case For(_, _, _, _) => panic := ExecFor(fuel, s);
      case Set(level, name, e) =>
        var v;
        v, panic := Eval(e);
        if !panic {
          mem := mem.(chain := Store(mem.chain, level, name, v));
        }
      case SetElement(e) =>
        var _, p := Eval(e);
        panic := p;
      case Define(name, params, body) => fns := fns[name := Fn(params, body)];
      case Call(_, _, _) => panic := ExecCall(fuel, s);
      case Break => ctrl.brk := true;
      case Continue => ctrl.cont := true;
      case Return(e) =>
        if e.Some? {
          var v;
          v, panic := Eval(e.value);
          if panic {
            return;
          }
          ctrl.attachment := v;
        }
        ctrl.ret := true;
      case ReturnIf(e) =>
        if e.Some? {
          var v;
          v, panic := Eval(e.value);
          if !panic && w.truthy(v) {
            ctrl.ret := true;
          }
        }
      case Include(_, _) => panic := ExecInclude(fuel, s);
      case Switch(e, cases) =>
        var v;
        v, panic := Eval(e);
        if !panic {
          panic := ExecSwitch(fuel, v, cases);
        }
      case Block(stats) => panic := ExecList(fuel, stats);
    }

    /** StatList.Exec: before each statement the flags are looked at. */
    method ExecList(ghost fuel: nat, ss: Stats) returns (panic: bool)
      requires ctrl.Clear() && !RunAll(w, fuel, ss, Now()).o.Starved?
      modifies this, ctrl
      ensures var r := RunAll(w, fuel, ss, old(Now()));
        panic == r.o.Panicked? && Now() == r.st && (!panic ==> ctrl.Says(r.o))
      decreases fuel, ss, 0
    {
      hide Run;
      var rest := ss;
      ghost var r := RunAll(w, fuel, ss, Now());
      while rest.Cons?
        invariant rest == ss || rest < ss
        invariant if ctrl.Clear() then RunAll(w, fuel, rest, Now()) == r
                  else !r.o.Panicked? && !r.o.Starved? && Now() == r.st && ctrl.Says(r.o)
        decreases rest
      {
        if ctrl.ret || ctrl.brk || ctrl.cont {
          return false;
        }
        panic := Exec(fuel, rest.head);
        if panic {
          return;
        }
        rest := rest.tail;
      }
      panic := false;
    }

    /** ForStat.Exec: return passes, break ends the loop, continue goes on with the next item. */
    method ExecFor(ghost fuel: nat, s: Stat) returns (panic: bool)
      requires s.For? && ctrl.Clear() && !Run(w, fuel, s, Now()).o.Starved?
      modifies this, ctrl
      ensures var r := Run(w, fuel, s, old(Now()));
        panic == r.o.Panicked? && Now() == r.st && (!panic ==> ctrl.Says(r.o))
      decreases fuel, s, 1
    {
      hide Run, Loop, Bind, Opened, Closed;
      ForRule(w, fuel, s, Now());
      ghost var r := Run(w, fuel, s, Now());
      var v;
      v, panic := Eval(s.e);
      if panic {
        return;
      }
      var items := w.slice(v, mem);
      var outer := Get(mem.chain, "for");
      var ran := false;
      for i := 0 to |items|
        invariant ran == (i > 0) && ctrl.Clear() && !panic
        invariant r == if items == [] then Run(w, fuel, s.orElse, Now())
          else Loop(w, fuel, s.name, s.body, items, i, outer, Now())
      {
        ran := true;
        LoopRule(w, fuel, s.name, s.body, items, i, outer, Now());
        mem := Bind(Bind(Opened(mem), s.name, items[i]), "for", LoopStatus(outer, i, |items|));
        panic := Exec(fuel, s.body);
        mem := Closed(mem);
        if panic || ctrl.ret {
          return;
        }
        if ctrl.brk {
          ctrl.brk := false;
          break;
        }
        if ctrl.cont {
          ctrl.cont := false;
        }
      }
      if !ran {
        panic := Exec(fuel, s.orElse);
      } else if |items| > 0 && ctrl.Clear() {
        LoopRule(w, fuel, s.name, s.body, items, |items|, outer, Now());
      }
    }

    method EvalArgs(args: seq<Expr>) returns (vs: seq<Value>, panic: bool)
      modifies this`mem
      ensures var all := EvalAll(w, args, old(mem));
        mem == all.mem && panic == all.vs.None? && (!panic ==> vs == all.vs.value)
    {
      vs, panic := [], false;
      ghost var all := EvalAll(w, args, mem);
      for i := 0 to |args|
        invariant var rest := EvalAll(w, args[i..], mem);
          && all.vs.None? == rest.vs.None? && all.mem == rest.mem
          && (rest.vs.Some? ==> all.vs.value == vs + rest.vs.value) && !panic
      {
        assert args[i..][0] == args[i] && args[i..][1..] == args[i + 1..];
        var v;
        v, panic := Eval(args[i]);
        if panic {
          return;
        }
        vs := vs + [v];
      }
      assert args[|args|..] == [];
    }

    /** CallStat.Exec and callDefine: all jumps of the body end with it. */
    method ExecCall(ghost fuel: nat, s: Stat) returns (panic: bool)
      requires s.Call? && ctrl.Clear() && !Run(w, fuel, s, Now()).o.Starved?
      modifies this, ctrl
      ensures var r := Run(w, fuel, s, old(Now()));
        panic == r.o.Panicked? && Now() == r.st && (!panic ==> ctrl.Says(r.o))
      decreases fuel, s, 1
    {
      hide EvalAll, BindAll;
      if s.name !in fns {
        return !s.nullSafe;
      }
      var fn := fns[s.name];
      if |s.args| != |fn.params| {
        return true;
      }
      var vs;
      vs, panic := EvalArgs(s.args);
      if panic {
        return;
      }
      mem := BindAll(Opened(mem), fn.params, vs);
      panic := Exec(fuel - 1, fn.body);
      mem := Closed(mem);
      if !panic {
        ctrl.Reset();
      }
    }

    /** IncludeStat.Exec: the sub-template runs in a scope of its own and lets its jumps through. */
    method ExecInclude(ghost fuel: nat, s: Stat) returns (panic: bool)
      requires s.Include? && ctrl.Clear() && !Run(w, fuel, s, Now()).o.Starved?
      modifies this, ctrl
      ensures var r := Run(w, fuel, s, old(Now()));
        panic == r.o.Panicked? && Now() == r.st && (!panic ==> ctrl.Says(r.o))
      decreases fuel, s, 1
    {
      var child: map<string, Value> := map[];
      ghost var all := Assign(w, s.assigns, child, mem);
      for i := 0 to |s.assigns|
        invariant ctrl.Clear() && Now() == old(Now()).(mem := mem)
        invariant all == Assign(w, s.assigns[i..], child, mem)
      {
        assert s.assigns[i..][0] == s.assigns[i] && s.assigns[i..][1..] == s.assigns[i + 1..];
        var v;
        v, panic := Eval(s.assigns[i].1);
        if panic {
          return;
        }
        child := child[s.assigns[i].0 := v];
      }
      assert s.assigns[|s.assigns|..] == [];
      mem := mem.(chain := [child] + mem.chain);
      panic := Exec(fuel, s.sub);
      mem := Closed(mem);
    }

    /** SwitchStat.Exec: execIfMatch on every case in turn, although it already tries all later ones. */
    method ExecSwitch(ghost fuel: nat, v: Value, cs: Cases) returns (panic: bool)
      requires ctrl.Clear() && !Choose(w, fuel, v, cs, Now()).o.Starved?
      modifies this, ctrl
      ensures var r := Choose(w, fuel, v, cs, old(Now()));
        panic == r.o.Panicked? && Now() == r.st && (!panic ==> ctrl.Says(r.o))
      decreases fuel, cs, 2
    {
      var c := cs;
      while c.Case?
        invariant c == cs || c < cs
        invariant ctrl.Clear() && Choose(w, fuel, v, c, Now()) == Choose(w, fuel, v, cs, old(Now()))
        decreases c
      {
        var hit;
        hit, panic := ExecIfMatch(fuel, v, c);
        if hit || panic {
          return;
        }
        c := c.next;
      }
      panic := Exec(fuel, c.body);
    }

    method ExecIfMatch(ghost fuel: nat, v: Value, c: Cases) returns (hit: bool, panic: bool)
      requires ctrl.Clear()
      requires var t := IfMatch(w, fuel, v, c, Now()); t.Ran? ==> !t.r.o.Starved?
      modifies this, ctrl
      ensures match IfMatch(w, fuel, v, c, old(Now()))
              case Unmatched(m) => !hit && !panic && Now() == old(Now()).(mem := m) && ctrl.Clear()
              case Ran(r) => (hit || panic) && panic == r.o.Panicked? && Now() == r.st && (!panic ==> ctrl.Says(r.o))
      decreases fuel, c, 1
    {
      hit, panic := false, false;
      match c
      case Default(_) =>
      case Case(es, body, next) =>
        ghost var all := TryCase(w, v, es, mem);
        for i := 0 to |es|
          invariant ctrl.Clear() && Now() == old(Now()).(mem := mem) && all == TryCase(w, v, es[i..], mem)
        {
          assert es[i..][0] == es[i] && es[i..][1..] == es[i + 1..];
          var x;
          x, panic := Eval(es[i]);
          if panic {
            return;
          }
          if w.equal(v, x, mem) {
            panic := Exec(fuel, body);
            return true, panic;
          }
        }
        assert es[|es|..] == [];
        hit, panic := ExecIfMatch(fuel, v, next);
    }
  }
}

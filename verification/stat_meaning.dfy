/** What statements write, told from positions and values: which arm of a conditional runs, which items a
    loop writes, which argument a parameter reads, which scope an assignment changes, which case decides. */
module StatMeaning {
  import opened StatSpec
  import opened StatLaws

  // ---- evaluation that changes nothing ----

  predicate Reads(w: World, e: Expr, m: Memory) {
    w.eval(e, m).Done? && w.eval(e, m).mem == m
  }

  function Val(w: World, e: Expr, m: Memory): Value
    requires Reads(w, e, m)
  {
    w.eval(e, m).v
  }

  // ---- conditionals ----

  datatype Arm = Arm(cond: Expr, body: Stat)

  /** #if, any number of #elseif, and #else. */
  function Chain(arms: seq<Arm>, orElse: Stat): Stat {
    if arms == [] then orElse else If(arms[0].cond, arms[0].body, Chain(arms[1..], orElse))
  }

  predicate Holds(w: World, arm: Arm, m: Memory) {
    Reads(w, arm.cond, m) && w.truthy(Val(w, arm.cond, m))
  }

  /** The body of the first arm whose condition is truthy runs, and #else when none is. */
  lemma {:induction false} ChainRuns(w: World, fuel: nat, arms: seq<Arm>, orElse: Stat, st: State)
    requires forall i | 0 <= i < |arms| :: Reads(w, arms[i].cond, st.mem)
    ensures forall i | 0 <= i < |arms| ::
      Holds(w, arms[i], st.mem) && (forall j | 0 <= j < i :: !Holds(w, arms[j], st.mem)) ==>
        Run(w, fuel, Chain(arms, orElse), st) == Run(w, fuel, arms[i].body, st)
    ensures (forall i | 0 <= i < |arms| :: !Holds(w, arms[i], st.mem)) ==>
      Run(w, fuel, Chain(arms, orElse), st) == Run(w, fuel, orElse, st)
    decreases |arms|
  {
    if arms != [] {
      var rest := arms[1..];
      ChainRuns(w, fuel, rest, orElse, st);
      IfRuns(w, fuel, arms[0].cond, arms[0].body, Chain(rest, orElse), st);
      hide Run;
      assert forall i | 0 <= i < |rest| :: rest[i] == arms[i + 1];
      forall i | 0 <= i < |arms| && Holds(w, arms[i], st.mem) && forall j | 0 <= j < i :: !Holds(w, arms[j], st.mem)
        ensures Run(w, fuel, Chain(arms, orElse), st) == Run(w, fuel, arms[i].body, st)
      {
        if i > 0 {
          assert rest[i - 1] == arms[i];
        }
      }
    }
  }

  lemma IfRuns(w: World, fuel: nat, cond: Expr, body: Stat, rest: Stat, st: State)
    requires Reads(w, cond, st.mem)
    ensures Run(w, fuel, If(cond, body, rest), st) ==
      Run(w, fuel, if Holds(w, Arm(cond, body), st.mem) then body else rest, st)
  {
    assert st.(mem := st.mem) == st;
  }

  /** #if(c)a#else b#end writes a when c is truthy, and b when it is not. */
  lemma TwoTexts(w: World, fuel: nat, c: Expr, a: string, b: string, st: State)
    requires Reads(w, c, st.mem)
    ensures Run(w, fuel, If(c, Text(a), Text(b)), st) ==
      Result(Normal, st.(out := st.out + if w.truthy(Val(w, c, st.mem)) then a else b))
  {
    IfRuns(w, fuel, c, Text(a), Text(b), st);
  }

  // ---- loops ----

  /** Expression x tells what it finds in the innermost scope. */
  ghost predicate Tells(w: World, x: Expr, read: map<string, Value> -> Value, text: Value -> string) {
    && (forall m: Memory :: m.chain != [] ==> w.eval(x, m) == StatSpec.Done(read(m.chain[0]), m))
    && (forall v: Value, m: Memory :: w.show(v, m) == text(v))
  }

  /** What is written of a value: nothing of a nil. */
  function Shown(text: Value -> string, v: Value): string {
    if v.Nil? then "" else text(v)
  }

  /** The scope of turn i: the variable, and the state of the loop, which wins over a variable of its name. */
  function Turn(name: string, items: seq<Value>, i: nat, outer: Value): map<string, Value>
    requires i < |items|
  {
    map[name := items[i]]["for" := LoopStatus(outer, i, |items|)]
  }

  /** What x tells in turns i, i + 1, ... */
  function Told(read: map<string, Value> -> Value, text: Value -> string, name: string, items: seq<Value>, i: nat,
      outer: Value): string
    requires i <= |items|
    decreases |items| - i
  {
    if i == |items| then ""
    else Shown(text, read(Turn(name, items, i, outer))) + Told(read, text, name, items, i + 1, outer)
  }

  /** What x tells, then the jump, if any, in front of a text. */
  function Telling(x: Expr, jump: Option<Stat>, after: string): Stat {
    if jump.None? then Output(x) else Block(Cons(Output(x), Cons(jump.value, Cons(Text(after), Empty))))
  }

  lemma TellingEnds(w: World, fuel: nat, x: Expr, jump: Option<Stat>, after: string, st: State,
      read: map<string, Value> -> Value, text: Value -> string)
    requires Tells(w, x, read, text) && st.mem.chain != [] && (jump.Some? ==> jump.value.Break? || jump.value.Continue?)
    ensures Run(w, fuel, Telling(x, jump, after), st) ==
      Result(if jump.None? then Normal else if jump.value.Break? then Broke else Continued,
             st.(out := st.out + Shown(text, read(st.mem.chain[0]))))
  {
    OutputTells(w, fuel, x, st, read, text);
    if jump.Some? {
      var st1 := st.(out := st.out + Shown(text, read(st.mem.chain[0])));
      ListOf(w, fuel, Output(x), Cons(jump.value, Cons(Text(after), Empty)), st);
      ListOf(w, fuel, jump.value, Cons(Text(after), Empty), st1);
      hide RunAll, Tells;
    }
  }

  lemma {:induction false} LoopTells(w: World, fuel: nat, name: string, x: Expr, jump: Option<Stat>, after: string,
      items: seq<Value>, i: nat, outer: Value, st: State, read: map<string, Value> -> Value, text: Value -> string)
    requires i <= |items| && Tells(w, x, read, text) && (jump.Some? ==> jump.value.Continue?)
    ensures Loop(w, fuel, name, Telling(x, jump, after), items, i, outer, st) ==
      Result(Normal, st.(out := st.out + Told(read, text, name, items, i, outer)))
    decreases |items| - i
  {
    hide *;
    ToldStep(read, text, name, items, i, outer);
    LoopStep(w, fuel, name, Telling(x, jump, after), items, i, outer, st);
    if i == |items| {
      assert st.out + "" == st.out;
    } else {
      var m := st.mem.(chain := [Turn(name, items, i, outer)] + st.mem.chain);
      TurnScope(st.mem, name, items, i, outer);
      var one := Shown(text, read(Turn(name, items, i, outer)));
      TellingEnds(w, fuel, x, jump, after, st.(mem := m), read, text);
      var st1 := st.(out := st.out + one);
      Left(Normal, st1, m, st.mem);
      Left(Continued, st1, m, st.mem);
      LoopTells(w, fuel, name, x, jump, after, items, i + 1, outer, st1, read, text);
      var more := Told(read, text, name, items, i + 1, outer);
      assert st.out + one + more == st.out + (one + more);
    }
  }

  lemma ToldStep(read: map<string, Value> -> Value, text: Value -> string, name: string, items: seq<Value>, i: nat,
      outer: Value)
    requires i <= |items|
    ensures Told(read, text, name, items, i, outer) ==
      if i == |items| then ""
      else Shown(text, read(Turn(name, items, i, outer))) + Told(read, text, name, items, i + 1, outer)
  {
  }

  lemma LoopStep(w: World, fuel: nat, name: string, body: Stat, items: seq<Value>, i: nat, outer: Value, st: State)
    requires i <= |items|
    ensures i == |items| ==> Loop(w, fuel, name, body, items, i, outer, st) == Result(Normal, st)
    ensures i < |items| ==>
      var m := Bind(Bind(Opened(st.mem), name, items[i]), "for", LoopStatus(outer, i, |items|));
      var r := Leave(Run(w, fuel, body, st.(mem := m)));
      && (r.o.Normal? || r.o.Continued? ==>
           Loop(w, fuel, name, body, items, i, outer, st) == Loop(w, fuel, name, body, items, i + 1, outer, r.st))
      && (r.o.Broke? ==> Loop(w, fuel, name, body, items, i, outer, st) == Result(Normal, r.st))
  {
    hide Run, Bind, Opened;
  }

  /** A scope is closed again. */
  lemma Left(o: Outcome, st: State, m: Memory, before: Memory)
    requires m.chain != [] && m.chain[1..] == before.chain && m.objects == before.objects
    ensures Leave(Result(o, st.(mem := m))) == Result(o, st.(mem := before))
  {
  }

  lemma TurnScope(m: Memory, name: string, items: seq<Value>, i: nat, outer: Value)
    requires i < |items|
    ensures Bind(Bind(Opened(m), name, items[i]), "for", LoopStatus(outer, i, |items|)) ==
      m.(chain := [Turn(name, items, i, outer)] + m.chain)
  {
    assert ([map[]] + m.chain)[1..] == m.chain;
    assert ([map[name := items[i]]] + m.chain)[1..] == m.chain;
  }

  lemma OutputTells(w: World, fuel: nat, x: Expr, st: State, read: map<string, Value> -> Value, text: Value -> string)
    requires Tells(w, x, read, text) && st.mem.chain != []
    ensures Run(w, fuel, Output(x), st) == Result(Normal, st.(out := st.out + Shown(text, read(st.mem.chain[0]))))
  {
    assert st.(mem := st.mem) == st && st.out + "" == st.out;
  }

  /** A #for whose body writes what it finds in its scope writes that for every item, in order, each with
      the variable and the state of its turn; nothing after a #continue is written, and after a #break only
      the first turn was. The scopes outside are left as they were; the #else is for an empty collection. */
  lemma ForTells(w: World, fuel: nat, name: string, e: Expr, x: Expr, jump: Option<Stat>, after: string, orElse: Stat,
      st: State, read: map<string, Value> -> Value, text: Value -> string)
    requires Tells(w, x, read, text) && Reads(w, e, st.mem)
    requires jump.Some? ==> jump.value.Break? || jump.value.Continue?
    ensures var items, outer := w.slice(Val(w, e, st.mem), st.mem), Get(st.mem.chain, "for");
      Run(w, fuel, For(name, e, Telling(x, jump, after), orElse), st) ==
        if items == [] then Run(w, fuel, orElse, st)
        else if jump.Some? && jump.value.Break? then
          Result(Normal, st.(out := st.out + Shown(text, read(Turn(name, items, 0, outer)))))
        else Result(Normal, st.(out := st.out + Told(read, text, name, items, 0, outer)))
  {
    var items, outer := w.slice(Val(w, e, st.mem), st.mem), Get(st.mem.chain, "for");
    assert st.(mem := st.mem) == st;
    ForStep(w, fuel, name, e, Telling(x, jump, after), orElse, st);
    hide *;
    if items != [] && jump.Some? && jump.value.Break? {
      var m := st.mem.(chain := [Turn(name, items, 0, outer)] + st.mem.chain);
      TurnScope(st.mem, name, items, 0, outer);
      LoopStep(w, fuel, name, Telling(x, jump, after), items, 0, outer, st);
      TellingEnds(w, fuel, x, jump, after, st.(mem := m), read, text);
      Left(Broke, st.(out := st.out + Shown(text, read(Turn(name, items, 0, outer)))), m, st.mem);
    } else if items != [] {
      LoopTells(w, fuel, name, x, jump, after, items, 0, outer, st, read, text);
    }
  }

  lemma ForStep(w: World, fuel: nat, name: string, e: Expr, body: Stat, orElse: Stat, st: State)
    requires Reads(w, e, st.mem)
    ensures var items := w.slice(Val(w, e, st.mem), st.mem);
      Run(w, fuel, For(name, e, body, orElse), st) ==
        if items == [] then Run(w, fuel, orElse, st)
          else Loop(w, fuel, name, body, items, 0, Get(st.mem.chain, "for"), st)
  {
    assert st.(mem := st.mem) == st;
    hide Loop;
  }

  // ---- variables ----

  /** A variable is that of the first scope that has it, and nil if none has. */
  lemma {:induction false} GetIs(chain: seq<map<string, Value>>, name: string)
    ensures forall i | 0 <= i < |chain| && name in chain[i] && (forall j | 0 <= j < i :: name !in chain[j]) ::
      Get(chain, name) == chain[i][name]
    ensures (forall i | 0 <= i < |chain| :: name !in chain[i]) ==> Get(chain, name) == Nil
    decreases |chain|
  {
    if chain != [] {
      GetIs(chain[1..], name);
      assert forall i | 0 <= i < |chain[1..]| :: chain[1..][i] == chain[i + 1];
      forall i | 0 <= i < |chain| && name in chain[i] && forall j | 0 <= j < i :: name !in chain[j]
        ensures Get(chain, name) == chain[i][name]
      {
        if i > 0 { assert chain[1..][i - 1] == chain[i]; }
      }
    }
  }

  /** The scope that an assignment changes: the innermost, the outermost, or the first that has the
      variable and else the outermost. */
  predicate Target(chain: seq<map<string, Value>>, level: Level, name: string, k: nat) {
    && k < |chain|
    && match level
       case Local => k == 0
       case Global => k == |chain| - 1
       case Anywhere => (name in chain[k] || k == |chain| - 1) && forall j | 0 <= j < k :: name !in chain[j]
  }

  /** One variable of one scope changes, and nothing else. */
  lemma {:induction false} StoreIs(chain: seq<map<string, Value>>, level: Level, name: string, v: Value)
      returns (k: nat)
    requires chain != []
    ensures Target(chain, level, name, k) && Store(chain, level, name, v) == chain[k := chain[k][name := v]]
    decreases |chain|
  {
    match level
    case Local => k := 0;
    case Global => k := |chain| - 1;
    case Anywhere =>
      if name in chain[0] || |chain| == 1 {
        k := 0;
      } else {
        var rest := chain[1..];
        var i := StoreIs(rest, Anywhere, name, v);
        k := i + 1;
        assert chain == [chain[0]] + rest;
        assert forall j | 0 < j <= k :: chain[j] == rest[j - 1];
      }
  }

  /** #set and its kin change what Store changes, and write nothing. */
  lemma SetIs(w: World, fuel: nat, level: Level, name: string, e: Expr, st: State) returns (k: nat)
    requires Reads(w, e, st.mem) && st.mem.chain != []
    ensures Target(st.mem.chain, level, name, k)
    ensures Run(w, fuel, Set(level, name, e), st) ==
      Result(Normal, st.(mem := st.mem.(chain := st.mem.chain[k := st.mem.chain[k][name := Val(w, e, st.mem)]])))
  {
    k := StoreIs(st.mem.chain, level, name, Val(w, e, st.mem));
  }

  // ---- calls ----

  /** The states of memory between the arguments, and their values: from left to right, each after the
      one before. */
  ghost predicate EvalWalk(w: World, es: seq<Expr>, m: Memory, ms: seq<Memory>, vs: seq<Value>) {
    && |vs| == |es| && |ms| == |es| + 1 && ms[0] == m
    && forall i | 0 <= i < |es| :: w.eval(es[i], ms[i]) == StatSpec.Done(vs[i], ms[i + 1])
  }

  lemma {:induction false} EvalAllWalks(w: World, es: seq<Expr>, m: Memory) returns (ms: seq<Memory>)
    requires EvalAll(w, es, m).vs.Some?
    ensures EvalWalk(w, es, m, ms, EvalAll(w, es, m).vs.value) && ms[|es|] == EvalAll(w, es, m).mem
    decreases |es|
  {
    ms := [m];
    if es != [] {
      var v := w.eval(es[0], m);
      var rest := EvalAllWalks(w, es[1..], v.mem);
      ms := [m] + rest;
      WalkStep(w, es, m, v.v, rest, EvalAll(w, es[1..], v.mem).vs.value);
    }
  }

  /** In the scope the i-th name has the i-th value; of equal names the last counts. */
  predicate Named(names: seq<string>, vs: seq<Value>, scope: map<string, Value>)
    requires |names| == |vs|
  {
    forall i | 0 <= i < |names| && names[i] !in names[i + 1..] :: names[i] in scope && scope[names[i]] == vs[i]
  }

  /** The names were set to the values in a scope that was `before`. */
  predicate Filled(names: seq<string>, vs: seq<Value>, before: map<string, Value>, scope: map<string, Value>)
    requires |names| == |vs|
  {
    && Named(names, vs, scope)
    && (forall n | n in before && !Among(n, names) :: n in scope && scope[n] == before[n])
    && forall n | n in scope :: Among(n, names) || n in before
  }

  predicate Among(n: string, names: seq<string>) {
    n in names
  }

  lemma AmongStep(n: string, names: seq<string>)
    requires names != []
    ensures Among(n, names) <==> n == names[0] || Among(n, names[1..])
  {
    assert names == [names[0]] + names[1..];
  }

  lemma NothingFilled(before: map<string, Value>)
    ensures Filled([], [], before, before)
  {
  }

  lemma NamedStep(names: seq<string>, vs: seq<Value>, scope: map<string, Value>)
    requires |names| == |vs| > 0 && Named(names[1..], vs[1..], scope)
    requires !Among(names[0], names[1..]) ==> names[0] in scope && scope[names[0]] == vs[0]
    ensures Named(names, vs, scope)
  {
    forall i | 0 <= i < |names| && names[i] !in names[i + 1..]
      ensures names[i] in scope && scope[names[i]] == vs[i]
    {
      if i > 0 {
        assert names[1..][i - 1] == names[i] && vs[1..][i - 1] == vs[i];
        assert names[1..][i - 1 + 1..] == names[i + 1..];
      }
    }
  }

  lemma FilledStep(names: seq<string>, vs: seq<Value>, before: map<string, Value>, scope: map<string, Value>)
    requires |names| == |vs| > 0 && Filled(names[1..], vs[1..], before[names[0] := vs[0]], scope)
    ensures Filled(names, vs, before, scope)
  {
    hide Named, Among;
    NamedStep(names, vs, scope);
    forall n ensures Among(n, names) <==> n == names[0] || Among(n, names[1..]) {
      AmongStep(n, names);
    }
  }

  /** In the scope opened for a call the i-th parameter is the i-th argument; of parameters with one name
      the last counts. Nothing else is in it, and the scopes outside are those of the caller. */
  predicate Params(m: Memory, params: seq<string>, vs: seq<Value>, r: Memory)
    requires |params| == |vs|
  {
    && r.objects == m.objects && |r.chain| == |m.chain| + 1 && r.chain[1..] == m.chain
    && Filled(params, vs, map[], r.chain[0])
  }

  lemma ParamsAre(m: Memory, params: seq<string>, vs: seq<Value>)
    requires |params| == |vs|
    ensures Params(m, params, vs, BindAll(Opened(m), params, vs))
  {
    BindAllIs(m, map[], params, vs);
  }

  lemma {:induction false} BindAllIs(m: Memory, scope: map<string, Value>, params: seq<string>, vs: seq<Value>)
    requires |params| == |vs|
    ensures var r := BindAll(m.(chain := [scope] + m.chain), params, vs);
      && r.objects == m.objects && |r.chain| == |m.chain| + 1 && r.chain[1..] == m.chain
      && Filled(params, vs, scope, r.chain[0])
    decreases |params|
  {
    hide Filled;
    var m0 := m.(chain := [scope] + m.chain);
    assert m0.chain[1..] == m.chain;
    if params == [] {
      NothingFilled(scope);
      assert vs == [];
    } else {
      var scope1 := scope[params[0] := vs[0]];
      assert Bind(m0, params[0], vs[0]) == m.(chain := [scope1] + m.chain);
      BindAllIs(m, scope1, params[1..], vs[1..]);
      FilledStep(params, vs, scope, BindAll(m.(chain := [scope1] + m.chain), params[1..], vs[1..]).chain[0]);
    }
  }

  /** A call of a defined function whose body writes what it finds in its scope writes that of the
      parameters bound to the arguments, and leaves the scopes of the caller as they were. */
  lemma CallTells(w: World, fuel: nat, name: string, nullSafe: bool, args: seq<Expr>, x: Expr, st: State,
      read: map<string, Value> -> Value, text: Value -> string) returns (m: Memory)
    requires Tells(w, x, read, text) && fuel > 0
    requires name in st.fns && st.fns[name].body == Output(x) && |st.fns[name].params| == |args|
    requires EvalAll(w, args, st.mem).vs.Some?
    ensures var vs := EvalAll(w, args, st.mem);
      && |vs.vs.value| == |args| && Params(vs.mem, st.fns[name].params, vs.vs.value, m)
      && Run(w, fuel, Call(name, nullSafe, args), st) ==
           Result(Normal, st.(mem := vs.mem, out := st.out + Shown(text, read(m.chain[0]))))
  {
    hide *;
    var vs, params := EvalAll(w, args, st.mem), st.fns[name].params;
    var ms := EvalAllWalks(w, args, st.mem);
    WalkLength(w, args, st.mem, ms, vs.vs.value);
    ParamsAre(vs.mem, params, vs.vs.value);
    m := BindAll(Opened(vs.mem), params, vs.vs.value);
    ParamsScope(vs.mem, params, vs.vs.value, m);
    OutputTells(w, fuel - 1, x, st.(mem := m), read, text);
    CallStep(w, fuel, name, nullSafe, args, st);
    Left(Normal, st.(out := st.out + Shown(text, read(m.chain[0]))), m, vs.mem);
  }

  lemma WalkLength(w: World, es: seq<Expr>, m: Memory, ms: seq<Memory>, vs: seq<Value>)
    requires EvalWalk(w, es, m, ms, vs)
    ensures |vs| == |es|
  {
  }

  lemma ParamsScope(m: Memory, params: seq<string>, vs: seq<Value>, r: Memory)
    requires |params| == |vs| && Params(m, params, vs, r)
    ensures r.chain != [] && r.chain[1..] == m.chain && r.objects == m.objects
  {
  }

  lemma CallStep(w: World, fuel: nat, name: string, nullSafe: bool, args: seq<Expr>, st: State)
    requires fuel > 0 && name in st.fns && |st.fns[name].params| == |args| && EvalAll(w, args, st.mem).vs.Some?
    ensures var vs := EvalAll(w, args, st.mem);
      var m := BindAll(Opened(vs.mem), st.fns[name].params, vs.vs.value);
      var r := Leave(Run(w, fuel - 1, st.fns[name].body, st.(mem := m)));
      r.o.Normal? ==> Run(w, fuel, Call(name, nullSafe, args), st) == r
  {
    hide BindAll, EvalAll;
  }

  /** A function is known from its definition on, under its last one; a call of an unknown one panics
      unless it is null-safe, and a call with the wrong number of arguments always panics. */
  lemma CallsKnow(w: World, fuel: nat, name: string, params: seq<string>, body: Stat, nullSafe: bool, args: seq<Expr>,
      other: string, st: State)
    ensures var r := Run(w, fuel, Define(name, params, body), st);
      && r.o == Normal && r.st == st.(fns := r.st.fns) && name in r.st.fns && r.st.fns[name] == Fn(params, body)
      && (other != name ==> (other in r.st.fns <==> other in st.fns))
      && (other != name && other in st.fns ==> r.st.fns[other] == st.fns[other])
    ensures name !in st.fns ==>
      Run(w, fuel, Call(name, nullSafe, args), st) == Result(if nullSafe then Normal else Panicked, st)
    ensures name in st.fns && |st.fns[name].params| != |args| ==>
      Run(w, fuel, Call(name, nullSafe, args), st) == Result(Panicked, st)
  {
  }

  // ---- includes ----

  function Names(assigns: seq<(string, Expr)>): (names: seq<string>)
    ensures |names| == |assigns| && forall i | 0 <= i < |assigns| :: names[i] == assigns[i].0
  {
    seq(|assigns|, i requires 0 <= i < |assigns| => assigns[i].0)
  }

  function Exprs(assigns: seq<(string, Expr)>): (es: seq<Expr>)
    ensures |es| == |assigns| && forall i | 0 <= i < |assigns| :: es[i] == assigns[i].1
  {
    seq(|assigns|, i requires 0 <= i < |assigns| => assigns[i].1)
  }

  lemma WalkStep(w: World, es: seq<Expr>, m: Memory, v: Value, ms: seq<Memory>, vs: seq<Value>)
    requires es != [] && ms != [] && w.eval(es[0], m) == StatSpec.Done(v, ms[0]) && EvalWalk(w, es[1..], ms[0], ms, vs)
    ensures EvalWalk(w, es, m, [m] + ms, [v] + vs)
  {
    var all, ws := [m] + ms, [v] + vs;
    forall i | 0 <= i < |es| ensures w.eval(es[i], all[i]) == StatSpec.Done(ws[i], all[i + 1]) {
      if i > 0 { assert es[i] == es[1..][i - 1]; }
    }
  }

  lemma {:induction false} AssignWalks(w: World, assigns: seq<(string, Expr)>, inner: map<string, Value>, m: Memory)
      returns (ms: seq<Memory>, vs: seq<Value>)
    requires Assign(w, assigns, inner, m).0
    ensures var r := Assign(w, assigns, inner, m);
      && |vs| == |assigns| && |ms| == |assigns| + 1 && EvalWalk(w, Exprs(assigns), m, ms, vs) && ms[|assigns|] == r.2
      && Filled(Names(assigns), vs, inner, r.1)
    decreases |assigns|
  {
    hide EvalWalk, Filled;
    if assigns == [] {
      ms, vs := [m], [];
      NothingEvaluated(w, m);
      NothingFilled(inner);
      assert Names(assigns) == [];
    } else {
      var a, rest := assigns[0], assigns[1..];
      var v := w.eval(a.1, m);
      var ms1, vs1 := AssignWalks(w, rest, inner[a.0 := v.v], v.mem);
      ms, vs := [m] + ms1, [v.v] + vs1;
      FirstMemory(w, Exprs(rest), v.mem, ms1, vs1);
      assert Exprs(assigns)[1..] == Exprs(rest) && Names(assigns)[1..] == Names(rest) && vs[1..] == vs1;
      WalkStep(w, Exprs(assigns), m, v.v, ms1, vs1);
      FilledStep(Names(assigns), vs, inner, Assign(w, rest, inner[a.0 := v.v], v.mem).1);
    }
  }

  lemma FirstMemory(w: World, es: seq<Expr>, m: Memory, ms: seq<Memory>, vs: seq<Value>)
    requires EvalWalk(w, es, m, ms, vs)
    ensures ms != [] && ms[0] == m
  {
  }

  lemma NothingEvaluated(w: World, m: Memory)
    ensures EvalWalk(w, Exprs([]), m, [m], [])
  {
  }

  /** An included template whose body writes what it finds in its scope writes that of the assigned
      parameters alone, and leaves the scopes of its caller as they were. */
  lemma IncludeTells(w: World, fuel: nat, assigns: seq<(string, Expr)>, x: Expr, st: State,
      read: map<string, Value> -> Value, text: Value -> string)
      returns (scope: map<string, Value>, ms: seq<Memory>, vs: seq<Value>)
    requires Tells(w, x, read, text) && Assign(w, assigns, map[], st.mem).0
    ensures |vs| == |assigns| && |ms| == |assigns| + 1 && EvalWalk(w, Exprs(assigns), st.mem, ms, vs)
    ensures Filled(Names(assigns), vs, map[], scope)
    ensures Run(w, fuel, Include(assigns, Output(x)), st) ==
      Result(Normal, st.(mem := ms[|assigns|], out := st.out + Shown(text, read(scope))))
  {
    ms, vs := AssignWalks(w, assigns, map[], st.mem);
    var r := Assign(w, assigns, map[], st.mem);
    scope := r.1;
    var m := r.2.(chain := [scope] + r.2.chain);
    hide EvalWalk, Assign;
    IncludeStep(w, fuel, assigns, Output(x), st);
    hide *;
    OutputTells(w, fuel, x, st.(mem := m), read, text);
    Left(Normal, st.(out := st.out + Shown(text, read(scope))), m, r.2);
  }

  lemma IncludeStep(w: World, fuel: nat, assigns: seq<(string, Expr)>, sub: Stat, st: State)
    requires Assign(w, assigns, map[], st.mem).0
    ensures var r := Assign(w, assigns, map[], st.mem);
      Run(w, fuel, Include(assigns, sub), st) ==
        Leave(Run(w, fuel, sub, st.(mem := r.2.(chain := [r.1] + r.2.chain))))
  {
    hide Assign;
  }

  // ---- #switch ----

  datatype CaseArm = CaseArm(values: seq<Expr>, body: Stat)

  function AsCases(arms: seq<CaseArm>, orElse: Stat): Cases {
    if arms == [] then Default(orElse) else Case(arms[0].values, arms[0].body, AsCases(arms[1..], orElse))
  }

  /** Evaluating e changes nothing, in any memory. */
  ghost predicate Still(w: World, e: Expr) {
    forall m: Memory :: Reads(w, e, m)
  }

  /** One of the values of the arm equals v. */
  ghost predicate Suits(w: World, v: Value, arm: CaseArm, m: Memory) {
    exists e :: e in arm.values && Reads(w, e, m) && w.equal(v, Val(w, e, m), m)
  }

  lemma {:induction false} TryIs(w: World, v: Value, arm: CaseArm, m: Memory)
    requires forall e | e in arm.values :: Still(w, e)
    ensures TryCase(w, v, arm.values, m) == (if Suits(w, v, arm, m) then Hit else Miss, m)
    decreases |arm.values|
  {
    if arm.values != [] {
      var e, rest := arm.values[0], arm.(values := arm.values[1..]);
      assert arm.values == [e] + rest.values;
      assert Still(w, e) && Reads(w, e, m);
      TryIs(w, v, rest, m);
      assert Suits(w, v, arm, m) <==> w.equal(v, Val(w, e, m), m) || Suits(w, v, rest, m);
    }
  }

  lemma {:induction false} OnceIs(w: World, fuel: nat, v: Value, arms: seq<CaseArm>, orElse: Stat, st: State)
    requires forall i, e | 0 <= i < |arms| && e in arms[i].values :: Still(w, e)
    ensures Pure(w, AsCases(arms, orElse))
    ensures forall i | 0 <= i < |arms| && Suits(w, v, arms[i], st.mem)
        && (forall j | 0 <= j < i :: !Suits(w, v, arms[j], st.mem)) ::
      ChooseOnce(w, fuel, v, AsCases(arms, orElse), st) == Run(w, fuel, arms[i].body, st)
    ensures (forall i | 0 <= i < |arms| :: !Suits(w, v, arms[i], st.mem)) ==>
      ChooseOnce(w, fuel, v, AsCases(arms, orElse), st) == Run(w, fuel, orElse, st)
    decreases |arms|
  {
    hide Run, Suits, TryCase, Still;
    if arms != [] {
      var rest := arms[1..];
      assert forall i | 0 <= i < |rest| :: rest[i] == arms[i + 1];
      OnceIs(w, fuel, v, rest, orElse, st);
      TryIs(w, v, arms[0], st.mem);
      StillPure(w, arms[0].values);
      assert st.(mem := st.mem) == st;
      forall i | 0 <= i < |arms| && Suits(w, v, arms[i], st.mem) &&
        forall j | 0 <= j < i :: !Suits(w, v, arms[j], st.mem)
        ensures ChooseOnce(w, fuel, v, AsCases(arms, orElse), st) == Run(w, fuel, arms[i].body, st)
      {
        if i > 0 { assert rest[i - 1] == arms[i]; }
      }
    }
  }

  lemma StillPure(w: World, es: seq<Expr>)
    requires forall e | e in es :: Still(w, e)
    ensures forall e, m: Memory | e in es :: w.eval(e, m).mem == m
  {
    forall e, m: Memory | e in es ensures w.eval(e, m).mem == m {
      assert Still(w, e) && Reads(w, e, m);
    }
  }

  /** When evaluation changes nothing, the body of the first case of which a value equals runs, and the
      default when there is none. */
  lemma SwitchIs(w: World, fuel: nat, e: Expr, arms: seq<CaseArm>, orElse: Stat, st: State)
    requires Reads(w, e, st.mem) && forall i, x | 0 <= i < |arms| && x in arms[i].values :: Still(w, x)
    ensures forall i | 0 <= i < |arms| && Suits(w, Val(w, e, st.mem), arms[i], st.mem)
        && (forall j | 0 <= j < i :: !Suits(w, Val(w, e, st.mem), arms[j], st.mem)) ::
      Run(w, fuel, Switch(e, AsCases(arms, orElse)), st) == Run(w, fuel, arms[i].body, st)
    ensures (forall i | 0 <= i < |arms| :: !Suits(w, Val(w, e, st.mem), arms[i], st.mem)) ==>
      Run(w, fuel, Switch(e, AsCases(arms, orElse)), st) == Run(w, fuel, orElse, st)
  {
    var v, cs := Val(w, e, st.mem), AsCases(arms, orElse);
    assert st.(mem := st.mem) == st;
    assert Run(w, fuel, Switch(e, cs), st) == Choose(w, fuel, v, cs, st);
    hide Run, Choose, ChooseOnce, Suits, Still;
    OnceIs(w, fuel, v, arms, orElse, st);
    PureTail(w, cs);
    SwitchTriesOnce(w, fuel, v, cs, st);
  }

  lemma PureTail(w: World, cs: Cases)
    requires Pure(w, cs)
    ensures cs.Case? ==> Pure(w, cs.next)
  {
  }

  // ---- output and returns ----

  /** A value is written as it is shown, a nil not at all; a return ends the list it stands in and hands
      over its value, a conditional one only if its value is truthy. */
  lemma ReturnEnds(w: World, fuel: nat, e: Expr, after: string, st: State)
    requires Reads(w, e, st.mem)
    ensures var v := Val(w, e, st.mem);
      && Run(w, fuel, Output(e), st) == Result(Normal, if v.Nil? then st else st.(out := st.out + w.show(v, st.mem)))
      && Run(w, fuel, Block(Cons(Return(Some(e)), Cons(Text(after), Empty))), st) ==
        Result(Returned, st.(attachment := v))
      && Run(w, fuel, Block(Cons(Return(None), Cons(Text(after), Empty))), st) == Result(Returned, st)
      && Run(w, fuel, Block(Cons(ReturnIf(Some(e)), Cons(Text(after), Empty))), st) ==
           if w.truthy(v) then Result(Returned, st) else Result(Normal, st.(out := st.out + after))
  {
    assert st.(mem := st.mem) == st;
    var last := Cons(Text(after), Empty);
    ListOf(w, fuel, Text(after), Empty, st);
    ListOf(w, fuel, Return(Some(e)), last, st);
    ListOf(w, fuel, Return(None), last, st);
    ListOf(w, fuel, ReturnIf(Some(e)), last, st);
    hide RunAll;
  }

  lemma ListOf(w: World, fuel: nat, s: Stat, rest: Stats, st: State)
    ensures var r := Run(w, fuel, s, st);
      Run(w, fuel, Block(Cons(s, rest)), st) == if r.o.Normal? then Run(w, fuel, Block(rest), r.st) else r
    ensures Run(w, fuel, Block(Empty), st) == Result(Normal, st)
  {
  }
}

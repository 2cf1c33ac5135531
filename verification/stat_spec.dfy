/** Template statements and what they mean: an outcome, the output, the variables. */
module StatSpec {

  datatype Option<T> = None | Some(value: T)

  datatype Value =
    | Nil
    | Str(s: string)
    | Number(n: int)
    | Object(id: nat)
    | LoopStatus(outer: Value, index: nat, size: nat)

  /** Expressions are known by a number; what they evaluate to is up to the world. */
  type Expr = nat

  datatype Level = Anywhere | Local | Global

  datatype Stat =
    | Null
    | Text(content: string)
    | Output(e: Expr)
    | If(cond: Expr, body: Stat, rest: Stat)
    | For(name: string, e: Expr, body: Stat, orElse: Stat)
    | Set(level: Level, name: string, e: Expr)
    | SetElement(e: Expr)
    | Define(name: string, params: seq<string>, body: Stat)
    | Call(name: string, nullSafe: bool, args: seq<Expr>)
    | Break
    | Continue
    | Return(value: Option<Expr>)
    | ReturnIf(value: Option<Expr>)
    | Include(assigns: seq<(string, Expr)>, sub: Stat)
    | Switch(e: Expr, cases: Cases)
    | Block(stats: Stats)

  datatype Stats = Empty | Cons(head: Stat, tail: Stats)

  /** The cases, and the default or nothing at the end. */
  datatype Cases = Default(body: Stat) | Case(values: seq<Expr>, body: Stat, next: Cases)

  datatype Fn = Fn(params: seq<string>, body: Stat)

  /** One scope after the other, the innermost first, and the containers they refer to. */
  datatype Memory = Memory(chain: seq<map<string, Value>>, objects: map<nat, Value>)

  datatype Evaluated = Done(v: Value, mem: Memory) | Panic(mem: Memory)

  /** Evaluation may change variables and containers, and may panic. */
  datatype World = World(
    eval: (Expr, Memory) -> Evaluated,
    truthy: Value -> bool,
    slice: (Value, Memory) -> seq<Value>,
    show: (Value, Memory) -> string,
    equal: (Value, Value, Memory) -> bool)

  /** Evaluation neither opens nor closes scopes. */
  ghost predicate Scoped(w: World) {
    forall e: Expr, m: Memory :: |w.eval(e, m).mem.chain| == |m.chain|
  }

  datatype State = State(mem: Memory, fns: map<string, Fn>, out: string, attachment: Value)

  datatype Outcome = Normal | Broke | Continued | Returned | Panicked | Starved

  datatype Result = Result(o: Outcome, st: State)

  // ---- scopes (enjoy/scope.go) ----

  function Get(chain: seq<map<string, Value>>, name: string): Value {
    if chain == [] then Nil else if name in chain[0] then chain[0][name] else Get(chain[1..], name)
  }

  /** Rewrites the variable where it is, or makes it at the top level. */
  function SetVar(chain: seq<map<string, Value>>, name: string, v: Value): (r: seq<map<string, Value>>)
    ensures |r| == |chain|
  {
    if chain == [] then chain
    else if name in chain[0] || |chain| == 1 then [chain[0][name := v]] + chain[1..]
    else [chain[0]] + SetVar(chain[1..], name, v)
  }

  function SetLocal(chain: seq<map<string, Value>>, name: string, v: Value): (r: seq<map<string, Value>>)
    ensures |r| == |chain|
  {
    if chain == [] then chain else [chain[0][name := v]] + chain[1..]
  }

  function SetGlobal(chain: seq<map<string, Value>>, name: string, v: Value): (r: seq<map<string, Value>>)
    ensures |r| == |chain|
  {
    if chain == [] then chain else chain[..|chain| - 1] + [chain[|chain| - 1][name := v]]
  }

  function Store(chain: seq<map<string, Value>>, level: Level, name: string, v: Value): (r: seq<map<string, Value>>)
    ensures |r| == |chain|
  {
    match level
    case Anywhere => SetVar(chain, name, v)
    case Local => SetLocal(chain, name, v)
    case Global => SetGlobal(chain, name, v)
  }

  function Opened(m: Memory): Memory {
    m.(chain := [map[]] + m.chain)
  }

  function Closed(m: Memory): Memory {
    if m.chain == [] then m else m.(chain := m.chain[1..])
  }

  function Bind(m: Memory, name: string, v: Value): Memory {
    m.(chain := SetLocal(m.chain, name, v))
  }

  function BindAll(m: Memory, names: seq<string>, vs: seq<Value>): Memory
    decreases |names|
  {
    if names == [] || vs == [] then m
    else BindAll(Bind(m, names[0], vs[0]), names[1..], vs[1..])
  }

  // ---- statements ----

  /** Evaluated one after the other; None when one panics. */
  datatype Values = Values(vs: Option<seq<Value>>, mem: Memory)

  function EvalAll(w: World, es: seq<Expr>, m: Memory): Values {
    if es == [] then Values(Some([]), m)
    else
      match w.eval(es[0], m)
      case Panic(m1) => Values(None, m1)
      case Done(v, m1) =>
        var rest := EvalAll(w, es[1..], m1);
        if rest.vs.None? then rest else Values(Some([v] + rest.vs.value), rest.mem)
  }

  /** The assigned parameters of an #include, evaluated for the caller and kept in a scope of their own;
      false when one panics. */
  function Assign(w: World, assigns: seq<(string, Expr)>, inner: map<string, Value>, m: Memory):
    (bool, map<string, Value>, Memory)
    decreases |assigns|
  {
    if assigns == [] then (true, inner, m)
    else
      match w.eval(assigns[0].1, m)
      case Panic(m1) => (false, inner, m1)
      case Done(v, m1) => Assign(w, assigns[1..], inner[assigns[0].0 := v], m1)
  }

  function Write(st: State, s: string): State {
    st.(out := st.out + s)
  }

  /** No jump, with the scope that was opened closed again. */
  function Leave(r: Result): Result {
    Result(r.o, r.st.(mem := Closed(r.st.mem)))
  }

  function Run(w: World, fuel: nat, s: Stat, st: State): Result
    decreases fuel, s, 0
  {
    match s
    case Null => Result(Normal, st)
    case Text(content) => Result(Normal, Write(st, content))
    case Output(e) =>
      (match w.eval(e, st.mem)
       case Panic(m) => Result(Panicked, st.(mem := m))
       case Done(v, m) =>
         var st1 := st.(mem := m);
         Result(Normal, if v.Nil? then st1 else Write(st1, w.show(v, m))))
    case If(cond, body, rest) =>
      (match w.eval(cond, st.mem)
       case Panic(m) => Result(Panicked, st.(mem := m))
       case Done(v, m) => Run(w, fuel, if w.truthy(v) then body else rest, st.(mem := m)))
    case For(name, e, body, orElse) =>
      (match w.eval(e, st.mem)
       case Panic(m) => Result(Panicked, st.(mem := m))
       case Done(v, m) =>
         var items := w.slice(v, m);
         if items == [] then Run(w, fuel, orElse, st.(mem := m))
         else Loop(w, fuel, name, body, items, 0, Get(m.chain, "for"), st.(mem := m)))
    case Set(level, name, e) =>
      (match w.eval(e, st.mem)
       case Panic(m) => Result(Panicked, st.(mem := m))
       case Done(v, m) => Result(Normal, st.(mem := m.(chain := Store(m.chain, level, name, v)))))
    case SetElement(e) =>
      (match w.eval(e, st.mem)
       case Panic(m) => Result(Panicked, st.(mem := m))
       case Done(_, m) => Result(Normal, st.(mem := m)))
    case Define(name, params, body) => Result(Normal, st.(fns := st.fns[name := Fn(params, body)]))
    case Call(name, nullSafe, args) =>
      if name !in st.fns then Result(if nullSafe then Normal else Panicked, st)
      else if |args| != |st.fns[name].params| then Result(Panicked, st)
      else
        var vs := EvalAll(w, args, st.mem);
        var st1 := st.(mem := vs.mem);
        if vs.vs.None? then Result(Panicked, st1)
        else if fuel == 0 then Result(Starved, st1)
        else
          var fn := st.fns[name];
          Absorb(Leave(Run(w, fuel - 1, fn.body, st1.(mem := BindAll(Opened(vs.mem), fn.params, vs.vs.value)))))
    case Break => Result(Broke, st)
    case Continue => Result(Continued, st)
    case Return(e) =>
      if e.None? then Result(Returned, st)
      else
        (match w.eval(e.value, st.mem)
         case Panic(m) => Result(Panicked, st.(mem := m))
         case Done(v, m) => Result(Returned, st.(mem := m, attachment := v)))
    case ReturnIf(e) =>
      if e.None? then Result(Normal, st)
      else
        (match w.eval(e.value, st.mem)
         case Panic(m) => Result(Panicked, st.(mem := m))
         case Done(v, m) => Result(if w.truthy(v) then Returned else Normal, st.(mem := m)))
    case Include(assigns, sub) =>
      var (ok, inner, m) := Assign(w, assigns, map[], st.mem);
      if !ok then Result(Panicked, st.(mem := m))
      else Leave(Run(w, fuel, sub, st.(mem := m.(chain := [inner] + m.chain))))
    case Switch(e, cases) =>
      (match w.eval(e, st.mem)
       case Panic(m) => Result(Panicked, st.(mem := m))
       case Done(v, m) => Choose(w, fuel, v, cases, st.(mem := m)))
    case Block(stats) => RunAll(w, fuel, stats, st)
  }

  /** A call takes up every jump of the function body. */
  function Absorb(r: Result): Result {
    if r.o.Panicked? || r.o.Starved? then r else r.(o := Normal)
  }

  /** The statements in order, up to the first that does not end normally. */
  function RunAll(w: World, fuel: nat, ss: Stats, st: State): Result
    decreases fuel, ss, 0
  {
    match ss
    case Empty => Result(Normal, st)
    case Cons(s, rest) =>
      var r := Run(w, fuel, s, st);
      if r.o.Normal? then RunAll(w, fuel, rest, r.st) else r
  }

  /** The body for items i, i + 1, ..., each in a scope of its own. */
  function Loop(w: World, fuel: nat, name: string, body: Stat, items: seq<Value>, i: nat, outer: Value,
      st: State): Result
    requires i <= |items|
    decreases fuel, body, |items| - i + 1
  {
    if i == |items| then Result(Normal, st)
    else
      var m := Bind(Bind(Opened(st.mem), name, items[i]), "for", LoopStatus(outer, i, |items|));
      var r := Leave(Run(w, fuel, body, st.(mem := m)));
      match r.o
      case Normal => Loop(w, fuel, name, body, items, i + 1, outer, r.st)
      case Continued => Loop(w, fuel, name, body, items, i + 1, outer, r.st)
      case Broke => Result(Normal, r.st)
      case _ => r
  }

  // ---- #switch as the code has it ----

  datatype Match = Hit | Miss | Fault

  /** The values of one case against the switch value, from left to right. */
  function TryCase(w: World, v: Value, es: seq<Expr>, m: Memory): (Match, Memory) {
    if es == [] then (Miss, m)
    else
      match w.eval(es[0], m)
      case Panic(m1) => (Fault, m1)
      case Done(x, m1) => if w.equal(v, x, m1) then (Hit, m1) else TryCase(w, v, es[1..], m1)
  }

  /** execIfMatch: this case or one of those after it; None when none of them matched. */
  datatype Tried = Ran(r: Result) | Unmatched(mem: Memory)

  function IfMatch(w: World, fuel: nat, v: Value, cs: Cases, st: State): Tried
    decreases fuel, cs, 0
  {
    match cs
    case Default(_) => Unmatched(st.mem)
    case Case(es, body, next) =>
      var (hit, m) := TryCase(w, v, es, st.mem);
      var st1 := st.(mem := m);
      match hit
      case Fault => Ran(Result(Panicked, st1))
      case Hit => Ran(Run(w, fuel, body, st1))
      case Miss => IfMatch(w, fuel, v, next, st1)
  }

  /** The loop over the cases tries each one and all after it, then goes on with the next one. */
  function Choose(w: World, fuel: nat, v: Value, cs: Cases, st: State): Result
    decreases fuel, cs, 1
  {
    match cs
    case Default(body) => Run(w, fuel, body, st)
    case Case(_, _, next) =>
      match IfMatch(w, fuel, v, cs, st)
      case Ran(r) => r
      case Unmatched(m) => Choose(w, fuel, v, next, st.(mem := m))
  }
}

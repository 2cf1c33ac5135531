/** ai/stream.go: the state of one streaming call, from RESPONSE_START to its terminal event. */
module StreamSession {
  import opened StreamEvents
  import opened StreamScript
  import opened StreamContent

  /** The usage objects sent with a log still count what they counted when they were sent. */
  ghost predicate Attached(objs: seq<Usage?>, log: seq<Ev>)
    reads set u: Usage | u in objs
  {
    |objs| == |log| && forall i | 0 <= i < |objs| :: CountsOf(objs[i]) == log[i].usage
  }

  class Accumulator {
    var usage: Usage?
    var finished: bool
    var err: bool

    constructor ()
      ensures usage == null && !finished && !err
    {
      usage, finished, err := null, false, false;
    }
  }

  /** streamSession: the step counter and the usage of all steps so far. */
  class Session {
    var step: int
    var total: Usage?

    constructor ()
      ensures step == -1 && total == null
    {
      step, total := -1, null;
    }

    method NextStep() returns (n: int)
      modifies this
      ensures step == old(step) + 1 && n == step && total == old(total)
    {
      step := step + 1;
      n := step;
    }

    function CurrentStep(): int
      reads this
    {
      if step < 0 then 0 else step
    }

    /** The total counts what the usages of all steps count. */
    ghost predicate Totals(us: seq<Option<Counts>>)
      reads this, total
    {
      if total == null then forall u | u in us :: u.None? else total.counts == Sum(us)
    }

    /** Adds a step's usage; the total is a new object, so no usage an event carries changes. */
    method AccumulateUsage(u: Usage?, ghost us: seq<Option<Counts>>)
      requires Totals(us)
      modifies this
      ensures Totals(us + [CountsOf(u)]) && step == old(step)
    {
      hide Sum;
      SumOne(us, CountsOf(u));
      if u == null {
        return;
      }
      if total == null {
        SumNone(us);
        total := new Usage(u.counts, u.tier, u.geo);
        return;
      }
      var c, o := total.counts, u.counts;
      total := new Usage(
        Counts(c.prompt + o.prompt, c.think + o.think, c.completion + o.completion, c.total + o.total,
               c.cacheCreation + o.cacheCreation, c.cacheRead + o.cacheRead, c.cacheCreation5m + o.cacheCreation5m,
               c.cacheCreation1h + o.cacheCreation1h, c.webSearch + o.webSearch, c.webFetch + o.webFetch),
        if total.tier == "" then u.tier else total.tier, if total.geo == "" then u.geo else total.geo);
    }
  }

  lemma {:induction false} SumNone(us: seq<Option<Counts>>)
    requires forall u | u in us :: u.None?
    ensures Sum(us) == ZERO
  {
    if us != [] {
      SumNone(us[..|us| - 1]);
    }
  }

  class Stream {
    const accepts: seq<Ev> -> bool
    const ss: Session
    var acc: Accumulator?
    var abort: Fault
    /** What the consumer was sent, and the usage objects with it. */
    var log: seq<Ev>
    ghost var objs: seq<Usage?>

    ghost predicate Usages()
      reads this, ss, ss.total
    {
      ss.Totals(Ends(log))
    }

    /** The abort mark tells whether the consumer rejected the last event, and no usage sent has changed. */
    ghost predicate Marked()
      reads this, set u: Usage | u in objs
    {
      Attached(objs, log) && if abort == Sink then JustRejected(accepts, log) else AllAccepted(accepts, log)
    }

    /** Not aborted by an error event. */
    predicate Unspoilt()
      reads this`abort
    {
      abort == Fine || abort == Sink
    }

    /** Between rounds. */
    ghost predicate Ready()
      reads this, ss, ss.total, set u: Usage | u in objs
    {
      && acc == null && abort == Fine && Marked() && Usages()
      && ss.step >= -1 && PhaseOf(log) == Between(ss.step + 1)
    }

    /** Within the current step. */
    ghost predicate Stepping(a: Accumulator)
      reads this, ss, ss.total, set u: Usage | u in objs
    {
      acc == a && Marked() && Usages() && ss.step >= 0 && PhaseOf(log) == Within(ss.step)
    }

    /** A round failed. The consumer's own error: nothing was sent after the event it rejected.
        Otherwise the step may still be open, and all usages are counted. */
    ghost predicate Failed(f: Fault)
      reads this, ss, ss.total, set u: Usage | u in objs
    {
      && Open(log) && Marked()
      && if f.Sink? then abort == Sink
         else
           && Usages() && ss.step >= -1
           && if acc == null then PhaseOf(log) == Between(ss.step + 1)
             else ss.step >= 0 && PhaseOf(log) == Within(ss.step)
    }

    constructor (accepts: seq<Ev> -> bool)
      ensures this.accepts == accepts && fresh(ss) && acc == null && abort == Fine && log == [] && objs == []
      ensures ss.step == -1 && ss.total == null
    {
      this.accepts := accepts;
      ss := new Session();
      acc, abort, log, objs := null, Fine, [], [];
    }

    method Dispatch(e: Ev, ghost u: Usage?) returns (ok: bool)
      requires Attached(objs, log) && e.usage == CountsOf(u)
      modifies this`log, this`objs
      ensures log == old(log) + [e] && ok == accepts(log) && Attached(objs, log)
    {
      log := log + [e];
      objs := objs + [u];
      ok := accepts(log);
    }

    /** Delivers an event unless the stream was aborted. */
    method Emit(e: Ev, ghost u: Usage?)
      requires Attached(objs, log) && e.usage == CountsOf(u)
      modifies this`log, this`objs, this`abort
      ensures old(abort) != Fine ==> log == old(log) && abort == old(abort)
      ensures old(abort) == Fine ==> log == old(log) + [e] && abort == if accepts(log) then Fine else Sink
      ensures Attached(objs, log)
    {
      if abort != Fine {
        return;
      }
      var ok := Dispatch(e, u);
      if !ok {
        abort := Sink;
      }
    }

    method EmitError()
      modifies this`abort
      ensures abort == if old(abort) == Fine then Upstream else old(abort)
    {
      if abort == Fine {
        abort := Upstream;
      }
    }

    /** What the rest of the script comes to from here. */
    ghost function Plays(acts: Acts): Played
      reads this
    {
      Play(accepts, acts, log, abort)
    }

    /** Content within a step. */
    method EmitContent(typ: EvType, u: Usage?, a: Accumulator, ghost k: Acts)
      requires Stepping(a) && (typ.Content? || typ.UsageNote?)
      modifies this`log, this`objs, this`abort
      ensures Stepping(a) && Plays(k) == old(Plays(Send(Ev(typ, ss.step, CountsOf(u)), k)))
      ensures (abort == Upstream ==> old(abort) == abort) && (old(abort) != Fine ==> abort == old(abort))
    {
      var e := Ev(typ, ss.step, CountsOf(u));
      PhaseOne(log, e);
      EndsOne(log, e);
      assert (log + [e])[..|log|] == log;
      Emit(e, u);
    }

    method EmitContents(n: nat, a: Accumulator, ghost k: Acts)
      requires Stepping(a)
      modifies this`log, this`objs, this`abort
      ensures Stepping(a) && Plays(k) == old(Plays(Contents(n, ss.step, k)))
      ensures (abort == Upstream ==> old(abort) == abort) && (old(abort) != Fine ==> abort == old(abort))
    {
      hide Play, Stepping;
      for i := 0 to n
        invariant Stepping(a) && Plays(Contents(n - i, ss.step, k)) == old(Plays(Contents(n, ss.step, k)))
        invariant (abort == Upstream ==> old(abort) == abort) && (old(abort) != Fine ==> abort == old(abort))
      {
        EmitContent(Content, null, a, Contents(n - i - 1, ss.step, k));
      }
    }

    /** The dialect parses a frame: it emits events, and may leave a usage, a completion signal, an error. */
    method ParseFrame(f: Frame, a: Accumulator, ghost k: Acts)
      requires Stepping(a)
      modifies this`log, this`objs, this`abort, a
      ensures Stepping(a) && (old(abort) != Fine ==> abort == old(abort))
      ensures Plays(k) == old(Plays(EmitActs(f.emits, ss.step, k)))
      ensures abort == Fine ==> a.err == (old(a.err) || f.failed)
      ensures if f.usage.Some? then fresh(a.usage) && CountsOf(a.usage) == f.usage else a.usage == old(a.usage)
      ensures a.finished == (old(a.finished) || f.finished)
    {
      hide Play, Stepping;
      assert f.emits[0..] == f.emits;
      for i := 0 to |f.emits|
        invariant Stepping(a) && (old(abort) != Fine ==> abort == old(abort))
        invariant Plays(EmitActs(f.emits[i..], ss.step, k)) == old(Plays(EmitActs(f.emits, ss.step, k)))
        invariant a.usage == old(a.usage) && a.finished == old(a.finished) && (abort == Fine ==> a.err == old(a.err))
      {
        assert f.emits[i..][1..] == f.emits[i + 1..];
        match f.emits[i]
        case Delta => EmitContent(Content, null, a, EmitActs(f.emits[i + 1..], ss.step, k));
        case Hidden =>
        case Bad(payload) =>
          if payload {
            a.err := true;
          }
          SpoilStep(a, EmitActs(f.emits[i + 1..], ss.step, k));
      }
      if f.usage.Some? {
        a.usage := new Usage(f.usage.value, "", "");
      }
      if f.finished {
        a.finished := true;
      }
      if f.failed {
        a.err := true;
      }
    }

    /** An error event of the dialect: it is kept for the end and aborts the stream. */
    method SpoilStep(a: Accumulator, ghost k: Acts)
      requires Stepping(a)
      modifies this`abort
      ensures Stepping(a) && abort != Fine && (old(abort) != Fine ==> abort == old(abort))
      ensures Plays(k) == old(Plays(Spoil(k)))
    {
      EmitError();
    }

    /** The frame callback. */
    method OnFrame(f: Frame, a: Accumulator, ghost u: Option<Counts>, ghost k: Acts) returns (err: Fault)
      requires Stepping(a) && !a.err && CountsOf(a.usage) == u
      modifies this`log, this`objs, this`abort, a
      ensures Stepping(a) && (err == Sink ==> abort == Sink) && (old(abort) != Fine ==> abort == old(abort))
      ensures err == Fine ==> Unspoilt() && !a.err && CountsOf(a.usage) == Latest(f, u)
      ensures err == Fine ==> a.finished == (old(a.finished) || (!f.empty && f.finished))
      ensures err == Fine ==> old(abort) == Fine
      ensures old(Plays(FrameActs(f, ss.step, k))) == if err == Fine then Plays(k) else Played(err, log)
    {
      hide Stepping, EmitActs, Play;
      ghost var note := if f.usage.Some? then Send(Ev(UsageNote, ss.step, f.usage), k) else k;
      ghost var after := if f.failed then Fail else note;
      CheckPlays(if f.empty then k else EmitActs(f.emits, ss.step, Check(after)));
      if abort != Fine {
        return abort;
      }
      if f.empty {
        return Fine;
      }
      var before := a.usage;
      ParseFrame(f, a, Check(after));
      CheckPlays(after);
      if f.failed {
        FailPlays(after);
      }
      if abort != Fine {
        return abort;
      }
      if a.err {
        return Upstream;
      }
      if a.usage != null && a.usage != before {
        EmitContent(UsageNote, a.usage, a, k);
      }
      return Fine;
    }

    /** The response body, frame by frame, and the guards at its end. */
    method ReadBody(r: Round, a: Accumulator, ghost k: Acts) returns (err: Fault)
      requires Stepping(a) && abort == Fine && !a.err && a.usage == null && !a.finished
      modifies this`log, this`objs, this`abort, a
      ensures Stepping(a) && (err == Sink ==> abort == Sink) && (err == Fine ==> Unspoilt())
      ensures err == Fine ==> BodyOk(r) && CountsOf(a.usage) == UsageAfter(r.frames, None)
      ensures old(Plays(FramesActs(r.frames, ss.step, if BodyOk(r) then k else Fail))) ==
        if err == Fine then Plays(k) else Played(err, log)
    {
      hide Stepping, FrameActs, Play;
      ghost var rest := if BodyOk(r) then k else Fail;
      ghost var u := None;
      var frameCount, modelFrameCount := 0, 0;
      assert r.frames[0..] == r.frames;
      for i := 0 to |r.frames|
        invariant Stepping(a) && Unspoilt() && !a.err && CountsOf(a.usage) == u
        invariant Plays(FramesActs(r.frames[i..], ss.step, rest)) == old(Plays(FramesActs(r.frames, ss.step, rest)))
        invariant UsageAfter(r.frames[i..], u) == UsageAfter(r.frames, None)
        invariant frameCount == 0 ==> modelFrameCount == 0
        invariant modelFrameCount == 0 <==> forall f | f in r.frames[..i] :: f.empty || !f.model
        invariant a.finished <==> exists f :: f in r.frames[..i] && !f.empty && f.finished
      {
        var f := r.frames[i];
        assert r.frames[i..][1..] == r.frames[i + 1..] && r.frames[..i + 1] == r.frames[..i] + [f];
        assert f in r.frames;
        if abort == Fine && !f.empty {
          frameCount := frameCount + 1;
          if f.model {
            modelFrameCount := modelFrameCount + 1;
          }
        }
        err := OnFrame(f, a, u, FramesActs(r.frames[i + 1..], ss.step, rest));
        if err != Fine {
          return;
        }
        u := Latest(f, u);
      }
      assert r.frames[..|r.frames|] == r.frames && r.frames[|r.frames|..] == [];
      if r.cut || frameCount == 0 || modelFrameCount == 0 || !a.finished {
        FailPlays(rest);
        return Upstream;
      }
      return Fine;
    }

    lemma FailPlays(acts: Acts)
      requires acts == Fail
      ensures Plays(acts) == Played(Upstream, log)
    {
    }

    /** STEP_END: the usage of the step is counted exactly once. */
    method EmitStepEnd(a: Accumulator, ghost k: Acts) returns (err: Fault)
      requires Stepping(a) && Unspoilt()
      modifies this`log, this`objs, this`abort, ss
      ensures acc == a && ss.step == old(ss.step) && err == abort && Unspoilt()
      ensures Marked() && (abort == Fine ==> Usages() && PhaseOf(log) == Between(ss.step + 1))
      ensures abort == Sink ==> Open(log)
      ensures old(Plays(Close(CountsOf(a.usage), ss.step, k))) == if err == Fine then Plays(k) else Played(err, log)
    {
      ss.AccumulateUsage(a.usage, Ends(log));
      var e := Ev(StepEnd, ss.step, CountsOf(a.usage));
      PhaseOne(log, e);
      EndsOne(log, e);
      assert (log + [e])[..|log|] == log;
      Emit(e, a.usage);
      CheckPlays(k);
      err := abort;
    }

    lemma FailedIn(a: Accumulator, f: Fault)
      requires Stepping(a) && f != Fine && (f == Sink ==> abort == Sink)
      ensures Failed(f)
    {
    }

    // ---- a round ----

    /** How the tools of a round end: STEP_END is still due, or a further round took over. */
    method RunTools(tools: Tools, a: Accumulator, next: Script) returns (recursed: bool, err: Fault)
      requires Stepping(a) && Unspoilt()
      modifies this`log, this`objs, this`abort, this`acc, ss
      ensures err == Fine && !recursed ==> Stepping(a) && Unspoilt() && ss.step == old(ss.step)
      ensures err == Fine && recursed ==> Ready() && ss.step >= 0
      ensures err != Fine ==> Failed(err)
      ensures old(Plays(ToolActs(tools, CountsOf(a.usage), ss.step, next))) ==
        if err == Fine && !recursed then Plays(Close(CountsOf(a.usage), ss.step, End)) else Played(err, log)
      decreases next, 3
    {
      hide Play, RoundActs, Contents, Stepping, Ready, Failed;
      recursed, err := false, Fine;
      var calls := Calls(tools);
      if calls == 0 {
        return;
      }
      ghost var u, step := CountsOf(a.usage), ss.step;
      EmitContents(calls, a, Check(ToolRest(tools, u, step, next)));
      CheckPlays(ToolRest(tools, u, step, next));
      if abort != Fine {
        FailedIn(a, abort);
        return true, abort;
      }
      match tools
      case HandBack(_) =>
      case Failing(_, results) =>
        EmitContents(results, a, Fail);
        FailPlays(Fail);
        FailedIn(a, Upstream);
        return false, Upstream;
      case Direct(_, results, synthetic) =>
        EmitContents(results, a, Contents(synthetic, step, Close(u, step, End)));
        EmitContents(synthetic, a, Close(u, step, End));
      case Recurse(_, results) =>
        EmitContents(results, a, Close(u, step, RoundActs(next, step + 1)));
        recursed := true;
        err := CloseStep(a, RoundActs(next, step + 1));
        if err != Fine {
          return;
        }
        err := DoStream(next);
    }

    lemma CheckPlays(acts: Acts)
      ensures Plays(Check(acts)) == if abort == Fine then Plays(acts) else Played(abort, log)
    {
    }

    lemma EndPlays()
      ensures Plays(End) == Played(abort, log)
    {
    }

    /** One round of the stream and the rounds its tools call for. */
    method DoStream(script: Script) returns (err: Fault)
      requires Ready()
      modifies this`log, this`objs, this`abort, this`acc, ss
      ensures err == Fine ==> Ready() && ss.step >= 0
      ensures err != Fine ==> Failed(err)
      ensures old(Plays(RoundActs(script, ss.step + 1))) == Played(err, log)
      decreases script, 2
    {
      hide Play, FramesActs, ToolActs, BodyOk, Stepping, Failed;
      if script.Over? || !script.round.builds {
        FailPlays(Fail);
        FailedBetween();
        return Upstream;
      }
      var a := StartStep(script);
      ghost var u, step := UsageAfter(script.round.frames, None), ss.step;
      CheckPlays(FramesActs(script.round.frames, step, AfterBody(script, step)));
      if abort != Fine {
        FailedIn(a, abort);
        return abort;
      }
      err := ReadBody(script.round, a, ToolActs(script.round.tools, u, step, script.next));
      if err != Fine {
        FailedIn(a, err);
        return;
      }
      var recursed;
      recursed, err := RunTools(script.round.tools, a, script.next);
      if err != Fine || recursed {
        return;
      }
      err := CloseStep(a, End);
      EndPlays();
    }

    lemma FailedBetween()
      requires Ready()
      ensures Failed(Upstream)
    {
    }

    /** STEP_START. */
    method StartStep(ghost script: Script) returns (a: Accumulator)
      requires Ready() && script.More? && script.round.builds
      modifies this`log, this`objs, this`abort, this`acc, ss
      ensures Stepping(a) && Unspoilt() && fresh(a) && a.usage == null && !a.finished && !a.err
      ensures ss.step == old(ss.step) + 1
      ensures Plays(Check(FramesActs(script.round.frames, ss.step, AfterBody(script, ss.step)))) ==
        old(Plays(RoundActs(script, ss.step + 1)))
    {
      hide FramesActs, AfterBody;
      var step := ss.NextStep();
      a := new Accumulator();
      acc := a;
      var e := Ev(StepStart, step, None);
      PhaseOne(log, e);
      EndsOne(log, e);
      assert (log + [e])[..|log|] == log;
      Emit(e, null);
    }

    /** STEP_END, after which no step is open. */
    method CloseStep(a: Accumulator, ghost k: Acts) returns (err: Fault)
      requires Stepping(a) && Unspoilt()
      modifies this`log, this`objs, this`abort, this`acc, ss
      ensures ss.step == old(ss.step) && (err == Fine ==> Ready() && ss.step >= 0) && (err != Fine ==> Failed(err))
      ensures old(Plays(Close(CountsOf(a.usage), ss.step, k))) == if err == Fine then Plays(k) else Played(err, log)
    {
      hide Play;
      err := EmitStepEnd(a, k);
      if err == Fine {
        ghost var now := Plays(k);
        acc := null;
        assert Plays(k) == now;
      }
    }

    // ---- the whole stream ----

    /** RESPONSE_END with the usage of all steps; what the consumer says to it no longer matters. */
    method FinishSuccess()
      requires Ready() && ss.step >= 0
      modifies this`log, this`objs
      ensures PhaseOf(log) == Done(true) && Settled(accepts, log, 1) && AllAccepted(accepts, log[..|log| - 1])
      ensures Attached(objs, log) && Billed(log) && log[|log| - 1].step == ss.step && old(log) <= log
      ensures |log| == |old(log)| + 1
    {
      var e := Ev(ResponseEnd, ss.CurrentStep(), CountsOf(ss.total));
      PhaseOne(log, e);
      EndsOne(log, e);
      assert (log + [e])[..|log|] == log;
      var _ := Dispatch(e, ss.total);
    }

    /** A STEP_END for the step that is open, whatever the consumer says to it. */
    method BalanceStep()
      requires Failed(Upstream) && acc != null
      modifies this`log, this`objs, ss
      ensures Attached(objs, log) && Usages() && ss.step == old(ss.step) >= 0 && PhaseOf(log) == Between(ss.step + 1)
      ensures |log| == |old(log)| + 1 && log[..|log| - 1] == old(log)
    {
      ss.AccumulateUsage(acc.usage, Ends(log));
      var e := Ev(StepEnd, ss.step, CountsOf(acc.usage));
      PhaseOne(log, e);
      EndsOne(log, e);
      assert (log + [e])[..|log|] == log;
      var _ := Dispatch(e, acc.usage);
    }

    /** A STEP_END for the step that is open, then ERROR. */
    method FinishFailure()
      requires Failed(Upstream)
      modifies this`log, this`objs, ss
      ensures PhaseOf(log) == Done(false) && Billed(log) && (Settled(accepts, log, 1) || Settled(accepts, log, 2))
      ensures Attached(objs, log) && old(log) <= log && |log| == |old(log)| + if PhaseOf(old(log)).Within? then 2 else 1
    {
      hide Sum;
      ghost var before := log;
      assert log[..|log|] == log;
      if acc != null {
        BalanceStep();
      }
      var e := Ev(Error, ss.CurrentStep(), CountsOf(ss.total));
      PhaseOne(log, e);
      EndsOne(log, e);
      ghost var balanced := log;
      var _ := Dispatch(e, ss.total);
      assert log[..|log| - 1] == balanced;
      assert balanced != before ==> log[..|log| - 2] == before;
    }

    /** One call: nil, the consumer's error, or the upstream error. Provider and consumer determine which,
        and every event but the closing ones; these are one RESPONSE_END, a STEP_END for an open step and
        one ERROR, or nothing. */
    method Run(script: Script) returns (err: Fault)
      requires log == [] && objs == [] && abort == Fine && acc == null && ss.step == -1 && ss.total == null
      modifies this`log, this`objs, this`abort, this`acc, ss
      ensures var o := Outcome(accepts, script);
        && err == o.err && o.log <= log
        && |log| == |o.log| + (match err
                               case Fine => 1
                               case Sink => 0
                               case Upstream => if PhaseOf(o.log).Within? then 2 else 1)
      ensures err == Fine ==> PhaseOf(log) == Done(true) && AllAccepted(accepts, log[..|log| - 1])
      ensures err == Upstream ==> PhaseOf(log) == Done(false) && (Settled(accepts, log, 1) || Settled(accepts, log, 2))
      ensures err == Sink ==> Open(log) && JustRejected(accepts, log)
      ensures err != Sink ==> Billed(log)
      ensures Attached(objs, log)
      ensures Conveys(accepts, script, log)
    {
      hide RoundActs, Outcome, Conveys;
      OutcomeStart(accepts, script);
      var ok := Dispatch(START, null);
      assert log == [START];
      if !ok {
        ConveysIs(accepts, script, log);
        return Sink;
      }
      err := DoStream(script);
      if err == Fine {
        FinishSuccess();
      } else if err == Upstream {
        FinishFailure();
      }
      ConveysIs(accepts, script, log);
    }
  }

  /** All events but the closing ones are those the script brings in front of its first failure, up to the
      first one that is rejected; without failures and rejections those are whole blocks. */
  ghost predicate Conveys(accepts: seq<Ev> -> bool, script: Script, log: seq<Ev>) {
    var o, healthy := Outcome(accepts, script), [START] + BlocksTold(script, 0);
    && o.log <= log && Received(accepts, [], [START] + Told(script, 0), log[..|o.log|])
    && (Healthy(script) ==> log[..|o.log|] <= healthy && (o.err.Fine? ==> log[..|o.log|] == healthy))
  }

  lemma ConveysIs(accepts: seq<Ev> -> bool, script: Script, log: seq<Ev>)
    requires Outcome(accepts, script).log <= log
    ensures Conveys(accepts, script, log)
  {
    hide Outcome, Received, Told, BlocksTold, Healthy;
    assert log[..|Outcome(accepts, script).log|] == Outcome(accepts, script).log;
    Delivers(accepts, script);
    if Healthy(script) {
      HealthyDelivers(accepts, script);
    }
  }

  /** All but the last k events were accepted, or the last one of them is the first that was not. */
  predicate Settled(accepts: seq<Ev> -> bool, log: seq<Ev>, k: nat) {
    k <= |log| && (AllAccepted(accepts, log[..|log| - k]) || JustRejected(accepts, log[..|log| - k]))
  }

  /** The terminal event reports the sum of the usages of all STEP_END events, counter by counter. */
  predicate Billed(log: seq<Ev>) {
    && log != [] && Terminal(log[|log| - 1])
    && var u := log[|log| - 1].usage;
       if u.None? then forall v | v in Ends(log) :: v.None? else u.value == Sum(Ends(log))
  }

  /** A stream that has no terminal event yet. */
  predicate Open(log: seq<Ev>) {
    PhaseOf(log).Between? || PhaseOf(log).Within?
  }
}

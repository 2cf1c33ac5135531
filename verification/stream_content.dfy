/** What a stream delivers, told from the script alone. */
module StreamContent {
  import opened StreamEvents
  import opened StreamScript

  // ---- one block ----

  function Repeat(e: Ev, n: nat): (r: seq<Ev>)
    ensures |r| == n && forall i | 0 <= i < n :: r[i] == e
  {
    seq(n, i => e)
  }

  /** A frame brings its deltas, then its usage; an empty one brings nothing. */
  function FrameTold(f: Frame, n: int): seq<Ev> {
    if f.empty then []
    else
      Repeat(Ev(Content, n, None), multiset(f.emits)[Delta]) +
      if f.usage.Some? then [Ev(UsageNote, n, f.usage)] else []
  }

  function FramesTold(fs: seq<Frame>, n: int): seq<Ev> {
    if fs == [] then [] else FrameTold(fs[0], n) + FramesTold(fs[1..], n)
  }

  /** The tools bring their calls, results and synthetic events, if there is a call at all. */
  function ToolsTold(t: Tools): nat {
    match t
    case NoTools => 0
    case HandBack(calls) => calls
    case Failing(calls, results) => if calls == 0 then 0 else calls + results
    case Direct(calls, results, synthetic) => if calls == 0 then 0 else calls + results + synthetic
    case Recurse(calls, results) => if calls == 0 then 0 else calls + results
  }

  /** i is the last frame that brought a usage. */
  predicate LastToBring(fs: seq<Frame>, i: int) {
    && 0 <= i < |fs| && !fs[i].empty && fs[i].usage.Some?
    && forall j | i < j < |fs| :: fs[j].empty || fs[j].usage.None?
  }

  ghost function LastUsage(fs: seq<Frame>): Option<Counts> {
    if exists i :: LastToBring(fs, i) then
      var i :| LastToBring(fs, i);
      fs[i].usage
    else None
  }

  /** Block n: its start, what frames and tools bring, and its end with the last usage. */
  ghost function BlockTold(r: Round, n: int): seq<Ev> {
    [Ev(StepStart, n, None)] + FramesTold(r.frames, n) + Repeat(Ev(Content, n, None), ToolsTold(r.tools))
      + [Ev(StepEnd, n, LastUsage(r.frames))]
  }

  /** The blocks from n on: a further round for tools that ask for one. */
  ghost function BlocksTold(script: Script, n: int): seq<Ev> {
    if script.Over? then []
    else
      BlockTold(script.round, n)
        + if script.round.tools.Recurse? && script.round.tools.calls > 0 then BlocksTold(script.next, n + 1) else []
  }

  // ---- and with failures ----

  /** Its deltas in front of an error event. */
  function Deltas(es: seq<Emission>): nat {
    if es == [] || es[0].Bad? then 0 else (if es[0].Delta? then 1 else 0) + Deltas(es[1..])
  }

  /** What is sent of the frames: all up to the first that reports an error, and of that its deltas. */
  function FramesBegun(fs: seq<Frame>, n: int): seq<Ev> {
    if fs == [] then []
    else if CleanFrame(fs[0]) then FrameTold(fs[0], n) + FramesBegun(fs[1..], n)
    else Repeat(Ev(Content, n, None), Deltas(fs[0].emits))
  }

  /** The events from block n on: nothing of a round that cannot be built; a block stays open behind an error
      of a frame, a body that is not whole, or a failing tool. */
  ghost function Told(script: Script, n: int): seq<Ev> {
    if script.Over? || !script.round.builds then []
    else
      var r := script.round;
      [Ev(StepStart, n, None)] + FramesBegun(r.frames, n) +
      if !BodyOk(r) || exists f :: f in r.frames && !CleanFrame(f) then []
      else
        Repeat(Ev(Content, n, None), ToolsTold(r.tools)) +
        if r.tools.Failing? && r.tools.calls > 0 then []
        else
          [Ev(StepEnd, n, LastUsage(r.frames))] +
          if r.tools.Recurse? && r.tools.calls > 0 then Told(script.next, n + 1) else []
  }

  // ---- the sends of a course ----

  function Sent(acts: Acts): seq<Ev> {
    match acts
    case End => []
    case Send(e, k) => [e] + Sent(k)
    case Spoil(_) => []
    case Check(k) => Sent(k)
    case Fail => []
  }

  /** r is all of it if the consumer accepts all, and else ends with the first event it rejects. */
  ghost predicate Received(accepts: seq<Ev> -> bool, log: seq<Ev>, all: seq<Ev>, r: seq<Ev>) {
    && log <= r <= all && (r < all ==> |r| > |log| && !accepts(r))
    && forall n | |log| < n < |r| :: accepts(r[..n])
  }

  /** The events sent are those, up to the first one that is rejected. */
  lemma {:induction false} PlaySends(accepts: seq<Ev> -> bool, acts: Acts, log: seq<Ev>)
    ensures Received(accepts, log, log + Sent(acts), Play(accepts, acts, log, Fine).log)
    decreases acts
  {
    match acts
    case Send(e, k) =>
      var now, r := log + [e], Play(accepts, acts, log, Fine).log;
      assert now + Sent(k) == log + ([e] + Sent(k));
      if accepts(now) {
        PlaySends(accepts, k, now);
        assert r[..|now|] == now;
      } else {
        SentNoMore(accepts, k, now, Sink);
      }
    case Check(k) => PlaySends(accepts, k, log);
    case Spoil(k) => SentNoMore(accepts, k, log, Upstream);
    case _ =>
  }

  lemma {:induction false} SentNoMore(accepts: seq<Ev> -> bool, acts: Acts, log: seq<Ev>, abort: Fault)
    requires !abort.Fine?
    ensures Play(accepts, acts, log, abort).log == log
    decreases acts
  {
    match acts
    case Send(_, k) => SentNoMore(accepts, k, log, abort);
    case Spoil(k) => SentNoMore(accepts, k, log, abort);
    case _ =>
  }

  lemma {:induction false} SentContents(n: nat, step: int, k: Acts)
    ensures Sent(Contents(n, step, k)) == Repeat(Ev(Content, step, None), n) + Sent(k)
  {
    var e := Ev(Content, step, None);
    if n == 0 {
      assert Repeat(e, 0) + Sent(k) == Sent(k);
    } else {
      SentContents(n - 1, step, k);
      assert [e] + (Repeat(e, n - 1) + Sent(k)) == Repeat(e, n) + Sent(k);
    }
  }

  predicate Bare(es: seq<Emission>) {
    forall e | e in es :: !e.Bad?
  }

  lemma {:induction false} SentEmits(es: seq<Emission>, step: int, k: Acts)
    ensures Sent(EmitActs(es, step, k)) ==
      Repeat(Ev(Content, step, None), Deltas(es)) + if Bare(es) then Sent(k) else []
    decreases |es|
  {
    hide *;
    var e := Ev(Content, step, None);
    EmitStep(es, step, k);
    DeltasStep(es);
    if es == [] {
      NoRepeat(e, Sent(k));
    } else if es[0].Bad? {
      NoRepeat(e, []);
    } else {
      SentEmits(es[1..], step, k);
      RepeatMore(e, Deltas(es[1..]), if Bare(es) then Sent(k) else []);
    }
  }

  lemma EmitStep(es: seq<Emission>, step: int, k: Acts)
    ensures Sent(EmitActs(es, step, k)) ==
      if es == [] then Sent(k)
      else if es[0].Bad? then []
      else if es[0].Delta? then [Ev(Content, step, None)] + Sent(EmitActs(es[1..], step, k))
      else Sent(EmitActs(es[1..], step, k))
  {
  }

  lemma DeltasStep(es: seq<Emission>)
    ensures es == [] ==> Deltas(es) == 0 && Bare(es)
    ensures es != [] && es[0].Bad? ==> Deltas(es) == 0 && !Bare(es)
    ensures es != [] && !es[0].Bad? ==>
      Deltas(es) == (if es[0].Delta? then 1 else 0) + Deltas(es[1..]) && (Bare(es) <==> Bare(es[1..]))
  {
    if es != [] {
      assert es == [es[0]] + es[1..];
    }
  }

  lemma {:induction false} DeltasAre(es: seq<Emission>)
    requires Bare(es)
    ensures Deltas(es) == multiset(es)[Delta]
  {
    if es != [] {
      assert es == [es[0]] + es[1..];
      DeltasAre(es[1..]);
    }
  }

  lemma NoRepeat(e: Ev, rest: seq<Ev>)
    ensures Repeat(e, 0) + rest == rest
  {
  }

  lemma RepeatMore(e: Ev, n: nat, rest: seq<Ev>)
    ensures [e] + (Repeat(e, n) + rest) == Repeat(e, n + 1) + rest
  {
  }

  predicate Clean(fs: seq<Frame>) {
    forall f | f in fs :: CleanFrame(f)
  }

  lemma {:induction false} SentFrames(fs: seq<Frame>, step: int, k: Acts)
    ensures Sent(FramesActs(fs, step, k)) == FramesBegun(fs, step) + if Clean(fs) then Sent(k) else []
    decreases |fs|
  {
    hide *;
    FramesStep(fs, step, k);
    if fs == [] {
      assert [] + Sent(k) == Sent(k);
    } else {
      var f := fs[0];
      if CleanFrame(f) {
        SentFrames(fs[1..], step, k);
        SentFrame(f, step, FramesActs(fs[1..], step, k));
        Joined(FrameTold(f, step), FramesBegun(fs[1..], step), if Clean(fs) then Sent(k) else []);
      } else {
        SentSpoiled(f, step, FramesActs(fs[1..], step, k));
        Joined(FramesBegun(fs, step), [], []);
      }
    }
  }

  lemma FramesStep(fs: seq<Frame>, step: int, k: Acts)
    ensures fs == [] ==> FramesActs(fs, step, k) == k && FramesBegun(fs, step) == [] && Clean(fs)
    ensures fs != [] ==> FramesActs(fs, step, k) == FrameActs(fs[0], step, FramesActs(fs[1..], step, k))
    ensures fs != [] && CleanFrame(fs[0]) ==> (Clean(fs) <==> Clean(fs[1..]))
    ensures fs != [] && CleanFrame(fs[0]) ==>
      FramesBegun(fs, step) == FrameTold(fs[0], step) + FramesBegun(fs[1..], step)
    ensures fs != [] && !CleanFrame(fs[0]) ==> !Clean(fs)
    ensures fs != [] && !CleanFrame(fs[0]) ==>
      FramesBegun(fs, step) == Repeat(Ev(Content, step, None), Deltas(fs[0].emits))
  {
    hide FrameActs, FrameTold, CleanFrame, Repeat, Deltas;
    if fs != [] {
      assert fs == [fs[0]] + fs[1..];
    }
  }

  lemma Joined(a: seq<Ev>, b: seq<Ev>, c: seq<Ev>)
    ensures a + (b + c) == a + b + c && a + [] == a
  {
  }

  lemma SentFrame(f: Frame, step: int, rest: Acts)
    requires CleanFrame(f)
    ensures Sent(FrameActs(f, step, rest)) == FrameTold(f, step) + Sent(rest)
  {
    hide EmitActs, Repeat, Bare, Deltas;
    if f.empty {
      assert [] + Sent(rest) == Sent(rest);
    } else {
      var note := if f.usage.Some? then Send(Ev(UsageNote, step, f.usage), rest) else rest;
      SentEmits(f.emits, step, Check(note));
      assert Bare(f.emits) by { CleanIsBare(f); }
      DeltasAre(f.emits);
      assert FrameActs(f, step, rest) == Check(EmitActs(f.emits, step, Check(note)));
      assert Sent(Check(note)) == Sent(note);
      var a := Repeat(Ev(Content, step, None), multiset(f.emits)[Delta]);
      Joined(a, if f.usage.Some? then [Ev(UsageNote, step, f.usage)] else [], Sent(rest));
      assert [] + Sent(rest) == Sent(rest);
    }
  }

  lemma CleanIsBare(f: Frame)
    requires CleanFrame(f) && !f.empty
    ensures Bare(f.emits)
  {
  }

  /** A frame that reports an error sends its deltas in front of it and nothing else. */
  lemma SentSpoiled(f: Frame, step: int, rest: Acts)
    requires !CleanFrame(f)
    ensures Sent(FrameActs(f, step, rest)) == Repeat(Ev(Content, step, None), Deltas(f.emits))
  {
    var note := if f.failed then Fail else if f.usage.Some? then Send(Ev(UsageNote, step, f.usage), rest) else rest;
    SentEmits(f.emits, step, Check(note));
    assert FrameActs(f, step, rest) == Check(EmitActs(f.emits, step, Check(note)));
    assert Bare(f.emits) ==> f.failed;
    assert Repeat(Ev(Content, step, None), Deltas(f.emits)) + [] == Repeat(Ev(Content, step, None), Deltas(f.emits));
  }

  lemma {:induction false} UsageIsLast(fs: seq<Frame>, u: Option<Counts>) returns (i: int)
    ensures i >= 0 ==> LastToBring(fs, i) && UsageAfter(fs, u) == fs[i].usage
    ensures i < 0 ==> UsageAfter(fs, u) == u && forall j | 0 <= j < |fs| :: fs[j].empty || fs[j].usage.None?
    decreases |fs|
  {
    i := -1;
    if fs != [] {
      var rest := fs[1..];
      assert forall j | 0 <= j < |rest| :: rest[j] == fs[j + 1];
      i := UsageIsLast(rest, Latest(fs[0], u));
      if i >= 0 {
        i := i + 1;
      } else if !fs[0].empty && fs[0].usage.Some? {
        i := 0;
      }
    }
  }

  /** What is sent from the end of the body on. */
  function ToolsSent(t: Tools, u: Option<Counts>, step: int, next: Script): seq<Ev> {
    Repeat(Ev(Content, step, None), ToolsTold(t)) +
    if t.Failing? && t.calls > 0 then []
    else [Ev(StepEnd, step, u)] + if t.Recurse? && t.calls > 0 then Sent(RoundActs(next, step + 1)) else []
  }

  lemma SentTools(t: Tools, u: Option<Counts>, step: int, next: Script)
    ensures Sent(ToolActs(t, u, step, next)) == ToolsSent(t, u, step, next)
  {
    hide RoundActs, Contents, Close, Repeat;
    var e, close := Ev(Content, step, None), [Ev(StepEnd, step, u)];
    SentClose(u, step, End);
    SentContents(Calls(t), step, Check(ToolRest(t, u, step, next)));
    NoRepeat(e, close);
    assert close + [] == close;
    if t.Direct? {
      SentContents(t.synthetic, step, Close(u, step, End));
      SentContents(t.results, step, Contents(t.synthetic, step, Close(u, step, End)));
      Repeats(e, t.calls, t.results, Repeat(e, t.synthetic) + close);
      Repeats(e, t.calls + t.results, t.synthetic, close);
    } else if t.Recurse? {
      SentRecurse(t.calls, t.results, u, step, RoundActs(next, step + 1));
    } else if t.Failing? {
      SentContents(t.results, step, Fail);
      Repeats(e, t.calls, t.results, []);
    }
    SentCheck(ToolRest(t, u, step, next));
    assert Repeat(e, ToolsTold(t)) + close + [] == Repeat(e, ToolsTold(t)) + close;
  }

  lemma SentCheck(k: Acts)
    ensures Sent(Check(k)) == Sent(k)
  {
  }

  lemma SentRecurse(calls: nat, results: nat, u: Option<Counts>, step: int, k: Acts)
    ensures var e, close := Ev(Content, step, None), [Ev(StepEnd, step, u)];
      Repeat(e, calls) + Sent(Contents(results, step, Close(u, step, k))) ==
        Repeat(e, calls + results) + close + Sent(k)
  {
    hide Contents, Close, Repeat;
    var e, close := Ev(Content, step, None), [Ev(StepEnd, step, u)];
    SentClose(u, step, k);
    SentContents(results, step, Close(u, step, k));
    Repeats(e, calls, results, close + Sent(k));
    assert Repeat(e, calls + results) + (close + Sent(k)) == Repeat(e, calls + results) + close + Sent(k);
  }

  lemma SentClose(u: Option<Counts>, step: int, k: Acts)
    ensures Sent(Close(u, step, k)) == [Ev(StepEnd, step, u)] + Sent(k)
  {
    assert Sent(Check(k)) == Sent(k);
  }

  lemma Repeats(e: Ev, a: nat, b: nat, rest: seq<Ev>)
    ensures Repeat(e, a) + (Repeat(e, b) + rest) == Repeat(e, a + b) + rest
  {
  }

  lemma {:induction false} SentRounds(script: Script, n: int)
    ensures Sent(RoundActs(script, n)) == Told(script, n)
    decreases script
  {
    hide FramesActs, FramesBegun, ToolActs, ToolsTold, LastUsage, BodyOk, UsageAfter, CleanFrame;
    if script.More? && script.round.builds {
      var r := script.round;
      LastOrNone(r.frames);
      SentFrames(r.frames, n, AfterBody(script, n));
      SentTools(r.tools, UsageAfter(r.frames, None), n, script.next);
      SentRounds(script.next, n + 1);
      RoundSends(script, n);
      assert Clean(r.frames) <==> !(exists f :: f in r.frames && !CleanFrame(f));
    }
  }

  lemma LastOrNone(fs: seq<Frame>)
    ensures UsageAfter(fs, None) == LastUsage(fs)
  {
    hide UsageAfter;
    var i := UsageIsLast(fs, None);
  }

  lemma RoundSends(script: Script, n: int)
    requires script.More? && script.round.builds
    ensures Sent(RoundActs(script, n)) ==
      [Ev(StepStart, n, None)] + Sent(FramesActs(script.round.frames, n, AfterBody(script, n)))
    ensures Sent(AfterBody(script, n)) ==
      if BodyOk(script.round)
      then Sent(ToolActs(script.round.tools, UsageAfter(script.round.frames, None), n, script.next))
      else []
  {
    hide FramesActs, ToolActs, BodyOk;
    var k := FramesActs(script.round.frames, n, AfterBody(script, n));
    assert Sent(Check(k)) == Sent(k);
  }

  lemma {:induction false} CleanTold(fs: seq<Frame>, n: int)
    requires forall f | f in fs :: CleanFrame(f)
    ensures FramesBegun(fs, n) == FramesTold(fs, n)
  {
    if fs != [] {
      assert fs[0] in fs;
      CleanTold(fs[1..], n);
    }
  }

  lemma {:induction false} HealthyTold(script: Script, n: int)
    requires Healthy(script)
    ensures Told(script, n) == BlocksTold(script, n)
    decreases script
  {
    hide LastUsage, BodyOk, CleanFrame, FramesTold, FramesBegun, Repeat, ToolsTold;
    var r := script.round;
    CleanTold(r.frames, n);
    var rest := [];
    if r.tools.Recurse? && r.tools.calls > 0 {
      HealthyTold(script.next, n + 1);
      rest := BlocksTold(script.next, n + 1);
    }
    var start, frames, tools, close :=
      [Ev(StepStart, n, None)], FramesTold(r.frames, n), Repeat(Ev(Content, n, None), ToolsTold(r.tools)),
      [Ev(StepEnd, n, LastUsage(r.frames))];
    assert start + (frames + (tools + (close + rest))) == start + frames + tools + close + rest;
    assert start + frames + (tools + (close + rest)) == start + frames + tools + close + rest;
  }

  /** Whatever the provider does: the consumer is sent RESPONSE_START and then, round by round, exactly what
      the script brings in front of its first failure, up to the first event it rejects. */
  lemma Delivers(accepts: seq<Ev> -> bool, script: Script)
    ensures Received(accepts, [], [START] + Told(script, 0), Outcome(accepts, script).log)
  {
    hide Play, RoundActs, Told, Received;
    SentRounds(script, 0);
    PlaySends(accepts, CallActs(script), []);
    assert [] + Sent(CallActs(script)) == Sent(CallActs(script));
    SentStart(script);
  }

  /** A provider without failures: the consumer is sent RESPONSE_START and then, block by block, exactly what
      the script brings, up to the first event it rejects. */
  lemma HealthyDelivers(accepts: seq<Ev> -> bool, script: Script)
    requires Healthy(script)
    ensures var o, all := Outcome(accepts, script), [START] + BlocksTold(script, 0);
      o.log <= all && (o.err.Fine? ==> o.log == all)
      && ((forall log :: accepts(log)) ==> o.err.Fine? && o.log == all)
  {
    hide Outcome, Healthy, BlocksTold, Told;
    HealthyTold(script, 0);
    Delivers(accepts, script);
    HealthyOutcome(accepts, script);
    if forall log :: accepts(log) {
      AcceptingOutcome(accepts, script);
    }
  }

  lemma SentStart(script: Script)
    ensures Sent(CallActs(script)) == [START] + Sent(RoundActs(script, 0))
  {
    hide RoundActs;
    assert Sent(Check(RoundActs(script, 0))) == Sent(RoundActs(script, 0));
  }
}

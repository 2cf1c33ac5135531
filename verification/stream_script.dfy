/** What a call does with a provider and a consumer: the events a script asks for, where the call looks
    for an abort, and where it fails. */
module StreamScript {
  import opened StreamEvents

  // ---- the course of a call ----

  /** A send, an error event of the dialect, a look at the abort mark, an upstream failure, or the end. */
  datatype Acts = End | Send(e: Ev, next: Acts) | Spoil(next: Acts) | Check(next: Acts) | Fail

  function Contents(n: nat, step: int, k: Acts): Acts {
    if n == 0 then k else Send(Ev(Content, step, None), Contents(n - 1, step, k))
  }

  function EmitActs(es: seq<Emission>, step: int, k: Acts): Acts {
    if es == [] then k
    else
      match es[0]
      case Delta => Send(Ev(Content, step, None), EmitActs(es[1..], step, k))
      case Hidden => EmitActs(es[1..], step, k)
      case Bad(_) => Spoil(EmitActs(es[1..], step, k))
  }

  /** The usage of the step after a frame. */
  function Latest(f: Frame, u: Option<Counts>): Option<Counts> {
    if f.empty || f.usage.None? then u else f.usage
  }

  function UsageAfter(fs: seq<Frame>, u: Option<Counts>): Option<Counts> {
    if fs == [] then u else UsageAfter(fs[1..], Latest(fs[0], u))
  }

  function FrameActs(f: Frame, step: int, k: Acts): Acts {
    Check(
      if f.empty then k
      else EmitActs(f.emits, step, Check(
        if f.failed then Fail
        else if f.usage.Some? then Send(Ev(UsageNote, step, f.usage), k)
        else k)))
  }

  function FramesActs(fs: seq<Frame>, step: int, k: Acts): Acts {
    if fs == [] then k else FrameActs(fs[0], step, FramesActs(fs[1..], step, k))
  }

  /** The guards at the end of a body: no transport error, a model frame, the completion signal. */
  predicate BodyOk(r: Round) {
    !r.cut && (exists f :: f in r.frames && !f.empty && f.model) && exists f :: f in r.frames && !f.empty && f.finished
  }

  function Close(u: Option<Counts>, step: int, k: Acts): Acts {
    Send(Ev(StepEnd, step, u), Check(k))
  }

  function Calls(t: Tools): nat {
    match t
    case NoTools => 0
    case HandBack(n) => n
    case Failing(n, _) => n
    case Direct(n, _, _) => n
    case Recurse(n, _) => n
  }

  /** After the completion signals of the tool calls. */
  function ToolRest(t: Tools, u: Option<Counts>, step: int, next: Script): Acts
    decreases next, 3
  {
    match t
    case Failing(_, results) => Contents(results, step, Fail)
    case Direct(_, results, synthetic) => Contents(results, step, Contents(synthetic, step, Close(u, step, End)))
    case Recurse(_, results) => Contents(results, step, Close(u, step, RoundActs(next, step + 1)))
    case _ => Close(u, step, End)
  }

  function ToolActs(t: Tools, u: Option<Counts>, step: int, next: Script): Acts
    decreases next, 4
  {
    if Calls(t) == 0 then Close(u, step, End) else Contents(Calls(t), step, Check(ToolRest(t, u, step, next)))
  }

  function AfterBody(script: Script, step: int): Acts
    requires script.More?
    decreases script, 0
  {
    if BodyOk(script.round) then ToolActs(script.round.tools, UsageAfter(script.round.frames, None), step, script.next)
    else Fail
  }

  /** A round and the rounds its tools call for. */
  function RoundActs(script: Script, step: int): Acts
    decreases script, 2
  {
    if script.Over? || !script.round.builds then Fail
    else
      Send(Ev(StepStart, step, None), Check(FramesActs(script.round.frames, step, AfterBody(script, step))))
  }

  const START := Ev(ResponseStart, 0, None)

  /** All events before the closing ones. */
  function CallActs(script: Script): Acts {
    Send(START, Check(RoundActs(script, 0)))
  }

  // ---- playing it to a consumer ----

  datatype Played = Played(err: Fault, log: seq<Ev>)

  /** A rejection and an error event set the abort mark once; from then on nothing is sent. */
  function Play(accepts: seq<Ev> -> bool, acts: Acts, log: seq<Ev>, abort: Fault): Played {
    match acts
    case End => Played(abort, log)
    case Send(e, k) =>
      if abort.Fine? then Play(accepts, k, log + [e], if accepts(log + [e]) then Fine else Sink)
      else Play(accepts, k, log, abort)
    case Spoil(k) => Play(accepts, k, log, if abort.Fine? then Upstream else abort)
    case Check(k) => if abort.Fine? then Play(accepts, k, log, abort) else Played(abort, log)
    case Fail => Played(Upstream, log)
  }

  function Outcome(accepts: seq<Ev> -> bool, script: Script): Played {
    Play(accepts, CallActs(script), [], Fine)
  }

  // ---- the consumer ----

  /** The consumer accepted every event it was sent. */
  predicate AllAccepted(accepts: seq<Ev> -> bool, log: seq<Ev>) {
    log == [] || (accepts(log) && AllAccepted(accepts, log[..|log| - 1]))
  }

  /** It rejected the last one, and that one only. */
  predicate JustRejected(accepts: seq<Ev> -> bool, log: seq<Ev>) {
    log != [] && !accepts(log) && AllAccepted(accepts, log[..|log| - 1])
  }

  lemma AcceptedOne(accepts: seq<Ev> -> bool, log: seq<Ev>, e: Ev)
    requires AllAccepted(accepts, log)
    ensures if accepts(log + [e]) then AllAccepted(accepts, log + [e]) else JustRejected(accepts, log + [e])
  {
    assert (log + [e])[..|log|] == log;
  }

  lemma FirstSend(accepts: seq<Ev> -> bool, e: Ev, k: Acts, log: seq<Ev>)
    requires log == [e]
    ensures Play(accepts, Send(e, k), [], Fine) == Play(accepts, k, log, if accepts(log) then Fine else Sink)
  {
    assert [] + [e] == log;
  }

  /** A call begins with RESPONSE_START and goes on if that is accepted. */
  lemma OutcomeStart(accepts: seq<Ev> -> bool, script: Script)
    ensures Outcome(accepts, script) ==
      if accepts([START]) then Play(accepts, RoundActs(script, 0), [START], Fine) else Played(Sink, [START])
    ensures PhaseOf([START]) == Between(0) && Ends([START]) == []
    ensures if accepts([START]) then AllAccepted(accepts, [START]) else JustRejected(accepts, [START])
  {
    hide RoundActs;
    assert [] + [START] == [START];
    FirstSend(accepts, START, Check(RoundActs(script, 0)), [START]);
    AcceptedOne(accepts, [], START);
    PhaseOne([], START);
    EndsOne([], START);
  }

  // ---- success and failure told from the script ----

  predicate CleanFrame(f: Frame) {
    f.empty || (!f.failed && forall e | e in f.emits :: !e.Bad?)
  }

  /** Every request can be built, no frame reports an error, every body is whole, no tool fails. */
  predicate Healthy(script: Script) {
    && script.More? && script.round.builds
    && (forall f | f in script.round.frames :: CleanFrame(f)) && BodyOk(script.round)
    && (Calls(script.round.tools) > 0 ==>
          !script.round.tools.Failing? && (script.round.tools.Recurse? ==> Healthy(script.next)))
  }

  /** No failure and no error event on the way. */
  predicate Smooth(acts: Acts) {
    match acts
    case End => true
    case Send(_, k) => Smooth(k)
    case Spoil(_) => false
    case Check(k) => Smooth(k)
    case Fail => false
  }

  lemma {:induction false} SmoothContents(n: nat, step: int, k: Acts)
    ensures Smooth(Contents(n, step, k)) == Smooth(k)
  {
    if n > 0 { SmoothContents(n - 1, step, k); }
  }

  lemma {:induction false} SmoothEmits(es: seq<Emission>, step: int, k: Acts)
    ensures Smooth(EmitActs(es, step, k)) <==> (forall e | e in es :: !e.Bad?) && Smooth(k)
  {
    if es != [] {
      SmoothEmits(es[1..], step, k);
      assert es == [es[0]] + es[1..];
      assert (forall e | e in es :: !e.Bad?) <==> !es[0].Bad? && forall e | e in es[1..] :: !e.Bad?;
    }
  }

  lemma {:induction false} SmoothFrames(fs: seq<Frame>, step: int, k: Acts)
    ensures Smooth(FramesActs(fs, step, k)) <==> (forall f | f in fs :: CleanFrame(f)) && Smooth(k)
  {
    if fs != [] {
      var f, rest := fs[0], FramesActs(fs[1..], step, k);
      SmoothFrames(fs[1..], step, k);
      SmoothEmits(f.emits, step, Check(
        if f.failed then Fail
        else if f.usage.Some? then Send(Ev(UsageNote, step, f.usage), rest)
        else rest));
      assert fs == [f] + fs[1..];
      assert (forall g | g in fs :: CleanFrame(g)) <==> CleanFrame(f) && forall g | g in fs[1..] :: CleanFrame(g);
    }
  }

  lemma {:induction false} SmoothIsHealthy(script: Script, step: int)
    ensures Smooth(RoundActs(script, step)) == Healthy(script)
    decreases script
  {
    if script.More? && script.round.builds {
      SmoothFrames(script.round.frames, step, AfterBody(script, step));
      if BodyOk(script.round) {
        SmoothTools(script.round.tools, UsageAfter(script.round.frames, None), step, script.next);
        if script.round.tools.Recurse? {
          SmoothIsHealthy(script.next, step + 1);
        }
      }
    }
  }

  lemma SmoothTools(t: Tools, u: Option<Counts>, step: int, next: Script)
    ensures Smooth(ToolActs(t, u, step, next)) ==
      (Calls(t) > 0 ==> !t.Failing? && (t.Recurse? ==> Smooth(RoundActs(next, step + 1))))
  {
    hide RoundActs;
    SmoothContents(Calls(t), step, Check(ToolRest(t, u, step, next)));
    assert Smooth(End) && Smooth(Check(End)) && Smooth(Close(u, step, End));
    match t
    case Failing(_, results) => SmoothContents(results, step, Fail);
    case Direct(_, results, synthetic) =>
      SmoothContents(synthetic, step, Close(u, step, End));
      SmoothContents(results, step, Contents(synthetic, step, Close(u, step, End)));
    case Recurse(_, results) =>
      var k := RoundActs(next, step + 1);
      SmoothContents(results, step, Close(u, step, k));
      assert Smooth(Check(k)) == Smooth(k);
    case _ =>
  }

  // ---- what a script comes to ----

  /** Without failures a call ends well exactly when the consumer accepts everything, and with the
      consumer's error as soon as it does not. */
  lemma {:induction false} SmoothPlay(accepts: seq<Ev> -> bool, acts: Acts, log: seq<Ev>, abort: Fault)
    requires Smooth(acts) && abort != Upstream
    requires if abort.Fine? then AllAccepted(accepts, log) else JustRejected(accepts, log)
    ensures var o := Play(accepts, acts, log, abort);
      && o.err != Upstream
      && if o.err.Fine? then AllAccepted(accepts, o.log) else JustRejected(accepts, o.log)
    decreases acts
  {
    match acts
    case Send(e, k) =>
      if abort.Fine? {
        AcceptedOne(accepts, log, e);
        SmoothPlay(accepts, k, log + [e], if accepts(log + [e]) then Fine else Sink);
      } else {
        SmoothPlay(accepts, k, log, abort);
      }
    case Check(k) => if abort.Fine? { SmoothPlay(accepts, k, log, abort); }
    case _ =>
  }

  /** A provider without failures: the call ends well if and only if every event before the terminal one
      is accepted; otherwise it returns the consumer's error, and the rejected event is the last. */
  lemma HealthyOutcome(accepts: seq<Ev> -> bool, script: Script)
    requires Healthy(script)
    ensures var o := Outcome(accepts, script);
      && o.err != Upstream && (o.err.Fine? <==> AllAccepted(accepts, o.log))
      && (o.err.Sink? <==> JustRejected(accepts, o.log))
  {
    hide Play, RoundActs, Healthy;
    SmoothIsHealthy(script, 0);
    SmoothPlay(accepts, CallActs(script), [], Fine);
    var o := Outcome(accepts, script);
    if o.err.Fine? && o.log != [] {
      assert accepts(o.log);
    }
  }

  lemma {:induction false} RoughPlay(accepts: seq<Ev> -> bool, acts: Acts, log: seq<Ev>)
    requires forall log :: accepts(log)
    ensures Play(accepts, acts, log, Fine).err == if Smooth(acts) then Fine else Upstream
    decreases acts
  {
    match acts
    case Send(e, k) => RoughPlay(accepts, k, log + [e]);
    case Spoil(k) => SpoiltPlay(accepts, k, log);
    case Check(k) => RoughPlay(accepts, k, log);
    case _ =>
  }

  lemma {:induction false} SpoiltPlay(accepts: seq<Ev> -> bool, acts: Acts, log: seq<Ev>)
    ensures Play(accepts, acts, log, Upstream) == Played(Upstream, log)
    decreases acts
  {
    match acts
    case Send(e, k) => SpoiltPlay(accepts, k, log);
    case Spoil(k) => SpoiltPlay(accepts, k, log);
    case _ =>
  }

  /** A consumer that accepts everything sees success exactly when the provider is without failures. */
  lemma AcceptingOutcome(accepts: seq<Ev> -> bool, script: Script)
    requires forall log :: accepts(log)
    ensures Outcome(accepts, script).err == if Healthy(script) then Fine else Upstream
  {
    hide Play, RoundActs, Healthy;
    SmoothIsHealthy(script, 0);
    RoughPlay(accepts, CallActs(script), []);
  }

  // ---- what follows a rejection ----

  /** What the script still asks for after the first event the consumer rejects. */
  function Rest(accepts: seq<Ev> -> bool, acts: Acts, log: seq<Ev>): Acts {
    match acts
    case Send(e, k) => if accepts(log + [e]) then Rest(accepts, k, log + [e]) else k
    case Check(k) => Rest(accepts, k, log)
    case _ => End
  }

  /** The next look at the abort mark comes before the next failure. */
  predicate Caught(acts: Acts) {
    match acts
    case End => true
    case Send(_, k) => Caught(k)
    case Spoil(k) => Caught(k)
    case Check(_) => true
    case Fail => false
  }

  lemma {:induction false} AfterRejection(accepts: seq<Ev> -> bool, acts: Acts, log: seq<Ev>)
    ensures Play(accepts, acts, log, Sink) == Played(if Caught(acts) then Sink else Upstream, log)
    decreases acts
  {
    match acts
    case Send(_, k) => AfterRejection(accepts, k, log);
    case Spoil(k) => AfterRejection(accepts, k, log);
    case _ =>
  }

  lemma {:induction false} RejectedPlay(accepts: seq<Ev> -> bool, acts: Acts, log: seq<Ev>)
    requires AllAccepted(accepts, log)
    ensures var o := Play(accepts, acts, log, Fine);
      var rest := Rest(accepts, acts, log);
      if AllAccepted(accepts, o.log) then o.err != Sink && rest == End
      else JustRejected(accepts, o.log) && o.err == if Caught(rest) then Sink else Upstream
    decreases acts
  {
    match acts
    case Send(e, k) =>
      AcceptedOne(accepts, log, e);
      if accepts(log + [e]) {
        RejectedPlay(accepts, k, log + [e]);
      } else {
        AfterRejection(accepts, k, log + [e]);
      }
    case Spoil(k) => SpoiltPlay(accepts, k, log);
    case Check(k) => RejectedPlay(accepts, k, log);
    case _ =>
  }

  /** For every provider and consumer: if an event before the closing ones is rejected it is the last of
      them, and the consumer's error is returned if and only if no failure of the script comes between
      that event and the next look at the abort mark. */
  lemma RejectionOutcome(accepts: seq<Ev> -> bool, script: Script)
    ensures var o := Outcome(accepts, script);
      var rest := Rest(accepts, CallActs(script), []);
      if AllAccepted(accepts, o.log) then o.err != Sink && Caught(rest)
      else JustRejected(accepts, o.log) && o.err == if Caught(rest) then Sink else Upstream
  {
    hide RoundActs;
    RejectedPlay(accepts, CallActs(script), []);
  }

  /** Every event that can be sent is followed by a look at the abort mark before a failure. */
  predicate AllCaught(acts: Acts) {
    match acts
    case Send(_, k) => Caught(k) && AllCaught(k)
    case Check(k) => AllCaught(k)
    case _ => true
  }

  /** The frames are read to the end. */
  predicate ReadThrough(fs: seq<Frame>) {
    forall f | f in fs :: CleanFrame(f)
  }

  /** No frame that is read brings a usage as the last thing before the body fails. */
  predicate FramesCovered(fs: seq<Frame>, fails: bool) {
    fs == [] || !CleanFrame(fs[0])
    || ((!fs[0].empty && fs[0].usage.Some? && |fs| == 1 ==> !fails) && FramesCovered(fs[1..], fails))
  }

  /** No round that is reached ends with a usage in front of a failing body, or with the results of
      tools of which one fails. */
  predicate Covered(script: Script) {
    script.Over? || !script.round.builds
    || (&& FramesCovered(script.round.frames, !BodyOk(script.round))
        && (ReadThrough(script.round.frames) && BodyOk(script.round) && Calls(script.round.tools) > 0 ==>
              && (script.round.tools.Failing? ==> script.round.tools.results == 0)
              && (script.round.tools.Recurse? ==> Covered(script.next))))
  }

  lemma {:induction false} CaughtContents(n: nat, step: int, k: Acts)
    ensures Caught(Contents(n, step, k)) == Caught(k)
    ensures AllCaught(Contents(n, step, k)) <==> (n > 0 ==> Caught(k)) && AllCaught(k)
  {
    if n > 0 { CaughtContents(n - 1, step, k); }
  }

  lemma {:induction false} CaughtEmits(es: seq<Emission>, step: int, k: Acts)
    ensures Caught(EmitActs(es, step, Check(k)))
    ensures AllCaught(EmitActs(es, step, Check(k))) <==> ((forall e | e in es :: !e.Bad?) ==> AllCaught(k))
  {
    if es != [] {
      CaughtEmits(es[1..], step, k);
      assert es == [es[0]] + es[1..];
      assert (forall e | e in es :: !e.Bad?) <==> !es[0].Bad? && forall e | e in es[1..] :: !e.Bad?;
    }
  }

  lemma CaughtFrame(f: Frame, step: int, rest: Acts)
    ensures Caught(FrameActs(f, step, rest))
    ensures AllCaught(FrameActs(f, step, rest)) <==>
      (CleanFrame(f) ==> (!f.empty && f.usage.Some? ==> Caught(rest)) && AllCaught(rest))
  {
    var after := if f.failed then Fail
      else if f.usage.Some? then Send(Ev(UsageNote, step, f.usage), rest)
      else rest;
    CaughtEmits(f.emits, step, after);
  }

  lemma {:induction false} CaughtFrames(fs: seq<Frame>, step: int, k: Acts)
    ensures AllCaught(FramesActs(fs, step, k)) <==>
      FramesCovered(fs, !Caught(k)) && (ReadThrough(fs) ==> AllCaught(k))
    ensures fs != [] ==> Caught(FramesActs(fs, step, k))
  {
    if fs != [] {
      hide Caught, AllCaught, FrameActs, CleanFrame;
      var f, rest := fs[0], FramesActs(fs[1..], step, k);
      CaughtFrames(fs[1..], step, k);
      CaughtFrame(f, step, rest);
      assert fs == [f] + fs[1..];
      assert ReadThrough(fs) <==> CleanFrame(f) && ReadThrough(fs[1..]);
    }
  }

  lemma CaughtTools(t: Tools, u: Option<Counts>, step: int, next: Script)
    ensures Caught(ToolActs(t, u, step, next))
    ensures AllCaught(ToolActs(t, u, step, next)) <==>
      (Calls(t) > 0 ==> (t.Failing? ==> t.results == 0) && (t.Recurse? ==> AllCaught(RoundActs(next, step + 1))))
  {
    hide RoundActs;
    CaughtContents(Calls(t), step, Check(ToolRest(t, u, step, next)));
    assert AllCaught(End) && AllCaught(Check(End)) && AllCaught(Close(u, step, End)) && Caught(Close(u, step, End));
    match t
    case Failing(_, results) => CaughtContents(results, step, Fail);
    case Direct(_, results, synthetic) =>
      CaughtContents(synthetic, step, Close(u, step, End));
      CaughtContents(results, step, Contents(synthetic, step, Close(u, step, End)));
    case Recurse(_, results) =>
      var k := RoundActs(next, step + 1);
      CaughtContents(results, step, Close(u, step, k));
      assert AllCaught(Check(k)) == AllCaught(k) && Caught(Check(k));
    case _ =>
  }

  lemma {:induction false} CaughtIsCovered(script: Script, step: int)
    ensures AllCaught(RoundActs(script, step)) == Covered(script)
    decreases script
  {
    if script.More? && script.round.builds {
      var k := AfterBody(script, step);
      CaughtFrames(script.round.frames, step, k);
      if BodyOk(script.round) {
        CaughtTools(script.round.tools, UsageAfter(script.round.frames, None), step, script.next);
        if script.round.tools.Recurse? {
          CaughtIsCovered(script.next, step + 1);
        }
      }
    }
  }

  /** Rejects the event that makes the log n long, and no other. */
  function RejectAt(n: nat): seq<Ev> -> bool {
    (log: seq<Ev>) => |log| != n
  }

  lemma {:induction false} AcceptedUpTo(n: nat, log: seq<Ev>)
    requires |log| < n
    ensures AllAccepted(RejectAt(n), log)
  {
    if log != [] { AcceptedUpTo(n, log[..|log| - 1]); }
  }

  lemma {:induction false} CaughtRest(accepts: seq<Ev> -> bool, acts: Acts, log: seq<Ev>)
    requires AllCaught(acts)
    ensures Caught(Rest(accepts, acts, log))
    decreases acts
  {
    match acts
    case Send(e, k) => if accepts(log + [e]) { CaughtRest(accepts, k, log + [e]); }
    case Check(k) => CaughtRest(accepts, k, log);
    case _ =>
  }

  lemma {:induction false} UncaughtRest(acts: Acts, log: seq<Ev>) returns (n: nat)
    requires !AllCaught(acts)
    ensures n > |log| && !Caught(Rest(RejectAt(n), acts, log))
    decreases acts
  {
    match acts
    case Send(e, k) =>
      if Caught(k) {
        n := UncaughtRest(k, log + [e]);
      } else {
        n := |log| + 1;
      }
    case Check(k) => n := UncaughtRest(k, log);
    case _ =>
  }

  /** Whatever the consumer rejects, nothing follows it and its error is returned: for every consumer, if
      and only if the script never fails right behind an event. */
  lemma RejectionAlwaysEnds(script: Script)
    ensures Covered(script) ==> forall accepts: seq<Ev> -> bool ::
      var o := Outcome(accepts, script); AllAccepted(accepts, o.log) || o.err == Sink
    ensures !Covered(script) ==> exists n: nat ::
      var o := Outcome(RejectAt(n), script); JustRejected(RejectAt(n), o.log) && o.err == Upstream
  {
    hide *;
    CaughtIsCovered(script, 0);
    CallCaught(script);
    if Covered(script) {
      forall accepts: seq<Ev> -> bool
        ensures AllAccepted(accepts, Outcome(accepts, script).log) || Outcome(accepts, script).err == Sink
      {
        RejectionOutcome(accepts, script);
        CaughtRest(accepts, CallActs(script), []);
      }
    } else {
      var n := UncaughtRest(CallActs(script), []);
      RejectionOutcome(RejectAt(n), script);
      assert JustRejected(RejectAt(n), Outcome(RejectAt(n), script).log);
    }
  }

  lemma CallCaught(script: Script)
    ensures AllCaught(CallActs(script)) == AllCaught(RoundActs(script, 0))
  {
    hide RoundActs;
  }

  // ---- a rejection that does not end the call ----

  /** One round with one frame that brings content and a usage, after which the transport fails. */
  function Truncated(u: Counts): Script {
    More(Round(true, [Frame(false, true, [Delta], Some(u), true, false)], true, NoTools), Over)
  }

  /** Its consumer rejects the usage, the fourth event; yet the upstream error is returned, and so the
      closing events follow. */
  lemma RejectionBeforeFailure(u: Counts)
    ensures var o := Outcome(RejectAt(4), Truncated(u));
      && o.err == Upstream && |o.log| == 4 && o.log[3].typ == UsageNote && JustRejected(RejectAt(4), o.log)
    ensures !Covered(Truncated(u))
  {
    var script := Truncated(u);
    var fs := script.round.frames;
    var f := fs[0];
    assert fs[1..] == [] && f.emits[1..] == [];
    var content, note := Ev(Content, 0, None), Ev(UsageNote, 0, Some(u));
    assert AfterBody(script, 0) == Fail;
    assert FramesActs(fs[1..], 0, Fail) == Fail;
    assert EmitActs(f.emits[1..], 0, Check(Send(note, Fail))) == Check(Send(note, Fail));
    assert EmitActs(f.emits, 0, Check(Send(note, Fail))) == Send(content, Check(Send(note, Fail)));
    var frames := Check(Send(content, Check(Send(note, Fail))));
    assert FramesActs(fs, 0, Fail) == frames;
    var accepts := RejectAt(4);
    var a := [] + [START];
    var b := a + [Ev(StepStart, 0, None)];
    var c := b + [content];
    var d := c + [note];
    assert Play(accepts, Fail, d, Sink) == Played(Upstream, d);
    assert Play(accepts, Send(note, Fail), c, Fine) == Played(Upstream, d);
    assert Play(accepts, Check(Send(note, Fail)), c, Fine) == Played(Upstream, d);
    assert Play(accepts, Send(content, Check(Send(note, Fail))), b, Fine) == Played(Upstream, d);
    assert Play(accepts, frames, b, Fine) == Played(Upstream, d);
    assert Play(accepts, Check(frames), b, Fine) == Played(Upstream, d);
    assert Play(accepts, RoundActs(script, 0), a, Fine) == Played(Upstream, d);
    assert Play(accepts, Check(RoundActs(script, 0)), a, Fine) == Played(Upstream, d);
    assert Outcome(accepts, script) == Played(Upstream, d);
    assert d[..|d| - 1] == c;
    AcceptedUpTo(4, c);
    assert FramesCovered(fs[1..], true);
  }
}

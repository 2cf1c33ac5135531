/** What a run of the pending table says of its calls: when the session is closed, which ids were given,
    where a response is found and why a call came back with its result. */
module RpcLaws {
  import opened RpcSession

  predicate Closing(step: Step) {
    step.Close? || step.TransportEnds?
  }

  /** A session is closed exactly when someone closed it or its transport ended. */
  lemma {:induction false} ClosedIff(s: State, steps: seq<Step>)
    requires Runs(s, steps)
    ensures After(s, steps).closed <==> s.closed || exists i | 0 <= i < |steps| :: Closing(steps[i])
    decreases |steps|
  {
    if steps != [] {
      ClosedIff(Apply(s, steps[0]), steps[1..]);
      assert Apply(s, steps[0]).closed <==> s.closed || Closing(steps[0]);
      assert forall i | 1 <= i < |steps| :: steps[i] == steps[1..][i - 1];
      assert forall i | 0 <= i < |steps| - 1 :: steps[1..][i] == steps[i + 1];
    }
  }

  /** However a session was closed, and whatever happened since, a waiting call can return by itself and
      leaves nothing in the table; before that it cannot leave this way. */
  lemma ReleasedIff(steps: seq<Step>, p: nat)
    requires Runs(START, steps) && At(After(START, steps), p, Waiting)
    ensures var s := After(START, steps);
      Enabled(s, SeeClosed(p)) <==> exists i | 0 <= i < |steps| :: Closing(steps[i])
    ensures var s := After(START, steps);
      (exists i | 0 <= i < |steps| :: Closing(steps[i])) ==>
        && Runs(s, [SeeClosed(p), Return(p)])
        && At(After(s, [SeeClosed(p), Return(p)]), p, Returned(SessionClosed))
        && s.senders[p].id !in After(s, [SeeClosed(p), Return(p)]).table
  {
    hide Runs, After;
    ClosedIff(START, steps);
    var s := After(START, steps);
    if s.closed {
      CloseReleases(s, p);
      TwoSteps(s, SeeClosed(p), Return(p));
    }
  }

  lemma TwoSteps(s: State, x: Step, y: Step)
    requires Enabled(s, x) && Enabled(Apply(s, x), y)
    ensures Runs(s, [x, y]) && After(s, [x, y]) == Apply(Apply(s, x), y)
  {
    hide *;
    assert [y] + [] == [y] && [x] + [y] == [x, y];
    NoSteps(Apply(Apply(s, x), y));
    OneMore(Apply(s, x), y, []);
    OneMore(s, x, [y]);
  }

  // ---- ids ----

  /** How many calls took an id. */
  function Takes(steps: seq<Step>): nat {
    if steps == [] then 0 else (if steps[0].TakeId? then 1 else 0) + Takes(steps[1..])
  }

  lemma {:induction false} IdsCount(s: State, steps: seq<Step>)
    requires Runs(s, steps)
    ensures After(s, steps).nextId == s.nextId + Takes(steps)
    decreases |steps|
  {
    if steps != [] {
      IdsCount(Apply(s, steps[0]), steps[1..]);
    }
  }

  lemma {:induction false} IdStays(s: State, steps: seq<Step>, p: nat)
    requires Inv(s) && Runs(s, steps) && p in s.senders && HasId(s.senders[p])
    ensures var t := After(s, steps);
      p in t.senders && HasId(t.senders[p]) && t.senders[p].id == s.senders[p].id
    decreases |steps|
  {
    hide *;
    if steps == [] {
      NoSteps(s);
    } else {
      Unroll(s, steps);
      KeepsId(s, steps[0], p);
      StepKeeps(s, steps[0]);
      IdStays(Apply(s, steps[0]), steps[1..], p);
    }
  }

  lemma KeepsId(s: State, step: Step, p: nat)
    requires Inv(s) && Enabled(s, step) && p in s.senders && HasId(s.senders[p])
    ensures var t := Apply(s, step);
      p in t.senders && HasId(t.senders[p]) && t.senders[p].id == s.senders[p].id
  {
    hide Ids, Entries, Pumps, Posts;
  }

  lemma Unroll(s: State, steps: seq<Step>)
    requires Runs(s, steps) && steps != []
    ensures Enabled(s, steps[0]) && Runs(Apply(s, steps[0]), steps[1..])
    ensures After(s, steps) == After(Apply(s, steps[0]), steps[1..])
  {
  }

  /** The n-th call that takes an id has the id n, for good. */
  lemma IdIsNth(steps: seq<Step>, p: nat, more: seq<Step>)
    requires Runs(START, steps) && Enabled(After(START, steps), TakeId(p))
    requires Runs(Apply(After(START, steps), TakeId(p)), more)
    ensures var t := After(Apply(After(START, steps), TakeId(p)), more);
      p in t.senders && t.senders[p].id == Takes(steps) + 1
  {
    IdsCount(START, steps);
    AfterInv(START, steps);
    var s := After(START, steps);
    hide Runs, After, Inv;
    StepKeeps(s, TakeId(p));
    IdStays(Apply(s, TakeId(p)), more, p);
  }

  // ---- where a response is ----

  predicate HeldFor(s: State, p: nat) {
    exists a :: a in s.pumps && s.pumps[a].sender == p
  }

  /** A call that nobody has answered yet can be found in the table, unless the session is being dismissed. */
  predicate Findable(s: State, p: nat) {
    p in s.senders && Listed(s.senders[p]) && !s.senders[p].phase.Returned? && !s.dismissing ==>
      p in s.posts || HeldFor(s, p) || (s.senders[p].id, p) in s.table.Items
  }

  /** What was posted stays in the channel until the call receives it. */
  predicate Stays(s: State, p: nat) {
    p in s.senders && p in s.posts ==>
      s.senders[p].channel.Some? || s.senders[p].phase.Leaving? || s.senders[p].phase.Returned?
  }

  predicate Tracked(s: State, p: nat) {
    Findable(s, p) && Stays(s, p)
  }

  lemma FindableKeeps(s: State, step: Step, p: nat)
    requires Inv(s) && Enabled(s, step) && Findable(s, p)
    ensures Findable(Apply(s, step), p)
  {
    hide Entries, Pumps, Channels, Posts;
    var t := Apply(s, step);
    if HeldFor(s, p) {
      HeldStays(s, step, p);
    }
    if step.Load? && step.r.id.Number? && (step.r.id.n, p) in s.table.Items {
      assert t.pumps[step.pump].sender == p;
      assert HeldFor(t, p);
    }
    hide HeldFor;
    match step
    case TakeId(q) => assert q == p ==> !Listed(t.senders[p]);
    case Return(q) => assert q != p && p in s.senders && Listed(s.senders[p]) ==> s.senders[q].id != s.senders[p].id;
    case _ =>
  }

  lemma StaysKeeps(s: State, step: Step, p: nat)
    requires Inv(s) && Enabled(s, step) && Stays(s, p)
    ensures Stays(Apply(s, step), p)
  {
    hide Ids, Entries, Pumps, Channels;
  }

  /** A pump keeps a channel until it posts into it. */
  lemma HeldStays(s: State, step: Step, p: nat)
    requires Enabled(s, step) && HeldFor(s, p)
    ensures HeldFor(Apply(s, step), p) || (step.Post? && s.pumps[step.pump].sender == p)
  {
    var a :| a in s.pumps && s.pumps[a].sender == p;
    var t := Apply(s, step);
    if !(step.Post? && step.pump == a) {
      assert a in t.pumps && t.pumps[a].sender == p;
    }
  }

  lemma TrackedIs(s: State, p: nat)
    ensures Tracked(s, p) <==> Findable(s, p) && Stays(s, p)
  {
  }

  lemma {:induction false} AfterTracked(s: State, steps: seq<Step>, p: nat)
    requires Inv(s) && Runs(s, steps) && Tracked(s, p)
    ensures Tracked(After(s, steps), p)
    decreases |steps|
  {
    hide *;
    if steps == [] {
      NoSteps(s);
    } else {
      Unroll(s, steps);
      TrackedIs(s, p);
      FindableKeeps(s, steps[0], p);
      StaysKeeps(s, steps[0], p);
      TrackedIs(Apply(s, steps[0]), p);
      StepKeeps(s, steps[0]);
      AfterTracked(Apply(s, steps[0]), steps[1..], p);
    }
  }

  /** Unless the session is being dismissed, a waiting call gets its response, wherever that is: in the
      channel, in the hands of a pump, or still to be read by one. */
  lemma ResponseReaches(s: State, p: nat, pump: nat, r: Response)
    requires Reachable(s) && At(s, p, Waiting) && !s.dismissing
    requires pump !in s.pumps && r.id == Number(s.senders[p].id)
    ensures p in s.posts ==> Enabled(s, Receive(p))
    ensures forall a | a in s.pumps && s.pumps[a].sender == p ::
      && Runs(s, [Post(a), Receive(p)])
      && At(After(s, [Post(a), Receive(p)]), p, Leaving(Answer(s.pumps[a].response)))
    ensures p !in s.posts && !HeldFor(s, p) ==>
      && Runs(s, [Load(pump, r), Post(pump), Receive(p)])
      && At(After(s, [Load(pump, r), Post(pump), Receive(p)]), p, Leaving(Answer(r)))
  {
    ReachableTracked(s, p);
    forall a | a in s.pumps && s.pumps[a].sender == p
      ensures Runs(s, [Post(a), Receive(p)])
      ensures At(After(s, [Post(a), Receive(p)]), p, Leaving(Answer(s.pumps[a].response)))
    {
      hide Reachable, Tracked, Runs, After;
      PostNeverBlocks(s, a);
      TwoSteps(s, Post(a), Receive(p));
    }
    if p !in s.posts && !HeldFor(s, p) {
      ResponseArrives(s, p, pump, r);
    }
  }

  lemma ReachableTracked(s: State, p: nat)
    requires Reachable(s)
    ensures Tracked(s, p)
  {
    hide Runs, After;
    var steps :| Runs(START, steps) && After(START, steps) == s;
    AfterTracked(START, steps, p);
  }

  // ---- why a call came back ----

  predicate EndsWith(s: State, p: nat, result: Result) {
    At(s, p, Leaving(result)) || At(s, p, Returned(result))
  }

  predicate Answered(s: State, p: nat) {
    p in s.senders && (s.senders[p].phase.Leaving? || s.senders[p].phase.Returned?) &&
    s.senders[p].phase.result.Answer?
  }

  ghost predicate Loaded(past: seq<Step>, r: Response) {
    exists a :: Load(a, r) in past
  }

  /** The step that ended a call is the one its result names. */
  predicate ResultTold(past: seq<Step>, s: State, p: nat) {
    && (EndsWith(s, p, Unavailable) <==> NoStream(p) in past)
    && (EndsWith(s, p, TransportError) <==> SendFails(p) in past)
    && (EndsWith(s, p, TimedOut) <==> TimeOut(p) in past)
    && (EndsWith(s, p, SessionClosed) <==> SeeClosed(p) in past)
    && (Answered(s, p) <==> Receive(p) in past)
  }

  /** Every response in hand was read off the transport. */
  ghost predicate AllLoaded(past: seq<Step>, s: State) {
    && (forall a | a in s.pumps :: Loaded(past, s.pumps[a].response))
    && (forall p | p in s.senders && s.senders[p].channel.Some? :: Loaded(past, s.senders[p].channel.value))
    && (forall p | Answered(s, p) :: Loaded(past, s.senders[p].phase.result.r))
  }

  lemma ToldKeeps(past: seq<Step>, s: State, step: Step, p: nat)
    requires Enabled(s, step) && ResultTold(past, s, p)
    ensures ResultTold(past + [step], Apply(s, step), p)
  {
    hide *;
    ToldParts(past, s, p);
    ToldParts(past + [step], Apply(s, step), p);
    forall result: Result | !result.Answer?
      ensures EndsWith(Apply(s, step), p, result) <==> EndOf(p, result) in past + [step]
    {
      EndsBy(s, step, p, result);
    }
    AnsweredBy(s, step, p);
    assert forall x :: x in past + [step] <==> x in past || x == step;
  }

  lemma ToldParts(past: seq<Step>, s: State, p: nat)
    ensures ResultTold(past, s, p) <==>
      && (forall result: Result | !result.Answer? :: EndsWith(s, p, result) <==> EndOf(p, result) in past)
      && (Answered(s, p) <==> Receive(p) in past)
  {
  }

  /** The step that ends a call with such a result. */
  function EndOf(p: nat, result: Result): Step
    requires !result.Answer?
  {
    match result
    case Unavailable => NoStream(p)
    case TransportError => SendFails(p)
    case TimedOut => TimeOut(p)
    case SessionClosed => SeeClosed(p)
  }

  lemma EndsBy(s: State, step: Step, p: nat, result: Result)
    requires Enabled(s, step) && !result.Answer?
    ensures EndsWith(Apply(s, step), p, result) <==> EndsWith(s, p, result) || step == EndOf(p, result)
  {
  }

  lemma AnsweredBy(s: State, step: Step, p: nat)
    requires Enabled(s, step)
    ensures Answered(Apply(s, step), p) <==> Answered(s, p) || step == Receive(p)
  {
  }

  lemma LoadedKeeps(past: seq<Step>, s: State, step: Step)
    requires Enabled(s, step) && AllLoaded(past, s)
    ensures AllLoaded(past + [step], Apply(s, step))
  {
    hide Enabled, Apply;
    var t, now := Apply(s, step), past + [step];
    forall r | Loaded(past, r) ensures Loaded(now, r) {
      LoadedMore(past, step, r);
    }
    if step.Load? {
      assert Load(step.pump, step.r) in now;
      assert Loaded(now, step.r);
    }
    hide Loaded;
    forall a | a in t.pumps ensures Loaded(now, t.pumps[a].response) {
      HeldBefore(s, step, a);
    }
    forall p | p in t.senders && t.senders[p].channel.Some? ensures Loaded(now, t.senders[p].channel.value) {
      FilledBefore(s, step, p);
    }
    forall p | Answered(t, p) ensures Loaded(now, t.senders[p].phase.result.r) {
      AnsweredBefore(s, step, p);
    }
  }

  lemma LoadedMore(past: seq<Step>, step: Step, r: Response)
    requires Loaded(past, r)
    ensures Loaded(past + [step], r)
  {
    var a :| Load(a, r) in past;
    assert Load(a, r) in past + [step];
  }

  lemma HeldBefore(s: State, step: Step, a: nat)
    requires Enabled(s, step) && a in Apply(s, step).pumps
    ensures var h := Apply(s, step).pumps[a];
      (a in s.pumps && s.pumps[a] == h) || (step.Load? && step.r == h.response)
  {
  }

  lemma FilledBefore(s: State, step: Step, p: nat)
    requires Enabled(s, step) && p in Apply(s, step).senders && Apply(s, step).senders[p].channel.Some?
    ensures var c := Apply(s, step).senders[p].channel;
      || (p in s.senders && s.senders[p].channel == c)
      || (step.Post? && step.pump in s.pumps && s.pumps[step.pump].response == c.value)
  {
  }

  lemma AnsweredBefore(s: State, step: Step, p: nat)
    requires Enabled(s, step) && Answered(Apply(s, step), p)
    ensures p in s.senders
    ensures var r := Apply(s, step).senders[p].phase.result.r;
      || (Answered(s, p) && s.senders[p].phase.result.r == r)
      || s.senders[p].channel == Some(r)
  {
  }

  lemma {:induction false} AfterTold(past: seq<Step>, s: State, steps: seq<Step>, p: nat)
    requires Runs(s, steps) && ResultTold(past, s, p) && AllLoaded(past, s)
    ensures ResultTold(past + steps, After(s, steps), p) && AllLoaded(past + steps, After(s, steps))
    decreases |steps|
  {
    hide *;
    if steps == [] {
      NoSteps(s);
      assert past + steps == past;
    } else {
      Unroll(s, steps);
      ToldKeeps(past, s, steps[0], p);
      LoadedKeeps(past, s, steps[0]);
      AfterTold(past + [steps[0]], Apply(s, steps[0]), steps[1..], p);
      assert past + [steps[0]] + steps[1..] == past + steps;
    }
  }

  /** A call came back with the result of the one step of its own that ended it, and an answer is a
      response that was read off the transport with the id of the call. */
  lemma ResultIs(steps: seq<Step>, p: nat)
    requires Runs(START, steps)
    ensures ResultTold(steps, After(START, steps), p)
    ensures var s := After(START, steps);
      Answered(s, p) ==>
        && Loaded(steps, s.senders[p].phase.result.r)
        && s.senders[p].phase.result.r.id == Number(s.senders[p].id)
  {
    assert [] + steps == steps;
    AfterTold([], START, steps, p);
    if Answered(After(START, steps), p) {
      AnsweredByOwnId(After(START, steps), p);
    }
  }
}

/** ai/model.go: the non-streaming call, whose recorded events have the shape of a stream. */
module StreamCall {
  import opened StreamEvents

  /** One round trip: the request can be built, the response is usable, what the dialect emits, a usage,
      an error it records without an event, the tools. */
  datatype Trip = Trip(builds: bool, usable: bool, emits: seq<Emission>, usage: Option<Counts>, failed: bool,
      tools: Tools)

  datatype Trips = Over | More(trip: Trip, next: Trips)

  predicate Calls(t: Trip) {
    !t.tools.NoTools? && t.tools.calls > 0
  }

  predicate Recurs(t: Trip) {
    t.tools.Recurse? && Calls(t)
  }

  /** No trip that is taken breaks off: the last is the first whose tools do not start another. */
  predicate Succeeds(trips: Trips) {
    && trips.More? && trips.trip.builds && trips.trip.usable && !trips.trip.failed && Bad(true) !in trips.trip.emits
    && !(trips.trip.tools.Failing? && Calls(trips.trip))
    && (Recurs(trips.trip) ==> Succeeds(trips.next))
  }

  predicate NoErrorEvent(trips: Trips) {
    trips.More? ==>
      (forall e <- trips.trip.emits :: !e.Bad?) && (Recurs(trips.trip) ==> NoErrorEvent(trips.next))
  }

  /** An error event that brings no error with it: the call succeeds, and its trace is no stream. */
  lemma FlaggedCall()
    ensures var trips := Trips.More(Trip(true, true, [Bad(false)], None, false, NoTools), Trips.Over);
      Succeeds(trips) && !NoErrorEvent(trips)
  {
    assert [Bad(false)][0].Bad?;
  }

  function EmitTold(e: Emission, n: int): seq<Ev> {
    match e
    case Delta => [Ev(Content, n, None)]
    case Hidden => []
    case Bad(_) => [Ev(Error, n, None)]
  }

  /** What a dialect emits, in order: hidden emissions leave no event. */
  function EmitsTold(es: seq<Emission>, n: int): seq<Ev> {
    if es == [] then [] else EmitsTold(es[..|es| - 1], n) + EmitTold(es[|es| - 1], n)
  }

  /** The blocks of a call that succeeds: what its trips emit, each closed with the usage of its trip. */
  function TripsTold(trips: Trips, n: int): seq<Ev> {
    if trips.Over? then []
    else
      [Ev(StepStart, n, None)] + EmitsTold(trips.trip.emits, n) + [Ev(StepEnd, n, trips.trip.usage)]
        + if Recurs(trips.trip) then TripsTold(trips.next, n + 1) else []
  }

  lemma EmitsOne(es: seq<Emission>, i: nat, n: int)
    requires i < |es|
    ensures EmitsTold(es[..i + 1], n) == EmitsTold(es[..i], n) + EmitTold(es[i], n)
  {
    assert es[..i + 1][..i] == es[..i];
  }

  lemma TripsStep(trips: Trips, n: int, log: seq<Ev>)
    requires trips.More?
    ensures var t := trips.trip;
      log + TripsTold(trips, n) ==
        log + [Ev(StepStart, n, None)] + EmitsTold(t.emits, n) + [Ev(StepEnd, n, t.usage)]
          + if Recurs(t) then TripsTold(trips.next, n + 1) else []
  {
    hide EmitsTold;
  }

  predicate Quiet(log: seq<Ev>) {
    log == [] || (!log[|log| - 1].typ.Error? && Quiet(log[..|log| - 1]))
  }

  /** The grammar's phase, unless an error event was recorded on the way. */
  predicate Shaped(log: seq<Ev>, p: Phase) {
    if Quiet(log) then PhaseOf(log) == p else PhaseOf(log) == Broken
  }

  lemma ShapedOne(log: seq<Ev>, e: Ev, p: Phase)
    requires Shaped(log, p) && (e.typ.Error? ==> p.Within?)
    ensures Shaped(log + [e], Next(p, e)) && (Quiet(log + [e]) <==> Quiet(log) && !e.typ.Error?)
  {
    PhaseOne(log, e);
    assert (log + [e])[..|log|] == log;
  }

  lemma NoLonger(log: seq<Ev>, n: nat)
    ensures Shaped(log + [Ev(Error, n, None)], Next(Within(n), Ev(Error, n, None))) ==>
      Shaped(log + [Ev(Error, n, None)], Within(n))
  {
    assert (log + [Ev(Error, n, None)])[..|log|] == log;
  }

  lemma {:induction false} EmitsShaped(log: seq<Ev>, es: seq<Emission>, n: nat)
    requires Shaped(log, Within(n))
    ensures var r := log + EmitsTold(es, n);
      Shaped(r, Within(n)) && (Quiet(r) <==> Quiet(log) && forall e | e in es :: !e.Bad?)
    decreases |es|
  {
    hide Shaped, Quiet;
    if es == [] {
      assert log + [] == log;
    } else {
      var init, e := es[..|es| - 1], es[|es| - 1];
      EmitsShaped(log, init, n);
      assert es == init + [e];
      var r := log + EmitsTold(init, n);
      assert log + EmitsTold(es, n) == r + EmitTold(e, n);
      match e
      case Hidden => assert r + [] == r;
      case Delta => ShapedOne(r, Ev(Content, n, None), Within(n));
      case Bad(_) =>
        ShapedOne(r, Ev(Error, n, None), Within(n));
        NoLonger(r, n);
    }
  }

  /** The blocks keep the shape unless one of the trips that are taken emits an error event. */
  lemma {:induction false} TripsShaped(log: seq<Ev>, trips: Trips, n: nat) returns (m: nat)
    requires Shaped(log, Between(n)) && Succeeds(trips)
    ensures var r := log + TripsTold(trips, n);
      m > n && Shaped(r, Between(m)) && (Quiet(r) <==> Quiet(log) && NoErrorEvent(trips))
    decreases trips
  {
    hide Shaped, Quiet, EmitsTold, TripsTold;
    var t := trips.trip;
    TripsStep(trips, n, log);
    var a := log + [Ev(StepStart, n, None)];
    ShapedOne(log, Ev(StepStart, n, None), Between(n));
    var b := a + EmitsTold(t.emits, n);
    EmitsShaped(a, t.emits, n);
    var c := b + [Ev(StepEnd, n, t.usage)];
    ShapedOne(b, Ev(StepEnd, n, t.usage), Within(n));
    m := n + 1;
    if Recurs(t) {
      m := TripsShaped(c, trips.next, n + 1);
    } else {
      assert c + [] == c;
    }
  }

  class Call {
    var events: seq<Ev>
    var step: int

    constructor ()
      ensures events == [] && step == 0
    {
      events, step := [], 0;
    }

    method Collect(e: Ev)
      modifies this`events
      ensures events == old(events) + [e]
    {
      events := events + [e];
    }

    /** The dialect's events go into the trace, error events included. */
    method Parse(t: Trip) returns (err: bool)
      modifies this`events
      ensures events == old(events) + EmitsTold(t.emits, step) && (err <==> t.failed || Bad(true) in t.emits)
    {
      hide EmitsTold;
      err := t.failed;
      NothingTold(step);
      assert t.emits[..0] == [] && old(events) + [] == old(events);
      for i := 0 to |t.emits|
        invariant events == old(events) + EmitsTold(t.emits[..i], step)
        invariant err <==> t.failed || Bad(true) in t.emits[..i]
      {
        var e := t.emits[i];
        EmitsOne(t.emits, i, step);
        BadOne(t.emits, i);
        match e
        case Hidden =>
        case Delta => Collect(Ev(Content, step, None));
        case Bad(payload) =>
          Collect(Ev(Error, step, None));
          if payload {
            err := true;
          }
      }
      assert t.emits[..|t.emits|] == t.emits;
    }

    method DoCall(trips: Trips) returns (ok: bool)
      modifies this
      ensures ok <==> Succeeds(trips)
      ensures ok ==> events == old(events) + TripsTold(trips, old(step))
      decreases trips
    {
      hide EmitsTold, TripsTold;
      if trips.Over? {
        return false;
      }
      var t, current := trips.trip, step;
      TripsStep(trips, step, events);
      Collect(Ev(StepStart, current, None));
      if !t.builds || !t.usable {
        return false;
      }
      var err := Parse(t);
      if err {
        return false;
      }
      if t.tools.Failing? && t.tools.calls > 0 {
        return false;
      }
      Collect(Ev(StepEnd, current, t.usage));
      if t.tools.Recurse? && t.tools.calls > 0 {
        step := step + 1;
        ok := DoCall(trips.next);
        return;
      }
      assert events + [] == events;
      return true;
    }

    /** A call succeeds unless a trip it takes breaks off; its events are then RESPONSE_START, the blocks
        of its trips and RESPONSE_END, numbered as those of a stream exactly when no trip it takes emits an
        error event. */
    method Run(trips: Trips) returns (ok: bool)
      requires events == [] && step == 0
      modifies this
      ensures ok <==> Succeeds(trips)
      ensures ok ==> (PhaseOf(events) == Done(true) <==> NoErrorEvent(trips))
      ensures ok ==> events == [Ev(ResponseStart, 0, None)] + TripsTold(trips, 0) + [Ev(ResponseEnd, 0, None)]
    {
      hide TripsTold, Shaped;
      Collect(Ev(ResponseStart, 0, None));
      assert events == [Ev(ResponseStart, 0, None)];
      ok := DoCall(trips);
      if ok {
        TraceShaped(trips, events);
        Collect(Ev(ResponseEnd, 0, None));
      }
    }
  }

  lemma NothingTold(n: int)
    ensures EmitsTold([], n) == []
  {
  }

  lemma BadOne(es: seq<Emission>, i: nat)
    requires i < |es|
    ensures Bad(true) in es[..i + 1] <==> Bad(true) in es[..i] || es[i] == Bad(true)
  {
    assert es[..i + 1] == es[..i] + [es[i]];
  }

  lemma TraceShaped(trips: Trips, log: seq<Ev>)
    requires Succeeds(trips) && log == [Ev(ResponseStart, 0, None)] + TripsTold(trips, 0)
    ensures PhaseOf(log + [Ev(ResponseEnd, 0, None)]) == Done(true) <==> NoErrorEvent(trips)
  {
    hide TripsTold;
    var start, end := Ev(ResponseStart, 0, None), Ev(ResponseEnd, 0, None);
    assert [] + [start] == [start];
    ShapedOne([], start, Silent);
    var m := TripsShaped([start], trips, 0);
    ShapedOne(log, end, Between(m));
  }
}

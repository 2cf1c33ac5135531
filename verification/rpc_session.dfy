/** The pending table of mcp/session.go and mcp/server_session.go under every interleaving of senders,
    message pumps, timeouts and close. */
module RpcSession {

  datatype Option<T> = None | Some(value: T)

  /** The id of a response frame: none, a number, or something that is no key of the table. */
  datatype ResponseId = NoId | Number(n: int) | Foreign

  datatype Response = Response(id: ResponseId, body: string)

  datatype Result = Answer(r: Response) | TransportError | TimedOut | SessionClosed | Unavailable

  /** How far a call of SendRequest is. */
  datatype Phase = Begun | Numbered | Registered | Waiting | Leaving(result: Result) | Returned(result: Result)

  /** One call of SendRequest with its request id and its channel of capacity one. */
  datatype Sender = Sender(phase: Phase, id: int, channel: Option<Response>)

  /** A pump between taking a channel out of the table and posting into it. */
  datatype Holding = Holding(sender: nat, response: Response)

  datatype State = State(
    nextId: int,
    table: map<int, nat>,
    senders: map<nat, Sender>,
    pumps: map<nat, Holding>,
    closed: bool,
    dismissing: bool,
    /** Every post into a channel so far. */
    posts: seq<nat>)

  const START := State(0, map[], map[], map[], false, false, [])

  /** The atomic steps. */
  datatype Step =
    | Begin(p: nat) | NoStream(p: nat) | TakeId(p: nat) | Register(p: nat) | SendOk(p: nat) | SendFails(p: nat)
    | Receive(p: nat) | TimeOut(p: nat) | SeeClosed(p: nat) | Return(p: nat)
    | Load(pump: nat, r: Response) | Post(pump: nat)
    | Close | Dismiss(k: int) | TransportEnds

  predicate At(s: State, p: nat, phase: Phase) {
    p in s.senders && s.senders[p].phase == phase
  }

  function Move(s: State, p: nat, phase: Phase): State
    requires p in s.senders
  {
    s.(senders := s.senders[p := s.senders[p].(phase := phase)])
  }

  /** Whether a step can be taken now; a post waits for an empty channel. */
  predicate Enabled(s: State, step: Step) {
    match step
    case Begin(p) => p !in s.senders
    case NoStream(p) => At(s, p, Begun)
    case TakeId(p) => At(s, p, Begun)
    case Register(p) => At(s, p, Numbered)
    case SendOk(p) => At(s, p, Registered)
    case SendFails(p) => At(s, p, Registered)
    case Receive(p) => At(s, p, Waiting) && s.senders[p].channel.Some?
    case TimeOut(p) => At(s, p, Waiting)
    case SeeClosed(p) => At(s, p, Waiting) && s.closed
    case Return(p) => p in s.senders && s.senders[p].phase.Leaving?
    case Load(pump, _) => pump !in s.pumps
    case Post(pump) =>
      pump in s.pumps && s.pumps[pump].sender in s.senders && s.senders[s.pumps[pump].sender].channel.None?
    case Close => !s.closed
    case Dismiss(_) => s.dismissing
    case TransportEnds => !s.closed
  }

  function Apply(s: State, step: Step): State
    requires Enabled(s, step)
  {
    match step
    case Begin(p) => s.(senders := s.senders[p := Sender(Begun, 0, None)])
    case NoStream(p) => Move(s, p, Returned(Unavailable))
    case TakeId(p) =>
      var id := s.nextId + 1;
      s.(nextId := id, senders := s.senders[p := s.senders[p].(phase := Numbered, id := id)])
    case Register(p) => Move(s, p, Registered).(table := s.table[s.senders[p].id := p])
    case SendOk(p) => Move(s, p, Waiting)
    case SendFails(p) => Move(s, p, Leaving(TransportError))
    case Receive(p) =>
      var q := s.senders[p];
      s.(senders := s.senders[p := q.(phase := Leaving(Answer(q.channel.value)), channel := None)])
    case TimeOut(p) => Move(s, p, Leaving(TimedOut))
    case SeeClosed(p) => Move(s, p, Leaving(SessionClosed))
    case Return(p) => Move(s, p, Returned(s.senders[p].phase.result)).(table := s.table - {s.senders[p].id})
    case Load(pump, r) =>
      if r.id.Number? && r.id.n in s.table then
        s.(table := s.table - {r.id.n}, pumps := s.pumps[pump := Holding(s.table[r.id.n], r)])
      else s
    case Post(pump) =>
      var h := s.pumps[pump];
      s.(senders := s.senders[h.sender := s.senders[h.sender].(channel := Some(h.response))],
         pumps := s.pumps - {pump}, posts := s.posts + [h.sender])
    case Close => s.(closed := true, dismissing := true)
    case Dismiss(k) => s.(table := s.table - {k})
    case TransportEnds => s.(closed := true)
  }

  // ---- the invariant ----

  /** The call has its request id. */
  predicate HasId(q: Sender) {
    !q.phase.Begun? && q.phase != Returned(Unavailable)
  }

  /** The call has put its channel into the table at some time. */
  predicate Listed(q: Sender) {
    HasId(q) && !q.phase.Numbered?
  }

  ghost predicate Ids(s: State) {
    && (forall p | p in s.senders && HasId(s.senders[p]) :: 0 < s.senders[p].id <= s.nextId)
    && 0 <= s.nextId
    && (forall p, q | p in s.senders && q in s.senders && HasId(s.senders[p]) && HasId(s.senders[q]) ::
          s.senders[p].id == s.senders[q].id ==> p == q)
  }

  ghost predicate Held(s: State, p: nat) {
    exists a :: a in s.pumps && s.pumps[a].sender == p
  }

  /** A table entry is the empty, unposted channel of a listed call that has not returned. */
  ghost predicate Entries(s: State) {
    forall k | k in s.table ::
      var p := s.table[k];
      && p in s.senders && s.senders[p].id == k && Listed(s.senders[p]) && !s.senders[p].phase.Returned?
      && p !in s.posts && !Held(s, p)
  }

  /** What a pump holds is an empty, unposted channel that is no longer in the table, with the response
      for its request. */
  ghost predicate Pumps(s: State) {
    && (forall a | a in s.pumps ::
          var h := s.pumps[a];
          && h.sender in s.senders && Listed(s.senders[h.sender]) && h.sender !in s.posts
          && h.response.id == Number(s.senders[h.sender].id))
    && (forall a, b | a in s.pumps && b in s.pumps && s.pumps[a].sender == s.pumps[b].sender :: a == b)
  }

  /** A channel that is full, and an answer a call came back with, was posted, and carries its id. */
  ghost predicate Channels(s: State) {
    forall p | p in s.senders ::
      var q := s.senders[p];
      && (q.channel.Some? ==> p in s.posts && q.channel.value.id == Number(q.id) && Listed(q))
      && (q.phase.Leaving? && q.phase.result.Answer? ==> q.phase.result.r.id == Number(q.id))
      && (q.phase.Returned? && q.phase.result.Answer? ==> q.phase.result.r.id == Number(q.id))
      && (q.phase.Leaving? && q.phase.result.Unavailable? ==> false)
  }

  ghost predicate Posts(s: State) {
    && (forall p | p in s.posts :: p in s.senders && Listed(s.senders[p]))
    && (forall i, j | 0 <= i < j < |s.posts| :: s.posts[i] != s.posts[j])
  }

  ghost predicate Inv(s: State) {
    Ids(s) && Entries(s) && Pumps(s) && Channels(s) && Posts(s) && (s.dismissing ==> s.closed)
  }

  /** A call goes on within SendRequest, or ends before it has an id. */
  predicate Plain(q: Sender, phase: Phase) {
    || (q.phase.Begun? && phase == Returned(Unavailable))
    || (Listed(q) && !q.phase.Returned? &&
      (phase.Waiting? || (phase.Leaving? && !phase.result.Answer? && !phase.result.Unavailable?)))
  }

  lemma MoveSenders(s: State, p: nat, phase: Phase)
    requires Inv(s) && p in s.senders && Plain(s.senders[p], phase)
    ensures var r := Move(s, p, phase);
      Ids(r) && Channels(r) && Posts(r)
  {
    hide Entries, Pumps;
  }

  lemma MoveTable(s: State, p: nat, phase: Phase)
    requires Inv(s) && p in s.senders && Plain(s.senders[p], phase)
    ensures var r := Move(s, p, phase);
      Entries(r) && Pumps(r)
  {
    hide Channels;
  }

  lemma RegisterSenders(s: State, p: nat)
    requires Inv(s) && Enabled(s, Register(p))
    ensures var r := Apply(s, Register(p));
      Ids(r) && Channels(r) && Posts(r)
  {
    hide Entries, Pumps;
  }

  lemma RegisterTable(s: State, p: nat)
    requires Inv(s) && Enabled(s, Register(p))
    ensures var r := Apply(s, Register(p));
      Entries(r) && Pumps(r)
  {
    hide Channels;
  }

  lemma ReceiveSenders(s: State, p: nat)
    requires Inv(s) && Enabled(s, Receive(p))
    ensures var r := Apply(s, Receive(p));
      Ids(r) && Channels(r) && Posts(r)
  {
    hide Entries, Pumps;
  }

  lemma ReceiveTable(s: State, p: nat)
    requires Inv(s) && Enabled(s, Receive(p))
    ensures var r := Apply(s, Receive(p));
      Entries(r) && Pumps(r)
  {
    hide Channels;
  }

  lemma ReturnSenders(s: State, p: nat)
    requires Inv(s) && Enabled(s, Return(p))
    ensures var r := Apply(s, Return(p));
      Ids(r) && Channels(r) && Posts(r)
  {
    hide Entries, Pumps;
  }

  lemma ReturnTable(s: State, p: nat)
    requires Inv(s) && Enabled(s, Return(p))
    ensures var r := Apply(s, Return(p));
      Entries(r) && Pumps(r)
  {
  }

  lemma LoadSenders(s: State, pump: nat, resp: Response)
    requires Inv(s) && Enabled(s, Load(pump, resp))
    ensures var r := Apply(s, Load(pump, resp));
      Ids(r) && Channels(r) && Posts(r)
  {
    hide Entries;
  }

  lemma LoadTable(s: State, pump: nat, resp: Response)
    requires Inv(s) && Enabled(s, Load(pump, resp))
    ensures var r := Apply(s, Load(pump, resp));
      Entries(r) && Pumps(r)
  {
    hide Channels;
  }

  lemma PostSenders(s: State, pump: nat)
    requires Inv(s) && Enabled(s, Post(pump))
    ensures var r := Apply(s, Post(pump));
      Ids(r) && Channels(r) && Posts(r)
  {
    hide Entries;
  }

  lemma PostTable(s: State, pump: nat)
    requires Inv(s) && Enabled(s, Post(pump))
    ensures var r := Apply(s, Post(pump));
      Entries(r) && Pumps(r)
  {
    hide Channels;
  }

  lemma BeginKeeps(s: State, p: nat)
    requires Inv(s) && Enabled(s, Begin(p))
    ensures Inv(Apply(s, Begin(p)))
  {
  }

  lemma TakeIdSenders(s: State, p: nat)
    requires Inv(s) && Enabled(s, TakeId(p))
    ensures var r := Apply(s, TakeId(p));
      Ids(r) && Channels(r) && Posts(r)
  {
    hide Entries, Pumps;
  }

  lemma TakeIdTable(s: State, p: nat)
    requires Inv(s) && Enabled(s, TakeId(p))
    ensures var r := Apply(s, TakeId(p));
      Entries(r) && Pumps(r)
  {
    hide Channels;
  }

  lemma DismissKeeps(s: State, k: int)
    requires Inv(s) && Enabled(s, Dismiss(k))
    ensures Inv(Apply(s, Dismiss(k)))
  {
  }

  lemma StepKeeps(s: State, step: Step)
    requires Inv(s) && Enabled(s, step)
    ensures Inv(Apply(s, step))
  {
    hide Ids, Entries, Pumps, Channels, Posts;
    match step
    case Begin(p) => BeginKeeps(s, p);
    case NoStream(p) => MoveSenders(s, p, Returned(Unavailable)); MoveTable(s, p, Returned(Unavailable));
    case TakeId(p) => TakeIdSenders(s, p); TakeIdTable(s, p);
    case Register(p) => RegisterSenders(s, p); RegisterTable(s, p);
    case SendOk(p) => MoveSenders(s, p, Waiting); MoveTable(s, p, Waiting);
    case SendFails(p) => MoveSenders(s, p, Leaving(TransportError)); MoveTable(s, p, Leaving(TransportError));
    case Receive(p) => ReceiveSenders(s, p); ReceiveTable(s, p);
    case TimeOut(p) => MoveSenders(s, p, Leaving(TimedOut)); MoveTable(s, p, Leaving(TimedOut));
    case SeeClosed(p) => MoveSenders(s, p, Leaving(SessionClosed)); MoveTable(s, p, Leaving(SessionClosed));
    case Return(p) => ReturnSenders(s, p); ReturnTable(s, p);
    case Load(pump, resp) => LoadSenders(s, pump, resp); LoadTable(s, pump, resp);
    case Post(pump) => PostSenders(s, pump); PostTable(s, pump);
    case Dismiss(k) => DismissKeeps(s, k);
    case Close => SameParts(s, Apply(s, step));
    case TransportEnds => SameParts(s, Apply(s, step));
  }

  lemma SameParts(s: State, r: State)
    requires Inv(s) && r == s.(closed := r.closed, dismissing := r.dismissing) && (r.dismissing ==> r.closed)
    ensures Inv(r)
  {
  }

  // ---- every interleaving ----

  /** The steps can be taken one after the other. */
  predicate Runs(s: State, steps: seq<Step>)
    decreases |steps|
  {
    steps == [] || (Enabled(s, steps[0]) && Runs(Apply(s, steps[0]), steps[1..]))
  }

  function After(s: State, steps: seq<Step>): State
    requires Runs(s, steps)
    decreases |steps|
  {
    if steps == [] then s else After(Apply(s, steps[0]), steps[1..])
  }

  lemma {:induction false} AfterInv(s: State, steps: seq<Step>)
    requires Inv(s) && Runs(s, steps)
    ensures Inv(After(s, steps))
    decreases |steps|
  {
    hide Inv;
    if steps != [] {
      StepKeeps(s, steps[0]);
      AfterInv(Apply(s, steps[0]), steps[1..]);
    }
  }

  ghost predicate Reachable(s: State) {
    exists steps :: Runs(START, steps) && After(START, steps) == s
  }

  lemma ReachableInv(s: State)
    requires Reachable(s)
    ensures Inv(s)
  {
    hide Runs, After;
    var steps :| Runs(START, steps) && After(START, steps) == s;
    AfterInv(START, steps);
  }

  /** Request ids never repeat. */
  lemma IdsNeverRepeat(s: State, p: nat, q: nat)
    requires Reachable(s) && p in s.senders && q in s.senders && p != q
    requires HasId(s.senders[p]) && HasId(s.senders[q])
    ensures s.senders[p].id != s.senders[q].id
  {
    ReachableInv(s);
    hide Reachable, Entries, Pumps, Channels, Posts;
  }

  /** A pump never blocks: the channel it took out of the table is empty until it posts. */
  lemma PostNeverBlocks(s: State, pump: nat)
    requires Reachable(s) && pump in s.pumps
    ensures Enabled(s, Post(pump))
  {
    ReachableInv(s);
    hide Reachable, Ids, Entries, Posts;
  }

  /** A call is answered only by a response with its own id, and no channel is posted into twice. */
  lemma AnsweredByOwnId(s: State, p: nat)
    requires Reachable(s) && p in s.senders
    ensures var q := s.senders[p];
      (q.phase.Leaving? || q.phase.Returned?) && q.phase.result.Answer? ==> q.phase.result.r.id == Number(q.id)
    ensures forall i, j | 0 <= i < j < |s.posts| :: s.posts[i] != s.posts[j]
  {
    ReachableInv(s);
    hide Reachable, Ids, Entries, Pumps;
  }

  /** Once all calls have returned the table is empty. */
  lemma TableEmptiesOut(s: State)
    requires Reachable(s) && forall p | p in s.senders :: s.senders[p].phase.Returned?
    ensures s.table == map[]
  {
    ReachableInv(s);
    hide Reachable, Ids, Pumps, Channels, Posts;
    forall k ensures k !in s.table {
    }
  }

  /** A response with a waiting request's id wakes exactly that request, whatever else is going on:
      the pump can take its channel, post, and the sender receives that very response. */
  lemma ResponseArrives(s: State, p: nat, pump: nat, r: Response)
    requires Reachable(s) && At(s, p, Waiting) && s.senders[p].id in s.table && pump !in s.pumps
    requires r.id == Number(s.senders[p].id)
    ensures var steps := [Load(pump, r), Post(pump), Receive(p)];
      Runs(s, steps) && At(After(s, steps), p, Leaving(Answer(r)))
  {
    ReachableInv(s);
    hide Reachable;
    assert s.table[s.senders[p].id] == p;
    var a := Apply(s, Load(pump, r));
    var b := Apply(a, Post(pump));
    ThreeSteps(s, Load(pump, r), Post(pump), Receive(p), a, b);
  }

  lemma OneMore(s: State, step: Step, rest: seq<Step>)
    requires Enabled(s, step) && Runs(Apply(s, step), rest)
    ensures Runs(s, [step] + rest) && After(s, [step] + rest) == After(Apply(s, step), rest)
  {
    hide Enabled, Apply;
    assert ([step] + rest)[1..] == rest;
  }

  lemma ThreeSteps(s: State, x: Step, y: Step, z: Step, a: State, b: State)
    requires Enabled(s, x) && a == Apply(s, x) && Enabled(a, y) && b == Apply(a, y) && Enabled(b, z)
    ensures Runs(s, [x, y, z]) && After(s, [x, y, z]) == Apply(b, z)
  {
    hide *;
    assert [z] + [] == [z] && [y] + [z] == [y, z] && [x] + [y, z] == [x, y, z];
    NoSteps(Apply(b, z));
    OneMore(b, z, []);
    OneMore(a, y, [z]);
    OneMore(s, x, [y, z]);
  }

  lemma NoSteps(s: State)
    ensures Runs(s, []) && After(s, []) == s
  {
  }

  /** After a close every waiting call can return by itself, and leaves nothing in the table. */
  lemma CloseReleases(s: State, p: nat)
    requires Reachable(s) && s.closed && At(s, p, Waiting)
    ensures Enabled(s, SeeClosed(p)) && Enabled(Apply(s, SeeClosed(p)), Return(p))
    ensures var r := Apply(Apply(s, SeeClosed(p)), Return(p));
      At(r, p, Returned(SessionClosed)) && s.senders[p].id !in r.table
  {
    hide Reachable;
    var m := Apply(s, SeeClosed(p));
    assert m.senders[p] == s.senders[p].(phase := Leaving(SessionClosed));
    var r := Apply(m, Return(p));
    assert r.table == m.table - {s.senders[p].id};
  }
}

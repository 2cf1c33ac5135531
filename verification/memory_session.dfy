/** ai/session.go: a bounded message history that keeps tool results with their calls. */
module MemorySessions {

  datatype Role = System | User | Assistant | Tool

  /** A message with the number of tool calls its content carries. */
  datatype Message = Message(role: Role, calls: nat, text: string)

  // ---- what trimming does ----

  /** The number of tool messages at the head. */
  function ToolRun(ms: seq<Message>): (n: nat)
    ensures n <= |ms|
  {
    if ms != [] && ms[0].role.Tool? then 1 + ToolRun(ms[1..]) else 0
  }

  /** Without the first `left` messages that are no system message; a message with tool calls goes with
      the tool messages right after it. */
  function Trim(ms: seq<Message>, left: int): seq<Message>
    decreases |ms|
  {
    if ms == [] then []
    else if ms[0].role.System? || left <= 0 then [ms[0]] + Trim(ms[1..], left)
    else if ms[0].calls > 0 then
      var k := ToolRun(ms[1..]);
      Trim(ms[1 + k..], left - 1 - k)
    else Trim(ms[1..], left - 1)
  }

  function Systems(ms: seq<Message>): seq<Message> {
    if ms == [] then [] else (if ms[0].role.System? then [ms[0]] else []) + Systems(ms[1..])
  }

  function Others(ms: seq<Message>): seq<Message> {
    if ms == [] then [] else (if ms[0].role.System? then [] else [ms[0]]) + Others(ms[1..])
  }

  /** A message that a tool message may follow. */
  predicate Leads(m: Message) {
    m.role.Tool? || (m.role.Assistant? && m.calls > 0)
  }

  /** Every tool message directly follows a tool message or a call; `led` is true after such a message. */
  predicate Attached(ms: seq<Message>, led: bool) {
    ms == [] || ((ms[0].role.Tool? ==> led) && Attached(ms[1..], Leads(ms[0])))
  }

  lemma {:induction false} AttachedIs(ms: seq<Message>, led: bool)
    ensures Attached(ms, led) <==> forall i | 0 <= i < |ms| && ms[i].role.Tool? :: LedAt(ms, led, i)
  {
    if ms != [] {
      var rest := ms[1..];
      AttachedIs(rest, Leads(ms[0]));
      assert forall i | 0 <= i < |rest| ::
        rest[i] == ms[i + 1] && (LedAt(rest, Leads(ms[0]), i) <==> LedAt(ms, led, i + 1));
      assert forall i | 0 < i < |ms| :: ms[i] == rest[i - 1];
    }
  }

  /** The message before position i may be followed by a tool message. */
  predicate LedAt(ms: seq<Message>, led: bool, i: nat)
    requires i < |ms|
  {
    if i == 0 then led else Leads(ms[i - 1])
  }

  lemma {:induction false} AttachedAfterTools(ms: seq<Message>, led: bool)
    requires Attached(ms, led)
    ensures Attached(ms[ToolRun(ms)..], false)
  {
    if ms != [] && ms[0].role.Tool? {
      AttachedAfterTools(ms[1..], true);
      assert ms[1..][ToolRun(ms[1..])..] == ms[ToolRun(ms)..];
    } else {
      assert ms[ToolRun(ms)..] == ms;
    }
  }

  /** Trimming separates no tool message from its call. */
  lemma {:induction false} TrimKeepsAttached(ms: seq<Message>, left: int, led: bool)
    requires Attached(ms, led && left <= 0)
    ensures Attached(Trim(ms, left), led)
    decreases |ms|
  {
    if ms != [] {
      var rest := ms[1..];
      if ms[0].role.System? || left <= 0 {
        TrimKeepsAttached(rest, left, Leads(ms[0]));
        assert ([ms[0]] + Trim(rest, left))[1..] == Trim(rest, left);
      } else if ms[0].calls > 0 {
        var k := ToolRun(rest);
        AttachedAfterTools(rest, Leads(ms[0]));
        assert rest[k..] == ms[1 + k..];
        Weaker(ms[1 + k..], led && left - 1 - k <= 0);
        TrimKeepsAttached(ms[1 + k..], left - 1 - k, led);
      } else {
        Weaker(rest, led && left - 1 <= 0);
        TrimKeepsAttached(rest, left - 1, led);
      }
    }
  }

  lemma Weaker(ms: seq<Message>, led: bool)
    requires Attached(ms, false)
    ensures Attached(ms, led)
  {
  }

  /** All system messages stay, in order. */
  lemma {:induction false} TrimKeepsSystems(ms: seq<Message>, left: int)
    ensures Systems(Trim(ms, left)) == Systems(ms)
    decreases |ms|
  {
    hide *;
    TrimStep(ms, left);
    if ms == [] {
      NoneLeft(ms);
    } else {
      var rest := ms[1..];
      Head(ms);
      if ms[0].role.System? || left <= 0 {
        TrimKeepsSystems(rest, left);
        Head(Trim(ms, left));
        assert Trim(ms, left)[1..] == Trim(rest, left);
      } else if ms[0].calls > 0 {
        var k := ToolRun(rest);
        SkipTools(rest);
        assert rest[k..] == ms[1 + k..];
        TrimKeepsSystems(rest[k..], left - 1 - k);
      } else {
        TrimKeepsSystems(rest, left - 1);
      }
    }
  }

  lemma {:induction false} SkipTools(ms: seq<Message>)
    ensures var k := ToolRun(ms);
      Systems(ms[k..]) == Systems(ms) && k <= |Others(ms)| && Others(ms[k..]) == Others(ms)[k..]
  {
    ToolRunStep(ms);
    hide ToolRun;
    if ms != [] && ms[0].role.Tool? {
      var rest := ms[1..];
      SkipTools(rest);
      Head(ms);
      hide Systems, Others;
      assert rest[ToolRun(rest)..] == ms[ToolRun(ms)..];
      assert Others(ms)[ToolRun(ms)..] == Others(rest)[ToolRun(rest)..];
    } else {
      assert ms[0..] == ms && Others(ms)[0..] == Others(ms);
    }
  }

  lemma ToolRunStep(ms: seq<Message>)
    ensures ToolRun(ms) == if ms != [] && ms[0].role.Tool? then 1 + ToolRun(ms[1..]) else 0
  {
  }

  /** At position j stands the result of a call before it: a tool message behind nothing but tool messages
      back to a message with tool calls. */
  ghost predicate ResultAt(ms: seq<Message>, j: nat) {
    j < |ms| && ms[j].role.Tool? && exists b :: CallsUpTo(ms, b, j)
  }

  predicate CallsUpTo(ms: seq<Message>, b: nat, j: nat) {
    b < j <= |ms| && ms[b].calls > 0 && !ms[b].role.System? && forall i | b < i < j :: ms[i].role.Tool?
  }

  /** Where the trimmed part ends: enough others are gone and no result stands there. */
  ghost predicate CutAt(ms: seq<Message>, left: int, c: nat) {
    && c <= |ms|
    && (c == |ms| || (|Others(ms[..c])| >= left && !ResultAt(ms, c)))
    && (forall j | 0 <= j < c :: |Others(ms[..j])| < left || ResultAt(ms, j))
  }

  lemma {:induction false} ToolRunIs(ms: seq<Message>)
    ensures forall j | 0 <= j < ToolRun(ms) :: ms[j].role.Tool?
    ensures ToolRun(ms) < |ms| ==> !ms[ToolRun(ms)].role.Tool?
  {
    if ms != [] && ms[0].role.Tool? {
      ToolRunIs(ms[1..]);
      assert forall j | 1 <= j < |ms| :: ms[j] == ms[1..][j - 1];
    }
  }

  /** Results behind position d are those of the rest from d, when no call reaches over d. */
  lemma ResultBehind(ms: seq<Message>, d: nat, j: nat)
    requires d <= j <= |ms| && (d < |ms| && ms[d].role.Tool? ==> forall b :: !CallsUpTo(ms, b, d))
    ensures ResultAt(ms, j) <==> ResultAt(ms[d..], j - d)
  {
    var rest := ms[d..];
    assert forall i | d <= i < |ms| :: ms[i] == rest[i - d];
    if ResultAt(ms, j) {
      var b: nat :| CallsUpTo(ms, b, j);
      if b < d {
        assert d < j ==> ms[d].role.Tool?;
        assert CallsUpTo(ms, b, d);
      }
      assert d <= b;
      assert CallsUpTo(rest, b - d, j - d);
    }
    if ResultAt(rest, j - d) {
      var b: nat :| CallsUpTo(rest, b, j - d);
      forall i | b + d < i < j ensures ms[i].role.Tool? {
        assert ms[i] == rest[i - d];
      }
      assert CallsUpTo(ms, b + d, j);
    }
  }

  /** Behind d others, what is gone of the rest and of the whole agree. */
  lemma CutBehind(ms: seq<Message>, d: nat, left: int, less: int, c: nat)
    requires d <= |ms| && CutAt(ms[d..], less, c) && left - less == |Others(ms[..d])|
    requires d < |ms| && ms[d].role.Tool? ==> forall b :: !CallsUpTo(ms, b, d)
    requires forall j | 0 <= j < d :: |Others(ms[..j])| < left || ResultAt(ms, j)
    ensures CutAt(ms, left, d + c)
    ensures ms[d..][c..] == ms[d + c..] && Systems(ms[..d + c]) == Systems(ms[..d]) + Systems(ms[d..][..c])
  {
    hide Others, Systems, ResultAt, CallsUpTo;
    forall j | d <= j <= |ms|
      ensures |Others(ms[..j])| - left == |Others(ms[d..][..j - d])| - less
      ensures ResultAt(ms, j) <==> ResultAt(ms[d..], j - d)
    {
      assert ms[..j] == ms[..d] + ms[d..][..j - d];
      OthersAppend(ms[..d], ms[d..][..j - d]);
      ResultBehind(ms, d, j);
    }
    assert ms[..d + c] == ms[..d] + ms[d..][..c];
    OthersAppend(ms[..d], ms[d..][..c]);
  }

  lemma CutNow(ms: seq<Message>, left: int)
    requires ms == [] || left <= 0
    ensures CutAt(ms, left, 0)
  {
  }

  /** A call and its results, or one other message. */
  lemma RunParts(ms: seq<Message>, d: nat)
    requires 0 < d <= |ms| && forall j | 1 <= j < d :: ms[j].role.Tool?
    ensures Systems(ms[..d]) == (if ms[0].role.System? then [ms[0]] else [])
    ensures |Others(ms[..d])| == if ms[0].role.System? then d - 1 else d
  {
    Head(ms[..d]);
    OnlyTools(ms[..d][1..]);
  }

  lemma {:induction false} OnlyTools(ms: seq<Message>)
    requires forall m | m in ms :: m.role.Tool?
    ensures Systems(ms) == [] && |Others(ms)| == |ms|
  {
    if ms != [] {
      OnlyTools(ms[1..]);
    }
  }

  /** One step of trimming: a system message stays, a message goes, a call goes with its results. */
  lemma TrimDropsFirst(ms: seq<Message>, left: int) returns (d: nat)
    requires ms != [] && left > 0
    ensures 0 < d <= |ms| && Trim(ms, left) == Systems(ms[..d]) + Trim(ms[d..], left - |Others(ms[..d])|)
    ensures d < |ms| && ms[d].role.Tool? ==> forall b :: !CallsUpTo(ms, b, d)
    ensures forall j | 0 <= j < d :: |Others(ms[..j])| < left || ResultAt(ms, j)
  {
    hide Trim, Systems, Others, ToolRun;
    TrimStep(ms, left);
    NoneLeft(ms[..0]);
    d := 1;
    if !ms[0].role.System? && ms[0].calls > 0 {
      var rest := ms[1..];
      d := 1 + ToolRun(rest);
      ToolRunIs(rest);
      assert forall j | 1 <= j < |ms| :: ms[j] == rest[j - 1];
      forall j | 1 <= j < d ensures ResultAt(ms, j) {
        assert CallsUpTo(ms, 0, j);
      }
    }
    RunParts(ms, d);
    assert [] + Trim(ms[d..], left - d) == Trim(ms[d..], left - d);
  }

  /** Trimming drops everything but system messages in front of the first place where at least `left` others
      are gone and no result of a call stands, and nothing behind it. */
  lemma {:induction false} TrimCuts(ms: seq<Message>, left: int) returns (c: nat)
    ensures c <= |ms| && CutAt(ms, left, c) && Trim(ms, left) == Systems(ms[..c]) + ms[c..]
    decreases |ms|
  {
    hide *;
    TrimStep(ms, left);
    if ms == [] || left <= 0 {
      c := 0;
      if ms != [] {
        TrimNone(ms, left);
      }
      NoneLeft(ms[..0]);
      assert ms[..0] + ms[0..] == ms;
      CutNow(ms, left);
    } else {
      var d := TrimDropsFirst(ms, left);
      var less := left - |Others(ms[..d])|;
      var e := TrimCuts(ms[d..], less);
      CutBehind(ms, d, left, less, e);
      c := d + e;
    }
  }

  /** The other messages that stay are the last ones: at least `left` are gone, or all of them. */
  lemma {:induction false} TrimLeavesSuffix(ms: seq<Message>, left: int) returns (gone: nat)
    ensures gone <= |Others(ms)| && Others(Trim(ms, left)) == Others(ms)[gone..]
    ensures gone >= left || gone == |Others(ms)|
    ensures |Trim(ms, left)| == |ms| - gone && (left <= 0 ==> gone == 0)
    decreases |ms|
  {
    hide *;
    TrimStep(ms, left);
    if ms == [] {
      NoneLeft(ms);
      gone := 0;
    } else {
      var rest := ms[1..];
      Head(ms);
      if ms[0].role.System? || left <= 0 {
        gone := TrimLeavesSuffix(rest, left);
        Head(Trim(ms, left));
        assert Trim(ms, left)[1..] == Trim(rest, left);
      } else if ms[0].calls > 0 {
        var k := ToolRun(rest);
        SkipTools(rest);
        assert rest[k..] == ms[1 + k..];
        var g := TrimLeavesSuffix(rest[k..], left - 1 - k);
        gone := g + 1 + k;
        assert Others(rest)[k..][g..] == Others(ms)[gone..];
      } else {
        var g := TrimLeavesSuffix(rest, left - 1);
        gone := g + 1;
        assert Others(rest)[g..] == Others(ms)[gone..];
      }
    }
  }

  lemma {:induction false} SystemsAndOthers(ms: seq<Message>)
    ensures |ms| == |Systems(ms)| + |Others(ms)|
    ensures Others(ms) == [] <==> forall m | m in ms :: m.role.System?
  {
    if ms != [] {
      SystemsAndOthers(ms[1..]);
      assert forall m | m in ms :: m == ms[0] || m in ms[1..];
    }
  }

  lemma Head(ms: seq<Message>)
    requires ms != []
    ensures ms[0].role.System? ==> Systems(ms) == [ms[0]] + Systems(ms[1..]) && Others(ms) == Others(ms[1..])
    ensures !ms[0].role.System? ==> Systems(ms) == Systems(ms[1..]) && Others(ms) == [ms[0]] + Others(ms[1..])
  {
  }

  lemma NoneLeft(ms: seq<Message>)
    requires ms == []
    ensures Systems(ms) == [] && Others(ms) == []
  {
  }

  lemma {:induction false} OthersAppend(a: seq<Message>, b: seq<Message>)
    ensures Others(a + b) == Others(a) + Others(b) && Systems(a + b) == Systems(a) + Systems(b)
  {
    hide *;
    if a == [] {
      assert a + b == b;
      NoneLeft(a);
    } else {
      OthersAppend(a[1..], b);
      Head(a);
      Head(a + b);
      assert (a + b)[1..] == a[1..] + b;
    }
  }

  /** Within the limit, or only system messages are left. */
  ghost predicate Bounded(ms: seq<Message>, limit: int) {
    limit > 0 ==> |ms| <= limit || forall m | m in ms :: m.role.System?
  }

  /** The history after adding messages. */
  function Added(ms: seq<Message>, more: seq<Message>, limit: int): seq<Message> {
    var all := ms + more;
    if more != [] && limit > 0 && |all| > limit then Trim(all, |more|) else all
  }

  /** A full history gives up the others in front of the first place where as many are gone as came and no
      result stands; below the limit nothing goes. */
  lemma AddedCuts(ms: seq<Message>, more: seq<Message>, limit: int) returns (c: nat)
    ensures var all := ms + more;
      && c <= |all| && Added(ms, more, limit) == Systems(all[..c]) + all[c..]
      && (more == [] || limit <= 0 || |all| <= limit ==> c == 0)
      && (more != [] && 0 < limit < |all| ==> CutAt(all, |more|, c))
  {
    hide Trim, CutAt, Systems;
    var all := ms + more;
    c := 0;
    NoneLeft(all[..0]);
    assert all[..0] + all[0..] == all;
    if more != [] && 0 < limit < |all| {
      c := TrimCuts(all, |more|);
    }
  }

  /** What AddMessage keeps: groups, system messages, the newest of the others, the limit. */
  lemma {:induction false} AddedKeeps(ms: seq<Message>, more: seq<Message>, limit: int) returns (gone: nat)
    requires Bounded(ms, limit)
    ensures var r := Added(ms, more, limit);
      && Bounded(r, limit)
      && (Attached(ms + more, false) ==> Attached(r, false))
      && Systems(r) == Systems(ms + more)
      && gone <= |Others(ms + more)| && Others(r) == Others(ms + more)[gone..]
  {
    hide Trim, Others, Systems;
    var all := ms + more;
    gone := 0;
    assert Others(all)[0..] == Others(all);
    if more == [] {
      assert all == ms;
    } else if limit > 0 && |all| > limit {
      gone := TrimLeavesSuffix(all, |more|);
      TrimKeepsSystems(all, |more|);
      var r := Trim(all, |more|);
      if Attached(all, false) {
        TrimKeepsAttached(all, |more|, false);
      }
      SystemsAndOthers(r);
      SystemsAndOthers(ms);
      SystemsAndOthers(all);
      SystemsAndOthers(more);
      OthersAppend(ms, more);
    }
  }

  // ---- exactly when an addition stays attached ----

  predicate CallsByAssistants(ms: seq<Message>) {
    forall m | m in ms :: m.calls > 0 ==> m.role.Assistant?
  }

  predicate Led(ms: seq<Message>) {
    ms != [] && Leads(ms[|ms| - 1])
  }

  lemma {:induction false} AttachedSplit(a: seq<Message>, b: seq<Message>, led: bool)
    ensures Attached(a + b, led) <==> Attached(a, led) && Attached(b, if a == [] then led else Led(a))
  {
    hide Leads;
    if a == [] {
      assert a + b == b;
    } else {
      AttachedSplit(a[1..], b, Leads(a[0]));
      assert (a + b)[1..] == a[1..] + b;
      LedTail(a);
    }
  }

  lemma LedTail(a: seq<Message>)
    requires a != []
    ensures Led(a) == if |a| == 1 then Leads(a[0]) else Led(a[1..])
  {
  }

  lemma {:induction false} OnlySystems(ms: seq<Message>)
    ensures Attached(Systems(ms), false) && !Led(Systems(ms))
  {
    if ms != [] {
      var rest := Systems(ms[1..]);
      OnlySystems(ms[1..]);
      if ms[0].role.System? {
        var all := [ms[0]] + rest;
        assert all[1..] == rest;
        LedTail(all);
      } else {
        assert [] + rest == rest;
      }
    }
  }

  lemma {:induction false} TrimNone(ms: seq<Message>, left: int)
    requires left <= 0
    ensures Trim(ms, left) == ms
  {
    if ms != [] {
      TrimNone(ms[1..], left);
    }
  }

  lemma {:induction false} ToolsEnd(ms: seq<Message>, more: seq<Message>)
    requires ms != [] && !ms[|ms| - 1].role.Tool?
    ensures ToolRun(ms + more) == ToolRun(ms) < |ms|
  {
    assert (ms + more)[1..] == ms[1..] + more;
    if ms[0].role.Tool? {
      ToolsEnd(ms[1..], more);
    }
  }

  /** Trimming in front of a message that none before it leads: no cascade reaches it. */
  lemma {:induction false} TrimApart(ms: seq<Message>, more: seq<Message>, left: int)
    requires CallsByAssistants(ms) && !Led(ms)
    ensures var n := |Others(ms)|;
      && (left >= n ==> Trim(ms + more, left) == Systems(ms) + Trim(more, left - n))
      && (left <= n ==> Trim(ms + more, left) == Trim(ms, left) + more)
    decreases |ms|
  {
    hide *;
    if left <= 0 {
      ApartNow(ms, more, left);
    } else if ms == [] {
      NoneLeft(ms);
      assert ms + more == more && [] + Trim(more, left) == Trim(more, left);
    } else {
      var all, rest := ms + more, ms[1..];
      TrimStep(ms, left);
      TrimStep(all, left);
      Head(ms);
      assert all[1..] == rest + more && all[0] == ms[0];
      if ms[0].role.System? {
        LaterLed(ms, 1);
        TrimApart(rest, more, left);
        KeepFront(ms[0], rest, more, left);
      } else if ms[0].calls > 0 {
        LaterTools(ms, more);
        var k := ToolRun(rest);
        LaterLed(ms, 1 + k);
        SkipTools(rest);
        assert rest[k..] == ms[1 + k..] && all[1 + k..] == ms[1 + k..] + more;
        TrimApart(ms[1 + k..], more, left - 1 - k);
      } else {
        LaterLed(ms, 1);
        TrimApart(rest, more, left - 1);
      }
    }
  }

  lemma ApartNow(ms: seq<Message>, more: seq<Message>, left: int)
    requires left <= 0
    ensures Trim(ms + more, left) == Trim(ms, left) + more
    ensures left >= |Others(ms)| ==> Trim(ms + more, left) == Systems(ms) + Trim(more, left - |Others(ms)|)
  {
    hide *;
    TrimNone(ms, left);
    TrimNone(ms + more, left);
    TrimNone(more, left);
    if left >= |Others(ms)| {
      AllSystems(ms);
    }
  }

  lemma LaterLed(ms: seq<Message>, d: nat)
    requires CallsByAssistants(ms) && !Led(ms) && d <= |ms|
    ensures CallsByAssistants(ms[d..]) && !Led(ms[d..])
  {
    hide Leads;
  }

  lemma LaterTools(ms: seq<Message>, more: seq<Message>)
    requires CallsByAssistants(ms) && !Led(ms) && ms != [] && ms[0].calls > 0
    ensures ToolRun((ms + more)[1..]) == ToolRun(ms[1..]) < |ms[1..]|
  {
    hide ToolRun;
    assert (ms + more)[1..] == ms[1..] + more;
    assert ms[0] in ms;
    ToolsEnd(ms[1..], more);
  }

  lemma KeepFront(m: Message, rest: seq<Message>, more: seq<Message>, left: int)
    ensures [m] + (Systems(rest) + Trim(more, left)) == [m] + Systems(rest) + Trim(more, left)
    ensures [m] + (Trim(rest, left) + more) == [m] + Trim(rest, left) + more
  {
  }

  lemma {:induction false} AllSystems(ms: seq<Message>)
    requires Others(ms) == []
    ensures Systems(ms) == ms
  {
    if ms != [] {
      AllSystems(ms[1..]);
    }
  }

  /** Tool messages at the head are dropped one by one. */
  lemma {:induction false} TrimTools(ms: seq<Message>, left: nat)
    requires CallsByAssistants(ms)
    ensures var r := ToolRun(ms);
      && (left <= r ==> Trim(ms, left) == ms[left..])
      && (left >= r ==> Trim(ms, left) == Trim(ms[r..], left - r))
    decreases |ms|
  {
    hide Trim;
    TrimStep(ms, left);
    if left == 0 {
      TrimNone(ms, left);
      assert ms[0..] == ms;
    } else if ms != [] && ms[0].role.Tool? {
      TrimTools(ms[1..], left - 1);
      if left <= ToolRun(ms) {
        assert ms[1..][left - 1..] == ms[left..];
      }
      assert ms[1..][ToolRun(ms[1..])..] == ms[ToolRun(ms)..];
    } else {
      assert ms[0..] == ms;
    }
  }

  lemma {:induction false} ToolsHead(ms: seq<Message>, i: nat)
    requires i < ToolRun(ms)
    ensures ms[i].role.Tool?
  {
    if i > 0 {
      ToolsHead(ms[1..], i - 1);
    }
  }

  /** Tool messages that come first follow a call or its results in the history, or all of them are
      trimmed off at once. */
  predicate Fits(ms: seq<Message>, more: seq<Message>, limit: int) {
    || more == [] || !more[0].role.Tool? || Led(ms)
    || (limit > 0 && |ms| + |more| > limit && |Others(ms)| + ToolRun(more) <= |more|)
  }

  /** An addition that starts with tool messages, to a history in which every group is whole. */
  lemma AddedAttachedIff(ms: seq<Message>, more: seq<Message>, limit: int)
    requires Attached(ms, false) && Attached(more, true) && CallsByAssistants(ms + more)
    ensures Attached(Added(ms, more, limit), false) <==> Fits(ms, more, limit)
  {
    hide Trim, Attached, Systems, Others, ToolRun, Leads, CallsByAssistants;
    var all := ms + more;
    AttachedSplit(ms, more, false);
    StartsLed(more);
    if more == [] {
      assert all == ms;
    } else if Led(ms) || !more[0].role.Tool? {
      if limit > 0 && |all| > limit {
        TrimKeepsAttached(all, |more|, false);
      }
    } else if limit > 0 && |all| > limit {
      CallsParts(ms, more);
      TrimmedAttachedIff(ms, more);
    }
  }

  lemma StartsLed(ms: seq<Message>)
    requires Attached(ms, true)
    ensures ms != [] ==> (Attached(ms, false) <==> !ms[0].role.Tool?)
    ensures ms == [] || !ms[0].role.Tool? ==> forall led :: Attached(ms, led)
  {
  }

  lemma CallsParts(a: seq<Message>, b: seq<Message>)
    ensures CallsByAssistants(a + b) <==> CallsByAssistants(a) && CallsByAssistants(b)
  {
    if CallsByAssistants(a + b) {
      assert forall m | m in a :: m in a + b;
      assert forall m | m in b :: m in a + b;
    }
  }

  lemma TrimmedAttachedIff(ms: seq<Message>, more: seq<Message>)
    requires Attached(ms, false) && !Led(ms) && Attached(more, true) && more != [] && more[0].role.Tool?
    requires CallsByAssistants(ms) && CallsByAssistants(more)
    ensures Attached(Trim(ms + more, |more|), false) <==> |Others(ms)| + ToolRun(more) <= |more|
  {
    hide Trim, Attached, Systems, Others, ToolRun, Leads, CallsByAssistants;
    var n, r, size := |Others(ms)|, ToolRun(more), |more|;
    TrimApart(ms, more, size);
    RunStarts(more);
    if size <= n {
      TrimKeepsAttached(ms, size, false);
      AttachedSplit(Trim(ms, size), more, false);
      TrimUnled(ms, size);
      StartsLed(more);
    } else {
      var left := size - n;
      OnlySystems(ms);
      AttachedSplit(Systems(ms), Trim(more, left), false);
      TrimTools(more, left);
      if left < r {
        ToolsHead(more, left);
        HeadTool(more[left..]);
      } else {
        AttachedAfterTools(more, true);
        TrimKeepsAttached(more[r..], left - r, false);
      }
    }
  }

  lemma RunStarts(ms: seq<Message>)
    requires ms != [] && ms[0].role.Tool?
    ensures ToolRun(ms) > 0
  {
  }

  lemma HeadTool(ms: seq<Message>)
    requires ms != [] && ms[0].role.Tool?
    ensures !Attached(ms, false)
  {
  }

  /** What is left of a history that leads to nothing leads to nothing. */
  lemma {:induction false} TrimUnled(ms: seq<Message>, left: int)
    requires !Led(ms)
    ensures !Led(Trim(ms, left))
    decreases |ms|
  {
    hide Trim, ToolRun, Leads;
    TrimStep(ms, left);
    if ms != [] {
      var rest := ms[1..];
      LedTail(ms);
      if ms[0].role.System? || left <= 0 {
        TrimUnled(rest, left);
        assert Trim(ms, left)[1..] == Trim(rest, left);
        LedTail(Trim(ms, left));
        if rest != [] && Trim(rest, left) == [] && left <= 0 { TrimNone(rest, left); }
        if Led([ms[0]]) { SystemsLeadNothing(ms[0]); }
      } else if ms[0].calls > 0 {
        var k := ToolRun(rest);
        assert rest[k..] == ms[1 + k..];
        TrimUnled(rest[k..], left - 1 - k);
      } else {
        TrimUnled(rest, left - 1);
      }
    }
  }

  lemma SystemsLeadNothing(m: Message)
    ensures m.role.System? ==> !Leads(m)
  {
  }

  // ---- histories ----

  /** The history after adding batches one after the other, from nothing. */
  function History(batches: seq<seq<Message>>, max: int): seq<Message> {
    if batches == [] then [] else Added(History(batches[..|batches| - 1], max), batches[|batches| - 1], max)
  }

  lemma {:induction false} TrimSubset(ms: seq<Message>, left: int)
    ensures forall m | m in Trim(ms, left) :: m in ms
    decreases |ms|
  {
    hide Trim, ToolRun;
    TrimStep(ms, left);
    if ms != [] {
      if ms[0].role.System? || left <= 0 {
        TrimSubset(ms[1..], left);
      } else if ms[0].calls > 0 {
        TrimSubset(ms[1 + ToolRun(ms[1..])..], left - 1 - ToolRun(ms[1..]));
      } else {
        TrimSubset(ms[1..], left - 1);
      }
    }
  }

  lemma AddedSubset(ms: seq<Message>, more: seq<Message>, limit: int)
    requires CallsByAssistants(ms + more)
    ensures CallsByAssistants(Added(ms, more, limit))
  {
    hide Trim;
    TrimSubset(ms + more, |more|);
  }

  lemma {:induction false} HistoryCalls(batches: seq<seq<Message>>, max: int)
    requires forall b | b in batches :: CallsByAssistants(b)
    ensures CallsByAssistants(History(batches, max))
  {
    hide Trim, Added, History;
    NoHistory(max);
    if batches != [] {
      var init, last := batches[..|batches| - 1], batches[|batches| - 1];
      HistoryCalls(init, max);
      CallsParts(History(init, max), last);
      AddedSubset(History(init, max), last, max);
      HistoryStep(batches, max);
    }
  }

  /** Groups stay whole at every moment exactly when every batch that starts with tool messages fits the
      history it is added to. */
  lemma {:induction false} HistoryAttachedIff(batches: seq<seq<Message>>, max: int)
    requires forall b | b in batches :: Attached(b, true) && CallsByAssistants(b)
    ensures (forall i | 0 <= i <= |batches| :: Attached(History(batches[..i], max), false)) <==>
      forall i | 0 <= i < |batches| :: Fits(History(batches[..i], max), batches[i], max)
  {
    hide History, Attached, CallsByAssistants, Fits;
    var n := |batches|;
    NoHistory(max);
    if n == 0 {
      assert batches[..0] == [];
    } else {
      var init, last := batches[..n - 1], batches[n - 1];
      HistoryAttachedIff(init, max);
      assert forall i | 0 <= i <= n - 1 :: init[..i] == batches[..i];
      assert forall i | 0 <= i < n - 1 :: init[i] == batches[i];
      assert batches[..n] == batches;
      HistoryStep(batches, max);
      if Attached(History(init, max), false) {
        HistoryCalls(init, max);
        CallsParts(History(init, max), last);
        AddedAttachedIff(History(init, max), last, max);
      }
    }
  }

  lemma NoHistory(max: int)
    ensures History([], max) == [] && Attached([], false)
  {
  }

  lemma HistoryStep(batches: seq<seq<Message>>, max: int)
    requires batches != []
    ensures History(batches, max) == Added(History(batches[..|batches| - 1], max), batches[|batches| - 1], max)
  {
  }

  /** At any moment the history is bounded and keeps every system message and the newest of the others, and
      keeps groups when each batch is whole. */
  lemma {:induction false} HistoryKeeps(batches: seq<seq<Message>>, max: int) returns (gone: nat)
    ensures Bounded(History(batches, max), max) && Systems(History(batches, max)) == Systems(Flat(batches))
    ensures gone <= |Others(Flat(batches))| && Others(History(batches, max)) == Others(Flat(batches))[gone..]
    ensures (forall b | b in batches :: Attached(b, false)) ==> Attached(History(batches, max), false)
  {
    hide *;
    NoHistory(max);
    if batches == [] {
      NoneLeft([]);
      NothingFlat();
      BoundedNone(max);
      gone := 0;
    } else {
      var init, last := batches[..|batches| - 1], batches[|batches| - 1];
      var first := HistoryKeeps(init, max);
      var was := History(init, max);
      HistoryStep(batches, max);
      FlatStep(batches);
      var more := AddedKeeps(was, last, max);
      OthersAppend(was, last);
      OthersAppend(Flat(init), last);
      GoneTwice(Others(Flat(init)), Others(last), first, more);
      gone := first + more;
      if forall b | b in batches :: Attached(b, false) {
        AttachedAppend(was, last, false);
      }
    }
  }

  lemma GoneTwice(a: seq<Message>, b: seq<Message>, i: nat, j: nat)
    requires i <= |a| && j <= |a[i..] + b|
    ensures i + j <= |a + b| && (a[i..] + b)[j..] == (a + b)[i + j..]
  {
    assert a[i..] + b == (a + b)[i..];
  }

  lemma BoundedNone(limit: int)
    ensures Bounded([], limit)
  {
  }

  function Flat(bs: seq<seq<Message>>): seq<Message> {
    if bs == [] then [] else Flat(bs[..|bs| - 1]) + bs[|bs| - 1]
  }

  lemma NothingFlat()
    ensures Flat([]) == []
  {
  }

  lemma FlatStep(bs: seq<seq<Message>>)
    requires bs != []
    ensures Flat(bs) == Flat(bs[..|bs| - 1]) + bs[|bs| - 1]
  {
  }

  // ---- the session ----

  class MemorySession {
    var data: array<Message>
    var len: nat
    const max: int

    predicate Valid()
      reads this
    {
      len <= data.Length
    }

    function Messages(): (ms: seq<Message>)
      requires Valid()
      reads this, data
      ensures |ms| == len
    {
      data[..len]
    }

    constructor (max: int)
      ensures Valid() && Messages() == [] && this.max == max && fresh(data)
    {
      this.max := max;
      data := new Message[0];
      len := 0;
    }

    method Append(more: seq<Message>)
      requires Valid()
      modifies this`data, this`len
      ensures Valid() && Messages() == old(Messages()) + more && fresh(data)
    {
      var all := data[..len] + more;
      data := new Message[|all|](i requires 0 <= i < |all| => all[i]);
      len := |all|;
      assert data[..len] == all;
    }

    method AddMessage(more: seq<Message>)
      requires Valid()
      modifies this`data, this`len, data
      ensures Valid() && Messages() == Added(old(Messages()), more, max) && (data == old(data) || fresh(data))
    {
      if |more| == 0 {
        assert Messages() + more == Messages();
        return;
      }
      Append(more);
      if max > 0 && len > max {
        RemoveNonSystem(|more|);
      }
    }

    /** The number of tool messages right after position i. */
    method ToolsAfter(i: nat) returns (k: nat)
      requires Valid() && i < len
      ensures k == ToolRun(data[i + 1..len])
    {
      k := 0;
      while i + 1 + k < len && data[i + 1 + k].role.Tool?
        invariant i + 1 + k <= len && ToolRun(data[i + 1..len]) == k + ToolRun(data[i + 1 + k..len])
      {
        ghost var rest := data[i + 1 + k..len];
        assert rest[0].role.Tool? && ToolRun(rest) == 1 + ToolRun(rest[1..]);
        assert rest[1..] == data[i + 2 + k..len];
        k := k + 1;
      }
    }

    /** The message at i with the tool messages it calls for. */
    method GroupAt(i: nat) returns (k: nat)
      requires Valid() && i < len
      ensures i + k <= len && k == Group(data[i..len])
    {
      assert data[i..len][1..] == data[i + 1..len];
      k := 1;
      if data[i].calls > 0 {
        var tools := ToolsAfter(i);
        k := 1 + tools;
      }
    }

    method MoveTo(out: nat, i: nat)
      requires Valid() && out <= i < len
      modifies data
      ensures data[..out + 1] == old(data[..out]) + [old(data[i])] && data[i + 1..len] == old(data[i + 1..len])
    {
      data[out] := data[i];
    }

    /** Compacts the array in place: what stays moves to the front. */
    method RemoveNonSystem(size: nat)
      requires Valid()
      modifies this`len, data
      ensures Valid() && Messages() == Trim(old(Messages()), size) && data == old(data)
    {
      hide Trim, ToolRun, Group, TrimRest;
      ghost var was, done := data[..len], [];
      TrimStarts(was, size);
      var out, removed, i := 0, 0, 0;
      while i < len
        invariant 0 <= out <= i <= len == old(len) && Valid() && data == old(data)
        invariant data[..out] == done && data[i..len] == was[i..]
        invariant TrimRest(was, i, size - removed, done) == Trim(was, size)
      {
        var m := data[i];
        assert m == data[i..len][0] == was[i];
        if m.role.System? || removed >= size {
          TrimKeeps(was, i, size - removed, done);
          assert data[i + 1..len] == data[i..len][1..];
          Slide(data[i..len], was, i, 1);
          MoveTo(out, i);
          done := done + [m];
          out := out + 1;
          i := i + 1;
        } else {
          TrimDrops(was, i, size - removed, done);
          var k := GroupAt(i);
          assert data[i + k..len] == data[i..len][k..];
          Slide(data[i..len], was, i, k);
          i := i + k;
          removed := removed + k;
        }
      }
      TrimEnds(was, size - removed, done);
      len := out;
    }

    /** The last messages, moved back to a user message, or forward when there is none before. */
    method LatestMessages(window: int) returns (ms: seq<Message>)
      requires Valid()
      ensures exists start | 0 <= start <= len :: ms == Messages()[start..] && StartsAt(Messages(), window, start)
    {
      if len == 0 {
        assert StartsAt(Messages(), window, 0) && Messages()[0..] == [];
        return [];
      }
      if len <= window || window <= 0 {
        ms := data[..len];
        assert StartsAt(Messages(), window, 0) && Messages()[0..] == Messages();
        return;
      }
      var start := len - window;
      var i := start;
      while i >= 0
        invariant -1 <= i <= start
        invariant forall j | i < j <= start :: !data[j].role.User?
      {
        if data[i].role.User? {
          ms := data[i..len];
          assert StartsAt(Messages(), window, i) && Messages()[i..] == ms;
          return;
        }
        i := i - 1;
      }
      i := start;
      while i < len
        invariant start <= i <= len
        invariant forall j | 0 <= j < i :: !data[j].role.User?
      {
        if data[i].role.User? {
          ms := data[i..len];
          assert StartsAt(Messages(), window, i) && Messages()[i..] == ms;
          return;
        }
        i := i + 1;
      }
      ms := data[start..len];
      assert StartsAt(Messages(), window, start) && Messages()[start..] == ms;
    }
  }

  /** Where the latest messages start: everything if the window does not cut; else the nearest user
      message at or before the window, else the first one after it, else the window. */
  ghost predicate StartsAt(ms: seq<Message>, window: int, start: nat)
    requires start <= |ms|
  {
    if window <= 0 || |ms| <= window then start == 0
    else
      var edge := |ms| - window;
      if exists j | 0 <= j <= edge :: ms[j].role.User? then
        start <= edge && ms[start].role.User? && forall j | start < j <= edge :: !ms[j].role.User?
      else if exists j | 0 <= j < |ms| :: ms[j].role.User? then
        edge < start < |ms| && ms[start].role.User? && forall j | 0 <= j < start :: !ms[j].role.User?
      else start == edge
  }

  /** When the results of one call come one by one, trimming between them orphans the later ones. */
  lemma OrphanedTool(call: Message, first: Message, second: Message)
    requires call.role.Assistant? && call.calls == 2 && first.role.Tool? && second.role.Tool?
    ensures Attached([call, first, second], false)
    ensures var h := Added(Added([call], [first], 1), [second], 1); h == [second] && !Attached(h, false)
  {
    var all := [call, first];
    assert [call] + [first] == all && all[1..] == [first] && [first][1..] == [];
    assert ToolRun([first]) == 1;
    assert all[2..] == [];
    TrimStep(all, 1);
    TrimStep([], -1);
    assert [call, first, second][1..] == [first, second] && [first, second][1..] == [second] && [second][1..] == [];
    assert Attached([second], true) && Attached([first, second], true);
    assert [] + [second] == [second];
  }

  /** Adding batches one after the other to an empty session. */
  method Remember(batches: seq<seq<Message>>, max: int) returns (ms: seq<Message>)
    ensures ms == History(batches, max) && Bounded(ms, max) && Systems(ms) == Systems(Flat(batches))
    ensures exists gone | 0 <= gone <= |Others(Flat(batches))| :: Others(ms) == Others(Flat(batches))[gone..]
    ensures (forall b | b in batches :: Attached(b, false)) ==> Attached(ms, false)
  {
    hide *;
    var s := new MemorySession(max);
    NoHistory(max);
    for i := 0 to |batches|
      invariant s.Valid() && fresh(s) && fresh(s.data) && s.max == max
      invariant s.Messages() == History(batches[..i], max)
    {
      assert batches[..i + 1][..i] == batches[..i];
      HistoryStep(batches[..i + 1], max);
      s.AddMessage(batches[i]);
    }
    assert batches[..|batches|] == batches;
    ghost var gone := HistoryKeeps(batches, max);
    ms := s.Messages();
  }

  lemma {:induction false} AttachedAppend(a: seq<Message>, b: seq<Message>, led: bool)
    requires Attached(a, led) && Attached(b, false)
    ensures Attached(a + b, led)
  {
    if a == [] {
      assert a + b == b;
      Weaker(b, led);
    } else {
      AttachedAppend(a[1..], b, Leads(a[0]));
      assert (a + b)[1..] == a[1..] + b;
    }
  }

  function Group(ms: seq<Message>): (k: nat)
    requires ms != []
    ensures 1 <= k <= |ms|
  {
    1 + if ms[0].calls > 0 then ToolRun(ms[1..]) else 0
  }

  /** What is kept so far, and what trimming leaves of the messages from i on. */
  function TrimRest(ms: seq<Message>, i: nat, left: int, done: seq<Message>): seq<Message>
    requires i <= |ms|
  {
    done + Trim(ms[i..], left)
  }

  lemma TrimStarts(ms: seq<Message>, left: int)
    ensures TrimRest(ms, 0, left, []) == Trim(ms, left)
  {
    assert ms[0..] == ms && [] + Trim(ms, left) == Trim(ms, left);
  }

  lemma TrimEnds(ms: seq<Message>, left: int, done: seq<Message>)
    ensures TrimRest(ms, |ms|, left, done) == done
  {
    assert Trim(ms[|ms|..], left) == [];
  }

  lemma Slide(rest: seq<Message>, was: seq<Message>, i: nat, k: nat)
    requires i + k <= |was| && rest == was[i..]
    ensures rest[k..] == was[i + k..]
  {
  }

  lemma TrimKeeps(ms: seq<Message>, i: nat, left: int, done: seq<Message>)
    requires i < |ms| && (ms[i].role.System? || left <= 0)
    ensures TrimRest(ms, i, left, done) == TrimRest(ms, i + 1, left, done + [ms[i]])
  {
    hide Trim;
    TrimStep(ms[i..], left);
    assert ms[i..][1..] == ms[i + 1..];
  }

  lemma TrimDrops(ms: seq<Message>, i: nat, left: int, done: seq<Message>)
    requires i < |ms| && !ms[i].role.System? && left > 0
    ensures var k := Group(ms[i..]); TrimRest(ms, i, left, done) == TrimRest(ms, i + k, left - k, done)
  {
    hide Trim, ToolRun;
    TrimStep(ms[i..], left);
    var k := Group(ms[i..]);
    assert ms[i..][k..] == ms[i + k..];
    assert ms[i..][0] == ms[i];
  }

  lemma TrimStep(ms: seq<Message>, left: int)
    ensures ms == [] ==> Trim(ms, left) == []
    ensures ms != [] && (ms[0].role.System? || left <= 0) ==> Trim(ms, left) == [ms[0]] + Trim(ms[1..], left)
    ensures ms != [] && !ms[0].role.System? && left > 0 && ms[0].calls > 0 ==>
      Trim(ms, left) == Trim(ms[1 + ToolRun(ms[1..])..], left - 1 - ToolRun(ms[1..]))
    ensures ms != [] && !ms[0].role.System? && left > 0 && ms[0].calls == 0 ==>
      Trim(ms, left) == Trim(ms[1..], left - 1)
  {
  }
}

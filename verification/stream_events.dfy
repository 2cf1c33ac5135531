/** Events of a model call: token counts, the scripts that stand for provider and consumer, and the
    grammar of a delivered stream. */
module StreamEvents {

  // ---- usage (ai/usage.go) ----

  /** The ten counters. */
  datatype Counts = Counts(prompt: int, think: int, completion: int, total: int, cacheCreation: int, cacheRead: int,
                           cacheCreation5m: int, cacheCreation1h: int, webSearch: int, webFetch: int)

  const ZERO := Counts(0, 0, 0, 0, 0, 0, 0, 0, 0, 0)

  function Plus(a: Counts, b: Counts): Counts {
    Counts(a.prompt + b.prompt, a.think + b.think, a.completion + b.completion, a.total + b.total,
           a.cacheCreation + b.cacheCreation, a.cacheRead + b.cacheRead, a.cacheCreation5m + b.cacheCreation5m,
           a.cacheCreation1h + b.cacheCreation1h, a.webSearch + b.webSearch, a.webFetch + b.webFetch)
  }

  class Usage {
    var counts: Counts
    var tier: string
    var geo: string

    constructor (counts: Counts, tier: string, geo: string)
      ensures this.counts == counts && this.tier == tier && this.geo == geo
    {
      this.counts, this.tier, this.geo := counts, tier, geo;
    }

    /** Adds the counters of another usage; labels stay. */
    method Add(other: Usage?)
      modifies this
      ensures counts == if other == null then old(counts) else Plus(old(counts), old(other.counts))
      ensures tier == old(tier) && geo == old(geo)
    {
      if other == null {
        return;
      }
      var o := other.counts;
      counts := Counts(counts.prompt + o.prompt, counts.think + o.think, counts.completion + o.completion,
                       counts.total + o.total, counts.cacheCreation + o.cacheCreation, counts.cacheRead + o.cacheRead,
                       counts.cacheCreation5m + o.cacheCreation5m, counts.cacheCreation1h + o.cacheCreation1h,
                       counts.webSearch + o.webSearch, counts.webFetch + o.webFetch);
    }
  }

  datatype Option<T> = None | Some(value: T)

  /** What a usage object counts at this moment. */
  function CountsOf(u: Usage?): Option<Counts>
    reads u
  {
    if u == null then None else Some(u.counts)
  }

  function Sum(us: seq<Option<Counts>>): Counts {
    if us == [] then ZERO
    else
      var u, rest := us[|us| - 1], Sum(us[..|us| - 1]);
      if u.None? then rest else Plus(rest, u.value)
  }

  lemma SumOne(us: seq<Option<Counts>>, u: Option<Counts>)
    ensures Sum(us + [u]) == if u.None? then Sum(us) else Plus(Sum(us), u.value)
  {
    assert (us + [u])[..|us|] == us;
  }

  /** One counter over all the usages there are. */
  function Overall(us: seq<Option<Counts>>, counter: Counts -> int): int {
    if us == [] then 0 else (if us[0].Some? then counter(us[0].value) else 0) + Overall(us[1..], counter)
  }

  lemma {:induction false} OverallOne(us: seq<Option<Counts>>, u: Option<Counts>, counter: Counts -> int)
    ensures Overall(us + [u], counter) == Overall(us, counter) + if u.Some? then counter(u.value) else 0
  {
    if us == [] {
      assert us + [u] == [u];
    } else {
      assert (us + [u])[1..] == us[1..] + [u];
      OverallOne(us[1..], u, counter);
    }
  }

  /** The sum of usages counts each of the ten counters by itself. */
  lemma {:induction false} SumCounts(us: seq<Option<Counts>>)
    ensures Sum(us).prompt == Overall(us, (c: Counts) => c.prompt)
    ensures Sum(us).think == Overall(us, (c: Counts) => c.think)
    ensures Sum(us).completion == Overall(us, (c: Counts) => c.completion)
    ensures Sum(us).total == Overall(us, (c: Counts) => c.total)
    ensures Sum(us).cacheCreation == Overall(us, (c: Counts) => c.cacheCreation)
    ensures Sum(us).cacheRead == Overall(us, (c: Counts) => c.cacheRead)
    ensures Sum(us).cacheCreation5m == Overall(us, (c: Counts) => c.cacheCreation5m)
    ensures Sum(us).cacheCreation1h == Overall(us, (c: Counts) => c.cacheCreation1h)
    ensures Sum(us).webSearch == Overall(us, (c: Counts) => c.webSearch)
    ensures Sum(us).webFetch == Overall(us, (c: Counts) => c.webFetch)
  {
    if us != [] {
      var n := |us| - 1;
      SumCounts(us[..n]);
      assert us == us[..n] + [us[n]];
      OverallOne(us[..n], us[n], (c: Counts) => c.prompt);
      OverallOne(us[..n], us[n], (c: Counts) => c.think);
      OverallOne(us[..n], us[n], (c: Counts) => c.completion);
      OverallOne(us[..n], us[n], (c: Counts) => c.total);
      OverallOne(us[..n], us[n], (c: Counts) => c.cacheCreation);
      OverallOne(us[..n], us[n], (c: Counts) => c.cacheRead);
      OverallOne(us[..n], us[n], (c: Counts) => c.cacheCreation5m);
      OverallOne(us[..n], us[n], (c: Counts) => c.cacheCreation1h);
      OverallOne(us[..n], us[n], (c: Counts) => c.webSearch);
      OverallOne(us[..n], us[n], (c: Counts) => c.webFetch);
    }
  }

  /** Folding Usage.Add over the usages of all steps gives their sum. */
  method FoldAdd(us: seq<Usage?>, ghost cs: seq<Option<Counts>>) returns (t: Usage)
    requires |us| == |cs| && forall i | 0 <= i < |us| :: CountsOf(us[i]) == cs[i]
    ensures fresh(t) && t.counts == Sum(cs)
  {
    t := new Usage(ZERO, "", "");
    for i := 0 to |us|
      invariant fresh(t) && t.counts == Sum(cs[..i])
      invariant forall j | 0 <= j < |us| :: CountsOf(us[j]) == cs[j]
    {
      SumOne(cs[..i], cs[i]);
      assert cs[..i + 1] == cs[..i] + [cs[i]];
      t.Add(us[i]);
    }
    assert cs[..|cs|] == cs;
  }

  // ---- events ----

  datatype EvType = ResponseStart | StepStart | Content | UsageNote | StepEnd | ResponseEnd | Error

  /** An event with what its usage object, if it has one, counts when it is sent. */
  datatype Ev = Ev(typ: EvType, step: int, usage: Option<Counts>)

  /** No error, the consumer's error, or an error from upstream. */
  datatype Fault = Fine | Sink | Upstream

  // ---- the provider as a script ----

  /** What a dialect emits: content, events the default filter drops, errors with or without payload. */
  datatype Emission = Delta | Hidden | Bad(payload: bool)

  /** One frame: empty data, or emissions, a usage snapshot, the completion signal, a recorded error. */
  datatype Frame = Frame(empty: bool, model: bool, emits: seq<Emission>, usage: Option<Counts>, finished: bool,
      failed: bool)

  /** What follows the last frame: no tool call, tool calls handed back, a failing tool, tool results
      that make the final answer (as so many synthetic events), or a further round. */
  datatype Tools =
    | NoTools
    | HandBack(calls: nat)
    | Failing(calls: nat, results: nat)
    | Direct(calls: nat, results: nat, synthetic: nat)
    | Recurse(calls: nat, results: nat)

  /** One round trip: the request can be built, the frames, a transport error after them, the tools. */
  datatype Round = Round(builds: bool, frames: seq<Frame>, cut: bool, tools: Tools)

  /** A provider; one that is over fails to build the next request. */
  datatype Script = Over | More(round: Round, next: Script)

  // ---- the grammar of a delivered stream ----

  /** Nothing yet, between blocks, within block n, ended, or no stream at all. */
  datatype Phase = Silent | Between(n: nat) | Within(n: nat) | Done(ok: bool) | Broken

  function Next(p: Phase, e: Ev): Phase {
    match p
    case Silent => if e.typ.ResponseStart? then Between(0) else Broken
    case Between(n) =>
      if e.typ.StepStart? && e.step == n then Within(n)
      else if e.typ.ResponseEnd? && n > 0 then Done(true)
      else if e.typ.Error? then Done(false)
      else Broken
    case Within(n) =>
      if e.typ.StepEnd? && e.step == n then Between(n + 1)
      else if e.typ.Content? || e.typ.UsageNote? then p
      else Broken
    case _ => Broken
  }

  function PhaseOf(log: seq<Ev>): Phase {
    if log == [] then Silent else Next(PhaseOf(log[..|log| - 1]), log[|log| - 1])
  }

  lemma PhaseOne(log: seq<Ev>, e: Ev)
    ensures PhaseOf(log + [e]) == Next(PhaseOf(log), e)
  {
    assert (log + [e])[..|log|] == log;
  }

  /** The usages on STEP_END events. */
  function Ends(log: seq<Ev>): seq<Option<Counts>> {
    if log == [] then []
    else
      var e, rest := log[|log| - 1], Ends(log[..|log| - 1]);
      if e.typ.StepEnd? then rest + [e.usage] else rest
  }

  lemma EndsOne(log: seq<Ev>, e: Ev)
    ensures Ends(log + [e]) == if e.typ.StepEnd? then Ends(log) + [e.usage] else Ends(log)
  {
    assert (log + [e])[..|log|] == log;
  }

  // ---- what the grammar means ----

  predicate Terminal(e: Ev) {
    e.typ.ResponseEnd? || e.typ.Error?
  }

  /** A block: STEP_START, content, STEP_END, all but the content numbered n. */
  ghost predicate Block(b: seq<Ev>, n: nat) {
    && |b| >= 2 && b[0].typ.StepStart? && b[0].step == n && b[|b| - 1].typ.StepEnd? && b[|b| - 1].step == n
    && forall i | 0 < i < |b| - 1 :: b[i].typ.Content? || b[i].typ.UsageNote?
  }

  function Concat(bs: seq<seq<Ev>>): seq<Ev> {
    if bs == [] then [] else Concat(bs[..|bs| - 1]) + bs[|bs| - 1]
  }

  ghost predicate Blocks(bs: seq<seq<Ev>>) {
    forall i | 0 <= i < |bs| :: Block(bs[i], i)
  }

  /** Between blocks: RESPONSE_START and n blocks numbered 0 to n - 1. */
  lemma {:induction false} BetweenBlocks(log: seq<Ev>, n: nat) returns (bs: seq<seq<Ev>>)
    requires PhaseOf(log) == Between(n)
    ensures |bs| == n && Blocks(bs) && log != [] && log[0].typ.ResponseStart? && log == [log[0]] + Concat(bs)
    decreases |log|, 0
  {
    var e, init := log[|log| - 1], log[..|log| - 1];
    if init == [] {
      bs := [];
      assert log == [log[0]] + [];
    } else {
      var cs, open := WithinBlock(init, n - 1);
      bs := cs + [open + [e]];
      CloseBlock(log, init, e, cs, open);
    }
  }

  lemma CloseBlock(log: seq<Ev>, init: seq<Ev>, e: Ev, cs: seq<seq<Ev>>, open: seq<Ev>)
    requires init != [] && log == init + [e] && init == [init[0]] + Concat(cs) + open && Blocks(cs)
    requires |open| >= 1 && open[0].typ.StepStart? && open[0].step == |cs|
    requires forall i | 0 < i < |open| :: open[i].typ.Content? || open[i].typ.UsageNote?
    requires e.typ.StepEnd? && e.step == |cs|
    ensures var bs := cs + [open + [e]]; Blocks(bs) && log == [log[0]] + Concat(bs)
  {
    hide *;
    Closed(open, e, |cs|);
    MoreBlocks(cs, open + [e]);
    ConcatOne(cs, open + [e]);
    Regroup([init[0]], Concat(cs), open, [e]);
  }

  lemma Regroup(h: seq<Ev>, c: seq<Ev>, o: seq<Ev>, e: seq<Ev>)
    ensures h + c + o + e == h + (c + (o + e))
  {
  }

  lemma Closed(open: seq<Ev>, e: Ev, n: nat)
    requires |open| >= 1 && open[0].typ.StepStart? && open[0].step == n && e.typ.StepEnd? && e.step == n
    requires forall i | 0 < i < |open| :: open[i].typ.Content? || open[i].typ.UsageNote?
    ensures Block(open + [e], n)
  {
  }

  lemma MoreBlocks(cs: seq<seq<Ev>>, b: seq<Ev>)
    requires Blocks(cs) && Block(b, |cs|)
    ensures Blocks(cs + [b])
  {
    hide Block;
  }

  lemma ConcatOne(cs: seq<seq<Ev>>, b: seq<Ev>)
    ensures Concat(cs + [b]) == Concat(cs) + b
  {
    assert (cs + [b])[..|cs|] == cs;
  }

  /** Within block n: the blocks before it and its beginning. */
  lemma {:induction false} WithinBlock(log: seq<Ev>, n: nat) returns (bs: seq<seq<Ev>>, open: seq<Ev>)
    requires PhaseOf(log) == Within(n)
    ensures |bs| == n && Blocks(bs) && log != [] && log[0].typ.ResponseStart?
    ensures |open| >= 1 && open[0].typ.StepStart? && open[0].step == n
    ensures forall i | 0 < i < |open| :: open[i].typ.Content? || open[i].typ.UsageNote?
    ensures log == [log[0]] + Concat(bs) + open
    decreases |log|, 1
  {
    var e, init := log[|log| - 1], log[..|log| - 1];
    if e.typ.StepStart? {
      bs := BetweenBlocks(init, n);
      open := [e];
    } else {
      var o;
      bs, o := WithinBlock(init, n);
      open := o + [e];
    }
    assert log == init + [e];
  }

  /** A complete log is RESPONSE_START, blocks numbered from 0 and one terminal event, the last. */
  lemma {:induction false} CompleteStream(log: seq<Ev>, ok: bool) returns (bs: seq<seq<Ev>>)
    requires PhaseOf(log) == Done(ok)
    ensures |log| >= 2 && log[0].typ.ResponseStart? && Blocks(bs) && log == [log[0]] + Concat(bs) + [log[|log| - 1]]
    ensures if ok then log[|log| - 1].typ.ResponseEnd? && |bs| > 0 else log[|log| - 1].typ.Error?
    ensures forall i | 0 <= i < |log| - 1 :: !Terminal(log[i])
  {
    var init := log[..|log| - 1];
    bs := BetweenBlocks(init, PhaseOf(init).n);
    assert log == init + [log[|log| - 1]];
    NoTerminal(init);
  }

  lemma {:induction false} NoTerminal(log: seq<Ev>)
    requires !PhaseOf(log).Done? && !PhaseOf(log).Broken?
    ensures forall i | 0 <= i < |log| :: !Terminal(log[i])
  {
    if log != [] {
      NoTerminal(log[..|log| - 1]);
    }
  }

  /** And every such sequence is complete. */
  lemma {:induction false} StreamComplete(bs: seq<seq<Ev>>, start: Ev, end: Ev)
    requires start.typ.ResponseStart? && Blocks(bs) && Terminal(end) && (end.typ.ResponseEnd? ==> |bs| > 0)
    ensures PhaseOf([start] + Concat(bs) + [end]) == Done(end.typ.ResponseEnd?)
  {
    BlocksBetween(bs, start);
    PhaseOne([start] + Concat(bs), end);
  }

  lemma {:induction false} BlocksBetween(bs: seq<seq<Ev>>, start: Ev)
    requires start.typ.ResponseStart? && Blocks(bs)
    ensures PhaseOf([start] + Concat(bs)) == Between(|bs|)
  {
    if bs == [] {
      assert [start] + Concat(bs) == [] + [start];
      PhaseOne([], start);
    } else {
      var k := |bs| - 1;
      BlocksBetween(bs[..k], start);
      var init := [start] + Concat(bs[..k]);
      BlockPhase(init, bs[k], |bs[k]|);
      assert [start] + Concat(bs) == init + bs[k];
      assert bs[k][..|bs[k]|] == bs[k];
    }
  }

  lemma {:induction false} BlockPhase(init: seq<Ev>, b: seq<Ev>, i: nat)
    requires PhaseOf(init).Between? && Block(b, PhaseOf(init).n) && 0 < i <= |b|
    ensures PhaseOf(init + b[..i]) == if i == |b| then Between(PhaseOf(init).n + 1) else Within(PhaseOf(init).n)
  {
    if i > 1 {
      BlockPhase(init, b, i - 1);
    } else {
      assert init + b[..0] == init;
    }
    assert init + b[..i] == (init + b[..i - 1]) + [b[i - 1]];
    PhaseOne(init + b[..i - 1], b[i - 1]);
  }
}

/** ai/accumulator.go: entries, slots and tool-call builders updated in place by every event. */
module Accumulators {
  import opened AccumSpec
  import opened AccumLaws

  class AccEntry {
    const isText: bool
    const key: string
    const block: nat
    var text: string

    constructor (isText: bool, key: string, block: nat)
      ensures this.isText == isText && this.key == key && this.block == block && text == ""
    {
      this.isText, this.key, this.block, text := isText, key, block, "";
    }

    function Value(): Slot
      reads this
    {
      if isText then TextSlot(key, text) else MediaSlot(block)
    }
  }

  class Builder {
    var index: string
    var id: string
    var name: string
    var args: string

    constructor ()
      ensures Value() == ToolCall("", "", "", "")
    {
      index, id, name, args := "", "", "", "";
    }

    function Value(): ToolCall
      reads this
    {
      ToolCall(index, id, name, args)
    }
  }

  /** The order lists each key of the table exactly once, and the builders are distinct. */
  ghost predicate Listed(order: seq<string>, calls: map<string, Builder>) {
    && (forall i, j | 0 <= i < j < |order| :: order[i] != order[j])
    && (forall i | 0 <= i < |order| :: order[i] in calls)
    && (forall k | k in calls :: k in order)
    && (forall k, l | k in calls && l in calls && calls[k] == calls[l] :: k == l)
  }

  lemma ListedRename(order: seq<string>, calls: map<string, Builder>, i: nat, key: string)
    requires Listed(order, calls) && i < |order| && key !in calls
    ensures Listed(order[i := key], (calls - {order[i]})[key := calls[order[i]]])
  {
    var r, c := order[i := key], (calls - {order[i]})[key := calls[order[i]]];
    assert key !in order;
    forall k | k in c ensures k in r {
      if k == key {
        assert r[i] == key;
      } else {
        var j :| 0 <= j < |order| && order[j] == k;
        assert r[j] == k;
      }
    }
  }

  lemma ListedAppend(order: seq<string>, calls: map<string, Builder>, key: string, b: Builder)
    requires Listed(order, calls) && key !in calls && b !in calls.Values
    ensures Listed(order + [key], calls[key := b])
  {
    assert key !in order;
    assert forall k | k in calls :: calls[k] in calls.Values;
  }

  lemma Others(order: seq<string>, calls: map<string, Builder>, i: nat, j: nat)
    requires Listed(order, calls) && i < |order| && j < |order| && i != j
    ensures order[i] in calls && order[j] in calls && order[i] != order[j] && calls[order[i]] != calls[order[j]]
  {
  }

  lemma ListedFacts(order: seq<string>, calls: map<string, Builder>)
    requires Listed(order, calls)
    ensures forall k | k in order :: k in calls
    ensures forall k | k in calls :: k in order
    ensures forall i, j | 0 <= i < j < |order| :: order[i] != order[j]
  {
  }

  class Accumulator {
    var entries: seq<AccEntry>
    var curTextKey: string
    var toolCalls: map<string, Builder>
    var toolOrder: seq<string>

    function Slots(): (s: seq<Slot>)
      reads this, entries
      ensures |s| == |entries|
    {
      seq(|entries|, i requires 0 <= i < |entries| reads this, entries => entries[i].Value())
    }

    function Tools(): (es: seq<Entry>)
      reads this, toolCalls.Values
      ensures |es| == |toolOrder|
    {
      seq(|toolOrder|, i requires 0 <= i < |toolOrder| reads this, toolCalls.Values =>
        Entry(toolOrder[i], CallOf(toolOrder[i])))
    }

    function CallOf(key: string): ToolCall
      reads this, toolCalls.Values
    {
      if key in toolCalls then toolCalls[key].Value() else ToolCall("", "", "", "")
    }

    /** The entries are distinct objects with distinct text keys, and the tool calls are listed. */
    ghost predicate Valid()
      reads this, entries, toolCalls.Values
    {
      && (forall i, j | 0 <= i < j < |entries| :: entries[i] != entries[j])
      && (forall i, j | 0 <= i < j < |entries| && entries[i].isText && entries[j].isText ::
            entries[i].key != entries[j].key)
      && Listed(toolOrder, toolCalls)
    }

    constructor ()
      ensures Valid() && Slots() == [] && Tools() == []
    {
      entries, curTextKey, toolCalls, toolOrder := [], "", map[], [];
    }

    /** The slot of a key, by way of the cached key if it is the current one, else by a full search. */
    method TextSlot(key: string) returns (e: AccEntry, ghost i: nat)
      requires Valid()
      modifies this`entries, this`curTextKey
      ensures Valid() && i < |entries| && e == entries[i] && e.isText && e.key == key
      ensures entries == if i < |old(entries)| then old(entries) else old(entries) + [e]
      ensures i < |old(entries)| || (i == |old(entries)| && fresh(e) && e.text == "")
      ensures forall j | 0 <= j < i && entries[j].isText :: entries[j].key != key
    {
      if curTextKey == key {
        var k := |entries| - 1;
        while k >= 0
          invariant -1 <= k < |entries|
        {
          if entries[k].isText && entries[k].key == key {
            return entries[k], k;
          }
          k := k - 1;
        }
      }
      for k := 0 to |entries|
        invariant forall j | 0 <= j < k && entries[j].isText :: entries[j].key != key
        invariant entries == old(entries)
      {
        if entries[k].isText && entries[k].key == key {
          curTextKey := key;
          return entries[k], k;
        }
      }
      i := |entries|;
      e := new AccEntry(true, key, 0);
      entries := entries + [e];
      curTextKey := key;
    }

    method MergeText(key: string, text: string)
      requires Valid()
      modifies this`entries, this`curTextKey, entries
      ensures Valid() && Slots() == AddText(old(Slots()), key, text) && Tools() == old(Tools())
      ensures fresh(set e | e in entries && e !in old(entries))
    {
      hide Listed, AddText;
      ghost var before, tools := Slots(), Tools();
      var e, i := TextSlot(key);
      assert forall j | 0 <= j < |before| :: entries[j].Value() == before[j];
      e.text := e.text + text;
      assert forall j | 0 <= j < |before| && j != i :: entries[j].Value() == before[j];
      AddTextIs(before, key, text, i);
      assert "" + text == text;
      assert forall j | 0 <= j < |tools| :: Tools()[j] == tools[j];
      assert Slots() == AddText(before, key, text);
    }

    method MergeMedia(block: nat)
      requires Valid()
      modifies this`entries, this`curTextKey
      ensures Valid() && Slots() == old(Slots()) + [MediaSlot(block)] && Tools() == old(Tools())
      ensures fresh(set e | e in entries && e !in old(entries))
    {
      var e := new AccEntry(false, "", block);
      entries := entries + [e];
      curTextKey := "";
    }

    /** A builder known by its id so far is known by its index from now on; it keeps its place. */
    method Migrate(id: string, key: string, ghost i: nat) returns (b: Builder)
      requires Listed(toolOrder, toolCalls) && i < |toolOrder| && toolOrder[i] == id && key !in toolCalls
      modifies this`toolCalls, this`toolOrder
      ensures Listed(toolOrder, toolCalls) && toolOrder == old(toolOrder)[i := key] && b == old(toolCalls[id])
      ensures toolCalls == (old(toolCalls) - {id})[key := b]
    {
      ListedFacts(toolOrder, toolCalls);
      ListedRename(toolOrder, toolCalls, i, key);
      hide Listed;
      b := toolCalls[id];
      toolCalls := toolCalls - {id};
      toolCalls := toolCalls[key := b];
      ghost var was := toolOrder;
      for k := 0 to |toolOrder|
        invariant |toolOrder| == |was| && toolCalls == (old(toolCalls) - {id})[key := b]
        invariant toolOrder == if i < k then was[i := key] else was
      {
        if toolOrder[k] == id {
          toolOrder := toolOrder[k := key];
        }
      }
    }

    /** The builder an event belongs to: by its key, by migration from its id, or a new one. */
    method BuilderFor(e: Event) returns (b: Builder, ghost i: nat)
      requires Listed(toolOrder, toolCalls) && e.Tool?
      modifies this`toolCalls, this`toolOrder
      ensures Listed(toolOrder, toolCalls) && i == RouteTo(old(Tools()), e)
      ensures toolOrder == if i < |old(toolOrder)| then old(toolOrder)[i := RouteKey(e)]
        else old(toolOrder) + [RouteKey(e)]
      ensures RouteKey(e) in toolCalls && b == toolCalls[RouteKey(e)]
      ensures if i < |old(toolOrder)| then b == old(toolCalls[toolOrder[i]])
        else fresh(b) && b.Value() == ToolCall("", "", "", "")
      ensures forall k | k in old(toolCalls) && k in toolCalls && k != RouteKey(e) :: toolCalls[k] == old(toolCalls[k])
      ensures toolCalls.Values <= old(toolCalls.Values) + {b}
    {
      hide Listed;
      ghost var es := Tools();
      var key := if ToolKey(e.call) != "" then ToolKey(e.call) else if e.callId != "" then e.callId else "idx:-1";
      KeyListed(key);
      if key in toolCalls {
        b := toolCalls[key];
        i := Position(es, key);
        return;
      }
      if e.call.Some? && e.call.value.index != "" {
        var id := e.call.value.id;
        KeyListed(id);
        if id in toolCalls && id != "" {
          i := Position(es, id);
          b := Migrate(id, key, i);
          return;
        }
      }
      b := new Builder();
      i := |toolOrder|;
      ListedAppend(toolOrder, toolCalls, key, b);
      toolCalls := toolCalls[key := b];
      toolOrder := toolOrder + [key];
    }

    lemma KeyListed(key: string)
      requires Listed(toolOrder, toolCalls)
      ensures KeyIn(Tools(), key) <==> key in toolCalls
      ensures var i := Position(Tools(), key); i < |toolOrder| ==> toolOrder[i] == key
    {
      KeyInIs(Tools(), key);
      if key in toolCalls {
        var i :| 0 <= i < |toolOrder| && toolOrder[i] == key;
        assert Tools()[i].key == key;
      }
    }

    /** The fields a call carries, then its part of the arguments. */
    method FillIn(b: Builder, e: Event)
      requires e.Tool?
      modifies b
      ensures b.Value() == Fill(old(b.Value()), e)
    {
      assert b.args + "" == b.args;
      if e.call.Some? {
        var tc := e.call.value;
        if tc.index != "" {
          b.index := tc.index;
        }
        if tc.id != "" {
          b.id := tc.id;
        }
        if tc.name != "" {
          b.name := tc.name;
        }
      }
      match e.kind
      case Start =>
      case ArgsDelta => b.args := b.args + e.fragment;
      case End =>
        if e.call.Some? && e.call.value.args != "" && b.args == "" {
          b.args := b.args + e.call.value.args;
        }
    }

    method MergeTool(e: Event)
      requires Listed(toolOrder, toolCalls) && e.Tool?
      modifies this`toolCalls, this`toolOrder, toolCalls.Values
      ensures Listed(toolOrder, toolCalls) && Tools() == Absorb(old(Tools()), e)
      ensures fresh(toolCalls.Values - old(toolCalls.Values))
    {
      hide Fill, Listed, RouteTo, RouteKey, ToolKey, Absorb;
      ListedFacts(toolOrder, toolCalls);
      ghost var es, order, calls := Tools(), toolOrder, toolCalls;
      var b, i := BuilderFor(e);
      ListedFacts(toolOrder, toolCalls);
      FillIn(b, e);
      forall j | 0 <= j < |toolOrder| && j != i ensures j < |es| && Tools()[j] == es[j] {
        Others(toolOrder, toolCalls, i, j);
        assert toolOrder[j] == order[j] && toolCalls[toolOrder[j]] == calls[order[j]];
      }
      AbsorbIs(es, e, i, Tools());
    }

    method Merge(e: Event)
      requires Valid()
      modifies this, entries, toolCalls.Values
      ensures Valid() && Slots() == Gather(old(Slots()), e) && Tools() == Absorb(old(Tools()), e)
      ensures fresh(set x | x in entries && x !in old(entries)) && fresh(toolCalls.Values - old(toolCalls.Values))
    {
      hide Listed, AddText, Absorb, RouteTo, Fill;
      AbsorbOther(Tools(), e);
      match e
      case TextDelta(item, index, text) => MergeText(TextKey(item, index), text);
      case MediaDone(block) => MergeMedia(block);
      case Tool(_, _, _, _) =>
        ghost var slots := Slots();
        MergeTool(e);
        assert forall i | 0 <= i < |slots| :: Slots()[i] == slots[i];
      case Other =>
    }

    /** The text of the message. */
    method Text() returns (text: string)
      requires Valid()
      ensures text == MessageText(Slots())
    {
      hide MessageText, Listed;
      text := "";
      var slots := Slots();
      assert slots[0..] == slots;
      for i := 0 to |entries|
        invariant text + MessageText(slots[i..]) == MessageText(slots)
      {
        TextFrom(slots, i);
        assert slots[i] == entries[i].Value();
        if entries[i].isText {
          text := text + entries[i].text;
        }
      }
      TextFrom(slots, |slots|);
    }

    /** The tool calls in order of first appearance. */
    method BuildToolCalls() returns (calls: seq<ToolCall>)
      requires Valid()
      ensures |calls| == |Tools()| && forall i | 0 <= i < |calls| :: calls[i] == Tools()[i].call
    {
      calls := [];
      for k := 0 to |toolOrder|
        invariant |calls| == k && forall i | 0 <= i < k :: calls[i] == Tools()[i].call
      {
        calls := calls + [toolCalls[toolOrder[k]].Value()];
      }
    }
  }

  lemma TextFrom(slots: seq<Slot>, i: nat)
    requires i <= |slots|
    ensures MessageText(slots[i..]) ==
      if i == |slots| then ""
      else (if slots[i].TextSlot? then slots[i].text else "") + MessageText(slots[i + 1..])
  {
    if i < |slots| {
      assert slots[i..][1..] == slots[i + 1..];
    }
  }

  lemma AbsorbIs(es: seq<Entry>, e: Event, i: nat, r: seq<Entry>)
    requires e.Tool? && i == RouteTo(es, e) && |r| == (if i < |es| then |es| else |es| + 1)
    requires r[i] == Entry(RouteKey(e), Fill(if i < |es| then es[i].call else ToolCall("", "", "", ""), e))
    requires forall j | 0 <= j < |r| && j != i :: j < |es| && r[j] == es[j]
    ensures r == Absorb(es, e)
  {
    hide Fill, RouteTo, RouteKey;
  }

  lemma AbsorbOther(es: seq<Entry>, e: Event)
    ensures !e.Tool? ==> Absorb(es, e) == es
  {
  }

  lemma {:induction false} AddTextIs(slots: seq<Slot>, key: string, text: string, i: nat)
    requires i <= |slots| && (i < |slots| ==> slots[i].TextSlot? && slots[i].key == key)
    requires forall j | 0 <= j < i && slots[j].TextSlot? :: slots[j].key != key
    ensures AddText(slots, key, text) ==
      if i < |slots| then slots[i := TextSlot(key, slots[i].text + text)] else slots + [TextSlot(key, text)]
  {
    AddTextStep(slots, key, text);
    hide AddText;
    if i > 0 {
      var rest := slots[1..];
      AddTextIs(rest, key, text, i - 1);
      assert slots == [slots[0]] + rest;
      if i < |slots| {
        assert slots[i] == rest[i - 1];
      }
    }
  }

  lemma AddTextStep(slots: seq<Slot>, key: string, text: string)
    ensures AddText(slots, key, text) ==
      if slots == [] then [TextSlot(key, text)]
      else if slots[0].TextSlot? && slots[0].key == key then slots[0 := TextSlot(key, slots[0].text + text)]
      else [slots[0]] + AddText(slots[1..], key, text)
  {
  }

  /** A message aggregated from a stream of events: its text, key by key, and its tool calls. */
  method Aggregate(h: seq<Event>) returns (text: string, calls: seq<ToolCall>)
    ensures text == TextOfKeys(h, KeysOf(h))
    ensures |calls| == |ToolsOf(h)|
    ensures forall i | 0 <= i < |calls| ::
      calls[i] == ToolsOf(h)[i].call && calls[i].args == Routed(h, i) && FieldsAre(h, i, calls[i])
  {
    var a := new Accumulator();
    for i := 0 to |h|
      invariant a.Valid() && fresh(a) && fresh(set e | e in a.entries) && fresh(a.toolCalls.Values)
      invariant a.Slots() == SlotsOf(h[..i]) && a.Tools() == ToolsOf(h[..i])
    {
      assert h[..i + 1][..i] == h[..i];
      a.Merge(h[i]);
    }
    assert h[..|h|] == h;
    MessageTextIs(h);
    ArgumentsAre(h);
    CallsHaveFields(h);
    hide FieldsAre;
    text := a.Text();
    calls := a.BuildToolCalls();
  }
}

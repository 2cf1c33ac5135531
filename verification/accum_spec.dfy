/** What ai/accumulator.go gathers from a stream of events: text by key, tool calls by identity. */
module AccumSpec {

  datatype Option<T> = None | Some(value: T)

  datatype ToolCall = ToolCall(index: string, id: string, name: string, args: string)

  datatype ToolKind = Start | ArgsDelta | End

  datatype Event =
    | TextDelta(item: string, index: int, text: string)
    | MediaDone(block: nat)
    | Tool(kind: ToolKind, call: Option<ToolCall>, callId: string, fragment: string)
    | Other

  // ---- text ----

  datatype Slot = TextSlot(key: string, text: string) | MediaSlot(block: nat)

  function Itoa(n: nat): string {
    if n < 10 then [('0' as int + n) as char] else Itoa(n / 10) + [('0' as int + n % 10) as char]
  }

  /** The key of the text slot an event belongs to. */
  function TextKey(item: string, index: int): (key: string)
    ensures key != ""
  {
    if item != "" then "text:item:" + item
    else if index >= 0 then "text:index:" + Itoa(index)
    else "text:default"
  }

  /** Appends to the slot of the key; a new key gets a slot at the end. */
  function AddText(slots: seq<Slot>, key: string, text: string): seq<Slot> {
    if slots == [] then [TextSlot(key, text)]
    else if slots[0].TextSlot? && slots[0].key == key then [TextSlot(key, slots[0].text + text)] + slots[1..]
    else [slots[0]] + AddText(slots[1..], key, text)
  }

  function Gather(slots: seq<Slot>, e: Event): seq<Slot> {
    match e
    case TextDelta(item, index, text) => AddText(slots, TextKey(item, index), text)
    case MediaDone(b) => slots + [MediaSlot(b)]
    case _ => slots
  }

  function SlotsOf(h: seq<Event>): seq<Slot> {
    if h == [] then [] else Gather(SlotsOf(h[..|h| - 1]), h[|h| - 1])
  }

  function MessageText(slots: seq<Slot>): string {
    if slots == [] then ""
    else (if slots[0].TextSlot? then slots[0].text else "") + MessageText(slots[1..])
  }

  // ---- the text of a message, told from the events alone ----

  function KeyOf(e: Event): string {
    if e.TextDelta? then TextKey(e.item, e.index) else ""
  }

  /** The keys in order of first appearance. */
  function KeysOf(h: seq<Event>): seq<string> {
    if h == [] then []
    else
      var ks, e := KeysOf(h[..|h| - 1]), h[|h| - 1];
      if e.TextDelta? && KeyOf(e) !in ks then ks + [KeyOf(e)] else ks
  }

  /** All deltas with one key, in order. */
  function Deltas(h: seq<Event>, key: string): string {
    if h == [] then ""
    else
      var e := h[|h| - 1];
      Deltas(h[..|h| - 1], key) + if e.TextDelta? && KeyOf(e) == key then e.text else ""
  }

  function TextOfKeys(h: seq<Event>, ks: seq<string>): string {
    if ks == [] then "" else Deltas(h, ks[0]) + TextOfKeys(h, ks[1..])
  }

  /** The keys of the text slots, from left to right. */
  function SlotKeys(slots: seq<Slot>): seq<string> {
    if slots == [] then [] else (if slots[0].TextSlot? then [slots[0].key] else []) + SlotKeys(slots[1..])
  }

  ghost predicate Unique(ks: seq<string>) {
    forall i, j | 0 <= i < j < |ks| :: ks[i] != ks[j]
  }

  ghost predicate Holds(slots: seq<Slot>, h: seq<Event>) {
    forall i | 0 <= i < |slots| && slots[i].TextSlot? :: slots[i].text == Deltas(h, slots[i].key)
  }

  lemma {:induction false} AddTextKeys(slots: seq<Slot>, key: string, text: string)
    ensures SlotKeys(AddText(slots, key, text)) == if key in SlotKeys(slots) then SlotKeys(slots)
      else SlotKeys(slots) + [key]
  {
    if slots != [] {
      AddTextKeys(slots[1..], key, text);
      var r := AddText(slots, key, text);
      assert r[1..] == if slots[0].TextSlot? && slots[0].key == key then slots[1..] else AddText(slots[1..], key, text);
    }
  }

  lemma {:induction false} AppendKeys(slots: seq<Slot>, m: Slot)
    ensures SlotKeys(slots + [m]) == SlotKeys(slots) + if m.TextSlot? then [m.key] else []
  {
    if slots != [] {
      AppendKeys(slots[1..], m);
      assert (slots + [m])[1..] == slots[1..] + [m];
    } else {
      assert (slots + [m])[1..] == [];
    }
  }

  lemma {:induction false} AddTextAt(slots: seq<Slot>, key: string, text: string, i: nat)
    requires Unique(SlotKeys(slots)) && i < |AddText(slots, key, text)| && AddText(slots, key, text)[i].TextSlot?
    ensures var r := AddText(slots, key, text)[i];
      if i < |slots| then
        slots[i].TextSlot? && r == TextSlot(slots[i].key, slots[i].text + if slots[i].key == key then text else "")
      else r == TextSlot(key, text) && key !in SlotKeys(slots)
    ensures |slots| <= |AddText(slots, key, text)| <= |slots| + 1
  {
    if slots != [] {
      var ks := SlotKeys(slots);
      assert ks[if slots[0].TextSlot? then 1 else 0..] == SlotKeys(slots[1..]);
      if slots[0].TextSlot? && slots[0].key == key {
        if i > 0 {
          var j := KeyAt(slots[1..], i - 1);
          assert ks == [key] + SlotKeys(slots[1..]);
          assert ks[0] == key && ks[j + 1] == slots[i].key;
          assert slots[i].text + "" == slots[i].text;
        }
      } else {
        if i > 0 {
          AddTextAt(slots[1..], key, text, i - 1);
        } else {
          AddTextSize(slots[1..], key, text);
          assert slots[0].text + "" == slots[0].text;
        }
      }
    }
  }

  lemma {:induction false} AddTextSize(slots: seq<Slot>, key: string, text: string)
    ensures |slots| <= |AddText(slots, key, text)| <= |slots| + 1
  {
    if slots != [] {
      AddTextSize(slots[1..], key, text);
    }
  }

  lemma {:induction false} KeyAt(slots: seq<Slot>, i: nat) returns (j: nat)
    requires i < |slots| && slots[i].TextSlot?
    ensures j < |SlotKeys(slots)| && SlotKeys(slots)[j] == slots[i].key
  {
    if i == 0 {
      j := 0;
    } else {
      j := KeyAt(slots[1..], i - 1);
      j := j + if slots[0].TextSlot? then 1 else 0;
    }
  }

  // ---- the slots hold the text, key by key ----

  lemma DeltasOne(h: seq<Event>, e: Event, key: string)
    ensures Deltas(h + [e], key) == Deltas(h, key) + if e.TextDelta? && KeyOf(e) == key then e.text else ""
    ensures KeysOf(h + [e]) == if e.TextDelta? && KeyOf(e) !in KeysOf(h) then KeysOf(h) + [KeyOf(e)] else KeysOf(h)
  {
    assert (h + [e])[..|h|] == h;
  }

  lemma {:induction false} NoDeltas(h: seq<Event>, key: string)
    requires key !in KeysOf(h)
    ensures Deltas(h, key) == ""
  {
    if h != [] {
      NoDeltas(h[..|h| - 1], key);
    }
  }

  /** In every reachable state the text slots have unique keys, in order of first appearance, and each
      holds exactly the deltas of its key, whatever came in between. */
  lemma {:induction false} SlotsHoldText(h: seq<Event>)
    ensures var slots := SlotsOf(h); SlotKeys(slots) == KeysOf(h) && Unique(KeysOf(h)) && Holds(slots, h)
  {
    if h != [] {
      var init, e := h[..|h| - 1], h[|h| - 1];
      SlotsHoldText(init);
      assert h == init + [e];
      GatherHolds(SlotsOf(init), init, e);
    }
  }

  lemma GatherHolds(slots: seq<Slot>, h: seq<Event>, e: Event)
    requires SlotKeys(slots) == KeysOf(h) && Unique(KeysOf(h)) && Holds(slots, h)
    ensures var r := Gather(slots, e);
      SlotKeys(r) == KeysOf(h + [e]) && Unique(KeysOf(h + [e])) && Holds(r, h + [e])
  {
    hide SlotKeys, AddText, Deltas, KeysOf;
    var r := Gather(slots, e);
    DeltasOne(h, e, "");
    if e.TextDelta? {
      AddTextKeys(slots, KeyOf(e), e.text);
    } else if e.MediaDone? {
      AppendKeys(slots, MediaSlot(e.block));
      assert SlotKeys(slots) + [] == SlotKeys(slots);
    }
    forall i | 0 <= i < |r| && r[i].TextSlot? ensures r[i].text == Deltas(h + [e], r[i].key) {
      DeltasOne(h, e, r[i].key);
      if e.TextDelta? {
        AddTextAt(slots, KeyOf(e), e.text, i);
        if i >= |slots| {
          NoDeltas(h, r[i].key);
          assert "" + e.text == e.text;
        }
      } else {
        assert r[i].text + "" == r[i].text;
      }
    }
  }

  lemma {:induction false} TextBySlots(slots: seq<Slot>, h: seq<Event>)
    requires Holds(slots, h)
    ensures MessageText(slots) == TextOfKeys(h, SlotKeys(slots))
  {
    if slots != [] {
      TextBySlots(slots[1..], h);
      assert SlotKeys(slots) == (if slots[0].TextSlot? then [slots[0].key] else []) + SlotKeys(slots[1..]);
      if slots[0].TextSlot? {
        assert SlotKeys(slots)[1..] == SlotKeys(slots[1..]);
      } else {
        assert SlotKeys(slots) == SlotKeys(slots[1..]);
      }
    }
  }

  /** The message text is, key by key in order of first appearance, all deltas of that key. */
  lemma {:induction false} MessageTextIs(h: seq<Event>)
    ensures MessageText(SlotsOf(h)) == TextOfKeys(h, KeysOf(h))
  {
    hide SlotsOf, KeysOf, MessageText, TextOfKeys, SlotKeys;
    SlotsHoldText(h);
    TextBySlots(SlotsOf(h), h);
  }

  // ---- tool calls ----

  /** A tool call under construction, with the key it is known by. */
  datatype Entry = Entry(key: string, call: ToolCall)

  /** The aggregation key: the index before the id. */
  function ToolKey(call: Option<ToolCall>): string {
    if call.None? then "" else if call.value.index != "" then call.value.index else call.value.id
  }

  function RouteKey(e: Event): (key: string)
    requires e.Tool?
    ensures key != ""
  {
    if ToolKey(e.call) != "" then ToolKey(e.call) else if e.callId != "" then e.callId else "idx:-1"
  }

  function KeyIn(es: seq<Entry>, key: string): bool {
    es != [] && (es[0].key == key || KeyIn(es[1..], key))
  }

  /** The position of a key, or the end. */
  function Position(es: seq<Entry>, key: string): (i: nat)
    ensures i <= |es| && (i < |es| <==> KeyIn(es, key)) && (i < |es| ==> es[i].key == key)
  {
    if es == [] || es[0].key == key then 0 else 1 + Position(es[1..], key)
  }

  /** The call carries both an index and an id. */
  predicate Identified(e: Event)
    requires e.Tool?
  {
    e.call.Some? && e.call.value.index != "" && e.call.value.id != ""
  }

  /** Where the event goes: its key, else the entry that is so far known by its id, else a new one. */
  function RouteTo(es: seq<Entry>, e: Event): (i: nat)
    requires e.Tool?
    ensures i <= |es|
  {
    if KeyIn(es, RouteKey(e)) then Position(es, RouteKey(e))
    else if Identified(e) && KeyIn(es, e.call.value.id) then Position(es, e.call.value.id)
    else |es|
  }

  /** The text the event adds to the arguments of a call: END adds its body only to an empty one. */
  function Piece(e: Event, args: string): string
    requires e.Tool?
  {
    match e.kind
    case Start => ""
    case ArgsDelta => e.fragment
    case End => if e.call.Some? && args == "" then e.call.value.args else ""
  }

  function Fill(call: ToolCall, e: Event): ToolCall
    requires e.Tool?
  {
    var c := if e.call.None? then call
      else ToolCall(if e.call.value.index != "" then e.call.value.index else call.index,
                    if e.call.value.id != "" then e.call.value.id else call.id,
                    if e.call.value.name != "" then e.call.value.name else call.name, call.args);
    c.(args := call.args + Piece(e, call.args))
  }

  function Absorb(es: seq<Entry>, e: Event): seq<Entry> {
    if !e.Tool? then es
    else
      var i := RouteTo(es, e);
      var known := if i < |es| then es[i].call else ToolCall("", "", "", "");
      var entry := Entry(RouteKey(e), Fill(known, e));
      if i < |es| then es[i := entry] else es + [entry]
  }

  function ToolsOf(h: seq<Event>): seq<Entry> {
    if h == [] then [] else Absorb(ToolsOf(h[..|h| - 1]), h[|h| - 1])
  }

  ghost predicate Keyed(es: seq<Entry>) {
    forall i, j | 0 <= i < j < |es| :: es[i].key != es[j].key
  }

  lemma {:induction false} KeyInIs(es: seq<Entry>, key: string)
    ensures KeyIn(es, key) <==> exists i :: 0 <= i < |es| && es[i].key == key
  {
    if es != [] {
      KeyInIs(es[1..], key);
      assert forall i | 0 <= i < |es| - 1 :: es[1..][i] == es[i + 1];
    }
  }

  lemma AbsorbKeyed(es: seq<Entry>, e: Event)
    requires Keyed(es) && e.Tool?
    ensures Keyed(Absorb(es, e))
  {
    hide Fill;
    KeyInIs(es, RouteKey(e));
  }

  /** Identities stay unique; no entry moves, no argument text is lost, and a key changes only when the
      index of a call arrives that was known by its id. */
  lemma AbsorbLosesNothing(es: seq<Entry>, e: Event, i: nat)
    requires Keyed(es) && e.Tool? && i < |es|
    ensures var r := Absorb(es, e);
      && Keyed(r) && |es| <= |r| <= |es| + 1 && es[i].call.args <= r[i].call.args
      && (i != RouteTo(es, e) ==> r[i] == es[i])
      && (r[i].key != es[i].key ==> Identified(e) && es[i].key == e.call.value.id && r[i].key == e.call.value.index)
  {
    AbsorbKeyed(es, e);
  }

  /** The argument text routed to position i, told from the events alone. */
  function Routed(h: seq<Event>, i: nat): string {
    if h == [] then ""
    else
      var init, e := h[..|h| - 1], h[|h| - 1];
      var before := Routed(init, i);
      if !e.Tool? || RouteTo(ToolsOf(init), e) != i then before
      else if e.kind.ArgsDelta? then before + e.fragment
      else if e.kind.End? && before == "" && e.call.Some? then e.call.value.args
      else before
  }

  lemma {:induction false} RoutedBeyond(h: seq<Event>, i: nat)
    requires i >= |ToolsOf(h)|
    ensures Routed(h, i) == ""
  {
    if h != [] {
      RoutedBeyond(h[..|h| - 1], i);
    }
  }

  /** In every reachable state the keys are unique and the arguments of each call are, in order, the
      fragments routed to it, and an END body only if there were none. */
  lemma {:induction false} ArgumentsAre(h: seq<Event>)
    ensures Keyed(ToolsOf(h))
    ensures forall i | 0 <= i < |ToolsOf(h)| :: ToolsOf(h)[i].call.args == Routed(h, i)
  {
    if h != [] {
      var init, e := h[..|h| - 1], h[|h| - 1];
      var es := ToolsOf(init);
      ArgumentsAre(init);
      if e.Tool? {
        AbsorbKeyed(es, e);
        RoutedBeyond(init, |es|);
      }
      forall i | 0 <= i < |ToolsOf(h)| ensures ToolsOf(h)[i].call.args == Routed(h, i) {
        assert i < |es| ==> es[i].call.args + "" == es[i].call.args;
      }
    }
  }
}

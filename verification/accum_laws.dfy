/** What an aggregated message holds, told from the events: which deltas share a text, which events build a
    call, and what its fields are. */
module AccumLaws {
  import opened AccumSpec

  // ---- keys of text ----

  /** Two deltas belong together if they name one item, or none and one index, or neither. */
  predicate Together(a: string, i: int, b: string, j: int) {
    if a == "" && b == "" then i == j || (i < 0 && j < 0) else a == b
  }

  lemma {:induction false} ItoaInjective(n: nat, m: nat)
    ensures Itoa(n) == Itoa(m) ==> n == m
    decreases n
  {
    if Itoa(n) == Itoa(m) {
      ItoaLast(n);
      ItoaLast(m);
      ItoaStart(n);
      ItoaStart(m);
      if n >= 10 && m >= 10 {
        assert Itoa(n)[..|Itoa(n)| - 1] == Itoa(n / 10) && Itoa(m)[..|Itoa(m)| - 1] == Itoa(m / 10);
        ItoaInjective(n / 10, m / 10);
      }
    }
  }

  lemma ItoaLast(n: nat)
    ensures Itoa(n) != "" && Itoa(n)[|Itoa(n)| - 1] == ('0' as int + n % 10) as char
  {
  }

  lemma ItoaStart(n: nat)
    ensures n < 10 <==> |Itoa(n)| == 1
  {
    if n >= 10 {
      ItoaLast(n / 10);
    }
  }

  lemma TextKeyIff(a: string, i: int, b: string, j: int)
    ensures TextKey(a, i) == TextKey(b, j) <==> Together(a, i, b, j)
  {
    hide Itoa;
    var x, y := TextKey(a, i), TextKey(b, j);
    var item, index := "text:item:", "text:index:";
    if a != "" { assert x == item + a && x[..10] == item && x[10..] == a && x[5] == 'i' && x[6] == 't'; }
    if b != "" { assert y == item + b && y[..10] == item && y[10..] == b && y[5] == 'i' && y[6] == 't'; }
    if a == "" && i >= 0 {
      assert x == index + Itoa(i) && x[..11] == index;
      assert x[11..] == Itoa(i) && x[5] == 'i' && x[6] == 'n';
    }
    if b == "" && j >= 0 {
      assert y == index + Itoa(j) && y[..11] == index;
      assert y[11..] == Itoa(j) && y[5] == 'i' && y[6] == 'n';
    }
    if i >= 0 && j >= 0 { ItoaInjective(i, j); }
    if a == "" && i < 0 { assert x[5] == 'd'; }
    if b == "" && j < 0 { assert y[5] == 'd'; }
  }

  // ---- media ----

  function Blocks(slots: seq<Slot>): seq<nat> {
    if slots == [] then []
    else Blocks(slots[..|slots| - 1]) + if slots[|slots| - 1].MediaSlot? then [slots[|slots| - 1].block] else []
  }

  function BlocksIn(h: seq<Event>): seq<nat> {
    if h == [] then []
    else BlocksIn(h[..|h| - 1]) + if h[|h| - 1].MediaDone? then [h[|h| - 1].block] else []
  }

  lemma {:induction false} BlocksAppend(a: seq<Slot>, b: seq<Slot>)
    ensures Blocks(a + b) == Blocks(a) + Blocks(b)
  {
    if b == [] {
      assert a + b == a;
    } else {
      BlocksAppend(a, b[..|b| - 1]);
      assert (a + b)[..|a + b| - 1] == a + b[..|b| - 1];
    }
  }

  lemma {:induction false} TextKeepsBlocks(slots: seq<Slot>, key: string, text: string)
    ensures Blocks(AddText(slots, key, text)) == Blocks(slots)
    decreases |slots|
  {
    hide Blocks;
    if slots == [] {
      OneText(key, text);
    } else {
      var rest := slots[1..];
      assert slots == [slots[0]] + rest;
      BlocksAppend([slots[0]], rest);
      if slots[0].TextSlot? && slots[0].key == key {
        OneText(key, slots[0].text);
        OneText(key, slots[0].text + text);
        BlocksAppend([TextSlot(key, slots[0].text + text)], rest);
      } else {
        TextKeepsBlocks(rest, key, text);
        BlocksAppend([slots[0]], AddText(rest, key, text));
      }
    }
  }

  lemma OneText(key: string, text: string)
    ensures Blocks([TextSlot(key, text)]) == [] && Blocks([]) == []
  {
    var s: seq<Slot> := [TextSlot(key, text)];
    assert s[..|s| - 1] == [];
  }

  /** The media of a message are those of the events, in order. */
  lemma {:induction false} MediaAre(h: seq<Event>)
    ensures Blocks(SlotsOf(h)) == BlocksIn(h)
  {
    if h != [] {
      var init, e := h[..|h| - 1], h[|h| - 1];
      MediaAre(init);
      var slots := SlotsOf(init);
      if e.TextDelta? {
        TextKeepsBlocks(slots, TextKey(e.item, e.index), e.text);
      } else if e.MediaDone? {
        assert (slots + [MediaSlot(e.block)])[..|slots|] == slots;
      }
    }
  }

  // ---- where an event of a tool call goes ----

  /** The index of the call, or its id, or the id on the event, or one name for all the rest. */
  function Identity(e: Event): string
    requires e.Tool?
  {
    if e.call.Some? && e.call.value.index != "" then e.call.value.index
    else if e.call.Some? && e.call.value.id != "" then e.call.value.id
    else if e.callId != "" then e.callId
    else "idx:-1"
  }

  /** An event goes to the call known by its identity; if there is none, and it brings index and id, to the
      call known by that id so far, which its index renames; else it begins a new call. */
  lemma RouteIs(es: seq<Entry>, e: Event)
    requires Keyed(es) && e.Tool?
    ensures var i, r := RouteTo(es, e), Absorb(es, e);
      && i < |r| && r[i].key == Identity(e)
      && (forall k | 0 <= k < |es| && es[k].key == Identity(e) :: i == k)
      && ((forall k | 0 <= k < |es| :: es[k].key != Identity(e)) ==>
           var late := e.call.Some? && e.call.value.index != "" && e.call.value.id != "";
           && (forall k | 0 <= k < |es| && late && es[k].key == e.call.value.id :: i == k)
           && ((forall k | 0 <= k < |es| :: late ==> es[k].key != e.call.value.id) ==> i == |es| && |r| == |es| + 1))
  {
    hide Fill;
    KeyInIs(es, RouteKey(e));
    if e.call.Some? { KeyInIs(es, e.call.value.id); }
  }

  // ---- the fields of a call ----

  /** The k-th event went to the call at position i. */
  predicate GoesTo(h: seq<Event>, k: int, i: nat) {
    0 <= k < |h| && h[k].Tool? && RouteTo(ToolsOf(h[..k]), h[k]) == i
  }

  predicate Brings(e: Event, field: ToolCall -> string) {
    e.Tool? && e.call.Some? && field(e.call.value) != ""
  }

  /** The k-th event is the last one of call i to bring the field. */
  predicate LastToBring(h: seq<Event>, i: nat, field: ToolCall -> string, k: int) {
    && 0 <= k < |h| && GoesTo(h, k, i) && Brings(h[k], field) && NoneAfter(h, i, field, k)
  }

  predicate NoneAfter(h: seq<Event>, i: nat, field: ToolCall -> string, k: int) {
    forall l | k < l < |h| && GoesTo(h, l, i) :: !Brings(h[l], field)
  }

  /** v is the last one that is not empty among those the events of call i brought, and empty if none did. */
  ghost predicate LastBrought(h: seq<Event>, i: nat, field: ToolCall -> string, v: string) {
    || (exists k :: LastToBring(h, i, field, k) && v == field(h[k].call.value))
    || (v == "" && NoneAfter(h, i, field, -1))
  }

  lemma GoesBefore(h: seq<Event>, k: int, i: nat)
    requires h != [] && k < |h| - 1
    ensures GoesTo(h, k, i) <==> GoesTo(h[..|h| - 1], k, i)
  {
    if 0 <= k { assert h[..|h| - 1][..k] == h[..k]; }
  }

  lemma NoneStep(h: seq<Event>, i: nat, field: ToolCall -> string, k: int)
    requires h != [] && NoneAfter(h[..|h| - 1], i, field, k)
    requires !(GoesTo(h, |h| - 1, i) && Brings(h[|h| - 1], field))
    ensures NoneAfter(h, i, field, k)
  {
    hide GoesTo;
    var init := h[..|h| - 1];
    GoesFacts(h, i);
    forall l | k < l < |h| && GoesTo(h, l, i) ensures !Brings(h[l], field) {
      if l < |h| - 1 {
        GoesBefore(h, l, i);
        assert init[l] == h[l];
      }
    }
  }

  lemma LastStep(h: seq<Event>, i: nat, field: ToolCall -> string, v: string)
    requires h != [] && LastBrought(h[..|h| - 1], i, field, v)
    ensures var e, n := h[|h| - 1], |h| - 1;
      LastBrought(h, i, field, if GoesTo(h, n, i) && Brings(e, field) then field(e.call.value) else v)
  {
    hide GoesTo, NoneAfter;
    var init, e, n := h[..|h| - 1], h[|h| - 1], |h| - 1;
    if GoesTo(h, n, i) && Brings(e, field) {
      NoneBehind(h, i, field);
      assert LastToBring(h, i, field, n);
    } else if k :| LastToBring(init, i, field, k) && v == field(init[k].call.value) {
      GoesFacts(init, i);
      GoesBefore(h, k, i);
      NoneStep(h, i, field, k);
      assert LastToBring(h, i, field, k);
    } else {
      NoneStep(h, i, field, -1);
    }
  }

  lemma NoneBehind(h: seq<Event>, i: nat, field: ToolCall -> string)
    requires h != []
    ensures NoneAfter(h, i, field, |h| - 1)
  {
  }

  lemma GoesFacts(h: seq<Event>, i: nat)
    ensures forall k | GoesTo(h, k, i) :: 0 <= k < |h|
  {
  }

  lemma {:induction false} NothingBrought(h: seq<Event>, i: nat, field: ToolCall -> string)
    requires i >= |ToolsOf(h)|
    ensures LastBrought(h, i, field, "")
  {
    if h != [] {
      NothingBrought(h[..|h| - 1], i, field);
      LastStep(h, i, field, "");
    }
  }

  ghost predicate FieldsAre(h: seq<Event>, i: nat, call: ToolCall) {
    && LastBrought(h, i, (c: ToolCall) => c.index, call.index)
    && LastBrought(h, i, (c: ToolCall) => c.id, call.id)
    && LastBrought(h, i, (c: ToolCall) => c.name, call.name)
  }

  /** Index, id and name of every call are the last ones its events brought. */
  lemma {:induction false} CallsHaveFields(h: seq<Event>)
    ensures forall i | 0 <= i < |ToolsOf(h)| :: FieldsAre(h, i, ToolsOf(h)[i].call)
  {
    hide LastBrought, RouteTo;
    if h != [] {
      var init, n := h[..|h| - 1], |h| - 1;
      var e, es := h[n], ToolsOf(init);
      CallsHaveFields(init);
      assert h[..n] == init;
      forall i | 0 <= i < |ToolsOf(h)| ensures FieldsAre(h, i, ToolsOf(h)[i].call) {
        var known := if i < |es| then es[i].call else ToolCall("", "", "", "");
        if i >= |es| {
          NothingBrought(init, i, (c: ToolCall) => c.index);
          NothingBrought(init, i, (c: ToolCall) => c.id);
          NothingBrought(init, i, (c: ToolCall) => c.name);
        }
        LastStep(h, i, (c: ToolCall) => c.index, known.index);
        LastStep(h, i, (c: ToolCall) => c.id, known.id);
        LastStep(h, i, (c: ToolCall) => c.name, known.name);
      }
    }
  }
}

// A completed Responses stream carries the same content as the one-shot conversion of its message.
module ResponsesOneShot {
  import opened Common
  import opened TokenUsage
  import opened AnthropicMessages
  import opened Drafts
  import opened ResponsesSpec
  import opened ResponsesRefinement

  /** The text of all items of a kind, joined: the stream has one item per block, the one-shot form one per kind. */
  function Joined(items: seq<Item>, kind: Kind): string {
    if items == [] then ""
    else Joined(items[..|items| - 1], kind) + (if items[|items| - 1].kind == kind then items[|items| - 1].text else "")
  }

  function Calls(items: seq<Item>): seq<Item> {
    if items == [] then []
    else Calls(items[..|items| - 1]) + (if items[|items| - 1].kind == ToolKind then [items[|items| - 1]] else [])
  }

  /** The same call: its arguments equal, or JSON text that reads as the same value. */
  predicate SameCall(one: Item, streamed: Item, parse: string -> Option<Json>) {
    && one.id == streamed.id && one.name == streamed.name
    && (streamed.text == one.text || parse(streamed.text) == Some(one.text))
  }

  predicate SameCalls(one: seq<Item>, streamed: seq<Item>, parse: string -> Option<Json>) {
    |one| == |streamed| && forall k :: 0 <= k < |one| ==> SameCall(one[k], streamed[k], parse)
  }

  predicate Agrees(one: Envelope, streamed: Envelope, parse: string -> Option<Json>) {
    && one.id == streamed.id && one.model == streamed.model && one.status == streamed.status
    && one.usage == streamed.usage
    && Joined(one.output, TextKind) == Joined(streamed.output, TextKind)
    && Joined(one.output, ThinkingKind) == Joined(streamed.output, ThinkingKind)
    && SameCalls(Calls(one.output), Calls(streamed.output), parse)
  }

  lemma Append(items: seq<Item>, item: Item)
    ensures Joined(items + [item], TextKind) == Joined(items, TextKind) + (if item.kind == TextKind then item.text else "")
    ensures Joined(items + [item], ThinkingKind) == Joined(items, ThinkingKind) + (if item.kind == ThinkingKind then item.text else "")
    ensures Calls(items + [item]) == Calls(items) + (if item.kind == ToolKind then [item] else [])
  {
    assert (items + [item])[..|items|] == items;
  }

  /** An item shows block `o` in full. */
  predicate Shows(item: Item, o: Open) {
    && !o.block.OtherBlock? && item.kind == KindOf(o.block) && item.text == WholeText(o)
    && (o.block.ToolUse? ==> item.id == OfCall(o.block.id) && item.name == o.block.name)
  }

  lemma Nothing()
    ensures Joined([], TextKind) == "" && Joined([], ThinkingKind) == "" && Calls([]) == []
    ensures TextOf(Blocks([])) == "" && ThinkingOf(Blocks([])) == "" && Kept(ToolBlocks, []) == []
  {}

  lemma {:induction false} TextsOfBlocks(items: seq<Item>, vs: seq<Open>)
    requires |items| == |vs| && forall k :: 0 <= k < |vs| ==> Shows(items[k], vs[k])
    ensures Joined(items, TextKind) == TextOf(Blocks(vs)) && Joined(items, ThinkingKind) == ThinkingOf(Blocks(vs))
  {
    hide Joined, Calls, TextOf, ThinkingOf, Blocks;
    if vs == [] {
      Nothing();
    } else {
      var n := |vs| - 1;
      TextsOfBlocks(items[..n], vs[..n]);
      assert Shows(items[n], vs[n]);
      assert items == items[..n] + [items[n]] && vs == vs[..n] + [vs[n]];
      Append(items[..n], items[n]);
      TextAppend(vs[..n], vs[n]);
    }
  }

  lemma {:induction false} CallsOfBlocks(items: seq<Item>, vs: seq<Open>)
    requires |items| == |vs| && forall k :: 0 <= k < |vs| ==> Shows(items[k], vs[k])
    ensures |Calls(items)| == |Kept(ToolBlocks, vs)|
    ensures forall k :: 0 <= k < |Calls(items)| ==> Shows(Calls(items)[k], Kept(ToolBlocks, vs)[k])
  {
    hide Joined, Calls, Kept;
    if vs == [] {
      Nothing();
    } else {
      var n := |vs| - 1;
      CallsOfBlocks(items[..n], vs[..n]);
      assert Shows(items[n], vs[n]) && (items[n].kind == ToolKind <==> Keep(ToolBlocks, vs[n].block));
      assert items == items[..n] + [items[n]] && vs == vs[..n] + [vs[n]];
      hide Shows;
      Append(items[..n], items[n]);
      KeptAppend(ToolBlocks, vs[..n], vs[n]);
    }
  }

  // ---- the one-shot side ---------------------------------------------------------------------

  lemma {:induction false} OnlyCalls(calls: seq<Item>, front: seq<Item>)
    requires forall k :: 0 <= k < |calls| ==> calls[k].kind == ToolKind
    ensures Joined(front + calls, TextKind) == Joined(front, TextKind)
    ensures Joined(front + calls, ThinkingKind) == Joined(front, ThinkingKind)
    ensures Calls(front + calls) == Calls(front) + calls
  {
    hide Joined, Calls;
    if calls == [] {
      assert front + calls == front;
      assert Calls(front) + [] == Calls(front);
    } else {
      var n := |calls| - 1;
      OnlyCalls(calls[..n], front);
      assert front + calls == (front + calls[..n]) + [calls[n]];
      Append(front + calls[..n], calls[n]);
      assert calls == calls[..n] + [calls[n]];
      NothingMore(Joined(front, TextKind));
      NothingMore(Joined(front, ThinkingKind));
      assert Calls(front) + calls == (Calls(front) + calls[..n]) + [calls[n]];
    }
  }

  lemma NothingMore(s: string)
    ensures s + "" == s
  {}

  predicate SameButStatus(a: seq<Item>, b: seq<Item>) {
    |a| == |b| && forall k :: 0 <= k < |a| ==> b[k] == a[k].(status := b[k].status)
  }

  lemma {:induction false} StatusIsNoContent(a: seq<Item>, b: seq<Item>)
    requires SameButStatus(a, b)
    ensures Joined(a, TextKind) == Joined(b, TextKind) && Joined(a, ThinkingKind) == Joined(b, ThinkingKind)
    ensures SameButStatus(Calls(a), Calls(b))
  {
    if a != [] { StatusIsNoContent(a[..|a| - 1], b[..|b| - 1]); }
  }

  lemma {:induction false} AllCalls(bs: seq<Block>)
    ensures forall k :: 0 <= k < |CallsOf(bs)| ==> CallsOf(bs)[k].kind == ToolKind
  {
    if bs != [] { AllCalls(bs[..|bs| - 1]); }
  }

  lemma {:induction false} NoText(bs: seq<Block>)
    requires forall b :: b in bs ==> !b.Text?
    ensures TextOf(bs) == ""
  {
    if bs != [] { NoText(bs[..|bs| - 1]); }
  }

  lemma OneShotContent(m: Message)
    ensures Joined(OneShotOutput(m), TextKind) == TextOf(m.content)
    ensures Joined(OneShotOutput(m), ThinkingKind) == ThinkingOf(m.content)
    ensures Calls(OneShotOutput(m)) == CallsOf(m.content)
  {
    var thinking, calls := ThinkingOf(m.content), CallsOf(m.content);
    var r := if thinking == "" then [] else [Item(ThinkingKind, Numbered(ThinkingKind, m.id, 0), "", thinking, IsCompleted)];
    var t := if forall b :: b in m.content ==> !b.Text? then []
             else [Item(TextKind, Numbered(TextKind, m.id, 0), "", TextOf(m.content), IsCompleted)];
    AllCalls(m.content);
    OnlyCalls(calls, r + t);
    FrontContent(r, t);
    if forall b :: b in m.content ==> !b.Text? { NoText(m.content); }
    assert Calls(r + t) + calls == calls;
  }

  lemma FrontContent(r: seq<Item>, t: seq<Item>)
    requires r == [] || (|r| == 1 && r[0].kind == ThinkingKind)
    requires t == [] || (|t| == 1 && t[0].kind == TextKind)
    ensures Joined(r + t, TextKind) == (if t == [] then "" else t[0].text)
    ensures Joined(r + t, ThinkingKind) == (if r == [] then "" else r[0].text)
    ensures Calls(r + t) == []
  {
    hide Joined, Calls;
    Nothing();
    Append([], if r != [] then r[0] else Item(ToolKind, OfCall(""), "", "", InProgress));
    assert r != [] ==> [] + [r[0]] == r;
    NothingBefore(if r == [] then "" else r[0].text);
    NothingBefore(if t == [] then "" else t[0].text);
    NothingMore(if r == [] then "" else r[0].text);
    if t == [] {
      assert r + t == r;
    } else {
      Append(r, t[0]);
      assert r + [t[0]] == r + t;
    }
  }

  lemma NothingBefore(s: string)
    ensures "" + s == s
  {}

  function FinalCall(o: Open, parse: string -> Option<Json>): Item
    requires o.block.ToolUse?
  {
    Item(ToolKind, OfCall(o.block.id), o.block.name, Arguments(Completed(o, parse)), IsCompleted)
  }

  lemma {:induction false} CompletedCalls(os: seq<Open>, parse: string -> Option<Json>)
    ensures |CallsOf(CompletedAll(os, parse))| == |Kept(ToolBlocks, os)|
    ensures forall k :: 0 <= k < |Kept(ToolBlocks, os)| ==>
              && Kept(ToolBlocks, os)[k] in os && Kept(ToolBlocks, os)[k].block.ToolUse?
              && CallsOf(CompletedAll(os, parse))[k] == FinalCall(Kept(ToolBlocks, os)[k], parse)
  {
    if os != [] {
      var init := os[..|os| - 1];
      CompletedCalls(init, parse);
      assert CompletedAll(os, parse)[..|os| - 1] == CompletedAll(init, parse);
    }
  }

  lemma CallAgrees(item: Item, o: Open, parse: string -> Option<Json>, one: Item)
    requires Shows(item, o) && o.block.ToolUse? && (o.partial != "" ==> parse(o.partial).Some?)
    requires parse("{}") != Some("null") && SameButStatus([FinalCall(o, parse)], [one])
    ensures SameCall(one, item, parse) <==> !WithoutInput(o)
  {
    assert [one][0] == one && [FinalCall(o, parse)][0] == FinalCall(o, parse);
  }

  lemma CallsAgree(one: seq<Item>, streamed: seq<Item>, os: seq<Open>, parse: string -> Option<Json>)
    requires ArgumentsParse(os, parse) && parse("{}") != Some("null")
    requires SameButStatus(CallsOf(CompletedAll(os, parse)), one) && |streamed| == |Kept(ToolBlocks, os)|
    requires forall k :: 0 <= k < |streamed| ==> Shows(streamed[k], Kept(ToolBlocks, os)[k])
    ensures SameCalls(one, streamed, parse) <==> !SomeWithoutInput(os)
  {
    var tools := Kept(ToolBlocks, os);
    CompletedCalls(os, parse);
    forall k | 0 <= k < |tools| ensures SameCall(one[k], streamed[k], parse) <==> !WithoutInput(tools[k]) {
      assert CallsOf(CompletedAll(os, parse))[k] == FinalCall(tools[k], parse);
      CallAgrees(streamed[k], tools[k], parse, one[k]);
    }
    if SomeWithoutInput(os) {
      var o :| o in os && WithoutInput(o);
      var n :| 0 <= n < |os| && os[n] == o;
      KeptAt(ToolBlocks, os, n);
      var k := Rank(ToolBlocks, os, n);
      assert !SameCall(one[k], streamed[k], parse);
    }
  }

  lemma EnvelopesAgree(env: Envelope, d: Draft, m: Message, parse: string -> Option<Json>)
    requires Says(env, d) && StandsFor(d, m, parse) && d.id != ""
    requires ArgumentsParse(d.blocks, parse) && parse("{}") != Some("null")
    ensures ConvertResponse(m).Some? && (Agrees(ConvertResponse(m).value, env, parse) <==> !SomeWithoutInput(d.blocks))
  {
    hide Joined, Calls, CallsOf, TextOf, ThinkingOf, Kept, CompletedAll, IdOf, ResponsesUsage, OneShotOutput;
    var vs := Visible(d.blocks);
    var one := ConvertResponse(m).value;
    forall k | 0 <= k < |vs| ensures Shows(env.output[k], vs[k]) {
      assert env.output[k] == RenderedItem(vs, k, d.id, d.stopReason);
      RenderedShows(vs, k, d.id, d.stopReason);
    }
    hide Rendered, Shows;
    TextsOfBlocks(env.output, vs);
    CallsOfBlocks(env.output, vs);
    VisibleHoldsAll(d.blocks);
    CompletedText(d.blocks, parse);
    OneShotContent(m);
    StatusIsNoContent(OneShotOutput(m), one.output);
    CallsAgree(Calls(one.output), Calls(env.output), d.blocks, parse);
    var u :| Largest(u, d.reports) && AllNumeric(d.reports) && env.usage == Some(ResponsesUsage(u));
    LargestIsUnique(u, m.usage, d.reports, d.reports);
  }

  lemma RenderedShows(vs: seq<Open>, k: nat, response: string, stopReason: string)
    requires AllVisible(vs) && k < |vs|
    ensures Shows(RenderedItem(vs, k, response, stopReason), vs[k])
  {}

  /** For every complete, well-formed stream whose tools are named: same status, usage, text, reasoning and
      calls as the one-shot conversion, exactly when no tool block stays without an input. */
  lemma StreamMatchesOneShot(events: seq<Event>, m: Message, mode: Mode, parse: string -> Option<Json>)
    requires var d := AddAll(EMPTY_DRAFT, events);
             FitsFrom(EMPTY_DRAFT, events) && StandsFor(d, m, parse) && ArgumentsParse(d.blocks, parse) && Named(d.blocks)
    requires m.id != "" && parse("{}") != Some("null")
    ensures var (e, failure) := Reencode(events, mode);
            && failure.None? && ConvertResponse(m).Some? && e.out != [] && e.out[|e.out| - 1].body.Finished?
            && (Agrees(ConvertResponse(m).value, e.out[|e.out| - 1].body.env, parse)
                <==> !SomeWithoutInput(AddAll(EMPTY_DRAFT, events).blocks))
  {
    hide Says, Agrees, FitsFrom, ArgumentsParse, Largest, CompletedAll, Reencode;
    StreamSaysTheMessage(events, mode);
    var (e, _) := Reencode(events, mode);
    EnvelopesAgree(e.out[|e.out| - 1].body.env, AddAll(EMPTY_DRAFT, events), m, parse);
  }
}

// Converting the input of a Responses request: instructions split off, the rest in order.
module ResponsesInput {
  import opened Common
  import opened RequestOrder

  /** An input item; `Said` is a message, of any role or none, and `Foreign` any other kind of item. */
  datatype Item = NotAnObject | Said(role: string, content: Content) | Call(block: Block) | Output(block: Block) | Foreign

  predicate Instructs(m: Item) { m.Said? && (m.role == "system" || m.role == "developer") }

  predicate Converses(m: Item) { (m.Said? && !Instructs(m)) || m.Call? || m.Output? }

  function RoleOf(role: string): string {
    if role == "" then "user" else if role == "developer" then "system" else role
  }

  predicate ItemOk(m: Item) {
    m.Said? ==> ContentOk(m.content, Instructs(m)) && RoleOf(m.role) in ["user", "assistant", "system"]
  }

  predicate ItemsOk(items: seq<Item>, n: nat)
    requires n <= |items|
  {
    forall i :: 0 <= i < n ==> ItemOk(items[i])
  }

  predicate AllOk(items: seq<Item>) { ItemsOk(items, |items|) }

  function Speaks(m: Item): seq<Message> {
    match m
    case Said(role, content) => [Message(RoleOf(role), Blocks(content))]
    case Call(block) => [Message("assistant", [block])]
    case Output(block) => [Message("user", [block])]
    case _ => []
  }

  function SpokenTo(items: seq<Item>, n: nat): seq<Message>
    requires n <= |items|
  {
    if n == 0 then [] else SpokenTo(items, n - 1) + Speaks(items[n - 1])
  }

  function Spoken(items: seq<Item>): seq<Message> { SpokenTo(items, |items|) }

  predicate Started(items: seq<Item>, n: nat)
    requires n <= |items|
  {
    exists i :: 0 <= i < n && Converses(items[i])
  }

  predicate Hoisted(items: seq<Item>, n: nat, preserve: bool)
    requires n < |items|
  {
    Instructs(items[n]) && !(preserve && Started(items, n))
  }

  /** What stays in the conversation: everything but the hoisted instructions and empty late ones. */
  function Ordinary(items: seq<Item>, n: nat, preserve: bool): seq<Item>
    requires n <= |items|
  {
    if n == 0 then []
    else
      var m := items[n - 1];
      var stays := !Instructs(m) || (!Hoisted(items, n - 1, preserve) && Blocks(m.content) != []);
      Ordinary(items, n - 1, preserve) + (if stays then [m] else [])
  }

  function Instructions(items: seq<Item>, n: nat, preserve: bool): seq<Block>
    requires n <= |items|
  {
    if n == 0 then []
    else Instructions(items, n - 1, preserve) + (if Hoisted(items, n - 1, preserve) then Blocks(items[n - 1].content) else [])
  }

  predicate AnyInstructions(items: seq<Item>, n: nat)
    requires n <= |items|
  {
    exists i :: 0 <= i < n && Instructs(items[i])
  }

  /** Instructions of the items, None when there is nothing to send. */
  method SplitInstructions(items: seq<Item>, preserve: bool)
    returns (ok: bool, ordinary: seq<Item>, system: Option<seq<Block>>)
    ensures ok <==> forall i :: 0 <= i < |items| && Instructs(items[i]) ==> ContentOk(items[i].content, true)
    ensures ok ==> ordinary == Ordinary(items, |items|, preserve)
    ensures ok ==> (system.Some? ==> system.value == Instructions(items, |items|, preserve))
    ensures ok ==> (system.None? ==> Instructions(items, |items|, preserve) == [])
    ensures ok && preserve ==> (system.Some? <==> AnyInstructions(items, |items|))
  {
    ordinary, system := [], None;
    var started := false;
    hide ContentOk, Blocks;
    for n := 0 to |items|
      invariant forall i :: 0 <= i < n && Instructs(items[i]) ==> ContentOk(items[i].content, true)
      invariant ordinary == Ordinary(items, n, preserve) && (started <==> Started(items, n))
      invariant system.Some? ==> system.value == Instructions(items, n, preserve)
      invariant system.None? ==> Instructions(items, n, preserve) == []
      invariant preserve ==> (system.Some? <==> AnyInstructions(items, n))
    {
      var m := items[n];
      FlagsNext(items, n);
      if !Instructs(m) {
        ordinary := ordinary + [m];
        if Converses(m) { started := true; }
      } else {
        var blocks := ContentBlocks(m.content, true);
        if blocks.None? { return false, [], None; }
        if preserve && system.None? { system := Some([]); }
        if preserve && started {
          if |blocks.value| > 0 { ordinary := ordinary + [m]; }
        } else {
          system := Some((if system.Some? then system.value else []) + blocks.value);
        }
      }
    }
    ok := true;
  }

  lemma FlagsNext(items: seq<Item>, n: nat)
    requires n < |items|
    ensures Started(items, n + 1) <==> Started(items, n) || Converses(items[n])
    ensures AnyInstructions(items, n + 1) <==> AnyInstructions(items, n) || Instructs(items[n])
  {}

  /** Outputs wait in `pending` until something else is said; what has been said so far is this. */
  function Flushed(messages: seq<Message>, pending: seq<Block>): seq<Message> {
    if pending == [] then messages else Append(messages, Message("user", pending))
  }

  lemma AppendTwice(messages: seq<Message>, a: seq<Block>, b: seq<Block>, role: string)
    ensures Append(Append(messages, Message(role, a)), Message(role, b)) == Append(messages, Message(role, a + b))
  {
    var n := |messages| - 1;
    if messages != [] && messages[n].role == role {
      assert (messages[n].content + a) + b == messages[n].content + (a + b);
    }
  }

  lemma SpokenNext(items: seq<Item>, n: nat)
    requires n < |items|
    ensures var said := Speaks(items[n]);
            AppendAll([], SpokenTo(items, n + 1)) ==
            (if said == [] then AppendAll([], SpokenTo(items, n)) else Append(AppendAll([], SpokenTo(items, n)), said[0]))
  {
    var said := Speaks(items[n]);
    if said == [] {
      assert SpokenTo(items, n) + [] == SpokenTo(items, n);
    } else {
      AppendAllSnoc([], SpokenTo(items, n), said[0]);
      assert said == [said[0]];
    }
  }

  predicate RoleOk(m: Item) {
    m.Said? ==> ContentOk(m.content, false) && RoleOf(m.role) in ["user", "assistant", "system"]
  }

  predicate RolesOk(items: seq<Item>) { forall i :: 0 <= i < |items| ==> RoleOk(items[i]) }

  lemma NothingPending(messages: seq<Message>)
    ensures Flushed(messages, []) == messages
  {}

  method FlushUser(messages: seq<Message>, pending: seq<Block>) returns (r: seq<Message>)
    ensures r == Flushed(messages, pending)
  {
    r := messages;
    if |pending| > 0 { r := AppendAnthropicMessage(messages, Message("user", pending)); }
  }

  lemma FlushedMore(messages: seq<Message>, pending: seq<Block>, block: Block)
    ensures Flushed(messages, pending + [block]) == Append(Flushed(messages, pending), Message("user", [block]))
  {
    AppendTwice(messages, pending, [block], "user");
    assert pending == [] ==> pending + [block] == [block];
  }

  lemma NothingSpoken(items: seq<Item>)
    ensures AppendAll([], SpokenTo(items, 0)) == []
  {}

  /** One item: an output waits, anything said goes behind the outputs waiting. */
  method TakeItem(item: Item, messages: seq<Message>, pending: seq<Block>)
    returns (ok: bool, said: seq<Message>, waiting: seq<Block>)
    ensures ok <==> RoleOk(item)
    ensures ok ==> Flushed(said, waiting) == if Speaks(item) == [] then Flushed(messages, pending)
                                             else Append(Flushed(messages, pending), Speaks(item)[0])
  {
    hide Append, Blocks, ContentOk;
    said, waiting, ok := messages, pending, true;
    match item {
      case Said(role, content) =>
        if RoleOf(role) != "user" && RoleOf(role) != "assistant" && RoleOf(role) != "system" { return false, [], []; }
        var blocks := ContentBlocks(content, false);
        if blocks.None? { return false, [], []; }
        said := FlushUser(messages, pending);
        said := AppendAnthropicMessage(said, Message(RoleOf(role), blocks.value));
        waiting := [];
      case Call(block) =>
        said := FlushUser(messages, pending);
        said := AppendAnthropicMessage(said, Message("assistant", [block]));
        waiting := [];
      case Output(block) =>
        FlushedMore(messages, pending, block);
        waiting := pending + [block];
      case _ =>
    }
  }

  /** The item loop, with tool outputs gathered until the next message or call. */
  method ConvertItems(items: seq<Item>) returns (ok: bool, messages: seq<Message>)
    ensures ok <==> RolesOk(items)
    ensures ok ==> messages == AppendAll([], Spoken(items))
  {
    hide Append, AppendAll, SpokenTo, RoleOk, Flushed, Speaks;
    messages := [];
    var pending: seq<Block> := [];
    NothingPending(messages);
    NothingSpoken(items);
    for n := 0 to |items|
      invariant forall i :: 0 <= i < n ==> RoleOk(items[i])
      invariant Flushed(messages, pending) == AppendAll([], SpokenTo(items, n))
    {
      SpokenNext(items, n);
      ok, messages, pending := TakeItem(items[n], messages, pending);
      if !ok { return; }
    }
    messages := FlushUser(messages, pending);
    ok := true;
  }

  /** The whole input: refused exactly if some item is; otherwise instructions at the top, the rest in order. */
  method ConvertInput(items: seq<Item>, preserve: bool)
    returns (ok: bool, system: Option<seq<Block>>, messages: seq<Message>)
    ensures ok <==> AllOk(items)
    ensures ok ==> messages == AppendAll([], Spoken(Ordinary(items, |items|, preserve)))
    ensures ok ==> (system.Some? ==> system.value == Instructions(items, |items|, preserve))
    ensures ok ==> (system.None? ==> Instructions(items, |items|, preserve) == [])
    ensures ok && preserve ==> (system.Some? <==> AnyInstructions(items, |items|))
  {
    messages, system := [], None;
    var ordinary;
    ok, ordinary, system := SplitInstructions(items, preserve);
    if !ok {
      NotAllOk(items);
      return;
    }
    OrdinaryOk(items, |items|, preserve);
    ok, messages := ConvertItems(ordinary);
  }

  /** What a request says: nothing, one user text, or items; anything else is refused. */
  datatype Input = NoInput | Plain(text: string) | Items(items: seq<Item>) | BadInput

  predicate InputOk(input: Input) {
    match input
    case Items(items) => AllOk(items)
    case BadInput => false
    case _ => true
  }

  function InputSpoken(input: Input, preserve: bool): seq<Message> {
    match input
    case Plain(text) => if text == "" then [] else [Message("user", [Text(text)])]
    case Items(items) => Spoken(Ordinary(items, |items|, preserve))
    case _ => []
  }

  function InputInstructions(input: Input, preserve: bool): seq<Block> {
    if input.Items? then Instructions(input.items, |input.items|, preserve) else []
  }

  function TextBlocks(text: string): seq<Block> { if text == "" then [] else [Text(text)] }

  /** The whole request: the `instructions` field comes first at the top, the hoisted instructions behind it.
      The field `system` is sent if there is anything in it; in preserve mode it is sent, even empty, exactly if
      the request gave instructions at all. */
  method ConvertRequest(instructions: Option<string>, input: Input, preserve: bool)
    returns (ok: bool, system: Option<seq<Block>>, messages: seq<Message>)
    ensures ok <==> InputOk(input)
    ensures ok ==> messages == AppendAll([], InputSpoken(input, preserve))
    ensures var top := (if instructions.Some? then TextBlocks(instructions.value) else []) + InputInstructions(input, preserve);
            ok ==>
              && (if system.Some? then system.value == top else top == [])
              && (system.Some? <==> top != [] || (preserve && (instructions.Some? || (input.Items? && AnyInstructions(input.items, |input.items|)))))
  {
    ok, system, messages := true, None, [];
    if instructions.Some? {
      if instructions.value != "" {
        system := Some([Text(instructions.value)]);
      } else if preserve {
        system := Some([]);
      }
    }
    match input {
      case NoInput =>
      case Plain(text) => if text != "" { messages := [Message("user", [Text(text)])]; }
      case BadInput => ok := false;
      case Items(items) =>
        hide Instructions, Spoken, Ordinary, AnyInstructions, AllOk, AppendAll;
        var hoisted;
        ok, hoisted, messages := ConvertInput(items, preserve);
        if ok && hoisted.Some? && (|hoisted.value| > 0 || preserve) {
          system := Some((if system.Some? then system.value else []) + hoisted.value);
        }
    }
  }

  lemma NotAllOk(items: seq<Item>)
    requires !(forall i :: 0 <= i < |items| && Instructs(items[i]) ==> ContentOk(items[i].content, true))
    ensures !AllOk(items)
  {
    var i :| 0 <= i < |items| && Instructs(items[i]) && !ContentOk(items[i].content, true);
    assert !ItemOk(items[i]);
  }

  lemma TextIsContent(c: Content)
    requires ContentOk(c, true)
    ensures ContentOk(c, false)
  {}

  /** Once the instructions are fine, the rest decides. */
  lemma {:induction false} OrdinaryOk(items: seq<Item>, n: nat, preserve: bool)
    requires n <= |items| && forall i :: 0 <= i < |items| && Instructs(items[i]) ==> ContentOk(items[i].content, true)
    ensures RolesOk(Ordinary(items, n, preserve)) <==> ItemsOk(items, n)
    decreases n
  {
    if n > 0 {
      OrdinaryOk(items, n - 1, preserve);
      var m := items[n - 1];
      if Instructs(m) { TextIsContent(m.content); }
      assert Instructs(m) ==> ItemOk(m) && RoleOk(m);
      assert !Instructs(m) ==> (RoleOk(m) <==> ItemOk(m));
      ItemsOkNext(items, n - 1);
      hide ContentOk, Blocks, Started, RoleOk, ItemOk, Converses, RolesOk, ItemsOk;
      var p := Ordinary(items, n - 1, preserve);
      var more := Ordinary(items, n, preserve)[|p|..];
      assert Ordinary(items, n, preserve) == p + more && (more == [] || more == [m]);
      if more == [] { assert p + more == p; } else { AllRolesMore(p, m); }
    }
  }

  lemma ItemsOkNext(items: seq<Item>, n: nat)
    requires n < |items|
    ensures ItemsOk(items, n + 1) <==> ItemsOk(items, n) && ItemOk(items[n])
  {
    hide ItemOk;
  }

  lemma AllRolesMore(o: seq<Item>, m: Item)
    ensures RolesOk(o + [m]) <==> RolesOk(o) && RoleOk(m)
  {
    hide RoleOk;
    var r := o + [m];
    assert r[|o|] == m && forall i :: 0 <= i < |o| ==> r[i] == o[i];
  }

  /** For every accepted input: the messages say the remaining items' blocks in their order under their
      roles, neighbours never share a role, and in preserve mode exactly the instructions before the first
      conversation item are hoisted. */
  lemma InputKeepsOrder(items: seq<Item>, preserve: bool)
    ensures var o := Ordinary(items, |items|, preserve);
            var messages := AppendAll([], Spoken(o));
            Alternating(messages) && Flatten(messages) == Flatten(Spoken(o))
    ensures forall n :: 0 <= n < |items| && preserve ==>
              (Hoisted(items, n, true) <==> Instructs(items[n]) && forall i :: 0 <= i < n ==> !Converses(items[i]))
  {
    var o := Ordinary(items, |items|, preserve);
    AppendAllKeeps([], Spoken(o));
    assert [] + Flatten(Spoken(o)) == Flatten(Spoken(o));
  }

  /** Splitting loses nothing: what is hoisted and what stays are all the instructions, each in order. */
  lemma {:induction false} SplitLosesNothing(items: seq<Item>, n: nat)
    requires n <= |items|
    ensures Instructions(items, n, false) == InstructionBlocks(items[..n])
    ensures Instructions(items, n, true) + InstructionBlocks(Ordinary(items, n, true)) == InstructionBlocks(items[..n])
    decreases n
  {
    hide InstructionBlocks, Blocks, Started;
    if n == 0 {
      NoItems(items);
    } else {
      SplitLosesNothing(items, n - 1);
      var m := items[n - 1];
      assert items[..n] == items[..n - 1] + [m];
      InstructionSnoc(items[..n - 1], m);
      var o := Ordinary(items, n - 1, true);
      InstructionSnoc(o, m);
      if Hoisted(items, n - 1, true) { NothingLate(items, n - 1); }
      var blocks := if Instructs(m) then Blocks(m.content) else [];
      Rearranged(Instructions(items, n - 1, true), InstructionBlocks(o), blocks);
      Rearranged(Instructions(items, n - 1, false), InstructionBlocks(o), blocks);
      assert Ordinary(items, n - 1, true) + [] == Ordinary(items, n - 1, true);
    }
  }

  lemma NoItems(items: seq<Item>)
    ensures InstructionBlocks(items[..0]) == [] && InstructionBlocks([]) == []
  {
    assert items[..0] == [];
  }

  lemma Rearranged(a: seq<Block>, b: seq<Block>, c: seq<Block>)
    ensures (a + b) + c == a + (b + c) && a + [] == a && b + [] == b && (a + b) + [] == a + b
    ensures b == [] ==> (a + c) + b == (a + b) + c
  {}

  function InstructionBlocks(items: seq<Item>): seq<Block> {
    if items == [] then []
    else InstructionBlocks(items[..|items| - 1]) +
         (if Instructs(items[|items| - 1]) then Blocks(items[|items| - 1].content) else [])
  }

  lemma InstructionSnoc(items: seq<Item>, m: Item)
    ensures InstructionBlocks(items + [m]) == InstructionBlocks(items) + (if Instructs(m) then Blocks(m.content) else [])
  {
    assert (items + [m])[..|items|] == items;
  }

  /** Before the conversation starts nothing stays but foreign items. */
  lemma {:induction false} NothingLate(items: seq<Item>, n: nat)
    requires n <= |items| && !Started(items, n)
    ensures InstructionBlocks(Ordinary(items, n, true)) == []
    decreases n
  {
    if n > 0 {
      FlagsNext(items, n - 1);
      NothingLate(items, n - 1);
      InstructionSnoc(Ordinary(items, n - 1, true), items[n - 1]);
      assert Ordinary(items, n - 1, true) + [] == Ordinary(items, n - 1, true);
    }
  }

  // ---- what each item becomes -----------------------------------------------------------------

  /** The items that are no instructions. */
  function Rest(items: seq<Item>): seq<Item> {
    if items == [] then []
    else Rest(items[..|items| - 1]) + (if Instructs(items[|items| - 1]) then [] else [items[|items| - 1]])
  }

  lemma RestSnoc(items: seq<Item>, m: Item)
    ensures Rest(items + [m]) == Rest(items) + (if Instructs(m) then [] else [m])
  {
    assert (items + [m])[..|items|] == items;
  }

  /** Everything but the instructions stays, in order, whatever is done with those. */
  lemma {:induction false} ConversationStays(items: seq<Item>, n: nat, preserve: bool)
    requires n <= |items|
    ensures Rest(Ordinary(items, n, preserve)) == Rest(items[..n])
    decreases n
  {
    if n > 0 {
      hide Blocks, Hoisted;
      ConversationStays(items, n - 1, preserve);
      var m, o := items[n - 1], Ordinary(items, n - 1, preserve);
      assert items[..n] == items[..n - 1] + [m];
      RestSnoc(items[..n - 1], m);
      RestSnoc(o, m);
      assert o + [] == o && Rest(o) + [] == Rest(o);
    }
  }

  /** A call is the assistant's and its output the user's; a message without a role is the user's, and developers speak
      as the system; foreign items say nothing. */
  lemma SpeaksAs(m: Item)
    ensures m.Call? ==> Speaks(m) == [Message("assistant", [m.block])]
    ensures m.Output? ==> Speaks(m) == [Message("user", [m.block])]
    ensures m.NotAnObject? || m.Foreign? <==> Speaks(m) == []
    ensures m.Said? ==>
              && |Speaks(m)| == 1 && Speaks(m)[0].content == Blocks(m.content)
              && (Speaks(m)[0].role == "user" <==> m.role in {"", "user"})
              && (Speaks(m)[0].role == "system" <==> m.role in {"system", "developer"})
              && (Speaks(m)[0].role == "assistant" <==> m.role == "assistant")
  {
    assert ""  != "user" && "developer"[0] != "system"[0] && "user"[0] != "system"[0] && "assistant"[0] != "user"[0];
    assert "assistant"[0] != "system"[0] && "developer"[0] != "user"[0] && "developer"[0] != "assistant"[0];
  }

  /** A plain text is said once, by the user; without an input nothing is said. */
  lemma PlainIsSaid(text: string, preserve: bool)
    ensures InputOk(Plain(text)) && InputOk(NoInput) && InputSpoken(NoInput, preserve) == []
    ensures Flatten(InputSpoken(Plain(text), preserve)) == if text == "" then [] else [("user", Text(text))]
  {
    if text != "" {
      FlattenEmpty();
      FlattenSnoc([], Message("user", [Text(text)]));
      assert [] + [Message("user", [Text(text)])] == [Message("user", [Text(text)])];
      assert Pairs(Message("user", [Text(text)])) == [("user", Text(text))];
    }
  }

  /** An input list is refused exactly for content the upstream has no place for, an image among instructions, or a role
      it does not know. */
  lemma RefusedInputExactly(items: seq<Item>)
    ensures !AllOk(items) <==>
              exists i :: 0 <= i < |items| && items[i].Said? &&
                (|| items[i].content.BadContent?
                 || (items[i].content.Parts? && exists k :: 0 <= k < |items[i].content.parts| && NoPlace(items[i].content.parts[k]))
                 || (items[i].content.Parts? && items[i].role in {"system", "developer"} &&
                     exists k :: 0 <= k < |items[i].content.parts| && items[i].content.parts[k].ImagePart?)
                 || items[i].role !in {"", "system", "developer", "user", "assistant"})
  {}
}

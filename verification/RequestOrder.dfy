// Converting Chat and Responses requests to upstream messages: what is kept in which order.
module RequestOrder {
  import opened Common

  datatype Block = Text(text: string) | Image(source: string) | ToolUse(call: string) | ToolResult(call: string, content: seq<Block>)

  /** A content part; an image that cannot be read has no block. */
  datatype Part = TextPart(text: string) | ImagePart(block: Option<Block>) | UnknownPart | NotAPart

  datatype Content = Null | Str(s: string) | Parts(parts: seq<Part>) | BadContent

  datatype Message = Message(role: string, content: seq<Block>)

  // ---- shared: appending and flattening --------------------------------------------------------

  /** A message of the same role as the last one goes on in it. */
  function Append(messages: seq<Message>, next: Message): seq<Message> {
    if messages != [] && messages[|messages| - 1].role == next.role then
      var last := messages[|messages| - 1];
      messages[|messages| - 1 := last.(content := last.content + next.content)]
    else messages + [next]
  }

  function AppendAll(messages: seq<Message>, more: seq<Message>): seq<Message>
    decreases |more|
  {
    if more == [] then messages else AppendAll(Append(messages, more[0]), more[1..])
  }

  /** All blocks in order, each with the role it is said in. */
  function Pairs(m: Message): seq<(string, Block)> {
    seq(|m.content|, i requires 0 <= i < |m.content| => (m.role, m.content[i]))
  }

  function Flatten(messages: seq<Message>): seq<(string, Block)> {
    if messages == [] then [] else Flatten(messages[..|messages| - 1]) + Pairs(messages[|messages| - 1])
  }

  predicate Alternating(messages: seq<Message>) {
    forall i :: 0 <= i < |messages| - 1 ==> messages[i].role != messages[i + 1].role
  }

  lemma PairsMore(m: Message, more: seq<Block>)
    ensures Pairs(m.(content := m.content + more)) == Pairs(m) + Pairs(Message(m.role, more))
  {}

  lemma FlattenSnoc(messages: seq<Message>, m: Message)
    ensures Flatten(messages + [m]) == Flatten(messages) + Pairs(m)
  {
    assert (messages + [m])[..|messages|] == messages;
  }

  lemma AppendKeeps(messages: seq<Message>, next: Message)
    requires Alternating(messages)
    ensures Alternating(Append(messages, next)) && Append(messages, next) != []
    ensures Flatten(Append(messages, next)) == Flatten(messages) + Pairs(next)
  {
    hide Flatten, Pairs;
    if messages != [] && messages[|messages| - 1].role == next.role {
      var n := |messages| - 1;
      var init, last := messages[..n], messages[n];
      PairsMore(last, next.content);
      assert next == Message(last.role, next.content);
      assert messages == init + [last];
      assert Append(messages, next) == init + [last.(content := last.content + next.content)];
      FlattenSnoc(init, last);
      FlattenSnoc(init, last.(content := last.content + next.content));
      assert (Flatten(init) + Pairs(last)) + Pairs(next) == Flatten(init) + (Pairs(last) + Pairs(next));
    } else {
      FlattenSnoc(messages, next);
    }
  }

  lemma {:induction false} AppendAllKeeps(messages: seq<Message>, more: seq<Message>)
    requires Alternating(messages)
    ensures Alternating(AppendAll(messages, more)) && Flatten(AppendAll(messages, more)) == Flatten(messages) + Flatten(more)
    ensures AppendAll(messages, more) == [] <==> messages == [] && more == []
    decreases |more|
  {
    hide Flatten, Pairs, Alternating, Append;
    FlattenEmpty();
    if more == [] {
      assert Flatten(messages) + [] == Flatten(messages);
    } else {
      AppendKeeps(messages, more[0]);
      AppendAllKeeps(Append(messages, more[0]), more[1..]);
      FlattenCons(more);
      assert (Flatten(messages) + Pairs(more[0])) + Flatten(more[1..]) == Flatten(messages) + (Pairs(more[0]) + Flatten(more[1..]));
    }
  }

  lemma FlattenEmpty()
    ensures Flatten([]) == []
  {}

  lemma {:induction false} FlattenCons(messages: seq<Message>)
    requires messages != []
    ensures Flatten(messages) == Pairs(messages[0]) + Flatten(messages[1..])
  {
    hide Flatten, Pairs;
    var n := |messages| - 1;
    var last := messages[n];
    FlattenEmpty();
    FlattenSnoc(messages[..n], last);
    assert messages == messages[..n] + [last];
    if n == 0 {
      assert messages[..0] == [] && messages[1..] == [];
      assert [] + Pairs(last) == Pairs(last) + [];
    } else {
      FlattenCons(messages[..n]);
      var rest := messages[..n][1..];
      FlattenSnoc(rest, last);
      assert messages[1..] == rest + [last];
      assert (Pairs(messages[0]) + Flatten(rest)) + Pairs(last) == Pairs(messages[0]) + (Flatten(rest) + Pairs(last));
    }
  }

  lemma {:induction false} AppendAllSnoc(messages: seq<Message>, more: seq<Message>, next: Message)
    ensures AppendAll(messages, more + [next]) == Append(AppendAll(messages, more), next)
    decreases |more|
  {
    if more == [] {
      assert [next][1..] == [];
    } else {
      AppendAllSnoc(Append(messages, more[0]), more[1..], next);
      assert (more + [next])[1..] == more[1..] + [next];
    }
  }

  method AppendAnthropicMessage(messages: seq<Message>, next: Message) returns (r: seq<Message>)
    ensures r == Append(messages, next)
  {
    if |messages| > 0 {
      var last := messages[|messages| - 1];
      if last.role == next.role {
        return messages[|messages| - 1 := Message(last.role, last.content + next.content)];
      }
    }
    r := messages + [next];
  }

  // ---- content ---------------------------------------------------------------------------------

  predicate PartOk(p: Part, textOnly: bool) {
    match p
    case TextPart(_) => true
    case ImagePart(b) => !textOnly && b.Some?
    case UnknownPart => false
    case NotAPart => true
  }

  function PartBlocks(p: Part): seq<Block> {
    match p
    case TextPart(t) => if t == "" then [] else [Text(t)]
    case ImagePart(b) => if b.Some? then [b.value] else []
    case _ => []
  }

  function PartsBlocks(ps: seq<Part>): seq<Block> {
    if ps == [] then [] else PartsBlocks(ps[..|ps| - 1]) + PartBlocks(ps[|ps| - 1])
  }

  predicate ContentOk(c: Content, textOnly: bool) {
    match c
    case Parts(ps) => forall i :: 0 <= i < |ps| ==> PartOk(ps[i], textOnly)
    case BadContent => false
    case _ => true
  }

  function Blocks(c: Content): seq<Block> {
    match c
    case Str(s) => if s == "" then [] else [Text(s)]
    case Parts(ps) => PartsBlocks(ps)
    case _ => []
  }

  /** None for content the upstream format has no place for. */
  method ContentBlocks(c: Content, textOnly: bool) returns (r: Option<seq<Block>>)
    ensures r == if ContentOk(c, textOnly) then Some(Blocks(c)) else None
  {
    match c {
      case Null => r := Some([]);
      case Str(s) => r := Some(if s == "" then [] else [Text(s)]);
      case BadContent => r := None;
      case Parts(ps) =>
        var blocks := [];
        for i := 0 to |ps|
          invariant blocks == PartsBlocks(ps[..i]) && forall j :: 0 <= j < i ==> PartOk(ps[j], textOnly)
        {
          assert ps[..i + 1][..i] == ps[..i];
          if ps[i].UnknownPart? || (ps[i].ImagePart? && (textOnly || ps[i].block.None?)) { return None; }
          blocks := blocks + PartBlocks(ps[i]);
        }
        assert ps[..|ps|] == ps;
        r := Some(blocks);
    }
  }

  // ---- Chat requests ---------------------------------------------------------------------------

  /** An item of the message list; `calls` holds the assistant's tool calls, None for one that cannot be read. */
  datatype ChatItem = Skipped | ChatMessage(role: string, content: Content, calls: seq<Option<Block>>, callId: string)

  predicate Instructs(m: ChatItem) { m.ChatMessage? && (m.role == "system" || m.role == "developer") }

  predicate Converses(m: ChatItem) { m.ChatMessage? && !Instructs(m) }

  function CallBlocks(calls: seq<Option<Block>>): seq<Block>
    requires forall i :: 0 <= i < |calls| ==> calls[i].Some?
  {
    seq(|calls|, i requires 0 <= i < |calls| => calls[i].value)
  }

  predicate ChatOk(m: ChatItem) {
    m.ChatMessage? ==>
      && ContentOk(m.content, Instructs(m))
      && (Converses(m) ==> m.role == "user" || m.role == "assistant" || m.role == "tool")
      && (m.role == "assistant" ==> forall i :: 0 <= i < |m.calls| ==> m.calls[i].Some?)
  }

  /** A conversation item on its own. */
  function ConvertOne(m: ChatItem): Message
    requires Converses(m) && ChatOk(m)
  {
    if m.role == "tool" then Message("user", [ToolResult(m.callId, Blocks(m.content))])
    else if m.role == "assistant" then Message("assistant", Blocks(m.content) + CallBlocks(m.calls))
    else Message("user", Blocks(m.content))
  }

  /** A conversation item comes before place `n`. */
  predicate Started(items: seq<ChatItem>, n: nat)
    requires n <= |items|
  {
    exists i :: 0 <= i < n && Converses(items[i])
  }

  /** Whether the instructions at place `n` go to the top: always, or in preserve mode only before the conversation. */
  predicate Hoisted(items: seq<ChatItem>, n: nat, preserve: bool)
    requires n < |items|
  {
    Instructs(items[n]) && !(preserve && Started(items, n))
  }

  /** What item `n` adds to the messages, at its own place. */
  function Said(items: seq<ChatItem>, n: nat, preserve: bool): seq<Message>
    requires n < |items| && ChatOk(items[n])
  {
    if Converses(items[n]) then [ConvertOne(items[n])]
    else if Instructs(items[n]) && !Hoisted(items, n, preserve) && Blocks(items[n].content) != [] then
      [Message("system", Blocks(items[n].content))]
    else []
  }

  function AllSaid(items: seq<ChatItem>, n: nat, preserve: bool): seq<Message>
    requires n <= |items| && forall i :: 0 <= i < n ==> ChatOk(items[i])
  {
    if n == 0 then [] else AllSaid(items, n - 1, preserve) + Said(items, n - 1, preserve)
  }

  function AllHoisted(items: seq<ChatItem>, n: nat, preserve: bool): seq<Block>
    requires n <= |items|
  {
    if n == 0 then []
    else AllHoisted(items, n - 1, preserve) + (if Hoisted(items, n - 1, preserve) then Blocks(items[n - 1].content) else [])
  }

  predicate AnyInstructions(items: seq<ChatItem>, n: nat)
    requires n <= |items|
  {
    exists i :: 0 <= i < n && Instructs(items[i])
  }

  method ConvertMessage(m: ChatItem) returns (r: Option<Message>)
    requires Converses(m)
    ensures r == if ChatOk(m) then Some(ConvertOne(m)) else None
  {
    if m.role != "user" && m.role != "assistant" && m.role != "tool" { return None; }
    var blocks := ContentBlocks(m.content, false);
    if blocks.None? { return None; }
    if m.role == "tool" { return Some(Message("user", [ToolResult(m.callId, blocks.value)])); }
    if m.role == "user" { return Some(Message("user", blocks.value)); }
    var all := blocks.value;
    for i := 0 to |m.calls|
      invariant forall j :: 0 <= j < i ==> m.calls[j].Some?
      invariant all == blocks.value + CallBlocks(m.calls[..i])
    {
      if m.calls[i].None? { return None; }
      assert CallBlocks(m.calls[..i + 1]) == CallBlocks(m.calls[..i]) + [m.calls[i].value];
      all := all + [m.calls[i].value];
    }
    assert m.calls[..|m.calls|] == m.calls;
    r := Some(Message("assistant", all));
  }

  /** The message loop; `system` is None when the request has no instructions to send. */
  method ConvertRequest(items: seq<ChatItem>, preserve: bool)
    returns (ok: bool, system: Option<seq<Block>>, messages: seq<Message>)
    ensures ok <==> forall i :: 0 <= i < |items| ==> ChatOk(items[i])
    ensures ok ==> messages == AppendAll([], AllSaid(items, |items|, preserve))
    ensures ok ==> (system.Some? <==> AllHoisted(items, |items|, preserve) != [] || (preserve && AnyInstructions(items, |items|)))
    ensures ok && system.Some? ==> system.value == AllHoisted(items, |items|, preserve)
  {
    messages, system := [], None;
    var systemBlocks, hasInstructions := [], false;
    hide ContentOk, Append, AppendAll, AllSaid, Blocks, Started, AnyInstructions, ConvertOne;
    StartOfItems(items, preserve);
    for n := 0 to |items|
      invariant forall i :: 0 <= i < n ==> ChatOk(items[i])
      invariant messages == AppendAll([], AllSaid(items, n, preserve))
      invariant systemBlocks == AllHoisted(items, n, preserve) && (hasInstructions <==> AnyInstructions(items, n))
      invariant messages == [] <==> !Started(items, n)
    {
      var m := items[n];
      FlagsNext(items, n);
      if Instructs(m) {
        hasInstructions := true;
        var blocks := ContentBlocks(m.content, true);
        if blocks.None? { return false, None, []; }
        SaidNext(items, n, preserve);
        if preserve && |messages| > 0 {
          if |blocks.value| > 0 { messages := AppendAnthropicMessage(messages, Message("system", blocks.value)); }
        } else {
          systemBlocks := systemBlocks + blocks.value;
        }
      } else if m.ChatMessage? {
        var converted := ConvertMessage(m);
        if converted.None? { return false, None, []; }
        SaidNext(items, n, preserve);
        messages := AppendAnthropicMessage(messages, converted.value);
      } else {
        SaidNext(items, n, preserve);
      }
    }
    if |systemBlocks| > 0 || (preserve && hasInstructions) { system := Some(systemBlocks); }
    ok := true;
  }

  lemma StartOfItems(items: seq<ChatItem>, preserve: bool)
    ensures AppendAll([], AllSaid(items, 0, preserve)) == [] && !Started(items, 0) && !AnyInstructions(items, 0)
  {}

  lemma SaidNext(items: seq<ChatItem>, n: nat, preserve: bool)
    requires n < |items| && forall i :: 0 <= i <= n ==> ChatOk(items[i])
    ensures var said := Said(items, n, preserve);
            && AppendAll([], AllSaid(items, n + 1, preserve))
               == (if said == [] then AppendAll([], AllSaid(items, n, preserve))
                   else Append(AppendAll([], AllSaid(items, n, preserve)), said[0]))
            && (said != [] ==> AppendAll([], AllSaid(items, n + 1, preserve)) != [])
  {
    var said := Said(items, n, preserve);
    if said == [] {
      assert AllSaid(items, n, preserve) + [] == AllSaid(items, n, preserve);
    } else {
      AppendAllSnoc([], AllSaid(items, n, preserve), said[0]);
      assert said == [said[0]];
    }
  }

  lemma FlagsNext(items: seq<ChatItem>, n: nat)
    requires n < |items|
    ensures Started(items, n + 1) <==> Started(items, n) || Converses(items[n])
    ensures AnyInstructions(items, n + 1) <==> AnyInstructions(items, n) || Instructs(items[n])
  {}

  /** The output of an accepted Chat request says the items' blocks in their order under their roles, no
      two neighbouring messages share a role, and in preserve mode exactly the instructions before the
      first conversation item are at the top, the later ones at their place. */
  lemma ChatKeepsOrder(items: seq<ChatItem>, preserve: bool)
    requires forall i :: 0 <= i < |items| ==> ChatOk(items[i])
    ensures var messages := AppendAll([], AllSaid(items, |items|, preserve));
            && Alternating(messages) && Flatten(messages) == Flatten(AllSaid(items, |items|, preserve))
    ensures forall n :: 0 <= n < |items| && preserve ==>
              (Hoisted(items, n, true) <==> Instructs(items[n]) && forall i :: 0 <= i < n ==> !Converses(items[i]))
  {
    AppendAllKeeps([], AllSaid(items, |items|, preserve));
    assert [] + Flatten(AllSaid(items, |items|, preserve)) == Flatten(AllSaid(items, |items|, preserve));
  }

  function SystemBlocks(messages: seq<Message>): seq<Block> {
    if messages == [] then []
    else
      var n := |messages| - 1;
      SystemBlocks(messages[..n]) + (if messages[n].role == "system" then messages[n].content else [])
  }

  function InstructionBlocks(items: seq<ChatItem>, n: nat): seq<Block>
    requires n <= |items|
  {
    if n == 0 then []
    else InstructionBlocks(items, n - 1) + (if Instructs(items[n - 1]) then Blocks(items[n - 1].content) else [])
  }

  lemma SystemSnoc(messages: seq<Message>, m: Message)
    ensures SystemBlocks(messages + [m]) == SystemBlocks(messages) + (if m.role == "system" then m.content else [])
  {
    assert (messages + [m])[..|messages|] == messages;
  }

  lemma OneMore(top: seq<Block>, said: seq<Block>, blocks: seq<Block>, hoisted: bool)
    requires hoisted ==> said == []
    ensures (top + (if hoisted then blocks else [])) + (said + (if hoisted then [] else blocks)) == (top + said) + blocks
    ensures said + [] == said && top + [] == top
  {}

  /** No instruction is said before the conversation starts. */
  lemma {:induction false} NothingEarly(items: seq<ChatItem>, n: nat)
    requires n <= |items| && (forall i :: 0 <= i < n ==> ChatOk(items[i])) && !Started(items, n)
    ensures AllSaid(items, n, true) == []
    decreases n
  {
    hide ChatOk, Blocks;
    if n > 0 {
      FlagsNext(items, n - 1);
      NothingEarly(items, n - 1);
    }
  }

  /** What the n-th item adds to the system messages. */
  lemma SystemNext(items: seq<ChatItem>, n: nat, preserve: bool)
    requires n < |items| && forall i :: 0 <= i <= n ==> ChatOk(items[i])
    ensures SystemBlocks(AllSaid(items, n + 1, preserve)) ==
            SystemBlocks(AllSaid(items, n, preserve)) +
            (if Instructs(items[n]) && !Hoisted(items, n, preserve) then Blocks(items[n].content) else [])
  {
    hide Started, SystemBlocks;
    var said, here := AllSaid(items, n, preserve), Said(items, n, preserve);
    if here == [] {
      assert said + here == said;
      assert SystemBlocks(said) + [] == SystemBlocks(said);
    } else {
      SystemSnoc(said, here[0]);
      assert here == [here[0]];
      assert SystemBlocks(said) + [] == SystemBlocks(said);
    }
  }

  lemma TopNext(items: seq<ChatItem>, n: nat, preserve: bool)
    requires n < |items|
    ensures var here := if Instructs(items[n]) then Blocks(items[n].content) else [];
            var hoisted := Hoisted(items, n, preserve);
            && AllHoisted(items, n + 1, preserve) == AllHoisted(items, n, preserve) + (if hoisted then here else [])
            && InstructionBlocks(items, n + 1) == InstructionBlocks(items, n) + here
            && (if Instructs(items[n]) && !hoisted then Blocks(items[n].content) else []) == (if hoisted then [] else here)
  {
    hide Blocks, Started;
  }

  /** No instruction is lost or doubled: those at the top, followed in preserve mode by the system messages, are
      all the instructions in their order; without it, all of them are at the top. */
  lemma {:induction false} ChatLosesNoInstruction(items: seq<ChatItem>, n: nat, preserve: bool)
    requires n <= |items| && forall i :: 0 <= i < n ==> ChatOk(items[i])
    ensures AllHoisted(items, n, preserve) + SystemBlocks(AllSaid(items, n, preserve)) == InstructionBlocks(items, n)
    ensures !preserve ==> SystemBlocks(AllSaid(items, n, preserve)) == []
    decreases n
  {
    if n == 0 {
      NoSystem();
    } else {
      hide *;
      ChatLosesNoInstruction(items, n - 1, preserve);
      InstructionPlaced(items, n - 1, preserve);
    }
  }

  lemma InstructionPlaced(items: seq<ChatItem>, n: nat, preserve: bool)
    requires n < |items| && forall i :: 0 <= i <= n ==> ChatOk(items[i])
    requires AllHoisted(items, n, preserve) + SystemBlocks(AllSaid(items, n, preserve)) == InstructionBlocks(items, n)
    requires !preserve ==> SystemBlocks(AllSaid(items, n, preserve)) == []
    ensures AllHoisted(items, n + 1, preserve) + SystemBlocks(AllSaid(items, n + 1, preserve)) == InstructionBlocks(items, n + 1)
    ensures !preserve ==> SystemBlocks(AllSaid(items, n + 1, preserve)) == []
  {
    var hoisted := Hoisted(items, n, preserve);
    if hoisted && preserve {
      NothingEarly(items, n);
      NoSystem();
    }
    assert Instructs(items[n]) && !preserve ==> hoisted;
    hide *;
    SystemNext(items, n, preserve);
    TopNext(items, n, preserve);
    OneMore(AllHoisted(items, n, preserve), SystemBlocks(AllSaid(items, n, preserve)),
            if Instructs(items[n]) then Blocks(items[n].content) else [], hoisted);
  }

  lemma NoSystem()
    ensures SystemBlocks([]) == []
  {}

  // ---- what each item becomes -----------------------------------------------------------------

  /** The messages that are not the system's. */
  function Talk(messages: seq<Message>): seq<Message> {
    if messages == [] then []
    else
      var n := |messages| - 1;
      Talk(messages[..n]) + (if messages[n].role != "system" then [messages[n]] else [])
  }

  /** The conversation items, each as it is said. */
  function Conversation(items: seq<ChatItem>, n: nat): seq<Message>
    requires n <= |items| && forall i :: 0 <= i < n ==> ChatOk(items[i])
  {
    if n == 0 then []
    else Conversation(items, n - 1) + (if Converses(items[n - 1]) then [ConvertOne(items[n - 1])] else [])
  }

  lemma TalkSnoc(messages: seq<Message>, m: Message)
    ensures Talk(messages + [m]) == Talk(messages) + (if m.role != "system" then [m] else [])
  {
    assert (messages + [m])[..|messages|] == messages;
  }

  /** Every item of the conversation is said once, in order, whatever is done with the instructions. */
  lemma {:induction false} ConversationIsKept(items: seq<ChatItem>, n: nat, preserve: bool)
    requires n <= |items| && forall i :: 0 <= i < n ==> ChatOk(items[i])
    ensures Talk(AllSaid(items, n, preserve)) == Conversation(items, n)
    decreases n
  {
    if n > 0 {
      var said, here := AllSaid(items, n - 1, preserve), Said(items, n - 1, preserve);
      hide Hoisted, ChatOk, Blocks;
      ConversationIsKept(items, n - 1, preserve);
      if here == [] {
        assert said + here == said;
        assert Conversation(items, n - 1) + [] == Conversation(items, n - 1);
      } else {
        if Converses(items[n - 1]) { OwnRole(items[n - 1]); }
        TalkSnoc(said, here[0]);
        assert here == [here[0]];
        assert Talk(said) + [] == Talk(said) && Conversation(items, n - 1) + [] == Conversation(items, n - 1);
      }
    }
  }

  lemma OwnRole(m: ChatItem)
    requires Converses(m) && ChatOk(m)
    ensures ConvertOne(m).role != "system"
  {}

  /** A conversation item is the assistant's exactly if its role says so; a tool's answer becomes a user's result for
      its call, and an assistant's calls follow its text. */
  lemma SaidAs(m: ChatItem)
    requires Converses(m) && ChatOk(m)
    ensures var c := ConvertOne(m);
            && c.role == (if m.role == "assistant" then "assistant" else "user")
            && (m.role == "tool" ==> c.content == [ToolResult(m.callId, Blocks(m.content))])
            && (m.role == "user" ==> c.content == Blocks(m.content))
            && (m.role == "assistant" ==>
                  && |c.content| == |Blocks(m.content)| + |m.calls| && Blocks(m.content) <= c.content
                  && forall k :: 0 <= k < |m.calls| ==> Some(c.content[|Blocks(m.content)| + k]) == m.calls[k])
  {}

  /** A list of messages is refused exactly for content the upstream has no place for, an image among instructions, a
      role it does not know, or a tool call that cannot be read. */
  lemma RefusedExactly(items: seq<ChatItem>)
    ensures (exists i :: 0 <= i < |items| && !ChatOk(items[i])) <==>
              exists i :: 0 <= i < |items| && items[i].ChatMessage? &&
                (|| items[i].content.BadContent?
                 || (items[i].content.Parts? && exists k :: 0 <= k < |items[i].content.parts| && NoPlace(items[i].content.parts[k]))
                 || (items[i].content.Parts? && items[i].role in {"system", "developer"} &&
                     exists k :: 0 <= k < |items[i].content.parts| && items[i].content.parts[k].ImagePart?)
                 || items[i].role !in {"system", "developer", "user", "assistant", "tool"}
                 || (items[i].role == "assistant" && exists k :: 0 <= k < |items[i].calls| && items[i].calls[k].None?))
  {}

  predicate NoPlace(p: Part) { p.UnknownPart? || (p.ImagePart? && p.block.None?) }

  // ---- content is kept ------------------------------------------------------------------------

  function PartText(ps: seq<Part>): string {
    if ps == [] then "" else PartText(ps[..|ps| - 1]) + (if ps[|ps| - 1].TextPart? then ps[|ps| - 1].text else "")
  }

  function PartImages(ps: seq<Part>): seq<Block> {
    if ps == [] then []
    else
      var p := ps[|ps| - 1];
      PartImages(ps[..|ps| - 1]) + (if p.ImagePart? && p.block.Some? then [p.block.value] else [])
  }

  function BlockText(bs: seq<Block>): string {
    if bs == [] then "" else BlockText(bs[..|bs| - 1]) + (if bs[|bs| - 1].Text? then bs[|bs| - 1].text else "")
  }

  function BlockImages(bs: seq<Block>): seq<Block> {
    if bs == [] then [] else BlockImages(bs[..|bs| - 1]) + (if !bs[|bs| - 1].Text? then [bs[|bs| - 1]] else [])
  }

  function TextIn(c: Content): string {
    match c
    case Str(s) => s
    case Parts(ps) => PartText(ps)
    case _ => ""
  }

  /** All text of a content is said, as it is. */
  lemma TextIsKept(c: Content)
    requires c.Parts? ==> forall i :: 0 <= i < |c.parts| && c.parts[i].ImagePart? && c.parts[i].block.Some? ==>
                            !c.parts[i].block.value.Text?
    ensures BlockText(Blocks(c)) == TextIn(c)
  {
    if c.Parts? { ContentIsKept(c.parts); }
    if c.Str? && c.s != "" {
      assert [Text(c.s)][..0] == [] && BlockText([]) == "" && "" + c.s == c.s;
    }
  }

  lemma BlockSnoc(bs: seq<Block>, b: Block)
    ensures BlockText(bs + [b]) == BlockText(bs) + (if b.Text? then b.text else "")
    ensures BlockImages(bs + [b]) == BlockImages(bs) + (if !b.Text? then [b] else [])
  {
    assert (bs + [b])[..|bs|] == bs;
  }

  /** Content in parts keeps all its text and all its readable images, each in order, and sends no empty text. */
  lemma {:induction false} ContentIsKept(ps: seq<Part>)
    requires forall i :: 0 <= i < |ps| && ps[i].ImagePart? && ps[i].block.Some? ==> !ps[i].block.value.Text?
    ensures BlockText(PartsBlocks(ps)) == PartText(ps) && BlockImages(PartsBlocks(ps)) == PartImages(ps)
    ensures forall k :: 0 <= k < |PartsBlocks(ps)| ==> PartsBlocks(ps)[k] != Text("")
  {
    if ps != [] {
      var n := |ps| - 1;
      ContentIsKept(ps[..n]);
      var before, here := PartsBlocks(ps[..n]), PartBlocks(ps[n]);
      assert BlockText(before) + "" == BlockText(before) && BlockImages(before) + [] == BlockImages(before);
      if here == [] {
        assert before + here == before;
      } else {
        assert here == [here[0]];
        BlockSnoc(before, here[0]);
      }
    }
  }
}

/**
 What a message list means to a model, and the two provider translations of it: the Anthropic one
 (backend-python/app/providers/anthropic_provider.py:61-136) and the Gemini one
 (backend-python/app/providers/gemini_provider.py:79-182). Meaning is a list of turns; a translation is
 right when its output, read back in the provider's own format, means what the source meant.
 */
module Translators {
  import opened Wrappers
  import opened JsonValues
  import opened ToolHistory

  datatype Speaker = User | Assistant

  datatype Item =
    | Said(text: string)
    | Called(id: string, name: string, arguments: Json)
    | Returned(id: string, content: string)

  datatype Turn = Turn(speaker: Speaker, items: seq<Item>)

  /** Generated ids for calls that came without one, by message and call position. */
  type FreshIds = (nat, nat) -> string

  const NO_ARGUMENTS := Obj([])

  /** Tool arguments as an object; anything that is not one is no arguments. */
  function ParseArguments(raw: RawArguments, codec: Codec): (arguments: Json)
    ensures arguments.Obj?
    ensures raw.ArgObject? && raw.value.Obj? ==> arguments == raw.value
    ensures codec.Lawful() && raw.ArgText? && codec.loads(raw.text).Some? && codec.loads(raw.text).value.Obj? ==>
              arguments == codec.loads(raw.text).value
    ensures arguments != Obj([]) ==>
              raw == ArgObject(arguments) || (raw.ArgText? && codec.loads(raw.text) == Some(arguments))
  {
    match raw
    case ArgObject(v) => if v.Obj? then v else NO_ARGUMENTS
    case ArgOther => NO_ARGUMENTS
    case ArgText(text) =>
      if text == "" then NO_ARGUMENTS
      else
        var parsed := codec.loads(text);
        if parsed.Some? && parsed.value.Obj? then parsed.value else NO_ARGUMENTS
  }

  function IdOr(id: string, fallback: string): string {
    if id == "" then fallback else id
  }

  /** `str(content)` of a dictionary's content. */
  function Shown(content: Option<string>): string {
    if content.Some? then content.value else "None"
  }

  function Opening(content: Option<string>): seq<Item> {
    if content.Some? && content.value != "" then [Said(content.value)] else []
  }

  function CallItems(calls: seq<RawCall>, codec: Codec, i: nat, newId: FreshIds): seq<Item> {
    if calls == [] then []
    else
      var k := |calls| - 1;
      CallItems(calls[..k], codec, i, newId) +
      match calls[k]
      case NotAFunction => []
      case FunctionCall(id, name, arguments, _) =>
        [Called(IdOr(id, newId(i, k)), name, ParseArguments(arguments, codec))]
  }

  /** What message i adds; system messages and unknown ones add no turn. */
  function TurnsOf(m: Message, codec: Codec, i: nat, newId: FreshIds): seq<Turn> {
    match m
    case Schema(SystemRole, _) => []
    case Schema(UserRole, text) => [Turn(User, [Said(text)])]
    case Schema(AssistantRole, text) => [Turn(Assistant, [Said(text)])]
    case AssistantDict(content, calls) =>
      if calls == [] then [Turn(Assistant, [Said(Shown(content))])]
      else [Turn(Assistant, Opening(content) + CallItems(calls, codec, i, newId))]
    case ToolDict(id, result) => [Turn(User, [Returned(id, result)])]
    case UserDict(content) => [Turn(User, [Said(Shown(content))])]
    case SystemDict(_) => []
    case UnknownDict => []
  }

  function Turns(messages: seq<Message>, codec: Codec, newId: FreshIds): seq<Turn> {
    if messages == [] then []
    else
      var n := |messages| - 1;
      Turns(messages[..n], codec, newId) + TurnsOf(messages[n], codec, n, newId)
  }

  function NoId(i: nat, k: nat): string {
    ""
  }

  /** The meaning of the source: a call without an id has the empty id. */
  function Meaning(messages: seq<Message>, codec: Codec): seq<Turn> {
    Turns(messages, codec, NoId)
  }

  function SystemText(m: Message): seq<string> {
    match m
    case Schema(SystemRole, text) => [text]
    case SystemDict(content) => if content.Some? && content.value != "" then [content.value] else []
    case _ => []
  }

  function SystemTexts(messages: seq<Message>): seq<string> {
    if messages == [] then []
    else SystemTexts(messages[..|messages| - 1]) + SystemText(messages[|messages| - 1])
  }

  function Join(parts: seq<string>): string
    requires parts != []
  {
    if |parts| == 1 then parts[0] else Join(parts[..|parts| - 1]) + "\n\n" + parts[|parts| - 1]
  }

  function SystemPrompt(messages: seq<Message>): Option<string> {
    var parts := SystemTexts(messages);
    if parts == [] then None else Some(Join(parts))
  }

  lemma {:induction false} JoinConcat(a: seq<string>, b: seq<string>)
    requires a != [] && b != []
    ensures Join(a + b) == Join(a) + "\n\n" + Join(b)
    decreases |b|
  {
    var n := |b| - 1;
    assert (a + b)[..|a + b| - 1] == a + b[..n];
    if n == 0 {
      assert a + b[..n] == a;
    } else {
      JoinConcat(a, b[..n]);
      assert Join(a) + "\n\n" + Join(b[..n]) + "\n\n" + b[n] == Join(a) + "\n\n" + (Join(b[..n]) + "\n\n" + b[n]);
    }
  }

  lemma {:induction false} SystemTextsConcat(a: seq<Message>, b: seq<Message>)
    ensures SystemTexts(a + b) == SystemTexts(a) + SystemTexts(b)
    decreases |b|
  {
    if b == [] {
      assert a + b == a;
    } else {
      assert (a + b)[..|a + b| - 1] == a + b[..|b| - 1];
      SystemTextsConcat(a, b[..|b| - 1]);
    }
  }

  /** The prompt of a history is that of its first part, a blank line, and that of its second. */
  lemma SystemPromptSplits(a: seq<Message>, b: seq<Message>)
    ensures var x, y := SystemPrompt(a), SystemPrompt(b);
            SystemPrompt(a + b) ==
              if x.None? then y else if y.None? then x else Some(x.value + "\n\n" + y.value)
  {
    SystemTextsConcat(a, b);
    var x, y := SystemTexts(a), SystemTexts(b);
    if x != [] && y != [] {
      JoinConcat(x, y);
    } else {
      assert x + y == if x == [] then y else x;
    }
  }

  /** And that of one message is its text if it is a system message with one. */
  lemma SystemPromptOfOne(m: Message)
    ensures SystemPrompt([m]) ==
              if m.Schema? && m.role.SystemRole? then Some(m.text)
              else if m.SystemDict? && m.content.GetOr("") != "" then m.content
              else None
  {
    assert [m][..0] == [];
    assert SystemTexts([m]) == SystemText(m);
  }

  // ---- Anthropic -----------------------------------------------------------------

  datatype Block =
    | TextBlock(text: string)
    | ToolUse(id: string, name: string, input: Json)
    | ToolResult(useId: string, content: string)

  datatype AnthropicMessage = Plain(role: Speaker, text: string) | Blocks(role: Speaker, blocks: seq<Block>)

  /** What a block means; no two blocks mean the same. */
  function BlockItem(b: Block): (item: Item)
    ensures match item
            case Said(text) => b == TextBlock(text)
            case Called(id, name, arguments) => b == ToolUse(id, name, arguments)
            case Returned(id, content) => b == ToolResult(id, content)
  {
    match b
    case TextBlock(text) => Said(text)
    case ToolUse(id, name, input) => Called(id, name, input)
    case ToolResult(id, content) => Returned(id, content)
  }

  function BlockItems(blocks: seq<Block>): seq<Item> {
    if blocks == [] then [] else BlockItems(blocks[..|blocks| - 1]) + [BlockItem(blocks[|blocks| - 1])]
  }

  /** What one Anthropic message means. */
  function AnthropicTurn(m: AnthropicMessage): Turn {
    match m
    case Plain(role, text) => Turn(role, [Said(text)])
    case Blocks(role, blocks) => Turn(role, BlockItems(blocks))
  }

  function AnthropicTurns(out: seq<AnthropicMessage>): seq<Turn> {
    if out == [] then [] else AnthropicTurns(out[..|out| - 1]) + [AnthropicTurn(out[|out| - 1])]
  }

  lemma OneBlock(b: Block)
    ensures BlockItems([b]) == [BlockItem(b)]
  {
    assert [b][..0] == [];
  }

  lemma AnthropicAppend(out: seq<AnthropicMessage>, added: seq<AnthropicMessage>)
    requires |added| <= 1
    ensures AnthropicTurns(out + added) == AnthropicTurns(out) + if added == [] then [] else [AnthropicTurn(added[0])]
  {
    if added == [] {
      assert out + added == out;
    } else {
      assert (out + added)[..|out|] == out;
    }
  }

  /** One more message of the source, system texts and turns apart. */
  lemma NextMessage(messages: seq<Message>, i: nat, codec: Codec, newId: FreshIds)
    requires i < |messages|
    ensures Turns(messages[..i + 1], codec, newId) ==
              Turns(messages[..i], codec, newId) + TurnsOf(messages[i], codec, i, newId)
    ensures SystemTexts(messages[..i + 1]) == SystemTexts(messages[..i]) + SystemText(messages[i])
  {
    assert messages[..i + 1][..i] == messages[..i];
  }

  /** One more call of an assistant message. */
  lemma NextItem(calls: seq<RawCall>, k: nat, codec: Codec, i: nat, newId: FreshIds)
    requires k < |calls|
    ensures var c, items := calls[k], CallItems(calls[..k], codec, i, newId);
            CallItems(calls[..k + 1], codec, i, newId) ==
              if c.FunctionCall?
              then items + [Called(IdOr(c.id, newId(i, k)), c.name, ParseArguments(c.arguments, codec))]
              else items
  {
    assert calls[..k + 1][..k] == calls[..k];
  }

  lemma BlockAppended(blocks: seq<Block>, b: Block, opening: seq<Item>, items: seq<Item>)
    requires BlockItems(blocks) == opening + items
    ensures BlockItems(blocks + [b]) == opening + (items + [BlockItem(b)])
  {
    assert (blocks + [b])[..|blocks|] == blocks;
    assert opening + items + [BlockItem(b)] == opening + (items + [BlockItem(b)]);
  }

  /** The content blocks of an assistant message with calls. */
  method AnthropicBlocks(content: Option<string>, calls: seq<RawCall>, codec: Codec, i: nat, newId: FreshIds)
    returns (blocks: seq<Block>)
    ensures BlockItems(blocks) == Opening(content) + CallItems(calls, codec, i, newId)
  {
    blocks := [];
    if content.Some? && content.value != "" {
      OneBlock(TextBlock(content.value));
      blocks := [TextBlock(content.value)];
    }
    var k := 0;
    while k < |calls|
      invariant k <= |calls|
      invariant BlockItems(blocks) == Opening(content) + CallItems(calls[..k], codec, i, newId)
    {
      NextItem(calls, k, codec, i, newId);
      if calls[k].FunctionCall? {
        var b := ToolUse(IdOr(calls[k].id, newId(i, k)), calls[k].name, ParseArguments(calls[k].arguments, codec));
        BlockAppended(blocks, b, Opening(content), CallItems(calls[..k], codec, i, newId));
        blocks := blocks + [b];
      }
      k := k + 1;
    }
    assert calls[..k] == calls;
  }

  /** One message: the system text it adds, and the message it becomes. */
  method AnthropicOf(m: Message, codec: Codec, i: nat, newId: FreshIds)
    returns (texts: seq<string>, added: seq<AnthropicMessage>)
    ensures texts == SystemText(m)
    ensures |added| <= 1
    ensures TurnsOf(m, codec, i, newId) == if added == [] then [] else [AnthropicTurn(added[0])]
    ensures m.Schema? && m.role.UserRole? ==> added == [Plain(User, m.text)]
    ensures m.Schema? && m.role.AssistantRole? ==> added == [Plain(Assistant, m.text)]
    ensures m.UserDict? ==> added == [Plain(User, m.content.GetOr("None"))]
    ensures m.ToolDict? ==> added == [Blocks(User, [ToolResult(m.callId, m.result)])]
    ensures m.AssistantDict? ==>
              && |added| == 1 && added[0].role == Assistant
              && (m.calls == [] ==> added[0] == Plain(Assistant, m.content.GetOr("None")))
    ensures (m.Schema? && m.role.SystemRole?) || m.SystemDict? || m.UnknownDict? ==> added == []
  {
    texts, added := [], [];
    match m {
      case Schema(role, text) =>
        if role.SystemRole? {
          texts := [text];
        } else {
          added := [Plain(if role.UserRole? then User else Assistant, text)];
        }
      case SystemDict(content) =>
        if content.Some? && content.value != "" {
          texts := [content.value];
        }
      case AssistantDict(content, calls) =>
        if calls == [] {
          added := [Plain(Assistant, Shown(content))];
        } else {
          var blocks := AnthropicBlocks(content, calls, codec, i, newId);
          added := [Blocks(Assistant, blocks)];
        }
      case ToolDict(id, result) =>
        OneBlock(ToolResult(id, result));
        added := [Blocks(User, [ToolResult(id, result)])];
      case UserDict(content) => added := [Plain(User, Shown(content))];
      case UnknownDict =>
    }
  }

  method SplitForAnthropic(messages: seq<Message>, codec: Codec, newId: FreshIds)
    returns (system: Option<string>, out: seq<AnthropicMessage>)
    ensures system == SystemPrompt(messages)
    ensures AnthropicTurns(out) == Turns(messages, codec, newId)
  {
    var systemParts: seq<string> := [];
    out := [];
    var i := 0;
    while i < |messages|
      invariant i <= |messages|
      invariant systemParts == SystemTexts(messages[..i])
      invariant AnthropicTurns(out) == Turns(messages[..i], codec, newId)
    {
      NextMessage(messages, i, codec, newId);
      var texts, added := AnthropicOf(messages[i], codec, i, newId);
      systemParts := systemParts + texts;
      AnthropicAppend(out, added);
      out := out + added;
      i := i + 1;
    }
    assert messages[..i] == messages;
    system := if systemParts == [] then None else Some(Join(systemParts));
  }
}

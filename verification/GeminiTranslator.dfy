/**
 The Gemini translation. On top of what the Anthropic one carries, each function response needs the name
 of its call, which the translator remembers in a map from call id to name.
 */
module GeminiTranslator {
  import opened Wrappers
  import opened JsonValues
  import opened ToolHistory
  import opened Translators

  datatype Part =
    | TextPart(text: string)
    | CallPart(id: string, name: string, arguments: Json)
    | ResponsePart(id: string, name: string, output: string)

  datatype GeminiRole = UserContent | ModelContent

  datatype Content = Content(role: GeminiRole, parts: seq<Part>)

  /** What a part means; only the function name of a response is not part of it. */
  function PartItem(p: Part): (item: Item)
    ensures match item
            case Said(text) => p == TextPart(text)
            case Called(id, name, arguments) => p == CallPart(id, name, arguments)
            case Returned(id, output) => p.ResponsePart? && p.id == id && p.output == output
  {
    match p
    case TextPart(text) => Said(text)
    case CallPart(id, name, arguments) => Called(id, name, arguments)
    case ResponsePart(id, _, output) => Returned(id, output)
  }

  function PartItems(parts: seq<Part>): seq<Item> {
    if parts == [] then [] else PartItems(parts[..|parts| - 1]) + [PartItem(parts[|parts| - 1])]
  }

  function GeminiTurn(c: Content): Turn {
    Turn(if c.role.UserContent? then User else Assistant, PartItems(c.parts))
  }

  /** What a list of Gemini contents means, function names of responses aside. */
  function GeminiTurns(out: seq<Content>): seq<Turn> {
    if out == [] then [] else GeminiTurns(out[..|out| - 1]) + [GeminiTurn(out[|out| - 1])]
  }

  /** The function responses of a list of contents: call id and function name, in order. */
  function Responses(out: seq<Content>): seq<(string, string)> {
    if out == [] then [] else Responses(out[..|out| - 1]) + PartResponses(out[|out| - 1].parts)
  }

  function PartResponses(parts: seq<Part>): seq<(string, string)> {
    if parts == [] then []
    else
      var p := parts[|parts| - 1];
      PartResponses(parts[..|parts| - 1]) + if p.ResponsePart? then [(p.id, p.name)] else []
  }

  // ---- the names the translator remembers -------------------------------------------

  function NamesOf(calls: seq<RawCall>, i: nat, newId: FreshIds, names: map<string, string>): map<string, string> {
    if calls == [] then names
    else
      var k := |calls| - 1;
      var before := NamesOf(calls[..k], i, newId, names);
      if calls[k].FunctionCall? then before[IdOr(calls[k].id, newId(i, k)) := calls[k].name] else before
  }

  function NamesAfter(messages: seq<Message>, newId: FreshIds): map<string, string> {
    if messages == [] then map[]
    else
      var n := |messages| - 1;
      var before := NamesAfter(messages[..n], newId);
      if messages[n].AssistantDict? then NamesOf(messages[n].calls, n, newId, before) else before
  }

  function NameFor(id: string, names: map<string, string>): string {
    if id in names then names[id] else ""
  }

  /** The responses the translator produces for the results in `messages`. */
  function NamedResults(messages: seq<Message>, newId: FreshIds): seq<(string, string)> {
    if messages == [] then []
    else
      var n := |messages| - 1;
      var m := messages[n];
      NamedResults(messages[..n], newId) +
      if m.ToolDict? then [(m.callId, NameFor(m.callId, NamesAfter(messages[..n], newId)))] else []
  }

  // ---- the translation ------------------------------------------------------------------

  lemma OnePart(p: Part)
    ensures PartItems([p]) == [PartItem(p)]
    ensures PartResponses([p]) == if p.ResponsePart? then [(p.id, p.name)] else []
  {
    assert [p][..0] == [];
  }

  lemma PartAppend(parts: seq<Part>, p: Part)
    ensures PartItems(parts + [p]) == PartItems(parts) + [PartItem(p)]
    ensures PartResponses(parts + [p]) == PartResponses(parts) + if p.ResponsePart? then [(p.id, p.name)] else []
  {
    assert (parts + [p])[..|parts|] == parts;
  }

  lemma GeminiAppend(out: seq<Content>, added: seq<Content>)
    requires |added| <= 1
    ensures GeminiTurns(out + added) == GeminiTurns(out) + if added == [] then [] else [GeminiTurn(added[0])]
    ensures Responses(out + added) == Responses(out) + if added == [] then [] else PartResponses(added[0].parts)
  {
    if added == [] {
      assert out + added == out;
    } else {
      assert (out + added)[..|out|] == out;
    }
  }

  lemma NextNames(messages: seq<Message>, i: nat, newId: FreshIds)
    requires i < |messages|
    ensures var m, names := messages[i], NamesAfter(messages[..i], newId);
            && NamesAfter(messages[..i + 1], newId) ==
                 (if m.AssistantDict? then NamesOf(m.calls, i, newId, names) else names)
            && NamedResults(messages[..i + 1], newId) ==
                 NamedResults(messages[..i], newId) + if m.ToolDict? then [(m.callId, NameFor(m.callId, names))] else []
  {
    assert messages[..i + 1][..i] == messages[..i];
  }

  lemma NextCall(calls: seq<RawCall>, k: nat, codec: Codec, i: nat, newId: FreshIds, known: map<string, string>)
    requires k < |calls|
    ensures var c, items := calls[k], CallItems(calls[..k], codec, i, newId);
            var names := NamesOf(calls[..k], i, newId, known);
            if c.FunctionCall? then
              && CallItems(calls[..k + 1], codec, i, newId) ==
                   items + [Called(IdOr(c.id, newId(i, k)), c.name, ParseArguments(c.arguments, codec))]
              && NamesOf(calls[..k + 1], i, newId, known) == names[IdOr(c.id, newId(i, k)) := c.name]
            else
              CallItems(calls[..k + 1], codec, i, newId) == items && NamesOf(calls[..k + 1], i, newId, known) == names
  {
    assert calls[..k + 1][..k] == calls[..k];
  }

  /** The parts and names that an assistant message with these calls leads to. */
  predicate Covers(parts: seq<Part>, names: map<string, string>, content: Option<string>, calls: seq<RawCall>,
                   codec: Codec, i: nat, newId: FreshIds, known: map<string, string>)
  {
    && PartItems(parts) == Opening(content) + CallItems(calls, codec, i, newId)
    && PartResponses(parts) == [] && names == NamesOf(calls, i, newId, known)
  }

  lemma CoversNext(parts: seq<Part>, names: map<string, string>, content: Option<string>, calls: seq<RawCall>, k: nat,
                   codec: Codec, i: nat, newId: FreshIds, known: map<string, string>)
    requires k < |calls| && Covers(parts, names, content, calls[..k], codec, i, newId, known)
    ensures var c := calls[k];
            if c.FunctionCall? then
              var id := IdOr(c.id, newId(i, k));
              Covers(parts + [CallPart(id, c.name, ParseArguments(c.arguments, codec))], names[id := c.name],
                     content, calls[..k + 1], codec, i, newId, known)
            else Covers(parts, names, content, calls[..k + 1], codec, i, newId, known)
  {
    NextCall(calls, k, codec, i, newId, known);
    if calls[k].FunctionCall? {
      var p := CallPart(IdOr(calls[k].id, newId(i, k)), calls[k].name, ParseArguments(calls[k].arguments, codec));
      PartAppend(parts, p);
      Regroup(Opening(content), CallItems(calls[..k], codec, i, newId), PartItem(p));
    }
  }

  lemma Regroup(a: seq<Item>, b: seq<Item>, c: Item)
    ensures a + b + [c] == a + (b + [c])
  {
  }

  /** The parts of an assistant message with calls, and the names they add. */
  method GeminiParts(content: Option<string>, calls: seq<RawCall>, codec: Codec, i: nat, newId: FreshIds,
                     known: map<string, string>)
    returns (parts: seq<Part>, names: map<string, string>)
    ensures PartItems(parts) == Opening(content) + CallItems(calls, codec, i, newId)
    ensures PartResponses(parts) == []
    ensures names == NamesOf(calls, i, newId, known)
  {
    parts, names := [], known;
    if content.Some? && content.value != "" {
      OnePart(TextPart(content.value));
      parts := [TextPart(content.value)];
    }
    var k := 0;
    while k < |calls|
      invariant k <= |calls| && Covers(parts, names, content, calls[..k], codec, i, newId, known)
    {
      CoversNext(parts, names, content, calls, k, codec, i, newId, known);
      if calls[k].FunctionCall? {
        var id := IdOr(calls[k].id, newId(i, k));
        names := names[id := calls[k].name];
        parts := parts + [CallPart(id, calls[k].name, ParseArguments(calls[k].arguments, codec))];
      }
      k := k + 1;
    }
    assert calls[..k] == calls;
  }

  /** One message: the system text it adds, the content it becomes, and the names known after it. */
  method GeminiOf(m: Message, codec: Codec, i: nat, newId: FreshIds, known: map<string, string>)
    returns (texts: seq<string>, added: seq<Content>, names: map<string, string>)
    ensures texts == SystemText(m)
    ensures |added| <= 1
    ensures TurnsOf(m, codec, i, newId) == if added == [] then [] else [GeminiTurn(added[0])]
    ensures (if added == [] then [] else PartResponses(added[0].parts)) ==
              if m.ToolDict? then [(m.callId, NameFor(m.callId, known))] else []
    ensures names == if m.AssistantDict? then NamesOf(m.calls, i, newId, known) else known
    ensures m.Schema? && m.role.UserRole? ==> added == [Content(UserContent, [TextPart(m.text)])]
    ensures m.Schema? && m.role.AssistantRole? ==> added == [Content(ModelContent, [TextPart(m.text)])]
    ensures m.UserDict? ==> added == [Content(UserContent, [TextPart(m.content.GetOr("None"))])]
    ensures m.ToolDict? ==>
              var name := if m.callId in known then known[m.callId] else "";
              added == [Content(UserContent, [ResponsePart(m.callId, name, m.result)])]
    ensures m.AssistantDict? ==>
              && |added| == 1 && added[0].role == ModelContent
              && (m.calls == [] ==> added[0].parts == [TextPart(m.content.GetOr("None"))])
    ensures (m.Schema? && m.role.SystemRole?) || m.SystemDict? || m.UnknownDict? ==> added == []
  {
    texts, added, names := [], [], known;
    match m {
      case Schema(role, text) =>
        if role.SystemRole? {
          texts := [text];
        } else {
          OnePart(TextPart(text));
          added := [Content(if role.UserRole? then UserContent else ModelContent, [TextPart(text)])];
        }
      case SystemDict(content) =>
        if content.Some? && content.value != "" {
          texts := [content.value];
        }
      case AssistantDict(content, calls) =>
        if calls == [] {
          OnePart(TextPart(Shown(content)));
          added := [Content(ModelContent, [TextPart(Shown(content))])];
        } else {
          var parts;
          parts, names := GeminiParts(content, calls, codec, i, newId, known);
          added := [Content(ModelContent, parts)];
        }
      case ToolDict(id, result) =>
        var p := ResponsePart(id, NameFor(id, names), result);
        OnePart(p);
        added := [Content(UserContent, [p])];
      case UserDict(content) =>
        OnePart(TextPart(Shown(content)));
        added := [Content(UserContent, [TextPart(Shown(content))])];
      case UnknownDict =>
    }
  }

  /** What the translation of a run of messages has produced and remembered. */
  predicate Translated(system: seq<string>, out: seq<Content>, names: map<string, string>,
                       messages: seq<Message>, codec: Codec, newId: FreshIds)
  {
    && system == SystemTexts(messages) && names == NamesAfter(messages, newId)
    && GeminiTurns(out) == Turns(messages, codec, newId) && Responses(out) == NamedResults(messages, newId)
  }

  lemma TranslatedNext(system: seq<string>, out: seq<Content>, names: map<string, string>,
                       messages: seq<Message>, i: nat, codec: Codec, newId: FreshIds,
                       added: seq<Content>, after: map<string, string>)
    requires i < |messages| && Translated(system, out, names, messages[..i], codec, newId)
    requires |added| <= 1
    requires TurnsOf(messages[i], codec, i, newId) == if added == [] then [] else [GeminiTurn(added[0])]
    requires (if added == [] then [] else PartResponses(added[0].parts)) ==
               if messages[i].ToolDict? then [(messages[i].callId, NameFor(messages[i].callId, names))] else []
    requires after == if messages[i].AssistantDict? then NamesOf(messages[i].calls, i, newId, names) else names
    ensures Translated(system + SystemText(messages[i]), out + added, after, messages[..i + 1], codec, newId)
  {
    NextMessage(messages, i, codec, newId);
    NextNames(messages, i, newId);
    GeminiAppend(out, added);
  }

  method ToGeminiContents(messages: seq<Message>, codec: Codec, newId: FreshIds)
    returns (system: Option<string>, out: seq<Content>)
    ensures system == SystemPrompt(messages)
    ensures GeminiTurns(out) == Turns(messages, codec, newId)
    ensures Responses(out) == NamedResults(messages, newId)
  {
    var systemParts: seq<string> := [];
    var names: map<string, string> := map[];
    out := [];
    var i := 0;
    while i < |messages|
      invariant i <= |messages| && Translated(systemParts, out, names, messages[..i], codec, newId)
    {
      var texts, added, after := GeminiOf(messages[i], codec, i, newId, names);
      TranslatedNext(systemParts, out, names, messages, i, codec, newId, added, after);
      systemParts, names, out := systemParts + texts, after, out + added;
      i := i + 1;
    }
    assert messages[..i] == messages;
    system := if systemParts == [] then None else Some(Join(systemParts));
  }

  // ---- names are right exactly when ids are unambiguous within a round -----------------------

  /** The name of the last call with this id. */
  function LastWithId(calls: seq<RawCall>, id: string): (r: Option<string>)
    ensures r.None? <==> forall c :: c in calls ==> !(c.FunctionCall? && c.id == id)
  {
    if calls == [] then None
    else
      var last := calls[|calls| - 1];
      if last.FunctionCall? && last.id == id then Some(last.name) else LastWithId(calls[..|calls| - 1], id)
  }

  /** Generated ids are not empty, and none is an id that a call of this round came with. */
  ghost predicate Unused(newId: FreshIds, calls: seq<RawCall>) {
    && (forall i, k :: newId(i, k) != "")
    && forall i, k, l :: 0 <= l < |calls| && calls[l].FunctionCall? ==> newId(i, k) != calls[l].id
  }

  /** No two calls of one round share an id but not a name, and a call without an id has no name either. */
  predicate Unambiguous(calls: seq<RawCall>) {
    && (forall k, l | 0 <= k < |calls| && 0 <= l < |calls| && calls[k].FunctionCall? && calls[l].FunctionCall? ::
          calls[k].id == calls[l].id ==> calls[k].name == calls[l].name)
    && (forall k | 0 <= k < |calls| && calls[k].FunctionCall? :: calls[k].id == "" ==> calls[k].name == "")
  }

  /** The empty id is never remembered. */
  lemma {:induction false} EmptyIsUnknown(calls: seq<RawCall>, i: nat, newId: FreshIds, known: map<string, string>)
    requires "" !in known && forall i, k :: newId(i, k) != ""
    ensures "" !in NamesOf(calls, i, newId, known)
  {
    if calls != [] {
      EmptyIsUnknown(calls[..|calls| - 1], i, newId, known);
    }
  }

  lemma {:induction false} EmptyIsNeverKnown(messages: seq<Message>, newId: FreshIds)
    requires forall i, k :: newId(i, k) != ""
    ensures "" !in NamesAfter(messages, newId)
  {
    if messages != [] {
      var n := |messages| - 1;
      EmptyIsNeverKnown(messages[..n], newId);
      if messages[n].AssistantDict? {
        EmptyIsUnknown(messages[n].calls, n, newId, NamesAfter(messages[..n], newId));
      }
    }
  }

  lemma {:induction false} NamesOfLookup(calls: seq<RawCall>, i: nat, newId: FreshIds, known: map<string, string>,
                                         id: string)
    requires id != "" && forall k :: newId(i, k) != id
    ensures var last := LastWithId(calls, id);
            NameFor(id, NamesOf(calls, i, newId, known)) == if last.Some? then last.value else NameFor(id, known)
  {
    if calls != [] {
      NamesOfLookup(calls[..|calls| - 1], i, newId, known, id);
    }
  }

  lemma {:induction false} ResultsKeepNames(messages: seq<Message>, p: nat, j: nat, newId: FreshIds)
    requires p < j <= |messages| && forall i :: p < i < j ==> messages[i].ToolDict?
    ensures NamesAfter(messages[..j], newId) == NamesAfter(messages[..p + 1], newId)
  {
    if j > p + 1 {
      NextNames(messages, j - 1, newId);
      ResultsKeepNames(messages, p, j - 1, newId);
    }
  }

  /** The name the translator gives result k of the round that starts at message p. */
  function NameGiven(messages: seq<Message>, p: nat, k: nat, newId: FreshIds): string
    requires p + 1 + k < |messages| && messages[p + 1 + k].ToolDict?
  {
    NameFor(messages[p + 1 + k].callId, NamesAfter(messages[..p + 1 + k], newId))
  }

  /** Result j of a round stands j + 1 messages after its calls, with the id of call j. */
  lemma ResultOfRound(messages: seq<Message>, p: nat, j: nat)
    requires p <= |messages| && StartsWithRound(messages[p..]) && j < |messages[p].calls|
    ensures p + 1 + j < |messages| && messages[p + 1 + j].ToolDict? && messages[p].calls[j].FunctionCall?
    ensures messages[p + 1 + j].callId == messages[p].calls[j].id
  {
    var round := messages[p..];
    assert round[0] == messages[p] && round[1 + j] == messages[p + 1 + j];
    assert round[0].calls[j].FunctionCall?;
  }

  /** A response carries the name of the last call of its own round with its id, and none for a missing id. */
  lemma NameGivenIsLast(messages: seq<Message>, p: nat, k: nat, newId: FreshIds)
    requires p <= |messages| && StartsWithRound(messages[p..]) && k < |messages[p].calls|
    requires Unused(newId, messages[p].calls)
    ensures p + 1 + k < |messages| && messages[p + 1 + k].ToolDict?
    ensures messages[p].calls[k].FunctionCall?
    ensures var id, name := messages[p].calls[k].id, NameGiven(messages, p, k, newId);
            if id == "" then name == "" else LastWithId(messages[p].calls, id) == Some(name)
  {
    var calls := messages[p].calls;
    ResultOfRound(messages, p, k);
    forall i | p < i < p + 1 + k
      ensures messages[i].ToolDict?
    {
      ResultOfRound(messages, p, i - p - 1);
    }
    if calls[k].id == "" {
      EmptyIsNeverKnown(messages[..p + 1 + k], newId);
    } else {
      assert calls[k] in calls;
      ResultsKeepNames(messages, p, p + 1 + k, newId);
      NextNames(messages, p, newId);
      NamesOfLookup(calls, p, newId, NamesAfter(messages[..p], newId), calls[k].id);
    }
  }

  lemma {:induction false} LastWithIdIsOne(calls: seq<RawCall>, id: string) returns (l: nat)
    requires LastWithId(calls, id).Some?
    ensures l < |calls| && calls[l].FunctionCall? && calls[l].id == id && LastWithId(calls, id) == Some(calls[l].name)
  {
    l := |calls| - 1;
    if !(calls[l].FunctionCall? && calls[l].id == id) {
      l := LastWithIdIsOne(calls[..l], id);
    }
  }

  /** The name given to result k is the name of call k. */
  predicate HasLastName(calls: seq<RawCall>, k: nat)
    requires k < |calls|
  {
    && calls[k].FunctionCall?
    && if calls[k].id == "" then calls[k].name == "" else LastWithId(calls, calls[k].id) == Some(calls[k].name)
  }

  /** Result k of the round at p carries the name of call k. */
  predicate NamedRight(messages: seq<Message>, p: nat, k: nat, newId: FreshIds)
    requires p < |messages| && messages[p].AssistantDict? && k < |messages[p].calls|
  {
    && p + 1 + k < |messages| && messages[p + 1 + k].ToolDict? && messages[p].calls[k].FunctionCall?
    && NameGiven(messages, p, k, newId) == messages[p].calls[k].name
  }

  /** Every call is the last word on its id exactly when ids are unambiguous. */
  lemma LastNamesIff(calls: seq<RawCall>)
    requires forall k :: 0 <= k < |calls| ==> calls[k].FunctionCall?
    ensures (forall k :: 0 <= k < |calls| ==> HasLastName(calls, k)) <==> Unambiguous(calls)
  {
    if Unambiguous(calls) {
      forall k | 0 <= k < |calls|
        ensures HasLastName(calls, k)
      {
        assert calls[k] in calls;
        var l := LastWithIdIsOne(calls, calls[k].id);
      }
    }
    if forall k :: 0 <= k < |calls| ==> HasLastName(calls, k) {
      forall k, l | 0 <= k < |calls| && 0 <= l < |calls| && calls[k].FunctionCall? && calls[l].FunctionCall?
        ensures calls[k].id == calls[l].id ==> calls[k].name == calls[l].name
      {
        assert HasLastName(calls, k) && HasLastName(calls, l);
      }
      forall k | 0 <= k < |calls| && calls[k].FunctionCall?
        ensures calls[k].id == "" ==> calls[k].name == ""
      {
        assert HasLastName(calls, k);
      }
    }
  }

  /**
   In a round anywhere in a history, whatever ids earlier rounds used, every function response carries
   the name of its own call exactly when no two calls of that round share an id but not a name, and no
   call that came without an id has a name.
   */
  lemma NamesRightIffUnambiguous(messages: seq<Message>, p: nat, newId: FreshIds)
    requires p <= |messages| && StartsWithRound(messages[p..]) && Unused(newId, messages[p].calls)
    ensures (forall k :: 0 <= k < |messages[p].calls| ==> NamedRight(messages, p, k, newId))
            <==> Unambiguous(messages[p].calls)
  {
    var calls := messages[p].calls;
    forall k: nat | k < |calls|
      ensures calls[k].FunctionCall? && (NamedRight(messages, p, k, newId) <==> HasLastName(calls, k))
    {
      NameGivenIsLast(messages, p, k, newId);
    }
    LastNamesIff(calls);
  }

  /** A round of two calls with one id: both responses get the name of the second call. */
  lemma WrongName(newId: FreshIds)
    requires forall i, k :: newId(i, k) != "" && newId(i, k) != "c"
    ensures var calls := [FunctionCall("c", "search", ArgOther, None), FunctionCall("c", "fetch", ArgOther, None)];
            var messages := [AssistantDict(None, calls), ToolDict("c", "found"), ToolDict("c", "fetched")];
            !NamedRight(messages, 0, 0, newId) && NamedRight(messages, 0, 1, newId)
  {
    var calls := [FunctionCall("c", "search", ArgOther, None), FunctionCall("c", "fetch", ArgOther, None)];
    var messages := [AssistantDict(None, calls), ToolDict("c", "found"), ToolDict("c", "fetched")];
    assert messages[0..] == messages;
    NameGivenIsLast(messages, 0, 0, newId);
    NameGivenIsLast(messages, 0, 1, newId);
    assert LastWithId(calls, "c") == Some("fetch");
  }
}

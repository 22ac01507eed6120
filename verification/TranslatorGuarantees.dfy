/** When the translations mean what the source meant, and what that means for a tool loop's history. */
module TranslatorGuarantees {
  import opened Wrappers
  import opened JsonValues
  import opened ToolHistory
  import opened Translators

  predicate HaveIds(calls: seq<RawCall>) {
    forall k :: 0 <= k < |calls| && calls[k].FunctionCall? ==> calls[k].id != ""
  }

  /** Every function call of the history came with an id. */
  predicate NoMissingIds(messages: seq<Message>) {
    forall i :: 0 <= i < |messages| && messages[i].AssistantDict? ==> HaveIds(messages[i].calls)
  }

  ghost predicate NeverEmpty(newId: FreshIds) {
    forall i, k :: newId(i, k) != ""
  }

  lemma {:induction false} CallItemsIff(calls: seq<RawCall>, codec: Codec, i: nat, newId: FreshIds)
    requires NeverEmpty(newId)
    ensures |CallItems(calls, codec, i, newId)| == |CallItems(calls, codec, i, NoId)|
    ensures CallItems(calls, codec, i, newId) == CallItems(calls, codec, i, NoId) <==> HaveIds(calls)
  {
    if calls != [] {
      var n := |calls| - 1;
      CallItemsIff(calls[..n], codec, i, newId);
      assert HaveIds(calls) <==> HaveIds(calls[..n]) && (calls[n].FunctionCall? ==> calls[n].id != "");
      if calls[n].NotAFunction? {
        SameEnds(CallItems(calls[..n], codec, i, newId), CallItems(calls[..n], codec, i, NoId), [], []);
      } else {
        var args := ParseArguments(calls[n].arguments, codec);
        SameEnds(CallItems(calls[..n], codec, i, newId), CallItems(calls[..n], codec, i, NoId),
                 [Called(IdOr(calls[n].id, newId(i, n)), calls[n].name, args)],
                 [Called(calls[n].id, calls[n].name, args)]);
      }
    }
  }

  lemma SameEnds<T>(a: seq<T>, b: seq<T>, x: seq<T>, y: seq<T>)
    requires |a| == |b|
    ensures a + x == b + y <==> a == b && x == y
  {
    if a + x == b + y {
      assert a == (a + x)[..|a|] && b == (b + y)[..|b|];
      assert x == (a + x)[|a|..] && y == (b + y)[|b|..];
    }
  }

  lemma TurnsOfIff(m: Message, codec: Codec, i: nat, newId: FreshIds)
    requires NeverEmpty(newId)
    ensures |TurnsOf(m, codec, i, newId)| == |TurnsOf(m, codec, i, NoId)|
    ensures TurnsOf(m, codec, i, newId) == TurnsOf(m, codec, i, NoId) <==> m.AssistantDict? ==> HaveIds(m.calls)
  {
    if m.AssistantDict? && m.calls != [] {
      CallItemsIff(m.calls, codec, i, newId);
      var a, b := CallItems(m.calls, codec, i, newId), CallItems(m.calls, codec, i, NoId);
      SameEnds(Opening(m.content), Opening(m.content), a, b);
    }
  }

  /** A translation keeps the meaning of a history exactly when no function call lacks an id. */
  lemma {:induction false} MeaningKeptIff(messages: seq<Message>, codec: Codec, newId: FreshIds)
    requires NeverEmpty(newId)
    ensures |Turns(messages, codec, newId)| == |Meaning(messages, codec)|
    ensures Turns(messages, codec, newId) == Meaning(messages, codec) <==> NoMissingIds(messages)
  {
    if messages != [] {
      var n := |messages| - 1;
      MeaningKeptIff(messages[..n], codec, newId);
      TurnsOfIff(messages[n], codec, n, newId);
      assert NoMissingIds(messages) <==>
             NoMissingIds(messages[..n]) && (messages[n].AssistantDict? ==> HaveIds(messages[n].calls));
      SameEnds(Turns(messages[..n], codec, newId), Meaning(messages[..n], codec),
               TurnsOf(messages[n], codec, n, newId), TurnsOf(messages[n], codec, n, NoId));
    }
  }

  /** The calls as their issuer gave them. */
  function Issued(calls: seq<ToolCall>): (items: seq<Item>)
    ensures |items| == |calls|
    ensures forall k :: 0 <= k < |calls| ==> items[k] == Called(calls[k].id, calls[k].name, calls[k].arguments)
  {
    if calls == [] then []
    else
      var c := calls[|calls| - 1];
      Issued(calls[..|calls| - 1]) + [Called(c.id, c.name, c.arguments)]
  }

  predicate ProperCalls(calls: seq<ToolCall>) {
    forall k :: 0 <= k < |calls| ==> calls[k].id != "" && calls[k].arguments.Obj?
  }

  lemma {:induction false} IssuedSurvive(calls: seq<ToolCall>, raw: seq<RawCall>, codec: Codec, i: nat, newId: FreshIds)
    requires codec.Lawful() && ProperCalls(calls) && |raw| == |calls|
    requires forall k :: 0 <= k < |calls| ==>
               var c := calls[k]; raw[k] == FunctionCall(c.id, c.name, ArgText(codec.dumps(c.arguments)), c.signature)
    ensures CallItems(raw, codec, i, newId) == Issued(calls)
  {
    if calls != [] {
      var n := |calls| - 1;
      IssuedSurvive(calls[..n], raw[..n], codec, i, newId);
      assert codec.loads(codec.dumps(calls[n].arguments)) == Some(calls[n].arguments);
    }
  }

  /**
   The calls a model issued come back to it, through the loop's history and either translation, with the
   ids, names and arguments it gave them, after the text it said with them.
   */
  lemma IssuedCallsComeBack(c: Completion, codec: Codec, i: nat, newId: FreshIds)
    requires codec.Lawful() && c.calls != [] && ProperCalls(c.calls)
    ensures TurnsOf(AssistantMessage(c, codec), codec, i, newId) ==
              [Turn(Assistant, (if c.content.GetOr("") != "" then [Said(c.content.value)] else []) + Issued(c.calls))]
  {
    IssuedSurvive(c.calls, RawCalls(c.calls, codec), codec, i, newId);
  }

  /** A call that came without an id is translated with one that its source does not have. */
  lemma MissingId(codec: Codec, newId: FreshIds)
    requires NeverEmpty(newId)
    ensures var messages := [AssistantDict(None, [FunctionCall("", "search", ArgOther, None)])];
            Turns(messages, codec, newId) != Meaning(messages, codec)
  {
    var messages := [AssistantDict(None, [FunctionCall("", "search", ArgOther, None)])];
    var calls := messages[0].calls;
    assert calls[0].FunctionCall? && calls[0].id == "" && !HaveIds(calls);
    MeaningKeptIff(messages, codec, newId);
  }
}

/**
 Chat progress over newline-delimited JSON: the server's generator
 (backend-python/app/routers/chat.py:99-134) and the client's incremental line buffer
 (frontend/src/api/chatClient.ts:164-188). The network may cut the text anywhere.
 */
module NdjsonProgress {
  import opened Wrappers

  type Response = string

  /** White space as `String.trim` sees it. */
  predicate IsSpace(c: char): (space: bool)
    ensures c < '\U{0080}' ==> (space <==> c in {' ', '\t', '\n', '\r', '\U{000B}', '\U{000C}'})
  {
    || '\t' <= c <= '\r' || '\U{2000}' <= c <= '\U{200A}'
    || c in {' ', '\U{00A0}', '\U{1680}', '\U{2028}', '\U{2029}', '\U{202F}', '\U{205F}', '\U{3000}', '\U{FEFF}'}
  }

  predicate IsBlank(s: string) {
    forall c :: c in s ==> IsSpace(c)
  }

  /** A line, parsed: what the client acts on, or anything else. */
  datatype Frame = Activity(phase: string) | Complete(response: Response) | Other

  /**
   `render` writes a frame on one line; `parse` reads a line or throws (`None`). The client ignores an
   empty phase.
   */
  datatype Wire = Wire(render: Frame -> string, parse: string -> Option<Frame>) {
    ghost predicate Lawful() {
      forall f: Frame :: !f.Other? && f != Activity("") ==>
        '\n' !in render(f) && !IsBlank(render(f)) && parse(render(f)) == Some(f)
    }
  }

  // ---- lines ---------------------------------------------------------------------

  /** What follows the last newline. */
  function Unfinished(text: string): string {
    if text == "" || text[|text| - 1] == '\n' then ""
    else Unfinished(text[..|text| - 1]) + [text[|text| - 1]]
  }

  /** The newline-terminated lines of a text: a newline ends what was unfinished before it. */
  function Lines(text: string): seq<string> {
    if text == "" then []
    else
      var before := text[..|text| - 1];
      if text[|text| - 1] == '\n' then Lines(before) + [Unfinished(before)] else Lines(before)
  }

  /** The lines, each with its newline. */
  function Terminated(lines: seq<string>): string {
    if lines == [] then "" else Terminated(lines[..|lines| - 1]) + lines[|lines| - 1] + "\n"
  }

  /** Lines and what is left over make up the text, and neither has a newline inside: this is splitting at newlines. */
  lemma {:induction false} LinesRejoin(text: string)
    ensures Terminated(Lines(text)) + Unfinished(text) == text
    ensures '\n' !in Unfinished(text)
    ensures forall l :: l in Lines(text) ==> '\n' !in l
  {
    if text != "" {
      var before, last := text[..|text| - 1], text[|text| - 1];
      LinesRejoin(before);
      assert text == before + [last];
      if last == '\n' {
        assert Lines(text)[..|Lines(text)| - 1] == Lines(before);
      }
    }
  }

  lemma {:induction false} LineWhole(line: string)
    requires '\n' !in line
    ensures Lines(line) == [] && Unfinished(line) == line
    ensures Lines(line + "\n") == [line] && Unfinished(line + "\n") == ""
  {
    if line != "" {
      LineWhole(line[..|line| - 1]);
    }
    assert (line + "\n")[..|line|] == line;
  }

  /** Cutting a text anywhere changes no line: keeping the unfinished part and going on gives the same lines. */
  lemma {:induction false} LinesSplit(a: string, b: string)
    ensures Lines(a + b) == Lines(a) + Lines(Unfinished(a) + b)
    ensures Unfinished(a + b) == Unfinished(Unfinished(a) + b)
    decreases |b|
  {
    if b == "" {
      LinesRejoin(a);
      LineWhole(Unfinished(a));
      assert a + b == a && Unfinished(a) + b == Unfinished(a);
    } else {
      var before, rest := b[..|b| - 1], Unfinished(a);
      LinesSplit(a, before);
      assert (a + b)[..|a + b| - 1] == a + before && (rest + b)[..|rest + b| - 1] == rest + before;
    }
  }

  // ---- the client ------------------------------------------------------------------

  datatype End = Open | Returned(response: Response) | Threw

  /** What handling a list of lines does: the phases reported, and how it ended. */
  datatype Handled = Handled(phases: seq<string>, end: End)

  function Handle(lines: seq<string>, wire: Wire): Handled {
    if lines == [] then Handled([], Open)
    else if IsBlank(lines[0]) then Handle(lines[1..], wire)
    else
      match wire.parse(lines[0])
      case None => Handled([], Threw)
      case Some(Complete(r)) => Handled([], Returned(r))
      case Some(Other) => Handle(lines[1..], wire)
      case Some(Activity(p)) => var rest := Handle(lines[1..], wire); Handled([p] + rest.phases, rest.end)
  }

  lemma {:induction false} HandleConcat(a: seq<string>, b: seq<string>, wire: Wire)
    ensures var x, y := Handle(a, wire), Handle(b, wire);
            Handle(a + b, wire) == if x.end.Open? then Handled(x.phases + y.phases, y.end) else x
  {
    if a == [] {
      assert a + b == b;
    } else {
      assert (a + b)[1..] == a[1..] + b;
      HandleConcat(a[1..], b, wire);
    }
  }

  function Flatten(chunks: seq<string>): string {
    if chunks == [] then "" else Flatten(chunks[..|chunks| - 1]) + chunks[|chunks| - 1]
  }

  lemma {:induction false} FlattenSplit(chunks: seq<string>, i: nat) returns (rest: string)
    requires i <= |chunks|
    ensures Flatten(chunks) == Flatten(chunks[..i]) + rest
  {
    if i == |chunks| {
      assert chunks[..i] == chunks;
      rest := "";
    } else {
      assert chunks[..|chunks| - 1][..i] == chunks[..i];
      var before := FlattenSplit(chunks[..|chunks| - 1], i);
      rest := before + chunks[|chunks| - 1];
    }
  }

  datatype ClientError = NoCompletion | BadFrame

  function Verdict(end: End): Result<Response, ClientError> {
    match end
    case Open => Err(NoCompletion)
    case Returned(r) => Ok(r)
    case Threw => Err(BadFrame)
  }

  /** One more handled line. */
  lemma HandleOne(before: seq<string>, line: string, wire: Wire)
    requires Handle(before, wire).end.Open?
    ensures var x := Handle(before, wire);
            Handle(before + [line], wire) ==
              if IsBlank(line) then x
              else match wire.parse(line)
                   case None => Handled(x.phases, Threw)
                   case Some(Complete(r)) => Handled(x.phases, Returned(r))
                   case Some(Other) => x
                   case Some(Activity(p)) => Handled(x.phases + [p], Open)
  {
    HandleConcat(before, [line], wire);
    assert [line][1..] == [];
    assert Handle(before, wire).phases + [] == Handle(before, wire).phases;
  }

  /** A line that does not parse ends the exchange in an error, after the phases of the lines before it. */
  lemma BadLineThrows(before: seq<string>, line: string, after: seq<string>, wire: Wire)
    requires Handle(before, wire).end.Open? && !IsBlank(line) && wire.parse(line).None?
    ensures var x := Handle(before + [line] + after, wire);
            x.phases == Handle(before, wire).phases && Verdict(x.end) == Err(BadFrame)
  {
    HandleOne(before, line, wire);
    HandleConcat(before + [line], after, wire);
  }

  /** Once the text so far has ended the exchange, later text changes nothing. */
  lemma EndsEarly(chunks: seq<string>, i: nat, wire: Wire)
    requires i <= |chunks| && !Handle(Lines(Flatten(chunks[..i])), wire).end.Open?
    ensures Handle(Lines(Flatten(chunks)), wire) == Handle(Lines(Flatten(chunks[..i])), wire)
  {
    var rest := FlattenSplit(chunks, i);
    var text := Flatten(chunks[..i]);
    LinesSplit(text, rest);
    HandleConcat(Lines(text), Lines(Unfinished(text) + rest), wire);
  }

  /** One more chunk: its whole lines, the first of them completed by the buffer, are handled next. */
  lemma NextChunk(chunks: seq<string>, i: nat, wire: Wire)
    requires i < |chunks| && Handle(Lines(Flatten(chunks[..i])), wire).end.Open?
    ensures var buffer := Unfinished(Flatten(chunks[..i])) + chunks[i];
            && Unfinished(Flatten(chunks[..i + 1])) == Unfinished(buffer)
            && var x, y := Handle(Lines(Flatten(chunks[..i])), wire), Handle(Lines(buffer), wire);
               Handle(Lines(Flatten(chunks[..i + 1])), wire) == Handled(x.phases + y.phases, y.end)
  {
    assert chunks[..i + 1][..i] == chunks[..i];
    var text := Flatten(chunks[..i]);
    LinesSplit(text, chunks[i]);
    HandleConcat(Lines(text), Lines(Unfinished(text) + chunks[i]), wire);
  }

  /** Handle the whole lines of one chunk, up to the first that ends the exchange. */
  method HandleLines(lines: seq<string>, wire: Wire) returns (phases: seq<string>, end: End)
    ensures Handled(phases, end) == Handle(lines, wire)
  {
    phases := [];
    var k := 0;
    while k < |lines|
      invariant k <= |lines|
      invariant Handle(lines[..k], wire) == Handled(phases, Open)
    {
      HandleOne(lines[..k], lines[k], wire);
      assert lines[..k] + [lines[k]] == lines[..k + 1];
      HandleConcat(lines[..k + 1], lines[k + 1..], wire);
      assert lines[..k + 1] + lines[k + 1..] == lines;
      if !IsBlank(lines[k]) {
        var frame := wire.parse(lines[k]);
        if frame.None? {
          return phases, Threw;
        }
        if frame.value.Activity? {
          phases := phases + [frame.value.phase];
        } else if frame.value.Complete? {
          return phases, Returned(frame.value.response);
        }
      }
      k := k + 1;
    }
    assert lines[..k] == lines;
    end := Open;
  }

  /** The client's read loop handles exactly the lines of the whole text, however it was cut into chunks. */
  method SendChatWithProgress(chunks: seq<string>, wire: Wire)
    returns (phases: seq<string>, result: Result<Response, ClientError>)
    ensures phases == Handle(Lines(Flatten(chunks)), wire).phases
    ensures result == Verdict(Handle(Lines(Flatten(chunks)), wire).end)
  {
    phases := [];
    var buffer := "";
    var i := 0;
    while i < |chunks|
      invariant i <= |chunks|
      invariant buffer == Unfinished(Flatten(chunks[..i]))
      invariant Handle(Lines(Flatten(chunks[..i])), wire) == Handled(phases, Open)
    {
      NextChunk(chunks, i, wire);
      buffer := buffer + chunks[i];
      var reported, end := HandleLines(Lines(buffer), wire);
      phases := phases + reported;
      buffer := Unfinished(buffer);
      i := i + 1;
      if !end.Open? {
        EndsEarly(chunks, i, wire);
        return phases, Verdict(end);
      }
    }
    assert chunks[..i] == chunks;
    result := Err(NoCompletion);
  }

  // ---- the server --------------------------------------------------------------------

  /** What the chat task puts on the queue. */
  datatype Event = OnActivity(phase: string) | OnComplete(response: Response) | OnError

  function ServerText(phases: seq<string>, wire: Wire): string {
    if phases == [] then ""
    else ServerText(phases[..|phases| - 1], wire) + wire.render(Activity(phases[|phases| - 1])) + "\n"
  }

  function PhasesOf(events: seq<Event>): (r: seq<string>)
    ensures |r| <= |events| && (|r| < |events| ==> !events[|r|].OnActivity?)
    ensures forall i :: 0 <= i < |r| ==> events[i] == OnActivity(r[i])
  {
    if events == [] || !events[0].OnActivity? then [] else [events[0].phase] + PhasesOf(events[1..])
  }

  lemma NextPhase(events: seq<Event>, i: nat)
    requires i < |events| && i <= |PhasesOf(events)| && events[i].OnActivity?
    requires PhasesOf(events[i..]) == PhasesOf(events)[i..]
    ensures i < |PhasesOf(events)| && PhasesOf(events)[i] == events[i].phase
    ensures PhasesOf(events[i + 1..]) == PhasesOf(events)[i + 1..]
  {
    var phases, rest := PhasesOf(events), events[i..];
    assert rest[1..] == events[i + 1..];
    assert phases[i..] == [events[i].phase] + PhasesOf(events[i + 1..]);
    assert phases[i] == phases[i..][0] && phases[i + 1..] == phases[i..][1..];
  }

  lemma NextLine(phases: seq<string>, i: nat, wire: Wire)
    requires i < |phases|
    ensures ServerText(phases[..i + 1], wire) == ServerText(phases[..i], wire) + wire.render(Activity(phases[i])) + "\n"
  {
    assert phases[..i + 1][..i] == phases[..i];
  }

  /** The phases before the first other event, a line each, and where they end. */
  method StreamActivities(events: seq<Event>, wire: Wire) returns (text: string, i: nat)
    ensures i == |PhasesOf(events)| && text == ServerText(PhasesOf(events), wire)
  {
    text := "";
    ghost var phases := PhasesOf(events);
    i := 0;
    while i < |events| && events[i].OnActivity?
      invariant i <= |events| && i <= |phases| && PhasesOf(events[i..]) == phases[i..]
      invariant text == ServerText(phases[..i], wire)
    {
      NextPhase(events, i);
      NextLine(phases, i, wire);
      text := text + wire.render(Activity(events[i].phase)) + "\n";
      i := i + 1;
    }
    assert phases[i..] == [];
    assert phases[..i] == phases;
  }

  /** Drain the queue: a line per activity, a last line for the response, or the task's error. */
  method StreamNdjson(events: seq<Event>, wire: Wire) returns (text: string, raised: bool)
    ensures var phases := PhasesOf(events);
            && raised == (|phases| == |events| || events[|phases|].OnError?)
            && text == ServerText(phases, wire) +
                 if raised then "" else wire.render(Complete(events[|phases|].response)) + "\n"
  {
    var i;
    text, i := StreamActivities(events, wire);
    raised := i == |events| || events[i].OnError?;
    if !raised {
      text := text + (wire.render(Complete(events[i].response)) + "\n");
    } else {
      assert text + "" == text;
    }
  }

  // ---- both ends together ----------------------------------------------------------

  predicate Named(phases: seq<string>) {
    forall i :: 0 <= i < |phases| ==> phases[i] != ""
  }

  /** A whole line written after whole lines. */
  lemma LineAdded(before: string, line: string)
    requires Unfinished(before) == "" && '\n' !in line
    ensures Lines(before + (line + "\n")) == Lines(before) + [line]
    ensures Unfinished(before + (line + "\n")) == ""
  {
    LineWhole(line);
    LinesSplit(before, line + "\n");
    assert "" + (line + "\n") == line + "\n";
  }

  lemma {:induction false} ActivityLines(phases: seq<string>, wire: Wire)
    requires wire.Lawful() && Named(phases)
    ensures Unfinished(ServerText(phases, wire)) == ""
    ensures Handle(Lines(ServerText(phases, wire)), wire) == Handled(phases, Open)
  {
    if phases != [] {
      var n := |phases| - 1;
      var before, line := ServerText(phases[..n], wire), wire.render(Activity(phases[n]));
      ActivityLines(phases[..n], wire);
      assert before + line + "\n" == before + (line + "\n");
      LineAdded(before, line);
      HandleOne(Lines(before), line, wire);
      assert phases[..n] + [phases[n]] == phases;
    }
  }

  /** A successful run arrives whole, however the network cuts it: the same phases in order, the same response. */
  lemma SuccessRoundTrips(phases: seq<string>, response: Response, wire: Wire)
    requires wire.Lawful() && Named(phases)
    ensures var text := ServerText(phases, wire) + (wire.render(Complete(response)) + "\n");
            && Handle(Lines(text), wire) == Handled(phases, Returned(response))
            && Verdict(Handle(Lines(text), wire).end) == Ok(response)
  {
    var before, line := ServerText(phases, wire), wire.render(Complete(response));
    ActivityLines(phases, wire);
    LineAdded(before, line);
    HandleOne(Lines(before), line, wire);
  }

  /** Cutting inside the first part of a text, and inside the second. */
  lemma CutBefore(before: string, more: string, cut: nat)
    requires cut <= |before|
    ensures (before + more)[..cut] == before[..cut]
  {
  }

  lemma CutAfter(before: string, more: string, k: nat)
    requires k <= |more|
    ensures (before + more)[..|before| + k] == before + more[..k]
  {
  }

  /** The start of a line written after whole lines is no line yet. */
  lemma PartAdded(before: string, part: string)
    requires Unfinished(before) == "" && '\n' !in part
    ensures Lines(before + part) == Lines(before)
  {
    LinesSplit(before, part);
    LineWhole(part);
    assert "" + part == part;
    assert Lines(before) + [] == Lines(before);
  }

  lemma CutInLine(before: string, line: string, k: nat)
    requires Unfinished(before) == "" && '\n' !in line && k <= |line|
    ensures Lines((before + (line + "\n"))[..|before| + k]) == Lines(before)
  {
    CutAfter(before, line + "\n", k);
    CutBefore(line, "\n", k);
    PartAdded(before, line[..k]);
  }

  /** A run cut short before its last newline reports a prefix of the phases, and no response. */
  lemma TruncationIsAPrefix(phases: seq<string>, response: Response, wire: Wire, cut: nat)
    requires wire.Lawful() && Named(phases)
    requires cut < |ServerText(phases, wire) + (wire.render(Complete(response)) + "\n")|
    ensures var text := ServerText(phases, wire) + (wire.render(Complete(response)) + "\n");
            var seen := Handle(Lines(text[..cut]), wire);
            seen.phases <= phases && Verdict(seen.end) == Err(NoCompletion)
  {
    var before, line := ServerText(phases, wire), wire.render(Complete(response));
    if cut < |before| {
      CutBefore(before, line + "\n", cut);
      CutInActivities(phases, wire, cut);
    } else {
      ActivityLines(phases, wire);
      CutInLine(before, line, cut - |before|);
    }
  }

  lemma {:induction false} CutInActivities(phases: seq<string>, wire: Wire, cut: nat)
    requires wire.Lawful() && Named(phases) && cut < |ServerText(phases, wire)|
    ensures var seen := Handle(Lines(ServerText(phases, wire)[..cut]), wire); seen.phases <= phases && seen.end.Open?
  {
    var n := |phases| - 1;
    var before, line := ServerText(phases[..n], wire), wire.render(Activity(phases[n]));
    assert ServerText(phases, wire) == before + (line + "\n");
    if cut < |before| {
      CutBefore(before, line + "\n", cut);
      CutInActivities(phases[..n], wire, cut);
    } else {
      ActivityLines(phases[..n], wire);
      CutInLine(before, line, cut - |before|);
    }
  }
}

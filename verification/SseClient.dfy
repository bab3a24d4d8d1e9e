/**
 The streaming client: the buffer loop and final flush of `chat_stream`
 (rs-llmctl-client/src/client.rs) and `decode_sse_event`
 (rs-llmctl-client/src/transport.rs).  `parse` stands for `serde_json::from_str`.
 */
module SseClient {
  import opened Wrappers
  import opened Text
  import opened SseFrames

  type Parse<!C, !E> = string -> Result<C, E>

  /** The chunks a stream has yielded, and the error that ended it, if any. */
  datatype Outcome<C, E> = Outcome(yielded: seq<C>, failure: Option<E>)

  // ------------------------------------------------------------ one event

  function DataLines(lines: seq<string>): seq<string> {
    if lines == [] then []
    else
      var stripped := StripPrefix(lines[0], "data:");
      (if stripped.Some? then [TrimStart(stripped.value)] else []) + DataLines(lines[1..])
  }

  function JoinedBy(parts: seq<string>, separator: string): string {
    if parts == [] then "" else if |parts| == 1 then parts[0] else parts[0] + separator + JoinedBy(parts[1..], separator)
  }

  function EventData(event: string): string {
    JoinedBy(DataLines(Lines(event)), "\n")
  }

  function DecodeSseEvent<C, E>(parse: Parse<C, E>, event: string): Result<Option<C>, E> {
    var data := EventData(event);
    if data == "" || data == "[DONE]" then Ok(None)
    else
      match parse(data)
      case Ok(c) => Ok(Some(c))
      case Err(e) => Err(e)
  }

  // ------------------------------------------------------------ many events

  /** Decoding stops for good at the first error. */
  function DecodeAll<C, E>(parse: Parse<C, E>, events: seq<string>): Outcome<C, E> {
    if events == [] then Outcome([], None)
    else Then(Decoded(parse, events[0]), DecodeAll(parse, events[1..]))
  }

  function Decoded<C, E>(parse: Parse<C, E>, event: string): Outcome<C, E> {
    match DecodeSseEvent(parse, event)
    case Err(e) => Outcome([], Some(e))
    case Ok(None) => Outcome([], None)
    case Ok(Some(c)) => Outcome([c], None)
  }

  function Then<C, E>(first: Outcome<C, E>, second: Outcome<C, E>): Outcome<C, E> {
    if first.failure.Some? then first else Outcome(first.yielded + second.yielded, second.failure)
  }

  /**
   What a response body means: its frames in order, then the failure that cut the
   transport short or, at a proper end, whatever is left unless it is blank.
   */
  function Streamed<C, E>(parse: Parse<C, E>, text: string, broken: Option<E>): Outcome<C, E> {
    var cut := Drain(text);
    var events := DecodeAll(parse, cut.frames);
    if broken.Some? then Then(events, Outcome([], broken))
    else if Trim(cut.rest) == "" then events
    else Then(events, Decoded(parse, cut.rest))
  }

  // ---------------------------------------------------------- the network's view

  /** The text that arrives before the transport fails; `Err` is a failed read or a cut character. */
  function TextBefore<E>(chunks: seq<Result<string, E>>): string {
    if chunks == [] || chunks[0].Err? then "" else chunks[0].value + TextBefore(chunks[1..])
  }

  function Broken<E>(chunks: seq<Result<string, E>>): Option<E> {
    if chunks == [] then None
    else if chunks[0].Err? then Some(chunks[0].error)
    else Broken(chunks[1..])
  }

  /** The body of the stream: an outer loop over chunks, an inner one over frames. */
  method ChatStream<C, E>(parse: Parse<C, E>, chunks: seq<Result<string, E>>) returns (yielded: seq<C>, failure: Option<E>)
    ensures Outcome(yielded, failure) == Streamed(parse, TextBefore(chunks), Broken(chunks))
  {
    hide Streamed, Then;
    var buffer := "";
    yielded := [];
    var i := 0;
    ghost var so: Outcome<C, E> := Outcome([], None);
    StreamStarts(parse, TextBefore(chunks), Broken(chunks));
    while i < |chunks|
      invariant 0 <= i <= |chunks|
      invariant so == Outcome(yielded, None) && Drain(buffer).frames == []
      invariant Streamed(parse, TextBefore(chunks), Broken(chunks))
             == Then(so, Streamed(parse, buffer + TextBefore(chunks[i..]), Broken(chunks[i..])))
    {
      var chunk := chunks[i];
      ghost var later := chunks[i + 1..];
      assert chunks[i..][0] == chunk && chunks[i..][1..] == later;
      if chunk.Err? {
        StreamBreaks(parse, so, buffer, chunk.error);
        return yielded, Some(chunk.error);
      }
      assert (buffer + chunk.value) + TextBefore(later) == buffer + (chunk.value + TextBefore(later));
      buffer := buffer + chunk.value;
      var events: seq<C>;
      buffer, events, failure := DrainEvents(parse, buffer, TextBefore(later), Broken(later), so);
      yielded := yielded + events;
      if failure.Some? {
        ThenStops(Outcome(yielded, failure), Streamed(parse, buffer + TextBefore(later), Broken(later)));
        return;
      }
      so := Outcome(yielded, None);
      i := i + 1;
    }
    assert chunks[i..] == [];
    StreamEnds(parse, so, buffer);
    FlushIs(parse, so, buffer);
    failure := None;
    if Trim(buffer) != "" {
      var last := DecodeSseEvent(parse, buffer);
      match last {
        case Err(e) => failure := Some(e);
        case Ok(None) =>
        case Ok(Some(c)) => yielded := yielded + [c];
      }
    }
  }

  /** The inner loop; `later` and `broken` are what is still to come. */
  method DrainEvents<C, E>(parse: Parse<C, E>, text: string, ghost later: string, ghost broken: Option<E>, ghost so: Outcome<C, E>)
    returns (buffer: string, events: seq<C>, failure: Option<E>)
    requires so.failure.None?
    ensures failure.None? ==> Drain(buffer).frames == []
    ensures Then(so, Streamed(parse, text + later, broken)) ==
      Then(Outcome(so.yielded + events, failure), Streamed(parse, buffer + later, broken))
  {
    hide Streamed;
    buffer, events, failure := text, [], None;
    while true
      invariant failure.None?
      invariant Then(so, Streamed(parse, text + later, broken)) ==
        Then(Outcome(so.yielded + events, None), Streamed(parse, buffer + later, broken))
      decreases |buffer|
    {
      var index := Find(buffer, BLANK_LINE);
      if index.None? {
        break;
      }
      StreamStep(parse, buffer, later, broken, index.value);
      var event := buffer[..index.value];
      buffer := buffer[index.value + 2..];
      var decoded := DecodeSseEvent(parse, event);
      match decoded {
        case Err(e) =>
          failure := Some(e);
          return;
        case Ok(None) =>
        case Ok(Some(c)) =>
          events := events + [c];
      }
    }
  }

  // ---------------------------------------------------------------- loop lemmas

  lemma StreamStarts<C, E>(parse: Parse<C, E>, text: string, broken: Option<E>)
    ensures Streamed(parse, text, broken) == Then(Outcome([], None), Streamed(parse, "" + text, broken))
  {
    assert "" + text == text;
  }

  lemma StreamBreaks<C, E>(parse: Parse<C, E>, so: Outcome<C, E>, buffer: string, error: E)
    requires so.failure.None? && Drain(buffer).frames == []
    ensures Then(so, Streamed(parse, buffer + "", Some(error))) == Outcome(so.yielded, Some(error))
  {
    assert buffer + "" == buffer;
  }

  lemma StreamEnds<C, E>(parse: Parse<C, E>, so: Outcome<C, E>, buffer: string)
    requires so.failure.None? && Drain(buffer).frames == []
    ensures Then(so, Streamed(parse, buffer + "", None)) == if Trim(buffer) == "" then so else Then(so, Decoded(parse, buffer))
  {
    assert buffer + "" == buffer;
  }

  lemma FlushIs<C, E>(parse: Parse<C, E>, so: Outcome<C, E>, buffer: string)
    requires so.failure.None?
    ensures Then(so, Decoded(parse, buffer)) ==
      match DecodeSseEvent(parse, buffer)
      case Err(e) => Outcome(so.yielded, Some(e))
      case Ok(None) => so
      case Ok(Some(c)) => Outcome(so.yielded + [c], None)
  {
  }

  lemma StreamStep<C, E>(parse: Parse<C, E>, buffer: string, later: string, broken: Option<E>, i: nat)
    requires Find(buffer, BLANK_LINE) == Some(i)
    ensures i + 2 <= |buffer|
    ensures Streamed(parse, buffer + later, broken) == Then(Decoded(parse, buffer[..i]), Streamed(parse, buffer[i + 2..] + later, broken))
  {
    hide Find, Drain, DecodeSseEvent;
    DrainStep(buffer, i);
    FindExtends(buffer, later, BLANK_LINE);
    DrainStep(buffer + later, i);
    assert (buffer + later)[..i] == buffer[..i] && (buffer + later)[i + 2..] == buffer[i + 2..] + later;
  }

  lemma ThenStops<C, E>(first: Outcome<C, E>, second: Outcome<C, E>)
    requires first.failure.Some?
    ensures Then(first, second) == first
  {
  }

  // -------------------------------------------------------- chunking invariance

  function Arrived<E>(pieces: seq<string>): seq<Result<string, E>> {
    seq(|pieces|, i requires 0 <= i < |pieces| => Ok(pieces[i]))
  }

  lemma {:induction false} ArrivedText<E>(pieces: seq<string>)
    ensures TextBefore(Arrived<E>(pieces)) == Concat(pieces) && Broken(Arrived<E>(pieces)) == None
    decreases |pieces|
  {
    if pieces != [] {
      ArrivedText<E>(pieces[1..]);
      assert Arrived<E>(pieces)[1..] == Arrived<E>(pieces[1..]);
      ConcatFirst(pieces);
    }
  }

  /**
   MAIN: what `ChatStream` yields depends on the text alone, not on the pieces it
   arrives in: same chunks, same first error, same final flush.
   */
  lemma ClientChunkingInvariance<C, E>(parse: Parse<C, E>, pieces: seq<string>, pieces': seq<string>)
    requires Concat(pieces) == Concat(pieces')
    ensures Streamed(parse, TextBefore(Arrived<E>(pieces)), Broken(Arrived<E>(pieces)))
         == Streamed(parse, TextBefore(Arrived<E>(pieces')), Broken(Arrived<E>(pieces')))
         == Streamed(parse, Concat(pieces), None)
  {
    ArrivedText<E>(pieces);
    ArrivedText<E>(pieces');
  }

  /** A transport failure loses only what came after it. */
  lemma {:induction false} FailureKeepsPrefix<C, E>(parse: Parse<C, E>, text: string, more: string, e: E)
    ensures Streamed(parse, text, Some(e)).yielded <= DecodeAll(parse, Drain(text + more).frames).yielded
    decreases |text|
  {
    DrainConcat(text, more);
    var frames, more' := Drain(text).frames, Drain(Drain(text).rest + more).frames;
    DecodeInTurn(parse, frames, more');
    hide Drain, DecodeAll;
  }

  lemma {:induction false} DecodeInTurn<C, E>(parse: Parse<C, E>, first: seq<string>, second: seq<string>)
    ensures DecodeAll(parse, first + second) == Then(DecodeAll(parse, first), DecodeAll(parse, second))
    decreases |first|
  {
    hide Decoded;
    if first == [] {
      assert first + second == second;
    } else {
      assert (first + second)[1..] == first[1..] + second;
      DecodeInTurn(parse, first[1..], second);
      ThenAssociates(Decoded(parse, first[0]), DecodeAll(parse, first[1..]), DecodeAll(parse, second));
    }
  }

  lemma ThenAssociates<C, E>(a: Outcome<C, E>, b: Outcome<C, E>, c: Outcome<C, E>)
    ensures Then(Then(a, b), c) == Then(a, Then(b, c))
  {
  }

  // ------------------------------------------------- events of several lines

  /** A line of an event: data, or anything else (a comment, another field). */
  datatype EventLine = Data(text: string) | Other(text: string)

  function WrittenLine(line: EventLine): string {
    if line.Data? then "data: " + line.text else line.text
  }

  /** A line that stays one line, and keeps what it says. */
  predicate CleanLine(line: EventLine) {
    '\n' !in line.text && (line.text != "" ==> line.text[|line.text| - 1] != '\r') &&
    if line.Data? then line.text != "" ==> !IsWhitespace(line.text[0])
    else line.text != "" && !("data:" <= line.text)
  }

  function Written(lines: seq<EventLine>): seq<string> {
    if lines == [] then [] else [WrittenLine(lines[0])] + Written(lines[1..])
  }

  /** The data among the lines. */
  function DataOf(lines: seq<EventLine>): seq<string> {
    if lines == [] then [] else (if lines[0].Data? then [lines[0].text] else []) + DataOf(lines[1..])
  }

  lemma FirstLine(line: string, more: string)
    requires '\n' !in line && line != "" && line[|line| - 1] != '\r'
    ensures Lines(line + "\n" + more) == [line] + Lines(more)
  {
    var s := line + "\n" + more;
    forall i: nat | i < |line|
      ensures !OccursAt(s, "\n", i)
    {
      assert line[i] in line;
      NoFeedHere(s, i);
    }
    assert OccursAt(s, "\n", |line|);
    assert s[..|line|] == line && s[|line| + 1..] == more;
  }

  lemma {:induction false} JoinedReadBack(lines: seq<string>)
    requires forall l :: l in lines ==> '\n' !in l && l != "" && l[|l| - 1] != '\r'
    ensures Lines(JoinedBy(lines, "\n")) == lines
    decreases |lines|
  {
    hide Lines;
    if lines == [] {
      NoLines();
    } else {
      assert lines[0] in lines;
      if |lines| == 1 {
        OneLine(lines[0]);
      } else {
        JoinedReadBack(lines[1..]);
        FirstLine(lines[0], JoinedBy(lines[1..], "\n"));
        assert lines[0] + "\n" + JoinedBy(lines[1..], "\n") == lines[0] + ("\n" + JoinedBy(lines[1..], "\n"));
      }
    }
  }

  lemma NoLines()
    ensures Lines("") == []
  {
  }

  lemma {:induction false} DataIsFound(lines: seq<EventLine>)
    requires forall l :: l in lines ==> CleanLine(l)
    ensures DataLines(Written(lines)) == DataOf(lines)
    ensures forall w :: w in Written(lines) ==> '\n' !in w && w != "" && w[|w| - 1] != '\r'
    decreases |lines|
  {
    if lines == [] {
    } else {
      assert lines[0] in lines;
      DataIsFound(lines[1..]);
      LineIsFound(lines[0]);
      assert Written(lines)[1..] == Written(lines[1..]);
    }
  }

  lemma LineIsFound(line: EventLine)
    requires CleanLine(line)
    ensures var stripped := StripPrefix(WrittenLine(line), "data:");
      (stripped.Some? <==> line.Data?) && (line.Data? ==> TrimStart(stripped.value) == line.text)
    ensures var w := WrittenLine(line); '\n' !in w && w != "" && w[|w| - 1] != '\r'
  {
    if line.Data? {
      var w := WrittenLine(line);
      assert "data:" <= w && w[5..] == " " + line.text;
      assert IsWhitespace(' ') && (" " + line.text)[1..] == line.text;
    }
  }

  /**
   An event of any lines carries the data of its data lines, in order, one line
   each; comments and other fields between them change nothing.
   */
  lemma EventOfManyLines(lines: seq<EventLine>)
    requires forall l :: l in lines ==> CleanLine(l)
    ensures EventData(JoinedBy(Written(lines), "\n")) == JoinedBy(DataOf(lines), "\n")
    ensures (forall l :: l in lines && l.Data? ==> l.text != "") ==>
      Lines(EventData(JoinedBy(Written(lines), "\n"))) == DataOf(lines)
  {
    hide Lines, CleanLine;
    DataIsFound(lines);
    JoinedReadBack(Written(lines));
    if forall l :: l in lines && l.Data? ==> l.text != "" {
      DataIsClean(lines);
      JoinedReadBack(DataOf(lines));
    }
  }

  lemma {:induction false} DataIsClean(lines: seq<EventLine>)
    requires forall l :: l in lines ==> CleanLine(l) && (l.Data? ==> l.text != "")
    ensures forall d :: d in DataOf(lines) ==> '\n' !in d && d != "" && d[|d| - 1] != '\r'
    decreases |lines|
  {
    if lines == [] {
    } else {
      assert lines[0] in lines;
      DataIsClean(lines[1..]);
    }
  }

  // ------------------------------------------------------------------ round trip

  lemma EventReadsBack(data: string)
    requires OneLineData(data)
    ensures EventData(Event(data)) == data
  {
    hide Lines;
    EventIsOneLine(data);
    assert TrimStart(" " + data) == data by { TrimsLeadingSpace(data); }
    assert DataLines([Event(data)][1..]) == [];
  }

  function Encoded<C>(encode: C -> string, chunks: seq<C>): seq<string> {
    if chunks == [] then [] else [encode(chunks[0])] + Encoded(encode, chunks[1..])
  }

  /** A chunk whose encoding one line can carry and that parses back. */
  ghost predicate Carries<C, E>(parse: Parse<C, E>, encode: C -> string, c: C) {
    OneLineData(encode(c)) && encode(c) != "[DONE]" && parse(encode(c)) == Ok(c)
  }

  lemma {:induction false} EventsDecode<C, E>(parse: Parse<C, E>, encode: C -> string, chunks: seq<C>)
    requires forall c :: c in chunks ==> Carries(parse, encode, c)
    ensures DecodeAll(parse, Events(Encoded(encode, chunks) + ["[DONE]"])) == Outcome(chunks, None)
    ensures forall p :: p in Encoded(encode, chunks) + ["[DONE]"] ==> OneLineData(p)
    decreases |chunks|
  {
    hide OneLineData, EventData;
    var payloads := Encoded(encode, chunks) + ["[DONE]"];
    if chunks == [] {
      assert payloads == ["[DONE]"] && ["[DONE]"][1..] == [];
      DoneIsData();
      EventReadsBack("[DONE]");
      assert Events(["[DONE]"]) == [Event("[DONE]")];
      assert DecodeAll(parse, [Event("[DONE]")][1..]) == Outcome([], None);
    } else {
      var c := chunks[0];
      assert c in chunks && Carries(parse, encode, c);
      EventReadsBack(encode(c));
      EventsDecode(parse, encode, chunks[1..]);
      var rest := Encoded(encode, chunks[1..]) + ["[DONE]"];
      assert payloads == [encode(c)] + rest && payloads[1..] == rest;
      assert Events(payloads)[1..] == Events(rest);
      DecodesOne(parse, encode, c);
      assert [c] + chunks[1..] == chunks;
    }
  }

  lemma DecodesOne<C, E>(parse: Parse<C, E>, encode: C -> string, c: C)
    requires Carries(parse, encode, c)
    ensures Decoded(parse, Event(encode(c))) == Outcome([c], None)
  {
    hide EventData;
    EventReadsBack(encode(c));
  }

  lemma DoneIsData()
    ensures OneLineData("[DONE]")
  {
  }

  /**
   MAIN: chunks rendered as events and closed by `[DONE]` come back as they were,
   in order and without an error, in whatever pieces the text arrives.
   */
  lemma StreamRoundTrip<C, E>(parse: Parse<C, E>, encode: C -> string, chunks: seq<C>, pieces: seq<string>)
    requires forall c :: c in chunks ==> Carries(parse, encode, c)
    requires Concat(pieces) == Rendered(Encoded(encode, chunks) + ["[DONE]"])
    ensures Streamed(parse, TextBefore(Arrived<E>(pieces)), Broken(Arrived<E>(pieces))) == Outcome(chunks, None)
  {
    EventsDecode(parse, encode, chunks);
    RenderedFrames(Encoded(encode, chunks) + ["[DONE]"]);
    ArrivedText<E>(pieces);
  }
}

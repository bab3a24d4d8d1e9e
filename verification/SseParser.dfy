/**
 `SseContentParser` (src/observability/sse.rs): a buffer drained frame by frame,
 each frame's content deltas handed to the think-tag tracker.  `parse` stands for
 `serde_json::from_str`; text arrives cut at character boundaries.
 */
module SseParser {
  import opened Wrappers
  import opened Text
  import opened Json
  import opened SseFrames
  import opened ThinkTags

  const MAX_SSE_CONTENT_BUFFER_BYTES: nat := 512 * 1024

  type Parse = string -> Option<Json>

  /** The length of a text in UTF-8. */
  function Utf8Len(s: string): nat {
    if s == "" then 0 else Utf8Len(s[..|s| - 1]) + Utf8Width(s[|s| - 1])
  }

  function Utf8Width(c: char): nat {
    if c as int < 0x80 then 1 else if c as int < 0x800 then 2 else if c as int < 0x1_0000 then 3 else 4
  }

  /** One byte for ASCII, two up to U+07FF, three up to U+FFFF, four beyond (section 3 of RFC 3629). */
  lemma WidthOfEach(c: char)
    ensures c <= '\U{7F}' <==> Utf8Width(c) == 1
    ensures '\U{80}' <= c <= '\U{7FF}' <==> Utf8Width(c) == 2
    ensures '\U{800}' <= c <= '\U{FFFF}' <==> Utf8Width(c) == 3
    ensures '\U{10000}' <= c <==> Utf8Width(c) == 4
  {
  }

  /** Texts are as long as their parts, and as their characters. */
  lemma {:induction false} LengthsAddUp(s: string, t: string)
    ensures Utf8Len(s + t) == Utf8Len(s) + Utf8Len(t)
    ensures |t| == 1 ==> Utf8Len(t) == Utf8Width(t[0])
    decreases |t|
  {
    if t == "" {
      assert s + t == s;
    } else {
      var front := t[..|t| - 1];
      assert (s + t)[..|s + t| - 1] == s + front;
      LengthsAddUp(s, front);
    }
  }

  // --------------------------------------------------- the deltas of a frame

  function ChoiceContent(choice: Json): Option<string> {
    var delta := Get(choice, "delta");
    if delta.None? then None else AsStr(Get(delta.value, "content"))
  }

  function ChoiceDeltas(choices: seq<Json>): seq<string> {
    if choices == [] then []
    else
      var content := ChoiceContent(choices[|choices| - 1]);
      ChoiceDeltas(choices[..|choices| - 1]) + (if content.Some? then [content.value] else [])
  }

  function ValueDeltas(value: Json): seq<string> {
    var choices := Get(value, "choices");
    if choices.Some? && choices.value.Arr? then ChoiceDeltas(choices.value.items) else []
  }

  function LineDeltas(parse: Parse, line: string): seq<string> {
    var stripped := StripPrefix(TrimStart(line), "data:");
    if stripped.None? then []
    else
      var data := Trim(stripped.value);
      if data == "" || data == "[DONE]" || parse(data).None? then [] else ValueDeltas(parse(data).value)
  }

  function LinesDeltas(parse: Parse, lines: seq<string>): seq<string> {
    if lines == [] then [] else LinesDeltas(parse, lines[..|lines| - 1]) + LineDeltas(parse, lines[|lines| - 1])
  }

  /** A frame that is too long is skipped whole. */
  function FrameDeltas(parse: Parse, frame: string): seq<string> {
    if Utf8Len(frame) > MAX_SSE_CONTENT_BUFFER_BYTES then [] else LinesDeltas(parse, Lines(frame))
  }

  function FramesDeltas(parse: Parse, frames: seq<string>): seq<string> {
    if frames == [] then [] else FrameDeltas(parse, frames[0]) + FramesDeltas(parse, frames[1..])
  }

  // ----------------------------------------------------- the parser, as values

  datatype State = State(buffer: string, tracker: Tracker)

  function Pushed(parse: Parse, s: State, text: string): State {
    var cut := Drain(s.buffer + text);
    State(cut.rest, ClassifiedAll(s.tracker, FramesDeltas(parse, cut.frames)))
  }

  function PushedAll(parse: Parse, s: State, pieces: seq<string>): State {
    if pieces == [] then s else Pushed(parse, PushedAll(parse, s, pieces[..|pieces| - 1]), pieces[|pieces| - 1])
  }

  // ------------------------------------------------------------------ the class

  class SseContentParser {
    var buffer: string
    var phase: Phase
    var thinkingDeltas: nat
    var outputDeltas: nat
    var tagTail: string

    function Tracked(): Tracker
      reads this
    {
      Tracker(phase, thinkingDeltas, outputDeltas, tagTail)
    }

    function Value(): State
      reads this
    {
      State(buffer, Tracked())
    }

    constructor ()
      ensures Value() == State("", INITIAL)
    {
      buffer, phase, thinkingDeltas, outputDeltas, tagTail := "", Output, 0, 0, "";
    }

    method Push(parse: Parse, text: string)
      modifies this
      ensures Value() == Pushed(parse, old(Value()), text)
    {
      ghost var s := Value();
      ghost var done: seq<string> := [];
      buffer := buffer + text;
      HalfwayStarts(parse, s, text);
      hide Halfway, Pushed, FrameDeltas, ClassifiedAll, Drain;
      while true
        invariant Halfway(parse, s, text, done, Value())
        decreases |buffer|
      {
        var frameEnd := Find(buffer, BLANK_LINE);
        if frameEnd.None? {
          break;
        }
        HalfwayStep(parse, s, text, done, Value(), frameEnd.value);
        var frame := buffer[..frameEnd.value];
        done := done + [frame];
        buffer := buffer[frameEnd.value + 2..];
        if Utf8Len(frame) > MAX_SSE_CONTENT_BUFFER_BYTES {
          NothingSkipped(parse, frame, Tracked());
          continue;
        }
        ProcessFrame(parse, frame);
      }
      HalfwayEnds(parse, s, text, done, Value());
    }

    method ProcessFrame(parse: Parse, frame: string)
      requires Utf8Len(frame) <= MAX_SSE_CONTENT_BUFFER_BYTES
      modifies this
      ensures buffer == old(buffer) && Tracked() == ClassifiedAll(old(Tracked()), FrameDeltas(parse, frame))
    {
      hide LineDeltas;
      var lines := Lines(frame);
      for i := 0 to |lines|
        invariant buffer == old(buffer)
        invariant Tracked() == ClassifiedAll(old(Tracked()), LinesDeltas(parse, lines[..i]))
      {
        assert lines[..i + 1][..i] == lines[..i];
        ClassifiedInTurn(old(Tracked()), LinesDeltas(parse, lines[..i]), LineDeltas(parse, lines[i]));
        ProcessLine(parse, lines[i]);
      }
      assert lines[..|lines|] == lines;
    }

    method ProcessLine(parse: Parse, line: string)
      modifies this
      ensures buffer == old(buffer) && Tracked() == ClassifiedAll(old(Tracked()), LineDeltas(parse, line))
    {
      var stripped := StripPrefix(TrimStart(line), "data:");
      if stripped.None? {
        return;
      }
      var data := Trim(stripped.value);
      if data == "" || data == "[DONE]" {
        return;
      }
      var value := parse(data);
      if value.None? {
        return;
      }
      ProcessDeltaValue(value.value);
    }

    method ProcessDeltaValue(value: Json)
      modifies this
      ensures buffer == old(buffer) && Tracked() == ClassifiedAll(old(Tracked()), ValueDeltas(value))
    {
      hide Classified, ChoiceContent, Get;
      var found := Get(value, "choices");
      if found.None? || !found.value.Arr? {
        return;
      }
      var choices := found.value.items;
      for i := 0 to |choices|
        invariant buffer == old(buffer)
        invariant Tracked() == ClassifiedAll(old(Tracked()), ChoiceDeltas(choices[..i]))
      {
        assert choices[..i + 1][..i] == choices[..i];
        ghost var before := ChoiceDeltas(choices[..i]);
        var content := ChoiceContent(choices[i]);
        assert ChoiceDeltas(choices[..i + 1]) == before + (if content.Some? then [content.value] else []);
        assert before + [] == before;
        if content.Some? {
          ClassifiedInTurn(old(Tracked()), before, [content.value]);
          OneDelta(Tracked(), content.value);
          ClassifyDelta(content.value);
        }
      }
      assert choices[..|choices|] == choices;
    }

    method ClassifyDelta(delta: string)
      modifies this
      ensures buffer == old(buffer) && Tracked() == Classified(old(Tracked()), delta)
    {
      hide Occurs, TailStr;
      var combined := tagTail + delta;
      var enteredThinking := phase == Output && Occurs(combined, OPENING);
      var leftThinking := phase == Thinking && Occurs(combined, CLOSING);
      tagTail := TailStr(combined, TAG_TAIL_LEN);
      if enteredThinking {
        phase := Thinking;
        return;
      }
      if leftThinking {
        phase := Output;
        return;
      }
      match phase {
        case Thinking => thinkingDeltas := thinkingDeltas + 1;
        case Output => outputDeltas := outputDeltas + 1;
      }
    }
  }

  /** The draining loop after the frames `done`. */
  predicate Halfway(parse: Parse, s: State, text: string, done: seq<string>, now: State) {
    Drain(s.buffer + text) == Cut(done + Drain(now.buffer).frames, Drain(now.buffer).rest) &&
    now.tracker == ClassifiedAll(s.tracker, FramesDeltas(parse, done))
  }

  lemma HalfwayStarts(parse: Parse, s: State, text: string)
    ensures Halfway(parse, s, text, [], State(s.buffer + text, s.tracker))
  {
  }

  lemma HalfwayStep(parse: Parse, s: State, text: string, done: seq<string>, now: State, i: nat)
    requires Halfway(parse, s, text, done, now) && Find(now.buffer, BLANK_LINE) == Some(i)
    ensures i + 2 <= |now.buffer|
    ensures var frame := now.buffer[..i];
      Halfway(parse, s, text, done + [frame], State(now.buffer[i + 2..], ClassifiedAll(now.tracker, FrameDeltas(parse, frame))))
  {
    hide ClassifiedAll, FrameDeltas, Drain, Find, FramesDeltas;
    DrainStep(now.buffer, i);
    var frame, rest := now.buffer[..i], Drain(now.buffer[i + 2..]).frames;
    assert done + ([frame] + rest) == (done + [frame]) + rest;
    FramesAppend(parse, done, frame);
    ClassifiedInTurn(s.tracker, FramesDeltas(parse, done), FrameDeltas(parse, frame));
  }

  lemma HalfwayEnds(parse: Parse, s: State, text: string, done: seq<string>, now: State)
    requires Halfway(parse, s, text, done, now) && Find(now.buffer, BLANK_LINE) == None
    ensures now == Pushed(parse, s, text)
  {
    DrainNothing(now.buffer);
    hide ClassifiedAll, FramesDeltas, Drain, Find;
    assert done + [] == done;
  }

  lemma OneDelta(t: Tracker, delta: string)
    ensures ClassifiedAll(t, [delta]) == Classified(t, delta)
  {
  }

  lemma NothingSkipped(parse: Parse, frame: string, t: Tracker)
    requires Utf8Len(frame) > MAX_SSE_CONTENT_BUFFER_BYTES
    ensures FrameDeltas(parse, frame) == [] && ClassifiedAll(t, FrameDeltas(parse, frame)) == t
  {
  }

  // ------------------------------------------------------------------- lemmas

  lemma FramesAppend(parse: Parse, frames: seq<string>, frame: string)
    ensures FramesDeltas(parse, frames + [frame]) == FramesDeltas(parse, frames) + FrameDeltas(parse, frame)
  {
    FramesInTurn(parse, frames, [frame]);
    assert FramesDeltas(parse, [frame]) == FrameDeltas(parse, frame) + FramesDeltas(parse, []);
  }

  lemma {:induction false} FramesInTurn(parse: Parse, first: seq<string>, second: seq<string>)
    ensures FramesDeltas(parse, first + second) == FramesDeltas(parse, first) + FramesDeltas(parse, second)
    decreases |first|
  {
    hide FrameDeltas;
    if first == [] {
      assert first + second == second;
    } else {
      assert (first + second)[1..] == first[1..] + second;
      FramesInTurn(parse, first[1..], second);
    }
  }

  /** Two pushes are one push of the whole. */
  lemma PushTwice(parse: Parse, s: State, a: string, b: string)
    ensures Pushed(parse, Pushed(parse, s, a), b) == Pushed(parse, s, a + b)
  {
    hide Drain, ClassifiedAll, FrameDeltas;
    var first := Drain(s.buffer + a);
    var second := Drain(first.rest + b);
    assert s.buffer + (a + b) == (s.buffer + a) + b;
    DrainConcat(s.buffer + a, b);
    FramesInTurn(parse, first.frames, second.frames);
    ClassifiedInTurn(s.tracker, FramesDeltas(parse, first.frames), FramesDeltas(parse, second.frames));
  }

  /** A push of nothing changes nothing once a buffer has been drained. */
  lemma PushNothing(parse: Parse, s: State)
    requires !Occurs(s.buffer, BLANK_LINE)
    ensures Pushed(parse, s, "") == s
  {
    assert s.buffer + "" == s.buffer;
    DrainNothing(s.buffer);
  }

  /**
   MAIN: however a text is cut into pieces, the parser ends in the same state as
   after one push of the whole, skipped frames included.
   */
  lemma {:induction false} ChunkingInvariance(parse: Parse, s: State, pieces: seq<string>)
    requires !Occurs(s.buffer, BLANK_LINE)
    ensures PushedAll(parse, s, pieces) == Pushed(parse, s, Concat(pieces))
    decreases |pieces|
  {
    hide Pushed, Occurs;
    if pieces == [] {
      PushNothing(parse, s);
    } else {
      var n := |pieces| - 1;
      ChunkingInvariance(parse, s, pieces[..n]);
      PushTwice(parse, s, Concat(pieces[..n]), pieces[n]);
    }
  }

  /** Between pushes the buffer never holds a complete frame. */
  lemma BufferStaysClean(parse: Parse, s: State, text: string)
    ensures !Occurs(Pushed(parse, s, text).buffer, BLANK_LINE)
  {
    RestIsClean(s.buffer + text);
  }

  /**
   MAIN: for a whole stream, in any pieces: the counts are those of a tracker that
   looks for tags in the whole content, unless some delta raises a false alarm
   (and none does where no delta completes two tags).
   */
  lemma StreamFollowsTags(parse: Parse, pieces: seq<string>)
    requires NoFalseAlarm(FramesDeltas(parse, Drain(Concat(pieces)).frames))
    ensures PushedAll(parse, State("", INITIAL), pieces)
         == State(Drain(Concat(pieces)).rest, Reference(FramesDeltas(parse, Drain(Concat(pieces)).frames)))
  {
    NoFrameInNothing();
    ChunkingInvariance(parse, State("", INITIAL), pieces);
    hide PushedAll, Drain, FramesDeltas, ClassifiedAll, Occurs, NoFalseAlarm, Reference;
    assert "" + Concat(pieces) == Concat(pieces);
    var deltas := FramesDeltas(parse, Drain(Concat(pieces)).frames);
    TrackerFollowsTagsIff(deltas);
    assert deltas[..|deltas|] == deltas;
  }

  lemma NoFrameInNothing()
    ensures !Occurs("", BLANK_LINE)
  {
  }

  // -------------------------------------------------- what a server has written

  /** A payload the parser reads: one line, trimmed, short enough, and JSON. */
  predicate Readable(parse: Parse, data: string) {
    OneLineData(data) && !IsWhitespace(data[|data| - 1]) && data != "[DONE]" && parse(data).Some? &&
    Utf8Len(Event(data)) <= MAX_SSE_CONTENT_BUFFER_BYTES
  }

  function PayloadDeltas(parse: Parse, payloads: seq<string>): seq<string>
    requires forall p :: p in payloads ==> Readable(parse, p)
  {
    if payloads == [] then []
    else
      assert Readable(parse, payloads[0]);
      ValueDeltas(parse(payloads[0]).value) + PayloadDeltas(parse, payloads[1..])
  }

  lemma EventDeltas(parse: Parse, data: string)
    requires Readable(parse, data)
    ensures FrameDeltas(parse, Event(data)) == ValueDeltas(parse(data).value)
  {
    EventIsOneLine(data);
    assert TrimStart(" " + data) == data by { TrimsLeadingSpace(data); }
    hide Lines, ValueDeltas, OneLineData;
    assert !IsWhitespace(Event(data)[0]);
    assert LineDeltas(parse, Event(data)) == ValueDeltas(parse(data).value);
    assert LinesDeltas(parse, [Event(data)][..0]) == [];
    assert [] + ValueDeltas(parse(data).value) == ValueDeltas(parse(data).value);
  }

  /** MAIN: the deltas read from a rendered stream are those of its payloads, in order. */
  lemma {:induction false} RenderedDeltas(parse: Parse, payloads: seq<string>)
    requires forall p :: p in payloads ==> Readable(parse, p)
    ensures FramesDeltas(parse, Drain(Rendered(payloads)).frames) == PayloadDeltas(parse, payloads)
    decreases |payloads|
  {
    hide Drain, Readable, FrameDeltas, ValueDeltas;
    forall p | p in payloads
      ensures OneLineData(p)
    {
      ReadableIsOneLine(parse, p);
    }
    RenderedFrames(payloads);
    if payloads == [] {
    } else {
      assert payloads[0] in payloads;
      EventDeltas(parse, payloads[0]);
      RenderedFrames(payloads[1..]);
      RenderedDeltas(parse, payloads[1..]);
      assert Events(payloads)[1..] == Events(payloads[1..]);
    }
  }

  lemma ReadableIsOneLine(parse: Parse, data: string)
    requires Readable(parse, data)
    ensures OneLineData(data)
  {
  }
}

/**
 What both event-stream parsers share: cutting a growing buffer at blank lines,
 and frames into lines.  Only "\n\n" ends an event, a subset of sections 9.2.5
 and 9.2.6 of the WHATWG HTML Standard.
 */
module SseFrames {
  import opened Wrappers
  import opened Text

  const BLANK_LINE := "\n\n"

  /** The complete frames of a buffer, and what is left in it. */
  datatype Cut = Cut(frames: seq<string>, rest: string)

  function Drain(buffer: string): Cut
    decreases |buffer|
  {
    match Find(buffer, BLANK_LINE)
    case None => Cut([], buffer)
    case Some(i) =>
      var cut := Drain(buffer[i + 2..]);
      Cut([buffer[..i]] + cut.frames, cut.rest)
  }

  /** The first occurrence stays the first when text is added. */
  lemma FindExtends(text: string, more: string, needle: string)
    requires Find(text, needle).Some?
    ensures Find(text + more, needle) == Find(text, needle)
  {
    var i := Find(text, needle).value;
    OccursAtExtends(text, more, needle, i);
    var r := Find(text + more, needle);
    if r.Some? && r.value < i {
      OccursAtExtends(text, more, needle, r.value);
    }
  }

  lemma SplitAtBlankLine(buffer: string, i: nat)
    requires OccursAt(buffer, BLANK_LINE, i)
    ensures i + 2 <= |buffer| && buffer == buffer[..i] + BLANK_LINE + buffer[i + 2..]
  {
  }

  /** One turn of the draining loop. */
  lemma DrainStep(buffer: string, i: nat)
    requires Find(buffer, BLANK_LINE) == Some(i)
    ensures i + 2 <= |buffer| && buffer == buffer[..i] + BLANK_LINE + buffer[i + 2..]
    ensures Drain(buffer) == Cut([buffer[..i]] + Drain(buffer[i + 2..]).frames, Drain(buffer[i + 2..]).rest)
  {
    SplitAtBlankLine(buffer, i);
    hide OccursAt, Find;
  }

  lemma DrainNothing(buffer: string)
    requires Find(buffer, BLANK_LINE) == None
    ensures Drain(buffer) == Cut([], buffer)
  {
  }

  /** Cutting piece by piece is cutting the whole. */
  lemma {:induction false} DrainConcat(a: string, b: string)
    ensures var first := Drain(a);
      var second := Drain(first.rest + b);
      Drain(a + b) == Cut(first.frames + second.frames, second.rest)
    decreases |a|
  {
    hide Drain, Find;
    var r := Find(a, BLANK_LINE);
    if r.Some? {
      var i := r.value;
      DrainStep(a, i);
      var cut := Drain(a[i + 2..]);
      FindExtends(a, b, BLANK_LINE);
      DrainStep(a + b, i);
      assert (a + b)[i + 2..] == a[i + 2..] + b && (a + b)[..i] == a[..i];
      DrainConcat(a[i + 2..], b);
      assert [a[..i]] + (cut.frames + Drain(cut.rest + b).frames) == Drain(a).frames + Drain(cut.rest + b).frames;
    } else {
      DrainNothing(a);
      assert [] + Drain(a + b).frames == Drain(a + b).frames;
    }
  }

  /** What stays in the buffer holds no complete frame. */
  lemma {:induction false} RestIsClean(buffer: string)
    ensures !Occurs(Drain(buffer).rest, BLANK_LINE)
    ensures Drain(Drain(buffer).rest) == Cut([], Drain(buffer).rest)
    decreases |buffer|
  {
    var r := Find(buffer, BLANK_LINE);
    if r.None? {
    } else {
      RestIsClean(buffer[r.value + 2..]);
    }
  }

  /** The frames, each with its blank line, and the rest give back the buffer. */
  lemma {:induction false} DrainLosesNothing(buffer: string)
    ensures Joined(Drain(buffer).frames) + Drain(buffer).rest == buffer
    decreases |buffer|
  {
    hide Drain, Find;
    var r := Find(buffer, BLANK_LINE);
    if r.Some? {
      var i := r.value;
      DrainStep(buffer, i);
      var cut := Drain(buffer[i + 2..]);
      DrainLosesNothing(buffer[i + 2..]);
      assert ([buffer[..i]] + cut.frames)[1..] == cut.frames;
      assert buffer[..i] + BLANK_LINE + (Joined(cut.frames) + cut.rest)
          == (buffer[..i] + BLANK_LINE + Joined(cut.frames)) + cut.rest;
    } else {
      DrainNothing(buffer);
    }
  }

  function Joined(frames: seq<string>): string {
    if frames == [] then "" else frames[0] + BLANK_LINE + Joined(frames[1..])
  }

  // --------------------------------------------------------- lines and trimming

  /** `str::lines`: "\n" or "\r\n" ends a line, and no empty line follows the last. */
  function Lines(s: string): seq<string>
    decreases |s|
  {
    if s == "" then []
    else
      match Find(s, "\n")
      case None => [s]
      case Some(i) => [WithoutReturn(s[..i])] + Lines(s[i + 1..])
  }

  function WithoutReturn(line: string): string {
    if line != "" && line[|line| - 1] == '\r' then line[..|line| - 1] else line
  }

  function StripPrefix(s: string, prefix: string): Option<string> {
    if prefix <= s then Some(s[|prefix|..]) else None
  }

  /** What follows the prefix is what is left of a line, even if that is nothing. */
  lemma StripsThePrefix(prefix: string, rest: string)
    ensures StripPrefix(prefix + rest, prefix) == Some(rest)
  {
    assert (prefix + rest)[|prefix|..] == rest;
  }

  lemma NoFeedHere(s: string, i: nat)
    requires i < |s| && s[i] != '\n'
    ensures !OccursAt(s, "\n", i) && !OccursAt(s, BLANK_LINE, i)
  {
  }

  /** A text without line feeds is its own only line. */
  lemma OneLine(s: string)
    requires s != "" && '\n' !in s
    ensures Lines(s) == [s]
  {
    forall i: nat | i < |s|
      ensures !OccursAt(s, "\n", i)
    {
      NoFeedHere(s, i);
    }
  }

  /** A frame without line feeds, then a blank line, is cut off first. */
  lemma FirstFrame(frame: string, more: string)
    requires '\n' !in frame
    ensures Drain(frame + BLANK_LINE + more) == Cut([frame] + Drain(more).frames, Drain(more).rest)
  {
    hide Drain;
    var n := |frame|;
    var s := frame + BLANK_LINE + more;
    assert s[n..n + 2] == BLANK_LINE;
    assert OccursAt(s, BLANK_LINE, n);
    forall i: nat | i < n
      ensures !OccursAt(s, BLANK_LINE, i)
    {
      assert frame[i] in frame;
      NoFeedHere(s, i);
    }
    assert s[..n] == frame && s[n + 2..] == more;
    DrainStep(s, n);
  }

  // ------------------------------------------------------------ rendered events

  /** An event as a server writes it. */
  function Event(data: string): string {
    "data: " + data
  }

  function Rendered(payloads: seq<string>): string {
    if payloads == [] then "" else Event(payloads[0]) + BLANK_LINE + Rendered(payloads[1..])
  }

  /** Data that one line can carry: compact JSON is. */
  predicate OneLineData(data: string) {
    data != "" && '\n' !in data && !IsWhitespace(data[0])
  }

  function Events(payloads: seq<string>): seq<string> {
    if payloads == [] then [] else [Event(payloads[0])] + Events(payloads[1..])
  }

  lemma EventIsOneLine(data: string)
    requires OneLineData(data)
    ensures '\n' !in Event(data) && Lines(Event(data)) == [Event(data)]
    ensures StripPrefix(Event(data), "data:") == Some(" " + data)
  {
    OneLine(Event(data));
    assert "data:" <= Event(data) && Event(data)[5..] == " " + data;
  }

  lemma TrimsLeadingSpace(data: string)
    requires OneLineData(data)
    ensures TrimStart(" " + data) == data
  {
    assert (" " + data)[1..] == data;
    assert IsWhitespace(' ');
  }

  /** A rendered stream is cut into exactly its events. */
  lemma {:induction false} RenderedFrames(payloads: seq<string>)
    requires forall p :: p in payloads ==> OneLineData(p)
    ensures Drain(Rendered(payloads)) == Cut(Events(payloads), "")
    decreases |payloads|
  {
    hide Drain, OneLineData, Lines;
    if payloads == [] {
      assert Find("", BLANK_LINE) == None;
      DrainNothing("");
    } else {
      assert payloads[0] in payloads;
      EventIsOneLine(payloads[0]);
      RenderedFrames(payloads[1..]);
      FirstFrame(Event(payloads[0]), Rendered(payloads[1..]));
    }
  }
}

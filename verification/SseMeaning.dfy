/**
 What the server-side parser reads out of a chat stream (src/observability/sse.rs):
 the contents of the chunks, in order, counted by the phase they arrive in.
 */
module SseMeaning {
  import opened Wrappers
  import opened Text
  import opened Json
  import opened SseFrames
  import opened ThinkTags
  import opened SseParser

  // ------------------------------------------------------ contents of a chunk

  /** The choice carries this text as the content of its delta, among whatever other fields. */
  ghost predicate Says(choice: Json, content: string) {
    choice.Obj? && exists fields :: Entry("delta", Obj(fields)) in choice.entries && Entry("content", Str(content)) in fields
  }

  /** Each choice carries the content beside it, or none. */
  ghost predicate SayInOrder(choices: seq<Json>, contents: seq<Option<string>>) {
    |choices| == |contents| &&
    forall i, s :: 0 <= i < |choices| ==> (contents[i] == Some(s) <==> Says(choices[i], s))
  }

  /** The contents that are there. */
  function Present(contents: seq<Option<string>>): seq<string> {
    if contents == [] then []
    else
      var last := contents[|contents| - 1];
      Present(contents[..|contents| - 1]) + (if last.Some? then [last.value] else [])
  }

  lemma ContentIsSaid(choice: Json, content: string)
    requires Wf(choice)
    ensures ChoiceContent(choice) == Some(content) <==> Says(choice, content)
  {
    if Says(choice, content) {
      var fields :| Entry("delta", Obj(fields)) in choice.entries && Entry("content", Str(content)) in fields;
      var k :| 0 <= k < |choice.entries| && choice.entries[k] == Entry("delta", Obj(fields));
      assert Wf(choice.entries[k].value);
      LookupMember(choice.entries, Entry("delta", Obj(fields)));
      LookupMember(fields, Entry("content", Str(content)));
    }
  }

  /** A choice is read if and only if it carries a text; all others contribute nothing. */
  lemma {:induction false} ChoicesAreRead(choices: seq<Json>, contents: seq<Option<string>>)
    requires SayInOrder(choices, contents) && forall i :: 0 <= i < |choices| ==> Wf(choices[i])
    ensures ChoiceDeltas(choices) == Present(contents)
    decreases |choices|
  {
    hide Wf, Says;
    if choices == [] {
    } else {
      var n := |choices| - 1;
      ChoicesAreRead(choices[..n], contents[..n]);
      var read := ChoiceContent(choices[n]);
      if read.Some? {
        ContentIsSaid(choices[n], read.value);
      }
      if contents[n].Some? {
        ContentIsSaid(choices[n], contents[n].value);
      }
    }
  }

  /** What a chunk yields: the contents of its choices; nothing if it has no list of choices. */
  lemma ChunkIsRead(chunk: Json, choices: seq<Json>, contents: seq<Option<string>>)
    requires Wf(chunk) && chunk.Obj? && SayInOrder(choices, contents)
    requires Entry("choices", Arr(choices)) in chunk.entries
    ensures ValueDeltas(chunk) == Present(contents)
  {
    var k :| 0 <= k < |chunk.entries| && chunk.entries[k] == Entry("choices", Arr(choices));
    assert Wf(chunk.entries[k].value);
    LookupMember(chunk.entries, Entry("choices", Arr(choices)));
    ChoicesAreRead(choices, contents);
  }

  lemma NoChoicesNoContent(chunk: Json)
    requires forall choices :: !(chunk.Obj? && Entry("choices", Arr(choices)) in chunk.entries)
    ensures ValueDeltas(chunk) == []
  {
  }

  // --------------------------------------------------------- a line of a frame

  predicate IsBlank(s: string) {
    forall c :: c in s ==> IsWhitespace(c)
  }

  lemma {:induction false} TrimsBefore(blank: string, s: string)
    requires IsBlank(blank) && s != "" && !IsWhitespace(s[0])
    ensures TrimStart(blank + s) == s
    decreases |blank|
  {
    if blank == "" {
      assert blank + s == s;
    } else {
      assert blank[0] in blank && (blank + s)[1..] == blank[1..] + s;
      TrimsBefore(blank[1..], s);
    }
  }

  lemma {:induction false} TrimsAfter(s: string, blank: string)
    requires IsBlank(blank) && s != "" && !IsWhitespace(s[|s| - 1])
    ensures TrimEnd(s + blank) == s
    decreases |blank|
  {
    if blank == "" {
      assert s + blank == s;
    } else {
      var n := |blank| - 1;
      assert blank[n] in blank && (s + blank)[..|s| + n] == s + blank[..n];
      TrimsAfter(s, blank[..n]);
    }
  }

  /** Blanks before the field, around its value or after it make no difference. */
  lemma PaddedLineIsRead(parse: Parse, before: string, inside: string, after: string, data: string)
    requires IsBlank(before) && IsBlank(inside) && IsBlank(after)
    requires data != "" && !IsWhitespace(data[0]) && !IsWhitespace(data[|data| - 1])
    ensures LineDeltas(parse, before + ("data:" + (inside + (data + after)))) ==
      if data == "[DONE]" || parse(data).None? then [] else ValueDeltas(parse(data).value)
  {
    hide ValueDeltas, IsBlank;
    var value := inside + (data + after);
    assert ("data:" + value)[0] == 'd' && !IsWhitespace('d');
    TrimsBefore(before, "data:" + value);
    assert "data:" <= "data:" + value && ("data:" + value)[5..] == value;
    assert (data + after)[0] == data[0];
    TrimsBefore(inside, data + after);
    TrimsAfter(data, after);
  }

  /** A line that is no data field says nothing. */
  lemma OtherLinesSayNothing(parse: Parse, before: string, line: string)
    requires IsBlank(before) && line != "" && !IsWhitespace(line[0]) && !("data:" <= line)
    ensures LineDeltas(parse, before + line) == []
  {
    TrimsBefore(before, line);
  }

  // --------------------------------------------------------- a whole stream

  /** The chunk carries one choice, and in it this text. */
  ghost predicate Carries(chunk: Json, content: string) {
    Wf(chunk) && chunk.Obj? && exists choice :: Entry("choices", Arr([choice])) in chunk.entries && Says(choice, content)
  }

  lemma CarriedIsRead(chunk: Json, content: string)
    requires Carries(chunk, content)
    ensures ValueDeltas(chunk) == [content]
  {
    var choice :| Entry("choices", Arr([choice])) in chunk.entries && Says(choice, content);
    var k :| 0 <= k < |chunk.entries| && chunk.entries[k] == Entry("choices", Arr([choice]));
    assert Wf(chunk.entries[k].value);
    assert Wf([choice][0]);
    forall s
      ensures Some(content) == Some(s) <==> Says(choice, s)
    {
      ContentIsSaid(choice, content);
      ContentIsSaid(choice, s);
    }
    ChunkIsRead(chunk, [choice], [Some(content)]);
    assert [Some(content)][..0] == [];
  }

  lemma {:induction false} PayloadsAreRead(parse: Parse, payloads: seq<string>, contents: seq<string>)
    requires |payloads| == |contents|
    requires forall i :: 0 <= i < |payloads| ==> Readable(parse, payloads[i]) && Carries(parse(payloads[i]).value, contents[i])
    ensures PayloadDeltas(parse, payloads) == contents
    decreases |payloads|
  {
    hide OneLineData, Utf8Len, Carries, ValueDeltas;
    if payloads == [] {
    } else {
      assert Readable(parse, payloads[0]);
      CarriedIsRead(parse(payloads[0]).value, contents[0]);
      PayloadsAreRead(parse, payloads[1..], contents[1..]);
      assert contents == [contents[0]] + contents[1..];
    }
  }

  /** How a stream looks on the wire: each payload behind "data: ", an empty line after it. */
  function Wire(payloads: seq<string>): string {
    if payloads == [] then "data: [DONE]\n\n" else "data: " + payloads[0] + "\n\n" + Wire(payloads[1..])
  }

  lemma {:induction false} WireIsRendered(payloads: seq<string>)
    ensures Wire(payloads) == Rendered(payloads + ["[DONE]"])
    decreases |payloads|
  {
    if payloads == [] {
      assert ["[DONE]"][1..] == [];
      assert Rendered(["[DONE]"]) == Event("[DONE]") + BLANK_LINE + Rendered([]);
      assert payloads + ["[DONE]"] == ["[DONE]"];
    } else {
      WireIsRendered(payloads[1..]);
      assert (payloads + ["[DONE]"])[1..] == payloads[1..] + ["[DONE]"];
    }
  }

  lemma DoneLine(parse: Parse)
    ensures LineDeltas(parse, Event("[DONE]")) == []
  {
    hide ValueDeltas, Lines;
    EventIsOneLine("[DONE]");
    assert TrimStart(" " + "[DONE]") == "[DONE]" by { TrimsLeadingSpace("[DONE]"); }
    assert !IsWhitespace('d') && !IsWhitespace(']');
  }

  lemma OneLineRead(parse: Parse, line: string)
    ensures LinesDeltas(parse, [line]) == LineDeltas(parse, line)
  {
    hide LineDeltas;
    assert [line][..0] == [];
  }

  lemma DoneSaysNothing(parse: Parse)
    ensures FrameDeltas(parse, Event("[DONE]")) == []
  {
    hide Lines, ValueDeltas, LinesDeltas;
    EventIsOneLine("[DONE]");
    DoneLine(parse);
    OneLineRead(parse, Event("[DONE]"));
    hide LineDeltas;
  }

  lemma {:induction false} EventsThenDone(parse: Parse, payloads: seq<string>)
    requires forall p :: p in payloads ==> Readable(parse, p)
    ensures FramesDeltas(parse, Events(payloads + ["[DONE]"])) == PayloadDeltas(parse, payloads)
    decreases |payloads|
  {
    hide Readable, FrameDeltas, ValueDeltas;
    var all := payloads + ["[DONE]"];
    if payloads == [] {
      DoneSaysNothing(parse);
      assert all == ["[DONE]"] && all[1..] == [];
      assert Events(all)[1..] == [];
    } else {
      assert payloads[0] in payloads;
      EventDeltas(parse, payloads[0]);
      EventsThenDone(parse, payloads[1..]);
      assert all[1..] == payloads[1..] + ["[DONE]"];
      assert Events(all)[1..] == Events(all[1..]);
    }
  }

  /**
   MAIN: a server that streams texts as chunks, one choice each, and closes with
   `[DONE]` is understood: in whatever pieces the stream arrives, the parser has
   tracked exactly those texts, in order, and has nothing left over.
   */
  lemma StreamIsUnderstood(parse: Parse, payloads: seq<string>, contents: seq<string>, pieces: seq<string>)
    requires |payloads| == |contents| && Concat(pieces) == Wire(payloads)
    requires forall i :: 0 <= i < |payloads| ==> Readable(parse, payloads[i]) && Carries(parse(payloads[i]).value, contents[i])
    ensures PushedAll(parse, State("", INITIAL), pieces) == State("", ClassifiedAll(INITIAL, contents))
  {
    hide Readable, Carries, PushedAll, Drain, FramesDeltas, ClassifiedAll, Occurs;
    WireIsRendered(payloads);
    var all := payloads + ["[DONE]"];
    forall p | p in all
      ensures OneLineData(p)
    {
      if p in payloads {
        ReadableIsOneLine(parse, p);
      } else {
        assert p == "[DONE]" && '\n' !in "[DONE]" && !IsWhitespace('[');
      }
    }
    RenderedFrames(all);
    EventsThenDone(parse, payloads);
    PayloadsAreRead(parse, payloads, contents);
    NoFrameInNothing();
    ChunkingInvariance(parse, State("", INITIAL), pieces);
    assert "" + Concat(pieces) == Concat(pieces);
  }

  /** A frame longer than 512 KiB is skipped whole. */
  lemma LongFramesSayNothing(parse: Parse, frame: string)
    requires Utf8Len(frame) > 524288
    ensures FrameDeltas(parse, frame) == []
  {
  }

  // ---------------------------------------------------------- what is counted

  /** The deltas that arrive in `phase` and do not complete `tag`. */
  function Arriving(deltas: seq<string>, phase: Phase, tag: string): nat {
    if deltas == [] then 0
    else
      var n := |deltas| - 1;
      Arriving(deltas[..n], phase, tag) +
      (if Reference(deltas[..n]).phase == phase && !Completes(Concat(deltas[..n]), deltas[n], tag) then 1 else 0)
  }

  /** Thinking is what arrives between the tags, output what arrives outside of them. */
  lemma {:induction false} CountsByPhase(deltas: seq<string>)
    ensures Reference(deltas).thinking == Arriving(deltas, Thinking, "</think>")
    ensures Reference(deltas).output == Arriving(deltas, Output, "<think>")
    decreases |deltas|
  {
    hide Completes;
    if deltas == [] {
    } else {
      CountsByPhase(deltas[..|deltas| - 1]);
    }
  }
}

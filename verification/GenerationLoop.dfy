/**
 Properties of the generation loop over whole calls and whole sessions
 (src/native/decoder.rs).
 */
module GenerationLoop {
  import opened Wrappers
  import opened Text
  import opened Decoder

  // -------------------------------------------------------- what is fed where

  /** Every token fed so far, in order. */
  function Fed(feeds: seq<(seq<Token>, nat)>): seq<Token> {
    if feeds == [] then [] else Fed(feeds[..|feeds| - 1]) + feeds[|feeds| - 1].0
  }

  /** Each call of the model passes the number of tokens fed before it. */
  predicate AtOwnPositions(feeds: seq<(seq<Token>, nat)>) {
    forall k :: 0 <= k < |feeds| ==> feeds[k].1 == |Fed(feeds[..k])|
  }

  /** All that has not been fed yet is `input`. */
  ghost predicate ReadyToFeed<S, R>(g: Gen<S, R>, input: seq<Token>) {
    g.inputIds == Fed(g.feeds) + input && g.offset == |Fed(g.feeds)| && AtOwnPositions(g.feeds)
  }

  lemma FeedOnce(feeds: seq<(seq<Token>, nat)>, input: seq<Token>)
    requires AtOwnPositions(feeds)
    ensures Fed(feeds + [(input, |Fed(feeds)|)]) == Fed(feeds) + input
    ensures AtOwnPositions(feeds + [(input, |Fed(feeds)|)])
  {
    var more := feeds + [(input, |Fed(feeds)|)];
    assert more[..|feeds|] == feeds;
    forall k | 0 <= k < |more|
      ensures more[k].1 == |Fed(more[..k])|
    {
      if k < |feeds| {
        assert more[..k] == feeds[..k];
      }
    }
  }

  lemma TurnFeeds<S, L, R>(e: Engine<S, L, R>, tokenizer: Tokenizer, stops: seq<string>, g: Gen<S, R>, input: seq<Token>)
    requires ReadyToFeed(g, input)
    ensures var (g', err) := Turn(e, tokenizer, stops, g, input);
      AtOwnPositions(g'.feeds) && Fed(g'.feeds) == g.inputIds && g.inputIds <= g'.inputIds &&
      (err.None? ==> ReadyToFeed(g', [g'.inputIds[|g'.inputIds| - 1]]))
  {
    hide Absorb, AtOwnPositions, Fed;
    FeedOnce(g.feeds, input);
  }

  lemma {:induction false} TurnsFeed<S, L, R>(e: Engine<S, L, R>, tokenizer: Tokenizer, stops: seq<string>, g: Gen<S, R>, k: nat)
    requires g.inputIds != [] && ReadyToFeed(g, [g.inputIds[|g.inputIds| - 1]])
    ensures var (g', err) := Turns(e, tokenizer, stops, g, k);
      AtOwnPositions(g'.feeds) && Fed(g'.feeds) <= g'.inputIds && g.inputIds <= g'.inputIds &&
      (err.None? ==> g'.offset + 1 == |g'.inputIds| && Fed(g'.feeds) == g'.inputIds[..g'.offset])
    decreases k
  {
    hide Turn;
    if k == 0 {
    } else if g.finish.Length? {
      var last := [g.inputIds[|g.inputIds| - 1]];
      TurnFeeds(e, tokenizer, stops, g, last);
      var (g', err) := Turn(e, tokenizer, stops, g, last);
      if err.None? {
        TurnsFeed(e, tokenizer, stops, g', k - 1);
      }
    }
  }

  /**
   Over the whole loop, each prompt and generated token is fed at most once, in
   order, and at its own absolute position; when the loop ends without an error
   exactly the last token has not been fed.
   */
  lemma EachTokenFedOnceAtItsPosition<S, L, R>(e: Engine<S, L, R>, tokenizer: Tokenizer, stops: seq<string>,
                                              ids: seq<Token>, maxTokens: nat, model: S, rng: R)
    requires ids != [] && maxTokens >= 1
    ensures var (g, err) := Generated(e, tokenizer, stops, ids, maxTokens, model, rng);
      AtOwnPositions(g.feeds) && Fed(g.feeds) <= g.inputIds && ids <= g.inputIds &&
      (err.None? ==> g.offset + 1 == |g.inputIds| && Fed(g.feeds) == g.inputIds[..g.offset])
  {
    hide Turn;
    var g0 := Started(ids, model, rng);
    TurnFeeds(e, tokenizer, stops, g0, ids);
    var (g, err) := Turn(e, tokenizer, stops, g0, ids);
    if err.None? {
      TurnsFeed(e, tokenizer, stops, g, maxTokens - 1);
    }
  }

  // ------------------------------------------------------ length and finish

  /** Decoding shows no stop sequence in what was generated. */
  predicate NoStopHit(tokenizer: Tokenizer, stops: seq<string>, generated: seq<Token>) {
    tokenizer.decode(generated).Some? && FirstStop(tokenizer.decode(generated).value, stops).None?
  }

  lemma TurnFinishes<S, L, R>(e: Engine<S, L, R>, tokenizer: Tokenizer, stops: seq<string>, g: Gen<S, R>, input: seq<Token>)
    requires g.finish.Length?
    ensures var (g', err) := Turn(e, tokenizer, stops, g, input);
      err.None? ==>
        |g.generated| <= |g'.generated| <= |g.generated| + 1 &&
        (g'.finish.Length? <==> |g'.generated| == |g.generated| + 1 && NoStopHit(tokenizer, stops, g'.generated))
  {
  }

  lemma {:induction false} TurnsFinish<S, L, R>(e: Engine<S, L, R>, tokenizer: Tokenizer, stops: seq<string>, g: Gen<S, R>, k: nat)
    requires g.inputIds != [] && g.finish.Length? && NoStopHit(tokenizer, stops, g.generated)
    ensures var (g', err) := Turns(e, tokenizer, stops, g, k);
      err.None? ==>
        |g'.generated| <= |g.generated| + k &&
        (g'.finish.Length? <==> |g'.generated| == |g.generated| + k && NoStopHit(tokenizer, stops, g'.generated))
    decreases k
  {
    hide Turn;
    if k == 0 {
    } else {
      var last := [g.inputIds[|g.inputIds| - 1]];
      TurnFinishes(e, tokenizer, stops, g, last);
      var (g', err) := Turn(e, tokenizer, stops, g, last);
      if err.None? && g'.finish.Length? {
        TurnsFinish(e, tokenizer, stops, g', k - 1);
      }
    }
  }

  /**
   The loop produces at most `maxTokens` tokens, and reports "length" exactly
   when it produced that many and no stop sequence shows in them (an end-of-text
   token produces nothing, so it always leaves the count short).
   */
  lemma FinishReasonIsExact<S, L, R>(e: Engine<S, L, R>, tokenizer: Tokenizer, stops: seq<string>,
                                    ids: seq<Token>, maxTokens: nat, model: S, rng: R)
    requires ids != [] && maxTokens >= 1
    ensures var (g, err) := Generated(e, tokenizer, stops, ids, maxTokens, model, rng);
      err.None? ==>
        |g.generated| <= maxTokens &&
        (g.finish.Length? <==> |g.generated| == maxTokens && NoStopHit(tokenizer, stops, g.generated))
  {
    hide Turn;
    var g0 := Started(ids, model, rng);
    TurnFinishes(e, tokenizer, stops, g0, ids);
    var (g, err) := Turn(e, tokenizer, stops, g0, ids);
    if err.None? && g.finish.Length? {
      TurnsFinish(e, tokenizer, stops, g, maxTokens - 1);
    }
  }

  // --------------------------------------------- streamed and returned text

  /** Decoding one more token only ever extends the text. */
  ghost predicate Monotone(tokenizer: Tokenizer) {
    tokenizer.decode([]) == Some("") &&
    forall ids: seq<Token>, t: Token ::
      tokenizer.decode(ids).Some? && tokenizer.decode(ids + [t]).Some? ==>
        tokenizer.decode(ids).value <= tokenizer.decode(ids + [t]).value
  }

  /** No complete, non-empty stop sequence shows in `text`. */
  ghost predicate FreeOfStops(text: string, stops: seq<string>) {
    forall k :: 0 <= k < |stops| && stops[k] != "" ==> !Occurs(text, stops[k])
  }

  /** The text decoded before the last token was generated. */
  function PreviousText(tokenizer: Tokenizer, generated: seq<Token>): string {
    if generated == [] then ""
    else
      var before := tokenizer.decode(generated[..|generated| - 1]);
      if before.Some? then before.value else ""
  }

  /** What the deltas add up to, as a function of the tokens generated. */
  ghost predicate StreamedAsExpected(tokenizer: Tokenizer, stops: seq<string>, generated: seq<Token>, deltas: seq<string>, emitted: nat) {
    tokenizer.decode(generated).Some? && emitted == |Concat(deltas)| &&
    var full := tokenizer.decode(generated).value;
    var previous := PreviousText(tokenizer, generated);
    var stop := FirstStop(full, stops);
    previous <= full && FreeOfStops(previous, stops) &&
    Concat(deltas) ==
      if generated == [] then ""
      else if stop.None? then full
      else if stop.value > |previous| then full[..stop.value]
      else previous
  }

  lemma FirstStopCutsClean(full: string, stops: seq<string>)
    ensures FreeOfStops(Visible(full, stops), stops)
  {
    var stop := FirstStop(full, stops);
    if stop.Some? {
      forall k, i: nat | 0 <= k < |stops| && stops[k] != "" && i <= |full[..stop.value]|
        ensures !OccursAt(full[..stop.value], stops[k], i)
      {
        assert full[..stop.value] + full[stop.value..] == full;
        OccursAtExtends(full[..stop.value], full[stop.value..], stops[k], i);
      }
    }
  }

  /** The invariant of the loop while it runs: everything decoded has been streamed. */
  ghost predicate StreamingAll(tokenizer: Tokenizer, generated: seq<Token>, deltas: seq<string>, emitted: nat) {
    tokenizer.decode(generated) == Some(Concat(deltas)) && emitted == |Concat(deltas)|
  }

  /** A flush appends what the text shows beyond what was streamed, and notes a stop. */
  lemma FlushAdds<S, R>(tokenizer: Tokenizer, stops: seq<string>, g: Gen<S, R>)
    requires g.emitted == |Concat(g.deltas)| && tokenizer.decode(g.generated).Some?
    ensures var (g', err) := Flush(tokenizer, stops, g);
      var text, before := Visible(tokenizer.decode(g.generated).value, stops), Concat(g.deltas);
      err.None? && g'.generated == g.generated &&
      Concat(g'.deltas) == (if |text| > |before| then before + text[|before|..] else before) &&
      g'.emitted == |Concat(g'.deltas)| &&
      g'.finish == (if FirstStop(tokenizer.decode(g.generated).value, stops).Some? then Stop else g.finish)
  {
    hide Visible, FirstStop;
    var text := Visible(tokenizer.decode(g.generated).value, stops);
    if |text| > g.emitted {
      ConcatAppend(g.deltas, text[g.emitted..]);
    }
  }

  /** What a stream that was up to date becomes, in terms of the new text. */
  lemma StreamAdvances(full: string, previous: string, stops: seq<string>)
    requires previous <= full
    ensures var text, stop := Visible(full, stops), FirstStop(full, stops);
      (if |text| > |previous| then previous + text[|previous|..] else previous) ==
      (if stop.None? then full else if stop.value > |previous| then full[..stop.value] else previous)
  {
    hide FirstStop;
    var text, stop := Visible(full, stops), FirstStop(full, stops);
    assert text == (if stop.Some? then full[..stop.value] else full) && (stop.Some? ==> stop.value <= |full|);
    hide Visible;
    if |text| > |previous| {
      assert text[..|previous|] == full[..|previous|] == previous;
      assert previous + text[|previous|..] == text;
    }
  }

  lemma PreviousIs(tokenizer: Tokenizer, generated: seq<Token>, t: Token, text: string)
    requires Monotone(tokenizer) && tokenizer.decode(generated) == Some(text)
    ensures PreviousText(tokenizer, generated + [t]) == text
    ensures tokenizer.decode(generated + [t]).Some? ==> text <= tokenizer.decode(generated + [t]).value
  {
    assert (generated + [t])[..|generated|] == generated;
  }

  /** A stream that was up to date with `previous` and advanced to `tokens` adds up to what is expected. */
  lemma AdvancedAsExpected(tokenizer: Tokenizer, stops: seq<string>, tokens: seq<Token>, previous: string, deltas: seq<string>)
    requires tokens != [] && tokenizer.decode(tokens).Some?
    requires PreviousText(tokenizer, tokens) == previous <= tokenizer.decode(tokens).value && FreeOfStops(previous, stops)
    requires var full := tokenizer.decode(tokens).value;
      var text := Visible(full, stops);
      Concat(deltas) == if |text| > |previous| then previous + text[|previous|..] else previous
    ensures StreamedAsExpected(tokenizer, stops, tokens, deltas, |Concat(deltas)|)
    ensures NoStopHit(tokenizer, stops, tokens) ==>
      StreamingAll(tokenizer, tokens, deltas, |Concat(deltas)|) && FreeOfStops(Concat(deltas), stops)
  {
    hide PreviousText, FreeOfStops, Concat;
    var full := tokenizer.decode(tokens).value;
    StreamAdvances(full, previous, stops);
    FirstStopCutsClean(full, stops);
    assert FirstStop(full, stops).None? ==> Visible(full, stops) == full;
    hide FirstStop, Visible;
  }

  lemma FlushStreams<S, R>(tokenizer: Tokenizer, stops: seq<string>, g: Gen<S, R>, t: Token)
    requires Monotone(tokenizer) && StreamingAll(tokenizer, g.generated, g.deltas, g.emitted) && FreeOfStops(Concat(g.deltas), stops)
    ensures var (g', err) := Flush(tokenizer, stops, g.(generated := g.generated + [t]));
      err.None? ==>
        StreamedAsExpected(tokenizer, stops, g'.generated, g'.deltas, g'.emitted) &&
        (NoStopHit(tokenizer, stops, g'.generated) ==>
          StreamingAll(tokenizer, g'.generated, g'.deltas, g'.emitted) && FreeOfStops(Concat(g'.deltas), stops))
  {
    var tokens := g.generated + [t];
    var advanced := g.(generated := tokens);
    if tokenizer.decode(tokens).Some? {
      PreviousIs(tokenizer, g.generated, t, Concat(g.deltas));
      FlushAdds(tokenizer, stops, advanced);
      hide Flush, Monotone, FreeOfStops, FirstStop, Visible, PreviousText, StreamedAsExpected;
      AdvancedAsExpected(tokenizer, stops, tokens, Concat(g.deltas), Flush(tokenizer, stops, advanced).0.deltas);
    }
  }

  /** Ready to absorb another token, and what absorbing it leads to. */
  ghost predicate Streaming(tokenizer: Tokenizer, stops: seq<string>, generated: seq<Token>, deltas: seq<string>, emitted: nat) {
    StreamingAll(tokenizer, generated, deltas, emitted) && FreeOfStops(Concat(deltas), stops) &&
    (generated == [] || StreamedAsExpected(tokenizer, stops, generated, deltas, emitted))
  }

  lemma AbsorbStreams<S, R>(tokenizer: Tokenizer, stops: seq<string>, g: Gen<S, R>, next: Token)
    requires Monotone(tokenizer) && g.finish.Length? && Streaming(tokenizer, stops, g.generated, g.deltas, g.emitted)
    ensures var (g', err) := Absorb(tokenizer, stops, g, next);
      err.None? ==>
        StreamedAsExpected(tokenizer, stops, g'.generated, g'.deltas, g'.emitted) &&
        (g'.finish.Length? ==> Streaming(tokenizer, stops, g'.generated, g'.deltas, g'.emitted))
  {
    if IsEos(tokenizer, next) {
    } else {
      FlushStreams(tokenizer, stops, g, next);
    }
  }

  lemma TurnStreams<S, L, R>(e: Engine<S, L, R>, tokenizer: Tokenizer, stops: seq<string>, g: Gen<S, R>, input: seq<Token>)
    requires Monotone(tokenizer) && g.finish.Length? && Streaming(tokenizer, stops, g.generated, g.deltas, g.emitted)
    ensures var (g', err) := Turn(e, tokenizer, stops, g, input);
      err.None? ==>
        StreamedAsExpected(tokenizer, stops, g'.generated, g'.deltas, g'.emitted) &&
        (g'.finish.Length? ==> Streaming(tokenizer, stops, g'.generated, g'.deltas, g'.emitted))
  {
    hide Absorb, Streaming, StreamedAsExpected;
    var (logits, model) := e.forward(g.model, input, g.offset);
    if logits.Some? {
      var drawn := e.sample(g.rng, logits.value);
      if drawn.Some? {
        var (next, rng) := drawn.value;
        AbsorbStreams(tokenizer, stops,
                      g.(model := model, feeds := g.feeds + [(input, g.offset)],
                         rng := rng, offset := g.offset + |input|, inputIds := g.inputIds + [next]), next);
      }
    }
  }

  lemma {:induction false} TurnsStream<S, L, R>(e: Engine<S, L, R>, tokenizer: Tokenizer, stops: seq<string>, g: Gen<S, R>, k: nat)
    requires Monotone(tokenizer) && g.inputIds != [] && StreamedAsExpected(tokenizer, stops, g.generated, g.deltas, g.emitted)
    requires g.finish.Length? ==> Streaming(tokenizer, stops, g.generated, g.deltas, g.emitted)
    ensures var (g', err) := Turns(e, tokenizer, stops, g, k);
      err.None? ==> StreamedAsExpected(tokenizer, stops, g'.generated, g'.deltas, g'.emitted)
    decreases k
  {
    hide Turn;
    if k == 0 {
    } else if g.finish.Length? {
      var last := [g.inputIds[|g.inputIds| - 1]];
      TurnStreams(e, tokenizer, stops, g, last);
      var (g', err) := Turn(e, tokenizer, stops, g, last);
      if err.None? {
        TurnsStream(e, tokenizer, stops, g', k - 1);
      }
    }
  }

  /** What the deltas add up to decides how they compare with the returned text. */
  lemma ExpectedVersusReturned<S, R>(tokenizer: Tokenizer, stops: seq<string>, g: Gen<S, R>)
    requires StreamedAsExpected(tokenizer, stops, g.generated, g.deltas, g.emitted) && (g.generated == [] ==> tokenizer.decode([]) == Some(""))
    ensures var full := tokenizer.decode(g.generated).value;
      var text, streamed := Visible(full, stops), Concat(g.deltas);
      text <= streamed && FreeOfStops(text, stops) && FreeOfStops(streamed, stops) &&
      (text == streamed <==> FirstStop(full, stops).None? ||
                             FirstStop(full, stops).value >= |PreviousText(tokenizer, g.generated)|)
  {
    var full := tokenizer.decode(g.generated).value;
    FirstStopCutsClean(full, stops);
    var stop, previous := FirstStop(full, stops), PreviousText(tokenizer, g.generated);
    if g.generated != [] && stop.Some? && stop.value <= |previous| {
      assert full[..stop.value] == previous[..stop.value];
    }
  }

  /** A run that ends without an error has streamed what its tokens decode to. */
  lemma GeneratedStreams<S, L, R>(e: Engine<S, L, R>, tokenizer: Tokenizer, stops: seq<string>,
                                  ids: seq<Token>, maxTokens: nat, model: S, rng: R)
    requires ids != [] && maxTokens >= 1 && Monotone(tokenizer)
    requires Generated(e, tokenizer, stops, ids, maxTokens, model, rng).1.None?
    ensures var g := Generated(e, tokenizer, stops, ids, maxTokens, model, rng).0;
      StreamedAsExpected(tokenizer, stops, g.generated, g.deltas, g.emitted)
  {
    hide Turn;
    var g0 := Started(ids, model, rng);
    TurnStreams(e, tokenizer, stops, g0, ids);
    TurnsStream(e, tokenizer, stops, Turn(e, tokenizer, stops, g0, ids).0, maxTokens - 1);
  }

  /**
   With a decoder that only extends: the returned text is a prefix of what was
   streamed, neither shows a complete stop sequence, and they are equal if and
   only if no stop was hit or the earliest one begins at or after the text that
   had been decoded before the last token.
   */
  lemma ReturnedVersusStreamed<S, L, R>(e: Engine<S, L, R>, tokenizer: Tokenizer, stops: seq<string>,
                                       ids: seq<Token>, maxTokens: nat, model: S, rng: R)
    requires ids != [] && maxTokens >= 1 && Monotone(tokenizer)
    requires Generated(e, tokenizer, stops, ids, maxTokens, model, rng).1.None?
    ensures var g := Generated(e, tokenizer, stops, ids, maxTokens, model, rng).0;
      tokenizer.decode(g.generated).Some? &&
      var full := tokenizer.decode(g.generated).value;
      var text, streamed := Visible(full, stops), Concat(g.deltas);
      text <= streamed && FreeOfStops(text, stops) && FreeOfStops(streamed, stops) &&
      (text == streamed <==> FirstStop(full, stops).None? ||
                             FirstStop(full, stops).value >= |PreviousText(tokenizer, g.generated)|)
  {
    hide Generated;
    GeneratedStreams(e, tokenizer, stops, ids, maxTokens, model, rng);
    ExpectedVersusReturned(tokenizer, stops, Generated(e, tokenizer, stops, ids, maxTokens, model, rng).0);
  }

  /** A byte-fallback decoder: half a character decodes to U+FFFD, both halves to the letter. */
  function ReplacementTokenizer(): Tokenizer {
    Tokenizer(_ => Some([0]),
              (ids: seq<Token>) => Some(if ids == [] then "" else if |ids| == 1 then "\U{FFFD}" else "e"),
              _ => None)
  }

  /** A model and a sampler that always come up with token 0. */
  function ZeroEngine(): Engine<int, int, int> {
    Engine((m: int, toks: seq<Token>, pos: nat) => (Some(0), m), (m: int) => m, true, (r: int, logits: int) => Some((0, r)))
  }

  /** One turn of the two: the first streams the replacement, a second adds nothing. */
  lemma ReplacementTurn(g: Gen<int, int>, input: seq<Token>)
    requires g.finish.Length? && |g.generated| <= 1
    requires if g.generated == [] then g.deltas == [] && g.emitted == 0 else g.deltas == ["\U{FFFD}"] && g.emitted == 1
    ensures var (g', err) := Turn(ZeroEngine(), ReplacementTokenizer(), [], g, input);
      err.None? && g'.finish.Length? && g'.inputIds != [] && g'.deltas == ["\U{FFFD}"] && g'.emitted == 1 &&
      g'.generated == g.generated + [0]
  {
  }

  /** Without monotone decoding the promise fails: streamed "\U{FFFD}", returned "e". */
  lemma ReplacementBreaksThePrefix()
    ensures var g := Generated(ZeroEngine(), ReplacementTokenizer(), [], [0], 2, 0, 0).0;
      Concat(g.deltas) == "\U{FFFD}" && Visible(ReplacementTokenizer().decode(g.generated).value, []) == "e"
  {
    var e, tokenizer := ZeroEngine(), ReplacementTokenizer();
    hide Turn, ZeroEngine;
    ReplacementTurn(Started([0], 0, 0), [0]);
    var g1 := Turn(e, tokenizer, [], Started([0], 0, 0), [0]).0;
    var last := [g1.inputIds[|g1.inputIds| - 1]];
    ReplacementTurn(g1, last);
    var g2 := Turn(e, tokenizer, [], g1, last).0;
    assert Turns(e, tokenizer, [], g1, 1) == Turns(e, tokenizer, [], g2, 0) == (g2, None);
    assert Concat(["\U{FFFD}"]) == "\U{FFFD}" by { assert ["\U{FFFD}"][..0] == []; }
  }

  // ------------------------------------------------------- whole sessions

  /** Calls one after another, as the model lock serialises them. */
  ghost function Session<S, L, R>(e: Engine<S, L, R>, tokenizer: Tokenizer, bos: Option<Token>,
                                  model: S, served: bool, requests: seq<Request<R>>)
      : (r: seq<(Result<Generation, GenerateError>, seq<string>)>)
    ensures |r| == |requests|
    decreases |requests|
  {
    if requests == [] then []
    else
      var first := Serve(e, tokenizer, bos, model, served, requests[0]);
      [(first.result, first.deltas)] + Session(e, tokenizer, bos, first.model, first.served, requests[1..])
  }

  /** Clearing leaves nothing of what the model held to show in an answer. */
  lemma ServedAlone<S, L, R>(e: Engine<S, L, R>, tokenizer: Tokenizer, bos: Option<Token>,
                             model: S, served: bool, request: Request<R>, untouched: S)
    requires e.cleared && e.clear(model) == e.clear(untouched)
    ensures var answer, alone := Serve(e, tokenizer, bos, model, served, request), Serve(e, tokenizer, bos, untouched, false, request);
      answer.result == alone.result && answer.deltas == alone.deltas
  {
    hide Generated, WithBos, Concluded;
  }

  /** A family that clears its cache: each answer depends on its own request only. */
  lemma {:induction false} ClearingIsolatesRequests<S(!new), L, R>(e: Engine<S, L, R>, tokenizer: Tokenizer, bos: Option<Token>,
                                                  model: S, served: bool, requests: seq<Request<R>>, untouched: S, k: nat)
    requires e.cleared && (forall m: S, m': S :: e.clear(m) == e.clear(m')) && k < |requests|
    ensures var alone := Serve(e, tokenizer, bos, untouched, false, requests[k]);
      Session(e, tokenizer, bos, model, served, requests)[k] == (alone.result, alone.deltas)
    decreases k
  {
    hide Serve;
    if k == 0 {
      ServedAlone(e, tokenizer, bos, model, served, requests[0], untouched);
    } else {
      var first := Serve(e, tokenizer, bos, model, served, requests[0]);
      ClearingIsolatesRequests(e, tokenizer, bos, first.model, first.served, requests[1..], untouched, k - 1);
    }
  }

  /** Which part of a turn fails, it says. */
  lemma TurnFails<S, L, R>(e: Engine<S, L, R>, tokenizer: Tokenizer, stops: seq<string>, g: Gen<S, R>, input: seq<Token>)
    ensures var err := Turn(e, tokenizer, stops, g, input).1;
      var logits := e.forward(g.model, input, g.offset).0;
      (err == Some(ForwardFailed) <==> logits.None?) &&
      (err == Some(SampleFailed) <==> logits.Some? && e.sample(g.rng, logits.value).None?) &&
      err in {None, Some(ForwardFailed), Some(SampleFailed), Some(DecodeFailed)}
  {
  }

  lemma {:induction false} LoopFails<S, L, R>(e: Engine<S, L, R>, tokenizer: Tokenizer, stops: seq<string>, g: Gen<S, R>, k: nat)
    requires g.inputIds != []
    ensures Turns(e, tokenizer, stops, g, k).1 in {None, Some(ForwardFailed), Some(SampleFailed), Some(DecodeFailed)}
    decreases k
  {
    hide Turn;
    if k == 0 {
    } else if g.finish.Length? {
      var last := [g.inputIds[|g.inputIds| - 1]];
      TurnFails(e, tokenizer, stops, g, last);
      var (g', err) := Turn(e, tokenizer, stops, g, last);
      if err.None? {
        LoopFails(e, tokenizer, stops, g', k - 1);
      }
    }
  }

  /** The fail-closed refusal comes from the latch and from nothing else. */
  lemma RefusedOnlyByTheLatch<S, L, R>(e: Engine<S, L, R>, tokenizer: Tokenizer, bos: Option<Token>,
                                       model: S, served: bool, request: Request<R>)
    ensures Serve(e, tokenizer, bos, model, served, request).result == Err(SessionRetained) <==> !e.cleared && served
  {
    hide Turn;
    var encoded := tokenizer.encode(request.prompt);
    if encoded.Some? && WithBos(encoded.value, bos) != [] {
      var ids := WithBos(encoded.value, bos);
      var reset := if e.cleared then e.clear(model) else model;
      var stops := if request.stop.Some? then request.stop.value else [];
      var g0 := Started(ids, reset, request.rng);
      TurnFails(e, tokenizer, stops, g0, ids);
      var (g, err) := Turn(e, tokenizer, stops, g0, ids);
      if err.None? {
        LoopFails(e, tokenizer, stops, g, ClampTokens(request.maxTokens) - 1);
      }
    }
  }

  /** A family that retains its cache admits its first call and refuses all others. */
  lemma {:induction false} RetainedServesOnce<S, L, R>(e: Engine<S, L, R>, tokenizer: Tokenizer, bos: Option<Token>,
                                                       model: S, served: bool, requests: seq<Request<R>>, k: nat)
    requires !e.cleared && k < |requests|
    ensures Session(e, tokenizer, bos, model, served, requests)[k].0 == Err(SessionRetained) <==> served || k > 0
    decreases k
  {
    hide Serve;
    RefusedOnlyByTheLatch(e, tokenizer, bos, model, served, requests[0]);
    if k == 0 {
    } else {
      var first := Serve(e, tokenizer, bos, model, served, requests[0]);
      RetainedServesOnce(e, tokenizer, bos, first.model, first.served, requests[1..], k - 1);
    }
  }
}

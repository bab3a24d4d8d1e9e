/**
 What a call of `generate_streaming` owes the request it was given
 (src/native/decoder.rs): its stop sequences, its token limit and its counts.
 */
module ServedRequests {
  import opened Wrappers
  import opened Text
  import opened Decoder
  import opened GenerationLoop
  import opened StreamedText

  /** The stop sequences of a request; none if it brings none. */
  function StopsOf<R>(request: Request<R>): seq<string> {
    if request.stop.Some? then request.stop.value else []
  }

  /** `text` is all of `full` before the earliest place where any stop sequence begins. */
  predicate CutAtStop(full: string, stops: seq<string>, text: string) {
    text <= full &&
    (forall k, i: nat :: 0 <= k < |stops| && i < |text| ==> !OccursAt(full, stops[k], i)) &&
    (StopOccurs(full, stops) ==> exists k :: 0 <= k < |stops| && OccursAt(full, stops[k], |text|)) &&
    (!StopOccurs(full, stops) ==> text == full)
  }

  predicate StopOccurs(full: string, stops: seq<string>) {
    exists k, i: nat :: 0 <= k < |stops| && i <= |full| && OccursAt(full, stops[k], i)
  }

  lemma VisibleIsCut(full: string, stops: seq<string>)
    ensures CutAtStop(full, stops, Visible(full, stops))
    ensures FirstStop(full, stops).None? <==> !StopOccurs(full, stops)
  {
    hide OccursAt;
  }

  /** Some run of this request answers `generation` and streams `deltas`. */
  ghost predicate Answers<R>(tokenizer: Tokenizer, bos: Option<Token>, request: Request<R>,
                             generation: Generation, deltas: seq<string>, generated: seq<Token>) {
    tokenizer.decode(generated).Some? && |generated| == generation.completionTokens &&
    CutAtStop(tokenizer.decode(generated).value, StopsOf(request), generation.text) &&
    Concat(deltas) == Emitted(tokenizer, StopsOf(request), generated) &&
    generation.completionTokens <= ClampTokens(request.maxTokens) &&
    (generation.finishReason.Length? <==>
      generation.completionTokens == ClampTokens(request.maxTokens) &&
      !StopOccurs(tokenizer.decode(generated).value, StopsOf(request)))
  }

  /**
   MAIN: what a call answers is a generation for this very request: its text is cut
   at the earliest of the request's own stop sequences and shows none of them, its
   tokens stay within the request's limit and reach it exactly where "length" is
   reported, its prompt is the encoded prompt with the leading token added at most
   once, and its deltas are what those tokens stream.
   */
  lemma ServeAnswersTheRequest<S, L, R>(e: Engine<S, L, R>, tokenizer: Tokenizer, bos: Option<Token>,
                                        model: S, served: bool, request: Request<R>)
    requires Serve(e, tokenizer, bos, model, served, request).result.Ok?
    ensures var answer := Serve(e, tokenizer, bos, model, served, request);
      var generation := answer.result.value;
      FreeOfStops(generation.text, StopsOf(request)) &&
      tokenizer.encode(request.prompt).Some? &&
      (var ids := tokenizer.encode(request.prompt).value;
       generation.promptTokens == |ids| + (if bos.Some? && !([bos.value] <= ids) then 1 else 0)) &&
      exists generated :: Answers(tokenizer, bos, request, generation, answer.deltas, generated)
  {
    hide Generated, WithBos, ClampTokens, FirstStop, Visible, Emitted, CutAtStop, FreeOfStops;
    var ids := WithBos(tokenizer.encode(request.prompt).value, bos);
    var stops, limit := StopsOf(request), ClampTokens(request.maxTokens);
    var reset := if e.cleared then e.clear(model) else model;
    var (g, err) := Generated(e, tokenizer, stops, ids, limit, reset, request.rng);
    RunEmits(e, tokenizer, stops, ids, limit, reset, request.rng);
    FinishReasonIsExact(e, tokenizer, stops, ids, limit, reset, request.rng);
    var full := tokenizer.decode(g.generated).value;
    VisibleIsCut(full, stops);
    FirstStopCutsClean(full, stops);
    var answer := Serve(e, tokenizer, bos, model, served, request);
    assert Answers(tokenizer, bos, request, answer.result.value, answer.deltas, g.generated);
  }

  /** With a decoder that only extends, the deltas show none of the request's stop sequences either. */
  lemma DeltasShowNoStop<S, L, R>(e: Engine<S, L, R>, tokenizer: Tokenizer, bos: Option<Token>,
                                  model: S, served: bool, request: Request<R>)
    requires Monotone(tokenizer) && Serve(e, tokenizer, bos, model, served, request).result.Ok?
    ensures var answer := Serve(e, tokenizer, bos, model, served, request);
      FreeOfStops(Concat(answer.deltas), StopsOf(request)) && answer.result.value.text <= Concat(answer.deltas)
  {
    hide Generated, WithBos, ClampTokens, FirstStop, Visible, FreeOfStops, Monotone;
    var ids := WithBos(tokenizer.encode(request.prompt).value, bos);
    var reset := if e.cleared then e.clear(model) else model;
    ReturnedVersusStreamed(e, tokenizer, StopsOf(request), ids, ClampTokens(request.maxTokens), reset, request.rng);
  }

  // ----------------------------------------------------------- when it fails

  /** Which refusals come from the request alone. */
  lemma RefusedRequests<S, L, R>(e: Engine<S, L, R>, tokenizer: Tokenizer, bos: Option<Token>,
                                 model: S, served: bool, request: Request<R>)
    ensures var result := Serve(e, tokenizer, bos, model, served, request).result;
      (result == Err(TokenizeFailed) <==> (e.cleared || !served) && tokenizer.encode(request.prompt).None?) &&
      (result == Err(EmptyPrompt) <==> (e.cleared || !served) && tokenizer.encode(request.prompt) == Some([]) && bos.None?)
  {
    hide Turn;
    var encoded := tokenizer.encode(request.prompt);
    if encoded.Some? && WithBos(encoded.value, bos) != [] {
      var ids := WithBos(encoded.value, bos);
      var reset := if e.cleared then e.clear(model) else model;
      var g0 := Started(ids, reset, request.rng);
      TurnFails(e, tokenizer, StopsOf(request), g0, ids);
      var (g, err) := Turn(e, tokenizer, StopsOf(request), g0, ids);
      if err.None? {
        LoopFails(e, tokenizer, StopsOf(request), g, ClampTokens(request.maxTokens) - 1);
      }
    }
  }

  /** The names by which a token ends the text; no such token is part of an answer. */
  lemma EndTokensAreNotAnswered(tokenizer: Tokenizer, stops: seq<string>, generated: seq<Token>, t: Token)
    requires Producible(tokenizer, stops, generated)
    requires tokenizer.idToToken(t).Some? &&
             tokenizer.idToToken(t).value in {"</s>", "<|endoftext|>", "<end_of_turn>", "<turn|>", "<eos>"}
    ensures t !in generated
  {
  }
}

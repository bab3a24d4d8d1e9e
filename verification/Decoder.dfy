/**
 The native generation loop (src/native/decoder.rs).

 The model, the sampler and the tokenizer are parameters: `forward` maps a
 model state, the fed tokens and an offset to logits and the next model state.
 */
module Decoder {
  import opened Wrappers
  import opened Text

  type Token = nat

  datatype Tokenizer = Tokenizer(
    encode: string -> Option<seq<Token>>,
    decode: seq<Token> -> Option<string>,
    idToToken: Token -> Option<string>
  )

  /** `S` is the model's state (its caches), `L` its logits, `R` the sampler's state. */
  datatype Engine<!S, !L, !R> = Engine(
    forward: (S, seq<Token>, nat) -> (Option<L>, S),
    clear: S -> S,
    cleared: bool,                      // whether this family's cache can be cleared
    sample: (R, L) -> Option<(Token, R)>
  )

  datatype Request<R> = Request(
    prompt: string,
    maxTokens: Option<nat>,
    stop: Option<seq<string>>,
    rng: R
  )

  datatype FinishReason = Length | Stop

  datatype Generation = Generation(
    text: string,
    promptTokens: nat,
    completionTokens: nat,
    finishReason: FinishReason
  )

  datatype GenerateError =
    | SessionRetained
    | TokenizeFailed
    | EmptyPrompt
    | ForwardFailed
    | SampleFailed
    | DecodeFailed

  // ----------------------------------------------------------- small pieces

  function ClampTokens(requested: Option<nat>): (n: nat)
    ensures 1 <= n <= 4096
    ensures requested.Some? && 1 <= requested.value <= 4096 ==> n == requested.value
    ensures requested.None? ==> n == 128
    ensures requested == Some(0) ==> n == 1
    ensures requested.Some? && requested.value > 4096 ==> n == 4096
  {
    var tokens := if requested.Some? then requested.value else 128;
    if tokens < 1 then 1 else if tokens > 4096 then 4096 else tokens
  }

  function WithBos(ids: seq<Token>, bos: Option<Token>): (r: seq<Token>)
    ensures bos.Some? ==> r != [] && r[0] == bos.value
    ensures r == ids || (|r| == |ids| + 1 && r[1..] == ids)
    ensures r != ids <==> bos.Some? && !([bos.value] <= ids)
  {
    if bos.None? || (ids != [] && ids[0] == bos.value) then ids else [bos.value] + ids
  }

  predicate IsEos(tokenizer: Tokenizer, token: Token) {
    var name := tokenizer.idToToken(token);
    name.Some? && name.value in ["</s>", "<|endoftext|>", "<end_of_turn>", "<turn|>", "<eos>"]
  }

  /** The earliest occurrence of any stop sequence. */
  function FirstStop(full: string, stops: seq<string>): (r: Option<nat>)
    ensures r.Some? ==> r.value <= |full| && exists k :: 0 <= k < |stops| && OccursAt(full, stops[k], r.value)
    ensures r.Some? ==> forall k, i: nat :: 0 <= k < |stops| && i < r.value ==> !OccursAt(full, stops[k], i)
    ensures r.None? ==> forall k, i: nat :: 0 <= k < |stops| ==> !OccursAt(full, stops[k], i)
  {
    if stops == [] then None
    else
      var n := |stops| - 1;
      var rest := FirstStop(full, stops[..n]);
      var here := FindFrom(full, stops[n], 0);
      if here.None? then rest
      else if rest.None? || here.value < rest.value then
        assert OccursAt(full, stops[n], here.value);
        here
      else
        assert exists k :: 0 <= k < n && OccursAt(full, stops[..n][k], rest.value);
        rest
  }

  function Visible(full: string, stops: seq<string>): string {
    var stop := FirstStop(full, stops);
    if stop.Some? then full[..stop.value] else full
  }

  // --------------------------------------------------- the loop, as functions

  /** The loop's variables; `feeds` records each call of the model. */
  datatype Gen<S, R> = Gen(
    inputIds: seq<Token>,
    generated: seq<Token>,
    offset: nat,
    emitted: nat,
    deltas: seq<string>,
    finish: FinishReason,
    model: S,
    rng: R,
    feeds: seq<(seq<Token>, nat)>
  )

  /** Sends whatever the latest decode shows beyond what was already emitted. */
  function Flush<S, R>(tokenizer: Tokenizer, stops: seq<string>, g: Gen<S, R>): (Gen<S, R>, Option<GenerateError>) {
    match tokenizer.decode(g.generated)
    case None => (g, Some(DecodeFailed))
    case Some(full) =>
      var visible := Visible(full, stops);
      var g' := if |visible| > g.emitted
                then g.(deltas := g.deltas + [visible[g.emitted..]], emitted := |visible|) else g;
      (if FirstStop(full, stops).Some? then g'.(finish := Stop) else g', None)
  }

  /** An end-of-text token ends the loop and is not part of the output. */
  function Absorb<S, R>(tokenizer: Tokenizer, stops: seq<string>, g: Gen<S, R>, next: Token): (r: (Gen<S, R>, Option<GenerateError>))
    ensures r.0.inputIds == g.inputIds && r.0.offset == g.offset && r.0.feeds == g.feeds
    ensures r.0.model == g.model && r.0.rng == g.rng
  {
    if IsEos(tokenizer, next) then (g.(finish := Stop), None)
    else Flush(tokenizer, stops, g.(generated := g.generated + [next]))
  }

  /** One turn: feed `input`, append one sampled token, stream what became visible. */
  function Turn<S, L, R>(e: Engine<S, L, R>, tokenizer: Tokenizer, stops: seq<string>,
                         g: Gen<S, R>, input: seq<Token>): (r: (Gen<S, R>, Option<GenerateError>))
    ensures r.1.None? ==> |r.0.inputIds| == |g.inputIds| + 1 && r.0.inputIds[..|g.inputIds|] == g.inputIds
  {
    var (logits, model) := e.forward(g.model, input, g.offset);
    var fed := g.(model := model, feeds := g.feeds + [(input, g.offset)]);
    if logits.None? then (fed, Some(ForwardFailed))
    else
      var drawn := e.sample(g.rng, logits.value);
      if drawn.None? then (fed, Some(SampleFailed))
      else
        var (next, rng) := drawn.value;
        Absorb(tokenizer, stops, fed.(rng := rng, offset := g.offset + |input|, inputIds := g.inputIds + [next]), next)
  }

  /** At most `k` further one-token turns. */
  function Turns<S, L, R>(e: Engine<S, L, R>, tokenizer: Tokenizer, stops: seq<string>,
                          g: Gen<S, R>, k: nat): (Gen<S, R>, Option<GenerateError>)
    requires g.inputIds != []
    decreases k
  {
    if k == 0 || g.finish.Stop? then (g, None)
    else
      var (g', err) := Turn(e, tokenizer, stops, g, [g.inputIds[|g.inputIds| - 1]]);
      if err.Some? then (g', err) else Turns(e, tokenizer, stops, g', k - 1)
  }

  function Started<S, R>(ids: seq<Token>, model: S, rng: R): Gen<S, R> {
    Gen(ids, [], 0, 0, [], Length, model, rng, [])
  }

  /** Prefill, then up to `maxTokens - 1` single-token turns. */
  function Generated<S, L, R>(e: Engine<S, L, R>, tokenizer: Tokenizer, stops: seq<string>,
                              ids: seq<Token>, maxTokens: nat, model: S, rng: R): (Gen<S, R>, Option<GenerateError>)
    requires ids != [] && maxTokens >= 1
  {
    var (g, err) := Turn(e, tokenizer, stops, Started(ids, model, rng), ids);
    if err.Some? then (g, err) else Turns(e, tokenizer, stops, g, maxTokens - 1)
  }

  /** The text handed back once the loop has ended. */
  function Concluded<S, R>(tokenizer: Tokenizer, stops: seq<string>, g: Gen<S, R>, promptTokens: nat): Result<Generation, GenerateError> {
    match tokenizer.decode(g.generated)
    case None => Err(DecodeFailed)
    case Some(full) => Ok(Generation(Visible(full, stops), promptTokens, |g.generated|, g.finish))
  }

  /** What one call returns: the result, the streamed deltas, the model and the latch. */
  datatype Served<S> = Served(result: Result<Generation, GenerateError>, deltas: seq<string>, model: S, served: bool)

  function Serve<S, L, R>(e: Engine<S, L, R>, tokenizer: Tokenizer, bos: Option<Token>,
                          model: S, served: bool, request: Request<R>): (r: Served<S>)
    ensures r.served
  {
    var reset := if e.cleared then e.clear(model) else model;
    if !e.cleared && served then Served(Err(SessionRetained), [], reset, true)
    else
      var encoded := tokenizer.encode(request.prompt);
      if encoded.None? then Served(Err(TokenizeFailed), [], reset, true)
      else
        var ids := WithBos(encoded.value, bos);
        if ids == [] then Served(Err(EmptyPrompt), [], reset, true)
        else
          var stops := if request.stop.Some? then request.stop.value else [];
          var (g, err) := Generated(e, tokenizer, stops, ids, ClampTokens(request.maxTokens), reset, request.rng);
          if err.Some? then Served(Err(err.value), g.deltas, g.model, true)
          else Served(Concluded(tokenizer, stops, g, |ids|), g.deltas, g.model, true)
  }

  // ------------------------------------------------------------ the decoder

  class RealCandleDecoder<S, L, R> {
    const engine: Engine<S, L, R>
    const tokenizer: Tokenizer
    const bosTokenId: Option<Token>
    var model: S
    var served: bool

    constructor (engine: Engine<S, L, R>, tokenizer: Tokenizer, bosTokenId: Option<Token>, model: S)
      ensures this.engine == engine && this.tokenizer == tokenizer && this.bosTokenId == bosTokenId
      ensures this.model == model && !served
    {
      this.engine, this.tokenizer, this.bosTokenId := engine, tokenizer, bosTokenId;
      this.model, this.served := model, false;
    }

    /** Clears the cache if this family can; answers whether it did. */
    method ResetKvCache() returns (cleared: bool)
      modifies this`model
      ensures cleared == engine.cleared
      ensures model == if engine.cleared then engine.clear(old(model)) else old(model)
    {
      if engine.cleared {
        model := engine.clear(model);
      }
      cleared := engine.cleared;
    }

    /** Fail closed: a retained cache serves its first generation only. */
    method AdmitFreshKvSession(cleared: bool) returns (admitted: bool)
      modifies this`served
      ensures served
      ensures admitted <==> cleared || !old(served)
    {
      var alreadyServed := served;
      served := true;
      admitted := cleared || !alreadyServed;
    }

    /** Decodes everything generated so far and emits only what is new. */
    method FlushDelta(generated: seq<Token>, stops: seq<string>, emitted: nat)
      returns (hitStop: Option<bool>, delta: string, emitted': nat)
      ensures hitStop.None? <==> tokenizer.decode(generated).None?
      ensures hitStop.None? ==> delta == "" && emitted' == emitted
      ensures hitStop.Some? ==>
        var full := tokenizer.decode(generated).value;
        hitStop.value == FirstStop(full, stops).Some? &&
        emitted' == (if |Visible(full, stops)| > emitted then |Visible(full, stops)| else emitted) &&
        delta == Visible(full, stops)[if |Visible(full, stops)| > emitted then emitted else |Visible(full, stops)|..]
    {
      delta, emitted' := "", emitted;
      var full := tokenizer.decode(generated);
      if full.None? {
        return None, delta, emitted';
      }
      var stop := FirstStop(full.value, stops);
      var visible := if stop.Some? then full.value[..stop.value] else full.value;
      if |visible| > emitted {
        delta := visible[emitted..];
        emitted' := |visible|;
      }
      hitStop := Some(stop.Some?);
    }

    /** Feeds `stepInput` at the current offset, samples a token and streams. */
    method TakeTurn(g: Gen<S, R>, stepInput: seq<Token>, stops: seq<string>)
      returns (g': Gen<S, R>, err: Option<GenerateError>)
      requires g.model == model
      modifies this`model
      ensures (g', err) == Turn(engine, tokenizer, stops, g, stepInput)
      ensures model == g'.model
    {
      var (logits, model') := engine.forward(model, stepInput, g.offset);
      model := model';
      g' := g.(model := model', feeds := g.feeds + [(stepInput, g.offset)]);
      if logits.None? {
        return g', Some(ForwardFailed);
      }
      var drawn := engine.sample(g.rng, logits.value);
      if drawn.None? {
        return g', Some(SampleFailed);
      }
      var (next, rng) := drawn.value;
      g' := g'.(rng := rng, offset := g.offset + |stepInput|, inputIds := g.inputIds + [next]);
      if IsEos(tokenizer, next) {
        g' := g'.(finish := Stop);
        return g', None;
      }
      g' := g'.(generated := g.generated + [next]);
      var hitStop, delta, emitted := FlushDelta(g'.generated, stops, g.emitted);
      if hitStop.None? {
        return g', Some(DecodeFailed);
      }
      if delta != "" {
        g' := g'.(deltas := g.deltas + [delta]);
      }
      g' := g'.(emitted := emitted);
      if hitStop.value {
        g' := g'.(finish := Stop);
      }
      err := None;
    }

    /** The prefill, then the single-token turns. */
    method DecodeTokens(ids: seq<Token>, stops: seq<string>, maxTokens: nat, seed: R)
      returns (g: Gen<S, R>, err: Option<GenerateError>)
      requires ids != [] && maxTokens >= 1
      modifies this`model
      ensures (g, err) == Generated(engine, tokenizer, stops, ids, maxTokens, old(model), seed)
      ensures model == g.model
    {
      hide Turn;
      ghost var whole := Generated(engine, tokenizer, stops, ids, maxTokens, model, seed);
      g, err := TakeTurn(Started(ids, model, seed), ids, stops);
      if err.Some? {
        return;
      }
      var turn := 1;
      while turn < maxTokens && g.finish.Length?
        invariant 1 <= turn <= maxTokens && g.inputIds != [] && g.model == model && err.None?
        invariant Turns(engine, tokenizer, stops, g, maxTokens - turn) == whole
      {
        ghost var before := g;
        var last := [g.inputIds[|g.inputIds| - 1]];
        g, err := TakeTurn(g, last, stops);
        if err.Some? {
          return;
        }
        turn := turn + 1;
      }
    }

    method GenerateStreaming(request: Request<R>)
      returns (result: Result<Generation, GenerateError>, deltas: seq<string>)
      modifies this
      ensures Served(result, deltas, model, served)
           == Serve(engine, tokenizer, bosTokenId, old(model), old(served), request)
    {
      deltas := [];
      var cleared := ResetKvCache();
      var admitted := AdmitFreshKvSession(cleared);
      if !admitted {
        return Err(SessionRetained), deltas;
      }
      var encoded := tokenizer.encode(request.prompt);
      if encoded.None? {
        return Err(TokenizeFailed), deltas;
      }
      var inputIds := encoded.value;
      if bosTokenId.Some? && (inputIds == [] || inputIds[0] != bosTokenId.value) {
        inputIds := [bosTokenId.value] + inputIds;
      }
      if inputIds == [] {
        return Err(EmptyPrompt), deltas;
      }
      var stops := if request.stop.Some? then request.stop.value else [];
      var g, err := DecodeTokens(inputIds, stops, ClampTokens(request.maxTokens), request.rng);
      deltas := g.deltas;
      if err.Some? {
        return Err(err.value), deltas;
      }
      // Decode once more and cut at the earliest stop sequence.
      var full := tokenizer.decode(g.generated);
      if full.None? {
        return Err(DecodeFailed), deltas;
      }
      var text := full.value;
      var stop := FirstStop(text, stops);
      if stop.Some? {
        text := text[..stop.value];
      }
      result := Ok(Generation(text, |inputIds|, |g.generated|, g.finish));
    }
  }
}

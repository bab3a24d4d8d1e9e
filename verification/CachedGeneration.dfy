/**
 The generation loop over the cached transformer answers exactly as it would
 over a model that recomputes the whole prefix for every token
 (src/native/decoder.rs over src/gemma4_gguf/mod.rs).  Recomputation may show
 any number `masked` of rows through the windows: `masked == |ids|` is what the
 cached loop computes for every length, `masked >= MAX_SEQ_LEN` is one plain
 forward of the prefix.
 */
module CachedGeneration {
  import opened Wrappers
  import opened Decoder
  import G = Gemma4
  import C = CachedDecoding

  /** The family `Gemma4Gguf`: the caches are the model's state. */
  ghost function CachedEngine<V, R>(w: G.ModelWeights<V>, sample: (R, V) -> Option<(Token, R)>): Engine<seq<G.Cache<V>>, V, R>
    requires G.SourcesInRange(w)
  {
    Engine((caches: seq<G.Cache<V>>, toks: seq<Token>, pos: nat) =>
             if |caches| == |w.layers| && toks != [] then
               var (out, caches') := G.Forwarded(w, toks, pos, caches);
               (if out.Ok? then Some(out.value) else None, caches')
             else (None, caches),
           (caches: seq<G.Cache<V>>) => G.Cleared(w),
           true,
           sample)
  }

  /** The reference: the state is the prefix itself, recomputed on every call. */
  ghost function RecomputingEngine<V, R>(w: G.ModelWeights<V>, masked: nat, sample: (R, V) -> Option<(Token, R)>): Engine<seq<Token>, V, R>
    requires C.Sourced(w)
  {
    Engine((prefix: seq<Token>, toks: seq<Token>, pos: nat) =>
             if pos <= |prefix| && toks != [] then
               var s := prefix[..pos] + toks;
               (Some(C.Recomputed(w, s, masked)), s)
             else (None, prefix),
           (prefix: seq<Token>) => [],
           true,
           sample)
  }

  /** The two loops agree on everything but the representation of the model's state. */
  predicate SameProgress<S, T, R(==)>(g: Gen<S, R>, h: Gen<T, R>) {
    g.inputIds == h.inputIds && g.generated == h.generated && g.offset == h.offset &&
    g.emitted == h.emitted && g.deltas == h.deltas && g.finish == h.finish &&
    g.rng == h.rng && g.feeds == h.feeds
  }

  /** The caches hold the prefix that has been fed, everything but `input`; its first `prompt` tokens came at once. */
  ghost predicate InStep<V, R>(w: G.ModelWeights<V>, prompt: nat, before: seq<G.Cache<V>>,
                               g: Gen<seq<G.Cache<V>>, R>, h: Gen<seq<Token>, R>, input: seq<Token>)
    requires C.Sourced(w) && |before| == |w.layers|
  {
    SameProgress(g, h) && g.model == C.CachesAfter(w, h.model, prompt, before) &&
    h.inputIds == h.model + input && h.offset == |h.model|
  }

  lemma AbsorbAgrees<S, T, R>(tokenizer: Tokenizer, stops: seq<string>, g: Gen<S, R>, h: Gen<T, R>, next: Token)
    requires SameProgress(g, h)
    ensures var (g', gerr) := Absorb(tokenizer, stops, g, next);
      var (h', herr) := Absorb(tokenizer, stops, h, next);
      gerr == herr && SameProgress(g', h')
  {
  }

  /** Feeding the same tokens at the same place yields the same logits. */
  ghost predicate SameForward<V>(w: G.ModelWeights<V>, masked: nat, prompt: nat, before: seq<G.Cache<V>>,
                                 caches: seq<G.Cache<V>>, prefix: seq<Token>, input: seq<Token>)
    requires C.Sourced(w) && |before| == |w.layers| == |caches| && input != []
  {
    C.SourcedInRange(w);
    G.Forwarded(w, input, |prefix|, caches)
    == (Ok(C.Recomputed(w, prefix + input, masked)), C.CachesAfter(w, prefix + input, prompt, before))
  }

  lemma TurnAgrees<V, R>(w: G.ModelWeights<V>, masked: nat, prompt: nat, before: seq<G.Cache<V>>, sample: (R, V) -> Option<(Token, R)>,
                         tokenizer: Tokenizer, stops: seq<string>,
                         g: Gen<seq<G.Cache<V>>, R>, h: Gen<seq<Token>, R>, input: seq<Token>)
    requires C.Sourced(w) && |before| == |w.layers| == |g.model| && input != []
    requires SameProgress(g, h) && h.inputIds == h.model + input && h.offset == |h.model|
    requires SameForward(w, masked, prompt, before, g.model, h.model, input)
    ensures G.SourcesInRange(w)
    ensures var (g', gerr) := Turn(CachedEngine(w, sample), tokenizer, stops, g, input);
      var (h', herr) := Turn(RecomputingEngine(w, masked, sample), tokenizer, stops, h, input);
      gerr == herr && SameProgress(g', h') &&
      (herr.None? ==> InStep(w, prompt, before, g', h', [h'.inputIds[|h'.inputIds| - 1]]))
  {
    hide Absorb, G.Forwarded, C.Recomputed;
    C.SourcedInRange(w);
    var s := h.model + input;
    assert h.model[..|h.model|] == h.model;
    var caches' := C.CachesAfter(w, s, prompt, before);
    var drawn := sample(h.rng, C.Recomputed(w, s, masked));
    if drawn.Some? {
      var (next, rng) := drawn.value;
      var feeds := h.feeds + [(input, h.offset)];
      AbsorbAgrees(tokenizer, stops,
                   g.(model := caches', feeds := feeds, rng := rng,
                      offset := g.offset + |input|, inputIds := g.inputIds + [next]),
                   h.(model := s, feeds := feeds, rng := rng,
                      offset := h.offset + |input|, inputIds := h.inputIds + [next]), next);
    }
  }

  /** Recomputation with this mask agrees with the cached run of a prompt of `prompt` tokens up to length `n`. */
  ghost predicate Faithful<V>(w: G.ModelWeights<V>, masked: nat, prompt: nat, n: nat) {
    masked == prompt || (n <= prompt && prompt <= masked) || C.FitsWindows(w, n)
  }

  lemma StepAgrees<V>(w: G.ModelWeights<V>, masked: nat, prompt: nat, before: seq<G.Cache<V>>, s: seq<Token>, t: Token)
    requires C.Sourced(w) && |before| == |w.layers| && s != []
    requires prompt <= |s| && |s| + 1 <= G.MAX_SEQ_LEN && Faithful(w, masked, prompt, |s| + 1)
    ensures SameForward(w, masked, prompt, before, C.CachesAfter(w, s, prompt, before), s, [t])
  {
    hide G.Forwarded, C.Recomputed, C.CachesAfter;
    C.DecodeRecomputes(w, s, t, prompt, before);
    C.RecomputedAlike(w, s + [t], prompt, masked);
  }

  lemma FaithfulShorter<V>(w: G.ModelWeights<V>, masked: nat, prompt: nat, m: nat, n: nat)
    requires m <= n && Faithful(w, masked, prompt, n)
    ensures Faithful(w, masked, prompt, m)
  {
    if C.FitsWindows(w, n) {
      C.FitsWindowsShorter(w, m, n);
    }
  }

  lemma {:induction false} TurnsAgree<V, R>(w: G.ModelWeights<V>, masked: nat, prompt: nat, before: seq<G.Cache<V>>,
                           sample: (R, V) -> Option<(Token, R)>, tokenizer: Tokenizer, stops: seq<string>,
                           g: Gen<seq<G.Cache<V>>, R>, h: Gen<seq<Token>, R>, k: nat)
    requires C.Sourced(w) && |before| == |w.layers| && h.model != [] && h.inputIds != []
    requires InStep(w, prompt, before, g, h, [h.inputIds[|h.inputIds| - 1]]) && prompt <= |h.model|
    requires |h.model| + k <= G.MAX_SEQ_LEN && Faithful(w, masked, prompt, |h.model| + k)
    ensures G.SourcesInRange(w)
    ensures var (g', gerr) := Turns(CachedEngine(w, sample), tokenizer, stops, g, k);
      var (h', herr) := Turns(RecomputingEngine(w, masked, sample), tokenizer, stops, h, k);
      gerr == herr && SameProgress(g', h')
    decreases k
  {
    hide Turn, G.Forwarded, C.Recomputed, C.CachesAfter, CachedEngine, RecomputingEngine, Faithful, SameForward;
    C.SourcedInRange(w);
    if k == 0 {
    } else if h.finish.Length? {
      var input := [h.inputIds[|h.inputIds| - 1]];
      FaithfulShorter(w, masked, prompt, |h.model| + 1, |h.model| + k);
      StepAgrees(w, masked, prompt, before, h.model, input[0]);
      TurnAgrees(w, masked, prompt, before, sample, tokenizer, stops, g, h, input);
      var (g', gerr) := Turn(CachedEngine(w, sample), tokenizer, stops, g, input);
      var (h', herr) := Turn(RecomputingEngine(w, masked, sample), tokenizer, stops, h, input);
      if herr.None? {
        TurnsAgree(w, masked, prompt, before, sample, tokenizer, stops, g', h', k - 1);
      }
    }
  }

  /**
   A prompt of `n` tokens and `k` more fit the rotary tables, and recomputation
   masks the prompt only, or one token is asked for, or no window ever binds.
   */
  ghost predicate WithinReach<V>(w: G.ModelWeights<V>, masked: nat, n: nat, k: nat) {
    n + k - 1 <= G.MAX_SEQ_LEN && n <= masked && (masked == n || k <= 1 || C.FitsWindows(w, n + k - 1))
  }

  /**
   MAIN: from any caches, the loop over the cached model and the loop that
   recomputes every prefix generate, stream, count and fail alike: for every
   length when recomputation masks the prompt's rows only, and under any wider
   mask while a single token is asked for or all tokens lie inside the windows.
   */
  lemma CachedGenerationRecomputes<V, R>(w: G.ModelWeights<V>, masked: nat, caches: seq<G.Cache<V>>,
                                         sample: (R, V) -> Option<(Token, R)>, tokenizer: Tokenizer,
                                         stops: seq<string>, ids: seq<Token>, maxTokens: nat, rng: R)
    requires C.Sourced(w) && |caches| == |w.layers| && ids != [] && maxTokens >= 1
    requires WithinReach(w, masked, |ids|, maxTokens)
    ensures G.SourcesInRange(w)
    ensures var (g, gerr) := Generated(CachedEngine(w, sample), tokenizer, stops, ids, maxTokens, caches, rng);
      var (h, herr) := Generated(RecomputingEngine(w, masked, sample), tokenizer, stops, ids, maxTokens, [], rng);
      gerr == herr && SameProgress(g, h)
  {
    hide Turn, G.Forwarded, C.Recomputed, C.CachesAfter, CachedEngine, RecomputingEngine;
    C.SourcedInRange(w);
    var g0, h0 := Started(ids, caches, rng), Started(ids, [], rng);
    C.PrefillRecomputes(w, ids, caches);
    C.RecomputedAlike(w, ids, |ids|, masked);
    assert [] + ids == ids;
    TurnAgrees(w, masked, |ids|, caches, sample, tokenizer, stops, g0, h0, ids);
    var (g, gerr) := Turn(CachedEngine(w, sample), tokenizer, stops, g0, ids);
    var (h, herr) := Turn(RecomputingEngine(w, masked, sample), tokenizer, stops, h0, ids);
    if herr.None? && maxTokens > 1 {
      TurnsAgree(w, masked, |ids|, caches, sample, tokenizer, stops, g, h, maxTokens - 1);
    }
  }

  /** The tokens of a request's prompt, zero if it cannot be encoded. */
  function PromptLength<R>(tokenizer: Tokenizer, bos: Option<Token>, request: Request<R>): nat {
    var encoded := tokenizer.encode(request.prompt);
    if encoded.None? then 0 else |WithBos(encoded.value, bos)|
  }

  /** The same for a whole call: its answer is that of recomputation on a blank model. */
  lemma CachedServeRecomputes<V, R>(w: G.ModelWeights<V>, masked: nat, caches: seq<G.Cache<V>>, served: bool,
                                    sample: (R, V) -> Option<(Token, R)>,
                                    tokenizer: Tokenizer, bos: Option<Token>, request: Request<R>)
    requires C.Sourced(w)
    requires WithinReach(w, masked, PromptLength(tokenizer, bos, request), ClampTokens(request.maxTokens))
    ensures G.SourcesInRange(w)
    ensures var cached := Serve(CachedEngine(w, sample), tokenizer, bos, caches, served, request);
      var reference := Serve(RecomputingEngine(w, masked, sample), tokenizer, bos, [], false, request);
      cached.result == reference.result && cached.deltas == reference.deltas
  {
    hide Generated;
    C.SourcedInRange(w);
    var encoded := tokenizer.encode(request.prompt);
    if encoded.Some? && WithBos(encoded.value, bos) != [] {
      var ids := WithBos(encoded.value, bos);
      var stops := if request.stop.Some? then request.stop.value else [];
      CachedGenerationRecomputes(w, masked, G.Cleared(w), sample, tokenizer, stops, ids,
                                 ClampTokens(request.maxTokens), request.rng);
    }
  }
}

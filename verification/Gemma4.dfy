/**
 The Gemma4 transformer with its per-layer key/value caches
 (src/gemma4_gguf/mod.rs).

 The tensor arithmetic is uninterpreted: a layer is a bundle of total functions
 on row vectors, of an arbitrary type `V`.  What is modelled is everything that
 decides WHICH rows meet: positions, the attention mask, the caches, the layers
 that share another layer's cache, and the errors.
 */
module Gemma4 {
  import opened Wrappers

  /** Rows of the precomputed rotary tables; `narrow` fails past the last one. */
  const MAX_SEQ_LEN: nat := 131072

  type Token = nat

  /** The key row and the value row of one position. */
  type KeyValue<V> = (V, V)

  /** A layer's cache: nothing yet, or one key/value pair per position. */
  type Cache<V> = Option<seq<KeyValue<V>>>

  /** The tensors of one block, as functions of one row. */
  datatype LayerTensors<!V> = LayerTensors(
    query: (V, nat) -> V,             // attn_norm, wq, q_norm, RoPE at the absolute position
    key: (V, nat) -> V,               // attn_norm, wk, k_norm, RoPE at the absolute position
    value: V -> V,                    // attn_norm, wv, plain RMS norm (no position)
    attend: (V, seq<KeyValue<V>>) -> V, // softmax over the visible pairs, wo, post_attn_norm
    finish: (V, V, V) -> V            // residuals, FFN, PLE conditioning, layer scale
  )

  datatype LayerWeights<!V> = LayerWeights(
    tensors: LayerTensors<V>,
    slidingWindow: Option<nat>,
    kvSourceLayer: Option<nat>
  )

  datatype ModelWeights<!V> = ModelWeights(
    embed: Token -> V,                // scaled token embedding
    ple: (Token, nat) -> V,           // per-token, per-layer conditioning signal
    layers: seq<LayerWeights<V>>,
    output: V -> V                    // final norm, LM head, soft cap
  )

  datatype ForwardError =
    | SourceNotPopulated(layer: nat, source: nat)
    | RopeOutOfRange
    | MaskShapeMismatch

  // ---------------------------------------------------------------- masking

  /** The (seq x seq) block of the mask: causal, and at most `window` back. */
  predicate InWindow(window: Option<nat>, i: nat, j: nat) {
    !(i < j || (window.Some? && j + window.value < i))
  }

  /** The whole (seq x (pos + seq)) mask: the first `pos` columns are zeros. */
  predicate Unmasked(window: Option<nat>, pos: nat, i: nat, j: nat) {
    j >= pos && InWindow(window, i, j - pos)
  }

  /** The key/value pairs that row `i` of a masked batch attends to, in order. */
  function Visible<V>(kv: seq<KeyValue<V>>, window: Option<nat>, pos: nat, i: nat): seq<KeyValue<V>> {
    if kv == [] then []
    else
      var j := |kv| - 1;
      Visible(kv[..j], window, pos, i) + (if Unmasked(window, pos, i, j) then [kv[j]] else [])
  }

  /** What row `i` attends to: single-token steps build no mask at all. */
  function Attended<V>(kv: seq<KeyValue<V>>, window: Option<nat>, seqLen: nat, pos: nat, i: nat): seq<KeyValue<V>> {
    if seqLen == 1 then kv else Visible(kv, window, pos, i)
  }

  // ------------------------------------------------- one layer, as functions

  function NewKv<V>(t: LayerTensors<V>, hs: seq<V>, pos: nat): (kv: seq<KeyValue<V>>)
    ensures |kv| == |hs|
  {
    seq(|hs|, i requires 0 <= i < |hs| => (t.key(hs[i], pos + i), t.value(hs[i])))
  }

  /** The cache update of an owning layer: position 0 overwrites, others append. */
  function Extend<V>(cache: Cache<V>, kv: seq<KeyValue<V>>, pos: nat): seq<KeyValue<V>> {
    if cache.None? || pos == 0 then kv else cache.value + kv
  }

  /** The output row `i` of a layer, given the pairs held in `kv`. */
  function LayerRow<V>(w: ModelWeights<V>, toks: seq<Token>, pos: nat, l: nat,
                       hs: seq<V>, kv: seq<KeyValue<V>>, i: nat): V
    requires l < |w.layers| && |hs| == |toks| && i < |hs|
  {
    var lw := w.layers[l];
    var q := lw.tensors.query(hs[i], pos + i);
    var attn := lw.tensors.attend(q, Attended(kv, lw.slidingWindow, |toks|, pos, i));
    lw.tensors.finish(hs[i], attn, w.ple(toks[i], l))
  }

  function LayerRows<V>(w: ModelWeights<V>, toks: seq<Token>, pos: nat, l: nat,
                        hs: seq<V>, kv: seq<KeyValue<V>>): (r: seq<V>)
    requires l < |w.layers| && |hs| == |toks|
    ensures |r| == |hs|
  {
    seq(|hs|, i requires 0 <= i < |hs| => LayerRow(w, toks, pos, l, hs, kv, i))
  }

  /** Sources are layers of the model; anything else would be an index panic. */
  ghost predicate SourcesInRange<V>(w: ModelWeights<V>) {
    forall l :: 0 <= l < |w.layers| && w.layers[l].kvSourceLayer.Some? ==>
      w.layers[l].kvSourceLayer.value < |w.layers|
  }

  /** One turn of the layer loop: the new rows or an error, and the new caches. */
  ghost function LayerStep<V>(w: ModelWeights<V>, toks: seq<Token>, pos: nat, l: nat,
                              hs: seq<V>, caches: seq<Cache<V>>): (r: (Result<seq<V>, ForwardError>, seq<Cache<V>>))
    requires SourcesInRange(w) && l < |w.layers| == |caches| && |hs| == |toks|
    ensures |r.1| == |caches|
    ensures r.0.Ok? ==> |r.0.value| == |hs|
  {
    var lw := w.layers[l];
    if lw.kvSourceLayer.Some? && caches[lw.kvSourceLayer.value].None? then
      (Err(SourceNotPopulated(l, lw.kvSourceLayer.value)), caches)
    else if pos + |toks| > MAX_SEQ_LEN then
      (Err(RopeOutOfRange), caches)
    else
      var kv := if lw.kvSourceLayer.Some? then caches[lw.kvSourceLayer.value].value
                else Extend(caches[l], NewKv(lw.tensors, hs, pos), pos);
      var caches' := if lw.kvSourceLayer.Some? then caches else caches[l := Some(kv)];
      if |toks| != 1 && |kv| != pos + |toks| then
        (Err(MaskShapeMismatch), caches')
      else
        (Ok(LayerRows(w, toks, pos, l, hs, kv)), caches')
  }

  ghost function RunLayers<V>(w: ModelWeights<V>, toks: seq<Token>, pos: nat, l: nat,
                              hs: seq<V>, caches: seq<Cache<V>>): (r: (Result<seq<V>, ForwardError>, seq<Cache<V>>))
    requires SourcesInRange(w) && l <= |w.layers| == |caches| && |hs| == |toks|
    ensures |r.1| == |caches|
    ensures r.0.Ok? ==> |r.0.value| == |hs|
    decreases |w.layers| - l
  {
    if l == |w.layers| then (Ok(hs), caches)
    else
      var (out, caches') := LayerStep(w, toks, pos, l, hs, caches);
      if out.Err? then (out, caches') else RunLayers(w, toks, pos, l + 1, out.value, caches')
  }

  /** A layer that shares reports its own index and its source, and only for a source that holds nothing. */
  lemma MissingSourceIsNamed<V>(w: ModelWeights<V>, toks: seq<Token>, pos: nat, l: nat, hs: seq<V>, caches: seq<Cache<V>>, layer: nat, source: nat)
    requires SourcesInRange(w) && l < |w.layers| == |caches| && |hs| == |toks|
    ensures LayerStep(w, toks, pos, l, hs, caches).0 == Err(SourceNotPopulated(layer, source)) <==>
      layer == l && w.layers[l].kvSourceLayer == Some(source) && caches[source].None?
  {
  }

  function Embedded<V>(w: ModelWeights<V>, toks: seq<Token>): (hs: seq<V>)
    ensures |hs| == |toks|
  {
    seq(|toks|, i requires 0 <= i < |toks| => w.embed(toks[i]))
  }

  /** What `Forward` computes, as a function of the caches it starts from. */
  ghost function Forwarded<V>(w: ModelWeights<V>, toks: seq<Token>, pos: nat, caches: seq<Cache<V>>)
      : (r: (Result<V, ForwardError>, seq<Cache<V>>))
    requires SourcesInRange(w) && |caches| == |w.layers| && toks != []
    ensures |r.1| == |caches|
  {
    var (out, caches') := RunLayers(w, toks, pos, 0, Embedded(w, toks), caches);
    (if out.Err? then Err(out.error) else Ok(w.output(out.value[|toks| - 1])), caches')
  }

  // ------------------------------------------------------- the mutable model

  class Model<V> {
    const weights: ModelWeights<V>
    var kvCache: seq<Cache<V>>

    ghost predicate Valid()
      reads this
    {
      |kvCache| == |weights.layers| && SourcesInRange(weights)
    }

    /** The layer loop of `from_gguf`; `headDims` are the widths read off the Q weights. */
    constructor FromGguf(embed: Token -> V, ple: (Token, nat) -> V, output: V -> V,
                         tensors: seq<LayerTensors<V>>, headDims: seq<nat>,
                         keyLengthSwa: nat, slidingWindowSize: nat, sharedKvLayers: nat)
      requires |headDims| == |tensors|
      ensures Valid()
      ensures weights == Assembled(embed, ple, output, tensors, headDims,
                                   keyLengthSwa, slidingWindowSize, sharedKvLayers)
      ensures forall l :: 0 <= l < |kvCache| ==> kvCache[l].None?
    {
      var blockCount := |tensors|;
      var nOwnKv := if sharedKvLayers <= blockCount then blockCount - sharedKvLayers else 0;
      var layers: seq<LayerWeights<V>> := [];
      var caches: seq<Cache<V>> := [];
      for n := 0 to blockCount
        invariant |layers| == |caches| == n
        invariant forall l :: 0 <= l < n ==>
          layers[l] == AssembledLayer(tensors[l], headDims[l] == keyLengthSwa, slidingWindowSize, nOwnKv, l)
        invariant forall l :: 0 <= l < n ==> caches[l].None?
      {
        var isSwa := headDims[n] == keyLengthSwa;
        var slidingWindow := if isSwa then Some(slidingWindowSize) else None;
        var back := if isSwa then 2 else 1;
        var kvSourceLayer :=
          if n >= nOwnKv then Some(if back <= nOwnKv then nOwnKv - back else 0) else None;
        layers := layers + [LayerWeights(tensors[n], slidingWindow, kvSourceLayer)];
        caches := caches + [None];
      }
      weights := ModelWeights(embed, ple, layers, output);
      kvCache := caches;
      new;
      assert weights.layers == Assembled(embed, ple, output, tensors, headDims,
                                         keyLengthSwa, slidingWindowSize, sharedKvLayers).layers;
      AssembledInRange(embed, ple, output, tensors, headDims, keyLengthSwa, slidingWindowSize, sharedKvLayers);
    }

    /** Projects the key and value rows of the new positions. */
    method ProjectKv(t: LayerTensors<V>, hs: seq<V>, pos: nat) returns (kv: seq<KeyValue<V>>)
      ensures kv == NewKv(t, hs, pos)
    {
      kv := [];
      for i := 0 to |hs|
        invariant kv == NewKv(t, hs, pos)[..i]
      {
        kv := kv + [(t.key(hs[i], pos + i), t.value(hs[i]))];
      }
    }

    /** Attends and finishes row by row over the given pairs. */
    method AttendRows(l: nat, toks: seq<Token>, hs: seq<V>, pos: nat, kv: seq<KeyValue<V>>) returns (rows: seq<V>)
      requires l < |weights.layers| && |hs| == |toks|
      ensures rows == LayerRows(weights, toks, pos, l, hs, kv)
    {
      var lw := weights.layers[l];
      rows := [];
      for i := 0 to |hs|
        invariant rows == LayerRows(weights, toks, pos, l, hs, kv)[..i]
      {
        var q := lw.tensors.query(hs[i], pos + i);
        var visible := if |toks| == 1 then kv else Visible(kv, lw.slidingWindow, pos, i);
        var attn := lw.tensors.attend(q, visible);
        rows := rows + [lw.tensors.finish(hs[i], attn, weights.ple(toks[i], l))];
      }
    }

    /** One block's attention: project, update the cache, attend row by row. */
    method ForwardAttn(l: nat, toks: seq<Token>, hs: seq<V>, pos: nat, extKv: Cache<V>)
      returns (r: Result<seq<V>, ForwardError>)
      requires Valid() && l < |weights.layers| && |hs| == |toks|
      requires extKv == if weights.layers[l].kvSourceLayer.Some?
                        then kvCache[weights.layers[l].kvSourceLayer.value] else None
      requires weights.layers[l].kvSourceLayer.Some? ==> extKv.Some?
      modifies this
      ensures Valid()
      ensures (r, kvCache) == LayerStep(weights, toks, pos, l, hs, old(kvCache))
    {
      if pos + |toks| > MAX_SEQ_LEN {
        return Err(RopeOutOfRange);
      }
      var kv: seq<KeyValue<V>>;
      if extKv.Some? {
        kv := extKv.value;
      } else {
        kv := ProjectKv(weights.layers[l].tensors, hs, pos);
        if kvCache[l].Some? && pos != 0 {
          kv := kvCache[l].value + kv;
        }
        kvCache := kvCache[l := Some(kv)];
      }
      if |toks| != 1 && |kv| != pos + |toks| {
        return Err(MaskShapeMismatch);
      }
      var rows := AttendRows(l, toks, hs, pos, kv);
      r := Ok(rows);
    }

    method Forward(toks: seq<Token>, pos: nat) returns (r: Result<V, ForwardError>)
      requires Valid() && toks != []
      modifies this
      ensures Valid()
      ensures (r, kvCache) == Forwarded(weights, toks, pos, old(kvCache))
    {
      var h := Embedded(weights, toks);
      ghost var start := RunLayers(weights, toks, pos, 0, h, kvCache);
      var l := 0;
      while l < |weights.layers|
        invariant Valid() && l <= |weights.layers| && |h| == |toks|
        invariant RunLayers(weights, toks, pos, l, h, kvCache) == start
      {
        // Resolve the shared cache before the layer itself is updated.
        var extKv: Cache<V> := None;
        var source := weights.layers[l].kvSourceLayer;
        if source.Some? {
          extKv := kvCache[source.value];
          if extKv.None? {
            return Err(SourceNotPopulated(l, source.value));
          }
        }
        var out := ForwardAttn(l, toks, h, pos, extKv);
        if out.Err? {
          return Err(out.error);
        }
        h := out.value;
        l := l + 1;
      }
      r := Ok(weights.output(h[|toks| - 1]));
    }

    method ClearKvCache()
      requires Valid()
      modifies this
      ensures Valid()
      ensures kvCache == Cleared(weights)
    {
      var l := 0;
      while l < |kvCache|
        invariant |kvCache| == |weights.layers| && l <= |kvCache|
        invariant forall k :: 0 <= k < l ==> kvCache[k].None?
      {
        kvCache := kvCache[l := None];
        l := l + 1;
      }
    }
  }

  function Cleared<V>(w: ModelWeights<V>): seq<Cache<V>> {
    seq(|w.layers|, _ => None)
  }

  // ------------------------------------------------------------- from_gguf

  function AssembledLayer<V>(t: LayerTensors<V>, isSwa: bool, slidingWindowSize: nat, nOwnKv: nat, n: nat): LayerWeights<V> {
    LayerWeights(t,
                 if isSwa then Some(slidingWindowSize) else None,
                 if n < nOwnKv then None
                 else Some(if isSwa then (if nOwnKv >= 2 then nOwnKv - 2 else 0)
                           else (if nOwnKv >= 1 then nOwnKv - 1 else 0)))
  }

  function Assembled<V>(embed: Token -> V, ple: (Token, nat) -> V, output: V -> V,
                        tensors: seq<LayerTensors<V>>, headDims: seq<nat>,
                        keyLengthSwa: nat, slidingWindowSize: nat, sharedKvLayers: nat): (w: ModelWeights<V>)
    requires |headDims| == |tensors|
    ensures |w.layers| == |tensors|
  {
    var nOwnKv := if sharedKvLayers <= |tensors| then |tensors| - sharedKvLayers else 0;
    ModelWeights(embed, ple,
                 seq(|tensors|, n requires 0 <= n < |tensors| =>
                   AssembledLayer(tensors[n], headDims[n] == keyLengthSwa, slidingWindowSize, nOwnKv, n)),
                 output)
  }

  lemma AssembledInRange<V>(embed: Token -> V, ple: (Token, nat) -> V, output: V -> V,
                            tensors: seq<LayerTensors<V>>, headDims: seq<nat>,
                            keyLengthSwa: nat, slidingWindowSize: nat, sharedKvLayers: nat)
    requires |headDims| == |tensors|
    ensures SourcesInRange(Assembled(embed, ple, output, tensors, headDims,
                                     keyLengthSwa, slidingWindowSize, sharedKvLayers))
  {
  }

  /**
   What each layer of an assembled model is: its tensors; a window exactly if its
   heads have the sliding width; and, past the own layers, the last own layer but
   one to borrow from if it slides, the last own layer if it is global.
   */
  lemma AssembledLayers<V>(embed: Token -> V, ple: (Token, nat) -> V, output: V -> V,
                           tensors: seq<LayerTensors<V>>, headDims: seq<nat>,
                           keyLengthSwa: nat, slidingWindowSize: nat, sharedKvLayers: nat, l: nat)
    requires l < |headDims| == |tensors|
    ensures var w := Assembled(embed, ple, output, tensors, headDims, keyLengthSwa, slidingWindowSize, sharedKvLayers);
      var layer := w.layers[l];
      w.embed == embed && w.ple == ple && w.output == output && layer.tensors == tensors[l] &&
      (layer.slidingWindow == Some(slidingWindowSize) <==> headDims[l] == keyLengthSwa) &&
      (layer.slidingWindow == None <==> headDims[l] != keyLengthSwa) &&
      (layer.kvSourceLayer.None? <==> l + sharedKvLayers < |tensors|) &&
      (layer.kvSourceLayer.Some? && sharedKvLayers + 2 <= |tensors| ==>
        layer.kvSourceLayer.value + sharedKvLayers + (if headDims[l] == keyLengthSwa then 2 else 1) == |tensors|) &&
      (layer.kvSourceLayer.Some? && sharedKvLayers + 2 > |tensors| ==> layer.kvSourceLayer.value == 0)
  {
  }

  /**
   A sharing layer borrows from a layer of its own kind exactly where the last two
   own layers are of the kinds the mapping takes them for.
   */
  lemma SharersKeepTheirKind<V>(embed: Token -> V, ple: (Token, nat) -> V, output: V -> V,
                                tensors: seq<LayerTensors<V>>, headDims: seq<nat>,
                                keyLengthSwa: nat, slidingWindowSize: nat, sharedKvLayers: nat)
    requires |headDims| == |tensors| && sharedKvLayers + 2 <= |tensors|
    ensures var w := Assembled(embed, ple, output, tensors, headDims, keyLengthSwa, slidingWindowSize, sharedKvLayers);
      var own := |tensors| - sharedKvLayers;
      (forall l :: own <= l < |tensors| ==>
        w.layers[l].kvSourceLayer.Some? && w.layers[l].kvSourceLayer.value < own &&
        (w.layers[w.layers[l].kvSourceLayer.value].slidingWindow == w.layers[l].slidingWindow <==>
          if w.layers[l].slidingWindow.Some? then w.layers[own - 2].slidingWindow.Some? else w.layers[own - 1].slidingWindow.None?)) &&
      (w.layers[own - 2].slidingWindow.Some? && w.layers[own - 1].slidingWindow.None? ==>
        forall l :: own <= l < |tensors| ==>
          w.layers[w.layers[l].kvSourceLayer.value].slidingWindow == w.layers[l].slidingWindow)
  {
  }
}

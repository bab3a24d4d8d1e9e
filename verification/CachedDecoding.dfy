/**
 Cached decoding agrees with recomputation (src/gemma4_gguf/mod.rs).

 `HiddenAt` is the simple thing the caches speed up: the whole sequence pushed
 through every layer with a causal, windowed mask and no cache at all.  The
 theorems relate runs of the cached `Forwarded` to it.
 */
module CachedDecoding {
  import opened Wrappers
  import opened Gemma4

  // ------------------------------------------------------ the shape of a model

  /** Every sharing layer copies from a lower layer that owns its cache. */
  ghost predicate Sourced<V>(w: ModelWeights<V>) {
    forall l :: 0 <= l < |w.layers| && w.layers[l].kvSourceLayer.Some? ==>
      w.layers[l].kvSourceLayer.value < l && w.layers[w.layers[l].kvSourceLayer.value].kvSourceLayer.None?
  }

  lemma SourcedInRange<V>(w: ModelWeights<V>)
    requires Sourced(w)
    ensures SourcesInRange(w)
  {
  }

  predicate Owns<V>(w: ModelWeights<V>, l: nat)
    requires l < |w.layers|
  {
    w.layers[l].kvSourceLayer.None?
  }

  /** The layer whose key/value rows layer `l` attends to. */
  ghost function KvLayer<V>(w: ModelWeights<V>, l: nat): (k: nat)
    requires Sourced(w) && l < |w.layers|
    ensures k <= l && Owns(w, k)
  {
    if Owns(w, l) then l else w.layers[l].kvSourceLayer.value
  }

  /** A sequence short enough that no window hides one of its positions. */
  ghost predicate FitsWindows<V>(w: ModelWeights<V>, n: nat) {
    forall l :: 0 <= l < |w.layers| && w.layers[l].slidingWindow.Some? ==>
      n <= w.layers[l].slidingWindow.value + 1
  }

  lemma FitsWindowsShorter<V>(w: ModelWeights<V>, m: nat, n: nat)
    requires m <= n && FitsWindows(w, n)
    ensures FitsWindows(w, m)
  {
  }

  // --------------------------------------------------- recomputation, no cache

  /** What row `i` attends to when the rows below `masked` see through the window, and the others see everything. */
  function Seen<V>(kv: seq<KeyValue<V>>, window: Option<nat>, masked: nat, i: nat): seq<KeyValue<V>> {
    if i < masked then Visible(kv, window, 0, i) else kv
  }

  /** Row `i` entering layer `l`: only the tokens up to `i` can matter. */
  ghost function HiddenAt<V>(w: ModelWeights<V>, s: seq<Token>, masked: nat, l: nat, i: nat): V
    requires Sourced(w) && l <= |w.layers| && i < |s|
    decreases l, 0
  {
    if l == 0 then w.embed(s[i])
    else
      var lw := w.layers[l - 1];
      var h := HiddenAt(w, s, masked, l - 1, i);
      var pairs := Seen(KvRows(w, s, masked, KvLayer(w, l - 1), i + 1), lw.slidingWindow, masked, i);
      lw.tensors.finish(h, lw.tensors.attend(lw.tensors.query(h, i), pairs), w.ple(s[i], l - 1))
  }

  /** The key/value rows of owning layer `l` for the first `n` positions. */
  ghost function KvRows<V>(w: ModelWeights<V>, s: seq<Token>, masked: nat, l: nat, n: nat): (kv: seq<KeyValue<V>>)
    requires Sourced(w) && l < |w.layers| && n <= |s|
    ensures |kv| == n
    decreases l, 1
  {
    seq(n, i requires 0 <= i < n =>
      var h := HiddenAt(w, s, masked, l, i);
      (w.layers[l].tensors.key(h, i), w.layers[l].tensors.value(h)))
  }

  /** The logits of recomputing all of `s`, the rows below `masked` through the windows. */
  ghost function Recomputed<V>(w: ModelWeights<V>, s: seq<Token>, masked: nat): V
    requires Sourced(w) && s != []
  {
    w.output(HiddenAt(w, s, masked, |w.layers|, |s| - 1))
  }

  /** The caches a run over `s` leaves: owners hold `s`, sharers keep what they had. */
  ghost function CachesAfter<V>(w: ModelWeights<V>, s: seq<Token>, masked: nat, before: seq<Cache<V>>): (c: seq<Cache<V>>)
    requires Sourced(w) && |before| == |w.layers|
    ensures |c| == |w.layers|
  {
    CachesUpTo(w, s, masked, before, |w.layers|)
  }

  /** The same, once only the layers below `l` have run. */
  ghost function CachesUpTo<V>(w: ModelWeights<V>, s: seq<Token>, masked: nat, before: seq<Cache<V>>, l: nat): (c: seq<Cache<V>>)
    requires Sourced(w) && |before| == |w.layers| && l <= |w.layers|
    ensures |c| == |w.layers|
  {
    seq(|w.layers|, k requires 0 <= k < |w.layers| =>
      if k < l && Owns(w, k) then Some(KvRows(w, s, masked, k, |s|)) else before[k])
  }

  // ------------------------------------------------------------ the mask alone

  /** A causal mask hides every pair after the row, so dropping them changes nothing. */
  lemma {:induction false} VisibleIgnoresFuture<V>(kv: seq<KeyValue<V>>, window: Option<nat>, i: nat)
    requires i < |kv|
    ensures Visible(kv, window, 0, i) == Visible(kv[..i + 1], window, 0, i)
    decreases |kv|
  {
    if i + 1 == |kv| {
      assert kv[..i + 1] == kv;
    } else {
      var front := kv[..|kv| - 1];
      VisibleIgnoresFuture(front, window, i);
      assert front[..i + 1] == kv[..i + 1];
    }
  }

  lemma {:induction false} VisibleIsShorter<V>(kv: seq<KeyValue<V>>, window: Option<nat>, pos: nat, i: nat)
    ensures |Visible(kv, window, pos, i)| <= |kv|
  {
    if kv == [] {
    } else {
      VisibleIsShorter(kv[..|kv| - 1], window, pos, i);
    }
  }

  lemma {:induction false} VisibleIsAll<V>(kv: seq<KeyValue<V>>, window: Option<nat>, i: nat)
    requires |kv| <= i + 1
    requires window.Some? ==> i <= window.value
    ensures Visible(kv, window, 0, i) == kv
  {
    if kv == [] {
    } else {
      var front := kv[..|kv| - 1];
      VisibleIsAll(front, window, i);
      assert front + [kv[|kv| - 1]] == kv;
    }
  }

  lemma {:induction false} VisibleLosesFirst<V>(kv: seq<KeyValue<V>>, w: nat, i: nat)
    requires kv != [] && w < i
    ensures |Visible(kv, Some(w), 0, i)| < |kv|
  {
    var front := kv[..|kv| - 1];
    if front == [] {
      assert Visible(front, Some(w), 0, i) == [];
    } else {
      VisibleLosesFirst(front, w, i);
    }
  }

  /**
   The one-token step builds no mask.  It attends to exactly what the prefill
   mask would have left visible if and only if the window reaches the start.
   */
  lemma MaskFreeStepIsExact<V>(kv: seq<KeyValue<V>>, window: Option<nat>)
    requires kv != []
    ensures Attended(kv, window, 1, |kv| - 1, 0) == Visible(kv, window, 0, |kv| - 1)
       <==> (window.Some? ==> |kv| <= window.value + 1)
  {
    if window.Some? && window.value < |kv| - 1 {
      VisibleLosesFirst(kv, window.value, |kv| - 1);
    } else {
      VisibleIsAll(kv, window, |kv| - 1);
    }
  }

  // ------------------------------------------------------------------ causality

  /** Two masks treat the rows below `n` alike. */
  predicate MasksAlike(m: nat, m': nat, n: nat) {
    m == m' || (n <= m && n <= m')
  }

  /** Rows and cached pairs depend on the tokens up to their own position only. */
  lemma {:induction false} HiddenIsCausal<V>(w: ModelWeights<V>, s: seq<Token>, t: seq<Token>, m: nat, m': nat, l: nat, i: nat)
    requires Sourced(w) && l <= |w.layers| && i < |s| && i < |t| && MasksAlike(m, m', i + 1)
    requires s[..i + 1] == t[..i + 1]
    ensures HiddenAt(w, s, m, l, i) == HiddenAt(w, t, m', l, i)
    decreases l, 1
  {
    hide KvRows, Visible;
    assert s[i] == s[..i + 1][i] == t[..i + 1][i] == t[i];
    if l == 0 {
    } else {
      HiddenIsCausal(w, s, t, m, m', l - 1, i);
      KvIsCausal(w, s, t, m, m', KvLayer(w, l - 1), i + 1);
    }
  }

  lemma {:induction false} KvIsCausal<V>(w: ModelWeights<V>, s: seq<Token>, t: seq<Token>, m: nat, m': nat, l: nat, n: nat)
    requires Sourced(w) && l < |w.layers| && n <= |s| && n <= |t| && MasksAlike(m, m', n)
    requires s[..n] == t[..n]
    ensures KvRows(w, s, m, l, n) == KvRows(w, t, m', l, n)
    decreases l, 2
  {
    forall i | 0 <= i < n
      ensures HiddenAt(w, s, m, l, i) == HiddenAt(w, t, m', l, i)
    {
      assert s[..n][..i + 1] == s[..i + 1];
      assert t[..n][..i + 1] == t[..i + 1];
      HiddenIsCausal(w, s, t, m, m', l, i);
    }
  }

  // --------------------------------------------- short sequences see everything

  /** Where the windows reach the start, it makes no difference which rows are masked. */
  lemma {:induction false} HiddenFits<V>(w: ModelWeights<V>, s: seq<Token>, m: nat, m': nat, l: nat, i: nat)
    requires Sourced(w) && l <= |w.layers| && i < |s| && FitsWindows(w, i + 1)
    ensures HiddenAt(w, s, m, l, i) == HiddenAt(w, s, m', l, i)
    decreases l, 1
  {
    if l == 0 {
    } else {
      HiddenFits(w, s, m, m', l - 1, i);
      KvFits(w, s, m, m', KvLayer(w, l - 1), i + 1);
      VisibleIsAll(KvRows(w, s, m, KvLayer(w, l - 1), i + 1), w.layers[l - 1].slidingWindow, i);
    }
  }

  lemma {:induction false} KvFits<V>(w: ModelWeights<V>, s: seq<Token>, m: nat, m': nat, l: nat, n: nat)
    requires Sourced(w) && l < |w.layers| && n <= |s| && FitsWindows(w, n)
    ensures KvRows(w, s, m, l, n) == KvRows(w, s, m', l, n)
    decreases l, 2
  {
    forall i | 0 <= i < n
      ensures HiddenAt(w, s, m, l, i) == HiddenAt(w, s, m', l, i)
    {
      FitsWindowsShorter(w, i + 1, n);
      HiddenFits(w, s, m, m', l, i);
    }
  }

  /** Two masks recompute alike if they treat all rows alike, or no window binds. */
  lemma RecomputedAlike<V>(w: ModelWeights<V>, s: seq<Token>, m: nat, m': nat)
    requires Sourced(w) && s != [] && (MasksAlike(m, m', |s|) || FitsWindows(w, |s|))
    ensures Recomputed(w, s, m) == Recomputed(w, s, m')
  {
    hide HiddenAt, FitsWindows, Sourced;
    if MasksAlike(m, m', |s|) {
      HiddenIsCausal(w, s, s, m, m', |w.layers|, |s| - 1);
    } else {
      HiddenFits(w, s, m, m', |w.layers|, |s| - 1);
    }
  }

  lemma CachesAlike<V>(w: ModelWeights<V>, s: seq<Token>, m: nat, m': nat, before: seq<Cache<V>>)
    requires Sourced(w) && |before| == |w.layers| && (MasksAlike(m, m', |s|) || FitsWindows(w, |s|))
    ensures CachesAfter(w, s, m, before) == CachesAfter(w, s, m', before)
  {
    hide KvRows, Sourced;
    forall k | 0 <= k < |w.layers| && Owns(w, k)
      ensures KvRows(w, s, m, k, |s|) == KvRows(w, s, m', k, |s|)
    {
      if MasksAlike(m, m', |s|) {
        KvIsCausal(w, s, s, m, m', k, |s|);
      } else {
        KvFits(w, s, m, m', k, |s|);
      }
    }
  }

  // ------------------------------------------------------- a run from position 0

  ghost function HiddenRows<V>(w: ModelWeights<V>, s: seq<Token>, l: nat): (hs: seq<V>)
    requires Sourced(w) && l <= |w.layers|
    ensures |hs| == |s|
  {
    seq(|s|, i requires 0 <= i < |s| => HiddenAt(w, s, |s|, l, i))
  }

  lemma PrefillRow<V>(w: ModelWeights<V>, s: seq<Token>, l: nat, i: nat)
    requires Sourced(w) && l < |w.layers| && i < |s|
    ensures LayerRow(w, s, 0, l, HiddenRows(w, s, l), KvRows(w, s, |s|, KvLayer(w, l), |s|), i)
         == HiddenAt(w, s, |s|, l + 1, i)
  {
    var window := w.layers[l].slidingWindow;
    var kv := KvRows(w, s, |s|, KvLayer(w, l), |s|);
    assert kv[..i + 1] == KvRows(w, s, |s|, KvLayer(w, l), i + 1);
    if |s| == 1 {
      VisibleIsAll(kv, window, i);
    } else {
      VisibleIgnoresFuture(kv, window, i);
    }
  }

  lemma PrefillStep<V>(w: ModelWeights<V>, s: seq<Token>, before: seq<Cache<V>>, l: nat)
    requires Sourced(w) && |before| == |w.layers| && l < |w.layers| && s != [] && |s| <= MAX_SEQ_LEN
    ensures SourcesInRange(w)
    ensures LayerStep(w, s, 0, l, HiddenRows(w, s, l), CachesUpTo(w, s, |s|, before, l))
         == (Ok(HiddenRows(w, s, l + 1)), CachesUpTo(w, s, |s|, before, l + 1))
  {
    SourcedInRange(w);
    var hs := HiddenRows(w, s, l);
    var kv := KvRows(w, s, |s|, KvLayer(w, l), |s|);
    if Owns(w, l) {
      assert NewKv(w.layers[l].tensors, hs, 0) == kv;
      assert CachesUpTo(w, s, |s|, before, l)[l := Some(kv)] == CachesUpTo(w, s, |s|, before, l + 1);
    } else {
      assert CachesUpTo(w, s, |s|, before, l) == CachesUpTo(w, s, |s|, before, l + 1);
    }
    forall i | 0 <= i < |s|
      ensures LayerRows(w, s, 0, l, hs, kv)[i] == HiddenRows(w, s, l + 1)[i]
    {
      PrefillRow(w, s, l, i);
    }
    assert LayerRows(w, s, 0, l, hs, kv) == HiddenRows(w, s, l + 1);
  }

  lemma {:induction false} PrefillLayers<V>(w: ModelWeights<V>, s: seq<Token>, before: seq<Cache<V>>, l: nat)
    requires Sourced(w) && |before| == |w.layers| && l <= |w.layers| && s != [] && |s| <= MAX_SEQ_LEN
    ensures SourcesInRange(w)
    ensures RunLayers(w, s, 0, l, HiddenRows(w, s, l), CachesUpTo(w, s, |s|, before, l))
         == (Ok(HiddenRows(w, s, |w.layers|)), CachesAfter(w, s, |s|, before))
    decreases |w.layers| - l
  {
    hide LayerStep, HiddenRows, Sourced, SourcesInRange, CachesUpTo;
    SourcedInRange(w);
    if l == |w.layers| {
    } else {
      PrefillStep(w, s, before, l);
      PrefillLayers(w, s, before, l + 1);
    }
  }

  /**
   A run from position 0 succeeds, yields the recomputed logits and forgets every
   owning layer's earlier cache, whatever the caches held.
   */
  lemma PrefillRecomputes<V>(w: ModelWeights<V>, s: seq<Token>, before: seq<Cache<V>>)
    requires Sourced(w) && |before| == |w.layers| && s != [] && |s| <= MAX_SEQ_LEN
    ensures SourcesInRange(w)
    ensures Forwarded(w, s, 0, before) == (Ok(Recomputed(w, s, |s|)), CachesAfter(w, s, |s|, before))
  {
    hide RunLayers, KvRows;
    assert HiddenRows(w, s, 0) == Embedded(w, s);
    assert CachesUpTo(w, s, |s|, before, 0) == before;
    PrefillLayers(w, s, before, 0);
  }

  /** The only thing that can go wrong from position 0 is the end of the rotary tables. */
  lemma FailsPastTheTables<V>(w: ModelWeights<V>, s: seq<Token>, before: seq<Cache<V>>)
    requires Sourced(w) && |before| == |w.layers| > 0 && s != []
    ensures SourcesInRange(w)
    ensures |s| > 131072 <==> Forwarded(w, s, 0, before).0 == Err(RopeOutOfRange)
    ensures |s| <= 131072 <==> Forwarded(w, s, 0, before).0.Ok?
  {
    SourcedInRange(w);
    if |s| <= 131072 {
      PrefillRecomputes(w, s, before);
    } else {
      assert Owns(w, KvLayer(w, 0));
      assert LayerStep(w, s, 0, 0, Embedded(w, s), before).0 == Err(RopeOutOfRange);
    }
  }

  // -------------------------------------------------------------- one-token steps

  lemma StepRow<V>(w: ModelWeights<V>, s: seq<Token>, t: Token, masked: nat, l: nat)
    requires Sourced(w) && l < |w.layers| && masked <= |s|
    ensures LayerRow(w, [t], |s|, l, [HiddenAt(w, s + [t], masked, l, |s|)], KvRows(w, s + [t], masked, KvLayer(w, l), |s| + 1), 0)
         == HiddenAt(w, s + [t], masked, l + 1, |s|)
  {
    hide KvRows, KvLayer;
  }

  lemma StepKv<V>(w: ModelWeights<V>, s: seq<Token>, t: Token, masked: nat, l: nat)
    requires Sourced(w) && l < |w.layers|
    ensures KvRows(w, s, masked, l, |s|) + NewKv(w.layers[l].tensors, [HiddenAt(w, s + [t], masked, l, |s|)], |s|)
         == KvRows(w, s + [t], masked, l, |s| + 1)
  {
    var st := s + [t];
    assert st[..|s|] == s == s[..|s|];
    KvIsCausal(w, s, st, masked, masked, l, |s|);
    assert KvRows(w, st, masked, l, |s| + 1)[..|s|] == KvRows(w, st, masked, l, |s|);
  }

  /** Layer `l` of a step: the layers below already hold `s + [t]`, the rest still `s`. */
  lemma DecodeLayer<V>(w: ModelWeights<V>, s: seq<Token>, t: Token, masked: nat, before: seq<Cache<V>>, l: nat)
    requires Sourced(w) && |before| == |w.layers| && l < |w.layers|
    requires s != [] && |s| + 1 <= MAX_SEQ_LEN && masked <= |s|
    ensures SourcesInRange(w)
    ensures LayerStep(w, [t], |s|, l, [HiddenAt(w, s + [t], masked, l, |s|)],
                      CachesUpTo(w, s + [t], masked, CachesAfter(w, s, masked, before), l))
         == (Ok([HiddenAt(w, s + [t], masked, l + 1, |s|)]),
             CachesUpTo(w, s + [t], masked, CachesAfter(w, s, masked, before), l + 1))
  {
    SourcedInRange(w);
    var st := s + [t];
    var mid := CachesAfter(w, s, masked, before);
    var hs := [HiddenAt(w, st, masked, l, |s|)];
    var kv := KvRows(w, st, masked, KvLayer(w, l), |s| + 1);
    StepCaches(w, s, t, masked, before, l);
    if Owns(w, l) {
      StepKv(w, s, t, masked, l);
    }
    StepRow(w, s, t, masked, l);
    hide HiddenAt, KvRows, CachesUpTo, CachesAfter, LayerRow, SourcesInRange, Sourced;
    assert LayerRows(w, [t], |s|, l, hs, kv) == [HiddenAt(w, st, masked, l + 1, |s|)];
  }

  /** What the caches hold before layer `l` of a step, and after it. */
  lemma StepCaches<V>(w: ModelWeights<V>, s: seq<Token>, t: Token, masked: nat, before: seq<Cache<V>>, l: nat)
    requires Sourced(w) && |before| == |w.layers| && l < |w.layers|
    ensures var mid := CachesAfter(w, s, masked, before);
      var kv := KvRows(w, s + [t], masked, KvLayer(w, l), |s| + 1);
      var now, next := CachesUpTo(w, s + [t], masked, mid, l), CachesUpTo(w, s + [t], masked, mid, l + 1);
      if Owns(w, l) then now[l] == Some(KvRows(w, s, masked, l, |s|)) && now[l := Some(kv)] == next
      else now[KvLayer(w, l)] == Some(kv) && now == next
  {
    hide KvRows;
  }

  /** A step over all layers leaves what a run over the longer sequence leaves. */
  lemma StepForgets<V>(w: ModelWeights<V>, s: seq<Token>, t: Token, masked: nat, before: seq<Cache<V>>)
    requires Sourced(w) && |before| == |w.layers|
    ensures CachesUpTo(w, s + [t], masked, CachesAfter(w, s, masked, before), |w.layers|) == CachesAfter(w, s + [t], masked, before)
  {
    hide KvRows;
  }

  lemma {:induction false} DecodeLayers<V>(w: ModelWeights<V>, s: seq<Token>, t: Token, masked: nat, before: seq<Cache<V>>, l: nat)
    requires Sourced(w) && |before| == |w.layers| && l <= |w.layers|
    requires s != [] && |s| + 1 <= MAX_SEQ_LEN && masked <= |s|
    ensures SourcesInRange(w)
    ensures RunLayers(w, [t], |s|, l, [HiddenAt(w, s + [t], masked, l, |s|)],
                      CachesUpTo(w, s + [t], masked, CachesAfter(w, s, masked, before), l))
         == (Ok([HiddenAt(w, s + [t], masked, |w.layers|, |s|)]), CachesAfter(w, s + [t], masked, before))
    decreases |w.layers| - l
  {
    hide LayerStep, CachesUpTo, CachesAfter, HiddenAt, Sourced, SourcesInRange;
    SourcedInRange(w);
    if l == |w.layers| {
      StepForgets(w, s, t, masked, before);
    } else {
      DecodeLayer(w, s, t, masked, before, l);
      DecodeLayers(w, s, t, masked, before, l + 1);
    }
  }

  /** A one-token step on the caches of `s` yields what recomputing `s + [t]` would, the new row unmasked. */
  lemma DecodeRecomputes<V>(w: ModelWeights<V>, s: seq<Token>, t: Token, masked: nat, before: seq<Cache<V>>)
    requires Sourced(w) && |before| == |w.layers|
    requires s != [] && |s| + 1 <= MAX_SEQ_LEN && masked <= |s|
    ensures SourcesInRange(w)
    ensures Forwarded(w, [t], |s|, CachesAfter(w, s, masked, before))
         == (Ok(Recomputed(w, s + [t], masked)), CachesAfter(w, s + [t], masked, before))
  {
    hide RunLayers, KvRows;
    var st := s + [t];
    var mid := CachesAfter(w, s, masked, before);
    assert Embedded(w, [t]) == [HiddenAt(w, st, masked, 0, |s|)];
    assert CachesUpTo(w, st, masked, mid, 0) == mid;
    hide HiddenAt, CachesUpTo, CachesAfter, Embedded, SourcesInRange, Sourced;
    DecodeLayers(w, s, t, masked, before, 0);
  }

  // ---------------------------------------------------------------- whole runs

  /** The prompt at position 0, then one token at a time at consecutive positions. */
  ghost function CachedRun<V>(w: ModelWeights<V>, prompt: seq<Token>, rest: seq<Token>, caches: seq<Cache<V>>)
      : (r: (Result<V, ForwardError>, seq<Cache<V>>))
    requires SourcesInRange(w) && |caches| == |w.layers| && prompt != []
    ensures |r.1| == |w.layers|
    decreases |rest|
  {
    if rest == [] then Forwarded(w, prompt, 0, caches)
    else
      var n := |rest| - 1;
      var (out, mid) := CachedRun(w, prompt, rest[..n], caches);
      if out.Err? then (out, mid) else Forwarded(w, [rest[n]], |prompt| + n, mid)
  }

  /**
   MAIN: for any length, the cached run is recomputation with the prompt's rows
   seen through the windows and every later row seeing everything.
   */
  lemma {:induction false} CachedRunIsMixed<V>(w: ModelWeights<V>, prompt: seq<Token>, rest: seq<Token>, before: seq<Cache<V>>)
    requires Sourced(w) && |before| == |w.layers| && prompt != [] && |prompt + rest| <= MAX_SEQ_LEN
    ensures SourcesInRange(w)
    ensures CachedRun(w, prompt, rest, before)
         == (Ok(Recomputed(w, prompt + rest, |prompt|)), CachesAfter(w, prompt + rest, |prompt|, before))
    decreases |rest|
  {
    hide Forwarded, Recomputed, CachesAfter, Sourced;
    SourcedInRange(w);
    if rest == [] {
      assert prompt + rest == prompt;
      PrefillRecomputes(w, prompt, before);
    } else {
      var s, t := prompt + rest[..|rest| - 1], rest[|rest| - 1];
      assert s + [t] == prompt + rest;
      CachedRunIsMixed(w, prompt, rest[..|rest| - 1], before);
      DecodeRecomputes(w, s, t, |prompt|, before);
    }
  }

  /** MAIN: while no window binds, cached decoding and one forward of the whole sequence agree, caches included. */
  lemma CachedRunRecomputes<V>(w: ModelWeights<V>, prompt: seq<Token>, rest: seq<Token>, before: seq<Cache<V>>)
    requires Sourced(w) && |before| == |w.layers| && prompt != []
    requires |prompt + rest| <= MAX_SEQ_LEN && (rest == [] || FitsWindows(w, |prompt + rest|))
    ensures SourcesInRange(w)
    ensures CachedRun(w, prompt, rest, before) == Forwarded(w, prompt + rest, 0, before)
    ensures CachedRun(w, prompt, rest, before).0 == Ok(Recomputed(w, prompt + rest, |prompt + rest|))
  {
    hide Forwarded, Recomputed, CachesAfter, CachedRun, FitsWindows;
    SourcedInRange(w);
    CachedRunIsMixed(w, prompt, rest, before);
    PrefillRecomputes(w, prompt + rest, before);
    RecomputedAlike(w, prompt + rest, |prompt|, |prompt + rest|);
    CachesAlike(w, prompt + rest, |prompt|, |prompt + rest|, before);
  }

  // ------------------------------------------------- the window bound is exact

  /** What a layer is besides its tensors. */
  datatype LayerShape = LayerShape(slidingWindow: Option<nat>, kvSourceLayer: Option<nat>)

  function ShapeOf<V>(w: ModelWeights<V>): (shape: seq<LayerShape>)
    ensures |shape| == |w.layers|
  {
    seq(|w.layers|, k requires 0 <= k < |w.layers| => LayerShape(w.layers[k].slidingWindow, w.layers[k].kvSourceLayer))
  }

  /** Whether the sharing map is sound, and which lengths fit, can be read off the shape. */
  lemma ShapeDecides<V, U>(w: ModelWeights<V>, u: ModelWeights<U>, n: nat)
    requires ShapeOf(w) == ShapeOf(u)
    ensures Sourced(w) <==> Sourced(u)
    ensures FitsWindows(w, n) <==> FitsWindows(u, n)
  {
    forall k | 0 <= k < |w.layers|
      ensures w.layers[k].slidingWindow == u.layers[k].slidingWindow && w.layers[k].kvSourceLayer == u.layers[k].kvSourceLayer
    {
      assert ShapeOf(w)[k] == ShapeOf(u)[k];
    }
  }

  /** A block that hands its input on, or the number of pairs it attends to. */
  function Counter(counts: bool): LayerTensors<int> {
    LayerTensors((h: int, _: nat) => h, (h: int, _: nat) => h, (h: int) => h,
                 (_: int, kv: seq<KeyValue<int>>) => |kv|,
                 (h: int, attn: int, _: int) => if counts then attn else h)
  }

  /** A model of any shape whose logits count the pairs that layer `l` attends to for the last row. */
  function CountAt(shape: seq<LayerShape>, l: nat): (w: ModelWeights<int>)
    ensures ShapeOf(w) == shape
  {
    ModelWeights((_: Token) => 0, (_: Token, _: nat) => 0,
                 seq(|shape|, k requires 0 <= k < |shape| =>
                   LayerWeights(Counter(k == l), shape[k].slidingWindow, shape[k].kvSourceLayer)),
                 (h: int) => h)
  }

  lemma {:induction false} LaterLayersPass(shape: seq<LayerShape>, l: nat, s: seq<Token>, masked: nat, k: nat, i: nat)
    requires Sourced(CountAt(shape, l)) && l < k <= |shape| && i < |s|
    ensures HiddenAt(CountAt(shape, l), s, masked, k, i) == HiddenAt(CountAt(shape, l), s, masked, l + 1, i)
    decreases k
  {
    hide KvRows, Sourced;
    if k == l + 1 {
    } else {
      LaterLayersPass(shape, l, s, masked, k - 1, i);
    }
  }

  lemma CountsSeen(shape: seq<LayerShape>, l: nat, s: seq<Token>, masked: nat)
    requires Sourced(CountAt(shape, l)) && l < |shape| && s != []
    ensures var w := CountAt(shape, l);
      Recomputed(w, s, masked) == |Seen(KvRows(w, s, masked, KvLayer(w, l), |s|), shape[l].slidingWindow, masked, |s| - 1)|
  {
    hide KvRows, Sourced;
    LaterLayersPass(shape, l, s, masked, |shape|, |s| - 1);
  }

  /** A cached run that goes on after its prompt counts every position, whatever the window. */
  lemma CountingStep(shape: seq<LayerShape>, l: nat, prompt: seq<Token>, rest: seq<Token>, before: seq<Cache<int>>)
    requires Sourced(CountAt(shape, l)) && l < |shape| == |before|
    requires prompt != [] && rest != [] && |prompt + rest| <= MAX_SEQ_LEN
    ensures SourcesInRange(CountAt(shape, l))
    ensures CachedRun(CountAt(shape, l), prompt, rest, before).0 == Ok(|prompt + rest|)
  {
    hide CountAt, Recomputed, CachedRun, Sourced, HiddenAt, CachesAfter;
    CachedRunIsMixed(CountAt(shape, l), prompt, rest, before);
    CountsSeen(shape, l, prompt + rest, |prompt|);
  }

  /** Recomputation counts every position exactly up to `window + 1` of them. */
  lemma CountingRecomputed(shape: seq<LayerShape>, l: nat, s: seq<Token>)
    requires Sourced(CountAt(shape, l)) && l < |shape| && shape[l].slidingWindow.Some? && s != []
    ensures Recomputed(CountAt(shape, l), s, |s|) == |s| <==> |s| <= shape[l].slidingWindow.value + 1
  {
    hide Recomputed, Sourced, HiddenAt;
    var w, window := CountAt(shape, l), shape[l].slidingWindow;
    var kv := KvRows(w, s, |s|, KvLayer(w, l), |s|);
    CountsSeen(shape, l, s, |s|);
    if |s| <= window.value + 1 {
      VisibleIsAll(kv, window, |s| - 1);
    } else {
      VisibleLosesFirst(kv, window.value, |s| - 1);
    }
  }

  /** Past the window of any of its layers, every shape has tensors whose logits differ, on every input. */
  lemma PastAWindowTheyDiffer(shape: seq<LayerShape>, l: nat, prompt: seq<Token>, rest: seq<Token>, before: seq<Cache<int>>)
    requires Sourced(CountAt(shape, l)) && l < |shape| == |before| && shape[l].slidingWindow.Some?
    requires prompt != [] && rest != [] && shape[l].slidingWindow.value + 1 < |prompt + rest| <= MAX_SEQ_LEN
    ensures SourcesInRange(CountAt(shape, l))
    ensures CachedRun(CountAt(shape, l), prompt, rest, before).0 != Forwarded(CountAt(shape, l), prompt + rest, 0, before).0
  {
    hide CountAt, Forwarded, CachedRun, Recomputed, Sourced, CachesAfter;
    CountingStep(shape, l, prompt, rest, before);
    CountingRecomputed(shape, l, prompt + rest);
    PrefillRecomputes(CountAt(shape, l), prompt + rest, before);
  }

  /** Whatever the tensors of this shape and whatever the caches held, both ways yield the same logits. */
  ghost predicate AgreeForAllTensors(shape: seq<LayerShape>, prompt: seq<Token>, rest: seq<Token>)
    requires prompt != []
  {
    forall u: ModelWeights<int>, before: seq<Cache<int>> ::
      Sourced(u) && SourcesInRange(u) && ShapeOf(u) == shape && |before| == |u.layers| ==>
        CachedRun(u, prompt, rest, before).0 == Forwarded(u, prompt + rest, 0, before).0
  }

  /**
   MAIN: the length bound cannot be relaxed for any stack of layers.  Cached
   decoding and recomputation agree for all tensors of a shape if and only if
   nothing is decoded after the prompt, or no layer's window binds.
   */
  lemma WindowBoundIsExact<V>(w: ModelWeights<V>, prompt: seq<Token>, rest: seq<Token>)
    requires Sourced(w) && prompt != [] && |prompt + rest| <= MAX_SEQ_LEN
    ensures AgreeForAllTensors(ShapeOf(w), prompt, rest) <==> rest == [] || FitsWindows(w, |prompt + rest|)
  {
    hide Forwarded, CachedRun, Recomputed, Sourced;
    var shape := ShapeOf(w);
    if rest == [] || FitsWindows(w, |prompt + rest|) {
      forall u: ModelWeights<int>, before: seq<Cache<int>> |
          Sourced(u) && SourcesInRange(u) && ShapeOf(u) == shape && |before| == |u.layers|
        ensures CachedRun(u, prompt, rest, before).0 == Forwarded(u, prompt + rest, 0, before).0
      {
        ShapeDecides(w, u, |prompt + rest|);
        CachedRunRecomputes(u, prompt, rest, before);
      }
    } else {
      var l :| 0 <= l < |w.layers| && w.layers[l].slidingWindow.Some? && |prompt + rest| > w.layers[l].slidingWindow.value + 1;
      assert shape[l].slidingWindow == w.layers[l].slidingWindow;
      var u, before := CountAt(shape, l), seq(|shape|, _ => None);
      ShapeDecides(w, u, 0);
      PastAWindowTheyDiffer(shape, l, prompt, rest, before);
    }
  }

  // -------------------------------------------------------------- cache shape

  /** The assembled sharing map is sound exactly when some layer is left to own a cache. */
  lemma SharingMapIsSound<V>(embed: Token -> V, ple: (Token, nat) -> V, output: V -> V,
                             tensors: seq<LayerTensors<V>>, headDims: seq<nat>,
                             keyLengthSwa: nat, slidingWindowSize: nat, sharedKvLayers: nat)
    requires |headDims| == |tensors|
    ensures Sourced(Assembled(embed, ple, output, tensors, headDims, keyLengthSwa, slidingWindowSize, sharedKvLayers))
       <==> (sharedKvLayers < |tensors| || tensors == [])
  {
    var w := Assembled(embed, ple, output, tensors, headDims, keyLengthSwa, slidingWindowSize, sharedKvLayers);
    if sharedKvLayers >= |tensors| && tensors != [] {
      assert w.layers[0].kvSourceLayer == Some(0);
    }
  }

  /**
   From cleared caches, a model built by `from_gguf` reports an unpopulated
   source exactly when every one of its layers shares.
   */
  lemma ForwardNeedsAnOwner<V>(embed: Token -> V, ple: (Token, nat) -> V, output: V -> V,
                               tensors: seq<LayerTensors<V>>, headDims: seq<nat>,
                               keyLengthSwa: nat, slidingWindowSize: nat, sharedKvLayers: nat, s: seq<Token>)
    requires |headDims| == |tensors| && s != [] && |s| <= MAX_SEQ_LEN
    ensures var w := Assembled(embed, ple, output, tensors, headDims, keyLengthSwa, slidingWindowSize, sharedKvLayers);
      SourcesInRange(w) &&
      (Forwarded(w, s, 0, Cleared(w)).0.Ok? <==> (sharedKvLayers < |tensors| || tensors == [])) &&
      (Forwarded(w, s, 0, Cleared(w)).0 == Err(SourceNotPopulated(0, 0)) <==> (sharedKvLayers >= |tensors| && tensors != []))
  {
    var w := Assembled(embed, ple, output, tensors, headDims, keyLengthSwa, slidingWindowSize, sharedKvLayers);
    AssembledInRange(embed, ple, output, tensors, headDims, keyLengthSwa, slidingWindowSize, sharedKvLayers);
    SharingMapIsSound(embed, ple, output, tensors, headDims, keyLengthSwa, slidingWindowSize, sharedKvLayers);
    if sharedKvLayers < |tensors| || tensors == [] {
      PrefillRecomputes(w, s, Cleared(w));
    } else {
      assert w.layers[0].kvSourceLayer == Some(0);
      assert LayerStep(w, s, 0, 0, Embedded(w, s), Cleared(w)).0 == Err(SourceNotPopulated(0, 0));
    }
  }

  /**
   Layer `l` holds `n` positions if it owns a cache, and nothing if it shares.
   At `n == 0` an owner may hold anything: position 0 overwrites it.
   */
  ghost predicate HoldsAt<V>(w: ModelWeights<V>, caches: seq<Cache<V>>, l: nat, n: nat)
    requires l < |w.layers| == |caches|
  {
    if Owns(w, l) then n > 0 ==> caches[l].Some? && |caches[l].value| == n
    else caches[l].None?
  }

  /** The layers below `l` hold `after` positions, the others `n`. */
  ghost predicate HoldsUpTo<V>(w: ModelWeights<V>, caches: seq<Cache<V>>, l: nat, n: nat, after: nat) {
    |caches| == |w.layers| &&
    (forall k :: 0 <= k < l && k < |w.layers| ==> HoldsAt(w, caches, k, after)) &&
    (forall k :: l <= k < |w.layers| ==> HoldsAt(w, caches, k, n))
  }

  ghost predicate Holds<V>(w: ModelWeights<V>, caches: seq<Cache<V>>, n: nat) {
    HoldsUpTo(w, caches, 0, n, n)
  }

  lemma ShapeStep<V>(w: ModelWeights<V>, toks: seq<Token>, pos: nat, l: nat, hs: seq<V>, caches: seq<Cache<V>>)
    requires Sourced(w) && SourcesInRange(w) && l < |w.layers| && |hs| == |toks| && toks != []
    requires pos + |toks| <= MAX_SEQ_LEN && HoldsUpTo(w, caches, l, pos, pos + |toks|)
    ensures LayerStep(w, toks, pos, l, hs, caches).0.Ok?
    ensures HoldsUpTo(w, LayerStep(w, toks, pos, l, hs, caches).1, l + 1, pos, pos + |toks|)
  {
    var caches' := LayerStep(w, toks, pos, l, hs, caches).1;
    if Owns(w, l) {
      assert HoldsAt(w, caches, l, pos);
      assert HoldsAt(w, caches', l, pos + |toks|);
    } else {
      assert HoldsAt(w, caches, w.layers[l].kvSourceLayer.value, pos + |toks|);
      assert HoldsAt(w, caches, l, pos);
    }
    var after := pos + |toks|;
    forall k | 0 <= k < l
      ensures HoldsAt(w, caches', k, after)
    {
      assert HoldsAt(w, caches, k, after);
    }
    forall k | l < k < |w.layers|
      ensures HoldsAt(w, caches', k, pos)
    {
      assert HoldsAt(w, caches, k, pos);
    }
  }

  lemma {:induction false} ShapeLayers<V>(w: ModelWeights<V>, toks: seq<Token>, pos: nat, l: nat, hs: seq<V>, caches: seq<Cache<V>>)
    requires Sourced(w) && SourcesInRange(w) && l <= |w.layers| && |hs| == |toks| && toks != []
    requires pos + |toks| <= MAX_SEQ_LEN && HoldsUpTo(w, caches, l, pos, pos + |toks|)
    ensures RunLayers(w, toks, pos, l, hs, caches).0.Ok?
    ensures Holds(w, RunLayers(w, toks, pos, l, hs, caches).1, pos + |toks|)
    decreases |w.layers| - l
  {
    if l == |w.layers| {
    } else {
      ShapeStep(w, toks, pos, l, hs, caches);
      var (out, caches') := LayerStep(w, toks, pos, l, hs, caches);
      ShapeLayers(w, toks, pos, l + 1, out.value, caches');
    }
  }

  /**
   INVARIANT: a forward of any tokens at 0, or of one token at the position the
   caches have reached, never fails for want of a source, and leaves every own
   cache with exactly `pos + |toks|` positions and every sharing layer's own
   cache empty.  (Several tokens past 0 would need the mask whose two halves
   `Tensor::cat` joins from different number types; no caller does that.)
   */
  lemma ContiguousForwardKeepsShape<V>(w: ModelWeights<V>, toks: seq<Token>, pos: nat, caches: seq<Cache<V>>)
    requires Sourced(w) && toks != [] && pos + |toks| <= MAX_SEQ_LEN && Holds(w, caches, pos)
    requires pos == 0 || |toks| == 1
    ensures SourcesInRange(w)
    ensures Forwarded(w, toks, pos, caches).0.Ok?
    ensures Holds(w, Forwarded(w, toks, pos, caches).1, pos + |toks|)
  {
    SourcedInRange(w);
    ShapeLayers(w, toks, pos, 0, Embedded(w, toks), caches);
  }

  /** The shape along any run of contiguous forwards from cleared caches, restarts included. */
  ghost function ShapeRun<V>(w: ModelWeights<V>, calls: seq<(seq<Token>, nat)>): (r: (bool, seq<Cache<V>>))
    requires SourcesInRange(w) && forall k :: 0 <= k < |calls| ==> calls[k].0 != []
    ensures |r.1| == |w.layers|
  {
    if calls == [] then (true, Cleared(w))
    else
      var last := calls[|calls| - 1];
      var (ok, caches) := ShapeRun(w, calls[..|calls| - 1]);
      var (out, caches') := Forwarded(w, last.0, last.1, caches);
      (ok && out.Ok?, caches')
  }

  /** Where the caches stand after the calls. */
  function Reached(calls: seq<(seq<Token>, nat)>): nat {
    if calls == [] then 0 else calls[|calls| - 1].1 + |calls[|calls| - 1].0|
  }

  /** Each call starts at 0, or feeds one token where the previous one stopped, within the rotary tables. */
  predicate Contiguous(calls: seq<(seq<Token>, nat)>) {
    forall k :: 0 <= k < |calls| ==>
      calls[k].0 != [] && calls[k].1 + |calls[k].0| <= MAX_SEQ_LEN &&
      (calls[k].1 == 0 || (calls[k].1 == Reached(calls[..k]) && |calls[k].0| == 1))
  }

  /** After clearing, and so after construction, no layer holds anything. */
  lemma ClearedHoldsNothing<V>(w: ModelWeights<V>)
    ensures Holds(w, Cleared(w), 0) && forall l :: 0 <= l < |w.layers| ==> Cleared(w)[l].None?
  {
  }

  /** Whatever the caches hold, they are ready for position 0. */
  lemma HoldsForRestart<V>(w: ModelWeights<V>, caches: seq<Cache<V>>, n: nat)
    requires Holds(w, caches, n)
    ensures Holds(w, caches, 0)
  {
    forall l | 0 <= l < |w.layers|
      ensures HoldsAt(w, caches, l, 0)
    {
      assert HoldsAt(w, caches, l, n);
    }
  }

  lemma {:induction false} EveryRunKeepsShape<V>(w: ModelWeights<V>, calls: seq<(seq<Token>, nat)>)
    requires Sourced(w) && Contiguous(calls)
    ensures SourcesInRange(w)
    ensures ShapeRun(w, calls).0 && Holds(w, ShapeRun(w, calls).1, Reached(calls))
    decreases |calls|
  {
    hide Forwarded, Holds;
    SourcedInRange(w);
    if calls == [] {
      ClearedHoldsNothing(w);
    } else {
      var n := |calls| - 1;
      forall k | 0 <= k < n
        ensures calls[..n][k] == calls[k] && calls[..n][..k] == calls[..k]
      {
      }
      EveryRunKeepsShape(w, calls[..n]);
      var caches := ShapeRun(w, calls[..n]).1;
      HoldsForRestart(w, caches, Reached(calls[..n]));
      ContiguousForwardKeepsShape(w, calls[n].0, calls[n].1, caches);
    }
  }
}

/**
 When the returned text is a prefix of what was streamed (src/native/decoder.rs),
 with no assumption on the tokenizer: the exact condition, over every run.
 */
module StreamedText {
  import opened Wrappers
  import opened Text
  import opened Decoder
  import opened GenerationLoop

  // --------------------------------------------- the stream as a function of the tokens

  /** What a run decodes `tokens` to; a run ends where decoding fails. */
  function TextOf(tokenizer: Tokenizer, tokens: seq<Token>): string {
    var text := tokenizer.decode(tokens);
    if text.Some? then text.value else ""
  }

  function Shown(tokenizer: Tokenizer, stops: seq<string>, tokens: seq<Token>): string {
    Visible(TextOf(tokenizer, tokens), stops)
  }

  /** What has been streamed once `tokens` have been generated one by one. */
  function Emitted(tokenizer: Tokenizer, stops: seq<string>, tokens: seq<Token>): string {
    if tokens == [] then ""
    else
      var before := Emitted(tokenizer, stops, tokens[..|tokens| - 1]);
      var shown := Shown(tokenizer, stops, tokens);
      if |shown| > |before| then before + shown[|before|..] else before
  }

  /** Tokens that a run can generate: none ends it, they decode, and only the last may hit a stop. */
  predicate Producible(tokenizer: Tokenizer, stops: seq<string>, tokens: seq<Token>) {
    (forall t :: t in tokens ==> !IsEos(tokenizer, t)) &&
    (forall k :: 0 < k <= |tokens| ==> tokenizer.decode(tokens[..k]).Some?) &&
    (forall k :: 0 < k < |tokens| ==> FirstStop(TextOf(tokenizer, tokens[..k]), stops).None?)
  }

  lemma ProducibleBefore(tokenizer: Tokenizer, stops: seq<string>, tokens: seq<Token>)
    requires Producible(tokenizer, stops, tokens) && tokens != []
    ensures Producible(tokenizer, stops, tokens[..|tokens| - 1]) && tokenizer.decode(tokens).Some?
  {
    hide IsEos;
    var before := tokens[..|tokens| - 1];
    assert tokens[..|tokens|] == tokens;
    assert forall k :: 0 <= k <= |before| ==> before[..k] == tokens[..k];
  }

  lemma ProducibleAfter(tokenizer: Tokenizer, stops: seq<string>, tokens: seq<Token>, t: Token)
    requires Producible(tokenizer, stops, tokens) && !IsEos(tokenizer, t) && tokenizer.decode(tokens + [t]).Some?
    requires tokens == [] || FirstStop(TextOf(tokenizer, tokens), stops).None?
    ensures Producible(tokenizer, stops, tokens + [t])
  {
    hide IsEos, FirstStop, TextOf;
    var longer := tokens + [t];
    assert tokens[..|tokens|] == tokens && longer[..|longer|] == longer;
    assert forall k :: 0 <= k <= |tokens| ==> longer[..k] == tokens[..k];
  }

  // ------------------------------------------------------------- every run

  /** The loop between two turns: what it has streamed is what its tokens say. */
  ghost predicate Emitting<S, R>(tokenizer: Tokenizer, stops: seq<string>, g: Gen<S, R>) {
    Producible(tokenizer, stops, g.generated) &&
    Concat(g.deltas) == Emitted(tokenizer, stops, g.generated) && g.emitted == |Concat(g.deltas)| &&
    (g.finish.Length? && g.generated != [] ==> FirstStop(TextOf(tokenizer, g.generated), stops).None?)
  }

  lemma FlushEmits<S, R>(tokenizer: Tokenizer, stops: seq<string>, g: Gen<S, R>, t: Token)
    requires Emitting(tokenizer, stops, g) && g.finish.Length? && !IsEos(tokenizer, t)
    ensures var (g', err) := Flush(tokenizer, stops, g.(generated := g.generated + [t]));
      err.None? ==> Emitting(tokenizer, stops, g') && g'.generated == g.generated + [t]
  {
    var tokens := g.generated + [t];
    assert tokens[..|tokens| - 1] == g.generated;
    if tokenizer.decode(tokens).Some? {
      ProducibleAfter(tokenizer, stops, g.generated, t);
      FlushAdds(tokenizer, stops, g.(generated := tokens));
      hide Flush, Concat, IsEos, Producible, FirstStop, Visible;
    }
  }

  lemma TurnEmits<S, L, R>(e: Engine<S, L, R>, tokenizer: Tokenizer, stops: seq<string>, g: Gen<S, R>, input: seq<Token>)
    requires Emitting(tokenizer, stops, g) && g.finish.Length?
    ensures var (g', err) := Turn(e, tokenizer, stops, g, input);
      err.None? ==> Emitting(tokenizer, stops, g') && (g'.generated == [] ==> exists t :: IsEos(tokenizer, t))
  {
    hide IsEos, Producible, Flush, Emitted;
    var (logits, model) := e.forward(g.model, input, g.offset);
    if logits.Some? {
      var drawn := e.sample(g.rng, logits.value);
      if drawn.Some? && !IsEos(tokenizer, drawn.value.0) {
        var (next, rng) := drawn.value;
        FlushEmits(tokenizer, stops,
                   g.(model := model, feeds := g.feeds + [(input, g.offset)],
                      rng := rng, offset := g.offset + |input|, inputIds := g.inputIds + [next]), next);
      }
    }
  }

  lemma {:induction false} TurnsEmit<S, L, R>(e: Engine<S, L, R>, tokenizer: Tokenizer, stops: seq<string>, g: Gen<S, R>, k: nat)
    requires g.inputIds != [] && Emitting(tokenizer, stops, g) && (g.generated == [] ==> exists t :: IsEos(tokenizer, t))
    ensures var (g', err) := Turns(e, tokenizer, stops, g, k);
      err.None? ==> Emitting(tokenizer, stops, g') && (g'.generated == [] ==> exists t :: IsEos(tokenizer, t))
    decreases k
  {
    hide Turn, Emitting, IsEos;
    if k == 0 || g.finish.Stop? {
    } else {
      var last := [g.inputIds[|g.inputIds| - 1]];
      TurnEmits(e, tokenizer, stops, g, last);
      var (g', err) := Turn(e, tokenizer, stops, g, last);
      if err.None? {
        TurnsEmit(e, tokenizer, stops, g', k - 1);
      }
    }
  }

  /** MAIN: whatever the model and the sampler, a run streams `Emitted` of the tokens it generates. */
  lemma RunEmits<S, L, R>(e: Engine<S, L, R>, tokenizer: Tokenizer, stops: seq<string>,
                          ids: seq<Token>, maxTokens: nat, model: S, rng: R)
    requires ids != [] && maxTokens >= 1 && Generated(e, tokenizer, stops, ids, maxTokens, model, rng).1.None?
    ensures var g := Generated(e, tokenizer, stops, ids, maxTokens, model, rng).0;
      Producible(tokenizer, stops, g.generated) && Concat(g.deltas) == Emitted(tokenizer, stops, g.generated) &&
      (g.generated == [] ==> exists t :: IsEos(tokenizer, t))
  {
    hide Turn, IsEos;
    var g0 := Started(ids, model, rng);
    TurnEmits(e, tokenizer, stops, g0, ids);
    TurnsEmit(e, tokenizer, stops, Turn(e, tokenizer, stops, g0, ids).0, maxTokens - 1);
  }

  // ------------------------------------------------------ the condition

  predicate Comparable(a: string, b: string) {
    a <= b || b <= a
  }

  /**
   Up to `limit` tokens, what a run would show never contradicts a text it decoded
   before; and where a run may end before its first token, that shows nothing.
   */
  ghost predicate Coherent(tokenizer: Tokenizer, stops: seq<string>, limit: nat) {
    (forall tokens, k: nat :: Producible(tokenizer, stops, tokens) && 0 < k < |tokens| <= limit ==>
      Comparable(TextOf(tokenizer, tokens[..k]), Shown(tokenizer, stops, tokens))) &&
    ((exists t :: IsEos(tokenizer, t)) && tokenizer.decode([]).Some? ==> Shown(tokenizer, stops, []) == "")
  }

  /** Under the condition the stream is always the longest text shown so far. */
  lemma {:induction false} StreamIsLongestShown(tokenizer: Tokenizer, stops: seq<string>, limit: nat, tokens: seq<Token>) returns (k: nat)
    requires Coherent(tokenizer, stops, limit) && Producible(tokenizer, stops, tokens) && 0 < |tokens| <= limit
    ensures Shown(tokenizer, stops, tokens) <= Emitted(tokenizer, stops, tokens)
    ensures 0 < k <= |tokens| && Emitted(tokenizer, stops, tokens) == Shown(tokenizer, stops, tokens[..k])
    decreases |tokens|
  {
    hide IsEos, FirstStop;
    var n := |tokens| - 1;
    assert tokens[..|tokens|] == tokens;
    if n == 0 {
      assert tokens[..0] == [];
      k := 1;
    } else {
      ProducibleBefore(tokenizer, stops, tokens);
      k := StreamIsLongestShown(tokenizer, stops, limit, tokens[..n]);
      assert tokens[..n][..k] == tokens[..k];
      ShownWhole(tokenizer, stops, tokens, k);
      assert Comparable(TextOf(tokenizer, tokens[..k]), Shown(tokenizer, stops, tokens));
      var before, shown := Emitted(tokenizer, stops, tokens[..n]), Shown(tokenizer, stops, tokens);
      if |shown| > |before| {
        assert before + shown[|before|..] == shown;
        k := |tokens|;
      }
    }
  }

  /** Before its last token a run shows everything it has decoded. */
  lemma ShownWhole(tokenizer: Tokenizer, stops: seq<string>, tokens: seq<Token>, k: nat)
    requires Producible(tokenizer, stops, tokens) && 0 < k < |tokens|
    ensures Shown(tokenizer, stops, tokens[..k]) == TextOf(tokenizer, tokens[..k])
  {
    hide IsEos, FirstStop;
  }

  /** The returned text of one run is a prefix of what it streamed. */
  ghost predicate PrefixOnRun<S, L, R>(e: Engine<S, L, R>, tokenizer: Tokenizer, stops: seq<string>,
                                       ids: seq<Token>, maxTokens: nat, model: S, rng: R)
    requires ids != [] && maxTokens >= 1
  {
    var (g, err) := Generated(e, tokenizer, stops, ids, maxTokens, model, rng);
    err.None? && tokenizer.decode(g.generated).Some? ==>
      Visible(tokenizer.decode(g.generated).value, stops) <= Concat(g.deltas)
  }

  /** MAIN: the condition is enough for every run of every model and sampler. */
  lemma CoherentStreams<S, L, R>(e: Engine<S, L, R>, tokenizer: Tokenizer, stops: seq<string>,
                                 ids: seq<Token>, limit: nat, maxTokens: nat, model: S, rng: R)
    requires ids != [] && 1 <= maxTokens <= limit && Coherent(tokenizer, stops, limit)
    ensures PrefixOnRun(e, tokenizer, stops, ids, maxTokens, model, rng)
  {
    hide Generated, Producible, IsEos, Visible;
    var (g, err) := Generated(e, tokenizer, stops, ids, maxTokens, model, rng);
    if err.None? {
      RunEmits(e, tokenizer, stops, ids, maxTokens, model, rng);
      FinishReasonIsExact(e, tokenizer, stops, ids, maxTokens, model, rng);
      if g.generated != [] {
        var k := StreamIsLongestShown(tokenizer, stops, limit, g.generated);
      }
    }
  }

  // --------------------------------------------------- the condition is necessary

  /** A sampler that plays back a script. */
  function Scripted(): Engine<int, int, seq<Token>> {
    Engine((m: int, toks: seq<Token>, pos: nat) => (Some(0), m), (m: int) => m, true,
           (script: seq<Token>, logits: int) => if script == [] then None else Some((script[0], script[1..])))
  }

  /** One turn of a script whose next token the run can generate. */
  lemma ScriptTurn(tokenizer: Tokenizer, stops: seq<string>, g: Gen<int, seq<Token>>, input: seq<Token>)
    requires g.finish.Length? && g.rng != [] && Producible(tokenizer, stops, g.generated + [g.rng[0]])
    ensures var (g', err) := Turn(Scripted(), tokenizer, stops, g, input);
      err.None? && g'.inputIds != [] && g'.generated == g.generated + [g.rng[0]] && g'.rng == g.rng[1..] &&
      (g'.finish.Length? <==> FirstStop(TextOf(tokenizer, g'.generated), stops).None?)
  {
    var tokens := g.generated + [g.rng[0]];
    assert tokens[..|tokens|] == tokens && g.rng[0] in tokens;
    hide FirstStop;
  }

  lemma {:induction false} ScriptTurns(tokenizer: Tokenizer, stops: seq<string>, g: Gen<int, seq<Token>>)
    requires g.inputIds != [] && Producible(tokenizer, stops, g.generated + g.rng) && g.generated != []
    requires g.finish.Length? <==> FirstStop(TextOf(tokenizer, g.generated), stops).None?
    ensures var (g', err) := Turns(Scripted(), tokenizer, stops, g, |g.rng|);
      err.None? && g'.generated == g.generated + g.rng
    decreases |g.rng|
  {
    hide Turn, FirstStop, IsEos, TextOf;
    var tokens := g.generated + g.rng;
    if g.rng == [] {
      assert tokens == g.generated;
    } else {
      var m := |g.generated|;
      assert tokens[..m] == g.generated && tokens[..m + 1] == g.generated + [g.rng[0]];
      ProducibleUpTo(tokenizer, stops, tokens, m + 1);
      var last := [g.inputIds[|g.inputIds| - 1]];
      ScriptTurn(tokenizer, stops, g, last);
      var g' := Turn(Scripted(), tokenizer, stops, g, last).0;
      assert g'.generated + g'.rng == tokens;
      ScriptTurns(tokenizer, stops, g');
    }
  }

  lemma ProducibleUpTo(tokenizer: Tokenizer, stops: seq<string>, tokens: seq<Token>, k: nat)
    requires Producible(tokenizer, stops, tokens) && k <= |tokens|
    ensures Producible(tokenizer, stops, tokens[..k])
  {
    hide IsEos, FirstStop, TextOf;
    assert forall j :: 0 <= j <= k ==> tokens[..k][..j] == tokens[..j];
  }

  /** Every producible list of tokens is produced by some run. */
  lemma ScriptRuns(tokenizer: Tokenizer, stops: seq<string>, tokens: seq<Token>)
    requires Producible(tokenizer, stops, tokens) && tokens != []
    ensures var (g, err) := Generated(Scripted(), tokenizer, stops, [0], |tokens|, 0, tokens);
      err.None? && g.generated == tokens
  {
    hide Turn, FirstStop, IsEos, TextOf;
    var g0: Gen<int, seq<Token>> := Started([0], 0, tokens);
    assert [] + [tokens[0]] == tokens[..1];
    ProducibleUpTo(tokenizer, stops, tokens, 1);
    ScriptTurn(tokenizer, stops, g0, [0]);
    var g := Turn(Scripted(), tokenizer, stops, g0, [0]).0;
    assert g.generated + g.rng == tokens;
    ScriptTurns(tokenizer, stops, g);
  }

  lemma ScriptEnds(tokenizer: Tokenizer, stops: seq<string>, t: Token)
    requires IsEos(tokenizer, t)
    ensures var (g, err) := Generated(Scripted(), tokenizer, stops, [0], 1, 0, [t]);
      err.None? && g.generated == [] && g.deltas == []
  {
  }

  /** The promise, on every run of at most `limit` tokens that a sampler can bring about. */
  ghost predicate PrefixOnEveryScript(tokenizer: Tokenizer, stops: seq<string>, limit: nat) {
    forall maxTokens: nat, script: seq<Token> :: 1 <= maxTokens <= limit ==>
      PrefixOnRun(Scripted(), tokenizer, stops, [0], maxTokens, 0, script)
  }

  lemma {:induction false} EmittedGrows(tokenizer: Tokenizer, stops: seq<string>, tokens: seq<Token>, k: nat)
    requires k <= |tokens|
    ensures Emitted(tokenizer, stops, tokens[..k]) <= Emitted(tokenizer, stops, tokens)
    decreases |tokens|
  {
    hide Shown;
    if k == |tokens| {
      assert tokens[..k] == tokens;
    } else {
      EmittedGrows(tokenizer, stops, tokens[..|tokens| - 1], k);
      assert tokens[..|tokens| - 1][..k] == tokens[..k];
    }
  }

  lemma ScriptsShowPrefix(tokenizer: Tokenizer, stops: seq<string>, limit: nat, tokens: seq<Token>)
    requires PrefixOnEveryScript(tokenizer, stops, limit) && Producible(tokenizer, stops, tokens) && 0 < |tokens| <= limit
    ensures Shown(tokenizer, stops, tokens) <= Emitted(tokenizer, stops, tokens)
  {
    hide Generated, Visible, Emitted, Producible;
    ScriptRuns(tokenizer, stops, tokens);
    RunEmits(Scripted(), tokenizer, stops, [0], |tokens|, 0, tokens);
    assert PrefixOnRun(Scripted(), tokenizer, stops, [0], |tokens|, 0, tokens);
    ProducibleBefore(tokenizer, stops, tokens);
  }

  /**
   MAIN: the returned text is a prefix of the stream on every run if and only if
   the tokenizer's texts never contradict each other along producible tokens.
   */
  lemma PrefixOnEveryRunIff(tokenizer: Tokenizer, stops: seq<string>, limit: nat)
    requires limit >= 1
    ensures PrefixOnEveryScript(tokenizer, stops, limit) <==> Coherent(tokenizer, stops, limit)
  {
    hide Generated, Producible, Emitted, Shown, IsEos;
    if PrefixOnEveryScript(tokenizer, stops, limit) {
      forall tokens, k: nat | Producible(tokenizer, stops, tokens) && 0 < k < |tokens| <= limit
        ensures Comparable(TextOf(tokenizer, tokens[..k]), Shown(tokenizer, stops, tokens))
      {
        ScriptsShowPrefix(tokenizer, stops, limit, tokens);
        ProducibleUpTo(tokenizer, stops, tokens, k);
        ScriptsShowPrefix(tokenizer, stops, limit, tokens[..k]);
        ShownWhole(tokenizer, stops, tokens, k);
        EmittedGrows(tokenizer, stops, tokens, k);
      }
      if t :| IsEos(tokenizer, t) {
        ScriptEnds(tokenizer, stops, t);
        assert PrefixOnRun(Scripted(), tokenizer, stops, [0], 1, 0, [t]);
        NothingShown(tokenizer, stops);
      }
    } else if Coherent(tokenizer, stops, limit) {
      forall maxTokens: nat, script: seq<Token> | 1 <= maxTokens <= limit
        ensures PrefixOnRun(Scripted(), tokenizer, stops, [0], maxTokens, 0, script)
      {
        CoherentStreams(Scripted(), tokenizer, stops, [0], limit, maxTokens, 0, script);
      }
    }
  }

  lemma NothingShown(tokenizer: Tokenizer, stops: seq<string>)
    ensures tokenizer.decode([]).Some? && Visible(tokenizer.decode([]).value, stops) <= "" ==> Shown(tokenizer, stops, []) == ""
    ensures Concat([]) == ""
  {
  }

  // ------------------------------------------ decoders that only extend are coherent

  lemma {:induction false} MonotoneExtends(tokenizer: Tokenizer, stops: seq<string>, tokens: seq<Token>, k: nat)
    requires Monotone(tokenizer) && Producible(tokenizer, stops, tokens) && 0 < k <= |tokens|
    ensures TextOf(tokenizer, tokens[..k]) <= TextOf(tokenizer, tokens)
    decreases |tokens|
  {
    hide IsEos, FirstStop;
    assert tokens[..|tokens|] == tokens;
    if k == |tokens| {
    } else {
      var n := |tokens| - 1;
      ProducibleBefore(tokenizer, stops, tokens);
      MonotoneExtends(tokenizer, stops, tokens[..n], k);
      assert tokens[..n][..k] == tokens[..k];
      assert tokens[..n] + [tokens[n]] == tokens;
    }
  }

  /** A decoder that only extends meets the condition, whatever the stops. */
  lemma MonotoneIsCoherent(tokenizer: Tokenizer, stops: seq<string>, limit: nat)
    requires Monotone(tokenizer)
    ensures Coherent(tokenizer, stops, limit)
  {
    hide Producible, IsEos;
    forall tokens, k: nat | Producible(tokenizer, stops, tokens) && 0 < k < |tokens|
      ensures Comparable(TextOf(tokenizer, tokens[..k]), Shown(tokenizer, stops, tokens))
    {
      MonotoneExtends(tokenizer, stops, tokens, k);
    }
  }
}

/**
 The think-tag tracker of `classify_delta` (src/observability/sse.rs).  It sees
 only the last eight characters before each delta; where that is enough to
 follow the tags of the whole content, and where it is not.
 */
module ThinkTags {
  import opened Text

  const TAG_TAIL_LEN: nat := 8
  const OPENING := "<think>"
  const CLOSING := "</think>"

  datatype Phase = Output | Thinking

  datatype Tracker = Tracker(phase: Phase, thinking: nat, output: nat, tail: string)

  const INITIAL := Tracker(Output, 0, 0, "")

  /** The tag that ends a phase. */
  function Ending(phase: Phase): string {
    if phase == Output then OPENING else CLOSING
  }

  function Other(phase: Phase): Phase {
    if phase == Output then Thinking else Output
  }

  /** The last `n` characters. */
  function TailStr(s: string, n: nat): string {
    if |s| <= n then s else s[|s| - n..]
  }

  /** A delta that brings a phase to its end is counted in neither bucket. */
  function Counted(t: Tracker, ends: bool): Tracker {
    if ends then t.(phase := Other(t.phase))
    else if t.phase == Thinking then t.(thinking := t.thinking + 1)
    else t.(output := t.output + 1)
  }

  function Classified(t: Tracker, delta: string): Tracker {
    var combined := t.tail + delta;
    Counted(t, Occurs(combined, Ending(t.phase))).(tail := TailStr(combined, TAG_TAIL_LEN))
  }

  function ClassifiedAll(t: Tracker, deltas: seq<string>): Tracker {
    if deltas == [] then t else Classified(ClassifiedAll(t, deltas[..|deltas| - 1]), deltas[|deltas| - 1])
  }

  lemma {:induction false} ClassifiedInTurn(t: Tracker, first: seq<string>, second: seq<string>)
    ensures ClassifiedAll(t, first + second) == ClassifiedAll(ClassifiedAll(t, first), second)
    decreases |second|
  {
    hide Classified;
    if second == [] {
      assert first + second == first;
    } else {
      var n := |second| - 1;
      ClassifiedInTurn(t, first, second[..n]);
      assert (first + second)[..|first| + n] == first + second[..n];
    }
  }

  // ------------------------------------------------------------- conservation

  function Switches(t: Tracker, deltas: seq<string>): nat {
    if deltas == [] then 0
    else
      var before := ClassifiedAll(t, deltas[..|deltas| - 1]);
      Switches(t, deltas[..|deltas| - 1]) +
      (if Classified(before, deltas[|deltas| - 1]).phase != before.phase then 1 else 0)
  }

  /** MAIN: every delta is counted once: as thinking, as output, or as a switch of phase. */
  lemma {:induction false} DeltasAreConserved(t: Tracker, deltas: seq<string>)
    ensures var after := ClassifiedAll(t, deltas);
      after.thinking + after.output + Switches(t, deltas) == t.thinking + t.output + |deltas|
    decreases |deltas|
  {
    hide Occurs, TailStr;
    if deltas == [] {
    } else {
      DeltasAreConserved(t, deltas[..|deltas| - 1]);
    }
  }

  // ------------------------------------------------------------ tags by position

  /** `tag` ends at index `e` of `text`. */
  predicate EndsAt(text: string, tag: string, e: nat) {
    |tag| <= e && OccursAt(text, tag, e - |tag|)
  }

  predicate TagEndsAt(text: string, e: nat) {
    EndsAt(text, OPENING, e) || EndsAt(text, CLOSING, e)
  }

  /** `tag` ends inside `delta`, wherever it started. */
  predicate Completes(content: string, delta: string, tag: string) {
    exists e: nat :: |content| < e <= |content| + |delta| && EndsAt(content + delta, tag, e)
  }

  /** No more than one tag ends inside `delta`. */
  ghost predicate AtMostOneTag(content: string, delta: string) {
    forall e: nat, f: nat ::
      (|content| < e <= |content| + |delta| && |content| < f <= |content| + |delta| &&
       TagEndsAt(content + delta, e) && TagEndsAt(content + delta, f)) ==> e == f
  }

  predicate InTail(content: string, tag: string) {
    Occurs(TailStr(content, TAG_TAIL_LEN), tag)
  }

  // ------------------------------------------------- what the eight characters show

  lemma TailOfConcat(content: string, delta: string)
    ensures TailStr(TailStr(content, TAG_TAIL_LEN) + delta, TAG_TAIL_LEN) == TailStr(content + delta, TAG_TAIL_LEN)
  {
  }

  /** MAIN: the kept tail is the last eight characters of everything seen. */
  lemma {:induction false} TailIsLastOfAll(deltas: seq<string>)
    ensures ClassifiedAll(INITIAL, deltas).tail == TailStr(Concat(deltas), 8)
    decreases |deltas|
  {
    hide Occurs, TailStr;
    if deltas == [] {
      EmptyTail();
    } else {
      var n := |deltas| - 1;
      TailIsLastOfAll(deltas[..n]);
      TailOfConcat(Concat(deltas[..n]), deltas[n]);
    }
  }

  lemma EmptyTail()
    ensures TailStr("", TAG_TAIL_LEN) == ""
  {
  }

  /** Dropping the first `k` characters shifts every later occurrence by `k`. */
  lemma OccursAtShift(text: string, k: nat, tag: string, i: nat)
    requires k <= |text|
    ensures OccursAt(text[k..], tag, i) <==> OccursAt(text, tag, k + i)
  {
  }

  lemma SuffixOccurs(text: string, k: nat, tag: string)
    requires k <= |text|
    ensures Occurs(text[k..], tag) <==> exists e: nat :: k + |tag| <= e && EndsAt(text, tag, e)
  {
    if Occurs(text[k..], tag) {
      var i: nat :| i <= |text[k..]| && OccursAt(text[k..], tag, i);
      OccursAtShift(text, k, tag, i);
      assert EndsAt(text, tag, k + i + |tag|);
    }
    if e: nat :| k + |tag| <= e && EndsAt(text, tag, e) {
      OccursAtShift(text, k, tag, e - |tag| - k);
      assert OccursAt(text[k..], tag, e - |tag| - k);
    }
  }

  function TailStart(content: string): nat {
    if |content| <= TAG_TAIL_LEN then 0 else |content| - TAG_TAIL_LEN
  }

  lemma EndsAtPrefix(content: string, delta: string, tag: string, e: nat)
    requires e <= |content|
    ensures EndsAt(content, tag, e) <==> EndsAt(content + delta, tag, e)
  {
  }

  /** The window shows a tag if and only if one ends in the delta, or is still in the tail. */
  lemma WindowShows(content: string, delta: string, tag: string)
    requires 0 < |tag| <= TAG_TAIL_LEN
    ensures Occurs(TailStr(content, TAG_TAIL_LEN) + delta, tag) <==> Completes(content, delta, tag) || InTail(content, tag)
  {
    hide Occurs, OccursAt;
    var k := TailStart(content);
    var text := content + delta;
    assert TailStr(content, TAG_TAIL_LEN) + delta == text[k..];
    assert TailStr(content, TAG_TAIL_LEN) == content[k..];
    SuffixOccurs(text, k, tag);
    SuffixOccurs(content, k, tag);
    if e: nat :| k + |tag| <= e && EndsAt(text, tag, e) {
      EndsInText(text, tag, e);
      if e <= |content| {
        EndsAtPrefix(content, delta, tag, e);
      }
    }
    if e: nat :| k + |tag| <= e && EndsAt(content, tag, e) {
      EndsInText(content, tag, e);
      EndsAtPrefix(content, delta, tag, e);
    }
  }

  lemma EndsInText(text: string, tag: string, e: nat)
    requires EndsAt(text, tag, e)
    ensures e <= |text|
  {
  }

  /** MAIN: a tag that ends inside a delta is never missed in the phase it ends. */
  lemma CompletedTagIsSeen(deltas: seq<string>, delta: string)
    ensures var before := ClassifiedAll(INITIAL, deltas);
      Completes(Concat(deltas), delta, Ending(before.phase)) ==> Classified(before, delta).phase == Other(before.phase)
  {
    hide Completes, InTail, Occurs, ClassifiedAll, TailStr;
    var before := ClassifiedAll(INITIAL, deltas);
    TailIsLastOfAll(deltas);
    WindowShows(Concat(deltas), delta, Ending(before.phase));
  }

  // ----------------------------------------- a tracker that sees all the content

  /** Phase and counts by looking for tags in the whole content. */
  function Reference(deltas: seq<string>): Tracker {
    if deltas == [] then INITIAL
    else
      var n := |deltas| - 1;
      var before := Reference(deltas[..n]);
      Counted(before, Completes(Concat(deltas[..n]), deltas[n], Ending(before.phase))).(tail := TailStr(Concat(deltas), TAG_TAIL_LEN))
  }

  ghost predicate NeverTwoTags(deltas: seq<string>) {
    forall n :: 0 <= n < |deltas| ==> AtMostOneTag(Concat(deltas[..n]), deltas[n])
  }

  lemma EndingChar(text: string, tag: string, e: nat, j: nat)
    requires j < |tag|
    ensures EndsAt(text, tag, e) ==> e <= |text| && text[e - |tag| + j] == tag[j]
  {
  }

  /** The two tags never end at one place, nor the opening one just before the closing one ends. */
  lemma TagsDiffer(text: string, e: nat)
    requires EndsAt(text, CLOSING, e + 1)
    ensures !EndsAt(text, OPENING, e + 1) && !EndsAt(text, OPENING, e)
  {
    EndingChar(text, CLOSING, e + 1, 1);
    EndingChar(text, OPENING, e + 1, 0);
    EndingChar(text, OPENING, e, 1);
    assert CLOSING[1] == '/' && OPENING[0] == '<' && OPENING[1] == 't';
    hide OccursAt;
  }

  lemma InTailEnds(content: string, tag: string)
    ensures InTail(content, tag) <==> exists e: nat :: TailStart(content) + |tag| <= e && EndsAt(content, tag, e)
  {
    assert TailStr(content, TAG_TAIL_LEN) == content[TailStart(content)..];
    SuffixOccurs(content, TailStart(content), tag);
  }

  /** Without a completed ending tag, the tail stays clear of it. */
  lemma TailStaysClear(content: string, delta: string, tag: string)
    requires !InTail(content, tag) && !Completes(content, delta, tag)
    ensures !InTail(content + delta, tag)
  {
    hide InTail, EndsAt;
    InTailEnds(content, tag);
    InTailEnds(content + delta, tag);
    if e: nat :| TailStart(content + delta) + |tag| <= e && EndsAt(content + delta, tag, e) {
      EndsInText(content + delta, tag, e);
      if e <= |content| {
        EndsAtPrefix(content, delta, tag, e);
      }
    }
  }

  /** After a lone ending tag, the tail is clear of the next one. */
  lemma TailIsClearAfter(content: string, delta: string, phase: Phase)
    requires AtMostOneTag(content, delta) && Completes(content, delta, Ending(phase))
    ensures !InTail(content + delta, Ending(Other(phase)))
  {
    hide InTail, EndsAt, Completes;
    var text := content + delta;
    var next := Ending(Other(phase));
    var d: nat := CompletedAt(content, delta, Ending(phase));
    InTailEnds(text, next);
    if e: nat :| TailStart(text) + |next| <= e && EndsAt(text, next, e) {
      EndsInText(text, next, e);
      if e > |content| {
        LoneTag(content, delta, d, e);
      }
      TagsDiffer(text, if phase == Thinking then d - 1 else e - 1);
    }
  }

  lemma LoneTag(content: string, delta: string, d: nat, e: nat)
    requires AtMostOneTag(content, delta) && |content| < d <= |content| + |delta| && |content| < e <= |content| + |delta|
    requires TagEndsAt(content + delta, d) && TagEndsAt(content + delta, e)
    ensures d == e
  {
  }

  lemma CompletedAt(content: string, delta: string, tag: string) returns (e: nat)
    requires Completes(content, delta, tag)
    ensures |content| < e <= |content| + |delta| && EndsAt(content + delta, tag, e)
  {
    e :| |content| < e <= |content| + |delta| && EndsAt(content + delta, tag, e);
  }

  /** The tail still shows the tag that ends the phase, and the delta does not complete it again. */
  predicate FalseAlarm(content: string, delta: string, phase: Phase) {
    InTail(content, Ending(phase)) && !Completes(content, delta, Ending(phase))
  }

  ghost predicate NoFalseAlarm(deltas: seq<string>) {
    forall n :: 0 <= n < |deltas| ==> !FalseAlarm(Concat(deltas[..n]), deltas[n], Reference(deltas[..n]).phase)
  }

  /** At every point the tracker knows what the whole content says. */
  ghost predicate FollowsThroughout(deltas: seq<string>) {
    forall n :: 0 <= n <= |deltas| ==> ClassifiedAll(INITIAL, deltas[..n]) == Reference(deltas[..n])
  }

  /** While the tracker follows, the next delta loses it exactly by a false alarm. */
  lemma FollowsOneMore(deltas: seq<string>)
    requires deltas != [] && ClassifiedAll(INITIAL, deltas[..|deltas| - 1]) == Reference(deltas[..|deltas| - 1])
    ensures var n := |deltas| - 1;
      ClassifiedAll(INITIAL, deltas) == Reference(deltas) <==>
      !FalseAlarm(Concat(deltas[..n]), deltas[n], Reference(deltas[..n]).phase)
  {
    hide InTail, Completes, TailStr, Occurs, Ending;
    var n := |deltas| - 1;
    var content, before := Concat(deltas[..n]), Reference(deltas[..n]);
    TailIsLastOfAll(deltas[..n]);
    TailOfConcat(content, deltas[n]);
    EndingLength(before.phase);
    WindowShows(content, deltas[n], Ending(before.phase));
  }

  /**
   MAIN: the tracker with its eight characters does what a tracker of the whole
   content does, delta by delta, if and only if no delta raises a false alarm.
   */
  lemma {:induction false} TrackerFollowsTagsIff(deltas: seq<string>)
    ensures FollowsThroughout(deltas) <==> NoFalseAlarm(deltas)
    decreases |deltas|
  {
    hide FalseAlarm, ClassifiedAll, Reference;
    if deltas == [] {
      NothingSeenYet();
    } else {
      var n := |deltas| - 1;
      var shorter := deltas[..n];
      TrackerFollowsTagsIff(shorter);
      assert forall k :: 0 <= k <= n ==> shorter[..k] == deltas[..k];
      assert deltas[..n + 1] == deltas;
      if FollowsThroughout(shorter) {
        assert ClassifiedAll(INITIAL, shorter[..n]) == Reference(shorter[..n]);
        FollowsOneMore(deltas);
      }
      FollowsBefore(deltas);
      AlarmsBefore(deltas);
    }
  }

  lemma NothingSeenYet()
    ensures FollowsThroughout([]) && NoFalseAlarm([])
  {
  }

  lemma FollowsBefore(deltas: seq<string>)
    requires deltas != []
    ensures FollowsThroughout(deltas) <==>
      FollowsThroughout(deltas[..|deltas| - 1]) && ClassifiedAll(INITIAL, deltas) == Reference(deltas)
  {
    hide ClassifiedAll, Reference;
    var shorter := deltas[..|deltas| - 1];
    assert deltas[..|deltas|] == deltas;
    assert forall k :: 0 <= k < |deltas| ==> shorter[..k] == deltas[..k];
    if FollowsThroughout(deltas) {
      forall k | 0 <= k <= |shorter|
        ensures ClassifiedAll(INITIAL, shorter[..k]) == Reference(shorter[..k])
      {
        assert ClassifiedAll(INITIAL, deltas[..k]) == Reference(deltas[..k]);
      }
    }
  }

  lemma AlarmsBefore(deltas: seq<string>)
    requires deltas != []
    ensures var n := |deltas| - 1;
      NoFalseAlarm(deltas) <==> NoFalseAlarm(deltas[..n]) && !FalseAlarm(Concat(deltas[..n]), deltas[n], Reference(deltas[..n]).phase)
  {
    hide FalseAlarm, Reference, Concat;
    var n := |deltas| - 1;
    var shorter := deltas[..n];
    assert forall k :: 0 <= k < n ==> shorter[..k] == deltas[..k] && shorter[k] == deltas[k];
    if NoFalseAlarm(deltas) {
      forall k | 0 <= k < |shorter|
        ensures !FalseAlarm(Concat(shorter[..k]), shorter[k], Reference(shorter[..k]).phase)
      {
        assert !FalseAlarm(Concat(deltas[..k]), deltas[k], Reference(deltas[..k]).phase);
      }
    }
  }

  /** While no delta completes two tags, the tail never shows the tag that ends the phase. */
  lemma {:induction false} LoneTagsClearTheTail(deltas: seq<string>)
    requires NeverTwoTags(deltas)
    ensures !InTail(Concat(deltas), Ending(Reference(deltas).phase))
    ensures NoFalseAlarm(deltas)
    decreases |deltas|
  {
    hide InTail, Completes, AtMostOneTag, TailStr, Ending;
    if deltas == [] {
      NothingInEmptyTail();
    } else {
      var n := |deltas| - 1;
      var content, delta, phase := Concat(deltas[..n]), deltas[n], Reference(deltas[..n]).phase;
      NeverTwoBefore(deltas);
      LoneTagsClearTheTail(deltas[..n]);
      AlarmsBefore(deltas);
      hide NoFalseAlarm, NeverTwoTags;
      if Completes(content, delta, Ending(phase)) {
        TailIsClearAfter(content, delta, phase);
      } else {
        TailStaysClear(content, delta, Ending(phase));
      }
    }
  }

  /**
   MAIN: so it is when no delta completes two tags: the phase switches exactly at
   the deltas that complete the tag ending it.
   */
  lemma TrackerFollowsTags(deltas: seq<string>)
    requires NeverTwoTags(deltas)
    ensures FollowsThroughout(deltas) && ClassifiedAll(INITIAL, deltas) == Reference(deltas)
  {
    hide NeverTwoTags, NoFalseAlarm, ClassifiedAll, Reference;
    LoneTagsClearTheTail(deltas);
    TrackerFollowsTagsIff(deltas);
    assert deltas[..|deltas|] == deltas;
  }

  lemma EndingLength(phase: Phase)
    ensures 0 < |Ending(phase)| <= TAG_TAIL_LEN
  {
  }

  lemma NothingInEmptyTail()
    ensures !InTail("", OPENING) && !InTail("", Ending(Output))
  {
  }

  lemma NeverTwoBefore(deltas: seq<string>)
    requires NeverTwoTags(deltas) && deltas != []
    ensures NeverTwoTags(deltas[..|deltas| - 1])
    ensures AtMostOneTag(Concat(deltas[..|deltas| - 1]), deltas[|deltas| - 1])
  {
    hide AtMostOneTag;
    var shorter := deltas[..|deltas| - 1];
    forall n | 0 <= n < |shorter|
      ensures AtMostOneTag(Concat(shorter[..n]), shorter[n])
    {
      assert shorter[..n] == deltas[..n];
    }
  }

  // ------------------------------------------------------------ where it fails

  lemma ShowsAt(text: string, before: string, tag: string, after: string)
    requires text == before + tag + after
    ensures Occurs(text, tag)
  {
    assert text[|before|..|before| + |tag|] == tag;
    assert OccursAt(text, tag, |before|);
  }

  lemma OneOpening()
    ensures Classified(INITIAL, OPENING) == Tracker(Thinking, 0, 0, OPENING)
  {
    ShowsAt("" + OPENING, "", OPENING, "");
    hide Occurs;
    assert "" + OPENING == OPENING;
  }

  lemma BothTags()
    ensures Classified(Tracker(Thinking, 0, 0, OPENING), CLOSING + OPENING) == Tracker(Output, 0, 0, ">" + OPENING)
  {
    var combined := OPENING + (CLOSING + OPENING);
    assert combined == OPENING + CLOSING + OPENING;
    ShowsAt(combined, OPENING, CLOSING, OPENING);
    hide Occurs;
    assert combined[14..] == [CLOSING[7]] + OPENING;
  }

  lemma FoundTooLate()
    ensures Classified(Tracker(Output, 0, 0, ">" + OPENING), "x").phase == Thinking
  {
    ShowsAt(">" + OPENING + "x", ">", OPENING, "x");
  }

  /**
   With both tags in one delta the second is missed at first, and found too late:
   a delta that completes nothing is then taken for the switch.
   */
  lemma TwoTagsInOneDelta()
    ensures var deltas := [OPENING, CLOSING + OPENING];
      var before := ClassifiedAll(INITIAL, deltas);
      before.phase == Output && !Completes(Concat(deltas), "x", OPENING) &&
      Classified(before, "x").phase == Thinking
  {
    OneOpening();
    BothTags();
    FoundTooLate();
    hide Classified, Occurs;
    var deltas := [OPENING, CLOSING + OPENING];
    assert deltas[..1] == [OPENING] && [OPENING][..0] == [];
    assert ClassifiedAll(INITIAL, [OPENING]) == Classified(INITIAL, OPENING);
    forall e: nat | |Concat(deltas)| < e <= |Concat(deltas)| + |"x"|
      ensures !EndsAt(Concat(deltas) + "x", OPENING, e)
    {
      EndingChar(Concat(deltas) + "x", OPENING, e, 6);
    }
  }
}

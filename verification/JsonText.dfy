/**
 The compact text `serde_json::to_string` writes, and `canonical_json`
 (src/reporting/envelope.rs).  The text of a tree determines the tree, so two
 canonical texts are equal exactly for trees equal up to key order.
 */
module JsonText {
  import opened Json
  import opened Wrappers

  // ------------------------------------------------------------------- numbers

  const DIGITS := "0123456789"

  function Decimal(n: nat): (r: string)
    ensures r != "" && forall c :: c in r ==> '0' <= c <= '9'
  {
    if n < 10 then [DIGITS[n]] else Decimal(n / 10) + [DIGITS[n % 10]]
  }

  function NumberText(n: Number): string {
    match n
    case PosInt(v) => Decimal(v)
    case NegInt(m) => "-" + Decimal(m)
    case Float(t) => t
  }

  // ------------------------------------------------------------------- strings

  function HexDigit(i: nat): char
    requires i < 16
  {
    (if i < 10 then '0' as int + i else 'a' as int + i - 10) as char
  }

  /** How one character of a string is written. */
  function Escape(c: char): string {
    if c == '"' then "\\\""
    else if c == '\\' then "\\\\"
    else if c == '\U{8}' then "\\b"
    else if c == '\U{C}' then "\\f"
    else if c == '\n' then "\\n"
    else if c == '\r' then "\\r"
    else if c == '\t' then "\\t"
    else if c < ' ' then "\\u00" + [HexDigit(c as int / 16), HexDigit(c as int % 16)]
    else [c]
  }

  // ------------------------------------------------------------------- writing

  /** The characters of `s` and the closing quote, in front of `rest`. */
  function PutChars(s: string, rest: string): string {
    if s == "" then "\"" + rest else Escape(s[0]) + PutChars(s[1..], rest)
  }

  /** The text of `v` in front of `rest`. */
  function Put(v: Json, rest: string): string
    decreases v
  {
    match v
    case Null => "null" + rest
    case Bool(b) => (if b then "true" else "false") + rest
    case Num(n) => NumberText(n) + rest
    case Str(s) => "\"" + PutChars(s, rest)
    case Arr(items) => "[" + (if items == [] then "]" + rest else Put(items[0], PutItems(items[1..], rest)))
    case Obj(es) => "{" + (if es == [] then "}" + rest else PutEntry(es[0], PutEntries(es[1..], rest)))
  }

  function PutItems(items: seq<Json>, rest: string): string
    decreases items
  {
    if items == [] then "]" + rest else "," + Put(items[0], PutItems(items[1..], rest))
  }

  function PutEntry(e: Entry, rest: string): string
    decreases e
  {
    "\"" + PutChars(e.key, ":" + Put(e.value, rest))
  }

  function PutEntries(es: seq<Entry>, rest: string): string
    decreases es
  {
    if es == [] then "}" + rest else "," + PutEntry(es[0], PutEntries(es[1..], rest))
  }

  function ToText(v: Json): string {
    Put(v, "")
  }

  function CanonicalJson(v: Json): string {
    ToText(Canonicalize(v))
  }

  // ------------------------------------------------------------------- reading

  // A reader of compact JSON by the grammar of RFC 8259: literals (section 3),
  // objects and arrays (sections 4 and 5), numbers (section 6) and strings (section 7).

  function DigitValue(c: char): nat {
    if '0' <= c <= '9' then c as int - '0' as int else 0
  }

  function DecimalValue(s: string): nat {
    if s == "" then 0
    else 10 * DecimalValue(s[..|s| - 1]) + DigitValue(s[|s| - 1])
  }

  function ReadNumber(token: string): Number
    requires token != ""
  {
    if '.' in token || 'e' in token then Float(token)
    else if token[0] == '-' then NegInt(DecimalValue(token[1..]))
    else PosInt(DecimalValue(token))
  }

  /** How many characters of a number `s` starts with. */
  function NumberLength(s: string): (n: nat)
    ensures n <= |s|
  {
    if s == "" || !IsNumberChar(s[0]) then 0 else 1 + NumberLength(s[1..])
  }

  function HexValue(c: char): Option<nat> {
    if '0' <= c <= '9' then Some(c as int - '0' as int)
    else if 'a' <= c <= 'f' then Some(c as int - 'a' as int + 10)
    else if 'A' <= c <= 'F' then Some(c as int - 'A' as int + 10)
    else None
  }

  /** The character of four hexadecimal digits; half of a surrogate pair is not one. */
  function ReadHex(digits: string): Option<char>
    requires |digits| == 4
  {
    var a, b, d, e := HexValue(digits[0]), HexValue(digits[1]), HexValue(digits[2]), HexValue(digits[3]);
    if a.None? || b.None? || d.None? || e.None? then None
    else
      var code := ((a.value * 16 + b.value) * 16 + d.value) * 16 + e.value;
      if 0 <= code < 0xD800 || 0xE000 <= code < 0x1_0000 then Some(code as char) else None
  }

  /** One character of a string, and what follows it. */
  function ReadChar(s: string): (r: Option<(char, string)>)
    ensures r.Some? ==> |r.value.1| < |s|
  {
    if s == "" || s[0] < ' ' || s[0] == '"' then None
    else if s[0] != '\\' then Some((s[0], s[1..]))
    else if |s| < 2 then None
    else if s[1] == '"' || s[1] == '\\' || s[1] == '/' then Some((s[1], s[2..]))
    else if s[1] == 'b' then Some(('\U{8}', s[2..]))
    else if s[1] == 'f' then Some(('\U{C}', s[2..]))
    else if s[1] == 'n' then Some(('\n', s[2..]))
    else if s[1] == 'r' then Some(('\r', s[2..]))
    else if s[1] == 't' then Some(('\t', s[2..]))
    else if s[1] == 'u' && |s| >= 6 && ReadHex(s[2..6]).Some? then Some((ReadHex(s[2..6]).value, s[6..]))
    else None
  }

  /** The characters up to the closing quote, and what follows it. */
  function ReadChars(s: string): (r: Option<(string, string)>)
    ensures r.Some? ==> |r.value.1| < |s|
    decreases |s|
  {
    if s != "" && s[0] == '"' then Some(("", s[1..]))
    else
      var c := ReadChar(s);
      if c.None? then None
      else
        var more := ReadChars(c.value.1);
        if more.None? then None else Some(([c.value.0] + more.value.0, more.value.1))
  }

  function ReadValue(s: string): (r: Option<(Json, string)>)
    ensures r.Some? ==> |r.value.1| < |s|
    decreases |s|, 1
  {
    if s == "" then None
    else if "null" <= s then Some((Null, s[4..]))
    else if "true" <= s then Some((Bool(true), s[4..]))
    else if "false" <= s then Some((Bool(false), s[5..]))
    else if s[0] == '"' then
      var chars := ReadChars(s[1..]);
      if chars.None? then None else Some((Str(chars.value.0), chars.value.1))
    else if "[]" <= s then Some((Arr([]), s[2..]))
    else if s[0] == '[' then
      var first := ReadValue(s[1..]);
      if first.None? then None
      else
        var more := ReadItems(first.value.1);
        if more.None? then None else Some((Arr([first.value.0] + more.value.0), more.value.1))
    else if "{}" <= s then Some((Obj([]), s[2..]))
    else if s[0] == '{' then
      var first := ReadEntry(s[1..]);
      if first.None? then None
      else
        var more := ReadEntries(first.value.1);
        if more.None? then None else Some((Obj([first.value.0] + more.value.0), more.value.1))
    else
      var n := NumberLength(s);
      if n == 0 then None else Some((Num(ReadNumber(s[..n])), s[n..]))
  }

  /** The rest of an array. */
  function ReadItems(s: string): (r: Option<(seq<Json>, string)>)
    ensures r.Some? ==> |r.value.1| < |s|
    decreases |s|, 0
  {
    if s == "" then None
    else if s[0] == ']' then Some(([], s[1..]))
    else if s[0] != ',' then None
    else
      var first := ReadValue(s[1..]);
      if first.None? then None
      else
        var more := ReadItems(first.value.1);
        if more.None? then None else Some(([first.value.0] + more.value.0, more.value.1))
  }

  function ReadEntry(s: string): (r: Option<(Entry, string)>)
    ensures r.Some? ==> |r.value.1| < |s|
    decreases |s|, 0
  {
    if s == "" || s[0] != '"' then None
    else
      var key := ReadChars(s[1..]);
      if key.None? || key.value.1 == "" || key.value.1[0] != ':' then None
      else
        var value := ReadValue(key.value.1[1..]);
        if value.None? then None else Some((Entry(key.value.0, value.value.0), value.value.1))
  }

  /** The rest of an object. */
  function ReadEntries(s: string): (r: Option<(seq<Entry>, string)>)
    ensures r.Some? ==> |r.value.1| < |s|
    decreases |s|, 0
  {
    if s == "" then None
    else if s[0] == '}' then Some(([], s[1..]))
    else if s[0] != ',' then None
    else
      var first := ReadEntry(s[1..]);
      if first.None? then None
      else
        var more := ReadEntries(first.value.1);
        if more.None? then None else Some(([first.value.0] + more.value.0, more.value.1))
  }

  // -------------------------------------------------------- numbers read back

  lemma {:induction false} DecimalReadsBack(n: nat)
    ensures DecimalValue(Decimal(n)) == n
  {
    assert forall d: nat :: d < 10 ==> DigitValue(DIGITS[d]) == d;
    if n < 10 {
      assert [DIGITS[n]][..0] == "";
    } else {
      DecimalReadsBack(n / 10);
      assert Decimal(n)[..|Decimal(n)| - 1] == Decimal(n / 10);
    }
  }

  lemma NumberChars(n: Number, c: char)
    requires NumberWf(n) && c in NumberText(n)
    ensures IsNumberChar(c)
  {
  }

  lemma NumberStart(n: Number)
    requires NumberWf(n)
    ensures NumberText(n) != ""
    ensures NumberText(n)[0] == '-' || '0' <= NumberText(n)[0] <= '9'
  {
    if n.PosInt? {
      assert Decimal(n.value)[0] in Decimal(n.value);
    }
  }

  lemma NumberReadsBack(n: Number)
    requires NumberWf(n)
    ensures NumberText(n) != "" && ReadNumber(NumberText(n)) == n
  {
    NumberStart(n);
    if n.PosInt? {
      assert Decimal(n.value)[0] in Decimal(n.value);
      DecimalReadsBack(n.value);
    } else if n.NegInt? {
      assert NumberText(n)[1..] == Decimal(n.magnitude);
      DecimalReadsBack(n.magnitude);
    }
  }

  /** What may follow a value: nothing, or a character no number contains. */
  predicate Follows(rest: string) {
    rest == "" || rest[0] in ",]}"
  }

  lemma {:induction false} NumberEnds(s: string, rest: string)
    requires (forall c :: c in s ==> IsNumberChar(c)) && Follows(rest)
    ensures NumberLength(s + rest) == |s|
    decreases |s|
  {
    if s == "" {
      assert s + rest == rest;
    } else {
      assert s[0] in s && (s + rest)[1..] == s[1..] + rest;
      NumberEnds(s[1..], rest);
    }
  }

  // -------------------------------------------------------- strings read back

  lemma HexReadsBack(i: nat)
    requires i < 16
    ensures HexValue(HexDigit(i)) == Some(i)
  {
  }

  lemma EscapeReadsBack(c: char, rest: string)
    ensures ReadChar(Escape(c) + rest) == Some((c, rest))
  {
    var s := Escape(c) + rest;
    assert s[|Escape(c)|..] == rest;
    if c < ' ' && |Escape(c)| == 6 {
      HexReadsBack(c as int / 16);
      HexReadsBack(c as int % 16);
      HexReadsBack(0);
      assert s[2..6] == ['0', '0', HexDigit(c as int / 16), HexDigit(c as int % 16)];
      assert s[0] == '\\' && s[1] == 'u';
    } else if |Escape(c)| == 2 {
      assert s[0] == Escape(c)[0] && s[1] == Escape(c)[1];
    } else {
      assert s[0] == c;
    }
  }

  lemma EscapeStarts(c: char)
    ensures Escape(c) != "" && Escape(c)[0] != '"'
  {
  }

  lemma {:induction false} CharsReadBack(s: string, rest: string)
    ensures ReadChars(PutChars(s, rest)) == Some((s, rest))
    decreases |s|
  {
    hide Escape, ReadChar;
    if s == "" {
      assert ("\"" + rest)[1..] == rest;
    } else {
      var more := PutChars(s[1..], rest);
      EscapeStarts(s[0]);
      EscapeReadsBack(s[0], more);
      assert (Escape(s[0]) + more)[0] == Escape(s[0])[0];
      CharsReadBack(s[1..], rest);
      assert s == [s[0]] + s[1..];
    }
  }

  // --------------------------------------------------------- values read back

  predicate StartsAs(v: Json, c: char) {
    match v
    case Null => c == 'n'
    case Bool(b) => c == if b then 't' else 'f'
    case Num(_) => c == '-' || '0' <= c <= '9'
    case Str(_) => c == '"'
    case Arr(_) => c == '['
    case Obj(_) => c == '{'
  }

  lemma PutStarts(v: Json, rest: string)
    requires Wf(v)
    ensures Put(v, rest) != "" && StartsAs(v, Put(v, rest)[0])
  {
    if v.Num? {
      NumberStart(v.n);
      assert Put(v, rest)[0] == NumberText(v.n)[0];
    }
  }

  lemma NumReadsBack(n: Number, rest: string)
    requires NumberWf(n) && Follows(rest)
    ensures ReadValue(NumberText(n) + rest) == Some((Num(n), rest))
  {
    hide NumberText, ReadNumber, NumberLength, NumberWf, Follows, IsNumberChar;
    var text := NumberText(n);
    NumberReadsBack(n);
    NumberStart(n);
    forall c | c in text
      ensures IsNumberChar(c)
    {
      NumberChars(n, c);
    }
    NumberEnds(text, rest);
    assert (text + rest)[0] == text[0];
    assert (text + rest)[..|text|] == text && (text + rest)[|text|..] == rest;
  }

  lemma LiteralsReadBack(rest: string)
    ensures ReadValue("null" + rest) == Some((Null, rest))
    ensures ReadValue("true" + rest) == Some((Bool(true), rest))
    ensures ReadValue("false" + rest) == Some((Bool(false), rest))
  {
    assert ("null" + rest)[4..] == rest && ("true" + rest)[4..] == rest && ("false" + rest)[5..] == rest;
    assert ("null" + rest)[..4] == "null" && ("true" + rest)[..4] == "true" && ("false" + rest)[..5] == "false";
    assert ("true" + rest)[0] == 't' && ("false" + rest)[0] == 'f';
  }

  /** A value's text reads back as the value, whatever a longer text goes on with. */
  lemma {:induction false} PutReadsBack(v: Json, rest: string)
    requires Wf(v) && Follows(rest)
    ensures ReadValue(Put(v, rest)) == Some((v, rest))
    decreases v, 1
  {
    match v
    case Null => LiteralsReadBack(rest);
    case Bool(b) => LiteralsReadBack(rest);
    case Num(n) => NumReadsBack(n, rest);
    case Str(s) => StrReadsBack(s, rest);
    case Arr(items) => ArrayReadsBack(items, rest);
    case Obj(es) => ObjectReadsBack(es, rest);
  }

  lemma StrReadsBack(s: string, rest: string)
    ensures ReadValue("\"" + PutChars(s, rest)) == Some((Str(s), rest))
  {
    var chars := PutChars(s, rest);
    CharsReadBack(s, rest);
    hide PutChars, ReadChars;
    assert ("\"" + chars)[0] == '"' && ("\"" + chars)[1..] == chars;
  }

  /** One value read, then the others. */
  lemma ReadsArray(first: string, v: Json, tail: string, more: seq<Json>, rest: string)
    requires first != "" && first[0] != ']' && ReadValue(first) == Some((v, tail)) && ReadItems(tail) == Some((more, rest))
    ensures ReadValue("[" + first) == Some((Arr([v] + more), rest))
  {
    hide ReadItems, ReadEntry, ReadEntries, ReadNumber, NumberLength, ReadChars;
    assert ("[" + first)[0] == '[' && ("[" + first)[1] == first[0] && ("[" + first)[1..] == first;
  }

  lemma ReadsItems(first: string, v: Json, tail: string, more: seq<Json>, rest: string)
    requires ReadValue(first) == Some((v, tail)) && ReadItems(tail) == Some((more, rest))
    ensures ReadItems("," + first) == Some(([v] + more, rest))
  {
    hide ReadValue;
    assert ("," + first)[0] == ',' && ("," + first)[1..] == first;
  }

  lemma ReadsEmpty(rest: string)
    ensures ReadValue("[" + ("]" + rest)) == Some((Arr([]), rest)) && ReadValue("{" + ("}" + rest)) == Some((Obj([]), rest))
  {
    hide ReadItems, ReadEntry, ReadEntries, ReadNumber, NumberLength, ReadChars;
    var a, o := "[" + ("]" + rest), "{" + ("}" + rest);
    assert a[0] == '[' && a[..2] == "[]" && a[2..] == rest;
    assert o[0] == '{' && o[..2] == "{}" && o[2..] == rest;
  }

  lemma {:induction false} ArrayReadsBack(items: seq<Json>, rest: string)
    requires Wf(Arr(items)) && Follows(rest)
    ensures ReadValue(Put(Arr(items), rest)) == Some((Arr(items), rest))
    decreases items, 2
  {
    hide ReadItems, ReadValue;
    if items == [] {
      ReadsEmpty(rest);
    } else {
      var tail := PutItems(items[1..], rest);
      PutStarts(items[0], tail);
      ItemsFollow(items[1..], rest);
      PutReadsBack(items[0], tail);
      ItemsReadBack(items[1..], rest);
      ReadsArray(Put(items[0], tail), items[0], tail, items[1..], rest);
      assert items == [items[0]] + items[1..];
    }
  }

  lemma ItemsFollow(items: seq<Json>, rest: string)
    ensures Follows(PutItems(items, rest))
  {
  }

  lemma {:induction false} ItemsReadBack(items: seq<Json>, rest: string)
    requires (forall i :: 0 <= i < |items| ==> Wf(items[i])) && Follows(rest)
    ensures ReadItems(PutItems(items, rest)) == Some((items, rest))
    decreases items, 1
  {
    if items == [] {
      assert ("]" + rest)[0] == ']' && ("]" + rest)[1..] == rest;
      hide ReadValue;
    } else {
      hide ReadValue, ReadItems;
      var tail := PutItems(items[1..], rest);
      ItemsFollow(items[1..], rest);
      PutReadsBack(items[0], tail);
      ItemsReadBack(items[1..], rest);
      ReadsItems(Put(items[0], tail), items[0], tail, items[1..], rest);
      assert items == [items[0]] + items[1..];
    }
  }

  lemma {:induction false} EntryReadsBack(e: Entry, rest: string)
    requires Wf(e.value) && Follows(rest)
    ensures PutEntry(e, rest) != "" && PutEntry(e, rest)[0] == '"'
    ensures ReadEntry(PutEntry(e, rest)) == Some((e, rest))
    decreases e, 1
  {
    hide PutChars, ReadChars, ReadValue, Put;
    var value := Put(e.value, rest);
    var chars := PutChars(e.key, ":" + value);
    PutReadsBack(e.value, rest);
    CharsReadBack(e.key, ":" + value);
    assert ("\"" + chars)[0] == '"' && ("\"" + chars)[1..] == chars;
    assert (":" + value)[0] == ':' && (":" + value)[1..] == value;
  }

  lemma {:induction false} ObjectReadsBack(es: seq<Entry>, rest: string)
    requires Wf(Obj(es)) && Follows(rest)
    ensures ReadValue(Put(Obj(es), rest)) == Some((Obj(es), rest))
    decreases es, 2
  {
    hide ReadEntries, ReadEntry;
    if es == [] {
      ReadsEmpty(rest);
    } else {
      var first := PutEntry(es[0], PutEntries(es[1..], rest));
      EntriesFollow(es[1..], rest);
      EntryReadsBack(es[0], PutEntries(es[1..], rest));
      EntriesReadBack(es[1..], rest);
      hide PutEntry, PutEntries;
      assert ("{" + first)[0] == '{' && ("{" + first)[1] == first[0] && ("{" + first)[1..] == first;
      assert es == [es[0]] + es[1..];
    }
  }

  lemma EntriesFollow(es: seq<Entry>, rest: string)
    ensures Follows(PutEntries(es, rest))
  {
  }

  lemma {:induction false} EntriesReadBack(es: seq<Entry>, rest: string)
    requires (forall i :: 0 <= i < |es| ==> Wf(es[i].value)) && Follows(rest)
    ensures ReadEntries(PutEntries(es, rest)) == Some((es, rest))
    decreases es, 1
  {
    hide ReadEntry;
    if es == [] {
      assert ("}" + rest)[0] == '}' && ("}" + rest)[1..] == rest;
    } else {
      var first := PutEntry(es[0], PutEntries(es[1..], rest));
      EntriesFollow(es[1..], rest);
      EntryReadsBack(es[0], PutEntries(es[1..], rest));
      EntriesReadBack(es[1..], rest);
      assert ("," + first)[0] == ',' && ("," + first)[1..] == first;
      assert es == [es[0]] + es[1..];
    }
  }

  /** MAIN: a reader that follows the grammar reads every tree's text back as that tree. */
  lemma TextReadsBack(v: Json)
    requires Wf(v)
    ensures ReadValue(ToText(v)) == Some((v, ""))
  {
    PutReadsBack(v, "");
  }

  /** MAIN: so the text of a tree determines the tree. */
  lemma TextDeterminesValue(a: Json, b: Json)
    requires Wf(a) && Wf(b) && ToText(a) == ToText(b)
    ensures a == b
  {
    TextReadsBack(a);
    TextReadsBack(b);
  }

  /** MAIN: canonical texts are equal exactly for trees equal up to key order. */
  lemma CanonicalTextDecidesEquality(a: Json, b: Json)
    requires Wf(a) && Wf(b)
    ensures CanonicalJson(a) == CanonicalJson(b) <==> Same(a, b)
  {
    hide Canonicalize, Put;
    CanonicalDecidesEquality(a, b);
    CanonicalizeIsCanonical(a);
    CanonicalizeIsCanonical(b);
    if CanonicalJson(a) == CanonicalJson(b) {
      TextDeterminesValue(Canonicalize(a), Canonicalize(b));
    }
  }
}

/** JSON values, the compact text `serde_json` writes for them (RFC 8259), and a decoder for that text.
    Objects are association lists in insertion order, so that "the order of the keys does not matter" is
    something to prove and not something built in. */
module Json {
  import opened Wrappers
  import opened Text

  predicate IsNumberChar(c: char) {
    IsDigit(c) || c in "-+.eE"
  }

  predicate HasFloatMark(s: string) {
    '.' in s || 'e' in s || 'E' in s
  }

  /** The text of a finite `f64`: an opaque token that no integer prints. */
  predicate IsFloatToken(s: string) {
    s != [] && (forall c :: c in s ==> IsNumberChar(c)) && HasFloatMark(s)
  }

  type FloatToken = s: string | IsFloatToken(s) witness "0.0"

  datatype Number = Int(i: int) | Float(token: FloatToken)

  datatype Raw =
    | Null
    | Bool(b: bool)
    | Num(n: Number)
    | Str(s: string)
    | Arr(items: seq<Raw>)
    | Obj(fields: seq<Field>)

  datatype Field = Field(key: string, value: Raw)

  /** No object holds a key twice: what `serde_json::Map` guarantees. */
  predicate UniqueKeys(v: Raw) {
    match v
    case Arr(items) => forall x :: x in items ==> UniqueKeys(x)
    case Obj(fields) =>
      && (forall i, j :: 0 <= i < j < |fields| ==> fields[i].key != fields[j].key)
      && (forall f :: f in fields ==> UniqueKeys(f.value))
    case _ => true
  }

  type Value = v: Raw | UniqueKeys(v) witness Null

  /** `serde_json::Map::get`. */
  function Lookup(fields: seq<Field>, key: string): Option<Raw> {
    if fields == [] then None
    else if fields[0].key == key then Some(fields[0].value)
    else Lookup(fields[1..], key)
  }

  /** `serde_json::Value::get` with a key: absent on everything but objects. */
  function Get(v: Raw, key: string): Option<Raw> {
    if v.Obj? then Lookup(v.fields, key) else None
  }

  lemma {:induction false} LookupAt(fields: seq<Field>, i: nat)
    requires i < |fields|
    requires forall j :: 0 <= j < i ==> fields[j].key != fields[i].key
    ensures Lookup(fields, fields[i].key) == Some(fields[i].value)
  {
    if i == 0 {
    } else {
      LookupAt(fields[1..], i - 1);
    }
  }

  lemma {:induction false} LookupFound(fields: seq<Field>, key: string)
    ensures Lookup(fields, key).Some? <==> exists i :: 0 <= i < |fields| && fields[i].key == key
    ensures Lookup(fields, key).Some? ==> Field(key, Lookup(fields, key).value) in fields
  {
    if fields == [] {
    } else {
      LookupFound(fields[1..], key);
      if Lookup(fields, key).Some? && fields[0].key == key {
        assert fields[0] == Field(key, fields[0].value);
      }
      if i :| 1 <= i < |fields| && fields[i].key == key {
        assert fields[1..][i - 1].key == key;
      }
    }
  }

  // ---------------------------------------------------------------- printing

  /** Section 7 of RFC 8259, with the choices of `serde_json`: the two-character forms where there is one,
      lower-case hexadecimal for the other control characters, everything else as it is. */
  function EscapeChar(c: char): string {
    if c == '"' then "\\\""
    else if c == '\\' then "\\\\"
    else if c as int >= 32 then [c]
    else if c as int == 8 then "\\b"
    else if c as int == 9 then "\\t"
    else if c as int == 10 then "\\n"
    else if c as int == 12 then "\\f"
    else if c as int == 13 then "\\r"
    else "\\u00" + HexPair(c)
  }

  function Escape(s: string): string {
    if s == [] then [] else EscapeChar(s[0]) + Escape(s[1..])
  }

  function Quote(s: string): string {
    "\"" + Escape(s) + "\""
  }

  function NumberText(n: Number): string {
    match n
    case Int(i) => IntText(i)
    case Float(token) => token
  }

  function Print(v: Raw): string
    decreases v
  {
    match v
    case Null => "null"
    case Bool(b) => if b then "true" else "false"
    case Num(n) => NumberText(n)
    case Str(s) => Quote(s)
    case Arr(items) => "[" + PrintItems(items) + "]"
    case Obj(fields) => "{" + PrintFields(fields) + "}"
  }

  function PrintItems(items: seq<Raw>): string
    decreases items
  {
    if items == [] then ""
    else if |items| == 1 then Print(items[0])
    else Print(items[0]) + "," + PrintItems(items[1..])
  }

  function PrintField(f: Field): string
    decreases f
  {
    Quote(f.key) + ":" + Print(f.value)
  }

  function PrintFields(fields: seq<Field>): string
    decreases fields
  {
    if fields == [] then ""
    else if |fields| == 1 then PrintField(fields[0])
    else PrintField(fields[0]) + "," + PrintFields(fields[1..])
  }

  /** The escapes, one by one: the two-character forms for the characters that have one, four lower-case hexadecimal
      digits for the other control characters, and every other character as it is. */
  lemma EscapeExact(c: char)
    ensures EscapeChar('"') == ['\\', '"'] && EscapeChar('\\') == ['\\', '\\']
    ensures EscapeChar(8 as char) == ['\\', 'b'] && EscapeChar(9 as char) == ['\\', 't']
    ensures EscapeChar(10 as char) == ['\\', 'n'] && EscapeChar(12 as char) == ['\\', 'f']
    ensures EscapeChar(13 as char) == ['\\', 'r']
    ensures c as int < 32 && c as int !in {8, 9, 10, 12, 13} ==>
              && |EscapeChar(c)| == 6 && EscapeChar(c)[..4] == ['\\', 'u', '0', '0']
              && EscapeChar(c)[4] in "0123456789abcdef" && EscapeChar(c)[5] in "0123456789abcdef"
              && HexByte(EscapeChar(c)[4], EscapeChar(c)[5]) == Some(c)
    ensures c as int >= 32 && c !in {'"', '\\'} ==> EscapeChar(c) == [c]
  {
    HexPairLower(c);
    if c as int < 32 && c as int !in {8, 9, 10, 12, 13} {
      var pair := HexPair(c);
      assert EscapeChar(c) == "\\u00" + pair;
      assert pair[0] in pair && pair[1] in pair;
    }
  }

  // ---------------------------------------------------------------- decoding

  datatype Parsed<+T> = Parsed(value: T, rest: string)

  /** The character whose escape follows a backslash. */
  function Unescape(s: string): (r: Option<Parsed<char>>)
    ensures r.Some? ==> |r.value.rest| < |s|
  {
    if s == [] then None
    else if s[0] == '"' then Some(Parsed('"', s[1..]))
    else if s[0] == '\\' then Some(Parsed('\\', s[1..]))
    else if s[0] == 'b' then Some(Parsed(8 as char, s[1..]))
    else if s[0] == 't' then Some(Parsed(9 as char, s[1..]))
    else if s[0] == 'n' then Some(Parsed(10 as char, s[1..]))
    else if s[0] == 'f' then Some(Parsed(12 as char, s[1..]))
    else if s[0] == 'r' then Some(Parsed(13 as char, s[1..]))
    else if |s| >= 5 && s[..3] == "u00" then
      var c :- HexByte(s[3], s[4]);
      Some(Parsed(c, s[5..]))
    else None
  }

  /** The rest of a string literal, after its opening quote. */
  function ParseChars(s: string): (r: Option<Parsed<string>>)
    ensures r.Some? ==> |r.value.rest| < |s|
    decreases |s|
  {
    if s == [] then None
    else if s[0] == '"' then Some(Parsed("", s[1..]))
    else if s[0] == '\\' then
      var head :- Unescape(s[1..]);
      var tail :- ParseChars(head.rest);
      Some(Parsed([head.value] + tail.value, tail.rest))
    else if s[0] as int < 32 then None
    else
      var tail :- ParseChars(s[1..]);
      Some(Parsed([s[0]] + tail.value, tail.rest))
  }

  function NumberPrefix(s: string): (n: nat)
    ensures n <= |s|
  {
    if s != [] && IsNumberChar(s[0]) then 1 + NumberPrefix(s[1..]) else 0
  }

  /** Integers have no leading zeros. */
  function ParseNumber(token: string): (r: Option<Number>)
    ensures r.Some? ==> token == NumberText(r.value)
  {
    if IsFloatToken(token) then Some(Float(token))
    else
      var i :- IntValue(token);
      if IntText(i) == token then Some(Int(i)) else None
  }

  function ParseValue(s: string): (r: Option<Parsed<Raw>>)
    ensures r.Some? ==> |r.value.rest| < |s|
    decreases |s|, 0
  {
    if s == [] then None
    else if s[0] == 'n' then if "null" <= s then Some(Parsed(Null, s[4..])) else None
    else if s[0] == 't' then if "true" <= s then Some(Parsed(Bool(true), s[4..])) else None
    else if s[0] == 'f' then if "false" <= s then Some(Parsed(Bool(false), s[5..])) else None
    else if s[0] == '"' then
      var p :- ParseChars(s[1..]);
      Some(Parsed(Str(p.value), p.rest))
    else if s[0] == '[' then
      if |s| > 1 && s[1] == ']' then Some(Parsed(Arr([]), s[2..]))
      else
        var p :- ParseItems(s[1..]);
        Some(Parsed(Arr(p.value), p.rest))
    else if s[0] == '{' then
      if |s| > 1 && s[1] == '}' then Some(Parsed(Obj([]), s[2..]))
      else
        var p :- ParseFields(s[1..]);
        Some(Parsed(Obj(p.value), p.rest))
    else
      var n := NumberPrefix(s);
      if n == 0 then None
      else
        var number :- ParseNumber(s[..n]);
        Some(Parsed(Num(number), s[n..]))
  }

  /** One or more items and the closing bracket. */
  function ParseItems(s: string): (r: Option<Parsed<seq<Raw>>>)
    ensures r.Some? ==> |r.value.rest| < |s| && r.value.value != []
    decreases |s|, 1
  {
    var head :- ParseValue(s);
    if head.rest == [] then None
    else if head.rest[0] == ']' then Some(Parsed([head.value], head.rest[1..]))
    else if head.rest[0] != ',' then None
    else
      var tail :- ParseItems(head.rest[1..]);
      Some(Parsed([head.value] + tail.value, tail.rest))
  }

  function ParseField(s: string): (r: Option<Parsed<Field>>)
    ensures r.Some? ==> |r.value.rest| < |s|
    decreases |s|, 1
  {
    if s == [] || s[0] != '"' then None
    else
      var key :- ParseChars(s[1..]);
      if key.rest == [] || key.rest[0] != ':' then None
      else
        var value :- ParseValue(key.rest[1..]);
        Some(Parsed(Field(key.value, value.value), value.rest))
  }

  /** One or more fields and the closing brace. */
  function ParseFields(s: string): (r: Option<Parsed<seq<Field>>>)
    ensures r.Some? ==> |r.value.rest| < |s| && r.value.value != []
    decreases |s|, 2
  {
    var head :- ParseField(s);
    if head.rest == [] then None
    else if head.rest[0] == '}' then Some(Parsed([head.value], head.rest[1..]))
    else if head.rest[0] != ',' then None
    else
      var tail :- ParseFields(head.rest[1..]);
      Some(Parsed([head.value] + tail.value, tail.rest))
  }

  // ---------------------------------------------------------------- decoding inverts printing

  /** Numbers do not mark their own end, so what follows one must. */
  predicate Delimited(rest: string) {
    rest == [] || !IsNumberChar(rest[0])
  }

  lemma ParseEscapedChar(c: char, rest: string)
    requires c == '"' || c == '\\' || c as int < 32
    ensures EscapeChar(c)[0] == '\\'
    ensures Unescape(EscapeChar(c)[1..] + rest) == Some(Parsed(c, rest))
  {
    var tail := EscapeChar(c)[1..] + rest;
    if c as int < 32 && c as int !in {8, 9, 10, 12, 13} {
      assert tail == "u00" + HexPair(c) + rest;
      assert tail[..3] == "u00" && tail[5..] == rest;
    } else {
      assert tail[1..] == rest;
    }
  }

  lemma Regroup(a: string, b: string, c: string, rest: string)
    ensures a + b + c + rest == a + (b + (c + rest))
  {}

  lemma Reassociate(a: string, b: string, c: string)
    ensures a + b + c == a + (b + c)
  {}

  lemma ParsePlainChar(c: char, tail: string)
    requires c != '"' && c != '\\' && c as int >= 32 && ParseChars(tail).Some?
    ensures var after := ParseChars(tail).value; ParseChars([c] + tail) == Some(Parsed([c] + after.value, after.rest))
  {
    var text := [c] + tail;
    assert text[0] == c && text[1..] == tail;
  }

  lemma ParseBackslash(text: string, c: char, tail: string)
    requires text != [] && text[0] == '\\' && Unescape(text[1..]) == Some(Parsed(c, tail)) && ParseChars(tail).Some?
    ensures var after := ParseChars(tail).value; ParseChars(text) == Some(Parsed([c] + after.value, after.rest))
  {}

  lemma TailOf(a: string, b: string)
    requires a != []
    ensures (a + b)[0] == a[0] && (a + b)[1..] == a[1..] + b
  {}

  lemma ParseCharsStep(c: char, s: string, tail: string, rest: string)
    requires ParseChars(tail) == Some(Parsed(s, rest))
    ensures ParseChars(EscapeChar(c) + tail) == Some(Parsed([c] + s, rest))
  {
    if c == '"' || c == '\\' || c as int < 32 {
      ParseEscapedChar(c, tail);
      TailOf(EscapeChar(c), tail);
      ParseBackslash(EscapeChar(c) + tail, c, tail);
    } else {
      ParsePlainChar(c, tail);
    }
  }

  lemma {:induction false} ParseEscaped(s: string, rest: string)
    ensures ParseChars(Escape(s) + ("\"" + rest)) == Some(Parsed(s, rest))
  {
    var close := "\"" + rest;
    if s == [] {
      assert Escape(s) + close == close && close[1..] == rest;
    } else {
      ParseEscaped(s[1..], rest);
      ParseCharsStep(s[0], s[1..], Escape(s[1..]) + close, rest);
      Reassociate(EscapeChar(s[0]), Escape(s[1..]), close);
      assert s == [s[0]] + s[1..];
    }
  }

  lemma ParseQuoted(s: string, rest: string)
    ensures ParseValue(Quote(s) + rest) == Some(Parsed(Str(s), rest))
    ensures (Quote(s) + rest)[0] == '"' && ParseChars((Quote(s) + rest)[1..]) == Some(Parsed(s, rest))
  {
    ParseEscaped(s, rest);
    QuotedTail(s, rest);
    ParseString(Quote(s) + rest, s, rest);
  }

  lemma QuotedTail(s: string, rest: string)
    ensures (Quote(s) + rest)[0] == '"' && (Quote(s) + rest)[1..] == Escape(s) + ("\"" + rest)
  {}

  lemma ParseString(text: string, s: string, rest: string)
    requires text != [] && text[0] == '"' && ParseChars(text[1..]) == Some(Parsed(s, rest))
    ensures ParseValue(text) == Some(Parsed(Str(s), rest))
  {}

  lemma {:induction false} NumberPrefixOf(token: string, rest: string)
    requires forall c :: c in token ==> IsNumberChar(c)
    requires Delimited(rest)
    ensures NumberPrefix(token + rest) == |token|
  {
    if token == [] {
      assert token + rest == rest;
    } else {
      assert token[0] in token;
      assert (token + rest)[1..] == token[1..] + rest;
      NumberPrefixOf(token[1..], rest);
    }
  }

  lemma NumberTextShape(n: Number)
    ensures NumberText(n) != [] && forall c :: c in NumberText(n) ==> IsNumberChar(c)
    ensures ParseNumber(NumberText(n)) == Some(n)
  {
    match n
    case Int(i) => IntRoundTrip(i);
    case Float(_) =>
  }

  lemma ParsePrintNumber(n: Number, rest: string)
    requires Delimited(rest)
    ensures ParseValue(NumberText(n) + rest) == Some(Parsed(Num(n), rest))
  {
    var t := NumberText(n);
    NumberTextShape(n);
    NumberPrefixOf(t, rest);
    assert (t + rest)[0] == t[0] && t[0] in t;
    assert (t + rest)[..|t|] == t && (t + rest)[|t|..] == rest;
  }

  lemma PrintStart(v: Raw)
    ensures Print(v) != [] && Print(v)[0] !in "]},:"
  {
    if v.Num? {
      NumberTextShape(v.n);
      assert Print(v)[0] in NumberText(v.n);
    }
  }

  lemma ParseLiteral(v: Raw, rest: string)
    requires v.Null? || v.Bool?
    ensures ParseValue(Print(v) + rest) == Some(Parsed(v, rest))
  {
    var text := Print(v) + rest;
    assert Print(v) <= text && text[0] == Print(v)[0] && text[|Print(v)|..] == rest;
  }

  lemma ParseArray(body: string, items: seq<Raw>, rest: string)
    requires body != [] && body[0] != ']'
    requires ParseItems(body) == Some(Parsed(items, rest))
    ensures ParseValue("[" + body) == Some(Parsed(Arr(items), rest))
  {
    var text := "[" + body;
    assert text[1..] == body && text[1] == body[0];
  }

  lemma ParseObject(body: string, fields: seq<Field>, rest: string)
    requires body != [] && body[0] != '}'
    requires ParseFields(body) == Some(Parsed(fields, rest))
    ensures ParseValue("{" + body) == Some(Parsed(Obj(fields), rest))
  {
    var text := "{" + body;
    assert text[1..] == body && text[1] == body[0];
  }

  lemma ParseEmpty(rest: string)
    ensures ParseValue("[]" + rest) == Some(Parsed(Arr([]), rest))
    ensures ParseValue("{}" + rest) == Some(Parsed(Obj([]), rest))
  {
    assert ("[]" + rest)[2..] == rest && ("{}" + rest)[2..] == rest;
  }

  lemma ParseItemsStep(s: string, head: Raw, after: string)
    requires ParseValue(s) == Some(Parsed(head, after)) && after != []
    ensures after[0] == ']' ==> ParseItems(s) == Some(Parsed([head], after[1..]))
    ensures after[0] == ',' && ParseItems(after[1..]).Some? ==>
              var tail := ParseItems(after[1..]).value;
              ParseItems(s) == Some(Parsed([head] + tail.value, tail.rest))
  {}

  lemma ParseFieldsStep(s: string, head: Field, after: string)
    requires ParseField(s) == Some(Parsed(head, after)) && after != []
    ensures after[0] == '}' ==> ParseFields(s) == Some(Parsed([head], after[1..]))
    ensures after[0] == ',' && ParseFields(after[1..]).Some? ==>
              var tail := ParseFields(after[1..]).value;
              ParseFields(s) == Some(Parsed([head] + tail.value, tail.rest))
  {}

  lemma ParseItemsMore(text: string, head: Raw, tail: string, items: seq<Raw>, rest: string)
    requires ParseValue(text + ("," + tail)) == Some(Parsed(head, "," + tail))
    requires ParseItems(tail) == Some(Parsed(items, rest))
    ensures ParseItems(text + ("," + tail)) == Some(Parsed([head] + items, rest))
  {
    ParseItemsStep(text + ("," + tail), head, "," + tail);
    assert ("," + tail)[1..] == tail;
  }

  lemma ParseFieldsMore(text: string, head: Field, tail: string, fields: seq<Field>, rest: string)
    requires ParseField(text + ("," + tail)) == Some(Parsed(head, "," + tail))
    requires ParseFields(tail) == Some(Parsed(fields, rest))
    ensures ParseFields(text + ("," + tail)) == Some(Parsed([head] + fields, rest))
  {
    ParseFieldsStep(text + ("," + tail), head, "," + tail);
    assert ("," + tail)[1..] == tail;
  }

  /** The decoder inverts the printer, whatever follows the printed text. */
  lemma {:induction false} ParsePrint(v: Raw, rest: string)
    requires Delimited(rest)
    ensures ParseValue(Print(v) + rest) == Some(Parsed(v, rest))
    decreases v
  {
    match v
    case Null => ParseLiteral(v, rest);
    case Bool(_) => ParseLiteral(v, rest);
    case Num(n) => ParsePrintNumber(n, rest);
    case Str(s) => ParseQuoted(s, rest);
    case Arr(items) =>
      if items == [] {
        ParseEmpty(rest);
        assert Print(v) == "[]";
      } else {
        ParsePrintItems(items, rest);
        PrintItemsStart(items);
        ParseArray(PrintItems(items) + ("]" + rest), items, rest);
        Regroup("[", PrintItems(items), "]", rest);
      }
    case Obj(fields) =>
      if fields == [] {
        ParseEmpty(rest);
        assert Print(v) == "{}";
      } else {
        ParsePrintFields(fields, rest);
        PrintFieldsStart(fields);
        ParseObject(PrintFields(fields) + ("}" + rest), fields, rest);
        Regroup("{", PrintFields(fields), "}", rest);
      }
  }

  lemma PrintItemsStart(items: seq<Raw>)
    requires items != []
    ensures PrintItems(items) != [] && PrintItems(items)[0] != ']'
  {
    PrintStart(items[0]);
  }

  lemma PrintFieldsStart(fields: seq<Field>)
    requires fields != []
    ensures PrintFields(fields) != [] && PrintFields(fields)[0] == '"'
  {}

  lemma {:induction false} ParsePrintItems(items: seq<Raw>, rest: string)
    requires items != []
    ensures ParseItems(PrintItems(items) + ("]" + rest)) == Some(Parsed(items, rest))
    decreases items
  {
    var close := "]" + rest;
    if |items| == 1 {
      ParsePrint(items[0], close);
      ParseItemsStep(Print(items[0]) + close, items[0], close);
      assert close[1..] == rest && items == [items[0]];
    } else {
      var tail := PrintItems(items[1..]) + close;
      ParsePrintItems(items[1..], rest);
      ParsePrint(items[0], "," + tail);
      ParseItemsMore(Print(items[0]), items[0], tail, items[1..], rest);
      assert items == [items[0]] + items[1..];
      Regroup(Print(items[0]), ",", PrintItems(items[1..]), close);
    }
  }

  lemma ParseFieldStep(key: string, text: string, value: Raw, rest: string)
    requires ParseValue(text) == Some(Parsed(value, rest))
    ensures ParseField(Quote(key) + (":" + text)) == Some(Parsed(Field(key, value), rest))
  {
    ParseQuoted(key, ":" + text);
    assert (":" + text)[1..] == text;
  }

  lemma {:induction false} ParsePrintField(f: Field, rest: string)
    requires Delimited(rest)
    ensures ParseField(PrintField(f) + rest) == Some(Parsed(f, rest))
    decreases f
  {
    ParsePrint(f.value, rest);
    ParseFieldStep(f.key, Print(f.value) + rest, f.value, rest);
    Regroup(Quote(f.key), ":", Print(f.value), rest);
  }

  lemma {:induction false} ParsePrintFields(fields: seq<Field>, rest: string)
    requires fields != []
    ensures ParseFields(PrintFields(fields) + ("}" + rest)) == Some(Parsed(fields, rest))
    decreases fields
  {
    var close := "}" + rest;
    if |fields| == 1 {
      ParsePrintField(fields[0], close);
      ParseFieldsStep(PrintField(fields[0]) + close, fields[0], close);
      assert close[1..] == rest && fields == [fields[0]];
    } else {
      var tail := PrintFields(fields[1..]) + close;
      ParsePrintFields(fields[1..], rest);
      ParsePrintField(fields[0], "," + tail);
      ParseFieldsMore(PrintField(fields[0]), fields[0], tail, fields[1..], rest);
      assert fields == [fields[0]] + fields[1..];
      Regroup(PrintField(fields[0]), ",", PrintFields(fields[1..]), close);
    }
  }

  /** Two printed values with something after each of them agree as a whole only if they agree piece by piece. */
  lemma PrintInjective(v: Raw, w: Raw, restV: string, restW: string)
    requires Delimited(restV) && Delimited(restW)
    requires Print(v) + restV == Print(w) + restW
    ensures v == w && restV == restW
  {
    ParsePrint(v, restV);
    ParsePrint(w, restW);
  }

  // ---------------------------------------------------------------- one value, one line

  ghost predicate NoControl(s: string) {
    forall c :: c in s ==> c as int >= 32
  }

  lemma NoControlAppend(a: string, b: string)
    requires NoControl(a) && NoControl(b)
    ensures NoControl(a + b)
  {}

  lemma {:induction false} EscapeNoControl(s: string)
    ensures NoControl(Escape(s))
  {
    if s == [] {
    } else {
      EscapeNoControl(s[1..]);
      assert NoControl(EscapeChar(s[0])) by {
        assert forall c :: c in HexPair(s[0]) ==> c as int >= 32;
      }
    }
  }

  /** Printed JSON has no raw control character: no line feed and no carriage return in particular. */
  lemma {:induction false} PrintNoControl(v: Raw)
    ensures NoControl(Print(v))
    decreases v
  {
    match v
    case Null =>
    case Bool(_) =>
    case Num(n) => NumberTextShape(n);
    case Str(s) => EscapeNoControl(s);
    case Arr(items) => PrintItemsNoControl(items);
    case Obj(fields) => PrintFieldsNoControl(fields);
  }

  lemma {:induction false} PrintItemsNoControl(items: seq<Raw>)
    ensures NoControl(PrintItems(items))
    decreases items
  {
    if items == [] {
    } else {
      PrintNoControl(items[0]);
      PrintItemsNoControl(items[1..]);
    }
  }

  lemma {:induction false} PrintFieldsNoControl(fields: seq<Field>)
    ensures NoControl(PrintFields(fields))
    decreases fields
  {
    if fields == [] {
    } else {
      EscapeNoControl(fields[0].key);
      PrintNoControl(fields[0].value);
      NoControlAppend(Quote(fields[0].key) + ":", Print(fields[0].value));
      PrintFieldsNoControl(fields[1..]);
    }
  }
}

/** The decoder reads nothing but JSON: a grammar of the texts that spell a value (RFC 8259), and a proof that
    whatever is read was spelled. White space between tokens is not part of it. */
module Spelling {
  import opened Wrappers
  import opened Text
  import opened Json

  /** One character of a string literal: as `serde_json` writes it, or by its number (section 7). */
  predicate SpellsChar(t: string, c: char) {
    t == EscapeChar(c) || (|t| == 6 && t[..4] == "\\u00" && HexByte(t[4], t[5]) == Some(c))
  }

  ghost predicate SpellsChars(t: string, s: string)
    decreases s
  {
    if s == [] then t == ""
    else exists a, b :: t == a + b && SpellsChar(a, s[0]) && SpellsChars(b, s[1..])
  }

  ghost predicate SpellsString(t: string, s: string) {
    exists b :: t == "\"" + b + "\"" && SpellsChars(b, s)
  }

  /** The texts of a value: literals and numbers as printed, strings in any of their spellings, items and fields
      with single commas between them and none at the ends. */
  ghost predicate Spells(t: string, v: Raw)
    decreases v, 1
  {
    match v
    case Null => t == "null"
    case Bool(b) => t == if b then "true" else "false"
    case Num(n) => t == NumberText(n)
    case Str(s) => SpellsString(t, s)
    case Arr(items) => exists b :: t == "[" + b + "]" && SpellsItems(b, items)
    case Obj(fields) => exists b :: t == "{" + b + "}" && SpellsFields(b, fields)
  }

  ghost predicate SpellsItems(t: string, items: seq<Raw>)
    decreases items
  {
    if items == [] then t == ""
    else if |items| == 1 then Spells(t, items[0])
    else exists a, b :: t == a + "," + b && Spells(a, items[0]) && SpellsItems(b, items[1..])
  }

  ghost predicate SpellsField(t: string, f: Field)
    decreases f
  {
    exists a, b :: t == a + ":" + b && SpellsString(a, f.key) && Spells(b, f.value)
  }

  ghost predicate SpellsFields(t: string, fields: seq<Field>)
    decreases fields
  {
    if fields == [] then t == ""
    else if |fields| == 1 then SpellsField(t, fields[0])
    else exists a, b :: t == a + "," + b && SpellsField(a, fields[0]) && SpellsFields(b, fields[1..])
  }

  // ---------------------------------------------------------------- strings

  lemma LongEscape(s: string, c: char)
    requires |s| >= 5 && s[..3] == "u00" && HexByte(s[3], s[4]) == Some(c)
    ensures SpellsChar("\\" + s[..5], c) && "\\" + s == ("\\" + s[..5]) + s[5..]
  {
    var t := "\\" + s[..5];
    assert t[..4] == "\\" + s[..3];
    assert "\\" + "u00" == "\\u00";
    assert t[4] == s[3] && t[5] == s[4];
  }

  lemma ShortEscape(s: string)
    requires s != [] && s[0] != 'u' && Unescape(s).Some?
    ensures EscapeChar(Unescape(s).value.value) == ['\\', s[0]] && Unescape(s).value.rest == s[1..]
  {}

  lemma EscapedSpelled(s: string) returns (t: string)
    requires s != [] && Unescape(s).Some?
    ensures "\\" + s == t + Unescape(s).value.rest && SpellsChar(t, Unescape(s).value.value)
  {
    if s[0] == 'u' {
      LongEscape(s, Unescape(s).value.value);
      t := "\\" + s[..5];
    } else {
      ShortEscape(s);
      t := ['\\', s[0]];
      assert "\\" + s == t + s[1..];
    }
  }

  lemma CharThen(a: string, c: char, b: string, s: string)
    requires SpellsChar(a, c) && SpellsChars(b, s)
    ensures SpellsChars(a + b, [c] + s)
  {
    assert ([c] + s)[1..] == s;
  }

  lemma Regrouped(a: string, b: string, rest: string)
    ensures a + (b + "\"" + rest) == (a + b) + "\"" + rest
  {}

  /** How a string literal goes on: it ends, or a character follows, escaped or plain. */
  lemma CharsRead(s: string) returns (a: string, c: char, after: string)
    requires ParseChars(s).Some? && s[0] != '"'
    ensures s == a + after && |after| < |s| && SpellsChar(a, c) && ParseChars(after).Some?
    ensures ParseChars(s).value.value == [c] + ParseChars(after).value.value
    ensures ParseChars(s).value.rest == ParseChars(after).value.rest
  {
    assert s == [s[0]] + s[1..];
    if s[0] == '\\' {
      var head := Unescape(s[1..]).value;
      c, after := head.value, head.rest;
      a := EscapedSpelled(s[1..]);
    } else {
      a, c, after := [s[0]], s[0], s[1..];
    }
  }

  lemma {:induction false} CharsSpelled(s: string) returns (t: string)
    requires ParseChars(s).Some?
    ensures s == t + "\"" + ParseChars(s).value.rest && SpellsChars(t, ParseChars(s).value.value)
    decreases |s|
  {
    if s[0] == '"' {
      t := "";
    } else {
      var a, c, after := CharsRead(s);
      var b := CharsSpelled(after);
      t := a + b;
      CharThen(a, c, b, ParseChars(after).value.value);
      Regrouped(a, b, ParseChars(after).value.rest);
    }
  }

  lemma Quoted(b: string, s: string)
    requires SpellsChars(b, s)
    ensures SpellsString("\"" + b + "\"", s)
  {}

  lemma StringSpelled(s: string) returns (t: string)
    requires s != [] && s[0] == '"' && ParseChars(s[1..]).Some?
    ensures s == t + ParseChars(s[1..]).value.rest && SpellsString(t, ParseChars(s[1..]).value.value)
  {
    var p := ParseChars(s[1..]).value;
    var b := CharsSpelled(s[1..]);
    Quoted(b, p.value);
    Enclosed("\"", b, "\"", s, p.rest);
    t := "\"" + b + "\"";
  }

  // ---------------------------------------------------------------- values

  lemma Enclosed(open: string, b: string, close: string, s: string, rest: string)
    requires |open| == 1 && s != [] && s[0] == open[0] && s[1..] == b + close + rest
    ensures s == (open + b + close) + rest
  {
    assert s == [s[0]] + s[1..];
  }

  lemma WholeAndRest(s: string, a: string, mark: char, after: string, b: string, close: string, rest: string)
    requires s == a + after && after != [] && after[0] == mark && after[1..] == b + close + rest
    ensures s == (a + [mark] + b) + close + rest
  {
    assert after == [mark] + after[1..];
  }

  /** Whatever the decoder reads as a value is, up to where it stopped, a text of that value. */
  lemma {:induction false} ValueSpelled(s: string) returns (t: string)
    requires ParseValue(s).Some?
    ensures s == t + ParseValue(s).value.rest && Spells(t, ParseValue(s).value.value)
    decreases |s|, 0
  {
    var p := ParseValue(s).value;
    if s[0] == '"' {
      t := StringSpelled(s);
    } else if s[0] == '[' && !(|s| > 1 && s[1] == ']') {
      var b := ItemsSpelled(s[1..]);
      t := "[" + b + "]";
      Enclosed("[", b, "]", s, p.rest);
    } else if s[0] == '{' && !(|s| > 1 && s[1] == '}') {
      var b := FieldsSpelled(s[1..]);
      t := "{" + b + "}";
      Enclosed("{", b, "}", s, p.rest);
    } else {
      t := s[..|s| - |p.rest|];
      LiteralSpelled(s, t);
    }
  }

  lemma LiteralSpelled(s: string, t: string)
    requires ParseValue(s).Some? && t == s[..|s| - |ParseValue(s).value.rest|]
    requires s[0] != '"' && (s[0] == '[' ==> |s| > 1 && s[1] == ']') && (s[0] == '{' ==> |s| > 1 && s[1] == '}')
    ensures s == t + ParseValue(s).value.rest && Spells(t, ParseValue(s).value.value)
  {
    if s[0] == '[' {
      assert t == "[" + "" + "]" && SpellsItems("", []);
    } else if s[0] == '{' {
      assert t == "{" + "" + "}" && SpellsFields("", []);
    }
  }

  lemma ItemsRead(s: string)
    requires ParseItems(s).Some?
    ensures ParseValue(s).Some? && ParseValue(s).value.rest != []
    ensures var p, head := ParseItems(s).value, ParseValue(s).value;
            if head.rest[0] == ']' then p == Parsed([head.value], head.rest[1..])
            else
              && head.rest[0] == ',' && ParseItems(head.rest[1..]).Some?
              && var tail := ParseItems(head.rest[1..]).value; p == Parsed([head.value] + tail.value, tail.rest)
  {}

  lemma MoreItems(a: string, v: Raw, b: string, items: seq<Raw>)
    requires Spells(a, v) && items != [] && SpellsItems(b, items)
    ensures SpellsItems(a + "," + b, [v] + items)
  {
    var all := [v] + items;
    assert |all| > 1 && all[0] == v && all[1..] == items;
    assert Spells(a, all[0]) && SpellsItems(b, all[1..]);
  }

  lemma Closed(s: string, t: string, close: char, after: string)
    requires s == t + after && after != [] && after[0] == close
    ensures s == t + [close] + after[1..]
  {
    assert after == [close] + after[1..];
  }

  lemma {:induction false} ItemsSpelled(s: string) returns (t: string)
    requires ParseItems(s).Some?
    ensures s == t + "]" + ParseItems(s).value.rest && SpellsItems(t, ParseItems(s).value.value)
    decreases |s|, 1
  {
    ItemsRead(s);
    var head := ParseValue(s).value;
    t := ValueSpelled(s);
    if head.rest[0] == ']' {
      Closed(s, t, ']', head.rest);
    } else {
      var tail := ParseItems(head.rest[1..]).value;
      var b := ItemsSpelled(head.rest[1..]);
      WholeAndRest(s, t, ',', head.rest, b, "]", tail.rest);
      MoreItems(t, head.value, b, tail.value);
      t := t + "," + b;
    }
  }

  lemma FieldRead(s: string)
    requires ParseField(s).Some?
    ensures s[0] == '"' && ParseChars(s[1..]).Some?
    ensures var key := ParseChars(s[1..]).value;
            && key.rest != [] && key.rest[0] == ':' && ParseValue(key.rest[1..]).Some?
            && var value := ParseValue(key.rest[1..]).value;
               ParseField(s).value == Parsed(Field(key.value, value.value), value.rest)
  {}

  lemma FieldText(a: string, b: string, f: Field)
    requires SpellsString(a, f.key) && Spells(b, f.value)
    ensures SpellsField(a + ":" + b, f)
  {}

  lemma Joined(s: string, a: string, mark: char, after: string, b: string, rest: string)
    requires s == a + after && after != [] && after[0] == mark && after[1..] == b + rest
    ensures s == (a + [mark] + b) + rest
  {
    assert after == [mark] + after[1..];
  }

  lemma {:induction false} FieldSpelled(s: string) returns (t: string)
    requires ParseField(s).Some?
    ensures s == t + ParseField(s).value.rest && SpellsField(t, ParseField(s).value.value)
    decreases |s|, 1
  {
    FieldRead(s);
    var key := ParseChars(s[1..]).value;
    var a := StringSpelled(s);
    var b := ValueSpelled(key.rest[1..]);
    FieldText(a, b, ParseField(s).value.value);
    Joined(s, a, ':', key.rest, b, ParseField(s).value.rest);
    t := a + ":" + b;
  }

  lemma FieldsRead(s: string)
    requires ParseFields(s).Some?
    ensures ParseField(s).Some? && ParseField(s).value.rest != []
    ensures var p, head := ParseFields(s).value, ParseField(s).value;
            if head.rest[0] == '}' then p == Parsed([head.value], head.rest[1..])
            else
              && head.rest[0] == ',' && ParseFields(head.rest[1..]).Some?
              && var tail := ParseFields(head.rest[1..]).value; p == Parsed([head.value] + tail.value, tail.rest)
  {}

  lemma MoreFields(a: string, f: Field, b: string, fields: seq<Field>)
    requires SpellsField(a, f) && fields != [] && SpellsFields(b, fields)
    ensures SpellsFields(a + "," + b, [f] + fields)
  {
    var all := [f] + fields;
    assert |all| > 1 && all[0] == f && all[1..] == fields;
    assert SpellsField(a, all[0]) && SpellsFields(b, all[1..]);
  }

  lemma {:induction false} FieldsSpelled(s: string) returns (t: string)
    requires ParseFields(s).Some?
    ensures s == t + "}" + ParseFields(s).value.rest && SpellsFields(t, ParseFields(s).value.value)
    decreases |s|, 2
  {
    FieldsRead(s);
    var head := ParseField(s).value;
    t := FieldSpelled(s);
    if head.rest[0] == '}' {
      Closed(s, t, '}', head.rest);
    } else {
      var tail := ParseFields(head.rest[1..]).value;
      var b := FieldsSpelled(head.rest[1..]);
      WholeAndRest(s, t, ',', head.rest, b, "}", tail.rest);
      MoreFields(t, head.value, b, tail.value);
      t := t + "," + b;
    }
  }
}

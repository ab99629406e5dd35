/** JSON as json.dumps(..., separators=(",", ":")) writes it and as a strict reader takes it back. */
module Json {
  import opened Prelude
  import opened Texts

  datatype Json =
    | Null
    | Bool(b: bool)
    | Int(n: int)
    | Str(s: string)
    | Arr(items: seq<Json>)
    | Obj(fields: seq<Field>)

  datatype Field = Field(name: string, value: Json)

  /* ---- writing ---- */

  /** The letter of a two-character escape. */
  function ShortEscape(c: char): Option<char> {
    if c == '"' || c == '\\' then Some(c)
    else if c == '\n' then Some('n')
    else if c == '\r' then Some('r')
    else if c == '\t' then Some('t')
    else if c as int == 8 then Some('b')
    else if c as int == 12 then Some('f')
    else None
  }

  /** Everything but printable ASCII is escaped (ensure_ascii), characters above U+FFFF as a surrogate pair. */
  function EscapeChar(c: char): string {
    var n, short := c as int, ShortEscape(c);
    if short.Some? then ['\\', short.value]
    else if 0x20 <= n <= 0x7e then [c]
    else if n < 0x1_0000 then "\\u" + HexText(n, 4)
    else
      "\\u" + HexText(0xD800 + (n - 0x1_0000) / 0x400, 4) + "\\u" + HexText(0xDC00 + (n - 0x1_0000) % 0x400, 4)
  }

  function EscapeText(s: string): string {
    if s == "" then "" else EscapeChar(s[0]) + EscapeText(s[1..])
  }

  function Quoted(s: string): string { "\"" + EscapeText(s) + "\"" }

  function IntText(n: int): string {
    if n < 0 then "-" + NatText(-n) else NatText(n)
  }

  function Print(j: Json): (s: string)
    ensures s != "" && !IsSpace(s[0]) && s[0] != ']'
    decreases j
  {
    match j
    case Null => "null"
    case Bool(b) => if b then "true" else "false"
    case Int(n) =>
      assert IsDigit(NatText(if n < 0 then -n else n)[0]);
      IntText(n)
    case Str(s) => Quoted(s)
    case Arr(items) => "[" + (if items == [] then "" else PrintItems(items)) + "]"
    case Obj(fields) => "{" + (if fields == [] then "" else PrintFields(fields)) + "}"
  }

  function PrintItems(items: seq<Json>): (s: string)
    requires items != []
    ensures s != "" && !IsSpace(s[0]) && s[0] != ']'
    decreases items
  {
    Print(items[0]) + (if |items| == 1 then "" else "," + PrintItems(items[1..]))
  }

  function PrintField(field: Field): (s: string)
    ensures s != "" && s[0] == '"'
    decreases field
  {
    Quoted(field.name) + ":" + Print(field.value)
  }

  function PrintFields(fields: seq<Field>): (s: string)
    requires fields != []
    ensures s != "" && s[0] == '"'
    decreases fields
  {
    PrintField(fields[0]) + (if |fields| == 1 then "" else "," + PrintFields(fields[1..]))
  }

  /* ---- reading ---- */

  datatype Parsed<T> = Parsed(value: T, rest: string)

  predicate IsSpace(c: char) { c == ' ' || c == '\t' || c == '\n' || c == '\r' }

  function Skip(s: string): (t: string)
    ensures |t| <= |s|
    ensures s != "" && !IsSpace(s[0]) ==> t == s
  {
    if s != "" && IsSpace(s[0]) then Skip(s[1..]) else s
  }

  predicate Begins(s: string, c: char) { s != "" && s[0] == c }

  predicate StartsWith(s: string, word: string) { |word| <= |s| && s[..|word|] == word }

  function ReadHex4(s: string): (r: Option<Parsed<nat>>)
    ensures r.Some? ==> r.value.value < 0x1_0000 && |r.value.rest| < |s|
  {
    if |s| < 4 then None
    else
      var v := HexValue(s[..4]);
      assert Pow16(4) == 0x1_0000;
      if v.None? then None else Some(Parsed(v.value, s[4..]))
  }

  /** The part of an escape after the backslash and the u. */
  function ReadUnicode(s: string): (r: Option<Parsed<char>>)
    ensures r.Some? ==> |r.value.rest| < |s|
  {
    var first := ReadHex4(s);
    if first.None? then None
    else
      var n, t := first.value.value, first.value.rest;
      if n < 0xD800 || 0xE000 <= n then Some(Parsed(n as char, t))
      else if n < 0xDC00 && StartsWith(t, "\\u") then
        var second := ReadHex4(t[2..]);
        if second.Some? && 0xDC00 <= second.value.value < 0xE000 then
          Some(Parsed((0x1_0000 + (n - 0xD800) * 0x400 + (second.value.value - 0xDC00)) as char, second.value.rest))
        else None
      else None
  }

  function ShortUnescape(letter: char): Option<char> {
    if letter == '"' || letter == '\\' || letter == '/' then Some(letter)
    else if letter == 'n' then Some('\n')
    else if letter == 'r' then Some('\r')
    else if letter == 't' then Some('\t')
    else if letter == 'b' then Some(8 as char)
    else if letter == 'f' then Some(12 as char)
    else None
  }

  function ReadChar(s: string): (r: Option<Parsed<char>>)
    requires s != ""
    ensures r.Some? ==> |r.value.rest| < |s|
  {
    if (s[0] as int) < 0x20 then None
    else if s[0] != '\\' then Some(Parsed(s[0], s[1..]))
    else if |s| == 1 then None
    else if s[1] == 'u' then ReadUnicode(s[2..])
    else
      var short := ShortUnescape(s[1]);
      if short.Some? then Some(Parsed(short.value, s[2..])) else None
  }

  /** A string body up to and including its closing quote. */
  function ReadText(s: string): (r: Option<Parsed<string>>)
    ensures r.Some? ==> |r.value.rest| < |s|
    decreases |s|
  {
    if s == "" then None
    else if s[0] == '"' then Some(Parsed("", s[1..]))
    else
      var head := ReadChar(s);
      if head.None? then None
      else
        var tail := ReadText(head.value.rest);
        if tail.None? then None
        else Some(Parsed([head.value.value] + tail.value.value, tail.value.rest))
  }

  function DigitCount(s: string): (k: nat)
    ensures k <= |s| && AllDigits(s[..k])
    ensures k < |s| ==> !IsDigit(s[k])
  {
    if s != "" && IsDigit(s[0]) then
      var k := DigitCount(s[1..]);
      assert s[..1 + k] == [s[0]] + s[1..][..k];
      1 + k
    else 0
  }

  /** Digits without a leading zero; a fraction or an exponent is not read. */
  function ReadDigits(s: string): (r: Option<Parsed<nat>>)
    ensures r.Some? ==> |r.value.rest| < |s|
  {
    var k := DigitCount(s);
    if k == 0 || (k > 1 && s[0] == '0') then None
    else if k < |s| && s[k] in {'.', 'e', 'E'} then None
    else Some(Parsed(NatValue(s[..k]), s[k..]))
  }

  function ReadInt(s: string): (r: Option<Parsed<int>>)
    requires s != ""
    ensures r.Some? ==> |r.value.rest| < |s|
  {
    var digits := ReadDigits(if s[0] == '-' then s[1..] else s);
    if digits.None? then None
    else
      var n: int := digits.value.value;
      Some(Parsed(if s[0] == '-' then -n else n, digits.value.rest))
  }

  function ReadValue(s: string): (r: Option<Parsed<Json>>)
    ensures r.Some? ==> |r.value.rest| < |s|
    decreases |s|, 0
  {
    var t := Skip(s);
    if t == "" then None
    else if StartsWith(t, "null") then Some(Parsed(Null, t[4..]))
    else if StartsWith(t, "true") then Some(Parsed(Bool(true), t[4..]))
    else if StartsWith(t, "false") then Some(Parsed(Bool(false), t[5..]))
    else if t[0] == '"' then
      var text := ReadText(t[1..]);
      if text.None? then None else Some(Parsed(Str(text.value.value), text.value.rest))
    else if t[0] == '[' then ReadArray(t[1..])
    else if t[0] == '{' then ReadObject(t[1..])
    else
      var n := ReadInt(t);
      if n.None? then None else Some(Parsed(Int(n.value.value), n.value.rest))
  }

  /** What follows an opening bracket. */
  function ReadArray(s: string): (r: Option<Parsed<Json>>)
    ensures r.Some? ==> |r.value.rest| < |s|
    decreases |s|, 2
  {
    var t := Skip(s);
    if Begins(t, ']') then Some(Parsed(Arr([]), t[1..]))
    else
      var items := ReadItems(t);
      if items.None? then None else Some(Parsed(Arr(items.value.value), items.value.rest))
  }

  /** What follows an opening brace. */
  function ReadObject(s: string): (r: Option<Parsed<Json>>)
    ensures r.Some? ==> |r.value.rest| < |s|
    decreases |s|, 3
  {
    var t := Skip(s);
    if Begins(t, '}') then Some(Parsed(Obj([]), t[1..]))
    else
      var fields := ReadFields(t);
      if fields.None? then None else Some(Parsed(Obj(fields.value.value), fields.value.rest))
  }

  /** One or more values up to and including the closing bracket. */
  function ReadItems(s: string): (r: Option<Parsed<seq<Json>>>)
    ensures r.Some? ==> |r.value.rest| < |s|
    decreases |s|, 1
  {
    var head := ReadValue(s);
    if head.None? then None
    else
      var t := Skip(head.value.rest);
      if Begins(t, ']') then Some(Parsed([head.value.value], t[1..]))
      else if Begins(t, ',') then
        var tail := ReadItems(t[1..]);
        if tail.None? then None
        else Some(Parsed([head.value.value] + tail.value.value, tail.value.rest))
      else None
  }

  function ReadField(s: string): (r: Option<Parsed<Field>>)
    ensures r.Some? ==> |r.value.rest| < |s|
    decreases |s|, 1
  {
    var t := Skip(s);
    if !Begins(t, '"') then None
    else
      var name := ReadText(t[1..]);
      if name.None? then None
      else
        var u := Skip(name.value.rest);
        if !Begins(u, ':') then None
        else
          var value := ReadValue(u[1..]);
          if value.None? then None
          else Some(Parsed(Field(name.value.value, value.value.value), value.value.rest))
  }

  /** One or more name:value pairs up to and including the closing brace. */
  function ReadFields(s: string): (r: Option<Parsed<seq<Field>>>)
    ensures r.Some? ==> |r.value.rest| < |s|
    decreases |s|, 2
  {
    var head := ReadField(s);
    if head.None? then None
    else
      var t := Skip(head.value.rest);
      if Begins(t, '}') then Some(Parsed([head.value.value], t[1..]))
      else if Begins(t, ',') then
        var tail := ReadFields(t[1..]);
        if tail.None? then None
        else Some(Parsed([head.value.value] + tail.value.value, tail.value.rest))
      else None
  }

  /** A whole document: one value and nothing but white space after it. */
  function Parse(s: string): Option<Json> {
    var r := ReadValue(s);
    if r.Some? && Skip(r.value.rest) == "" then Some(r.value.value) else None
  }

  /** The last field of that name, as a Python dict keeps it. */
  function Lookup(fields: seq<Field>, name: string): (r: Option<Json>)
    ensures r.Some? ==> Field(name, r.value) in fields
  {
    if fields == [] then None
    else if fields[|fields| - 1].name == name then Some(fields[|fields| - 1].value)
    else Lookup(fields[..|fields| - 1], name)
  }

  /* ---- what is written reads back ---- */

  lemma HexReadsBack(n: nat, rest: string)
    requires n < 0x1_0000
    ensures ReadHex4(HexText(n, 4) + rest) == Some(Parsed(n, rest))
  {
    assert Pow16(4) == 0x1_0000;
    HexTextReadsBack(n, 4);
    var s := HexText(n, 4) + rest;
    assert s[..4] == HexText(n, 4) && s[4..] == rest;
  }

  lemma UnicodeReadsBack(c: char, rest: string)
    requires (c as int) < 0x1_0000
    ensures ReadUnicode(HexText(c as int, 4) + rest) == Some(Parsed(c, rest))
  {
    HexReadsBack(c as int, rest);
  }

  lemma SurrogatesReadBack(c: char, rest: string)
    requires 0x1_0000 <= c as int
    ensures
      var v := c as int - 0x1_0000;
      ReadUnicode(HexText(0xD800 + v / 0x400, 4) + "\\u" + HexText(0xDC00 + v % 0x400, 4) + rest)
      == Some(Parsed(c, rest))
  {
    var v := c as int - 0x1_0000;
    var high, low := 0xD800 + v / 0x400, 0xDC00 + v % 0x400;
    var t := "\\u" + (HexText(low, 4) + rest);
    HexReadsBack(high, t);
    HexReadsBack(low, rest);
    assert t[2..] == HexText(low, 4) + rest && t[..2] == "\\u";
    assert HexText(high, 4) + "\\u" + HexText(low, 4) + rest == HexText(high, 4) + t;
  }

  lemma ShortReadsBack(c: char, rest: string)
    requires ShortEscape(c).Some?
    ensures ReadChar(EscapeChar(c) + rest) == Some(Parsed(c, rest))
  {
    var letter := ShortEscape(c).value;
    assert ShortUnescape(letter) == Some(c) && letter != 'u';
    var s := ['\\', letter] + rest;
    assert s[0] == '\\' && s[1] == letter && s[2..] == rest;
  }

  lemma EscapedStart(unicode: string, rest: string)
    ensures ReadChar("\\u" + unicode + rest) == ReadUnicode(unicode + rest)
  {
    var s := "\\u" + unicode + rest;
    assert s[0] == '\\' && s[1] == 'u' && s[2..] == unicode + rest;
  }

  lemma CharReadsBack(c: char, rest: string)
    ensures var s := EscapeChar(c) + rest; s[0] != '"' && ReadChar(s) == Some(Parsed(c, rest))
  {
    var n, s := c as int, EscapeChar(c) + rest;
    if ShortEscape(c).Some? {
      ShortReadsBack(c, rest);
    } else if 0x20 <= n <= 0x7e {
      assert s[1..] == rest;
    } else if n < 0x1_0000 {
      EscapedStart(HexText(n, 4), rest);
      UnicodeReadsBack(c, rest);
    } else {
      var v := n - 0x1_0000;
      var pair := HexText(0xD800 + v / 0x400, 4) + "\\u" + HexText(0xDC00 + v % 0x400, 4);
      assert EscapeChar(c) == "\\u" + pair;
      EscapedStart(pair, rest);
      SurrogatesReadBack(c, rest);
    }
  }

  lemma NextChar(head: string, c: char, t: string, text: string, rest: string)
    requires head + t != "" && (head + t)[0] != '"' && ReadChar(head + t) == Some(Parsed(c, t))
    requires ReadText(t) == Some(Parsed(text, rest))
    ensures ReadText(head + t) == Some(Parsed([c] + text, rest))
  {
  }

  lemma Regroup(a: string, b: string, c: string, d: string)
    ensures a + b + c + d == a + (b + c + d)
  {
  }

  lemma {:induction false} TextReadsBack(text: string, rest: string)
    ensures ReadText(EscapeText(text) + "\"" + rest) == Some(Parsed(text, rest))
  {
    if text == "" {
      assert (EscapeText(text) + "\"" + rest)[1..] == rest;
    } else {
      var head, tail := EscapeChar(text[0]), EscapeText(text[1..]);
      var t := tail + "\"" + rest;
      CharReadsBack(text[0], t);
      TextReadsBack(text[1..], rest);
      NextChar(head, text[0], t, text[1..], rest);
      Regroup(head, tail, "\"", rest);
      assert text == [text[0]] + text[1..];
    }
  }

  predicate Closes(rest: string) { rest == "" || rest[0] == ',' || rest[0] == ']' || rest[0] == '}' }

  lemma {:induction false} DigitsEnd(s: string, rest: string)
    requires AllDigits(s) && Closes(rest)
    ensures DigitCount(s + rest) == |s|
  {
    if s == "" {
      assert s + rest == rest;
    } else {
      assert (s + rest)[1..] == s[1..] + rest;
      DigitsEnd(s[1..], rest);
    }
  }

  lemma DigitsReadBack(n: nat, rest: string)
    requires Closes(rest)
    ensures ReadDigits(NatText(n) + rest) == Some(Parsed(n, rest))
  {
    var digits := NatText(n);
    var u := digits + rest;
    DigitsEnd(digits, rest);
    assert u[..|digits|] == digits && u[|digits|..] == rest;
    assert u[0] == digits[0];
    NatTextReadsBack(n);
  }

  lemma SignReadsBack(digits: string, n: nat, rest: string)
    requires digits != "" && IsDigit(digits[0]) && ReadDigits(digits + rest) == Some(Parsed(n, rest))
    ensures ReadInt(digits + rest) == Some(Parsed(n as int, rest))
    ensures ReadInt("-" + digits + rest) == Some(Parsed(-(n as int), rest))
  {
    assert (digits + rest)[0] == digits[0];
    assert ("-" + digits + rest)[1..] == digits + rest;
  }

  lemma IntReadsBack(n: int, rest: string)
    requires Closes(rest)
    ensures ReadInt(IntText(n) + rest) == Some(Parsed(n, rest))
  {
    var size: nat := if n < 0 then -n else n;
    DigitsReadBack(size, rest);
    SignReadsBack(NatText(size), size, rest);
  }

  /** The first character decides which branch of the reader runs. */
  lemma OneBranch(s: string)
    requires s != "" && s[0] != 'n' && s[0] != 't' && s[0] != 'f'
    ensures !StartsWith(s, "null") && !StartsWith(s, "true") && !StartsWith(s, "false")
  {
    assert "null"[0] == 'n' && "true"[0] == 't' && "false"[0] == 'f';
    assert forall word :: StartsWith(s, word) && word != "" ==> s[0] == s[..|word|][0];
  }

  lemma WordReadsBack(j: Json, rest: string)
    requires j.Null? || j.Bool?
    ensures ReadValue(Print(j) + rest) == Some(Parsed(j, rest))
  {
    var s := Print(j) + rest;
    if j.Null? {
      assert s[..4] == "null" && s[4..] == rest;
    } else if j.b {
      assert s[..4] == "true" && s[4..] == rest;
    } else {
      assert s[..5] == "false" && s[5..] == rest && s[0] != 't' && s[0] != 'n';
      assert s[..4][0] == 'f';
    }
  }

  lemma NumberReadsBack(n: int, rest: string)
    requires Closes(rest)
    ensures ReadValue(Print(Int(n)) + rest) == Some(Parsed(Int(n), rest))
  {
    var s := IntText(n) + rest;
    assert IsDigit(NatText(if n < 0 then -n else n)[0]);
    assert s[0] == '-' || IsDigit(s[0]);
    OneBranch(s);
    IntReadsBack(n, rest);
  }

  lemma StringReadsBack(text: string, rest: string)
    ensures ReadValue(Print(Str(text)) + rest) == Some(Parsed(Str(text), rest))
  {
    var s := Quoted(text) + rest;
    OneBranch(s);
    assert s[1..] == EscapeText(text) + "\"" + rest;
    TextReadsBack(text, rest);
  }

  lemma BodyOf(open: char, text: string, close: string, rest: string)
    requires close != ""
    ensures
      var s := [open] + text + close + rest;
      s != "" && s[0] == open && s[1..] == text + close + rest
      && (text + close + rest)[0] == (if text == "" then close[0] else text[0])
      && (text == "" && |close| == 1 ==> (text + close + rest)[1..] == rest)
  {
  }

  lemma ArrayReadsBack(text: string, items: seq<Json>, rest: string)
    requires text == "" ==> items == []
    requires text != "" ==> !IsSpace(text[0]) && text[0] != ']'
    requires text != "" ==> ReadItems(text + "]" + rest) == Some(Parsed(items, rest))
    ensures ReadArray(text + "]" + rest) == Some(Parsed(Arr(items), rest))
  {
    BodyOf('[', text, "]", rest);
  }

  lemma ObjectReadsBack(text: string, fields: seq<Field>, rest: string)
    requires text == "" ==> fields == []
    requires text != "" ==> text[0] == '"'
    requires text != "" ==> ReadFields(text + "}" + rest) == Some(Parsed(fields, rest))
    ensures ReadObject(text + "}" + rest) == Some(Parsed(Obj(fields), rest))
  {
    BodyOf('{', text, "}", rest);
  }

  lemma Opens(s: string)
    requires Begins(s, '[') || Begins(s, '{')
    ensures ReadValue(s) == if s[0] == '[' then ReadArray(s[1..]) else ReadObject(s[1..])
  {
    OneBranch(s);
  }

  lemma {:induction false} ValueReadsBack(j: Json, rest: string)
    requires Closes(rest)
    ensures ReadValue(Print(j) + rest) == Some(Parsed(j, rest))
    decreases j
  {
    match j
    case Null => WordReadsBack(j, rest);
    case Bool(_) => WordReadsBack(j, rest);
    case Int(n) => NumberReadsBack(n, rest);
    case Str(text) => StringReadsBack(text, rest);
    case Arr(items) =>
      if items != [] {
        ItemsReadBack(items, rest);
      }
      var text := if items == [] then "" else PrintItems(items);
      ArrayReadsBack(text, items, rest);
      BodyOf('[', text, "]", rest);
      Opens(Print(j) + rest);
    case Obj(fields) =>
      if fields != [] {
        FieldsReadBack(fields, rest);
      }
      var text := if fields == [] then "" else PrintFields(fields);
      ObjectReadsBack(text, fields, rest);
      BodyOf('{', text, "}", rest);
      Opens(Print(j) + rest);
  }

  lemma LastItem(text: string, item: Json, rest: string)
    requires ReadValue(text + ("]" + rest)) == Some(Parsed(item, "]" + rest))
    ensures ReadItems(text + "]" + rest) == Some(Parsed([item], rest))
  {
    assert text + "]" + rest == text + ("]" + rest);
    assert ("]" + rest)[1..] == rest;
  }

  lemma NextItem(text: string, item: Json, more: string, items: seq<Json>, rest: string)
    requires ReadValue(text + ("," + (more + "]" + rest))) == Some(Parsed(item, "," + (more + "]" + rest)))
    requires ReadItems(more + "]" + rest) == Some(Parsed(items, rest))
    ensures ReadItems(text + ("," + more) + "]" + rest) == Some(Parsed([item] + items, rest))
  {
    var after := "," + (more + "]" + rest);
    assert text + ("," + more) + "]" + rest == text + after;
    assert after[1..] == more + "]" + rest;
  }

  lemma {:induction false} ItemsReadBack(items: seq<Json>, rest: string)
    requires items != []
    ensures ReadItems(PrintItems(items) + "]" + rest) == Some(Parsed(items, rest))
    decreases items
  {
    var text := Print(items[0]);
    if |items| == 1 {
      ValueReadsBack(items[0], "]" + rest);
      LastItem(text, items[0], rest);
      assert PrintItems(items) == text;
      assert items == [items[0]];
    } else {
      var more := PrintItems(items[1..]);
      ValueReadsBack(items[0], "," + (more + "]" + rest));
      ItemsReadBack(items[1..], rest);
      NextItem(text, items[0], more, items[1..], rest);
      assert PrintItems(items) == text + ("," + more);
      assert items == [items[0]] + items[1..];
    }
  }

  /** Reading a name brings the reader to the value after the colon. */
  lemma NameReadsBack(name: string, value: string)
    ensures
      var s := Quoted(name) + ":" + value;
      Begins(s, '"') && ReadText(s[1..]) == Some(Parsed(name, ":" + value)) && (":" + value)[1..] == value
  {
    var s := Quoted(name) + ":" + value;
    assert s[1..] == EscapeText(name) + "\"" + (":" + value);
    TextReadsBack(name, ":" + value);
  }

  lemma FieldReadsBack(field: Field, text: string, after: string)
    requires ReadValue(text + after) == Some(Parsed(field.value, after))
    ensures ReadField(Quoted(field.name) + ":" + text + after) == Some(Parsed(field, after))
  {
    var s := Quoted(field.name) + ":" + text + after;
    assert s == Quoted(field.name) + ":" + (text + after);
    NameReadsBack(field.name, text + after);
    assert Field(field.name, field.value) == field;
  }

  lemma LastField(text: string, field: Field, rest: string)
    requires ReadField(text + ("}" + rest)) == Some(Parsed(field, "}" + rest))
    ensures ReadFields(text + "}" + rest) == Some(Parsed([field], rest))
  {
    assert text + "}" + rest == text + ("}" + rest);
    assert ("}" + rest)[1..] == rest;
  }

  lemma NextField(text: string, field: Field, more: string, fields: seq<Field>, rest: string)
    requires ReadField(text + ("," + (more + "}" + rest))) == Some(Parsed(field, "," + (more + "}" + rest)))
    requires ReadFields(more + "}" + rest) == Some(Parsed(fields, rest))
    ensures ReadFields(text + ("," + more) + "}" + rest) == Some(Parsed([field] + fields, rest))
  {
    var after := "," + (more + "}" + rest);
    assert text + ("," + more) + "}" + rest == text + after;
    assert after[1..] == more + "}" + rest;
  }

  lemma {:induction false} FieldsReadBack(fields: seq<Field>, rest: string)
    requires fields != []
    ensures ReadFields(PrintFields(fields) + "}" + rest) == Some(Parsed(fields, rest))
    decreases fields
  {
    var field, text := fields[0], PrintField(fields[0]);
    if |fields| == 1 {
      ValueReadsBack(field.value, "}" + rest);
      FieldReadsBack(field, Print(field.value), "}" + rest);
      LastField(text, field, rest);
      assert PrintFields(fields) == text;
      assert fields == [field];
    } else {
      var more := PrintFields(fields[1..]);
      ValueReadsBack(field.value, "," + (more + "}" + rest));
      FieldReadsBack(field, Print(field.value), "," + (more + "}" + rest));
      FieldsReadBack(fields[1..], rest);
      NextField(text, field, more, fields[1..], rest);
      assert PrintFields(fields) == text + ("," + more);
      assert fields == [field] + fields[1..];
    }
  }

  /** Any document json.dumps writes is read back as the same value. */
  lemma ParsePrint(j: Json)
    ensures Parse(Print(j)) == Some(j)
  {
    ValueReadsBack(j, "");
    assert Print(j) + "" == Print(j);
  }
}

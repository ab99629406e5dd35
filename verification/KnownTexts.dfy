/** The texts this system writes, spelled out as laws and known values. */
module KnownTexts {
  import opened Texts
  import opened Json
  import opened Money
  import opened Models
  import opened Fingerprint

  /* ---- numbers and amounts ---- */

  lemma DigitLooksLike(d: nat)
    requires d < 10
    ensures DigitChar(d) == "0123456789"[d]
  {
  }

  /** Decimal digits, most significant first, no leading zero. */
  lemma DigitsLookLike(n: nat)
    ensures n < 10 ==> NatText(n) == [DigitChar(n)]
    ensures n >= 10 ==> NatText(n) == NatText(n / 10) + [DigitChar(n % 10)]
    ensures IntText(n) == NatText(n) && (n > 0 ==> IntText(-(n as int)) == "-" + NatText(n))
  {
  }

  /** Whole units, a point, two digits. */
  lemma AmountLooksLike(cents: nat)
    ensures FormatAmount(cents)
         == NatText(cents / 100) + "." + [DigitChar(cents / 10 % 10), DigitChar(cents % 10)]
  {
  }

  lemma KnownAmounts()
    ensures FormatAmount(0) == "0.00" && FormatAmount(5) == "0.05" && FormatAmount(1234) == "12.34"
  {
    assert NatText(12) == "12";
  }

  /* ---- UUIDs ---- */

  /** Lower-case hexadecimal digits, most significant first. */
  lemma HexLooksLike(n: nat, width: nat)
    ensures HexText(n, 0) == ""
    ensures HexText(n, width + 1) == HexText(n / 16, width) + ["0123456789abcdef"[n % 16]]
  {
  }

  /** 32 of them with hyphens after 8, 12, 16 and 20. */
  lemma UuidLooksLike(u: Uuid)
    ensures
      var s, h := UuidText(u), HexText(u, 32);
      && |s| == 36 && |h| == 32
      && s[..8] == h[..8] && s[9..13] == h[8..12] && s[14..18] == h[12..16] && s[19..23] == h[16..20] && s[24..] == h[20..]
      && s[8] == '-' && s[13] == '-' && s[18] == '-' && s[23] == '-'
  {
  }

  /* ---- JSON ---- */

  /** Printable ASCII stays, but for quotes and backslashes; everything else becomes an escape, in lower-case hexadecimal. */
  lemma EscapesLookLike(c: char, s: string)
    ensures EscapeText("") == "" && EscapeText([c] + s) == EscapeChar(c) + EscapeText(s)
    ensures EscapeChar('"') == "\\\"" && EscapeChar('\\') == "\\\\"
    ensures EscapeChar('\n') == "\\n" && EscapeChar('\r') == "\\r" && EscapeChar('\t') == "\\t"
    ensures ' ' <= c <= '~' && c != '"' && c != '\\' ==> EscapeChar(c) == [c]
    ensures 0x7f <= c as int < 0x1_0000 ==> EscapeChar(c) == "\\u" + HexText(c as int, 4)
    ensures c as int >= 0x1_0000 ==>
              EscapeChar(c) == "\\u" + HexText(0xD800 + (c as int - 0x1_0000) / 0x400, 4)
                               + "\\u" + HexText(0xDC00 + (c as int - 0x1_0000) % 0x400, 4)
  {
    assert ([c] + s)[1..] == s;
  }

  lemma ValuesLookLike(n: int, s: string)
    ensures Print(Null) == "null" && Print(Bool(true)) == "true" && Print(Bool(false)) == "false"
    ensures Print(Int(n)) == IntText(n) && Print(Str(s)) == "\"" + EscapeText(s) + "\""
    ensures Print(Arr([])) == "[]" && Print(Obj([])) == "{}"
  {
  }

  /** Items and fields are joined by commas, names and values by colons, with no spaces. */
  lemma ItemsLookLike(first: Json, rest: seq<Json>)
    ensures PrintItems([first]) == Print(first)
    ensures rest != [] ==> PrintItems([first] + rest) == Print(first) + "," + PrintItems(rest)
    ensures Print(Arr([first] + rest)) == "[" + PrintItems([first] + rest) + "]"
  {
    assert ([first] + rest)[1..] == rest;
  }

  lemma FieldsLookLike(name: string, value: Json, rest: seq<Field>)
    ensures PrintFields([Field(name, value)]) == "\"" + EscapeText(name) + "\":" + Print(value)
    ensures rest != [] ==>
              PrintFields([Field(name, value)] + rest) == "\"" + EscapeText(name) + "\":" + Print(value) + "," + PrintFields(rest)
    ensures Print(Obj([Field(name, value)] + rest)) == "{" + PrintFields([Field(name, value)] + rest) + "}"
  {
    assert ([Field(name, value)] + rest)[1..] == rest;
    assert Quoted(name) + ":" == "\"" + EscapeText(name) + "\":";
  }

  /* ---- the text of the fingerprint ---- */

  predicate Plain(s: string) { forall i :: 0 <= i < |s| ==> ' ' <= s[i] <= '~' && s[i] != '"' && s[i] != '\\' }

  lemma {:induction false} PlainTextIsItself(s: string)
    requires Plain(s)
    ensures EscapeText(s) == s
  {
    if s != "" {
      PlainTextIsItself(s[1..]);
      assert s == [s[0]] + s[1..];
    }
  }

  lemma UuidIsPlain(u: Uuid)
    ensures Plain(UuidText(u))
  {
    var h := HexText(u, 32);
    forall i | 0 <= i < |h|
      ensures HexDigitValue(h[i]).Some?
    {
      HexTextIsHex(u, 32, i);
    }
  }

  /** Such a text is printed between plain quotes. */
  lemma PlainIsQuoted(s: string)
    requires Plain(s)
    ensures Quoted(s) == "\"" + s + "\""
  {
    PlainTextIsItself(s);
  }

  lemma TwoFields(a: string, x: Json, b: string, y: Json)
    ensures Print(Obj([Field(a, x), Field(b, y)]))
         == "{" + (Quoted(a) + ":" + Print(x) + ("," + (Quoted(b) + ":" + Print(y)))) + "}"
  {
    var fields := [Field(a, x), Field(b, y)];
    assert fields[1..] == [Field(b, y)];
    var tail := PrintField(fields[1]);
    assert tail + "" == tail;
    assert PrintFields(fields[1..]) == tail;
    assert PrintFields(fields) == PrintField(fields[0]) + ("," + tail);
  }

  function ItemText(item: Item): string {
    "{" + (Quoted("product_id") + ":" + Quoted(UuidText(item.product))
           + ("," + (Quoted("quantity") + ":" + NatText(item.quantity)))) + "}"
  }

  function Joined(items: seq<Item>): string
    requires items != []
  {
    if |items| == 1 then ItemText(items[0]) else ItemText(items[0]) + "," + Joined(items[1..])
  }

  /** The hashed text: customer_id, then the items in the order of their product ids, each with product_id and quantity. */
  lemma CanonicalTextLooksLike(customer: Uuid, items: seq<Item>)
    requires items != []
    ensures SortItems(items) != []
    ensures CanonicalText(customer, items)
         == "{" + (Quoted("customer_id") + ":" + Quoted(UuidText(customer))
                   + ("," + (Quoted("items") + ":" + ("[" + Joined(SortItems(items)) + "]")))) + "}"
  {
    SortKeepsItems(items);
    assert |multiset(SortItems(items))| == |multiset(items)|;
    JoinedIsPrinted(SortItems(items));
    TwoFields("customer_id", Str(UuidText(customer)), "items", Arr(ItemsJson(SortItems(items))));
  }

  lemma ItemTextIsPrinted(item: Item)
    ensures Print(ItemJson(item)) == ItemText(item)
  {
    TwoFields("product_id", Str(UuidText(item.product)), "quantity", Int(item.quantity));
  }

  lemma {:induction false} JoinedIsPrinted(items: seq<Item>)
    requires items != []
    ensures ItemsJson(items) != [] && PrintItems(ItemsJson(items)) == Joined(items)
  {
    ItemTextIsPrinted(items[0]);
    if |items| > 1 {
      JoinedIsPrinted(items[1..]);
      ItemsLookLike(ItemJson(items[0]), ItemsJson(items[1..]));
    } else {
      assert ItemsJson(items) == [ItemJson(items[0])];
    }
  }

  /* ---- the order of strings ---- */

  /** They agree up to some place where the first ends or has the smaller character. */
  ghost predicate FirstDifference(a: string, b: string, i: nat) {
    i <= |a| && i < |b| && a[..i] == b[..i] && (i == |a| || a[i] < b[i])
  }

  lemma {:induction false} TextLessIff(a: string, b: string)
    ensures TextLess(a, b) <==> exists i: nat :: FirstDifference(a, b, i)
  {
    if b == "" || a == "" || a[0] != b[0] {
      if TextLess(a, b) {
        assert FirstDifference(a, b, 0);
      }
      if i: nat :| FirstDifference(a, b, i) {
        assert i == 0 || a[..i][0] == b[..i][0];
      }
    } else {
      TextLessIff(a[1..], b[1..]);
      if i: nat :| FirstDifference(a[1..], b[1..], i) {
        assert a[..i + 1] == [a[0]] + a[1..][..i] && b[..i + 1] == [b[0]] + b[1..][..i];
        assert FirstDifference(a, b, i + 1);
      }
      if i: nat :| FirstDifference(a, b, i) {
        assert i > 0;
        assert a[1..][..i - 1] == a[..i][1..] && b[1..][..i - 1] == b[..i][1..];
        assert FirstDifference(a[1..], b[1..], i - 1);
      }
    }
  }
}

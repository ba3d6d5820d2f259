/** Canonical JSON text: sorted keys, no spaces, ASCII only. Two values have the same text exactly
    when they are the same value up to the order of object fields. Strings are escaped as in section
    7 of RFC 8259, characters above U+FFFF as a surrogate pair. */
module Json {
  import opened Texts

  datatype Value =
    | Null
    | Bool(b: bool)
    | Num(n: int)
    | Str(s: string)
    | Arr(items: seq<Value>)
    | Obj(fields: seq<Field>)    // in insertion order

  type Field = (string, Value)

  // ---- strings ----

  function ShortEscape(c: char): string {
    match c
    case '\"' => "\""
    case '\\' => "\\"
    case '\n' => "n"
    case '\r' => "r"
    case '\t' => "t"
    case '\U{0008}' => "b"
    case '\U{000C}' => "f"
    case _ => ""
  }

  predicate Plain(c: char) { ' ' <= c <= '~' && c != '\"' && c != '\\' }

  function High(c: char): nat
    requires c as int >= 0x10000
  {
    0xD800 + (c as int - 0x10000) / 0x400
  }

  function Low(c: char): nat
    requires c as int >= 0x10000
  {
    0xDC00 + (c as int - 0x10000) % 0x400
  }

  function Escape(c: char): string {
    if Plain(c) then [c]
    else if ShortEscape(c) != "" then "\\" + ShortEscape(c)
    else if c as int < 0x10000 then "\\u" + Hex4(c as int)
    else "\\u" + Hex4(High(c)) + "\\u" + Hex4(Low(c))
  }

  function EscapeAll(s: string): string {
    if s == "" then "" else Escape(s[0]) + EscapeAll(s[1..])
  }

  function Quote(s: string): string { "\"" + EscapeAll(s) + "\"" }

  // How long the first escape of a text is, read off the text.
  function EscapeLength(text: string): nat {
    if |text| < 1 || text[0] != '\\' then 1
    else if |text| < 6 || text[1] != 'u' then 2
    else if 0xD800 <= Unhex4(text[2..]) < 0xDC00 then 12
    else 6
  }

  lemma EscapeLengthIs(c: char, rest: string)
    ensures EscapeLength(Escape(c) + rest) == |Escape(c)|
  {
    var text := Escape(c) + rest;
    if !Plain(c) && ShortEscape(c) == "" {
      var n := if c as int < 0x10000 then c as int else High(c);
      var tail := if c as int < 0x10000 then rest else "\\u" + Hex4(Low(c)) + rest;
      assert text[2..] == Hex4(n) + tail;
      Hex4ReadsBack(n, tail);
    }
  }

  lemma EscapeIdentifies(c: char, d: char)
    requires Escape(c) == Escape(d)
    ensures c == d
  {
    if |Escape(c)| == 6 {
      QuadReadsBack(c);
      QuadReadsBack(d);
    } else if |Escape(c)| == 12 {
      PairReadsBack(c);
      PairReadsBack(d);
      assert c as int - 0x10000 == (High(c) - 0xD800) * 0x400 + (Low(c) - 0xDC00);
    } else if |Escape(c)| == 2 {
      assert Escape(c)[1..] == ShortEscape(c) && Escape(d)[1..] == ShortEscape(d);
    } else {
      assert Escape(c)[0] == c && Escape(d)[0] == d;
    }
  }

  lemma QuadReadsBack(c: char)
    requires |Escape(c)| == 6
    ensures Unhex4(Escape(c)[2..]) == c as int
  {
    assert Escape(c)[2..] == Hex4(c as int) + "";
    Hex4ReadsBack(c as int, "");
  }

  lemma PairReadsBack(c: char)
    requires |Escape(c)| == 12
    ensures Unhex4(Escape(c)[2..]) == High(c) && Unhex4(Escape(c)[8..]) == Low(c)
  {
    assert Escape(c)[2..] == Hex4(High(c)) + ("\\u" + Hex4(Low(c)));
    assert Escape(c)[8..] == Hex4(Low(c)) + "";
    Hex4ReadsBack(High(c), "\\u" + Hex4(Low(c)));
    Hex4ReadsBack(Low(c), "");
  }

  lemma SplitAt(a: string, x: string, b: string, y: string)
    requires a + x == b + y && |a| == |b|
    ensures a == b && x == y
  {
    assert (a + x)[..|a|] == a && (b + y)[..|b|] == b;
    assert (a + x)[|a|..] == x && (b + y)[|b|..] == y;
  }

  lemma QuotedStarts(s: string, x: string)
    ensures ((EscapeAll(s) + "\"" + x)[0] == '\"') <==> s == ""
  {
    if s != "" { assert (EscapeAll(s) + "\"" + x)[0] == Escape(s[0])[0]; }
  }

  // The closing quote is found where the string ends.
  lemma {:induction false} QuotedIdentifies(s: string, x: string, t: string, y: string)
    requires EscapeAll(s) + "\"" + x == EscapeAll(t) + "\"" + y
    ensures s == t && x == y
  {
    hide Escape, EscapeLength;
    var a, b := EscapeAll(s) + "\"" + x, EscapeAll(t) + "\"" + y;
    QuotedStarts(s, x);
    QuotedStarts(t, y);
    if s != "" && t != "" {
      var restA, restB := EscapeAll(s[1..]) + "\"" + x, EscapeAll(t[1..]) + "\"" + y;
      assert a == Escape(s[0]) + restA && b == Escape(t[0]) + restB;
      EscapeLengthIs(s[0], restA);
      EscapeLengthIs(t[0], restB);
      SplitAt(Escape(s[0]), restA, Escape(t[0]), restB);
      EscapeIdentifies(s[0], t[0]);
      QuotedIdentifies(s[1..], x, t[1..], y);
    } else {
      assert a == "\"" + x && b == "\"" + y;
      SplitAt("\"", x, "\"", y);
    }
  }

  // ---- numbers ----

  function Number(n: int): string { if n < 0 then "-" + Decimal(-n) else Decimal(n) }

  function DigitCount(text: string): nat {
    if text == "" || !IsDigit(text[0]) then 0 else 1 + DigitCount(text[1..])
  }

  // What can follow a value in a text: nothing, or a separator or closing bracket.
  predicate Ends(rest: string) { rest == "" || !IsDigit(rest[0]) }

  lemma {:induction false} DigitCountIs(digits: string, rest: string)
    requires (forall c :: c in digits ==> IsDigit(c)) && Ends(rest)
    ensures DigitCount(digits + rest) == |digits|
  {
    if digits == "" {
      assert digits + rest == rest;
    } else {
      assert (digits + rest)[0] == digits[0] && (digits + rest)[1..] == digits[1..] + rest;
      DigitCountIs(digits[1..], rest);
    }
  }

  lemma DecimalSplits(m: nat, x: string, n: nat, y: string)
    requires Decimal(m) + x == Decimal(n) + y && Ends(x) && Ends(y)
    ensures m == n && x == y
  {
    DecimalIsText(m);
    DecimalIsText(n);
    DigitCountIs(Decimal(m), x);
    DigitCountIs(Decimal(n), y);
    SplitAt(Decimal(m), x, Decimal(n), y);
    DecimalIdentifies(m, n);
  }

  lemma NumberStarts(n: int)
    ensures |Number(n)| >= 1 && (if n < 0 then Number(n)[0] == '-' else IsDigit(Number(n)[0]))
  {
    DecimalIsText(if n < 0 then -n else n);
  }

  lemma NumberText(n: int, x: string)
    ensures Number(n) + x == if n < 0 then "-" + (Decimal(-n) + x) else Decimal(n) + x
  {
    hide Decimal;
  }

  lemma NumberSplits(m: int, x: string, n: int, y: string)
    requires Number(m) + x == Number(n) + y && Ends(x) && Ends(y)
    ensures m == n && x == y
  {
    NumberStarts(m);
    NumberStarts(n);
    hide Decimal;
    assert (Number(m) + x)[0] == Number(m)[0] && (Number(n) + y)[0] == Number(n)[0];
    NumberText(m, x);
    NumberText(n, y);
    hide Number;
    if m < 0 {
      SplitAt("-", Decimal(-m) + x, "-", Decimal(-n) + y);
      DecimalSplits(-m, x, -n, y);
    } else {
      DecimalSplits(m, x, n, y);
    }
  }

  // ---- values ----

  function Write(v: Value): string
    decreases v, 1
  {
    match v
    case Null => "null"
    case Bool(b) => if b then "true" else "false"
    case Num(n) => Number(n)
    case Str(s) => Quote(s)
    case Arr(items) => "[" + (if items == [] then "]" else Write(items[0]) + WriteItems(items[1..]))
    case Obj(fields) => "{" + (if fields == [] then "}" else WriteField(fields[0]) + WriteFields(fields[1..]))
  }

  function WriteItems(items: seq<Value>): string
    decreases items, 0
  {
    if items == [] then "]" else "," + Write(items[0]) + WriteItems(items[1..])
  }

  function WriteField(f: Field): string
    decreases f, 0
  {
    Quote(f.0) + ":" + Write(f.1)
  }

  function WriteFields(fields: seq<Field>): string
    decreases fields, 0
  {
    if fields == [] then "}" else "," + WriteField(fields[0]) + WriteFields(fields[1..])
  }

  function Opening(v: Value): char {
    match v
    case Null => 'n'
    case Bool(b) => if b then 't' else 'f'
    case Num(n) => if n < 0 then '-' else Decimal(n)[0]
    case Str(_) => '\"'
    case Arr(_) => '['
    case Obj(_) => '{'
  }

  lemma WriteStarts(v: Value, x: string)
    ensures |Write(v)| >= 1 && (Write(v) + x)[0] == Opening(v) && Opening(v) != ']' && Opening(v) != '}'
  {
    if v.Num? { NumberStarts(v.n); }
  }

  lemma OpeningTells(a: Value, b: Value)
    requires Opening(a) == Opening(b)
    ensures (a.Null? <==> b.Null?) && (a.Num? <==> b.Num?) && (a.Str? <==> b.Str?) && (a.Arr? <==> b.Arr?) && (a.Obj? <==> b.Obj?)
    ensures a.Bool? ==> a == b
  {
    if a.Num? { NumberStarts(a.n); }
    if b.Num? { NumberStarts(b.n); }
  }

  lemma ItemsEnd(items: seq<Value>, x: string)
    ensures Ends(WriteItems(items) + x) && ((WriteItems(items) + x)[0] == ']' <==> items == [])
  {}

  lemma FieldsEnd(fields: seq<Field>, x: string)
    ensures Ends(WriteFields(fields) + x) && ((WriteFields(fields) + x)[0] == '}' <==> fields == [])
  {}

  lemma QuoteText(s: string, x: string)
    ensures Quote(s) + x == "\"" + (EscapeAll(s) + "\"" + x)
  {}

  // The notation itself. Section 7 of RFC 8259 has these short escapes.
  lemma ShortEscapesAre(c: char)
    ensures ' ' <= c <= '~' && c != '\"' && c != '\\' ==> Escape(c) == [c]
    ensures Escape('\"') == "\\\"" && Escape('\\') == "\\\\" && Escape('\n') == "\\n" && Escape('\r') == "\\r" && Escape('\t') == "\\t"
    ensures Escape('\U{0008}') == "\\b" && Escape('\U{000C}') == "\\f"
  {
    hide Hex4, High, Low;
  }

  // Every other character that is not printable ASCII is written with its code, above U+FFFF as a
  // surrogate pair.
  lemma LongEscapesAre()
    ensures Escape('\U{001F}') == "\\u001f" && Escape('\U{20AC}') == "\\u20ac"
  {
    assert Hex4(0x1F) == "001f" && Hex4(0x20AC) == "20ac";
    hide Hex4;
  }

  lemma SurrogatesAre()
    ensures Escape('\U{1F600}') == "\\ud83d" + "\\ude00"
  {
    assert Hex4(0xD83D) == "d83d" && Hex4(0xDE00) == "de00";
    hide Hex4;
    assert High('\U{1F600}') == 0xD83D && Low('\U{1F600}') == 0xDE00;
  }

  // Commas and colons without spaces.
  lemma ScalarsAre(k: string)
    ensures Write(Null) == "null" && Write(Bool(true)) == "true" && Write(Bool(false)) == "false" && Write(Str(k)) == "\"" + EscapeAll(k) + "\""
    ensures Write(Arr([])) == "[]" && Write(Obj([])) == "{}"
  {
    hide EscapeAll;
  }

  lemma PairIs(a: Value, b: Value)
    ensures Write(Arr([a, b])) == "[" + (Write(a) + ("," + Write(b) + "]"))
  {
    var items := [a, b];
    assert items[1..] == [b] && [b][1..] == [];
    assert WriteItems([b]) == "," + Write(b) + "]";
  }

  lemma FieldPairIs(f: Field, g: Field)
    ensures Write(Obj([f, g])) == "{" + (WriteField(f) + ("," + WriteField(g) + "}"))
    ensures WriteField(f) == Quote(f.0) + ":" + Write(f.1)
  {
    var fields := [f, g];
    assert fields[1..] == [g] && [g][1..] == [];
    assert WriteFields([g]) == "," + WriteField(g) + "}";
  }

  // A text says where its value ends, and which value it is.
  lemma {:induction false} WriteIdentifies(a: Value, x: string, b: Value, y: string)
    requires Write(a) + x == Write(b) + y && Ends(x) && Ends(y)
    ensures a == b && x == y
    decreases a, 1
  {
    WriteStarts(a, x);
    WriteStarts(b, y);
    OpeningTells(a, b);
    match a {
      case Null => SplitAt("null", x, "null", y);
      case Bool(v) => SplitAt(Write(a), x, Write(a), y);
      case Num(n) => NumberSplits(n, x, b.n, y);
      case Str(s) =>
        QuoteText(s, x);
        QuoteText(b.s, y);
        SplitAt("\"", EscapeAll(s) + "\"" + x, "\"", EscapeAll(b.s) + "\"" + y);
        QuotedIdentifies(s, x, b.s, y);
      case Arr(items) => ArrayIdentifies(items, x, b.items, y);
      case Obj(fields) => ObjectIdentifies(fields, x, b.fields, y);
    }
  }

  function ArrayRest(items: seq<Value>, x: string): string {
    if items == [] then "]" + x else Write(items[0]) + (WriteItems(items[1..]) + x)
  }

  lemma ArrayText(items: seq<Value>, x: string)
    ensures Write(Arr(items)) + x == "[" + ArrayRest(items, x)
    ensures (ArrayRest(items, x)[0] == ']') <==> items == []
  {
    if items != [] {
      WriteStarts(items[0], WriteItems(items[1..]) + x);
      assert Write(Arr(items)) == "[" + (Write(items[0]) + WriteItems(items[1..]));
    }
  }

  lemma {:induction false} ArrayIdentifies(s: seq<Value>, x: string, t: seq<Value>, y: string)
    requires Write(Arr(s)) + x == Write(Arr(t)) + y
    ensures s == t && x == y
    decreases s, 2
  {
    ArrayText(s, x);
    ArrayText(t, y);
    SplitAt("[", ArrayRest(s, x), "[", ArrayRest(t, y));
    hide Write, WriteItems;
    if s == [] {
      SplitAt("]", x, "]", y);
    } else {
      ItemsEnd(s[1..], x);
      ItemsEnd(t[1..], y);
      WriteIdentifies(s[0], WriteItems(s[1..]) + x, t[0], WriteItems(t[1..]) + y);
      ItemsIdentify(s[1..], x, t[1..], y);
    }
  }

  lemma ItemsText(items: seq<Value>, x: string)
    requires items != []
    ensures WriteItems(items) + x == "," + (Write(items[0]) + (WriteItems(items[1..]) + x))
  {
    hide Write;
  }

  lemma FieldsText(fields: seq<Field>, x: string)
    requires fields != []
    ensures WriteFields(fields) + x == "," + (WriteField(fields[0]) + (WriteFields(fields[1..]) + x))
  {
    hide WriteField;
  }

  lemma {:induction false} ItemsIdentify(s: seq<Value>, x: string, t: seq<Value>, y: string)
    requires WriteItems(s) + x == WriteItems(t) + y
    ensures s == t && x == y
    decreases s, 0
  {
    ItemsEnd(s, x);
    ItemsEnd(t, y);
    if s == [] {
      SplitAt("]", x, "]", y);
    } else {
      var restA, restB := WriteItems(s[1..]) + x, WriteItems(t[1..]) + y;
      ItemsText(s, x);
      ItemsText(t, y);
      hide Write, WriteItems;
      SplitAt(",", Write(s[0]) + restA, ",", Write(t[0]) + restB);
      ItemsEnd(s[1..], x);
      ItemsEnd(t[1..], y);
      WriteIdentifies(s[0], restA, t[0], restB);
      ItemsIdentify(s[1..], x, t[1..], y);
    }
  }

  lemma FieldText(f: Field, x: string)
    ensures WriteField(f) + x == "\"" + (EscapeAll(f.0) + "\"" + (":" + (Write(f.1) + x)))
  {
    hide Write, EscapeAll;
    assert WriteField(f) + x == Quote(f.0) + (":" + (Write(f.1) + x));
    QuoteText(f.0, ":" + (Write(f.1) + x));
  }

  lemma {:induction false} FieldIdentifies(f: Field, x: string, g: Field, y: string)
    requires WriteField(f) + x == WriteField(g) + y && Ends(x) && Ends(y)
    ensures f == g && x == y
    decreases f, 2
  {
    var restA, restB := ":" + (Write(f.1) + x), ":" + (Write(g.1) + y);
    var a, b := EscapeAll(f.0) + "\"" + restA, EscapeAll(g.0) + "\"" + restB;
    FieldText(f, x);
    FieldText(g, y);
    hide Write, WriteField, EscapeAll;
    SplitAt("\"", a, "\"", b);
    QuotedIdentifies(f.0, restA, g.0, restB);
    SplitAt(":", Write(f.1) + x, ":", Write(g.1) + y);
    WriteIdentifies(f.1, x, g.1, y);
  }

  function ObjectRest(fields: seq<Field>, x: string): string {
    if fields == [] then "}" + x else WriteField(fields[0]) + (WriteFields(fields[1..]) + x)
  }

  lemma ObjectText(fields: seq<Field>, x: string)
    ensures Write(Obj(fields)) + x == "{" + ObjectRest(fields, x)
    ensures (ObjectRest(fields, x)[0] == '}') <==> fields == []
  {
    if fields != [] {
      FieldText(fields[0], WriteFields(fields[1..]) + x);
      assert Write(Obj(fields)) == "{" + (WriteField(fields[0]) + WriteFields(fields[1..]));
    }
  }

  lemma {:induction false} ObjectIdentifies(s: seq<Field>, x: string, t: seq<Field>, y: string)
    requires Write(Obj(s)) + x == Write(Obj(t)) + y
    ensures s == t && x == y
    decreases s, 2
  {
    ObjectText(s, x);
    ObjectText(t, y);
    SplitAt("{", ObjectRest(s, x), "{", ObjectRest(t, y));
    hide Write, WriteField, WriteFields;
    if s == [] {
      SplitAt("}", x, "}", y);
    } else {
      FieldsEnd(s[1..], x);
      FieldsEnd(t[1..], y);
      FieldIdentifies(s[0], WriteFields(s[1..]) + x, t[0], WriteFields(t[1..]) + y);
      FieldsIdentify(s[1..], x, t[1..], y);
    }
  }

  lemma {:induction false} FieldsIdentify(s: seq<Field>, x: string, t: seq<Field>, y: string)
    requires WriteFields(s) + x == WriteFields(t) + y
    ensures s == t && x == y
    decreases s, 0
  {
    FieldsEnd(s, x);
    FieldsEnd(t, y);
    if s == [] {
      SplitAt("}", x, "}", y);
    } else {
      var restA, restB := WriteFields(s[1..]) + x, WriteFields(t[1..]) + y;
      FieldsText(s, x);
      FieldsText(t, y);
      hide WriteField, WriteFields;
      SplitAt(",", WriteField(s[0]) + restA, ",", WriteField(t[0]) + restB);
      FieldsEnd(s[1..], x);
      FieldsEnd(t[1..], y);
      FieldIdentifies(s[0], restA, t[0], restB);
      FieldsIdentify(s[1..], x, t[1..], y);
    }
  }
}

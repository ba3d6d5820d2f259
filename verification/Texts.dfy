/** Decimal and hexadecimal text, and how to read it back. */
module Texts {
  import opened Records

  function Digit(n: nat): char
    requires n < 10
  {
    '0' + n as char
  }

  function Decimal(n: nat): string {
    if n < 10 then [Digit(n)] else Decimal(n / 10) + [Digit(n % 10)]
  }

  predicate IsDigit(c: char) { '0' <= c <= '9' }

  lemma {:induction false} DecimalIsText(n: nat)
    ensures forall c :: c in Decimal(n) ==> IsDigit(c)
    ensures |Decimal(n)| >= 1 && (|Decimal(n)| == 1 <==> n < 10)
  {
    if n >= 10 { DecimalIsText(n / 10); }
  }

  lemma {:induction false} DecimalIdentifies(m: nat, n: nat)
    requires Decimal(m) == Decimal(n)
    ensures m == n
  {
    DecimalIsText(m);
    DecimalIsText(n);
    if m >= 10 {
      assert Decimal(m)[..|Decimal(m)| - 1] == Decimal(m / 10) && Decimal(n)[..|Decimal(n)| - 1] == Decimal(n / 10);
      assert Decimal(m)[|Decimal(m)| - 1] == Digit(m % 10) && Decimal(n)[|Decimal(n)| - 1] == Digit(n % 10);
      DecimalIdentifies(m / 10, n / 10);
    }
  }

  // ---- reading digits ----

  predicate AllDigits(s: string) { forall c :: c in s ==> IsDigit(c) }

  function ReadDigits(s: string): nat {
    if s == "" then 0 else 10 * ReadDigits(s[..|s| - 1]) + (if IsDigit(s[|s| - 1]) then (s[|s| - 1] - '0') as nat else 0)
  }

  lemma {:induction false} DecimalReadsBack(n: nat)
    ensures ReadDigits(Decimal(n)) == n
  {
    if n >= 10 {
      DecimalReadsBack(n / 10);
      assert Decimal(n)[..|Decimal(n)| - 1] == Decimal(n / 10);
    }
  }

  // Exactly `width` digits, with leading zeros.
  function Padded(n: nat, width: nat): (r: string)
    ensures |r| == width
  {
    if width == 0 then "" else Padded(n / 10, width - 1) + [Digit(n % 10)]
  }

  function Pow10(width: nat): nat { if width == 0 then 1 else 10 * Pow10(width - 1) }

  lemma {:induction false} PaddedReadsBack(n: nat, width: nat)
    requires n < Pow10(width)
    ensures ReadDigits(Padded(n, width)) == n && AllDigits(Padded(n, width))
  {
    if width > 0 {
      PaddedReadsBack(n / 10, width - 1);
      assert Padded(n, width)[..width - 1] == Padded(n / 10, width - 1);
    }
  }

  // ---- fields of fixed width, each followed by a separator ----

  datatype Slot = Slot(width: nat, after: string)

  function WriteSlots(values: seq<nat>, layout: seq<Slot>): string
    requires |values| == |layout|
  {
    if layout == [] then ""
    else Padded(values[0], layout[0].width) + layout[0].after + WriteSlots(values[1..], layout[1..])
  }

  // The fields at the start of a text, and what follows them.
  function ReadSlots(t: string, layout: seq<Slot>): Option<(seq<nat>, string)> {
    if layout == [] then Some(([], t))
    else
      var w, end := layout[0].width, layout[0].width + |layout[0].after|;
      if |t| < end || !AllDigits(t[..w]) || t[w..end] != layout[0].after then None
      else
        var rest := ReadSlots(t[end..], layout[1..]);
        if rest.None? then None else Some(([ReadDigits(t[..w])] + rest.value.0, rest.value.1))
  }

  lemma ReadSlotStep(first: string, more: string, layout: seq<Slot>)
    requires layout != [] && |first| == layout[0].width && AllDigits(first)
    ensures var rest := ReadSlots(more, layout[1..]);
            ReadSlots(first + (layout[0].after + more), layout)
            == if rest.None? then None else Some(([ReadDigits(first)] + rest.value.0, rest.value.1))
  {
    hide AllDigits, ReadDigits;
    ThreeParts(first, layout[0].after, more);
  }

  lemma WriteSlotStep(values: seq<nat>, layout: seq<Slot>, rest: string)
    requires |values| == |layout| && layout != []
    ensures WriteSlots(values, layout) + rest
         == Padded(values[0], layout[0].width) + (layout[0].after + (WriteSlots(values[1..], layout[1..]) + rest))
  {
    hide Padded;
  }

  lemma {:induction false} SlotsReadBack(values: seq<nat>, layout: seq<Slot>, rest: string)
    requires |values| == |layout| && forall i :: 0 <= i < |values| ==> values[i] < Pow10(layout[i].width)
    ensures ReadSlots(WriteSlots(values, layout) + rest, layout) == Some((values, rest))
  {
    if layout == [] {
      assert WriteSlots(values, layout) + rest == rest && values == [];
    } else {
      PaddedReadsBack(values[0], layout[0].width);
      SlotsReadBack(values[1..], layout[1..], rest);
      WriteSlotStep(values, layout, rest);
      hide WriteSlots, ReadSlots, Padded, ReadDigits, AllDigits, Pow10;
      ReadSlotStep(Padded(values[0], layout[0].width), WriteSlots(values[1..], layout[1..]) + rest, layout);
      assert [values[0]] + values[1..] == values;
    }
  }

  lemma ThreeParts(a: string, b: string, c: string)
    ensures var t := a + (b + c); t[..|a|] == a && t[|a|..|a| + |b|] == b && t[|a| + |b|..] == c
  {}

  // ---- four lower-case hexadecimal digits ----

  function HexDigit(n: nat): char
    requires n < 16
  {
    if n < 10 then '0' + n as char else 'a' + (n - 10) as char
  }

  function HexValue(c: char): nat {
    if '0' <= c <= '9' then (c - '0') as nat else if 'a' <= c <= 'f' then (c - 'a') as nat + 10 else 0
  }

  function Hex4(n: nat): string
    requires n < 0x10000
  {
    [HexDigit(n / 4096), HexDigit(n / 256 % 16), HexDigit(n / 16 % 16), HexDigit(n % 16)]
  }

  function Unhex4(s: string): nat
    requires |s| >= 4
  {
    HexValue(s[0]) * 4096 + HexValue(s[1]) * 256 + HexValue(s[2]) * 16 + HexValue(s[3])
  }

  lemma HexDigitReadsBack(n: nat)
    requires n < 16
    ensures HexValue(HexDigit(n)) == n
  {}

  lemma Hex4ReadsBack(n: nat, rest: string)
    requires n < 0x10000
    ensures Unhex4(Hex4(n) + rest) == n
  {
    hide HexDigit, HexValue;
    var text := Hex4(n) + rest;
    assert text[0] == HexDigit(n / 4096) && text[1] == HexDigit(n / 256 % 16);
    assert text[2] == HexDigit(n / 16 % 16) && text[3] == HexDigit(n % 16);
    HexDigitReadsBack(n / 4096);
    HexDigitReadsBack(n / 256 % 16);
    HexDigitReadsBack(n / 16 % 16);
    HexDigitReadsBack(n % 16);
    Base16(n);
  }

  lemma Base16(n: nat)
    ensures n / 4096 * 4096 + n / 256 % 16 * 256 + n / 16 % 16 * 16 + n % 16 == n
  {
    assert n / 256 == n / 16 / 16 && n / 4096 == n / 256 / 16;
  }

  // ---- stripping whitespace, as str.strip does ----

  predicate Space(c: char) {
    '\t' <= c <= '\r' || '\U{001C}' <= c <= ' ' || c == '\U{0085}' || c == '\U{00A0}' || c == '\U{1680}'
    || '\U{2000}' <= c <= '\U{200A}' || c == '\U{2028}' || c == '\U{2029}' || c == '\U{202F}' || c == '\U{205F}' || c == '\U{3000}'
  }

  function StripLeft(s: string): string { if s != "" && Space(s[0]) then StripLeft(s[1..]) else s }

  function StripRight(s: string): string { if s != "" && Space(s[|s| - 1]) then StripRight(s[..|s| - 1]) else s }

  function Strip(s: string): string { StripRight(StripLeft(s)) }

  // Nothing to strip, and something there.
  predicate Clean(s: string) { s != "" && !Space(s[0]) && !Space(s[|s| - 1]) }

  lemma CleanIsStripped(s: string)
    requires Clean(s)
    ensures Strip(s) == s
  {}

  lemma {:induction false} StripRightDropsSpace(s: string, c: char)
    requires Space(c)
    ensures StripRight(s + [c]) == StripRight(s)
  {
    assert (s + [c])[..|s|] == s;
  }

  lemma {:induction false} StripDropsSpace(s: string, c: char)
    requires Space(c)
    ensures Strip(s + [c]) == Strip(s)
  {
    if s == "" {
      assert StripLeft([c]) == StripLeft([c][1..]) && [c][1..] == "";
      assert s + [c] == [c];
    } else if Space(s[0]) {
      assert (s + [c])[0] == s[0] && (s + [c])[1..] == s[1..] + [c];
      StripDropsSpace(s[1..], c);
    } else {
      assert (s + [c])[0] == s[0];
      StripRightDropsSpace(s, c);
    }
  }

  lemma {:induction false} StripLeftShortens(s: string)
    ensures |StripLeft(s)| <= |s|
  {
    if s != "" && Space(s[0]) { StripLeftShortens(s[1..]); }
  }

  lemma {:induction false} StripRightShortens(s: string)
    ensures |StripRight(s)| <= |s|
  {
    if s != "" && Space(s[|s| - 1]) { StripRightShortens(s[..|s| - 1]); }
  }

  lemma StripShortens(s: string)
    ensures |Strip(s)| <= |s|
  {
    StripLeftShortens(s);
    StripRightShortens(StripLeft(s));
  }

  lemma {:induction false} StripLeftIs(s: string)
    ensures StripLeft(s) == "" <==> forall c :: c in s ==> Space(c)
    ensures StripLeft(s) != "" ==> !Space(StripLeft(s)[0])
  {
    if s != "" && Space(s[0]) {
      StripLeftIs(s[1..]);
      assert s == [s[0]] + s[1..];
    } else if s != "" {
      assert s[0] in s;
    }
  }

  lemma {:induction false} StripRightKeepsFirst(s: string)
    requires s != "" && !Space(s[0])
    ensures StripRight(s) != "" && StripRight(s)[0] == s[0]
  {
    if Space(s[|s| - 1]) { StripRightKeepsFirst(s[..|s| - 1]); }
  }

  // Nothing is left of a text exactly if there was nothing to see in it.
  lemma StripIsEmptyIff(s: string)
    ensures Strip(s) == "" <==> forall c :: c in s ==> Space(c)
  {
    StripLeftIs(s);
    if StripLeft(s) != "" { StripRightKeepsFirst(StripLeft(s)); }
  }

  // What is stripped is whitespace at both ends, and what is left has none there.
  lemma StripSplits(s: string) returns (left: string, right: string)
    ensures s == left + Strip(s) + right && (forall c :: c in left || c in right ==> Space(c)) && (Strip(s) == "" || Clean(Strip(s)))
  {
    KeptIsClean(s);
    assert Strip(s) == StripRight(StripLeft(s));
    hide *;
    var rest, kept;
    left, rest := LeftSplits(s);
    kept, right := RightSplits(rest);
    assert left + (kept + right) == left + kept + right;
  }

  lemma KeptIsClean(s: string)
    ensures Strip(s) == "" || Clean(Strip(s))
  {
    StripLeftIs(s);
    var rest := StripLeft(s);
    if rest != "" { StripRightKeepsFirst(rest); }
    var kept, right := RightSplits(rest);
    hide StripLeft, StripRight, Space;
  }

  lemma {:induction false} LeftSplits(s: string) returns (left: string, rest: string)
    ensures s == left + rest && rest == StripLeft(s) && forall c :: c in left ==> Space(c)
  {
    left, rest := "", s;
    if s != "" && Space(s[0]) {
      left, rest := LeftSplits(s[1..]);
      left := [s[0]] + left;
    }
  }

  lemma {:induction false} RightSplits(s: string) returns (rest: string, right: string)
    ensures s == rest + right && rest == StripRight(s) && (forall c :: c in right ==> Space(c)) && (rest == "" || !Space(rest[|rest| - 1]))
  {
    rest, right := s, "";
    if s != "" && Space(s[|s| - 1]) {
      rest, right := RightSplits(s[..|s| - 1]);
      right := right + [s[|s| - 1]];
    }
  }

  // The 29 code points that str.isspace knows.
  lemma SpacesAre(c: char)
    ensures Space(c) <==> c as int in {0x09, 0x0A, 0x0B, 0x0C, 0x0D, 0x1C, 0x1D, 0x1E, 0x1F, 0x20, 0x85, 0xA0, 0x1680,
                                       0x2000, 0x2001, 0x2002, 0x2003, 0x2004, 0x2005, 0x2006, 0x2007, 0x2008, 0x2009, 0x200A,
                                       0x2028, 0x2029, 0x202F, 0x205F, 0x3000}
  {}

  // ---- upper case, for ASCII letters ----

  function UpperChar(c: char): char { if 'a' <= c <= 'z' then c - 'a' + 'A' else c }

  function Upper(s: string): string { if s == "" then "" else [UpperChar(s[0])] + Upper(s[1..]) }

  lemma {:induction false} UpperIs(s: string)
    ensures |Upper(s)| == |s|
    ensures forall i :: 0 <= i < |s| ==> Upper(s)[i] as int == if 97 <= s[i] as int < 123 then s[i] as int - 32 else s[i] as int
  {
    if s != "" { UpperIs(s[1..]); }
  }
}

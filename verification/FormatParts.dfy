/** How each part of a formatted integer depends on the conversion: width, sign, `#`, precision and grouping, one
    after the other down to a plain number. */
module FormatParts {
  import opened Basics
  import opened Format
  import opened FormatLaws

  // ---------------------------------------------------------------- width

  lemma {:induction false} DigitsDependOnGroup(v: nat, cnt: nat, b: IntegerBase, c: Conversion, e: Conversion)
    requires IsBase(b) && c.flags.group == e.flags.group
    ensures Digits(v, cnt, b, c) == Digits(v, cnt, b, e)
  {
    if v > 0 {
      DigitsDependOnGroup(Quotient(v, b), cnt + 1, b, c, e);
    }
  }

  lemma BufferIsSame(value: nat, b: IntegerBase, c: Conversion, e: Conversion)
    requires IsBase(b) && c.precision == e.precision && c.flags.group == e.flags.group
    requires c.flags.pound == e.flags.pound || b.base != 8
    ensures Buffer(value, b, c) == Buffer(value, b, e)
  {
    DigitsDependOnGroup(value, 0, b, c, e);
    hide Digits, Padded;
  }

  lemma Unpadded(value: nat, isSigned: bool, negative: bool, b: IntegerBase, c: Conversion)
    requires IsBase(b) && c.width <= 0
    ensures Text(value, isSigned, negative, b, c) ==
            Sign(isSigned, negative, c) + Prefix(value, b, c) + Reverse(Buffer(value, b, c))
  {
    hide Buffer, Reverse, Sign, Prefix, IsBase;
    assert Pad(value, isSigned, negative, b, c) == 0;
    assert Spaces(0) == "" && Zeros(0) == "";
  }

  /** A width adds what is missing: spaces on the left, or zeros after sign and prefix, or spaces on the right. */
  lemma WidthPads(value: nat, isSigned: bool, negative: bool, b: IntegerBase, c: Conversion)
    requires IsBase(b)
    ensures var t := Text(value, isSigned, negative, b, c.(width := 0));
            var n := if c.width > |t| then c.width - |t| else 0;
            var k := (if isSigned && (negative || c.flags.plus || c.flags.space) then 1 else 0)
                     + (if c.flags.pound && value != 0 && b.base == 16 then 2 else 0);
            && k <= |t|
            && Text(value, isSigned, negative, b, c) ==
               (if c.flags.minus || c.flags.zero then "" else Spaces(n)) + t[..k] + (if c.flags.zero then Zeros(n) else "")
               + t[k..] + (if c.flags.minus then Spaces(n) else "")
  {
    hide *;
    UnpaddedText(value, isSigned, negative, b, c);
    PadIs(value, isSigned, negative, b, c);
    TextPadded(value, isSigned, negative, b, c);
    HeadLength(value, isSigned, negative, b, c);
    Halves(Head(value, isSigned, negative, b, c), Reverse(Buffer(value, b, c)));
  }

  function Head(value: nat, isSigned: bool, negative: bool, b: IntegerBase, c: Conversion): string {
    Sign(isSigned, negative, c) + Prefix(value, b, c)
  }

  lemma UnpaddedText(value: nat, isSigned: bool, negative: bool, b: IntegerBase, c: Conversion)
    requires IsBase(b)
    ensures Text(value, isSigned, negative, b, c.(width := 0)) ==
            Head(value, isSigned, negative, b, c) + Reverse(Buffer(value, b, c))
  {
    var u := c.(width := 0);
    Unpadded(value, isSigned, negative, b, u);
    BufferIsSame(value, b, c, u);
    hide Buffer, Reverse, Text, IsBase;
  }

  lemma Halves(head: string, number: string)
    ensures (head + number)[..|head|] == head && (head + number)[|head|..] == number
  {
  }

  lemma PadIs(value: nat, isSigned: bool, negative: bool, b: IntegerBase, c: Conversion)
    requires IsBase(b)
    ensures var n := |Head(value, isSigned, negative, b, c) + Reverse(Buffer(value, b, c))|;
            Pad(value, isSigned, negative, b, c) == if c.width > n then c.width - n else 0
  {
    hide Sign, Prefix, Buffer;
  }

  lemma TextPadded(value: nat, isSigned: bool, negative: bool, b: IntegerBase, c: Conversion)
    requires IsBase(b)
    ensures var pad := Pad(value, isSigned, negative, b, c);
            Text(value, isSigned, negative, b, c) ==
            (if c.flags.minus || c.flags.zero then "" else Spaces(pad)) + Head(value, isSigned, negative, b, c)
            + (if c.flags.zero then Zeros(pad) else "") + Reverse(Buffer(value, b, c))
            + (if c.flags.minus then Spaces(pad) else "")
  {
    hide Buffer, Reverse, Sign, Prefix, IsBase, Pad, Spaces, Zeros;
    var l := if c.flags.minus || c.flags.zero then "" else Spaces(Pad(value, isSigned, negative, b, c));
    Regroup(l, Sign(isSigned, negative, c), Prefix(value, b, c));
  }

  lemma HeadLength(value: nat, isSigned: bool, negative: bool, b: IntegerBase, c: Conversion)
    requires IsBase(b)
    ensures |Head(value, isSigned, negative, b, c)| ==
            (if isSigned && (negative || c.flags.plus || c.flags.space) then 1 else 0)
            + (if c.flags.pound && value != 0 && b.base == 16 then 2 else 0)
  {
  }

  // ---------------------------------------------------------------- sign and `#`

  /** Before any padding, a signed conversion puts one sign at most in front of the unsigned one: minus, plus or a
      space, the first that applies. */
  lemma SignLeads(value: nat, isSigned: bool, negative: bool, b: IntegerBase, c: Conversion)
    requires IsBase(b)
    ensures var u := c.(width := 0);
            Text(value, isSigned, negative, b, u) ==
            (if !isSigned then "" else if negative then "-" else if c.flags.plus then "+"
             else if c.flags.space then " " else "")
            + Text(value, false, false, b, u)
  {
    var u := c.(width := 0);
    Unpadded(value, isSigned, negative, b, u);
    Unpadded(value, false, false, b, u);
    hide Buffer, Reverse, Prefix, IsBase, Text;
    assert "" + Prefix(value, b, u) == Prefix(value, b, u);
  }

  /** `#` puts 0x or 0X in front of a hexadecimal number that is not 0 and a zero in front of an octal one that does
      not begin with a zero; it does nothing else. */
  lemma PoundMarks(value: nat, b: IntegerBase, c: Conversion)
    requires IsBase(b) && c.flags.pound
    ensures var u := c.(width := 0);
            var plain := Text(value, false, false, b, u.(flags := c.flags.(pound := false)));
            Text(value, false, false, b, u) ==
            (if b.base == 16 && value != 0 then (if b == BASE_X then "0x" else "0X")
             else if b.base == 8 && (plain == "" || plain[0] != '0') then "0" else "") + plain
  {
    hide *;
    var u := c.(width := 0);
    var w := u.(flags := c.flags.(pound := false));
    MarkedText(value, b, u);
    MarkedText(value, b, w);
    PlainBuffer(value, b, u, w);
    var s := Buffer(value, b, w);
    ReverseConcat(s, "0");
    ReverseFirst(s);
    ReverseZero();
    Nothing(Reverse(s));
    Nothing(Reverse(Buffer(value, b, u)));
  }

  lemma ReverseZero()
    ensures Reverse("0") == "0"
  {
    assert "0"[1..] == "";
  }

  lemma Nothing(s: string)
    ensures "" + s == s && "" + "" + s == s
  {
  }

  /** An unsigned number before any padding. */
  lemma MarkedText(value: nat, b: IntegerBase, c: Conversion)
    requires IsBase(b) && c.width == 0
    ensures Text(value, false, false, b, c) ==
            (if c.flags.pound && b.base == 16 && value != 0 then (if b == BASE_X then "0x" else "0X") else "")
            + Reverse(Buffer(value, b, c))
    ensures b.base == 8 || b.base == 10 || b.base == 16
  {
    Unpadded(value, false, false, b, c);
    assert "" + Prefix(value, b, c) == Prefix(value, b, c);
    hide Buffer, Reverse, Text;
  }

  lemma PlainBuffer(value: nat, b: IntegerBase, c: Conversion, e: Conversion)
    requires IsBase(b) && c.precision == e.precision && c.flags.group == e.flags.group && c.flags.pound && !e.flags.pound
    ensures var s := Buffer(value, b, e);
            Buffer(value, b, c) == if b.base == 8 && (s == "" || s[|s| - 1] != '0') then s + "0" else s
  {
    DigitsDependOnGroup(value, 0, b, c, e);
    hide Digits, Padded;
  }

  lemma {:induction false} ReverseFirst(s: string)
    ensures s != "" ==> Reverse(s) != "" && Reverse(s)[0] == s[|s| - 1]
    ensures s == "" ==> Reverse(s) == ""
  {
    if |s| > 1 {
      ReverseFirst(s[1..]);
    }
  }

  // ---------------------------------------------------------------- precision

  function Pow(base: nat, n: nat): nat {
    if n == 0 then 1 else base * Pow(base, n - 1)
  }

  /** `n` is the number of digits of `value`, which is 0 for 0. */
  ghost predicate HasDigits(value: nat, base: nat, n: nat) {
    value < Pow(base, n) && (n > 0 ==> value >= Pow(base, n - 1))
  }

  lemma {:induction false} DigitsAreCounted(v: nat, cnt: nat, b: IntegerBase, c: Conversion)
    requires IsBase(b) && !c.flags.group
    ensures HasDigits(v, b.base, |Digits(v, cnt, b, c)|)
  {
    if v > 0 {
      DigitsAreCounted(Quotient(v, b), cnt + 1, b, c);
      DivideAgain(v, b);
      OneMoreDigit(v, b, |Digits(Quotient(v, b), cnt + 1, b, c)|);
    }
  }

  lemma OneMoreDigit(v: nat, b: IntegerBase, n: nat)
    requires IsBase(b) && v > 0 && HasDigits(Quotient(v, b), b.base, n)
    ensures HasDigits(v, b.base, n + 1)
  {
    if n == 0 {
      assert Pow(b.base, 1) == b.base * Pow(b.base, 0);
    } else {
      assert Pow(b.base, n) == b.base * Pow(b.base, n - 1);
      assert Pow(b.base, n + 1) == b.base * Pow(b.base, n);
    }
  }

  /** The characters of a number in this base, commas aside. */
  ghost predicate OfBase(ch: char, b: IntegerBase) {
    if b.base == 8 then '0' <= ch <= '7'
    else if b.base == 10 then '0' <= ch <= '9'
    else '0' <= ch <= '9' || if b == BASE_X then 'a' <= ch <= 'f' else 'A' <= ch <= 'F'
  }

  ghost predicate AllOfBase(s: string, b: IntegerBase) {
    forall i :: 0 <= i < |s| ==> OfBase(s[i], b)
  }

  lemma DigitIsOfBase(v: nat, b: IntegerBase)
    requires IsBase(b)
    ensures OfBase(LastDigit(v, b), b)
  {
    assert forall n :: 0 <= n < b.base ==> OfBase(b.digits[n], b);
  }

  lemma {:induction false} DigitsAreOfBase(v: nat, cnt: nat, b: IntegerBase, c: Conversion)
    requires IsBase(b) && !c.flags.group
    ensures AllOfBase(Digits(v, cnt, b, c), b)
  {
    if v > 0 {
      DigitIsOfBase(v, b);
      DigitsAreOfBase(Quotient(v, b), cnt + 1, b, c);
    }
  }

  lemma {:induction false} ReverseOfBase(s: string, b: IntegerBase)
    requires AllOfBase(s, b)
    ensures AllOfBase(Reverse(s), b)
  {
    if s != "" {
      ReverseOfBase(s[1..], b);
    }
  }

  /** A plain number has only digits of its base, and as many as its value or its precision needs, whichever is more,
      up to 63: a precision that is not given is 1, and under precision 0 the value 0 is nothing at all. */
  lemma PlainNumber(value: nat, b: IntegerBase, c: Conversion)
    requires IsBase(b) && value <= UINTMAX
    ensures var t := Text(value, false, false, b, c.(width := 0, flags := c.flags.(pound := false, group := false)));
            var p := if c.precision < 0 then 1 else if c.precision > 63 then 63 else c.precision;
            && AllOfBase(t, b) && Eval(0, t, b.base) == value
            && exists n: nat :: HasDigits(value, b.base, n) && |t| == if n < p then p else n
  {
    var e := c.(width := 0, flags := c.flags.(pound := false, group := false));
    var d := Digits(value, 0, b, e);
    TextReadsBack(value, false, false, b, e);
    Unpadded(value, false, false, b, e);
    DigitsAreCounted(value, 0, b, e);
    DigitsAreOfBase(value, 0, b, e);
    assert AllOfBase(Buffer(value, b, e), b) by {
      hide Digits;
    }
    ReverseOfBase(Buffer(value, b, e), b);
    assert HasDigits(value, b.base, |d|);
    hide Digits, Eval, HasDigits, AllOfBase, Reverse, Text;
    assert Sign(false, false, e) + Prefix(value, b, e) == "";
    assert "" + Reverse(Buffer(value, b, e)) == Reverse(Buffer(value, b, e));
  }

  /** Nothing is left in the buffer exactly for 0 under precision 0, unless `#` makes it an octal zero. */
  lemma EmptyIff(value: nat, b: IntegerBase, c: Conversion)
    requires IsBase(b)
    ensures Buffer(value, b, c) == "" <==> value == 0 && c.precision == 0 && !(c.flags.pound && b.base == 8)
    ensures value == 0 && c.precision < 0 ==> Buffer(value, b, c) == "0"
  {
    if value > 0 {
      DigitsStep(value, 0, b, c);
      hide Digits;
    } else {
      assert Digits(value, 0, b, c) == "";
      assert Zeros(1) == "0";
    }
  }

  /** Digits and commas are filled up with zeros to the precision, 63 characters at most, and no further. */
  lemma FilledToPrecision(value: nat, b: IntegerBase, c: Conversion)
    requires IsBase(b) && !(c.flags.pound && b.base == 8)
    ensures var d := |Digits(value, 0, b, c)|;
            var p := if c.precision < 0 then 1 else if c.precision > 63 then 63 else c.precision;
            |Buffer(value, b, c)| == if d < p then p else d
  {
    hide Digits;
  }

  // ---------------------------------------------------------------- grouping

  function WithoutCommas(s: string): string {
    if s == "" then "" else (if s[0] == ',' then "" else [s[0]]) + WithoutCommas(s[1..])
  }

  lemma {:induction false} WithoutConcat(s: string, t: string)
    ensures WithoutCommas(s + t) == WithoutCommas(s) + WithoutCommas(t)
  {
    if s == "" {
      assert s + t == t;
    } else {
      assert (s + t)[1..] == s[1..] + t;
      WithoutConcat(s[1..], t);
    }
  }

  lemma {:induction false} NothingToTakeOut(s: string)
    requires forall i :: 0 <= i < |s| ==> s[i] != ','
    ensures WithoutCommas(s) == s
  {
    if s != "" {
      NothingToTakeOut(s[1..]);
    }
  }

  /** How many of the first `n` digits have a comma before them. */
  function CommasAmong(n: nat, base: nat): nat {
    if n == 0 then 0 else if base == 16 then (n - 1) / 4 else (n - 1) / 3
  }

  /** GROUP inserts commas and changes no digit: one for every three digits that others follow, or four in base 16. */
  lemma {:induction false} GroupInserts(v: nat, cnt: nat, b: IntegerBase, c: Conversion, e: Conversion)
    requires IsBase(b) && c.flags.group && !e.flags.group
    ensures WithoutCommas(Digits(v, cnt, b, c)) == Digits(v, cnt, b, e)
    ensures Commas(Digits(v, cnt, b, c)) == CommasAmong(cnt + |Digits(v, cnt, b, e)|, b.base) - CommasAmong(cnt, b.base)
  {
    hide *;
    if v == 0 {
      NoDigitsLeft(cnt, b, c);
      NoDigitsLeft(cnt, b, e);
      FewCommas(b.base);
    } else {
      DigitsStep(v, cnt, b, c);
      DigitsStep(v, cnt, b, e);
      var rest := Digits(Quotient(v, b), cnt + 1, b, c);
      GroupInserts(Quotient(v, b), cnt + 1, b, c, e);
      OneInserted(v, cnt, b, c, e);
      WithoutConcat(OneDigit(v, cnt, b, c), rest);
      CommasAdd(OneDigit(v, cnt, b, c), rest);
    }
  }

  lemma OneInserted(v: nat, cnt: nat, b: IntegerBase, c: Conversion, e: Conversion)
    requires IsBase(b) && c.flags.group && !e.flags.group
    ensures WithoutCommas(OneDigit(v, cnt, b, c)) == OneDigit(v, cnt, b, e) && |OneDigit(v, cnt, b, e)| == 1
    ensures Commas(OneDigit(v, cnt, b, c)) == CommasAmong(cnt + 1, b.base) - CommasAmong(cnt, b.base)
  {
    LastDigitIsNoComma(v, b);
    CommaDue(cnt, b, c);
    var d := LastDigit(v, b);
    assert OneDigit(v, cnt, b, e) == [d];
    assert OneDigit(v, cnt, b, c) == if CommasAmong(cnt + 1, b.base) > CommasAmong(cnt, b.base) then [',', d] else [d];
    hide *;
    Taken(d);
  }

  lemma CommaDue(cnt: nat, b: IntegerBase, c: Conversion)
    requires IsBase(b) && c.flags.group
    ensures Comma(cnt, b, c) == if CommasAmong(cnt + 1, b.base) > CommasAmong(cnt, b.base) then "," else ""
    ensures CommasAmong(cnt, b.base) <= CommasAmong(cnt + 1, b.base) <= CommasAmong(cnt, b.base) + 1
  {
  }

  lemma Taken(d: char)
    requires d != ','
    ensures WithoutCommas([d]) == [d] == WithoutCommas([',', d]) && Commas([d]) == 0 && Commas([',', d]) == 1
  {
    assert [d][1..] == "" && [',', d][1..] == [d];
  }

  /** A number that its precision does not fill up: without its commas it is the number without GROUP. */
  lemma GroupedText(value: nat, b: IntegerBase, c: Conversion)
    requires IsBase(b) && c.flags.group && c.precision <= 1
    ensures var u := c.(width := 0, flags := c.flags.(pound := false));
            var t := Text(value, false, false, b, u);
            var plain := Text(value, false, false, b, u.(flags := u.flags.(group := false)));
            WithoutCommas(t) == plain && Commas(t) == CommasAmong(|plain|, b.base)
  {
    hide *;
    var u := c.(width := 0, flags := c.flags.(pound := false));
    var e := u.(flags := u.flags.(group := false));
    GroupInserts(value, 0, b, u, e);
    ShortBuffer(value, b, u);
    ShortBuffer(value, b, e);
    MarkedText(value, b, u);
    MarkedText(value, b, e);
    ReverseZero();
    ReverseFirst("");
    var d := Digits(value, 0, b, u);
    Nothing(Reverse(Buffer(value, b, u)));
    Nothing(Reverse(Buffer(value, b, e)));
    WithoutReverse(d);
    FewCommas(b.base);
  }

  lemma FewCommas(base: nat)
    ensures CommasAmong(0, base) == CommasAmong(1, base) == 0
    ensures WithoutCommas("0") == "0" && Commas("0") == 0 && WithoutCommas("") == "" && Commas("") == 0
  {
    assert "0"[1..] == "";
  }

  lemma ShortBuffer(value: nat, b: IntegerBase, c: Conversion)
    requires IsBase(b) && !c.flags.pound && c.precision <= 1
    ensures Buffer(value, b, c) == if value == 0 then (if c.precision == 0 then "" else "0") else Digits(value, 0, b, c)
  {
    var d := Digits(value, 0, b, c);
    if value > 0 {
      DigitsStep(value, 0, b, c);
      assert d + "" == d;
    }
    hide Digits;
    assert Zeros(1) == "0" && Zeros(0) == "" && Zeros(1 - |d|) == if |d| == 0 then "0" else "";
  }

  lemma {:induction false} WithoutReverse(s: string)
    ensures WithoutCommas(Reverse(s)) == Reverse(WithoutCommas(s)) && Commas(Reverse(s)) == Commas(s)
  {
    if s != "" {
      WithoutReverse(s[1..]);
      WithoutConcat(Reverse(s[1..]), [s[0]]);
      CommasAdd(Reverse(s[1..]), [s[0]]);
      var r := WithoutCommas(s[1..]);
      assert [s[0]][1..] == "";
      assert ([s[0]] + r)[1..] == r;
      assert WithoutCommas([s[0]]) == if s[0] == ',' then "" else [s[0]];
      assert WithoutCommas(s) == if s[0] == ',' then r else [s[0]] + r;
      assert Reverse(r) + "" == Reverse(r);
    }
  }
}

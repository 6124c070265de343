/** What a formatted integer tells its reader. */
module FormatLaws {
  import opened Basics
  import opened Format

  // ---------------------------------------------------------------- reading it back

  function DigitVal(ch: char, base: nat): Option<nat> {
    if '0' <= ch <= '9' && (ch as int - '0' as int) < base then Some(ch as int - '0' as int)
    else if base == 16 && 'a' <= ch <= 'f' then Some(ch as int - 'a' as int + 10)
    else if base == 16 && 'A' <= ch <= 'F' then Some(ch as int - 'A' as int + 10)
    else None
  }

  /** The number that the digits of `s` spell after those of `acc`; all other characters are skipped. */
  function Eval(acc: nat, s: string, base: nat): nat
    decreases |s|
  {
    if s == "" then acc
    else match DigitVal(s[0], base)
         case Some(d) => Eval(acc * base + d, s[1..], base)
         case None => Eval(acc, s[1..], base)
  }

  lemma {:induction false} EvalConcat(acc: nat, s: string, t: string, base: nat)
    ensures Eval(acc, s + t, base) == Eval(Eval(acc, s, base), t, base)
    decreases |s|
  {
    if s == "" {
      assert s + t == t;
    } else {
      assert (s + t)[1..] == s[1..] + t;
      match DigitVal(s[0], base)
      case Some(d) => EvalConcat(acc * base + d, s[1..], t, base);
      case None => EvalConcat(acc, s[1..], t, base);
    }
  }

  lemma {:induction false} EvalOthers(acc: nat, s: string, base: nat)
    requires forall i :: 0 <= i < |s| ==> DigitVal(s[i], base) == None
    ensures Eval(acc, s, base) == acc
  {
    if s != "" {
      EvalOthers(acc, s[1..], base);
    }
  }

  lemma {:induction false} EvalZeros(s: string, base: nat)
    requires base >= 1 && forall i :: 0 <= i < |s| ==> s[i] == '0'
    ensures Eval(0, s, base) == 0
  {
    if s != "" {
      EvalZeros(s[1..], base);
    }
  }

  lemma {:induction false} ReverseConcat(s: string, t: string)
    ensures Reverse(s + t) == Reverse(t) + Reverse(s)
  {
    if s == "" {
      assert s + t == t;
    } else {
      ReverseConcat(s[1..], t);
      assert (s + t)[1..] == s[1..] + t;
    }
  }

  lemma {:induction false} ReverseZeros(s: string)
    requires forall i :: 0 <= i < |s| ==> s[i] == '0'
    ensures forall i :: 0 <= i < |Reverse(s)| ==> Reverse(s)[i] == '0'
  {
    if s != "" {
      ReverseZeros(s[1..]);
    }
  }

  lemma DigitReads(n: nat, b: IntegerBase)
    requires IsBase(b) && n < b.base
    ensures n < |b.digits| && DigitVal(b.digits[n], b.base) == Some(n)
  {
  }

  lemma ReverseOne(v: nat, cnt: nat, b: IntegerBase, c: Conversion)
    requires IsBase(b)
    ensures Reverse(OneDigit(v, cnt, b, c)) == [LastDigit(v, b)] + Comma(cnt, b, c)
  {
    var d := LastDigit(v, b);
    if Comma(cnt, b, c) == "" {
      assert OneDigit(v, cnt, b, c) == [d];
      assert [d][1..] == "";
    } else {
      assert OneDigit(v, cnt, b, c) == [',', d];
      assert [',', d][1..] == [d] && [d][1..] == "";
    }
  }

  /** Divided and multiplied again. */
  lemma EvalOne(acc: nat, v: nat, cnt: nat, b: IntegerBase, c: Conversion)
    requires IsBase(b)
    ensures Eval(acc, Reverse(OneDigit(v, cnt, b, c)), b.base) == acc * b.base + v % b.base
  {
    DigitReads(v % b.base, b);
    ReverseOne(v, cnt, b, c);
    var d := LastDigit(v, b);
    EvalConcat(acc, [d], Comma(cnt, b, c), b.base);
    assert [d][1..] == "";
    EvalOthers(acc * b.base + v % b.base, Comma(cnt, b, c), b.base);
  }

  lemma DivideAgain(v: nat, b: IntegerBase)
    requires IsBase(b)
    ensures Quotient(v, b) * b.base + v % b.base == v
  {
  }

  lemma {:induction false} DigitsRead(v: nat, cnt: nat, b: IntegerBase, c: Conversion)
    requires IsBase(b)
    ensures Eval(0, Reverse(Digits(v, cnt, b, c)), b.base) == v
  {
    if v == 0 {
      NoDigitsLeft(cnt, b, c);
    } else {
      DigitsStep(v, cnt, b, c);
      DivideAgain(v, b);
      DigitsRead(Quotient(v, b), cnt + 1, b, c);
      hide *;
      var rest := Digits(Quotient(v, b), cnt + 1, b, c);
      ReverseConcat(OneDigit(v, cnt, b, c), rest);
      EvalConcat(0, Reverse(rest), Reverse(OneDigit(v, cnt, b, c)), b.base);
      EvalOne(Quotient(v, b), v, cnt, b, c);
    }
  }

  lemma BufferIs(value: nat, b: IntegerBase, c: Conversion)
    requires IsBase(b)
    ensures exists n: nat :: Buffer(value, b, c) == Digits(value, 0, b, c) + Zeros(n)
  {
    var d := Digits(value, 0, b, c);
    var n := Min(Precision(c), BUF_SIZE - 1) - |d|;
    var k := if n < 0 then 0 else n;
    assert Zeros(n) == Zeros(k);
    assert d + Zeros(k) + "0" == d + Zeros(k + 1);
    hide Digits;
    if Buffer(value, b, c) == Padded(d, Precision(c)) {
      assert Buffer(value, b, c) == d + Zeros(k);
    } else {
      assert Buffer(value, b, c) == d + Zeros(k + 1);
    }
  }

  lemma BufferReads(value: nat, b: IntegerBase, c: Conversion)
    requires IsBase(b)
    ensures Eval(0, Reverse(Buffer(value, b, c)), b.base) == value
  {
    BufferIs(value, b, c);
    var d := Digits(value, 0, b, c);
    var n: nat :| Buffer(value, b, c) == d + Zeros(n);
    hide Buffer, Digits;
    ReverseConcat(d, Zeros(n));
    ReverseZeros(Zeros(n));
    assert b.base >= 1;
    EvalConcat(0, Reverse(Zeros(n)), Reverse(d), b.base);
    EvalZeros(Reverse(Zeros(n)), b.base);
    DigitsRead(value, 0, b, c);
  }

  lemma SignIsNoDigit(isSigned: bool, negative: bool, c: Conversion, base: nat)
    ensures Eval(0, Sign(isSigned, negative, c), base) == 0
  {
    EvalOthers(0, Sign(isSigned, negative, c), base);
  }

  lemma PrefixIsNothing(value: nat, b: IntegerBase, c: Conversion)
    requires IsBase(b)
    ensures Eval(0, Prefix(value, b, c), b.base) == 0
  {
    var s := Prefix(value, b, c);
    if s != "" {
      var x := [b.x.value];
      assert s == "0" + x;
      EvalConcat(0, "0", x, b.base);
      EvalZeros("0", b.base);
      EvalOthers(0, x, b.base);
    }
  }

  lemma EvalSpaces(acc: nat, n: int, base: nat)
    ensures Eval(acc, Spaces(n), base) == acc
  {
    EvalOthers(acc, Spaces(n), base);
  }

  /** The text between the leading spaces and the trailing ones. */
  lemma TextParts(value: nat, isSigned: bool, negative: bool, b: IntegerBase, c: Conversion)
    requires IsBase(b)
    ensures var pad := Pad(value, isSigned, negative, b, c);
            Text(value, isSigned, negative, b, c) ==
            Spaces(if !c.flags.minus && !c.flags.zero then pad else 0) + (Sign(isSigned, negative, c)
            + (Prefix(value, b, c) + (Zeros(if c.flags.zero then pad else 0)
            + (Reverse(Buffer(value, b, c)) + Spaces(if c.flags.minus then pad else 0)))))
  {
    hide Buffer, Reverse, Sign, Prefix, Pad, IsBase;
    assert Spaces(0) == "" && Zeros(0) == "";
  }

  /** For every value, base and conversion: reading the digits back gives the value. */
  lemma TextReadsBack(value: nat, isSigned: bool, negative: bool, b: IntegerBase, c: Conversion)
    requires IsBase(b)
    ensures Eval(0, Text(value, isSigned, negative, b, c), b.base) == value
  {
    var pad := Pad(value, isSigned, negative, b, c);
    var l, r, z := if !c.flags.minus && !c.flags.zero then pad else 0, if c.flags.minus then pad else 0, if c.flags.zero then pad else 0;
    assert b.base >= 1;
    TextParts(value, isSigned, negative, b, c);
    hide *;
    var body, sign, prefix := Reverse(Buffer(value, b, c)), Sign(isSigned, negative, c), Prefix(value, b, c);
    BufferReads(value, b, c);
    SignIsNoDigit(isSigned, negative, c, b.base);
    PrefixIsNothing(value, b, c);
    EvalSpaces(value, r, b.base);
    EvalSpaces(0, l, b.base);
    EvalZeros(Zeros(z), b.base);
    EvalConcat(0, body, Spaces(r), b.base);
    EvalConcat(0, Zeros(z), body + Spaces(r), b.base);
    EvalConcat(0, prefix, Zeros(z) + (body + Spaces(r)), b.base);
    EvalConcat(0, sign, prefix + (Zeros(z) + (body + Spaces(r))), b.base);
    EvalConcat(0, Spaces(l), sign + (prefix + (Zeros(z) + (body + Spaces(r)))), b.base);
  }

  // ---------------------------------------------------------------- its length

  /** The text is as long as its width or its body, whichever is longer, unless MINUS and ZERO pad it on both sides. */
  lemma LengthIff(value: nat, isSigned: bool, negative: bool, b: IntegerBase, c: Conversion)
    requires IsBase(b)
    ensures var body := BodyLength(value, isSigned, negative, b, c);
            |Text(value, isSigned, negative, b, c)| == (if c.width > body then c.width else body)
            <==> !(c.flags.minus && c.flags.zero) || c.width <= body
  {
    TextParts(value, isSigned, negative, b, c);
    hide Buffer, Reverse, Sign, Prefix, Text;
  }

  // ---------------------------------------------------------------- its sign

  ghost predicate NoMinus(s: string) {
    forall i :: 0 <= i < |s| ==> s[i] != '-'
  }

  lemma {:induction false} DigitsHaveNoMinus(v: nat, cnt: nat, b: IntegerBase, c: Conversion)
    requires IsBase(b)
    ensures NoMinus(Digits(v, cnt, b, c))
  {
    if v > 0 {
      DigitsHaveNoMinus(Quotient(v, b), cnt + 1, b, c);
      DigitsStep(v, cnt, b, c);
      assert forall n :: 0 <= n < |b.digits| ==> b.digits[n] != '-';
      assert NoMinus(OneDigit(v, cnt, b, c));
    }
  }

  lemma {:induction false} ReverseHasNoMinus(s: string)
    requires NoMinus(s)
    ensures NoMinus(Reverse(s))
  {
    if s != "" {
      ReverseHasNoMinus(s[1..]);
    }
  }

  /** There is a minus sign exactly for negative numbers in signed conversions. */
  lemma MinusIffNegative(value: nat, isSigned: bool, negative: bool, b: IntegerBase, c: Conversion)
    requires IsBase(b)
    ensures NoMinus(Text(value, isSigned, negative, b, c)) <==> !(isSigned && negative)
  {
    DigitsHaveNoMinus(value, 0, b, c);
    BufferIs(value, b, c);
    var n: nat :| Buffer(value, b, c) == Digits(value, 0, b, c) + Zeros(n);
    ReverseHasNoMinus(Buffer(value, b, c));
    TextParts(value, isSigned, negative, b, c);
    assert NoMinus(Prefix(value, b, c));
    hide Buffer, Reverse, Prefix, Text, Digits, IsBase, Pad, Spaces, Zeros;
    SignInText(value, isSigned, negative, b, c);
  }

  lemma SignInText(value: nat, isSigned: bool, negative: bool, b: IntegerBase, c: Conversion)
    requires IsBase(b) && NoMinus(Prefix(value, b, c)) && NoMinus(Reverse(Buffer(value, b, c)))
    ensures NoMinus(Text(value, isSigned, negative, b, c)) <==> !(isSigned && negative)
  {
    TextParts(value, isSigned, negative, b, c);
    var pad := Pad(value, isSigned, negative, b, c);
    var l := if !c.flags.minus && !c.flags.zero then pad else 0;
    hide Buffer, Reverse, Prefix, Text, IsBase, Pad;
    if isSigned && negative {
      assert Text(value, isSigned, negative, b, c)[l] == '-';
    }
  }

  // ---------------------------------------------------------------- grouping and precision

  /** Read from the last digit: `left` digits, then a comma, then `group` digits, a comma, and so on; no comma comes
      last. */
  ghost predicate Grouped(s: string, left: int, group: nat)
    decreases |s|
  {
    s == "" ||
    if left == 0 then s[0] == ',' && |s| > 1 && s[1] != ',' && Grouped(s[1..], group, group)
    else s[0] != ',' && Grouped(s[1..], left - 1, group)
  }

  /** How many digits follow before the next comma. */
  ghost function Until(cnt: nat, group: nat): int
    requires group > 0
  {
    if cnt == 0 then group else if cnt % group == 0 then 0 else group - cnt % group
  }

  lemma UntilNext(cnt: nat, group: nat)
    requires group == 3 || group == 4
    ensures Until(cnt, group) > 0 ==> Until(cnt + 1, group) == Until(cnt, group) - 1
    ensures Until(cnt, group) == 0 ==> Until(cnt + 1, group) == group - 1
    ensures Until(cnt, group) >= 0
  {
  }

  lemma LastDigitIsNoComma(v: nat, b: IntegerBase)
    requires IsBase(b)
    ensures LastDigit(v, b) != ','
  {
    assert forall n :: 0 <= n < |b.digits| ==> b.digits[n] != ',';
  }

  lemma CommaWhenDue(cnt: nat, b: IntegerBase, c: Conversion)
    requires IsBase(b) && c.flags.group
    ensures Comma(cnt, b, c) == if Until(cnt, b.group) == 0 then "," else ""
  {
  }

  function DigitCount(v: nat, b: IntegerBase): nat
    requires IsBase(b)
    decreases v
  {
    if v == 0 then 0 else 1 + DigitCount(Quotient(v, b), b)
  }

  lemma {:induction false} ZerosAreGroupedIff(n: nat, left: nat, group: nat)
    ensures Grouped(Zeros(n), left, group) <==> n <= left
  {
    if n > 0 {
      assert Zeros(n)[1..] == Zeros(n - 1);
      if left > 0 {
        ZerosAreGroupedIff(n - 1, left - 1, group);
      }
    }
  }

  /** Digits followed by fill zeros, which bring no commas. */
  lemma {:induction false} FilledIsGroupedIff(v: nat, cnt: nat, n: nat, b: IntegerBase, c: Conversion)
    requires IsBase(b) && c.flags.group
    ensures Grouped(Digits(v, cnt, b, c) + Zeros(n), Until(cnt, b.group), b.group) <==>
            n <= Until(cnt + DigitCount(v, b), b.group)
  {
    if v == 0 {
      NoDigitsLeft(cnt, b, c);
      UntilNext(cnt, b.group);
      assert "" + Zeros(n) == Zeros(n);
      ZerosAreGroupedIff(n, Until(cnt, b.group), b.group);
    } else {
      DigitsStep(v, cnt, b, c);
      FilledIsGroupedIff(Quotient(v, b), cnt + 1, n, b, c);
      UntilNext(cnt, b.group);
      LastDigitIsNoComma(v, b);
      CommaWhenDue(cnt, b, c);
      hide Until, Digits, Quotient, LastDigit, Comma, Zeros;
      GroupStep(v, cnt, Digits(Quotient(v, b), cnt + 1, b, c) + Zeros(n), b, c);
      Regroup(OneDigit(v, cnt, b, c), Digits(Quotient(v, b), cnt + 1, b, c), Zeros(n));
    }
  }

  lemma GroupStep(v: nat, cnt: nat, rest: string, b: IntegerBase, c: Conversion)
    requires IsBase(b) && LastDigit(v, b) != ',' && Comma(cnt, b, c) == (if Until(cnt, b.group) == 0 then "," else "")
    requires Until(cnt, b.group) >= 0
    requires Until(cnt, b.group) > 0 ==> Until(cnt + 1, b.group) == Until(cnt, b.group) - 1
    requires Until(cnt, b.group) == 0 ==> Until(cnt + 1, b.group) == b.group - 1
    ensures Grouped(OneDigit(v, cnt, b, c) + rest, Until(cnt, b.group), b.group) <==>
            Grouped(rest, Until(cnt + 1, b.group), b.group)
  {
    hide Until, LastDigit, Comma;
    var one := OneDigit(v, cnt, b, c);
    if Until(cnt, b.group) == 0 {
      assert one == [',', LastDigit(v, b)];
      assert (one + rest)[1..] == [LastDigit(v, b)] + rest;
      assert ([LastDigit(v, b)] + rest)[1..] == rest;
    } else {
      assert one == [LastDigit(v, b)];
      assert (one + rest)[1..] == rest;
    }
  }

  /** With GROUP, digits come in groups. */
  lemma DigitsAreGrouped(v: nat, cnt: nat, b: IntegerBase, c: Conversion)
    requires IsBase(b) && c.flags.group
    ensures Grouped(Digits(v, cnt, b, c), Until(cnt, b.group), b.group)
  {
    FilledIsGroupedIff(v, cnt, 0, b, c);
    UntilNext(cnt + DigitCount(v, b), b.group);
    assert Digits(v, cnt, b, c) + Zeros(0) == Digits(v, cnt, b, c);
  }

  /** The printed number is grouped exactly when the zeros in front of it stay within its first group. */
  lemma NumberIsGroupedIff(value: nat, b: IntegerBase, c: Conversion)
    requires IsBase(b) && c.flags.group
    ensures Grouped(Buffer(value, b, c), b.group, b.group) <==>
            |Buffer(value, b, c)| - |Digits(value, 0, b, c)| <= Until(DigitCount(value, b), b.group)
  {
    BufferIs(value, b, c);
    var n: nat :| Buffer(value, b, c) == Digits(value, 0, b, c) + Zeros(n);
    hide Buffer, Digits, Grouped;
    FilledIsGroupedIff(value, 0, n, b, c);
  }

  function Commas(s: string): nat {
    if s == "" then 0 else Commas(s[1..]) + if s[0] == ',' then 1 else 0
  }

  lemma {:induction false} CommasAdd(s: string, t: string)
    ensures Commas(s + t) == Commas(s) + Commas(t)
  {
    if s == "" {
      assert s + t == t;
    } else {
      assert (s + t)[1..] == s[1..] + t;
      CommasAdd(s[1..], t);
    }
  }

  lemma {:induction false} NoCommas(s: string)
    requires forall i :: 0 <= i < |s| ==> s[i] != ','
    ensures Commas(s) == 0
  {
    if s != "" {
      NoCommas(s[1..]);
    }
  }

  /** The zero that `#` adds to an octal number that does not begin with one. */
  function OctalZero(d: string, b: IntegerBase, c: Conversion): nat {
    if c.flags.pound && b.base == 8 && (d == "" || d[|d| - 1] != '0') then 1 else 0
  }

  /** The precision asks for a number of digits, but commas count toward it, and the buffer limits it: the printed
      number has that many digits exactly when the precision is below 64 and either the number falls short of it and
      has no commas to be counted, or it has the digits by itself, the octal zero included. */
  lemma PrecisionIsMetIff(value: nat, b: IntegerBase, c: Conversion)
    requires IsBase(b) && value <= UINTMAX
    ensures var d, s, p := Digits(value, 0, b, c), Buffer(value, b, c), if c.precision < 0 then 1 else c.precision;
            |s| - Commas(s) >= p <==>
            p <= 63 && if |d| < p then Commas(d) == 0 else |d| - Commas(d) + OctalZero(d, b, c) >= p
  {
    var d, p := Digits(value, 0, b, c), Precision(c);
    var z := Zeros(Min(p, BUF_SIZE - 1) - |d|);
    BufferFits(value, b, c);
    NoCommas(z);
    hide Digits;
    CommasAdd(d, z);
    CommasAdd(d + z, "0");
  }

  /** `%'.9d` of 1234567 shows seven digits. */
  lemma PrecisionNotMet()
    ensures var c := Conversion(Flags(false, false, false, false, false, true), 0, 9, IntLen);
            Buffer(1234567, BASE_D, c) == "765,432,1" && Precision(c) == 9
  {
    var c := Conversion(Flags(false, false, false, false, false, true), 0, 9, IntLen);
    SevenDigits(c);
  }

  lemma FourDigits(c: Conversion)
    requires c.flags.group
    ensures Digits(123, 4, BASE_D, c) == "32,1"
  {
    assert Digits(0, 7, BASE_D, c) == "";
    assert Digits(1, 6, BASE_D, c) == ",1";
    assert Digits(12, 5, BASE_D, c) == "2" + ",1";
    assert Digits(123, 4, BASE_D, c) == "3" + "2,1";
  }

  lemma SevenDigits(c: Conversion)
    requires c.flags.group && !c.flags.pound && c.precision == 9
    ensures Digits(1234567, 0, BASE_D, c) == "765,432,1" && Buffer(1234567, BASE_D, c) == "765,432,1"
  {
    FourDigits(c);
    assert Digits(1234, 3, BASE_D, c) == ",4" + "32,1";
    assert Digits(12345, 2, BASE_D, c) == "5" + ",432,1";
    assert Digits(123456, 1, BASE_D, c) == "6" + "5,432,1";
    assert Digits(1234567, 0, BASE_D, c) == "7" + "65,432,1";
  }
}

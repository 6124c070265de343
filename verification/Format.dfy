/** Formatting of integers for `printf`. */
module Format {
  import opened Basics

  datatype Flags = Flags(minus: bool, plus: bool, space: bool, pound: bool, zero: bool, group: bool)

  datatype Length = CharLen | ShortLen | IntLen | IntmaxLen | LongLen | LongLongLen | PtrdiffLen | SizeLen

  /** A negative precision means that none was given. */
  datatype Conversion = Conversion(flags: Flags, width: int, precision: int, length: Length)

  datatype IntegerBase = IntegerBase(base: nat, digits: string, x: Option<char>, group: nat)

  const BASE_D := IntegerBase(10, "0123456789", None, 3)
  const BASE_O := IntegerBase(8, "01234567", None, 3)
  const BASE_X := IntegerBase(16, "0123456789abcdef", Some('x'), 4)
  const BASE_UPPER_X := IntegerBase(16, "0123456789ABCDEF", Some('X'), 4)

  const UINTMAX: nat := 0xffff_ffff_ffff_ffff
  const BUF_SIZE: nat := 64

  predicate IsBase(b: IntegerBase) {
    b == BASE_D || b == BASE_O || b == BASE_X || b == BASE_UPPER_X
  }

  // ---------------------------------------------------------------- what is printed

  function Sign(isSigned: bool, negative: bool, c: Conversion): string {
    if !isSigned then ""
    else if negative then "-"
    else if c.flags.plus then "+"
    else if c.flags.space then " "
    else ""
  }

  function Prefix(value: nat, b: IntegerBase, c: Conversion): string {
    if c.flags.pound && value != 0 && b.x.Some? then ['0', b.x.value] else ""
  }

  function Comma(cnt: nat, b: IntegerBase, c: Conversion): string
    requires b.group > 0
  {
    if c.flags.group && cnt > 0 && cnt % b.group == 0 then "," else ""
  }

  function Quotient(value: nat, b: IntegerBase): nat
    requires IsBase(b)
  {
    value / b.base
  }

  function LastDigit(value: nat, b: IntegerBase): char
    requires IsBase(b)
  {
    b.digits[value % b.base]
  }

  /** The digits of `value`, last digit first, when `cnt` digits came before them. */
  function Digits(value: nat, cnt: nat, b: IntegerBase, c: Conversion): string
    requires IsBase(b)
  {
    if value == 0 then ""
    else Comma(cnt, b, c) + [LastDigit(value, b)] + Digits(Quotient(value, b), cnt + 1, b, c)
  }

  function Zeros(n: int): (s: string)
    ensures |s| == (if n < 0 then 0 else n) && forall i :: 0 <= i < |s| ==> s[i] == '0'
  {
    if n <= 0 then "" else Zeros(n - 1) + "0"
  }

  function Spaces(n: int): (s: string)
    ensures |s| == (if n < 0 then 0 else n) && forall i :: 0 <= i < |s| ==> s[i] == ' '
  {
    if n <= 0 then "" else Spaces(n - 1) + " "
  }

  function Precision(c: Conversion): int {
    if c.precision < 0 then 1 else c.precision
  }

  /** The buffer after its digits are filled up with zeros. */
  function Padded(digits: string, precision: int): string {
    digits + Zeros(Min(precision, BUF_SIZE - 1) - |digits|)
  }

  /** The buffer in the end: an octal number under `#` ends in a zero, which is printed first. */
  function Buffer(value: nat, b: IntegerBase, c: Conversion): string
    requires IsBase(b)
  {
    var s := Padded(Digits(value, 0, b, c), Precision(c));
    if c.flags.pound && b.base == 8 && (s == "" || s[|s| - 1] != '0') then s + "0" else s
  }

  function Reverse(s: string): (r: string)
    ensures |r| == |s|
  {
    if s == "" then "" else Reverse(s[1..]) + [s[0]]
  }

  /** Sign, prefix and buffer. */
  function BodyLength(value: nat, isSigned: bool, negative: bool, b: IntegerBase, c: Conversion): nat
    requires IsBase(b)
  {
    |Sign(isSigned, negative, c)| + |Prefix(value, b, c)| + |Buffer(value, b, c)|
  }

  function Pad(value: nat, isSigned: bool, negative: bool, b: IntegerBase, c: Conversion): nat
    requires IsBase(b)
  {
    var n := c.width - BodyLength(value, isSigned, negative, b, c);
    if n < 0 then 0 else n
  }

  function Text(value: nat, isSigned: bool, negative: bool, b: IntegerBase, c: Conversion): string
    requires IsBase(b)
  {
    var pad := Pad(value, isSigned, negative, b, c);
    (if !c.flags.minus && !c.flags.zero then Spaces(pad) else "")
    + Sign(isSigned, negative, c) + Prefix(value, b, c)
    + (if c.flags.zero then Zeros(pad) else "")
    + Reverse(Buffer(value, b, c))
    + (if c.flags.minus then Spaces(pad) else "")
  }

  // ---------------------------------------------------------------- the buffer is large enough

  function Pow8(n: nat): nat {
    if n == 0 then 1 else 8 * Pow8(n - 1)
  }

  lemma {:induction false} DigitsFit(value: nat, cnt: nat, b: IntegerBase, c: Conversion, n: nat)
    requires IsBase(b) && value < Pow8(n)
    ensures |Digits(value, cnt, b, c)| <= 2 * n
  {
    if value > 0 {
      DivideFits(value, b.base, n);
      DigitsFit(Quotient(value, b), cnt + 1, b, c, n - 1);
    }
  }

  lemma DivideFits(value: nat, base: nat, n: nat)
    requires 0 < value < Pow8(n) && (base == 8 || base == 10 || base == 16)
    ensures n > 0 && value / base < Pow8(n - 1)
  {
  }

  lemma BigEnough()
    ensures UINTMAX < Pow8(22)
  {
    assert Pow8(4) == 4096;
    assert Pow8(8) == 4096 * 4096;
    assert Pow8(12) == 4096 * Pow8(8);
    assert Pow8(16) == 4096 * Pow8(12);
    assert Pow8(20) == 4096 * Pow8(16);
  }

  /** The buffer never holds more than 63 of its 64 bytes. */
  lemma BufferFits(value: nat, b: IntegerBase, c: Conversion)
    requires IsBase(b) && value <= UINTMAX
    ensures |Digits(value, 0, b, c)| <= 44 && |Buffer(value, b, c)| <= BUF_SIZE - 1
    ensures |Buffer(value, b, c)| >= Min(if c.precision < 0 then 1 else c.precision, BUF_SIZE - 1)
  {
    BigEnough();
    DigitsFit(value, 0, b, c, 22);
  }

  // ---------------------------------------------------------------- output

  method OutputDup(out: string, ch: char, cnt: nat) returns (r: string)
    requires ch == ' ' || ch == '0'
    ensures r == out + if ch == ' ' then Spaces(cnt) else Zeros(cnt)
  {
    r := out;
    var left := cnt;
    ghost var done := 0;
    while left > 0
      invariant left + done == cnt
      invariant r == out + if ch == ' ' then Spaces(done) else Zeros(done)
    {
      left := left - 1;
      r := r + [ch];
      done := done + 1;
    }
  }

  lemma Regroup(x: string, y: string, z: string)
    ensures x + (y + z) == (x + y) + z
  {
  }

  /** `s` holds all digits but those of `v`. */
  ghost predicate Stored(s: string, v: nat, cnt: nat, value: nat, b: IntegerBase, c: Conversion)
    requires IsBase(b)
  {
    s + Digits(v, cnt, b, c) == Digits(value, 0, b, c) && |s| + |Digits(v, cnt, b, c)| <= 44
  }

  lemma StoredStep(s: string, v: nat, cnt: nat, value: nat, b: IntegerBase, c: Conversion)
    requires IsBase(b) && v > 0 && Stored(s, v, cnt, value, b, c)
    ensures b.base >= 8 && Quotient(v, b) < v && |s| + 2 <= 64
    ensures Stored(s + OneDigit(v, cnt, b, c), Quotient(v, b), cnt + 1, value, b, c)
  {
    DigitsStep(v, cnt, b, c);
    hide Digits, OneDigit, IsBase;
    Regroup(s, OneDigit(v, cnt, b, c), Digits(Quotient(v, b), cnt + 1, b, c));
  }

  lemma StoredAll(s: string, cnt: nat, value: nat, b: IntegerBase, c: Conversion)
    requires IsBase(b) && Stored(s, 0, cnt, value, b, c)
    ensures s == Digits(value, 0, b, c) && |s| <= 44
  {
    NoDigitsLeft(cnt, b, c);
  }

  lemma StoredNothing(value: nat, b: IntegerBase, c: Conversion)
    requires IsBase(b) && |Digits(value, 0, b, c)| <= 44
    ensures Stored("", value, 0, value, b, c)
  {
  }

  /** The digits go into the buffer from the last to the first. */
  method StoreDigits(buf: array<char>, value: nat, b: IntegerBase, c: Conversion) returns (cp: nat)
    requires buf.Length == BUF_SIZE && IsBase(b) && value <= UINTMAX
    modifies buf
    ensures cp <= 44 && buf[..cp] == Digits(value, 0, b, c)
  {
    BufferFits(value, b, c);
    BufSizeIs();
    hide *;
    cp := 0;
    var digitCnt: nat, v: nat := 0, value;
    assert buf[..0] == "";
    StoredNothing(value, b, c);
    while v > 0
      invariant cp <= buf.Length && Stored(buf[..cp], v, digitCnt, value, b, c)
      decreases v
    {
      StoredStep(buf[..cp], v, digitCnt, value, b, c);
      cp := StoreDigit(buf, cp, v, digitCnt, b, c);
      v := Quotient(v, b);
      digitCnt := digitCnt + 1;
    }
    StoredAll(buf[..cp], digitCnt, value, b, c);
  }

  function OneDigit(v: nat, cnt: nat, b: IntegerBase, c: Conversion): string
    requires IsBase(b)
  {
    Comma(cnt, b, c) + [LastDigit(v, b)]
  }

  lemma DigitsStep(v: nat, cnt: nat, b: IntegerBase, c: Conversion)
    requires IsBase(b) && v > 0
    ensures b.base >= 8 && Quotient(v, b) < v && 1 <= |OneDigit(v, cnt, b, c)| <= 2
    ensures Digits(v, cnt, b, c) == OneDigit(v, cnt, b, c) + Digits(Quotient(v, b), cnt + 1, b, c)
  {
  }

  lemma BufSizeIs()
    ensures BUF_SIZE == 64
  {
  }

  lemma NoDigitsLeft(cnt: nat, b: IntegerBase, c: Conversion)
    requires IsBase(b)
    ensures Digits(0, cnt, b, c) == ""
  {
  }

  /** A comma, where one is due, and a digit. */
  method StoreDigit(buf: array<char>, at: nat, v: nat, digitCnt: nat, b: IntegerBase, c: Conversion) returns (cp: nat)
    requires IsBase(b) && at + 2 <= buf.Length
    modifies buf
    ensures cp <= buf.Length && buf[..cp] == old(buf[..at]) + OneDigit(v, digitCnt, b, c)
  {
    ghost var before, comma := buf[..at], Comma(digitCnt, b, c);
    cp := at;
    if c.flags.group && digitCnt > 0 && digitCnt % b.group == 0 {
      buf[cp] := ',';
      cp := cp + 1;
    }
    assert buf[..cp] == before + comma;
    buf[cp] := LastDigit(v, b);
    cp := cp + 1;
    assert buf[..cp] == before + comma + [LastDigit(v, b)];
  }

  lemma ZerosNext(digits: string, n: nat)
    ensures Zeros(n + 1) == Zeros(n) + "0" && digits + Zeros(n + 1) == digits + Zeros(n) + "0"
  {
  }

  lemma PaddedIs(digits: string, precision: int, cp: nat)
    requires |digits| <= cp <= BUF_SIZE - 1 && !(cp < precision && cp < BUF_SIZE - 1) && (cp > |digits| ==> cp <= precision)
    ensures Padded(digits, precision) == digits + Zeros(cp - |digits|)
  {
  }

  lemma BufferIs(value: nat, b: IntegerBase, c: Conversion)
    requires IsBase(b)
    ensures var s := Padded(Digits(value, 0, b, c), Precision(c));
            Buffer(value, b, c) == if c.flags.pound && b.base == 8 && (s == "" || s[|s| - 1] != '0') then s + "0" else s
  {
    hide Digits, Padded;
  }

  /** The whole buffer. */
  method FillBuffer(buf: array<char>, value: nat, b: IntegerBase, c: Conversion) returns (cp: nat)
    requires buf.Length == BUF_SIZE && IsBase(b) && value <= UINTMAX
    modifies buf
    ensures cp <= BUF_SIZE - 1 && buf[..cp] == Buffer(value, b, c)
  {
    hide Digits, Buffer, Padded, Zeros, UINTMAX;
    BufferFits(value, b, c);
    BufferIs(value, b, c);
    cp := StoreDigits(buf, value, b, c);
    ghost var digits := buf[..cp];
    var precision := if c.precision < 0 then 1 else c.precision;
    assert buf[..cp] == digits + Zeros(0);
    while cp < precision && cp < BUF_SIZE - 1
      invariant |digits| <= cp <= BUF_SIZE - 1
      invariant buf[..cp] == digits + Zeros(cp - |digits|)
      invariant cp > |digits| ==> cp <= precision
    {
      ZerosNext(digits, cp - |digits|);
      buf[cp] := '0';
      cp := cp + 1;
      assert buf[..cp] == digits + Zeros(cp - 1 - |digits|) + "0";
    }
    PaddedIs(digits, precision, cp);
    if c.flags.pound && b.base == 8 && (cp == 0 || buf[cp - 1] != '0') {
      buf[cp] := '0';
      cp := cp + 1;
      assert buf[..cp] == buf[..cp - 1] + "0";
    }
  }

  lemma TextIs(value: nat, isSigned: bool, negative: bool, b: IntegerBase, c: Conversion, sign: Option<char>,
      x: Option<char>, padCnt: nat)
    requires IsBase(b) && Sign(isSigned, negative, c) == (if sign.Some? then [sign.value] else "")
    requires x == if c.flags.pound && value != 0 then b.x else None
    requires var n := c.width - |Buffer(value, b, c)| - (if x.Some? then 2 else 0) - (if sign.Some? then 1 else 0); padCnt == if n < 0 then 0 else n
    ensures Text(value, isSigned, negative, b, c) ==
            (if !c.flags.minus && !c.flags.zero then Spaces(padCnt) else "")
            + (if sign.Some? then [sign.value] else "") + (if x.Some? then ['0', x.value] else "")
            + (if c.flags.zero then Zeros(padCnt) else "")
            + Reverse(Buffer(value, b, c))
            + (if c.flags.minus then Spaces(padCnt) else "")
  {
    hide Buffer, Spaces, Zeros, Reverse, IsBase, Sign;
    assert Prefix(value, b, c) == if x.Some? then ['0', x.value] else "";
    assert padCnt == Pad(value, isSigned, negative, b, c);
  }

  /** `format_integer`; the result is what goes to `output`. */
  method FormatInteger(value: nat, isSigned: bool, negative: bool, b: IntegerBase, c: Conversion) returns (out: string)
    requires IsBase(b) && value <= UINTMAX
    ensures out == Text(value, isSigned, negative, b, c)
  {
    hide *;
    var sign := SignChar(isSigned, negative, c);
    var x := if c.flags.pound && value != 0 then b.x else None;
    var buf := new char[BUF_SIZE];
    var cp := FillBuffer(buf, value, b, c);
    var padCnt := c.width - cp - (if x.Some? then 2 else 0) - (if sign.Some? then 1 else 0);
    if padCnt < 0 {
      padCnt := 0;
    }
    TextIs(value, isSigned, negative, b, c, sign, x, padCnt);
    out := Emit(sign, x, padCnt, buf, cp, c.flags);
  }

  method SignChar(isSigned: bool, negative: bool, c: Conversion) returns (sign: Option<char>)
    ensures Sign(isSigned, negative, c) == if sign.Some? then [sign.value] else ""
  {
    sign := None;
    if isSigned {
      if c.flags.plus {
        sign := Some(if negative then '-' else '+');
      } else if c.flags.space {
        sign := Some(if negative then '-' else ' ');
      } else if negative {
        sign := Some('-');
      }
    }
  }

  /** The output part of `format_integer`. */
  method Emit(sign: Option<char>, x: Option<char>, padCnt: nat, buf: array<char>, cp: nat,
      flags: Flags) returns (out: string)
    requires cp <= buf.Length
    ensures out == (if !flags.minus && !flags.zero then Spaces(padCnt) else "")
                   + (if sign.Some? then [sign.value] else "") + (if x.Some? then ['0', x.value] else "")
                   + (if flags.zero then Zeros(padCnt) else "")
                   + Reverse(buf[..cp])
                   + (if flags.minus then Spaces(padCnt) else "")
  {
    hide *;
    out := "";
    if !flags.minus && !flags.zero {
      out := OutputDup(out, ' ', padCnt);
    }
    ghost var left := out;
    if sign.Some? {
      out := out + [sign.value];
    }
    assert out == left + (if sign.Some? then [sign.value] else "");
    ghost var signed := out;
    if x.Some? {
      out := out + ['0'];
      out := out + [x.value];
      assert out == signed + ['0', x.value];
    }
    assert out == signed + (if x.Some? then ['0', x.value] else "");
    ghost var prefixed := out;
    if flags.zero {
      out := OutputDup(out, '0', padCnt);
    }
    out := OutputBuffer(out, buf, cp);
    if flags.minus {
      out := OutputDup(out, ' ', padCnt);
    }
  }

  /** The buffer is printed from its end. */
  method OutputBuffer(out: string, buf: array<char>, n: nat) returns (r: string)
    requires n <= buf.Length
    ensures r == out + Reverse(buf[..n])
  {
    r := out;
    var cp := n;
    assert buf[n..n] == "";
    while cp > 0
      invariant 0 <= cp <= n
      invariant r == out + Reverse(buf[cp..n])
    {
      cp := cp - 1;
      assert buf[cp..n] == [buf[cp]] + buf[cp + 1..n];
      r := r + [buf[cp]];
    }
  }
}

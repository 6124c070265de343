/** Parsing of conversion specifications. */
module Parse {
  import opened Basics
  import opened Format

  /** The format ends in a null character, and so does everything behind it. */
  function At(s: string, i: nat): char {
    if i < |s| then s[i] else '\0'
  }

  predicate IsFlag(ch: char) {
    ch == '-' || ch == '+' || ch == ' ' || ch == '#' || ch == '0' || ch == '\''
  }

  predicate IsDigit(ch: char) {
    '0' <= ch <= '9'
  }

  predicate AllFlags(s: string) {
    forall i :: 0 <= i < |s| ==> IsFlag(s[i])
  }

  predicate AllDigits(s: string) {
    forall i :: 0 <= i < |s| ==> IsDigit(s[i])
  }

  // ---------------------------------------------------------------- what the parts of a specification mean

  function WithFlag(f: Flags, ch: char): Flags {
    if ch == '-' then f.(minus := true)
    else if ch == '+' then f.(plus := true)
    else if ch == ' ' then f.(space := true)
    else if ch == '#' then f.(pound := true)
    else if ch == '0' then f.(zero := true)
    else f.(group := true)
  }

  const NO_FLAGS := Flags(false, false, false, false, false, false)

  /** The flags are a set: order and repetition do not matter. */
  function FlagSet(s: string): Flags {
    Flags('-' in s, '+' in s, ' ' in s, '#' in s, '0' in s, '\'' in s)
  }

  function NumberOf(acc: int, s: string): int
    decreases |s|
  {
    if s == "" then acc else NumberOf(acc * 10 + (s[0] as int - '0' as int), s[1..])
  }

  /** A field is written out, or its value is the next argument. */
  datatype Field = Written(digits: string) | Star

  /** A specification as its parts; `precision` is `None` without a dot. */
  datatype Spec = Spec(flags: string, width: Field, precision: Option<Field>, length: Length)

  function LengthText(l: Length): string {
    match l
    case CharLen => "hh"
    case ShortLen => "h"
    case IntLen => ""
    case IntmaxLen => "j"
    case LongLen => "l"
    case LongLongLen => "ll"
    case PtrdiffLen => "t"
    case SizeLen => "z"
  }

  function FieldText(f: Field): string {
    match f
    case Written(ds) => ds
    case Star => "*"
  }

  function SpecText(s: Spec): string {
    s.flags + FieldText(s.width) + (if s.precision == None then "" else "." + FieldText(s.precision.value)) + LengthText(s.length)
  }

  /** Any flags in any order; a width does not start with a zero, which would be a flag. */
  predicate WellFormed(s: Spec) {
    && AllFlags(s.flags)
    && (s.width.Written? ==> AllDigits(s.width.digits) && (s.width.digits != "" ==> s.width.digits[0] != '0'))
    && (s.precision.Some? && s.precision.value.Written? ==> AllDigits(s.precision.value.digits))
  }

  function ArgCount(s: Spec): nat {
    (if s.width.Star? then 1 else 0) + if s.precision == Some(Star) then 1 else 0
  }

  function WidthArg(s: Spec, args: seq<int>): int
    requires |args| >= ArgCount(s)
  {
    match s.width
    case Written(ds) => NumberOf(0, ds)
    case Star => args[0]
  }

  function PrecisionArg(s: Spec, args: seq<int>): int
    requires |args| >= ArgCount(s)
  {
    match s.precision
    case None => -1
    case Some(Written(ds)) => NumberOf(0, ds)
    case Some(Star) =>
      var p := if s.width.Star? then args[1] else args[0];
      if p < 0 then -1 else p
  }

  /** The conversion that a specification stands for: `-` beats `0`, `+` beats the space, a precision beats `0`, and a
      negative width means `-` as well. */
  function Meaning(s: Spec, args: seq<int>): Conversion
    requires |args| >= ArgCount(s)
  {
    var f, w, p := FlagSet(s.flags), WidthArg(s, args), PrecisionArg(s, args);
    Conversion(
      Flags(f.minus || w < 0, f.plus, f.space && !f.plus, f.pound, f.zero && !f.minus && p < 0, f.group),
      if w < 0 then -w else w, p, s.length)
  }

  // ---------------------------------------------------------------- the parser, part by part

  function FlagsEnd(s: string, i: nat): (j: nat)
    requires i <= |s|
    ensures i <= j <= |s| && !IsFlag(At(s, j)) && forall k :: i <= k < j ==> IsFlag(s[k])
    decreases |s| - i
  {
    if i < |s| && IsFlag(s[i]) then FlagsEnd(s, i + 1) else i
  }

  function DigitsEnd(s: string, i: nat): (j: nat)
    requires i <= |s|
    ensures i <= j <= |s| && !IsDigit(At(s, j)) && forall k :: i <= k < j ==> IsDigit(s[k])
    decreases |s| - i
  {
    if i < |s| && IsDigit(s[i]) then DigitsEnd(s, i + 1) else i
  }

  /** The loop over the flag characters. */
  method ParseFlags(s: string, i: nat) returns (f: Flags, j: nat)
    requires i <= |s|
    ensures j == FlagsEnd(s, i) && f == FlagSet(s[i..j])
  {
    f, j := NO_FLAGS, i;
    assert s[i..i] == "";
    while IsFlag(At(s, j))
      invariant i <= j <= |s| && FlagsEnd(s, j) == FlagsEnd(s, i)
      invariant f == FlagSet(s[i..j])
      decreases |s| - j
    {
      f := WithFlag(f, s[j]);
      assert s[i..j + 1] == s[i..j] + [s[j]];
      j := j + 1;
    }
  }

  lemma {:induction false} NumberOfMore(acc: int, s: string, ch: char)
    ensures NumberOf(acc, s + [ch]) == NumberOf(acc, s) * 10 + (ch as int - '0' as int)
    decreases |s|
  {
    if s == "" {
      assert "" + [ch] == [ch] && [ch][1..] == "";
    } else {
      assert (s + [ch])[1..] == s[1..] + [ch];
      NumberOfMore(acc * 10 + (s[0] as int - '0' as int), s[1..], ch);
    }
  }

  /** The loop over the digits of a width or a precision. */
  method ParseNumber(s: string, i: nat) returns (n: int, j: nat)
    requires i <= |s|
    ensures j == DigitsEnd(s, i) && n == NumberOf(0, s[i..j])
  {
    n, j := 0, i;
    assert s[i..i] == "";
    while IsDigit(At(s, j))
      invariant i <= j <= |s| && DigitsEnd(s, j) == DigitsEnd(s, i)
      invariant n == NumberOf(0, s[i..j])
      decreases |s| - j
    {
      n := n * 10 + (s[j] as int - '0' as int);
      NumberOfMore(0, s[i..j], s[j]);
      assert s[i..j + 1] == s[i..j] + [s[j]];
      j := j + 1;
    }
  }

  /** A width or a precision, from its digits or from the arguments. */
  function FieldAt(s: string, i: nat, args: seq<int>): (r: (int, nat, seq<int>))
    requires i <= |s| && (At(s, i) == '*' ==> |args| > 0)
    ensures i <= r.1 <= |s|
  {
    if At(s, i) == '*' then (args[0], i + 1, args[1..])
    else (NumberOf(0, s[i..DigitsEnd(s, i)]), DigitsEnd(s, i), args)
  }

  method ParseField(s: string, i: nat, args: seq<int>) returns (n: int, j: nat, rest: seq<int>)
    requires i <= |s| && (At(s, i) == '*' ==> |args| > 0)
    ensures (n, j, rest) == FieldAt(s, i, args)
  {
    if At(s, i) == '*' {
      n, j, rest := args[0], i + 1, args[1..];
    } else {
      n, j := ParseNumber(s, i);
      rest := args;
    }
  }

  function LengthAt(s: string, i: nat): (r: (Length, nat))
    requires i <= |s|
    ensures i <= r.1 <= |s|
  {
    match At(s, i)
    case 'h' => if At(s, i + 1) == 'h' then (CharLen, i + 2) else (ShortLen, i + 1)
    case 'j' => (IntmaxLen, i + 1)
    case 'l' => if At(s, i + 1) == 'l' then (LongLongLen, i + 2) else (LongLen, i + 1)
    case 't' => (PtrdiffLen, i + 1)
    case 'z' => (SizeLen, i + 1)
    case _ => (IntLen, i)
  }

  function FieldEnd(s: string, i: nat): (j: nat)
    requires i <= |s|
    ensures i <= j <= |s|
  {
    if At(s, i) == '*' then i + 1 else DigitsEnd(s, i)
  }

  predicate DotStarAt(s: string, j: nat) {
    At(s, j) == '.' && At(s, j + 1) == '*'
  }

  /** How many arguments the specification at `at` takes: one for each star. */
  function Needs(s: string, at: nat): nat
    requires at <= |s|
  {
    var i := FlagsEnd(s, at);
    (if At(s, i) == '*' then 1 else 0) + if DotStarAt(s, FieldEnd(s, i)) then 1 else 0
  }

  /** `parse_conversion`: the conversion, where the parser stopped, and the arguments it left. */
  method ParseConversion(s: string, at: nat, args: seq<int>) returns (c: Conversion, end: nat, rest: seq<int>)
    requires at <= |s| && |args| >= Needs(s, at)
    ensures (c, end, rest) == Parsed(s, at, args)
  {
    hide FlagsEnd, DigitsEnd, Needs, DotStarAt, FieldAt, PrecisionAt, LengthAt, FlagSet, NumberOf;
    var flags, i := ParseFlags(s, at);
    ghost var start := flags;
    if flags.minus {
      flags := flags.(zero := false);
    }
    if flags.plus {
      flags := flags.(space := false);
    }
    EnoughForFields(s, at, args);
    var width, j, args1 := ParseField(s, i, args);
    ghost var given := width;
    if width < 0 {
      width := -width;
      flags := flags.(minus := true);
    }
    var precision, k;
    precision, k, rest := ParsePrecision(s, j, args1);
    if precision >= 0 {
      flags := flags.(zero := false);
    }
    var length;
    length, end := ParseLength(s, k);
    c := Conversion(flags, width, precision, length);
    assert flags == Settled(start, given, precision);
  }

  lemma EnoughForFields(s: string, at: nat, args: seq<int>)
    requires at <= |s| && |args| >= Needs(s, at)
    ensures var i := FlagsEnd(s, at);
            && (At(s, i) == '*' ==> |args| > 0)
            && var (w, j, rest) := FieldAt(s, i, args); DotStarAt(s, j) ==> |rest| > 0
  {
    hide FlagsEnd, DigitsEnd, NumberOf, DotStarAt;
  }

  method ParsePrecision(s: string, j: nat, args: seq<int>) returns (precision: int, k: nat, rest: seq<int>)
    requires j <= |s| && (DotStarAt(s, j) ==> |args| > 0)
    ensures (precision, k, rest) == PrecisionAt(s, j, args)
  {
    precision, k, rest := -1, j, args;
    if At(s, k) == '.' {
      precision, k, rest := ParseField(s, k + 1, args);
      if precision < 0 {
        precision := -1;
      }
    }
  }

  method ParseLength(s: string, i: nat) returns (length: Length, j: nat)
    requires i <= |s|
    ensures (length, j) == LengthAt(s, i)
  {
    length, j := IntLen, i;
    match At(s, i) {
      case 'h' =>
        j := j + 1;
        if At(s, j) == 'h' {
          j := j + 1;
          length := CharLen;
        } else {
          length := ShortLen;
        }
      case 'j' => length, j := IntmaxLen, j + 1;
      case 'l' =>
        j := j + 1;
        if At(s, j) == 'l' {
          j := j + 1;
          length := LongLongLen;
        } else {
          length := LongLen;
        }
      case 't' => length, j := PtrdiffLen, j + 1;
      case 'z' => length, j := SizeLen, j + 1;
      case _ =>
    }
  }

  /** The flags after the width and precision are known. */
  function Settled(f: Flags, w: int, p: int): Flags {
    Flags(f.minus || w < 0, f.plus, f.space && !f.plus, f.pound, f.zero && !f.minus && p < 0, f.group)
  }

  function PrecisionAt(s: string, j: nat, args: seq<int>): (r: (int, nat, seq<int>))
    requires j <= |s| && (DotStarAt(s, j) ==> |args| > 0)
    ensures j <= r.1 <= |s|
  {
    if At(s, j) == '.' then
      var (p, k, rest) := FieldAt(s, j + 1, args);
      (if p < 0 then -1 else p, k, rest)
    else (-1, j, args)
  }

  function Parsed(s: string, at: nat, args: seq<int>): (Conversion, nat, seq<int>)
    requires at <= |s| && |args| >= Needs(s, at)
  {
    var i := FlagsEnd(s, at);
    var (w, j, args1) := FieldAt(s, i, args);
    var (p, k, rest) := PrecisionAt(s, j, args1);
    var (length, end) := LengthAt(s, k);
    (Conversion(Settled(FlagSet(s[at..i]), w, p), if w < 0 then -w else w, p, length), end, rest)
  }

  // ---------------------------------------------------------------- round trip

  /** The letters that `vprintf` converts by. */
  predicate IsLetter(ch: char) {
    ch in "diouxXcspn"
  }

  /** The flags end where the text goes on with something else. */
  lemma {:induction false} FlagsEndAt(s: string, i: nat, j: nat)
    requires i <= j <= |s| && (forall k :: i <= k < j ==> IsFlag(s[k])) && !IsFlag(At(s, j))
    ensures FlagsEnd(s, i) == j
    decreases j - i
  {
    if i < j {
      FlagsEndAt(s, i + 1, j);
    }
  }

  lemma {:induction false} DigitsEndAt(s: string, i: nat, j: nat)
    requires i <= j <= |s| && (forall k :: i <= k < j ==> IsDigit(s[k])) && !IsDigit(At(s, j))
    ensures DigitsEnd(s, i) == j
    decreases j - i
  {
    if i < j {
      DigitsEndAt(s, i + 1, j);
    }
  }

  /** A field followed by something that is neither a digit nor a star. */
  lemma FieldReads(x: string, f: Field, y: string, args: seq<int>)
    requires (f.Written? ==> AllDigits(f.digits)) && (y != "" ==> !IsDigit(y[0]) && y[0] != '*') && (f.Star? ==> |args| > 0)
    ensures var s := x + FieldText(f) + y;
            && (At(s, |x|) == '*' <==> f.Star?) && FieldEnd(s, |x|) == |x + FieldText(f)|
            && FieldAt(s, |x|, args) ==
               (match f case Written(ds) => NumberOf(0, ds) case Star => args[0],
                |x + FieldText(f)|, if f.Star? then args[1..] else args)
  {
    var s := x + FieldText(f) + y;
    match f
    case Star =>
    case Written(ds) =>
      assert forall k :: |x| <= k < |x| + |ds| ==> s[k] == ds[k - |x|];
      assert s[|x|..|x| + |ds|] == ds;
      DigitsEndAt(s, |x|, |x| + |ds|);
  }

  lemma LengthReads(x: string, l: Length, y: string)
    requires y != "" && IsLetter(y[0])
    ensures LengthAt(x + LengthText(l) + y, |x|) == (l, |x + LengthText(l)|)
  {
    var s := x + LengthText(l) + y;
    assert forall k :: 0 <= k < |LengthText(l)| ==> At(s, |x| + k) == LengthText(l)[k];
    assert At(s, |x| + |LengthText(l)|) == y[0];
  }

  lemma FlagsRead(x: string, f: string, y: string)
    requires AllFlags(f) && y != "" && !IsFlag(y[0])
    ensures var s := x + f + y; FlagsEnd(s, |x|) == |x + f| && s[|x|..|x + f|] == f
  {
    var s := x + f + y;
    assert forall k :: |x| <= k < |x + f| ==> s[k] == f[k - |x|];
    FlagsEndAt(s, |x|, |x + f|);
  }

  function DotText(p: Option<Field>): string {
    if p == None then "" else "." + FieldText(p.value)
  }

  lemma PrecisionReads(x: string, p: Option<Field>, y: string, args: seq<int>)
    requires (p.Some? && p.value.Written? ==> AllDigits(p.value.digits)) && (p == Some(Star) ==> |args| > 0)
    requires y != "" && !IsDigit(y[0]) && y[0] != '*' && y[0] != '.'
    ensures DotStarAt(x + DotText(p) + y, |x|) <==> p == Some(Star)
    ensures PrecisionAt(x + DotText(p) + y, |x|, args) ==
            (match p
             case None => -1
             case Some(Written(ds)) => if NumberOf(0, ds) < 0 then -1 else NumberOf(0, ds)
             case Some(Star) => if args[0] < 0 then -1 else args[0],
             |x + DotText(p)|, if p == Some(Star) then args[1..] else args)
  {
    var s := x + DotText(p) + y;
    if p.Some? {
      assert s == (x + ".") + FieldText(p.value) + y;
      FieldReads(x + ".", p.value, y, args);
    } else {
      assert At(s, |x|) == y[0];
    }
  }

  lemma {:induction false} NumberIsNat(acc: int, s: string)
    requires acc >= 0 && AllDigits(s)
    ensures NumberOf(acc, s) >= 0
    decreases |s|
  {
    if s != "" {
      NumberIsNat(acc * 10 + (s[0] as int - '0' as int), s[1..]);
    }
  }

  lemma SpecTextIs(spec: Spec)
    ensures SpecText(spec) == spec.flags + FieldText(spec.width) + DotText(spec.precision) + LengthText(spec.length)
  {
  }

  lemma SplitText(x: string, f: string, w: string, d: string, l: string, y: string)
    ensures var s := x + (f + w + d + l) + y;
            && s == x + f + (w + d + l + y) && s == (x + f) + w + (d + l + y)
            && s == (x + f + w) + d + (l + y) && s == (x + f + w + d) + l + y && |x + f + w + d + l| == |x| + |f + w + d + l|
  {
  }

  lemma PartsAreWellFormed(spec: Spec)
    requires WellFormed(spec)
    ensures AllFlags(spec.flags) && (spec.width.Written? ==> AllDigits(spec.width.digits))
    ensures spec.precision.Some? && spec.precision.value.Written? ==>
              AllDigits(spec.precision.value.digits) && NumberOf(0, spec.precision.value.digits) >= 0
    ensures ArgCount(spec) == (if spec.width.Star? then 1 else 0) + (if spec.precision == Some(Star) then 1 else 0)
  {
    if spec.precision.Some? && spec.precision.value.Written? {
      NumberIsNat(0, spec.precision.value.digits);
    }
  }

  lemma ParsedIs(s: string, at: nat, args: seq<int>, i: nat, w: (int, nat, seq<int>), p: (int, nat, seq<int>),
      l: (Length, nat))
    requires at <= |s| && |args| >= Needs(s, at) && FlagsEnd(s, at) == i <= |s|
    requires (At(s, i) == '*' ==> |args| > 0) && FieldAt(s, i, args) == w && w.1 <= |s|
    requires (DotStarAt(s, w.1) ==> |w.2| > 0) && PrecisionAt(s, w.1, w.2) == p
    requires p.1 <= |s| && LengthAt(s, p.1) == l
    ensures Parsed(s, at, args) ==
            (Conversion(Settled(FlagSet(s[at..i]), w.0, p.0), if w.0 < 0 then -w.0 else w.0, p.0, l.0), l.1, p.2)
  {
    hide FlagsEnd, FieldAt, PrecisionAt, LengthAt, FlagSet, Settled;
  }

  lemma MeaningIs(spec: Spec, args: seq<int>, p: int)
    requires |args| >= ArgCount(spec)
    requires p == match spec.precision
                  case None => -1
                  case Some(Written(ds)) => if NumberOf(0, ds) < 0 then -1 else NumberOf(0, ds)
                  case Some(Star) => var a := if spec.width.Star? then args[1] else args[0]; if a < 0 then -1 else a
    requires spec.precision.Some? && spec.precision.value.Written? ==> NumberOf(0, spec.precision.value.digits) >= 0
    ensures var w := match spec.width case Written(ds) => NumberOf(0, ds) case Star => args[0];
            Meaning(spec, args) == Conversion(Settled(FlagSet(spec.flags), w, p), if w < 0 then -w else w, p, spec.length)
  {
    hide NumberOf, FlagSet;
  }

  lemma ArgsLeft(spec: Spec, args: seq<int>)
    requires |args| >= ArgCount(spec)
    ensures ArgCount(spec) == (if spec.width.Star? then 1 else 0) + (if spec.precision == Some(Star) then 1 else 0)
    ensures var args1 := if spec.width.Star? then args[1..] else args;
            args[ArgCount(spec)..] == if spec.precision == Some(Star) then args1[1..] else args1
  {
  }

  lemma NeedsIs(s: string, at: nat, i: nat, j: nat)
    requires at <= |s| && FlagsEnd(s, at) == i <= |s| && FieldEnd(s, i) == j
    ensures Needs(s, at) == (if At(s, i) == '*' then 1 else 0) + if DotStarAt(s, j) then 1 else 0
  {
    hide FlagsEnd, FieldEnd, DotStarAt;
  }

  /** Whatever the flags, in any order and repetition, the width and the precision: a specification followed by a
      conversion letter takes one argument per star, parses to what it means wherever in the format it stands, and the
      parser stops at the letter. */
  lemma SpecParses(head: string, spec: Spec, letter: char, tail: string, args: seq<int>)
    requires WellFormed(spec) && IsLetter(letter) && |args| >= ArgCount(spec)
    ensures var s := head + SpecText(spec) + ([letter] + tail);
            && Needs(s, |head|) == ArgCount(spec)
            && Parsed(s, |head|, args) == (Meaning(spec, args), |head| + |SpecText(spec)|, args[ArgCount(spec)..])
  {
    hide *;
    var x, y := head, [letter] + tail;
    var f, w, d, l := spec.flags, FieldText(spec.width), DotText(spec.precision), LengthText(spec.length);
    var s := x + SpecText(spec) + y;
    SpecTextIs(spec);
    SplitText(x, f, w, d, l, y);
    PartsAreWellFormed(spec);
    ArgsLeft(spec, args);
    var args1 := if spec.width.Star? then args[1..] else args;
    AfterFlags(spec, letter, tail);
    FlagsRead(x, f, w + d + l + y);
    AfterWidth(spec, letter, tail);
    FieldReads(x + f, spec.width, d + l + y, args);
    AfterPrecision(spec.length, letter, tail);
    PrecisionReads(x + f + w, spec.precision, l + y, args1);
    LengthReads(x + f + w + d, spec.length, y);
    NeedsIs(s, |x|, |x + f|, |x + f + w|);
    var p := PrecisionAt(s, |x + f + w|, args1);
    ParsedIs(s, |x|, args, |x + f|, FieldAt(s, |x + f|, args), p, LengthAt(s, |x + f + w + d|));
    MeaningIs(spec, args, p.0);
  }

  lemma AfterFlags(spec: Spec, letter: char, tail: string)
    requires WellFormed(spec) && IsLetter(letter)
    ensures var y := FieldText(spec.width) + DotText(spec.precision) + LengthText(spec.length) + ([letter] + tail); y != "" && !IsFlag(y[0])
  {
  }

  lemma AfterWidth(spec: Spec, letter: char, tail: string)
    requires IsLetter(letter)
    ensures var y := DotText(spec.precision) + LengthText(spec.length) + ([letter] + tail); y != "" && !IsDigit(y[0]) && y[0] != '*'
  {
  }

  lemma AfterPrecision(l: Length, letter: char, tail: string)
    requires IsLetter(letter)
    ensures var y := LengthText(l) + ([letter] + tail); y != "" && !IsDigit(y[0]) && y[0] != '*' && y[0] != '.'
  {
  }

  // ---------------------------------------------------------------- normal form

  /** No flag is without effect. */
  predicate Normal(c: Conversion) {
    && c.width >= 0 && c.precision >= -1
    && !(c.flags.minus && c.flags.zero) && !(c.flags.plus && c.flags.space) && !(c.precision >= 0 && c.flags.zero)
  }

  /** Parsing always yields a normal form, but for a negative width argument after a `0` flag: it brings back `-` and
      leaves `0` standing. */
  lemma MeaningIsNormalIff(spec: Spec, args: seq<int>)
    requires WellFormed(spec) && |args| >= ArgCount(spec)
    ensures Normal(Meaning(spec, args)) <==>
            !('0' in spec.flags && '-' !in spec.flags && WidthArg(spec, args) < 0 && PrecisionArg(spec, args) < 0)
  {
    PartsAreWellFormed(spec);
    hide NumberOf;
  }

  function Decimal(n: nat): (s: string)
    ensures s != "" && (n > 0 ==> s[0] != '0') && AllDigits(s)
  {
    var last := [('0' as int + n % 10) as char];
    if n < 10 then last else Decimal(n / 10) + last
  }

  lemma {:induction false} DecimalReads(n: nat)
    ensures NumberOf(0, Decimal(n)) == n
  {
    if n >= 10 {
      DecimalReads(n / 10);
      NumberOfMore(0, Decimal(n / 10), ('0' as int + n % 10) as char);
    } else {
      var s := Decimal(n);
      assert s == [('0' as int + n) as char] && s[1..] == "";
    }
  }

  function Maybe(b: bool, ch: char): string {
    if b then [ch] else ""
  }

  function FlagText(f: Flags): string {
    Maybe(f.minus, '-') + Maybe(f.plus, '+') + Maybe(f.space, ' ') + Maybe(f.pound, '#') + Maybe(f.zero, '0') + Maybe(f.group, '\'')
  }

  lemma FlagTextReads(f: Flags)
    ensures AllFlags(FlagText(f)) && FlagSet(FlagText(f)) == f
  {
    OneFlag(f.minus, '-');
    OneFlag(f.plus, '+');
    OneFlag(f.space, ' ');
    OneFlag(f.pound, '#');
    OneFlag(f.zero, '0');
    OneFlag(f.group, '\'');
    var s := Maybe(f.minus, '-') + Maybe(f.plus, '+') + Maybe(f.space, ' ') + Maybe(f.pound, '#') + Maybe(f.zero, '0') + Maybe(f.group, '\'');
    assert FlagText(f) == s;
    hide *;
    FlagsAre(s, f);
  }

  lemma OneFlag(b: bool, ch: char)
    ensures forall x :: x in Maybe(b, ch) <==> b && x == ch
  {
  }

  lemma FlagsAre(s: string, f: Flags)
    requires forall x :: x in s <==> (f.minus && x == '-') || (f.plus && x == '+') || (f.space && x == ' ')
                                     || (f.pound && x == '#') || (f.zero && x == '0') || (f.group && x == '\'')
    ensures AllFlags(s) && FlagSet(s) == f
  {
    forall i | 0 <= i < |s| ensures IsFlag(s[i]) {
      assert s[i] in s;
    }
  }

  function Printed(c: Conversion): Spec
    requires Normal(c)
  {
    Spec(FlagText(c.flags), Written(if c.width == 0 then "" else Decimal(c.width)),
         if c.precision < 0 then None else Some(Written(Decimal(c.precision))), c.length)
  }

  lemma PrintedMeans(c: Conversion, args: seq<int>)
    requires Normal(c)
    ensures var spec := Printed(c); WellFormed(spec) && ArgCount(spec) == 0 && Meaning(spec, args) == c
  {
    FlagTextReads(c.flags);
    if c.width > 0 {
      DecimalReads(c.width);
    }
    if c.precision >= 0 {
      DecimalReads(c.precision);
    }
    hide FlagText, FlagSet, Decimal;
    assert NumberOf(0, "") == 0;
  }

  /** Printing a normal conversion and parsing it gives it back, and the parser stops at the letter. */
  lemma RoundTrip(head: string, c: Conversion, letter: char, tail: string, args: seq<int>)
    requires Normal(c) && IsLetter(letter)
    ensures var s := head + SpecText(Printed(c)) + ([letter] + tail);
            Needs(s, |head|) == 0 && Parsed(s, |head|, args) == (c, |head| + |SpecText(Printed(c))|, args)
  {
    hide *;
    PrintedMeans(c, args);
    SpecParses(head, Printed(c), letter, tail, args);
    assert args[0..] == args;
  }

  // ---------------------------------------------------------------- letters

  /** The whole text is a specification and its letter, and takes all of the arguments. */
  ghost predicate ParsesTo(s: string, args: seq<int>, c: Conversion) {
    Needs(s, 0) == |args| && Parsed(s, 0, args) == (c, |s| - 1, [])
  }

  lemma Example(spec: Spec, letter: char, args: seq<int>, s: string)
    requires WellFormed(spec) && IsLetter(letter) && |args| == ArgCount(spec) && s == SpecText(spec) + [letter]
    ensures ParsesTo(s, args, Meaning(spec, args))
  {
    hide Parsed, Needs, Meaning, SpecText, WellFormed, IsLetter, ArgCount;
    assert "" + SpecText(spec) + ([letter] + "") == s && args[|args|..] == [];
    SpecParses("", spec, letter, "", args);
  }

  lemma Number(digits: string, n: nat)
    requires (digits == "" && n == 0) || (digits == "8" && n == 8) || (digits == "12" && n == 12)
    ensures NumberOf(0, digits) == n && AllDigits(digits)
  {
    assert "8"[1..] == "" && "12"[1..] == "2" && "2"[1..] == "";
  }

  /** A conversion without stars, `n` its width and `p` its precision. */
  lemma WrittenExample(flags: string, width: string, n: nat, precision: Option<string>, p: int, l: Length,
      letter: char, s: string)
    requires AllFlags(flags) && (width == "" || width == "8") && n == |width| * 8 && IsLetter(letter)
    requires precision == (if p == -1 then None else Some("12")) && (p == -1 || p == 12)
    requires s == flags + width + (if precision == None then "" else "." + precision.value) + LengthText(l) + [letter]
    ensures var f := FlagSet(flags);
            ParsesTo(s, [], Conversion(f.(space := f.space && !f.plus, zero := f.zero && !f.minus && p < 0), n, p, l))
  {
    var spec := Spec(flags, Written(width), if precision == None then None else Some(Written(precision.value)), l);
    Number(width, n);
    Number("12", 12);
    assert WellFormed(spec);
    hide NumberOf, FlagSet, ParsesTo, AllFlags, AllDigits, IsLetter, WellFormed;
    assert spec.flags + FieldText(spec.width) == flags + width;
    Example(spec, letter, [], s);
  }

  /** One conversion for each flag and each length. */
  lemma FlagAndLengthLetters()
    ensures ParsesTo("-8hhd", [], Conversion(Flags(true, false, false, false, false, false), 8, -1, CharLen))
    ensures ParsesTo("+.12hd", [], Conversion(Flags(false, true, false, false, false, false), 0, 12, ShortLen))
    ensures ParsesTo(" jd", [], Conversion(Flags(false, false, true, false, false, false), 0, -1, IntmaxLen))
    ensures ParsesTo("#lx", [], Conversion(Flags(false, false, false, true, false, false), 0, -1, LongLen))
    ensures ParsesTo("08llx", [], Conversion(Flags(false, false, false, false, true, false), 8, -1, LongLongLen))
    ensures ParsesTo("'td", [], Conversion(Flags(false, false, false, false, false, true), 0, -1, PtrdiffLen))
    ensures ParsesTo("zu", [], Conversion(NO_FLAGS, 0, -1, SizeLen))
    ensures ParsesTo("d", [], Conversion(NO_FLAGS, 0, -1, IntLen))
  {
    hide ParsesTo;
    WrittenExample("-", "8", 8, None, -1, CharLen, 'd', "-8hhd");
    WrittenExample("+", "", 0, Some("12"), 12, ShortLen, 'd', "+.12hd");
    WrittenExample(" ", "", 0, None, -1, IntmaxLen, 'd', " jd");
    WrittenExample("#", "", 0, None, -1, LongLen, 'x', "#lx");
    WrittenExample("0", "8", 8, None, -1, LongLongLen, 'x', "08llx");
    WrittenExample("'", "", 0, None, -1, PtrdiffLen, 'd', "'td");
    WrittenExample("", "", 0, None, -1, SizeLen, 'u', "zu");
    WrittenExample("", "", 0, None, -1, IntLen, 'd', "d");
  }

  /** Of two stars the first is the width, the second the precision; negative ones mean `-` and none. */
  lemma StarsTakeArguments(w: int, p: int)
    ensures var c := Conversion(NO_FLAGS.(minus := w < 0), if w < 0 then -w else w, if p < 0 then -1 else p, IntLen);
            ParsesTo("*.*d", [w, p], c)
  {
    hide ParsesTo;
    Example(Spec("", Star, Some(Star), IntLen), 'd', [w, p], "*.*d");
  }
}

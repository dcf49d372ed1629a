// Reading a resource quantity back as bytes (quantity_parser.rs), and that it undoes the form
// the API server stores a storage request in.
module Quantity {
  import opened Base

  const I64_MIN: int := -0x8000_0000_0000_0000
  const I64_MAX: int := 0x7fff_ffff_ffff_ffff

  datatype Parsed = Bytes(value: int) | NotAnInteger | InvalidUnit | Overflow

  predicate IsAlpha(c: char) {
    'a' <= c <= 'z' || 'A' <= c <= 'Z'
  }

  predicate IsDigit(c: char) {
    '0' <= c <= '9'
  }

  predicate AllDigits(s: string) {
    forall i :: 0 <= i < |s| ==> IsDigit(s[i])
  }

  // The text at the end that `[[:alpha:]]{1,2}$` matches, or nothing.
  function Unit(s: string): string {
    if |s| >= 2 && IsAlpha(s[|s| - 1]) && IsAlpha(s[|s| - 2]) then s[|s| - 2..]
    else if |s| >= 1 && IsAlpha(s[|s| - 1]) then s[|s| - 1..]
    else ""
  }

  // `str::replace` with nothing: every occurrence goes, not only the last one.
  function Without(s: string, unit: string): string
    requires unit != ""
    decreases |s|
  {
    if |s| < |unit| then s
    else if s[..|unit|] == unit then Without(s[|unit|..], unit)
    else [s[0]] + Without(s[1..], unit)
  }

  function Value(digits: string): nat
    requires AllDigits(digits)
  {
    if digits == "" then 0
    else Value(digits[..|digits| - 1]) * 10 + (digits[|digits| - 1] - '0') as nat
  }

  // `str::parse::<i64>`
  function ParseI64(s: string): Option<int> {
    var signed := s != "" && (s[0] == '-' || s[0] == '+');
    var digits := if signed then s[1..] else s;
    if digits == "" || !AllDigits(digits) then None
    else
      var magnitude: int := Value(digits);
      var v := if s[0] == '-' then 0 - magnitude else magnitude;
      if I64_MIN <= v <= I64_MAX then Some(v) else None
  }

  // `amount * base * base ...`, one checked multiplication after the other.
  function Scale(amount: int, base: int, times: nat): Parsed {
    if times == 0 then Bytes(amount)
    else
      match Scale(amount, base, times - 1)
      case Bytes(v) => if I64_MIN <= v * base <= I64_MAX then Bytes(v * base) else Overflow
      case other => other
  }

  function Multiplier(unit: string): Option<(int, nat)> {
    match unit
    case "Ki" => Some((1024, 1))
    case "Mi" => Some((1024, 2))
    case "Gi" => Some((1024, 3))
    case "Ti" => Some((1024, 4))
    case "Pi" => Some((1024, 5))
    case "Ei" => Some((1024, 6))
    case "k" => Some((1000, 1))
    case "M" => Some((1000, 2))
    case "G" => Some((1000, 3))
    case "T" => Some((1000, 4))
    case "P" => Some((1000, 5))
    case "E" => Some((1000, 6))
    case _ => None
  }

  // Division that truncates toward zero.
  function Truncated(a: int, b: int): int
    requires b > 0
  {
    if a >= 0 then a / b else -((-a) / b)
  }

  function ToBytes(s: string): Parsed {
    var unit := Unit(s);
    if unit == "" then
      if ParseI64(s).Some? then Bytes(ParseI64(s).value) else NotAnInteger
    else if unit == "m" || Multiplier(unit).Some? then
      match ParseI64(Without(s, unit))
      case None => NotAnInteger
      case Some(amount) =>
        if unit == "m" then Bytes(Truncated(amount, 1000))
        else Scale(amount, Multiplier(unit).value.0, Multiplier(unit).value.1)
    else InvalidUnit
  }

  // --- What the API server stores ---

  function Digits(n: nat): string {
    (if n < 10 then "" else Digits(n / 10)) + [('0' as int + n % 10) as char]
  }

  const SUFFIXES: seq<string> := ["", "k", "M", "G", "T", "P", "E"]

  // The canonical decimal form of a quantity: the largest suffix that leaves a whole number.
  function Canonical(n: nat, k: nat): string
    requires k <= 6
    decreases n
  {
    if n > 0 && n % 1000 == 0 && k < 6 then Canonical(n / 1000, k + 1) else Digits(n) + SUFFIXES[k]
  }

  function Power(base: nat, k: nat): nat {
    if k == 0 then 1 else base * Power(base, k - 1)
  }

  lemma {:induction false} DigitsValue(n: nat)
    ensures AllDigits(Digits(n)) && Digits(n) != "" && Value(Digits(n)) == n
  {
    var last := ('0' as int + n % 10) as char;
    if n >= 10 {
      DigitsValue(n / 10);
      assert Digits(n)[..|Digits(n)| - 1] == Digits(n / 10);
    } else {
      assert Digits(n) == [last] && Digits(n)[..0] == "";
    }
  }

  predicate IsSign(sign: string) {
    sign in ["", "+", "-"]
  }

  function Signed(negative: bool, magnitude: nat): int {
    if negative then 0 - magnitude else magnitude
  }

  // Whether a number fits a signed 64-bit integer.
  predicate Fits(negative: bool, magnitude: nat) {
    magnitude <= if negative then 9_223_372_036_854_775_808 else 9_223_372_036_854_775_807
  }

  lemma SignedParse(sign: string, digits: string)
    requires IsSign(sign) && AllDigits(digits) && digits != ""
    ensures ParseI64(sign + digits) ==
      if Fits(sign == "-", Value(digits)) then Some(Signed(sign == "-", Value(digits))) else None
  {
    var s := sign + digits;
    assert IsDigit(digits[0]);
    if sign == "" {
      assert s == digits;
    } else {
      assert s[0] == sign[0] && s[1..] == digits;
    }
    hide Value;
  }

  predicate NoLetters(s: string) {
    forall i :: 0 <= i < |s| ==> !IsAlpha(s[i])
  }

  lemma AmountHasNoLetters(sign: string, digits: string)
    requires IsSign(sign) && AllDigits(digits)
    ensures NoLetters(sign + digits)
  {
    forall i | 0 <= i < |sign + digits| ensures !IsAlpha((sign + digits)[i]) {
      if i >= |sign| {
        assert IsDigit(digits[i - |sign|]);
      }
    }
  }

  lemma {:induction false} WithoutEvery(amount: string, unit: string, rest: string)
    requires NoLetters(amount) && unit != "" && IsAlpha(unit[0])
    ensures Without(amount + (unit + rest), unit) == amount + Without(rest, unit)
    decreases |amount|
  {
    hide Without, IsAlpha;
    var s := amount + (unit + rest);
    if amount == "" {
      assert s == unit + rest;
      WithoutHere(unit, rest);
    } else {
      assert s == [amount[0]] + (amount[1..] + (unit + rest));
      WithoutEvery(amount[1..], unit, rest);
      WithoutLater(amount[0], amount[1..] + (unit + rest), unit);
      assert amount == [amount[0]] + amount[1..];
      Regather(amount[0], amount[1..], Without(rest, unit));
    }
  }

  lemma Regather(c: char, a: string, b: string)
    ensures [c] + (a + b) == ([c] + a) + b
  {
  }

  lemma WithoutHere(unit: string, rest: string)
    requires unit != ""
    ensures Without(unit + rest, unit) == Without(rest, unit)
  {
    assert (unit + rest)[..|unit|] == unit && (unit + rest)[|unit|..] == rest;
  }

  lemma WithoutLater(c: char, rest: string, unit: string)
    requires unit != "" && c != unit[0]
    ensures Without([c] + rest, unit) == [c] + Without(rest, unit)
  {
    var s := [c] + rest;
    assert s[1..] == rest;
    if |s| >= |unit| {
      assert s[..|unit|][0] != unit[0];
    }
  }

  lemma WithoutUnit(amount: string, unit: string)
    requires NoLetters(amount) && unit != "" && IsAlpha(unit[0])
    ensures Without(amount + unit, unit) == amount
  {
    WithoutEvery(amount, unit, "");
    assert unit + "" == unit && amount + "" == amount;
  }

  lemma {:induction false} PowerGrows(base: nat, j: nat, k: nat)
    requires base >= 1 && j <= k
    ensures 1 <= Power(base, j) <= Power(base, k)
    decreases k
  {
    if j < k {
      PowerGrows(base, j, k - 1);
      assert Power(base, k) == base * Power(base, k - 1) >= Power(base, k - 1) by {
        Times(base, 1, Power(base, k - 1));
      }
    } else if k > 0 {
      PowerGrows(base, k - 1, k - 1);
      Times(base, 1, Power(base, k - 1));
    }
  }

  lemma Times(a: int, b: int, c: int)
    requires a >= b && c >= 0
    ensures a * c >= b * c
  {
  }

  lemma Regroup(a: nat, b: nat, p: nat)
    requires b >= 1
    ensures a * (b * p) == (a * p) * b
    ensures a * p <= a * (b * p)
  {
    assert a * (b * p) == (a * p) * b;
    Times(b, 1, a * p);
  }

  lemma ScaleUnfold(amount: int, base: int, k: nat)
    requires k > 0
    ensures Scale(amount, base, k) ==
      match Scale(amount, base, k - 1)
      case Bytes(v) => if I64_MIN <= v * base <= I64_MAX then Bytes(v * base) else Overflow
      case other => other
  {
  }

  // A product that fits is reached without an intermediate overflow, and one that does not fit
  // is noticed.
  lemma {:induction false} ScaleIsExact(negative: bool, amount: nat, base: nat, k: nat)
    requires base >= 1 && Fits(negative, amount)
    ensures Scale(Signed(negative, amount), base, k) ==
      if Fits(negative, amount * Power(base, k)) then Bytes(Signed(negative, amount * Power(base, k))) else Overflow
  {
    hide *;
    if k == 0 {
      ScaleNothing(negative, amount, base);
    } else {
      ScaleIsExact(negative, amount, base, k - 1);
      ScaleUnfold(Signed(negative, amount), base, k);
      PowerUnfolds(base, k);
      var q := amount * Power(base, k - 1);
      ProductUnfolds(amount, base, Power(base, k - 1), Power(base, k));
      ScaleStep(Scale(Signed(negative, amount), base, k - 1), negative, q, base);
    }
  }

  lemma ScaleNothing(negative: bool, amount: nat, base: nat)
    requires Fits(negative, amount)
    ensures amount * Power(base, 0) == amount && Fits(negative, amount * Power(base, 0))
    ensures Scale(Signed(negative, amount), base, 0) == Bytes(Signed(negative, amount))
  {
    assert Power(base, 0) == 1;
  }

  lemma ProductUnfolds(amount: nat, base: nat, p: nat, q: nat)
    requires base >= 1 && q == base * p
    ensures amount * q == (amount * p) * base
  {
    Regroup(amount, base, p);
  }

  lemma PowerUnfolds(base: nat, k: nat)
    requires k > 0
    ensures Power(base, k) == base * Power(base, k - 1)
  {
  }

  lemma ScaleStep(before: Parsed, negative: bool, q: nat, base: nat)
    requires base >= 1 && before == if Fits(negative, q) then Bytes(Signed(negative, q)) else Overflow
    ensures q <= q * base
    ensures
      (match before
       case Bytes(v) => if I64_MIN <= v * base <= I64_MAX then Bytes(v * base) else Overflow
       case other => other)
      == if Fits(negative, q * base) then Bytes(Signed(negative, q * base)) else Overflow
  {
    Times(base, 1, q);
    assert (0 - q) * base == 0 - q * base;
  }

  lemma UnitOfAmount(amount: string, unit: string)
    requires NoLetters(amount) && amount != ""
    requires |unit| <= 2 && forall i :: 0 <= i < |unit| ==> IsAlpha(unit[i])
    ensures Unit(amount + unit) == unit
  {
    var s := amount + unit;
    if unit == "" {
      assert s == amount;
    } else {
      assert s[|s| - 1] == unit[|unit| - 1];
      assert |unit| == 1 ==> s[|s| - 2] == amount[|amount| - 1];
    }
  }

  lemma UnitFacts(unit: string)
    requires Multiplier(unit).Some?
    ensures 1 <= |unit| <= 2 && unit != "m" && unit != ""
    ensures forall i :: 0 <= i < |unit| ==> IsAlpha(unit[i])
    ensures Multiplier(unit).value.0 >= 1
  {
  }

  // Digits with a unit parse to the exact product whenever that fits a signed 64-bit integer,
  // the binary units included.
  lemma WithUnit(sign: string, digits: string, unit: string, base: nat, k: nat)
    requires IsSign(sign) && AllDigits(digits) && digits != "" && Multiplier(unit) == Some((base, k))
    ensures
      var negative, n := sign == "-", Value(digits);
      ToBytes(sign + digits + unit) ==
        if !Fits(negative, n) then NotAnInteger
        else if Fits(negative, n * Power(base, k)) then Bytes(Signed(negative, n * Power(base, k)))
        else Overflow
  {
    UnitFacts(unit);
    SignedParse(sign, digits);
    AmountHasNoLetters(sign, digits);
    hide Multiplier, Value, ParseI64, Power, Fits;
    UnitOfAmount(sign + digits, unit);
    WithoutUnit(sign + digits, unit);
    hide Unit, Without, AllDigits, IsAlpha;
    if Fits(sign == "-", Value(digits)) {
      ScaleIsExact(sign == "-", Value(digits), base, k);
    }
  }

  // What each unit stands for.
  function Factor(unit: string): Option<nat> {
    match unit
    case "Ki" => Some(1024)
    case "Mi" => Some(1_048_576)
    case "Gi" => Some(1_073_741_824)
    case "Ti" => Some(1_099_511_627_776)
    case "Pi" => Some(1_125_899_906_842_624)
    case "Ei" => Some(1_152_921_504_606_846_976)
    case "k" => Some(1_000)
    case "M" => Some(1_000_000)
    case "G" => Some(1_000_000_000)
    case "T" => Some(1_000_000_000_000)
    case "P" => Some(1_000_000_000_000_000)
    case "E" => Some(1_000_000_000_000_000_000)
    case _ => None
  }

  lemma MultiplierIsFactor(unit: string)
    ensures Multiplier(unit).Some? <==> Factor(unit).Some?
    ensures Multiplier(unit).Some? ==>
      Power(Multiplier(unit).value.0, Multiplier(unit).value.1) == Factor(unit).value
  {
    Powers(1024);
    Powers(1000);
    hide Power;
  }

  lemma Powers(base: nat)
    ensures Power(base, 1) == base
    ensures Power(base, 2) == base * base
    ensures Power(base, 3) == base * (base * base)
    ensures Power(base, 4) == base * (base * (base * base))
    ensures Power(base, 5) == base * (base * (base * (base * base)))
    ensures Power(base, 6) == base * (base * (base * (base * (base * base))))
  {
    assert Power(base, 0) == 1;
  }

  // How any amount reads, signed or not, with any letters for a unit: binary and decimal units
  // multiply by what they stand for, thousandths are cut off toward zero, and what does not fit,
  // before or after, and unknown units are told apart.
  lemma AmountReads(sign: string, digits: string, unit: string)
    requires IsSign(sign) && AllDigits(digits) && digits != ""
    requires |unit| <= 2 && forall i :: 0 <= i < |unit| ==> IsAlpha(unit[i])
    ensures
      var negative, n := sign == "-", Value(digits);
      ToBytes(sign + digits + unit) ==
        if unit != "" && unit != "m" && Factor(unit).None? then InvalidUnit
        else if !Fits(negative, n) then NotAnInteger
        else if unit == "" then Bytes(Signed(negative, n))
        else if unit == "m" then Bytes(Signed(negative, n / 1000))
        else if Fits(negative, n * Factor(unit).value) then Bytes(Signed(negative, n * Factor(unit).value))
        else Overflow
  {
    MultiplierIsFactor(unit);
    if Multiplier(unit).Some? {
      FactorIsUnit(unit);
      WithUnit(sign, digits, unit, Multiplier(unit).value.0, Multiplier(unit).value.1);
      hide *;
    } else {
      WithoutFactor(sign, digits, unit);
    }
  }

  lemma FactorIsUnit(unit: string)
    requires Factor(unit).Some?
    ensures unit != "" && unit != "m"
  {
  }

  lemma WithoutFactor(sign: string, digits: string, unit: string)
    requires IsSign(sign) && AllDigits(digits) && digits != "" && Multiplier(unit).None?
    requires |unit| <= 2 && forall i :: 0 <= i < |unit| ==> IsAlpha(unit[i])
    ensures
      var negative, n := sign == "-", Value(digits);
      ToBytes(sign + digits + unit) ==
        if unit != "" && unit != "m" then InvalidUnit
        else if !Fits(negative, n) then NotAnInteger
        else if unit == "" then Bytes(Signed(negative, n))
        else Bytes(Signed(negative, n / 1000))
  {
    SignedParse(sign, digits);
    AmountHasNoLetters(sign, digits);
    hide Multiplier, Value, ParseI64, Fits;
    UnitOfAmount(sign + digits, unit);
    if unit != "" {
      WithoutUnit(sign + digits, unit);
    } else {
      assert sign + digits + unit == sign + digits;
    }
    hide Unit, Without, AllDigits, IsAlpha;
  }

  // The unit goes wherever it stands, not only at the end.
  lemma UnitGoesEverywhere(a: string, b: string, unit: string)
    requires NoLetters(a) && NoLetters(b) && b != ""
    requires 1 <= |unit| <= 2 && forall i :: 0 <= i < |unit| ==> IsAlpha(unit[i])
    ensures ToBytes(a + unit + b + unit) == ToBytes(a + b + unit)
  {
    hide IsAlpha, ParseI64, Scale, Multiplier, Unit, Without;
    TwiceInside(a, b, unit);
    WithoutEvery(a, unit, b + unit);
    WithoutUnit(b, unit);
    WithoutUnit(a + b, unit);
    UnitAfter(a + unit, b, unit);
    UnitAfter(a, b, unit);
  }

  lemma TwiceInside(a: string, b: string, unit: string)
    ensures a + unit + b + unit == a + (unit + (b + unit))
  {
  }

  lemma UnitAfter(before: string, amount: string, unit: string)
    requires NoLetters(amount) && amount != ""
    requires 1 <= |unit| <= 2 && forall i :: 0 <= i < |unit| ==> IsAlpha(unit[i])
    ensures Unit(before + amount + unit) == unit
  {
    var s := before + amount + unit;
    assert s[|s| - 1] == unit[|unit| - 1];
    assert |unit| == 1 ==> s[|s| - 2] == amount[|amount| - 1];
  }

  // Without a unit nothing else is a number.
  lemma OthersDoNotRead(s: string)
    requires s == "" || !IsAlpha(s[|s| - 1])
    ensures ToBytes(s).NotAnInteger? || exists sign, digits :: IsSign(sign) && AllDigits(digits) && digits != "" && s == sign + digits
  {
    if ParseI64(s).Some? {
      if s[0] == '-' || s[0] == '+' {
        assert s == [s[0]] + s[1..] && IsSign([s[0]]);
      } else {
        assert s == "" + s && IsSign("");
      }
    }
  }

  lemma SuffixScales(k: nat)
    requires 1 <= k <= 6
    ensures Multiplier(SUFFIXES[k]) == Some((1000, k))
  {
  }

  lemma {:induction false} CanonicalScaled(n: nat, k: nat)
    requires k <= 6 && n * Power(1000, k) <= I64_MAX
    ensures ToBytes(Canonical(n, k)) == Bytes(n * Power(1000, k))
    decreases n
  {
    hide ToBytes, Digits, Multiplier, Value;
    if n > 0 && n % 1000 == 0 && k < 6 {
      var m := n / 1000;
      assert Power(1000, k + 1) == 1000 * Power(1000, k) && n == m * 1000;
      Regroup(m, 1000, Power(1000, k));
      assert n * Power(1000, k) == (m * Power(1000, k)) * 1000;
      CanonicalScaled(m, k + 1);
    } else {
      PowerGrows(1000, 0, k);
      Times(Power(1000, k), 1, n);
      if k == 0 {
        assert "" + Digits(n) + "" == Digits(n) && n * Power(1000, 0) == n;
        DigitsValue(n);
        AmountReads("", Digits(n), "");
      } else {
        SuffixScales(k);
        DigitsValue(n);
        assert "" + Digits(n) == Digits(n);
        WithUnit("", Digits(n), SUFFIXES[k], 1000, k);
      }
    }
  }

  // Round trip: whatever number of bytes is requested, the form the API server stores reads
  // back as that number, with no overflow on the way; so once a StatefulSet has the desired
  // request, comparing the two finds them equal.
  lemma RoundTrip(n: nat)
    requires n <= I64_MAX
    ensures ToBytes(Canonical(n, 0)) == Bytes(n)
  {
    assert Power(1000, 0) == 1;
    hide *;
    CanonicalScaled(n, 0);
  }
}

/**
 * CPU and memory quantities as text: the tolerant parsers, the printers, and what the parsers
 * read back from the printers. Floats are exact rationals here.
 */
module ResourceQuantity {
  import opened Wrappers

  // ---------- rounding ----------

  /** round(): to the nearest integer, ties to the even one. */
  function RoundHalfEven(x: real): int {
    var f := x.Floor;
    var d := x - f as real;
    if d < 0.5 then f else if d > 0.5 then f + 1 else if f % 2 == 0 then f else f + 1
  }

  lemma RoundIsNearest(x: real)
    ensures -0.5 <= RoundHalfEven(x) as real - x <= 0.5
    ensures x == x.Floor as real ==> RoundHalfEven(x) == x.Floor
    ensures x - x.Floor as real == 0.5 ==> RoundHalfEven(x) % 2 == 0
  {
  }

  // ---------- digits ----------

  predicate IsDigit(c: char) {
    '0' <= c <= '9'
  }

  function DigitValue(c: char): nat
    requires IsDigit(c)
  {
    c as int - '0' as int
  }

  function Digit(d: nat): char
    requires d < 10
  {
    ('0' as int + d) as char
  }

  predicate AllDigits(s: string) {
    forall i :: 0 <= i < |s| ==> IsDigit(s[i])
  }

  function NatOf(s: string): nat
    requires AllDigits(s)
  {
    if s == "" then 0 else 10 * NatOf(s[..|s| - 1]) + DigitValue(s[|s| - 1])
  }

  function PrintNat(n: nat): string {
    if n < 10 then [Digit(n)] else PrintNat(n / 10) + [Digit(n % 10)]
  }

  lemma {:induction false} PrintNatReads(n: nat)
    ensures AllDigits(PrintNat(n)) && PrintNat(n) != "" && NatOf(PrintNat(n)) == n
  {
    if n < 10 {
      assert NatOf(PrintNat(n)[..0]) == 0;
    } else {
      PrintNatReads(n / 10);
      var s := PrintNat(n);
      assert s[..|s| - 1] == PrintNat(n / 10);
    }
  }

  function PrintInt(i: int): string {
    if i < 0 then "-" + PrintNat(-i) else PrintNat(i)
  }

  // ---------- text ----------

  predicate IsSpace(c: char) {
    c == ' ' || c == '\t' || c == '\n' || c == '\r' || c == '\U{000B}' || c == '\U{000C}'
  }

  function StripLeft(s: string): string {
    if s != "" && IsSpace(s[0]) then StripLeft(s[1..]) else s
  }

  function Strip(s: string): string {
    if s != "" && IsSpace(s[|s| - 1]) then Strip(s[..|s| - 1]) else StripLeft(s)
  }

  lemma StripNothing(s: string)
    requires s == "" || (!IsSpace(s[0]) && !IsSpace(s[|s| - 1]))
    ensures Strip(s) == s
  {
  }

  predicate Blank(s: string) {
    forall i :: 0 <= i < |s| ==> IsSpace(s[i])
  }

  /** Stripping takes away blanks at both ends, all of them and nothing else. */
  lemma {:induction false} StripLeftIs(s: string) returns (left: string)
    ensures Blank(left) && s == left + StripLeft(s)
    ensures StripLeft(s) == "" || !IsSpace(StripLeft(s)[0])
  {
    left := "";
    if s != "" && IsSpace(s[0]) {
      var rest := StripLeftIs(s[1..]);
      left := [s[0]] + rest;
      assert s == [s[0]] + s[1..];
    }
  }

  lemma {:induction false} StripIs(s: string) returns (left: string, right: string)
    ensures Blank(left) && Blank(right) && s == left + Strip(s) + right
    ensures Strip(s) == "" || (!IsSpace(Strip(s)[0]) && !IsSpace(Strip(s)[|Strip(s)| - 1]))
    decreases |s|
  {
    right := "";
    if s != "" && IsSpace(s[|s| - 1]) {
      var rest;
      left, rest := StripIs(s[..|s| - 1]);
      right := rest + [s[|s| - 1]];
      assert s == s[..|s| - 1] + [s[|s| - 1]];
      assert s == left + Strip(s) + right;
    } else {
      left := StripLeftIs(s);
      var kept := StripLeft(s);
      assert s == left + kept + right;
      if kept != "" { assert kept[|kept| - 1] == s[|s| - 1]; }
    }
  }

  function LowerChar(c: char): char {
    if 'A' <= c <= 'Z' then (c as int + 32) as char else c
  }

  function Lower(s: string): string {
    seq(|s|, i requires 0 <= i < |s| => LowerChar(s[i]))
  }

  predicate IsLetter(c: char) {
    'a' <= c <= 'z' || 'A' <= c <= 'Z'
  }

  /** How many leading digits there are. */
  function DigitRun(s: string): (n: nat)
    ensures n <= |s| && AllDigits(s[..n]) && (n < |s| ==> !IsDigit(s[n]))
  {
    if s != "" && IsDigit(s[0]) then
      var n := 1 + DigitRun(s[1..]);
      assert s[..n] == [s[0]] + s[1..][..n - 1];
      n
    else 0
  }

  lemma RunIs(d: string, rest: string)
    requires AllDigits(d) && (rest == "" || !IsDigit(rest[0]))
    ensures DigitRun(d + rest) == |d|
    ensures (d + rest)[..|d|] == d && (d + rest)[|d|..] == rest
  {
    var n := DigitRun(d + rest);
    var s := d + rest;
    assert forall i :: 0 <= i < |d| ==> IsDigit(s[i]);
    assert |d| < |s| ==> s[|d|] == rest[0];
    assert forall i :: 0 <= i < n ==> IsDigit(s[..n][i]) && s[..n][i] == s[i];
  }

  // ---------- numbers ----------

  function Pow10(n: nat): (p: real)
    ensures p > 0.0
  {
    if n == 0 then 1.0 else 10.0 * Pow10(n - 1)
  }

  /** An exponent at the start of `s`: its length (0 when there is none) and the factor it means. */
  function Exponent(s: string): (r: (nat, real))
    ensures r.0 <= |s|
  {
    if s == "" || (s[0] != 'e' && s[0] != 'E') then (0, 1.0)
    else
      var signed := |s| > 1 && (s[1] == '+' || s[1] == '-');
      var start := if signed then 2 else 1;
      var n := DigitRun(s[start..]);
      if n == 0 then (0, 1.0)
      else
        var power := Pow10(NatOf(s[start..][..n]));
        (start + n, if signed && s[1] == '-' then 1.0 / power else power)
  }

  function Decimal(whole: string, fraction: string): real
    requires AllDigits(whole) && AllDigits(fraction)
  {
    NatOf(whole) as real + NatOf(fraction) as real / Pow10(|fraction|)
  }

  /** The unsigned part of float(): digits, a point, digits, at least one of them, an exponent. */
  function ParseUnsigned(s: string): Option<real> {
    var a := DigitRun(s);
    var pointed := a < |s| && s[a] == '.';
    var b := if pointed then DigitRun(s[a + 1..]) else 0;
    var fraction := if pointed then s[a + 1..][..b] else "";
    var rest := if pointed then s[a + 1..][b..] else s[a..];
    if a + b == 0 then None
    else
      var (n, factor) := Exponent(rest);
      if n != |rest| then None else Some(Decimal(s[..a], fraction) * factor)
  }

  function ParseSigned(s: string): Option<real> {
    if s == "" then None
    else if s[0] == '-' then
      (match ParseUnsigned(s[1..]) case None => None case Some(x) => Some(-x))
    else if s[0] == '+' then ParseUnsigned(s[1..])
    else ParseUnsigned(s)
  }

  function ParseFloat(text: string): Option<real> {
    ParseSigned(Strip(text))
  }

  // ---------- the parsers ----------

  /** Cores; anything unreadable counts as zero. */
  function ParseCpu(text: string): real {
    if text == "" then 0.0
    else
      var s := Lower(Strip(text));
      if s != "" && s[|s| - 1] == 'm' then
        (match ParseFloat(s[..|s| - 1]) case None => 0.0 case Some(x) => x / 1000.0)
      else
        (match ParseFloat(s) case None => 0.0 case Some(x) => x)
  }

  /** MiB per unit; no unit and any unknown unit mean bytes. */
  function UnitFactor(unit: string): real {
    var u := Lower(unit);
    if u == "ti" || u == "t" then 1048576.0
    else if u == "gi" || u == "g" then 1024.0
    else if u == "mi" || u == "m" then 1.0
    else if u == "ki" || u == "k" then 1.0 / 1024.0
    else 1.0 / 1048576.0
  }

  /** MiB; digits, optional fraction and exponent, spaces, letters; anything else counts as zero. */
  function ParseMemory(text: string): real {
    ParseAmount(Strip(text))
  }

  function ParseAmount(s: string): real {
    var a := DigitRun(s);
    if a == 0 then 0.0 else AfterWhole(s[..a], s[a..])
  }

  /** A fraction needs a digit after the point. */
  function AfterWhole(whole: string, tail: string): real
    requires AllDigits(whole)
  {
    var b := if tail != "" && tail[0] == '.' then DigitRun(tail[1..]) else 0;
    if b > 0 then InUnit(Decimal(whole, tail[1..][..b]), tail[1..][b..]) else InUnit(Decimal(whole, ""), tail)
  }

  function InUnit(number: real, rest: string): real {
    var (n, factor) := Exponent(rest);
    var unit := StripLeft(rest[n..]);
    if AllLetters(unit) then number * factor * UnitFactor(unit) else 0.0
  }

  predicate AllLetters(s: string) {
    forall i :: 0 <= i < |s| ==> IsLetter(s[i])
  }

  // ---------- the printers ----------

  /** str() of k / 100: at least one digit after the point, no trailing zero beyond it. */
  function PrintHundredths(k: nat): string {
    PrintNat(k / 100) + "." + FractionDigits(k)
  }

  function FractionDigits(k: nat): string {
    if k % 10 == 0 then [Digit(k / 10 % 10)] else [Digit(k / 10 % 10), Digit(k % 10)]
  }

  function FormatCpu(cores: real): string {
    if cores < 1.0 then PrintInt(RoundHalfEven(cores * 1000.0)) + "m"
    else
      RoundIsNearest(cores * 100.0);
      PrintHundredths(RoundHalfEven(cores * 100.0))
  }

  predicate WholeGi(mib: real) {
    mib >= 1024.0 && (mib / 1024.0).Floor as real * 1024.0 == mib
  }

  function FormatMemory(mib: real): string {
    if WholeGi(mib) then PrintInt((mib / 1024.0).Floor) + "Gi" else PrintInt(RoundHalfEven(mib)) + "Mi"
  }

  // ---------- reading back ----------

  lemma LowerKeeps(s: string)
    requires forall i :: 0 <= i < |s| ==> !('A' <= s[i] <= 'Z')
    ensures Lower(s) == s
  {
  }

  lemma ParseDigits(d: string)
    requires AllDigits(d) && d != ""
    ensures ParseUnsigned(d) == Some(NatOf(d) as real)
  {
    RunIs(d, "");
    assert d + "" == d;
    assert Exponent("") == (0, 1.0);
  }

  lemma SignedNegative(d: string, x: real)
    requires ParseUnsigned(d) == Some(x)
    ensures ParseSigned("-" + d) == Some(-x)
  {
    assert ("-" + d)[1..] == d;
  }

  lemma NotStripped(d: string)
    requires AllDigits(d) && d != ""
    ensures Strip(d) == d && Strip("-" + d) == "-" + d
  {
    StripNothing(d);
    var s := "-" + d;
    assert s[0] == '-' && s[|s| - 1] == d[|d| - 1];
    StripNothing(s);
  }

  lemma ParseFloatInt(i: int)
    ensures ParseFloat(PrintInt(i)) == Some(i as real)
    ensures var s := PrintInt(i); s != "" && (forall k :: 0 <= k < |s| ==> IsDigit(s[k]) || s[k] == '-')
  {
    var n := if i < 0 then -i else i;
    PrintNatReads(n);
    var d := PrintNat(n);
    NotStripped(d);
    ParseDigits(d);
    SignedNegative(d, n as real);
  }

  /** Below one core the text is the value rounded to a millicore. */
  lemma CpuBelowOne(cores: real)
    requires cores < 1.0
    ensures ParseCpu(FormatCpu(cores)) == RoundHalfEven(cores * 1000.0) as real / 1000.0
  {
    var k := RoundHalfEven(cores * 1000.0);
    ParseFloatInt(k);
    var s := PrintInt(k) + "m";
    assert s[|s| - 1] == 'm' && s[..|s| - 1] == PrintInt(k);
    StripNothing(s);
    LowerKeeps(s);
  }

  lemma TwoDigits(t: nat, u: nat)
    requires t < 10 && u < 10
    ensures NatOf([Digit(t)]) == t && NatOf([Digit(t), Digit(u)]) == 10 * t + u
  {
    var one := [Digit(t)];
    assert one[..0] == "" && NatOf(one) == t;
    var two := [Digit(t), Digit(u)];
    assert two[..1] == one;
  }

  lemma Powers()
    ensures Pow10(0) == 1.0 && Pow10(1) == 10.0 && Pow10(2) == 100.0
  {
    assert Pow10(0) == 1.0;
    assert Pow10(1) == 10.0 * Pow10(0);
  }

  lemma Quotient(x: real, p: real, q: real)
    requires p == q && q != 0.0
    ensures x / p == x / q
  {
  }

  lemma FractionValue(k: nat)
    ensures AllDigits(FractionDigits(k))
    ensures NatOf(FractionDigits(k)) as real / Pow10(|FractionDigits(k)|) == (k % 100) as real / 100.0
  {
    var t, u := k / 10 % 10, k % 10;
    var f := FractionDigits(k);
    assert k % 100 == 10 * t + u;
    TwoDigits(t, u);
    Powers();
    if u == 0 {
      assert f == [Digit(t)] && NatOf(f) == t;
      Quotient(t as real, Pow10(|f|), 10.0);
    } else {
      assert f == [Digit(t), Digit(u)] && NatOf(f) == 10 * t + u;
      Quotient((10 * t + u) as real, Pow10(|f|), 100.0);
    }
  }

  lemma ParsePointed(whole: string, fraction: string)
    requires AllDigits(whole) && AllDigits(fraction) && whole != ""
    ensures ParseUnsigned(whole + "." + fraction) == Some(Decimal(whole, fraction))
  {
    var s := whole + "." + fraction;
    assert s == whole + ("." + fraction);
    RunIs(whole, "." + fraction);
    assert s[|whole| + 1..] == fraction;
    RunIs(fraction, "");
    assert fraction + "" == fraction;
    assert fraction[..|fraction|] == fraction && fraction[|fraction|..] == "";
    assert Exponent("") == (0, 1.0);
  }

  lemma HundredthsValue(k: nat)
    ensures AllDigits(PrintNat(k / 100)) && AllDigits(FractionDigits(k)) && PrintNat(k / 100) != ""
    ensures Decimal(PrintNat(k / 100), FractionDigits(k)) == k as real / 100.0
  {
    PrintNatReads(k / 100);
    FractionValue(k);
    Hundredth(k / 100, k % 100, k);
  }

  lemma Hundredth(q: nat, r: nat, k: nat)
    requires k == 100 * q + r
    ensures q as real + r as real / 100.0 == k as real / 100.0
  {
  }

  lemma ParseHundredths(k: nat)
    ensures ParseFloat(PrintHundredths(k)) == Some(k as real / 100.0)
    ensures var s := PrintHundredths(k); s != "" && forall i :: 0 <= i < |s| ==> IsDigit(s[i]) || s[i] == '.'
  {
    HundredthsValue(k);
    var whole := PrintNat(k / 100);
    var fraction := FractionDigits(k);
    ParsePointed(whole, fraction);
    var s := whole + "." + fraction;
    assert IsDigit(s[0]) && s[|s| - 1] == fraction[|fraction| - 1];
    StripNothing(s);
  }

  /** Text of digits and points is neither stripped, lowered nor taken for millicores. */
  lemma PlainCpu(s: string)
    requires s != "" && forall i :: 0 <= i < |s| ==> IsDigit(s[i]) || s[i] == '.'
    ensures ParseCpu(s) == match ParseFloat(s) case None => 0.0 case Some(x) => x
  {
    StripNothing(s);
    LowerKeeps(s);
    assert s[|s| - 1] != 'm';
  }

  /** From one core on the text is the value rounded to a hundredth. */
  lemma CpuFromOne(cores: real)
    requires cores >= 1.0
    ensures ParseCpu(FormatCpu(cores)) == RoundHalfEven(cores * 100.0) as real / 100.0
  {
    RoundIsNearest(cores * 100.0);
    var k: nat := RoundHalfEven(cores * 100.0);
    assert FormatCpu(cores) == PrintHundredths(k);
    ParseHundredths(k);
    PlainCpu(PrintHundredths(k));
  }

  /**
   * Reading back a printed CPU value: exact on whole millicores below one core and on whole
   * hundredths from one core on, and never off by more than half of the last printed digit.
   */
  lemma CpuReadsBack(cores: real)
    ensures var back := ParseCpu(FormatCpu(cores));
      && (cores < 1.0 ==> -0.0005 <= back - cores <= 0.0005)
      && (cores >= 1.0 ==> -0.005 <= back - cores <= 0.005)
      && (cores < 1.0 && cores * 1000.0 == (cores * 1000.0).Floor as real ==> back == cores)
      && (cores >= 1.0 && cores * 100.0 == (cores * 100.0).Floor as real ==> back == cores)
  {
    if cores < 1.0 {
      CpuBelowOne(cores);
      RoundIsNearest(cores * 1000.0);
    } else {
      CpuFromOne(cores);
      RoundIsNearest(cores * 100.0);
    }
  }

  /** What each unit means in MiB, in either case. */
  lemma Units()
    ensures UnitFactor("Ti") == 1024.0 * 1024.0 && UnitFactor("T") == 1024.0 * 1024.0
    ensures UnitFactor("Gi") == 1024.0 && UnitFactor("G") == 1024.0
    ensures UnitFactor("Mi") == 1.0 && UnitFactor("M") == 1.0 && UnitFactor("m") == 1.0
    ensures UnitFactor("Ki") == 1.0 / 1024.0 && UnitFactor("K") == 1.0 / 1024.0 && UnitFactor("k") == 1.0 / 1024.0
    ensures UnitFactor("B") == 1.0 / (1024.0 * 1024.0) && UnitFactor("") == 1.0 / (1024.0 * 1024.0)
  {
    assert Lower("Ti") == "ti" && Lower("T") == "t" && Lower("Gi") == "gi" && Lower("G") == "g";
    assert Lower("Mi") == "mi" && Lower("M") == "m" && Lower("m") == "m";
    assert Lower("Ki") == "ki" && Lower("K") == "k" && Lower("k") == "k" && Lower("B") == "b" && Lower("") == "";
  }

  /** A unit nobody knows counts as bytes. */
  lemma OtherUnits(unit: string)
    requires Lower(unit) !in {"ti", "t", "gi", "g", "mi", "m", "ki", "k"}
    ensures UnitFactor(unit) == 1.0 / (1024.0 * 1024.0)
  {
  }

  lemma WholeDecimal(d: string)
    requires AllDigits(d)
    ensures Decimal(d, "") == NatOf(d) as real
  {
    assert NatOf("") == 0 && Pow10(0) == 1.0;
  }

  /** Blanks or none, and any unit of letters or none, scale the number by the unit. */
  lemma InUnitIs(number: real, gap: string, unit: string)
    requires Blank(gap) && AllLetters(unit)
    ensures InUnit(number, gap + unit) == number * 1.0 * UnitFactor(unit)
  {
    BlankExponent(gap, unit);
    GapStripped(gap, unit);
  }

  /** Anything but letters after the number makes it no amount. */
  lemma BadUnit(number: real, rest: string)
    requires Exponent(rest).0 == 0 && !AllLetters(StripLeft(rest))
    ensures InUnit(number, rest) == 0.0
  {
    assert rest[0..] == rest;
  }

  /** A fraction of at least one digit counts; without one the number is whole. */
  lemma FractionRead(d: string, f: string, rest: string)
    requires AllDigits(d) && d != "" && AllDigits(f) && f != "" && (rest == "" || !IsDigit(rest[0]))
    ensures ParseAmount(d + ("." + (f + rest))) == InUnit(Decimal(d, f), rest)
  {
    var tail := "." + (f + rest);
    RunIs(d, tail);
    RunIs(f, rest);
    assert tail[1..] == f + rest;
  }

  lemma WholeRead(d: string, rest: string)
    requires AllDigits(d) && d != "" && (rest == "" || (!IsDigit(rest[0]) && rest[0] != '.'))
    ensures ParseAmount(d + rest) == InUnit(Decimal(d, ""), rest)
  {
    RunIs(d, rest);
  }

  lemma BlankExponent(gap: string, unit: string)
    requires Blank(gap) && AllLetters(unit)
    ensures Exponent(gap + unit) == (0, 1.0) && (gap + unit)[0..] == gap + unit
  {
    if gap == "" {
      assert gap + unit == unit;
      NoExponent(unit);
    } else {
      assert IsSpace((gap + unit)[0]);
    }
  }

  lemma {:induction false} GapStripped(gap: string, unit: string)
    requires Blank(gap) && AllLetters(unit)
    ensures StripLeft(gap + unit) == unit
  {
    if gap == "" {
      assert gap + unit == unit;
      assert unit != "" ==> IsLetter(unit[0]) && !IsSpace(unit[0]);
    } else {
      assert IsSpace((gap + unit)[0]) && (gap + unit)[1..] == gap[1..] + unit;
      GapStripped(gap[1..], unit);
    }
  }

  lemma UnitAmount(d: string, unit: string)
    requires AllDigits(d) && d != "" && AllLetters(unit)
    ensures ParseAmount(d + unit) == InUnit(Decimal(d, ""), unit)
  {
    assert unit != "" ==> IsLetter(unit[0]);
    WholeRead(d, unit);
  }

  lemma UnitMemory(d: string, unit: string)
    requires AllDigits(d) && d != "" && AllLetters(unit)
    ensures ParseMemory(d + unit) == ParseAmount(d + unit)
  {
    NotBlankEnds(d, unit);
    StripNothing(d + unit);
  }

  /** ... which is the number times what the unit means. */
  lemma InPlainUnit(x: real, unit: string)
    requires AllLetters(unit)
    ensures InUnit(x, unit) == x * UnitFactor(unit)
  {
    InUnitIs(x, "", unit);
    assert "" + unit == unit;
  }

  /** A whole number with any unit of letters, or with none, is read as the number in that unit ... */
  lemma ReadUnit(d: string, unit: string)
    requires AllDigits(d) && d != "" && AllLetters(unit)
    ensures ParseMemory(d + unit) == InUnit(Decimal(d, ""), unit)
  {
    UnitMemory(d, unit);
    UnitAmount(d, unit);
  }

  lemma NotBlankEnds(d: string, unit: string)
    requires AllDigits(d) && d != "" && AllLetters(unit)
    ensures var s := d + unit; !IsSpace(s[0]) && !IsSpace(s[|s| - 1])
  {
    var s := d + unit;
    assert IsDigit(s[0]);
    if unit == "" { assert IsDigit(s[|s| - 1]); } else { assert s[|s| - 1] == unit[|unit| - 1] && IsLetter(unit[|unit| - 1]); }
  }

  lemma NoExponent(unit: string)
    requires AllLetters(unit)
    ensures Exponent(unit) == (0, 1.0)
  {
    if |unit| > 1 { assert unit[1..][0] == unit[1] && DigitRun(unit[1..]) == 0; }
  }

  /** Below one core the text is in millicores, from one core on it has a point. */
  lemma CpuForm(cores: real)
    ensures var s := FormatCpu(cores);
      && s != "" && (cores < 1.0 <==> s[|s| - 1] == 'm') && (cores >= 1.0 <==> '.' in s)
  {
    if cores < 1.0 {
      ParseFloatInt(RoundHalfEven(cores * 1000.0));
    } else {
      RoundIsNearest(cores * 100.0);
      ParseHundredths(RoundHalfEven(cores * 100.0));
    }
  }

  /** Whole GiB are printed as such, everything else in MiB. */
  lemma MemoryForm(mib: real)
    ensures var s := FormatMemory(mib);
      && |s| > 2 && (s[|s| - 2..] == "Gi" || s[|s| - 2..] == "Mi")
      && (s[|s| - 2..] == "Gi" <==> mib >= 1024.0 && (mib / 1024.0).Floor as real == mib / 1024.0)
  {
    if WholeGi(mib) { ParseFloatInt((mib / 1024.0).Floor); } else { ParseFloatInt(RoundHalfEven(mib)); }
    assert mib / 1024.0 * 1024.0 == mib;
  }

  /** What does not begin with a digit is no amount, and counts as zero. */
  lemma UnreadableMemory(s: string)
    requires s == "" || (!IsSpace(s[0]) && !IsSpace(s[|s| - 1]) && !IsDigit(s[0]))
    ensures ParseMemory(s) == 0.0
  {
    StripNothing(s);
  }

  /** The power of ten an exponent of these digits means. */
  function Power(k: string, negative: bool): real
    requires AllDigits(k)
  {
    if negative then 1.0 / Pow10(NatOf(k)) else Pow10(NatOf(k))
  }

  /** An exponent as Python prints and reads it. */
  predicate IsExponent(e: string, k: string, negative: bool) {
    AllDigits(k) && k != "" && e == (if negative then "e-" else "e") + k
  }

  /** A number is scaled by what its exponent means. */
  lemma Scaled(d: string, e: string, factor: real)
    requires AllDigits(d) && d != "" && e != "" && e[0] == 'e' && Exponent(e) == (|e|, factor)
    ensures ParseUnsigned(d + e) == Some(Decimal(d, "") * factor)
  {
    RunIs(d, e);
    var s := d + e;
    assert DigitRun(s) == |d| && s[|d|] == 'e' && s[|d|..] == e && s[..|d|] == d;
  }

  /** An exponent means its power of ten, or one over it. */
  lemma ExponentIs(e: string, k: string, negative: bool)
    requires IsExponent(e, k, negative)
    ensures Exponent(e) == (|e|, Power(k, negative))
  {
    var start := if negative then 2 else 1;
    assert e[start..] == k && e[1] == (if negative then '-' else k[0]);
    RunIs(k, "");
    assert k + "" == k && k[..|k|] == k;
  }

  lemma ReadMi(d: string)
    requires AllDigits(d) && d != ""
    ensures ParseMemory(d + "Mi") == NatOf(d) as real
  {
    ReadUnit(d, "Mi");
    InPlainUnit(Decimal(d, ""), "Mi");
    WholeDecimal(d);
    Units();
  }

  lemma ReadGi(d: string)
    requires AllDigits(d) && d != ""
    ensures ParseMemory(d + "Gi") == NatOf(d) as real * 1024.0
  {
    ReadUnit(d, "Gi");
    InPlainUnit(Decimal(d, ""), "Gi");
    WholeDecimal(d);
    Units();
  }

  lemma MemoryGi(mib: real)
    requires WholeGi(mib)
    ensures ParseMemory(FormatMemory(mib)) == mib
  {
    var n: nat := (mib / 1024.0).Floor;
    PrintNatReads(n);
    ReadGi(PrintNat(n));
    assert FormatMemory(mib) == PrintNat(n) + "Gi";
  }

  lemma MemoryMi(mib: real)
    requires mib >= 0.0 && !WholeGi(mib)
    ensures ParseMemory(FormatMemory(mib)) == RoundHalfEven(mib) as real
  {
    RoundIsNearest(mib);
    var n: nat := RoundHalfEven(mib);
    PrintNatReads(n);
    ReadMi(PrintNat(n));
    assert FormatMemory(mib) == PrintNat(n) + "Mi";
  }

  /** Reading back a printed memory value: exact on every whole MiB, and within half a MiB otherwise. */
  lemma MemoryReadsBack(mib: real)
    requires mib >= 0.0
    ensures var back := ParseMemory(FormatMemory(mib));
      && -0.5 <= back - mib <= 0.5
      && (mib == mib.Floor as real ==> back == mib)
  {
    if WholeGi(mib) {
      MemoryGi(mib);
    } else {
      MemoryMi(mib);
      RoundIsNearest(mib);
    }
  }
}

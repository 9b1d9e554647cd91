/**
 * Decimal amounts at a ledger's scale (internal/model/amount.go).
 *
 * Parsing and printing each have two paths: integer arithmetic on 64 bits for
 * the values a ledger realistically carries, and arbitrary precision for the
 * rest of the 128-bit range.  The arbitrary-precision path is the reference:
 * the functions below define it, and the methods are the code that must be
 * indistinguishable from it.
 *
 * A Go string is a sequence of bytes; `string` here is a sequence of the same
 * values.  64-bit and 128-bit integers are newtypes, so the verifier rejects
 * any intermediate result that would wrap around.
 */
module Amount {
  newtype uint64 = x: int | 0 <= x < 0x1_0000_0000_0000_0000
  newtype uint128 = x: int | 0 <= x < 0x1_0000_0000_0000_0000_0000_0000_0000_0000

  const MAX_U64: nat := 0xFFFF_FFFF_FFFF_FFFF
  const MAX_U128: nat := 0xFFFF_FFFF_FFFF_FFFF_FFFF_FFFF_FFFF_FFFF
  const MAX_SCALE: nat := 18
  /** Strings are shorter than this, so that converting a length to int32 is exact. */
  const STRING_LIMIT: nat := 0x8000_0000

  datatype AmountError = UnsupportedScale | Empty | Malformed | NotDigits | TooManyDecimals | ExceedsUint128
  datatype Parsed = Accepted(value: uint128) | Rejected(error: AmountError)

  /******* Digit strings *******/

  predicate IsDigit(c: char) { '0' <= c <= '9' }

  predicate AllDigits(s: string) { forall i :: 0 <= i < |s| ==> IsDigit(s[i]) }

  function DigitValue(c: char): nat
    requires IsDigit(c)
  {
    (c as int) - ('0' as int)
  }

  function DigitChar(d: nat): (c: char)
    requires d < 10
    ensures IsDigit(c) && DigitValue(c) == d
  {
    (d + ('0' as int)) as char
  }

  /** The number a digit string denotes in base ten; the empty string denotes zero. */
  function Value(s: string): nat
    requires AllDigits(s)
  {
    if s == "" then 0 else 10 * Value(s[..|s| - 1]) + DigitValue(s[|s| - 1])
  }

  function Pow10(n: nat): (p: nat)
    ensures p > 0
  {
    if n == 0 then 1 else 10 * Pow10(n - 1)
  }

  function Zeros(n: nat): (z: string)
    ensures |z| == n && AllDigits(z)
    ensures forall i :: 0 <= i < n ==> z[i] == '0'
  {
    seq(n, _ => '0')
  }

  /** The decimal digits of n without leading zeros: what strconv and math/big print. */
  function Dec(n: nat): (s: string)
    ensures |s| > 0 && AllDigits(s)
  {
    if n < 10 then [DigitChar(n)] else Dec(n / 10) + [DigitChar(n % 10)]
  }

  lemma {:induction false} Pow10Add(a: nat, b: nat)
    ensures Pow10(a + b) == Pow10(a) * Pow10(b)
  {
    if a != 0 {
      Pow10Add(a - 1, b);
      assert Pow10(a + b) == 10 * Pow10(a - 1 + b);
    }
  }

  lemma {:induction false} Pow10Monotone(a: nat, b: nat)
    requires a <= b
    ensures Pow10(a) <= Pow10(b)
  {
    if a < b { Pow10Monotone(a, b - 1); }
  }

  lemma {:induction false} Pow10Eighteen()
    ensures Pow10(18) == 1_000_000_000_000_000_000
  {
    assert Pow10(6) == 1_000_000;
    Pow10Add(6, 6);
    Pow10Add(12, 6);
  }

  lemma {:induction false} ValueConcat(a: string, b: string)
    requires AllDigits(a) && AllDigits(b)
    ensures AllDigits(a + b)
    ensures Value(a + b) == Value(a) * Pow10(|b|) + Value(b)
  {
    if b == "" {
      assert a + b == a;
    } else {
      var b' := b[..|b| - 1];
      ValueConcat(a, b');
      assert (a + b)[..|a + b| - 1] == a + b';
      OneMoreDigit(Value(a), Pow10(|b'|), Value(b'), DigitValue(b[|b| - 1]));
    }
  }

  lemma {:induction false} OneMoreDigit(v: nat, p: nat, w: nat, d: nat)
    ensures 10 * (v * p + w) + d == v * (10 * p) + (10 * w + d)
  {
  }

  lemma {:induction false} ValueZeros(n: nat)
    ensures Value(Zeros(n)) == 0
  {
    if n > 0 {
      ValueZeros(n - 1);
      assert Zeros(n)[..n - 1] == Zeros(n - 1);
    }
  }

  lemma {:induction false} ValueBound(s: string)
    requires AllDigits(s)
    ensures Value(s) < Pow10(|s|)
  {
    if s != "" { ValueBound(s[..|s| - 1]); }
  }

  lemma {:induction false} ValuePrefix(s: string, i: nat)
    requires AllDigits(s) && i <= |s|
    ensures Value(s[..i]) <= Value(s)
  {
    ValueConcat(s[..i], s[i..]);
    assert s[..i] + s[i..] == s;
    MulMonotone(Value(s[..i]), 0, Pow10(|s[i..]|));
  }

  lemma {:induction false} ValueDec(n: nat)
    ensures Value(Dec(n)) == n
  {
    if n >= 10 {
      ValueDec(n / 10);
      assert Dec(n)[..|Dec(n)| - 1] == Dec(n / 10);
    }
  }

  lemma {:induction false} DecLength(n: nat, k: nat)
    requires k > 0 && n < Pow10(k)
    ensures |Dec(n)| <= k
  {
    if n >= 10 {
      assert k > 1;
      DecLength(n / 10, k - 1);
    }
  }

  /******* Parsing: the reference *******/

  /** strings.Cut(s, "."): the parts around the first dot. */
  function Cut(s: string): (r: (string, string, bool))
    ensures r.2 ==> s == r.0 + "." + r.1 && '.' !in r.0
    ensures !r.2 ==> r.0 == s && r.1 == "" && '.' !in s
  {
    if s == "" then ("", "", false)
    else if s[0] == '.' then ("", s[1..], true)
    else
      var (before, after, found) := Cut(s[1..]);
      ([s[0]] + before, after, found)
  }

  /** The amount's worth in minor units: integer part and fraction, both exact. */
  function Scaled(intPart: string, fracPart: string, scale: nat): nat
    requires AllDigits(intPart) && AllDigits(fracPart) && |fracPart| <= scale
  {
    Value(intPart) * Pow10(scale) + Value(fracPart) * Pow10(scale - |fracPart|)
  }

  /** parseAmountBig: concatenate the digits, pad to the scale, read as one number. */
  function ParseAmountBig(intPart: string, fracPart: string, scale: nat): Parsed
    requires AllDigits(intPart) && AllDigits(fracPart) && |fracPart| <= scale
  {
    var digits := intPart + fracPart + Zeros(scale - |fracPart|);
    if Value(digits) > MAX_U128 then Rejected(ExceedsUint128) else Accepted(Value(digits) as uint128)
  }

  /** ParseAmount with reference arithmetic only. */
  function ParseReference(s: string, scale: int): Parsed
  {
    if scale < 0 || scale > MAX_SCALE then Rejected(UnsupportedScale)
    else if s == "" then Rejected(Empty)
    else
      var (intPart, fracPart, hasDot) := Cut(s);
      if intPart == "" || (hasDot && fracPart == "") then Rejected(Malformed)
      else if !AllDigits(intPart) || (hasDot && !AllDigits(fracPart)) then Rejected(NotDigits)
      else if |fracPart| > scale then Rejected(TooManyDecimals)
      else ParseAmountBig(intPart, fracPart, scale)
  }

  lemma {:induction false} Distribute(i: nat, p: nat, f: nat, q: nat)
    ensures (i * p + f) * q == i * (p * q) + f * q
  {
  }

  lemma {:induction false} MulMonotone(a: nat, b: nat, q: nat)
    requires q > 0
    ensures a <= a * q
    ensures a < b ==> a * q < b * q
    ensures a <= b ==> a * q <= b * q
  {
  }

  lemma {:induction false} BigReadsScaled(intPart: string, fracPart: string, scale: nat)
    requires AllDigits(intPart) && AllDigits(fracPart) && |fracPart| <= scale
    ensures Value(intPart + fracPart + Zeros(scale - |fracPart|)) == Scaled(intPart, fracPart, scale)
  {
    var rest := scale - |fracPart|;
    ValueConcat(intPart, fracPart);
    ValueConcat(intPart + fracPart, Zeros(rest));
    ValueZeros(rest);
    Pow10Add(|fracPart|, rest);
    Distribute(Value(intPart), Pow10(|fracPart|), Value(fracPart), Pow10(rest));
  }

  /** s is written as an integer part, and a fraction after a dot unless the fraction is absent. */
  ghost predicate Spells(s: string, intPart: string, fracPart: string)
  {
    && intPart != "" && AllDigits(intPart) && AllDigits(fracPart)
    && s == (if fracPart == "" then intPart else intPart + "." + fracPart)
  }

  lemma {:induction false} CutAtDot(a: string, b: string)
    requires '.' !in a
    ensures Cut(a + "." + b) == (a, b, true)
  {
    var s := a + "." + b;
    if a == "" {
      assert s == "." + b && s[1..] == b;
    } else {
      CutAtDot(a[1..], b);
      assert s[0] == a[0] && s[1..] == a[1..] + "." + b;
      assert a == [a[0]] + a[1..];
    }
  }

  lemma {:induction false} CutSpelled(s: string, intPart: string, fracPart: string)
    requires Spells(s, intPart, fracPart)
    ensures Cut(s) == (intPart, fracPart, fracPart != "")
  {
    assert '.' !in intPart;
    if fracPart != "" { CutAtDot(intPart, fracPart); }
  }

  /** What is accepted, and what an accepted string is worth: exactly its decimal value. */
  lemma {:induction false} ParseMeaning(s: string, scale: int)
    ensures ParseReference(s, scale).Accepted? <==>
            0 <= scale <= MAX_SCALE &&
            exists i, f :: Spells(s, i, f) && |f| <= scale && Scaled(i, f, scale) <= MAX_U128
    ensures forall i, f :: Spells(s, i, f) && |f| <= scale && ParseReference(s, scale).Accepted? ==>
              ParseReference(s, scale).value as nat == Scaled(i, f, scale)
  {
    forall i, f | Spells(s, i, f) && |f| <= scale <= MAX_SCALE
      ensures ParseReference(s, scale) == ParseAmountBig(i, f, scale)
      ensures Value(i + f + Zeros(scale - |f|)) == Scaled(i, f, scale)
    {
      CutSpelled(s, i, f);
      BigReadsScaled(i, f, scale);
    }
    if ParseReference(s, scale).Accepted? {
      var (i, f, hasDot) := Cut(s);
      assert Spells(s, i, f);
    }
  }

  /** The first dot of s. */
  ghost predicate DotAt(s: string, d: nat)
  {
    d < |s| && s[d] == '.' && forall i :: 0 <= i < d ==> s[i] != '.'
  }

  /** There is nothing before the dot, or nothing after it. */
  ghost predicate PartMissing(s: string) { exists d :: DotAt(s, d) && (d == 0 || d == |s| - 1) }

  /** Something in s is neither a digit nor its first dot. */
  ghost predicate StrayChar(s: string)
  {
    exists i: nat :: i < |s| && !IsDigit(s[i]) && !DotAt(s, i)
  }

  lemma {:induction false} CutWhere(s: string)
    ensures var (a, b, found) := Cut(s);
            && (found ==> DotAt(s, |a|) && forall d: nat :: DotAt(s, d) ==> d == |a|)
            && (!found ==> forall d: nat :: !DotAt(s, d))
  {
    var (a, b, found) := Cut(s);
    if found {
      assert forall i :: 0 <= i < |a| ==> s[i] == a[i];
      assert DotAt(s, |a|);
    }
  }

  lemma {:induction false} MissingPart(s: string)
    requires s != ""
    ensures var (a, b, found) := Cut(s); PartMissing(s) <==> a == "" || (found && b == "")
  {
    CutWhere(s);
    var (a, b, found) := Cut(s);
    hide Cut;
    if found { assert |s| == |a| + 1 + |b| && DotAt(s, |a|); }
  }

  lemma {:induction false} StrayIn(s: string)
    ensures var (a, b, found) := Cut(s); StrayChar(s) <==> !AllDigits(a) || (found && !AllDigits(b))
  {
    CutWhere(s);
    var (a, b, found) := Cut(s);
    hide Cut;
    assert forall i: nat :: i < |a| ==> s[i] == a[i];
    if found {
      assert forall i: nat :: i < |b| ==> s[|a| + 1 + i] == b[i];
      assert forall i: nat :: |a| < i < |s| ==> s[i] == b[i - |a| - 1];
    }
  }

  /** Why a string is rejected: the first of these that is true of it, and accepted if none is. */
  lemma {:induction false} RejectionMeaning(s: string, scale: int)
    ensures ParseReference(s, scale) == Rejected(UnsupportedScale) <==> !(0 <= scale <= MAX_SCALE)
    ensures 0 <= scale <= MAX_SCALE ==>
              && (ParseReference(s, scale) == Rejected(Empty) <==> s == "")
              && (ParseReference(s, scale) == Rejected(Malformed) <==> PartMissing(s))
              && (ParseReference(s, scale) == Rejected(NotDigits) <==> !PartMissing(s) && StrayChar(s))
              && (ParseReference(s, scale) == Rejected(TooManyDecimals) <==>
                  exists i, f :: Spells(s, i, f) && |f| > scale)
              && (ParseReference(s, scale) == Rejected(ExceedsUint128) <==>
                  exists i, f :: Spells(s, i, f) && |f| <= scale && Scaled(i, f, scale) > MAX_U128)
  {
    if 0 <= scale <= MAX_SCALE && s != "" {
      MissingPart(s);
      StrayIn(s);
      SpelledOrNot(s);
      var (a, b, found) := Cut(s);
      if Spells(s, a, b) && |b| <= scale { BigReadsScaled(a, b, scale); }
      hide PartMissing, StrayChar, Cut, AllDigits, Value;
    }
  }

  /** A string spells an amount in one way only, the way it is cut, and only if nothing is missing or stray. */
  lemma {:induction false} SpelledOrNot(s: string)
    ensures var (a, b, found) := Cut(s);
            && (forall i, f :: Spells(s, i, f) ==> i == a && f == b)
            && (Spells(s, a, b) <==> a != "" && AllDigits(a) && AllDigits(b) && !(found && b == ""))
  {
    forall i, f | Spells(s, i, f) ensures Cut(s) == (i, f, f != "") { CutSpelled(s, i, f); }
  }

  /******* Parsing: the code *******/

  method IsDigits(s: string) returns (ok: bool)
    ensures ok <==> s != "" && AllDigits(s)
  {
    for i := 0 to |s|
      invariant AllDigits(s[..i])
    {
      if s[i] < '0' || s[i] > '9' { return false; }
    }
    assert s[..|s|] == s;
    return |s| > 0;
  }

  /** An entry of the table of 64-bit powers of ten: exact, because 10^18 < 2^64. */
  function Pow10U64(i: nat): (p: uint64)
    requires i <= MAX_SCALE
    ensures p as nat == Pow10(i)
  {
    Pow10Monotone(i, 18);
    Pow10Eighteen();
    Pow10(i) as uint64
  }

  /** The table's initialisation: each entry is ten times the one before, and none wraps. */
  method InitPow10U64() returns (table: seq<uint64>)
    ensures |table| == MAX_SCALE + 1
    ensures forall i :: 0 <= i < |table| ==> table[i] == Pow10U64(i)
  {
    table := [1];
    for i := 1 to MAX_SCALE + 1
      invariant |table| == i
      invariant forall j :: 0 <= j < i ==> table[j] == Pow10U64(j)
    {
      assert Pow10U64(i) as nat == 10 * Pow10(i - 1);
      table := table + [table[i - 1] * 10];
    }
  }

  /** atoiUint64: succeeds exactly when the digits' value fits, however many leading zeros. */
  method AtoiUint64(s: string) returns (v: uint64, ok: bool)
    requires AllDigits(s)
    ensures ok <==> Value(s) <= MAX_U64
    ensures ok ==> v as nat == Value(s)
  {
    v := 0;
    for i := 0 to |s|
      invariant v as nat == Value(s[..i])
    {
      var d := DigitValue(s[i]) as uint64;
      assert s[..i + 1][..i] == s[..i];
      if v > (0xFFFF_FFFF_FFFF_FFFF - d) / 10 {
        ValuePrefix(s, i + 1);
        return 0, false;
      }
      v := v * 10 + d;
    }
    assert s[..|s|] == s;
    return v, true;
  }

  lemma {:induction false} DivisionBound(v: nat, m: nat, d: nat)
    requires d > 0
    ensures v > m / d <==> v * d > m
  {
    if v > m / d {
      assert v * d >= (m / d + 1) * d;
    } else {
      assert v * d <= (m / d) * d;
    }
  }

  /** parseUint64: never rejects, and succeeds exactly when the scaled value fits in 64 bits. */
  method ParseUint64(intPart: string, fracPart: string, scale: nat) returns (v: uint64, ok: bool)
    requires AllDigits(intPart) && AllDigits(fracPart) && |fracPart| <= scale <= MAX_SCALE
    ensures ok <==> Scaled(intPart, fracPart, scale) <= MAX_U64
    ensures ok ==> v as nat == Scaled(intPart, fracPart, scale)
  {
    NoFraction(intPart, scale);
    hide Value, Pow10;
    var fits;
    v, fits := ScaleInteger(intPart, scale);
    if !fits { return 0, false; }
    if |fracPart| > 0 {
      var f := ScaleFraction(fracPart, scale);
      if v > 0xFFFF_FFFF_FFFF_FFFF - f { return 0, false; }
      v := v + f;
    }
    return v, true;
  }

  lemma {:induction false} NoFraction(intPart: string, scale: nat)
    requires AllDigits(intPart)
    ensures Scaled(intPart, "", scale) == Value(intPart) * Pow10(scale)
  {
    assert Value("") * Pow10(scale) == 0;
  }

  method ScaleInteger(intPart: string, scale: nat) returns (v: uint64, ok: bool)
    requires AllDigits(intPart) && scale <= MAX_SCALE
    ensures ok <==> Value(intPart) * Pow10(scale) <= MAX_U64
    ensures ok ==> v as nat == Value(intPart) * Pow10(scale)
  {
    MulMonotone(Value(intPart), 0, Pow10(scale));
    v, ok := AtoiUint64(intPart);
    if !ok { return 0, false; }
    v, ok := MulChecked(v, Pow10U64(scale));
  }

  /** The fraction's worth in minor units: at most 18 digits, so it cannot overflow. */
  method ScaleFraction(fracPart: string, scale: nat) returns (f: uint64)
    requires AllDigits(fracPart) && |fracPart| <= scale <= MAX_SCALE
    ensures f as nat == Value(fracPart) * Pow10(scale - |fracPart|)
  {
    FractionFits(fracPart, scale);
    var ok;
    f, ok := AtoiUint64(fracPart);
    assert ok;
    f := Mul(f, Pow10U64(scale - |fracPart|));
  }

  /** A product known to fit. */
  function Mul(a: uint64, b: uint64): (c: uint64)
    requires a as nat * b as nat <= MAX_U64
    ensures c as nat == a as nat * b as nat
  {
    a * b
  }

  /** The guard before a product: it lets through exactly the products that fit. */
  method MulChecked(v: uint64, div: uint64) returns (r: uint64, ok: bool)
    requires div != 0
    ensures ok <==> v as nat * div as nat <= MAX_U64
    ensures ok ==> r as nat == v as nat * div as nat
  {
    DivisionBound(v as nat, MAX_U64, div as nat);
    if v > 0xFFFF_FFFF_FFFF_FFFF / div { return 0, false; }
    return Mul(v, div), true;
  }

  lemma {:induction false} FractionFits(fracPart: string, scale: nat)
    requires AllDigits(fracPart) && |fracPart| <= scale <= MAX_SCALE
    ensures Value(fracPart) * Pow10(scale - |fracPart|) < Pow10(scale) <= Pow10(18) <= MAX_U64
    ensures Value(fracPart) <= MAX_U64
  {
    var rest := scale - |fracPart|;
    ValueBound(fracPart);
    Pow10Add(|fracPart|, rest);
    Pow10Monotone(scale, 18);
    Pow10Eighteen();
    MulMonotone(Value(fracPart), Pow10(|fracPart|), Pow10(rest));
  }

  /** ParseAmount: on every string and scale, what the reference arithmetic answers. */
  method ParseAmount(s: string, scale: int) returns (r: Parsed)
    requires |s| < STRING_LIMIT
    ensures r == ParseReference(s, scale)
  {
    if scale < 0 || scale > MAX_SCALE { return Rejected(UnsupportedScale); }
    if s == "" { return Rejected(Empty); }
    var (intPart, fracPart, hasDot) := Cut(s);
    if intPart == "" || (hasDot && fracPart == "") { return Rejected(Malformed); }
    var intDigits := IsDigits(intPart);
    var fracDigits := IsDigits(fracPart);
    if !intDigits || (hasDot && !fracDigits) { return Rejected(NotDigits); }
    if |fracPart| > scale { return Rejected(TooManyDecimals); }
    var v, ok := ParseUint64(intPart, fracPart, scale);
    BigReadsScaled(intPart, fracPart, scale);
    if ok { return Accepted(v as uint128); }
    return ParseAmountBig(intPart, fracPart, scale);
  }

  /******* Printing *******/

  function PadLeft(s: string, width: nat): string
  {
    if |s| >= width then s else Zeros(width - |s|) + s
  }

  /** formatAmountBig: quotient, dot, and the remainder padded with zeros to the scale. */
  function FormatReference(u: nat, scale: nat): string
  {
    if scale == 0 then Dec(u)
    else
      var (q, r) := QuoRem(u, Pow10(scale));
      Dec(q) + "." + PadLeft(Dec(r), scale)
  }

  /** Truncated division of non-negative integers. */
  function QuoRem(n: nat, d: nat): (qr: (nat, nat))
    requires d > 0
    ensures n == qr.0 * d + qr.1 && qr.1 < d
  {
    (n / d, n % d)
  }

  lemma {:induction false} QuoRemUnique(q: nat, r: nat, d: nat)
    requires r < d
    ensures QuoRem(q * d + r, d) == (q, r)
  {
    var (q', r') := QuoRem(q * d + r, d);
    DistinctMultiples(q, q', d);
    DistinctMultiples(q', q, d);
  }

  lemma {:induction false} DistinctMultiples(a: nat, b: nat, d: nat)
    ensures a < b ==> a * d + d <= b * d
  {
    if a < b {
      DistinctMultiples(a, b - 1, d);
      LastMultiple(b, d);
    }
  }

  lemma {:induction false} LastMultiple(b: nat, d: nat)
    requires b > 0
    ensures b * d == (b - 1) * d + d
  {
  }

  /** formatUint64: the same text, and never more than its 38-byte buffer. */
  method FormatUint64(v: uint64, scale: nat) returns (text: string)
    requires scale <= MAX_SCALE
    ensures text == FormatReference(v as nat, scale)
    ensures scale > 0 ==> |text| <= 38
  {
    NoDecimals(v as nat);
    hide FormatReference, PadLeft, Dec, Pow10, Pow10U64, Quotient, Remainder;
    if scale == 0 { return Dec(v as nat); }
    var div := Pow10U64(scale);
    var q, r := Quotient(v, div), Remainder(v, div);
    FormatByParts(v, div, scale);
    FormatFitsBuffer(v as nat, scale);
    text := AppendFraction(Dec(q as nat) + ".", r, scale);
  }

  lemma {:induction false} NoDecimals(v: nat)
    ensures FormatReference(v, 0) == Dec(v)
  {
  }

  function Quotient(v: uint64, div: uint64): uint64
    requires div != 0
  {
    v / div
  }

  function Remainder(v: uint64, div: uint64): uint64
    requires div != 0
  {
    v % div
  }

  lemma {:induction false} FormatByParts(v: uint64, div: uint64, scale: nat)
    requires scale > 0 && div as nat == Pow10(scale)
    ensures FormatReference(v as nat, scale) ==
            Dec(Quotient(v, div) as nat) + "." + PadLeft(Dec(Remainder(v, div) as nat), scale)
  {
    hide PadLeft, Dec, Pow10;
  }

  /** The two loops of formatUint64: count the remainder's digits, then write the missing zeros. */
  method AppendFraction(head: string, r: uint64, scale: nat) returns (b: string)
    ensures b == head + PadLeft(Dec(r as nat), scale)
  {
    var digits := 1;
    var t := r;
    while t >= 10
      invariant digits + |Dec(t as nat)| == |Dec(r as nat)| + 1
    {
      digits := digits + 1;
      t := t / 10;
    }
    b := head;
    ghost var missing := if scale > digits then scale - digits else 0;
    var pad := scale - digits;
    while pad > 0
      invariant pad <= missing
      invariant b == head + Zeros(if pad > 0 then missing - pad else missing)
    {
      b := b + "0";
      pad := pad - 1;
    }
    b := b + Dec(r as nat);
    Associative(head, Zeros(missing), Dec(r as nat));
    assert missing == 0 ==> Zeros(0) + Dec(r as nat) == Dec(r as nat);
  }

  lemma {:induction false} Associative(a: string, b: string, c: string)
    ensures a + b + c == a + (b + c)
  {
  }

  lemma {:induction false} FormatFitsBuffer(v: nat, scale: nat)
    requires v <= MAX_U64 && 0 < scale <= MAX_SCALE
    ensures |FormatReference(v, scale)| <= 38
  {
    var (q, r) := QuoRem(v, Pow10(scale));
    QuotientFits(v, scale);
    hide Pow10;
    DecLength(q, 19);
    DecLength(r, scale);
  }

  lemma {:induction false} QuotientFits(v: nat, scale: nat)
    requires v <= MAX_U64 && 0 < scale
    ensures QuoRem(v, Pow10(scale)).0 < Pow10(19)
  {
    Pow10Monotone(1, scale);
    Pow10Eighteen();
    hide Pow10;
    ProductBound(QuoRem(v, Pow10(scale)).0, Pow10(scale), v);
  }

  lemma {:induction false} ProductBound(q: nat, d: nat, v: nat)
    requires d >= 10 && q * d <= v
    ensures 10 * q <= v
  {
  }

  /** FormatAmount: both paths print the reference text. */
  method FormatAmount(u: uint128, scale: nat) returns (text: string)
    requires scale <= MAX_SCALE
    ensures text == FormatReference(u as nat, scale)
  {
    var hi := u / 0x1_0000_0000_0000_0000;
    if hi == 0 {
      text := FormatUint64(u as uint64, scale);
    } else {
      text := FormatReference(u as nat, scale);
    }
  }

  /******* Round trips *******/

  lemma {:induction false} PadLeftDigits(s: string, width: nat)
    requires AllDigits(s)
    ensures AllDigits(PadLeft(s, width))
    ensures Value(PadLeft(s, width)) == Value(s)
    ensures |s| <= width ==> |PadLeft(s, width)| == width
  {
    if |s| < width {
      ValueConcat(Zeros(width - |s|), s);
      ValueZeros(width - |s|);
    }
  }

  /** Printing any 128-bit value and parsing the text gives the value back. */
  lemma {:induction false} ParseOfFormat(u: uint128, scale: nat)
    requires scale <= MAX_SCALE
    ensures ParseReference(FormatReference(u as nat, scale), scale) == Accepted(u)
  {
    var n := u as nat;
    var text := FormatReference(n, scale);
    if scale == 0 {
      ValueDec(n);
      assert Spells(text, Dec(n), "");
      assert Scaled(Dec(n), "", 0) == n;
    } else {
      var (q, r) := QuoRem(n, Pow10(scale));
      var intPart, fracPart := Dec(q), PadLeft(Dec(r), scale);
      ValueDec(q);
      ValueDec(r);
      DecLength(r, scale);
      PadLeftDigits(Dec(r), scale);
      assert Spells(text, intPart, fracPart);
      assert Scaled(intPart, fracPart, scale) == n;
    }
    ParseMeaning(text, scale);
  }

  function StripZeros(s: string): string
  {
    if |s| > 1 && s[0] == '0' then StripZeros(s[1..]) else s
  }

  /** One spelling per amount: no superfluous leading zero, exactly `scale` decimals. */
  function Canonical(intPart: string, fracPart: string, scale: nat): string
    requires |fracPart| <= scale
  {
    if scale == 0 then StripZeros(intPart)
    else StripZeros(intPart) + "." + fracPart + Zeros(scale - |fracPart|)
  }

  lemma {:induction false} LeadingZero(t: string)
    requires AllDigits(t)
    ensures AllDigits("0" + t) && Value("0" + t) == Value(t)
  {
    ValueConcat("0", t);
    assert "0"[..0] == "" && Value("0") == 0;
  }

  lemma {:induction false} StripZerosValue(s: string)
    requires s != "" && AllDigits(s)
    ensures AllDigits(StripZeros(s)) && Value(StripZeros(s)) == Value(s)
    ensures |StripZeros(s)| > 0 && (|StripZeros(s)| > 1 ==> StripZeros(s)[0] != '0')
    ensures PadLeft(StripZeros(s), |s|) == s
  {
    hide Value;
    if |s| > 1 && s[0] == '0' {
      var t := s[1..];
      StripZerosValue(t);
      assert s == "0" + t;
      LeadingZero(t);
      PadOne(StripZeros(t), |t|);
    }
  }

  lemma {:induction false} PadOne(s: string, width: nat)
    requires |s| <= width
    ensures PadLeft(s, width + 1) == "0" + PadLeft(s, width)
  {
    var z := Zeros(width - |s|);
    assert Zeros(width + 1 - |s|) == "0" + z;
    hide Zeros;
    Associative("0", z, s);
    assert |s| == width ==> z + s == s;
  }

  lemma {:induction false} DecOfValue(s: string)
    requires s != "" && AllDigits(s) && (|s| > 1 ==> s[0] != '0')
    ensures Dec(Value(s)) == s
    ensures |s| > 1 ==> Value(s) >= 10
  {
    var last := s[|s| - 1];
    if |s| == 1 {
      assert s[..0] == "";
      assert Value(s) == DigitValue(last);
      assert s == [DigitChar(DigitValue(last))];
    } else {
      var t := s[..|s| - 1];
      DecOfValue(t);
      assert Value(t) >= 1 by {
        if |t| == 1 { assert t[..0] == ""; assert Value(t) == DigitValue(t[0]); }
      }
      assert Value(s) == 10 * Value(t) + DigitValue(last);
      assert Value(s) / 10 == Value(t) && Value(s) % 10 == DigitValue(last);
      assert s == t + [DigitChar(DigitValue(last))];
    }
  }

  lemma {:induction false} DecIsStripped(s: string)
    requires s != "" && AllDigits(s)
    ensures Dec(Value(s)) == StripZeros(s)
  {
    StripZerosValue(s);
    DecOfValue(StripZeros(s));
  }

  /** Parsing any accepted string and printing the result gives the string's canonical form. */
  lemma {:induction false} FormatOfParse(s: string, intPart: string, fracPart: string, scale: nat)
    requires Spells(s, intPart, fracPart) && |fracPart| <= scale
    requires ParseReference(s, scale).Accepted?
    ensures FormatReference(ParseReference(s, scale).value as nat, scale) == Canonical(intPart, fracPart, scale)
  {
    ParseMeaning(s, scale);
    FormatOfScaled(intPart, fracPart, scale);
  }

  lemma {:induction false} FormatOfScaled(intPart: string, fracPart: string, scale: nat)
    requires intPart != "" && AllDigits(intPart) && AllDigits(fracPart) && |fracPart| <= scale
    ensures FormatReference(Scaled(intPart, fracPart, scale), scale) == Canonical(intPart, fracPart, scale)
  {
    DecIsStripped(intPart);
    ScaledIsPadded(intPart, fracPart, scale);
    var zeros := Zeros(scale - |fracPart|);
    if scale == 0 {
      assert Pow10(0) == 1 && Value("") == 0;
      assert fracPart + zeros == "";
    } else {
      hide Scaled, Value, Pow10, Dec, StripZeros, Zeros, FormatReference;
      FormatOfParts(Value(intPart), Value(fracPart + zeros), scale);
      PaddedDigits(fracPart + zeros);
      Associative(StripZeros(intPart) + ".", fracPart, zeros);
    }
  }

  lemma {:induction false} FormatOfParts(q: nat, r: nat, scale: nat)
    requires scale > 0 && r < Pow10(scale)
    ensures FormatReference(q * Pow10(scale) + r, scale) == Dec(q) + "." + PadLeft(Dec(r), scale)
  {
    hide Dec, Pow10, PadLeft;
    QuoRemUnique(q, r, Pow10(scale));
  }

  /** Padding the fraction with zeros to the scale makes it the remainder. */
  lemma {:induction false} ScaledIsPadded(intPart: string, fracPart: string, scale: nat)
    requires AllDigits(intPart) && AllDigits(fracPart) && |fracPart| <= scale
    ensures var padded := fracPart + Zeros(scale - |fracPart|);
            && AllDigits(padded) && |padded| == scale && Value(padded) < Pow10(scale)
            && Scaled(intPart, fracPart, scale) == Value(intPart) * Pow10(scale) + Value(padded)
  {
    var zeros := Zeros(scale - |fracPart|);
    ValueConcat(fracPart, zeros);
    ValueZeros(|zeros|);
    ValueBound(fracPart + zeros);
  }

  lemma {:induction false} PaddedDigits(s: string)
    requires s != "" && AllDigits(s)
    ensures PadLeft(Dec(Value(s)), |s|) == s
  {
    DecIsStripped(s);
    StripZerosValue(s);
  }

  /** Two accepted strings are worth the same exactly when their canonical forms are the same text. */
  lemma {:induction false} EqualAmountsEqualCanonical(s: string, i: string, f: string, t: string, j: string,
      g: string, scale: nat)
    requires Spells(s, i, f) && |f| <= scale && ParseReference(s, scale).Accepted?
    requires Spells(t, j, g) && |g| <= scale && ParseReference(t, scale).Accepted?
    ensures ParseReference(s, scale) == ParseReference(t, scale) <==>
            Canonical(i, f, scale) == Canonical(j, g, scale)
  {
    FormatOfParse(s, i, f, scale);
    FormatOfParse(t, j, g, scale);
    ParseOfFormat(ParseReference(s, scale).value, scale);
    ParseOfFormat(ParseReference(t, scale).value, scale);
  }
}

/** Base58 decoding of instruction data (the two parser modules hold identical copies). */
module Base58 {
  import opened Options

  /** Digits and letters in order, without 0, O, I and l. */
  const ALPHABET := "123456789" + "ABCDEFGH" + "JKLMN" + "PQRSTUVWXYZ" + "abcdefghijk" + "mnopqrstuvwxyz"

  // --- positional numerals in any base -------------------------------------

  /** Digits of some base, most significant first. */
  ghost predicate Digits(ds: seq<int>, base: int) {
    base >= 2 && forall i :: 0 <= i < |ds| ==> 0 <= ds[i] < base
  }

  function Value(ds: seq<int>, base: int): int {
    if ds == [] then 0 else Value(ds[..|ds| - 1], base) * base + ds[|ds| - 1]
  }

  /** The numeral of n without leading zeros. */
  function Numeral(n: nat, base: int): (ds: seq<int>)
    requires base >= 2
    decreases n
  {
    if n == 0 then [] else
      QuotientLess(n, base);
      Numeral(n / base, base) + [n % base]
  }

  lemma QuotientLess(n: nat, base: int)
    requires base >= 2 && n > 0
    ensures 0 <= n / base < n
  {
    var q, r := n / base, n % base;
    assert n == q * base + r;
    if q >= n {
      TimesAtLeast(q, base, 2);
    }
    if q < 0 {
      TimesAtLeast(-q, base, 1);
    }
  }

  lemma TimesAtLeast(q: int, base: int, low: int)
    requires q >= 1 && base >= low >= 0
    ensures q * base >= q * low && q * base >= base
  {
  }

  lemma QuotientAndRest(n: nat, base: int)
    requires base >= 2
    ensures n == (n / base) * base + n % base && 0 <= n % base < base
  {
  }

  lemma ValueOfOneMore(ds: seq<int>, r: int, base: int)
    requires Digits(ds + [r], base)
    ensures Digits(ds, base) && Value(ds + [r], base) == Value(ds, base) * base + r
  {
    assert (ds + [r])[..|ds|] == ds;
    assert forall i :: 0 <= i < |ds| ==> (ds + [r])[i] == ds[i];
  }

  lemma {:induction false} NumeralShape(n: nat, base: int)
    requires base >= 2
    ensures Digits(Numeral(n, base), base)
    ensures n > 0 ==> Numeral(n, base) != [] && Numeral(n, base)[0] != 0
    decreases n
  {
    if n > 0 {
      QuotientLess(n, base);
      QuotientAndRest(n, base);
      NumeralShape(n / base, base);
    }
  }

  lemma {:induction false} NumeralDigits(n: nat, base: int)
    requires base >= 2
    ensures Digits(Numeral(n, base), base)
    ensures Value(Numeral(n, base), base) == n
    ensures n > 0 ==> Numeral(n, base) != [] && Numeral(n, base)[0] != 0
    decreases n
  {
    NumeralShape(n, base);
    if n > 0 {
      QuotientLess(n, base);
      NumeralDigits(n / base, base);
      ValueOfOneMore(Numeral(n / base, base), n % base, base);
      QuotientAndRest(n, base);
    }
  }

  lemma {:induction false} ValueNonNegative(ds: seq<int>, base: int)
    requires Digits(ds, base)
    ensures Value(ds, base) >= 0
    ensures ds != [] && ds[0] != 0 ==> Value(ds, base) > 0
  {
    if ds != [] {
      ValueNonNegative(ds[..|ds| - 1], base);
      var v := Value(ds[..|ds| - 1], base);
      assert v * base >= 0;
      if |ds| > 1 && ds[0] != 0 {
        assert ds[..|ds| - 1][0] != 0;
        assert v * base > 0;
      }
    }
  }

  lemma DivMod(v: int, base: int, r: int)
    requires base >= 2 && 0 <= r < base
    ensures (v * base + r) / base == v && (v * base + r) % base == r
  {
    var n := v * base + r;
    var q, m := n / base, n % base;
    assert n == q * base + m && 0 <= m < base;
    var d := q - v;
    assert d * base == r - m && (-d) * base == m - r;
    if d > 0 { TimesAtLeast(d, base, 1); }
    if d < 0 { TimesAtLeast(-d, base, 1); }
  }

  /** A numeral without leading zeros is the numeral of its value. */
  lemma {:induction false} NumeralOfValue(ds: seq<int>, base: int)
    requires Digits(ds, base) && (ds != [] ==> ds[0] != 0)
    ensures Value(ds, base) >= 0
    ensures Numeral(Value(ds, base), base) == ds
  {
    ValueNonNegative(ds, base);
    if ds != [] {
      var front := ds[..|ds| - 1];
      if front != [] { assert front[0] == ds[0]; }
      NumeralOfValue(front, base);
      DivMod(Value(front, base), base, ds[|ds| - 1]);
      assert ds == front + [ds[|ds| - 1]];
    }
  }

  function Zeros(n: nat): seq<int> { seq(n, _ => 0) }

  /** How many leading zeros a digit sequence has. */
  function LeadingZeros(ds: seq<int>): (n: nat)
    ensures n <= |ds|
    ensures forall i :: 0 <= i < n ==> ds[i] == 0
    ensures n < |ds| ==> ds[n] != 0
  {
    if ds == [] || ds[0] != 0 then 0 else 1 + LeadingZeros(ds[1..])
  }

  lemma {:induction false} ZerosDoNotCount(ds: seq<int>, base: int)
    requires Digits(ds, base)
    ensures Value(ds, base) == Value(ds[LeadingZeros(ds)..], base)
  {
    var k := LeadingZeros(ds);
    if |ds| > k {
      assert ds[..|ds| - 1][..k] == ds[..k];
      SameLeading(ds, |ds| - 1);
      ZerosDoNotCount(ds[..|ds| - 1], base);
      assert ds[k..][..|ds[k..]| - 1] == ds[..|ds| - 1][k..];
    } else {
      AllZero(ds, base);
    }
  }

  lemma SameLeading(ds: seq<int>, n: nat)
    requires n == |ds| - 1 && LeadingZeros(ds) <= n
    ensures LeadingZeros(ds[..n]) == LeadingZeros(ds)
  {
    LeadingUnique(ds[..n], LeadingZeros(ds));
  }

  lemma {:induction false} LeadingUnique(ds: seq<int>, k: nat)
    requires k <= |ds| && (forall i :: 0 <= i < k ==> ds[i] == 0) && (k < |ds| ==> ds[k] != 0)
    ensures LeadingZeros(ds) == k
  {
  }

  lemma {:induction false} AllZero(ds: seq<int>, base: int)
    requires forall i :: 0 <= i < |ds| ==> ds[i] == 0
    ensures Value(ds, base) == 0
  {
    if ds != [] { AllZero(ds[..|ds| - 1], base); }
  }

  /** The change of base that keeps leading zeros: as many of them, then the numeral of the value. */
  function Rebase(ds: seq<int>, from: int, to: int): seq<int>
    requires Digits(ds, from) && to >= 2
  {
    ValueNonNegative(ds, from);
    Zeros(LeadingZeros(ds)) + Numeral(Value(ds, from), to)
  }

  /** A digit sequence is its leading zeros followed by the numeral of its value. */
  lemma {:induction false} Shape(ds: seq<int>, base: int)
    requires Digits(ds, base)
    ensures Value(ds, base) >= 0
    ensures ds == Zeros(LeadingZeros(ds)) + Numeral(Value(ds, base), base)
  {
    var z := LeadingZeros(ds);
    var tail := ds[z..];
    ZerosDoNotCount(ds, base);
    NumeralOfValue(tail, base);
    hide Value, Numeral, LeadingZeros, Digits;
    assert ds == Zeros(z) + tail;
  }

  lemma {:induction false} PaddedNumeral(z: nat, n: nat, base: int)
    requires base >= 2
    ensures var es := Zeros(z) + Numeral(n, base);
      Digits(es, base) && LeadingZeros(es) == z && Value(es, base) == n
  {
    NumeralDigits(n, base);
    var body := Numeral(n, base);
    var es := Zeros(z) + body;
    assert body == [] || es[z] == body[0];
    LeadingUnique(es, z);
    ZerosDoNotCount(es, base);
    assert es[z..] == body;
  }

  /** Changing the base and back is the identity, so it is a bijection between the digit sequences of
      any two bases. */
  lemma RebaseInverts(ds: seq<int>, from: int, to: int)
    requires Digits(ds, from) && to >= 2
    ensures Digits(Rebase(ds, from, to), to)
    ensures Rebase(Rebase(ds, from, to), to, from) == ds
    ensures LeadingZeros(Rebase(ds, from, to)) == LeadingZeros(ds)
  {
    Shape(ds, from);
    PaddedNumeral(LeadingZeros(ds), Value(ds, from), to);
  }

  // --- characters and bytes -----------------------------------------------

  /** The value of a character, or -1 outside the alphabet. */
  function DigitOf(c: char): (d: int)
    ensures -1 <= d < 58
  {
    if '1' <= c <= '9' then c as int - '1' as int
    else if 'A' <= c <= 'H' then c as int - 'A' as int + 9
    else if 'J' <= c <= 'N' then c as int - 'J' as int + 17
    else if 'P' <= c <= 'Z' then c as int - 'P' as int + 22
    else if 'a' <= c <= 'k' then c as int - 'a' as int + 33
    else if 'm' <= c <= 'z' then c as int - 'm' as int + 44
    else -1
  }

  function CharOf(d: int): (c: char)
    requires 0 <= d < 58
    ensures DigitOf(c) == d
  {
    if d < 9 then '1' + d as char
    else if d < 17 then 'A' + (d - 9) as char
    else if d < 22 then 'J' + (d - 17) as char
    else if d < 33 then 'P' + (d - 22) as char
    else if d < 44 then 'a' + (d - 33) as char
    else 'm' + (d - 44) as char
  }

  lemma AlphabetAt(d: int)
    requires 0 <= d < 58
    ensures |ALPHABET| == 58 && ALPHABET[d] == CharOf(d)
  {
  }

  /** The value of a character is its position in the alphabet, which repeats none. */
  lemma {:induction false} DigitIsPosition(c: char)
    ensures |ALPHABET| == 58
    ensures DigitOf(c) >= 0 ==> ALPHABET[DigitOf(c)] == c
    ensures DigitOf(c) >= 0 <==> c in ALPHABET
    ensures forall i :: 0 <= i < 58 && ALPHABET[i] == c ==> i == DigitOf(c)
  {
    AlphabetAt(0);
    if DigitOf(c) >= 0 { AlphabetAt(DigitOf(c)); }
    hide ALPHABET, CharOf;
    forall i | 0 <= i < 58 && ALPHABET[i] == c ensures i == DigitOf(c) {
      AlphabetAt(i);
    }
    if c in ALPHABET {
      var i :| 0 <= i < |ALPHABET| && ALPHABET[i] == c;
      AlphabetAt(i);
    }
  }

  ghost predicate InAlphabet(s: string) {
    forall i :: 0 <= i < |s| ==> DigitOf(s[i]) >= 0
  }

  function DigitsOf(s: string): (ds: seq<int>)
    ensures |ds| == |s| && forall i :: 0 <= i < |s| ==> ds[i] == DigitOf(s[i])
  {
    seq(|s|, i requires 0 <= i < |s| => DigitOf(s[i]))
  }

  function StringOf(ds: seq<int>): (s: string)
    requires Digits(ds, 58)
    ensures |s| == |ds|
  {
    seq(|ds|, i requires 0 <= i < |ds| => CharOf(ds[i]))
  }

  ghost predicate IsBytes(b: seq<int>) { Digits(b, 256) }

  /** The reference encoder: one '1' per leading zero byte, then the base-58 numeral of the bytes. */
  function Encode(b: seq<int>): string
    requires IsBytes(b)
  {
    RebaseInverts(b, 256, 58);
    StringOf(Rebase(b, 256, 58))
  }

  /** The reference decoder of a string over the alphabet. */
  function DecodeDigits(s: string): seq<int>
    requires InAlphabet(s)
  {
    Rebase(DigitsOf(s), 58, 256)
  }

  // --- the decoder as written ---------------------------------------------

  /** The number of bits of n. */
  function BitLength(n: nat): nat {
    if n == 0 then 0 else 1 + BitLength(n / 2)
  }

  function Pow(b: nat, k: nat): nat { if k == 0 then 1 else b * Pow(b, k - 1) }

  /** Big-endian bytes of a given length; the call is only made for numbers that fit. */
  function ToBytes(n: nat, length: nat): (b: seq<int>)
    ensures |b| == length
  {
    if length == 0 then [] else ToBytes(n / 256, length - 1) + [n % 256]
  }

  lemma {:induction false} BitLengthBounds(n: nat)
    ensures n < Pow(2, BitLength(n))
    ensures n > 0 ==> BitLength(n) > 0 && Pow(2, BitLength(n) - 1) <= n
  {
    if n > 0 {
      BitLengthBounds(n / 2);
      if n / 2 == 0 { assert BitLength(n) == 1; }
    }
  }

  /** Eight bits make one base-256 digit. */
  lemma {:induction false} ByteCount(n: nat)
    ensures (BitLength(n) + 7) / 8 == |Numeral(n, 256)|
    decreases n
  {
    if n >= 256 {
      BitsOfQuotient(n);
      ByteCount(n / 256);
    } else if n > 0 {
      assert Numeral(n / 256, 256) == [];
      SmallBits(n);
    }
  }

  lemma BitsOfQuotient(n: nat)
    requires n >= 256
    ensures BitLength(n) == 8 + BitLength(n / 256)
  {
    assert n / 2 / 2 / 2 / 2 / 2 / 2 / 2 / 2 == n / 256;
    assert BitLength(n) == 1 + BitLength(n / 2) == 2 + BitLength(n / 2 / 2) == 3 + BitLength(n / 2 / 2 / 2);
    var m := n / 2 / 2 / 2;
    assert BitLength(m) == 1 + BitLength(m / 2) == 2 + BitLength(m / 2 / 2) == 3 + BitLength(m / 2 / 2 / 2);
    var k := m / 2 / 2 / 2;
    assert BitLength(k) == 1 + BitLength(k / 2) == 2 + BitLength(k / 2 / 2);
  }

  lemma SmallBits(n: nat)
    requires 0 < n < 256
    ensures 1 <= BitLength(n) <= 8
  {
    BitLengthBounds(n);
    assert Pow(2, 8) == 256;
    PowGrows(8, if BitLength(n) > 8 then BitLength(n) - 1 else 8);
  }

  lemma {:induction false} PowGrows(a: nat, b: nat)
    requires a <= b
    ensures Pow(2, a) <= Pow(2, b)
  {
    if a < b { PowGrows(a, b - 1); }
  }

  /** Writing a number into exactly as many bytes as it needs is writing its base-256 numeral. */
  lemma {:induction false} ToBytesIsNumeral(n: nat)
    ensures ToBytes(n, |Numeral(n, 256)|) == Numeral(n, 256)
    decreases n
  {
    if n > 0 { ToBytesIsNumeral(n / 256); }
  }

  /** The minimal big-endian bytes of a number. */
  function MinimalBytes(n: nat): seq<int> {
    if n > 0 then ToBytes(n, (BitLength(n) + 7) / 8) else []
  }

  lemma MinimalBytesIsNumeral(n: nat)
    ensures MinimalBytes(n) == Numeral(n, 256)
  {
    ByteCount(n);
    ToBytesIsNumeral(n);
  }

  /** The number the digits of the string write, or nothing at the first foreign character. */
  method ReadNumber(encoded: string) returns (r: Option<nat>)
    ensures r.None? <==> !InAlphabet(encoded)
    ensures r.Some? ==> r.value == Value(DigitsOf(encoded), 58)
  {
    var number: nat := 0;
    ghost var ds := DigitsOf(encoded);
    var i := 0;
    while i < |encoded|
      invariant 0 <= i <= |encoded|
      invariant forall k :: 0 <= k < i ==> DigitOf(encoded[k]) >= 0
      invariant number == Value(ds[..i], 58)
    {
      var digit := DigitOf(encoded[i]);
      if digit < 0 {
        return None;
      }
      assert ds[..i + 1][..i] == ds[..i];
      number := number * 58 + digit;
      i := i + 1;
    }
    assert ds[..i] == ds;
    r := Some(number);
  }

  /** Accumulate the digits, write the number in its minimal number of bytes and put one zero byte in
      front for every leading '1'. */
  method Decode(encoded: string) returns (r: Option<seq<int>>)
    ensures r.None? <==> !InAlphabet(encoded)
    ensures r.Some? ==> IsBytes(r.value) && r.value == DecodeDigits(encoded)
  {
    var number := ReadNumber(encoded);
    if number.None? {
      return None;
    }
    var pad := 0;
    while pad < |encoded| && encoded[pad] == '1'
      invariant 0 <= pad <= |encoded|
      invariant forall j :: 0 <= j < pad ==> encoded[j] == '1'
    {
      pad := pad + 1;
    }
    DecodedParts(encoded, number.value, pad);
    r := Some(Zeros(pad) + MinimalBytes(number.value));
  }

  lemma DecodedParts(s: string, number: nat, pad: nat)
    requires InAlphabet(s) && number == Value(DigitsOf(s), 58) && pad <= |s|
    requires forall j :: 0 <= j < pad ==> s[j] == '1'
    requires pad < |s| ==> s[pad] != '1'
    ensures IsBytes(Zeros(pad) + MinimalBytes(number))
    ensures Zeros(pad) + MinimalBytes(number) == DecodeDigits(s)
  {
    var ds := DigitsOf(s);
    forall j | 0 <= j < |s| ensures ds[j] == 0 <==> s[j] == '1' {
      OneIsZero(s[j]);
    }
    LeadingUnique(ds, pad);
    MinimalBytesIsNumeral(number);
    PaddedNumeral(pad, number, 256);
  }

  lemma OneIsZero(c: char)
    ensures DigitOf(c) == 0 <==> c == '1'
  {
  }

  // --- the bijection ------------------------------------------------------

  lemma DigitsOfString(ds: seq<int>)
    requires Digits(ds, 58)
    ensures InAlphabet(StringOf(ds)) && DigitsOf(StringOf(ds)) == ds
  {
    forall i | 0 <= i < |ds| ensures DigitOf(StringOf(ds)[i]) == ds[i] {
    }
  }

  lemma StringOfDigits(s: string)
    requires InAlphabet(s)
    ensures Digits(DigitsOf(s), 58) && StringOf(DigitsOf(s)) == s
  {
  }

  /** Decoding what was encoded gives the bytes back, for every byte string. */
  lemma DecodeEncode(b: seq<int>)
    requires IsBytes(b)
    ensures InAlphabet(Encode(b)) && DecodeDigits(Encode(b)) == b
  {
    RebaseInverts(b, 256, 58);
    DigitsOfString(Rebase(b, 256, 58));
  }

  /** Encoding what was decoded gives the string back, for every string over the alphabet.  Together
      the two make decoding a bijection: no two strings share their bytes, and every byte string has
      one. */
  lemma EncodeDecode(s: string)
    requires InAlphabet(s)
    ensures IsBytes(DecodeDigits(s)) && Encode(DecodeDigits(s)) == s
  {
    StringOfDigits(s);
    RebaseInverts(DigitsOf(s), 58, 256);
  }

  /** Leading '1's are leading zero bytes, one for one. */
  lemma OnesAreZeros(s: string, k: nat)
    requires InAlphabet(s) && k <= |s|
    requires (forall i :: 0 <= i < k ==> s[i] == '1') && (k < |s| ==> s[k] != '1')
    ensures LeadingZeros(DecodeDigits(s)) == k
  {
    var ds := DigitsOf(s);
    forall j | 0 <= j < |s| ensures ds[j] == 0 <==> s[j] == '1' {
      OneIsZero(s[j]);
    }
    LeadingUnique(ds, k);
    RebaseInverts(ds, 58, 256);
  }
}

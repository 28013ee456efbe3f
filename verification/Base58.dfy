/** The base58 text of a byte string (app/wallet-client.js), as in section 3 of
    draft-msporny-base58: leading zero bytes become leading ones, and the rest is one number. */
module Base58 {
  import opened Wrappers

  type Byte = b: int | 0 <= b < 256

  const DIGITS := "123456789"
  const UPPER_TO_H := "ABCDEFGH"
  const UPPER_TO_N := "JKLMN"
  const UPPER_TO_Z := "PQRSTUVWXYZ"
  const LOWER_TO_K := "abcdefghijk"
  const LOWER_TO_Z := "mnopqrstuvwxyz"
  const ALPHABET := DIGITS + UPPER_TO_H + UPPER_TO_N + UPPER_TO_Z + LOWER_TO_K + LOWER_TO_Z

  /** The run of characters from one to another. */
  predicate IsRun(s: string, first: char, last: char) {
    |s| == last as int - first as int + 1 && forall i :: 0 <= i < |s| ==> s[i] as int == first as int + i
  }

  lemma RunHolds(s: string, first: char, last: char, c: char)
    requires IsRun(s, first, last) && first <= last
    ensures c in s <==> first <= c <= last
  {
    if first <= c <= last { assert s[c as int - first as int] == c; }
  }

  /** The alphabet: the digits and letters in the order of their codes, without 0, I, O and l. */
  lemma AlphabetIs(c: char)
    ensures c in ALPHABET <==>
            ('1' <= c <= '9' || 'A' <= c <= 'Z' || 'a' <= c <= 'z') && c != 'I' && c != 'O' && c != 'l'
    ensures |ALPHABET| == 58 && forall i, j :: 0 <= i < j < 58 ==> ALPHABET[i] < ALPHABET[j]
  {
    Runs();
    var t, u := DIGITS + UPPER_TO_H, UPPER_TO_N + UPPER_TO_Z;
    var v := LOWER_TO_K + LOWER_TO_Z;
    hide DIGITS, UPPER_TO_H, UPPER_TO_N, UPPER_TO_Z, LOWER_TO_K, LOWER_TO_Z;
    assert ALPHABET == t + u + v;
    RunHolds(DIGITS, '1', '9', c);
    RunHolds(UPPER_TO_H, 'A', 'H', c);
    RunHolds(UPPER_TO_N, 'J', 'N', c);
    RunHolds(UPPER_TO_Z, 'P', 'Z', c);
    RunHolds(LOWER_TO_K, 'a', 'k', c);
    RunHolds(LOWER_TO_Z, 'm', 'z', c);
  }

  lemma Runs()
    ensures IsRun(DIGITS, '1', '9') && IsRun(UPPER_TO_H, 'A', 'H') && IsRun(UPPER_TO_N, 'J', 'N')
    ensures IsRun(UPPER_TO_Z, 'P', 'Z') && IsRun(LOWER_TO_K, 'a', 'k') && IsRun(LOWER_TO_Z, 'm', 'z')
  {
  }

  // ----- positional numerals, most significant digit first -----

  predicate InBase(digits: seq<nat>, base: nat) { forall k :: 0 <= k < |digits| ==> digits[k] < base }

  predicate NoLeadingZero(digits: seq<nat>) { digits == [] || digits[0] != 0 }

  function ValueIn(digits: seq<nat>, base: nat): nat {
    if digits == [] then 0 else ValueIn(digits[..|digits| - 1], base) * base + digits[|digits| - 1]
  }

  function Numeral(n: nat, base: nat): (digits: seq<nat>)
    requires base >= 2
    ensures InBase(digits, base) && NoLeadingZero(digits) && (digits == [] <==> n == 0)
    decreases n
  {
    if n == 0 then []
    else
      Smaller(n, base);
      Numeral(n / base, base) + [n % base]
  }

  lemma Smaller(n: nat, base: nat)
    requires n > 0 && base >= 2
    ensures n / base < n && 0 <= n % base < base
    ensures n == n / base * base + n % base
  {
    QuotientShrinks(n, n / base, base);
  }

  lemma QuotientShrinks(n: nat, q: nat, base: nat)
    requires n > 0 && base >= 2 && q * base <= n
    ensures q < n
  {
    if q > 0 { assert q * base >= q * 2; }
  }

  lemma {:induction false} NumeralValue(n: nat, base: nat)
    requires base >= 2
    ensures ValueIn(Numeral(n, base), base) == n
    decreases n
  {
    if n > 0 {
      Smaller(n, base);
      NumeralValue(n / base, base);
      assert Numeral(n, base)[..|Numeral(n, base)| - 1] == Numeral(n / base, base);
    }
  }

  lemma QuotientIs(v: nat, base: nat, d: nat)
    requires d < base
    ensures (v * base + d) / base == v && (v * base + d) % base == d
  {
    var n := v * base + d;
    SameQuotient(v, d, n / base, n % base, base);
  }

  lemma SameQuotient(v: nat, d: nat, q: nat, r: nat, base: nat)
    requires d < base && r < base && v * base + d == q * base + r
    ensures v == q && d == r
  {
    if v > q {
      Apart(v, q, base);
      assert false;
    }
    if q > v {
      Apart(q, v, base);
      assert false;
    }
  }

  lemma Apart(v: nat, q: nat, base: nat)
    requires v > q
    ensures v * base >= q * base + base
  {
    assert v * base == (v - q - 1) * base + base + q * base;
  }

  lemma {:induction false} ValuePositive(digits: seq<nat>, base: nat)
    requires base >= 2 && digits != [] && digits[0] != 0
    ensures ValueIn(digits, base) > 0
  {
    if |digits| > 1 { ValuePositive(digits[..|digits| - 1], base); }
  }

  lemma {:induction false} ValueNumeral(digits: seq<nat>, base: nat)
    requires base >= 2 && InBase(digits, base) && NoLeadingZero(digits)
    ensures Numeral(ValueIn(digits, base), base) == digits
  {
    if digits != [] {
      var init, last := digits[..|digits| - 1], digits[|digits| - 1];
      ValueNumeral(init, base);
      ValuePositive(digits, base);
      QuotientIs(ValueIn(init, base), base, last);
      assert digits == init + [last];
    }
  }

  function Zeros(n: nat): (digits: seq<nat>)
    ensures |digits| == n && forall k :: 0 <= k < n ==> digits[k] == 0
  {
    seq(n, _ => 0)
  }

  function LeadingZeros(digits: seq<nat>): (n: nat)
    ensures n <= |digits| && forall k :: 0 <= k < n ==> digits[k] == 0
    ensures n < |digits| ==> digits[n] != 0
  {
    if digits != [] && digits[0] == 0 then 1 + LeadingZeros(digits[1..]) else 0
  }

  lemma LeadingZerosAre(digits: seq<nat>, n: nat)
    requires n <= |digits| && (forall k :: 0 <= k < n ==> digits[k] == 0) && (n < |digits| ==> digits[n] != 0)
    ensures LeadingZeros(digits) == n
  {
    var m := LeadingZeros(digits);
    assert !(m < n) && !(n < m);
  }

  lemma {:induction false} ZerosAddNothing(n: nat, digits: seq<nat>, base: nat)
    ensures ValueIn(Zeros(n) + digits, base) == ValueIn(digits, base)
    decreases |digits|, n
  {
    var all := Zeros(n) + digits;
    if digits != [] {
      assert all[..|all| - 1] == Zeros(n) + digits[..|digits| - 1];
      ZerosAddNothing(n, digits[..|digits| - 1], base);
    } else if n > 0 {
      assert all[..|all| - 1] == Zeros(n - 1) + digits;
      ZerosAddNothing(n - 1, digits, base);
    }
  }

  /** The numeral in another base, with the leading zeros kept. */
  function Converted(digits: seq<nat>, base: nat, other: nat): seq<nat>
    requires other >= 2
  {
    Zeros(LeadingZeros(digits)) + Numeral(ValueIn(digits, base), other)
  }

  /** Converting back gives the digits back, leading zeros and all. */
  lemma ConvertBack(digits: seq<nat>, base: nat, other: nat)
    requires base >= 2 && other >= 2 && InBase(digits, base)
    ensures InBase(Converted(digits, base, other), other)
    ensures Converted(Converted(digits, base, other), other, base) == digits
  {
    var n := LeadingZeros(digits);
    var rest, v := digits[n..], ValueIn(digits, base);
    assert digits == Zeros(n) + rest;
    ZerosAddNothing(n, rest, base);
    ValueNumeral(rest, base);
    var there := Numeral(v, other);
    LeadingZerosAre(Zeros(n) + there, n);
    ZerosAddNothing(n, there, other);
    NumeralValue(v, other);
  }

  // ----- symbols -----

  function Symbol(d: nat): char
    requires d < 58
  {
    ALPHABET[d]
  }

  /** The digit a symbol stands for; zero, capital I, capital O and small l stand for none. */
  function DigitOf(c: char): Option<nat> {
    var n := c as int;
    if '1' <= c <= '9' then Some(n - 49)
    else if 'A' <= c <= 'H' then Some(n - 65 + 9)
    else if 'J' <= c <= 'N' then Some(n - 74 + 17)
    else if 'P' <= c <= 'Z' then Some(n - 80 + 22)
    else if 'a' <= c <= 'k' then Some(n - 97 + 33)
    else if 'm' <= c <= 'z' then Some(n - 109 + 44)
    else None
  }

  /** The symbols at `d` up to `last` are consecutive characters. */
  predicate Consecutive(d: nat, last: nat)
    requires d <= last < 58
    decreases last - d
  {
    d < last ==> ALPHABET[d + 1] as int == ALPHABET[d] as int + 1 && Consecutive(d + 1, last)
  }

  lemma {:induction false} InRun(d: nat, k: nat, last: nat)
    requires d <= k <= last < 58 && Consecutive(d, last)
    ensures ALPHABET[k] as int == ALPHABET[d] as int + k - d
    decreases k - d
  {
    if d < k { InRun(d + 1, k, last); }
  }

  /** The alphabet is six runs of consecutive characters. */
  lemma AlphabetRuns()
    ensures Consecutive(0, 8) && Consecutive(9, 16) && Consecutive(17, 21)
    ensures Consecutive(22, 32) && Consecutive(33, 43) && Consecutive(44, 57)
    ensures ALPHABET[0] == '1' && ALPHABET[9] == 'A' && ALPHABET[17] == 'J'
    ensures ALPHABET[22] == 'P' && ALPHABET[33] == 'a' && ALPHABET[44] == 'm'
  {
    hide Consecutive;
    FirstRuns();
    LastRuns();
  }

  lemma FirstRuns()
    ensures Consecutive(0, 8) && Consecutive(9, 16) && Consecutive(17, 21)
  {
  }

  lemma LastRuns()
    ensures Consecutive(22, 32) && Consecutive(33, 43) && Consecutive(44, 57)
  {
  }

  lemma SymbolCode(d: nat)
    requires d < 58
    ensures Symbol(d) as int ==
      if d < 9 then 49 + d else if d < 17 then 65 + d - 9 else if d < 22 then 74 + d - 17
      else if d < 33 then 80 + d - 22 else if d < 44 then 97 + d - 33 else 109 + d - 44
  {
    hide Consecutive;
    AlphabetRuns();
    if d < 9 { InRun(0, d, 8); }
    else if d < 17 { InRun(9, d, 16); }
    else if d < 22 { InRun(17, d, 21); }
    else if d < 33 { InRun(22, d, 32); }
    else if d < 44 { InRun(33, d, 43); }
    else { InRun(44, d, 57); }
  }

  lemma SymbolDigit(d: nat)
    requires d < 58
    ensures DigitOf(Symbol(d)) == Some(d)
  {
    hide Symbol;
    SymbolCode(d);
  }

  lemma DigitSymbol(c: char)
    requires DigitOf(c).Some?
    ensures DigitOf(c).value < 58 && Symbol(DigitOf(c).value) == c
  {
    hide Symbol;
    SymbolCode(DigitOf(c).value);
  }

  function Spelled(digits: seq<nat>): (text: string)
    requires InBase(digits, 58)
    ensures |text| == |digits|
  {
    seq(|digits|, k requires 0 <= k < |digits| => Symbol(digits[k]))
  }

  /** Only symbols of the alphabet. */
  predicate Spellable(text: string) { forall k :: 0 <= k < |text| ==> DigitOf(text[k]).Some? }

  function Read(text: string): (digits: seq<nat>)
    requires Spellable(text)
    ensures InBase(digits, 58) && |digits| == |text|
  {
    seq(|text|, k requires 0 <= k < |text| => DigitSymbol(text[k]); DigitOf(text[k]).value)
  }

  lemma SpelledRead(digits: seq<nat>)
    requires InBase(digits, 58)
    ensures Spellable(Spelled(digits)) && Read(Spelled(digits)) == digits
  {
    forall k | 0 <= k < |digits| ensures DigitOf(Spelled(digits)[k]) == Some(digits[k]) { SymbolDigit(digits[k]); }
  }

  lemma ReadSpelled(text: string)
    requires Spellable(text)
    ensures Spelled(Read(text)) == text
  {
    forall k | 0 <= k < |text| ensures Spelled(Read(text))[k] == text[k] { DigitSymbol(text[k]); }
  }

  // ----- bytes to text and back -----

  function AsDigits(bytes: seq<Byte>): (digits: seq<nat>)
    ensures |digits| == |bytes| && InBase(digits, 256) && forall k :: 0 <= k < |bytes| ==> digits[k] == bytes[k]
  {
    seq(|bytes|, k requires 0 <= k < |bytes| => bytes[k] as nat)
  }

  function AsBytes(digits: seq<nat>): (bytes: seq<Byte>)
    requires InBase(digits, 256)
    ensures |bytes| == |digits| && forall k :: 0 <= k < |bytes| ==> digits[k] == bytes[k]
  {
    seq(|digits|, k requires 0 <= k < |digits| => digits[k] as Byte)
  }

  function Encoded(bytes: seq<Byte>): string {
    ConvertBack(AsDigits(bytes), 256, 58);
    Spelled(Converted(AsDigits(bytes), 256, 58))
  }

  /** The specified decoder; text with a symbol outside the alphabet has no bytes. */
  function Decoded(text: string): Option<seq<Byte>> {
    if !Spellable(text) then None
    else
      ConvertBack(Read(text), 58, 256);
      Some(AsBytes(Converted(Read(text), 58, 256)))
  }

  lemma ValueStep(digits: seq<nat>, k: nat, base: nat)
    requires k < |digits|
    ensures ValueIn(digits[..k + 1], base) == ValueIn(digits[..k], base) * base + digits[k]
  {
    assert digits[..k + 1][..k] == digits[..k];
  }

  lemma EncodedStep(n: nat, encoded: string)
    requires n > 0 && |encoded| > 0 && encoded[0] == Symbol(n % 58)
    ensures Spelled(Numeral(n / 58, 58)) + encoded == Spelled(Numeral(n, 58)) + encoded[1..]
  {
    hide Spelled, Symbol;
    Smaller(n, 58);
    SpelledAppend(Numeral(n / 58, 58), n % 58);
    assert encoded == [Symbol(n % 58)] + encoded[1..];
  }

  lemma SpelledAppend(digits: seq<nat>, d: nat)
    requires InBase(digits, 58) && d < 58
    ensures Spelled(digits + [d]) == Spelled(digits) + [Symbol(d)]
  {
    hide Symbol;
  }

  method EncodeBase58(bytes: seq<Byte>) returns (encoded: string)
    ensures encoded == Encoded(bytes)
  {
    hide Numeral, ValueIn, LeadingZeros, Spelled;
    ghost var digits := AsDigits(bytes);
    EmptyText();
    if |bytes| == 0 {
      assert bytes == [];
      return "";
    }
    encoded := "";
    var number: nat := 0;
    for k := 0 to |bytes|
      invariant number == ValueIn(digits[..k], 256)
    {
      ValueStep(digits, k, 256);
      number := number * 256 + bytes[k];
    }
    assert digits[..|bytes|] == digits;
    ghost var total := number;
    while number > 0
      invariant Spelled(Numeral(number, 58)) + encoded == Spelled(Numeral(total, 58))
    {
      encoded := [ALPHABET[number % 58]] + encoded;
      EncodedStep(number, encoded);
      Smaller(number, 58);
      number := number / 58;
    }
    assert encoded == Spelled(Numeral(total, 58));
    var k := 0;
    while k < |bytes| && bytes[k] == 0
      invariant k <= |bytes| && forall j :: 0 <= j < k ==> bytes[j] == 0
      invariant encoded == Spelled(Zeros(k) + Numeral(total, 58))
    {
      OneMoreZero(k, Numeral(total, 58));
      encoded := [ALPHABET[0]] + encoded;
      k := k + 1;
    }
    LeadingZerosAre(digits, k);
  }

  lemma EmptyText()
    ensures Encoded([]) == "" && Spelled(Numeral(0, 58)) == "" && ValueIn([], 256) == 0
    ensures forall digits: seq<nat> | InBase(digits, 58) :: Zeros(0) + digits == digits
  {
    assert AsDigits([]) == [];
  }

  lemma OneMoreZero(k: nat, digits: seq<nat>)
    requires InBase(digits, 58)
    ensures Spelled(Zeros(k + 1) + digits) == [ALPHABET[0]] + Spelled(Zeros(k) + digits)
  {
  }

  /** Decoding the text gives the bytes back, whatever they are: leading zeros, only zeros, none. */
  lemma DecodeEncode(bytes: seq<Byte>)
    ensures Decoded(Encoded(bytes)) == Some(bytes)
  {
    hide Converted, Spelled, Read, Spellable;
    var digits := AsDigits(bytes);
    ConvertBack(digits, 256, 58);
    SpelledRead(Converted(digits, 256, 58));
    assert AsBytes(digits) == bytes;
  }

  lemma EncodingIsInjective(first: seq<Byte>, second: seq<Byte>)
    requires Encoded(first) == Encoded(second)
    ensures first == second
  {
    DecodeEncode(first);
    DecodeEncode(second);
  }

  /** Every text over the alphabet is the text of exactly its decoded bytes. */
  lemma EncodeDecode(text: string)
    ensures Spellable(text) <==> Decoded(text).Some?
    ensures Spellable(text) ==> Encoded(Decoded(text).value) == text
    ensures Spellable(text) <==> exists bytes :: Encoded(bytes) == text
  {
    hide Converted, Spelled, Read, Spellable;
    if Spellable(text) {
      var digits := Read(text);
      ConvertBack(digits, 58, 256);
      var bytes := AsBytes(Converted(digits, 58, 256));
      assert AsDigits(bytes) == Converted(digits, 58, 256);
      ReadSpelled(text);
      assert Encoded(bytes) == text;
    }
    if bytes :| Encoded(bytes) == text { DecodeEncode(bytes); }
  }
}

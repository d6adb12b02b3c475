/** Base-62 text for 32-bit numbers. */
module Base62 {
  import opened Common

  const BASE: nat := 62
  const U32: nat := 0x1_0000_0000

  /** The alphabet: digits, then capitals, then small letters. */
  function Symbol(d: nat): char
    requires d < BASE
  {
    if d < 10 then '0' + d as char else if d < 36 then 'A' + (d - 10) as char else 'a' + (d - 36) as char
  }

  function IndexOf(c: char): (r: Option<nat>)
    ensures r.Some? ==> r.value < BASE && Symbol(r.value) == c
  {
    if '0' <= c <= '9' then Some((c - '0') as nat)
    else if 'A' <= c <= 'Z' then Some((c - 'A') as nat + 10)
    else if 'a' <= c <= 'z' then Some((c - 'a') as nat + 36)
    else None
  }

  lemma IndexOfSymbol(d: nat)
    requires d < BASE
    ensures IndexOf(Symbol(d)) == Some(d)
  {
  }

  // ---- Positional notation ----

  predicate Digits(ds: seq<nat>) { forall i :: 0 <= i < |ds| ==> ds[i] < BASE }

  function Pow(k: nat): (r: nat)
    ensures r > 0
  {
    if k == 0 then 1 else BASE * Pow(k - 1)
  }

  function Value(ds: seq<nat>): nat {
    if ds == [] then 0 else BASE * Value(ds[..|ds| - 1]) + ds[|ds| - 1]
  }

  /** The digits of a number, most significant first. */
  function DigitsOf(n: nat): (ds: seq<nat>)
    ensures ds != [] && Digits(ds)
    ensures n > 0 ==> ds[0] != 0
  {
    if n < BASE then [n] else DigitsOf(n / BASE) + [n % BASE]
  }

  lemma {:induction false} ValueOfDigits(n: nat)
    ensures Value(DigitsOf(n)) == n
  {
    if n < BASE {
      assert [n][..0] == [];
    } else {
      var front := DigitsOf(n / BASE);
      ValueOfDigits(n / BASE);
      assert (front + [n % BASE])[..|front|] == front;
    }
  }

  function Text(ds: seq<nat>): string
    requires Digits(ds)
  {
    seq(|ds|, i requires 0 <= i < |ds| => Symbol(ds[i]))
  }

  predicate Alphabetic(s: string) { forall i :: 0 <= i < |s| ==> IndexOf(s[i]).Some? }

  function Indices(s: string): (ds: seq<nat>)
    requires Alphabetic(s)
    ensures Digits(ds)
  {
    seq(|s|, i requires 0 <= i < |s| => IndexOf(s[i]).value)
  }

  lemma IndicesOfText(ds: seq<nat>)
    requires Digits(ds)
    ensures Alphabetic(Text(ds)) && Indices(Text(ds)) == ds
  {
    forall i | 0 <= i < |ds| ensures IndexOf(Text(ds)[i]) == Some(ds[i]) {
      IndexOfSymbol(ds[i]);
    }
  }

  lemma TextOfIndices(s: string)
    requires Alphabetic(s)
    ensures Text(Indices(s)) == s
  {
  }

  // ---- Encoding ----

  function Reversed<T>(s: seq<T>): (r: seq<T>)
    ensures |r| == |s| && forall i :: 0 <= i < |s| ==> r[i] == s[|s| - 1 - i]
  {
    if s == [] then [] else [s[|s| - 1]] + Reversed(s[..|s| - 1])
  }

  /** Swap runes from both ends inwards. */
  method Reverse(s: string) returns (r: string)
    ensures r == Reversed(s)
  {
    var runes := new char[|s|](i requires 0 <= i < |s| => s[i]);
    var i, j := 0, |s| - 1;
    while i < j
      invariant 0 <= i <= |s| && j == |s| - 1 - i
      invariant forall k :: 0 <= k < i || j < k < |s| ==> runes[k] == s[|s| - 1 - k]
      invariant forall k :: i <= k <= j ==> runes[k] == s[k]
    {
      runes[i], runes[j] := runes[j], runes[i];
      i, j := i + 1, j - 1;
    }
    assert forall k :: 0 <= k < |s| ==> runes[k] == s[|s| - 1 - k];
    r := runes[..];
  }

  lemma TextGrows(d: nat, ds: seq<nat>)
    requires d < BASE && Digits(ds)
    ensures Digits([d] + ds) && Text([d] + ds) == [Symbol(d)] + Text(ds)
    ensures Reversed(Text([d] + ds)) == Reversed(Text(ds)) + [Symbol(d)]
  {
  }

  lemma ReversedTwice<T>(s: seq<T>)
    ensures Reversed(Reversed(s)) == s
  {
  }

  /** What is still to be written and what is, put together. */
  function Joined(num: nat, low: seq<nat>): seq<nat> { if num == 0 then low else DigitsOf(num) + low }

  lemma JoinedStep(num: nat, low: seq<nat>)
    requires num > 0
    ensures Joined(num / BASE, [num % BASE] + low) == Joined(num, low)
  {
    if num >= BASE {
      Assoc(DigitsOf(num / BASE), [num % BASE], low);
    }
  }

  method Encode(n: nat) returns (s: string)
    requires n < U32
    ensures s == Text(DigitsOf(n))
  {
    if n == 0 {
      return [Symbol(0)];
    }
    var num: nat := n;
    var encoded: string := "";
    ghost var low: seq<nat> := [];  // digits already written, most significant first
    while num > 0
      invariant Digits(low) && encoded == Reversed(Text(low))
      invariant Joined(num, low) == DigitsOf(n)
    {
      var remainder := num % BASE;
      encoded := encoded + [Symbol(remainder)];
      TextGrows(remainder, low);
      JoinedStep(num, low);
      low := [remainder] + low;
      num := num / BASE;
    }
    ReversedTwice(Text(low));
    s := Reverse(encoded);
  }

  // ---- Decoding ----

  /** Powers as the source computes them: a float raised and converted.  The
      conversion is exact up to 62^5; past 32 bits the language leaves its
      result open. */
  predicate Converts(conv: nat -> nat) { forall k :: 0 <= k <= 5 ==> conv(k) == Pow(k) }

  /** The 32-bit accumulator after some digits, with every wrap written out. */
  function Folded(ds: seq<nat>, i: nat, conv: nat -> nat): nat
    requires i <= |ds|
  {
    if i == 0 then 0 else (Folded(ds, i - 1, conv) + ds[i - 1] * (conv(|ds| - i) % U32) % U32) % U32
  }

  method Decode(encoded: string, conv: nat -> nat) returns (r: Option<nat>)
    ensures r.None? <==> !Alphabetic(encoded)
    ensures r.Some? ==> r.value == Folded(Indices(encoded), |encoded|, conv)
  {
    var decoded := 0;
    for i := 0 to |encoded|
      invariant Alphabetic(encoded[..i])
      invariant Alphabetic(encoded) ==> decoded == Folded(Indices(encoded), i, conv)
    {
      var index := IndexOf(encoded[i]);
      if index.None? {
        return None;
      }
      assert encoded[..i + 1] == encoded[..i] + [encoded[i]];
      decoded := (decoded + index.value * (conv(|encoded| - i - 1) % U32) % U32) % U32;
    }
    assert encoded[..|encoded|] == encoded;
    return Some(decoded);
  }

  // ---- Round trips ----

  lemma WrapAdd(a: nat, b: nat)
    ensures (a % U32 + b % U32) % U32 == (a + b) % U32
  {
    var sum := a % U32 + b % U32;
    DivisionIs(a + b, U32, a / U32 + b / U32 + sum / U32, sum % U32);
  }

  lemma {:induction false} PowGrows(a: nat, b: nat)
    requires a <= b
    ensures Pow(a) <= Pow(b)
  {
    if a < b {
      PowGrows(a, b - 1);
    }
  }

  lemma SmallPowers()
    ensures Pow(5) == 916_132_832 < U32 && Pow(6) > U32
  {
    assert Pow(1) == 62;
    assert Pow(2) == 3844;
    assert Pow(3) == 238_328;
    assert Pow(4) == 14_776_336;
  }

  /** Digits so far, at the weight they have in the whole. */
  function Partial(ds: seq<nat>, i: nat): nat
    requires i <= |ds|
  {
    Value(ds[..i]) * Pow(|ds| - i)
  }

  function Term(ds: seq<nat>, i: nat): nat
    requires i < |ds|
  {
    ds[i] * Pow(|ds| - i - 1)
  }

  lemma PartialStep(ds: seq<nat>, i: nat)
    requires i < |ds|
    ensures Partial(ds, i + 1) == Partial(ds, i) + Term(ds, i)
  {
    assert ds[..i + 1][..i] == ds[..i];
    var v, d, p := Value(ds[..i]), ds[i], Pow(|ds| - i - 1);
    assert Value(ds[..i + 1]) == BASE * v + d && Pow(|ds| - i) == BASE * p;
    assert (BASE * v + d) * p == v * (BASE * p) + d * p;
  }

  lemma PartialWhole(ds: seq<nat>)
    ensures Partial(ds, |ds|) == Value(ds)
  {
    assert ds[..|ds|] == ds;
  }

  /** Up to six digits, the accumulator is the value of the digits so far,
      modulo 2^32. */
  lemma {:induction false} FoldedIsPartial(ds: seq<nat>, i: nat, conv: nat -> nat)
    requires i <= |ds| <= 6 && Converts(conv)
    ensures Folded(ds, i, conv) == Partial(ds, i) % U32
  {
    if i == 0 {
    } else {
      FoldedIsPartial(ds, i - 1, conv);
      PowerConverts(|ds| - i, conv);
      PartialStep(ds, i - 1);
      WrapAdd(Partial(ds, i - 1), Term(ds, i - 1));
    }
  }

  lemma PowerConverts(k: nat, conv: nat -> nat)
    requires k <= 5 && Converts(conv)
    ensures conv(k) % U32 == Pow(k) < U32
  {
    SmallPowers();
    PowGrows(k, 5);
  }

  /** A leading digit that is not zero fixes the size. */
  lemma {:induction false} ValueAbove(ds: seq<nat>)
    requires ds != [] && ds[0] != 0
    ensures Value(ds) >= Pow(|ds| - 1)
  {
    if |ds| == 1 {
      assert ds[..0] == [];
    } else {
      ValueAbove(ds[..|ds| - 1]);
    }
  }

  lemma AtMostSix(n: nat)
    requires n < U32
    ensures |DigitsOf(n)| <= 6
  {
    if n > 0 && |DigitsOf(n)| > 6 {
      SmallPowers();
      ValueOfDigits(n);
      ValueAbove(DigitsOf(n));
      PowGrows(6, |DigitsOf(n)| - 1);
    }
  }

  /** Digits without a leading zero are the digits of their value. */
  lemma {:induction false} DigitsUnique(ds: seq<nat>)
    requires Digits(ds) && ds != [] && (ds[0] != 0 || |ds| == 1)
    ensures DigitsOf(Value(ds)) == ds
  {
    var n := |ds| - 1;
    if n == 0 {
      assert ds[..0] == [];
    } else {
      var front := ds[..n];
      DigitsUnique(front);
      ValueAbove(ds);
      PowGrows(1, n);
      DivisionIs(Value(ds), BASE, Value(front), ds[n]);
      assert front + [ds[n]] == ds;
    }
  }

  /** Up to six digits of a 32-bit value, the accumulator ends as that value. */
  lemma FoldedIsValue(ds: seq<nat>, conv: nat -> nat)
    requires |ds| <= 6 && Value(ds) < U32 && Converts(conv)
    ensures Folded(ds, |ds|, conv) == Value(ds)
  {
    FoldedIsPartial(ds, |ds|, conv);
    PartialWhole(ds);
  }

  /** Decoding what was encoded gives the number back. */
  lemma RoundTrip(n: nat, conv: nat -> nat)
    requires n < U32 && Converts(conv)
    ensures var s := Text(DigitsOf(n));
      Alphabetic(s) && |s| <= 6 && Folded(Indices(s), |s|, conv) == n
  {
    var ds := DigitsOf(n);
    IndicesOfText(ds);
    AtMostSix(n);
    ValueOfDigits(n);
    FoldedIsValue(ds, conv);
  }

  /** On the way nothing wraps: every power is one that converts exactly, and
      every product and every partial sum fits 32 bits. */
  lemma NoWrap(n: nat, i: nat)
    requires n < U32 && i < |DigitsOf(n)|
    ensures var ds := DigitsOf(n);
      |ds| - i - 1 <= 5 && Term(ds, i) < U32 && Partial(ds, i) + Term(ds, i) < U32
  {
    AtMostSix(n);
    PartialStep(DigitsOf(n), i);
    PartialBelow(DigitsOf(n), i + 1);
    ValueOfDigits(n);
  }

  lemma {:induction false} PartialBelow(ds: seq<nat>, i: nat)
    requires i <= |ds|
    ensures Partial(ds, i) <= Value(ds)
    decreases |ds| - i
  {
    if i == |ds| {
      PartialWhole(ds);
    } else {
      PartialBelow(ds, i + 1);
      PartialStep(ds, i);
    }
  }

  lemma EncodeInjective(m: nat, n: nat)
    requires Text(DigitsOf(m)) == Text(DigitsOf(n))
    ensures m == n
  {
    IndicesOfText(DigitsOf(m));
    IndicesOfText(DigitsOf(n));
    ValueOfDigits(m);
    ValueOfDigits(n);
  }

  lemma NoLeadingZero(n: nat)
    requires n > 0
    ensures Text(DigitsOf(n)) != "" && Text(DigitsOf(n))[0] != '0'
  {
    IndexOfSymbol(DigitsOf(n)[0]);
    IndexOfSymbol(0);
  }

  /** Text that stands for a 32-bit number in the one way the encoder would. */
  predicate Canonical(s: string) {
    s != "" && Alphabetic(s) && (s[0] != '0' || |s| == 1) && |s| <= 6 && Value(Indices(s)) < U32
  }

  lemma EncodedIsCanonical(n: nat)
    requires n < U32
    ensures Canonical(Text(DigitsOf(n)))
  {
    AtMostSix(n);
    IndicesOfText(DigitsOf(n));
    ValueOfDigits(n);
    if n > 0 {
      NoLeadingZero(n);
    }
  }

  lemma LeadingIndex(s: string)
    requires s != "" && Alphabetic(s) && s[0] != '0'
    ensures Indices(s)[0] != 0
  {
    IndexOfSymbol(0);
  }

  lemma CanonicalReencodes(s: string, conv: nat -> nat)
    requires Converts(conv) && Canonical(s)
    ensures Text(DigitsOf(Folded(Indices(s), |s|, conv))) == s
  {
    var ds := Indices(s);
    if s[0] != '0' {
      LeadingIndex(s);
    }
    DigitsUnique(ds);
    FoldedIsValue(ds, conv);
    TextOfIndices(s);
  }

  lemma FoldedFits(ds: seq<nat>, i: nat, conv: nat -> nat)
    requires i <= |ds|
    ensures Folded(ds, i, conv) < U32
  {
  }

  /** Re-encoding a decoded text gives that text back if and only if it is
      canonical; other texts decode too, by wrapping around. */
  lemma ReencodesExactlyCanonical(s: string, conv: nat -> nat)
    requires Converts(conv) && Alphabetic(s)
    ensures Text(DigitsOf(Folded(Indices(s), |s|, conv))) == s <==> Canonical(s)
  {
    if Canonical(s) {
      CanonicalReencodes(s, conv);
    } else {
      FoldedFits(Indices(s), |s|, conv);
      EncodedIsCanonical(Folded(Indices(s), |s|, conv));
    }
  }
}

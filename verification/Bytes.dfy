/** Byte strings: big-endian numbers and the bytewise order. */
module Bytes {
  import opened Common

  function Pow256(w: nat): (r: nat)
    ensures r > 0
  {
    if w == 0 then 1 else 256 * Pow256(w - 1)
  }

  /** The low `w` bytes of a number, most significant first. */
  function BigEndian(n: nat, w: nat): (r: seq<Byte>)
    ensures |r| == w
  {
    if w == 0 then [] else BigEndian(n / 256, w - 1) + [n % 256]
  }

  function FromBigEndian(s: seq<Byte>): nat {
    if s == [] then 0 else 256 * FromBigEndian(s[..|s| - 1]) + s[|s| - 1]
  }

  lemma {:induction false} BigEndianRoundTrip(n: nat, w: nat)
    requires n < Pow256(w)
    ensures FromBigEndian(BigEndian(n, w)) == n
  {
    if w == 0 {
    } else {
      BigEndianRoundTrip(n / 256, w - 1);
      assert BigEndian(n, w)[..w - 1] == BigEndian(n / 256, w - 1);
    }
  }

  lemma Widths()
    ensures Pow256(2) == 0x1_0000 && Pow256(8) == U64_MAX + 1
  {
    assert Pow256(1) == 256;
    assert Pow256(2) == 256 * Pow256(1);
    assert Pow256(3) == 256 * Pow256(2);
    assert Pow256(4) == 256 * Pow256(3);
    assert Pow256(5) == 256 * Pow256(4);
    assert Pow256(6) == 256 * Pow256(5);
    assert Pow256(7) == 256 * Pow256(6);
  }

  // ---- The bytewise lexicographic order ----

  predicate Less(a: seq<Byte>, b: seq<Byte>) {
    b != [] && (a == [] || a[0] < b[0] || (a[0] == b[0] && Less(a[1..], b[1..])))
  }

  lemma {:induction false} LessTransitive(a: seq<Byte>, b: seq<Byte>, c: seq<Byte>)
    requires Less(a, b) && Less(b, c)
    ensures Less(a, c)
  {
    if a != [] && a[0] == b[0] && b[0] == c[0] {
      LessTransitive(a[1..], b[1..], c[1..]);
    }
  }

  lemma {:induction false} LessTotal(a: seq<Byte>, b: seq<Byte>)
    ensures Less(a, b) || a == b || Less(b, a)
  {
    if a != [] && b != [] && a[0] == b[0] {
      LessTotal(a[1..], b[1..]);
      if a[1..] == b[1..] {
        assert a == [a[0]] + a[1..] && b == [b[0]] + b[1..];
      }
    }
  }

  predicate NulFree(s: seq<Byte>) { forall i :: 0 <= i < |s| ==> s[i] != 0 }

  /** A terminator below every other byte makes concatenation compare as a
      pair: first the heads, then what follows them. */
  lemma {:induction false} TerminatedCompare(a: seq<Byte>, x: seq<Byte>, b: seq<Byte>, y: seq<Byte>)
    requires NulFree(a) && NulFree(b)
    ensures Less(a + [0] + x, b + [0] + y) <==> Less(a, b) || (a == b && Less(x, y))
  {
    var s, t := a + [0] + x, b + [0] + y;
    if a == [] || b == [] {
      if a == [] && b == [] {
        assert s[1..] == x && t[1..] == y;
      }
    } else {
      assert s[1..] == a[1..] + [0] + x && t[1..] == b[1..] + [0] + y;
      if a[0] == b[0] {
        TerminatedCompare(a[1..], x, b[1..], y);
        assert a == [a[0]] + a[1..] && b == [b[0]] + b[1..];
      }
    }
  }
}

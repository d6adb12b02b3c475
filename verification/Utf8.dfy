/** UTF-8 as both sides of the wire read it: strict decoding into scalar values,
    and the characters that count as white space or control. */
module Utf8 {
  import opened Common

  type Scalar = nat

  predicate Continuation(b: Byte) { 0x80 <= b < 0xC0 }

  /** The scalar at the head of a byte string and how many bytes it takes; no
      overlong forms, no surrogates, nothing past U+10FFFF. */
  function Lead(s: seq<Byte>): (r: Option<(Scalar, nat)>)
    requires s != []
    ensures r.Some? ==> 1 <= r.value.1 <= |s|
  {
    if s[0] < 0x80 then Some((s[0], 1))
    else if 0xC2 <= s[0] < 0xE0 && |s| >= 2 && Continuation(s[1]) then
      Some(((s[0] as int - 0xC0) * 64 + (s[1] as int - 0x80), 2))
    else if 0xE0 <= s[0] < 0xF0 && |s| >= 3 && Continuation(s[1]) && Continuation(s[2]) then
      var c := (s[0] as int - 0xE0) * 4096 + (s[1] as int - 0x80) * 64 + (s[2] as int - 0x80);
      if c >= 0x800 && !(0xD800 <= c < 0xE000) then Some((c, 3)) else None
    else if 0xF0 <= s[0] < 0xF5 && |s| >= 4 && Continuation(s[1]) && Continuation(s[2]) && Continuation(s[3]) then
      var c := (s[0] as int - 0xF0) * 262144 + (s[1] as int - 0x80) * 4096
             + (s[2] as int - 0x80) * 64 + (s[3] as int - 0x80);
      if 0x10000 <= c < 0x110000 then Some((c, 4)) else None
    else None
  }

  function Decode(s: seq<Byte>): Option<seq<Scalar>>
    decreases |s|
  {
    if s == [] then Some([])
    else
      match Lead(s)
      case None => None
      case Some((c, n)) =>
        match Decode(s[n..])
        case None => None
        case Some(rest) => Some([c] + rest)
  }

  predicate WhiteSpace(c: Scalar) {
    || 0x09 <= c <= 0x0D || c == 0x20 || c == 0x85 || c == 0xA0 || c == 0x1680
    || 0x2000 <= c <= 0x200A || c == 0x2028 || c == 0x2029 || c == 0x202F || c == 0x205F || c == 0x3000
  }

  predicate Control(c: Scalar) { c < 0x20 || 0x7F <= c < 0xA0 }

  function TrimStart(s: seq<Scalar>): seq<Scalar> { if s != [] && WhiteSpace(s[0]) then TrimStart(s[1..]) else s }

  function TrimEnd(s: seq<Scalar>): seq<Scalar> {
    if s != [] && WhiteSpace(s[|s| - 1]) then TrimEnd(s[..|s| - 1]) else s
  }

  function Trim(s: seq<Scalar>): seq<Scalar> { TrimEnd(TrimStart(s)) }

  lemma {:induction false} TrimShrinks(s: seq<Scalar>)
    ensures |TrimStart(s)| <= |s| && |TrimEnd(s)| <= |s|
  {
    if s == [] {
    } else {
      TrimShrinks(s[1..]);
      TrimShrinks(s[..|s| - 1]);
    }
  }

  /** Trimming leaves exactly those texts alone that neither begin nor end with
      white space. */
  lemma TrimmedIs(s: seq<Scalar>)
    ensures Trim(s) == s <==> (s != [] ==> !WhiteSpace(s[0]) && !WhiteSpace(s[|s| - 1]))
  {
    if s != [] {
      TrimShrinks(s[1..]);
      TrimShrinks(TrimStart(s));
      TrimShrinks(s[..|s| - 1]);
    }
  }

  /** ASCII decodes to itself. */
  lemma {:induction false} AsciiDecodes(s: seq<Byte>)
    requires forall i :: 0 <= i < |s| ==> s[i] < 0x80
    ensures Decode(s) == Some(s)
  {
    if s == [] {
    } else {
      assert Lead(s) == Some((s[0], 1));
      AsciiDecodes(s[1..]);
      assert [s[0]] + s[1..] == s;
    }
  }

  /** A byte string holding a zero byte decodes to text holding a NUL, or not
      at all: zero is never part of a longer form. */
  lemma {:induction false} ZeroByteIsNul(s: seq<Byte>, i: nat)
    requires i < |s| && s[i] == 0 && Decode(s).Some?
    ensures exists j :: 0 <= j < |Decode(s).value| && Decode(s).value[j] == 0
    decreases |s|
  {
    var (c, n) := Lead(s).value;
    var all := Decode(s).value;
    if i < n {
      assert i == 0 && all[0] == 0;
    } else {
      var rest := Decode(s[n..]).value;
      ZeroByteIsNul(s[n..], i - n);
      var j :| 0 <= j < |rest| && rest[j] == 0;
      assert all[j + 1] == 0;
    }
  }
}

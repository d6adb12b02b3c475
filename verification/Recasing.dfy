/** The case of header field names never matters, from the bytes on. */
module Recasing {
  import opened Common
  import opened Utf8
  import opened Upgrade

  // ---- Line by line ----

  /** The same line, but for the case of letters in its field name. */
  predicate Recased(a: Str, b: Str) {
    var colon := Find(a, ':' as int);
    && |a| == |b| && Find(b, ':' as int) == colon
    && SameIgnoringCase(a[..colon], b[..colon]) && a[colon..] == b[colon..]
  }

  predicate AllRecased(lines: seq<Str>, others: seq<Str>) {
    |lines| == |others| && forall i :: 0 <= i < |lines| ==> Recased(lines[i], others[i])
  }

  lemma RecasedLine(a: Str, b: Str, name: string)
    requires Recased(a, b)
    ensures HasColon(a) == HasColon(b) && Named(a, name) == Named(b, name)
    ensures HasColon(a) ==> FieldValue(a) == FieldValue(b)
  {
    var colon := Find(a, ':' as int);
    assert SameIgnoringCase(a[..colon], Codes(name)) == SameIgnoringCase(b[..colon], Codes(name));
    if HasColon(a) {
      assert a[colon + 1..] == a[colon..][1..] && b[colon + 1..] == b[colon..][1..];
    }
  }

  lemma {:induction false} RecasedFields(lines: seq<Str>, others: seq<Str>, name: string)
    requires AllRecased(lines, others)
    ensures LastNamed(lines, name) == LastNamed(others, name)
  {
    if lines == [] {
    } else {
      var n := |lines| - 1;
      RecasedLine(lines[n], others[n], name);
      RecasedFields(lines[..n], others[..n], name);
    }
  }

  lemma RecasedLinesAgree(lines: seq<Str>, others: seq<Str>, headLen: nat)
    requires AllRecased(lines, others)
    ensures JudgeFields(lines, headLen) == JudgeFields(others, headLen)
  {
    RecasedFields(lines, others, "upgrade");
    RecasedFields(lines, others, "connection");
    RecasedFields(lines, others, "ponor-version");
    forall i | 0 <= i < |lines|
      ensures HasColon(lines[i]) == HasColon(others[i]) && (lines[i] == [] <==> others[i] == [])
    {
      RecasedLine(lines[i], others[i], "");
    }
  }

  // ---- On the bytes ----

  datatype Part = RequestLine | Name | Value

  /** The part of a head that follows `c`: a line break starts a field name, and
      a colon ends it. */
  function Next(p: Part, afterCr: bool, c: Scalar): Part {
    if afterCr && c == 10 then Name else if p.Name? && c == ':' as int then Value else p
  }

  /** Two texts scanned together, equal but for the case of letters in field
      names. */
  predicate RecasedFrom(p: Part, afterCr: bool, a: Str, b: Str)
    decreases |a|
  {
    && |a| == |b|
    && (a != [] ==>
          && (a[0] == b[0] || (p.Name? && Lower(a[0]) == Lower(b[0])))
          && RecasedFrom(Next(p, afterCr, a[0]), a[0] == 13, a[1..], b[1..]))
  }

  predicate SameButNames(a: seq<Byte>, b: seq<Byte>) { RecasedFrom(RequestLine, false, a, b) }

  lemma {:induction false} OnlyCase(p: Part, afterCr: bool, a: Str, b: Str)
    requires RecasedFrom(p, afterCr, a, b)
    ensures SameIgnoringCase(a, b)
    decreases |a|
  {
    if a == [] {
    } else {
      OnlyCase(Next(p, afterCr, a[0]), a[0] == 13, a[1..], b[1..]);
      assert forall i :: 0 < i < |a| ==> a[i] == a[1..][i - 1] && b[i] == b[1..][i - 1];
    }
  }

  lemma {:induction false} RecasedPrefix(p: Part, afterCr: bool, a: Str, b: Str, n: nat)
    requires RecasedFrom(p, afterCr, a, b) && n <= |a|
    ensures RecasedFrom(p, afterCr, a[..n], b[..n])
    decreases n
  {
    if n == 0 {
    } else {
      RecasedPrefix(Next(p, afterCr, a[0]), a[0] == 13, a[1..], b[1..], n - 1);
      assert a[..n][1..] == a[1..][..n - 1] && b[..n][1..] == b[1..][..n - 1];
    }
  }

  /** The head ends at the same byte. */
  lemma {:induction false} SameEnd(a: seq<Byte>, b: seq<Byte>, i: nat)
    requires SameIgnoringCase(a, b)
    ensures SearchFrom(a, i) == SearchFrom(b, i)
    decreases |a| - i
  {
    if i + 4 <= |a| {
      SameBreak(a, b, i);
      if a[i..i + 4] != CRLF_CRLF {
        SameEnd(a, b, i + 1);
      }
    }
  }

  lemma SameBreak(a: seq<Byte>, b: seq<Byte>, i: nat)
    requires SameIgnoringCase(a, b) && i + 4 <= |a|
    ensures a[i..i + 4] == CRLF_CRLF <==> b[i..i + 4] == CRLF_CRLF
  {
    forall s: seq<Byte> | |s| == |a|
      ensures s[i..i + 4] == CRLF_CRLF <==> s[i] == 13 && s[i + 1] == 10 && s[i + 2] == 13 && s[i + 3] == 10
    {
      assert |s[i..i + 4]| == 4;
    }
    assert forall k :: 0 <= k < |a| && (a[k] == 13 || a[k] == 10 || b[k] == 13 || b[k] == 10) ==> a[k] == b[k];
  }

  /** Past `n` bytes that are not ASCII, which are the same and change nothing. */
  lemma {:induction false} PastWide(p: Part, afterCr: bool, a: Str, b: Str, n: nat)
    requires RecasedFrom(p, afterCr, a, b) && 0 < n <= |a| && forall i :: 0 <= i < n ==> a[i] >= 0x80
    ensures RecasedFrom(p, false, a[n..], b[n..])
    decreases n
  {
    if n > 1 {
      PastWide(p, false, a[1..], b[1..], n - 1);
      assert a[1..][n - 1..] == a[n..] && b[1..][n - 1..] == b[n..];
    }
  }

  lemma SameLead(a: seq<Byte>, b: seq<Byte>)
    requires a != [] && SameIgnoringCase(a, b)
    ensures a[0] >= 0x80 ==> Lead(a) == Lead(b)
    ensures a[0] < 0x80 ==> Lead(a) == Some((a[0], 1)) && Lead(b) == Some((b[0], 1))
  {
    assert forall i :: 0 <= i < |a| && (a[i] >= 0x80 || b[i] >= 0x80) ==> a[i] == b[i];
  }

  lemma WideLead(a: seq<Byte>)
    requires a != [] && a[0] >= 0x80 && Lead(a).Some?
    ensures Lead(a).value.0 >= 0x80 && forall i :: 0 <= i < Lead(a).value.1 ==> a[i] >= 0x80
  {
  }

  /** Decoding keeps the relation: both decode, or neither. */
  lemma {:induction false} RecasedDecodes(p: Part, afterCr: bool, a: seq<Byte>, b: seq<Byte>)
    requires RecasedFrom(p, afterCr, a, b)
    ensures Decode(a).Some? == Decode(b).Some?
    ensures Decode(a).Some? ==> RecasedFrom(p, afterCr, Decode(a).value, Decode(b).value)
    decreases |a|
  {
    if a == [] {
    } else {
      OnlyCase(p, afterCr, a, b);
      SameLead(a, b);
      if a[0] < 0x80 {
        RecasedDecodes(Next(p, afterCr, a[0]), a[0] == 13, a[1..], b[1..]);
        if Decode(a).Some? {
          OneMore(p, afterCr, a[0], b[0], Decode(a[1..]).value, Decode(b[1..]).value);
        }
      } else if Lead(a).Some? {
        var (c, n) := Lead(a).value;
        WideLead(a);
        PastWide(p, afterCr, a, b, n);
        RecasedDecodes(p, false, a[n..], b[n..]);
        if Decode(a).Some? {
          OneMore(p, afterCr, c, c, Decode(a[n..]).value, Decode(b[n..]).value);
        }
      }
    }
  }

  lemma OneMore(p: Part, afterCr: bool, c: Scalar, d: Scalar, s: Str, t: Str)
    requires c == d || (p.Name? && Lower(c) == Lower(d))
    requires RecasedFrom(Next(p, afterCr, c), c == 13, s, t)
    ensures RecasedFrom(p, afterCr, [c] + s, [d] + t)
  {
    assert ([c] + s)[1..] == s && ([d] + t)[1..] == t;
  }

  lemma AfterBreak(p: Part, afterCr: bool, a: Str, b: Str)
    requires RecasedFrom(p, afterCr, a, b) && |a| >= 2 && a[0] == 13 && a[1] == 10
    ensures RecasedFrom(Name, false, a[2..], b[2..])
  {
    assert a[1..][1..] == a[2..] && b[1..][1..] == b[2..];
  }

  lemma LongerLine(p: Part, c: Scalar, d: Scalar, s: Str, t: Str)
    requires c == d || (p.Name? && Lower(c) == Lower(d))
    requires p.Name? && c != ':' as int ==> Recased(s, t)
    requires !p.Name? || c == ':' as int ==> s == t
    ensures p.Name? ==> Recased([c] + s, [d] + t)
    ensures !p.Name? ==> [c] + s == [d] + t
  {
    var a, b, colon := [c] + s, [d] + t, ':' as int;
    assert a[1..] == s && b[1..] == t;
    if p.Name? && c != colon {
      var n := Find(s, colon);
      assert Find(a, colon) == 1 + n && Find(b, colon) == 1 + n;
      assert a[1 + n..] == s[n..] && b[1 + n..] == t[n..];
      assert a[..1 + n] == [c] + s[..n] && b[..1 + n] == [d] + t[..n];
    }
  }

  lemma {:induction false} SameCrlf(a: Str, b: Str)
    requires SameIgnoringCase(a, b)
    ensures FindCrlf(a) == FindCrlf(b)
  {
    if |a| >= 2 && !(a[0] == 13 && a[1] == 10) {
      assert forall i :: 0 < i < |a| ==> a[i] == a[1..][i - 1] && b[i] == b[1..][i - 1];
      SameCrlf(a[1..], b[1..]);
    }
  }

  /** Up to `i` the same line, but for case if it is a field; past the break at
      `i` the relation again. */
  predicate LineThen(p: Part, a: Str, b: Str, i: nat)
    requires i <= |a| == |b|
  {
    && (p.Name? ==> Recased(a[..i], b[..i]))
    && (!p.Name? ==> a[..i] == b[..i])
    && (i + 2 <= |a| ==> RecasedFrom(Name, false, a[i + 2..], b[i + 2..]))
  }

  lemma LongerLineThen(p: Part, a: Str, b: Str, i: nat)
    requires 0 < |a| == |b| && (a[0] == b[0] || (p.Name? && Lower(a[0]) == Lower(b[0])))
    requires i <= |a[1..]| && LineThen(Next(p, false, a[0]), a[1..], b[1..], i)
    ensures LineThen(p, a, b, 1 + i)
  {
    LongerLine(p, a[0], b[0], a[1..][..i], b[1..][..i]);
    assert a[..1 + i] == [a[0]] + a[1..][..i] && b[..1 + i] == [b[0]] + b[1..][..i];
    if i + 3 <= |a| {
      assert a[1..][i + 2..] == a[i + 3..] && b[1..][i + 2..] == b[i + 3..];
    }
  }

  /** One line of the text, and what follows its line break. */
  lemma {:induction false} RecasedTextLine(p: Part, afterCr: bool, a: Str, b: Str)
    requires RecasedFrom(p, afterCr, a, b) && !(afterCr && a != [] && a[0] == 10)
    ensures LineThen(p, a, b, FindCrlf(a))
    decreases |a|
  {
    if a == [] {
    } else {
      if |a| >= 2 && a[0] == 13 && a[1] == 10 {
        AfterBreak(p, afterCr, a, b);
      } else {
        RecasedTextLine(Next(p, afterCr, a[0]), a[0] == 13, a[1..], b[1..]);
        LongerLineThen(p, a, b, FindCrlf(a[1..]));
      }
    }
  }

  lemma OneMoreLine(line: Str, other: Str, lines: seq<Str>, others: seq<Str>)
    requires Recased(line, other) && AllRecased(lines, others)
    ensures AllRecased([line] + lines, [other] + others)
  {
  }

  /** From the start of a field line on. */
  lemma {:induction false} RecasedFieldLines(a: Str, b: Str)
    requires RecasedFrom(Name, false, a, b)
    ensures AllRecased(SplitLines(a), SplitLines(b))
    decreases |a|
  {
    OnlyCase(Name, false, a, b);
    SameCrlf(a, b);
    RecasedTextLine(Name, false, a, b);
    var i := FindCrlf(a);
    if i < |a| {
      RecasedFieldLines(a[i + 2..], b[i + 2..]);
      OneMoreLine(a[..i], b[..i], SplitLines(a[i + 2..]), SplitLines(b[i + 2..]));
    } else {
      assert a[..i] == a && b[..i] == b;
      assert SplitLines(a) == [a] && SplitLines(b) == [b];
    }
  }

  lemma RecasedText(a: Str, b: Str)
    requires RecasedFrom(RequestLine, false, a, b)
    ensures SplitLines(a)[0] == SplitLines(b)[0]
    ensures AllRecased(SplitLines(a)[1..], SplitLines(b)[1..])
  {
    OnlyCase(RequestLine, false, a, b);
    SameCrlf(a, b);
    RecasedTextLine(RequestLine, false, a, b);
    var i := FindCrlf(a);
    if i < |a| {
      RecasedFieldLines(a[i + 2..], b[i + 2..]);
      assert SplitLines(a)[1..] == SplitLines(a[i + 2..]) && SplitLines(b)[1..] == SplitLines(b[i + 2..]);
    } else {
      assert a[..i] == a && b[..i] == b;
    }
  }

  lemma RecasedHeads(a: seq<Byte>, b: seq<Byte>)
    requires SameButNames(a, b)
    ensures JudgeHead(a) == JudgeHead(b)
  {
    RecasedDecodes(RequestLine, false, a, b);
    if Decode(a).Some? {
      var s, t := Decode(a).value, Decode(b).value;
      RecasedText(s, t);
      RecasedLinesAgree(SplitLines(s)[1..], SplitLines(t)[1..], |a|);
    }
  }

  /** Two buffers that differ only in the case of letters in field names get
      the same verdict, whole or cut short anywhere. */
  lemma RecasingKeepsVerdict(a: seq<Byte>, b: seq<Byte>)
    requires SameButNames(a, b)
    ensures Judge(a) == Judge(b)
  {
    OnlyCase(RequestLine, false, a, b);
    SameEnd(a, b, 0);
    if HeadEnd(a).Some? && HeadEnd(a).value <= |a| {
      RecasedPrefix(RequestLine, false, a, b, HeadEnd(a).value);
      RecasedHeads(a[..HeadEnd(a).value], b[..HeadEnd(a).value]);
    }
  }
}

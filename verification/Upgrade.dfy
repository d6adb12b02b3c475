/** The HTTP upgrade that opens a connection: parsing the request head, and the
    loop that reads until it can. */
module Upgrade {
  import opened Common
  import opened Frames
  import opened Utf8

  const HEAD_MAX: nat := 4096
  const CHUNK: nat := 8192
  const FRAME_PAYLOAD_MAX: nat := 8192
  const READ_BUF_MAX: nat := FRAME_HEADER + FRAME_PAYLOAD_MAX + 2 * CHUNK

  const CRLF_CRLF: seq<Byte> := [13, 10, 13, 10]

  datatype Reject = BadMethod | BadPath | NotAnUpgrade | BadVersion | Malformed

  datatype Verdict = Incomplete | Accepted(headLen: nat) | Refused(why: Reject)

  // ---- Text ----

  type Str = seq<Scalar>

  function Codes(s: string): Str { seq(|s|, i requires 0 <= i < |s| => s[i] as int) }

  function Lower(c: Scalar): Scalar { if 65 <= c <= 90 then c + 32 else c }

  predicate SameIgnoringCase(a: Str, b: Str) { |a| == |b| && forall i :: 0 <= i < |a| ==> Lower(a[i]) == Lower(b[i]) }

  /** Index of the first occurrence, or the length. */
  function Find(s: Str, c: Scalar): (i: nat)
    ensures i <= |s| && (i < |s| ==> s[i] == c)
  {
    if s == [] || s[0] == c then 0 else 1 + Find(s[1..], c)
  }

  function SplitOn(s: Str, c: Scalar): seq<Str>
    decreases |s|
  {
    var i := Find(s, c);
    if i == |s| then [s] else [s[..i]] + SplitOn(s[i + 1..], c)
  }

  function FindCrlf(s: Str): (i: nat)
    ensures i <= |s| && (i < |s| ==> i + 1 < |s|)
  {
    if |s| < 2 then |s| else if s[0] == 13 && s[1] == 10 then 0 else 1 + FindCrlf(s[1..])
  }

  function SplitLines(s: Str): (lines: seq<Str>)
    ensures lines != []
    decreases |s|
  {
    var i := FindCrlf(s);
    if i == |s| then [s] else [s[..i]] + SplitLines(s[i + 2..])
  }

  // ---- Header fields ----

  predicate HasColon(line: Str) { Find(line, ':' as int) < |line| }

  predicate Named(line: Str, name: string) {
    HasColon(line) && SameIgnoringCase(line[..Find(line, ':' as int)], Codes(name))
  }

  function FieldValue(line: Str): Str
    requires HasColon(line)
  {
    Trim(line[Find(line, ':' as int) + 1..])
  }

  predicate AllFields(lines: seq<Str>) { forall i :: 0 <= i < |lines| && lines[i] != [] ==> HasColon(lines[i]) }

  /** The value of the last field of that name: a later one overrides. */
  function LastNamed(lines: seq<Str>, name: string): Option<Str> {
    if lines == [] then None
    else
      var line := lines[|lines| - 1];
      if Named(line, name) then Some(FieldValue(line)) else LastNamed(lines[..|lines| - 1], name)
  }

  predicate ListsUpgrade(value: Str) { NamesUpgrade(SplitOn(value, ',' as int)) }

  predicate NamesUpgrade(tokens: seq<Str>) {
    exists i :: 0 <= i < |tokens| && SameIgnoringCase(Trim(tokens[i]), Codes("upgrade"))
  }

  function JudgeFields(lines: seq<Str>, headLen: nat): Verdict {
    if !AllFields(lines) then Refused(Malformed)
    else
      var upgrade, connection := LastNamed(lines, "upgrade"), LastNamed(lines, "connection");
      var version := LastNamed(lines, "ponor-version");
      if !(upgrade.Some? && SameIgnoringCase(upgrade.value, Codes("ponor"))) then Refused(NotAnUpgrade)
      else if !(connection.Some? && ListsUpgrade(connection.value)) then Refused(NotAnUpgrade)
      else if version.Some? && version.value != Codes("1") then Refused(BadVersion)
      else Accepted(headLen)
  }

  function JudgeRequest(line: Str): Option<Reject> {
    var parts := SplitOn(line, ' ' as int);
    if |parts| != 3 || !(Codes("HTTP/1.") <= parts[2]) then Some(Malformed)
    else if parts[0] != Codes("GET") then Some(BadMethod)
    else if parts[1] != Codes("/ponor") then Some(BadPath)
    else None
  }

  /** What a complete head comes to. */
  function JudgeHead(head: seq<Byte>): Verdict {
    match Decode(head)
    case None => Refused(Malformed)
    case Some(text) =>
      var lines := SplitLines(text);
      match JudgeRequest(lines[0])
      case Some(why) => Refused(why)
      case None => JudgeFields(lines[1..], |head|)
  }

  function SearchFrom(buf: seq<Byte>, i: nat): (r: Option<nat>)
    decreases |buf| - i
  {
    if i + 4 > |buf| then None
    else if buf[i..i + 4] == CRLF_CRLF then Some(i + 4)
    else SearchFrom(buf, i + 1)
  }

  /** The offset just past the first blank line. */
  function HeadEnd(buf: seq<Byte>): Option<nat> { SearchFrom(buf, 0) }

  function Judge(buf: seq<Byte>): Verdict {
    match HeadEnd(buf)
    case None => if |buf| > HEAD_MAX then Refused(Malformed) else Incomplete
    case Some(end) => if end > HEAD_MAX || end > |buf| then Refused(Malformed) else JudgeHead(buf[..end])
  }

  // ---- The parser ----

  /** Flags as the header loop leaves them. */
  datatype Flags = Flags(upgrade: bool, connection: bool, version: Option<Str>)

  function FlagsOf(lines: seq<Str>): Flags {
    var upgrade, connection := LastNamed(lines, "upgrade"), LastNamed(lines, "connection");
    Flags(upgrade.Some? && SameIgnoringCase(upgrade.value, Codes("ponor")),
          connection.Some? && ListsUpgrade(connection.value),
          LastNamed(lines, "ponor-version"))
  }

  method AnyUpgrade(value: Str) returns (any: bool)
    ensures any == ListsUpgrade(value)
  {
    var tokens := SplitOn(value, ',' as int);
    any := false;
    for i := 0 to |tokens|
      invariant any <==> exists j :: 0 <= j < i && SameIgnoringCase(Trim(tokens[j]), Codes("upgrade"))
    {
      any := any || SameIgnoringCase(Trim(tokens[i]), Codes("upgrade"));
    }
  }

  lemma NamesDiffer(line: Str)
    ensures !(Named(line, "upgrade") && Named(line, "connection"))
    ensures !(Named(line, "upgrade") && Named(line, "ponor-version"))
    ensures !(Named(line, "connection") && Named(line, "ponor-version"))
  {
  }

  lemma LastNamedGrows(lines: seq<Str>, i: nat, name: string)
    requires i < |lines|
    ensures LastNamed(lines[..i + 1], name)
         == if Named(lines[i], name) then Some(FieldValue(lines[i])) else LastNamed(lines[..i], name)
  {
    assert lines[..i + 1][..i] == lines[..i];
  }

  /** What one more line does to the flags. */
  function AddField(f: Flags, line: Str): Flags {
    if Named(line, "upgrade") then f.(upgrade := SameIgnoringCase(FieldValue(line), Codes("ponor")))
    else if Named(line, "connection") then f.(connection := ListsUpgrade(FieldValue(line)))
    else if Named(line, "ponor-version") then f.(version := Some(FieldValue(line)))
    else f
  }

  lemma FlagsGrow(lines: seq<Str>, i: nat)
    requires i < |lines|
    ensures FlagsOf(lines[..i + 1]) == AddField(FlagsOf(lines[..i]), lines[i])
    ensures AllFields(lines[..i + 1]) <==> AllFields(lines[..i]) && (lines[i] != [] ==> HasColon(lines[i]))
  {
    LastNamedGrows(lines, i, "upgrade");
    LastNamedGrows(lines, i, "connection");
    LastNamedGrows(lines, i, "ponor-version");
    NamesDiffer(lines[i]);
    assert lines[..i + 1] == lines[..i] + [lines[i]];
  }

  method ReadField(line: Str, f: Flags) returns (g: Flags)
    requires HasColon(line)
    ensures g == AddField(f, line)
  {
    var colon := Find(line, ':' as int);
    var name, value := line[..colon], Trim(line[colon + 1..]);
    g := f;
    if SameIgnoringCase(name, Codes("upgrade")) {
      g := g.(upgrade := SameIgnoringCase(value, Codes("ponor")));
    } else if SameIgnoringCase(name, Codes("connection")) {
      var any := AnyUpgrade(value);
      g := g.(connection := any);
    } else if SameIgnoringCase(name, Codes("ponor-version")) {
      g := g.(version := Some(value));
    }
  }

  lemma StopsAtBadLine(lines: seq<Str>, i: nat)
    requires i < |lines| && lines[i] != [] && !HasColon(lines[i])
    ensures !AllFields(lines)
  {
  }

  method ReadFields(lines: seq<Str>) returns (r: Option<Flags>)
    ensures r == if AllFields(lines) then Some(FlagsOf(lines)) else None
  {
    var flags := Flags(false, false, None);
    for i := 0 to |lines|
      invariant AllFields(lines[..i]) && flags == FlagsOf(lines[..i])
    {
      FlagsGrow(lines, i);
      if lines[i] == [] {
        continue;
      }
      if !HasColon(lines[i]) {
        StopsAtBadLine(lines, i);
        return None;
      }
      flags := ReadField(lines[i], flags);
    }
    assert lines[..|lines|] == lines;
    return Some(flags);
  }

  /** `parse`. */
  method Parse(buf: seq<Byte>) returns (v: Verdict)
    ensures v == Judge(buf)
  {
    var end := HeadEnd(buf);
    if end.None? {
      if |buf| > HEAD_MAX {
        return Refused(Malformed);
      }
      return Incomplete;
    }
    if end.value > HEAD_MAX || end.value > |buf| {
      return Refused(Malformed);
    }
    var text := Decode(buf[..end.value]);
    if text.None? {
      return Refused(Malformed);
    }
    var lines := SplitLines(text.value);
    var parts := SplitOn(lines[0], ' ' as int);
    if |parts| < 3 || |parts| > 3 || !(Codes("HTTP/1.") <= parts[2]) {
      return Refused(Malformed);
    }
    if parts[0] != Codes("GET") {
      return Refused(BadMethod);
    }
    if parts[1] != Codes("/ponor") {
      return Refused(BadPath);
    }
    var flags := ReadFields(lines[1..]);
    if flags.None? {
      return Refused(Malformed);
    }
    if !flags.value.upgrade || !flags.value.connection {
      return Refused(NotAnUpgrade);
    }
    if flags.value.version.Some? && flags.value.version.value != Codes("1") {
      return Refused(BadVersion);
    }
    return Accepted(end.value);
  }

  // ---- A verdict is final ----

  lemma {:induction false} SearchBounds(buf: seq<Byte>, i: nat)
    ensures SearchFrom(buf, i).Some? ==> i + 4 <= SearchFrom(buf, i).value <= |buf|
    decreases |buf| - i
  {
    if i + 4 <= |buf| && buf[i..i + 4] != CRLF_CRLF {
      SearchBounds(buf, i + 1);
    }
  }

  /** More bytes never move the end of the head, and an end that appears only
      with them lies past the bytes that were there. */
  lemma {:induction false} SearchExtends(buf: seq<Byte>, more: seq<Byte>, i: nat)
    ensures match SearchFrom(buf, i)
      case Some(end) => SearchFrom(buf + more, i) == Some(end)
      case None => SearchFrom(buf + more, i).Some? ==> SearchFrom(buf + more, i).value > |buf|
    decreases |buf| - i
  {
    if i + 4 <= |buf| {
      assert (buf + more)[i..i + 4] == buf[i..i + 4];
      if buf[i..i + 4] != CRLF_CRLF {
        SearchExtends(buf, more, i + 1);
      }
    } else {
      SearchBounds(buf + more, i);
    }
  }

  /** Once a buffer is accepted or refused, every extension of it gets the same
      verdict and the same head length. */
  lemma VerdictIsFinal(buf: seq<Byte>, more: seq<Byte>)
    requires Judge(buf) != Incomplete
    ensures Judge(buf + more) == Judge(buf)
  {
    SearchExtends(buf, more, 0);
    SearchBounds(buf, 0);
    if HeadEnd(buf).Some? {
      assert (buf + more)[..HeadEnd(buf).value] == buf[..HeadEnd(buf).value];
    }
  }

  lemma HeadIsJudged(head: seq<Byte>)
    ensures !JudgeHead(head).Incomplete?
    ensures JudgeHead(head).Accepted? ==> JudgeHead(head).headLen == |head|
  {
  }

  lemma AcceptedInside(buf: seq<Byte>)
    ensures Judge(buf).Accepted? ==> HeadEnd(buf) == Some(Judge(buf).headLen) && Judge(buf).headLen <= |buf|
    ensures Judge(buf).Incomplete? ==> |buf| <= HEAD_MAX
  {
    SearchBounds(buf, 0);
    if HeadEnd(buf).Some? {
      HeadIsJudged(buf[..HeadEnd(buf).value]);
    }
  }

  // ---- Reading until there is one ----

  /** The bytes that a sequence of reads delivers. */
  function Stream(chunks: seq<seq<Byte>>): seq<Byte> {
    if chunks == [] then [] else Stream(chunks[..|chunks| - 1]) + chunks[|chunks| - 1]
  }

  lemma {:induction false} StreamSplits(chunks: seq<seq<Byte>>, k: nat)
    requires k <= |chunks|
    ensures Stream(chunks) == Stream(chunks[..k]) + Stream(chunks[k..])
  {
    if k == |chunks| {
      assert chunks[..k] == chunks && chunks[k..] == [];
    } else {
      var n := |chunks| - 1;
      StreamSplits(chunks[..n], k);
      assert chunks[..n][..k] == chunks[..k] && chunks[..n][k..] == chunks[k..][..n - k];
      Assoc(Stream(chunks[..k]), Stream(chunks[..n][k..]), chunks[n]);
    }
  }

  predicate Chunked(chunks: seq<seq<Byte>>) { forall i :: 0 <= i < |chunks| ==> 0 < |chunks[i]| <= CHUNK }

  datatype Outcome = Upgraded(rest: seq<Byte>) | Rejected(why: Reject) | Closed

  /** Read one chunk onto the tail: grow by a chunk, let the transport fill the
      front of it, cut back to what arrived.  None is end of stream or error. */
  method ReadMore(buf: seq<Byte>, arrived: Option<seq<Byte>>) returns (grown: seq<Byte>, ok: bool)
    requires arrived.Some? ==> 0 < |arrived.value| <= CHUNK
    ensures grown == if arrived.Some? then buf + arrived.value else buf
    ensures ok <==> arrived.Some? && |grown| <= READ_BUF_MAX
  {
    var start := |buf|;
    grown := buf + seq(CHUNK, i => 0);
    if arrived.None? {
      grown := grown[..start];
      ok := false;
    } else {
      var n := |arrived.value|;
      grown := grown[..start] + arrived.value + grown[start + n..];
      grown := grown[..start + n];
      ok := |grown| <= READ_BUF_MAX;
    }
  }

  type Judgement = seq<Byte> -> Verdict

  /** Verdicts are final, point inside the buffer, and come before it grows
      past a head's size. */
  ghost predicate Settles(judge: Judgement) {
    && (forall buf, more :: judge(buf) != Incomplete ==> judge(buf + more) == judge(buf))
    && (forall buf :: judge(buf).Accepted? ==> judge(buf).headLen <= |buf|)
    && (forall buf :: judge(buf).Incomplete? ==> |buf| <= HEAD_MAX)
  }

  lemma ParserSettles()
    ensures Settles(Judge)
  {
    forall buf, more | Judge(buf) != Incomplete ensures Judge(buf + more) == Judge(buf) {
      VerdictIsFinal(buf, more);
    }
    forall buf ensures Judge(buf).Accepted? ==> Judge(buf).headLen <= |buf| {
      AcceptedInside(buf);
    }
    forall buf ensures Judge(buf).Incomplete? ==> |buf| <= HEAD_MAX {
      AcceptedInside(buf);
    }
  }

  /** The verdict on the bytes so far decides for the whole stream, or the
      buffer is still small. */
  lemma PrefixDecides(judge: Judgement, chunks: seq<seq<Byte>>, used: nat)
    requires used <= |chunks| && Settles(judge)
    ensures var buf, all := Stream(chunks[..used]), Stream(chunks);
      match judge(buf)
      case Accepted(headLen) =>
        && judge(all) == judge(buf) && headLen <= |buf| <= |all|
        && all[headLen..] == buf[headLen..] + Stream(chunks[used..])
      case Refused(_) => judge(all) == judge(buf)
      case Incomplete => |buf| <= HEAD_MAX
  {
    StreamSplits(chunks, used);
  }

  /** What the loop is to come to, whatever the chunks. */
  ghost predicate Decided(judge: Judgement, chunks: seq<seq<Byte>>, used: nat, o: Outcome) {
    used <= |chunks| &&
    match judge(Stream(chunks))
    case Accepted(headLen) =>
      o.Upgraded? && headLen <= |Stream(chunks)| && o.rest + Stream(chunks[used..]) == Stream(chunks)[headLen..]
    case Refused(why) => o == Rejected(why)
    case Incomplete => o == Closed && used == |chunks|
  }

  ghost predicate IsParser(judge: Judgement) { forall buf {:trigger Judge(buf)} :: judge(buf) == Judge(buf) }

  method ParseAs(buf: seq<Byte>, ghost judge: Judgement) returns (v: Verdict)
    requires IsParser(judge)
    ensures v == judge(buf)
  {
    assert judge(buf) == Judge(buf);
    v := Parse(buf);
  }

  /** The most the buffer holds: it grows by a chunk before every read, the one
      that finds the connection closed included. */
  function Peak(chunks: seq<seq<Byte>>, used: nat, o: Outcome): nat
    requires used <= |chunks|
  {
    if o.Closed? then |Stream(chunks[..used])| + CHUNK
    else if used == 0 then 0
    else |Stream(chunks[..used - 1])| + CHUNK
  }

  method ReadUntilJudged(chunks: seq<seq<Byte>>, ghost judge: Judgement) returns (o: Outcome, used: nat, peak: nat)
    requires Chunked(chunks) && IsParser(judge) && Settles(judge)
    ensures Decided(judge, chunks, used, o)
    ensures used <= |chunks| && peak == Peak(chunks, used, o) <= HEAD_MAX + CHUNK
  {
    var buf: seq<Byte> := [];
    used, peak := 0, 0;
    while true
      invariant used <= |chunks| && buf == Stream(chunks[..used])
      invariant peak == if used == 0 then 0 else |Stream(chunks[..used - 1])| + CHUNK
      invariant peak <= |buf| + CHUNK && peak <= HEAD_MAX + CHUNK
      decreases |chunks| - used
    {
      var v := ParseAs(buf, judge);
      PrefixDecides(judge, chunks, used);
      match v
      case Accepted(headLen) =>
        return Upgraded(buf[headLen..]), used, peak;
      case Refused(why) =>
        return Rejected(why), used, peak;
      case Incomplete =>
        var arrived := if used < |chunks| then Some(chunks[used]) else None;
        peak := Max(peak, |buf| + CHUNK);  // what the buffer grows to before the read
        var grown, ok := ReadMore(buf, arrived);
        if used == |chunks| {
          assert chunks[..used] == chunks;
          return Closed, used, peak;
        }
        assert chunks[..used + 1][..used] == chunks[..used];
        if !ok {
          assert false;
        }
        buf := grown;
        used := used + 1;
    }
  }

  /** The upgrade loop: for every way of cutting a stream into reads it reaches
      the outcome that the whole stream has, keeps exactly the bytes after the
      head, and never holds more than a head and a chunk. */
  method Establish(chunks: seq<seq<Byte>>) returns (o: Outcome, used: nat, peak: nat)
    requires Chunked(chunks)
    ensures Decided(Judge, chunks, used, o)
    ensures used <= |chunks| && peak == Peak(chunks, used, o) <= HEAD_MAX + CHUNK
  {
    ParserSettles();
    o, used, peak := ReadUntilJudged(chunks, Judge);
  }

  /** Two ways of cutting one stream: the same verdict, and the bytes kept
      followed by those not yet read are the same. */
  lemma CutsAgree(
      cut: seq<seq<Byte>>, usedCut: nat, o: Outcome, other: seq<seq<Byte>>, usedOther: nat, p: Outcome)
    requires Stream(cut) == Stream(other) && Decided(Judge, cut, usedCut, o) && Decided(Judge, other, usedOther, p)
    ensures o.Upgraded? == p.Upgraded? && (!o.Upgraded? ==> o == p)
    ensures o.Upgraded? ==> o.rest + Stream(cut[usedCut..]) == p.rest + Stream(other[usedOther..])
  {
  }
}

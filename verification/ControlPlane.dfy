/** The control plane's side of a stored minute: a second implementation of the
    format, in another language and with stricter rules. */
module ControlPlane {
  import opened Common
  import opened Frames
  import opened Bytes
  import opened Utf8
  import opened Usage
  import opened UsageCodec

  /** Text that the reader accepts: UTF-8, trimmed, and free of controls. */
  predicate CleanText(f: seq<Byte>) {
    match Decode(f)
    case None => false
    case Some(t) =>
      && (t != [] ==> !WhiteSpace(t[0]) && !WhiteSpace(t[|t| - 1]))
      && forall i :: 0 <= i < |t| ==> !Control(t[i])
  }

  predicate CleanMapping(m: UsageMapping) {
    CleanText(m.deployment) && CleanText(m.version) && CleanText(m.aquifer)
  }

  predicate AllClean(rows: seq<Total>) { forall i :: 0 <= i < |rows| ==> CleanMapping(rows[i].mapping) }

  /** The reader compares whole keys, fields joined by NUL. */
  function JoinedKey(m: UsageMapping): seq<Byte> { m.deployment + [0] + m.version + [0] + m.aquifer }

  predicate KeysIncrease(rows: seq<Total>) {
    forall i, j :: 0 <= i < |rows| && 0 <= j < |rows| && j == i + 1 ==>
      Less(JoinedKey(rows[i].mapping), JoinedKey(rows[j].mapping))
  }

  predicate MinuteBounds(startUs: nat, endUs: nat) {
    startUs % BUCKET_MICROS == 0 && startUs <= U64_MAX - BUCKET_MICROS && endUs == startUs + BUCKET_MICROS
  }

  predicate Acceptable(c: Contents) {
    MinuteBounds(c.startUs, c.endUs) && Orderly(c.rows) && c.bits < 32
  }

  /** What the reader is to return: the contents, if they pass every rule. */
  function Accepted(p: seq<Byte>): Option<Contents> {
    match Read(p)
    case None => None
    case Some(c) => if Acceptable(c) then Some(c) else None
  }

  // ---- The reader, in one pass ----

  method TakeField(p: seq<Byte>, offset: nat, limit: nat) returns (r: Option<seq<Byte>>, next: nat)
    requires offset <= |p|
    ensures next <= |p|
    ensures r.Some? ==> ReadField(p[offset..], limit) == Some(Parsed(r.value, p[next..])) && CleanText(r.value)
    ensures r.None? ==> ReadField(p[offset..], limit).None? || !CleanText(ReadField(p[offset..], limit).value.value)
  {
    next := offset;
    if |p| - offset < 2 {
      return None, next;
    }
    var size := FromBigEndian(p[offset..offset + 2]);
    assert p[offset..][..2] == p[offset..offset + 2];
    next := offset + 2;
    if size == 0 || size > limit || size > |p| - next {
      return None, next;
    }
    var value := p[next..next + size];
    assert p[offset..][2..2 + size] == value && p[offset..][2 + size..] == p[next + size..];
    next := next + size;
    if !CleanText(value) {
      return None, next;
    }
    r := Some(value);
  }

  ghost predicate ReadsRows(item: Reader<Total>) { forall s {:trigger ReadRow(s)} :: item(s) == ReadRow(s) }

  method TakeRow(p: seq<Byte>, offset: nat, ghost item: Reader<Total>) returns (r: Option<Total>, next: nat)
    requires offset <= |p| && ReadsRows(item)
    ensures next <= |p|
    ensures r.Some? ==> item(p[offset..]) == Some(Parsed(r.value, p[next..])) && CleanMapping(r.value.mapping)
    ensures r.None? ==> item(p[offset..]).None? || !CleanMapping(item(p[offset..]).value.value.mapping)
  {
    assert item(p[offset..]) == ReadRow(p[offset..]);
    var deployment, afterDeployment := TakeField(p, offset, 128);
    if deployment.None? {
      return None, afterDeployment;
    }
    var version, afterVersion := TakeField(p, afterDeployment, 64);
    if version.None? {
      return None, afterVersion;
    }
    var aquifer, afterAquifer := TakeField(p, afterVersion, 1024);
    if aquifer.None? || |p| - afterAquifer < 8 {
      return None, afterAquifer;
    }
    next := afterAquifer + 8;
    assert p[afterAquifer..][..8] == p[afterAquifer..next] && p[afterAquifer..][8..] == p[next..];
    r := Some(Total(UsageMapping(deployment.value, version.value, aquifer.value),
                    FromBigEndian(p[afterAquifer..next])));
  }

  lemma {:induction false} RowsExtend(item: Reader<Total>, s: seq<Byte>, count: nat, done: seq<Total>)
    requires Repeat(item, s, count, done).Some?
    ensures done <= Repeat(item, s, count, done).value.value
    decreases count
  {
    if count == 0 {
    } else {
      var Parsed(total, rest) := item(s).value;
      RowsExtend(item, rest, count - 1, done + [total]);
    }
  }

  /** Every rule on rows that the reader checks as it goes. */
  predicate Orderly(rows: seq<Total>) { AllClean(rows) && KeysIncrease(rows) }

  /** Rows that break a rule cannot be mended by rows that follow. */
  lemma BadStaysBad(item: Reader<Total>, s: seq<Byte>, count: nat, done: seq<Total>)
    requires !Orderly(done) && Repeat(item, s, count, done).Some?
    ensures !Orderly(Repeat(item, s, count, done).value.value)
  {
    RowsExtend(item, s, count, done);
    var rows := Repeat(item, s, count, done).value.value;
    assert forall i :: 0 <= i < |done| ==> done[i] == rows[i];
  }

  lemma OrderlyGrows(rows: seq<Total>, row: Total)
    requires Orderly(rows)
    ensures Orderly(rows + [row]) <==>
      CleanMapping(row.mapping) && (rows != [] ==> Less(JoinedKey(rows[|rows| - 1].mapping), JoinedKey(row.mapping)))
  {
    var n, longer := |rows|, rows + [row];
    assert longer[n] == row && forall j :: 0 <= j < n ==> longer[j] == rows[j];
  }

  lemma RowRefused(item: Reader<Total>, s: seq<Byte>, count: nat, rows: seq<Total>)
    requires count > 0 && (item(s).None? || !Orderly(rows + [item(s).value.value]))
    ensures var r := Repeat(item, s, count, rows); r.None? || !Orderly(r.value.value)
  {
    if Repeat(item, s, count, rows).Some? {
      var Parsed(total, rest) := item(s).value;
      BadStaysBad(item, rest, count - 1, rows + [total]);
    }
  }

  /** One more row that keeps the order, or the reason to stop. */
  method TakeNext(p: seq<Byte>, offset: nat, rows: seq<Total>, ghost item: Reader<Total>)
    returns (r: Option<Total>, next: nat)
    requires offset <= |p| && ReadsRows(item) && Orderly(rows)
    ensures next <= |p|
    ensures r.Some? ==> item(p[offset..]) == Some(Parsed(r.value, p[next..])) && Orderly(rows + [r.value])
    ensures r.None? ==> item(p[offset..]).None? || !Orderly(rows + [item(p[offset..]).value.value])
  {
    r, next := TakeRow(p, offset, item);
    if item(p[offset..]).Some? {
      OrderlyGrows(rows, item(p[offset..]).value.value);
    }
    if r.Some? && |rows| > 0 && !Less(JoinedKey(rows[|rows| - 1].mapping), JoinedKey(r.value.mapping)) {
      r := None;
    }
  }

  method TakeRows(p: seq<Byte>, count: nat, ghost item: Reader<Total>) returns (r: Option<seq<Total>>, next: nat)
    requires |p| >= 24 && ReadsRows(item)
    ensures next <= |p|
    ensures r.Some? ==> Repeat(item, p[24..], count, []) == Some(Parsed(r.value, p[next..])) && Orderly(r.value)
    ensures r.None? && Repeat(item, p[24..], count, []).Some? ==>
      !Orderly(Repeat(item, p[24..], count, []).value.value)
  {
    var rows: seq<Total> := [];
    next := 24;
    for i := 0 to count
      invariant |rows| == i && next <= |p|
      invariant Repeat(item, p[24..], count, []) == Repeat(item, p[next..], count - i, rows)
      invariant Orderly(rows)
    {
      var row, after := TakeNext(p, next, rows, item);
      if row.None? {
        RowRefused(item, p[next..], count - i, rows);
        return None, after;
      }
      rows := rows + [row.value];
      next := after;
    }
    r := Some(rows);
  }

  /** `parsePayload`: one pass with every check in place returns what reading
      first and judging afterwards would. */
  method ParsePayload(p: seq<Byte>) returns (r: Option<Contents>)
    ensures r == Accepted(p)
  {
    if |p| < 4 + 2 + 8 + 8 + 2 + 1 || p[..4] != MAGIC || FromBigEndian(p[4..6]) != 1 {
      return None;
    }
    var startUs, endUs := FromBigEndian(p[6..14]), FromBigEndian(p[14..22]);
    if startUs % BUCKET_MICROS != 0 || startUs > U64_MAX - BUCKET_MICROS || endUs != startUs + BUCKET_MICROS {
      return None;
    }
    var count := FromBigEndian(p[22..24]);
    if count > MAX_MAPPINGS {
      return None;
    }
    var rows, next := TakeRows(p, count, ReadRow);
    if rows.None? || |p| - next != 1 {
      return None;
    }
    var gaps := p[next];
    if gaps / 32 != 0 {
      return None;
    }
    r := Some(Contents(startUs, endUs, rows.value, gaps));
  }

  // ---- Where the two sides agree ----

  /** Clean text holds no NUL. */
  lemma CleanIsNulFree(f: seq<Byte>)
    requires CleanText(f)
    ensures NulFree(f)
  {
    forall i | 0 <= i < |f| ensures f[i] != 0 {
      if f[i] == 0 {
        ZeroByteIsNul(f, i);
      }
    }
  }

  lemma KeyShape(m: UsageMapping)
    ensures JoinedKey(m) == m.deployment + [0] + (m.version + [0] + m.aquifer)
  {
    Assoc(m.deployment + [0] + m.version, [0], m.aquifer);
    Assoc(m.deployment + [0], m.version, [0] + m.aquifer);
    Assoc(m.version, [0], m.aquifer);
  }

  /** Comparing fields joined by NUL is comparing them one by one, as long as
      the fields hold no NUL themselves: writer and reader agree on order. */
  lemma JoinedOrder(m: UsageMapping, n: UsageMapping)
    requires CleanMapping(m) && CleanMapping(n)
    ensures Less(JoinedKey(m), JoinedKey(n)) <==> MappingLess(m, n)
  {
    CleanIsNulFree(m.deployment);
    CleanIsNulFree(n.deployment);
    CleanIsNulFree(m.version);
    CleanIsNulFree(n.version);
    TerminatedCompare(m.version, m.aquifer, n.version, n.aquifer);
    var x, y := m.version + [0] + m.aquifer, n.version + [0] + n.aquifer;
    TerminatedCompare(m.deployment, x, n.deployment, y);
    KeyShape(m);
    KeyShape(n);
  }

  lemma SortedKeysIncrease(rows: seq<Total>)
    requires AllClean(rows)
    ensures KeysIncrease(rows) <==> Sorted(rows)
  {
    forall i, j | 0 <= i < |rows| && 0 <= j < |rows| && j == i + 1
      ensures Less(JoinedKey(rows[i].mapping), JoinedKey(rows[j].mapping))
         <==> MappingLess(rows[i].mapping, rows[j].mapping)
    {
      JoinedOrder(rows[i].mapping, rows[j].mapping);
    }
  }

  predicate Aligned(w: Window) { w.startUs % BUCKET_MICROS == 0 }

  /** The control plane accepts a stored window if and only if it is aligned
      and every mapping is trimmed text without control characters; and then it
      reads exactly what was written. */
  lemma AcceptsExactlyClean(w: Window)
    requires Encodable(w) && InWidth(w)
    ensures Accepted(Payload(w)) == if Aligned(w) && AllClean(w.totals) then Some(ContentsOf(w)) else None
  {
    PayloadReads(w);
    if AllClean(w.totals) {
      SortedKeysIncrease(w.totals);
    }
  }

  lemma {:induction false} RowsReadFit(item: Reader<Total>, s: seq<Byte>, count: nat, done: seq<Total>)
    requires Repeat(item, s, count, done).Some? && forall i :: 0 <= i < |done| ==> FieldsInBounds(done[i].mapping)
    requires forall s :: item(s).Some? ==> FieldsInBounds(item(s).value.value.mapping)
    ensures var rows := Repeat(item, s, count, done).value.value;
      |rows| == |done| + count && forall i :: 0 <= i < |rows| ==> FieldsInBounds(rows[i].mapping)
    decreases count
  {
    if count == 0 {
    } else {
      var Parsed(total, rest) := item(s).value;
      RowsReadFit(item, rest, count - 1, done + [total]);
    }
  }

  /** Whatever the control plane accepts, from anyone, is a window the relay's
      encoder would also have accepted. */
  lemma AcceptedIsEncodable(p: seq<Byte>)
    requires Accepted(p).Some?
    ensures Encodable(WindowOf(Accepted(p).value))
  {
    var c := Accepted(p).value;
    RowsReadFit(ReadRow, p[24..], FromBigEndian(p[22..24]), []);
    SortedKeysIncrease(c.rows);
    FiveGaps(GapsOf(c.bits));
  }
}

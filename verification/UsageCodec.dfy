/** The stored form of a minute, and a reader that recovers it. */
module UsageCodec {
  import opened Common
  import opened Frames
  import opened Bytes
  import opened Usage

  datatype Total = Total(mapping: UsageMapping, bytes: nat)

  datatype Window = Window(startUs: nat, endUs: nat, totals: seq<Total>, gaps: set<Gap>)

  const MAX_BATCH_BYTES: nat := 8 * 1024 * 1024

  // ---- Order of mappings ----

  /** The order of the relay's table: field by field. */
  predicate MappingLess(m: UsageMapping, n: UsageMapping) {
    || Less(m.deployment, n.deployment)
    || (m.deployment == n.deployment &&
        (Less(m.version, n.version) || (m.version == n.version && Less(m.aquifer, n.aquifer))))
  }

  lemma MappingLessTotal(m: UsageMapping, n: UsageMapping)
    ensures MappingLess(m, n) || m == n || MappingLess(n, m)
  {
    LessTotal(m.deployment, n.deployment);
    LessTotal(m.version, n.version);
    LessTotal(m.aquifer, n.aquifer);
  }

  lemma MappingLessTransitive(l: UsageMapping, m: UsageMapping, n: UsageMapping)
    requires MappingLess(l, m) && MappingLess(m, n)
    ensures MappingLess(l, n)
  {
    if Less(l.deployment, m.deployment) && Less(m.deployment, n.deployment) {
      LessTransitive(l.deployment, m.deployment, n.deployment);
    } else if l.deployment == m.deployment == n.deployment {
      if Less(l.version, m.version) && Less(m.version, n.version) {
        LessTransitive(l.version, m.version, n.version);
      } else if l.version == m.version == n.version {
        LessTransitive(l.aquifer, m.aquifer, n.aquifer);
      }
    }
  }

  /** Strictly increasing, hence without duplicates. */
  predicate Sorted(totals: seq<Total>) {
    forall i, j :: 0 <= i < |totals| && 0 <= j < |totals| && j == i + 1 ==>
      MappingLess(totals[i].mapping, totals[j].mapping)
  }

  // ---- What the relay writes ----

  predicate BoundsOk(w: Window) {
    w.startUs < w.endUs && w.endUs - w.startUs == BUCKET_MICROS && |w.totals| <= MAX_MAPPINGS && |w.gaps| <= 8
  }

  /** A window whose numbers fit their widths, as the types of the source say. */
  predicate InWidth(w: Window) {
    w.startUs <= U64_MAX && w.endUs <= U64_MAX && forall i :: 0 <= i < |w.totals| ==> w.totals[i].bytes <= U64_MAX
  }

  predicate Encodable(w: Window) {
    BoundsOk(w) && Sorted(w.totals) && forall i :: 0 <= i < |w.totals| ==> FieldsInBounds(w.totals[i].mapping)
  }

  const MAGIC: seq<Byte> := [0x4B, 0x52, 0x55, 0x4D]  // "KRUM"

  function Field(f: seq<Byte>): seq<Byte> { BigEndian(|f|, 2) + f }

  function Row(t: Total): seq<Byte> {
    Field(t.mapping.deployment) + Field(t.mapping.version) + Field(t.mapping.aquifer) + BigEndian(t.bytes, 8)
  }

  function Rows(totals: seq<Total>): seq<Byte> {
    if totals == [] then [] else Rows(totals[..|totals| - 1]) + Row(totals[|totals| - 1])
  }

  function Header(w: Window): seq<Byte> {
    MAGIC + BigEndian(1, 2) + BigEndian(w.startUs, 8) + BigEndian(w.endUs, 8) + BigEndian(|w.totals|, 2)
  }

  function Bit(gaps: set<Gap>, gap: Gap, value: Byte): Byte { if gap in gaps then value else 0 }

  function GapBits(gaps: set<Gap>): (b: Byte)
    ensures b < 32
  {
    Bit(gaps, UnresolvedMapping, 1) + Bit(gaps, Capacity, 2) + Bit(gaps, Overflow, 4) +
    Bit(gaps, Clock, 8) + Bit(gaps, ObservationLost, 16)
  }

  function GapsOf(b: nat): set<Gap> {
    (if b % 2 == 1 then {UnresolvedMapping} else {}) + (if b / 2 % 2 == 1 then {Capacity} else {}) +
    (if b / 4 % 2 == 1 then {Overflow} else {}) + (if b / 8 % 2 == 1 then {Clock} else {}) +
    (if b / 16 % 2 == 1 then {ObservationLost} else {})
  }

  lemma GapBitsRoundTrip(gaps: set<Gap>)
    ensures GapsOf(GapBits(gaps)) == gaps
  {
    var b := GapBits(gaps);
    assert (b % 2 == 1) == (UnresolvedMapping in gaps);
    assert (b / 2 % 2 == 1) == (Capacity in gaps);
    assert (b / 4 % 2 == 1) == (Overflow in gaps);
    assert (b / 8 % 2 == 1) == (Clock in gaps);
    assert (b / 16 % 2 == 1) == (ObservationLost in gaps);
    forall g ensures g in GapsOf(b) <==> g in gaps {
      match g
      case UnresolvedMapping =>
      case Capacity =>
      case Overflow =>
      case Clock =>
      case ObservationLost =>
    }
  }

  lemma FiveGaps(gaps: set<Gap>)
    ensures |gaps| <= 5
  {
    var all := {UnresolvedMapping, Capacity, Overflow, Clock, ObservationLost};
    assert gaps <= all by {
      forall g | g in gaps ensures g in all {
        match g
        case UnresolvedMapping =>
        case Capacity =>
        case Overflow =>
        case Clock =>
        case ObservationLost =>
      }
    }
    assert gaps + (all - gaps) == all;
    assert |all| == |gaps| + |all - gaps|;
  }

  function Payload(w: Window): seq<Byte> {
    Header(w) + Rows(w.totals) + [GapBits(w.gaps)]
  }

  lemma {:induction false} RowsBound(totals: seq<Total>)
    requires forall i :: 0 <= i < |totals| ==> FieldsInBounds(totals[i].mapping)
    ensures |Rows(totals)| <= 1230 * |totals|
  {
    if totals == [] {
    } else {
      RowsBound(totals[..|totals| - 1]);
    }
  }

  /** No window the encoder accepts comes near the size cap. */
  lemma PayloadBound(w: Window)
    requires Encodable(w)
    ensures |Payload(w)| <= 25 + 1230 * MAX_MAPPINGS <= MAX_BATCH_BYTES
  {
    RowsBound(w.totals);
  }

  datatype EncodeError = InvalidWindow | InvalidMapping | Unsorted | TooLarge

  datatype Encoded = Encoded(payload: seq<Byte>) | Rejected(error: EncodeError)

  predicate GoodUpTo(totals: seq<Total>, n: nat)
    requires n <= |totals|
  {
    && (forall j :: 0 <= j < n ==> FieldsInBounds(totals[j].mapping))
    && (forall j, k :: 0 <= j < n && 0 <= k < n && k == j + 1 ==> MappingLess(totals[j].mapping, totals[k].mapping))
  }

  lemma RowsGrow(totals: seq<Total>, i: nat)
    requires i < |totals|
    ensures Rows(totals[..i + 1]) == Rows(totals[..i]) + Row(totals[i])
  {
    assert totals[..i + 1][..i] == totals[..i];
  }

  /** The rows, in one pass, appending as it checks. */
  method EncodeRows(head: seq<Byte>, totals: seq<Total>) returns (r: Encoded)
    ensures r.Encoded? <==> GoodUpTo(totals, |totals|)
    ensures r.Encoded? ==> r.payload == head + Rows(totals)
    ensures r.Rejected? ==> r.error == InvalidMapping || r.error == Unsorted
  {
    var out := head;
    for i := 0 to |totals|
      invariant out == head + Rows(totals[..i])
      invariant GoodUpTo(totals, i)
    {
      var m := totals[i].mapping;
      if |m.deployment| == 0 || |m.deployment| > 128 || |m.version| == 0 || |m.version| > 64
         || |m.aquifer| == 0 || |m.aquifer| > 1024 {
        return Rejected(InvalidMapping);
      }
      if i > 0 && !MappingLess(totals[i - 1].mapping, m) {
        return Rejected(Unsorted);
      }
      RowsGrow(totals, i);
      Assoc(head, Rows(totals[..i]), Row(totals[i]));
      out := out + (Field(m.deployment) + Field(m.version) + Field(m.aquifer) + BigEndian(totals[i].bytes, 8));
    }
    assert totals[..|totals|] == totals;
    return Encoded(out);
  }

  /** `Window::encode`. */
  method Encode(w: Window) returns (r: Encoded)
    ensures r.Encoded? <==> Encodable(w) && |Payload(w)| <= MAX_BATCH_BYTES
    ensures r.Encoded? ==> r.payload == Payload(w)
    ensures r == Rejected(InvalidWindow) <==> !BoundsOk(w)
  {
    if w.endUs <= w.startUs || w.endUs - w.startUs != BUCKET_MICROS || |w.totals| > MAX_MAPPINGS || |w.gaps| > 8 {
      return Rejected(InvalidWindow);
    }
    var head := MAGIC + BigEndian(1, 2) + BigEndian(w.startUs, 8) + BigEndian(w.endUs, 8) + BigEndian(|w.totals|, 2);
    r := EncodeRows(head, w.totals);
    if r.Rejected? {
      return;
    }
    var out := r.payload + [GapBits(w.gaps)];
    if |out| > MAX_BATCH_BYTES {
      return Rejected(TooLarge);
    }
    return Encoded(out);
  }

  // ---- Reading it back ----

  datatype Parsed<T> = Parsed(value: T, rest: seq<Byte>)

  function ReadField(s: seq<Byte>, limit: nat): Option<Parsed<seq<Byte>>> {
    if |s| < 2 then None
    else
      var size := FromBigEndian(s[..2]);
      if size == 0 || size > limit || size > |s| - 2 then None else Some(Parsed(s[2..2 + size], s[2 + size..]))
  }

  function ReadRow(s: seq<Byte>): Option<Parsed<Total>> {
    match ReadField(s, 128)
    case None => None
    case Some(Parsed(deployment, s1)) =>
      match ReadField(s1, 64)
      case None => None
      case Some(Parsed(version, s2)) =>
        match ReadField(s2, 1024)
        case None => None
        case Some(Parsed(aquifer, s3)) =>
          if |s3| < 8 then None
          else Some(Parsed(Total(UsageMapping(deployment, version, aquifer), FromBigEndian(s3[..8])), s3[8..]))
  }

  type Reader<T> = seq<Byte> -> Option<Parsed<T>>

  /** So many items in a row, appended to those already read. */
  function Repeat<T>(item: Reader<T>, s: seq<Byte>, count: nat, done: seq<T>): Option<Parsed<seq<T>>>
    decreases count
  {
    if count == 0 then Some(Parsed(done, s))
    else
      match item(s)
      case None => None
      case Some(Parsed(x, rest)) => Repeat(item, rest, count - 1, done + [x])
  }

  /** What the bytes say, before anyone judges it. */
  datatype Contents = Contents(startUs: nat, endUs: nat, rows: seq<Total>, bits: Byte)

  function ReadBody(startUs: nat, endUs: nat, count: nat, s: seq<Byte>): Option<Contents> {
    match Repeat(ReadRow, s, count, [])
    case None => None
    case Some(Parsed(rows, rest)) => if |rest| != 1 then None else Some(Contents(startUs, endUs, rows, rest[0]))
  }

  function Read(p: seq<Byte>): Option<Contents> {
    if |p| < 25 || p[..4] != MAGIC || FromBigEndian(p[4..6]) != 1 then None
    else
      var count := FromBigEndian(p[22..24]);
      if count > MAX_MAPPINGS then None
      else ReadBody(FromBigEndian(p[6..14]), FromBigEndian(p[14..22]), count, p[24..])
  }

  function ContentsOf(w: Window): Contents { Contents(w.startUs, w.endUs, w.totals, GapBits(w.gaps)) }

  function WindowOf(c: Contents): Window { Window(c.startUs, c.endUs, c.rows, GapsOf(c.bits)) }

  lemma FieldReads(f: seq<Byte>, rest: seq<Byte>, limit: nat)
    requires 0 < |f| <= limit < 0x1_0000
    ensures ReadField(Field(f) + rest, limit) == Some(Parsed(f, rest))
  {
    var s := Field(f) + rest;
    Widths();
    BigEndianRoundTrip(|f|, 2);
    assert s[..2] == BigEndian(|f|, 2);
    assert s[2..2 + |f|] == f;
    assert s[2 + |f|..] == rest;
  }

  lemma RowShape(t: Total, rest: seq<Byte>)
    ensures Row(t) + rest
         == Field(t.mapping.deployment) +
            (Field(t.mapping.version) + (Field(t.mapping.aquifer) + (BigEndian(t.bytes, 8) + rest)))
  {
    var d, v, a := Field(t.mapping.deployment), Field(t.mapping.version), Field(t.mapping.aquifer);
    var n := BigEndian(t.bytes, 8);
    Assoc(d + v + a, n, rest);
    Assoc(d + v, a, n + rest);
    Assoc(d, v, a + (n + rest));
  }

  lemma NumberReads(n: nat, rest: seq<Byte>)
    requires n <= U64_MAX
    ensures var s := BigEndian(n, 8) + rest; FromBigEndian(s[..8]) == n && s[8..] == rest
  {
    var s := BigEndian(n, 8) + rest;
    Widths();
    BigEndianRoundTrip(n, 8);
    assert s[..8] == BigEndian(n, 8) && s[8..] == rest;
  }

  lemma RowReads(t: Total, rest: seq<Byte>)
    requires FieldsInBounds(t.mapping) && t.bytes <= U64_MAX
    ensures ReadRow(Row(t) + rest) == Some(Parsed(t, rest))
  {
    var m := t.mapping;
    var s3 := BigEndian(t.bytes, 8) + rest;
    var s2 := Field(m.aquifer) + s3;
    var s1 := Field(m.version) + s2;
    RowShape(t, rest);
    FieldReads(m.deployment, s1, 128);
    FieldReads(m.version, s2, 64);
    FieldReads(m.aquifer, s3, 1024);
    NumberReads(t.bytes, rest);
  }

  lemma Middle<T>(s: seq<T>)
    requires |s| > 1
    ensures s[..|s| - 1][1..] == s[1..][..|s| - 2]
  {
  }

  lemma {:induction false} RowsFromFront(totals: seq<Total>)
    requires totals != []
    ensures Rows(totals) == Row(totals[0]) + Rows(totals[1..])
  {
    var n := |totals| - 1;
    if n == 0 {
      assert totals[..0] == [] && totals[1..] == [];
    } else {
      RowsFromFront(totals[..n]);
      Middle(totals);
      Assoc(Row(totals[0]), Rows(totals[1..][..n - 1]), Row(totals[n]));
    }
  }

  predicate RowsFit(totals: seq<Total>) {
    forall i :: 0 <= i < |totals| ==> FieldsInBounds(totals[i].mapping) && totals[i].bytes <= U64_MAX
  }

  lemma RowsShape(totals: seq<Total>, rest: seq<Byte>)
    requires totals != []
    ensures Rows(totals) + rest == Row(totals[0]) + (Rows(totals[1..]) + rest)
  {
    RowsFromFront(totals);
    Assoc(Row(totals[0]), Rows(totals[1..]), rest);
  }

  lemma Regroup<T>(a: seq<T>, x: seq<T>)
    requires x != []
    ensures a + [x[0]] + x[1..] == a + x
  {
  }

  lemma NoRowsRead(item: Reader<Total>, rest: seq<Byte>, done: seq<Total>)
    ensures Repeat(item, Rows([]) + rest, 0, done) == Some(Parsed(done + [], rest))
  {
    assert Rows([]) + rest == rest && done + [] == done;
  }

  /** A reader that recovers each row recovers all of them. */
  lemma {:induction false} RowsRead(item: Reader<Total>, totals: seq<Total>, rest: seq<Byte>, done: seq<Total>)
    requires RowsFit(totals)
    requires forall t: Total, tail: seq<Byte> :: RowsFit([t]) ==> item(Row(t) + tail) == Some(Parsed(t, tail))
    ensures Repeat(item, Rows(totals) + rest, |totals|, done) == Some(Parsed(done + totals, rest))
    decreases |totals|
  {
    if totals == [] {
      NoRowsRead(item, rest, done);
    } else {
      RowsShape(totals, rest);
      assert item(Row(totals[0]) + (Rows(totals[1..]) + rest)) == Some(Parsed(totals[0], Rows(totals[1..]) + rest)) by {
        assert RowsFit([totals[0]]);
      }
      Regroup(done, totals);
      RowsRead(item, totals[1..], rest, done + [totals[0]]);
    }
  }

  /** A part of a concatenation, read back at its place. */
  lemma PartAt(before: seq<Byte>, part: seq<Byte>, after: seq<Byte>, p: seq<Byte>)
    requires p == before + part + after
    ensures |p| == |before| + |part| + |after|
    ensures p[|before|..|before| + |part|] == part
    ensures p[|before| + |part|..] == after
  {
  }

  lemma HeaderReads(w: Window, tail: seq<Byte>)
    requires InWidth(w) && |w.totals| <= MAX_MAPPINGS
    ensures var p := Header(w) + tail;
      && |p| == 24 + |tail| && p[..4] == MAGIC && FromBigEndian(p[4..6]) == 1
      && FromBigEndian(p[6..14]) == w.startUs && FromBigEndian(p[14..22]) == w.endUs
      && FromBigEndian(p[22..24]) == |w.totals| && p[24..] == tail
  {
    var p := Header(w) + tail;
    var v, s, e, n := BigEndian(1, 2), BigEndian(w.startUs, 8), BigEndian(w.endUs, 8), BigEndian(|w.totals|, 2);
    PartAt(MAGIC + v + s + e, n, tail, p);
    Assoc(MAGIC + v + s + e, n, tail);
    PartAt(MAGIC + v + s, e, n + tail, p);
    Assoc(MAGIC + v + s, e, n + tail);
    PartAt(MAGIC + v, s, e + (n + tail), p);
    Assoc(MAGIC + v, s, e + (n + tail));
    PartAt(MAGIC, v, s + (e + (n + tail)), p);
    assert p[..4] == MAGIC;
    HeaderNumbers(w);
  }

  lemma HeaderNumbers(w: Window)
    requires InWidth(w) && |w.totals| <= MAX_MAPPINGS
    ensures FromBigEndian(BigEndian(1, 2)) == 1
    ensures FromBigEndian(BigEndian(w.startUs, 8)) == w.startUs
    ensures FromBigEndian(BigEndian(w.endUs, 8)) == w.endUs
    ensures FromBigEndian(BigEndian(|w.totals|, 2)) == |w.totals|
  {
    Widths();
    BigEndianRoundTrip(1, 2);
    BigEndianRoundTrip(w.startUs, 8);
    BigEndianRoundTrip(w.endUs, 8);
    BigEndianRoundTrip(|w.totals|, 2);
  }

  lemma BodyReads(w: Window)
    requires RowsFit(w.totals)
    ensures ReadBody(w.startUs, w.endUs, |w.totals|, Rows(w.totals) + [GapBits(w.gaps)]) == Some(ContentsOf(w))
  {
    var none: seq<Total> := [];
    assert none + w.totals == w.totals;
    forall t: Total, tail: seq<Byte> | RowsFit([t]) ensures ReadRow(Row(t) + tail) == Some(Parsed(t, tail)) {
      assert [t][0] == t;
      RowReads(t, tail);
    }
    RowsRead(ReadRow, w.totals, [GapBits(w.gaps)], none);
  }

  lemma PayloadShape(w: Window)
    ensures Payload(w) == Header(w) + (Rows(w.totals) + [GapBits(w.gaps)])
  {
    Assoc(Header(w), Rows(w.totals), [GapBits(w.gaps)]);
  }

  lemma ReadUnfolds(p: seq<Byte>, startUs: nat, endUs: nat, count: nat, body: seq<Byte>)
    requires |p| >= 25 && p[..4] == MAGIC && FromBigEndian(p[4..6]) == 1
    requires FromBigEndian(p[6..14]) == startUs && FromBigEndian(p[14..22]) == endUs
    requires FromBigEndian(p[22..24]) == count <= MAX_MAPPINGS && p[24..] == body
    ensures Read(p) == ReadBody(startUs, endUs, count, body)
  {
  }

  /** Reading a stored window recovers its bounds, rows and gaps exactly. */
  lemma PayloadReads(w: Window)
    requires Encodable(w) && InWidth(w)
    ensures Read(Payload(w)) == Some(ContentsOf(w)) && WindowOf(ContentsOf(w)) == w
  {
    var tail := Rows(w.totals) + [GapBits(w.gaps)];
    PayloadShape(w);
    HeaderReads(w, tail);
    ReadUnfolds(Header(w) + tail, w.startUs, w.endUs, |w.totals|, tail);
    BodyReads(w);
    GapBitsRoundTrip(w.gaps);
  }

  /** Distinct windows never share bytes. */
  lemma PayloadInjective(v: Window, w: Window)
    requires Encodable(v) && InWidth(v) && Encodable(w) && InWidth(w)
    requires Payload(v) == Payload(w)
    ensures v == w
  {
    PayloadReads(v);
    PayloadReads(w);
  }
}

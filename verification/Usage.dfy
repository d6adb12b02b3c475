/** Aggregation of delivered bytes into one-minute windows. */
module Usage {
  import opened Common
  import opened Frames

  const BUCKET_MICROS: nat := 60_000_000
  const MAX_MAPPINGS: nat := 4096
  const OBSERVATION_QUEUE: nat := 4096

  datatype Gap = UnresolvedMapping | Capacity | Overflow | Clock | ObservationLost

  /** One open or sealed minute: bytes per mapping, and why they may be short. */
  datatype Minute = Minute(startUs: nat, endUs: nat, totals: map<UsageMapping, nat>, gaps: set<Gap>)

  datatype Observation = Observation(completedUs: nat, delivery: DeliveryUsage)

  function Bucket(us: nat): nat { us / BUCKET_MICROS * BUCKET_MICROS }

  /** Open a UTC minute; bounds that are misaligned or overflow are refused. */
  function Open(startUs: nat): Option<Minute> {
    if startUs % BUCKET_MICROS == 0 && startUs + BUCKET_MICROS <= U64_MAX
    then Some(Minute(startUs, startUs + BUCKET_MICROS, map[], {})) else None
  }

  function Mark(m: Minute, gap: Gap): Minute { m.(gaps := m.gaps + {gap}) }

  predicate FieldsInBounds(m: UsageMapping) {
    && 0 < |m.deployment| <= 128
    && 0 < |m.version| <= 64
    && 0 < |m.aquifer| <= 1024
  }

  function Recorded(m: Minute, o: Observation): Minute {
    if o.completedUs < m.startUs || o.completedUs >= m.endUs then Mark(m, Clock)
    else
      match o.delivery.mapping
      case None => Mark(m, UnresolvedMapping)
      case Some(key) =>
        if !FieldsInBounds(key) then Mark(m, UnresolvedMapping)
        else if key in m.totals then
          var sum := m.totals[key] + o.delivery.payloadBytes;
          if sum <= U64_MAX then m.(totals := m.totals[key := sum]) else Mark(m, Overflow)
        else if |m.totals| < MAX_MAPPINGS then m.(totals := m.totals[key := o.delivery.payloadBytes])
        else Mark(m, Capacity)
  }

  /** What storing a sealed minute comes to.  A batch can be published and the
      directory sync after it fail: it is there, and reported as an error. */
  datatype Outcome = Stored | Refused | Published

  /** The consumer's own state: the open minute, whether the last store
      reported an error, and the minutes that are in the spool. */
  datatype Books = Books(window: Minute, storageLost: bool, spool: seq<Minute>)

  function Seal(b: Books, next: Minute, outcome: Outcome): Books {
    Books(next, !outcome.Stored?, if outcome.Refused? then b.spool else b.spool + [b.window])
  }

  function MarkIf(m: Minute, loss: bool): Minute {
    if loss then Mark(m, ObservationLost) else m
  }

  /** Outcomes come from the environment, one per seal. */
  function First(outcomes: seq<Outcome>): Outcome { if outcomes == [] then Refused else outcomes[0] }

  function Rest(outcomes: seq<Outcome>): seq<Outcome> { if outcomes == [] then [] else outcomes[1..] }

  /** Seal minute after minute until the target is open. */
  function Catchup(b: Books, target: nat, loss: bool, outcomes: seq<Outcome>): Books
    requires b.window.startUs < b.window.endUs
    decreases if target > b.window.startUs then target - b.window.startUs else 0
  {
    if b.window.startUs >= target then b
    else
      var marked := b.(window := MarkIf(b.window, loss || b.storageLost));
      match Open(b.window.endUs)
      case None => marked
      case Some(next) => Catchup(Seal(marked, next, First(outcomes)), target, loss, Rest(outcomes))
  }

  predicate Jumps(m: Minute, target: nat) {
    target > m.startUs && (target - m.startUs) / BUCKET_MICROS > 5
  }

  /** Bring the open minute up to a target minute: one by one, or in one leap
      with a clock gap. */
  function Advance(b: Books, target: nat, loss: bool, outcomes: seq<Outcome>): Books
    requires b.window.startUs < b.window.endUs
  {
    if Jumps(b.window, target) then
      var marked := b.(window := MarkIf(Mark(b.window, Clock), loss || b.storageLost));
      match Open(target)
      case None => marked
      case Some(next) => Seal(marked, next, First(outcomes))
    else Catchup(b, target, loss, outcomes)
  }

  // ---- Bytes, by mapping; unresolved bytes have no mapping ----

  type Key = Option<UsageMapping>

  function BytesOf(o: Observation, k: Key): nat {
    if o.delivery.mapping == k then o.delivery.payloadBytes else 0
  }

  function Reported(os: seq<Observation>, k: Key): nat {
    if os == [] then 0 else Reported(os[..|os| - 1], k) + BytesOf(os[|os| - 1], k)
  }

  function Held(m: Minute, k: Key): nat {
    if k.Some? && k.value in m.totals then m.totals[k.value] else 0
  }

  function Spooled(spool: seq<Minute>, k: Key): nat {
    if spool == [] then 0 else Spooled(spool[..|spool| - 1], k) + Held(spool[|spool| - 1], k)
  }

  predicate HasGap(spool: seq<Minute>) { exists i :: 0 <= i < |spool| && spool[i].gaps != {} }

  /** Either some flag is up, or no byte has been dropped so far. */
  predicate Suspect(b: Books) { HasGap(b.spool) || b.window.gaps != {} || b.storageLost }

  // ---- Recording loses nothing silently ----

  lemma MarkFlags(m: Minute, gap: Gap)
    ensures Mark(m, gap).gaps != {} && m.gaps <= Mark(m, gap).gaps
  {
    assert gap in Mark(m, gap).gaps;
  }

  /** An observation in the window with a bounded mapping is added or flagged. */
  lemma AddedAccounts(m: Minute, o: Observation, k: Key)
    requires m.startUs <= o.completedUs < m.endUs
    requires o.delivery.mapping.Some? && FieldsInBounds(o.delivery.mapping.value)
    ensures m.gaps <= Recorded(m, o).gaps
    ensures Recorded(m, o).gaps != {} || Held(Recorded(m, o), k) == Held(m, k) + BytesOf(o, k)
  {
    MarkFlags(m, Overflow);
    MarkFlags(m, Capacity);
  }

  lemma RecordedAccounts(m: Minute, o: Observation, k: Key)
    ensures m.gaps <= Recorded(m, o).gaps
    ensures Recorded(m, o).gaps != {} || Held(Recorded(m, o), k) == Held(m, k) + BytesOf(o, k)
    ensures Recorded(m, o).startUs == m.startUs && Recorded(m, o).endUs == m.endUs
  {
    if o.completedUs < m.startUs || o.completedUs >= m.endUs {
      MarkFlags(m, Clock);
    } else if o.delivery.mapping.None? || !FieldsInBounds(o.delivery.mapping.value) {
      MarkFlags(m, UnresolvedMapping);
    } else {
      AddedAccounts(m, o, k);
    }
  }

  lemma SealAccounts(b: Books, next: Minute, outcome: Outcome, k: Key)
    requires next.totals == map[]
    requires b.storageLost ==> b.window.gaps != {}
    ensures Suspect(b) ==> Suspect(Seal(b, next, outcome))
    ensures Suspect(Seal(b, next, outcome)) ||
      Spooled(Seal(b, next, outcome).spool, k) + Held(next, k) == Spooled(b.spool, k) + Held(b.window, k)
  {
    var s := Seal(b, next, outcome);
    if !outcome.Refused? {
      assert s.spool[..|b.spool|] == b.spool;
      assert s.spool[|b.spool|] == b.window;
      if HasGap(b.spool) {
        var i :| 0 <= i < |b.spool| && b.spool[i].gaps != {};
        assert s.spool[i].gaps != {};
      }
    }
  }

  predicate Sound(b: Books) { b.window.startUs + BUCKET_MICROS == b.window.endUs }

  lemma MarkIfMarks(m: Minute, loss: bool)
    ensures loss ==> MarkIf(m, loss).gaps != {}
    ensures m.gaps <= MarkIf(m, loss).gaps
    ensures forall k :: Held(MarkIf(m, loss), k) == Held(m, k)
  {
    assert ObservationLost in Mark(m, ObservationLost).gaps;
  }

  lemma {:induction false} CatchupAccounts(b: Books, target: nat, loss: bool, outcomes: seq<Outcome>, k: Key)
    requires Sound(b)
    ensures var c := Catchup(b, target, loss, outcomes);
      && Sound(c)
      && (Suspect(b) ==> Suspect(c))
      && (Suspect(c) || Spooled(c.spool, k) + Held(c.window, k) == Spooled(b.spool, k) + Held(b.window, k))
    decreases if target > b.window.startUs then target - b.window.startUs else 0
  {
    if b.window.startUs < target {
      var marked := b.(window := MarkIf(b.window, loss || b.storageLost));
      MarkIfMarks(b.window, loss || b.storageLost);
      if Open(b.window.endUs).Some? {
        var next := Open(b.window.endUs).value;
        SealAccounts(marked, next, First(outcomes), k);
        CatchupAccounts(Seal(marked, next, First(outcomes)), target, loss, Rest(outcomes), k);
      }
    }
  }

  /** Bringing the open minute forward drops nothing without raising a flag. */
  lemma AdvanceAccounts(b: Books, target: nat, loss: bool, outcomes: seq<Outcome>, k: Key)
    requires Sound(b)
    ensures var c := Advance(b, target, loss, outcomes);
      && Sound(c)
      && (Suspect(b) ==> Suspect(c))
      && (Suspect(c) || Spooled(c.spool, k) + Held(c.window, k) == Spooled(b.spool, k) + Held(b.window, k))
  {
    if Jumps(b.window, target) {
      var clock := Mark(b.window, Clock);
      assert Clock in clock.gaps;
      var marked := b.(window := MarkIf(clock, loss || b.storageLost));
      MarkIfMarks(clock, loss || b.storageLost);
      assert Clock in marked.window.gaps;
      if Open(target).Some? {
        SealAccounts(marked, Open(target).value, First(outcomes), k);
      }
    } else {
      CatchupAccounts(b, target, loss, outcomes, k);
    }
  }

  // ---- Windows follow one another ----

  /** Consecutive minutes in the spool strictly increase, and abut unless one
      of the two is flagged. */
  predicate Follows(a: Minute, b: Minute) {
    a.endUs <= b.startUs && (a.endUs == b.startUs || a.gaps != {} || b.gaps != {})
  }

  predicate Chained(spool: seq<Minute>) {
    && (forall i :: 0 <= i < |spool| ==> spool[i].startUs + BUCKET_MICROS == spool[i].endUs)
    && (forall i :: 0 <= i < |spool| - 1 ==> Follows(spool[i], spool[i + 1]))
  }

  /** The open minute continues the spool, or a flag will say that it does not. */
  predicate Continues(b: Books) {
    && Sound(b) && Chained(b.spool)
    && (b.spool != [] ==>
          var last := b.spool[|b.spool| - 1];
          last.endUs <= b.window.startUs && (b.storageLost || Follows(last, b.window)))
  }

  lemma SealContinues(b: Books, next: Minute, outcome: Outcome)
    requires Continues(b) && (b.storageLost ==> b.window.gaps != {})
    requires next.startUs + BUCKET_MICROS == next.endUs && b.window.endUs <= next.startUs
    requires b.window.endUs == next.startUs || b.window.gaps != {}
    ensures Continues(Seal(b, next, outcome))
  {
    var s := Seal(b, next, outcome);
    if outcome.Refused? {
      assert s.spool == b.spool;
    } else {
      var n := |b.spool|;
      assert s.spool[n] == b.window && forall i :: 0 <= i < n ==> s.spool[i] == b.spool[i];
      if n > 0 {
        assert Follows(b.spool[n - 1], b.window);
      }
    }
  }

  lemma MarkContinues(b: Books, loss: bool)
    requires Continues(b)
    ensures Continues(b.(window := MarkIf(b.window, loss)))
  {
    MarkIfMarks(b.window, loss);
  }

  lemma {:induction false} CatchupContinues(b: Books, target: nat, loss: bool, outcomes: seq<Outcome>)
    requires Continues(b)
    ensures Continues(Catchup(b, target, loss, outcomes))
    decreases if target > b.window.startUs then target - b.window.startUs else 0
  {
    if b.window.startUs < target {
      var marked := b.(window := MarkIf(b.window, loss || b.storageLost));
      MarkContinues(b, loss || b.storageLost);
      MarkIfMarks(b.window, loss || b.storageLost);
      if Open(b.window.endUs).Some? {
        var next := Open(b.window.endUs).value;
        SealContinues(marked, next, First(outcomes));
        CatchupContinues(Seal(marked, next, First(outcomes)), target, loss, Rest(outcomes));
      }
    }
  }

  lemma AdvanceContinues(b: Books, target: nat, loss: bool, outcomes: seq<Outcome>)
    requires Continues(b)
    ensures Continues(Advance(b, target, loss, outcomes))
  {
    if Jumps(b.window, target) {
      var clock := b.(window := Mark(b.window, Clock));
      assert Clock in clock.window.gaps;
      assert Continues(clock);
      MarkContinues(clock, loss || b.storageLost);
      MarkIfMarks(clock.window, loss || b.storageLost);
      var marked := clock.(window := MarkIf(clock.window, loss || b.storageLost));
      assert Clock in marked.window.gaps;
      if Open(target).Some? {
        SealContinues(marked, Open(target).value, First(outcomes));
      }
    } else {
      CatchupContinues(b, target, loss, outcomes);
    }
  }

  // ---- Minutes stay small enough to store ----

  predicate WellFormed(m: Minute) {
    && m.startUs % BUCKET_MICROS == 0 && m.endUs == m.startUs + BUCKET_MICROS <= U64_MAX
    && |m.totals| <= MAX_MAPPINGS
    && (forall key :: key in m.totals ==> FieldsInBounds(key) && m.totals[key] <= U64_MAX)
  }

  predicate BooksWellFormed(b: Books) {
    WellFormed(b.window) && forall i :: 0 <= i < |b.spool| ==> WellFormed(b.spool[i])
  }

  lemma RecordedWellFormed(m: Minute, o: Observation)
    requires WellFormed(m) && o.delivery.payloadBytes <= U64_MAX
    ensures WellFormed(Recorded(m, o))
  {
  }

  lemma {:induction false} CatchupWellFormed(b: Books, target: nat, loss: bool, outcomes: seq<Outcome>)
    requires BooksWellFormed(b)
    ensures BooksWellFormed(Catchup(b, target, loss, outcomes))
    decreases if target > b.window.startUs then target - b.window.startUs else 0
  {
    if b.window.startUs < target && Open(b.window.endUs).Some? {
      var marked := b.(window := MarkIf(b.window, loss || b.storageLost));
      var next := Open(b.window.endUs).value;
      CatchupWellFormed(Seal(marked, next, First(outcomes)), target, loss, Rest(outcomes));
    }
  }

  lemma AdvanceWellFormed(b: Books, target: nat, loss: bool, outcomes: seq<Outcome>)
    requires BooksWellFormed(b)
    ensures BooksWellFormed(Advance(b, target, loss, outcomes))
  {
    if !Jumps(b.window, target) {
      CatchupWellFormed(b, target, loss, outcomes);
    }
  }
}

/** The usage pipeline end to end: writers report deliveries into a bounded
    queue, one consumer drains it into minutes and stores them.

    Writers and consumer interleave freely.  A report whose send fails raises
    the loss flag in a second step, and the consumer clears the flag between
    advancing the window and recording. */
module UsageRuns {
  import opened Common
  import opened Usage

  datatype Phase =
    | Idle
    | Holding(o: Observation)   // received, window advanced, not yet recorded
    | Finished(sealed: bool)

  datatype Pipe = Pipe(
    reported: seq<Observation>,  // history: everything ever reported
    queue: seq<Observation>,
    failing: nat,                // reports refused by the queue whose flag is not up yet
    lost: bool,
    books: Books,
    phase: Phase)

  datatype Event =
    | Reports(o: Observation)
    | Flags
    | Ticks(nowUs: nat, outcomes: seq<Outcome>)
    | Receives(outcomes: seq<Outcome>)
    | Records
    | Finishes(nowUs: nat, outcomes: seq<Outcome>, last: Outcome)

  /** The flag is taken down and the window marked before anything is added. */
  function Absorb(b: Books, lost: bool, o: Observation): Books {
    b.(window := Recorded(MarkIf(MarkIf(b.window, lost), b.storageLost), o))
  }

  /** The closing seal; there is no window after it. */
  function Close(b: Books, lost: bool, outcome: Outcome): Books {
    var marked := b.(window := MarkIf(b.window, lost || b.storageLost));
    marked.(spool := if outcome.Refused? then b.spool else b.spool + [marked.window])
  }

  predicate Enabled(p: Pipe, e: Event) {
    match e
    case Reports(o) => !p.phase.Finished? && o.completedUs <= U64_MAX && o.delivery.payloadBytes <= U64_MAX
    case Flags => p.failing > 0
    case Ticks(_, _) => p.phase.Idle?
    case Receives(_) => p.phase.Idle? && p.queue != []
    case Records => p.phase.Holding?
    case Finishes(_, _, _) => p.phase.Idle? && p.queue == [] && p.failing == 0
  }

  function Step(p: Pipe, e: Event): Pipe
    requires Enabled(p, e) && Sound(p.books)
  {
    match e
    case Reports(o) =>
      var q := p.(reported := p.reported + [o]);
      if |p.queue| < OBSERVATION_QUEUE then q.(queue := p.queue + [o]) else q.(failing := p.failing + 1)
    case Flags => p.(failing := p.failing - 1, lost := true)
    case Ticks(nowUs, outcomes) => p.(books := Advance(p.books, Bucket(nowUs), p.lost, outcomes))
    case Receives(outcomes) =>
      var o := p.queue[0];
      p.(queue := p.queue[1..], phase := Holding(o),
         books := Advance(p.books, Bucket(o.completedUs), p.lost, outcomes))
    case Records => p.(books := Absorb(p.books, p.lost, p.phase.o), lost := false, phase := Idle)
    case Finishes(nowUs, outcomes, last) =>
      var b := Advance(p.books, Bucket(nowUs), p.lost, outcomes);
      p.(books := Close(b, p.lost, last), phase := Finished(last.Stored?))
  }

  function Start(nowUs: nat, unclean: bool): Option<Pipe> {
    match Open(Bucket(nowUs))
    case None => None
    case Some(m) => Some(Pipe([], [], 0, false, Books(MarkIf(m, unclean), false, []), Idle))
  }

  // ---- Soundness of the flags ----

  /** Observations that are neither recorded nor refused yet. */
  function Pending(p: Pipe): seq<Observation> {
    if p.phase.Holding? then [p.phase.o] + p.queue else p.queue
  }

  predicate Tainted(p: Pipe) { Suspect(p.books) || p.lost || p.failing > 0 }

  predicate Balanced(p: Pipe, k: Key) {
    Spooled(p.books.spool, k) + Held(p.books.window, k) + Reported(Pending(p), k) == Reported(p.reported, k)
  }

  predicate Settled(p: Pipe, k: Key) {
    p.phase.Finished? && p.phase.sealed ==>
      HasGap(p.books.spool) || Spooled(p.books.spool, k) == Reported(p.reported, k)
  }

  predicate Inv(p: Pipe, k: Key) {
    && Sound(p.books)
    && (!p.phase.Finished? ==> Tainted(p) || Balanced(p, k))
    && Settled(p, k)
  }

  lemma {:induction false} ReportedAppend(a: seq<Observation>, b: seq<Observation>, k: Key)
    ensures Reported(a + b, k) == Reported(a, k) + Reported(b, k)
  {
    if b == [] {
      assert a + b == a;
    } else {
      ReportedAppend(a, b[..|b| - 1], k);
      assert (a + b)[..|a + b| - 1] == a + b[..|b| - 1];
    }
  }

  lemma ReportedOne(o: Observation, k: Key)
    ensures Reported([o], k) == BytesOf(o, k)
  {
    assert [o][..0] == [];
  }

  lemma ReportedGrows(os: seq<Observation>, o: Observation, k: Key)
    ensures Reported(os + [o], k) == Reported(os, k) + BytesOf(o, k)
  {
    assert (os + [o])[..|os|] == os;
  }

  lemma PendingGrows(p: Pipe, o: Observation, reported: seq<Observation>)
    ensures Pending(p.(reported := reported, queue := p.queue + [o])) == Pending(p) + [o]
  {
    if p.phase.Holding? {
      Assoc([p.phase.o], p.queue, [o]);
    }
  }

  lemma ReportQueued(p: Pipe, o: Observation, k: Key)
    requires !p.phase.Finished? && Inv(p, k)
    ensures Inv(p.(reported := p.reported + [o], queue := p.queue + [o]), k)
  {
    ReportedGrows(p.reported, o, k);
    ReportedGrows(Pending(p), o, k);
    PendingGrows(p, o, p.reported + [o]);
  }

  lemma ReportKeeps(p: Pipe, o: Observation, k: Key)
    requires Enabled(p, Reports(o)) && Inv(p, k)
    ensures Inv(Step(p, Reports(o)), k)
  {
    if |p.queue| < OBSERVATION_QUEUE {
      ReportQueued(p, o, k);
    }
  }

  lemma TickKeeps(p: Pipe, nowUs: nat, outcomes: seq<Outcome>, k: Key)
    requires Enabled(p, Ticks(nowUs, outcomes)) && Inv(p, k)
    ensures Inv(Step(p, Ticks(nowUs, outcomes)), k)
  {
    AdvanceAccounts(p.books, Bucket(nowUs), p.lost, outcomes, k);
  }

  lemma ReceivedPends(p: Pipe, books: Books)
    requires p.queue != []
    ensures Pending(p.(queue := p.queue[1..], phase := Holding(p.queue[0]), books := books)) == p.queue
  {
  }

  lemma ReceiveKeeps(p: Pipe, outcomes: seq<Outcome>, k: Key)
    requires Enabled(p, Receives(outcomes)) && Inv(p, k)
    ensures Inv(Step(p, Receives(outcomes)), k)
  {
    AdvanceAccounts(p.books, Bucket(p.queue[0].completedUs), p.lost, outcomes, k);
    ReceivedPends(p, Step(p, Receives(outcomes)).books);
  }

  lemma AbsorbAccounts(b: Books, lost: bool, o: Observation, k: Key)
    requires Sound(b)
    ensures var c := Absorb(b, lost, o);
      && Sound(c) && c.spool == b.spool
      && (Suspect(b) || lost ==> Suspect(c))
      && (Suspect(c) || Held(c.window, k) == Held(b.window, k) + BytesOf(o, k))
  {
    var once := MarkIf(b.window, lost);
    var twice := MarkIf(once, b.storageLost);
    MarkIfMarks(b.window, lost);
    MarkIfMarks(once, b.storageLost);
    RecordedAccounts(twice, o, k);
    assert Held(twice, k) == Held(once, k) == Held(b.window, k);
  }

  lemma RecordKeeps(p: Pipe, k: Key)
    requires Enabled(p, Records) && Inv(p, k)
    ensures Inv(Step(p, Records), k)
  {
    AbsorbAccounts(p.books, p.lost, p.phase.o, k);
    ReportedAppend([p.phase.o], p.queue, k);
    ReportedOne(p.phase.o, k);
  }

  lemma SpooledGrows(spool: seq<Minute>, m: Minute, k: Key)
    ensures Spooled(spool + [m], k) == Spooled(spool, k) + Held(m, k)
    ensures HasGap(spool) || m.gaps != {} ==> HasGap(spool + [m])
  {
    var longer := spool + [m];
    assert longer[..|spool|] == spool && longer[|spool|] == m;
    if HasGap(spool) {
      var i :| 0 <= i < |spool| && spool[i].gaps != {};
      assert longer[i].gaps != {};
    }
  }

  lemma CloseAccounts(b: Books, lost: bool, outcome: Outcome, k: Key)
    ensures outcome.Stored? ==>
      && (Suspect(b) || lost ==> HasGap(Close(b, lost, outcome).spool))
      && Spooled(Close(b, lost, outcome).spool, k) == Spooled(b.spool, k) + Held(b.window, k)
  {
    var marked := MarkIf(b.window, lost || b.storageLost);
    MarkIfMarks(b.window, lost || b.storageLost);
    if outcome.Stored? {
      SpooledGrows(b.spool, marked, k);
      assert Held(marked, k) == Held(b.window, k);
    }
  }

  lemma FinishKeeps(p: Pipe, nowUs: nat, outcomes: seq<Outcome>, last: Outcome, k: Key)
    requires Enabled(p, Finishes(nowUs, outcomes, last)) && Inv(p, k)
    ensures Inv(Step(p, Finishes(nowUs, outcomes, last)), k)
  {
    AdvanceAccounts(p.books, Bucket(nowUs), p.lost, outcomes, k);
    CloseAccounts(Advance(p.books, Bucket(nowUs), p.lost, outcomes), p.lost, last, k);
  }

  lemma StepKeeps(p: Pipe, e: Event, k: Key)
    requires Enabled(p, e) && Inv(p, k)
    ensures Inv(Step(p, e), k)
  {
    match e
    case Reports(o) => ReportKeeps(p, o, k);
    case Flags =>
    case Ticks(nowUs, outcomes) => TickKeeps(p, nowUs, outcomes, k);
    case Receives(outcomes) => ReceiveKeeps(p, outcomes, k);
    case Records => RecordKeeps(p, k);
    case Finishes(nowUs, outcomes, last) => FinishKeeps(p, nowUs, outcomes, last, k);
  }

  // ---- Order of windows, and their size ----

  predicate Orderly(p: Pipe) {
    && (if p.phase.Finished? then Sound(p.books) && Chained(p.books.spool) else Continues(p.books))
    && BooksWellFormed(p.books)
    && (forall i :: 0 <= i < |p.queue| ==> p.queue[i].delivery.payloadBytes <= U64_MAX)
    && (p.phase.Holding? ==> p.phase.o.delivery.payloadBytes <= U64_MAX)
  }

  lemma RewindowContinues(b: Books, w: Minute)
    requires Continues(b) && w.startUs == b.window.startUs && w.endUs == b.window.endUs && b.window.gaps <= w.gaps
    ensures Continues(b.(window := w))
  {
  }

  lemma AbsorbContinues(b: Books, lost: bool, o: Observation)
    requires Continues(b)
    ensures Continues(Absorb(b, lost, o))
  {
    var once := MarkIf(b.window, lost);
    var twice := MarkIf(once, b.storageLost);
    MarkIfMarks(b.window, lost);
    MarkIfMarks(once, b.storageLost);
    RecordedAccounts(twice, o, None);
    RewindowContinues(b, Recorded(twice, o));
  }

  lemma AbsorbWellFormed(b: Books, lost: bool, o: Observation)
    requires BooksWellFormed(b) && o.delivery.payloadBytes <= U64_MAX
    ensures BooksWellFormed(Absorb(b, lost, o))
  {
    RecordedWellFormed(MarkIf(MarkIf(b.window, lost), b.storageLost), o);
  }

  lemma CloseChains(b: Books, lost: bool, outcome: Outcome)
    requires Continues(b)
    ensures Chained(Close(b, lost, outcome).spool)
  {
    var marked := b.(window := MarkIf(b.window, lost || b.storageLost));
    MarkIfMarks(b.window, lost || b.storageLost);
    MarkContinues(b, lost || b.storageLost);
    if !outcome.Refused? {
      var n, spool := |b.spool|, b.spool + [marked.window];
      assert spool[n] == marked.window && forall i :: 0 <= i < n ==> spool[i] == b.spool[i];
      if n > 0 {
        assert Follows(b.spool[n - 1], marked.window);
      }
    }
  }

  lemma CloseWellFormed(b: Books, lost: bool, outcome: Outcome)
    requires BooksWellFormed(b)
    ensures BooksWellFormed(Close(b, lost, outcome)) && Sound(Close(b, lost, outcome))
  {
  }

  lemma StepKeepsOrder(p: Pipe, e: Event)
    requires Enabled(p, e) && Orderly(p)
    ensures Orderly(Step(p, e))
  {
    match e
    case Ticks(nowUs, outcomes) =>
      AdvanceContinues(p.books, Bucket(nowUs), p.lost, outcomes);
      AdvanceWellFormed(p.books, Bucket(nowUs), p.lost, outcomes);
    case Receives(outcomes) =>
      AdvanceContinues(p.books, Bucket(p.queue[0].completedUs), p.lost, outcomes);
      AdvanceWellFormed(p.books, Bucket(p.queue[0].completedUs), p.lost, outcomes);
    case Records =>
      AbsorbContinues(p.books, p.lost, p.phase.o);
      AbsorbWellFormed(p.books, p.lost, p.phase.o);
    case Finishes(nowUs, outcomes, last) =>
      AdvanceContinues(p.books, Bucket(nowUs), p.lost, outcomes);
      AdvanceWellFormed(p.books, Bucket(nowUs), p.lost, outcomes);
      CloseChains(Advance(p.books, Bucket(nowUs), p.lost, outcomes), p.lost, last);
      CloseWellFormed(Advance(p.books, Bucket(nowUs), p.lost, outcomes), p.lost, last);
    case _ =>
  }

  // ---- Runs ----

  /** The pipe after a run; an event that is not enabled does not happen. */
  function After(start: Pipe, events: seq<Event>): (p: Pipe)
    requires Sound(start.books)
    ensures Sound(p.books)
  {
    if events == [] then start
    else
      var p := After(start, events[..|events| - 1]);
      var e := events[|events| - 1];
      if Enabled(p, e) then
        StepSound(p, e);
        Step(p, e)
      else p
  }

  lemma StepSound(p: Pipe, e: Event)
    requires Enabled(p, e) && Sound(p.books)
    ensures Sound(Step(p, e).books)
  {
    match e
    case Ticks(nowUs, outcomes) => AdvanceAccounts(p.books, Bucket(nowUs), p.lost, outcomes, None);
    case Receives(outcomes) => AdvanceAccounts(p.books, Bucket(p.queue[0].completedUs), p.lost, outcomes, None);
    case Records => AbsorbAccounts(p.books, p.lost, p.phase.o, None);
    case Finishes(nowUs, outcomes, _) => AdvanceAccounts(p.books, Bucket(nowUs), p.lost, outcomes, None);
    case _ =>
  }

  lemma {:induction false} RunsKeep(nowUs: nat, unclean: bool, events: seq<Event>, k: Key)
    requires Start(nowUs, unclean).Some?
    ensures Inv(After(Start(nowUs, unclean).value, events), k) && Orderly(After(Start(nowUs, unclean).value, events))
  {
    var start := Start(nowUs, unclean).value;
    if events == [] {
      assert Reported(start.reported, k) == 0;
    } else {
      var front, last := events[..|events| - 1], events[|events| - 1];
      RunsKeep(nowUs, unclean, front, k);
      if Enabled(After(start, front), last) {
        StepKeeps(After(start, front), last, k);
        StepKeepsOrder(After(start, front), last);
      }
    }
  }

  /** Gap soundness: for every interleaving of reports, overflow, ticks, clock
      jumps and failed stores, if the last seal succeeded and no stored minute
      carries a gap, the stored totals of every mapping are exactly the bytes
      ever reported for it, and no bytes were reported without a mapping. */
  lemma GapSoundness(nowUs: nat, unclean: bool, events: seq<Event>, k: Key)
    requires Start(nowUs, unclean).Some?
    requires After(Start(nowUs, unclean).value, events).phase == Finished(true)
    requires !HasGap(After(Start(nowUs, unclean).value, events).books.spool)
    ensures var p := After(Start(nowUs, unclean).value, events);
      Reported(p.reported, k) == Spooled(p.books.spool, k)
    ensures k.None? ==> Reported(After(Start(nowUs, unclean).value, events).reported, k) == 0
  {
    RunsKeep(nowUs, unclean, events, k);
    if k.None? {
      NothingUnresolved(After(Start(nowUs, unclean).value, events).books.spool);
    }
  }

  lemma {:induction false} NothingUnresolved(spool: seq<Minute>)
    ensures Spooled(spool, None) == 0
  {
    if spool == [] {
    } else {
      NothingUnresolved(spool[..|spool| - 1]);
    }
  }

  /** In every reachable state the stored minutes strictly increase, and two
      neighbours abut unless one of them is flagged. */
  lemma WindowsFollow(nowUs: nat, unclean: bool, events: seq<Event>, i: nat)
    requires Start(nowUs, unclean).Some?
    requires i + 1 < |After(Start(nowUs, unclean).value, events).books.spool|
    ensures var spool := After(Start(nowUs, unclean).value, events).books.spool;
      && spool[i].startUs < spool[i].endUs <= spool[i + 1].startUs
      && (spool[i].endUs == spool[i + 1].startUs || spool[i].gaps != {} || spool[i + 1].gaps != {})
  {
    RunsKeep(nowUs, unclean, events, None);
    var spool := After(Start(nowUs, unclean).value, events).books.spool;
    assert Follows(spool[i], spool[i + 1]);
  }
}

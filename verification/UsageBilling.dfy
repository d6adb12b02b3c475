/** From deliveries to the control plane's books: nothing is ever billed that
    was not delivered, and without gaps everything is. */
module UsageBilling {
  import opened Usage
  import opened UsageRuns
  import opened UsageCodec
  import opened ControlPlane
  import opened UsageSealing

  /** Bytes of one mapping that are stored or in the open minute. */
  function Stock(b: Books, k: Key): nat { Spooled(b.spool, k) + Held(b.window, k) }

  lemma RecordedAtMost(m: Minute, o: Observation, k: Key)
    ensures Held(Recorded(m, o), k) <= Held(m, k) + BytesOf(o, k)
  {
  }

  lemma SealAtMost(b: Books, next: Minute, outcome: Outcome, k: Key)
    requires next.totals == map[]
    ensures Stock(Seal(b, next, outcome), k) <= Stock(b, k)
  {
    if !outcome.Refused? {
      SpooledGrows(b.spool, b.window, k);
    }
  }

  lemma MarkedStock(b: Books, loss: bool, k: Key)
    ensures Stock(b.(window := MarkIf(b.window, loss)), k) == Stock(b, k)
    ensures Stock(b.(window := Mark(b.window, Clock)), k) == Stock(b, k)
  {
  }

  lemma {:induction false} CatchupAtMost(b: Books, target: nat, loss: bool, outcomes: seq<Outcome>, k: Key)
    requires Sound(b)
    ensures Stock(Catchup(b, target, loss, outcomes), k) <= Stock(b, k)
    decreases if target > b.window.startUs then target - b.window.startUs else 0
  {
    if b.window.startUs < target {
      var marked := b.(window := MarkIf(b.window, loss || b.storageLost));
      MarkedStock(b, loss || b.storageLost, k);
      if Open(b.window.endUs).Some? {
        var next := Open(b.window.endUs).value;
        SealAtMost(marked, next, First(outcomes), k);
        CatchupAtMost(Seal(marked, next, First(outcomes)), target, loss, Rest(outcomes), k);
      }
    }
  }

  lemma AdvanceAtMost(b: Books, target: nat, loss: bool, outcomes: seq<Outcome>, k: Key)
    requires Sound(b)
    ensures Stock(Advance(b, target, loss, outcomes), k) <= Stock(b, k)
  {
    if Jumps(b.window, target) {
      var clock := b.(window := Mark(b.window, Clock));
      var marked := clock.(window := MarkIf(clock.window, loss || b.storageLost));
      MarkedStock(b, loss, k);
      MarkedStock(clock, loss || b.storageLost, k);
      if Open(target).Some? {
        SealAtMost(marked, Open(target).value, First(outcomes), k);
      }
    } else {
      CatchupAtMost(b, target, loss, outcomes, k);
    }
  }

  lemma AbsorbAtMost(b: Books, lost: bool, o: Observation, k: Key)
    ensures Stock(Absorb(b, lost, o), k) <= Stock(b, k) + BytesOf(o, k)
  {
    RecordedAtMost(MarkIf(MarkIf(b.window, lost), b.storageLost), o, k);
  }

  lemma CloseAtMost(b: Books, lost: bool, outcome: Outcome, k: Key)
    ensures Spooled(UsageRuns.Close(b, lost, outcome).spool, k) <= Stock(b, k)
  {
    if !outcome.Refused? {
      SpooledGrows(b.spool, MarkIf(b.window, lost || b.storageLost), k);
    }
  }

  // ---- Every run ----

  predicate Within(p: Pipe, k: Key) {
    && Sound(p.books)
    && if p.phase.Finished? then Spooled(p.books.spool, k) <= Reported(p.reported, k)
       else Stock(p.books, k) + Reported(Pending(p), k) <= Reported(p.reported, k)
  }

  lemma QueuedWithin(p: Pipe, o: Observation, k: Key)
    requires !p.phase.Finished? && Within(p, k)
    ensures Within(p.(reported := p.reported + [o], queue := p.queue + [o]), k)
  {
    ReportedGrows(p.reported, o, k);
    ReportedGrows(Pending(p), o, k);
    PendingGrows(p, o, p.reported + [o]);
  }

  lemma RefusedPending(p: Pipe, reported: seq<Observation>)
    ensures Pending(p.(reported := reported, failing := p.failing + 1)) == Pending(p)
  {
  }

  lemma RefusedWithin(p: Pipe, o: Observation, k: Key)
    requires !p.phase.Finished? && Within(p, k)
    ensures Within(p.(reported := p.reported + [o], failing := p.failing + 1), k)
  {
    ReportedGrows(p.reported, o, k);
    RefusedPending(p, p.reported + [o]);
  }

  lemma RecordWithin(p: Pipe, k: Key)
    requires p.phase.Holding? && Within(p, k)
    ensures Within(p.(books := Absorb(p.books, p.lost, p.phase.o), lost := false, phase := Idle), k)
  {
    AbsorbAtMost(p.books, p.lost, p.phase.o, k);
    AbsorbAccounts(p.books, p.lost, p.phase.o, k);
    ReportedAppend([p.phase.o], p.queue, k);
    ReportedOne(p.phase.o, k);
  }

  lemma StepKeepsWithin(p: Pipe, e: Event, k: Key)
    requires Enabled(p, e) && Within(p, k)
    ensures Within(Step(p, e), k)
  {
    StepSound(p, e);
    match e
    case Reports(o) =>
      QueuedWithin(p, o, k);
      RefusedWithin(p, o, k);
    case Flags =>
    case Ticks(nowUs, outcomes) => AdvanceAtMost(p.books, Bucket(nowUs), p.lost, outcomes, k);
    case Receives(outcomes) =>
      AdvanceAtMost(p.books, Bucket(p.queue[0].completedUs), p.lost, outcomes, k);
      ReceivedPends(p, Step(p, e).books);
    case Records => RecordWithin(p, k);
    case Finishes(nowUs, outcomes, last) =>
      AdvanceAtMost(p.books, Bucket(nowUs), p.lost, outcomes, k);
      CloseAtMost(Advance(p.books, Bucket(nowUs), p.lost, outcomes), p.lost, last, k);
  }

  lemma {:induction false} RunsKeepWithin(nowUs: nat, unclean: bool, events: seq<Event>, k: Key)
    requires Start(nowUs, unclean).Some?
    ensures Within(After(Start(nowUs, unclean).value, events), k)
  {
    var start := Start(nowUs, unclean).value;
    if events == [] {
      assert Reported(start.reported, k) == 0;
    } else {
      var front, last := events[..|events| - 1], events[|events| - 1];
      RunsKeepWithin(nowUs, unclean, front, k);
      if Enabled(After(start, front), last) {
        StepKeepsWithin(After(start, front), last, k);
      }
    }
  }

  /** In every state of every run, whatever was lost, jumped or failed, the
      bytes stored for a mapping never exceed the bytes reported for it. */
  lemma NeverOverbills(nowUs: nat, unclean: bool, events: seq<Event>, k: Key)
    requires Start(nowUs, unclean).Some?
    ensures var p := After(Start(nowUs, unclean).value, events);
      Spooled(p.books.spool, k) <= Reported(p.reported, k)
  {
    RunsKeepWithin(nowUs, unclean, events, k);
  }

  // ---- What the control plane makes of it ----

  /** Bytes of one mapping that the control plane reads from the stored
      batches; a batch it refuses adds nothing. */
  ghost function Billed(spool: seq<Minute>, k: Key): nat {
    if spool == [] then 0
    else
      var r := Accepted(Payload(Sealed(spool[|spool| - 1])));
      Billed(spool[..|spool| - 1], k) + if r.Some? then Held(MinuteOf(r.value), k) else 0
  }

  predicate Clean(m: Minute) { forall key :: key in m.totals ==> CleanMapping(key) }

  lemma {:induction false} BilledFromSpool(spool: seq<Minute>, k: Key)
    requires forall i :: 0 <= i < |spool| ==> WellFormed(spool[i])
    ensures Billed(spool, k) <= Spooled(spool, k)
    ensures (forall i :: 0 <= i < |spool| ==> Clean(spool[i])) ==> Billed(spool, k) == Spooled(spool, k)
  {
    if spool == [] {
    } else {
      var n := |spool| - 1;
      BilledFromSpool(spool[..n], k);
      ControlPlaneReads(spool[n]);
      assert (forall i :: 0 <= i < |spool| ==> Clean(spool[i])) ==> Clean(spool[n]);
    }
  }

  /** End to end: the control plane never reads more than was delivered; and if
      the last seal succeeded, no stored minute carries a gap and every mapping
      is text it accepts, it reads exactly what was. */
  lemma BillingIsSound(nowUs: nat, unclean: bool, events: seq<Event>, k: Key)
    requires Start(nowUs, unclean).Some?
    ensures var p := After(Start(nowUs, unclean).value, events);
      && Billed(p.books.spool, k) <= Reported(p.reported, k)
      && (p.phase == Finished(true) && !HasGap(p.books.spool)
            && (forall i :: 0 <= i < |p.books.spool| ==> Clean(p.books.spool[i])) ==>
          Billed(p.books.spool, k) == Reported(p.reported, k))
  {
    var p := After(Start(nowUs, unclean).value, events);
    RunsKeep(nowUs, unclean, events, k);
    NeverOverbills(nowUs, unclean, events, k);
    BilledFromSpool(p.books.spool, k);
  }
}

/** The collector as the relay runs it: an accumulator that is updated in
    place, and a consumer that replaces it minute by minute. */
module UsageObject {
  import opened Common
  import opened Frames
  import opened Usage
  import UsageRuns

  class Accumulator {
    var startUs: nat
    var endUs: nat
    var totals: map<UsageMapping, nat>
    var gaps: set<Gap>

    function Value(): Minute
      reads this
    {
      Minute(startUs, endUs, totals, gaps)
    }

    constructor At(start: nat, end: nat)
      ensures Value() == Minute(start, end, map[], {})
    {
      startUs, endUs, totals, gaps := start, end, map[], {};
    }

    /** `Accumulator::new`; null stands for its `None`. */
    static method New(start: nat) returns (a: Accumulator?)
      ensures a == null <==> Open(start).None?
      ensures a != null ==> fresh(a) && Open(start) == Some(a.Value())
    {
      if start % BUCKET_MICROS != 0 {
        return null;
      }
      if start + BUCKET_MICROS > U64_MAX {
        return null;
      }
      a := new Accumulator.At(start, start + BUCKET_MICROS);
    }

    method MarkGap(gap: Gap)
      modifies this`gaps
      ensures Value() == Mark(old(Value()), gap)
    {
      gaps := gaps + {gap};
    }

    method Record(completedUs: nat, delivery: DeliveryUsage)
      modifies this`gaps, this`totals
      ensures Value() == Recorded(old(Value()), Observation(completedUs, delivery))
    {
      if completedUs < startUs || completedUs >= endUs {
        MarkGap(Clock);
        return;
      }
      if delivery.mapping.None? {
        MarkGap(UnresolvedMapping);
        return;
      }
      var key := delivery.mapping.value;
      if |key.deployment| == 0 || |key.deployment| > 128 || |key.version| == 0 || |key.version| > 64
         || |key.aquifer| == 0 || |key.aquifer| > 1024 {
        MarkGap(UnresolvedMapping);
        return;
      }
      if key in totals {
        var total := totals[key] + delivery.payloadBytes;
        if total <= U64_MAX {
          totals := totals[key := total];
        } else {
          MarkGap(Overflow);
        }
      } else if |totals| < MAX_MAPPINGS {
        totals := totals[key := delivery.payloadBytes];
      } else {
        MarkGap(Capacity);
      }
    }
  }

  class Consumer {
    var window: Accumulator
    var storageLost: bool
    var spool: seq<Minute>

    function Value(): Books
      reads this, window
    {
      Books(window.Value(), storageLost, spool)
    }

    constructor (first: Accumulator)
      ensures window == first && !storageLost && spool == []
    {
      window, storageLost, spool := first, false, [];
    }

    /** The window is taken out, sealed and handed to the spool, whose answer
        is the outcome. */
    method Replace(next: Accumulator, outcome: Outcome)
      modifies this
      ensures window == next
      ensures Value() == Usage.Seal(old(Value()), next.Value(), outcome)
    {
      var completed := window.Value();
      window := next;
      if !outcome.Refused? {
        spool := spool + [completed];
      }
      storageLost := !outcome.Stored?;
    }

    method Leap(target: nat, loss: bool, outcome: Outcome)
      requires Jumps(window.Value(), target)
      modifies this, window
      ensures window == old(window) || fresh(window)
      ensures Value() == (
        var marked := old(Value()).(window := MarkIf(Mark(old(Value()).window, Clock), loss || old(storageLost)));
        match Open(target)
        case None => marked
        case Some(next) => Usage.Seal(marked, next, outcome))
    {
      window.MarkGap(Clock);
      if loss || storageLost {
        window.MarkGap(ObservationLost);
      }
      var next := Accumulator.New(target);
      if next != null {
        Replace(next, outcome);
      }
    }

    /** One turn of the catch-up loop; it stops at the end of time. */
    method Forward(loss: bool, outcome: Outcome) returns (stuck: bool)
      modifies this, window
      ensures window == old(window) || fresh(window)
      ensures stuck <==> Open(old(window.endUs)).None?
      ensures Value() == (
        var marked := old(Value()).(window := MarkIf(old(Value()).window, loss || old(storageLost)));
        match Open(old(window.endUs))
        case None => marked
        case Some(next) => Usage.Seal(marked, next, outcome))
    {
      if loss || storageLost {
        window.MarkGap(ObservationLost);
      }
      var next := Accumulator.New(window.endUs);
      if next != null {
        Replace(next, outcome);
      }
      stuck := next == null;
    }

    method Advance(target: nat, loss: bool, outcomes: seq<Outcome>)
      requires Sound(Value())
      modifies this, window
      ensures window == old(window) || fresh(window)
      ensures Value() == Usage.Advance(old(Value()), target, loss, outcomes) && Sound(Value())
    {
      AdvanceAccounts(Value(), target, loss, outcomes, None);
      var behind := if target > window.startUs then target - window.startUs else 0;
      if behind / BUCKET_MICROS > 5 {
        Leap(target, loss, First(outcomes));
        return;
      }
      ghost var goal := Catchup(Value(), target, loss, outcomes);
      var left := outcomes;
      while window.startUs < target
        invariant window == old(window) || fresh(window)
        invariant Sound(Value())
        invariant Catchup(Value(), target, loss, left) == goal
        decreases target - window.startUs
      {
        var stuck := Forward(loss, First(left));
        if stuck {
          return;
        }
        left := Rest(left);
      }
    }

    /** Once a second, whether or not anything was observed. */
    method Tick(nowUs: nat, lost: bool, outcomes: seq<Outcome>)
      requires Sound(Value())
      modifies this, window
      ensures window == old(window) || fresh(window)
      ensures Value() == Usage.Advance(old(Value()), Bucket(nowUs), lost, outcomes) && Sound(Value())
    {
      Advance(nowUs / BUCKET_MICROS * BUCKET_MICROS, lost, outcomes);
    }

    /** One observation off the queue.  The loss flag is read before the window
        moves and swapped after, so the two readings may differ. */
    method Receive(o: Observation, lostBefore: bool, lostAfter: bool, outcomes: seq<Outcome>)
      requires Sound(Value())
      modifies this, window
      ensures window == old(window) || fresh(window)
      ensures Value() == UsageRuns.Absorb(
        Usage.Advance(old(Value()), Bucket(o.completedUs), lostBefore, outcomes), lostAfter, o)
    {
      Advance(o.completedUs / BUCKET_MICROS * BUCKET_MICROS, lostBefore, outcomes);
      if lostAfter {
        window.MarkGap(ObservationLost);
      }
      if storageLost {
        window.MarkGap(ObservationLost);
      }
      window.Record(o.completedUs, o.delivery);
    }

    /** The closing seal, and whether the shutdown is recorded as clean. */
    method Finish(nowUs: nat, lost: bool, outcomes: seq<Outcome>, last: Outcome) returns (clean: bool)
      requires Sound(Value())
      modifies this, window
      ensures clean <==> last.Stored?
      ensures Value() == UsageRuns.Close(Usage.Advance(old(Value()), Bucket(nowUs), lost, outcomes), lost, last)
    {
      Advance(nowUs / BUCKET_MICROS * BUCKET_MICROS, lost, outcomes);
      if lost || storageLost {
        window.MarkGap(ObservationLost);
      }
      if !last.Refused? {
        spool := spool + [window.Value()];
      }
      clean := last.Stored?;
    }
  }
}

/** Rate limiting: two token buckets per meter, refilled lazily in whole tokens
    with saturating 64-bit arithmetic. */
module Limits {
  import opened Common

  datatype Budget = Budget(bytesPerSec: U64, byteBurst: U64, framesPerSec: U64, frameBurst: U64)

  datatype Bucket = Bucket(tokens: U64, cap: U64, ratePerSec: U64, lastMs: nat)

  datatype Meter = Meter(bytes: Bucket, frames: Bucket)

  function NewBucket(ratePerSec: U64, cap: U64, nowMs: nat): Bucket {
    Bucket(cap, cap, ratePerSec, nowMs)
  }

  function NewMeter(budget: Budget, nowMs: nat): Meter {
    Meter(NewBucket(budget.bytesPerSec, budget.byteBurst, nowMs),
          NewBucket(budget.framesPerSec, budget.frameBurst, nowMs))
  }

  function Elapsed(b: Bucket, nowMs: nat): nat {
    if nowMs > b.lastMs then nowMs - b.lastMs else 0
  }

  /** Whole tokens owed since the last refill that counted. */
  function Refill(b: Bucket, nowMs: nat): nat {
    Min(b.ratePerSec * Elapsed(b, nowMs), U64_MAX) / 1000
  }

  /** What the bucket could pay at `nowMs`. */
  function Available(b: Bucket, nowMs: nat): nat {
    if Refill(b, nowMs) > 0 then Min(b.tokens + Refill(b, nowMs), b.cap) else b.tokens
  }

  /** The bucket after it paid `n` at `nowMs`. */
  function Paid(b: Bucket, n: nat, nowMs: nat): Bucket
    requires n <= Available(b, nowMs)
  {
    b.(tokens := Available(b, nowMs) - n, lastMs := if Refill(b, nowMs) > 0 then nowMs else b.lastMs)
  }

  predicate CanPay(m: Meter, bytes: nat, nowMs: nat) {
    bytes <= Available(m.bytes, nowMs) && 1 <= Available(m.frames, nowMs)
  }

  /** Charge one frame against both buckets, or neither. */
  function Charge(m: Meter, bytes: nat, nowMs: nat): Meter {
    if CanPay(m, bytes, nowMs)
    then Meter(Paid(m.bytes, bytes, nowMs), Paid(m.frames, 1, nowMs))
    else m
  }

  /** `Bucket::take`, on the struct it updates in place. */
  method Take(b: Bucket, n: U64, nowMs: nat) returns (after: Bucket, ok: bool)
    ensures b.tokens <= b.cap ==> after.tokens <= after.cap
    ensures ok <==> n <= Available(b, nowMs)
    ensures after == Paid(b, if ok then n else 0, nowMs)  // a refusal still refills
  {
    var tokens, lastMs := b.tokens, b.lastMs;
    var elapsed := if nowMs > lastMs then nowMs - lastMs else 0;
    var refill := Min(b.ratePerSec * elapsed, U64_MAX) / 1000;
    if refill > 0 {
      tokens := Min(Min(tokens + refill, U64_MAX), b.cap);
      lastMs := nowMs;
    }
    ok := tokens >= n;
    if ok {
      tokens := tokens - n;
    }
    after := b.(tokens := tokens, lastMs := lastMs);
  }

  /** `Meter::admit`: probe copies of both buckets, commit both or neither. */
  method Admit(m: Meter, bytes: U64, nowMs: nat) returns (after: Meter, ok: bool)
    ensures ok <==> CanPay(m, bytes, nowMs)
    ensures after == Charge(m, bytes, nowMs)
    ensures !ok ==> after == m
  {
    after := m;
    var b, okBytes := Take(m.bytes, bytes, nowMs);
    if !okBytes {
      return after, false;
    }
    var f, okFrames := Take(m.frames, 1, nowMs);
    if !okFrames {
      return after, false;
    }
    after, ok := Meter(b, f), true;
  }

  // ---- The rate bound, for any clock ----

  /** `spent` tokens left a bucket that started full at `start`, and what is
      still in it was earned: the books never run ahead of the rate. */
  ghost predicate Solvent(b: Bucket, rate: nat, cap: nat, start: nat, spent: nat, latest: nat) {
    && b.ratePerSec == rate && b.cap == cap && b.tokens <= cap
    && start <= b.lastMs <= latest
    && 1000 * (spent + b.tokens) <= 1000 * cap + rate * (b.lastMs - start)
  }

  lemma PaidKeepsSolvent(b: Bucket, rate: nat, cap: nat, start: nat, spent: nat, latest: nat, n: nat, nowMs: nat)
    requires Solvent(b, rate, cap, start, spent, latest)
    requires n <= Available(b, nowMs)
    ensures Solvent(Paid(b, n, nowMs), rate, cap, start, spent + n, Max(latest, nowMs))
  {
    var e := Elapsed(b, nowMs);
    var r := Refill(b, nowMs);
    assert 1000 * r <= rate * e;
    if r > 0 {
      assert e > 0;
      assert rate * (b.lastMs - start) + rate * e == rate * (nowMs - start);
    }
  }

  ghost predicate MeterSolvent(m: Meter, g: Budget, start: nat, bytes: nat, frames: nat, latest: nat) {
    && Solvent(m.bytes, g.bytesPerSec, g.byteBurst, start, bytes, latest)
    && Solvent(m.frames, g.framesPerSec, g.frameBurst, start, frames, latest)
  }

  lemma ChargeKeepsSolvent(m: Meter, g: Budget, start: nat, bytes: nat, frames: nat, latest: nat, n: nat, nowMs: nat)
    requires MeterSolvent(m, g, start, bytes, frames, latest)
    ensures var ok := CanPay(m, n, nowMs);
      MeterSolvent(Charge(m, n, nowMs), g, start,
                   bytes + (if ok then n else 0), frames + (if ok then 1 else 0), Max(latest, nowMs))
  {
    if CanPay(m, n, nowMs) {
      PaidKeepsSolvent(m.bytes, g.bytesPerSec, g.byteBurst, start, bytes, latest, n, nowMs);
      PaidKeepsSolvent(m.frames, g.framesPerSec, g.frameBurst, start, frames, latest, 1, nowMs);
    }
  }

  datatype Call = Call(bytes: nat, nowMs: nat)

  function Serve(m: Meter, calls: seq<Call>): Meter {
    if calls == [] then m
    else
      var last := calls[|calls| - 1];
      Charge(Serve(m, calls[..|calls| - 1]), last.bytes, last.nowMs)
  }

  /** Whether each call was admitted. */
  function Decisions(m: Meter, calls: seq<Call>): seq<bool> {
    if calls == [] then []
    else
      var front, last := calls[..|calls| - 1], calls[|calls| - 1];
      Decisions(m, front) + [CanPay(Serve(m, front), last.bytes, last.nowMs)]
  }

  function BytesAdmitted(m: Meter, calls: seq<Call>): nat {
    if calls == [] then 0
    else
      var front, last := calls[..|calls| - 1], calls[|calls| - 1];
      BytesAdmitted(m, front) + if CanPay(Serve(m, front), last.bytes, last.nowMs) then last.bytes else 0
  }

  function FramesAdmitted(m: Meter, calls: seq<Call>): nat {
    if calls == [] then 0
    else
      var front, last := calls[..|calls| - 1], calls[|calls| - 1];
      FramesAdmitted(m, front) + if CanPay(Serve(m, front), last.bytes, last.nowMs) then 1 else 0
  }

  function Latest(start: nat, calls: seq<Call>): nat {
    if calls == [] then start
    else Max(Latest(start, calls[..|calls| - 1]), calls[|calls| - 1].nowMs)
  }

  lemma {:induction false} ServeStaysSolvent(g: Budget, start: nat, calls: seq<Call>)
    ensures var m := NewMeter(g, start);
      MeterSolvent(Serve(m, calls), g, start, BytesAdmitted(m, calls), FramesAdmitted(m, calls), Latest(start, calls))
  {
    if calls == [] {
    } else {
      var m, front, last := NewMeter(g, start), calls[..|calls| - 1], calls[|calls| - 1];
      ServeStaysSolvent(g, start, front);
      ChargeKeepsSolvent(Serve(m, front), g, start, BytesAdmitted(m, front), FramesAdmitted(m, front),
                         Latest(start, front), last.bytes, last.nowMs);
    }
  }

  lemma SolventBound(b: Bucket, rate: nat, cap: nat, start: nat, spent: nat, latest: nat)
    requires Solvent(b, rate, cap, start, spent, latest)
    ensures spent <= cap + rate * (latest - start) / 1000
  {
    assert rate * (b.lastMs - start) <= rate * (latest - start) by {
      assert rate * (latest - start) == rate * (b.lastMs - start) + rate * (latest - b.lastMs);
    }
  }

  /** For every sequence of calls, whatever the clock does, admissions stay
      within the burst plus the sustained rate over the time seen. */
  lemma RateBound(g: Budget, start: nat, calls: seq<Call>)
    ensures var m, t := NewMeter(g, start), Latest(start, calls);
      && start <= t
      && BytesAdmitted(m, calls) <= g.byteBurst + g.bytesPerSec * (t - start) / 1000
      && FramesAdmitted(m, calls) <= g.frameBurst + g.framesPerSec * (t - start) / 1000
  {
    ServeStaysSolvent(g, start, calls);
    var m, t := NewMeter(g, start), Latest(start, calls);
    SolventBound(Serve(m, calls).bytes, g.bytesPerSec, g.byteBurst, start, BytesAdmitted(m, calls), t);
    SolventBound(Serve(m, calls).frames, g.framesPerSec, g.frameBurst, start, FramesAdmitted(m, calls), t);
  }

  // ---- The reference: a bucket that is topped up every millisecond ----

  function Ticked(tokens: nat, cap: nat, perMs: nat, ms: nat): nat {
    if ms == 0 then tokens else Min(Ticked(tokens, cap, perMs, ms - 1) + perMs, cap)
  }

  datatype Ticker = Ticker(bytes: nat, frames: nat, clock: nat)

  function NewTicker(g: Budget, start: nat): Ticker {
    Ticker(g.byteBurst, g.frameBurst, start)
  }

  function Advance(t: Ticker, g: Budget, nowMs: nat): Ticker
    requires t.clock <= nowMs
  {
    Ticker(Ticked(t.bytes, g.byteBurst, g.bytesPerSec / 1000, nowMs - t.clock),
           Ticked(t.frames, g.frameBurst, g.framesPerSec / 1000, nowMs - t.clock),
           nowMs)
  }

  function TickerServe(g: Budget, start: nat, calls: seq<Call>): Ticker
    requires Nondecreasing(start, calls)
    ensures TickerServe(g, start, calls).clock == (if calls == [] then start else calls[|calls| - 1].nowMs)
  {
    if calls == [] then NewTicker(g, start)
    else
      var last := calls[|calls| - 1];
      var t := Advance(TickerServe(g, start, calls[..|calls| - 1]), g, last.nowMs);
      if last.bytes <= t.bytes && 1 <= t.frames
      then t.(bytes := t.bytes - last.bytes, frames := t.frames - 1)
      else t
  }

  function TickerDecisions(g: Budget, start: nat, calls: seq<Call>): seq<bool>
    requires Nondecreasing(start, calls)
  {
    if calls == [] then []
    else
      var front, last := calls[..|calls| - 1], calls[|calls| - 1];
      var t := Advance(TickerServe(g, start, front), g, last.nowMs);
      TickerDecisions(g, start, front) + [last.bytes <= t.bytes && 1 <= t.frames]
  }

  predicate Nondecreasing(start: nat, calls: seq<Call>) {
    calls != [] ==>
      && Nondecreasing(start, calls[..|calls| - 1])
      && (if |calls| == 1 then start else calls[|calls| - 2].nowMs) <= calls[|calls| - 1].nowMs
  }

  /** A rate in whole tokens per millisecond whose products either fit in 64
      bits over the run or saturate only past a full bucket. */
  predicate Exact(rate: nat, cap: nat, span: nat) {
    rate % 1000 == 0 && (1000 * cap <= U64_MAX || rate * span <= U64_MAX)
  }

  lemma {:induction false} TickedClosedForm(tokens: nat, cap: nat, perMs: nat, ms: nat)
    requires tokens <= cap
    ensures Ticked(tokens, cap, perMs, ms) == Min(tokens + perMs * ms, cap)
  {
    if ms == 0 {
    } else {
      TickedClosedForm(tokens, cap, perMs, ms - 1);
      assert perMs * ms == perMs * (ms - 1) + perMs;
    }
  }

  /** The lazy bucket owes exactly what the ticking one has already credited. */
  predicate Agrees(b: Bucket, rate: nat, cap: nat, ticked: nat, clock: nat) {
    && b.ratePerSec == rate && b.cap == cap && b.tokens <= cap && b.lastMs <= clock
    && ticked == Min(b.tokens + (rate / 1000) * (clock - b.lastMs), cap)
  }

  /** With an exact rate the lazy refill is the whole amount owed. */
  lemma AvailableIsOwed(b: Bucket, nowMs: nat, start: nat)
    requires start <= b.lastMs <= nowMs && b.tokens <= b.cap
    requires Exact(b.ratePerSec, b.cap, nowMs - start)
    ensures Available(b, nowMs) == Min(b.tokens + (b.ratePerSec / 1000) * (nowMs - b.lastMs), b.cap)
  {
    var rate, e := b.ratePerSec, nowMs - b.lastMs;
    var k := rate / 1000;
    assert rate * e == 1000 * (k * e) by { assert rate == 1000 * k; }
    if rate * e <= U64_MAX {
      assert Refill(b, nowMs) == k * e;
    } else {
      assert rate * e <= rate * (nowMs - start) by {
        assert rate * (nowMs - start) == rate * e + rate * (b.lastMs - start);
      }
      assert Refill(b, nowMs) == U64_MAX / 1000 >= b.cap;
      assert k * e >= b.cap;
    }
  }

  lemma OwedAdds(k: nat, a: nat, b: nat, c: nat)
    requires a <= b <= c
    ensures k * (c - a) == k * (b - a) + k * (c - b)
  {
  }

  lemma MinChain(tokens: nat, owed: nat, more: nat, total: nat, cap: nat)
    requires total == owed + more
    ensures Min(Min(tokens + owed, cap) + more, cap) == Min(tokens + total, cap)
  {
  }

  lemma TickedFrom(tokens: nat, cap: nat, k: nat, ms: nat, owed: nat, more: nat)
    requires tokens <= cap && more == k * ms
    ensures Ticked(Min(tokens + owed, cap), cap, k, ms) == Min(Min(tokens + owed, cap) + more, cap)
  {
    TickedClosedForm(Min(tokens + owed, cap), cap, k, ms);
  }

  lemma TickingCatchesUp(tokens: nat, cap: nat, k: nat, last: nat, clock: nat, nowMs: nat)
    requires tokens <= cap && last <= clock <= nowMs
    ensures Ticked(Min(tokens + k * (clock - last), cap), cap, k, nowMs - clock)
         == Min(tokens + k * (nowMs - last), cap)
  {
    var owed, more, total := k * (clock - last), k * (nowMs - clock), k * (nowMs - last);
    assert total == owed + more by {
      OwedAdds(k, last, clock, nowMs);
    }
    TickedFrom(tokens, cap, k, nowMs - clock, owed, more);
    MinChain(tokens, owed, more, total, cap);
  }

  lemma AgreesOnAvailable(b: Bucket, rate: nat, cap: nat, ticked: nat, clock: nat, nowMs: nat, start: nat)
    requires Agrees(b, rate, cap, ticked, clock) && clock <= nowMs && start <= b.lastMs
    requires Exact(rate, cap, nowMs - start)
    ensures Available(b, nowMs) == Ticked(ticked, cap, rate / 1000, nowMs - clock)
    ensures Agrees(b, rate, cap, Available(b, nowMs), nowMs)
  {
    AvailableIsOwed(b, nowMs, start);
    TickingCatchesUp(b.tokens, cap, rate / 1000, b.lastMs, clock, nowMs);
  }

  lemma AgreesAfterPaying(b: Bucket, rate: nat, cap: nat, nowMs: nat, n: nat, start: nat)
    requires Agrees(b, rate, cap, Available(b, nowMs), nowMs) && n <= Available(b, nowMs) && start <= b.lastMs
    requires Exact(rate, cap, nowMs - start)
    ensures Agrees(Paid(b, n, nowMs), rate, cap, Available(b, nowMs) - n, nowMs)
    ensures start <= Paid(b, n, nowMs).lastMs
  {
    var p := Paid(b, n, nowMs);
    if Refill(b, nowMs) > 0 {
      assert (rate / 1000) * (nowMs - p.lastMs) == 0;
    } else {
      var e := nowMs - b.lastMs;
      assert rate * e == 1000 * ((rate / 1000) * e) by { assert rate == 1000 * (rate / 1000); }
      assert (rate / 1000) * e == 0;
    }
  }

  predicate MeterAgrees(m: Meter, g: Budget, t: Ticker, start: nat) {
    && start <= m.bytes.lastMs && start <= m.frames.lastMs
    && Agrees(m.bytes, g.bytesPerSec, g.byteBurst, t.bytes, t.clock)
    && Agrees(m.frames, g.framesPerSec, g.frameBurst, t.frames, t.clock)
  }

  /** One call: the same decision, and the agreement survives it. */
  lemma CallAgrees(m: Meter, g: Budget, t: Ticker, start: nat, call: Call)
    requires MeterAgrees(m, g, t, start) && t.clock <= call.nowMs
    requires Exact(g.bytesPerSec, g.byteBurst, call.nowMs - start)
    requires Exact(g.framesPerSec, g.frameBurst, call.nowMs - start)
    ensures var u := Advance(t, g, call.nowMs);
      var ok := call.bytes <= u.bytes && 1 <= u.frames;
      && CanPay(m, call.bytes, call.nowMs) == ok
      && MeterAgrees(Charge(m, call.bytes, call.nowMs), g,
           if ok then u.(bytes := u.bytes - call.bytes, frames := u.frames - 1) else u, start)
  {
    var now := call.nowMs;
    AgreesOnAvailable(m.bytes, g.bytesPerSec, g.byteBurst, t.bytes, t.clock, now, start);
    AgreesOnAvailable(m.frames, g.framesPerSec, g.frameBurst, t.frames, t.clock, now, start);
    if CanPay(m, call.bytes, now) {
      AgreesAfterPaying(m.bytes, g.bytesPerSec, g.byteBurst, now, call.bytes, start);
      AgreesAfterPaying(m.frames, g.framesPerSec, g.frameBurst, now, 1, start);
    }
  }

  lemma NewMeterAgrees(g: Budget, start: nat)
    ensures MeterAgrees(NewMeter(g, start), g, NewTicker(g, start), start)
  {
  }

  /** One more call, in both readings. */
  lemma ServeStep(g: Budget, start: nat, calls: seq<Call>)
    requires calls != [] && Nondecreasing(start, calls)
    ensures var front, last := calls[..|calls| - 1], calls[|calls| - 1];
      var m, t := Serve(NewMeter(g, start), front), TickerServe(g, start, front);
      && t.clock <= last.nowMs
      && (var u := Advance(t, g, last.nowMs);
          var ok := last.bytes <= u.bytes && 1 <= u.frames;
          && Serve(NewMeter(g, start), calls) == Charge(m, last.bytes, last.nowMs)
          && TickerServe(g, start, calls)
             == (if ok then u.(bytes := u.bytes - last.bytes, frames := u.frames - 1) else u)
          && Decisions(NewMeter(g, start), calls)
             == Decisions(NewMeter(g, start), front) + [CanPay(m, last.bytes, last.nowMs)]
          && TickerDecisions(g, start, calls) == TickerDecisions(g, start, front) + [ok])
  {
  }

  /** Both readings of a run agree: on every decision, and on what is owed. */
  predicate RunsAgree(g: Budget, start: nat, calls: seq<Call>)
    requires Nondecreasing(start, calls)
  {
    && MeterAgrees(Serve(NewMeter(g, start), calls), g, TickerServe(g, start, calls), start)
    && Decisions(NewMeter(g, start), calls) == TickerDecisions(g, start, calls)
  }

  predicate ExactFor(g: Budget, span: nat) {
    Exact(g.bytesPerSec, g.byteBurst, span) && Exact(g.framesPerSec, g.frameBurst, span)
  }

  lemma StepAgrees(g: Budget, start: nat, calls: seq<Call>, span: nat)
    requires calls != [] && Nondecreasing(start, calls) && RunsAgree(g, start, calls[..|calls| - 1])
    requires ExactFor(g, span) && calls[|calls| - 1].nowMs - start <= span
    ensures RunsAgree(g, start, calls)
  {
    var front, last := calls[..|calls| - 1], calls[|calls| - 1];
    ServeStep(g, start, calls);
    ExactShrinks(g.bytesPerSec, g.byteBurst, last.nowMs - start, span);
    ExactShrinks(g.framesPerSec, g.frameBurst, last.nowMs - start, span);
    CallAgrees(Serve(NewMeter(g, start), front), g, TickerServe(g, start, front), start, last);
  }

  lemma {:induction false} ServeAgrees(g: Budget, start: nat, calls: seq<Call>, span: nat)
    requires Nondecreasing(start, calls) && ExactFor(g, span)
    requires calls != [] ==> calls[|calls| - 1].nowMs - start <= span
    ensures RunsAgree(g, start, calls)
  {
    if calls == [] {
      NewMeterAgrees(g, start);
    } else {
      ServeAgrees(g, start, calls[..|calls| - 1], span);
      StepAgrees(g, start, calls, span);
    }
  }

  lemma ExactShrinks(rate: nat, cap: nat, less: nat, span: nat)
    requires Exact(rate, cap, span) && less <= span
    ensures Exact(rate, cap, less)
  {
    assert rate * span == rate * less + rate * (span - less);
  }

  /** The lazy meter decides every call as the pair of buckets ticked every
      millisecond does, although a refused call commits no refill. */
  lemma LazyRefinesTicking(g: Budget, start: nat, calls: seq<Call>)
    requires Nondecreasing(start, calls)
    requires var span := if calls == [] then 0 else Max(0, calls[|calls| - 1].nowMs - start);
      Exact(g.bytesPerSec, g.byteBurst, span) && Exact(g.framesPerSec, g.frameBurst, span)
    ensures Decisions(NewMeter(g, start), calls) == TickerDecisions(g, start, calls)
  {
    ServeAgrees(g, start, calls, if calls == [] then 0 else Max(0, calls[|calls| - 1].nowMs - start));
  }
}

/** Whole-token refill against exact accrual.

    The reference is a tank in thousandths of a token, credited by elapsed time
    with no rounding.  The lazy bucket drops a fraction with each refill it
    commits, and keeps one that a full bucket should have spilled: the two
    never drift far apart, and how far decides when they agree. */
module Accrual {
  import opened Common
  import opened Limits

  const MOST: nat := U64_MAX / 1000  // the largest refill that 64 bits allow

  /** One request to a bucket; `rest` says whether the meter's other bucket can
      pay, for only then is anything committed. */
  datatype Ask = Ask(n: nat, nowMs: nat, rest: bool)

  predicate Ordered(start: nat, asks: seq<Ask>) {
    asks != [] ==> Ordered(start, asks[..|asks| - 1]) && Clock(start, asks[..|asks| - 1]) <= asks[|asks| - 1].nowMs
  }

  function Clock(start: nat, asks: seq<Ask>): nat { if asks == [] then start else asks[|asks| - 1].nowMs }

  // ---- The lazy bucket, as its meter uses it ----

  predicate Pays(b: Bucket, q: Ask) { q.rest && q.n <= Available(b, q.nowMs) }

  function Answered(b: Bucket, q: Ask): Bucket { if Pays(b, q) then Paid(b, q.n, q.nowMs) else b }

  function Lazy(rate: U64, cap: U64, start: nat, asks: seq<Ask>): Bucket {
    if asks == [] then NewBucket(rate, cap, start)
    else Answered(Lazy(rate, cap, start, asks[..|asks| - 1]), asks[|asks| - 1])
  }

  /** Refills that a run committed. */
  function Refills(rate: U64, cap: U64, start: nat, asks: seq<Ask>): nat {
    if asks == [] then 0
    else
      var front, last := asks[..|asks| - 1], asks[|asks| - 1];
      var b := Lazy(rate, cap, start, front);
      Refills(rate, cap, start, front) + if Pays(b, last) && Refill(b, last.nowMs) > 0 then 1 else 0
  }

  // ---- The exact tank ----

  datatype Tank = Tank(milli: int, clock: nat)

  function Level(t: Tank, rate: nat, cap: nat, nowMs: nat): int
    requires t.clock <= nowMs
  {
    Min(t.milli + rate * (nowMs - t.clock), 1000 * cap)
  }

  function Drawn(t: Tank, rate: nat, cap: nat, n: nat, nowMs: nat): Tank
    requires t.clock <= nowMs
  {
    Tank(Level(t, rate, cap, nowMs) - 1000 * n, nowMs)
  }

  /** Looking at the tank on the way changes nothing. */
  lemma LevelComposes(t: Tank, rate: nat, cap: nat, midMs: nat, nowMs: nat)
    requires t.clock <= midMs <= nowMs
    ensures Level(Drawn(t, rate, cap, 0, midMs), rate, cap, nowMs) == Level(t, rate, cap, nowMs)
  {
    var early, late := rate * (midMs - t.clock), rate * (nowMs - midMs);
    OwedAdds(rate, t.clock, midMs, nowMs);
    assert Level(t, rate, cap, nowMs) == Min(t.milli + (early + late), 1000 * cap);
  }

  /** The tank that pays whatever the lazy bucket pays. */
  function Shadow(rate: U64, cap: U64, start: nat, asks: seq<Ask>): (t: Tank)
    requires Ordered(start, asks)
    ensures t.clock <= Clock(start, asks)
  {
    if asks == [] then Tank(1000 * cap, start)
    else
      var front, last := asks[..|asks| - 1], asks[|asks| - 1];
      var t := Shadow(rate, cap, start, front);
      if Pays(Lazy(rate, cap, start, front), last) then Drawn(t, rate, cap, last.n, last.nowMs) else t
  }

  // ---- How far the two drift apart ----

  /** No product reaches past 64 bits, or only past a full bucket. */
  predicate Harmless(rate: nat, cap: nat, span: nat) { cap <= MOST || rate * span / 1000 <= MOST }

  lemma ProductGrows(rate: nat, less: nat, more: nat)
    requires less <= more
    ensures rate * less <= rate * more
  {
    assert rate * more == rate * less + rate * (more - less);
  }

  lemma SaturatedQuotient(x: nat)
    ensures Min(x, U64_MAX) / 1000 == Min(x / 1000, MOST)
  {
  }

  /** Without harmful saturation the lazy bucket holds its tokens and the whole
      tokens owed since, up to its cap. */
  lemma AvailableIs(b: Bucket, nowMs: nat, span: nat)
    requires b.tokens <= b.cap && b.lastMs <= nowMs <= b.lastMs + span && Harmless(b.ratePerSec, b.cap, span)
    ensures var owed := b.ratePerSec * (nowMs - b.lastMs);
      && Available(b, nowMs) == Min(b.tokens + owed / 1000, b.cap)
      && (Refill(b, nowMs) > 0 <==> owed >= 1000)
  {
    var owed, most := b.ratePerSec * (nowMs - b.lastMs), b.ratePerSec * span;
    ProductGrows(b.ratePerSec, nowMs - b.lastMs, span);
    SaturatedQuotient(owed);
    assert Elapsed(b, nowMs) == nowMs - b.lastMs;
    assert Refill(b, nowMs) == Min(owed / 1000, MOST);
    QuotientGrows(owed, most);
  }

  lemma QuotientGrows(x: nat, y: nat)
    requires x <= y
    ensures x / 1000 <= y / 1000
  {
  }

  /** What is held and what is owed, in thousandths. */
  function Worth(b: Bucket, clock: nat): int { 1000 * b.tokens + b.ratePerSec * (clock - b.lastMs) }

  /** The tank is at most one fraction behind what the bucket is worth, and at
      most one fraction per refill ahead of it. */
  predicate Near(b: Bucket, t: Tank, slack: nat, refills: nat) {
    && b.tokens <= b.cap && b.lastMs <= t.clock && t.milli <= 1000 * b.cap
    && Worth(b, t.clock) - slack <= t.milli <= Worth(b, t.clock) + slack * refills
  }

  /** Everything the rate credits comes in multiples of a unit that also divides
      a whole token: 1 always is one, and 1000 for whole tokens per millisecond. */
  predicate Unit(g: nat, rate: nat) { 0 < g <= 1000 && rate % g == 0 && 1000 % g == 0 }

  /** In such units a fraction of a token stops a unit short of a whole. */
  lemma FractionBound(g: nat, rate: nat, ms: nat)
    requires Unit(g, rate)
    ensures rate * ms % 1000 <= 1000 - g
  {
    var k, q := 1000 / g, rate / g * ms;
    var whole, part := q / k, q % k;
    assert rate * ms == g * q by {
      assert g * (rate / g * ms) == (g * (rate / g)) * ms;
    }
    assert g * q == g * (k * whole) + g * part by {
      assert q == k * whole + part;
    }
    assert g * (k * whole) == 1000 * whole by {
      assert g * (k * whole) == (g * k) * whole;
    }
    ProductGrows(g, part, k - 1);
    assert g * (k - 1) == 1000 - g;
    DivisionIs(rate * ms, 1000, whole, g * part);
  }

  /** What a bucket near its tank can pay is near what the tank holds. */
  lemma NearLevel(b: Bucket, t: Tank, g: nat, refills: nat, nowMs: nat, span: nat)
    requires Unit(g, b.ratePerSec) && Near(b, t, 1000 - g, refills)
    requires t.clock <= nowMs <= b.lastMs + span && Harmless(b.ratePerSec, b.cap, span)
    ensures var level, paid := Level(t, b.ratePerSec, b.cap, nowMs), 1000 * Available(b, nowMs);
      && paid - (1000 - g) <= level <= paid + (1000 - g) * (refills + 1)
  {
    var rate, s := b.ratePerSec, 1000 - g;
    var owed, later := rate * (nowMs - b.lastMs), rate * (nowMs - t.clock);
    AvailableIs(b, nowMs, span);
    FractionBound(g, rate, nowMs - b.lastMs);
    OwedAdds(rate, b.lastMs, t.clock, nowMs);
    assert owed == 1000 * (owed / 1000) + owed % 1000;
    assert s * (refills + 1) == s * refills + s;
  }

  /** Paying keeps them near; a refill that is committed may cost a fraction. */
  lemma NearAfter(b: Bucket, t: Tank, g: nat, refills: nat, n: nat, nowMs: nat, span: nat)
    requires Unit(g, b.ratePerSec) && Near(b, t, 1000 - g, refills)
    requires t.clock <= nowMs <= b.lastMs + span && Harmless(b.ratePerSec, b.cap, span)
    requires n <= Available(b, nowMs)
    ensures Near(Paid(b, n, nowMs), Drawn(t, b.ratePerSec, b.cap, n, nowMs), 1000 - g,
                 refills + if Refill(b, nowMs) > 0 then 1 else 0)
  {
    var rate := b.ratePerSec;
    AvailableIs(b, nowMs, span);
    NearLevel(b, t, g, refills, nowMs, span);
    FractionBound(g, rate, nowMs - b.lastMs);
    OwedAdds(rate, b.lastMs, t.clock, nowMs);
    if Refill(b, nowMs) == 0 {
      assert rate * (nowMs - b.lastMs) % 1000 == rate * (nowMs - b.lastMs);
    }
  }

  lemma {:induction false} RunsStayNear(rate: U64, cap: U64, start: nat, asks: seq<Ask>, g: nat, span: nat)
    requires Ordered(start, asks) && Clock(start, asks) <= start + span
    requires Unit(g, rate) && Harmless(rate, cap, span)
    ensures var b := Lazy(rate, cap, start, asks);
      && b.ratePerSec == rate && b.cap == cap && start <= b.lastMs
      && Near(b, Shadow(rate, cap, start, asks), 1000 - g, Refills(rate, cap, start, asks))
  {
    if asks == [] {
    } else {
      var front, last := asks[..|asks| - 1], asks[|asks| - 1];
      RunsStayNear(rate, cap, start, front, g, span);
      var b := Lazy(rate, cap, start, front);
      if Pays(b, last) {
        NearAfter(b, Shadow(rate, cap, start, front), g, Refills(rate, cap, start, front), last.n, last.nowMs, span);
      }
    }
  }

  /** After every run of requests, paid or refused, with a clock that does not
      go back: at any later time the lazy bucket can pay at most one fraction of
      a token more than the tank that paid the same holds, and at most one
      fraction per committed refill, and one more, less.  In units of `g`
      thousandths a fraction is at most `1000 - g`. */
  lemma DriftBound(rate: U64, cap: U64, start: nat, asks: seq<Ask>, g: nat, nowMs: nat)
    requires Ordered(start, asks) && Clock(start, asks) <= nowMs && start <= nowMs
    requires Unit(g, rate) && Harmless(rate, cap, nowMs - start)
    ensures var level := Level(Shadow(rate, cap, start, asks), rate, cap, nowMs);
      var paid := 1000 * Available(Lazy(rate, cap, start, asks), nowMs);
      paid - (1000 - g) <= level <= paid + (1000 - g) * (Refills(rate, cap, start, asks) + 1)
  {
    RunsStayNear(rate, cap, start, asks, g, nowMs - start);
    NearLevel(Lazy(rate, cap, start, asks), Shadow(rate, cap, start, asks), g,
              Refills(rate, cap, start, asks), nowMs, nowMs - start);
  }

  /** Both buckets of a meter, in any run of it: a bucket answers as if alone,
      with the other's verdict given. */
  function ByteAsks(g: Budget, start: nat, calls: seq<Call>): seq<Ask> {
    if calls == [] then []
    else
      var front, last := calls[..|calls| - 1], calls[|calls| - 1];
      var m := Serve(NewMeter(g, start), front);
      ByteAsks(g, start, front) + [Ask(last.bytes, last.nowMs, 1 <= Available(m.frames, last.nowMs))]
  }

  function FrameAsks(g: Budget, start: nat, calls: seq<Call>): seq<Ask> {
    if calls == [] then []
    else
      var front, last := calls[..|calls| - 1], calls[|calls| - 1];
      var m := Serve(NewMeter(g, start), front);
      FrameAsks(g, start, front) + [Ask(1, last.nowMs, last.bytes <= Available(m.bytes, last.nowMs))]
  }

  lemma {:induction false} MeterIsTwoBuckets(g: Budget, start: nat, calls: seq<Call>)
    ensures var m := Serve(NewMeter(g, start), calls);
      && m.bytes == Lazy(g.bytesPerSec, g.byteBurst, start, ByteAsks(g, start, calls))
      && m.frames == Lazy(g.framesPerSec, g.frameBurst, start, FrameAsks(g, start, calls))
  {
    if calls == [] {
    } else {
      MeterIsTwoBuckets(g, start, calls[..|calls| - 1]);
    }
  }

  lemma {:induction false} AsksOrdered(g: Budget, start: nat, calls: seq<Call>)
    requires Nondecreasing(start, calls)
    ensures Ordered(start, ByteAsks(g, start, calls)) && Ordered(start, FrameAsks(g, start, calls))
    ensures Clock(start, ByteAsks(g, start, calls)) == Clock(start, FrameAsks(g, start, calls))
         == if calls == [] then start else calls[|calls| - 1].nowMs
  {
    if calls == [] {
    } else {
      AsksOrdered(g, start, calls[..|calls| - 1]);
    }
  }

  /** The bounds for both buckets of a meter over every run of it, refusals by
      either bucket included. */
  lemma MeterDrift(g: Budget, start: nat, calls: seq<Call>, u: nat, v: nat, nowMs: nat)
    requires Nondecreasing(start, calls) && start <= nowMs && (calls != [] ==> calls[|calls| - 1].nowMs <= nowMs)
    requires Unit(u, g.bytesPerSec) && Harmless(g.bytesPerSec, g.byteBurst, nowMs - start)
    requires Unit(v, g.framesPerSec) && Harmless(g.framesPerSec, g.frameBurst, nowMs - start)
    ensures Ordered(start, ByteAsks(g, start, calls)) && Ordered(start, FrameAsks(g, start, calls))
    ensures Clock(start, ByteAsks(g, start, calls)) <= nowMs && Clock(start, FrameAsks(g, start, calls)) <= nowMs
    ensures var asks := ByteAsks(g, start, calls);
      var paid := 1000 * Available(Serve(NewMeter(g, start), calls).bytes, nowMs);
      var level := Level(Shadow(g.bytesPerSec, g.byteBurst, start, asks), g.bytesPerSec, g.byteBurst, nowMs);
      paid - (1000 - u) <= level <= paid + (1000 - u) * (Refills(g.bytesPerSec, g.byteBurst, start, asks) + 1)
    ensures var asks := FrameAsks(g, start, calls);
      var paid := 1000 * Available(Serve(NewMeter(g, start), calls).frames, nowMs);
      var level := Level(Shadow(g.framesPerSec, g.frameBurst, start, asks), g.framesPerSec, g.frameBurst, nowMs);
      paid - (1000 - v) <= level <= paid + (1000 - v) * (Refills(g.framesPerSec, g.frameBurst, start, asks) + 1)
  {
    AsksOrdered(g, start, calls);
    MeterIsTwoBuckets(g, start, calls);
    DriftBound(g.bytesPerSec, g.byteBurst, start, ByteAsks(g, start, calls), u, nowMs);
    DriftBound(g.framesPerSec, g.frameBurst, start, FrameAsks(g, start, calls), v, nowMs);
  }

  // ---- When the two decide alike ----

  predicate Grants(t: Tank, rate: nat, cap: nat, q: Ask)
    requires t.clock <= q.nowMs
  {
    q.rest && 1000 * q.n <= Level(t, rate, cap, q.nowMs)
  }

  /** The tank deciding for itself. */
  function Exactly(rate: U64, cap: U64, start: nat, asks: seq<Ask>): (t: Tank)
    requires Ordered(start, asks)
    ensures t.clock <= Clock(start, asks)
  {
    if asks == [] then Tank(1000 * cap, start)
    else
      var last := asks[|asks| - 1];
      var t := Exactly(rate, cap, start, asks[..|asks| - 1]);
      if Grants(t, rate, cap, last) then Drawn(t, rate, cap, last.n, last.nowMs) else t
  }

  /** The same tank with its books settled at every request, whatever became of
      it. */
  function Settled(rate: U64, cap: U64, start: nat, asks: seq<Ask>): (t: Tank)
    requires Ordered(start, asks)
    ensures t.clock == Clock(start, asks)
  {
    if asks == [] then Tank(1000 * cap, start)
    else
      var last := asks[|asks| - 1];
      var t := Settled(rate, cap, start, asks[..|asks| - 1]);
      Drawn(t, rate, cap, if Grants(t, rate, cap, last) then last.n else 0, last.nowMs)
  }

  function SettledAnswers(rate: U64, cap: U64, start: nat, asks: seq<Ask>): seq<bool>
    requires Ordered(start, asks)
  {
    if asks == [] then []
    else
      var front, last := asks[..|asks| - 1], asks[|asks| - 1];
      SettledAnswers(rate, cap, start, front) + [Grants(Settled(rate, cap, start, front), rate, cap, last)]
  }

  function LazyAnswers(rate: U64, cap: U64, start: nat, asks: seq<Ask>): seq<bool> {
    if asks == [] then []
    else
      var front, last := asks[..|asks| - 1], asks[|asks| - 1];
      LazyAnswers(rate, cap, start, front) + [Pays(Lazy(rate, cap, start, front), last)]
  }

  function ExactAnswers(rate: U64, cap: U64, start: nat, asks: seq<Ask>): seq<bool>
    requires Ordered(start, asks)
  {
    if asks == [] then []
    else
      var front, last := asks[..|asks| - 1], asks[|asks| - 1];
      ExactAnswers(rate, cap, start, front) + [Grants(Exactly(rate, cap, start, front), rate, cap, last)]
  }

  lemma DrawnNow(t: Tank, rate: nat, cap: nat)
    requires t.milli <= 1000 * cap
    ensures Drawn(t, rate, cap, 0, t.clock) == t
  {
  }

  lemma SettledStep(t: Tank, s: Tank, rate: nat, cap: nat, midMs: nat, q: Ask)
    requires t.clock <= midMs <= q.nowMs && s == Drawn(t, rate, cap, 0, midMs)
    ensures Grants(s, rate, cap, q) == Grants(t, rate, cap, q)
    ensures var after := if Grants(t, rate, cap, q) then Drawn(t, rate, cap, q.n, q.nowMs) else t;
      Drawn(s, rate, cap, if Grants(t, rate, cap, q) then q.n else 0, q.nowMs) == Drawn(after, rate, cap, 0, q.nowMs)
  {
    LevelComposes(t, rate, cap, midMs, q.nowMs);
    if Grants(t, rate, cap, q) {
      DrawnNow(Drawn(t, rate, cap, q.n, q.nowMs), rate, cap);
    }
  }

  /** Leaving the books alone on a refusal, as the reference does, is settling
      them: the tank decides alike, and holds the same once settled. */
  lemma {:induction false} SettlingChangesNothing(rate: U64, cap: U64, start: nat, asks: seq<Ask>)
    requires Ordered(start, asks)
    ensures SettledAnswers(rate, cap, start, asks) == ExactAnswers(rate, cap, start, asks)
    ensures Settled(rate, cap, start, asks)
         == Drawn(Exactly(rate, cap, start, asks), rate, cap, 0, Clock(start, asks))
  {
    if asks == [] {
      DrawnNow(Tank(1000 * cap, start), rate, cap);
    } else {
      var front, last := asks[..|asks| - 1], asks[|asks| - 1];
      SettlingChangesNothing(rate, cap, start, front);
      SettledStep(Exactly(rate, cap, start, front), Settled(rate, cap, start, front), rate, cap,
                  Clock(start, front), last);
    }
  }

  /** A rate whose fraction never adds up to a token within the span, or that
      fills the bucket within any millisecond; and no harmful saturation. */
  predicate Agreeing(rate: nat, cap: nat, span: nat) {
    Harmless(rate, cap, span) && (cap <= rate / 1000 || rate % 1000 * span < 1000)
  }

  /** What the bucket holds when only whole tokens per millisecond count. */
  function Whole(b: Bucket, clock: nat): int {
    Min(b.tokens + b.ratePerSec / 1000 * (clock - b.lastMs), b.cap)
  }

  predicate Fits(b: Bucket, start: nat, clock: nat) { b.tokens <= b.cap && start <= b.lastMs <= clock }

  /** Slow fractions: the tank is ahead by the fractions since the start. */
  predicate Slow(b: Bucket, t: Tank, start: nat) {
    && Fits(b, start, t.clock)
    && 1000 * Whole(b, t.clock) <= t.milli <= 1000 * Whole(b, t.clock) + b.ratePerSec % 1000 * (t.clock - start)
  }

  lemma RateSplits(rate: nat, ms: nat)
    ensures rate * ms == 1000 * (rate / 1000 * ms) + rate % 1000 * ms
  {
    var k, f := rate / 1000, rate % 1000;
    assert rate == 1000 * k + f;
    assert (1000 * k + f) * ms == 1000 * (k * ms) + f * ms;
  }

  lemma SlowAvailable(b: Bucket, start: nat, nowMs: nat, span: nat)
    requires Fits(b, start, nowMs) && nowMs <= start + span
    requires Harmless(b.ratePerSec, b.cap, span) && b.ratePerSec % 1000 * span < 1000
    ensures Available(b, nowMs) == Whole(b, nowMs)
    ensures Refill(b, nowMs) == 0 ==> b.ratePerSec / 1000 * (nowMs - b.lastMs) == 0
  {
    var rate, e := b.ratePerSec, nowMs - b.lastMs;
    AvailableIs(b, nowMs, span);
    RateSplits(rate, e);
    ProductGrows(rate % 1000, e, span);
    DivisionIs(rate * e, 1000, rate / 1000 * e, rate % 1000 * e);
  }

  lemma SlowLevel(b: Bucket, t: Tank, start: nat, nowMs: nat, span: nat)
    requires Slow(b, t, start) && t.clock <= nowMs <= start + span && b.ratePerSec % 1000 * span < 1000
    ensures var level := Level(t, b.ratePerSec, b.cap, nowMs);
      1000 * Whole(b, nowMs) <= level <= 1000 * Whole(b, nowMs) + b.ratePerSec % 1000 * (nowMs - start)
  {
    var k, f, d := b.ratePerSec / 1000, b.ratePerSec % 1000, nowMs - t.clock;
    RateSplits(b.ratePerSec, d);
    OwedAdds(k, b.lastMs, t.clock, nowMs);
    OwedAdds(f, start, t.clock, nowMs);
    MinChain(b.tokens, k * (t.clock - b.lastMs), k * d, k * (nowMs - b.lastMs), b.cap);
  }

  lemma SlowStep(b: Bucket, t: Tank, start: nat, n: nat, nowMs: nat, span: nat)
    requires Slow(b, t, start) && t.clock <= nowMs <= start + span
    requires Harmless(b.ratePerSec, b.cap, span) && b.ratePerSec % 1000 * span < 1000
    ensures n <= Available(b, nowMs) <==> 1000 * n <= Level(t, b.ratePerSec, b.cap, nowMs)
    ensures n <= Available(b, nowMs) ==> Slow(Paid(b, n, nowMs), Drawn(t, b.ratePerSec, b.cap, n, nowMs), start)
  {
    SlowAvailable(b, start, nowMs, span);
    SlowLevel(b, t, start, nowMs, span);
    ProductGrows(b.ratePerSec % 1000, nowMs - start, span);
    if n <= Available(b, nowMs) {
      var p := Paid(b, n, nowMs);
      if Refill(b, nowMs) > 0 {
        assert b.ratePerSec / 1000 * (nowMs - p.lastMs) == 0;
      }
      assert Whole(p, nowMs) == Available(b, nowMs) - n;
    }
  }

  /** Fast rates: every millisecond fills the bucket, so only calls within one
      millisecond see it short. */
  predicate Fast(b: Bucket, t: Tank, start: nat) {
    && Fits(b, start, t.clock) && 0 <= t.milli
    && t.milli == 1000 * Min(b.tokens + b.ratePerSec * (t.clock - b.lastMs) / 1000, b.cap)
  }

  lemma FastFills(rate: nat, cap: nat, ms: nat)
    requires cap <= rate / 1000 && ms > 0
    ensures rate * ms / 1000 >= cap && rate * ms >= 1000 * cap
  {
    ProductGrows(rate, 1, ms);
    QuotientGrows(rate, rate * ms);
  }

  lemma FastLevel(b: Bucket, t: Tank, start: nat, nowMs: nat, span: nat)
    requires Fast(b, t, start) && t.clock <= nowMs <= start + span
    requires Harmless(b.ratePerSec, b.cap, span) && b.cap <= b.ratePerSec / 1000
    ensures Level(t, b.ratePerSec, b.cap, nowMs) == 1000 * Available(b, nowMs)
  {
    AvailableIs(b, nowMs, span);
    if nowMs > t.clock {
      FastFills(b.ratePerSec, b.cap, nowMs - t.clock);
      FastFills(b.ratePerSec, b.cap, nowMs - b.lastMs);
    }
  }

  lemma FastPaid(b: Bucket, t: Tank, start: nat, n: nat, nowMs: nat, span: nat)
    requires Fits(b, start, nowMs) && nowMs <= start + span && Harmless(b.ratePerSec, b.cap, span)
    requires n <= Available(b, nowMs) && t == Tank(1000 * (Available(b, nowMs) - n), nowMs)
    ensures Fast(Paid(b, n, nowMs), t, start)
  {
    AvailableIs(b, nowMs, span);
    var p := Paid(b, n, nowMs);
    var owed := b.ratePerSec * (nowMs - p.lastMs);
    assert owed < 1000;
    assert owed / 1000 == 0;
  }

  lemma FastStep(b: Bucket, t: Tank, start: nat, n: nat, nowMs: nat, span: nat)
    requires Fast(b, t, start) && t.clock <= nowMs <= start + span
    requires Harmless(b.ratePerSec, b.cap, span) && b.cap <= b.ratePerSec / 1000
    ensures n <= Available(b, nowMs) <==> 1000 * n <= Level(t, b.ratePerSec, b.cap, nowMs)
    ensures n <= Available(b, nowMs) ==> Fast(Paid(b, n, nowMs), Drawn(t, b.ratePerSec, b.cap, n, nowMs), start)
  {
    FastLevel(b, t, start, nowMs, span);
    if n <= Available(b, nowMs) {
      FastPaid(b, Drawn(t, b.ratePerSec, b.cap, n, nowMs), start, n, nowMs, span);
    }
  }

  /** The bucket and the tank are in a state from which they decide alike. */
  predicate Together(b: Bucket, t: Tank, start: nat) {
    if b.cap <= b.ratePerSec / 1000 then Fast(b, t, start) else Slow(b, t, start)
  }

  lemma TogetherStep(b: Bucket, t: Tank, start: nat, n: nat, nowMs: nat, span: nat)
    requires Together(b, t, start) && t.clock <= nowMs <= start + span
    requires Agreeing(b.ratePerSec, b.cap, span)
    ensures n <= Available(b, nowMs) <==> 1000 * n <= Level(t, b.ratePerSec, b.cap, nowMs)
    ensures n <= Available(b, nowMs) ==>
      Together(Paid(b, n, nowMs), Drawn(t, b.ratePerSec, b.cap, n, nowMs), start)
  {
    if b.cap <= b.ratePerSec / 1000 {
      FastStep(b, t, start, n, nowMs, span);
    } else {
      SlowStep(b, t, start, n, nowMs, span);
    }
  }

  lemma {:induction false} AgreeingRuns(rate: U64, cap: U64, start: nat, asks: seq<Ask>, span: nat)
    requires Ordered(start, asks) && Clock(start, asks) <= start + span && Agreeing(rate, cap, span)
    ensures LazyAnswers(rate, cap, start, asks) == ExactAnswers(rate, cap, start, asks)
    ensures var b := Lazy(rate, cap, start, asks);
      b.ratePerSec == rate && b.cap == cap && Together(b, Exactly(rate, cap, start, asks), start)
  {
    if asks == [] {
    } else {
      var front, last := asks[..|asks| - 1], asks[|asks| - 1];
      AgreeingRuns(rate, cap, start, front, span);
      TogetherStep(Lazy(rate, cap, start, front), Exactly(rate, cap, start, front), start, last.n, last.nowMs, span);
    }
  }

  /** A pair of tanks behind one meter: both pay or neither. */
  datatype Tanks = Tanks(bytes: Tank, frames: Tank)

  predicate BothGrant(t: Tanks, g: Budget, call: Call)
    requires t.bytes.clock <= call.nowMs && t.frames.clock <= call.nowMs
  {
    && 1000 * call.bytes <= Level(t.bytes, g.bytesPerSec, g.byteBurst, call.nowMs)
    && 1000 <= Level(t.frames, g.framesPerSec, g.frameBurst, call.nowMs)
  }

  function TanksServe(g: Budget, start: nat, calls: seq<Call>): (t: Tanks)
    requires Nondecreasing(start, calls)
    ensures calls == [] ==> t.bytes.clock == t.frames.clock == start
    ensures calls != [] ==> t.bytes.clock <= calls[|calls| - 1].nowMs && t.frames.clock <= calls[|calls| - 1].nowMs
  {
    if calls == [] then Tanks(Tank(1000 * g.byteBurst, start), Tank(1000 * g.frameBurst, start))
    else
      var last := calls[|calls| - 1];
      var t := TanksServe(g, start, calls[..|calls| - 1]);
      if BothGrant(t, g, last) then
        Tanks(Drawn(t.bytes, g.bytesPerSec, g.byteBurst, last.bytes, last.nowMs),
              Drawn(t.frames, g.framesPerSec, g.frameBurst, 1, last.nowMs))
      else t
  }

  function TankDecisions(g: Budget, start: nat, calls: seq<Call>): seq<bool>
    requires Nondecreasing(start, calls)
  {
    if calls == [] then []
    else
      var front, last := calls[..|calls| - 1], calls[|calls| - 1];
      TankDecisions(g, start, front) + [BothGrant(TanksServe(g, start, front), g, last)]
  }

  predicate MeterTogether(m: Meter, t: Tanks, g: Budget, start: nat) {
    && m.bytes.ratePerSec == g.bytesPerSec && m.bytes.cap == g.byteBurst && Together(m.bytes, t.bytes, start)
    && m.frames.ratePerSec == g.framesPerSec && m.frames.cap == g.frameBurst && Together(m.frames, t.frames, start)
  }

  lemma MeterStep(m: Meter, t: Tanks, g: Budget, start: nat, call: Call, span: nat)
    requires MeterTogether(m, t, g, start) && call.nowMs <= start + span
    requires t.bytes.clock <= call.nowMs && t.frames.clock <= call.nowMs
    requires Agreeing(g.bytesPerSec, g.byteBurst, span) && Agreeing(g.framesPerSec, g.frameBurst, span)
    ensures CanPay(m, call.bytes, call.nowMs) <==> BothGrant(t, g, call)
    ensures CanPay(m, call.bytes, call.nowMs) ==>
      MeterTogether(Charge(m, call.bytes, call.nowMs),
                    Tanks(Drawn(t.bytes, g.bytesPerSec, g.byteBurst, call.bytes, call.nowMs),
                          Drawn(t.frames, g.framesPerSec, g.frameBurst, 1, call.nowMs)), g, start)
  {
    TogetherStep(m.bytes, t.bytes, start, call.bytes, call.nowMs, span);
    TogetherStep(m.frames, t.frames, start, 1, call.nowMs, span);
  }

  /** A meter both of whose budgets agree decides every call as two exact tanks
      would. */
  lemma {:induction false} MeterIsExact(g: Budget, start: nat, calls: seq<Call>, span: nat)
    requires Nondecreasing(start, calls) && (calls != [] ==> calls[|calls| - 1].nowMs <= start + span)
    requires Agreeing(g.bytesPerSec, g.byteBurst, span) && Agreeing(g.framesPerSec, g.frameBurst, span)
    ensures Decisions(NewMeter(g, start), calls) == TankDecisions(g, start, calls)
    ensures MeterTogether(Serve(NewMeter(g, start), calls), TanksServe(g, start, calls), g, start)
  {
    if calls == [] {
    } else {
      var front, last := calls[..|calls| - 1], calls[|calls| - 1];
      MeterIsExact(g, start, front, span);
      MeterStep(Serve(NewMeter(g, start), front), TanksServe(g, start, front), g, start, last, span);
    }
  }

  // ---- And when they do not ----

  ghost predicate Differs(rate: U64, cap: U64, start: nat, span: nat, asks: seq<Ask>) {
    && Ordered(start, asks) && Clock(start, asks) <= start + span
    && LazyAnswers(rate, cap, start, asks) != ExactAnswers(rate, cap, start, asks)
  }

  /** Where a run leaves the two. */
  ghost predicate Leaves(rate: U64, cap: U64, start: nat, asks: seq<Ask>, b: Bucket, t: Tank) {
    && Ordered(start, asks) && Clock(start, asks) == t.clock
    && Lazy(rate, cap, start, asks) == b && Exactly(rate, cap, start, asks) == t
  }

  /** One more request that both pay. */
  lemma BothPay(rate: U64, cap: U64, start: nat, asks: seq<Ask>, b: Bucket, t: Tank, q: Ask)
    requires Leaves(rate, cap, start, asks, b, t) && t.clock <= q.nowMs
    requires Pays(b, q) && Grants(t, rate, cap, q)
    ensures Leaves(rate, cap, start, asks + [q], Paid(b, q.n, q.nowMs), Drawn(t, rate, cap, q.n, q.nowMs))
  {
    assert (asks + [q])[..|asks|] == asks;
  }

  /** One more request that only one of them pays. */
  lemma OnePays(rate: U64, cap: U64, start: nat, span: nat, asks: seq<Ask>, b: Bucket, t: Tank, q: Ask)
    requires Leaves(rate, cap, start, asks, b, t) && t.clock <= q.nowMs <= start + span
    requires Pays(b, q) != Grants(t, rate, cap, q)
    ensures Differs(rate, cap, start, span, asks + [q])
  {
    assert (asks + [q])[..|asks|] == asks;
    var l, x := LazyAnswers(rate, cap, start, asks + [q]), ExactAnswers(rate, cap, start, asks + [q]);
    assert l[|l| - 1] == Pays(b, q) && x[|x| - 1] == Grants(t, rate, cap, q);
  }

  /** A full bucket pays everything it has before any refill comes due. */
  lemma Emptied(rate: U64, cap: U64, start: nat, ms: nat)
    requires rate * ms < 1000
    ensures Leaves(rate, cap, start, [Ask(cap, start + ms, true)], Bucket(0, cap, rate, start), Tank(0, start + ms))
  {
    var b, t, q, none := NewBucket(rate, cap, start), Tank(1000 * cap, start), Ask(cap, start + ms, true), [];
    assert Elapsed(b, start + ms) == ms;
    assert Refill(b, start + ms) == 0;
    BothPay(rate, cap, start, none, b, t, q);
    assert none + [q] == [q];
  }

  /** A cap past what one refill can carry is not reached in one. */
  lemma SaturationShows(rate: U64, cap: U64, start: nat, span: nat) returns (asks: seq<Ask>)
    requires !Harmless(rate, cap, span)
    ensures Differs(rate, cap, start, span, asks)
  {
    var b, q := Bucket(0, cap, rate, start), Ask(MOST + 1, start + span, true);
    assert rate * 0 == 0;
    Emptied(rate, cap, start, 0);
    SaturatedQuotient(rate * span);
    assert Elapsed(b, start + span) == span;
    OnePays(rate, cap, start, span, [Ask(cap, start + 0, true)], b, Tank(0, start), q);
    asks := [Ask(cap, start + 0, true)] + [q];
  }

  /** Taking each millisecond's whole tokens as they come. */
  function Sips(cap: nat, k: nat, start: nat, ms: nat): seq<Ask> {
    if ms == 0 then [Ask(cap, start, true)] else Sips(cap, k, start, ms - 1) + [Ask(k, start + ms, true)]
  }

  lemma SipAvailable(rate: U64, cap: U64, lastMs: nat)
    requires cap > rate / 1000 > 0
    ensures Available(Bucket(0, cap, rate, lastMs), lastMs + 1) == rate / 1000
    ensures Refill(Bucket(0, cap, rate, lastMs), lastMs + 1) > 0
  {
    assert Elapsed(Bucket(0, cap, rate, lastMs), lastMs + 1) == 1;
  }

  /** One sip: the whole tokens are paid, the fraction stays in the tank only. */
  lemma SipStep(rate: U64, cap: U64, at: nat, milli: nat)
    requires cap > rate / 1000 > 0 && milli + rate % 1000 < 1000
    ensures var b, t, q := Bucket(0, cap, rate, at), Tank(milli, at), Ask(rate / 1000, at + 1, true);
      && Pays(b, q) && Paid(b, q.n, q.nowMs) == Bucket(0, cap, rate, at + 1)
      && Grants(t, rate, cap, q) && Drawn(t, rate, cap, q.n, q.nowMs) == Tank(milli + rate % 1000, at + 1)
  {
    SipAvailable(rate, cap, at);
    assert Level(Tank(milli, at), rate, cap, at + 1) == milli + rate;
  }

  lemma OneSip(rate: U64, cap: U64, start: nat, asks: seq<Ask>, at: nat, milli: nat)
    requires cap > rate / 1000 > 0 && milli + rate % 1000 < 1000
    requires Leaves(rate, cap, start, asks, Bucket(0, cap, rate, at), Tank(milli, at))
    ensures Leaves(rate, cap, start, asks + [Ask(rate / 1000, at + 1, true)],
                   Bucket(0, cap, rate, at + 1), Tank(milli + rate % 1000, at + 1))
  {
    SipStep(rate, cap, at, milli);
    BothPay(rate, cap, start, asks, Bucket(0, cap, rate, at), Tank(milli, at), Ask(rate / 1000, at + 1, true));
  }

  /** The thousandths `ms` sips leave behind, `f` at a time. */
  function Dropped(f: nat, ms: nat): nat {
    if ms == 0 then 0 else Dropped(f, ms - 1) + f
  }

  lemma {:induction false} DroppedIs(f: nat, ms: nat)
    ensures Dropped(f, ms) == f * ms
  {
    if ms == 0 {
    } else {
      DroppedIs(f, ms - 1);
    }
  }

  lemma EmptiedAtOnce(rate: U64, cap: U64, start: nat)
    ensures Leaves(rate, cap, start, [Ask(cap, start, true)], Bucket(0, cap, rate, start), Tank(0, start))
  {
    Emptied(rate, cap, start, 0);
  }

  lemma {:induction false} SipsLose(rate: U64, cap: U64, start: nat, ms: nat)
    requires cap > rate / 1000 > 0 && Dropped(rate % 1000, ms) < 1000
    ensures Leaves(rate, cap, start, Sips(cap, rate / 1000, start, ms),
                   Bucket(0, cap, rate, start + ms), Tank(Dropped(rate % 1000, ms), start + ms))
  {
    if ms == 0 {
      EmptiedAtOnce(rate, cap, start);
    } else {
      var asks, at, milli := Sips(cap, rate / 1000, start, ms - 1), start + (ms - 1), Dropped(rate % 1000, ms - 1);
      assert Leaves(rate, cap, start, asks + [Ask(rate / 1000, at + 1, true)],
                    Bucket(0, cap, rate, at + 1), Tank(milli + rate % 1000, at + 1)) by {
        SipsLose(rate, cap, start, ms - 1);
        OneSip(rate, cap, start, asks, at, milli);
      }
    }
  }

  lemma LossStep(rate: U64, cap: U64, at: nat, milli: nat)
    requires cap > rate / 1000 > 0 && milli + rate % 1000 >= 1000
    ensures var q := Ask(rate / 1000 + 1, at + 1, true);
      !Pays(Bucket(0, cap, rate, at), q) && Grants(Tank(milli, at), rate, cap, q)
  {
    SipAvailable(rate, cap, at);
    assert Level(Tank(milli, at), rate, cap, at + 1) == Min(milli + rate, 1000 * cap);
  }

  /** Above a token per millisecond: fractions dropped with each refill add up
      to a token that the tank has and the bucket has not. */
  lemma LossShows(rate: U64, cap: U64, start: nat, span: nat, ms: nat)
    requires cap > rate / 1000 > 0 && 0 < ms <= span && rate % 1000 * (ms - 1) < 1000 <= rate % 1000 * ms
    ensures Differs(rate, cap, start, span,
                    Sips(cap, rate / 1000, start, ms - 1) + [Ask(rate / 1000 + 1, start + ms, true)])
  {
    var at, milli := start + (ms - 1), rate % 1000 * (ms - 1);
    assert milli + rate % 1000 >= 1000;
    DroppedIs(rate % 1000, ms - 1);
    SipsLose(rate, cap, start, ms - 1);
    LossStep(rate, cap, at, milli);
    OnePays(rate, cap, start, span, Sips(cap, rate / 1000, start, ms - 1),
            Bucket(0, cap, rate, at), Tank(milli, at), Ask(rate / 1000 + 1, start + ms, true));
  }

  /** Below a token per millisecond: a full bucket that pays before its refill
      comes due keeps the time it was full, and is early with the next token. */
  lemma GainShows(rate: U64, cap: U64, start: nat, span: nat, ms: nat)
    requires 0 < rate < 1000 && cap > 0 && 0 < ms <= span && rate * (ms - 1) < 1000 <= rate * ms
    ensures Differs(rate, cap, start, span, [Ask(cap, start + 1, true)] + [Ask(1, start + ms, true)])
  {
    var b, t, q := Bucket(0, cap, rate, start), Tank(0, start + 1), Ask(1, start + ms, true);
    assert rate * ms == rate * (ms - 1) + rate && rate * 1 == rate;
    Emptied(rate, cap, start, 1);
    assert Elapsed(b, start + ms) == ms;
    assert Refill(b, start + ms) == 1;
    assert Level(t, rate, cap, start + ms) == Min(rate * (ms - 1), 1000 * cap);
    OnePays(rate, cap, start, span, [Ask(cap, start + 1, true)], b, t, q);
  }

  lemma LeastReaching(f: nat, span: nat) returns (ms: nat)
    requires f * span >= 1000
    ensures 0 < ms <= span && f * (ms - 1) < 1000 <= f * ms
  {
    ms := span;
    while f * (ms - 1) >= 1000
      invariant 0 < ms <= span && f * ms >= 1000
    {
      ms := ms - 1;
    }
  }

  lemma Disagreement(rate: U64, cap: U64, start: nat, span: nat) returns (asks: seq<Ask>)
    requires !Agreeing(rate, cap, span)
    ensures Differs(rate, cap, start, span, asks)
  {
    if !Harmless(rate, cap, span) {
      asks := SaturationShows(rate, cap, start, span);
    } else {
      var ms := LeastReaching(rate % 1000, span);
      if rate / 1000 > 0 {
        LossShows(rate, cap, start, span, ms);
        asks := Sips(cap, rate / 1000, start, ms - 1) + [Ask(rate / 1000 + 1, start + ms, true)];
      } else {
        assert rate % 1000 == rate;
        GainShows(rate, cap, start, span, ms);
        asks := [Ask(cap, start + 1, true)] + [Ask(1, start + ms, true)];
      }
    }
  }

  /** The lazy bucket and the exact tank answer every run within a span alike
      if and only if the rate, the cap and the span agree as stated. */
  lemma AgreeExactly(rate: U64, cap: U64, start: nat, span: nat)
    ensures Agreeing(rate, cap, span) <==>
      forall asks: seq<Ask> :: Ordered(start, asks) && Clock(start, asks) <= start + span ==>
        LazyAnswers(rate, cap, start, asks) == ExactAnswers(rate, cap, start, asks)
  {
    if Agreeing(rate, cap, span) {
      forall asks: seq<Ask> | Ordered(start, asks) && Clock(start, asks) <= start + span
        ensures LazyAnswers(rate, cap, start, asks) == ExactAnswers(rate, cap, start, asks)
      {
        AgreeingRuns(rate, cap, start, asks, span);
      }
    } else {
      var asks := Disagreement(rate, cap, start, span);
      assert Differs(rate, cap, start, span, asks);
    }
  }

  /** At 1500 tokens a second, emptied at once and asked for 1 after 1 ms and 2
      after 2 ms, the bucket refuses what the tank has. */
  lemma RefusesWhatIsThere(start: nat)
    ensures Differs(1500, 2, start, 2, Sips(2, 1, start, 1) + [Ask(2, start + 2, true)])
  {
    LossShows(1500, 2, start, 2, 2);
  }

  /** At 500 tokens a second, emptied after 1 ms and asked for 1 after 2 ms, it
      grants what the tank has not. */
  lemma GrantsWhatIsNot(start: nat)
    ensures Differs(500, 1, start, 2, [Ask(1, start + 1, true)] + [Ask(1, start + 2, true)])
  {
    GainShows(500, 1, start, 2, 2);
  }
}

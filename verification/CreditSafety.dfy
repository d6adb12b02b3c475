/** Conservation of credit over every run. */
module CreditSafety {
  import opened Common
  import opened Frames
  import opened Credits
  import opened CreditRuns

  // ---- Counting in lists ----

  function Count(grants: seq<Grant>, x: nat): nat {
    if grants == [] then 0 else (if grants[0].id == x then 1 else 0) + Count(grants[1..], x)
  }

  function CountReturned(ss: seq<Surrender>, x: nat): nat {
    if ss == [] then 0 else CountReturned(ss[..|ss| - 1], x) + (if ss[|ss| - 1].id == x then 1 else 0)
  }

  /** What the journal says about one grant. */
  datatype Truth = Truth(home: Option<MappingKey>, granted: nat, spent: nat)

  function TruthOf(j: seq<Entry>, x: nat): Truth {
    Truth(Home(j, x), Tally(j, GrantedTo(x)), Tally(j, SpentOn(x)))
  }

  predicate FitsOne(g: Grant, x: nat, t: Truth) {
    g.id == x ==> t.home == Some(g.key) && g.consumed == t.spent && g.remaining + g.consumed == t.granted
  }

  predicate Fits(grants: seq<Grant>, x: nat, t: Truth) {
    forall i :: 0 <= i < |grants| ==> FitsOne(grants[i], x, t)
  }

  predicate ReturnFits(s: Surrender, x: nat, t: Truth) {
    s.id == x ==> t.home == Some(s.key) && s.consumed == t.spent
  }

  predicate ReturnsFit(ss: seq<Surrender>, x: nat, t: Truth) {
    forall i :: 0 <= i < |ss| ==> ReturnFits(ss[i], x, t)
  }

  lemma {:induction false} CountAt(grants: seq<Grant>, i: nat, x: nat)
    requires i < |grants| && grants[i].id == x
    ensures Count(grants, x) > 0
  {
    if i == 0 {
    } else {
      CountAt(grants[1..], i - 1, x);
    }
  }

  lemma {:induction false} CountTwo(grants: seq<Grant>, i: nat, j: nat, x: nat)
    requires i < j < |grants| && grants[i].id == x && grants[j].id == x
    ensures Count(grants, x) > 1
  {
    if i == 0 {
      CountAt(grants[1..], j - 1, x);
    } else {
      CountTwo(grants[1..], i - 1, j - 1, x);
    }
  }

  lemma {:induction false} CountZero(grants: seq<Grant>, x: nat)
    requires Count(grants, x) == 0
    ensures forall i :: 0 <= i < |grants| ==> grants[i].id != x
  {
    if grants == [] {
    } else {
      CountZero(grants[1..], x);
      assert forall i :: 0 < i < |grants| ==> grants[i] == grants[1..][i - 1];
    }
  }

  lemma {:induction false} UnexpiredShrinks(grants: seq<Grant>, now: nat, x: nat, t: Truth)
    ensures Count(Unexpired(grants, now), x) <= Count(grants, x)
    ensures Remaining(Unexpired(grants, now)) <= Remaining(grants)
    ensures Fits(grants, x, t) ==> Fits(Unexpired(grants, now), x, t)
  {
    if grants == [] {
    } else {
      UnexpiredShrinks(grants[1..], now, x, t);
      if Fits(grants, x, t) {
        assert FitsOne(grants[0], x, t);
        assert forall i :: 0 <= i < |grants[1..]| ==> grants[1..][i] == grants[i + 1];
      }
    }
  }

  lemma {:induction false} ReplaceCounts(grants: seq<Grant>, i: nat, g: Grant, x: nat)
    requires i < |grants| && g.id == grants[i].id
    ensures Count(grants[i := g], x) == Count(grants, x)
    ensures Remaining(grants[i := g]) + grants[i].remaining == Remaining(grants) + g.remaining
  {
    if i == 0 {
      assert grants[i := g][1..] == grants[1..];
    } else {
      ReplaceCounts(grants[1..], i - 1, g, x);
      assert grants[i := g][1..] == grants[1..][i - 1 := g];
    }
  }

  /** Paying moves bytes from one grant's remainder to its consumption. */
  lemma PayMoves(grants: seq<Grant>, i: nat, bytes: nat, x: nat, t: Truth)
    requires i < |grants| && grants[i].remaining >= bytes
    requires Count(grants, x) <= 1 && Fits(grants, x, t)
    ensures Count(Pay(grants, i, bytes), x) == Count(grants, x)
    ensures Remaining(Pay(grants, i, bytes)) + bytes == Remaining(grants)
    ensures Fits(Pay(grants, i, bytes), x, if grants[i].id == x then t.(spent := t.spent + bytes) else t)
    ensures grants[i].id == x ==> t.spent + bytes <= t.granted
  {
    var paid := Pay(grants, i, bytes);
    ReplaceCounts(grants, i, paid[i], x);
    assert FitsOne(grants[i], x, t);
    forall j | 0 <= j < |paid|
      ensures FitsOne(paid[j], x, if grants[i].id == x then t.(spent := t.spent + bytes) else t)
    {
      assert FitsOne(grants[j], x, t);
      if grants[i].id == x && j != i && paid[j].id == x {
        CountTwo(grants, if i < j then i else j, if i < j then j else i, x);
      }
    }
  }

  lemma CountReturnedFront(s: Surrender, ss: seq<Surrender>, x: nat)
    ensures CountReturned([s] + ss, x) == (if s.id == x then 1 else 0) + CountReturned(ss, x)
  {
    if ss == [] {
      assert [s] + ss == [s] && [s][..0] == [];
    } else {
      var all := [s] + ss;
      assert all[..|all| - 1] == [s] + ss[..|ss| - 1];
      CountReturnedFront(s, ss[..|ss| - 1], x);
    }
  }

  lemma {:induction false} CountReturnedAppend(a: seq<Surrender>, b: seq<Surrender>, x: nat)
    ensures CountReturned(a + b, x) == CountReturned(a, x) + CountReturned(b, x)
  {
    if b == [] {
      assert a + b == a;
    } else {
      CountReturnedAppend(a, b[..|b| - 1], x);
      assert (a + b)[..|a + b| - 1] == a + b[..|b| - 1];
    }
  }

  lemma {:induction false} ReturnsCount(grants: seq<Grant>, x: nat, t: Truth)
    ensures CountReturned(Returns(grants), x) == Count(grants, x)
    ensures Fits(grants, x, t) ==> ReturnsFit(Returns(grants), x, t)
  {
    if grants == [] {
    } else {
      ReturnsCount(grants[1..], x, t);
      CountReturnedFront(Return(grants[0]), Returns(grants[1..]), x);
      if Fits(grants, x, t) {
        assert FitsOne(grants[0], x, t);
        assert forall i :: 0 <= i < |grants[1..]| ==> grants[1..][i] == grants[i + 1];
      }
    }
  }

  /** Handing back exhausted grants moves them and leaves no byte behind. */
  lemma {:induction false} DrainSplits(grants: seq<Grant>, room: nat, x: nat, t: Truth)
    ensures Count(Kept(grants, room), x) + Count(Credits.Spent(grants, room), x) == Count(grants, x)
    ensures Remaining(Kept(grants, room)) == Remaining(grants)
    ensures Fits(grants, x, t) ==> Fits(Kept(grants, room), x, t) && Fits(Credits.Spent(grants, room), x, t)
  {
    if grants != [] && room > 0 {
      DrainSplits(grants[1..], if grants[0].remaining == 0 then room - 1 else room, x, t);
      if Fits(grants, x, t) {
        assert FitsOne(grants[0], x, t);
        assert forall i :: 0 <= i < |grants[1..]| ==> grants[1..][i] == grants[i + 1];
      }
    }
  }

  lemma {:induction false} PushCounts(grants: seq<Grant>, g: Grant, x: nat)
    ensures Count(grants + [g], x) == Count(grants, x) + (if g.id == x then 1 else 0)
    ensures Remaining(grants + [g]) == Remaining(grants) + g.remaining
  {
    if grants == [] {
      assert grants + [g] == [g] && [g][1..] == [];
    } else {
      PushCounts(grants[1..], g, x);
      assert (grants + [g])[1..] == grants[1..] + [g];
    }
  }

  // ---- The invariant of one grant ----

  type States = map<MappingKey, Allowance>

  predicate HandedRight(j: seq<Entry>, x: nat, t: Truth) {
    forall i :: 0 <= i < |j| && j[i].Handed? ==> ReturnFits(j[i].s, x, t)
  }

  /** Wherever a grant is held, it is held once, at its own mapping, and its
      two numbers say what the journal says. */
  ghost predicate Held(states: States, x: nat, t: Truth, handed: nat) {
    forall k :: var grants := GrantsAt(states, k);
      && Fits(grants, x, t)
      && Count(grants, x) + handed <= 1
      && (Count(grants, x) > 0 ==> t.home == Some(k))
  }

  ghost predicate GrantInv(states: States, j: seq<Entry>, x: nat) {
    var t := TruthOf(j, x);
    && Held(states, x, t, Tally(j, HandedTo(x)))
    && HandedRight(j, x, t)
    && t.spent <= t.granted
    && Tally(j, HandedTo(x)) <= 1
    && (t.home.None? ==> t.granted == 0 && t.spent == 0 && Tally(j, HandedTo(x)) == 0)
  }

  function GrantsOf(a: Allowance): seq<Grant> { if a.Capped? then a.grants else [] }

  lemma GrantsAtUpdate(states: States, k: MappingKey, a: Allowance)
    ensures GrantsAt(states[k := a], k) == GrantsOf(a)
    ensures forall o :: o != k ==> GrantsAt(states[k := a], o) == GrantsAt(states, o)
  {
  }

  /** Lists may lose grants at any time. */
  lemma ShrinkKeeps(states: States, smaller: States, j: seq<Entry>, x: nat)
    requires GrantInv(states, j, x)
    requires forall k ::
      && Count(GrantsAt(smaller, k), x) <= Count(GrantsAt(states, k), x)
      && Fits(GrantsAt(smaller, k), x, TruthOf(j, x))
    ensures GrantInv(smaller, j, x)
  {
  }

  lemma HomeGrows(j: seq<Entry>, e: Entry, x: nat)
    ensures Home(j + [e], x) == if HomeIn(e, x).Some? then HomeIn(e, x) else Home(j, x)
  {
    assert (j + [e])[..|j|] == j;
  }

  lemma HandedRightGrows(j: seq<Entry>, e: Entry, x: nat, t: Truth)
    requires HandedRight(j, x, t) && (e.Handed? ==> ReturnFits(e.s, x, t))
    ensures HandedRight(j + [e], x, t)
  {
  }

  /** A new grant enters its mapping's list. */
  lemma InstallKeeps(states: States, j: seq<Entry>, g: Grant, x: nat)
    requires GrantInv(states, j, x) && g.consumed == 0 && Home(j, g.id).None?
    ensures GrantInv(states[g.key := Capped(GrantsAt(states, g.key) + [g])], j + [Installed(g)], x)
  {
    var e := Installed(g);
    var grants := GrantsAt(states, g.key);
    var after := states[g.key := Capped(grants + [g])];
    HomeGrows(j, e, x);
    TallyGrows(j, e, GrantedTo(x));
    TallyGrows(j, e, SpentOn(x));
    TallyGrows(j, e, HandedTo(x));
    PushCounts(grants, g, x);
    GrantsAtUpdate(states, g.key, Capped(grants + [g]));
    var t, u := TruthOf(j, x), TruthOf(j + [e], x);
    if g.id == x {
      NothingHeldYet(states, j, x, u);
    } else {
      assert t == u;
      HandedRightGrows(j, e, x, t);
    }
    assert Fits(grants + [g], x, u);
    forall k ensures Fits(GrantsAt(after, k), x, u)
      && Count(GrantsAt(after, k), x) + Tally(j, HandedTo(x)) <= 1
      && (Count(GrantsAt(after, k), x) > 0 ==> u.home == Some(k))
    {
      assert Fits(GrantsAt(states, k), x, t) && Count(GrantsAt(states, k), x) + Tally(j, HandedTo(x)) <= 1;
    }
  }

  /** Before a grant is installed nobody has it, so any story fits. */
  lemma NothingHeldYet(states: States, j: seq<Entry>, x: nat, u: Truth)
    requires GrantInv(states, j, x) && Home(j, x).None?
    ensures forall k :: Count(GrantsAt(states, k), x) == 0 && Fits(GrantsAt(states, k), x, u)
    ensures forall e :: HandedRight(j + [Installed(e)], x, u)
  {
    forall k ensures Count(GrantsAt(states, k), x) == 0 && Fits(GrantsAt(states, k), x, u) {
      CountZero(GrantsAt(states, k), x);
    }
  }

  /** Bytes are paid out of one grant. */
  lemma PayKeeps(states: States, j: seq<Entry>, k: MappingKey, i: nat, bytes: nat, x: nat)
    requires GrantInv(states, j, x)
    requires i < |GrantsAt(states, k)| && GrantsAt(states, k)[i].remaining >= bytes
    ensures var g := GrantsAt(states, k)[i];
      GrantInv(states[k := Capped(Pay(GrantsAt(states, k), i, bytes))], j + [Admitted(k, bytes, Some(g.id))], x)
  {
    var grants := GrantsAt(states, k);
    var e := Admitted(k, bytes, Some(grants[i].id));
    HomeGrows(j, e, x);
    TallyGrows(j, e, GrantedTo(x));
    TallyGrows(j, e, SpentOn(x));
    TallyGrows(j, e, HandedTo(x));
    var t := TruthOf(j, x);
    PayMoves(grants, i, bytes, x, t);
    GrantsAtUpdate(states, k, Capped(Pay(grants, i, bytes)));
    var u := TruthOf(j + [e], x);
    if grants[i].id == x {
      CountAt(grants, i, x);
      OnlyHere(states, j, k, x, u);
    } else {
      assert u == t;
      HandedRightGrows(j, e, x, t);
    }
    var after := states[k := Capped(Pay(grants, i, bytes))];
    forall o ensures Fits(GrantsAt(after, o), x, u)
      && Count(GrantsAt(after, o), x) + Tally(j, HandedTo(x)) <= 1
      && (Count(GrantsAt(after, o), x) > 0 ==> u.home == Some(o))
    {
      assert Fits(GrantsAt(states, o), x, t) && Count(GrantsAt(states, o), x) + Tally(j, HandedTo(x)) <= 1;
    }
  }

  /** A grant that is held somewhere is nowhere else and was never handed. */
  lemma OnlyHere(states: States, j: seq<Entry>, k: MappingKey, x: nat, u: Truth)
    requires GrantInv(states, j, x) && Count(GrantsAt(states, k), x) > 0
    ensures forall o :: o != k ==> Count(GrantsAt(states, o), x) == 0 && Fits(GrantsAt(states, o), x, u)
    ensures Tally(j, HandedTo(x)) == 0
    ensures forall e: Entry :: !e.Handed? ==> HandedRight(j + [e], x, u)
  {
    forall o | o != k ensures Count(GrantsAt(states, o), x) == 0 && Fits(GrantsAt(states, o), x, u) {
      CountZero(GrantsAt(states, o), x);
    }
    NeverHanded(j, x);
  }

  lemma {:induction false} NeverHanded(j: seq<Entry>, x: nat)
    requires Tally(j, HandedTo(x)) == 0
    ensures forall i :: 0 <= i < |j| && j[i].Handed? ==> j[i].s.id != x
  {
    if j == [] {
    } else {
      NeverHanded(j[..|j| - 1], x);
      assert forall i :: 0 <= i < |j| - 1 ==> j[..|j| - 1][i] == j[i];
    }
  }

  lemma {:induction false} HandedTallies(j: seq<Entry>, ss: seq<Surrender>, x: nat, w: Measure)
    ensures w == HandedTo(x) ==> Tally(j + HandedEntries(ss), w) == Tally(j, w) + CountReturned(ss, x)
    ensures !w.HandedTo? ==> Tally(j + HandedEntries(ss), w) == Tally(j, w)
    ensures Home(j + HandedEntries(ss), x) == Home(j, x)
    decreases |ss|
  {
    var all := j + HandedEntries(ss);
    if ss == [] {
      assert all == j;
    } else {
      var front, last := ss[..|ss| - 1], Handed(ss[|ss| - 1]);
      HandedTallies(j, front, x, w);
      assert all == j + HandedEntries(front) + [last];
      TallyGrows(j + HandedEntries(front), last, w);
      HomeGrows(j + HandedEntries(front), last, x);
    }
  }

  lemma {:induction false} HandedRightAll(j: seq<Entry>, ss: seq<Surrender>, x: nat, t: Truth)
    requires HandedRight(j, x, t) && ReturnsFit(ss, x, t)
    ensures HandedRight(j + HandedEntries(ss), x, t)
    decreases |ss|
  {
    if ss == [] {
      assert j + HandedEntries(ss) == j;
    } else {
      var front, last := ss[..|ss| - 1], ss[|ss| - 1];
      HandedRightAll(j, front, x, t);
      assert j + HandedEntries(ss) == j + HandedEntries(front) + [Handed(last)];
      HandedRightGrows(j + HandedEntries(front), Handed(last), x, t);
    }
  }

  /** Grants leave the lists and are handed back. */
  lemma HandKeeps(states: States, smaller: States, j: seq<Entry>, ss: seq<Surrender>, x: nat)
    requires GrantInv(states, j, x)
    requires ReturnsFit(ss, x, TruthOf(j, x))
    requires forall k ::
      && Count(GrantsAt(smaller, k), x) <= Count(GrantsAt(states, k), x)
      && Fits(GrantsAt(smaller, k), x, TruthOf(j, x))
    requires match Home(j, x)
      case None => CountReturned(ss, x) == 0
      case Some(h) => Count(GrantsAt(smaller, h), x) + CountReturned(ss, x) <= Count(GrantsAt(states, h), x)
    ensures GrantInv(smaller, j + HandedEntries(ss), x)
  {
    var after := j + HandedEntries(ss);
    HandedTallies(j, ss, x, HandedTo(x));
    HandedTallies(j, ss, x, GrantedTo(x));
    HandedTallies(j, ss, x, SpentOn(x));
    var t := TruthOf(j, x);
    assert TruthOf(after, x) == t;
    HandedRightAll(j, ss, x, t);
    var handed := Tally(after, HandedTo(x));
    forall k ensures var grants := GrantsAt(smaller, k);
      Fits(grants, x, t) && Count(grants, x) + handed <= 1 && (Count(grants, x) > 0 ==> t.home == Some(k))
    {
      assert Count(GrantsAt(smaller, k), x) <= Count(GrantsAt(states, k), x);
      assert Count(GrantsAt(states, k), x) + Tally(j, HandedTo(x)) <= 1;
      if t.home.Some? {
        assert Count(GrantsAt(states, t.home.value), x) + Tally(j, HandedTo(x)) <= 1;
      }
    }
  }

  // ---- The invariant of one mapping ----

  /** Bytes spent under a cap, plus what is left to spend, never exceed the
      bytes installed. */
  predicate KeyInv(states: States, j: seq<Entry>, k: MappingKey) {
    Remaining(GrantsAt(states, k)) + Tally(j, SpentFor(k)) <= Tally(j, InstalledFor(k))
  }

  // ---- Reservation ----

  /** The list after a reservation, before exhausted grants leave it. */
  function Paid(grants: seq<Grant>, bytes: nat, now: nat): seq<Grant> {
    var live := Unexpired(grants, now);
    var i := FirstAtLeast(live, bytes);
    if i < |live| then Pay(live, i, bytes) else live
  }

  function Admission(k: MappingKey, grants: seq<Grant>, bytes: nat, now: nat): seq<Entry> {
    var live := Unexpired(grants, now);
    var i := FirstAtLeast(live, bytes);
    if i < |live| then [Admitted(k, bytes, Some(live[i].id))] else []
  }

  lemma ReserveCappedShape(l: Ledger, k: MappingKey, grants: seq<Grant>, bytes: nat, now: nat, requested: nat)
    ensures var v := ReserveCapped(l, k, grants, bytes, now, requested);
      var paid := Paid(grants, bytes, now);
      && v.ledger.states == l.states[k := Capped(paid)][k := Capped(Kept(paid, Room(l)))]
      && v.ledger.surrenders[|l.surrenders|..] == Returns(Credits.Spent(paid, Room(l)))
      && (if v.admitted then [Admitted(k, bytes, v.against)] else []) == Admission(k, grants, bytes, now)
  {
    var paid := Paid(grants, bytes, now);
    assert l.states[k := Capped(paid)][k := Capped(Kept(paid, Room(l)))] == l.states[k := Capped(Kept(paid, Room(l)))];
  }

  /** Expiry, then payment. */
  lemma PaymentKeeps(states: States, j: seq<Entry>, k: MappingKey, bytes: nat, now: nat, x: nat)
    requires GrantInv(states, j, x) && k in states && states[k].Capped?
    ensures var grants := states[k].grants;
      GrantInv(states[k := Capped(Paid(grants, bytes, now))], j + Admission(k, grants, bytes, now), x)
  {
    var live := Unexpired(states[k].grants, now);
    var i := FirstAtLeast(live, bytes);
    var trimmed := states[k := Capped(live)];
    ExpiryKeeps(states, j, k, now, x);
    if i < |live| {
      PayKeeps(trimmed, j, k, i, bytes, x);
      assert trimmed[k := Capped(Pay(live, i, bytes))] == states[k := Capped(Pay(live, i, bytes))];
    } else {
      assert j + [] == j;
    }
  }

  /** Expiry, payment, and the return of what is exhausted. */
  lemma ReserveCappedKeeps(l: Ledger, j: seq<Entry>, k: MappingKey, bytes: nat, now: nat, requested: nat, x: nat)
    requires GrantInv(l.states, j, x) && k in l.states && l.states[k].Capped?
    ensures var v := ReserveCapped(l, k, l.states[k].grants, bytes, now, requested);
      GrantInv(v.ledger.states,
        j + (if v.admitted then [Admitted(k, bytes, v.against)] else [])
          + HandedEntries(v.ledger.surrenders[|l.surrenders|..]), x)
  {
    var grants := l.states[k].grants;
    ReserveCappedShape(l, k, grants, bytes, now, requested);
    PaymentKeeps(l.states, j, k, bytes, now, x);
    DrainKeeps(l.states[k := Capped(Paid(grants, bytes, now))], j + Admission(k, grants, bytes, now), k, Room(l), x);
  }

  lemma ExpiryKeeps(states: States, j: seq<Entry>, k: MappingKey, now: nat, x: nat)
    requires GrantInv(states, j, x) && k in states && states[k].Capped?
    ensures GrantInv(states[k := Capped(Unexpired(states[k].grants, now))], j, x)
  {
    var live := Unexpired(states[k].grants, now);
    UnexpiredShrinks(states[k].grants, now, x, TruthOf(j, x));
    GrantsAtUpdate(states, k, Capped(live));
    assert Fits(GrantsAt(states, k), x, TruthOf(j, x));
    ShrinkKeeps(states, states[k := Capped(live)], j, x);
  }

  lemma DrainKeeps(states: States, j: seq<Entry>, k: MappingKey, room: nat, x: nat)
    requires GrantInv(states, j, x) && k in states && states[k].Capped?
    ensures var grants := states[k].grants;
      GrantInv(states[k := Capped(Kept(grants, room))], j + HandedEntries(Returns(Credits.Spent(grants, room))), x)
  {
    var grants, t := states[k].grants, TruthOf(j, x);
    var gone := Credits.Spent(grants, room);
    var smaller := states[k := Capped(Kept(grants, room))];
    assert Fits(GrantsAt(states, k), x, t);
    DrainSplits(grants, room, x, t);
    ReturnsCount(gone, x, t);
    GrantsAtUpdate(states, k, Capped(Kept(grants, room)));
    assert Count(GrantsAt(states, k), x) > 0 ==> t.home == Some(k);
    HandKeeps(states, smaller, j, Returns(gone), x);
  }

  lemma ReserveKeeps(r: Run, m: UsageMapping, bytes: nat, now: nat, requested: nat, x: nat)
    requires GrantInv(r.ledger.states, r.journal, x)
    ensures var s := ReserveStep(r, m, bytes, now, requested); GrantInv(s.ledger.states, s.journal, x)
  {
    var k, l, j := KeyOf(m), r.ledger, r.journal;
    if bytes > 0 {
      if !l.closing && k in l.states && l.states[k].Capped? {
        ReserveCappedKeeps(l, j, k, bytes, now, requested, x);
      } else {
        var v := Reserve(l, k, bytes, now, requested);
        assert v.ledger.surrenders[|l.surrenders|..] == [];
        OtherReservationKeeps(l.states, v.ledger.states, j, k, bytes, x);
        assert j + [] == j && j + [Admitted(k, bytes, None)] + [] == j + [Admitted(k, bytes, None)];
      }
    }
  }

  /** Admitting outside any cap, or dropping an entry that has run out. */
  lemma OtherReservationKeeps(states: States, after: States, j: seq<Entry>, k: MappingKey, bytes: nat, x: nat)
    requires GrantInv(states, j, x) && (after == states || (after == states - {k} && GrantsAt(states, k) == []))
    ensures GrantInv(after, j, x) && GrantInv(after, j + [Admitted(k, bytes, None)], x)
  {
    assert forall o :: GrantsAt(after, o) == GrantsAt(states, o);
    NeutralKeeps(after, j, Admitted(k, bytes, None), x);
  }

  /** Entries that concern no grant. */
  lemma NeutralKeeps(states: States, j: seq<Entry>, e: Entry, x: nat)
    requires GrantInv(states, j, x) && (e.Gathered? || (e.Admitted? && e.against.None?))
    ensures GrantInv(states, j + [e], x)
  {
    HomeGrows(j, e, x);
    TallyGrows(j, e, GrantedTo(x));
    TallyGrows(j, e, SpentOn(x));
    TallyGrows(j, e, HandedTo(x));
    HandedRightGrows(j, e, x, TruthOf(j, x));
  }

  /** A journal grows by at most one admission and by returns. */
  lemma SpendTallies(j: seq<Entry>, entries: seq<Entry>, ss: seq<Surrender>, k: MappingKey)
    requires |entries| <= 1 && (entries != [] ==> entries[0].Admitted?)
    ensures var after := j + entries + HandedEntries(ss);
      && Tally(after, InstalledFor(k)) == Tally(j, InstalledFor(k))
      && Tally(after, SpentFor(k))
         == Tally(j, SpentFor(k)) + if entries == [] then 0 else Weight(entries[0], SpentFor(k))
  {
    EntriesTally(j, entries, SpentFor(k));
    EntriesTally(j, entries, InstalledFor(k));
    HandedTallies(j + entries, ss, 0, SpentFor(k));
    HandedTallies(j + entries, ss, 0, InstalledFor(k));
  }

  /** Tallies that move as the grants do. */
  lemma SpentKeepsKey(states: States, after: States, j: seq<Entry>, longer: seq<Entry>, k: MappingKey, spent: nat)
    requires KeyInv(states, j, k)
    requires Tally(longer, InstalledFor(k)) == Tally(j, InstalledFor(k))
    requires Tally(longer, SpentFor(k)) == Tally(j, SpentFor(k)) + spent
    requires Remaining(GrantsAt(after, k)) + spent <= Remaining(GrantsAt(states, k))
    ensures KeyInv(after, longer, k)
  {
  }

  lemma ReserveKeepsKey(r: Run, m: UsageMapping, bytes: nat, now: nat, requested: nat, k: MappingKey)
    requires KeyInv(r.ledger.states, r.journal, k)
    ensures var s := ReserveStep(r, m, bytes, now, requested); KeyInv(s.ledger.states, s.journal, k)
  {
    if bytes > 0 {
      var l := r.ledger;
      var v := Reserve(l, KeyOf(m), bytes, now, requested);
      var entries := if v.admitted then [Admitted(KeyOf(m), bytes, v.against)] else [];
      var ss := v.ledger.surrenders[|l.surrenders|..];
      SpendTallies(r.journal, entries, ss, k);
      ReserveSpends(l, KeyOf(m), bytes, now, requested, k);
      SpentKeepsKey(l.states, v.ledger.states, r.journal, r.journal + entries + HandedEntries(ss), k,
                    if v.admitted && v.against.Some? && KeyOf(m) == k then bytes else 0);
    }
  }

  /** What a reservation takes from a mapping's lists. */
  lemma ReserveSpends(l: Ledger, key: MappingKey, bytes: nat, now: nat, requested: nat, k: MappingKey)
    ensures var v := Reserve(l, key, bytes, now, requested);
      Remaining(GrantsAt(v.ledger.states, k)) + (if v.admitted && v.against.Some? && key == k then bytes else 0)
      <= Remaining(GrantsAt(l.states, k))
  {
    if !l.closing && key in l.states && l.states[key].Capped? {
      CappedSpends(l, key, bytes, now, requested);
    }
  }

  lemma EntriesTally(j: seq<Entry>, entries: seq<Entry>, w: Measure)
    requires |entries| <= 1
    ensures Tally(j + entries, w) == Tally(j, w) + if entries == [] then 0 else Weight(entries[0], w)
  {
    if entries == [] {
      assert j + entries == j;
    } else {
      assert entries == [entries[0]];
      TallyGrows(j, entries[0], w);
    }
  }

  lemma CappedSpends(l: Ledger, k: MappingKey, bytes: nat, now: nat, requested: nat)
    requires k in l.states && l.states[k].Capped?
    ensures var v := ReserveCapped(l, k, l.states[k].grants, bytes, now, requested);
      && Remaining(v.ledger.states[k].grants) + (if v.admitted then bytes else 0) <= Remaining(l.states[k].grants)
      && v.admitted == v.against.Some?
  {
    var grants := l.states[k].grants;
    var live := Unexpired(grants, now);
    var i := FirstAtLeast(live, bytes);
    UnexpiredShrinks(grants, now, 0, Truth(None, 0, 0));
    if i < |live| {
      ReplaceCounts(live, i, Pay(live, i, bytes)[i], 0);
    }
    DrainSplits(Paid(grants, bytes, now), Room(l), 0, Truth(None, 0, 0));
  }

  /** Some live grant covers the bytes alone. */
  predicate Covered(grants: seq<Grant>, now: nat, bytes: nat) {
    exists i :: 0 <= i < |grants| && grants[i].validUntil > now && grants[i].remaining >= bytes
  }

  lemma CoveredSplits(grants: seq<Grant>, now: nat, bytes: nat)
    requires grants != []
    ensures Covered(grants, now, bytes)
       <==> (grants[0].validUntil > now && grants[0].remaining >= bytes) || Covered(grants[1..], now, bytes)
  {
    if Covered(grants[1..], now, bytes) {
      var i :| 0 <= i < |grants[1..]| && grants[1..][i].validUntil > now && grants[1..][i].remaining >= bytes;
      assert grants[i + 1].validUntil > now && grants[i + 1].remaining >= bytes;
    }
    if Covered(grants, now, bytes) {
      var i :| 0 <= i < |grants| && grants[i].validUntil > now && grants[i].remaining >= bytes;
      if i > 0 {
        assert grants[1..][i - 1].validUntil > now && grants[1..][i - 1].remaining >= bytes;
      }
    }
  }

  lemma {:induction false} CoverIsFound(grants: seq<Grant>, now: nat, bytes: nat)
    ensures FirstAtLeast(Unexpired(grants, now), bytes) < |Unexpired(grants, now)| <==> Covered(grants, now, bytes)
  {
    if grants == [] {
    } else {
      CoveredSplits(grants, now, bytes);
      CoverIsFound(grants[1..], now, bytes);
      var rest := Unexpired(grants[1..], now);
      assert ([grants[0]] + rest)[1..] == rest;
    }
  }

  /** A capped reservation is admitted exactly when one live grant covers it
      alone, and asks for more exactly when it was refused or a quarter of a
      request or less is left; the saturating fold never hides either. */
  lemma CappedDecision(l: Ledger, k: MappingKey, grants: seq<Grant>, bytes: nat, now: nat, requested: nat)
    requires requested <= U64_MAX
    ensures var v := ReserveCapped(l, k, grants, bytes, now, requested);
      && (v.admitted <==> Covered(grants, now, bytes))
      && (v.ask <==> !v.admitted || Remaining(v.ledger.states[k].grants) <= requested / 4)
  {
    CoverIsFound(grants, now, bytes);
    DrainSplits(Paid(grants, bytes, now), Room(l), 0, Truth(None, 0, 0));
    SaturatingTotalIsMin(Paid(grants, bytes, now), 0);
  }

  // ---- The closing snapshot ----

  lemma {:induction false} GatherCounts(states: States, order: seq<MappingKey>, x: nat, t: Truth, handed: nat)
    requires Held(states, x, t, handed)
    requires forall i, j :: 0 <= i < j < |order| ==> order[i] != order[j]
    ensures CountReturned(Gather(states, order), x)
         <= if t.home.Some? && t.home.value in order then Count(GrantsAt(states, t.home.value), x) else 0
    ensures ReturnsFit(Gather(states, order), x, t)
    decreases |order|
  {
    if order == [] {
    } else {
      var front, last := order[..|order| - 1], order[|order| - 1];
      GatherCounts(states, front, x, t, handed);
      ReturnsCount(GrantsAt(states, last), x, t);
      CountReturnedAppend(Gather(states, front), Returns(GrantsAt(states, last)), x);
      assert Fits(GrantsAt(states, last), x, t) && (Count(GrantsAt(states, last), x) > 0 ==> t.home == Some(last));
      assert last !in front;
    }
  }

  lemma GatherKeeps(states: States, j: seq<Entry>, order: seq<MappingKey>, x: nat)
    requires GrantInv(states, j, x) && Lists(order, states.Keys)
    ensures GrantInv(map[], j + HandedEntries(Gather(states, order)), x)
  {
    var ss, t := Gather(states, order), TruthOf(j, x);
    GatherCounts(states, order, x, t, Tally(j, HandedTo(x)));
    assert forall k :: GrantsAt(map[], k) == [];
    HandKeeps(states, map[], j, ss, x);
  }

  lemma SnapshotKeeps(states: States, j: seq<Entry>, order: seq<MappingKey>, x: nat)
    requires GrantInv(states, j, x) && Lists(order, states.Keys)
    ensures GrantInv(map[], j + HandedEntries(Gather(states, order)) + [Gathered], x)
  {
    GatherKeeps(states, j, order, x);
    NeutralKeeps(map[], j + HandedEntries(Gather(states, order)), Gathered, x);
  }

  lemma SnapshotKeepsKey(states: States, j: seq<Entry>, order: seq<MappingKey>, k: MappingKey)
    requires KeyInv(states, j, k)
    ensures KeyInv(map[], j + HandedEntries(Gather(states, order)) + [Gathered], k)
  {
    var mid := j + HandedEntries(Gather(states, order));
    HandedTallies(j, Gather(states, order), 0, SpentFor(k));
    HandedTallies(j, Gather(states, order), 0, InstalledFor(k));
    TallyGrows(mid, Gathered, SpentFor(k));
    TallyGrows(mid, Gathered, InstalledFor(k));
  }

  // ---- Installation ----

  lemma InstallUncappedKeeps(l: Ledger, j: seq<Entry>, k: MappingKey, validUntil: nat, x: nat, o: MappingKey)
    requires GrantInv(l.states, j, x) && KeyInv(l.states, j, o)
    ensures GrantInv(InstallUncapped(l, k, validUntil).states, j, x)
    ensures KeyInv(InstallUncapped(l, k, validUntil).states, j, o)
  {
    GrantsAtUpdate(l.states, k, Uncapped(validUntil));
    forall p ensures
      && Count(GrantsAt(l.states[k := Uncapped(validUntil)], p), x) <= Count(GrantsAt(l.states, p), x)
      && Fits(GrantsAt(l.states[k := Uncapped(validUntil)], p), x, TruthOf(j, x))
    {
      assert Fits(GrantsAt(l.states, p), x, TruthOf(j, x));
    }
    ShrinkKeeps(l.states, l.states[k := Uncapped(validUntil)], j, x);
  }

  lemma InstallGrantKeeps(l: Ledger, j: seq<Entry>, g: Grant, now: nat, x: nat, o: MappingKey)
    requires GrantInv(l.states, j, x) && KeyInv(l.states, j, o) && g.consumed == 0 && Home(j, g.id).None?
    ensures var after := j + (if g.validUntil > now then [Installed(g)] else []);
      GrantInv(InstallGrant(l, g, now).states, after, x) && KeyInv(InstallGrant(l, g, now).states, after, o)
  {
    var grants := GrantsAt(l.states, g.key);
    if g.validUntil > now {
      InstallKeeps(l.states, j, g, x);
      GrantsAtUpdate(l.states, g.key, Capped(grants + [g]));
      PushCounts(grants, g, x);
      TallyGrows(j, Installed(g), SpentFor(o));
      TallyGrows(j, Installed(g), InstalledFor(o));
    } else {
      GrantsAtUpdate(l.states, g.key, Capped(grants));
      assert forall p :: GrantsAt(l.states[g.key := Capped(grants)], p) == GrantsAt(l.states, p);
      ShrinkKeeps(l.states, l.states[g.key := Capped(grants)], j, x);
      assert j + [] == j;
    }
  }

  // ---- Runs ----

  ghost predicate Safe(r: Run, x: nat, k: MappingKey) {
    GrantInv(r.ledger.states, r.journal, x) && KeyInv(r.ledger.states, r.journal, k)
  }

  lemma StepKeepsSafe(r: Run, e: Event, requested: nat, x: nat, k: MappingKey)
    requires Enabled(r, e, requested) && Safe(r, x, k)
    ensures Safe(Step(r, e, requested), x, k)
  {
    match e
    case Reserves(m, bytes, now) =>
      ReserveKeeps(r, m, bytes, now, requested, x);
      ReserveKeepsKey(r, m, bytes, now, requested, k);
    case InstallsUncapped(i, validUntil) =>
      InstallUncappedKeeps(r.ledger, r.journal, KeyOf(r.workers[i].mapping), validUntil, x, k);
    case InstallsGrant(i, id, bytes, validUntil, now) =>
      InstallGrantKeeps(r.ledger, r.journal, FreshGrant(id, KeyOf(r.workers[i].mapping), bytes, validUntil), now, x, k);
    case Gathers(order) =>
      SnapshotKeeps(r.ledger.states, r.journal, order, x);
      SnapshotKeepsKey(r.ledger.states, r.journal, order, k);
    case _ =>
  }

  lemma {:induction false} RunsKeepSafe(events: seq<Event>, requested: nat, x: nat, k: MappingKey)
    ensures Safe(After(events, requested), x, k)
  {
    if events == [] {
    } else {
      var r, e := After(events[..|events| - 1], requested), events[|events| - 1];
      RunsKeepSafe(events[..|events| - 1], requested, x, k);
      if Enabled(r, e, requested) {
        StepKeepsSafe(r, e, requested, x, k);
      }
    }
  }

  /** A grant in any list, in any reachable state: what is left and what is
      consumed add up to what was granted, and what is consumed is exactly what
      was admitted against it. */
  lemma GrantsConserve(events: seq<Event>, requested: nat, k: MappingKey, i: nat)
    requires i < |GrantsAt(After(events, requested).ledger.states, k)|
    ensures var r := After(events, requested);
      var g := GrantsAt(r.ledger.states, k)[i];
      && g.key == k
      && g.remaining + g.consumed == Tally(r.journal, GrantedTo(g.id))
      && g.consumed == Tally(r.journal, SpentOn(g.id))
  {
    var r := After(events, requested);
    var g := GrantsAt(r.ledger.states, k)[i];
    RunsKeepSafe(events, requested, g.id, k);
    CountAt(GrantsAt(r.ledger.states, k), i, g.id);
    assert FitsOne(g, g.id, TruthOf(r.journal, g.id));
  }

  /** Each grant is handed back at most once, with exactly the bytes admitted
      against it in the whole run, and never more bytes than it was worth. */
  lemma HandedOnce(events: seq<Event>, requested: nat, x: nat)
    ensures var j := After(events, requested).journal;
      && Tally(j, HandedTo(x)) <= 1
      && Tally(j, SpentOn(x)) <= Tally(j, GrantedTo(x))
      && (forall i :: 0 <= i < |j| && j[i].Handed? && j[i].s.id == x ==>
            j[i].s.consumed == Tally(j, SpentOn(x)) && Some(j[i].s.key) == Home(j, x))
  {
    RunsKeepSafe(events, requested, x, MappingKey([], []));
    var j := After(events, requested).journal;
    assert forall i :: 0 <= i < |j| && j[i].Handed? ==> ReturnFits(j[i].s, x, TruthOf(j, x));
  }

  /** Bytes admitted under a cap never exceed the bytes installed. */
  lemma CapHolds(events: seq<Event>, requested: nat, k: MappingKey)
    ensures var j := After(events, requested).journal; Tally(j, SpentFor(k)) <= Tally(j, InstalledFor(k))
  {
    RunsKeepSafe(events, requested, 0, k);
  }

  // ---- Nothing is admitted after the snapshot ----

  predicate Quiet(r: Run) {
    && (forall i :: 0 <= i < |r.journal| && r.journal[i].Gathered? ==> r.ledger.closing)
    && (forall i, j :: 0 <= i < j < |r.journal| && r.journal[i].Gathered? ==> !r.journal[j].Admitted?)
  }

  lemma {:induction false} HandedEntriesAre(ss: seq<Surrender>)
    ensures forall i :: 0 <= i < |HandedEntries(ss)| ==> HandedEntries(ss)[i].Handed?
  {
    if ss == [] {
    } else {
      HandedEntriesAre(ss[..|ss| - 1]);
    }
  }

  lemma ReserveKeepsQuiet(r: Run, m: UsageMapping, bytes: nat, now: nat, requested: nat)
    requires Quiet(r)
    ensures Quiet(ReserveStep(r, m, bytes, now, requested))
  {
    if bytes > 0 {
      var v := Reserve(r.ledger, KeyOf(m), bytes, now, requested);
      HandedEntriesAre(v.ledger.surrenders[|r.ledger.surrenders|..]);
      assert v.ledger.closing == r.ledger.closing && (v.admitted ==> !v.ledger.closing);
    }
  }

  lemma StepKeepsQuiet(r: Run, e: Event, requested: nat)
    requires Enabled(r, e, requested) && Quiet(r)
    ensures Quiet(Step(r, e, requested))
  {
    match e
    case Reserves(m, bytes, now) => ReserveKeepsQuiet(r, m, bytes, now, requested);
    case Gathers(order) => HandedEntriesAre(Gather(r.ledger.states, order));
    case _ =>
  }

  lemma {:induction false} RunsKeepQuiet(events: seq<Event>, requested: nat)
    ensures Quiet(After(events, requested))
  {
    if events == [] {
    } else {
      var r, e := After(events[..|events| - 1], requested), events[|events| - 1];
      RunsKeepQuiet(events[..|events| - 1], requested);
      if Enabled(r, e, requested) {
        StepKeepsQuiet(r, e, requested);
      }
    }
  }

  /** No byte is admitted after the closing snapshot. */
  lemma NothingAfterSnapshot(events: seq<Event>, requested: nat, i: nat, j: nat)
    requires i < j < |After(events, requested).journal| && After(events, requested).journal[i].Gathered?
    ensures !After(events, requested).journal[j].Admitted?
  {
    RunsKeepQuiet(events, requested);
  }
}

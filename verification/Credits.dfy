/** Local byte credits: grants from the control plane, spent on the packet path
    and handed back when they run out or the relay shuts down. */
module Credits {
  import opened Common
  import opened Frames

  const REFRESH_BEFORE: nat := 5_000_000_000  // nanoseconds
  const MAX_OUTSTANDING_MAPPINGS: nat := 4096
  const CHANNEL: nat := 1024

  /** Allowances are kept per deployment and version; the aquifer is ignored. */
  datatype MappingKey = MappingKey(deployment: seq<Byte>, version: seq<Byte>)

  function KeyOf(m: UsageMapping): MappingKey { MappingKey(m.deployment, m.version) }

  datatype Grant = Grant(id: nat, key: MappingKey, remaining: nat, consumed: nat, validUntil: nat)

  datatype Allowance = Uncapped(validUntil: nat) | Capped(grants: seq<Grant>)

  datatype Surrender = Surrender(id: nat, key: MappingKey, consumed: nat)

  function Return(g: Grant): Surrender { Surrender(g.id, g.key, g.consumed) }

  /** What the controller's locks, flag and channels hold. */
  datatype Ledger = Ledger(
    states: map<MappingKey, Allowance>,
    pending: set<MappingKey>,
    closing: bool,
    requests: seq<UsageMapping>,
    surrenders: seq<Surrender>,
    receiving: bool)             // the worker still holds both receivers

  function GrantsAt(states: map<MappingKey, Allowance>, k: MappingKey): seq<Grant> {
    if k in states && states[k].Capped? then states[k].grants else []
  }

  // ---- Lists of grants ----

  function Unexpired(grants: seq<Grant>, now: nat): seq<Grant> {
    if grants == [] then []
    else if grants[0].validUntil > now then [grants[0]] + Unexpired(grants[1..], now)
    else Unexpired(grants[1..], now)
  }

  /** Index of the first grant that can pay, or the length if none can. */
  function FirstAtLeast(grants: seq<Grant>, bytes: nat): (i: nat)
    ensures i <= |grants|
    ensures i < |grants| ==> grants[i].remaining >= bytes
  {
    if grants == [] || grants[0].remaining >= bytes then 0 else 1 + FirstAtLeast(grants[1..], bytes)
  }

  function FirstSpent(grants: seq<Grant>): (i: nat)
    ensures i <= |grants|
    ensures i < |grants| ==> grants[i].remaining == 0
  {
    if grants == [] || grants[0].remaining == 0 then 0 else 1 + FirstSpent(grants[1..])
  }

  function Pay(grants: seq<Grant>, i: nat, bytes: nat): seq<Grant>
    requires i < |grants| && grants[i].remaining >= bytes
  {
    grants[i := grants[i].(remaining := grants[i].remaining - bytes, consumed := grants[i].consumed + bytes)]
  }

  /** The saturating fold over what is left. */
  function SaturatingTotal(grants: seq<Grant>, acc: nat): nat {
    if grants == [] then acc else SaturatingTotal(grants[1..], Min(acc + grants[0].remaining, U64_MAX))
  }

  function Remaining(grants: seq<Grant>): nat {
    if grants == [] then 0 else grants[0].remaining + Remaining(grants[1..])
  }

  lemma {:induction false} SaturatingTotalIsMin(grants: seq<Grant>, acc: nat)
    requires acc <= U64_MAX
    ensures SaturatingTotal(grants, acc) == Min(acc + Remaining(grants), U64_MAX)
    decreases |grants|
  {
    if grants == [] {
    } else {
      SaturatingTotalIsMin(grants[1..], Min(acc + grants[0].remaining, U64_MAX));
    }
  }

  /** The exhausted grants that the surrender channel has room for, in order,
      and the list without them. */
  function Spent(grants: seq<Grant>, room: nat): seq<Grant> {
    if grants == [] || room == 0 then []
    else if grants[0].remaining == 0 then [grants[0]] + Spent(grants[1..], room - 1)
    else Spent(grants[1..], room)
  }

  function Kept(grants: seq<Grant>, room: nat): seq<Grant> {
    if grants == [] || room == 0 then grants
    else if grants[0].remaining == 0 then Kept(grants[1..], room - 1)
    else [grants[0]] + Kept(grants[1..], room)
  }

  function Returns(grants: seq<Grant>): seq<Surrender> {
    if grants == [] then [] else [Return(grants[0])] + Returns(grants[1..])
  }

  /** Taking out the first exhausted grant is one step of the single pass. */
  lemma {:induction false} RemoveFirstSpent(grants: seq<Grant>, room: nat)
    requires FirstSpent(grants) < |grants| && room > 0
    ensures var i := FirstSpent(grants);
      var without := grants[..i] + grants[i + 1..];
      && Kept(grants, room) == Kept(without, room - 1)
      && Spent(grants, room) == [grants[i]] + Spent(without, room - 1)
    decreases |grants|
  {
    var i := FirstSpent(grants);
    var without := grants[..i] + grants[i + 1..];
    if i == 0 {
      assert without == grants[1..];
    } else {
      var rest := grants[1..];
      RemoveFirstSpent(rest, room);
      assert without[1..] == rest[..i - 1] + rest[i..] && without[0] == grants[0];
      if room == 1 {
        KeptNothing(rest[..i - 1] + rest[i..], without);
      }
    }
  }

  lemma KeptNothing(tail: seq<Grant>, whole: seq<Grant>)
    requires whole != [] && whole[1..] == tail
    ensures Kept(whole, 0) == [whole[0]] + Kept(tail, 0) && Spent(whole, 0) == []
  {
  }

  lemma {:induction false} NothingSpent(grants: seq<Grant>, room: nat)
    requires FirstSpent(grants) == |grants|
    ensures Kept(grants, room) == grants && Spent(grants, room) == []
  {
    if grants == [] {
    } else {
      NothingSpent(grants[1..], room);
      assert [grants[0]] + grants[1..] == grants;
    }
  }

  // ---- Operations ----

  /** Places left in a channel. */
  function Places(receiving: bool, queued: nat): nat {
    if receiving && queued < CHANNEL then CHANNEL - queued else 0
  }

  function Room(l: Ledger): nat { Places(l.receiving, |l.surrenders|) }

  /** What a reservation comes to: the new ledger, the verdict, whether to ask
      the control plane for more, and the grant that paid. */
  datatype Verdict = Verdict(ledger: Ledger, admitted: bool, ask: bool, against: Option<nat>)

  function ReserveCapped(l: Ledger, k: MappingKey, grants: seq<Grant>, bytes: nat, now: nat, requested: nat): Verdict {
    var live := Unexpired(grants, now);
    var i := FirstAtLeast(live, bytes);
    var paid := if i < |live| then Pay(live, i, bytes) else live;
    var refresh := SaturatingTotal(paid, 0) <= requested / 4;
    Verdict(l.(states := l.states[k := Capped(Kept(paid, Room(l)))],
               surrenders := l.surrenders + Returns(Spent(paid, Room(l)))),
            i < |live|, refresh || i == |live|, if i < |live| then Some(live[i].id) else None)
  }

  /** The part of a reservation under the lock. */
  function Reserve(l: Ledger, k: MappingKey, bytes: nat, now: nat, requested: nat): Verdict {
    if l.closing then Verdict(l, false, false, None)
    else if k in l.states && l.states[k].Uncapped? && l.states[k].validUntil > now then
      Verdict(l, true, l.states[k].validUntil - now <= REFRESH_BEFORE, None)
    else if k in l.states && l.states[k].Capped? then
      ReserveCapped(l, k, l.states[k].grants, bytes, now, requested)
    else Verdict(l.(states := l.states - {k}), false, true, None)
  }

  function Enqueue(l: Ledger, m: UsageMapping): Ledger {
    if KeyOf(m) in l.pending || |l.pending| >= MAX_OUTSTANDING_MAPPINGS then l
    else if l.receiving && |l.requests| < CHANNEL then
      l.(pending := l.pending + {KeyOf(m)}, requests := l.requests + [m])
    else l
  }

  function Finish(l: Ledger, k: MappingKey): Ledger { l.(pending := l.pending - {k}) }

  function InstallUncapped(l: Ledger, k: MappingKey, validUntil: nat): Ledger {
    l.(states := l.states[k := Uncapped(validUntil)])
  }

  /** A fresh grant for a mapping, as parsed from the control plane's answer. */
  function FreshGrant(id: nat, k: MappingKey, bytes: nat, validUntil: nat): Grant { Grant(id, k, bytes, 0, validUntil) }

  function InstallGrant(l: Ledger, g: Grant, now: nat): Ledger {
    var grants := GrantsAt(l.states, g.key);
    l.(states := l.states[g.key := Capped(if g.validUntil > now then grants + [g] else grants)])
  }

  /** Everything still held, list by list. */
  function Gather(states: map<MappingKey, Allowance>, order: seq<MappingKey>): seq<Surrender> {
    if order == [] then []
    else Gather(states, order[..|order| - 1]) + Returns(GrantsAt(states, order[|order| - 1]))
  }

  function Snapshot(l: Ledger): Ledger { l.(states := map[]) }
}

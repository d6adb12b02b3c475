/** The controller as the relay runs it. */
module CreditObject {
  import opened Common
  import opened Frames
  import opened Credits

  method TrySend(channel: seq<Surrender>, receiving: bool, s: Surrender) returns (after: seq<Surrender>, ok: bool)
    ensures ok <==> Places(receiving, |channel|) > 0
    ensures after == if ok then channel + [s] else channel
  {
    ok := receiving && |channel| < CHANNEL;
    after := if ok then channel + [s] else channel;
  }

  /** Take the first exhausted grant out and send it, or put it back. */
  method SendFirst(whole: seq<Grant>, channel: seq<Surrender>, receiving: bool)
    returns (grants: seq<Grant>, sent: seq<Surrender>, ok: bool)
    requires FirstSpent(whole) < |whole|
    ensures ok <==> Places(receiving, |channel|) > 0
    ensures var i := FirstSpent(whole);
      if ok then grants == whole[..i] + whole[i + 1..] && sent == channel + [Return(whole[i])]
      else grants == whole && sent == channel
  {
    var index := FirstSpent(whole);
    var grant := whole[index];
    grants := whole[..index] + whole[index + 1..];
    sent, ok := TrySend(channel, receiving, Return(grant));
    if !ok {
      grants := grants[..index] + [grant] + grants[index..];
    }
  }

  /** The loop that looks for an exhausted grant and sends it, until there is
      none or the channel is full or closed. */
  method DrainSpent(start: seq<Grant>, channel: seq<Surrender>, receiving: bool)
    returns (grants: seq<Grant>, sent: seq<Surrender>)
    ensures grants == Kept(start, Places(receiving, |channel|))
    ensures sent == channel + Returns(Credits.Spent(start, Places(receiving, |channel|)))
  {
    ghost var total, out: seq<Grant> := Places(receiving, |channel|), [];
    grants, sent := start, channel;
    while FirstSpent(grants) < |grants|
      invariant Drained(start, total, out, grants, Places(receiving, |sent|))
      invariant sent == channel + Returns(out)
      decreases |grants|
    {
      ghost var whole, room := grants, Places(receiving, |sent|);
      var ok;
      grants, sent, ok := SendFirst(grants, sent, receiving);
      if !ok {
        RanOutOfRoom(start, total, out, grants);
        return;
      }
      SentOne(start, total, whole, room, out, channel);
      out := out + [whole[FirstSpent(whole)]];
    }
    Exhausted(start, total, out, grants, Places(receiving, |sent|));
  }

  class Controller {
    const requestedBytes: nat
    var states: map<MappingKey, Allowance>
    var pending: set<MappingKey>
    var closing: bool
    var requests: seq<UsageMapping>
    var surrenders: seq<Surrender>
    var receiving: bool

    function Value(): Ledger
      reads this
    {
      Ledger(states, pending, closing, requests, surrenders, receiving)
    }

    constructor (requested: nat)
      ensures requestedBytes == requested
      ensures Value() == Ledger(map[], {}, false, [], [], true)
    {
      requestedBytes := requested;
      states, pending, closing, requests, surrenders, receiving := map[], {}, false, [], [], true;
    }

    /** Non-blocking sends fail when the channel is full or its receiver gone. */
    method TrySendRequest(m: UsageMapping) returns (ok: bool)
      modifies this`requests
      ensures ok <==> receiving && |old(requests)| < CHANNEL
      ensures requests == if ok then old(requests) + [m] else old(requests)
    {
      ok := receiving && |requests| < CHANNEL;
      if ok {
        requests := requests + [m];
      }
    }

    method Enqueue(m: UsageMapping)
      modifies this`pending, this`requests
      ensures Value() == Credits.Enqueue(old(Value()), m)
    {
      var k := KeyOf(m);
      if k in pending || |pending| >= MAX_OUTSTANDING_MAPPINGS {
        return;
      }
      pending := pending + {k};
      var ok := TrySendRequest(m);
      if !ok {
        pending := pending - {k};
        assert old(pending) + {k} - {k} == old(pending);
      }
    }

    method FinishRequest(m: UsageMapping)
      modifies this`pending
      ensures Value() == Finish(old(Value()), KeyOf(m))
    {
      pending := pending - {KeyOf(m)};
    }

    method InstallUncapped(m: UsageMapping, validUntil: nat)
      modifies this`states, this`pending
      ensures Value() == Finish(Credits.InstallUncapped(old(Value()), KeyOf(m), validUntil), KeyOf(m))
    {
      states := states[KeyOf(m) := Uncapped(validUntil)];
      FinishRequest(m);
    }

    method InstallGrant(m: UsageMapping, validUntil: nat, id: nat, bytes: nat, now: nat)
      modifies this`states, this`pending
      ensures Value() == Finish(
        Credits.InstallGrant(old(Value()), FreshGrant(id, KeyOf(m), bytes, validUntil), now), KeyOf(m))
    {
      var k := KeyOf(m);
      var grants: seq<Grant> := [];
      if k in states && states[k].Capped? {
        grants := states[k].grants;
      }
      states := states - {k};
      if validUntil > now {
        grants := grants + [Grant(id, k, bytes, 0, validUntil)];
      }
      states := states[k := Capped(grants)];
      assert states == old(states)[k := Capped(grants)];
      FinishRequest(m);
    }

    /** Hand exhausted grants to the worker while its channel takes them. */
    method SurrenderSpent(start: seq<Grant>) returns (grants: seq<Grant>)
      modifies this`surrenders
      ensures grants == Kept(start, Room(old(Value())))
      ensures surrenders == old(surrenders) + Returns(Credits.Spent(start, Room(old(Value()))))
    {
      var sent;
      grants, sent := DrainSpent(start, surrenders, receiving);
      surrenders := sent;
    }

    /** `reserve`: the region under the lock, then a request for more. */
    method Reserve(m: UsageMapping, bytes: nat, now: nat) returns (admitted: bool)
      modifies this
      ensures bytes == 0 ==> admitted && Value() == old(Value())
      ensures bytes > 0 ==>
        var v := Credits.Reserve(old(Value()), KeyOf(m), bytes, now, requestedBytes);
        admitted == v.admitted && Value() == if v.ask then Credits.Enqueue(v.ledger, m) else v.ledger
    {
      if bytes == 0 {
        return true;
      }
      var k := KeyOf(m);
      if closing {
        return false;
      }
      var refresh := false;
      if k in states && states[k].Uncapped? && states[k].validUntil > now {
        refresh := states[k].validUntil - now <= REFRESH_BEFORE;
        admitted := true;
      } else if k in states && states[k].Capped? {
        var grants := Unexpired(states[k].grants, now);
        var i := FirstAtLeast(grants, bytes);
        admitted := i < |grants|;
        if admitted {
          grants := grants[i := grants[i].(remaining := grants[i].remaining - bytes,
                                           consumed := grants[i].consumed + bytes)];
        }
        var available := SaturatingTotal(grants, 0);
        grants := SurrenderSpent(grants);
        states := states[k := Capped(grants)];
        refresh := available <= requestedBytes / 4;
      } else {
        states := states - {k};
        admitted := false;
      }
      if refresh || !admitted {
        Enqueue(m);
      }
    }

    /** Close the gate, then take everything, in the hash table's order. */
    method TakeSurrenderable() returns (taken: seq<Surrender>, order: seq<MappingKey>)
      modifies this`closing, this`states
      ensures Value() == Snapshot(old(Value()).(closing := true))
      ensures Lists(order, old(states).Keys) && taken == Gather(old(states), order)
    {
      closing := true;
      var all := states;
      states := map[];
      order := Enumerate(all.Keys);
      taken := [];
      for i := 0 to |order|
        invariant taken == Gather(all, order[..i])
      {
        assert order[..i + 1][..i] == order[..i];
        taken := taken + Returns(GrantsAt(all, order[i]));
      }
      assert order[..|order|] == order;
    }
  }

  /** A stage of the single pass: what is out, and what is still to go through. */
  ghost predicate Drained(start: seq<Grant>, total: nat, out: seq<Grant>, grants: seq<Grant>, room: nat) {
    Kept(start, total) == Kept(grants, room) && Credits.Spent(start, total) == out + Credits.Spent(grants, room)
  }

  lemma {:induction false} ReturnsGrow(a: seq<Grant>, g: Grant)
    ensures Returns(a + [g]) == Returns(a) + [Return(g)]
  {
    if a == [] {
      assert a + [g] == [g] && [g][1..] == [] && Returns([g][1..]) == [];
    } else {
      ReturnsGrow(a[1..], g);
      assert (a + [g])[1..] == a[1..] + [g] && (a + [g])[0] == a[0];
      Assoc([Return(a[0])], Returns(a[1..]), [Return(g)]);
    }
  }

  lemma RanOutOfRoom(start: seq<Grant>, total: nat, out: seq<Grant>, grants: seq<Grant>)
    requires Drained(start, total, out, grants, 0)
    ensures grants == Kept(start, total) && out == Credits.Spent(start, total)
  {
    assert Kept(grants, 0) == grants && out + Credits.Spent(grants, 0) == out;
  }

  lemma Exhausted(start: seq<Grant>, total: nat, out: seq<Grant>, grants: seq<Grant>, room: nat)
    requires Drained(start, total, out, grants, room) && FirstSpent(grants) == |grants|
    ensures grants == Kept(start, total) && out == Credits.Spent(start, total)
  {
    NothingSpent(grants, room);
    assert out + [] == out;
  }

  lemma SentOne(start: seq<Grant>, total: nat, grants: seq<Grant>, room: nat, out: seq<Grant>, channel: seq<Surrender>)
    requires FirstSpent(grants) < |grants| && room > 0
    requires Drained(start, total, out, grants, room)
    ensures var i := FirstSpent(grants);
      && Drained(start, total, out + [grants[i]], grants[..i] + grants[i + 1..], room - 1)
      && channel + Returns(out) + [Return(grants[i])] == channel + Returns(out + [grants[i]])
  {
    var i := FirstSpent(grants);
    RemoveFirstSpent(grants, room);
    Assoc(out, [grants[i]], Credits.Spent(grants[..i] + grants[i + 1..], room - 1));
    ReturnsGrow(out, grants[i]);
    Assoc(channel, Returns(out), [Return(grants[i])]);
  }
}

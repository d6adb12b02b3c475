/** Ownership of ids, and the counters an operator reads. */
module HubLedger {
  import opened Common
  import opened Frames
  import opened Lanes
  import opened HubModel
  import opened HubRuns
  import opened HubInvariants
  import opened Sums

  // ---- Newest wins ----

  /** A table entry is the last admission for that party, while it is registered. */
  predicate Owns(table: map<Id, ConnId>, id: Id, last: Option<ConnId>, registered: set<ConnId>) {
    if id in table then last == Some(table[id]) else last.Some? ==> last.value !in registered
  }

  function NodeOf(n: Id): Admitted { Client(n, "") }

  ghost predicate OwnersOk(t: Traced) {
    && (forall n: Id :: Owns(t.hub.byNode, n, LastFor(t.journal, NodeOf(n)), t.hub.conns.Keys))
    && (forall r: Id :: Owns(t.hub.byMesh, r, LastFor(t.journal, Mesh(r)), t.hub.conns.Keys))
  }

  lemma {:induction false} LastForJoined(journal: seq<Entry>, who: Admitted)
    ensures LastFor(journal, who).Some? ==> LastFor(journal, who).value in EverJoined(journal)
  {
    if journal == [] {
    } else {
      LastForJoined(journal[..|journal| - 1], who);
    }
  }

  lemma {:induction false} LastForUnmoved(journal: seq<Entry>, more: seq<Entry>, who: Admitted)
    requires forall i :: 0 <= i < |more| ==> !more[i].Joined?
    ensures LastFor(journal + more, who) == LastFor(journal, who)
  {
    if more == [] {
      assert journal + more == journal;
    } else {
      LastForUnmoved(journal, more[..|more| - 1], who);
      assert (journal + more)[..|journal + more| - 1] == journal + more[..|more| - 1];
    }
  }

  lemma {:induction false} ActAllOnlyQueues(t: Traced, effects: seq<Effect>)
    requires t.hub.cfg.queueDepth > 0
    ensures |t.journal| <= |ActAll(t, effects).journal|
    ensures ActAll(t, effects).journal[..|t.journal|] == t.journal
    ensures forall i :: |t.journal| <= i < |ActAll(t, effects).journal| ==> ActAll(t, effects).journal[i].Did?
  {
    if effects == [] {
    } else {
      ActAllOnlyQueues(t, effects[..|effects| - 1]);
    }
  }

  lemma ActAllKeepsOwners(t: Traced, effects: seq<Effect>)
    requires t.hub.cfg.queueDepth > 0 && OwnersOk(t)
    ensures OwnersOk(ActAll(t, effects))
  {
    var a := ActAll(t, effects);
    PerformKeepsRegistry(t.hub, effects);
    ActAllOnlyQueues(t, effects);
    var more := a.journal[|t.journal|..];
    assert a.journal == t.journal + more;
    forall who ensures LastFor(a.journal, who) == LastFor(t.journal, who) {
      LastForUnmoved(t.journal, more, who);
    }
  }

  lemma QuietKeepsOwners(t: Traced, g: Hub, notes: seq<Entry>)
    requires OwnersOk(t) && SameLanes(t.hub, g) && Quiet(notes)
    ensures OwnersOk(Traced(g, t.journal + notes))
  {
    forall who ensures LastFor(t.journal + notes, who) == LastFor(t.journal, who) {
      LastForUnmoved(t.journal, notes, who);
    }
  }

  lemma RegisterKeepsOwners(t: Traced, id: ConnId, peer: Admitted, nowMs: nat)
    requires Core(t) && OwnersOk(t) && id !in EverJoined(t.journal)
    ensures OwnersOk(Traced(Register(t.hub, id, peer, nowMs), t.journal + [Joined(id, peer)]))
  {
    var u := Traced(Register(t.hub, id, peer, nowMs), t.journal + [Joined(id, peer)]);
    assert u.journal[..|t.journal|] == t.journal;
    forall n: Id ensures Owns(u.hub.byNode, n, LastFor(u.journal, NodeOf(n)), u.hub.conns.Keys) {
      LastForJoined(t.journal, NodeOf(n));
      assert Owns(t.hub.byNode, n, LastFor(t.journal, NodeOf(n)), t.hub.conns.Keys);
    }
    forall r: Id ensures Owns(u.hub.byMesh, r, LastFor(u.journal, Mesh(r)), u.hub.conns.Keys) {
      LastForJoined(t.journal, Mesh(r));
      assert Owns(t.hub.byMesh, r, LastFor(t.journal, Mesh(r)), t.hub.conns.Keys);
    }
  }

  /** A table loses an entry only with the connection that owned it. */
  lemma OwnsAfterLeaving(table: map<Id, ConnId>, after: map<Id, ConnId>, n: Id, last: Option<ConnId>,
                         registered: set<ConnId>, gone: ConnId)
    requires Owns(table, n, last, registered)
    requires n in after <==> n in table && table[n] != gone
    requires n in after ==> after[n] == table[n]
    ensures Owns(after, n, last, registered - {gone})
  {
  }

  ghost predicate Loses(table: map<Id, ConnId>, after: map<Id, ConnId>, gone: ConnId) {
    forall n :: (n in after <==> n in table && table[n] != gone) && (n in after ==> after[n] == table[n])
  }

  lemma DeregisterNodes(h: Hub, id: ConnId)
    requires Wired(h) && id in h.conns
    ensures Loses(h.byNode, Deregister(h, id).byNode, id)
  {
  }

  lemma DeregisterRelays(h: Hub, id: ConnId)
    requires Wired(h) && id in h.conns
    ensures Loses(h.byMesh, Deregister(h, id).byMesh, id)
  {
  }

  lemma DeregisterKeepsOwners(t: Traced, id: ConnId)
    requires Wired(t.hub) && OwnersOk(t) && id in t.hub.conns
    ensures OwnersOk(Traced(Deregister(t.hub, id), t.journal))
  {
    var h, g := t.hub, Deregister(t.hub, id);
    DeregisterNodes(h, id);
    DeregisterRelays(h, id);
    assert g.conns.Keys == h.conns.Keys - {id};
    forall n: Id ensures Owns(g.byNode, n, LastFor(t.journal, NodeOf(n)), g.conns.Keys) {
      OwnsAfterLeaving(h.byNode, g.byNode, n, LastFor(t.journal, NodeOf(n)), h.conns.Keys, id);
    }
    forall r: Id ensures Owns(g.byMesh, r, LastFor(t.journal, Mesh(r)), g.conns.Keys) {
      OwnsAfterLeaving(h.byMesh, g.byMesh, r, LastFor(t.journal, Mesh(r)), h.conns.Keys, id);
    }
  }

  lemma StepKeepsOwners(t: Traced, e: Event)
    requires Core(t) && Possible(t, e) && OwnersOk(t)
    ensures OwnersOk(Step(t, e))
  {
    match e {
      case Joins(id, peer, nowMs, _, _) => RegisterKeepsOwners(t, id, peer, nowMs);
      case Leaves(id, _) =>
        assert t.journal + [] == t.journal;
        if id in t.hub.conns {
          DeregisterKeepsOwners(t, id);
        }
      case _ =>
        SettledKeepsLanes(t.hub, e);
        SettledNotesAreQuiet(t.hub, e);
        QuietKeepsOwners(t, PlanOf(t.hub, e).hub, Notes(t.hub, e));
    }
    ActAllKeepsOwners(Begin(t, e), PlanOf(t.hub, e).effects);
  }

  lemma {:induction false} RunsKeepOwners(cfg: Config, events: seq<Event>)
    requires cfg.queueDepth > 0 && Feasible(cfg, events)
    ensures Core(After(cfg, events)) && OwnersOk(After(cfg, events))
  {
    if events == [] {
    } else {
      var front, last := events[..|events| - 1], events[|events| - 1];
      RunsKeepOwners(cfg, front);
      StepKeepsCore(After(cfg, front), last);
      StepKeepsOwners(After(cfg, front), last);
    }
  }

  /** Newest wins: over every run with fresh ids, a node is owned by exactly
      the last connection admitted for it, as long as that one is registered;
      and likewise for relays. */
  lemma NewestWins(cfg: Config, events: seq<Event>, id: Id, c: ConnId)
    requires cfg.queueDepth > 0 && Feasible(cfg, events)
    ensures var t := After(cfg, events);
      && ((id in t.hub.byNode && t.hub.byNode[id] == c) <==>
          (LastFor(t.journal, NodeOf(id)) == Some(c) && c in t.hub.conns))
      && ((id in t.hub.byMesh && t.hub.byMesh[id] == c) <==>
          (LastFor(t.journal, Mesh(id)) == Some(c) && c in t.hub.conns))
  {
    RunsKeepOwners(cfg, events);
    var t := After(cfg, events);
    assert Owns(t.hub.byNode, id, LastFor(t.journal, NodeOf(id)), t.hub.conns.Keys);
    assert Owns(t.hub.byMesh, id, LastFor(t.journal, Mesh(id)), t.hub.conns.Keys);
  }

  /** Disconnecting reports a node exactly when that node's mapping goes away,
      and never touches a mapping held by another connection. */
  lemma DisconnectReleasesOwnOnly(h: Hub, id: ConnId, peers: seq<ConnId>, n: Id)
    ensures Releases(h, id) == Some(n) <==> n in h.byNode && n !in Disconnect(h, id, peers).hub.byNode
    ensures n in h.byNode && h.byNode[n] != id ==>
      n in Disconnect(h, id, peers).hub.byNode && Disconnect(h, id, peers).hub.byNode[n] == h.byNode[n]
  {
    if id in h.conns {
      DeregisterTables(h, id);
    }
  }

  // ---- Accounting on one connection ----

  lemma {:induction false} QueueBalance(depth: nat, ops: seq<QueueOp>)
    requires depth > 0
    ensures CountEnqueued(ops) == Displaced(depth, ops) + |Taken(depth, ops)| + |Contents(depth, ops)|
  {
    if ops == [] {
    } else {
      QueueBalance(depth, ops[..|ops| - 1]);
    }
  }

  /** Every frame queued to a connection, and every farewell, was displaced,
      taken, or is still pending; and the pending ones respect the bound. */
  lemma ConnectionAccounts(cfg: Config, events: seq<Event>, c: ConnId)
    requires cfg.queueDepth > 0 && Feasible(cfg, events) && c in After(cfg, events).hub.conns
    ensures var t := After(cfg, events);
      var conn, ops := t.hub.conns[c], OpsFor(t.journal, c);
      && conn.stats.framesOut + CountFarewells(ops)
           == conn.stats.droppedQueue + |Taken(cfg.queueDepth, ops)| + |conn.queue|
      && |conn.queue| <= cfg.queueDepth + CountFarewells(ops)
  {
    RunsKeepCore(cfg, events);
    var t := After(cfg, events);
    var ops := OpsFor(t.journal, c);
    assert LaneOk(t.hub.conns[c], cfg.queueDepth, ops);
    QueueBalance(cfg.queueDepth, ops);
    QueueBound(cfg.queueDepth, ops);
    ReplayExplains(cfg.queueDepth, ops);
  }

  /** The waiting frames are a run of priority frames, then the ordinary frames
      that have not left, in the order they were queued. */
  lemma ConnectionOrder(cfg: Config, events: seq<Event>, c: ConnId)
    requires cfg.queueDepth > 0 && Feasible(cfg, events) && c in After(cfg, events).hub.conns
    ensures var t := After(cfg, events);
      var ops := OpsFor(t.journal, c);
      var account := Replay(cfg.queueDepth, ops);
      && InRange(ops, account)
      && t.hub.conns[c].queue == ItemsAt(ops, account.waiting)
      && exists k: nat :: FifoAt(ops, account, k)
  {
    RunsKeepCore(cfg, events);
    var t := After(cfg, events);
    var ops := OpsFor(t.journal, c);
    assert LaneOk(t.hub.conns[c], cfg.queueDepth, ops);
    ReplayExplains(cfg.queueDepth, ops);
    QueueOrder(cfg.queueDepth, ops);
  }

  // ---- Totals over all connections ----

  datatype Counter =
    | FramesIn | BytesIn | FramesOut | BytesOut | DroppedRate | DroppedAquiferRate | DroppedQueue | Undelivered

  function Read(s: Stats, k: Counter): nat {
    match k
    case FramesIn => s.framesIn
    case BytesIn => s.bytesIn
    case FramesOut => s.framesOut
    case BytesOut => s.bytesOut
    case DroppedRate => s.droppedRate
    case DroppedAquiferRate => s.droppedAquiferRate
    case DroppedQueue => s.droppedQueue
    case Undelivered => s.undeliverable
  }

  lemma AbsorbAdds(a: Stats, b: Stats, k: Counter)
    ensures Read(Absorb(a, b), k) == SatAdd(Read(a, k), Read(b, k))
  {
  }

  lemma StatsEqual(a: Stats, b: Stats)
    requires forall k: Counter :: Read(a, k) == Read(b, k)
    ensures a == b
  {
    assert Read(a, FramesIn) == Read(b, FramesIn) && Read(a, BytesIn) == Read(b, BytesIn);
    assert Read(a, FramesOut) == Read(b, FramesOut) && Read(a, BytesOut) == Read(b, BytesOut);
    assert Read(a, DroppedRate) == Read(b, DroppedRate) && Read(a, DroppedQueue) == Read(b, DroppedQueue);
    assert Read(a, DroppedAquiferRate) == Read(b, DroppedAquiferRate) && Read(a, Undelivered) == Read(b, Undelivered);
  }

  /** The loop over live connections, in whatever order they come. */
  function Fold(acc: Stats, conns: map<ConnId, Conn>, order: seq<ConnId>): Stats
    requires forall i :: 0 <= i < |order| ==> order[i] in conns
  {
    if order == [] then acc
    else Absorb(Fold(acc, conns, order[..|order| - 1]), conns[order[|order| - 1]].stats)
  }

  /** One counter of every live connection. */
  ghost function Readings(conns: map<ConnId, Conn>, k: Counter): map<ConnId, nat> {
    map c | c in conns :: Read(conns[c].stats, k)
  }

  /** The exact sum of one counter over the live connections. */
  ghost function Sum(conns: map<ConnId, Conn>, k: Counter): nat {
    SumOf(Readings(conns, k))
  }

  lemma SumWithout(conns: map<ConnId, Conn>, k: Counter, c: ConnId)
    requires c in conns
    ensures Sum(conns, k) == Read(conns[c].stats, k) + Sum(conns - {c}, k)
  {
    SumSplits(Readings(conns, k), c);
    assert Readings(conns, k) - {c} == Readings(conns - {c}, k);
  }

  /** An order without its last member lists the rest. */
  lemma ListsFront(order: seq<ConnId>, members: set<ConnId>)
    requires order != [] && Lists(order, members)
    ensures var last := order[|order| - 1];
      last in members && Lists(order[..|order| - 1], members - {last})
  {
    var front, last := order[..|order| - 1], order[|order| - 1];
    assert order == front + [last];
    forall x ensures x in members - {last} <==> x in front {
      assert x in order <==> x in front || x == last;
    }
  }

  lemma NothingToSum(conns: map<ConnId, Conn>, k: Counter)
    requires conns == map[]
    ensures Sum(conns, k) == 0
  {
    assert Readings(conns, k) == map[];
  }

  lemma {:induction false} FoldIsSaturatedSum(acc: Stats, conns: map<ConnId, Conn>, order: seq<ConnId>, k: Counter)
    requires Lists(order, conns.Keys) && Read(acc, k) <= U64_MAX
    ensures Read(Fold(acc, conns, order), k) == SatAdd(Read(acc, k), Sum(conns, k))
    decreases |order|
  {
    if order == [] {
      assert conns.Keys == {};
      NothingToSum(conns, k);
    } else {
      var front, last := order[..|order| - 1], order[|order| - 1];
      ListsFront(order, conns.Keys);
      var rest := conns - {last};
      FoldIsSaturatedSum(acc, rest, front, k);
      FoldIgnores(acc, conns, rest, front);
      SumWithout(conns, k, last);
      AbsorbAdds(Fold(acc, conns, front), conns[last].stats, k);
    }
  }

  lemma {:induction false} FoldIgnores(acc: Stats, conns: map<ConnId, Conn>, rest: map<ConnId, Conn>,
                                       order: seq<ConnId>)
    requires forall i :: 0 <= i < |order| ==> order[i] in rest && order[i] in conns && rest[order[i]] == conns[order[i]]
    ensures Fold(acc, conns, order) == Fold(acc, rest, order)
  {
    if order == [] {
    } else {
      FoldIgnores(acc, conns, rest, order[..|order| - 1]);
    }
  }

  /** Totals do not depend on the order connections are visited in, even when
      a counter sticks at the top. */
  lemma TotalsOrderIndependent(acc: Stats, conns: map<ConnId, Conn>, one: seq<ConnId>, other: seq<ConnId>)
    requires Lists(one, conns.Keys) && Lists(other, conns.Keys)
    requires forall k: Counter :: Read(acc, k) <= U64_MAX
    ensures Fold(acc, conns, one) == Fold(acc, conns, other)
  {
    forall k: Counter ensures Read(Fold(acc, conns, one), k) == Read(Fold(acc, conns, other), k) {
      FoldIsSaturatedSum(acc, conns, one, k);
      FoldIsSaturatedSum(acc, conns, other, k);
    }
    StatsEqual(Fold(acc, conns, one), Fold(acc, conns, other));
  }

  // ---- Totals only go up ----

  /** One counter of the totals: the departed, plus the live, sticking at the top. */
  ghost function Total(h: Hub, k: Counter): nat {
    SatAdd(Read(h.retired, k), Sum(h.conns, k))
  }

  /** No connection's counter went down. */
  predicate Grows(m: map<ConnId, Conn>, n: map<ConnId, Conn>, k: Counter) {
    m.Keys == n.Keys && forall c :: c in m ==> Read(m[c].stats, k) <= Read(n[c].stats, k)
  }

  lemma DoGrows(h: Hub, e: Effect, k: Counter)
    requires h.cfg.queueDepth > 0
    ensures Do(h, e).retired == h.retired && Grows(h.conns, Do(h, e).conns, k)
  {
  }

  lemma {:induction false} EffectsGrow(h: Hub, effects: seq<Effect>, k: Counter)
    requires h.cfg.queueDepth > 0
    ensures Perform(h, effects).retired == h.retired && Grows(h.conns, Perform(h, effects).conns, k)
  {
    if effects == [] {
    } else {
      var g := Perform(h, effects[..|effects| - 1]);
      EffectsGrow(h, effects[..|effects| - 1], k);
      DoGrows(g, effects[|effects| - 1], k);
    }
  }

  lemma EffectsGrowTotal(h: Hub, effects: seq<Effect>, k: Counter)
    requires h.cfg.queueDepth > 0
    ensures Total(h, k) <= Total(Perform(h, effects), k)
  {
    EffectsGrow(h, effects, k);
    SumGrows(Readings(h.conns, k), Readings(Perform(h, effects).conns, k));
  }

  lemma RegisterAddsNothing(h: Hub, id: ConnId, peer: Admitted, nowMs: nat, k: Counter)
    requires id !in h.conns
    ensures Total(Register(h, id, peer, nowMs), k) == Total(h, k)
  {
    var conns := Register(h, id, peer, nowMs).conns;
    SumWithout(conns, k, id);
    assert conns - {id} == h.conns;
  }

  lemma DeregisterKeepsTotal(h: Hub, id: ConnId, k: Counter)
    requires id in h.conns
    ensures Total(Deregister(h, id), k) == Total(h, k)
  {
    SumWithout(h.conns, k, id);
    AbsorbAdds(h.retired, h.conns[id].stats, k);
  }

  lemma SameLaneReads(c: Conn, d: Conn, k: Counter)
    requires SameLane(c, d)
    ensures Read(c.stats, k) <= Read(d.stats, k)
  {
  }

  lemma SameLanesGrow(h: Hub, g: Hub, k: Counter)
    requires SameLanes(h, g)
    ensures Total(h, k) <= Total(g, k)
  {
    var m, n := Readings(h.conns, k), Readings(g.conns, k);
    forall c | c in m ensures m[c] <= n[c] {
      SameLaneReads(h.conns[c], g.conns[c], k);
    }
    SumGrows(m, n);
  }

  lemma PlanGrowsTotal(h: Hub, e: Event, k: Counter)
    requires e.Joins? ==> e.id !in h.conns
    ensures Total(h, k) <= Total(PlanOf(h, e).hub, k)
  {
    match e
    case Joins(id, peer, nowMs, _, _) => RegisterAddsNothing(h, id, peer, nowMs, k);
    case Leaves(id, _) =>
      if id in h.conns {
        DeregisterKeepsTotal(h, id, k);
      }
    case _ =>
      SettledKeepsLanes(h, e);
      SameLanesGrow(h, PlanOf(h, e).hub, k);
  }

  lemma StepGrowsTotal(t: Traced, e: Event, k: Counter)
    requires t.hub.cfg.queueDepth > 0 && (e.Joins? ==> e.id !in t.hub.conns)
    ensures Total(t.hub, k) <= Total(Step(t, e).hub, k)
  {
    PlanGrowsTotal(t.hub, e, k);
    EffectsGrowTotal(Begin(t, e).hub, PlanOf(t.hub, e).effects, k);
  }

  /** Totals never decrease, across admissions, frames, takes, closes and
      departures alike. */
  lemma TotalsNeverDecrease(cfg: Config, events: seq<Event>, e: Event, k: Counter)
    requires cfg.queueDepth > 0 && Feasible(cfg, events + [e])
    ensures Total(After(cfg, events).hub, k) <= Total(After(cfg, events + [e]).hub, k)
  {
    AfterOneMore(cfg, events, e);
    RunsKeepCore(cfg, events);
    StepGrowsTotal(After(cfg, events), e, k);
  }
}

/** What every run of the hub keeps. */
module HubInvariants {
  import opened Common
  import opened Frames
  import opened Lanes
  import opened HubModel
  import opened HubRuns

  // ---- Effects leave the registry alone ----

  predicate SameRegistry(h: Hub, g: Hub) {
    && g.cfg == h.cfg && g.byNode == h.byNode && g.byMesh == h.byMesh
    && g.presence == h.presence && g.aquiferMeters == h.aquiferMeters && g.retired == h.retired
    && g.conns.Keys == h.conns.Keys
    && forall c :: c in h.conns ==> g.conns[c].peer == h.conns[c].peer
  }

  lemma {:induction false} PerformKeepsRegistry(h: Hub, effects: seq<Effect>)
    requires h.cfg.queueDepth > 0
    ensures SameRegistry(h, Perform(h, effects))
  {
    if effects == [] {
    } else {
      PerformKeepsRegistry(h, effects[..|effects| - 1]);
    }
  }

  // ---- The journal, per connection ----

  lemma {:induction false} OpsForAppend(journal: seq<Entry>, more: seq<Entry>, id: ConnId)
    ensures OpsFor(journal + more, id) == OpsFor(journal, id) + OpsFor(more, id)
  {
    if more == [] {
      assert journal + more == journal;
    } else {
      OpsForAppend(journal, more[..|more| - 1], id);
      assert (journal + more)[..|journal + more| - 1] == journal + more[..|more| - 1];
    }
  }

  /** The queue operations that a list of effects performs on one connection. */
  function EffectOps(effects: seq<Effect>, id: ConnId): seq<QueueOp> {
    if effects == [] then []
    else
      var last := effects[|effects| - 1];
      EffectOps(effects[..|effects| - 1], id) + if last.Queue? && last.to == id then [last.op] else []
  }

  lemma ActOps(t: Traced, e: Effect, id: ConnId)
    requires t.hub.cfg.queueDepth > 0 && id in t.hub.conns
    ensures OpsFor(Act(t, e).journal, id)
         == if e.Queue? && e.to == id then OpsFor(t.journal, id) + [e.op] else OpsFor(t.journal, id)
  {
    if e.Queue? && e.to in t.hub.conns {
      OpsForAppend(t.journal, [Did(e.to, e.op)], id);
    }
  }

  lemma EffectOpsGrow(effects: seq<Effect>, e: Effect, id: ConnId)
    ensures EffectOps(effects + [e], id)
         == if e.Queue? && e.to == id then EffectOps(effects, id) + [e.op] else EffectOps(effects, id)
  {
    assert (effects + [e])[..|effects|] == effects;
  }

  lemma {:induction false} ActAllOps(t: Traced, effects: seq<Effect>, id: ConnId)
    requires t.hub.cfg.queueDepth > 0 && id in t.hub.conns
    ensures OpsFor(ActAll(t, effects).journal, id) == OpsFor(t.journal, id) + EffectOps(effects, id)
  {
    if effects == [] {
    } else {
      var front, last := effects[..|effects| - 1], effects[|effects| - 1];
      ActAllOps(t, front, id);
      PerformKeepsRegistry(t.hub, front);
      ActOps(ActAll(t, front), last, id);
      assert effects == front + [last];
      EffectOpsGrow(front, last, id);
      if last.Queue? {
        Assoc(OpsFor(t.journal, id), EffectOps(front, id), [last.op]);
      }
    }
  }

  // ---- Queues and counters follow the journal ----

  predicate LaneOk(c: Conn, depth: nat, ops: seq<QueueOp>)
    requires depth > 0
  {
    && c.queue == Contents(depth, ops)
    && c.stats.droppedQueue == Displaced(depth, ops)
    && c.stats.framesOut + CountFarewells(ops) == CountEnqueued(ops)
  }

  lemma ApplyKeepsLane(c: Conn, depth: nat, ops: seq<QueueOp>, op: QueueOp)
    requires depth > 0 && LaneOk(c, depth, ops)
    ensures LaneOk(ApplyOp(c, depth, op), depth, ops + [op])
  {
    assert (ops + [op])[..|ops|] == ops;
  }

  lemma SameLaneOk(c: Conn, d: Conn, depth: nat, ops: seq<QueueOp>)
    requires depth > 0 && SameLane(c, d) && LaneOk(c, depth, ops)
    ensures LaneOk(d, depth, ops)
  {
  }

  lemma ReactKeepsLane(c: Conn, depth: nat, ops: seq<QueueOp>, e: Effect)
    requires depth > 0 && LaneOk(c, depth, ops)
    ensures LaneOk(React(c, depth, e), depth, if e.Queue? then ops + [e.op] else ops)
  {
    if e.Queue? {
      ApplyKeepsLane(c, depth, ops, e.op);
    } else {
      SameLaneOk(c, React(c, depth, e), depth, ops);
    }
  }

  lemma ActKeepsLane(t: Traced, e: Effect, id: ConnId)
    requires t.hub.cfg.queueDepth > 0 && id in t.hub.conns
    requires LaneOk(t.hub.conns[id], t.hub.cfg.queueDepth, OpsFor(t.journal, id))
    ensures LaneOk(Act(t, e).hub.conns[id], t.hub.cfg.queueDepth, OpsFor(Act(t, e).journal, id))
  {
    ActOps(t, e, id);
    if e.to == id {
      ReactKeepsLane(t.hub.conns[id], t.hub.cfg.queueDepth, OpsFor(t.journal, id), e);
    }
  }

  lemma {:induction false} ActAllKeepsLane(t: Traced, effects: seq<Effect>, id: ConnId)
    requires t.hub.cfg.queueDepth > 0 && id in t.hub.conns
    requires LaneOk(t.hub.conns[id], t.hub.cfg.queueDepth, OpsFor(t.journal, id))
    ensures id in ActAll(t, effects).hub.conns
    ensures LaneOk(ActAll(t, effects).hub.conns[id], t.hub.cfg.queueDepth, OpsFor(ActAll(t, effects).journal, id))
  {
    if effects == [] {
    } else {
      var front, last := effects[..|effects| - 1], effects[|effects| - 1];
      ActAllKeepsLane(t, front, id);
      ActKeepsLane(ActAll(t, front), last, id);
    }
  }

  ghost predicate LanesOk(t: Traced) {
    && t.hub.cfg.queueDepth > 0
    && forall c :: c in t.hub.conns ==> LaneOk(t.hub.conns[c], t.hub.cfg.queueDepth, OpsFor(t.journal, c))
  }

  // ---- Ids: nothing is recorded about a connection before it joins ----

  ghost predicate IdsOk(t: Traced) {
    && t.hub.conns.Keys <= EverJoined(t.journal)
    && (forall i :: 0 <= i < |t.journal| && t.journal[i].Did? ==> t.journal[i].id in EverJoined(t.journal))
  }

  lemma {:induction false} JoinedGrows(journal: seq<Entry>, more: seq<Entry>)
    ensures EverJoined(journal + more) == EverJoined(journal) + EverJoined(more)
  {
    if more == [] {
      assert journal + more == journal;
    } else {
      JoinedGrows(journal, more[..|more| - 1]);
      assert (journal + more)[..|journal + more| - 1] == journal + more[..|more| - 1];
    }
  }

  lemma {:induction false} NoOpsBeforeJoining(journal: seq<Entry>, id: ConnId)
    requires forall i :: 0 <= i < |journal| && journal[i].Did? ==> journal[i].id != id
    ensures OpsFor(journal, id) == []
  {
    if journal == [] {
    } else {
      NoOpsBeforeJoining(journal[..|journal| - 1], id);
    }
  }

  lemma {:induction false} ActAllKeepsIds(t: Traced, effects: seq<Effect>)
    requires t.hub.cfg.queueDepth > 0 && IdsOk(t)
    ensures IdsOk(ActAll(t, effects))
    ensures EverJoined(ActAll(t, effects).journal) == EverJoined(t.journal)
  {
    if effects == [] {
    } else {
      var front, last := effects[..|effects| - 1], effects[|effects| - 1];
      ActAllKeepsIds(t, front);
      var s := ActAll(t, front);
      if last.Queue? {
        JoinedGrows(s.journal, [Did(last.to, last.op)]);
      }
    }
  }

  // ---- The ownership tables point at connections of the right kind ----

  ghost predicate Wired(h: Hub) {
    && (forall n :: n in h.byNode ==>
          h.byNode[n] in h.conns && h.conns[h.byNode[n]].peer.Client? && h.conns[h.byNode[n]].peer.node == n)
    && (forall r :: r in h.byMesh ==>
          h.byMesh[r] in h.conns && h.conns[h.byMesh[r]].peer == Mesh(r))
  }

  ghost predicate Core(t: Traced) {
    Wired(t.hub) && LanesOk(t) && IdsOk(t)
  }

  /** Events that neither register nor forget a connection. */
  predicate Settled(e: Event) { !e.Joins? && !e.Leaves? }

  lemma SettledKeepsLanes(h: Hub, e: Event)
    requires Settled(e)
    ensures SameLanes(h, PlanOf(h, e).hub)
  {
  }

  predicate Quiet(notes: seq<Entry>) {
    forall i :: 0 <= i < |notes| ==> !notes[i].Did? && !notes[i].Joined?
  }

  lemma MeteringIsQuiet(h: Hub, id: ConnId, frame: Frame, roster: Roster, nowMs: nat)
    ensures Quiet(Metering(h, id, frame, roster, nowMs)) && |Metering(h, id, frame, roster, nowMs)| <= 1
  {
  }

  lemma SettledNotesAreQuiet(h: Hub, e: Event)
    requires Settled(e)
    ensures Quiet(Notes(h, e))
  {
    if e.Hears? {
      MeteringIsQuiet(h, e.id, e.frame, e.roster, e.nowMs);
    }
  }

  lemma {:induction false} QuietAppend(journal: seq<Entry>, notes: seq<Entry>, id: ConnId)
    requires Quiet(notes)
    ensures OpsFor(journal + notes, id) == OpsFor(journal, id)
    ensures EverJoined(journal + notes) == EverJoined(journal)
  {
    if notes == [] {
      assert journal + notes == journal;
    } else {
      QuietAppend(journal, notes[..|notes| - 1], id);
      assert (journal + notes)[..|journal + notes| - 1] == journal + notes[..|notes| - 1];
    }
  }

  /** A change of meters, counters or presence, with nothing queued yet. */
  lemma QuietKeepsCore(t: Traced, g: Hub, notes: seq<Entry>)
    requires Core(t) && SameLanes(t.hub, g) && Quiet(notes)
    ensures Core(Traced(g, t.journal + notes))
  {
    var u := Traced(g, t.journal + notes);
    QuietAppend(t.journal, notes, 0);
    forall c | c in g.conns ensures LaneOk(g.conns[c], g.cfg.queueDepth, OpsFor(u.journal, c)) {
      QuietAppend(t.journal, notes, c);
      SameLaneOk(t.hub.conns[c], g.conns[c], g.cfg.queueDepth, OpsFor(t.journal, c));
    }
  }

  /** A joining adds nothing to any connection's operations. */
  lemma JoinAddsNoOps(journal: seq<Entry>, id: ConnId, peer: Admitted, c: ConnId)
    ensures OpsFor(journal + [Joined(id, peer)], c) == OpsFor(journal, c)
    ensures EverJoined(journal + [Joined(id, peer)]) == EverJoined(journal) + {id}
  {
    assert (journal + [Joined(id, peer)])[..|journal|] == journal;
  }

  lemma RegisterKeepsWired(h: Hub, id: ConnId, peer: Admitted, nowMs: nat)
    requires Wired(h) && id !in h.conns
    ensures Wired(Register(h, id, peer, nowMs))
    ensures Register(h, id, peer, nowMs).conns == h.conns[id := NewConn(h.cfg, peer, nowMs)]
  {
  }

  lemma RegisterKeepsIds(t: Traced, id: ConnId, peer: Admitted, h: Hub)
    requires IdsOk(t) && h.conns.Keys == t.hub.conns.Keys + {id}
    ensures IdsOk(Traced(h, t.journal + [Joined(id, peer)]))
  {
    JoinAddsNoOps(t.journal, id, peer, id);
  }

  lemma NewLaneOk(cfg: Config, peer: Admitted, nowMs: nat, depth: nat)
    requires depth > 0
    ensures LaneOk(NewConn(cfg, peer, nowMs), depth, [])
  {
  }

  lemma RegisterKeepsCore(t: Traced, id: ConnId, peer: Admitted, nowMs: nat)
    requires Core(t) && id !in EverJoined(t.journal)
    ensures Core(Traced(Register(t.hub, id, peer, nowMs), t.journal + [Joined(id, peer)]))
  {
    var u := Traced(Register(t.hub, id, peer, nowMs), t.journal + [Joined(id, peer)]);
    RegisterKeepsWired(t.hub, id, peer, nowMs);
    RegisterKeepsIds(t, id, peer, u.hub);
    NoOpsBeforeJoining(t.journal, id);
    forall c | c in u.hub.conns ensures LaneOk(u.hub.conns[c], u.hub.cfg.queueDepth, OpsFor(u.journal, c)) {
      JoinAddsNoOps(t.journal, id, peer, c);
      if c == id {
        NewLaneOk(t.hub.cfg, peer, nowMs, t.hub.cfg.queueDepth);
      } else {
        assert LaneOk(t.hub.conns[c], t.hub.cfg.queueDepth, OpsFor(t.journal, c));
      }
    }
  }

  lemma DeregisterKeepsWired(h: Hub, id: ConnId)
    requires Wired(h) && id in h.conns
    ensures Wired(Deregister(h, id))
    ensures Deregister(h, id).conns == h.conns - {id} && Deregister(h, id).cfg == h.cfg
  {
    var g := Deregister(h, id);
    forall n | n in g.byNode ensures g.byNode[n] == h.byNode[n] != id {
      assert h.conns[h.byNode[n]].peer.node == n;
    }
    forall r | r in g.byMesh ensures g.byMesh[r] == h.byMesh[r] != id {
      assert h.conns[h.byMesh[r]].peer == Mesh(r);
    }
  }

  /** Forgetting a connection takes its node's mapping only if it owned it, and
      then leaves the mesh table alone. */
  lemma DeregisterTables(h: Hub, id: ConnId)
    requires id in h.conns
    ensures Releases(h, id).Some? ==>
      Deregister(h, id).byMesh == h.byMesh && Deregister(h, id).byNode == h.byNode - {Releases(h, id).value}
    ensures Releases(h, id).None? ==>
      && Deregister(h, id).byNode == h.byNode
      && forall r :: r in Deregister(h, id).byMesh ==> r in h.byMesh && Deregister(h, id).byMesh[r] == h.byMesh[r]
  {
  }

  lemma DeregisterKeepsCore(t: Traced, id: ConnId)
    requires Core(t) && id in t.hub.conns
    ensures Core(Traced(Deregister(t.hub, id), t.journal))
  {
    DeregisterKeepsWired(t.hub, id);
  }

  lemma BeginKeepsCore(t: Traced, e: Event)
    requires Core(t) && Possible(t, e)
    ensures Core(Begin(t, e))
  {
    match e
    case Joins(id, peer, nowMs, _, _) => RegisterKeepsCore(t, id, peer, nowMs);
    case Leaves(id, _) =>
      assert t.journal + [] == t.journal;
      if id in t.hub.conns {
        DeregisterKeepsCore(t, id);
      }
    case _ =>
      SettledKeepsLanes(t.hub, e);
      SettledNotesAreQuiet(t.hub, e);
      QuietKeepsCore(t, PlanOf(t.hub, e).hub, Notes(t.hub, e));
  }

  lemma ActAllKeepsCore(b: Traced, effects: seq<Effect>)
    requires Core(b)
    ensures Core(ActAll(b, effects))
  {
    var a := ActAll(b, effects);
    PerformKeepsRegistry(b.hub, effects);
    ActAllKeepsIds(b, effects);
    forall c | c in b.hub.conns
      ensures LaneOk(a.hub.conns[c], a.hub.cfg.queueDepth, OpsFor(a.journal, c))
    {
      ActAllKeepsLane(b, effects, c);
    }
  }

  /** Every step keeps the tables wired, the queues and counters equal to what
      the journal says, and the ids accounted for. */
  lemma StepKeepsCore(t: Traced, e: Event)
    requires Core(t) && Possible(t, e)
    ensures Core(Step(t, e))
  {
    BeginKeepsCore(t, e);
    ActAllKeepsCore(Begin(t, e), PlanOf(t.hub, e).effects);
  }

  lemma AfterOneMore(cfg: Config, events: seq<Event>, e: Event)
    requires cfg.queueDepth > 0
    ensures After(cfg, events + [e]) == Step(After(cfg, events), e)
    ensures Feasible(cfg, events + [e]) ==> Feasible(cfg, events) && Possible(After(cfg, events), e)
  {
    assert (events + [e])[..|events|] == events;
  }

  lemma {:induction false} RunsKeepCore(cfg: Config, events: seq<Event>)
    requires cfg.queueDepth > 0 && Feasible(cfg, events)
    ensures Core(After(cfg, events))
  {
    if events == [] {
    } else {
      var front, last := events[..|events| - 1], events[|events| - 1];
      RunsKeepCore(cfg, front);
      StepKeepsCore(After(cfg, front), last);
    }
  }
}

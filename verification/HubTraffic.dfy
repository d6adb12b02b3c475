/** What may be queued to whom: role separation, one hop, and aquifer isolation. */
module HubTraffic {
  import opened Common
  import opened Frames
  import opened Lanes
  import opened HubModel
  import opened HubRuns
  import opened HubInvariants

  /** A fixed roster to hold the traffic against, or none. */
  type Scope = Option<Roster>

  predicate Urgent(frame: Frame) { frame.Ping? || frame.Pong? || frame.Restarting? }

  /** A client is never sent mesh frames, nor packets from outside its aquifer;
      a mesh peer is never sent packets; only keepalives and restart notices
      jump the queue. */
  predicate Fits(peer: Admitted, op: QueueOp, scope: Scope) {
    op.Take? ||
    (var frame := op.item.frame;
     && (op.Jump? ==> Urgent(frame))
     && match peer
        case Client(_, aquifer) =>
          && !frame.Forward? && !frame.PeerPresent?
          && (frame.RecvPacket? && scope.Some? ==> frame.src in scope.value && scope.value[frame.src] == aquifer)
        case Mesh(_) => !frame.RecvPacket?)
  }

  predicate EffectFits(h: Hub, e: Effect, scope: Scope) {
    e.Queue? && e.to in h.conns ==> Fits(h.conns[e.to].peer, e.op, scope)
  }

  predicate EffectsFit(h: Hub, effects: seq<Effect>, scope: Scope) {
    forall i :: 0 <= i < |effects| ==> EffectFits(h, effects[i], scope)
  }

  ghost predicate AllFit(t: Traced, scope: Scope) {
    forall c, i :: c in t.hub.conns && 0 <= i < |OpsFor(t.journal, c)| ==>
      Fits(t.hub.conns[c].peer, OpsFor(t.journal, c)[i], scope)
  }

  /** Every client was admitted into the aquifer the roster puts it in. */
  ghost predicate Agreed(h: Hub, scope: Scope) {
    scope.Some? ==>
      forall c :: c in h.conns && h.conns[c].peer.Client? ==>
        h.conns[c].peer.node in scope.value && scope.value[h.conns[c].peer.node] == h.conns[c].peer.aquifer
  }

  predicate Under(e: Event, scope: Scope) {
    scope.Some? ==>
      && (e.Joins? && e.peer.Client? ==> e.peer.node in scope.value && scope.value[e.peer.node] == e.peer.aquifer)
      && (e.Hears? ==> e.roster == scope.value)
  }

  lemma {:induction false} EffectOpsFit(h: Hub, effects: seq<Effect>, scope: Scope, id: ConnId)
    requires EffectsFit(h, effects, scope) && id in h.conns
    ensures forall i :: 0 <= i < |EffectOps(effects, id)| ==> Fits(h.conns[id].peer, EffectOps(effects, id)[i], scope)
  {
    if effects == [] {
    } else {
      var front := effects[..|effects| - 1];
      EffectOpsFit(h, front, scope, id);
      assert EffectFits(h, effects[|effects| - 1], scope);
    }
  }

  lemma ActAllKeepsFit(b: Traced, effects: seq<Effect>, scope: Scope)
    requires b.hub.cfg.queueDepth > 0 && AllFit(b, scope) && Agreed(b.hub, scope)
    requires EffectsFit(b.hub, effects, scope)
    ensures AllFit(ActAll(b, effects), scope) && Agreed(ActAll(b, effects).hub, scope)
  {
    var a := ActAll(b, effects);
    PerformKeepsRegistry(b.hub, effects);
    forall c, i | c in a.hub.conns && 0 <= i < |OpsFor(a.journal, c)|
      ensures Fits(a.hub.conns[c].peer, OpsFor(a.journal, c)[i], scope)
    {
      ActAllOps(b, effects, c);
      EffectOpsFit(b.hub, effects, scope, c);
    }
  }

  // ---- Each operation queues only what fits ----

  lemma DeliverFits(h: Hub, from: ConnId, to: ConnId, frame: Frame, mapping: Option<UsageMapping>, gate: Gate,
                    scope: Scope)
    requires to in h.conns ==> Fits(h.conns[to].peer, Push(Bare(frame)), scope)
    ensures EffectsFit(h, Deliver(h, from, to, frame, mapping, gate).effects, scope)
  {
  }

  lemma RouteFits(h: Hub, from: ConnId, src: Id, dst: Id, payload: seq<Byte>,
                  mapping: Option<UsageMapping>, gate: Gate, scope: Scope)
    requires from in h.conns && h.conns[from].peer.Client? && Wired(h) && Agreed(h, scope)
    requires scope.Some? ==>
      src in scope.value && dst in scope.value && scope.value[src] == scope.value[dst]
    ensures EffectsFit(h, Route(h, from, src, dst, payload, mapping, gate).effects, scope)
  {
    if dst in h.byNode {
      assert h.conns[h.byNode[dst]].peer.node == dst;
      DeliverFits(h, from, h.byNode[dst], RecvPacket(src, payload), mapping, gate, scope);
    } else if dst in h.presence && h.presence[dst] in h.byMesh {
      DeliverFits(h, from, h.byMesh[h.presence[dst]], Forward(src, dst, payload), None, gate, scope);
    }
  }

  lemma ForwardFits(h: Hub, from: ConnId, dst: Id, payload: seq<Byte>, roster: Roster, nowMs: nat,
                    mapping: Option<UsageMapping>, gate: Gate, scope: Scope)
    requires from in h.conns && h.conns[from].peer.Client?
    requires Wired(h) && Agreed(h, scope) && (scope.Some? ==> roster == scope.value)
    ensures EffectsFit(h, ForwardFromClient(h, from, dst, payload, roster, nowMs, mapping, gate).effects, scope)
  {
    var Client(src, aquifer) := h.conns[from].peer;
    if dst != src && dst in roster && roster[dst] == aquifer {
      RouteFits(ChargeAquifer(h, aquifer, |payload|, nowMs), from, src, dst, payload, mapping, gate, scope);
    }
  }

  lemma MeshDeliveryFits(h: Hub, from: ConnId, src: Id, dst: Id, payload: seq<Byte>, roster: Roster, nowMs: nat,
                         mapping: Option<UsageMapping>, gate: Gate, scope: Scope)
    requires Wired(h) && Agreed(h, scope) && (scope.Some? ==> roster == scope.value)
    ensures EffectsFit(h, DeliverFromMesh(h, from, src, dst, payload, roster, nowMs, mapping, gate).effects, scope)
  {
    if dst in h.byNode && src in roster && dst in roster && roster[src] == roster[dst] {
      var g := ChargeAquifer(h, roster[dst], |payload|, nowMs);
      assert g.conns == h.conns;
      assert h.conns[h.byNode[dst]].peer.node == dst;
      DeliverFits(g, from, h.byNode[dst], RecvPacket(src, payload), mapping, gate, scope);
    }
  }

  lemma DispatchFits(h: Hub, id: ConnId, frame: Frame, roster: Roster, nowMs: nat,
                     mapping: Option<UsageMapping>, gate: Gate, scope: Scope)
    requires id in h.conns && Wired(h) && Agreed(h, scope) && (scope.Some? ==> roster == scope.value)
    ensures EffectsFit(h, Dispatch(h, id, frame, roster, nowMs, mapping, gate).effects, scope)
  {
    if frame.SendPacket? && h.conns[id].peer.Client? {
      ForwardFits(h, id, frame.dst, frame.payload, roster, nowMs, mapping, gate, scope);
    } else if frame.Forward? && h.conns[id].peer.Mesh? {
      MeshDeliveryFits(h, id, frame.src, frame.dst, frame.payload, roster, nowMs, mapping, gate, scope);
    }
  }

  lemma SamePeersFit(h: Hub, g: Hub, effects: seq<Effect>, scope: Scope)
    requires SameLanes(h, g)
    ensures EffectsFit(h, effects, scope) <==> EffectsFit(g, effects, scope)
  {
    forall i | 0 <= i < |effects| ensures EffectFits(h, effects[i], scope) <==> EffectFits(g, effects[i], scope) {
    }
  }

  lemma SameLanesAgree(h: Hub, g: Hub, scope: Scope)
    requires SameLanes(h, g)
    ensures Wired(h) ==> Wired(g)
    ensures Agreed(h, scope) ==> Agreed(g, scope)
  {
  }

  lemma OnFrameFits(h: Hub, id: ConnId, frame: Frame, roster: Roster, nowMs: nat,
                    mapping: Option<UsageMapping>, gate: Gate, scope: Scope)
    requires Wired(h) && Agreed(h, scope) && (scope.Some? ==> roster == scope.value)
    ensures EffectsFit(h, OnFrame(h, id, frame, roster, nowMs, mapping, gate).effects, scope)
  {
    if Accepts(h, id, frame, nowMs) {
      var g := h.(conns := h.conns[id := Heard(h.conns[id], EncodedLen(frame), nowMs)]);
      assert SameLanes(h, g);
      SameLanesAgree(h, g, scope);
      DispatchFits(g, id, frame, roster, nowMs, mapping, gate, scope);
      SamePeersFit(h, g, Dispatch(g, id, frame, roster, nowMs, mapping, gate).effects, scope);
    }
  }

  lemma {:induction false} RestartFits(h: Hub, clients: seq<ConnId>, notice: Frame, scope: Scope)
    requires notice.Restarting?
    ensures EffectsFit(h, RestartEach(clients, notice), scope)
  {
    if clients == [] {
    } else {
      RestartFits(h, clients[..|clients| - 1], notice, scope);
    }
  }

  /** Mesh connections are reached only through the mesh table. */
  lemma GossipFits(h: Hub, g: Hub, peers: seq<ConnId>, op: QueueOp, scope: Scope)
    requires Wired(h) && Lists(peers, h.byMesh.Values)
    requires forall r :: r in h.byMesh && h.byMesh[r] in g.conns ==> g.conns[h.byMesh[r]].peer.Mesh?
    requires op.Push? && !op.item.frame.RecvPacket?
    ensures EffectsFit(g, ToEach(peers, op), scope)
  {
    forall i | 0 <= i < |peers| ensures EffectFits(g, ToEach(peers, op)[i], scope) {
      assert peers[i] in peers;
      assert peers[i] in h.byMesh.Values;
    }
  }

  lemma SettledFits(h: Hub, e: Event, scope: Scope)
    requires Settled(e) && Wired(h) && Agreed(h, scope) && Under(e, scope)
    ensures EffectsFit(h, PlanOf(h, e).effects, scope)
  {
    match e
    case Hears(id, frame, roster, nowMs, mapping, gate) =>
      OnFrameFits(h, id, frame, roster, nowMs, mapping, gate, scope);
    case Restarts(clients, a, b) => RestartFits(h, clients, Restarting(a, b), scope);
    case _ =>
  }

  lemma BeginFits(t: Traced, e: Event, scope: Scope)
    requires Core(t) && Possible(t, e) && AllFit(t, scope) && Agreed(t.hub, scope) && Under(e, scope)
    ensures AllFit(Begin(t, e), scope) && Agreed(Begin(t, e).hub, scope)
    ensures EffectsFit(Begin(t, e).hub, PlanOf(t.hub, e).effects, scope)
  {
    match e
    case Joins(id, peer, nowMs, peers, nodes) =>
      JoinFits(t, id, peer, nowMs, scope);
      if peer.Client? && peer.node !in t.hub.byNode {
        GossipFits(t.hub, Register(t.hub, id, peer, nowMs), peers, Push(Bare(PeerPresent(peer.node))), scope);
      }
    case Leaves(id, peers) =>
      assert t.journal + [] == t.journal;
      if id in t.hub.conns {
        DeregisterKeepsWired(t.hub, id);
        var released := Releases(t.hub, id);
        if released.Some? {
          GossipFits(t.hub, Deregister(t.hub, id), peers, Push(Bare(PeerGone(released.value, Disconnected))), scope);
        }
      }
    case _ =>
      var g, notes := PlanOf(t.hub, e).hub, Notes(t.hub, e);
      SettledKeepsLanes(t.hub, e);
      SettledNotesAreQuiet(t.hub, e);
      SettledFits(t.hub, e, scope);
      QuietFits(t, g, notes, scope);
      SamePeersFit(t.hub, g, PlanOf(t.hub, e).effects, scope);
  }

  lemma JoinFits(t: Traced, id: ConnId, peer: Admitted, nowMs: nat, scope: Scope)
    requires Core(t) && id !in EverJoined(t.journal) && AllFit(t, scope) && Agreed(t.hub, scope)
    requires scope.Some? && peer.Client? ==> peer.node in scope.value && scope.value[peer.node] == peer.aquifer
    ensures var u := Traced(Register(t.hub, id, peer, nowMs), t.journal + [Joined(id, peer)]);
      AllFit(u, scope) && Agreed(u.hub, scope)
  {
    RegisterKeepsWired(t.hub, id, peer, nowMs);
    NoOpsBeforeJoining(t.journal, id);
    forall c ensures OpsFor(t.journal + [Joined(id, peer)], c) == OpsFor(t.journal, c) {
      JoinAddsNoOps(t.journal, id, peer, c);
    }
  }

  lemma QuietFits(t: Traced, g: Hub, notes: seq<Entry>, scope: Scope)
    requires AllFit(t, scope) && Agreed(t.hub, scope) && SameLanes(t.hub, g) && Quiet(notes)
    ensures AllFit(Traced(g, t.journal + notes), scope) && Agreed(g, scope)
  {
    forall c ensures OpsFor(t.journal + notes, c) == OpsFor(t.journal, c) {
      QuietAppend(t.journal, notes, c);
    }
  }

  lemma StepFits(t: Traced, e: Event, scope: Scope)
    requires Core(t) && Possible(t, e) && AllFit(t, scope) && Agreed(t.hub, scope) && Under(e, scope)
    ensures AllFit(Step(t, e), scope) && Agreed(Step(t, e).hub, scope)
  {
    BeginFits(t, e, scope);
    ActAllKeepsFit(Begin(t, e), PlanOf(t.hub, e).effects, scope);
  }

  lemma {:induction false} RunsFit(cfg: Config, events: seq<Event>, scope: Scope)
    requires cfg.queueDepth > 0 && Feasible(cfg, events)
    requires forall i :: 0 <= i < |events| ==> Under(events[i], scope)
    ensures Core(After(cfg, events))
    ensures AllFit(After(cfg, events), scope) && Agreed(After(cfg, events).hub, scope)
  {
    if events == [] {
    } else {
      var front, last := events[..|events| - 1], events[|events| - 1];
      RunsFit(cfg, front, scope);
      StepKeepsCore(After(cfg, front), last);
      StepFits(After(cfg, front), last, scope);
    }
  }

  // ---- What waits in a queue is something that was queued ----

  lemma WaitingFits(t: Traced, scope: Scope, c: ConnId, i: nat)
    requires Core(t) && AllFit(t, scope) && c in t.hub.conns && i < |t.hub.conns[c].queue|
    ensures exists op: QueueOp ::
      !op.Take? && op.item == t.hub.conns[c].queue[i] && Fits(t.hub.conns[c].peer, op, scope)
  {
    var ops := OpsFor(t.journal, c);
    ReplayExplains(t.hub.cfg.queueDepth, ops);
    var at := Replay(t.hub.cfg.queueDepth, ops).waiting[i];
    assert Fits(t.hub.conns[c].peer, ops[at], scope);
  }

  /** Role separation: in every reachable state no client queue holds a frame
      of the mesh protocol and no mesh queue holds a packet for a client. */
  lemma QueuesKeepRoles(cfg: Config, events: seq<Event>, c: ConnId, i: nat)
    requires cfg.queueDepth > 0 && Feasible(cfg, events)
    requires c in After(cfg, events).hub.conns && i < |After(cfg, events).hub.conns[c].queue|
    ensures var conn := After(cfg, events).hub.conns[c];
      var frame := conn.queue[i].frame;
      if conn.peer.Client? then !frame.Forward? && !frame.PeerPresent? else !frame.RecvPacket?
  {
    RunsFit(cfg, events, None);
    WaitingFits(After(cfg, events), None, c, i);
  }

  /** Aquifer isolation: with a fixed roster that admissions agree with, every
      packet waiting for a client names a source in that client's aquifer, even
      when an arbitrary mesh peer handed it over. */
  lemma AquiferIsolation(cfg: Config, events: seq<Event>, roster: Roster, c: ConnId, i: nat)
    requires cfg.queueDepth > 0 && Feasible(cfg, events)
    requires forall k :: 0 <= k < |events| ==> Under(events[k], Some(roster))
    requires c in After(cfg, events).hub.conns && i < |After(cfg, events).hub.conns[c].queue|
    requires After(cfg, events).hub.conns[c].queue[i].frame.RecvPacket?
    ensures var conn := After(cfg, events).hub.conns[c];
      var src := conn.queue[i].frame.src;
      && conn.peer.Client?
      && src in roster && conn.peer.node in roster
      && roster[src] == roster[conn.peer.node] == conn.peer.aquifer
  {
    RunsFit(cfg, events, Some(roster));
    WaitingFits(After(cfg, events), Some(roster), c, i);
  }
}

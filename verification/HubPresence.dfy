/** Presence replication: what a mesh peer is told is who is here. */
module HubPresence {
  import opened Common
  import opened Frames
  import opened Lanes
  import opened HubModel
  import opened HubRuns
  import opened HubInvariants
  import opened HubTraffic

  ghost predicate ToldOk(t: Traced) {
    forall r :: r in t.hub.byMesh ==> Told(OpsFor(t.journal, t.hub.byMesh[r])) == t.hub.byNode.Keys
  }

  // ---- Beliefs under more operations ----

  function BelieveAll(believed: set<Id>, ops: seq<QueueOp>): set<Id> {
    if ops == [] then believed
    else
      var b := BelieveAll(believed, ops[..|ops| - 1]);
      if ops[|ops| - 1].Take? then b else Believe(b, ops[|ops| - 1].item.frame)
  }

  lemma {:induction false} ToldAppend(ops: seq<QueueOp>, more: seq<QueueOp>)
    ensures Told(ops + more) == BelieveAll(Told(ops), more)
  {
    if more == [] {
      assert ops + more == ops;
    } else {
      ToldAppend(ops, more[..|more| - 1]);
      assert (ops + more)[..|ops + more| - 1] == ops + more[..|more| - 1];
    }
  }

  /** What effects would tell one mesh connection does not change a belief. */
  predicate Harmless(op: QueueOp, believed: set<Id>) {
    op.Take? || Believe(believed, op.item.frame) == believed
  }

  lemma {:induction false} HarmlessBeliefs(believed: set<Id>, ops: seq<QueueOp>)
    requires forall i :: 0 <= i < |ops| ==> Harmless(ops[i], believed)
    ensures BelieveAll(believed, ops) == believed
  {
    if ops == [] {
    } else {
      HarmlessBeliefs(believed, ops[..|ops| - 1]);
      assert Harmless(ops[|ops| - 1], believed);
    }
  }

  /** Effects that tell no mesh peer anything new. */
  predicate TellsNothing(h: Hub, e: Effect) {
    e.Queue? && e.to in h.conns && h.conns[e.to].peer.Mesh? ==> Harmless(e.op, h.byNode.Keys)
  }

  lemma {:induction false} NothingTold(h: Hub, effects: seq<Effect>, id: ConnId)
    requires AllTellNothing(h, effects)
    requires id in h.conns && h.conns[id].peer.Mesh?
    ensures forall i :: 0 <= i < |EffectOps(effects, id)| ==> Harmless(EffectOps(effects, id)[i], h.byNode.Keys)
  {
    if effects == [] {
    } else {
      NothingTold(h, effects[..|effects| - 1], id);
      assert TellsNothing(h, effects[|effects| - 1]);
    }
  }

  lemma QuietEffectsKeepTold(b: Traced, effects: seq<Effect>)
    requires b.hub.cfg.queueDepth > 0 && Wired(b.hub) && ToldOk(b)
    requires AllTellNothing(b.hub, effects)
    ensures ToldOk(ActAll(b, effects))
  {
    var a := ActAll(b, effects);
    PerformKeepsRegistry(b.hub, effects);
    forall r | r in a.hub.byMesh ensures Told(OpsFor(a.journal, a.hub.byMesh[r])) == a.hub.byNode.Keys {
      var c := b.hub.byMesh[r];
      ActAllOps(b, effects, c);
      NothingTold(b.hub, effects, c);
      ToldAppend(OpsFor(b.journal, c), EffectOps(effects, c));
      HarmlessBeliefs(b.hub.byNode.Keys, EffectOps(effects, c));
    }
  }

  // ---- Frames and closes correct beliefs, never upset them ----

  predicate AllTellNothing(h: Hub, effects: seq<Effect>) {
    forall i :: 0 <= i < |effects| ==> TellsNothing(h, effects[i])
  }

  lemma RouteTellsNothing(h: Hub, from: ConnId, src: Id, dst: Id, payload: seq<Byte>,
                          mapping: Option<UsageMapping>, gate: Gate)
    requires from in h.conns && h.conns[from].peer.Client?
    ensures AllTellNothing(h, Route(h, from, src, dst, payload, mapping, gate).effects)
  {
  }

  lemma ForwardTellsNothing(h: Hub, from: ConnId, dst: Id, payload: seq<Byte>, roster: Roster, nowMs: nat,
                            mapping: Option<UsageMapping>, gate: Gate)
    requires from in h.conns && h.conns[from].peer.Client?
    ensures AllTellNothing(h, ForwardFromClient(h, from, dst, payload, roster, nowMs, mapping, gate).effects)
  {
    var Client(src, aquifer) := h.conns[from].peer;
    RouteTellsNothing(ChargeAquifer(h, aquifer, |payload|, nowMs), from, src, dst, payload, mapping, gate);
  }

  /** A corrective departure notice names only nodes that are not here. */
  lemma MeshTellsNothing(h: Hub, from: ConnId, src: Id, dst: Id, payload: seq<Byte>, roster: Roster, nowMs: nat,
                         mapping: Option<UsageMapping>, gate: Gate)
    ensures AllTellNothing(h, DeliverFromMesh(h, from, src, dst, payload, roster, nowMs, mapping, gate).effects)
  {
  }

  lemma DispatchTellsNothing(h: Hub, id: ConnId, frame: Frame, roster: Roster, nowMs: nat,
                             mapping: Option<UsageMapping>, gate: Gate)
    requires id in h.conns
    ensures AllTellNothing(h, Dispatch(h, id, frame, roster, nowMs, mapping, gate).effects)
  {
    if frame.SendPacket? && h.conns[id].peer.Client? {
      ForwardTellsNothing(h, id, frame.dst, frame.payload, roster, nowMs, mapping, gate);
    } else if frame.Forward? && h.conns[id].peer.Mesh? {
      MeshTellsNothing(h, id, frame.src, frame.dst, frame.payload, roster, nowMs, mapping, gate);
    }
  }

  lemma {:induction false} RestartTellsNothing(h: Hub, clients: seq<ConnId>, notice: Frame)
    requires notice.Restarting?
    ensures AllTellNothing(h, RestartEach(clients, notice))
  {
    if clients == [] {
    } else {
      RestartTellsNothing(h, clients[..|clients| - 1], notice);
    }
  }

  lemma SettledTellsNothing(h: Hub, e: Event)
    requires Settled(e)
    ensures AllTellNothing(h, PlanOf(h, e).effects)
  {
    match e
    case Hears(id, frame, roster, nowMs, mapping, gate) =>
      if Accepts(h, id, frame, nowMs) {
        var g := h.(conns := h.conns[id := Heard(h.conns[id], EncodedLen(frame), nowMs)]);
        DispatchTellsNothing(g, id, frame, roster, nowMs, mapping, gate);
        var effects := Dispatch(g, id, frame, roster, nowMs, mapping, gate).effects;
        forall i | 0 <= i < |effects| ensures TellsNothing(h, effects[i]) {
          assert TellsNothing(g, effects[i]);
        }
      }
    case Restarts(clients, a, b) => RestartTellsNothing(h, clients, Restarting(a, b));
    case _ =>
  }

  lemma SettledKeepsTold(t: Traced, e: Event)
    requires Core(t) && Settled(e) && ToldOk(t)
    ensures ToldOk(Step(t, e))
  {
    var p, notes := PlanOf(t.hub, e), Notes(t.hub, e);
    var b := Traced(p.hub, t.journal + notes);
    SettledKeepsLanes(t.hub, e);
    SettledNotesAreQuiet(t.hub, e);
    SettledTellsNothing(t.hub, e);
    QuietToldOk(t, p.hub, notes);
    forall i | 0 <= i < |p.effects| ensures TellsNothing(p.hub, p.effects[i]) {
      assert TellsNothing(t.hub, p.effects[i]);
    }
    QuietEffectsKeepTold(b, p.effects);
  }

  lemma QuietToldOk(t: Traced, g: Hub, notes: seq<Entry>)
    requires ToldOk(t) && SameLanes(t.hub, g) && Wired(t.hub) && Quiet(notes)
    ensures ToldOk(Traced(g, t.journal + notes)) && Wired(g)
  {
    forall c ensures OpsFor(t.journal + notes, c) == OpsFor(t.journal, c) {
      QuietAppend(t.journal, notes, c);
    }
  }

  // ---- Gossip reaches each mesh connection once ----

  lemma {:induction false} EachOnce(peers: seq<ConnId>, op: QueueOp, id: ConnId)
    requires forall i, j :: 0 <= i < j < |peers| ==> peers[i] != peers[j]
    ensures EffectOps(ToEach(peers, op), id) == if id in peers then [op] else []
  {
    if peers == [] {
    } else {
      var front := peers[..|peers| - 1];
      EachOnce(front, op, id);
      assert ToEach(peers, op)[..|peers| - 1] == ToEach(front, op);
      assert peers == front + [peers[|peers| - 1]];
    }
  }

  /** One frame queued to a connection changes what it was told by that frame. */
  lemma ToldOneMore(b: Traced, effects: seq<Effect>, c: ConnId, frame: Frame)
    requires b.hub.cfg.queueDepth > 0 && c in b.hub.conns && EffectOps(effects, c) == [Push(Bare(frame))]
    ensures Told(OpsFor(ActAll(b, effects).journal, c)) == Believe(Told(OpsFor(b.journal, c)), frame)
  {
    ActAllOps(b, effects, c);
    var ops := OpsFor(b.journal, c);
    assert (ops + [Push(Bare(frame))])[..|ops|] == ops;
  }

  /** Gossiping a change of presence brings every mesh peer up to date. */
  lemma GossipKeepsTold(b: Traced, peers: seq<ConnId>, frame: Frame, before: set<Id>)
    requires b.hub.cfg.queueDepth > 0 && Wired(b.hub) && Lists(peers, b.hub.byMesh.Values)
    requires forall r :: r in b.hub.byMesh ==> Told(OpsFor(b.journal, b.hub.byMesh[r])) == before
    requires Believe(before, frame) == b.hub.byNode.Keys
    ensures ToldOk(ActAll(b, ToEach(peers, Push(Bare(frame)))))
  {
    var effects := ToEach(peers, Push(Bare(frame)));
    PerformKeepsRegistry(b.hub, effects);
    forall r | r in b.hub.byMesh
      ensures Told(OpsFor(ActAll(b, effects).journal, b.hub.byMesh[r])) == b.hub.byNode.Keys
    {
      var c := b.hub.byMesh[r];
      assert c in b.hub.byMesh.Values;
      EachOnce(peers, Push(Bare(frame)), c);
      ToldOneMore(b, effects, c, frame);
    }
  }

  lemma {:induction false} ClaimsElsewhere(to: ConnId, nodes: seq<Id>, id: ConnId)
    requires id != to
    ensures EffectOps(Claims(to, nodes), id) == []
  {
    if nodes == [] {
    } else {
      ClaimsElsewhere(to, nodes[..|nodes| - 1], id);
      assert Claims(to, nodes)[..|nodes| - 1] == Claims(to, nodes[..|nodes| - 1]);
    }
  }

  lemma ClaimsGrow(to: ConnId, nodes: seq<Id>, last: Id)
    ensures EffectOps(Claims(to, nodes + [last]), to)
         == EffectOps(Claims(to, nodes), to) + [Push(Bare(PeerPresent(last)))]
  {
    var all := Claims(to, nodes + [last]);
    assert all[..|all| - 1] == Claims(to, nodes);
  }

  lemma {:induction false} ClaimsTell(to: ConnId, nodes: seq<Id>)
    ensures Told(EffectOps(Claims(to, nodes), to)) == set n | n in nodes
  {
    if nodes == [] {
    } else {
      var front, last := nodes[..|nodes| - 1], nodes[|nodes| - 1];
      assert nodes == front + [last];
      ClaimsTell(to, front);
      ClaimsGrow(to, front, last);
      ToldAppend(EffectOps(Claims(to, front), to), [Push(Bare(PeerPresent(last)))]);
      OneBelief(Told(EffectOps(Claims(to, front), to)), last);
    }
  }

  lemma OneBelief(believed: set<Id>, node: Id)
    ensures BelieveAll(believed, [Push(Bare(PeerPresent(node)))]) == believed + {node}
  {
    var ops := [Push(Bare(PeerPresent(node)))];
    assert ops[..0] == [];
    assert BelieveAll(believed, ops[..0]) == believed;
  }

  lemma RegisterMesh(h: Hub, id: ConnId, relay: Id, nowMs: nat)
    ensures var g := Register(h, id, Mesh(relay), nowMs);
      && g.byMesh == h.byMesh[relay := id] && g.byNode == h.byNode && g.cfg == h.cfg
      && g.conns.Keys == h.conns.Keys + {id}
  {
  }

  lemma RegisterClient(h: Hub, id: ConnId, peer: Admitted, nowMs: nat)
    requires peer.Client?
    ensures var g := Register(h, id, peer, nowMs);
      && g.byMesh == h.byMesh && g.byNode.Keys == h.byNode.Keys + {peer.node} && g.cfg == h.cfg
  {
  }

  /** What the newcomer is told, and what the others are: nothing more. */
  lemma ClaimsTold(b: Traced, id: ConnId, nodes: seq<Id>, c: ConnId)
    requires b.hub.cfg.queueDepth > 0 && c in b.hub.conns && (c == id ==> OpsFor(b.journal, c) == [])
    ensures Told(OpsFor(ActAll(b, Claims(id, nodes)).journal, c))
         == if c == id then set n | n in nodes else Told(OpsFor(b.journal, c))
  {
    ActAllOps(b, Claims(id, nodes), c);
    if c == id {
      ClaimsTell(id, nodes);
      assert [] + EffectOps(Claims(id, nodes), c) == EffectOps(Claims(id, nodes), c);
    } else {
      ClaimsElsewhere(id, nodes, c);
      assert OpsFor(b.journal, c) + [] == OpsFor(b.journal, c);
    }
  }

  /** A relay that connects is told about everyone who is here. */
  lemma MeshJoinKeepsTold(t: Traced, id: ConnId, relay: Id, nowMs: nat, nodes: seq<Id>)
    requires t.hub.cfg.queueDepth > 0 && Wired(t.hub) && IdsOk(t)
    requires ToldOk(t) && id !in EverJoined(t.journal) && Lists(nodes, t.hub.byNode.Keys)
    ensures ToldOk(ActAll(Traced(Register(t.hub, id, Mesh(relay), nowMs), t.journal + [Joined(id, Mesh(relay))]),
                          Claims(id, nodes)))
  {
    var b := Traced(Register(t.hub, id, Mesh(relay), nowMs), t.journal + [Joined(id, Mesh(relay))]);
    RegisterMesh(t.hub, id, relay, nowMs);
    PerformKeepsRegistry(b.hub, Claims(id, nodes));
    NoOpsBeforeJoining(t.journal, id);
    assert (set n | n in nodes) == t.hub.byNode.Keys;
    forall r | r in b.hub.byMesh
      ensures Told(OpsFor(ActAll(b, Claims(id, nodes)).journal, b.hub.byMesh[r])) == b.hub.byNode.Keys
    {
      var c := b.hub.byMesh[r];
      JoinAddsNoOps(t.journal, id, Mesh(relay), c);
      ClaimsTold(b, id, nodes, c);
    }
  }

  lemma ClientJoinKeepsTold(t: Traced, id: ConnId, peer: Admitted, nowMs: nat, peers: seq<ConnId>)
    requires Core(t) && ToldOk(t) && id !in EverJoined(t.journal) && peer.Client?
    requires Lists(peers, t.hub.byMesh.Values)
    ensures var b := Traced(Register(t.hub, id, peer, nowMs), t.journal + [Joined(id, peer)]);
      ToldOk(if peer.node in t.hub.byNode then b else ActAll(b, ToEach(peers, Push(Bare(PeerPresent(peer.node))))))
  {
    var b := Traced(Register(t.hub, id, peer, nowMs), t.journal + [Joined(id, peer)]);
    RegisterKeepsWired(t.hub, id, peer, nowMs);
    RegisterClient(t.hub, id, peer, nowMs);
    forall r | r in b.hub.byMesh ensures Told(OpsFor(b.journal, b.hub.byMesh[r])) == t.hub.byNode.Keys {
      JoinAddsNoOps(t.journal, id, peer, b.hub.byMesh[r]);
    }
    if peer.node !in t.hub.byNode {
      GossipKeepsTold(b, peers, PeerPresent(peer.node), t.hub.byNode.Keys);
    }
  }

  lemma LeaveKeepsTold(t: Traced, id: ConnId, peers: seq<ConnId>)
    requires Core(t) && ToldOk(t) && Lists(peers, t.hub.byMesh.Values) && id in t.hub.conns
    ensures ToldOk(ActAll(Traced(Deregister(t.hub, id), t.journal), Disconnect(t.hub, id, peers).effects))
  {
    var b := Traced(Deregister(t.hub, id), t.journal);
    DeregisterKeepsCore(t, id);
    DeregisterTables(t.hub, id);
    var released := Releases(t.hub, id);
    if released.Some? {
      GossipKeepsTold(b, peers, PeerGone(released.value, Disconnected), t.hub.byNode.Keys);
    }
  }

  lemma StepKeepsTold(t: Traced, e: Event)
    requires Core(t) && Possible(t, e) && ToldOk(t)
    ensures ToldOk(Step(t, e))
  {
    match e
    case Joins(id, peer, nowMs, peers, nodes) =>
      if peer.Client? {
        ClientJoinKeepsTold(t, id, peer, nowMs, peers);
      } else {
        MeshJoinKeepsTold(t, id, peer.relay, nowMs, nodes);
      }
    case Leaves(id, peers) =>
      assert t.journal + [] == t.journal;
      if id in t.hub.conns {
        LeaveKeepsTold(t, id, peers);
      }
    case _ => SettledKeepsTold(t, e);
  }

  lemma {:induction false} RunsKeepTold(cfg: Config, events: seq<Event>)
    requires cfg.queueDepth > 0 && Feasible(cfg, events)
    ensures Core(After(cfg, events)) && ToldOk(After(cfg, events))
  {
    if events == [] {
    } else {
      var front, last := events[..|events| - 1], events[|events| - 1];
      RunsKeepTold(cfg, front);
      StepKeepsCore(After(cfg, front), last);
      StepKeepsTold(After(cfg, front), last);
    }
  }

  // ---- What the peer reads: the frames taken, then the frames waiting ----

  /** The nodes that a reader of these frames believes present. */
  function View(frames: seq<Outbound>): set<Id> {
    if frames == [] then {}
    else Believe(View(frames[..|frames| - 1]), frames[|frames| - 1].frame)
  }

  lemma {:induction false} ViewSkipsUrgent(a: seq<Outbound>, x: Outbound, b: seq<Outbound>)
    requires Urgent(x.frame)
    ensures View(a + [x] + b) == View(a + b)
  {
    if b == [] {
      assert (a + [x] + b)[..|a|] == a && a + b == a;
    } else {
      var front := b[..|b| - 1];
      ViewSkipsUrgent(a, x, front);
      assert (a + [x] + b)[..|a + [x] + b| - 1] == a + [x] + front;
      assert (a + b)[..|a + b| - 1] == a + front;
    }
  }

  lemma NextUndisplaced(q: seq<Outbound>, depth: nat, op: QueueOp)
    requires depth > 0 && Displaces(q, depth, op) == 0
    ensures Next(q, depth, op) ==
      match op
      case Take => if q == [] then [] else q[1..]
      case Jump(x) => [x] + q
      case _ => q + [op.item]
  {
  }

  lemma HeadMoves(taken: seq<Outbound>, q: seq<Outbound>)
    requires q != []
    ensures taken + [q[0]] + q[1..] == taken + q
  {
  }

  /** What one operation adds to the frames taken and waiting, taken together,
      when it displaces nothing. */
  lemma ReadStep(depth: nat, ops: seq<QueueOp>)
    requires depth > 0 && ops != [] && Displaced(depth, ops) == 0
    ensures var front, last := ops[..|ops| - 1], ops[|ops| - 1];
      var taken, q := Taken(depth, front), Contents(depth, front);
      && Displaced(depth, front) == 0
      && Taken(depth, ops) + Contents(depth, ops) ==
           match last
           case Take => taken + q
           case Jump(x) => taken + [x] + q
           case _ => taken + q + [last.item]
  {
    var front, last := ops[..|ops| - 1], ops[|ops| - 1];
    var taken, q := Taken(depth, front), Contents(depth, front);
    NextUndisplaced(q, depth, last);
    assert Contents(depth, ops) == Next(q, depth, last);
    match last
    case Take =>
      if q != [] {
        HeadMoves(taken, q);
      }
    case Jump(x) =>
      assert Taken(depth, ops) == taken;
      Assoc(taken, [x], q);
    case _ =>
      assert Taken(depth, ops) == taken;
      Assoc(taken, q, [last.item]);
  }

  lemma ViewGrows(frames: seq<Outbound>, x: Outbound)
    ensures View(frames + [x]) == Believe(View(frames), x.frame)
  {
    assert (frames + [x])[..|frames|] == frames;
  }

  /** What was taken, followed by what waits. */
  function ReadAll(depth: nat, ops: seq<QueueOp>): seq<Outbound>
    requires depth > 0
  {
    Taken(depth, ops) + Contents(depth, ops)
  }

  lemma ViewOf(all: seq<Outbound>, taken: seq<Outbound>, q: seq<Outbound>, last: QueueOp)
    requires last.Jump? ==> Urgent(last.item.frame)
    requires all == match last
      case Take => taken + q
      case Jump(x) => taken + [x] + q
      case _ => taken + q + [last.item]
    ensures View(all) == if last.Take? then View(taken + q) else Believe(View(taken + q), last.item.frame)
  {
    match last
    case Take =>
    case Jump(x) => ViewSkipsUrgent(taken, x, q);
    case _ => ViewGrows(taken + q, last.item);
  }

  lemma ViewStep(depth: nat, ops: seq<QueueOp>)
    requires depth > 0 && ops != [] && Displaced(depth, ops) == 0
    requires ops[|ops| - 1].Jump? ==> Urgent(ops[|ops| - 1].item.frame)
    ensures var front, last := ops[..|ops| - 1], ops[|ops| - 1];
      && Displaced(depth, front) == 0
      && View(ReadAll(depth, ops))
         == if last.Take? then View(ReadAll(depth, front)) else Believe(View(ReadAll(depth, front)), last.item.frame)
  {
    var front, last := ops[..|ops| - 1], ops[|ops| - 1];
    ReadStep(depth, ops);
    ViewOf(ReadAll(depth, ops), Taken(depth, front), Contents(depth, front), last);
  }

  /** With nothing displaced, reading what was taken and then what waits gives
      the same beliefs as the operations do. */
  lemma {:induction false} ReadingTellsAll(depth: nat, ops: seq<QueueOp>)
    requires depth > 0 && Displaced(depth, ops) == 0
    requires forall i :: 0 <= i < |ops| && ops[i].Jump? ==> Urgent(ops[i].item.frame)
    ensures View(ReadAll(depth, ops)) == Told(ops)
  {
    if ops == [] {
      assert ReadAll(depth, ops) == [];
    } else {
      ViewStep(depth, ops);
      ReadingTellsAll(depth, ops[..|ops| - 1]);
    }
  }

  /** Presence replication: in every reachable state, each mesh connection that
      owns its relay id and has lost nothing to its bound has been told, by the
      frames it took and those still waiting, exactly the nodes connected here. */
  lemma PresenceReplication(cfg: Config, events: seq<Event>, relay: Id)
    requires cfg.queueDepth > 0 && Feasible(cfg, events)
    requires relay in After(cfg, events).hub.byMesh
    ensures var t := After(cfg, events);
      var c := t.hub.byMesh[relay];
      && c in t.hub.conns
      && (t.hub.conns[c].stats.droppedQueue == 0 ==>
            View(Taken(cfg.queueDepth, OpsFor(t.journal, c)) + t.hub.conns[c].queue) == t.hub.byNode.Keys)
  {
    RunsFit(cfg, events, None);
    RunsKeepTold(cfg, events);
    var t := After(cfg, events);
    var c := t.hub.byMesh[relay];
    var ops := OpsFor(t.journal, c);
    if t.hub.conns[c].stats.droppedQueue == 0 {
      forall i | 0 <= i < |ops| && ops[i].Jump? ensures Urgent(ops[i].item.frame) {
        assert Fits(t.hub.conns[c].peer, ops[i], None);
      }
      ReadingTellsAll(cfg.queueDepth, ops);
    }
  }
}

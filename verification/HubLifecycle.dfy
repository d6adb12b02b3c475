/** The life of a connection as the server drives it: a fresh id is admitted,
    the connection it replaces is told and drains, and is forgotten later. */
module HubLifecycle {
  import opened Common
  import opened Frames
  import opened Lanes
  import opened HubModel
  import opened HubRuns
  import opened HubInvariants

  /** Admitting a node that is already here registers the newcomer and queues
      nothing to anyone. */
  lemma ReplacingJoin(t: Traced, id: ConnId, peer: Admitted, nowMs: nat, peers: seq<ConnId>, nodes: seq<Id>)
    requires t.hub.cfg.queueDepth > 0 && peer.Client? && peer.node in t.hub.byNode
    ensures Step(t, Joins(id, peer, nowMs, peers, nodes))
         == Traced(Register(t.hub, id, peer, nowMs), t.journal + [Joined(id, peer)])
  {
  }

  lemma ActTwo(t: Traced, a: Effect, b: Effect)
    requires t.hub.cfg.queueDepth > 0
    ensures ActAll(t, [a, b]) == Act(Act(t, a), b)
  {
    assert [a, b][..1] == [a] && [a][..0] == [];
    assert ActAll(t, [a][..0]) == t;
    assert ActAll(t, [a]) == Act(t, a);
  }

  /** A reasoned close puts its reason behind whatever waits, and touches no
      other connection. */
  lemma ReasonedClose(t: Traced, prior: ConnId, why: Reason)
    requires t.hub.cfg.queueDepth > 0 && prior in t.hub.conns
    ensures var u := Step(t, Closes(prior, Some(why)));
      && u.hub == t.hub.(conns := u.hub.conns, dirty := u.hub.dirty)
      && u.hub.conns.Keys == t.hub.conns.Keys
      && u.hub.conns[prior] == t.hub.conns[prior].(queue := t.hub.conns[prior].queue + [Bare(Close(why))],
                                               closeAfterFlush := Some(why))
      && (forall c :: c in t.hub.conns && c != prior ==> u.hub.conns[c] == t.hub.conns[c])
      && u.journal == t.journal + [Did(prior, Farewell(Bare(Close(why))))]
  {
    assert t.journal + [] == t.journal;
    ActTwo(Begin(t, Closes(prior, Some(why))), Queue(prior, Farewell(Bare(Close(why)))), Closing(prior, why));
  }

  /** Forgetting a client that another connection has replaced releases nothing
      and tells nobody. */
  lemma ReplacedLeaves(t: Traced, prior: ConnId, peers: seq<ConnId>)
    requires t.hub.cfg.queueDepth > 0 && prior in t.hub.conns && t.hub.conns[prior].peer.Client?
    requires Releases(t.hub, prior).None?
    ensures Step(t, Leaves(prior, peers)) == Traced(Deregister(t.hub, prior), t.journal)
    ensures Deregister(t.hub, prior).byNode == t.hub.byNode && Deregister(t.hub, prior).conns == t.hub.conns - {prior}
  {
    assert t.journal + [] == t.journal;
  }

  lemma FarewellIsPrivate(journal: seq<Entry>, prior: ConnId, op: QueueOp, c: ConnId)
    requires c != prior
    ensures OpsFor(journal + [Did(prior, op)], c) == OpsFor(journal, c)
  {
    assert (journal + [Did(prior, op)])[..|journal|] == journal;
  }

  // ---- A connection that was replaced ----

  /** No node is reached through it any more, and it is not a relay's. */
  ghost predicate Superseded(t: Traced, prior: ConnId) {
    && prior in EverJoined(t.journal)
    && (forall n :: n in t.hub.byNode ==> t.hub.byNode[n] != prior)
    && (prior in t.hub.conns ==> t.hub.conns[prior].peer.Client?)
  }

  lemma QuietKeepsSuperseded(t: Traced, g: Hub, notes: seq<Entry>, prior: ConnId)
    requires Superseded(t, prior) && SameLanes(t.hub, g) && Quiet(notes)
    ensures Superseded(Traced(g, t.journal + notes), prior)
  {
    QuietAppend(t.journal, notes, prior);
  }

  lemma RegisterKeepsSuperseded(t: Traced, id: ConnId, peer: Admitted, nowMs: nat, prior: ConnId)
    requires Superseded(t, prior) && id !in EverJoined(t.journal)
    ensures Superseded(Traced(Register(t.hub, id, peer, nowMs), t.journal + [Joined(id, peer)]), prior)
  {
    JoinAddsNoOps(t.journal, id, peer, prior);
  }

  lemma DeregisterKeepsSuperseded(t: Traced, id: ConnId, prior: ConnId)
    requires Superseded(t, prior) && id in t.hub.conns
    ensures Superseded(Traced(Deregister(t.hub, id), t.journal), prior)
  {
    DeregisterTables(t.hub, id);
  }

  lemma BeginKeepsSuperseded(t: Traced, e: Event, prior: ConnId)
    requires Possible(t, e) && Superseded(t, prior)
    ensures Superseded(Begin(t, e), prior)
  {
    match e
    case Joins(id, peer, nowMs, _, _) => RegisterKeepsSuperseded(t, id, peer, nowMs, prior);
    case Leaves(id, _) =>
      assert t.journal + [] == t.journal;
      if id in t.hub.conns {
        DeregisterKeepsSuperseded(t, id, prior);
      }
    case _ =>
      SettledKeepsLanes(t.hub, e);
      SettledNotesAreQuiet(t.hub, e);
      QuietKeepsSuperseded(t, PlanOf(t.hub, e).hub, Notes(t.hub, e), prior);
  }

  lemma StepKeepsSuperseded(t: Traced, e: Event, prior: ConnId)
    requires Core(t) && Possible(t, e) && Superseded(t, prior)
    ensures Superseded(Step(t, e), prior)
  {
    BeginKeepsSuperseded(t, e, prior);
    BeginKeepsCore(t, e);
    PerformKeepsRegistry(Begin(t, e).hub, PlanOf(t.hub, e).effects);
    ActAllKeepsIds(Begin(t, e), PlanOf(t.hub, e).effects);
  }

  // ---- It is sent no more packets ----

  predicate Delivers(op: QueueOp) { !op.Take? && op.item.frame.RecvPacket? }

  /** Packets ever queued to one connection. */
  function Deliveries(journal: seq<Entry>, c: ConnId): nat {
    if journal == [] then 0
    else
      var last := journal[|journal| - 1];
      Deliveries(journal[..|journal| - 1], c) + if last.Did? && last.id == c && Delivers(last.op) then 1 else 0
  }

  predicate Spares(effects: seq<Effect>, c: ConnId) {
    forall i :: 0 <= i < |effects| && effects[i].Queue? && effects[i].to == c ==> !Delivers(effects[i].op)
  }

  lemma {:induction false} NotesDeliverNothing(journal: seq<Entry>, notes: seq<Entry>, c: ConnId)
    requires forall i :: 0 <= i < |notes| ==> !notes[i].Did?
    ensures Deliveries(journal + notes, c) == Deliveries(journal, c)
  {
    if notes == [] {
      assert journal + notes == journal;
    } else {
      NotesDeliverNothing(journal, notes[..|notes| - 1], c);
      assert (journal + notes)[..|journal + notes| - 1] == journal + notes[..|notes| - 1];
    }
  }

  lemma {:induction false} SparedActs(t: Traced, effects: seq<Effect>, c: ConnId)
    requires t.hub.cfg.queueDepth > 0 && Spares(effects, c)
    ensures Deliveries(ActAll(t, effects).journal, c) == Deliveries(t.journal, c)
  {
    if effects == [] {
    } else {
      var front, last := effects[..|effects| - 1], effects[|effects| - 1];
      SparedActs(t, front, c);
      var b := ActAll(t, front);
      if last.Queue? && last.to in b.hub.conns {
        assert (b.journal + [Did(last.to, last.op)])[..|b.journal|] == b.journal;
      }
    }
  }

  ghost predicate Unreached(h: Hub, c: ConnId) { forall n :: n in h.byNode ==> h.byNode[n] != c }

  lemma RouteSpares(h: Hub, from: ConnId, src: Id, dst: Id, payload: seq<Byte>,
                    mapping: Option<UsageMapping>, gate: Gate, c: ConnId)
    requires Unreached(h, c)
    ensures Spares(Route(h, from, src, dst, payload, mapping, gate).effects, c)
  {
  }

  lemma ForwardSpares(h: Hub, from: ConnId, dst: Id, payload: seq<Byte>, roster: Roster, nowMs: nat,
                      mapping: Option<UsageMapping>, gate: Gate, c: ConnId)
    requires from in h.conns && h.conns[from].peer.Client? && Unreached(h, c)
    ensures Spares(ForwardFromClient(h, from, dst, payload, roster, nowMs, mapping, gate).effects, c)
  {
    var Client(src, aquifer) := h.conns[from].peer;
    RouteSpares(ChargeAquifer(h, aquifer, |payload|, nowMs), from, src, dst, payload, mapping, gate, c);
  }

  lemma MeshSpares(h: Hub, from: ConnId, src: Id, dst: Id, payload: seq<Byte>, roster: Roster, nowMs: nat,
                   mapping: Option<UsageMapping>, gate: Gate, c: ConnId)
    requires Unreached(h, c)
    ensures Spares(DeliverFromMesh(h, from, src, dst, payload, roster, nowMs, mapping, gate).effects, c)
  {
  }

  lemma DispatchSpares(h: Hub, id: ConnId, frame: Frame, roster: Roster, nowMs: nat,
                       mapping: Option<UsageMapping>, gate: Gate, c: ConnId)
    requires id in h.conns && Unreached(h, c)
    ensures Spares(Dispatch(h, id, frame, roster, nowMs, mapping, gate).effects, c)
  {
    if frame.SendPacket? && h.conns[id].peer.Client? {
      ForwardSpares(h, id, frame.dst, frame.payload, roster, nowMs, mapping, gate, c);
    } else if frame.Forward? && h.conns[id].peer.Mesh? {
      MeshSpares(h, id, frame.src, frame.dst, frame.payload, roster, nowMs, mapping, gate, c);
    }
  }

  lemma {:induction false} RestartSpares(clients: seq<ConnId>, notice: Frame, c: ConnId)
    requires notice.Restarting?
    ensures Spares(RestartEach(clients, notice), c)
  {
    if clients == [] {
    } else {
      RestartSpares(clients[..|clients| - 1], notice, c);
    }
  }

  lemma PlanSpares(h: Hub, e: Event, c: ConnId)
    requires Unreached(h, c)
    ensures Spares(PlanOf(h, e).effects, c)
  {
    if e.Hears? {
      if Accepts(h, e.id, e.frame, e.nowMs) {
        var heard := Heard(h.conns[e.id], EncodedLen(e.frame), e.nowMs);
        DispatchSpares(h.(conns := h.conns[e.id := heard]), e.id, e.frame, e.roster, e.nowMs, e.mapping, e.gate, c);
      }
    } else if e.Restarts? {
      RestartSpares(e.clients, Restarting(e.reconnectInMs, e.tryForMs), c);
    }
  }

  lemma StepSpares(t: Traced, e: Event, c: ConnId)
    requires t.hub.cfg.queueDepth > 0 && Unreached(t.hub, c)
    ensures Deliveries(Step(t, e).journal, c) == Deliveries(t.journal, c)
  {
    forall i | 0 <= i < |Notes(t.hub, e)| ensures !Notes(t.hub, e)[i].Did? {
      if Settled(e) {
        SettledNotesAreQuiet(t.hub, e);
      }
    }
    NotesDeliverNothing(t.journal, Notes(t.hub, e), c);
    PlanSpares(t.hub, e, c);
    SparedActs(Begin(t, e), PlanOf(t.hub, e).effects, c);
  }

  // ---- Runs ----

  lemma {:induction false} FeasiblePrefix(cfg: Config, events: seq<Event>, more: seq<Event>)
    requires cfg.queueDepth > 0 && Feasible(cfg, events + more)
    ensures Feasible(cfg, events)
  {
    if more == [] {
      assert events + more == events;
    } else {
      assert (events + more)[..|events + more| - 1] == events + more[..|more| - 1];
      FeasiblePrefix(cfg, events, more[..|more| - 1]);
    }
  }

  /** In every continuation a replaced connection stays replaced, and no packet
      is queued to it. */
  lemma {:induction false} ReplacedForGood(cfg: Config, events: seq<Event>, more: seq<Event>, prior: ConnId)
    requires cfg.queueDepth > 0 && Feasible(cfg, events + more) && Superseded(After(cfg, events), prior)
    ensures Superseded(After(cfg, events + more), prior)
    ensures Deliveries(After(cfg, events + more).journal, prior) == Deliveries(After(cfg, events).journal, prior)
  {
    if more == [] {
      assert events + more == events;
    } else {
      var front, last := more[..|more| - 1], more[|more| - 1];
      assert (events + more)[..|events + more| - 1] == events + front;
      ReplacedForGood(cfg, events, front, prior);
      RunsKeepCore(cfg, events + front);
      StepKeepsSuperseded(After(cfg, events + front), last, prior);
      StepSpares(After(cfg, events + front), last, prior);
    }
  }

  /** A node reconnects.  The admission names its old connection and tells
      nobody. */
  lemma JoinSupersedes(cfg: Config, events: seq<Event>, e: Event, c: ConnId)
    requires cfg.queueDepth > 0 && Feasible(cfg, events + [e])
    requires e.Joins? && e.peer.Client? && e.peer.node in After(cfg, events).hub.byNode
    ensures var t, joined := After(cfg, events), After(cfg, events + [e]);
      var prior := t.hub.byNode[e.peer.node];
      && Replaces(t.hub, e.id, e.peer) == Some(prior) && prior in t.hub.conns
      && joined.hub.byNode == t.hub.byNode[e.peer.node := e.id]
      && OpsFor(joined.journal, c) == OpsFor(t.journal, c)
      && Superseded(joined, prior)
  {
    var t := After(cfg, events);
    AfterOneMore(cfg, events, e);
    FeasiblePrefix(cfg, events, [e]);
    RunsKeepCore(cfg, events);
    ReplacingJoin(t, e.id, e.peer, e.nowMs, e.peers, e.nodes);
    JoinAddsNoOps(t.journal, e.id, e.peer, c);
  }

  /** The old connection is told, whenever that is: the reason goes behind what
      it still has to send, and no other connection is touched. */
  lemma CloseTellsOnlyPrior(t: Traced, prior: ConnId, c: ConnId)
    requires t.hub.cfg.queueDepth > 0
    ensures var told := Step(t, Closes(prior, Some(Reason.Replaced)));
      && told.hub.byNode == t.hub.byNode && told.hub.conns.Keys == t.hub.conns.Keys
      && (prior in t.hub.conns ==>
            && told.hub.conns[prior].queue == t.hub.conns[prior].queue + [Bare(Close(Reason.Replaced))]
            && told.hub.conns[prior].closeAfterFlush == Some(Reason.Replaced))
      && (c != prior ==>
            && OpsFor(told.journal, c) == OpsFor(t.journal, c)
            && (c in t.hub.conns ==> told.hub.conns[c] == t.hub.conns[c]))
  {
    var e := Closes(prior, Some(Reason.Replaced));
    if prior in t.hub.conns {
      ReasonedClose(t, prior, Reason.Replaced);
      if c != prior {
        FarewellIsPrivate(t.journal, prior, Farewell(Bare(Close(Reason.Replaced))), c);
      }
    } else {
      assert t.journal + [] == t.journal;
      ActTwo(Begin(t, e), Queue(prior, Farewell(Bare(Close(Reason.Replaced)))), Closing(prior, Reason.Replaced));
    }
  }

  /** It is forgotten, whenever that is: no node is released, nothing is queued
      to anyone. */
  lemma SupersededLeaves(t: Traced, prior: ConnId, peers: seq<ConnId>)
    requires t.hub.cfg.queueDepth > 0 && Superseded(t, prior)
    ensures var gone := Step(t, Leaves(prior, peers));
      && Releases(t.hub, prior).None?
      && gone.hub.byNode == t.hub.byNode && gone.hub.conns == t.hub.conns - {prior}
      && gone.journal == t.journal
  {
    assert t.journal + [] == t.journal;
    if prior in t.hub.conns {
      ReplacedLeaves(t, prior, peers);
    }
  }

  /** A node that reconnects, from admission to the end of its old connection,
      with anything at all happening in between: the old one is named, told why
      behind what it still has to send, and forgotten without touching its
      successor; none of the three steps sends anything to another connection,
      so the mesh hears neither an arrival nor a departure; and no packet is
      queued to the old connection from the admission on. */
  lemma ReplacementHandsOver(cfg: Config, before: seq<Event>, join: Event, mid: seq<Event>, late: seq<Event>,
                             prior: ConnId, peers: seq<ConnId>, c: ConnId)
    requires cfg.queueDepth > 0
    requires join.Joins? && join.peer.Client? && join.peer.node in After(cfg, before).hub.byNode
    requires prior == After(cfg, before).hub.byNode[join.peer.node]
    requires Feasible(cfg, before + [join] + mid + [Closes(prior, Some(Reason.Replaced))] + late
                           + [Leaves(prior, peers)])
    ensures var joining := before + [join];
      var closing := joining + mid + [Closes(prior, Some(Reason.Replaced))];
      var leaving := closing + late + [Leaves(prior, peers)];
      var t0, t1 := After(cfg, before), After(cfg, joining);
      var t2, t3 := After(cfg, joining + mid), After(cfg, closing);
      var t4, t5 := After(cfg, closing + late), After(cfg, leaving);
      && Replaces(t0.hub, join.id, join.peer) == Some(prior)
      && t1.hub.byNode == t0.hub.byNode[join.peer.node := join.id] && OpsFor(t1.journal, c) == OpsFor(t0.journal, c)
      && (prior in t2.hub.conns ==>
            && prior in t3.hub.conns
            && t3.hub.conns[prior].queue == t2.hub.conns[prior].queue + [Bare(Close(Reason.Replaced))]
            && t3.hub.conns[prior].closeAfterFlush == Some(Reason.Replaced))
      && t3.hub.byNode == t2.hub.byNode && (c != prior ==> OpsFor(t3.journal, c) == OpsFor(t2.journal, c))
      && t5.hub.byNode == t4.hub.byNode && t5.hub.conns == t4.hub.conns - {prior}
      && OpsFor(t5.journal, c) == OpsFor(t4.journal, c)
      && Deliveries(t5.journal, prior) == Deliveries(t1.journal, prior)
  {
    var close, leave := Closes(prior, Some(Reason.Replaced)), Leaves(prior, peers);
    var joining := before + [join];
    var closing := joining + mid + [close];
    FeasiblePrefix(cfg, closing + late, [leave]);
    FeasiblePrefix(cfg, closing, late);
    FeasiblePrefix(cfg, joining + mid, [close]);
    FeasiblePrefix(cfg, joining, mid);
    JoinSupersedes(cfg, before, join, c);
    ReplacedForGood(cfg, joining, mid, prior);
    AfterOneMore(cfg, joining + mid, close);
    CloseTellsOnlyPrior(After(cfg, joining + mid), prior, c);
    ReplacedForGood(cfg, joining + mid, [close], prior);
    ReplacedForGood(cfg, closing, late, prior);
    AfterOneMore(cfg, closing + late, leave);
    SupersededLeaves(After(cfg, closing + late), prior, peers);
  }
}

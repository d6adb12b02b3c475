/** Runs on which a relay's belief about a node is not so: a late claim hides
    where the node is, and a replaced link leaves an entry that nothing will
    retract. */
module HubStale {
  import opened Common
  import opened Frames
  import opened Lanes
  import opened Limits
  import opened HubModel
  import opened HubRuns
  import opened HubInvariants
  import opened HubPresence
  import opened HubReplica
  import opened HubServer

  // ---- The sending end: tell and let it be taken ----

  /** A relay with one link `c`, to `peer`, over which `sent` was given so far
      and nothing is waiting; ids from `next` on are unused. */
  ghost predicate Sender(cfg: Config, events: seq<Event>, peer: Id, c: ConnId,
                         nodes: map<Id, ConnId>, sent: seq<Frame>, next: ConnId)
    requires cfg.queueDepth > 0
  {
    var t := After(cfg, events);
    var ops := OpsFor(t.journal, c);
    && Traces(cfg, events, next, t.hub)
    && t.hub.byMesh == map[peer := c] && t.hub.byNode == nodes
    && Contents(cfg.queueDepth, ops) == [] && Displaced(cfg.queueDepth, ops) == 0
    && FramesOf(Taken(cfg.queueDepth, ops)) == sent
  }

  lemma SenderIsDrained(cfg: Config, events: seq<Event>, peer: Id, c: ConnId,
                        nodes: map<Id, ConnId>, sent: seq<Frame>, next: ConnId)
    requires cfg.queueDepth > 0 && Sender(cfg, events, peer, c, nodes, sent, next)
    ensures Drained(cfg, events, peer, sent)
  {
    RunsKeepCore(cfg, events);
    var t := After(cfg, events);
    assert t.hub.byMesh[peer] == c;
    assert LaneOk(t.hub.conns[c], cfg.queueDepth, OpsFor(t.journal, c));
  }

  lemma OneOp(depth: nat, ops: seq<QueueOp>, op: QueueOp)
    requires depth > 0
    ensures var q, more := Contents(depth, ops), ops + [op];
      && Contents(depth, more) == Next(q, depth, op)
      && Displaced(depth, more) == Displaced(depth, ops) + Displaces(q, depth, op)
      && Taken(depth, more) == Taken(depth, ops) + if op.Take? && q != [] then [q[0]] else []
  {
    assert (ops + [op])[..|ops|] == ops;
  }

  lemma PushTake(depth: nat, ops: seq<QueueOp>, x: Outbound)
    requires depth > 0 && Contents(depth, ops) == [] && Displaced(depth, ops) == 0
    ensures var more := ops + [Push(x)] + [Take];
      && Contents(depth, more) == [] && Displaced(depth, more) == 0
      && Taken(depth, more) == Taken(depth, ops) + [x]
  {
    OneOp(depth, ops, Push(x));
    OneOp(depth, ops + [Push(x)], Take);
  }

  lemma FramesOfGrow(outs: seq<Outbound>, x: Outbound)
    ensures FramesOf(outs + [x]) == FramesOf(outs) + [x.frame]
  {
  }

  lemma TellsOps(t: Traced, e: Event, c: ConnId, op: QueueOp)
    requires t.hub.cfg.queueDepth > 0 && c in Begin(t, e).hub.conns
    requires PlanOf(t.hub, e).effects == ToEach([c], op)
    requires OpsFor(t.journal + Notes(t.hub, e), c) == OpsFor(t.journal, c)
    ensures OpsFor(Step(t, e).journal, c) == OpsFor(t.journal, c) + [op]
  {
    ActAllOps(Begin(t, e), ToEach([c], op), c);
    EachOnce([c], op, c);
  }

  lemma TakesOps(t: Traced, c: ConnId)
    requires t.hub.cfg.queueDepth > 0 && c in t.hub.conns
    ensures OpsFor(Step(t, Takes(c)).journal, c) == OpsFor(t.journal, c) + [Take]
    ensures SameRegistry(t.hub, Step(t, Takes(c)).hub)
  {
    SettledNotesAreQuiet(t.hub, Takes(c));
    QuietAppend(t.journal, Notes(t.hub, Takes(c)), c);
    assert ToEach([c], Op<Outbound>.Take) == [Queue(c, Take)];
    TellsOps(t, Takes(c), c, Take);
    PerformKeepsRegistry(t.hub, [Queue(c, Take)]);
  }

  lemma TellsTables(t: Traced, e: Event)
    requires t.hub.cfg.queueDepth > 0
    ensures SameRegistry(PlanOf(t.hub, e).hub, Step(t, e).hub)
  {
    PerformKeepsRegistry(Begin(t, e).hub, PlanOf(t.hub, e).effects);
  }

  /** An event that tells the link one frame, and the frame taken. */
  lemma TellsOne(cfg: Config, events: seq<Event>, peer: Id, c: ConnId, nodes: map<Id, ConnId>, sent: seq<Frame>,
                 next: ConnId, e: Event, frame: Frame)
    requires cfg.queueDepth > 0 && Sender(cfg, events, peer, c, nodes, sent, next)
    requires Possible(After(cfg, events), e)
    requires var t := After(cfg, events);
      && PlanOf(t.hub, e).effects == ToEach([c], Push(Bare(frame)))
      && c in PlanOf(t.hub, e).hub.conns && PlanOf(t.hub, e).hub.byMesh == t.hub.byMesh
      && OpsFor(t.journal + Notes(t.hub, e), c) == OpsFor(t.journal, c)
    ensures Sender(cfg, events + [e] + [Takes(c)], peer, c, PlanOf(After(cfg, events).hub, e).hub.byNode,
                   sent + [frame], if e.Joins? then Max(next, e.id + 1) else next)
  {
    var t, told := After(cfg, events), After(cfg, events + [e]);
    var ops, later := OpsFor(t.journal, c), if e.Joins? then Max(next, e.id + 1) else next;
    AfterOneMore(cfg, events, e);
    Extends(cfg, events, next, t.hub, e);
    TellsOps(t, e, c, Push(Bare(frame)));
    TellsTables(t, e);
    AfterOneMore(cfg, events + [e], Takes(c));
    Extends(cfg, events + [e], later, told.hub, Takes(c));
    TakesOps(told, c);
    PushTake(cfg.queueDepth, ops, Bare(frame));
    FramesOfGrow(Taken(cfg.queueDepth, ops), Bare(frame));
  }

  lemma ListsOne(table: map<Id, ConnId>, r: Id, c: ConnId)
    requires table == map[r := c]
    ensures Lists([c], table.Values)
  {
    assert table[r] == c;
  }

  lemma LinkUp(cfg: Config, events: seq<Event>, peer: Id, c: ConnId, next: ConnId)
    requires cfg.queueDepth > 0 && Traces(cfg, events, next, After(cfg, events).hub) && next <= c
    requires After(cfg, events).hub.byMesh == map[] && After(cfg, events).hub.byNode == map[]
    ensures Sender(cfg, events + [Joins(c, Mesh(peer), 0, [], [])], peer, c, map[], [], c + 1)
  {
    var t, e := After(cfg, events), Joins(c, Mesh(peer), 0, [], []);
    RunsKeepCore(cfg, events);
    AfterOneMore(cfg, events, e);
    Extends(cfg, events, next, t.hub, e);
    NoOpsBeforeJoining(t.journal, c);
    JoinAddsNoOps(t.journal, c, Mesh(peer), c);
    RegisterMesh(t.hub, c, peer, 0);
    assert PlanOf(t.hub, e).effects == [];
  }

  lemma NodeComes(cfg: Config, events: seq<Event>, peer: Id, c: ConnId, sent: seq<Frame>, next: ConnId,
                  n: Id, id: ConnId)
    requires cfg.queueDepth > 0 && Sender(cfg, events, peer, c, map[], sent, next) && next <= id
    ensures Sender(cfg, events + [Joins(id, Client(n, ""), 0, [c], [])] + [Takes(c)], peer, c, map[n := id],
                   sent + [PeerPresent(n)], id + 1)
  {
    var t, e := After(cfg, events), Joins(id, Client(n, ""), 0, [c], []);
    RunsKeepCore(cfg, events);
    ListsOne(t.hub.byMesh, peer, c);
    assert t.hub.byMesh[peer] == c;
    JoinAddsNoOps(t.journal, id, Client(n, ""), c);
    TellsOne(cfg, events, peer, c, map[], sent, next, e, PeerPresent(n));
  }

  lemma NodeGoes(cfg: Config, events: seq<Event>, peer: Id, c: ConnId, sent: seq<Frame>, next: ConnId,
                 n: Id, id: ConnId)
    requires cfg.queueDepth > 0 && Sender(cfg, events, peer, c, map[n := id], sent, next)
    ensures Sender(cfg, events + [Leaves(id, [c])] + [Takes(c)], peer, c, map[],
                   sent + [PeerGone(n, Disconnected)], next)
  {
    var t, e := After(cfg, events), Leaves(id, [c]);
    RunsKeepCore(cfg, events);
    ListsOne(t.hub.byMesh, peer, c);
    assert t.hub.byMesh[peer] == c && t.hub.byNode[n] == id;
    assert t.journal + [] == t.journal;
    DeregisterTables(t.hub, id);
    DeregisterKeepsWired(t.hub, id);
    TellsOne(cfg, events, peer, c, map[n := id], sent, next, e, PeerGone(n, Disconnected));
  }

  // ---- The receiving end ----

  /** Enough left for `k` frames of presence. */
  predicate Rich(m: Meter, k: nat) { m.bytes.tokens >= 100 * k && m.frames.tokens >= k }

  lemma RichPays(m: Meter, len: nat, k: nat)
    requires Rich(m, k + 1) && len <= 100
    ensures CanPay(m, len, 0) && Rich(Charge(m, len, 0), k)
  {
  }

  function Tells(id: ConnId, frame: Frame): Event { Hears(id, frame, map[], 0, None, None) }

  lemma TellsPlan(h: Hub, id: ConnId, relay: Id, frame: Frame)
    requires Accepts(h, id, frame, 0) && h.conns[id].peer == Mesh(relay) && (frame.PeerPresent? || frame.PeerGone?)
    ensures var c := Heard(h.conns[id], EncodedLen(frame), 0);
      && PlanOf(h, Tells(id, frame)).effects == []
      && PlanOf(h, Tells(id, frame)).hub == h.(conns := h.conns[id := c], presence := Presence(h, relay, frame))
  {
    OnFrameIs(h, id, frame, map[], 0, None, None);
  }

  lemma TellsStep(t: Traced, id: ConnId, relay: Id, frame: Frame)
    requires t.hub.cfg.queueDepth > 0 && Accepts(t.hub, id, frame, 0) && t.hub.conns[id].peer == Mesh(relay)
    requires frame.PeerPresent? || frame.PeerGone?
    ensures Step(t, Tells(id, frame)).hub == t.hub.(
      conns := t.hub.conns[id := Heard(t.hub.conns[id], EncodedLen(frame), 0)],
      presence := Presence(t.hub, relay, frame))
  {
    TellsPlan(t.hub, id, relay, frame);
  }

  lemma TellsPaid(h: Hub, id: ConnId, relay: Id, frame: Frame, k: nat)
    requires id in h.conns && h.conns[id].peer == Mesh(relay) && Rich(h.conns[id].meter, k + 1)
    requires frame.PeerPresent? || frame.PeerGone?
    ensures Accepts(h, id, frame, 0) && Learned(h, Tells(id, frame)) == Some(relay)
    ensures var c := Heard(h.conns[id], EncodedLen(frame), 0); c.peer == Mesh(relay) && Rich(c.meter, k)
  {
    RichPays(h.conns[id].meter, EncodedLen(frame), k);
  }

  /** A claim or a retraction heard from a relay. */
  lemma HearsOne(cfg: Config, events: seq<Event>, next: ConnId, id: ConnId, relay: Id, frame: Frame, k: nat)
    requires cfg.queueDepth > 0 && Traces(cfg, events, next, After(cfg, events).hub)
    requires frame.PeerPresent? || frame.PeerGone?
    requires var h := After(cfg, events).hub;
      id in h.conns && h.conns[id].peer == Mesh(relay) && Rich(h.conns[id].meter, k + 1)
    ensures var h, g := After(cfg, events).hub, After(cfg, events + [Tells(id, frame)]).hub;
      && Traces(cfg, events + [Tells(id, frame)], next, g)
      && g.byMesh == h.byMesh && g.byNode == h.byNode
      && g.conns == h.conns[id := Heard(h.conns[id], EncodedLen(frame), 0)]
      && g.conns[id].peer == Mesh(relay) && Rich(g.conns[id].meter, k)
      && Learned(h, Tells(id, frame)) == Some(relay)
  {
    var h := After(cfg, events).hub;
    TellsPaid(h, id, relay, frame, k);
    TellsStep(Traced(h, []), id, relay, frame);
    Extends(cfg, events, next, h, Tells(id, frame));
  }

  lemma HeardOneMore(cfg: Config, events: seq<Event>, e: Event, r: Id, n: Id)
    requires cfg.queueDepth > 0
    ensures HeardFrom(cfg, events + [e], r) == HearMore(After(cfg, events).hub, e, r, HeardFrom(cfg, events, r))
    ensures Claimant(cfg, events + [e], n) == ClaimMore(After(cfg, events).hub, e, n, Claimant(cfg, events, n))
  {
    assert (events + [e])[..|events|] == events;
  }

  lemma LinkRegisters(h: Hub, id: ConnId, relay: Id, peers: seq<ConnId>)
    requires h.cfg.queueDepth > 0
    ensures Outcome(h, Joins(id, Mesh(relay), 0, peers, [])) == Register(h, id, Mesh(relay), 0)
  {
    assert Claims(id, []) == [];
  }

  lemma LinkSaysNothing(cfg: Config, events: seq<Event>, e: Event, r: Id, n: Id)
    requires cfg.queueDepth > 0 && e.Joins?
    ensures HeardFrom(cfg, events + [e], r) == HeardFrom(cfg, events, r)
    ensures Claimant(cfg, events + [e], n) == Claimant(cfg, events, n)
  {
    HeardOneMore(cfg, events, e, r, n);
  }

  /** A link to a relay comes up while no node is here. */
  lemma LinkAccepted(cfg: Config, events: seq<Event>, next: ConnId, relay: Id, peers: seq<ConnId>, r: Id, n: Id)
    requires cfg.queueDepth > 0 && Traces(cfg, events, next, After(cfg, events).hub)
    requires After(cfg, events).hub.byNode == map[] && Lists(peers, After(cfg, events).hub.byMesh.Values)
    ensures var e := Joins(next, Mesh(relay), 0, peers, []);
      var h, g := After(cfg, events).hub, After(cfg, events + [e]).hub;
      && Traces(cfg, events + [e], next + 1, g)
      && g == Register(h, next, Mesh(relay), 0)
      && HeardFrom(cfg, events + [e], r) == HeardFrom(cfg, events, r)
      && Claimant(cfg, events + [e], n) == Claimant(cfg, events, n)
  {
    var h, e := After(cfg, events).hub, Joins(next, Mesh(relay), 0, peers, []);
    LinkRegisters(h, next, relay, peers);
    LinkSaysNothing(cfg, events, e, r, n);
    Extends(cfg, events, next, h, e);
  }

  // ---- A node moves from one relay to another ----

  function NoEvents(): seq<Event> { [] }

  /** A relay linked to `here` that a node joins. */
  function Arrived(here: Id, n: Id): seq<Event> {
    NoEvents() + [Joins(1, Mesh(here), 0, [], [])] + [Joins(2, Client(n, ""), 0, [1], [])] + [Takes(1)]
  }

  /** And that it leaves again. */
  function Gone(here: Id, n: Id): seq<Event> { Arrived(here, n) + [Leaves(2, [1])] + [Takes(1)] }

  lemma NothingYet(cfg: Config)
    requires cfg.queueDepth > 0
    ensures Traces(cfg, NoEvents(), 1, After(cfg, NoEvents()).hub)
    ensures After(cfg, NoEvents()).hub.byMesh == map[] && After(cfg, NoEvents()).hub.byNode == map[]
  {
  }

  lemma ArrivedSends(cfg: Config, here: Id, n: Id)
    requires cfg.queueDepth > 0
    ensures Sender(cfg, Arrived(here, n), here, 1, map[n := 2], [PeerPresent(n)], 3)
  {
    NothingYet(cfg);
    LinkUp(cfg, NoEvents(), here, 1, 1);
    NodeComes(cfg, NoEvents() + [Joins(1, Mesh(here), 0, [], [])], here, 1, [], 2, n, 2);
    var none: seq<Frame> := [];
    assert none + [PeerPresent(n)] == [PeerPresent(n)];
  }

  lemma GoneSends(cfg: Config, here: Id, n: Id)
    requires cfg.queueDepth > 0
    ensures Sender(cfg, Gone(here, n), here, 1, map[], [PeerPresent(n), PeerGone(n, Disconnected)], 3)
  {
    ArrivedSends(cfg, here, n);
    NodeGoes(cfg, Arrived(here, n), here, 1, [PeerPresent(n)], 3, n, 2);
    assert [PeerPresent(n)] + [PeerGone(n, Disconnected)] == [PeerPresent(n), PeerGone(n, Disconnected)];
  }

  function TwoLinks(a: Id, b: Id): seq<Event> {
    NoEvents() + [Joins(1, Mesh(a), 0, [], [])] + [Joins(2, Mesh(b), 0, [1], [])]
  }

  lemma TwoLinksUp(cfg: Config, a: Id, b: Id, r: Id, n: Id)
    requires cfg.queueDepth > 0 && a != b && Rich(NewMeter(cfg.meshBudget, 0), 3)
    ensures var h := After(cfg, TwoLinks(a, b)).hub;
      && Traces(cfg, TwoLinks(a, b), 3, h)
      && 1 in h.conns && h.conns[1].peer == Mesh(a) && Rich(h.conns[1].meter, 3)
      && 2 in h.conns && h.conns[2].peer == Mesh(b) && Rich(h.conns[2].meter, 3)
    ensures HeardFrom(cfg, TwoLinks(a, b), r) == [] && Claimant(cfg, TwoLinks(a, b), n) == None
  {
    NothingYet(cfg);
    LinkAccepted(cfg, NoEvents(), 1, a, [], r, n);
    var one := NoEvents() + [Joins(1, Mesh(a), 0, [], [])];
    ListsOne(After(cfg, one).hub.byMesh, a, 1);
    LinkAccepted(cfg, one, 2, b, [1], r, n);
  }

  /** The claim of the relay where the node is now comes first, then what the
      other had to say. */
  function LateClaim(a: Id, b: Id, n: Id): seq<Event> {
    TwoLinks(a, b) + [Tells(2, PeerPresent(n))] + [Tells(1, PeerPresent(n))] + [Tells(1, PeerGone(n, Disconnected))]
  }

  /** A receiver with links 1 and 2 to relays `a` and `b`, what it heard from
      each, and who it last heard claim the node. */
  ghost predicate Listener(cfg: Config, events: seq<Event>, a: Id, b: Id, n: Id, k: nat,
                           fromA: seq<Frame>, fromB: seq<Frame>, claimant: Option<Id>)
    requires cfg.queueDepth > 0
  {
    var h := After(cfg, events).hub;
    && Traces(cfg, events, 3, h)
    && 1 in h.conns && h.conns[1].peer == Mesh(a) && Rich(h.conns[1].meter, k)
    && 2 in h.conns && h.conns[2].peer == Mesh(b) && Rich(h.conns[2].meter, k)
    && HeardFrom(cfg, events, a) == fromA && HeardFrom(cfg, events, b) == fromB
    && Claimant(cfg, events, n) == claimant
  }

  /** What hearing it adds. */
  lemma HearsFrom(cfg: Config, events: seq<Event>, id: ConnId, relay: Id, frame: Frame, r: Id, n: Id)
    requires cfg.queueDepth > 0 && Learned(After(cfg, events).hub, Tells(id, frame)) == Some(relay)
    ensures HeardFrom(cfg, events + [Tells(id, frame)], r)
         == if r == relay then HeardFrom(cfg, events, r) + [frame] else HeardFrom(cfg, events, r)
    ensures Claimant(cfg, events + [Tells(id, frame)], n)
         == if frame == PeerPresent(n) then Some(relay) else Claimant(cfg, events, n)
  {
    HeardOneMore(cfg, events, Tells(id, frame), r, n);
  }

  lemma Listens(cfg: Config, events: seq<Event>, a: Id, b: Id, n: Id, k: nat,
                fromA: seq<Frame>, fromB: seq<Frame>, claimant: Option<Id>, id: ConnId, frame: Frame)
    requires cfg.queueDepth > 0 && a != b && Listener(cfg, events, a, b, n, k + 1, fromA, fromB, claimant)
    requires (id == 1 || id == 2) && (frame.PeerPresent? || frame.PeerGone?)
    ensures Listener(cfg, events + [Tells(id, frame)], a, b, n, k,
                     if id == 1 then fromA + [frame] else fromA, if id == 2 then fromB + [frame] else fromB,
                     if frame == PeerPresent(n) then Some(if id == 1 then a else b) else claimant)
  {
    var relay := if id == 1 then a else b;
    HearsOne(cfg, events, 3, id, relay, frame, k);
    HearsFrom(cfg, events, id, relay, frame, a, n);
    HearsFrom(cfg, events, id, relay, frame, b, n);
  }

  lemma ThreeFrames(cfg: Config, links: seq<Event>, a: Id, b: Id, n: Id, here: Frame, gone: Frame)
    requires cfg.queueDepth > 0 && a != b && Listener(cfg, links, a, b, n, 3, [], [], None)
    requires here == PeerPresent(n) && gone == PeerGone(n, Disconnected)
    ensures Listener(cfg, links + [Tells(2, here)] + [Tells(1, here)] + [Tells(1, gone)], a, b, n, 0,
                     [] + [here] + [gone], [] + [here], Some(a))
  {
    var none: seq<Frame> := [];
    Listens(cfg, links, a, b, n, 2, none, none, None, 2, here);
    Listens(cfg, links + [Tells(2, here)], a, b, n, 1, none, none + [here], Some(b), 1, here);
    Listens(cfg, links + [Tells(2, here)] + [Tells(1, here)], a, b, n, 0,
            none + [here], none + [here], Some(a), 1, gone);
  }

  lemma LateClaimHeard(cfg: Config, a: Id, b: Id, n: Id)
    requires cfg.queueDepth > 0 && a != b && Rich(NewMeter(cfg.meshBudget, 0), 3)
    ensures Listener(cfg, LateClaim(a, b, n), a, b, n, 0,
                     [PeerPresent(n), PeerGone(n, Disconnected)], [PeerPresent(n)], Some(a))
  {
    var here, gone := PeerPresent(n), PeerGone(n, Disconnected);
    TwoLinksUp(cfg, a, b, a, n);
    TwoLinksUp(cfg, a, b, b, n);
    ThreeFrames(cfg, TwoLinks(a, b), a, b, n, here, gone);
    assert [] + [here] == [here] && [] + [here] + [gone] == [here, gone];
  }

  /** Both links drained, nothing lost or refused, the node at relay `b`, and
      the receiver does not know where. */
  lemma LateClaimRun(cfg: Config, a: Id, b: Id, here: Id, n: Id)
    requires cfg.queueDepth > 0 && a != b && Rich(NewMeter(cfg.meshBudget, 0), 3)
    ensures Feasible(cfg, LateClaim(a, b, n)) && Feasible(cfg, Gone(here, n)) && Feasible(cfg, Arrived(here, n))
    ensures Drained(cfg, Gone(here, n), here, HeardFrom(cfg, LateClaim(a, b, n), a))
    ensures Drained(cfg, Arrived(here, n), here, HeardFrom(cfg, LateClaim(a, b, n), b))
    ensures n in After(cfg, Arrived(here, n)).hub.byNode
    ensures n !in After(cfg, LateClaim(a, b, n)).hub.presence
  {
    LateClaimHeard(cfg, a, b, n);
    ArrivedSends(cfg, here, n);
    SenderIsDrained(cfg, Arrived(here, n), here, 1, map[n := 2], [PeerPresent(n)], 3);
    GoneSends(cfg, here, n);
    SenderIsDrained(cfg, Gone(here, n), here, 1, map[], [PeerPresent(n), PeerGone(n, Disconnected)], 3);
    LateClaimHides(cfg, LateClaim(a, b, n), a, cfg, Gone(here, n), here, n);
  }

  // ---- A link is replaced ----

  /** A node arrives and is claimed; the link goes down, with the retraction
      still waiting; and comes up again. */
  function Relinked(here: Id, n: Id): seq<Event> {
    Arrived(here, n) + [Leaves(2, [1])] + [Leaves(1, [1])] + [Joins(3, Mesh(here), 0, [], [])]
  }

  /** The other end sees the new link before the end of the old one. */
  function Overlapping(r: Id, n: Id): seq<Event> {
    NoEvents() + [Joins(1, Mesh(r), 0, [], [])] + [Tells(1, PeerPresent(n))]
    + [Joins(2, Mesh(r), 0, [1], [])] + [Leaves(1, [2])]
  }

  lemma LeavesTables(cfg: Config, events: seq<Event>, next: ConnId, id: ConnId, peers: seq<ConnId>)
    requires cfg.queueDepth > 0 && Traces(cfg, events, next, After(cfg, events).hub)
    requires id in After(cfg, events).hub.conns && Lists(peers, After(cfg, events).hub.byMesh.Values)
    ensures var h, g := After(cfg, events).hub, After(cfg, events + [Leaves(id, peers)]).hub;
      && Traces(cfg, events + [Leaves(id, peers)], next, g)
      && SameRegistry(Deregister(h, id), g)
  {
    var h, e := After(cfg, events).hub, Leaves(id, peers);
    AfterOneMore(cfg, events, e);
    Extends(cfg, events, next, h, e);
    PerformKeepsRegistry(PlanOf(h, e).hub, PlanOf(h, e).effects);
  }

  lemma NodeLeaves(h: Hub, n: Id, id: ConnId)
    requires Wired(h) && h.byNode == map[n := id]
    ensures id in h.conns && Deregister(h, id).byNode == map[] && Deregister(h, id).byMesh == h.byMesh
  {
    assert h.byNode[n] == id;
    DeregisterTables(h, id);
  }

  lemma ArrivedLeaves(cfg: Config, here: Id, n: Id)
    requires cfg.queueDepth > 0
    ensures var g := After(cfg, Arrived(here, n) + [Leaves(2, [1])]).hub;
      && Traces(cfg, Arrived(here, n) + [Leaves(2, [1])], 3, g)
      && g.byNode == map[] && g.byMesh == map[here := 1]
  {
    var events := Arrived(here, n);
    ArrivedSends(cfg, here, n);
    RunsKeepCore(cfg, events);
    ListsOne(After(cfg, events).hub.byMesh, here, 1);
    NodeLeaves(After(cfg, events).hub, n, 2);
    LeavesTables(cfg, events, 3, 2, [1]);
  }

  lemma RelinkedSends(cfg: Config, here: Id, n: Id)
    requires cfg.queueDepth > 0
    ensures Sender(cfg, Relinked(here, n), here, 3, map[], [], 4)
  {
    var left := Arrived(here, n) + [Leaves(2, [1])];
    ArrivedLeaves(cfg, here, n);
    RunsKeepCore(cfg, left);
    ListsOne(After(cfg, left).hub.byMesh, here, 1);
    assert After(cfg, left).hub.byMesh[here] == 1;
    LeavesTables(cfg, left, 3, 1, [1]);
    LinkUp(cfg, left + [Leaves(1, [1])], here, 3, 3);
  }

  /** A connection that another has replaced leaves without severing the link. */
  lemma ReplacedLinkLeaves(h: Hub, id: ConnId, r: Id, peers: seq<ConnId>)
    requires id in h.conns && h.conns[id].peer == Mesh(r) && r in h.byMesh && h.byMesh[r] != id
    ensures Deregister(h, id).byMesh == h.byMesh && Severed(h, Leaves(id, peers)) == None
  {
  }

  lemma RegisterSecond(h: Hub, r: Id, c: ConnId, d: ConnId)
    requires h.byMesh == map[r := c] && c in h.conns && c != d
    ensures var g := Register(h, d, Mesh(r), 0); g.byMesh == map[r := d] && c in g.conns && g.conns[c] == h.conns[c]
  {
  }

  lemma SecondLink(cfg: Config, events: seq<Event>, r: Id, n: Id)
    requires cfg.queueDepth > 0 && Traces(cfg, events, 2, After(cfg, events).hub)
    requires var h := After(cfg, events).hub;
      h.byMesh == map[r := 1] && h.byNode == map[] && 1 in h.conns && h.conns[1].peer == Mesh(r)
    ensures var after := events + [Joins(2, Mesh(r), 0, [1], [])];
      var g := After(cfg, after).hub;
      && Traces(cfg, after, 3, g) && g.byMesh == map[r := 2]
      && 1 in g.conns && g.conns[1].peer == Mesh(r)
      && HeardFrom(cfg, after, r) == HeardFrom(cfg, events, r) && Claimant(cfg, after, n) == Claimant(cfg, events, n)
  {
    var h := After(cfg, events).hub;
    ListsOne(h.byMesh, r, 1);
    LinkAccepted(cfg, events, 2, r, [1], r, n);
    RegisterSecond(h, r, 1, 2);
  }

  lemma FirstLinkLeaves(cfg: Config, events: seq<Event>, r: Id, n: Id)
    requires cfg.queueDepth > 0 && Traces(cfg, events, 3, After(cfg, events).hub)
    requires var h := After(cfg, events).hub; h.byMesh == map[r := 2] && 1 in h.conns && h.conns[1].peer == Mesh(r)
    ensures var after := events + [Leaves(1, [2])];
      && Traces(cfg, after, 3, After(cfg, after).hub) && After(cfg, after).hub.byMesh == map[r := 2]
      && HeardFrom(cfg, after, r) == HeardFrom(cfg, events, r) && Claimant(cfg, after, n) == Claimant(cfg, events, n)
  {
    var h := After(cfg, events).hub;
    ListsOne(h.byMesh, r, 2);
    ReplacedLinkLeaves(h, 1, r, [2]);
    LeavesTables(cfg, events, 3, 1, [2]);
    HeardOneMore(cfg, events, Leaves(1, [2]), r, n);
  }

  lemma FirstLinkClaims(cfg: Config, r: Id, n: Id)
    requires cfg.queueDepth > 0 && Rich(NewMeter(cfg.meshBudget, 0), 1)
    ensures var events := NoEvents() + [Joins(1, Mesh(r), 0, [], [])] + [Tells(1, PeerPresent(n))];
      var h := After(cfg, events).hub;
      && Traces(cfg, events, 2, h) && h.byMesh == map[r := 1] && h.byNode == map[]
      && 1 in h.conns && h.conns[1].peer == Mesh(r)
      && HeardFrom(cfg, events, r) == [PeerPresent(n)] && Claimant(cfg, events, n) == Some(r)
  {
    var none: seq<Frame> := [];
    NothingYet(cfg);
    LinkAccepted(cfg, NoEvents(), 1, r, [], r, n);
    var one := NoEvents() + [Joins(1, Mesh(r), 0, [], [])];
    HearsOne(cfg, one, 2, 1, r, PeerPresent(n), 0);
    HearsFrom(cfg, one, 1, r, PeerPresent(n), r, n);
    assert none + [PeerPresent(n)] == [PeerPresent(n)];
  }

  lemma OverlappingHeard(cfg: Config, r: Id, n: Id)
    requires cfg.queueDepth > 0 && Rich(NewMeter(cfg.meshBudget, 0), 1)
    ensures Feasible(cfg, Overlapping(r, n)) && After(cfg, Overlapping(r, n)).hub.byMesh == map[r := 2]
    ensures At(After(cfg, Overlapping(r, n)).hub.presence, n, r)
  {
    var claimed := NoEvents() + [Joins(1, Mesh(r), 0, [], [])] + [Tells(1, PeerPresent(n))];
    FirstLinkClaims(cfg, r, n);
    SecondLink(cfg, claimed, r, n);
    FirstLinkLeaves(cfg, claimed + [Joins(2, Mesh(r), 0, [1], [])], r, n);
    PresenceIsHeard(cfg, Overlapping(r, n), n, r);
    OneClaim(n);
  }

  lemma OneClaim(n: Id)
    ensures n in Claimed([PeerPresent(n)])
  {
    var none: seq<Frame> := [];
    ClaimedGrows(none, PeerPresent(n));
    assert none + [PeerPresent(n)] == [PeerPresent(n)];
  }

  /** The new link is up and drained, has given nothing and was heard to say
      nothing, the node is not at the relay, and still is believed to be: which
      is why the frames heard count from the last severing, and not from the
      newest connection. */
  lemma OverlappingRun(cfg: Config, r: Id, here: Id, n: Id)
    requires cfg.queueDepth > 0 && Rich(NewMeter(cfg.meshBudget, 0), 1)
    ensures Feasible(cfg, Overlapping(r, n)) && Feasible(cfg, Relinked(here, n))
    ensures Drained(cfg, Relinked(here, n), here, []) && n !in After(cfg, Relinked(here, n)).hub.byNode
    ensures After(cfg, Overlapping(r, n)).hub.byMesh == map[r := 2]
    ensures At(After(cfg, Overlapping(r, n)).hub.presence, n, r)
  {
    RelinkedSends(cfg, here, n);
    SenderIsDrained(cfg, Relinked(here, n), here, 3, map[], [], 4);
    OverlappingHeard(cfg, r, n);
  }
}

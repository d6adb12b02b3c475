/** The forwarding core as a value: what each operation of the hub decides, and
    in which order it touches connections.

    An operation yields a `Plan`: the registry, presence and meters it settles
    on, and the effects on connections that follow, in order.  `Perform` carries
    the effects out.  Iteration orders of hash tables are parameters. */
module HubModel {
  import opened Common
  import opened Frames
  import opened Lanes
  import opened Limits

  datatype Stats = Stats(
    framesIn: nat, bytesIn: nat, framesOut: nat, bytesOut: nat,
    droppedRate: nat, droppedAquiferRate: nat, droppedQueue: nat, undeliverable: nat)

  const NO_STATS := Stats(0, 0, 0, 0, 0, 0, 0, 0)

  function SatAdd(a: nat, b: nat): nat { Min(a + b, U64_MAX) }

  /** Fold one connection's counters into a total, sticking at the top. */
  function Absorb(a: Stats, b: Stats): Stats {
    Stats(SatAdd(a.framesIn, b.framesIn), SatAdd(a.bytesIn, b.bytesIn),
          SatAdd(a.framesOut, b.framesOut), SatAdd(a.bytesOut, b.bytesOut),
          SatAdd(a.droppedRate, b.droppedRate), SatAdd(a.droppedAquiferRate, b.droppedAquiferRate),
          SatAdd(a.droppedQueue, b.droppedQueue), SatAdd(a.undeliverable, b.undeliverable))
  }

  /** Every counter within 64 bits. */
  predicate InWidth(s: Stats) {
    && s.framesIn <= U64_MAX && s.bytesIn <= U64_MAX && s.framesOut <= U64_MAX && s.bytesOut <= U64_MAX
    && s.droppedRate <= U64_MAX && s.droppedAquiferRate <= U64_MAX && s.droppedQueue <= U64_MAX
    && s.undeliverable <= U64_MAX
  }

  datatype Config = Config(clientBudget: Budget, meshBudget: Budget,
                           aquiferBudget: Option<Budget>, queueDepth: nat)

  datatype Probe = Probe(token: nat, sentMs: nat)

  datatype Conn = Conn(
    peer: Admitted, queue: seq<Outbound>, meter: Meter, closeAfterFlush: Option<Reason>,
    stats: Stats, pendingPing: Option<Probe>, pingSeq: nat, lastRttMs: Option<nat>)

  datatype Hub = Hub(
    cfg: Config, conns: map<ConnId, Conn>, byNode: map<Id, ConnId>, byMesh: map<Id, ConnId>,
    presence: map<Id, Id>, aquiferMeters: map<Aquifer, Meter>, dirty: set<ConnId>, retired: Stats)

  datatype Dropped =
    | RateLimitedFrame | AquiferRateLimited | UnknownDestination | Nowhere
    | SelfAddressed | QueueFull | SpendingCapLimited

  datatype HubError = IllegalForRole | UnknownConn

  datatype Verdict = Ok(dropped: Option<Dropped>) | Err(error: HubError)

  /** The nodes a relay may serve, and the aquifer of each. */
  type Roster = map<Id, Aquifer>

  type QueueOp = Op<Outbound>

  // ---- Effects on connections ----

  datatype Effect =
    | Queue(to: ConnId, op: QueueOp)
    | Closing(to: ConnId, reason: Reason)
    | Undeliverable(to: ConnId)

  function ApplyOp(c: Conn, depth: nat, op: QueueOp): Conn
    requires depth > 0
  {
    var queue := Next(c.queue, depth, op);
    if op.Push? || op.Jump? then
      c.(queue := queue,
         stats := c.stats.(framesOut := c.stats.framesOut + 1,
                           bytesOut := c.stats.bytesOut + EncodedLen(op.item.frame),
                           droppedQueue := c.stats.droppedQueue + Displaces(c.queue, depth, op)))
    else
      c.(queue := queue)
  }

  function React(c: Conn, depth: nat, e: Effect): Conn
    requires depth > 0
  {
    match e
    case Queue(_, op) => ApplyOp(c, depth, op)
    case Closing(_, reason) => c.(closeAfterFlush := Some(reason))
    case Undeliverable(_) => c.(stats := c.stats.(undeliverable := c.stats.undeliverable + 1))
  }

  /** Queueing and closing give the I/O layer something to do; taking a frame
      and counting do not. */
  predicate Wakes(e: Effect) {
    e.Closing? || (e.Queue? && !e.op.Take?)
  }

  function Do(h: Hub, e: Effect): Hub
    requires h.cfg.queueDepth > 0
  {
    if e.to in h.conns then
      h.(conns := h.conns[e.to := React(h.conns[e.to], h.cfg.queueDepth, e)],
         dirty := if Wakes(e) then h.dirty + {e.to} else h.dirty)
    else h
  }

  function Perform(h: Hub, effects: seq<Effect>): (r: Hub)
    requires h.cfg.queueDepth > 0
    ensures r.cfg == h.cfg
  {
    if effects == [] then h
    else Do(Perform(h, effects[..|effects| - 1]), effects[|effects| - 1])
  }

  datatype Plan = Plan(hub: Hub, effects: seq<Effect>, verdict: Verdict)

  // ---- Registration ----

  function NewConn(cfg: Config, peer: Admitted, nowMs: nat): Conn {
    Conn(peer, [], NewMeter(if peer.Client? then cfg.clientBudget else cfg.meshBudget, nowMs),
         None, NO_STATS, None, 0, None)
  }

  function Bare(frame: Frame): Outbound { Outbound(frame, None) }

  /** The same frame to each of several connections. */
  function ToEach(peers: seq<ConnId>, op: QueueOp): (r: seq<Effect>)
    ensures |r| == |peers|
    ensures forall i :: 0 <= i < |peers| ==> r[i] == Queue(peers[i], op)
  {
    seq(|peers|, i requires 0 <= i < |peers| => Queue(peers[i], op))
  }

  /** One presence claim per node, all to the same connection. */
  function Claims(to: ConnId, nodes: seq<Id>): (r: seq<Effect>)
    ensures |r| == |nodes|
    ensures forall i :: 0 <= i < |nodes| ==> r[i] == Queue(to, Push(Bare(PeerPresent(nodes[i]))))
  {
    seq(|nodes|, i requires 0 <= i < |nodes| => Queue(to, Push(Bare(PeerPresent(nodes[i])))))
  }

  function Register(h: Hub, id: ConnId, peer: Admitted, nowMs: nat): Hub {
    var h := h.(conns := h.conns[id := NewConn(h.cfg, peer, nowMs)]);
    match peer
    case Client(node, _) => h.(byNode := h.byNode[node := id])
    case Mesh(relay) => h.(byMesh := h.byMesh[relay := id])
  }

  /** Newest wins.  `peers` lists the mesh connections in the order the table
      yields them, `nodes` the connected nodes. */
  function Admit(h: Hub, id: ConnId, peer: Admitted, nowMs: nat, peers: seq<ConnId>, nodes: seq<Id>): Plan {
    Plan(Register(h, id, peer, nowMs),
         match peer
         case Client(node, _) =>
           if node in h.byNode then [] else ToEach(peers, Push(Bare(PeerPresent(node))))
         case Mesh(_) => Claims(id, nodes),
         Ok(None))
  }

  /** The connection that an admission replaces. */
  function Replaces(h: Hub, id: ConnId, peer: Admitted): Option<ConnId> {
    var previous :=
      match peer
      case Client(node, _) => if node in h.byNode then Some(h.byNode[node]) else None
      case Mesh(relay) => if relay in h.byMesh then Some(h.byMesh[relay]) else None;
    if previous == Some(id) then None else previous
  }

  /** The node whose mapping goes with this connection, if it still owns one. */
  function Releases(h: Hub, id: ConnId): Option<Id> {
    if id in h.conns && h.conns[id].peer.Client? then
      var node := h.conns[id].peer.node;
      if node in h.byNode && h.byNode[node] == id then Some(node) else None
    else None
  }

  function Deregister(h: Hub, id: ConnId): Hub
    requires id in h.conns
  {
    var conn := h.conns[id];
    var h := h.(conns := h.conns - {id}, retired := Absorb(h.retired, conn.stats));
    match conn.peer
    case Client(node, _) =>
      if node in h.byNode && h.byNode[node] == id then h.(byNode := h.byNode - {node}) else h
    case Mesh(relay) =>
      if relay in h.byMesh && h.byMesh[relay] == id then
        h.(byMesh := h.byMesh - {relay},
           presence := map n | n in h.presence && h.presence[n] != relay :: h.presence[n])
      else h
  }

  function Disconnect(h: Hub, id: ConnId, peers: seq<ConnId>): Plan {
    if id !in h.conns then Plan(h, [], Ok(None))
    else
      var released := Releases(h, id);
      Plan(Deregister(h, id),
           if released.Some? then ToEach(peers, Push(Bare(PeerGone(released.value, Disconnected)))) else [],
           Ok(None))
  }

  // ---- Closing ----

  function BeginClose(id: ConnId, reason: Option<Reason>): seq<Effect> {
    match reason
    case Some(r) => [Queue(id, Farewell(Bare(Close(r)))), Closing(id, r)]
    case None => [Closing(id, Disconnected)]
  }

  function RestartEach(clients: seq<ConnId>, notice: Frame): seq<Effect> {
    if clients == [] then []
    else
      var last := clients[|clients| - 1];
      RestartEach(clients[..|clients| - 1], notice) + [Queue(last, Jump(Bare(notice)))] + BeginClose(last, None)
  }

  // ---- Frames ----

  /** Nothing but meters, inbound counters, presence and probes differs: every
      connection still authenticates the same peer and holds the same queue, and
      no counter went down. */
  predicate SameLanes(h: Hub, g: Hub) {
    && g.cfg == h.cfg && g.byNode == h.byNode && g.byMesh == h.byMesh && g.retired == h.retired
    && g.conns.Keys == h.conns.Keys
    && forall c :: c in h.conns ==> SameLane(h.conns[c], g.conns[c])
  }

  predicate SameLane(c: Conn, d: Conn) {
    && d.peer == c.peer && d.queue == c.queue
    && d.stats.framesOut == c.stats.framesOut && d.stats.bytesOut == c.stats.bytesOut
    && d.stats.droppedQueue == c.stats.droppedQueue
    && d.stats.framesIn >= c.stats.framesIn && d.stats.bytesIn >= c.stats.bytesIn
    && d.stats.droppedRate >= c.stats.droppedRate && d.stats.droppedAquiferRate >= c.stats.droppedAquiferRate
    && d.stats.undeliverable >= c.stats.undeliverable
  }

  /** What the spending-cap gate would answer: no gate is installed, or it is
      and answers as given. */
  type Gate = Option<bool>

  /** A queued packet carries attribution when it goes to a client. */
  function Attributed(h: Hub, to: ConnId, frame: Frame, mapping: Option<UsageMapping>): Outbound {
    Outbound(frame,
             if frame.RecvPacket? && to in h.conns && h.conns[to].peer.Client?
             then Some(DeliveryUsage(mapping, |frame.payload|)) else None)
  }

  predicate HasRoom(h: Hub, to: ConnId) {
    to in h.conns && |h.conns[to].queue| < h.cfg.queueDepth
  }

  predicate GateRefuses(h: Hub, to: ConnId, frame: Frame, mapping: Option<UsageMapping>, gate: Gate) {
    && gate == Some(false) && mapping.Some? && frame.RecvPacket?
    && to in h.conns && h.conns[to].peer.Client?
  }

  function Deliver(h: Hub, from: ConnId, to: ConnId, frame: Frame, mapping: Option<UsageMapping>, gate: Gate): (r: Plan)
    ensures r.hub == h
  {
    if GateRefuses(h, to, frame, mapping, gate) then
      Plan(h, [Undeliverable(from)], Ok(Some(SpendingCapLimited)))
    else if HasRoom(h, to) then
      Plan(h, [Queue(to, Push(Attributed(h, to, frame, mapping)))], Ok(None))
    else
      Plan(h, [Queue(to, Push(Attributed(h, to, frame, mapping))), Undeliverable(from)], Ok(Some(QueueFull)))
  }

  function Refuse(h: Hub, from: ConnId, peer: Id, reason: Reason, why: Dropped): Plan {
    Plan(h, [Queue(from, Push(Bare(PeerGone(peer, reason)))), Undeliverable(from)], Ok(Some(why)))
  }

  /** The aquifer's meter, created full on first use. */
  function AquiferMeter(h: Hub, aquifer: Aquifer, nowMs: nat): Meter
    requires h.cfg.aquiferBudget.Some?
  {
    if aquifer in h.aquiferMeters then h.aquiferMeters[aquifer]
    else NewMeter(h.cfg.aquiferBudget.value, nowMs)
  }

  predicate AquiferAdmits(h: Hub, aquifer: Aquifer, bytes: nat, nowMs: nat) {
    h.cfg.aquiferBudget.Some? ==> CanPay(AquiferMeter(h, aquifer, nowMs), bytes, nowMs)
  }

  function ChargeAquifer(h: Hub, aquifer: Aquifer, bytes: nat, nowMs: nat): Hub {
    match h.cfg.aquiferBudget
    case None => h
    case Some(_) =>
      h.(aquiferMeters := h.aquiferMeters[aquifer := Charge(AquiferMeter(h, aquifer, nowMs), bytes, nowMs)])
  }

  function WithStats(h: Hub, id: ConnId, stats: Stats): Hub
    requires id in h.conns
  {
    h.(conns := h.conns[id := h.conns[id].(stats := stats)])
  }

  /** Directly if the node is here, through the mesh if another relay claims
      it, and otherwise not at all. */
  function Route(h: Hub, from: ConnId, src: Id, dst: Id, payload: seq<Byte>,
                 mapping: Option<UsageMapping>, gate: Gate): (r: Plan)
    ensures r.hub == h
  {
    if dst in h.byNode then
      Deliver(h, from, h.byNode[dst], RecvPacket(src, payload), mapping, gate)
    else if dst in h.presence && h.presence[dst] in h.byMesh then
      Deliver(h, from, h.byMesh[h.presence[dst]], Forward(src, dst, payload), None, gate)
    else
      Refuse(h, from, dst, NotHere, Nowhere)
  }

  function ForwardFromClient(h: Hub, from: ConnId, dst: Id, payload: seq<Byte>, roster: Roster,
                             nowMs: nat, mapping: Option<UsageMapping>, gate: Gate): (r: Plan)
    requires from in h.conns && h.conns[from].peer.Client?
    ensures SameLanes(h, r.hub)
  {
    var Client(src, aquifer) := h.conns[from].peer;
    if dst == src then
      Plan(h, [Undeliverable(from)], Ok(Some(SelfAddressed)))
    else if !(dst in roster && roster[dst] == aquifer) then
      Refuse(h, from, dst, NotAdmitted, UnknownDestination)
    else if !AquiferAdmits(h, aquifer, |payload|, nowMs) then
      var stats := h.conns[from].stats;
      Plan(WithStats(ChargeAquifer(h, aquifer, |payload|, nowMs), from,
                     stats.(droppedAquiferRate := stats.droppedAquiferRate + 1)),
           [], Ok(Some(AquiferRateLimited)))
    else
      Route(ChargeAquifer(h, aquifer, |payload|, nowMs), from, src, dst, payload, mapping, gate)
  }

  function DeliverFromMesh(h: Hub, from: ConnId, src: Id, dst: Id, payload: seq<Byte>, roster: Roster,
                           nowMs: nat, mapping: Option<UsageMapping>, gate: Gate): (r: Plan)
    ensures SameLanes(h, r.hub)
  {
    if dst !in h.byNode then
      Refuse(h, from, dst, Disconnected, Nowhere)
    else if !(src in roster && dst in roster && roster[src] == roster[dst]) then
      Plan(h, [Undeliverable(from)], Ok(Some(UnknownDestination)))
    else if !AquiferAdmits(h, roster[dst], |payload|, nowMs) then
      Plan(ChargeAquifer(h, roster[dst], |payload|, nowMs), [Undeliverable(from)], Ok(Some(AquiferRateLimited)))
    else
      Deliver(ChargeAquifer(h, roster[dst], |payload|, nowMs), from, h.byNode[dst],
              RecvPacket(src, payload), mapping, gate)
  }

  /** A reply resolves the outstanding probe only if it carries its token. */
  function ResolvePing(c: Conn, token: Token, nowMs: nat): Conn {
    if c.pendingPing.Some? && c.pendingPing.value.token == token then
      var sent := c.pendingPing.value.sentMs;
      c.(pendingPing := None,
         lastRttMs := Some(Min(if nowMs > sent then nowMs - sent else 0, 0xFFFF_FFFF)))
    else c
  }

  function ProbeRtt(h: Hub, id: ConnId, nowMs: nat): (r: Plan)
    ensures SameLanes(h, r.hub)
  {
    if id in h.conns && h.conns[id].peer.Client? && h.conns[id].pendingPing.None? then
      var token := (h.conns[id].pingSeq + 1) % (U64_MAX + 1);
      Plan(h.(conns := h.conns[id := h.conns[id].(pingSeq := token, pendingPing := Some(Probe(token, nowMs)))]),
           [Queue(id, Jump(Bare(Ping(token))))], Ok(None))
    else Plan(h, [], Ok(None))
  }

  /** The connection after its meter let a frame through. */
  function Heard(c: Conn, len: nat, nowMs: nat): Conn {
    c.(meter := Charge(c.meter, len, nowMs),
       stats := c.stats.(framesIn := c.stats.framesIn + 1, bytesIn := c.stats.bytesIn + len))
  }

  function Presence(h: Hub, relay: Id, frame: Frame): map<Id, Id> {
    match frame
    case PeerPresent(node) => h.presence[node := relay]
    case PeerGone(node, _) =>
      if node in h.presence && h.presence[node] == relay then h.presence - {node} else h.presence
    case _ => h.presence
  }

  /** A frame that its connection's meter let through. */
  function Dispatch(h: Hub, id: ConnId, frame: Frame, roster: Roster, nowMs: nat,
                    mapping: Option<UsageMapping>, gate: Gate): (r: Plan)
    requires id in h.conns
    ensures SameLanes(h, r.hub)
  {
    var peer := h.conns[id].peer;
    match frame
    case Ping(token) => Plan(h, [Queue(id, Jump(Bare(Pong(token))))], Ok(None))
    case Pong(token) =>
      Plan(h.(conns := h.conns[id := ResolvePing(h.conns[id], token, nowMs)]), [], Ok(None))
    case Close(_) => Plan(h, BeginClose(id, None), Ok(None))
    case SendPacket(dst, payload) =>
      if peer.Client? then ForwardFromClient(h, id, dst, payload, roster, nowMs, mapping, gate)
      else Plan(h, [], Err(IllegalForRole))
    case Forward(src, dst, payload) =>
      if peer.Mesh? then DeliverFromMesh(h, id, src, dst, payload, roster, nowMs, mapping, gate)
      else Plan(h, [], Err(IllegalForRole))
    case PeerPresent(_) =>
      if peer.Mesh? then Plan(h.(presence := Presence(h, peer.relay, frame)), [], Ok(None))
      else Plan(h, [], Err(IllegalForRole))
    case PeerGone(_, _) =>
      if peer.Mesh? then Plan(h.(presence := Presence(h, peer.relay, frame)), [], Ok(None))
      else Plan(h, [], Err(IllegalForRole))
    case _ => Plan(h, [], Err(IllegalForRole))
  }

  predicate Accepts(h: Hub, id: ConnId, frame: Frame, nowMs: nat) {
    id in h.conns && CanPay(h.conns[id].meter, EncodedLen(frame), nowMs)
  }

  function OnFrame(h: Hub, id: ConnId, frame: Frame, roster: Roster, nowMs: nat,
                   mapping: Option<UsageMapping>, gate: Gate): (r: Plan)
    ensures SameLanes(h, r.hub)
  {
    if id !in h.conns then Plan(h, [], Err(UnknownConn))
    else if !Accepts(h, id, frame, nowMs) then
      var stats := h.conns[id].stats;
      Plan(WithStats(h, id, stats.(droppedRate := stats.droppedRate + 1)), [], Ok(Some(RateLimitedFrame)))
    else
      Dispatch(h.(conns := h.conns[id := Heard(h.conns[id], EncodedLen(frame), nowMs)]),
               id, frame, roster, nowMs, mapping, gate)
  }
}

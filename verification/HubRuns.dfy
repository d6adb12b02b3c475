/** Runs of the hub: events in any order, with a journal of what happened.

    The journal is what the theorems speak about; the hub itself keeps none. */
module HubRuns {
  import opened Common
  import opened Frames
  import opened Lanes
  import opened HubModel

  datatype Event =
    | Joins(id: ConnId, peer: Admitted, nowMs: nat, peers: seq<ConnId>, nodes: seq<Id>)
    | Leaves(id: ConnId, peers: seq<ConnId>)
    | Hears(id: ConnId, frame: Frame, roster: Roster, nowMs: nat, mapping: Option<UsageMapping>, gate: Gate)
    | Closes(id: ConnId, why: Option<Reason>)
    | Restarts(clients: seq<ConnId>, reconnectInMs: nat, tryForMs: nat)
    | Takes(id: ConnId)
    | Probes(id: ConnId, nowMs: nat)
    | Collects   // the I/O layer asks which connections to wake

  datatype Entry =
    | Joined(id: ConnId, peer: Admitted)
    | Accepted(id: ConnId, frame: Frame)
    | Metered(aquifer: Aquifer, bytes: nat, nowMs: nat, paid: bool)
    | Gave(id: ConnId, frame: Frame)
    | Did(id: ConnId, op: QueueOp)

  datatype Traced = Traced(hub: Hub, journal: seq<Entry>)

  function PlanOf(h: Hub, e: Event): Plan {
    match e
    case Joins(id, peer, nowMs, peers, nodes) => HubModel.Admit(h, id, peer, nowMs, peers, nodes)
    case Leaves(id, peers) => Disconnect(h, id, peers)
    case Hears(id, frame, roster, nowMs, mapping, gate) => OnFrame(h, id, frame, roster, nowMs, mapping, gate)
    case Closes(id, why) => Plan(h, BeginClose(id, why), Ok(None))
    case Restarts(clients, reconnect, tryFor) =>
      Plan(h, RestartEach(clients, Restarting(reconnect, tryFor)), Ok(None))
    case Takes(id) => Plan(h, [Queue(id, Take)], Ok(None))
    case Probes(id, nowMs) => ProbeRtt(h, id, nowMs)
    case Collects => Plan(h.(dirty := {}), [], Ok(None))
  }

  /** The aggregate charge that handling a frame attempts, if any. */
  function Metering(h: Hub, id: ConnId, frame: Frame, roster: Roster, nowMs: nat): seq<Entry> {
    if id !in h.conns || h.cfg.aquiferBudget.None? then []
    else
      match (frame, h.conns[id].peer)
      case (SendPacket(dst, payload), Client(src, aquifer)) =>
        if dst != src && dst in roster && roster[dst] == aquifer
        then [Metered(aquifer, |payload|, nowMs, AquiferAdmits(h, aquifer, |payload|, nowMs))] else []
      case (Forward(src, dst, payload), Mesh(_)) =>
        if dst in h.byNode && src in roster && dst in roster && roster[src] == roster[dst]
        then [Metered(roster[dst], |payload|, nowMs, AquiferAdmits(h, roster[dst], |payload|, nowMs))] else []
      case _ => []
  }

  function Notes(h: Hub, e: Event): seq<Entry> {
    match e
    case Joins(id, peer, _, _, _) => [Joined(id, peer)]
    case Hears(id, frame, roster, nowMs, _, _) =>
      if Accepts(h, id, frame, nowMs) && PlanOf(h, e).verdict.Ok?
      then [Accepted(id, frame)] + Metering(h, id, frame, roster, nowMs) else []
    case Takes(id) =>
      if id in h.conns && h.conns[id].queue != [] then [Gave(id, h.conns[id].queue[0].frame)] else []
    case _ => []
  }

  function Act(t: Traced, e: Effect): (r: Traced)
    requires t.hub.cfg.queueDepth > 0
    ensures r.hub == Do(t.hub, e)
  {
    Traced(Do(t.hub, e),
           if e.Queue? && e.to in t.hub.conns then t.journal + [Did(e.to, e.op)] else t.journal)
  }

  function ActAll(t: Traced, effects: seq<Effect>): (r: Traced)
    requires t.hub.cfg.queueDepth > 0
    ensures r.hub == Perform(t.hub, effects)
  {
    if effects == [] then t
    else Act(ActAll(t, effects[..|effects| - 1]), effects[|effects| - 1])
  }

  function Begin(t: Traced, e: Event): (r: Traced)
    ensures r.hub.cfg == t.hub.cfg
  {
    Traced(PlanOf(t.hub, e).hub, t.journal + Notes(t.hub, e))
  }

  function Step(t: Traced, e: Event): (r: Traced)
    requires t.hub.cfg.queueDepth > 0
    ensures r.hub.cfg == t.hub.cfg
  {
    ActAll(Begin(t, e), PlanOf(t.hub, e).effects)
  }

  // ---- What the journal says ----

  function OpsFor(journal: seq<Entry>, id: ConnId): seq<QueueOp> {
    if journal == [] then []
    else
      var last := journal[|journal| - 1];
      OpsFor(journal[..|journal| - 1], id) + if last.Did? && last.id == id then [last.op] else []
  }

  function EverJoined(journal: seq<Entry>): set<ConnId> {
    if journal == [] then {}
    else
      var last := journal[|journal| - 1];
      EverJoined(journal[..|journal| - 1]) + if last.Joined? then {last.id} else {}
  }

  /** The last connection admitted for a node, or for a relay. */
  function LastFor(journal: seq<Entry>, who: Admitted): Option<ConnId> {
    if journal == [] then None
    else
      var last := journal[|journal| - 1];
      if last.Joined? && SameParty(last.peer, who) then Some(last.id)
      else LastFor(journal[..|journal| - 1], who)
  }

  predicate SameParty(a: Admitted, b: Admitted) {
    match a
    case Client(n, _) => b.Client? && b.node == n
    case Mesh(r) => b.Mesh? && b.relay == r
  }

  /** The nodes that a reader of these queue operations would believe present. */
  function Told(ops: seq<QueueOp>): set<Id> {
    if ops == [] then {}
    else
      var believed := Told(ops[..|ops| - 1]);
      var last := ops[|ops| - 1];
      if last.Take? then believed else Believe(believed, last.item.frame)
  }

  function Believe(believed: set<Id>, frame: Frame): set<Id> {
    match frame
    case PeerPresent(node) => believed + {node}
    case PeerGone(node, _) => believed - {node}
    case _ => believed
  }

  // ---- Events that a relay can see ----

  /** Connection ids are fresh, and iteration orders list the tables. */
  ghost predicate Possible(t: Traced, e: Event) {
    match e
    case Joins(id, _, _, peers, nodes) =>
      id !in EverJoined(t.journal) && Lists(peers, t.hub.byMesh.Values) && Lists(nodes, t.hub.byNode.Keys)
    case Leaves(id, peers) => Lists(peers, t.hub.byMesh.Values)
    case Restarts(clients, _, _) => Lists(clients, t.hub.byNode.Values)
    case _ => true
  }

  function Start(cfg: Config): Traced {
    Traced(Hub(cfg, map[], map[], map[], map[], map[], {}, NO_STATS), [])
  }

  function After(cfg: Config, events: seq<Event>): (t: Traced)
    requires cfg.queueDepth > 0
    ensures t.hub.cfg == cfg
  {
    if events == [] then Start(cfg)
    else Step(After(cfg, events[..|events| - 1]), events[|events| - 1])
  }

  /** Every event was possible when it happened. */
  ghost predicate Feasible(cfg: Config, events: seq<Event>)
    requires cfg.queueDepth > 0
  {
    events != [] ==>
      && Feasible(cfg, events[..|events| - 1])
      && Possible(After(cfg, events[..|events| - 1]), events[|events| - 1])
  }
}

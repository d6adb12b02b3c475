/** Any number of meshed relays: a packet is passed on at most once, and never
    multiplied.

    Frames in flight between relays may be delayed, lost, reordered or handed to
    another relay than the one they were meant for; they are not invented. */
module HubNetwork {
  import opened Common
  import opened Frames
  import opened Lanes
  import opened HubModel
  import opened HubRuns
  import opened HubInvariants
  import opened Sums

  datatype Kind =
    | Submitted   // a SendPacket accepted from a client
    | Relayed     // a Forward accepted from a mesh peer
    | Delivered   // a RecvPacket queued
    | Forwarded   // a Forward queued
    | Shipped     // a Forward handed to the writer of a mesh connection

  predicate Is(entry: Entry, k: Kind) {
    match k
    case Submitted => entry.Accepted? && entry.frame.SendPacket?
    case Relayed => entry.Accepted? && entry.frame.Forward?
    case Delivered => entry.Did? && QueuesKind(entry.op, k)
    case Forwarded => entry.Did? && QueuesKind(entry.op, k)
    case Shipped => entry.Gave? && entry.frame.Forward?
  }

  predicate QueuesKind(op: QueueOp, k: Kind) {
    && !op.Take?
    && (k.Delivered? ==> op.item.frame.RecvPacket?)
    && (k.Forwarded? ==> op.item.frame.Forward?)
    && (k.Delivered? || k.Forwarded?)
  }

  function Count(journal: seq<Entry>, k: Kind): nat {
    if journal == [] then 0
    else Count(journal[..|journal| - 1], k) + if Is(journal[|journal| - 1], k) then 1 else 0
  }

  lemma {:induction false} CountAppend(journal: seq<Entry>, more: seq<Entry>, k: Kind)
    ensures Count(journal + more, k) == Count(journal, k) + Count(more, k)
  {
    if more == [] {
      assert journal + more == journal;
    } else {
      CountAppend(journal, more[..|more| - 1], k);
      assert (journal + more)[..|journal + more| - 1] == journal + more[..|more| - 1];
    }
  }

  // ---- How many packets a plan queues ----

  function Queues(effects: seq<Effect>, k: Kind): nat {
    if effects == [] then 0
    else
      var last := effects[|effects| - 1];
      Queues(effects[..|effects| - 1], k) + if last.Queue? && QueuesKind(last.op, k) then 1 else 0
  }

  lemma {:induction false} QueuesNone(effects: seq<Effect>, k: Kind)
    requires forall i :: 0 <= i < |effects| ==> !(effects[i].Queue? && QueuesKind(effects[i].op, k))
    ensures Queues(effects, k) == 0
  {
    if effects == [] {
    } else {
      QueuesNone(effects[..|effects| - 1], k);
    }
  }

  predicate NoPackets(effects: seq<Effect>) {
    forall i :: 0 <= i < |effects| ==>
      !(effects[i].Queue? && (QueuesKind(effects[i].op, Delivered) || QueuesKind(effects[i].op, Forwarded)))
  }

  lemma NoPacketsQueued(effects: seq<Effect>)
    requires NoPackets(effects)
    ensures Queues(effects, Delivered) == Queues(effects, Forwarded) == 0
  {
    QueuesNone(effects, Delivered);
    QueuesNone(effects, Forwarded);
  }

  /** At most one packet, of one kind. */
  predicate OnePacket(effects: seq<Effect>) {
    Queues(effects, Delivered) + Queues(effects, Forwarded) <= 1
  }

  lemma ShortLists(effects: seq<Effect>)
    ensures |effects| == 1 ==>
      forall k :: Queues(effects, k) == if effects[0].Queue? && QueuesKind(effects[0].op, k) then 1 else 0
    ensures |effects| == 2 && !effects[1].Queue? ==>
      forall k :: Queues(effects, k) == if effects[0].Queue? && QueuesKind(effects[0].op, k) then 1 else 0
  {
    if |effects| == 1 {
      assert effects[..0] == [];
    } else if |effects| == 2 {
      assert effects[..1][..0] == [] && effects[..1][0] == effects[0];
    }
  }

  lemma DeliverQueuesOne(h: Hub, from: ConnId, to: ConnId, frame: Frame, mapping: Option<UsageMapping>, gate: Gate)
    ensures var effects := Deliver(h, from, to, frame, mapping, gate).effects;
      && OnePacket(effects)
      && (!frame.Forward? ==> Queues(effects, Forwarded) == 0)
      && (!frame.RecvPacket? ==> Queues(effects, Delivered) == 0)
  {
    ShortLists(Deliver(h, from, to, frame, mapping, gate).effects);
  }

  lemma RefuseQueuesNone(h: Hub, from: ConnId, peer: Id, reason: Reason, why: Dropped)
    ensures var effects := Refuse(h, from, peer, reason, why).effects;
      Queues(effects, Delivered) == Queues(effects, Forwarded) == 0
  {
    ShortLists(Refuse(h, from, peer, reason, why).effects);
  }

  lemma RouteQueuesOne(h: Hub, from: ConnId, src: Id, dst: Id, payload: seq<Byte>,
                       mapping: Option<UsageMapping>, gate: Gate)
    ensures OnePacket(Route(h, from, src, dst, payload, mapping, gate).effects)
  {
    if dst in h.byNode {
      DeliverQueuesOne(h, from, h.byNode[dst], RecvPacket(src, payload), mapping, gate);
    } else if dst in h.presence && h.presence[dst] in h.byMesh {
      DeliverQueuesOne(h, from, h.byMesh[h.presence[dst]], Forward(src, dst, payload), None, gate);
    } else {
      RefuseQueuesNone(h, from, dst, NotHere, Nowhere);
    }
  }

  lemma ForwardQueuesOne(h: Hub, from: ConnId, dst: Id, payload: seq<Byte>, roster: Roster, nowMs: nat,
                         mapping: Option<UsageMapping>, gate: Gate)
    requires from in h.conns && h.conns[from].peer.Client?
    ensures OnePacket(ForwardFromClient(h, from, dst, payload, roster, nowMs, mapping, gate).effects)
  {
    var Client(src, aquifer) := h.conns[from].peer;
    RouteQueuesOne(ChargeAquifer(h, aquifer, |payload|, nowMs), from, src, dst, payload, mapping, gate);
    RefuseQueuesNone(h, from, dst, NotAdmitted, UnknownDestination);
    ShortLists([Undeliverable(from)]);
  }

  /** One hop: whatever a Forward leads to, it is not another Forward. */
  lemma MeshQueuesOne(h: Hub, from: ConnId, src: Id, dst: Id, payload: seq<Byte>, roster: Roster, nowMs: nat,
                      mapping: Option<UsageMapping>, gate: Gate)
    ensures var effects := DeliverFromMesh(h, from, src, dst, payload, roster, nowMs, mapping, gate).effects;
      OnePacket(effects) && Queues(effects, Forwarded) == 0
  {
    RefuseQueuesNone(h, from, dst, Disconnected, Nowhere);
    ShortLists([Undeliverable(from)]);
    if dst in h.byNode && dst in roster {
      DeliverQueuesOne(ChargeAquifer(h, roster[dst], |payload|, nowMs), from, h.byNode[dst],
                       RecvPacket(src, payload), mapping, gate);
    }
  }

  /** A frame the core accepts leads to at most one packet, and to a Forward
      only if a client submitted it. */
  lemma DispatchQueuesOne(h: Hub, id: ConnId, frame: Frame, roster: Roster, nowMs: nat,
                          mapping: Option<UsageMapping>, gate: Gate)
    requires id in h.conns
    ensures var p := Dispatch(h, id, frame, roster, nowMs, mapping, gate);
      && OnePacket(p.effects)
      && (!frame.SendPacket? ==> Queues(p.effects, Forwarded) == 0)
      && ((!frame.SendPacket? && !frame.Forward?) || p.verdict.Err? ==> NoPackets(p.effects))
  {
    var p := Dispatch(h, id, frame, roster, nowMs, mapping, gate);
    if frame.SendPacket? && h.conns[id].peer.Client? {
      ForwardQueuesOne(h, id, frame.dst, frame.payload, roster, nowMs, mapping, gate);
    } else if frame.Forward? && h.conns[id].peer.Mesh? {
      MeshQueuesOne(h, id, frame.src, frame.dst, frame.payload, roster, nowMs, mapping, gate);
    } else {
      assert NoPackets(p.effects);
      NoPacketsQueued(p.effects);
    }
  }

  // ---- Per relay: packets out are paid for by packets in ----

  lemma ActCounts(t: Traced, e: Effect, k: Kind)
    requires t.hub.cfg.queueDepth > 0
    ensures Count(t.journal, k) <= Count(Act(t, e).journal, k) <= Count(t.journal, k) + Queues([e], k)
  {
    assert [e][..0] == [];
    if e.Queue? && e.to in t.hub.conns {
      assert (t.journal + [Did(e.to, e.op)])[..|t.journal|] == t.journal;
    }
  }

  lemma QueuesGrow(effects: seq<Effect>, k: Kind)
    requires effects != []
    ensures Queues(effects, k) == Queues(effects[..|effects| - 1], k) + Queues([effects[|effects| - 1]], k)
  {
    assert [effects[|effects| - 1]][..0] == [];
  }

  lemma {:induction false} ActAllCounts(t: Traced, effects: seq<Effect>, k: Kind)
    requires t.hub.cfg.queueDepth > 0
    ensures Count(t.journal, k) <= Count(ActAll(t, effects).journal, k) <= Count(t.journal, k) + Queues(effects, k)
  {
    if effects == [] {
    } else {
      var front, last := effects[..|effects| - 1], effects[|effects| - 1];
      ActAllCounts(t, front, k);
      ActCounts(ActAll(t, front), last, k);
      QueuesGrow(effects, k);
    }
  }

  lemma CountOfOne(x: Entry, k: Kind)
    ensures Count([x], k) == if Is(x, k) then 1 else 0
  {
    assert [x][..0] == [];
  }

  /** Only a mesh peer's Forward, and only a client's SendPacket, is accepted. */
  lemma AcceptedByRole(h: Hub, id: ConnId, frame: Frame, roster: Roster, nowMs: nat,
                       mapping: Option<UsageMapping>, gate: Gate)
    requires Accepts(h, id, frame, nowMs) && OnFrame(h, id, frame, roster, nowMs, mapping, gate).verdict.Ok?
    ensures frame.Forward? ==> h.conns[id].peer.Mesh?
    ensures frame.SendPacket? ==> h.conns[id].peer.Client?
  {
  }

  lemma HearingCounts(h: Hub, id: ConnId, frame: Frame, roster: Roster, nowMs: nat, k: Kind)
    ensures Count([Accepted(id, frame)] + Metering(h, id, frame, roster, nowMs), k)
         == if Is(Accepted(id, frame), k) then 1 else 0
  {
    var m := Metering(h, id, frame, roster, nowMs);
    CountAppend([Accepted(id, frame)], m, k);
    CountOfOne(Accepted(id, frame), k);
    if m != [] {
      assert m == [m[0]];
      CountOfOne(m[0], k);
    }
  }

  /** What an event brings in: one submitted or relayed packet at most. */
  function Brings(h: Hub, e: Event, k: Kind): nat {
    match e
    case Hears(id, frame, roster, nowMs, mapping, gate) =>
      if Accepts(h, id, frame, nowMs) && PlanOf(h, e).verdict.Ok? && Is(Accepted(id, frame), k) then 1 else 0
    case Takes(id) =>
      if id in h.conns && h.conns[id].queue != [] && Is(Gave(id, h.conns[id].queue[0].frame), k) then 1 else 0
    case _ => 0
  }

  lemma NotesCount(h: Hub, e: Event, k: Kind)
    ensures Count(Notes(h, e), k) == Brings(h, e, k)
  {
    match e
    case Joins(id, peer, _, _, _) => CountOfOne(Joined(id, peer), k);
    case Hears(id, frame, roster, nowMs, _, _) => HearingCounts(h, id, frame, roster, nowMs, k);
    case Takes(id) =>
      if id in h.conns && h.conns[id].queue != [] {
        CountOfOne(Gave(id, h.conns[id].queue[0].frame), k);
      }
    case _ =>
  }

  lemma {:induction false} RestartQueuesNone(clients: seq<ConnId>, notice: Frame)
    requires notice.Restarting?
    ensures NoPackets(RestartEach(clients, notice))
  {
    if clients == [] {
    } else {
      RestartQueuesNone(clients[..|clients| - 1], notice);
    }
  }

  /** No event queues more packets than it brings in. */
  lemma PlansQueueWhatTheyAccept(h: Hub, e: Event)
    ensures var p := PlanOf(h, e);
      Queues(p.effects, Delivered) + Queues(p.effects, Forwarded)
        <= Brings(h, e, Submitted) + Brings(h, e, Relayed)
  {
    var p := PlanOf(h, e);
    match e
    case Hears(id, frame, roster, nowMs, mapping, gate) =>
      if Accepts(h, id, frame, nowMs) {
        var g := h.(conns := h.conns[id := Heard(h.conns[id], EncodedLen(frame), nowMs)]);
        DispatchQueuesOne(g, id, frame, roster, nowMs, mapping, gate);
        if NoPackets(p.effects) {
          NoPacketsQueued(p.effects);
        }
      }
    case Restarts(clients, a, b) =>
      RestartQueuesNone(clients, Restarting(a, b));
      NoPacketsQueued(p.effects);
    case _ =>
      NoPacketsQueued(p.effects);
  }

  // ---- Forwards waiting in queues ----

  function ForwardsIn(q: seq<Outbound>): nat {
    if q == [] then 0
    else ForwardsIn(q[..|q| - 1]) + if q[|q| - 1].frame.Forward? then 1 else 0
  }

  lemma {:induction false} ForwardsAppend(a: seq<Outbound>, b: seq<Outbound>)
    ensures ForwardsIn(a + b) == ForwardsIn(a) + ForwardsIn(b)
  {
    if b == [] {
      assert a + b == a;
    } else {
      ForwardsAppend(a, b[..|b| - 1]);
      assert (a + b)[..|a + b| - 1] == a + b[..|b| - 1];
    }
  }

  lemma ForwardsOfOne(x: Outbound)
    ensures ForwardsIn([x]) == if x.frame.Forward? then 1 else 0
  {
    assert [x][..0] == [];
  }

  lemma ShedForwards(q: seq<Outbound>, depth: nat)
    requires depth > 0
    ensures ForwardsIn(Shed(q, depth)) <= ForwardsIn(q)
  {
    var kept := Shed(q, depth);
    assert q == q[..|q| - |kept|] + kept;
    ForwardsAppend(q[..|q| - |kept|], kept);
  }

  lemma HeadForwards(q: seq<Outbound>)
    requires q != []
    ensures ForwardsIn(q[1..]) + (if q[0].frame.Forward? then 1 else 0) == ForwardsIn(q)
  {
    assert q == [q[0]] + q[1..];
    ForwardsAppend([q[0]], q[1..]);
    ForwardsOfOne(q[0]);
  }

  lemma AddedForwards(a: seq<Outbound>, x: Outbound)
    ensures ForwardsIn(a + [x]) == ForwardsIn(a) + if x.frame.Forward? then 1 else 0
    ensures ForwardsIn([x] + a) == ForwardsIn(a) + if x.frame.Forward? then 1 else 0
  {
    ForwardsAppend(a, [x]);
    ForwardsAppend([x], a);
    ForwardsOfOne(x);
  }

  lemma NextForwards(q: seq<Outbound>, depth: nat, op: QueueOp)
    requires depth > 0
    ensures ForwardsIn(Next(q, depth, op)) <= ForwardsIn(q) + if QueuesKind(op, Forwarded) then 1 else 0
    ensures op.Take? && q != [] ==>
      ForwardsIn(Next(q, depth, op)) + (if q[0].frame.Forward? then 1 else 0) == ForwardsIn(q)
  {
    match op
    case Take =>
      if q != [] {
        HeadForwards(q);
      }
    case Farewell(x) => AddedForwards(q, x);
    case _ =>
      ShedForwards(q, depth);
      AddedForwards(Shed(q, depth), op.item);
  }

  ghost function Backlogs(conns: map<ConnId, Conn>): map<ConnId, nat> {
    map c | c in conns :: ForwardsIn(conns[c].queue)
  }

  /** Forwards waiting anywhere in one relay. */
  ghost function Waiting(h: Hub): nat { SumOf(Backlogs(h.conns)) }

  lemma DoWaiting(h: Hub, e: Effect)
    requires h.cfg.queueDepth > 0
    ensures Waiting(Do(h, e))
         <= Waiting(h) + if e.Queue? && e.to in h.conns && QueuesKind(e.op, Forwarded) then 1 else 0
    ensures e.Queue? && e.op.Take? && e.to in h.conns && h.conns[e.to].queue != [] ==>
      Waiting(Do(h, e)) + (if h.conns[e.to].queue[0].frame.Forward? then 1 else 0) == Waiting(h)
  {
    if e.to in h.conns {
      var q := React(h.conns[e.to], h.cfg.queueDepth, e).queue;
      assert Backlogs(Do(h, e).conns) == Backlogs(h.conns)[e.to := ForwardsIn(q)];
      SumUpdates(Backlogs(h.conns), e.to, ForwardsIn(q));
      if e.Queue? {
        NextForwards(h.conns[e.to].queue, h.cfg.queueDepth, e.op);
      }
    }
  }

  /** Forwards queued so far are shipped, waiting, or were displaced. */
  ghost predicate Covered(t: Traced) {
    Count(t.journal, Shipped) + Waiting(t.hub) <= Count(t.journal, Forwarded)
  }

  /** How far the two sides of the account move when an operation is noted. */
  lemma NotedCounts(journal: seq<Entry>, id: ConnId, op: QueueOp)
    ensures var after := journal + [Did(id, op)];
      && Count(after, Shipped) == Count(journal, Shipped)
      && Count(after, Forwarded) == Count(journal, Forwarded) + if QueuesKind(op, Forwarded) then 1 else 0
  {
    CountMore(journal, Did(id, op), Shipped);
    CountMore(journal, Did(id, op), Forwarded);
  }

  lemma ActKeepsCovered(t: Traced, e: Effect)
    requires t.hub.cfg.queueDepth > 0 && Covered(t)
    ensures Covered(Act(t, e))
  {
    DoWaiting(t.hub, e);
    if e.Queue? && e.to in t.hub.conns {
      NotedCounts(t.journal, e.to, e.op);
    }
  }

  lemma {:induction false} ActAllKeepsCovered(t: Traced, effects: seq<Effect>)
    requires t.hub.cfg.queueDepth > 0 && Covered(t)
    ensures Covered(ActAll(t, effects))
  {
    if effects == [] {
    } else {
      ActAllKeepsCovered(t, effects[..|effects| - 1]);
      ActKeepsCovered(ActAll(t, effects[..|effects| - 1]), effects[|effects| - 1]);
    }
  }

  lemma QuietKeepsWaiting(h: Hub, g: Hub)
    requires SameLanes(h, g)
    ensures Waiting(g) == Waiting(h)
  {
    assert Backlogs(g.conns) == Backlogs(h.conns);
  }

  lemma RegisterKeepsWaiting(h: Hub, id: ConnId, peer: Admitted, nowMs: nat)
    requires id !in h.conns
    ensures Waiting(Register(h, id, peer, nowMs)) == Waiting(h)
  {
    assert Backlogs(Register(h, id, peer, nowMs).conns) == Backlogs(h.conns)[id := 0];
    SumUpdates(Backlogs(h.conns), id, 0);
  }

  lemma DeregisterWaiting(h: Hub, id: ConnId)
    requires id in h.conns
    ensures Waiting(Deregister(h, id)) <= Waiting(h)
  {
    assert Backlogs(Deregister(h, id).conns) == Backlogs(h.conns) - {id};
    SumSplits(Backlogs(h.conns), id);
  }

  lemma BeginWaiting(t: Traced, e: Event)
    requires Core(t) && Possible(t, e)
    ensures Waiting(Begin(t, e).hub) <= Waiting(t.hub)
  {
    match e
    case Joins(id, peer, nowMs, _, _) => RegisterKeepsWaiting(t.hub, id, peer, nowMs);
    case Leaves(id, _) =>
      if id in t.hub.conns {
        DeregisterWaiting(t.hub, id);
      }
    case _ =>
      SettledKeepsLanes(t.hub, e);
      QuietKeepsWaiting(t.hub, PlanOf(t.hub, e).hub);
  }

  lemma ActAllOfOne(t: Traced, e: Effect)
    requires t.hub.cfg.queueDepth > 0
    ensures ActAll(t, [e]) == Act(t, e)
  {
    assert [e][..0] == [];
  }

  /** Taking an item moves a Forward from waiting to shipped. */
  lemma TakenIsShipped(t: Traced, id: ConnId)
    requires t.hub.cfg.queueDepth > 0 && Covered(t) && id in t.hub.conns && t.hub.conns[id].queue != []
    ensures Covered(Act(Traced(t.hub, t.journal + [Gave(id, t.hub.conns[id].queue[0].frame)]), Queue(id, Take)))
  {
    var gave := Gave(id, t.hub.conns[id].queue[0].frame);
    var noted := t.journal + [gave];
    DoWaiting(t.hub, Queue(id, Take));
    CountMore(t.journal, gave, Shipped);
    CountMore(t.journal, gave, Forwarded);
    CountMore(noted, Did(id, Take), Shipped);
    CountMore(noted, Did(id, Take), Forwarded);
  }

  lemma CountMore(journal: seq<Entry>, x: Entry, k: Kind)
    ensures Count(journal + [x], k) == Count(journal, k) + if Is(x, k) then 1 else 0
  {
    assert (journal + [x])[..|journal|] == journal;
  }

  lemma TakeKeepsCovered(t: Traced, id: ConnId)
    requires Core(t) && Covered(t)
    ensures Covered(Step(t, Takes(id)))
  {
    var e := Takes(id);
    ActAllOfOne(Begin(t, e), Queue(id, Take));
    if id in t.hub.conns && t.hub.conns[id].queue != [] {
      TakenIsShipped(t, id);
    } else {
      assert t.journal + [] == t.journal;
      ActKeepsCovered(t, Queue(id, Take));
    }
  }

  lemma StepKeepsCovered(t: Traced, e: Event)
    requires Core(t) && Possible(t, e) && Covered(t)
    ensures Covered(Step(t, e))
  {
    if e.Takes? {
      TakeKeepsCovered(t, e.id);
    } else {
      var b := Begin(t, e);
      NotesCount(t.hub, e, Shipped);
      NotesCount(t.hub, e, Forwarded);
      CountAppend(t.journal, Notes(t.hub, e), Shipped);
      CountAppend(t.journal, Notes(t.hub, e), Forwarded);
      BeginWaiting(t, e);
      ActAllKeepsCovered(b, PlanOf(t.hub, e).effects);
    }
  }

  /** Packets a relay queues are paid for by packets it accepted. */
  predicate PaidFor(journal: seq<Entry>) {
    Count(journal, Delivered) + Count(journal, Forwarded) <= Count(journal, Submitted) + Count(journal, Relayed)
  }

  lemma StepCountBounds(t: Traced, e: Event, k: Kind)
    requires t.hub.cfg.queueDepth > 0
    ensures var before := Count(t.journal, k) + Brings(t.hub, e, k);
      before <= Count(Step(t, e).journal, k) <= before + Queues(PlanOf(t.hub, e).effects, k)
  {
    CountAppend(t.journal, Notes(t.hub, e), k);
    NotesCount(t.hub, e, k);
    ActAllCounts(Begin(t, e), PlanOf(t.hub, e).effects, k);
  }

  lemma BringsOnlyInputs(h: Hub, e: Event)
    ensures Brings(h, e, Delivered) == 0 && Brings(h, e, Forwarded) == 0
  {
  }

  lemma StepKeepsPaidFor(t: Traced, e: Event)
    requires t.hub.cfg.queueDepth > 0 && PaidFor(t.journal)
    ensures PaidFor(Step(t, e).journal)
  {
    PlansQueueWhatTheyAccept(t.hub, e);
    BringsOnlyInputs(t.hub, e);
    StepCountBounds(t, e, Delivered);
    StepCountBounds(t, e, Forwarded);
    StepCountBounds(t, e, Submitted);
    StepCountBounds(t, e, Relayed);
  }

  // ---- The network ----

  type HubId = nat

  datatype Net = Net(hubs: map<HubId, Traced>, flight: seq<Frame>)

  datatype Move =
    | Local(hub: HubId, event: Event)               // anything but reading or writing a mesh connection
    | Ship(hub: HubId, conn: ConnId)                // a mesh connection's writer takes the head of its queue
    | Land(hub: HubId, event: Event, at: nat)       // a frame in flight reaches some mesh connection
    | Lose(at: nat)                                 // a frame in flight is lost

  predicate IsMesh(h: Hub, id: ConnId) { id in h.conns && h.conns[id].peer.Mesh? }

  ghost predicate CanMove(n: Net, m: Move) {
    match m
    case Local(hub, e) =>
      && hub in n.hubs && Possible(n.hubs[hub], e)
      && (e.Hears? || e.Takes? ==> !IsMesh(n.hubs[hub].hub, e.id))
    case Ship(hub, conn) =>
      hub in n.hubs && IsMesh(n.hubs[hub].hub, conn) && n.hubs[hub].hub.conns[conn].queue != []
    case Land(hub, e, at) =>
      && hub in n.hubs && at < |n.flight|
      && e.Hears? && e.frame == n.flight[at] && IsMesh(n.hubs[hub].hub, e.id)
    case Lose(at) => at < |n.flight|
  }

  function Without<T>(s: seq<T>, at: nat): seq<T>
    requires at < |s|
  {
    s[..at] + s[at + 1..]
  }

  /** A move that is not possible changes nothing. */
  ghost function Moved(n: Net, m: Move): Net
    requires Deep(n)
  {
    if !CanMove(n, m) then n
    else
      match m
      case Local(hub, e) => n.(hubs := n.hubs[hub := Step(n.hubs[hub], e)])
      case Ship(hub, conn) =>
        Net(n.hubs[hub := Step(n.hubs[hub], Takes(conn))],
            n.flight + [n.hubs[hub].hub.conns[conn].queue[0].frame])
      case Land(hub, e, at) => Net(n.hubs[hub := Step(n.hubs[hub], e)], Without(n.flight, at))
      case Lose(at) => n.(flight := Without(n.flight, at))
  }

  predicate Deep(n: Net) { forall h :: h in n.hubs ==> n.hubs[h].hub.cfg.queueDepth > 0 }

  function InFlight(flight: seq<Frame>): nat {
    if flight == [] then 0
    else InFlight(flight[..|flight| - 1]) + if flight[|flight| - 1].Forward? then 1 else 0
  }

  lemma {:induction false} InFlightAppend(a: seq<Frame>, b: seq<Frame>)
    ensures InFlight(a + b) == InFlight(a) + InFlight(b)
  {
    if b == [] {
      assert a + b == a;
    } else {
      InFlightAppend(a, b[..|b| - 1]);
      assert (a + b)[..|a + b| - 1] == a + b[..|b| - 1];
    }
  }

  lemma InFlightOne(f: Frame)
    ensures InFlight([f]) == if f.Forward? then 1 else 0
  {
    assert [f][..0] == [];
  }

  lemma {:induction false} InFlightWithout(flight: seq<Frame>, at: nat)
    requires at < |flight|
    ensures InFlight(flight) == InFlight(Without(flight, at)) + if flight[at].Forward? then 1 else 0
  {
    var n := |flight| - 1;
    if at == n {
      assert Without(flight, at) == flight[..n];
    } else {
      InFlightWithout(flight[..n], at);
      assert Without(flight, at)[..n - 1] == Without(flight[..n], at);
    }
  }

  ghost function Counts(hubs: map<HubId, Traced>, k: Kind): map<HubId, nat> {
    map h | h in hubs :: Count(hubs[h].journal, k)
  }

  /** How many entries of one kind there are in the whole network's history. */
  ghost function Tally(n: Net, k: Kind): nat { SumOf(Counts(n.hubs, k)) }

  ghost predicate HubOk(t: Traced) { Core(t) && Covered(t) && PaidFor(t.journal) }

  ghost predicate NetOk(n: Net) {
    && (forall h :: h in n.hubs ==> HubOk(n.hubs[h]))
    && Tally(n, Relayed) + InFlight(n.flight) <= Tally(n, Shipped)
  }

  /** Reading and shipping are counted where they happen, and nowhere else. */
  lemma StepCounts(t: Traced, e: Event, k: Kind)
    requires t.hub.cfg.queueDepth > 0 && (k.Relayed? || k.Shipped? || k.Submitted?)
    ensures Count(Step(t, e).journal, k) == Count(t.journal, k) + Brings(t.hub, e, k)
  {
    CountAppend(t.journal, Notes(t.hub, e), k);
    NotesCount(t.hub, e, k);
    QueuesNone(PlanOf(t.hub, e).effects, k);
    ActAllCounts(Begin(t, e), PlanOf(t.hub, e).effects, k);
  }

  lemma HubSteps(t: Traced, e: Event)
    requires HubOk(t) && Possible(t, e)
    ensures HubOk(Step(t, e))
  {
    StepKeepsCore(t, e);
    StepKeepsCovered(t, e);
    StepKeepsPaidFor(t, e);
  }

  lemma TallyUpdates(n: Net, hub: HubId, t: Traced, k: Kind)
    requires hub in n.hubs
    ensures SumOf(Counts(n.hubs[hub := t], k)) + Count(n.hubs[hub].journal, k) == Tally(n, k) + Count(t.journal, k)
  {
    assert Counts(n.hubs[hub := t], k) == Counts(n.hubs, k)[hub := Count(t.journal, k)];
    SumUpdates(Counts(n.hubs, k), hub, Count(t.journal, k));
  }

  /** One relay is in a new state, and the frames in flight changed with it. */
  lemma RelayReplaced(n: Net, hub: HubId, u: Traced, flight: seq<Frame>)
    requires NetOk(n) && hub in n.hubs && HubOk(u)
    requires Count(u.journal, Relayed) + Count(n.hubs[hub].journal, Shipped) + InFlight(flight)
          <= Count(u.journal, Shipped) + Count(n.hubs[hub].journal, Relayed) + InFlight(n.flight)
    ensures NetOk(Net(n.hubs[hub := u], flight))
  {
    TallyUpdates(n, hub, u, Relayed);
    TallyUpdates(n, hub, u, Shipped);
    var m := Net(n.hubs[hub := u], flight);
    assert Tally(m, Relayed) + InFlight(flight) <= Tally(m, Shipped);
    forall h | h in m.hubs ensures HubOk(m.hubs[h]) {
    }
  }

  lemma RelayMoves(n: Net, hub: HubId, e: Event, flight: seq<Frame>)
    requires NetOk(n) && hub in n.hubs && Possible(n.hubs[hub], e)
    requires Brings(n.hubs[hub].hub, e, Relayed) + InFlight(flight)
          <= Brings(n.hubs[hub].hub, e, Shipped) + InFlight(n.flight)
    ensures NetOk(Net(n.hubs[hub := Step(n.hubs[hub], e)], flight))
  {
    var t := n.hubs[hub];
    HubSteps(t, e);
    StepCounts(t, e, Relayed);
    StepCounts(t, e, Shipped);
    RelayReplaced(n, hub, Step(t, e), flight);
  }

  lemma BringsByRole(h: Hub, e: Event)
    ensures Brings(h, e, Relayed) == 1 ==> e.Hears? && e.frame.Forward? && IsMesh(h, e.id)
  {
    if Brings(h, e, Relayed) == 1 {
      AcceptedByRole(h, e.id, e.frame, e.roster, e.nowMs, e.mapping, e.gate);
    }
  }

  lemma LocalKeepsNet(n: Net, hub: HubId, e: Event)
    requires NetOk(n) && CanMove(n, Local(hub, e))
    ensures NetOk(Net(n.hubs[hub := Step(n.hubs[hub], e)], n.flight))
  {
    BringsByRole(n.hubs[hub].hub, e);
    RelayMoves(n, hub, e, n.flight);
  }

  lemma TakeBrings(h: Hub, conn: ConnId)
    requires conn in h.conns && h.conns[conn].queue != []
    ensures Brings(h, Takes(conn), Relayed) == 0
    ensures Brings(h, Takes(conn), Shipped) == InFlight([h.conns[conn].queue[0].frame])
  {
    InFlightOne(h.conns[conn].queue[0].frame);
  }

  lemma ShipKeepsNet(n: Net, hub: HubId, conn: ConnId)
    requires NetOk(n) && CanMove(n, Ship(hub, conn))
    ensures NetOk(Net(n.hubs[hub := Step(n.hubs[hub], Takes(conn))],
                      n.flight + [n.hubs[hub].hub.conns[conn].queue[0].frame]))
  {
    var frame := n.hubs[hub].hub.conns[conn].queue[0].frame;
    TakeBrings(n.hubs[hub].hub, conn);
    InFlightAppend(n.flight, [frame]);
    RelayMoves(n, hub, Takes(conn), n.flight + [frame]);
  }

  lemma LandKeepsNet(n: Net, hub: HubId, e: Event, at: nat)
    requires NetOk(n) && CanMove(n, Land(hub, e, at))
    ensures NetOk(Net(n.hubs[hub := Step(n.hubs[hub], e)], Without(n.flight, at)))
  {
    BringsByRole(n.hubs[hub].hub, e);
    InFlightWithout(n.flight, at);
    RelayMoves(n, hub, e, Without(n.flight, at));
  }

  lemma MoveKeepsNet(n: Net, m: Move)
    requires NetOk(n)
    ensures NetOk(Moved(n, m))
  {
    if CanMove(n, m) {
      match m
      case Local(hub, e) => LocalKeepsNet(n, hub, e);
      case Ship(hub, conn) => ShipKeepsNet(n, hub, conn);
      case Land(hub, e, at) => LandKeepsNet(n, hub, e, at);
      case Lose(at) => InFlightWithout(n.flight, at);
    }
  }

  function Boot(cfgs: map<HubId, Config>): Net {
    Net(map h | h in cfgs :: Start(cfgs[h]), [])
  }

  ghost function NetAfter(cfgs: map<HubId, Config>, moves: seq<Move>): (n: Net)
    requires forall h :: h in cfgs ==> cfgs[h].queueDepth > 0
    ensures Deep(n)
  {
    if moves == [] then Boot(cfgs)
    else Moved(NetAfter(cfgs, moves[..|moves| - 1]), moves[|moves| - 1])
  }

  lemma BootOk(cfgs: map<HubId, Config>)
    requires forall h :: h in cfgs ==> cfgs[h].queueDepth > 0
    ensures NetOk(Boot(cfgs))
  {
    forall h | h in cfgs ensures HubOk(Start(cfgs[h])) {
      assert Backlogs(Start(cfgs[h]).hub.conns) == map[];
    }
    ZeroSum(Counts(Boot(cfgs).hubs, Relayed));
  }

  lemma {:induction false} RunsKeepNet(cfgs: map<HubId, Config>, moves: seq<Move>)
    requires forall h :: h in cfgs ==> cfgs[h].queueDepth > 0
    ensures NetOk(NetAfter(cfgs, moves))
  {
    if moves == [] {
      BootOk(cfgs);
    } else {
      RunsKeepNet(cfgs, moves[..|moves| - 1]);
      MoveKeepsNet(NetAfter(cfgs, moves[..|moves| - 1]), moves[|moves| - 1]);
    }
  }

  lemma {:induction false} ZeroSum(m: map<HubId, nat>)
    requires forall k :: k in m ==> m[k] == 0
    ensures SumOf(m) == 0
    decreases m.Keys
  {
    if m != map[] {
      var k :| k in m;
      assert (m - {k}).Keys < m.Keys;
      SumSplits(m, k);
      ZeroSum(m - {k});
    }
  }

  /** Per relay, what goes out or across is covered by what came in. */
  predicate InOut(journal: seq<Entry>) {
    Count(journal, Delivered) + Count(journal, Shipped) <= Count(journal, Submitted) + Count(journal, Relayed)
  }

  lemma HubBalance(t: Traced)
    requires HubOk(t)
    ensures InOut(t.journal)
  {
  }

  lemma NetBalance(n: Net)
    requires forall h :: h in n.hubs ==> InOut(n.hubs[h].journal)
    requires Tally(n, Relayed) <= Tally(n, Shipped)
    ensures Tally(n, Delivered) <= Tally(n, Submitted)
  {
    var d, x := Counts(n.hubs, Delivered), Counts(n.hubs, Shipped);
    var s, r := Counts(n.hubs, Submitted), Counts(n.hubs, Relayed);
    forall h | h in d ensures d[h] + x[h] <= s[h] + r[h] {
      assert InOut(n.hubs[h].journal);
    }
    SumCompares(d, x, s, r);
  }

  /** No amplification: in every run of any number of meshed relays, packets
      ever queued to clients do not exceed packets accepted from clients. */
  lemma NoAmplification(cfgs: map<HubId, Config>, moves: seq<Move>)
    requires forall h :: h in cfgs ==> cfgs[h].queueDepth > 0
    ensures Tally(NetAfter(cfgs, moves), Delivered) <= Tally(NetAfter(cfgs, moves), Submitted)
  {
    RunsKeepNet(cfgs, moves);
    var n := NetAfter(cfgs, moves);
    forall h | h in n.hubs ensures InOut(n.hubs[h].journal) {
      HubBalance(n.hubs[h]);
    }
    NetBalance(n);
  }
}

/** The hub as the relay holds it: one object whose methods update its tables in
    place.  Each method is proved to leave the state that the model's plan for
    it performs; what every run of those plans keeps is proved about the model. */
module HubObject {
  import opened Common
  import opened Frames
  import opened Lanes
  import opened Limits
  import opened HubModel
  import opened HubLedger

  lemma PerformAppend(h: Hub, effects: seq<Effect>, e: Effect)
    requires h.cfg.queueDepth > 0
    ensures Perform(h, effects + [e]) == Do(Perform(h, effects), e)
  {
    assert (effects + [e])[..|effects|] == effects;
  }

  lemma PerformShort(h: Hub, effects: seq<Effect>)
    requires h.cfg.queueDepth > 0
    ensures |effects| == 0 ==> Perform(h, effects) == h
    ensures |effects| == 1 ==> Perform(h, effects) == Do(h, effects[0])
    ensures |effects| == 2 ==> Perform(h, effects) == Do(Do(h, effects[0]), effects[1])
  {
    if |effects| == 1 {
      assert effects[..0] == [];
    } else if |effects| == 2 {
      PerformAppend(h, [effects[0]], effects[1]);
      assert effects == [effects[0]] + [effects[1]];
      assert [effects[0]][..0] == [];
    }
  }

  lemma OnFrameDispatches(h: Hub, id: ConnId, frame: Frame, roster: Roster, nowMs: nat,
                          mapping: Option<UsageMapping>, gate: Gate)
    requires Accepts(h, id, frame, nowMs)
    ensures OnFrame(h, id, frame, roster, nowMs, mapping, gate)
         == Dispatch(h.(conns := h.conns[id := Heard(h.conns[id], EncodedLen(frame), nowMs)]),
                     id, frame, roster, nowMs, mapping, gate)
  {
  }

  lemma OnFrameRefuses(h: Hub, id: ConnId, frame: Frame, roster: Roster, nowMs: nat,
                       mapping: Option<UsageMapping>, gate: Gate)
    requires id in h.conns && !Accepts(h, id, frame, nowMs)
    ensures var stats := h.conns[id].stats;
      var p := OnFrame(h, id, frame, roster, nowMs, mapping, gate);
      && p == Plan(WithStats(h, id, stats.(droppedRate := stats.droppedRate + 1)), [], Ok(Some(RateLimitedFrame)))
      && (h.cfg.queueDepth > 0 ==> Perform(p.hub, p.effects) == p.hub)
  {
  }

  /** The members of an ordered set, the least first. */
  ghost predicate Ascends(order: seq<ConnId>, members: set<ConnId>) {
    && (forall i, j :: 0 <= i < j < |order| ==> order[i] < order[j])
    && (forall c :: c in members <==> c in order)
  }

  predicate Below(c: ConnId, members: set<ConnId>) { forall d :: d in members ==> c <= d }

  lemma {:induction false} HasLeast(members: set<ConnId>) returns (least: ConnId)
    requires members != {}
    ensures least in members && Below(least, members)
    decreases |members|
  {
    var c :| c in members;
    var rest := members - {c};
    if rest == {} {
      assert members == {c};
      least := c;
    } else {
      var d := HasLeast(rest);
      least := if c < d then c else d;
      assert members == rest + {c};
    }
  }

  method InOrder(members: set<ConnId>) returns (order: seq<ConnId>)
    ensures Ascends(order, members)
  {
    var left := members;
    order := [];
    while left != {}
      invariant forall c :: c in members <==> c in left || c in order
      invariant forall c, d :: c in order && d in left ==> c < d
      invariant forall i, j :: 0 <= i < j < |order| ==> order[i] < order[j]
      decreases |left|
    {
      ghost var l := HasLeast(left);
      var least :| least in left && Below(least, left);
      assert forall i :: 0 <= i < |order| ==> order[i] in order;
      ghost var before := left;
      left := left - {least};
      forall d | d in left ensures least < d {
        assert Below(least, before) && d in before - {least};
      }
      assert forall c :: c in order + [least] ==> c in order || c == least;
      order := order + [least];
    }
  }

  lemma FoldIsTotal(h: Hub, order: seq<ConnId>)
    requires Lists(order, h.conns.Keys) && InWidth(h.retired)
    ensures forall i :: 0 <= i < |order| ==> order[i] in h.conns
    ensures forall k: Counter :: Read(Fold(h.retired, h.conns, order), k) == Total(h, k)
  {
    assert forall i :: 0 <= i < |order| ==> order[i] in order;
    forall k: Counter ensures Read(Fold(h.retired, h.conns, order), k) == Total(h, k) {
      FoldIsSaturatedSum(h.retired, h.conns, order, k);
    }
  }

  lemma FoldInAnyOrder(acc: Stats, conns: map<ConnId, Conn>, order: seq<ConnId>)
    requires Lists(order, conns.Keys) && InWidth(acc)
    ensures forall i :: 0 <= i < |order| ==> order[i] in conns
    ensures forall other :: Lists(other, conns.Keys) ==> Fold(acc, conns, order) == Fold(acc, conns, other)
  {
    assert forall i :: 0 <= i < |order| ==> order[i] in order;
    forall other | Lists(other, conns.Keys) ensures Fold(acc, conns, order) == Fold(acc, conns, other) {
      TotalsOrderIndependent(acc, conns, order, other);
    }
  }

  class ForwardingHub {
    const cfg: Config
    var conns: map<ConnId, Conn>
    var byNode: map<Id, ConnId>
    var byMesh: map<Id, ConnId>
    var presence: map<Id, Id>
    var aquiferMeters: map<Aquifer, Meter>
    var dirty: set<ConnId>
    var retired: Stats

    /** The configuration refuses a depth of zero, and departed totals stick at
        the top of their width. */
    ghost predicate Valid()
      reads this
    {
      cfg.queueDepth > 0 && InWidth(retired)
    }

    ghost function Model(): Hub
      reads this
    {
      Hub(cfg, conns, byNode, byMesh, presence, aquiferMeters, dirty, retired)
    }

    constructor (cfg: Config)
      requires cfg.queueDepth > 0
      ensures Valid()
      ensures Model() == Hub(cfg, map[], map[], map[], map[], map[], {}, NO_STATS)
    {
      this.cfg := cfg;
      conns, byNode, byMesh, presence, aquiferMeters := map[], map[], map[], map[], map[];
      dirty, retired := {}, NO_STATS;
    }

    /** Drop from the head until one more fits; reports whether none had to go. */
    static method MakeRoom(start: Conn, depth: nat) returns (conn: Conn, clean: bool)
      requires depth > 0
      ensures clean <==> |start.queue| < depth
      ensures conn == start.(queue := Shed(start.queue, depth),
                stats := start.stats.(droppedQueue :=
                  start.stats.droppedQueue + (|start.queue| - |Shed(start.queue, depth)|)))
    {
      conn, clean := start, true;
      var n := |start.queue|;
      while |conn.queue| >= depth
        invariant |conn.queue| <= n && conn.queue == start.queue[n - |conn.queue|..]
        invariant clean <==> |conn.queue| == n
        invariant if n >= depth then |conn.queue| >= depth - 1 else |conn.queue| == n
        invariant conn.stats == start.stats.(droppedQueue := start.stats.droppedQueue + (n - |conn.queue|))
        invariant conn == start.(queue := conn.queue, stats := conn.stats)
      {
        conn := conn.(queue := conn.queue[1..],
                      stats := conn.stats.(droppedQueue := conn.stats.droppedQueue + 1));
        clean := false;
      }
      assert conn.queue == Shed(start.queue, depth);
    }

    /** Queue a frame, dropping the oldest on overflow; reports whether nothing
        was displaced. */
    method Enqueue(to: ConnId, frame: Frame, mapping: Option<UsageMapping>) returns (clean: bool)
      requires Valid()
      modifies this
      ensures Valid()
      ensures Model() == Do(old(Model()), Queue(to, Push(Attributed(old(Model()), to, frame, mapping))))
      ensures clean == HasRoom(old(Model()), to)
    {
      if to !in conns {
        return false;
      }
      var conn;
      conn, clean := MakeRoom(conns[to], cfg.queueDepth);
      var delivery :=
        if frame.RecvPacket? && conn.peer.Client? then Some(DeliveryUsage(mapping, |frame.payload|)) else None;
      conn := conn.(queue := conn.queue + [Outbound(frame, delivery)],
                    stats := conn.stats.(framesOut := conn.stats.framesOut + 1,
                                         bytesOut := conn.stats.bytesOut + EncodedLen(frame)));
      conns := conns[to := conn];
      dirty := dirty + {to};
    }

    /** Queue past whatever is waiting. */
    method EnqueuePriority(to: ConnId, frame: Frame)
      requires Valid()
      modifies this
      ensures Valid()
      ensures Model() == Do(old(Model()), Queue(to, Jump(Bare(frame))))
    {
      if to !in conns {
        return;
      }
      var conn, _ := MakeRoom(conns[to], cfg.queueDepth);
      conn := conn.(queue := [Outbound(frame, None)] + conn.queue,
                    stats := conn.stats.(framesOut := conn.stats.framesOut + 1,
                                         bytesOut := conn.stats.bytesOut + EncodedLen(frame)));
      conns := conns[to := conn];
      dirty := dirty + {to};
    }

    method CountUndeliverable(id: ConnId)
      requires Valid()
      modifies this
      ensures Valid()
      ensures Model() == Do(old(Model()), Undeliverable(id))
    {
      if id in conns {
        var conn := conns[id];
        conns := conns[id := conn.(stats := conn.stats.(undeliverable := conn.stats.undeliverable + 1))];
      }
    }

    /** The same frame to every meshed relay. */
    method Gossip(frame: Frame) returns (peers: seq<ConnId>)
      requires Valid() && !frame.RecvPacket?
      modifies this
      ensures Valid()
      ensures Lists(peers, old(byMesh).Values)
      ensures Model() == Perform(old(Model()), ToEach(peers, Push(Bare(frame))))
    {
      peers := Enumerate(byMesh.Values);
      ghost var h, op := Model(), Push(Bare(frame));
      for i := 0 to |peers|
        invariant Valid()
        invariant Model() == Perform(h, ToEach(peers[..i], op))
      {
        assert ToEach(peers[..i + 1], op) == ToEach(peers[..i], op) + [Queue(peers[i], op)];
        PerformAppend(h, ToEach(peers[..i], op), Queue(peers[i], op));
        var _ := Enqueue(peers[i], frame, None);
      }
      assert peers[..|peers|] == peers;
    }

    /** Tell one connection about every connected node. */
    method Announce(to: ConnId) returns (nodes: seq<Id>)
      requires Valid()
      modifies this
      ensures Valid()
      ensures Lists(nodes, old(byNode).Keys)
      ensures Model() == Perform(old(Model()), Claims(to, nodes))
    {
      nodes := Enumerate(byNode.Keys);
      ghost var h := Model();
      for i := 0 to |nodes|
        invariant Valid()
        invariant Model() == Perform(h, Claims(to, nodes[..i]))
      {
        ghost var e := Queue(to, Push(Bare(PeerPresent(nodes[i]))));
        assert Claims(to, nodes[..i + 1]) == Claims(to, nodes[..i]) + [e];
        PerformAppend(h, Claims(to, nodes[..i]), e);
        var _ := Enqueue(to, PeerPresent(nodes[i]), None);
      }
      assert nodes[..|nodes|] == nodes;
    }

    /** Register a connection; the newest one for an id wins. */
    method Admit(id: ConnId, peer: Admitted, nowMs: nat)
      returns (replaced: Option<ConnId>, peers: seq<ConnId>, nodes: seq<Id>)
      requires Valid()
      modifies this
      ensures Valid()
      ensures var p := HubModel.Admit(old(Model()), id, peer, nowMs, peers, nodes);
        Model() == Perform(p.hub, p.effects)
      ensures peer.Client? && peer.node !in old(byNode) ==> Lists(peers, old(byMesh).Values)
      ensures peer.Mesh? ==> Lists(nodes, old(byNode).Keys)
      ensures replaced == Replaces(old(Model()), id, peer)
    {
      peers, nodes := [], [];
      var previous: Option<ConnId>, budget, announce;
      match peer {
        case Client(node, _) =>
          previous := if node in byNode then Some(byNode[node]) else None;
          byNode := byNode[node := id];
          budget, announce := cfg.clientBudget, previous.None?;
        case Mesh(relay) =>
          previous := if relay in byMesh then Some(byMesh[relay]) else None;
          byMesh := byMesh[relay := id];
          budget, announce := cfg.meshBudget, false;
      }
      conns := conns[id := Conn(peer, [], NewMeter(budget, nowMs), None, NO_STATS, None, 0, None)];
      assert Model() == Register(old(Model()), id, peer, nowMs);
      if announce {
        peers := Gossip(PeerPresent(peer.node));
      }
      if peer.Mesh? {
        nodes := Announce(id);
      }
      replaced := if previous == Some(id) then None else previous;
    }

    /** Forget a connection and whatever it still owned. */
    method Disconnect(id: ConnId) returns (released: Option<Id>, peers: seq<ConnId>)
      requires Valid()
      modifies this
      ensures Valid()
      ensures var p := HubModel.Disconnect(old(Model()), id, peers);
        Model() == Perform(p.hub, p.effects)
      ensures released == Releases(old(Model()), id)
      ensures released.Some? ==> Lists(peers, old(byMesh).Values)
    {
      released, peers := None, [];
      if id !in conns {
        return;
      }
      var conn := conns[id];
      conns := conns - {id};
      retired := Absorb(retired, conn.stats);
      match conn.peer {
        case Client(node, _) =>
          if node in byNode && byNode[node] == id {
            byNode := byNode - {node};
            released := Some(node);
            peers := Gossip(PeerGone(node, Disconnected));
          }
        case Mesh(relay) =>
          if relay in byMesh && byMesh[relay] == id {
            byMesh := byMesh - {relay};
            presence := map n | n in presence && presence[n] != relay :: presence[n];
          }
      }
    }

    method BeginClose(id: ConnId, reason: Option<Reason>)
      requires Valid()
      modifies this
      ensures Valid()
      ensures Model() == Perform(old(Model()), HubModel.BeginClose(id, reason))
    {
      PerformShort(Model(), HubModel.BeginClose(id, reason));
      if id in conns {
        var conn := conns[id];
        if reason.Some? {
          conn := conn.(queue := conn.queue + [Outbound(Close(reason.value), None)]);
        }
        conn := conn.(closeAfterFlush := Some(if reason.Some? then reason.value else Disconnected));
        conns := conns[id := conn];
        dirty := dirty + {id};
      }
    }

    /** Tell every client that the relay is going away, ahead of its queue. */
    method BeginRestart(reconnectInMs: nat, tryForMs: nat) returns (told: nat, clients: seq<ConnId>)
      requires Valid()
      modifies this
      ensures Valid()
      ensures Lists(clients, old(byNode).Values) && told == |clients|
      ensures Model() == Perform(old(Model()), RestartEach(clients, Restarting(reconnectInMs, tryForMs)))
    {
      clients := Enumerate(byNode.Values);
      ghost var h := Model();
      var notice := Restarting(reconnectInMs, tryForMs);
      for i := 0 to |clients|
        invariant Valid()
        invariant Model() == Perform(h, RestartEach(clients[..i], notice))
      {
        ghost var before := RestartEach(clients[..i], notice);
        ghost var jump, mark := Queue(clients[i], Jump(Bare(notice))), Closing(clients[i], Disconnected);
        assert clients[..i + 1][..i] == clients[..i];
        assert RestartEach(clients[..i + 1], notice) == before + [jump] + [mark];
        PerformAppend(h, before, jump);
        PerformAppend(h, before + [jump], mark);
        EnqueuePriority(clients[i], notice);
        PerformShort(Model(), HubModel.BeginClose(clients[i], None));
        BeginClose(clients[i], None);
      }
      assert clients[..|clients|] == clients;
      told := |clients|;
    }

    /** The next frame to write. */
    method TakeOutbound(id: ConnId) returns (out: Option<Outbound>)
      requires Valid()
      modifies this
      ensures Valid()
      ensures Model() == Do(old(Model()), Queue(id, Take))
      ensures out == if id in old(conns) && old(conns)[id].queue != [] then Some(old(conns)[id].queue[0]) else None
    {
      out := None;
      if id in conns {
        var conn := conns[id];
        if conn.queue != [] {
          out := Some(conn.queue[0]);
          conns := conns[id := conn.(queue := conn.queue[1..])];
        } else {
          assert conns[id := conn] == conns;
        }
      }
    }

    /** The connections with something to write since the last call. */
    method TakeDirty() returns (woken: seq<ConnId>)
      requires Valid()
      modifies this
      ensures Valid()
      ensures Ascends(woken, old(dirty)) && Model() == old(Model()).(dirty := {})
    {
      woken := InOrder(dirty);
      dirty := {};
    }

    /** Everything carried since the start, departed connections included. */
    method Totals() returns (out: Stats)
      requires Valid()
      ensures forall k: Counter :: Read(out, k) == Total(Model(), k)
      ensures forall order :: Lists(order, conns.Keys) ==> out == Fold(retired, conns, order)
    {
      var order := Enumerate(conns.Keys);
      out := retired;
      for i := 0 to |order|
        invariant forall j :: 0 <= j < |order| ==> order[j] in conns
        invariant out == Fold(retired, conns, order[..i])
      {
        assert order[i] in order;
        assert order[..i + 1][..i] == order[..i];
        out := Absorb(out, conns[order[i]].stats);
      }
      assert order[..|order|] == order;
      FoldIsTotal(Model(), order);
      FoldInAnyOrder(retired, conns, order);
    }

    /** Charge an aquifer's aggregate meter, creating it on first use. */
    method ChargeAquifer(aquifer: Aquifer, bytes: U64, nowMs: nat) returns (ok: bool)
      requires Valid()
      modifies this
      ensures Valid()
      ensures ok == AquiferAdmits(old(Model()), aquifer, bytes, nowMs)
      ensures Model() == HubModel.ChargeAquifer(old(Model()), aquifer, bytes, nowMs)
    {
      if cfg.aquiferBudget.None? {
        return true;
      }
      if aquifer !in aquiferMeters {
        aquiferMeters := aquiferMeters[aquifer := NewMeter(cfg.aquiferBudget.value, nowMs)];
      }
      var meter;
      meter, ok := Limits.Admit(aquiferMeters[aquifer], bytes, nowMs);
      aquiferMeters := aquiferMeters[aquifer := meter];
    }

    /** Ask the spending-cap gate if there is one to ask, then queue. */
    method DeliverAttributed(from: ConnId, to: ConnId, frame: Frame, mapping: Option<UsageMapping>, gate: Gate)
      returns (dropped: Option<Dropped>)
      requires Valid()
      modifies this
      ensures Valid()
      ensures var p := Deliver(old(Model()), from, to, frame, mapping, gate);
        Model() == Perform(p.hub, p.effects) && p.verdict == Ok(dropped)
    {
      PerformShort(Model(), Deliver(Model(), from, to, frame, mapping, gate).effects);
      if gate.Some? && mapping.Some? && frame.RecvPacket? {
        var targetsClient := to in conns && conns[to].peer.Client?;
        if targetsClient && !gate.value {
          CountUndeliverable(from);
          return Some(SpendingCapLimited);
        }
      }
      var clean := Enqueue(to, frame, mapping);
      if clean {
        return None;
      }
      CountUndeliverable(from);
      return Some(QueueFull);
    }

    /** Answer that a peer cannot be reached, and count the frame. */
    method ReplyGone(from: ConnId, peer: Id, reason: Reason)
      requires Valid()
      modifies this
      ensures Valid()
      ensures Model() == Perform(old(Model()), Refuse(old(Model()), from, peer, reason, Nowhere).effects)
    {
      PerformShort(Model(), Refuse(Model(), from, peer, reason, Nowhere).effects);
      var _ := Enqueue(from, PeerGone(peer, reason), None);
      CountUndeliverable(from);
    }

    /** To a node that is here, or across the mesh, or back to the sender. */
    method Route(from: ConnId, src: Id, dst: Id, payload: seq<Byte>, mapping: Option<UsageMapping>, gate: Gate)
      returns (dropped: Option<Dropped>)
      requires Valid()
      modifies this
      ensures Valid()
      ensures var p := HubModel.Route(old(Model()), from, src, dst, payload, mapping, gate);
        Model() == Perform(p.hub, p.effects) && p.verdict == Ok(dropped)
    {
      if dst in byNode {
        dropped := DeliverAttributed(from, byNode[dst], RecvPacket(src, payload), mapping, gate);
        return;
      }
      if dst in presence && presence[dst] in byMesh {
        dropped := DeliverAttributed(from, byMesh[presence[dst]], Forward(src, dst, payload), None, gate);
        return;
      }
      ReplyGone(from, dst, NotHere);
      return Some(Nowhere);
    }

    method ForwardFromClient(from: ConnId, dst: Id, payload: seq<Byte>, roster: Roster, nowMs: nat,
                             mapping: Option<UsageMapping>, gate: Gate) returns (dropped: Option<Dropped>)
      requires Valid() && |payload| <= U64_MAX
      requires from in conns && conns[from].peer.Client?
      modifies this
      ensures Valid()
      ensures var p := HubModel.ForwardFromClient(old(Model()), from, dst, payload, roster, nowMs, mapping, gate);
        Model() == Perform(p.hub, p.effects) && p.verdict == Ok(dropped)
    {
      PerformShort(Model(), [Undeliverable(from)]);
      var src, aquifer := conns[from].peer.node, conns[from].peer.aquifer;
      if dst == src {
        CountUndeliverable(from);
        return Some(SelfAddressed);
      }
      if !(dst in roster && roster[dst] == aquifer) {
        ReplyGone(from, dst, NotAdmitted);
        return Some(UnknownDestination);
      }
      var admitted := ChargeAquifer(aquifer, |payload|, nowMs);
      if !admitted {
        var conn := conns[from];
        conns := conns[from := conn.(stats := conn.stats.(droppedAquiferRate := conn.stats.droppedAquiferRate + 1))];
        return Some(AquiferRateLimited);
      }
      dropped := Route(from, src, dst, payload, mapping, gate);
    }

    /** A Forward is delivered here or not at all. */
    method DeliverFromMesh(from: ConnId, src: Id, dst: Id, payload: seq<Byte>, roster: Roster, nowMs: nat,
                           mapping: Option<UsageMapping>, gate: Gate) returns (dropped: Option<Dropped>)
      requires Valid() && |payload| <= U64_MAX
      modifies this
      ensures Valid()
      ensures var p := HubModel.DeliverFromMesh(old(Model()), from, src, dst, payload, roster, nowMs, mapping, gate);
        Model() == Perform(p.hub, p.effects) && p.verdict == Ok(dropped)
    {
      ghost var p := HubModel.DeliverFromMesh(Model(), from, src, dst, payload, roster, nowMs, mapping, gate);
      PerformShort(p.hub, p.effects);
      if dst !in byNode {
        ReplyGone(from, dst, Disconnected);
        return Some(Nowhere);
      }
      var to := byNode[dst];
      if !(src in roster && dst in roster && roster[src] == roster[dst]) {
        CountUndeliverable(from);
        return Some(UnknownDestination);
      }
      var admitted := ChargeAquifer(roster[dst], |payload|, nowMs);
      if !admitted {
        CountUndeliverable(from);
        return Some(AquiferRateLimited);
      }
      dropped := DeliverAttributed(from, to, RecvPacket(src, payload), mapping, gate);
    }

    /** A reply resolves the outstanding probe only if it carries its token. */
    method ResolvePing(id: ConnId, token: Token, nowMs: nat)
      requires Valid() && id in conns
      modifies this
      ensures Valid()
      ensures Model() == old(Model()).(conns := old(conns)[id := HubModel.ResolvePing(old(conns)[id], token, nowMs)])
    {
      var conn := conns[id];
      if conn.pendingPing.Some? && conn.pendingPing.value.token == token {
        var sent := conn.pendingPing.value.sentMs;
        var rtt := if nowMs > sent then nowMs - sent else 0;
        conn := conn.(pendingPing := None, lastRttMs := Some(Min(rtt, 0xFFFF_FFFF)));
      }
      conns := conns[id := conn];
    }

    /** Only the relay that claimed a node may retract it. */
    method Learn(relay: Id, frame: Frame)
      requires Valid() && (frame.PeerPresent? || frame.PeerGone?)
      modifies this
      ensures Valid()
      ensures Model() == old(Model()).(presence := Presence(old(Model()), relay, frame))
    {
      match frame {
        case PeerPresent(node) => presence := presence[node := relay];
        case PeerGone(node, _) =>
          if node in presence && presence[node] == relay {
            presence := presence - {node};
          }
        case _ =>
      }
    }

    /** Handle a frame that the connection's meter let through. */
    method Dispatch(id: ConnId, frame: Frame, roster: Roster, nowMs: nat,
                    mapping: Option<UsageMapping>, gate: Gate) returns (verdict: Verdict)
      requires Valid() && id in conns && EncodedLen(frame) <= U64_MAX
      modifies this
      ensures Valid()
      ensures var p := HubModel.Dispatch(old(Model()), id, frame, roster, nowMs, mapping, gate);
        Model() == Perform(p.hub, p.effects) && p.verdict == verdict
    {
      verdict := Ok(None);
      var isMesh := conns[id].peer.Mesh?;
      match frame {
        case Ping(token) =>
          PerformShort(Model(), [Queue(id, Jump(Bare(Pong(token))))]);
          EnqueuePriority(id, Pong(token));
        case Pong(token) =>
          ResolvePing(id, token, nowMs);
        case Close(_) => BeginClose(id, None);
        case SendPacket(dst, payload) =>
          if isMesh {
            return Err(IllegalForRole);
          }
          var dropped := ForwardFromClient(id, dst, payload, roster, nowMs, mapping, gate);
          verdict := Ok(dropped);
        case Forward(src, dst, payload) =>
          if !isMesh {
            return Err(IllegalForRole);
          }
          var dropped := DeliverFromMesh(id, src, dst, payload, roster, nowMs, mapping, gate);
          verdict := Ok(dropped);
        case PeerPresent(node) =>
          if !isMesh {
            return Err(IllegalForRole);
          }
          Learn(conns[id].peer.relay, frame);
        case PeerGone(node, _) =>
          if !isMesh {
            return Err(IllegalForRole);
          }
          Learn(conns[id].peer.relay, frame);
        case _ => verdict := Err(IllegalForRole);
      }
    }

    /** Charge the connection's meter, and count the frame or its refusal. */
    method Hear(id: ConnId, len: nat, nowMs: nat) returns (ok: bool)
      requires Valid() && id in conns && len <= U64_MAX
      modifies this`conns
      ensures Valid()
      ensures ok == CanPay(old(conns)[id].meter, len, nowMs)
      ensures var conn := old(conns)[id];
        conns == old(conns)[id := if ok then Heard(conn, len, nowMs)
                                  else conn.(stats := conn.stats.(droppedRate := conn.stats.droppedRate + 1))]
    {
      var conn := conns[id];
      var meter;
      meter, ok := Limits.Admit(conn.meter, len, nowMs);
      if ok {
        conn := conn.(meter := meter,
                      stats := conn.stats.(framesIn := conn.stats.framesIn + 1, bytesIn := conn.stats.bytesIn + len));
      } else {
        conn := conn.(stats := conn.stats.(droppedRate := conn.stats.droppedRate + 1));
      }
      conns := conns[id := conn];
    }

    /** Charge the connection's meter, then handle the frame. */
    method OnFrame(id: ConnId, frame: Frame, roster: Roster, nowMs: nat,
                   mapping: Option<UsageMapping>, gate: Gate) returns (verdict: Verdict)
      requires Valid() && EncodedLen(frame) <= U64_MAX
      modifies this
      ensures Valid()
      ensures var p := HubModel.OnFrame(old(Model()), id, frame, roster, nowMs, mapping, gate);
        Model() == Perform(p.hub, p.effects) && p.verdict == verdict
    {
      if id !in conns {
        return Err(UnknownConn);
      }
      ghost var h := Model();
      var ok := Hear(id, EncodedLen(frame), nowMs);
      if !ok {
        OnFrameRefuses(h, id, frame, roster, nowMs, mapping, gate);
        return Ok(Some(RateLimitedFrame));
      }
      OnFrameDispatches(h, id, frame, roster, nowMs, mapping, gate);
      verdict := Dispatch(id, frame, roster, nowMs, mapping, gate);
    }

    /** Send a latency probe to a client that has none outstanding. */
    method ProbeRtt(id: ConnId, nowMs: nat) returns (sent: bool)
      requires Valid()
      modifies this
      ensures Valid()
      ensures var p := HubModel.ProbeRtt(old(Model()), id, nowMs);
        Model() == Perform(p.hub, p.effects) && (sent <==> p.effects != [])
    {
      ghost var p := HubModel.ProbeRtt(Model(), id, nowMs);
      PerformShort(p.hub, p.effects);
      if id !in conns {
        return false;
      }
      var conn := conns[id];
      if conn.peer.Mesh? || conn.pendingPing.Some? {
        return false;
      }
      var token := (conn.pingSeq + 1) % (U64_MAX + 1);
      conns := conns[id := conn.(pingSeq := token, pendingPing := Some(Probe(token, nowMs)))];
      EnqueuePriority(id, Ping(token));
      return true;
    }
  }
}

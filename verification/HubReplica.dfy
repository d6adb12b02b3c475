/** Presence on the receiving side: when what a relay believes about its peers'
    nodes is so. */
module HubReplica {
  import opened Common
  import opened Frames
  import opened Lanes
  import opened HubModel
  import opened HubRuns
  import opened HubInvariants
  import opened HubPresence

  // ---- What a run heard ----

  /** The relay that a frame let through comes from. */
  function Learned(h: Hub, e: Event): Option<Id> {
    if e.Hears? && Accepts(h, e.id, e.frame, e.nowMs) && h.conns[e.id].peer.Mesh?
    then Some(h.conns[e.id].peer.relay) else None
  }

  /** The relay whose connection goes away. */
  function Severed(h: Hub, e: Event): Option<Id> {
    if e.Leaves? && e.id in h.conns && h.conns[e.id].peer.Mesh? then
      var relay := h.conns[e.id].peer.relay;
      if relay in h.byMesh && h.byMesh[relay] == e.id then Some(relay) else None
    else None
  }

  function HearMore(h: Hub, e: Event, r: Id, heard: seq<Frame>): seq<Frame> {
    if Severed(h, e) == Some(r) then []
    else if Learned(h, e) == Some(r) then heard + [e.frame]
    else heard
  }

  function ClaimMore(h: Hub, e: Event, n: Id, claimant: Option<Id>): Option<Id> {
    if Learned(h, e).Some? && e.frame == PeerPresent(n) then Learned(h, e) else claimant
  }

  /** The frames heard from a relay, by whatever connection, since its link was
      last severed. */
  function HeardFrom(cfg: Config, events: seq<Event>, r: Id): seq<Frame>
    requires cfg.queueDepth > 0
  {
    if events == [] then []
    else
      var front, last := events[..|events| - 1], events[|events| - 1];
      HearMore(After(cfg, front).hub, last, r, HeardFrom(cfg, front, r))
  }

  /** The relay that was last heard to claim a node. */
  function Claimant(cfg: Config, events: seq<Event>, n: Id): Option<Id>
    requires cfg.queueDepth > 0
  {
    if events == [] then None
    else
      var front, last := events[..|events| - 1], events[|events| - 1];
      ClaimMore(After(cfg, front).hub, last, n, Claimant(cfg, front, n))
  }

  /** The nodes that a sequence of frames leaves claimed. */
  function Claimed(frames: seq<Frame>): set<Id> {
    if frames == [] then {} else Believe(Claimed(frames[..|frames| - 1]), frames[|frames| - 1])
  }

  // ---- The table is what was heard ----

  predicate At(presence: map<Id, Id>, n: Id, r: Id) { n in presence && presence[n] == r }

  lemma DispatchPresence(h: Hub, id: ConnId, frame: Frame, roster: Roster, nowMs: nat,
                         mapping: Option<UsageMapping>, gate: Gate)
    requires id in h.conns
    ensures Dispatch(h, id, frame, roster, nowMs, mapping, gate).hub.presence
         == if h.conns[id].peer.Mesh? then Presence(h, h.conns[id].peer.relay, frame) else h.presence
  {
  }

  lemma OnFrameIs(h: Hub, id: ConnId, frame: Frame, roster: Roster, nowMs: nat,
                  mapping: Option<UsageMapping>, gate: Gate)
    ensures Accepts(h, id, frame, nowMs) ==>
      OnFrame(h, id, frame, roster, nowMs, mapping, gate)
      == Dispatch(h.(conns := h.conns[id := Heard(h.conns[id], EncodedLen(frame), nowMs)]),
                  id, frame, roster, nowMs, mapping, gate)
    ensures !Accepts(h, id, frame, nowMs) ==>
      OnFrame(h, id, frame, roster, nowMs, mapping, gate).hub.presence == h.presence
  {
  }

  lemma HearingPresence(h: Hub, e: Event)
    requires e.Hears?
    ensures OnFrame(h, e.id, e.frame, e.roster, e.nowMs, e.mapping, e.gate).hub.presence
         == if Learned(h, e).Some? then Presence(h, Learned(h, e).value, e.frame) else h.presence
  {
    OnFrameIs(h, e.id, e.frame, e.roster, e.nowMs, e.mapping, e.gate);
    if Accepts(h, e.id, e.frame, e.nowMs) {
      var g := h.(conns := h.conns[e.id := Heard(h.conns[e.id], EncodedLen(e.frame), e.nowMs)]);
      DispatchPresence(g, e.id, e.frame, e.roster, e.nowMs, e.mapping, e.gate);
    }
  }

  lemma SeveredPresence(h: Hub, id: ConnId, n: Id, r: Id)
    requires id in h.conns
    ensures At(Deregister(h, id).presence, n, r) <==> At(h.presence, n, r) && Severed(h, Leaves(id, [])) != Some(r)
  {
  }

  lemma LearnedPresence(h: Hub, relay: Id, frame: Frame, n: Id, r: Id)
    ensures At(Presence(h, relay, frame), n, r) <==>
      if frame == PeerPresent(n) then r == relay
      else At(h.presence, n, r) && !(frame.PeerGone? && frame.peer == n && relay == r)
  {
  }

  /** Whether an event leaves the entry there. */
  predicate LeavesAt(h: Hub, e: Event, n: Id, r: Id) {
    if Learned(h, e).Some? then
      if e.frame == PeerPresent(n) then Learned(h, e) == Some(r)
      else At(h.presence, n, r) && !(e.frame.PeerGone? && e.frame.peer == n && Learned(h, e) == Some(r))
    else At(h.presence, n, r) && Severed(h, e) != Some(r)
  }

  lemma PlanPresence(h: Hub, e: Event, n: Id, r: Id)
    ensures At(PlanOf(h, e).hub.presence, n, r) <==> LeavesAt(h, e, n, r)
  {
    if e.Hears? {
      HearingPresence(h, e);
      if Learned(h, e).Some? {
        LearnedPresence(h, Learned(h, e).value, e.frame, n, r);
      }
    } else if e.Leaves? && e.id in h.conns {
      SeveredPresence(h, e.id, n, r);
    }
  }

  lemma StepPresence(t: Traced, e: Event, n: Id, r: Id)
    requires t.hub.cfg.queueDepth > 0
    ensures At(Step(t, e).hub.presence, n, r) <==> LeavesAt(t.hub, e, n, r)
  {
    PlanPresence(t.hub, e, n, r);
    PerformKeepsRegistry(Begin(t, e).hub, PlanOf(t.hub, e).effects);
  }

  lemma ClaimedGrows(frames: seq<Frame>, frame: Frame)
    ensures Claimed(frames + [frame]) == Believe(Claimed(frames), frame)
  {
    assert (frames + [frame])[..|frames|] == frames;
  }

  lemma HeardStep(h: Hub, e: Event, n: Id, r: Id, heard: seq<Frame>, claimant: Option<Id>)
    requires At(h.presence, n, r) <==> claimant == Some(r) && n in Claimed(heard)
    ensures LeavesAt(h, e, n, r) <==> ClaimMore(h, e, n, claimant) == Some(r) && n in Claimed(HearMore(h, e, r, heard))
  {
    if Learned(h, e) == Some(r) {
      ClaimedGrows(heard, e.frame);
    }
  }

  /** In every run a node is believed to be at a relay exactly if that relay was
      the last heard to claim it, and has not been heard to retract it nor lost
      its link since. */
  lemma {:induction false} PresenceIsHeard(cfg: Config, events: seq<Event>, n: Id, r: Id)
    requires cfg.queueDepth > 0
    ensures At(After(cfg, events).hub.presence, n, r) <==>
      Claimant(cfg, events, n) == Some(r) && n in Claimed(HeardFrom(cfg, events, r))
  {
    if events == [] {
      assert HeardFrom(cfg, events, r) == [];
    } else {
      var front, last := events[..|events| - 1], events[|events| - 1];
      PresenceIsHeard(cfg, front, n, r);
      StepPresence(After(cfg, front), last, n, r);
      HeardStep(After(cfg, front).hub, last, n, r, HeardFrom(cfg, front, r), Claimant(cfg, front, n));
    }
  }

  // ---- Two ends of a link ----

  function FramesOf(outs: seq<Outbound>): seq<Frame> {
    seq(|outs|, i requires 0 <= i < |outs| => outs[i].frame)
  }

  lemma {:induction false} ClaimedIsView(outs: seq<Outbound>)
    ensures Claimed(FramesOf(outs)) == View(outs)
  {
    if outs == [] {
    } else {
      var n := |outs| - 1;
      ClaimedIsView(outs[..n]);
      assert FramesOf(outs)[..n] == FramesOf(outs[..n]);
    }
  }

  /** At the sending end, after a run: the link to `peer` is up and empty, lost
      nothing to its bound, and gave these frames. */
  predicate Drained(cfg: Config, events: seq<Event>, peer: Id, frames: seq<Frame>)
    requires cfg.queueDepth > 0
  {
    var t := After(cfg, events);
    && peer in t.hub.byMesh && t.hub.byMesh[peer] in t.hub.conns
    && var c := t.hub.byMesh[peer];
       && t.hub.conns[c].queue == [] && t.hub.conns[c].stats.droppedQueue == 0
       && FramesOf(Taken(cfg.queueDepth, OpsFor(t.journal, c))) == frames
  }

  lemma DrainedTells(cfg: Config, events: seq<Event>, peer: Id, frames: seq<Frame>)
    requires cfg.queueDepth > 0 && Feasible(cfg, events) && Drained(cfg, events, peer, frames)
    ensures Claimed(frames) == After(cfg, events).hub.byNode.Keys
  {
    var t := After(cfg, events);
    var taken := Taken(cfg.queueDepth, OpsFor(t.journal, t.hub.byMesh[peer]));
    PresenceReplication(cfg, events, peer);
    ClaimedIsView(taken);
    assert taken + [] == taken;
  }

  /** A receiver `here` and one of its peers `r`, with the link between them
      drained: all that `r` gave was heard, in order, and nothing else since the
      link was last severed.  Then `r` is where a node is believed to be if and
      only if it is there and `r` was the last heard to claim it. */
  lemma PresenceIsSo(cfg: Config, events: seq<Event>, r: Id, there: Config, sent: seq<Event>, here: Id, n: Id)
    requires cfg.queueDepth > 0 && there.queueDepth > 0 && Feasible(there, sent)
    requires Drained(there, sent, here, HeardFrom(cfg, events, r))
    ensures At(After(cfg, events).hub.presence, n, r) <==>
      n in After(there, sent).hub.byNode && Claimant(cfg, events, n) == Some(r)
  {
    DrainedTells(there, sent, here, HeardFrom(cfg, events, r));
    PresenceIsHeard(cfg, events, n, r);
  }

  /** So with every link drained an entry is never wrong, but it can be missing:
      a node at one peer is not found at all if another, where it is not, was
      the last heard to claim it. */
  lemma LateClaimHides(cfg: Config, events: seq<Event>, r: Id, there: Config, sent: seq<Event>, here: Id, n: Id)
    requires cfg.queueDepth > 0 && there.queueDepth > 0 && Feasible(there, sent)
    requires Drained(there, sent, here, HeardFrom(cfg, events, r))
    requires Claimant(cfg, events, n) == Some(r) && n !in After(there, sent).hub.byNode
    ensures n !in After(cfg, events).hub.presence
  {
    var presence := After(cfg, events).hub.presence;
    if n in presence {
      PresenceIsHeard(cfg, events, n, presence[n]);
      PresenceIsSo(cfg, events, r, there, sent, here, n);
    }
  }
}

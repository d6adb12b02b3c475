/** The hub as the server drives it: connections get ids from a counter, and
    every call under the lock is one event of a run.  What is proved of every
    run therefore holds of the object after any sequence of calls. */
module HubServer {
  import opened Common
  import opened Frames
  import opened HubModel
  import opened HubRuns
  import opened HubInvariants
  import opened HubLedger
  import opened HubObject

  // ---- Runs and the object ----

  /** The events so far lead to this state, and no id at or past `next` has
      been given out. */
  ghost predicate Traces(cfg: Config, events: seq<Event>, next: ConnId, h: Hub) {
    && cfg.queueDepth > 0 && Feasible(cfg, events)
    && After(cfg, events).hub == h
    && forall id :: id in EverJoined(After(cfg, events).journal) ==> id < next
  }

  /** What an event does to the hub. */
  function Outcome(h: Hub, e: Event): Hub
    requires h.cfg.queueDepth > 0
  {
    Step(Traced(h, []), e).hub
  }

  lemma StepJoins(t: Traced, e: Event)
    requires Core(t) && Possible(t, e)
    ensures EverJoined(Step(t, e).journal) == EverJoined(t.journal) + if e.Joins? then {e.id} else {}
  {
    BeginKeepsCore(t, e);
    ActAllKeepsIds(Begin(t, e), PlanOf(t.hub, e).effects);
    if e.Joins? {
      JoinAddsNoOps(t.journal, e.id, e.peer, e.id);
    } else if e.Leaves? {
      assert t.journal + [] == t.journal;
    } else {
      SettledNotesAreQuiet(t.hub, e);
      QuietAppend(t.journal, Notes(t.hub, e), 0);
    }
  }

  lemma Extends(cfg: Config, events: seq<Event>, next: ConnId, h: Hub, e: Event)
    requires Traces(cfg, events, next, h) && Possible(After(cfg, events), e)
    ensures Traces(cfg, events + [e], if e.Joins? then Max(next, e.id + 1) else next, Outcome(h, e))
  {
    var t := After(cfg, events);
    AfterOneMore(cfg, events, e);
    RunsKeepCore(cfg, events);
    StepJoins(t, e);
    assert (events + [e])[..|events|] == events;
  }

  lemma {:induction false} HasOrder<T(!new)>(members: set<T>) returns (order: seq<T>)
    ensures Lists(order, members)
    decreases |members|
  {
    if members == {} {
      order := [];
    } else {
      var x :| x in members;
      var rest := HasOrder(members - {x});
      order := rest + [x];
    }
  }

  class Server {
    const hub: ForwardingHub
    var nextConn: ConnId
    ghost var events: seq<Event>

    ghost predicate Valid()
      reads this, hub
    {
      hub.Valid() && Traces(hub.cfg, events, nextConn, hub.Model())
    }

    constructor (cfg: Config)
      requires cfg.queueDepth > 0
      ensures Valid() && fresh(hub) && hub.cfg == cfg && events == []
    {
      hub := new ForwardingHub(cfg);
      nextConn, events := 1, [];
    }

    /** A connection is authenticated: it gets the next id, and the caller
        learns which one it replaces. */
    method Join(peer: Admitted, nowMs: nat) returns (id: ConnId, replaced: Option<ConnId>)
      requires Valid()
      modifies this, hub
      ensures Valid()
      ensures |events| == |old(events)| + 1 && events[..|old(events)|] == old(events)
      ensures var e := events[|old(events)|];
        e.Joins? && e.id == id == old(nextConn) && e.peer == peer && e.nowMs == nowMs
      ensures replaced == Replaces(old(hub.Model()), id, peer)
    {
      ghost var h := hub.Model();
      id := nextConn;
      nextConn := nextConn + 1;
      var peers, nodes;
      replaced, peers, nodes := hub.Admit(id, peer, nowMs);
      ghost var allPeers, allNodes := peers, nodes;
      if !(peer.Client? && peer.node !in h.byNode) {
        allPeers := HasOrder(h.byMesh.Values);
      }
      if !peer.Mesh? {
        allNodes := HasOrder(h.byNode.Keys);
      }
      ghost var e := Joins(id, peer, nowMs, allPeers, allNodes);
      assert HubModel.Admit(h, id, peer, nowMs, peers, nodes) == PlanOf(h, e);
      Extends(hub.cfg, events, id, h, e);
      events := events + [e];
    }

    method Leave(id: ConnId) returns (released: Option<Id>)
      requires Valid()
      modifies this, hub
      ensures Valid()
      ensures |events| == |old(events)| + 1 && events[..|old(events)|] == old(events)
      ensures events[|old(events)|].Leaves? && events[|old(events)|].id == id
      ensures released == Releases(old(hub.Model()), id)
    {
      ghost var h := hub.Model();
      var peers;
      released, peers := hub.Disconnect(id);
      ghost var allPeers := peers;
      if released.None? {
        allPeers := HasOrder(h.byMesh.Values);
      }
      ghost var e := Leaves(id, allPeers);
      assert HubModel.Disconnect(h, id, peers) == PlanOf(h, e);
      Extends(hub.cfg, events, nextConn, h, e);
      events := events + [e];
    }

    method Hear(id: ConnId, frame: Frame, roster: Roster, nowMs: nat, mapping: Option<UsageMapping>, gate: Gate)
      returns (verdict: Verdict)
      requires Valid() && EncodedLen(frame) <= U64_MAX
      modifies this, hub
      ensures Valid()
      ensures events == old(events) + [Hears(id, frame, roster, nowMs, mapping, gate)]
      ensures verdict == OnFrame(old(hub.Model()), id, frame, roster, nowMs, mapping, gate).verdict
    {
      ghost var h, e := hub.Model(), Hears(id, frame, roster, nowMs, mapping, gate);
      verdict := hub.OnFrame(id, frame, roster, nowMs, mapping, gate);
      Extends(hub.cfg, events, nextConn, h, e);
      events := events + [e];
    }

    method Close(id: ConnId, why: Option<Reason>)
      requires Valid()
      modifies this, hub
      ensures Valid()
      ensures events == old(events) + [Closes(id, why)]
    {
      ghost var h := hub.Model();
      hub.BeginClose(id, why);
      Extends(hub.cfg, events, nextConn, h, Closes(id, why));
      events := events + [Closes(id, why)];
    }

    method Restart(reconnectInMs: nat, tryForMs: nat) returns (told: nat)
      requires Valid()
      modifies this, hub
      ensures Valid()
      ensures |events| == |old(events)| + 1 && events[..|old(events)|] == old(events)
      ensures var e := events[|old(events)|];
        e.Restarts? && e.reconnectInMs == reconnectInMs && e.tryForMs == tryForMs && told == |e.clients|
    {
      ghost var h := hub.Model();
      var clients;
      told, clients := hub.BeginRestart(reconnectInMs, tryForMs);
      Extends(hub.cfg, events, nextConn, h, Restarts(clients, reconnectInMs, tryForMs));
      events := events + [Restarts(clients, reconnectInMs, tryForMs)];
    }

    method Take(id: ConnId) returns (out: Option<Outbound>)
      requires Valid()
      modifies this, hub
      ensures Valid()
      ensures events == old(events) + [Takes(id)]
      ensures out == if id in old(hub.conns) && old(hub.conns)[id].queue != []
                     then Some(old(hub.conns)[id].queue[0]) else None
    {
      ghost var h := hub.Model();
      out := hub.TakeOutbound(id);
      PerformShort(h, [Queue(id, Lanes.Take)]);
      Extends(hub.cfg, events, nextConn, h, Takes(id));
      events := events + [Takes(id)];
    }

    method Probe(id: ConnId, nowMs: nat) returns (sent: bool)
      requires Valid()
      modifies this, hub
      ensures Valid()
      ensures events == old(events) + [Probes(id, nowMs)]
      ensures sent <==>
        id in old(hub.conns) && old(hub.conns)[id].peer.Client? && old(hub.conns)[id].pendingPing.None?
    {
      ghost var h := hub.Model();
      sent := hub.ProbeRtt(id, nowMs);
      Extends(hub.cfg, events, nextConn, h, Probes(id, nowMs));
      events := events + [Probes(id, nowMs)];
    }

    method Collect() returns (woken: seq<ConnId>)
      requires Valid()
      modifies this, hub
      ensures Valid()
      ensures events == old(events) + [Collects] && Ascends(woken, old(hub.dirty))
    {
      ghost var h := hub.Model();
      woken := hub.TakeDirty();
      PerformShort(hub.Model(), []);
      Extends(hub.cfg, events, nextConn, h, Collects);
      events := events + [Collects];
    }
  }

  // ---- What that gives, for instance ----

  /** The table on the heap names, for every node, the last connection admitted
      for it, as long as that one is registered. */
  lemma ServerOwnsNewest(s: Server, n: Id, c: ConnId)
    requires s.Valid()
    ensures (n in s.hub.byNode && s.hub.byNode[n] == c) <==>
      (LastFor(After(s.hub.cfg, s.events).journal, NodeOf(n)) == Some(c) && c in s.hub.conns)
  {
    NewestWins(s.hub.cfg, s.events, n, c);
  }
}

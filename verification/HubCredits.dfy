/** The hub and the spending cap together: the gate's answer is a reservation,
    and what the hub queues under a mapping was admitted for it. */
module HubCredits {
  import opened Common
  import opened Frames
  import opened HubModel
  import opened HubRuns
  import opened HubInvariants
  import opened Credits
  import opened CreditSafety
  import C = CreditRuns

  // ---- What a frame asks the gate ----

  datatype Question = Question(mapping: UsageMapping, bytes: nat)

  /** Only a packet for a client, with a mapping to charge, is asked about. */
  function AskFor(h: Hub, to: ConnId, mapping: Option<UsageMapping>, bytes: nat): Option<Question> {
    if mapping.Some? && to in h.conns && h.conns[to].peer.Client? then Some(Question(mapping.value, bytes)) else None
  }

  function AskedBy(h: Hub, peer: Admitted, frame: Frame, roster: Roster, nowMs: nat,
                   mapping: Option<UsageMapping>): Option<Question>
  {
    match (frame, peer)
    case (SendPacket(dst, payload), Client(src, aquifer)) =>
      if dst != src && dst in roster && roster[dst] == aquifer && AquiferAdmits(h, aquifer, |payload|, nowMs)
         && dst in h.byNode
      then AskFor(h, h.byNode[dst], mapping, |payload|) else None
    case (Forward(src, dst, payload), Mesh(_)) =>
      if dst in h.byNode && src in roster && dst in roster && roster[src] == roster[dst]
         && AquiferAdmits(h, roster[dst], |payload|, nowMs)
      then AskFor(h, h.byNode[dst], mapping, |payload|) else None
    case _ => None
  }

  function Asked(h: Hub, e: Event): Option<Question> {
    if e.Hears? && Accepts(h, e.id, e.frame, e.nowMs)
    then AskedBy(h, h.conns[e.id].peer, e.frame, e.roster, e.nowMs, e.mapping) else None
  }

  // ---- Bytes queued under a mapping ----

  /** Bytes of a queued frame that are attributed to a mapping. */
  function Charged(op: QueueOp, k: MappingKey): nat {
    if op.Take? then 0
    else
      match op.item.delivery
      case Some(DeliveryUsage(Some(m), bytes)) => if KeyOf(m) == k then bytes else 0
      case _ => 0
  }

  /** What effects queue, given the connections that are there. */
  function EffectCharges(effects: seq<Effect>, here: set<ConnId>, k: MappingKey): nat {
    if effects == [] then 0
    else
      var last := effects[|effects| - 1];
      EffectCharges(effects[..|effects| - 1], here, k)
      + if last.Queue? && last.to in here then Charged(last.op, k) else 0
  }

  function Queued(journal: seq<Entry>, k: MappingKey): nat {
    if journal == [] then 0
    else
      var last := journal[|journal| - 1];
      Queued(journal[..|journal| - 1], k) + if last.Did? then Charged(last.op, k) else 0
  }

  lemma {:induction false} NothingCharged(effects: seq<Effect>, here: set<ConnId>, k: MappingKey)
    requires forall i :: 0 <= i < |effects| && effects[i].Queue? ==> Charged(effects[i].op, k) == 0
    ensures EffectCharges(effects, here, k) == 0
  {
    if effects == [] {
    } else {
      NothingCharged(effects[..|effects| - 1], here, k);
    }
  }

  /** What is queued for a question, given the gate's answer. */
  function Allowed(q: Option<Question>, gate: Gate, k: MappingKey): nat {
    if q.Some? && gate != Some(false) && KeyOf(q.value.mapping) == k then q.value.bytes else 0
  }

  lemma ShortCharges(effects: seq<Effect>, here: set<ConnId>, k: MappingKey)
    requires |effects| == 1 || (|effects| == 2 && !effects[1].Queue?)
    ensures EffectCharges(effects, here, k)
         == if effects[0].Queue? && effects[0].to in here then Charged(effects[0].op, k) else 0
  {
    var first := effects[..1];
    assert first[..0] == [] && first[0] == effects[0];
    assert |effects| == 1 ==> effects == first;
  }

  lemma DeliverCharges(h: Hub, from: ConnId, to: ConnId, src: Id, payload: seq<Byte>,
                       mapping: Option<UsageMapping>, gate: Gate, k: MappingKey)
    ensures EffectCharges(Deliver(h, from, to, RecvPacket(src, payload), mapping, gate).effects, h.conns.Keys, k)
         == Allowed(AskFor(h, to, mapping, |payload|), gate, k)
  {
    ShortCharges(Deliver(h, from, to, RecvPacket(src, payload), mapping, gate).effects, h.conns.Keys, k);
  }

  lemma RouteCharges(h: Hub, from: ConnId, src: Id, dst: Id, payload: seq<Byte>,
                     mapping: Option<UsageMapping>, gate: Gate, k: MappingKey)
    ensures EffectCharges(Route(h, from, src, dst, payload, mapping, gate).effects, h.conns.Keys, k)
         == if dst in h.byNode then Allowed(AskFor(h, h.byNode[dst], mapping, |payload|), gate, k) else 0
  {
    if dst in h.byNode {
      DeliverCharges(h, from, h.byNode[dst], src, payload, mapping, gate, k);
    } else {
      NothingCharged(Route(h, from, src, dst, payload, mapping, gate).effects, h.conns.Keys, k);
    }
  }

  lemma ForwardCharges(h: Hub, from: ConnId, dst: Id, payload: seq<Byte>, roster: Roster, nowMs: nat,
                       mapping: Option<UsageMapping>, gate: Gate, k: MappingKey)
    requires from in h.conns && h.conns[from].peer.Client?
    ensures var p := ForwardFromClient(h, from, dst, payload, roster, nowMs, mapping, gate);
      EffectCharges(p.effects, h.conns.Keys, k)
         == Allowed(AskedBy(h, h.conns[from].peer, SendPacket(dst, payload), roster, nowMs, mapping), gate, k)
  {
    var Client(src, aquifer) := h.conns[from].peer;
    var p := ForwardFromClient(h, from, dst, payload, roster, nowMs, mapping, gate);
    if dst != src && dst in roster && roster[dst] == aquifer && AquiferAdmits(h, aquifer, |payload|, nowMs) {
      RouteCharges(ChargeAquifer(h, aquifer, |payload|, nowMs), from, src, dst, payload, mapping, gate, k);
    } else {
      NothingCharged(p.effects, h.conns.Keys, k);
    }
  }

  lemma MeshCharges(h: Hub, from: ConnId, src: Id, dst: Id, payload: seq<Byte>, roster: Roster, nowMs: nat,
                    mapping: Option<UsageMapping>, gate: Gate, k: MappingKey, relay: Id)
    ensures var p := DeliverFromMesh(h, from, src, dst, payload, roster, nowMs, mapping, gate);
      EffectCharges(p.effects, h.conns.Keys, k)
         == Allowed(AskedBy(h, Mesh(relay), Forward(src, dst, payload), roster, nowMs, mapping), gate, k)
  {
    var p := DeliverFromMesh(h, from, src, dst, payload, roster, nowMs, mapping, gate);
    if dst in h.byNode && src in roster && dst in roster && roster[src] == roster[dst]
       && AquiferAdmits(h, roster[dst], |payload|, nowMs) {
      DeliverCharges(ChargeAquifer(h, roster[dst], |payload|, nowMs), from, h.byNode[dst],
                     src, payload, mapping, gate, k);
    } else {
      NothingCharged(p.effects, h.conns.Keys, k);
    }
  }

  lemma DispatchCharges(h: Hub, id: ConnId, frame: Frame, roster: Roster, nowMs: nat,
                        mapping: Option<UsageMapping>, gate: Gate, k: MappingKey)
    requires id in h.conns
    ensures EffectCharges(Dispatch(h, id, frame, roster, nowMs, mapping, gate).effects, h.conns.Keys, k)
         == Allowed(AskedBy(h, h.conns[id].peer, frame, roster, nowMs, mapping), gate, k)
  {
    if frame.SendPacket? && h.conns[id].peer.Client? {
      ForwardCharges(h, id, frame.dst, frame.payload, roster, nowMs, mapping, gate, k);
    } else if frame.Forward? && h.conns[id].peer.Mesh? {
      MeshCharges(h, id, frame.src, frame.dst, frame.payload, roster, nowMs, mapping, gate, k, h.conns[id].peer.relay);
    } else {
      NothingCharged(Dispatch(h, id, frame, roster, nowMs, mapping, gate).effects, h.conns.Keys, k);
    }
  }

  lemma HearingAsks(h: Hub, e: Event)
    requires e.Hears? && Accepts(h, e.id, e.frame, e.nowMs)
    ensures var c := Heard(h.conns[e.id], EncodedLen(e.frame), e.nowMs);
      AskedBy(h.(conns := h.conns[e.id := c]), c.peer, e.frame, e.roster, e.nowMs, e.mapping) == Asked(h, e)
  {
  }

  lemma {:induction false} RestartCharges(clients: seq<ConnId>, notice: Frame, k: MappingKey)
    ensures forall i :: 0 <= i < |RestartEach(clients, notice)| && RestartEach(clients, notice)[i].Queue? ==>
      Charged(RestartEach(clients, notice)[i].op, k) == 0
  {
    if clients == [] {
    } else {
      RestartCharges(clients[..|clients| - 1], notice, k);
    }
  }

  lemma PlanCharges(h: Hub, e: Event, k: MappingKey)
    ensures EffectCharges(PlanOf(h, e).effects, PlanOf(h, e).hub.conns.Keys, k)
         == Allowed(Asked(h, e), if e.Hears? then e.gate else None, k)
  {
    if e.Hears? && Accepts(h, e.id, e.frame, e.nowMs) {
      var c := Heard(h.conns[e.id], EncodedLen(e.frame), e.nowMs);
      var g := h.(conns := h.conns[e.id := c]);
      HearingAsks(h, e);
      DispatchCharges(g, e.id, e.frame, e.roster, e.nowMs, e.mapping, e.gate, k);
      assert g.conns.Keys == PlanOf(h, e).hub.conns.Keys;
    } else {
      if e.Restarts? {
        RestartCharges(e.clients, Restarting(e.reconnectInMs, e.tryForMs), k);
      }
      NothingCharged(PlanOf(h, e).effects, PlanOf(h, e).hub.conns.Keys, k);
    }
  }

  lemma {:induction false} ActsCharge(t: Traced, effects: seq<Effect>, k: MappingKey)
    requires t.hub.cfg.queueDepth > 0
    ensures Queued(ActAll(t, effects).journal, k) == Queued(t.journal, k) + EffectCharges(effects, t.hub.conns.Keys, k)
  {
    if effects == [] {
    } else {
      var front, last := effects[..|effects| - 1], effects[|effects| - 1];
      ActsCharge(t, front, k);
      PerformKeepsRegistry(t.hub, front);
      var b := ActAll(t, front);
      if last.Queue? && last.to in b.hub.conns {
        assert (b.journal + [Did(last.to, last.op)])[..|b.journal|] == b.journal;
      }
    }
  }

  lemma {:induction false} NotesCharge(journal: seq<Entry>, notes: seq<Entry>, k: MappingKey)
    requires forall i :: 0 <= i < |notes| ==> !notes[i].Did?
    ensures Queued(journal + notes, k) == Queued(journal, k)
  {
    if notes == [] {
      assert journal + notes == journal;
    } else {
      NotesCharge(journal, notes[..|notes| - 1], k);
      assert (journal + notes)[..|journal + notes| - 1] == journal + notes[..|notes| - 1];
    }
  }

  lemma StepCharges(t: Traced, e: Event, k: MappingKey)
    requires t.hub.cfg.queueDepth > 0
    ensures Queued(Step(t, e).journal, k)
         == Queued(t.journal, k) + Allowed(Asked(t.hub, e), if e.Hears? then e.gate else None, k)
  {
    if Settled(e) {
      SettledNotesAreQuiet(t.hub, e);
    }
    NotesCharge(t.journal, Notes(t.hub, e), k);
    PlanCharges(t.hub, e, k);
    ActsCharge(Begin(t, e), PlanOf(t.hub, e).effects, k);
  }

  // ---- The two together ----

  datatype Joint = Joint(relay: Traced, credit: C.Run, gated: bool)

  datatype Happens =
    | Relays(e: Event, now: nat)   // a call of the hub; the gate reads its own clock
    | Credits(c: C.Event)          // anything else the controller does
    | Attaches | Detaches          // the gate is installed, or taken away at shutdown

  function Answer(r: C.Run, q: Question, now: nat, requested: nat): bool {
    q.bytes == 0 || Reserve(r.ledger, KeyOf(q.mapping), q.bytes, now, requested).admitted
  }

  /** The hub's event, with the answer its gate gives. */
  function Gated(j: Joint, e: Event, now: nat, requested: nat): Event {
    if !e.Hears? then e
    else if !j.gated then e.(gate := None)
    else
      match Asked(j.relay.hub, e)
      case None => e.(gate := Some(true))
      case Some(q) => e.(gate := Some(Answer(j.credit, q, now, requested)))
  }

  /** The reservation that a call of the hub makes. */
  function Spend(j: Joint, e: Event, now: nat, requested: nat): C.Run {
    match Asked(j.relay.hub, e)
    case Some(q) => if j.gated then C.ReserveStep(j.credit, q.mapping, q.bytes, now, requested) else j.credit
    case None => j.credit
  }

  ghost function JointStep(j: Joint, x: Happens, requested: nat): (r: Joint)
    requires j.relay.hub.cfg.queueDepth > 0
    ensures r.relay.hub.cfg == j.relay.hub.cfg
  {
    match x
    case Relays(e, now) =>
      Joint(Step(j.relay, Gated(j, e, now, requested)), Spend(j, e, now, requested), j.gated)
    case Credits(c) =>
      if !c.Reserves? && C.Enabled(j.credit, c, requested) then j.(credit := C.Step(j.credit, c, requested)) else j
    case Attaches => j.(gated := true)
    case Detaches => j.(gated := false)
  }

  ghost function Jointly(cfg: Config, xs: seq<Happens>, requested: nat): (j: Joint)
    requires cfg.queueDepth > 0
    ensures j.relay.hub.cfg == cfg
  {
    if xs == [] then Joint(Start(cfg), C.Start(), false)
    else JointStep(Jointly(cfg, xs[..|xs| - 1], requested), xs[|xs| - 1], requested)
  }

  /** The bytes queued to clients under a mapping while the gate was there. */
  ghost function QueuedUnder(cfg: Config, xs: seq<Happens>, requested: nat, k: MappingKey): int
    requires cfg.queueDepth > 0
  {
    if xs == [] then 0
    else
      var j, after := Jointly(cfg, xs[..|xs| - 1], requested), Jointly(cfg, xs, requested);
      QueuedUnder(cfg, xs[..|xs| - 1], requested, k)
      + if j.gated then Queued(after.relay.journal, k) - Queued(j.relay.journal, k) else 0
  }

  // ---- Each side is a run of its own ----

  ghost function HubEvents(cfg: Config, xs: seq<Happens>, requested: nat): seq<Event>
    requires cfg.queueDepth > 0
  {
    if xs == [] then []
    else
      var front, x := xs[..|xs| - 1], xs[|xs| - 1];
      HubEvents(cfg, front, requested)
      + if x.Relays? then [Gated(Jointly(cfg, front, requested), x.e, x.now, requested)] else []
  }

  ghost function CreditEvents(cfg: Config, xs: seq<Happens>, requested: nat): seq<C.Event>
    requires cfg.queueDepth > 0
  {
    if xs == [] then []
    else
      var front, x := xs[..|xs| - 1], xs[|xs| - 1];
      var j := Jointly(cfg, front, requested);
      CreditEvents(cfg, front, requested)
      + match x
        case Relays(e, now) =>
          if j.gated && Asked(j.relay.hub, e).Some? then
            var q := Asked(j.relay.hub, e).value;
            [C.Reserves(q.mapping, q.bytes, now)]
          else []
        case Credits(c) => if c.Reserves? then [] else [c]
        case _ => []
  }

  /** Every call of the hub was possible when it was made. */
  ghost predicate JointlyFeasible(cfg: Config, xs: seq<Happens>, requested: nat)
    requires cfg.queueDepth > 0
  {
    xs != [] ==>
      var front, x := xs[..|xs| - 1], xs[|xs| - 1];
      && JointlyFeasible(cfg, front, requested)
      && (x.Relays? ==> Possible(Jointly(cfg, front, requested).relay, x.e))
  }

  lemma HubOneMore(cfg: Config, events: seq<Event>, j: Joint, e: Event, now: nat, requested: nat)
    requires cfg.queueDepth > 0 && j.relay == After(cfg, events)
    ensures var more := events + [Gated(j, e, now, requested)];
      && After(cfg, more) == Step(j.relay, Gated(j, e, now, requested))
      && (Feasible(cfg, more) <==> Feasible(cfg, events) && Possible(j.relay, e))
  {
    var more := events + [Gated(j, e, now, requested)];
    assert more[..|events|] == events;
  }

  /** The hub's part is a run of the hub, feasible if the joint run is: whatever
      holds of every run of the hub holds of it. */
  lemma {:induction false} HubSide(cfg: Config, xs: seq<Happens>, requested: nat)
    requires cfg.queueDepth > 0
    ensures Jointly(cfg, xs, requested).relay == After(cfg, HubEvents(cfg, xs, requested))
    ensures Feasible(cfg, HubEvents(cfg, xs, requested)) <==> JointlyFeasible(cfg, xs, requested)
  {
    if xs == [] {
    } else {
      var front, x := xs[..|xs| - 1], xs[|xs| - 1];
      var before := HubEvents(cfg, front, requested);
      HubSide(cfg, front, requested);
      assert before + [] == before;
      if x.Relays? {
        HubOneMore(cfg, before, Jointly(cfg, front, requested), x.e, x.now, requested);
      }
    }
  }

  lemma CreditOneMore(events: seq<C.Event>, c: C.Event, requested: nat)
    ensures var r := C.After(events, requested);
      C.After(events + [c], requested) == if C.Enabled(r, c, requested) then C.Step(r, c, requested) else r
  {
    assert (events + [c])[..|events|] == events;
  }

  lemma {:induction false} CreditSide(cfg: Config, xs: seq<Happens>, requested: nat)
    requires cfg.queueDepth > 0
    ensures Jointly(cfg, xs, requested).credit == C.After(CreditEvents(cfg, xs, requested), requested)
  {
    if xs == [] {
    } else {
      var front, x := xs[..|xs| - 1], xs[|xs| - 1];
      var j, before := Jointly(cfg, front, requested), CreditEvents(cfg, front, requested);
      CreditSide(cfg, front, requested);
      assert before + [] == before;
      if x.Credits? {
        CreditOneMore(before, x.c, requested);
      } else if x.Relays? && j.gated && Asked(j.relay.hub, x.e).Some? {
        var q := Asked(j.relay.hub, x.e).value;
        CreditOneMore(before, C.Reserves(q.mapping, q.bytes, x.now), requested);
      }
    }
  }

  // ---- What is queued was admitted ----

  function AdmittedFor(journal: seq<C.Entry>, k: MappingKey): nat {
    if journal == [] then 0
    else
      var last := journal[|journal| - 1];
      AdmittedFor(journal[..|journal| - 1], k) + if last.Admitted? && last.key == k then last.bytes else 0
  }

  lemma {:induction false} HandedAdmitsNothing(journal: seq<C.Entry>, ss: seq<Surrender>, k: MappingKey)
    ensures AdmittedFor(journal + C.HandedEntries(ss), k) == AdmittedFor(journal, k)
  {
    if ss == [] {
      assert journal + C.HandedEntries(ss) == journal;
    } else {
      var front := ss[..|ss| - 1];
      HandedAdmitsNothing(journal, front, k);
      var all := journal + C.HandedEntries(ss);
      assert all[..|all| - 1] == journal + C.HandedEntries(front);
    }
  }

  lemma OthersAdmitNothing(r: C.Run, c: C.Event, requested: nat, k: MappingKey)
    requires C.Enabled(r, c, requested) && !c.Reserves?
    ensures AdmittedFor(C.Step(r, c, requested).journal, k) == AdmittedFor(r.journal, k)
  {
    match c
    case InstallsGrant(i, id, bytes, validUntil, now) =>
      var g := FreshGrant(id, KeyOf(r.workers[i].mapping), bytes, validUntil);
      assert r.journal + [] == r.journal && (r.journal + [C.Installed(g)])[..|r.journal|] == r.journal;
    case Gathers(order) =>
      var ss := Gather(r.ledger.states, order);
      var longer := r.journal + C.HandedEntries(ss);
      HandedAdmitsNothing(r.journal, ss, k);
      assert (longer + [C.Gathered])[..|longer|] == longer;
    case _ =>
  }

  lemma OneAdmission(journal: seq<C.Entry>, e: C.Entry, k: MappingKey)
    requires e.Admitted?
    ensures AdmittedFor(journal + [e], k) == AdmittedFor(journal, k) + if e.key == k then e.bytes else 0
  {
    assert (journal + [e])[..|journal|] == journal;
  }

  lemma ReservationAdmits(r: C.Run, q: Question, now: nat, requested: nat, k: MappingKey)
    ensures AdmittedFor(C.ReserveStep(r, q.mapping, q.bytes, now, requested).journal, k)
         == AdmittedFor(r.journal, k) + Allowed(Some(q), Some(Answer(r, q, now, requested)), k)
  {
    if q.bytes > 0 {
      var v := Reserve(r.ledger, KeyOf(q.mapping), q.bytes, now, requested);
      var entries := if v.admitted then [C.Admitted(KeyOf(q.mapping), q.bytes, v.against)] else [];
      HandedAdmitsNothing(r.journal + entries, v.ledger.surrenders[|r.ledger.surrenders|..], k);
      OneAdmission(r.journal, C.Admitted(KeyOf(q.mapping), q.bytes, v.against), k);
      assert r.journal + [] == r.journal;
    }
  }

  lemma RelaySpends(j: Joint, e: Event, now: nat, requested: nat, k: MappingKey)
    requires j.relay.hub.cfg.queueDepth > 0 && j.gated
    ensures var after := JointStep(j, Relays(e, now), requested);
      Queued(after.relay.journal, k) - Queued(j.relay.journal, k)
      == AdmittedFor(after.credit.journal, k) - AdmittedFor(j.credit.journal, k)
  {
    var g := Gated(j, e, now, requested);
    StepCharges(j.relay, g, k);
    assert Asked(j.relay.hub, g) == Asked(j.relay.hub, e);
    if Asked(j.relay.hub, e).Some? {
      ReservationAdmits(j.credit, Asked(j.relay.hub, e).value, now, requested, k);
    }
  }

  lemma JointStepSpends(j: Joint, x: Happens, requested: nat, k: MappingKey)
    requires j.relay.hub.cfg.queueDepth > 0
    ensures var after := JointStep(j, x, requested);
      (if j.gated then Queued(after.relay.journal, k) - Queued(j.relay.journal, k) else 0)
      == AdmittedFor(after.credit.journal, k) - AdmittedFor(j.credit.journal, k)
  {
    match x
    case Relays(e, now) =>
      if j.gated {
        RelaySpends(j, e, now, requested, k);
      }
    case Credits(c) =>
      if !c.Reserves? && C.Enabled(j.credit, c, requested) {
        OthersAdmitNothing(j.credit, c, requested, k);
      }
    case _ =>
  }

  /** In every joint run the bytes queued to clients under a mapping, while the
      gate is installed, are exactly those the controller admitted for it: none
      slips past, and none is charged for a packet that was not queued. */
  lemma {:induction false} QueuedIsAdmitted(cfg: Config, xs: seq<Happens>, requested: nat, k: MappingKey)
    requires cfg.queueDepth > 0
    ensures QueuedUnder(cfg, xs, requested, k) == AdmittedFor(Jointly(cfg, xs, requested).credit.journal, k)
  {
    if xs == [] {
    } else {
      QueuedIsAdmitted(cfg, xs[..|xs| - 1], requested, k);
      JointStepSpends(Jointly(cfg, xs[..|xs| - 1], requested), xs[|xs| - 1], requested, k);
    }
  }

  /** Bytes admitted outside any cap. */
  function UncappedFor(journal: seq<C.Entry>, k: MappingKey): nat {
    if journal == [] then 0
    else
      var last := journal[|journal| - 1];
      UncappedFor(journal[..|journal| - 1], k)
      + if last.Admitted? && last.key == k && last.against.None? then last.bytes else 0
  }

  lemma {:induction false} AdmittedSplits(journal: seq<C.Entry>, k: MappingKey)
    ensures AdmittedFor(journal, k) == C.Tally(journal, C.SpentFor(k)) + UncappedFor(journal, k)
  {
    if journal == [] {
    } else {
      AdmittedSplits(journal[..|journal| - 1], k);
    }
  }

  /** End to end: what reaches clients' queues under a capped mapping was granted
      by the control plane. */
  lemma QueuedWithinGrants(cfg: Config, xs: seq<Happens>, requested: nat, k: MappingKey)
    requires cfg.queueDepth > 0
    ensures var journal := Jointly(cfg, xs, requested).credit.journal;
      QueuedUnder(cfg, xs, requested, k) <= C.Tally(journal, C.InstalledFor(k)) + UncappedFor(journal, k)
  {
    QueuedIsAdmitted(cfg, xs, requested, k);
    CreditSide(cfg, xs, requested);
    CapHolds(CreditEvents(cfg, xs, requested), requested, k);
    AdmittedSplits(Jointly(cfg, xs, requested).credit.journal, k);
  }
}

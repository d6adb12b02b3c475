/** One aquifer's share of a relay: whatever the number of nodes, reconnects and
    mesh peers, the packets queued on its behalf stay within its budget. */
module HubAquifers {
  import opened Common
  import opened Frames
  import opened Lanes
  import opened Limits
  import opened HubModel
  import opened HubRuns
  import opened HubInvariants
  import opened HubTraffic

  // ---- Charges in the journal ----

  predicate Tries(entry: Entry, a: Aquifer) { entry.Metered? && entry.aquifer == a }

  /** When the aquifer's meter was first used. */
  function Since(journal: seq<Entry>, a: Aquifer): Option<nat> {
    if journal == [] then None
    else
      var before := Since(journal[..|journal| - 1], a);
      var last := journal[|journal| - 1];
      if before.None? && Tries(last, a) then Some(last.nowMs) else before
  }

  /** The latest time at which it was used. */
  function Until(journal: seq<Entry>, a: Aquifer): nat {
    if journal == [] then 0
    else
      var before, last := Until(journal[..|journal| - 1], a), journal[|journal| - 1];
      if Tries(last, a) then Max(before, last.nowMs) else before
  }

  /** The two budgets of a meter. */
  datatype Coin = Bytes | Frames

  function Worth(entry: Entry, coin: Coin): nat
    requires entry.Metered?
  {
    if coin.Bytes? then entry.bytes else 1
  }

  function Paid(journal: seq<Entry>, a: Aquifer, coin: Coin): nat {
    if journal == [] then 0
    else
      var last := journal[|journal| - 1];
      Paid(journal[..|journal| - 1], a, coin) + if Tries(last, a) && last.paid then Worth(last, coin) else 0
  }

  /** Which packets count: all of them, or those whose source a roster puts in
      one aquifer. */
  datatype Whose = Anyone | Of(roster: Roster, aquifer: Aquifer)

  predicate Counts(w: Whose, src: Id) { w.Anyone? || (src in w.roster && w.roster[src] == w.aquifer) }

  /** What a packet or a Forward weighs, in payload bytes or as one frame. */
  function Weight(op: QueueOp, w: Whose, coin: Coin): nat {
    if op.Take? then 0
    else
      match op.item.frame
      case RecvPacket(src, payload) => Load(w, src, payload, coin)
      case Forward(src, _, payload) => Load(w, src, payload, coin)
      case _ => 0
  }

  function Load(w: Whose, src: Id, payload: seq<Byte>, coin: Coin): nat {
    if !Counts(w, src) then 0 else if coin.Bytes? then |payload| else 1
  }

  /** Packets ever queued. */
  function Packets(journal: seq<Entry>, w: Whose, coin: Coin): nat {
    if journal == [] then 0
    else
      var last := journal[|journal| - 1];
      Packets(journal[..|journal| - 1], w, coin) + if last.Did? then Weight(last.op, w, coin) else 0
  }

  /** A journal that grows by entries about other things. */
  lemma {:induction false} Unrelated(journal: seq<Entry>, more: seq<Entry>, a: Aquifer)
    requires forall i :: 0 <= i < |more| ==> !Tries(more[i], a)
    ensures Since(journal + more, a) == Since(journal, a)
    ensures Until(journal + more, a) == Until(journal, a)
    ensures forall coin :: Paid(journal + more, a, coin) == Paid(journal, a, coin)
  {
    if more == [] {
      assert journal + more == journal;
    } else {
      Unrelated(journal, more[..|more| - 1], a);
      assert (journal + more)[..|journal + more| - 1] == journal + more[..|more| - 1];
    }
  }

  lemma {:induction false} NothingQueued(journal: seq<Entry>, more: seq<Entry>, w: Whose, coin: Coin)
    requires forall i :: 0 <= i < |more| ==> !more[i].Did?
    ensures Packets(journal + more, w, coin) == Packets(journal, w, coin)
  {
    if more == [] {
      assert journal + more == journal;
    } else {
      NothingQueued(journal, more[..|more| - 1], w, coin);
      assert (journal + more)[..|journal + more| - 1] == journal + more[..|more| - 1];
    }
  }

  // ---- The meters follow the journal ----

  ghost predicate MeterOk(h: Hub, journal: seq<Entry>, a: Aquifer)
    requires h.cfg.aquiferBudget.Some?
  {
    && (a in h.aquiferMeters <==> Since(journal, a).Some?)
    && (a in h.aquiferMeters ==>
          MeterSolvent(h.aquiferMeters[a], h.cfg.aquiferBudget.value, Since(journal, a).value,
                       Paid(journal, a, Bytes), Paid(journal, a, Frames), Until(journal, a)))
    && (Since(journal, a).None? ==> Paid(journal, a, Bytes) == Paid(journal, a, Frames) == Until(journal, a) == 0)
  }

  /** What an event does to the meters is what it notes. */
  function Charged(h: Hub, m: seq<Entry>): map<Aquifer, Meter>
    requires h.cfg.aquiferBudget.Some?
  {
    if |m| == 1 && m[0].Metered? then
      h.aquiferMeters[m[0].aquifer := Charge(AquiferMeter(h, m[0].aquifer, m[0].nowMs), m[0].bytes, m[0].nowMs)]
    else h.aquiferMeters
  }

  lemma ForwardCharges(h: Hub, from: ConnId, dst: Id, payload: seq<Byte>, roster: Roster, nowMs: nat,
                       mapping: Option<UsageMapping>, gate: Gate)
    requires from in h.conns && h.conns[from].peer.Client? && h.cfg.aquiferBudget.Some?
    ensures var p := ForwardFromClient(h, from, dst, payload, roster, nowMs, mapping, gate);
      && p.hub.aquiferMeters == Charged(h, Metering(h, from, SendPacket(dst, payload), roster, nowMs))
      && p.verdict.Ok?
  {
  }

  lemma MeshCharges(h: Hub, from: ConnId, src: Id, dst: Id, payload: seq<Byte>, roster: Roster, nowMs: nat,
                    mapping: Option<UsageMapping>, gate: Gate)
    requires from in h.conns && h.conns[from].peer.Mesh? && h.cfg.aquiferBudget.Some?
    ensures var p := DeliverFromMesh(h, from, src, dst, payload, roster, nowMs, mapping, gate);
      && p.hub.aquiferMeters == Charged(h, Metering(h, from, Forward(src, dst, payload), roster, nowMs))
      && p.verdict.Ok?
  {
  }

  lemma DispatchCharges(h: Hub, id: ConnId, frame: Frame, roster: Roster, nowMs: nat,
                        mapping: Option<UsageMapping>, gate: Gate)
    requires id in h.conns && h.cfg.aquiferBudget.Some?
    ensures var p := Dispatch(h, id, frame, roster, nowMs, mapping, gate);
      var m := Metering(h, id, frame, roster, nowMs);
      && p.hub.aquiferMeters == Charged(h, m)
      && (p.verdict.Err? ==> m == [])
  {
    if frame.SendPacket? && h.conns[id].peer.Client? {
      ForwardCharges(h, id, frame.dst, frame.payload, roster, nowMs, mapping, gate);
    } else if frame.Forward? && h.conns[id].peer.Mesh? {
      MeshCharges(h, id, frame.src, frame.dst, frame.payload, roster, nowMs, mapping, gate);
    }
  }

  lemma MeteringIgnoresHearing(h: Hub, id: ConnId, frame: Frame, roster: Roster, nowMs: nat, c: Conn)
    requires id in h.conns && c.peer == h.conns[id].peer && h.cfg.aquiferBudget.Some?
    ensures var g := h.(conns := h.conns[id := c]);
      var m := Metering(h, id, frame, roster, nowMs);
      && Metering(g, id, frame, roster, nowMs) == m
      && Charged(g, m) == Charged(h, m)
  {
  }

  /** The charge an event attempts, as the journal records it. */
  function Attempt(h: Hub, e: Event): seq<Entry> {
    if e.Hears? && Accepts(h, e.id, e.frame, e.nowMs) then Metering(h, e.id, e.frame, e.roster, e.nowMs) else []
  }

  lemma HearingCharges(h: Hub, id: ConnId, frame: Frame, roster: Roster, nowMs: nat,
                       mapping: Option<UsageMapping>, gate: Gate)
    requires h.cfg.aquiferBudget.Some? && Accepts(h, id, frame, nowMs)
    ensures var p := OnFrame(h, id, frame, roster, nowMs, mapping, gate);
      var m := Metering(h, id, frame, roster, nowMs);
      && p.hub.aquiferMeters == Charged(h, m)
      && (p.verdict.Err? ==> m == [])
  {
    var c := Heard(h.conns[id], EncodedLen(frame), nowMs);
    MeteringIgnoresHearing(h, id, frame, roster, nowMs, c);
    DispatchCharges(h.(conns := h.conns[id := c]), id, frame, roster, nowMs, mapping, gate);
  }

  lemma PlanCharges(h: Hub, e: Event)
    requires h.cfg.aquiferBudget.Some?
    ensures PlanOf(h, e).hub.aquiferMeters == Charged(h, Attempt(h, e))
    ensures Attempt(h, e) != [] ==> PlanOf(h, e).verdict.Ok?
  {
    if e.Hears? && Accepts(h, e.id, e.frame, e.nowMs) {
      HearingCharges(h, e.id, e.frame, e.roster, e.nowMs, e.mapping, e.gate);
    }
  }

  lemma NotesRecordAttempt(h: Hub, e: Event)
    requires Attempt(h, e) != [] ==> PlanOf(h, e).verdict.Ok?
    ensures |Attempt(h, e)| <= 1
    ensures Attempt(h, e) != [] ==> Notes(h, e) == [Accepted(e.id, e.frame)] + Attempt(h, e)
    ensures Attempt(h, e) == [] ==> forall a, i :: 0 <= i < |Notes(h, e)| ==> !Tries(Notes(h, e)[i], a)
  {
  }

  lemma AttemptPays(h: Hub, e: Event)
    requires Attempt(h, e) != []
    ensures var m := Attempt(h, e)[0];
      m.Metered? && h.cfg.aquiferBudget.Some? && m.paid == CanPay(AquiferMeter(h, m.aquifer, m.nowMs), m.bytes, m.nowMs)
  {
  }

  lemma OneTry(journal: seq<Entry>, m: Entry, x: Entry)
    requires m.Metered? && !x.Metered?
    ensures var more := journal + ([x] + [m]);
      && Since(more, m.aquifer)
         == (if Since(journal, m.aquifer).None? then Some(m.nowMs) else Since(journal, m.aquifer))
      && Until(more, m.aquifer) == Max(Until(journal, m.aquifer), m.nowMs)
      && forall coin ::
           Paid(more, m.aquifer, coin) == Paid(journal, m.aquifer, coin) + if m.paid then Worth(m, coin) else 0
  {
    var more := journal + ([x] + [m]);
    assert more[..|more| - 1] == journal + [x];
    Unrelated(journal, [x], m.aquifer);
  }

  /** One attempted charge keeps the meter of its aquifer honest. */
  lemma TryKeepsMeter(h: Hub, g: Hub, journal: seq<Entry>, m: Entry, x: Entry)
    requires h.cfg.aquiferBudget.Some? && g.cfg == h.cfg && m.Metered? && !x.Metered?
    requires MeterOk(h, journal, m.aquifer)
    requires m.paid == CanPay(AquiferMeter(h, m.aquifer, m.nowMs), m.bytes, m.nowMs)
    requires g.aquiferMeters == Charged(h, [m])
    ensures MeterOk(g, journal + ([x] + [m]), m.aquifer)
  {
    var a, budget := m.aquifer, h.cfg.aquiferBudget.value;
    OneTry(journal, m, x);
    var start := if Since(journal, a).None? then m.nowMs else Since(journal, a).value;
    var latest := if Since(journal, a).None? then m.nowMs else Until(journal, a);
    ChargeKeepsSolvent(AquiferMeter(h, a, m.nowMs), budget, start, Paid(journal, a, Bytes), Paid(journal, a, Frames),
                       latest, m.bytes, m.nowMs);
  }

  lemma ChargedElsewhere(h: Hub, g: Hub, journal: seq<Entry>, notes: seq<Entry>, m: seq<Entry>, a: Aquifer)
    requires h.cfg.aquiferBudget.Some? && g.cfg == h.cfg && MeterOk(h, journal, a)
    requires g.aquiferMeters == Charged(h, m) && Records(notes, m) && (m != [] ==> m[0].aquifer != a)
    ensures MeterOk(g, journal + notes, a)
  {
    Unrelated(journal, notes, a);
  }

  lemma BeginKeepsMeter(t: Traced, e: Event, a: Aquifer)
    requires t.hub.cfg.aquiferBudget.Some? && MeterOk(t.hub, t.journal, a)
    ensures MeterOk(Begin(t, e).hub, Begin(t, e).journal, a)
  {
    var h, g, notes, m := t.hub, Begin(t, e).hub, Notes(t.hub, e), Attempt(t.hub, e);
    PlanCharges(h, e);
    NotesRecord(h, e);
    if m != [] && m[0].aquifer == a {
      AttemptPays(h, e);
      assert m == [m[0]];
      TryKeepsMeter(h, g, t.journal, m[0], notes[0]);
    } else {
      ChargedElsewhere(h, g, t.journal, notes, m, a);
    }
  }

  // ---- Whose packet a step can queue ----

  /** The node that a frame's packet comes from. */
  function Sender(h: Hub, e: Event): Option<Id> {
    if !(e.Hears? && e.id in h.conns) then None
    else
      match (e.frame, h.conns[e.id].peer)
      case (SendPacket(_, _), Client(node, _)) => Some(node)
      case (Forward(src, _, _), Mesh(_)) => Some(src)
      case _ => None
  }

  /** The aquifer that answers for it: the one its sender was admitted to, or
      for a packet off the mesh the one of its source in the roster of the
      moment. */
  function Owner(h: Hub, e: Event): Option<Aquifer> {
    if !(e.Hears? && e.id in h.conns) then None
    else
      match (e.frame, h.conns[e.id].peer)
      case (SendPacket(_, _), Client(_, aquifer)) => Some(aquifer)
      case (Forward(src, _, _), Mesh(_)) => if src in e.roster then Some(e.roster[src]) else None
      case _ => None
  }

  // ---- Every packet queued was paid for ----

  function EffectWeight(effects: seq<Effect>, w: Whose, coin: Coin): nat {
    if effects == [] then 0
    else
      var last := effects[|effects| - 1];
      EffectWeight(effects[..|effects| - 1], w, coin) + if last.Queue? then Weight(last.op, w, coin) else 0
  }

  lemma {:induction false} Weightless(effects: seq<Effect>, w: Whose, coin: Coin)
    requires forall i :: 0 <= i < |effects| && effects[i].Queue? ==> Weight(effects[i].op, w, coin) == 0
    ensures EffectWeight(effects, w, coin) == 0
  {
    if effects == [] {
    } else {
      Weightless(effects[..|effects| - 1], w, coin);
    }
  }

  lemma DeliverWeighs(h: Hub, from: ConnId, to: ConnId, frame: Frame, mapping: Option<UsageMapping>, gate: Gate,
                      w: Whose, coin: Coin)
    ensures EffectWeight(Deliver(h, from, to, frame, mapping, gate).effects, w, coin)
         <= Weight(Push(Bare(frame)), w, coin)
  {
    var effects := Deliver(h, from, to, frame, mapping, gate).effects;
    if |effects| == 2 {
      var first := effects[..1];
      assert first[..0] == [] && first[0] == effects[0];
      assert EffectWeight(first, w, coin) <= Weight(Push(Bare(frame)), w, coin);
      assert !effects[1].Queue?;
    } else {
      assert effects[..0] == [];
    }
  }

  lemma RouteWeighs(h: Hub, from: ConnId, src: Id, dst: Id, payload: seq<Byte>,
                    mapping: Option<UsageMapping>, gate: Gate, w: Whose, coin: Coin)
    ensures EffectWeight(Route(h, from, src, dst, payload, mapping, gate).effects, w, coin)
         <= Load(w, src, payload, coin)
  {
    if dst in h.byNode {
      DeliverWeighs(h, from, h.byNode[dst], RecvPacket(src, payload), mapping, gate, w, coin);
    } else if dst in h.presence && h.presence[dst] in h.byMesh {
      DeliverWeighs(h, from, h.byMesh[h.presence[dst]], Forward(src, dst, payload), None, gate, w, coin);
    } else {
      Weightless(Refuse(h, from, dst, NotHere, Nowhere).effects, w, coin);
    }
  }

  /** What an attempted charge paid for one aquifer. */
  function Pays(m: seq<Entry>, a: Aquifer, coin: Coin): nat {
    if |m| == 1 && Tries(m[0], a) && m[0].paid then Worth(m[0], coin) else 0
  }

  lemma ForwardIsPaid(h: Hub, from: ConnId, dst: Id, payload: seq<Byte>, roster: Roster, nowMs: nat,
                      mapping: Option<UsageMapping>, gate: Gate, w: Whose, coin: Coin)
    requires from in h.conns && h.conns[from].peer.Client? && h.cfg.aquiferBudget.Some?
    ensures var p := ForwardFromClient(h, from, dst, payload, roster, nowMs, mapping, gate);
      var weight := EffectWeight(p.effects, w, coin);
      && weight <= Pays(Metering(h, from, SendPacket(dst, payload), roster, nowMs), h.conns[from].peer.aquifer, coin)
      && (!Counts(w, h.conns[from].peer.node) ==> weight == 0)
  {
    var Client(src, aquifer) := h.conns[from].peer;
    var p := ForwardFromClient(h, from, dst, payload, roster, nowMs, mapping, gate);
    if dst != src && dst in roster && roster[dst] == aquifer && AquiferAdmits(h, aquifer, |payload|, nowMs) {
      RouteWeighs(ChargeAquifer(h, aquifer, |payload|, nowMs), from, src, dst, payload, mapping, gate, w, coin);
    } else {
      Weightless(p.effects, w, coin);
    }
  }

  lemma MeshIsPaid(h: Hub, from: ConnId, src: Id, dst: Id, payload: seq<Byte>, roster: Roster, nowMs: nat,
                   mapping: Option<UsageMapping>, gate: Gate, w: Whose, coin: Coin)
    requires from in h.conns && h.conns[from].peer.Mesh? && h.cfg.aquiferBudget.Some?
    ensures var p := DeliverFromMesh(h, from, src, dst, payload, roster, nowMs, mapping, gate);
      var weight := EffectWeight(p.effects, w, coin);
      && (src in roster ==>
            weight <= Pays(Metering(h, from, Forward(src, dst, payload), roster, nowMs), roster[src], coin))
      && (src !in roster || !Counts(w, src) ==> weight == 0)
  {
    var p := DeliverFromMesh(h, from, src, dst, payload, roster, nowMs, mapping, gate);
    if dst in h.byNode && src in roster && dst in roster && roster[src] == roster[dst]
       && AquiferAdmits(h, roster[dst], |payload|, nowMs) {
      DeliverWeighs(ChargeAquifer(h, roster[dst], |payload|, nowMs), from, h.byNode[dst],
                    RecvPacket(src, payload), mapping, gate, w, coin);
    } else {
      Weightless(p.effects, w, coin);
    }
  }

  /** What a step queues is paid for by its owner; without one it queues no
      packet, nor any that does not count. */
  predicate PaidBy(weight: nat, owner: Option<Aquifer>, sender: Option<Id>, m: seq<Entry>, w: Whose, coin: Coin) {
    && (owner.Some? ==> weight <= Pays(m, owner.value, coin))
    && (owner.None? || sender.None? || !Counts(w, sender.value) ==> weight == 0)
  }

  lemma DispatchIsPaid(h: Hub, e: Event, w: Whose, coin: Coin)
    requires e.Hears? && e.id in h.conns && h.cfg.aquiferBudget.Some?
    ensures PaidBy(EffectWeight(Dispatch(h, e.id, e.frame, e.roster, e.nowMs, e.mapping, e.gate).effects, w, coin),
                   Owner(h, e), Sender(h, e), Metering(h, e.id, e.frame, e.roster, e.nowMs), w, coin)
  {
    if e.frame.SendPacket? && h.conns[e.id].peer.Client? {
      ForwardIsPaid(h, e.id, e.frame.dst, e.frame.payload, e.roster, e.nowMs, e.mapping, e.gate, w, coin);
    } else if e.frame.Forward? && h.conns[e.id].peer.Mesh? {
      MeshIsPaid(h, e.id, e.frame.src, e.frame.dst, e.frame.payload, e.roster, e.nowMs, e.mapping, e.gate, w, coin);
    } else {
      Weightless(Dispatch(h, e.id, e.frame, e.roster, e.nowMs, e.mapping, e.gate).effects, w, coin);
    }
  }

  lemma HearingIsPaid(h: Hub, e: Event, w: Whose, coin: Coin)
    requires e.Hears? && h.cfg.aquiferBudget.Some? && Accepts(h, e.id, e.frame, e.nowMs)
    ensures PaidBy(EffectWeight(OnFrame(h, e.id, e.frame, e.roster, e.nowMs, e.mapping, e.gate).effects, w, coin),
                   Owner(h, e), Sender(h, e), Metering(h, e.id, e.frame, e.roster, e.nowMs), w, coin)
  {
    var c := Heard(h.conns[e.id], EncodedLen(e.frame), e.nowMs);
    var g := h.(conns := h.conns[e.id := c]);
    MeteringIgnoresHearing(h, e.id, e.frame, e.roster, e.nowMs, c);
    assert Owner(g, e) == Owner(h, e) && Sender(g, e) == Sender(h, e);
    DispatchIsPaid(g, e, w, coin);
  }

  lemma {:induction false} RestartWeightless(clients: seq<ConnId>, notice: Frame, w: Whose, coin: Coin)
    requires notice.Restarting?
    ensures forall i :: 0 <= i < |RestartEach(clients, notice)| && RestartEach(clients, notice)[i].Queue? ==>
      Weight(RestartEach(clients, notice)[i].op, w, coin) == 0
  {
    if clients == [] {
    } else {
      RestartWeightless(clients[..|clients| - 1], notice, w, coin);
    }
  }

  /** No roster is mentioned: it may be another one at every step. */
  lemma PlanIsPaid(h: Hub, e: Event, w: Whose, coin: Coin)
    requires h.cfg.aquiferBudget.Some?
    ensures PaidBy(EffectWeight(PlanOf(h, e).effects, w, coin), Owner(h, e), Sender(h, e), Attempt(h, e), w, coin)
  {
    if e.Hears? && Accepts(h, e.id, e.frame, e.nowMs) {
      HearingIsPaid(h, e, w, coin);
    } else {
      if e.Restarts? {
        RestartWeightless(e.clients, Restarting(e.reconnectInMs, e.tryForMs), w, coin);
      }
      Weightless(PlanOf(h, e).effects, w, coin);
    }
  }

  // ---- One step ----

  predicate SameAccount(before: seq<Entry>, after: seq<Entry>, a: Aquifer) {
    && (forall coin :: Paid(after, a, coin) == Paid(before, a, coin))
    && Since(after, a) == Since(before, a) && Until(after, a) == Until(before, a)
  }

  lemma ActWeighs(t: Traced, e: Effect, w: Whose, coin: Coin)
    requires t.hub.cfg.queueDepth > 0
    ensures Packets(t.journal, w, coin) <= Packets(Act(t, e).journal, w, coin)
         <= Packets(t.journal, w, coin) + if e.Queue? then Weight(e.op, w, coin) else 0
  {
    if e.Queue? && e.to in t.hub.conns {
      assert (t.journal + [Did(e.to, e.op)])[..|t.journal|] == t.journal;
    }
  }

  /** Queueing charges nobody. */
  lemma ActPays(t: Traced, e: Effect, a: Aquifer)
    requires t.hub.cfg.queueDepth > 0
    ensures SameAccount(t.journal, Act(t, e).journal, a)
  {
    if e.Queue? && e.to in t.hub.conns {
      Unrelated(t.journal, [Did(e.to, e.op)], a);
    }
  }

  lemma {:induction false} ActAllPays(t: Traced, effects: seq<Effect>, a: Aquifer)
    requires t.hub.cfg.queueDepth > 0
    ensures SameAccount(t.journal, ActAll(t, effects).journal, a)
  {
    if effects == [] {
    } else {
      ActAllPays(t, effects[..|effects| - 1], a);
      ActPays(ActAll(t, effects[..|effects| - 1]), effects[|effects| - 1], a);
    }
  }

  lemma {:induction false} ActAllWeighs(t: Traced, effects: seq<Effect>, w: Whose, coin: Coin)
    requires t.hub.cfg.queueDepth > 0
    ensures Packets(t.journal, w, coin) <= Packets(ActAll(t, effects).journal, w, coin)
         <= Packets(t.journal, w, coin) + EffectWeight(effects, w, coin)
  {
    if effects == [] {
    } else {
      ActAllWeighs(t, effects[..|effects| - 1], w, coin);
      ActWeighs(ActAll(t, effects[..|effects| - 1]), effects[|effects| - 1], w, coin);
    }
  }

  /** Notes that record one attempt, after the frame it belongs to, or none. */
  predicate Records(notes: seq<Entry>, m: seq<Entry>) {
    && (forall i :: 0 <= i < |notes| ==> !notes[i].Did?)
    && if m == [] then forall i :: 0 <= i < |notes| ==> !notes[i].Metered?
       else |m| == 1 && m[0].Metered? && |notes| == 2 && notes == [notes[0]] + [m[0]] && !notes[0].Metered?
  }

  lemma RecordedPays(journal: seq<Entry>, notes: seq<Entry>, m: seq<Entry>, a: Aquifer, coin: Coin)
    requires Records(notes, m)
    ensures Paid(journal + notes, a, coin) == Paid(journal, a, coin) + Pays(m, a, coin)
  {
    if m != [] && m[0].aquifer == a {
      OneTry(journal, m[0], notes[0]);
    } else {
      Unrelated(journal, notes, a);
    }
  }

  lemma NotesRecord(h: Hub, e: Event)
    requires h.cfg.aquiferBudget.Some?
    ensures Records(Notes(h, e), Attempt(h, e))
  {
    PlanCharges(h, e);
    NotesRecordAttempt(h, e);
    NotesQueueNothing(h, e);
    if Attempt(h, e) != [] {
      AttemptPays(h, e);
      assert Attempt(h, e) == [Attempt(h, e)[0]];
    } else {
      forall i | 0 <= i < |Notes(h, e)| ensures !Notes(h, e)[i].Metered? {
        if Notes(h, e)[i].Metered? {
          assert Tries(Notes(h, e)[i], Notes(h, e)[i].aquifer);
        }
      }
    }
  }

  lemma NotesQueueNothing(h: Hub, e: Event)
    ensures forall i :: 0 <= i < |Notes(h, e)| ==> !Notes(h, e)[i].Did?
  {
    if Settled(e) {
      SettledNotesAreQuiet(h, e);
    }
  }

  /** The packets that one step adds to the queues. */
  function Added(t: Traced, e: Event, w: Whose, coin: Coin): int
    requires t.hub.cfg.queueDepth > 0
  {
    Packets(Step(t, e).journal, w, coin) - Packets(t.journal, w, coin)
  }

  lemma StepIsPaid(t: Traced, e: Event, w: Whose, coin: Coin)
    requires t.hub.cfg.queueDepth > 0 && t.hub.cfg.aquiferBudget.Some?
    ensures Added(t, e, w, coin) >= 0
    ensures PaidBy(Added(t, e, w, coin), Owner(t.hub, e), Sender(t.hub, e), Attempt(t.hub, e), w, coin)
  {
    var b, effects := Begin(t, e), PlanOf(t.hub, e).effects;
    NotesQueueNothing(t.hub, e);
    NothingQueued(t.journal, Notes(t.hub, e), w, coin);
    PlanIsPaid(t.hub, e, w, coin);
    ActAllWeighs(b, effects, w, coin);
  }

  lemma StepPays(t: Traced, e: Event, a: Aquifer, coin: Coin)
    requires t.hub.cfg.queueDepth > 0 && t.hub.cfg.aquiferBudget.Some?
    ensures Paid(Step(t, e).journal, a, coin) == Paid(t.journal, a, coin) + Pays(Attempt(t.hub, e), a, coin)
  {
    NotesRecord(t.hub, e);
    RecordedPays(t.journal, Notes(t.hub, e), Attempt(t.hub, e), a, coin);
    ActAllPays(Begin(t, e), PlanOf(t.hub, e).effects, a);
  }

  lemma StepKeepsMeter(t: Traced, e: Event, a: Aquifer)
    requires t.hub.cfg.queueDepth > 0 && t.hub.cfg.aquiferBudget.Some? && MeterOk(t.hub, t.journal, a)
    ensures MeterOk(Step(t, e).hub, Step(t, e).journal, a)
  {
    BeginKeepsMeter(t, e, a);
    ActAllPays(Begin(t, e), PlanOf(t.hub, e).effects, a);
    PerformKeepsRegistry(Begin(t, e).hub, PlanOf(t.hub, e).effects);
  }

  // ---- Every run ----

  /** What a run queued on behalf of one aquifer, step by step. */
  function QueuedFor(cfg: Config, events: seq<Event>, a: Aquifer, coin: Coin): int
    requires cfg.queueDepth > 0
  {
    if events == [] then 0
    else
      var front, last := events[..|events| - 1], events[|events| - 1];
      var t := After(cfg, front);
      QueuedFor(cfg, front, a, coin) + if Owner(t.hub, last) == Some(a) then Added(t, last, Anyone, coin) else 0
  }

  lemma {:induction false} RunsKeepShare(cfg: Config, events: seq<Event>, a: Aquifer, coin: Coin)
    requires cfg.queueDepth > 0 && cfg.aquiferBudget.Some?
    ensures var t := After(cfg, events);
      MeterOk(t.hub, t.journal, a) && 0 <= QueuedFor(cfg, events, a, coin) <= Paid(t.journal, a, coin)
  {
    if events == [] {
    } else {
      var front, last := events[..|events| - 1], events[|events| - 1];
      var t := After(cfg, front);
      RunsKeepShare(cfg, front, a, coin);
      StepKeepsMeter(t, last, a);
      StepPays(t, last, a, coin);
      StepIsPaid(t, last, Anyone, coin);
    }
  }

  /** The burst, plus the sustained rate over the time the aquifer was seen. */
  function Allowance(budget: Budget, journal: seq<Entry>, a: Aquifer, coin: Coin): int {
    match Since(journal, a)
    case None => 0
    case Some(start) =>
      if coin.Bytes? then budget.byteBurst + budget.bytesPerSec * (Until(journal, a) - start) / 1000
      else budget.frameBurst + budget.framesPerSec * (Until(journal, a) - start) / 1000
  }

  lemma ShareBound(t: Traced, a: Aquifer, coin: Coin)
    requires t.hub.cfg.aquiferBudget.Some? && MeterOk(t.hub, t.journal, a)
    ensures Paid(t.journal, a, coin) <= Allowance(t.hub.cfg.aquiferBudget.value, t.journal, a, coin)
  {
    var budget := t.hub.cfg.aquiferBudget.value;
    if Since(t.journal, a).Some? {
      var m, start := t.hub.aquiferMeters[a], Since(t.journal, a).value;
      if coin.Bytes? {
        SolventBound(m.bytes, budget.bytesPerSec, budget.byteBurst, start,
                     Paid(t.journal, a, Bytes), Until(t.journal, a));
      } else {
        SolventBound(m.frames, budget.framesPerSec, budget.frameBurst, start,
                     Paid(t.journal, a, Frames), Until(t.journal, a));
      }
    }
  }

  /** The packets ever queued for one aquifer, directly or through the mesh, in
      payload bytes and in number, obey its budget: in every run, with the
      roster replaced as often as it may be. */
  lemma AquiferRateBound(cfg: Config, events: seq<Event>, a: Aquifer, coin: Coin)
    requires cfg.queueDepth > 0 && cfg.aquiferBudget.Some?
    ensures QueuedFor(cfg, events, a, coin) <= Allowance(cfg.aquiferBudget.value, After(cfg, events).journal, a, coin)
  {
    RunsKeepShare(cfg, events, a, coin);
    ShareBound(After(cfg, events), a, coin);
  }

  // ---- The attribution ----

  /** Nothing escapes the account: a step without an owner queues no packet. */
  lemma EveryPacketHasAnOwner(cfg: Config, events: seq<Event>, e: Event, coin: Coin)
    requires cfg.queueDepth > 0 && cfg.aquiferBudget.Some?
    ensures Owner(After(cfg, events).hub, e).None? ==> Added(After(cfg, events), e, Anyone, coin) == 0
  {
    StepIsPaid(After(cfg, events), e, Anyone, coin);
  }

  lemma NarrowWeighs(op: QueueOp, w: Whose, coin: Coin)
    ensures Weight(op, w, coin) <= Weight(op, Anyone, coin)
  {
  }

  lemma {:induction false} NarrowActs(t: Traced, effects: seq<Effect>, w: Whose, coin: Coin)
    requires t.hub.cfg.queueDepth > 0
    ensures Packets(ActAll(t, effects).journal, w, coin) - Packets(t.journal, w, coin)
         <= Packets(ActAll(t, effects).journal, Anyone, coin) - Packets(t.journal, Anyone, coin)
  {
    if effects == [] {
    } else {
      var front, last := effects[..|effects| - 1], effects[|effects| - 1];
      var b := ActAll(t, front);
      NarrowActs(t, front, w, coin);
      if last.Queue? && last.to in b.hub.conns {
        assert (b.journal + [Did(last.to, last.op)])[..|b.journal|] == b.journal;
        NarrowWeighs(last.op, w, coin);
      }
    }
  }

  lemma NarrowSteps(t: Traced, e: Event, w: Whose, coin: Coin)
    requires t.hub.cfg.queueDepth > 0
    ensures Added(t, e, w, coin) <= Added(t, e, Anyone, coin)
  {
    NotesQueueNothing(t.hub, e);
    NothingQueued(t.journal, Notes(t.hub, e), w, coin);
    NothingQueued(t.journal, Notes(t.hub, e), Anyone, coin);
    NarrowActs(Begin(t, e), PlanOf(t.hub, e).effects, w, coin);
  }

  lemma SourceIsOwner(h: Hub, e: Event, roster: Roster, a: Aquifer)
    requires Agreed(h, Some(roster)) && Under(e, Some(roster))
    ensures Sender(h, e).Some? && Counts(Of(roster, a), Sender(h, e).value) ==> Owner(h, e) == Some(a)
  {
  }

  lemma StepBySource(t: Traced, e: Event, roster: Roster, a: Aquifer, coin: Coin)
    requires t.hub.cfg.queueDepth > 0 && t.hub.cfg.aquiferBudget.Some?
    requires Agreed(t.hub, Some(roster)) && Under(e, Some(roster))
    ensures Added(t, e, Of(roster, a), coin) <= if Owner(t.hub, e) == Some(a) then Added(t, e, Anyone, coin) else 0
  {
    SourceIsOwner(t.hub, e, roster, a);
    StepIsPaid(t, e, Of(roster, a), coin);
    NarrowSteps(t, e, Of(roster, a), coin);
  }

  /** While one roster holds and admissions agree with it, the owner of a packet
      is the aquifer of its source. */
  lemma {:induction false} BySource(cfg: Config, events: seq<Event>, roster: Roster, a: Aquifer, coin: Coin)
    requires cfg.queueDepth > 0 && cfg.aquiferBudget.Some? && Feasible(cfg, events)
    requires forall i :: 0 <= i < |events| ==> Under(events[i], Some(roster))
    ensures Packets(After(cfg, events).journal, Of(roster, a), coin) <= QueuedFor(cfg, events, a, coin)
  {
    if events == [] {
    } else {
      var front, last := events[..|events| - 1], events[|events| - 1];
      BySource(cfg, front, roster, a, coin);
      RunsFit(cfg, front, Some(roster));
      StepBySource(After(cfg, front), last, roster, a, coin);
    }
  }
}

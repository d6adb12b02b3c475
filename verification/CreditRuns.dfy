/** The credit protocol over whole runs: packet threads, request workers and
    the shutdown path interleave at every lock, and a journal keeps what was
    installed, admitted and handed back. */
module CreditRuns {
  import opened Common
  import opened Frames
  import opened Credits

  const PERMITS: nat := 32

  datatype Entry =
    | Installed(grant: Grant)
    | Admitted(key: MappingKey, bytes: nat, against: Option<nat>)  // no grant while uncapped
    | Handed(s: Surrender)
    | Gathered

  datatype Phase = Requesting | Settled | NoPermit

  datatype Worker = Worker(mapping: UsageMapping, phase: Phase)

  datatype Run = Run(
    ledger: Ledger,
    asking: multiset<UsageMapping>,  // threads between their reservation and their request
    workers: seq<Worker>,
    cancelled: bool,                 // the worker task takes no more requests
    stranded: set<MappingKey>,       // history: requests whose worker never got to finish
    journal: seq<Entry>)

  datatype Event =
    | Reserves(m: UsageMapping, bytes: nat, now: nat)
    | Asks(m: UsageMapping)
    | Receives
    | InstallsUncapped(i: nat, validUntil: nat)
    | InstallsGrant(i: nat, id: nat, bytes: nat, validUntil: nat, now: nat)
    | Finishes(i: nat)
    | Cancels                        // shutdown begins
    | Aborts(i: nat)                 // the shutdown's deadline passed with the worker still busy
    | TakesSurrender
    | Closes
    | Gathers(order: seq<MappingKey>)
    | Departs                        // the worker task ends and drops its receivers

  // ---- What a journal says ----

  datatype Measure =
    | GrantedTo(id: nat) | SpentOn(id: nat) | HandedTo(id: nat)
    | InstalledFor(key: MappingKey) | SpentFor(key: MappingKey)

  function Weight(e: Entry, w: Measure): nat {
    match w
    case GrantedTo(x) => if e.Installed? && e.grant.id == x then e.grant.remaining else 0
    case SpentOn(x) => if e.Admitted? && e.against == Some(x) then e.bytes else 0
    case HandedTo(x) => if e.Handed? && e.s.id == x then 1 else 0
    case InstalledFor(k) => if e.Installed? && e.grant.key == k then e.grant.remaining else 0
    case SpentFor(k) => if e.Admitted? && e.against.Some? && e.key == k then e.bytes else 0
  }

  function Tally(j: seq<Entry>, w: Measure): nat {
    if j == [] then 0 else Tally(j[..|j| - 1], w) + Weight(j[|j| - 1], w)
  }

  lemma TallyGrows(j: seq<Entry>, e: Entry, w: Measure)
    ensures Tally(j + [e], w) == Tally(j, w) + Weight(e, w)
  {
    assert (j + [e])[..|j|] == j;
  }

  function HomeIn(e: Entry, x: nat): Option<MappingKey> {
    if e.Installed? && e.grant.id == x then Some(e.grant.key) else None
  }

  /** The mapping a grant was installed for, if it ever was. */
  function Home(j: seq<Entry>, x: nat): Option<MappingKey> {
    if j == [] then None
    else if HomeIn(j[|j| - 1], x).Some? then HomeIn(j[|j| - 1], x)
    else Home(j[..|j| - 1], x)
  }

  function HandedEntries(ss: seq<Surrender>): seq<Entry> {
    if ss == [] then [] else HandedEntries(ss[..|ss| - 1]) + [Handed(ss[|ss| - 1])]
  }

  // ---- Steps ----

  function Start(): Run { Run(Ledger(map[], {}, false, [], [], true), multiset{}, [], false, {}, []) }

  function Holding(workers: seq<Worker>): nat {
    if workers == [] then 0
    else (if workers[0].phase.NoPermit? then 0 else 1) + Holding(workers[1..])
  }

  function Without<T>(s: seq<T>, i: nat): seq<T>
    requires i < |s|
  {
    s[..i] + s[i + 1..]
  }

  ghost predicate Enabled(r: Run, e: Event, requested: nat) {
    match e
    case Reserves(_, _, _) => true
    case Asks(m) => m in r.asking
    case Receives => r.ledger.receiving && !r.cancelled && r.ledger.requests != []
    case InstallsUncapped(i, _) => i < |r.workers| && r.workers[i].phase.Requesting?
    case InstallsGrant(i, id, bytes, _, _) =>
      && i < |r.workers| && r.workers[i].phase.Requesting?
      && 0 < bytes <= requested
      && Home(r.journal, id).None?  // the control plane names every grant anew
    case Finishes(i) => i < |r.workers|
    case Cancels => true
    case Aborts(i) => r.cancelled && i < |r.workers|
    case TakesSurrender => r.ledger.receiving && r.ledger.surrenders != []
    case Closes => true
    case Gathers(order) => r.ledger.closing && Lists(order, r.ledger.states.Keys)
    case Departs => r.ledger.receiving && r.cancelled
  }

  function ReserveStep(r: Run, m: UsageMapping, bytes: nat, now: nat, requested: nat): Run {
    if bytes == 0 then r
    else
      var v := Reserve(r.ledger, KeyOf(m), bytes, now, requested);
      r.(ledger := v.ledger,
         asking := if v.ask then r.asking + multiset{m} else r.asking,
         journal := r.journal + (if v.admitted then [Admitted(KeyOf(m), bytes, v.against)] else [])
                    + HandedEntries(v.ledger.surrenders[|r.ledger.surrenders|..]))
  }

  function Keys(ms: seq<UsageMapping>): set<MappingKey> { set m | m in ms :: KeyOf(m) }

  function Step(r: Run, e: Event, requested: nat): Run
    requires Enabled(r, e, requested)
  {
    match e
    case Reserves(m, bytes, now) => ReserveStep(r, m, bytes, now, requested)
    case Asks(m) => r.(ledger := Enqueue(r.ledger, m), asking := r.asking - multiset{m})
    case Receives =>
      var phase := if Holding(r.workers) < PERMITS then Requesting else NoPermit;
      r.(ledger := r.ledger.(requests := r.ledger.requests[1..]),
         workers := r.workers + [Worker(r.ledger.requests[0], phase)])
    case InstallsUncapped(i, validUntil) =>
      r.(ledger := InstallUncapped(r.ledger, KeyOf(r.workers[i].mapping), validUntil),
         workers := r.workers[i := r.workers[i].(phase := Settled)])
    case InstallsGrant(i, id, bytes, validUntil, now) =>
      var g := FreshGrant(id, KeyOf(r.workers[i].mapping), bytes, validUntil);
      r.(ledger := InstallGrant(r.ledger, g, now),
         workers := r.workers[i := r.workers[i].(phase := Settled)],
         journal := r.journal + (if validUntil > now then [Installed(g)] else []))
    case Finishes(i) =>
      r.(ledger := Finish(r.ledger, KeyOf(r.workers[i].mapping)), workers := Without(r.workers, i))
    case Cancels => r.(cancelled := true)
    case Aborts(i) =>
      r.(workers := Without(r.workers, i), stranded := r.stranded + {KeyOf(r.workers[i].mapping)})
    case TakesSurrender => r.(ledger := r.ledger.(surrenders := r.ledger.surrenders[1..]))
    case Closes => r.(ledger := r.ledger.(closing := true))
    case Gathers(order) =>
      r.(ledger := Snapshot(r.ledger),
         journal := r.journal + HandedEntries(Gather(r.ledger.states, order)) + [Gathered])
    case Departs =>
      r.(ledger := r.ledger.(receiving := false, requests := [], surrenders := []),
         stranded := r.stranded + Keys(r.ledger.requests))
  }

  /** The state after a run; an event that is not enabled does not happen. */
  ghost function After(events: seq<Event>, requested: nat): Run {
    if events == [] then Start()
    else
      var r := After(events[..|events| - 1], requested);
      var e := events[|events| - 1];
      if Enabled(r, e, requested) then Step(r, e, requested) else r
  }
}

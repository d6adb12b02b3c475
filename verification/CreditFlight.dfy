/** At most one request per mapping is ever under way. */
module CreditFlight {
  import opened Frames
  import opened Credits
  import opened CreditRuns

  // ---- Counting requests for one mapping ----

  function Waiting(requests: seq<UsageMapping>, k: MappingKey): nat {
    if requests == [] then 0
    else (if KeyOf(requests[0]) == k then 1 else 0) + Waiting(requests[1..], k)
  }

  function Working(workers: seq<Worker>, k: MappingKey): nat {
    if workers == [] then 0
    else (if KeyOf(workers[0].mapping) == k then 1 else 0) + Working(workers[1..], k)
  }

  /** Requests for a mapping that are in the channel or on a worker. */
  function Flying(r: Run, k: MappingKey): nat { Waiting(r.ledger.requests, k) + Working(r.workers, k) }

  lemma {:induction false} WaitingGrows(requests: seq<UsageMapping>, m: UsageMapping, k: MappingKey)
    ensures Waiting(requests + [m], k) == Waiting(requests, k) + (if KeyOf(m) == k then 1 else 0)
  {
    if requests == [] {
      assert requests + [m] == [m] && [m][1..] == [];
    } else {
      WaitingGrows(requests[1..], m, k);
      assert (requests + [m])[1..] == requests[1..] + [m];
    }
  }

  lemma {:induction false} WorkingGrows(workers: seq<Worker>, w: Worker, k: MappingKey)
    ensures Working(workers + [w], k) == Working(workers, k) + (if KeyOf(w.mapping) == k then 1 else 0)
    ensures Holding(workers + [w]) == Holding(workers) + (if w.phase.NoPermit? then 0 else 1)
  {
    if workers == [] {
      assert workers + [w] == [w] && [w][1..] == [];
    } else {
      WorkingGrows(workers[1..], w, k);
      assert (workers + [w])[1..] == workers[1..] + [w];
    }
  }

  lemma {:induction false} WorkingShrinks(workers: seq<Worker>, i: nat, k: MappingKey)
    requires i < |workers|
    ensures Working(Without(workers, i), k) + (if KeyOf(workers[i].mapping) == k then 1 else 0) == Working(workers, k)
    ensures Holding(Without(workers, i)) <= Holding(workers)
  {
    if i == 0 {
      assert Without(workers, i) == workers[1..];
    } else {
      WorkingShrinks(workers[1..], i - 1, k);
      assert Without(workers, i)[1..] == Without(workers[1..], i - 1);
    }
  }

  lemma {:induction false} WorkingSettles(workers: seq<Worker>, i: nat, k: MappingKey)
    requires i < |workers| && workers[i].phase.Requesting?
    ensures var after := workers[i := workers[i].(phase := Settled)];
      Working(after, k) == Working(workers, k) && Holding(after) == Holding(workers)
  {
    var after := workers[i := workers[i].(phase := Settled)];
    if i == 0 {
      assert after[1..] == workers[1..];
    } else {
      WorkingSettles(workers[1..], i - 1, k);
      assert after[1..] == workers[1..][i - 1 := after[i]];
    }
  }

  lemma {:induction false} WaitingInKeys(requests: seq<UsageMapping>, k: MappingKey)
    ensures Waiting(requests, k) > 0 <==> k in Keys(requests)
  {
    if requests == [] {
    } else {
      WaitingInKeys(requests[1..], k);
      assert forall m :: m in requests <==> m == requests[0] || m in requests[1..];
    }
  }

  // ---- The invariant ----

  /** For one mapping: never two requests, and it is pending exactly while a
      request is under way or after one was stranded. */
  predicate OneFlight(r: Run, k: MappingKey) {
    && Flying(r, k) <= 1
    && (k in r.ledger.pending <==> Flying(r, k) == 1 || k in r.stranded)
    && !(Flying(r, k) == 1 && k in r.stranded)
  }

  predicate Bounded(r: Run) { |r.ledger.pending| <= MAX_OUTSTANDING_MAPPINGS && Holding(r.workers) <= PERMITS }

  lemma AskKeeps(r: Run, m: UsageMapping, k: MappingKey)
    requires OneFlight(r, k) && Bounded(r)
    ensures var s := r.(ledger := Enqueue(r.ledger, m)); OneFlight(s, k) && Bounded(s)
  {
    WaitingGrows(r.ledger.requests, m, k);
  }

  lemma ReceiveKeeps(r: Run, phase: Phase, k: MappingKey)
    requires r.ledger.requests != [] && OneFlight(r, k) && Bounded(r)
    requires phase == if Holding(r.workers) < PERMITS then Requesting else NoPermit
    ensures var s := r.(ledger := r.ledger.(requests := r.ledger.requests[1..]),
                        workers := r.workers + [Worker(r.ledger.requests[0], phase)]);
      OneFlight(s, k) && Bounded(s)
  {
    WorkingGrows(r.workers, Worker(r.ledger.requests[0], phase), k);
  }

  lemma InstallLeavesFlight(r: Run, states: map<MappingKey, Allowance>, i: nat, j: seq<Entry>, k: MappingKey)
    requires i < |r.workers| && r.workers[i].phase.Requesting? && OneFlight(r, k) && Bounded(r)
    ensures var s := r.(ledger := r.ledger.(states := states),
                        workers := r.workers[i := r.workers[i].(phase := Settled)], journal := j);
      OneFlight(s, k) && Bounded(s)
  {
    WorkingSettles(r.workers, i, k);
  }

  lemma DepartKeeps(r: Run, k: MappingKey)
    requires OneFlight(r, k) && Bounded(r)
    ensures var s := r.(ledger := r.ledger.(receiving := false, requests := [], surrenders := []),
                        stranded := r.stranded + Keys(r.ledger.requests));
      OneFlight(s, k) && Bounded(s)
  {
    WaitingInKeys(r.ledger.requests, k);
  }

  lemma WorkerStepKeeps(r: Run, e: Event, requested: nat, k: MappingKey)
    requires Enabled(r, e, requested) && OneFlight(r, k) && Bounded(r)
    requires e.InstallsUncapped? || e.InstallsGrant? || e.Finishes? || e.Aborts?
    ensures OneFlight(Step(r, e, requested), k) && Bounded(Step(r, e, requested))
  {
    if e.Finishes? {
      FinishKeeps(r, e.i, k);
    } else if e.Aborts? {
      WorkingShrinks(r.workers, e.i, k);
    } else {
      InstallLeavesFlight(r, Step(r, e, requested).ledger.states, e.i, Step(r, e, requested).journal, k);
    }
  }

  lemma StepKeepsFlight(r: Run, e: Event, requested: nat, k: MappingKey)
    requires Enabled(r, e, requested) && OneFlight(r, k) && Bounded(r)
    ensures OneFlight(Step(r, e, requested), k) && Bounded(Step(r, e, requested))
  {
    match e
    case Reserves(m, bytes, now) => ReserveLeavesFlight(r, m, bytes, now, requested);
    case Asks(m) => AskKeeps(r, m, k);
    case Receives => ReceiveKeeps(r, if Holding(r.workers) < PERMITS then Requesting else NoPermit, k);
    case Departs => DepartKeeps(r, k);
    case TakesSurrender =>
    case Cancels =>
    case Closes =>
    case Gathers(_) =>
    case _ => WorkerStepKeeps(r, e, requested, k);
  }

  lemma ReserveLeavesFlight(r: Run, m: UsageMapping, bytes: nat, now: nat, requested: nat)
    ensures var s := ReserveStep(r, m, bytes, now, requested);
      s.ledger.pending == r.ledger.pending && s.ledger.requests == r.ledger.requests
      && s.workers == r.workers && s.stranded == r.stranded
  {
  }

  lemma FinishKeeps(r: Run, i: nat, k: MappingKey)
    requires i < |r.workers| && OneFlight(r, k) && Bounded(r)
    ensures var s := r.(ledger := Finish(r.ledger, KeyOf(r.workers[i].mapping)), workers := Without(r.workers, i));
      OneFlight(s, k) && Bounded(s)
  {
    WorkingShrinks(r.workers, i, k);
  }

  lemma {:induction false} RunsKeepFlight(events: seq<Event>, requested: nat, k: MappingKey)
    ensures OneFlight(After(events, requested), k) && Bounded(After(events, requested))
  {
    if events == [] {
    } else {
      var r, e := After(events[..|events| - 1], requested), events[|events| - 1];
      RunsKeepFlight(events[..|events| - 1], requested, k);
      if Enabled(r, e, requested) {
        StepKeepsFlight(r, e, requested, k);
      }
    }
  }

  /** Single flight: in every reachable state, no mapping has two requests in
      the channel and on workers together, those that have one are pending, at
      most 4096 are, and at most 32 workers hold a permit. */
  lemma SingleFlight(events: seq<Event>, requested: nat, k: MappingKey)
    ensures var r := After(events, requested);
      && Flying(r, k) <= 1
      && (Flying(r, k) == 1 ==> k in r.ledger.pending)
      && |r.ledger.pending| <= MAX_OUTSTANDING_MAPPINGS
      && Holding(r.workers) <= PERMITS
  {
    RunsKeepFlight(events, requested, k);
  }

  /** A mapping is pending exactly as long as its request is under way, unless
      a request of its own was stranded: its worker aborted, or the worker task
      gone with the request still in the channel. What happens to the requests
      of other mappings makes no difference. */
  lemma PendingIsExact(events: seq<Event>, requested: nat, k: MappingKey)
    ensures var r := After(events, requested);
      (k in r.ledger.pending <==> Flying(r, k) == 1) <==> k !in r.stranded
  {
    RunsKeepFlight(events, requested, k);
  }

  /** And then for good: in every continuation a stranded mapping stays
      pending, so that no request for it is ever made again. */
  lemma {:induction false} StrandedForGood(events: seq<Event>, later: seq<Event>, requested: nat, k: MappingKey)
    requires k in After(events, requested).stranded
    ensures var r := After(events + later, requested);
      k in r.stranded && k in r.ledger.pending && Flying(r, k) == 0
  {
    RunsKeepFlight(events + later, requested, k);
    if later == [] {
      assert events + later == events;
    } else {
      StrandedForGood(events, later[..|later| - 1], requested, k);
      assert (events + later)[..|events + later| - 1] == events + later[..|later| - 1];
    }
  }

  lemma AfterThen(events: seq<Event>, e: Event, requested: nat)
    requires Enabled(After(events, requested), e, requested)
    ensures After(events + [e], requested) == Step(After(events, requested), e, requested)
  {
    assert (events + [e])[..|events|] == events;
  }

  /** An abort does it: after any run that was cancelled, the aborted worker's
      mapping is pending and nothing is under way for it. */
  lemma AbortStrands(events: seq<Event>, requested: nat, i: nat)
    requires After(events, requested).cancelled && i < |After(events, requested).workers|
    ensures var k := KeyOf(After(events, requested).workers[i].mapping);
      var r := After(events + [Aborts(i)], requested);
      k in r.stranded && k in r.ledger.pending && Flying(r, k) == 0
  {
    var k := KeyOf(After(events, requested).workers[i].mapping);
    AfterThen(events, Aborts(i), requested);
    RunsKeepFlight(events + [Aborts(i)], requested, k);
  }

  /** So does the end of the worker task, for every request that is still in
      the channel. */
  lemma DepartStrands(events: seq<Event>, requested: nat, k: MappingKey)
    requires var r := After(events, requested); r.cancelled && r.ledger.receiving && k in Keys(r.ledger.requests)
    ensures var r := After(events + [Departs], requested);
      k in r.stranded && k in r.ledger.pending && Flying(r, k) == 0
  {
    AfterThen(events, Departs, requested);
    RunsKeepFlight(events + [Departs], requested, k);
  }

  lemma FirstReservation(m: UsageMapping, bytes: nat, now: nat, requested: nat)
    requires bytes > 0
    ensures var r := ReserveStep(Start(), m, bytes, now, requested);
      && r.ledger.pending == {} && r.ledger.requests == [] && r.ledger.receiving
      && m in r.asking && r.workers == [] && !r.cancelled
  {
    var v := Reserve(Start().ledger, KeyOf(m), bytes, now, requested);
    assert v.ask && !v.admitted && v.ledger == Start().ledger.(states := map[] - {KeyOf(m)});
  }

  /** A worker's own exit clears its mapping and no other: after any run nothing
      is under way for it, and every other mapping is as it was. */
  lemma ExitClearsOwn(events: seq<Event>, requested: nat, i: nat, k: MappingKey)
    requires i < |After(events, requested).workers|
    ensures var r, s := After(events, requested), After(events + [Finishes(i)], requested);
      var own := KeyOf(r.workers[i].mapping);
      && own in r.ledger.pending && s.ledger.pending == r.ledger.pending - {own}
      && Flying(s, own) == 0 && (k != own ==> Flying(s, k) == Flying(r, k))
  {
    var r := After(events, requested);
    var own := KeyOf(r.workers[i].mapping);
    AfterThen(events, Finishes(i), requested);
    RunsKeepFlight(events, requested, own);
    WorkingShrinks(r.workers, i, own);
    WorkingShrinks(r.workers, i, k);
  }

  /** A run up to the first packet's request, for any mapping. */
  function Requested(m: UsageMapping, bytes: nat, now: nat): seq<Event> {
    var none: seq<Event> := [];
    none + [Reserves(m, bytes, now)] + [Asks(m)]
  }

  lemma FirstRequest(m: UsageMapping, bytes: nat, now: nat, requested: nat)
    requires bytes > 0
    ensures var r := After(Requested(m, bytes, now), requested);
      r.ledger.requests == [m] && r.ledger.receiving && !r.cancelled && r.workers == []
  {
    var none: seq<Event> := [];
    AfterThen(none, Reserves(m, bytes, now), requested);
    FirstReservation(m, bytes, now, requested);
    AfterThen(none + [Reserves(m, bytes, now)], Asks(m), requested);
  }

  /** The likelier of two short runs: shutdown finds the request still in the
      channel, and the worker task goes away with it. */
  lemma AbandonedRequest(m: UsageMapping, bytes: nat, now: nat, requested: nat)
    requires bytes > 0
    ensures var r := After(Requested(m, bytes, now) + [Cancels] + [Departs], requested);
      KeyOf(m) in r.stranded && KeyOf(m) in r.ledger.pending && Flying(r, KeyOf(m)) == 0
  {
    var events := Requested(m, bytes, now);
    FirstRequest(m, bytes, now, requested);
    AfterThen(events, Cancels, requested);
    assert m in After(events + [Cancels], requested).ledger.requests;
    DepartStrands(events + [Cancels], requested, KeyOf(m));
  }

  /** The other: a worker has the request when shutdown begins and is still
      busy at the deadline.  A worker leaves by itself at its own, shorter
      timeout, so this takes one that does not get to run. */
  lemma AbortedRequest(m: UsageMapping, bytes: nat, now: nat, requested: nat)
    requires bytes > 0
    ensures var r := After(Requested(m, bytes, now) + [Receives] + [Cancels] + [Aborts(0)], requested);
      KeyOf(m) in r.stranded && KeyOf(m) in r.ledger.pending && Flying(r, KeyOf(m)) == 0
  {
    var events := Requested(m, bytes, now);
    FirstRequest(m, bytes, now, requested);
    AfterThen(events, Receives, requested);
    AfterThen(events + [Receives], Cancels, requested);
    AbortStrands(events + [Receives] + [Cancels], requested, 0);
  }
}

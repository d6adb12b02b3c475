/** Which mappings the relay can come to bill, and what that leaves for the
    control plane to refuse. */
module UsageRoster {
  import opened Common
  import opened Frames
  import opened Utf8
  import opened Usage
  import opened UsageRuns
  import opened UsageCodec
  import opened ControlPlane
  import opened UsageSealing
  import opened UsageBilling

  // ---- Reading a roster row ----

  predicate HexDigit(b: Byte) { 0x30 <= b <= 0x39 || 0x61 <= b <= 0x66 }

  predicate ControlFree(t: seq<Scalar>) { forall i :: 0 <= i < |t| ==> !Control(t[i]) }

  /** `from_row`: the deployment and the version are checked, the aquifer is
      taken as it stands.  Strings are UTF-8, so a deployment that does not
      decode does not occur. */
  function FromRow(deployment: Option<seq<Byte>>, version: Option<seq<Byte>>, aquifer: seq<Byte>)
    : Option<UsageMapping>
  {
    if deployment.None? || version.None? || Decode(deployment.value).None? then None
    else
      var text := Decode(deployment.value).value;
      if || deployment.value == [] || |deployment.value| > 128 || Trim(text) != text || !ControlFree(text)
         || |version.value| != 64 || !(forall i :: 0 <= i < |version.value| ==> HexDigit(version.value[i]))
      then None
      else Some(UsageMapping(deployment.value, version.value, aquifer))
  }

  /** A mapping that some row gives; the row's aquifer is a string too. */
  predicate Rostered(m: UsageMapping) {
    Decode(m.aquifer).Some? && FromRow(Some(m.deployment), Some(m.version), m.aquifer) == Some(m)
  }

  lemma HexIsClean(v: seq<Byte>)
    requires forall i :: 0 <= i < |v| ==> HexDigit(v[i])
    ensures CleanText(v)
  {
    AsciiDecodes(v);
  }

  /** Of a rostered mapping only the aquifer can be text that the control plane
      does not accept. */
  lemma OnlyAquifersVary(m: UsageMapping)
    requires Rostered(m)
    ensures CleanMapping(m) <==> CleanText(m.aquifer)
  {
    TrimmedIs(Decode(m.deployment).value);
    HexIsClean(m.version);
  }

  // ---- Only reported mappings are stored ----

  type Admits = UsageMapping -> bool

  predicate KeysOk(m: Minute, ok: Admits) { forall key :: key in m.totals ==> ok(key) }

  predicate BooksOk(b: Books, ok: Admits) {
    KeysOk(b.window, ok) && forall i :: 0 <= i < |b.spool| ==> KeysOk(b.spool[i], ok)
  }

  predicate ObservedOk(o: Observation, ok: Admits) { o.delivery.mapping.Some? ==> ok(o.delivery.mapping.value) }

  predicate PipeOk(p: Pipe, ok: Admits) {
    && BooksOk(p.books, ok)
    && (forall i :: 0 <= i < |p.queue| ==> ObservedOk(p.queue[i], ok))
    && (p.phase.Holding? ==> ObservedOk(p.phase.o, ok))
  }

  lemma SealOk(b: Books, next: Minute, outcome: Outcome, ok: Admits)
    requires BooksOk(b, ok) && next.totals == map[]
    ensures BooksOk(Seal(b, next, outcome), ok)
  {
  }

  lemma {:induction false} CatchupOk(b: Books, target: nat, loss: bool, outcomes: seq<Outcome>, ok: Admits)
    requires Sound(b) && BooksOk(b, ok)
    ensures BooksOk(Catchup(b, target, loss, outcomes), ok)
    decreases if target > b.window.startUs then target - b.window.startUs else 0
  {
    if b.window.startUs < target {
      var marked := b.(window := MarkIf(b.window, loss || b.storageLost));
      if Open(b.window.endUs).Some? {
        SealOk(marked, Open(b.window.endUs).value, First(outcomes), ok);
        CatchupOk(Seal(marked, Open(b.window.endUs).value, First(outcomes)), target, loss, Rest(outcomes), ok);
      }
    }
  }

  lemma AdvanceOk(b: Books, target: nat, loss: bool, outcomes: seq<Outcome>, ok: Admits)
    requires Sound(b) && BooksOk(b, ok)
    ensures BooksOk(Advance(b, target, loss, outcomes), ok)
  {
    if !Jumps(b.window, target) {
      CatchupOk(b, target, loss, outcomes, ok);
    }
  }

  lemma AbsorbOk(b: Books, lost: bool, o: Observation, ok: Admits)
    requires BooksOk(b, ok) && ObservedOk(o, ok)
    ensures BooksOk(Absorb(b, lost, o), ok)
  {
  }

  lemma CloseOk(b: Books, lost: bool, outcome: Outcome, ok: Admits)
    requires BooksOk(b, ok)
    ensures BooksOk(UsageRuns.Close(b, lost, outcome), ok)
  {
  }

  lemma StepKeepsOk(p: Pipe, e: Event, ok: Admits)
    requires Enabled(p, e) && Sound(p.books) && PipeOk(p, ok) && (e.Reports? ==> ObservedOk(e.o, ok))
    ensures PipeOk(Step(p, e), ok)
  {
    match e
    case Reports(_) =>
    case Flags =>
    case Ticks(nowUs, outcomes) => AdvanceOk(p.books, Bucket(nowUs), p.lost, outcomes, ok);
    case Receives(outcomes) => AdvanceOk(p.books, Bucket(p.queue[0].completedUs), p.lost, outcomes, ok);
    case Records => AbsorbOk(p.books, p.lost, p.phase.o, ok);
    case Finishes(nowUs, outcomes, last) =>
      AdvanceOk(p.books, Bucket(nowUs), p.lost, outcomes, ok);
      CloseOk(Advance(p.books, Bucket(nowUs), p.lost, outcomes), p.lost, last, ok);
  }

  /** A run all of whose reports are attributed to admitted mappings. */
  predicate Attributed(events: seq<Event>, ok: Admits) {
    forall i :: 0 <= i < |events| && events[i].Reports? ==> ObservedOk(events[i].o, ok)
  }

  lemma {:induction false} RunsKeepOk(nowUs: nat, unclean: bool, events: seq<Event>, ok: Admits)
    requires Start(nowUs, unclean).Some? && Attributed(events, ok)
    ensures PipeOk(After(Start(nowUs, unclean).value, events), ok)
  {
    if events == [] {
    } else {
      var p, e := After(Start(nowUs, unclean).value, events[..|events| - 1]), events[|events| - 1];
      RunsKeepOk(nowUs, unclean, events[..|events| - 1], ok);
      if Enabled(p, e) {
        StepKeepsOk(p, e, ok);
      }
    }
  }

  // ---- What is stored, and what of it is accepted ----

  /** In every run whose mappings come from roster rows, the control plane
      accepts a stored minute if and only if every aquifer in it is clean text,
      and then reads it as the relay counted it. */
  lemma AcceptedIffAquifersClean(nowUs: nat, unclean: bool, events: seq<Event>, i: nat)
    requires Start(nowUs, unclean).Some? && Attributed(events, Rostered)
    requires i < |After(Start(nowUs, unclean).value, events).books.spool|
    ensures var m := After(Start(nowUs, unclean).value, events).books.spool[i];
      var r := Accepted(Payload(Sealed(m)));
      && (r.Some? <==> forall key :: key in m.totals ==> CleanText(key.aquifer))
      && (r.Some? ==> MinuteOf(r.value) == m)
  {
    RunsKeep(nowUs, unclean, events, None);
    RunsKeepOk(nowUs, unclean, events, Rostered);
    var m := After(Start(nowUs, unclean).value, events).books.spool[i];
    ControlPlaneReads(m);
    forall key | key in m.totals ensures CleanMapping(key) <==> CleanText(key.aquifer) {
      OnlyAquifersVary(key);
    }
  }

  predicate TidyRow(m: UsageMapping) { Rostered(m) && CleanText(m.aquifer) }

  /** With tidy aquifers throughout, a run that ends in a seal and leaves no gap
      is billed to the byte. */
  lemma TidyRunsAreBilled(nowUs: nat, unclean: bool, events: seq<Event>, k: Key)
    requires Start(nowUs, unclean).Some? && Attributed(events, TidyRow)
    ensures var p := After(Start(nowUs, unclean).value, events);
      p.phase == Finished(true) && !HasGap(p.books.spool) ==> Billed(p.books.spool, k) == Reported(p.reported, k)
  {
    var p := After(Start(nowUs, unclean).value, events);
    BillingIsSound(nowUs, unclean, events, k);
    RunsKeepOk(nowUs, unclean, events, TidyRow);
    forall i | 0 <= i < |p.books.spool| ensures Clean(p.books.spool[i]) {
      forall key | key in p.books.spool[i].totals ensures CleanMapping(key) {
        OnlyAquifersVary(key);
      }
    }
  }

  // ---- The failing family ----

  /** One delivery, reported, received, recorded and sealed in its minute. */
  function OneDelivery(m: UsageMapping, bytes: nat, nowUs: nat): seq<Event> {
    var none: seq<Event> := [];
    none + [Reports(Observation(nowUs, DeliveryUsage(Some(m), bytes)))] + [Receives([])] + [Records]
    + [Finishes(nowUs, [], Stored)]
  }

  lemma AfterThen(start: Pipe, events: seq<Event>, e: Event)
    requires Sound(start.books) && Enabled(After(start, events), e)
    ensures After(start, events + [e]) == Step(After(start, events), e)
  {
    assert (events + [e])[..|events|] == events;
  }

  lemma BucketHolds(us: nat)
    ensures Bucket(us) <= us < Bucket(us) + BUCKET_MICROS
  {
  }

  lemma OneDeliveryStores(m: UsageMapping, bytes: nat, nowUs: nat)
    requires FieldsInBounds(m) && bytes <= U64_MAX && Start(nowUs, false).Some?
    ensures After(Start(nowUs, false).value, OneDelivery(m, bytes, nowUs)).books.spool
         == [Minute(Bucket(nowUs), Bucket(nowUs) + BUCKET_MICROS, map[m := bytes], {})]
  {
    var start, o := Start(nowUs, false).value, Observation(nowUs, DeliveryUsage(Some(m), bytes));
    var none: seq<Event> := [];
    BucketHolds(nowUs);
    assert Advance(start.books, Bucket(nowUs), false, []) == start.books;
    AfterThen(start, none, Reports(o));
    var reported := none + [Reports(o)];
    AfterThen(start, reported, Receives([]));
    var received := reported + [Receives([])];
    AfterThen(start, received, Records);
    var recorded := received + [Records];
    assert After(start, recorded).books == start.books.(window := Recorded(start.books.window, o));
    AfterThen(start, recorded, Finishes(nowUs, [], Stored));
  }

  /** Every rostered mapping whose aquifer is not clean text is stored by some
      run, in a minute that the control plane refuses. */
  lemma UncleanAquiferIsStored(m: UsageMapping, bytes: nat, nowUs: nat)
    requires Rostered(m) && 0 < |m.aquifer| <= 1024 && !CleanText(m.aquifer)
    requires bytes <= U64_MAX && Start(nowUs, false).Some?
    ensures Attributed(OneDelivery(m, bytes, nowUs), Rostered)
    ensures var spool := After(Start(nowUs, false).value, OneDelivery(m, bytes, nowUs)).books.spool;
      |spool| == 1 && spool[0].totals == map[m := bytes] && Accepted(Payload(Sealed(spool[0]))).None?
  {
    OneDeliveryStores(m, bytes, nowUs);
    AcceptedIffAquifersClean(nowUs, false, OneDelivery(m, bytes, nowUs), 0);
    assert m in map[m := bytes];
  }

  /** Such a mapping: an aquifer named with a trailing space. */
  lemma TrailingSpaceIsRefused(nowUs: nat)
    requires Start(nowUs, false).Some?
    ensures var m := UsageMapping([0x64], seq(64, i => 0x61), [0x61, 0x20]);
      && Rostered(m)
      && After(Start(nowUs, false).value, OneDelivery(m, 1, nowUs)).books.spool
         == [Minute(Bucket(nowUs), Bucket(nowUs) + BUCKET_MICROS, map[m := 1], {})]
      && Accepted(Payload(Sealed(Minute(Bucket(nowUs), Bucket(nowUs) + BUCKET_MICROS, map[m := 1], {})))).None?
  {
    var m := UsageMapping([0x64], seq(64, i => 0x61), [0x61, 0x20]);
    AsciiDecodes(m.deployment);
    AsciiDecodes(m.aquifer);
    TrimmedIs(m.deployment);
    assert WhiteSpace(m.aquifer[1]);
    UncleanAquiferIsStored(m, 1, nowUs);
    OneDeliveryStores(m, 1, nowUs);
  }
}

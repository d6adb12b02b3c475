/** Sealing: the open minute's table becomes a sorted window, ready to store. */
module UsageSealing {
  import opened Common
  import opened Frames
  import opened Usage
  import opened UsageCodec
  import opened ControlPlane
  import UsageRuns

  predicate IsLeast(k: UsageMapping, keys: set<UsageMapping>) {
    k in keys && forall o :: o in keys ==> o == k || MappingLess(k, o)
  }

  lemma {:induction false} HasLeast(keys: set<UsageMapping>)
    requires keys != {}
    ensures exists k :: IsLeast(k, keys)
    decreases |keys|
  {
    var any :| any in keys;
    var others := keys - {any};
    if others == {} {
      assert keys == {any};
      assert IsLeast(any, keys);
    } else {
      HasLeast(others);
      var k :| IsLeast(k, others);
      MappingLessTotal(k, any);
      if MappingLess(k, any) {
        assert IsLeast(k, keys);
      } else {
        forall o | o in keys ensures o == any || MappingLess(any, o) {
          if o in others && o != k {
            MappingLessTransitive(any, k, o);
          }
        }
        assert IsLeast(any, keys);
      }
    }
  }

  ghost function Least(keys: set<UsageMapping>): (k: UsageMapping)
    requires keys != {}
    ensures IsLeast(k, keys)
  {
    HasLeast(keys);
    var k :| IsLeast(k, keys);
    k
  }

  /** The table's rows in the order its iterator gives them. */
  ghost function InOrder(totals: map<UsageMapping, nat>): seq<Total>
    decreases |totals.Keys|
  {
    if totals.Keys == {} then []
    else
      var k := Least(totals.Keys);
      assert (totals - {k}).Keys == totals.Keys - {k};
      [Total(k, totals[k])] + InOrder(totals - {k})
  }

  ghost function Sealed(m: Minute): Window {
    Window(m.startUs, m.endUs, InOrder(m.totals), m.gaps)
  }

  /** Rows back into a table. */
  function Table(rows: seq<Total>): map<UsageMapping, nat> {
    if rows == [] then map[] else Table(rows[1..])[rows[0].mapping := rows[0].bytes]
  }

  function MinuteOf(c: Contents): Minute { Minute(c.startUs, c.endUs, Table(c.rows), GapsOf(c.bits)) }

  lemma {:induction false} InOrderRestores(totals: map<UsageMapping, nat>)
    ensures Table(InOrder(totals)) == totals
    ensures |InOrder(totals)| == |totals|
    decreases |totals.Keys|
  {
    if totals.Keys == {} {
      assert |totals.Keys| == |totals|;
    } else {
      var k := Least(totals.Keys);
      var rest := totals - {k};
      assert rest.Keys == totals.Keys - {k};
      assert |rest.Keys| == |rest| && |totals.Keys| == |totals|;
      InOrderRestores(rest);
      assert InOrder(totals)[1..] == InOrder(rest);
      assert rest[k := totals[k]] == totals;
    }
  }

  lemma {:induction false} InOrderFaithful(totals: map<UsageMapping, nat>, i: nat)
    requires i < |InOrder(totals)|
    ensures InOrder(totals)[i].mapping in totals
    ensures InOrder(totals)[i].bytes == totals[InOrder(totals)[i].mapping]
    decreases |totals.Keys|
  {
    var k := Least(totals.Keys);
    assert (totals - {k}).Keys == totals.Keys - {k};
    if i == 0 {
    } else {
      InOrderFaithful(totals - {k}, i - 1);
    }
  }

  lemma {:induction false} InOrderSorted(totals: map<UsageMapping, nat>)
    ensures Sorted(InOrder(totals))
    decreases |totals.Keys|
  {
    if totals.Keys == {} {
    } else {
      var k := Least(totals.Keys);
      var rest := totals - {k};
      assert rest.Keys == totals.Keys - {k};
      InOrderSorted(rest);
      var rows := InOrder(totals);
      forall i, j | 0 <= i < j < |rows| && j == i + 1 ensures MappingLess(rows[i].mapping, rows[j].mapping) {
        if i == 0 {
          InOrderFaithful(rest, 0);
        } else {
          assert rows[i] == InOrder(rest)[i - 1] && rows[j] == InOrder(rest)[j - 1];
        }
      }
    }
  }

  /** A minute that recording can produce always encodes, far below the cap. */
  lemma SealedEncodes(m: Minute)
    requires WellFormed(m)
    ensures Encodable(Sealed(m)) && InWidth(Sealed(m)) && Aligned(Sealed(m))
    ensures |Payload(Sealed(m))| <= MAX_BATCH_BYTES
  {
    var w := Sealed(m);
    InOrderRestores(m.totals);
    InOrderSorted(m.totals);
    forall i | 0 <= i < |w.totals| ensures FieldsInBounds(w.totals[i].mapping) && w.totals[i].bytes <= U64_MAX {
      InOrderFaithful(m.totals, i);
    }
    FiveGaps(m.gaps);
    PayloadBound(w);
  }

  /** Reading a stored minute recovers its bounds, table and gaps. */
  lemma SealedRoundTrip(m: Minute)
    requires WellFormed(m)
    ensures Read(Payload(Sealed(m))).Some? && MinuteOf(Read(Payload(Sealed(m))).value) == m
  {
    SealedEncodes(m);
    PayloadReads(Sealed(m));
    InOrderRestores(m.totals);
  }

  /** Every minute that any run of the pipeline stores encodes under the cap,
      and two that differ anywhere have different bytes. */
  lemma StoredMinutesEncode(nowUs: nat, unclean: bool, events: seq<UsageRuns.Event>, i: nat, j: nat)
    requires UsageRuns.Start(nowUs, unclean).Some?
    requires i < |UsageRuns.After(UsageRuns.Start(nowUs, unclean).value, events).books.spool|
    requires j < |UsageRuns.After(UsageRuns.Start(nowUs, unclean).value, events).books.spool|
    ensures var spool := UsageRuns.After(UsageRuns.Start(nowUs, unclean).value, events).books.spool;
      && Encodable(Sealed(spool[i])) && |Payload(Sealed(spool[i]))| <= MAX_BATCH_BYTES
      && (Payload(Sealed(spool[i])) == Payload(Sealed(spool[j])) ==> spool[i] == spool[j])
  {
    UsageRuns.RunsKeep(nowUs, unclean, events, None);
    var spool := UsageRuns.After(UsageRuns.Start(nowUs, unclean).value, events).books.spool;
    SealedEncodes(spool[i]);
    SealedRoundTrip(spool[i]);
    SealedRoundTrip(spool[j]);
  }

  /** The control plane reads a stored minute as the relay counted it, unless
      some mapping holds text that only the relay accepts. */
  lemma ControlPlaneReads(m: Minute)
    requires WellFormed(m)
    ensures var r := Accepted(Payload(Sealed(m)));
      && (r.Some? <==> forall key :: key in m.totals ==> CleanMapping(key))
      && (r.Some? ==> MinuteOf(r.value) == m)
  {
    SealedEncodes(m);
    SealedRoundTrip(m);
    AcceptsExactlyClean(Sealed(m));
    InOrderRestores(m.totals);
    var rows := InOrder(m.totals);
    if AllClean(rows) {
      forall key | key in m.totals ensures CleanMapping(key) {
        TableSource(rows, key);
      }
    }
    if forall key :: key in m.totals ==> CleanMapping(key) {
      forall i | 0 <= i < |rows| ensures CleanMapping(rows[i].mapping) {
        InOrderFaithful(m.totals, i);
      }
    }
  }

  lemma {:induction false} TableSource(rows: seq<Total>, key: UsageMapping)
    requires key in Table(rows)
    ensures exists i :: 0 <= i < |rows| && rows[i].mapping == key
  {
    if rows[0].mapping != key {
      TableSource(rows[1..], key);
      var i :| 0 <= i < |rows[1..]| && rows[1..][i].mapping == key;
      assert rows[i + 1].mapping == key;
    }
  }
}

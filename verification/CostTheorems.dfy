/** What the report promises as a whole: independence of row order, conservation, and its rounding. */
module CostTheorems {
  import opened Foundations
  import opened Sums
  import opened CostReport

  // ---- Order of the rows ------------------------------------------------------------------------

  lemma TwoPlacesForTwoCopies<T>(s: seq<T>, t: seq<T>, i: nat, j: nat) returns (a: nat, b: nat)
    requires multiset(s) == multiset(t) && i < j < |s| && s[i] == s[j]
    ensures a < |t| && b < |t| && a != b && t[a] == t[b] == s[i]
  {
    var x := s[i];
    EntriesWithout(s, i);
    assert Without(s, i)[j - 1] == x;
    assert x in multiset(s);
    a := Find(t, x);
    EntriesWithout(t, a);
    b := Find(Without(t, a), x);
    b := if b < a then b else b + 1;
  }

  /** Duplicates are a property of the multiset of rows. */
  lemma DuplicatesIgnoreOrder<T, K>(s: seq<T>, t: seq<T>, counts: T -> bool, identity: T -> K)
    requires multiset(s) == multiset(t) && NoDuplicates(t, counts, identity)
    ensures NoDuplicates(s, counts, identity)
  {
    forall i, j | 0 <= i < j < |s| && counts(s[i]) && counts(s[j])
      ensures identity(s[i]) != identity(s[j])
    {
      var a, b;
      if s[i] == s[j] {
        a, b := TwoPlacesForTwoCopies(s, t, i, j);
      } else {
        assert s[i] in multiset(s) && s[j] in multiset(s);
        a := Find(t, s[i]);
        b := Find(t, s[j]);
      }
      if a > b {
        a, b := b, a;
      }
      assert counts(t[a]) && counts(t[b]);
    }
  }

  lemma SameMembers<T>(s: seq<T>, t: seq<T>)
    requires multiset(s) == multiset(t)
    ensures forall x :: x in s <==> x in t
  {
    forall x
      ensures x in s <==> x in t
    {
      assert x in s <==> x in multiset(s);
      assert x in t <==> x in multiset(t);
    }
  }

  /** Reordering events and outcomes never turns a report into a refusal. */
  lemma SuccessIgnoresOrder(events: seq<CostEvent>, events': seq<CostEvent>,
                            outputs: seq<Output>, outputs': seq<Output>)
    requires multiset(events) == multiset(events') && multiset(outputs) == multiset(outputs')
    ensures EventsOk(events) && OutputsOk(outputs) ==> EventsOk(events') && OutputsOk(outputs')
  {
    hide EventOk, OutputOk;
    if EventsOk(events) && OutputsOk(outputs) {
      DuplicatesIgnoreOrder(events', events, Every(), EventId());
      DuplicatesIgnoreOrder(outputs', outputs, Approved(), OutputId());
      SameMembers(events, events');
      SameMembers(outputs, outputs');
    }
  }

  lemma MeasuresIgnoreOrder(events: seq<CostEvent>, events': seq<CostEvent>, k: Key)
    requires multiset(events) == multiset(events')
    ensures forall weight :: Measure(events, weight, k) == Measure(events', weight, k)
  {
    forall weight
      ensures Measure(events, weight, k) == Measure(events', weight, k)
    {
      SumIgnoresOrder(events, events', At(KeyOf(), weight, k));
    }
  }

  /** A row says the same of reordered inputs, and the inputs leave it no choice. */
  lemma RowsAreDetermined(r: Row, r': Row, events: seq<CostEvent>, events': seq<CostEvent>,
                          outputs: seq<Output>, outputs': seq<Output>, pricing: map<Key, Price>)
    requires multiset(events) == multiset(events') && multiset(outputs) == multiset(outputs')
    requires RowStates(r, events, outputs, pricing) && RowStates(r', events', outputs', pricing)
    requires r.key == r'.key
    ensures r == r'
  {
    hide Quantize, Measure;
    MeasuresIgnoreOrder(events, events', r.key);
    SameMembers(outputs, outputs');
    assert AcceptedItems(outputs, r.key) == AcceptedItems(outputs', r.key);
    assert r.buckets == r'.buckets;
  }

  /** Every permutation of the inputs yields the very same report. */
  lemma ReportIgnoresOrder(report: seq<Row>, report': seq<Row>, events: seq<CostEvent>, events': seq<CostEvent>,
                           outputs: seq<Output>, outputs': seq<Output>, pricing: map<Key, Price>)
    requires multiset(events) == multiset(events') && multiset(outputs) == multiset(outputs')
    requires IsReport(report, events, outputs, pricing) && IsReport(report', events', outputs', pricing)
    ensures report == report'
  {
    hide RowStates, StrictlySorted;
    SameMembers(events, events');
    SameMembers(outputs, outputs');
    assert EventKeys(events) == EventKeys(events') && OutputKeys(outputs) == OutputKeys(outputs');
    SortedListingIsUnique(KeysOf(report), KeysOf(report'),
                          EventKeys(events) + OutputKeys(outputs) + pricing.Keys);
    assert |report| == |KeysOf(report)| == |report'|;
    forall i | 0 <= i < |report|
      ensures report[i] == report'[i]
    {
      assert KeysOf(report)[i] == KeysOf(report')[i];
      RowsAreDetermined(report[i], report'[i], events, events', outputs, outputs', pricing);
    }
  }

  /** Pricing rows may come in any order too. */
  lemma PricingIgnoresOrder(pricing: map<Key, Price>, pricing': map<Key, Price>,
                            rows: seq<PricingRow>, rows': seq<PricingRow>)
    requires multiset(rows) == multiset(rows')
    ensures PricingsOk(rows) ==> PricingsOk(rows')
    ensures Prices(pricing, rows) && Prices(pricing', rows') ==> pricing == pricing'
  {
    hide PricingOk;
    SameMembers(rows, rows');
    if PricingsOk(rows) {
      DuplicatesIgnoreOrder(rows', rows, Every(), PricingId());
    }
  }

  // ---- Conservation -----------------------------------------------------------------------------

  lemma SortedKeysAreDistinct(keys: seq<Key>)
    requires StrictlySorted(keys)
    ensures Distinct(keys)
  {
    forall i, j | 0 <= i < j < |keys|
      ensures keys[i] != keys[j]
    {
      KeyLessTotal(keys[i], keys[j]);
    }
  }

  /** Whatever is measured of the events, the rows of the report add up to all of it. */
  lemma RowsAddUp(report: seq<Row>, events: seq<CostEvent>, outputs: seq<Output>, pricing: map<Key, Price>,
                  weight: CostEvent -> real)
    requires IsReport(report, events, outputs, pricing)
    ensures Sum(KeysOf(report), (k: Key) => Measure(events, weight, k)) == Sum(events, weight)
  {
    SortedKeysAreDistinct(KeysOf(report));
    assert forall e | e in events :: KeyOf()(e) in EventKeys(events);
    GroupsAddUp(KeysOf(report), events, KeyOf(), weight);
    SumOfEqualTerms(KeysOf(report), Groups(events, KeyOf(), weight), (k: Key) => Measure(events, weight, k));
  }

  lemma {:induction false} SumOfEqualTerms<T>(s: seq<T>, f: T -> real, g: T -> real)
    requires forall x :: f(x) == g(x)
    ensures Sum(s, f) == Sum(s, g)
  {
    if s != [] {
      SumOfEqualTerms(s[..|s| - 1], f, g);
    }
  }

  /** The event counts printed in the rows sum to the number of events. */
  lemma {:induction false} EventsCountedOnce(report: seq<Row>, events: seq<CostEvent>, outputs: seq<Output>,
                                             pricing: map<Key, Price>)
    requires IsReport(report, events, outputs, pricing)
    ensures Sum(report, (r: Row) => r.events as real) == |events| as real
    ensures Sum(report, (r: Row) => r.failed as real) == Sum(events, Failed())
  {
    hide Measure, Sum;
    RowsAddUp(report, events, outputs, pricing, One());
    RowsAddUp(report, events, outputs, pricing, Failed());
    SumOverRows(report, (r: Row) => r.events as real, (k: Key) => Measure(events, One(), k));
    SumOverRows(report, (r: Row) => r.failed as real, (k: Key) => Measure(events, Failed(), k));
    SumOfOnes(events);
  }

  lemma {:induction false} SumOverRows(report: seq<Row>, f: Row -> real, g: Key -> real)
    requires forall i | 0 <= i < |report| :: f(report[i]) == g(report[i].key)
    ensures Sum(report, f) == Sum(KeysOf(report), g)
  {
    if report != [] {
      var front := report[..|report| - 1];
      assert KeysOf(report) == KeysOf(front) + [report[|report| - 1].key];
      SumAppend(KeysOf(front), report[|report| - 1].key, g);
      SumOverRows(front, f, g);
    }
  }

  lemma {:induction false} SumOfOnes(events: seq<CostEvent>)
    ensures Sum(events, One()) == |events| as real
  {
    if events != [] {
      SumOfOnes(events[..|events| - 1]);
    }
  }

  /** The accepted count of a row is the number of approved rows of its workspace-month. */
  function Approval(): Output -> real {
    (o: Output) => if o.status == "approved" then 1.0 else 0.0
  }

  function OutputKeyOf(): Output -> Key {
    (o: Output) => OutputKey(o)
  }

  lemma ApprovalsAreNew(front: seq<Output>, o: Output, p: Output)
    requires OutputsOk(front + [o]) && o.status == "approved"
    requires p in front && p.status == "approved" && OutputKey(p) == OutputKey(o)
    ensures p.item != o.item
  {
    var all := front + [o];
    var j :| 0 <= j < |front| && front[j] == p;
    assert all[j] == p && all[|front|] == o;
    assert Approved()(all[j]) && Approved()(all[|front|]);
    assert OutputId()(all[j]) != OutputId()(all[|front|]);
  }

  lemma OneMoreApproval(front: seq<Output>, o: Output, k: Key)
    requires OutputsOk(front + [o])
    ensures |AcceptedItems(front + [o], k)| ==
      |AcceptedItems(front, k)| + (if o.status == "approved" && OutputKey(o) == k then 1 else 0)
  {
    hide OutputsOk;
    var more: set<string> := if o.status == "approved" && OutputKey(o) == k then {o.item} else {};
    assert AcceptedItems(front + [o], k) == AcceptedItems(front, k) + more;
    if more != {} && o.item in AcceptedItems(front, k) {
      var p :| p in front && p.status == "approved" && OutputKey(p) == k && p.item == o.item;
      ApprovalsAreNew(front, o, p);
    }
    assert AcceptedItems(front, k) !! more;
  }

  lemma {:induction false} AcceptedCountsApprovals(outputs: seq<Output>, k: Key)
    requires OutputsOk(outputs)
    ensures |AcceptedItems(outputs, k)| as real == Sum(outputs, At(OutputKeyOf(), Approval(), k))
  {
    if outputs == [] {
      assert AcceptedItems(outputs, k) == {};
    } else {
      var n := |outputs| - 1;
      var front, o := outputs[..n], outputs[n];
      assert outputs == front + [o];
      OneMoreApproval(front, o, k);
      SumAppend(front, o, At(OutputKeyOf(), Approval(), k));
      PrefixOk(front, [o]);
      AcceptedCountsApprovals(front, k);
    }
  }

  lemma PrefixOk(outputs: seq<Output>, more: seq<Output>)
    requires OutputsOk(outputs + more)
    ensures OutputsOk(outputs)
  {
    hide OutputOk;
    var all := outputs + more;
    assert forall i | 0 <= i < |outputs| :: all[i] == outputs[i];
    assert forall o | o in outputs :: o in all;
  }

  // ---- Buckets and rounding ---------------------------------------------------------------------

  /** The eight buckets of one workspace-month, added up. */
  function EightBuckets(f: Bucket -> real): real {
    f(Llm) + f(Tts) + f(ImageVideo) + f(Render) + f(Storage) + f(RetryFailure) + f(Support) + f(Other)
  }

  function PrintedBuckets(r: Row): int
    requires r.buckets.Keys == BUCKETS
  {
    r.buckets[Llm] + r.buckets[Tts] + r.buckets[ImageVideo] + r.buckets[Render]
    + r.buckets[Storage] + r.buckets[RetryFailure] + r.buckets[Support] + r.buckets[Other]
  }

  /** Before rounding, the total cost is the sum of the bucket costs. */
  lemma {:induction false} BucketsMakeTheTotal(events: seq<CostEvent>, k: Key)
    requires forall e | e in events :: EventOk(e)
    ensures Measure(events, Amount(), k) == EightBuckets((b: Bucket) => Measure(events, AmountIn(b), k))
  {
    if events != [] {
      var front, e := events[..|events| - 1], events[|events| - 1];
      assert events == front + [e];
      BucketsMakeTheTotal(front, k);
      OneBucketEach(front, e, k);
    }
  }

  lemma OneBucketEach(front: seq<CostEvent>, e: CostEvent, k: Key)
    requires EventOk(e)
    requires Measure(front, Amount(), k) == EightBuckets((b: Bucket) => Measure(front, AmountIn(b), k))
    ensures Measure(front + [e], Amount(), k) == EightBuckets((b: Bucket) => Measure(front + [e], AmountIn(b), k))
  {
    hide Measure;
    MeasureAppend(front, e, Amount(), k);
    forall b
      ensures Measure(front + [e], AmountIn(b), k) ==
        Measure(front, AmountIn(b), k) + (if EventKey(e) == k then AmountIn(b)(e) else 0.0)
    {
      MeasureAppend(front, e, AmountIn(b), k);
    }
    var more := if EventKey(e) == k then e.cost.value else 0.0;
    var f, g := (b: Bucket) => Measure(front, AmountIn(b), k), (b: Bucket) => Measure(front + [e], AmountIn(b), k);
    OneBucketGains(f, g, e.bucket.value, more);
  }

  lemma OneBucketGains(f: Bucket -> real, g: Bucket -> real, gaining: Bucket, more: real)
    requires forall b :: g(b) == f(b) + (if b == gaining then more else 0.0)
    ensures EightBuckets(g) == EightBuckets(f) + more
  {
  }

  /** Half-even rounding is a nearest integer number of units, and exact on whole units. */
  lemma QuantizeIsNearest(x: real)
    ensures -0.5 <= Quantize(x) as real - x * 10000.0 <= 0.5
    ensures x * 10000.0 == (x * 10000.0).Floor as real ==> Quantize(x) as real == x * 10000.0
    ensures Quantize(x) as real - x * 10000.0 == 0.5 || Quantize(x) as real - x * 10000.0 == -0.5 ==>
      Quantize(x) % 2 == 0
  {
  }

  /** Eight roundings against one: half a unit each, and whole numbers on both sides. */
  lemma EightRoundings(f: Bucket -> real, r: Row)
    requires r.buckets == (map b | b in BUCKETS :: Quantize(f(b)))
    requires r.total == Quantize(EightBuckets(f))
    ensures r.buckets.Keys == BUCKETS
    ensures -4 <= PrintedBuckets(r) - r.total <= 4
  {
    forall b
      ensures -0.5 <= Quantize(f(b)) as real - f(b) * 10000.0 <= 0.5
    {
      QuantizeIsNearest(f(b));
    }
    QuantizeIsNearest(EightBuckets(f));
    hide Quantize;
    assert -4.5 <= PrintedBuckets(r) as real - r.total as real <= 4.5;
  }

  /** The printed buckets of a row differ from its printed total by at most 0.0004. */
  lemma PrintedBucketsNearTotal(r: Row, events: seq<CostEvent>, outputs: seq<Output>, pricing: map<Key, Price>)
    requires EventsOk(events) && RowStates(r, events, outputs, pricing)
    ensures r.buckets.Keys == BUCKETS
    ensures -4 <= PrintedBuckets(r) - r.total <= 4
  {
    hide Quantize, Measure;
    BucketsMakeTheTotal(events, r.key);
    var f := (b: Bucket) => Measure(events, AmountIn(b), r.key);
    assert r.buckets == (map b | b in BUCKETS :: Quantize(f(b)));
    EightRoundings(f, r);
  }

  /** An amount that is a whole number of units of 0.0001. */
  predicate WholeUnits(x: real) {
    x * 10000.0 == (x * 10000.0).Floor as real
  }

  lemma WholeUnitsAdd(x: real, y: real)
    requires WholeUnits(x) && WholeUnits(y)
    ensures WholeUnits(x + y)
  {
    var m, n := (x * 10000.0).Floor, (y * 10000.0).Floor;
    assert (x + y) * 10000.0 == (m + n) as real;
  }

  lemma {:induction false} MeasuresInWholeUnits(events: seq<CostEvent>, b: Bucket, k: Key)
    requires forall e | e in events :: WholeUnits(Amount()(e))
    ensures WholeUnits(Measure(events, AmountIn(b), k))
  {
    if events != [] {
      var front, e := events[..|events| - 1], events[|events| - 1];
      assert events == front + [e];
      MeasuresInWholeUnits(front, b, k);
      MeasureAppend(front, e, AmountIn(b), k);
      WholeUnitsAdd(Measure(front, AmountIn(b), k), Amount()(e));
    } else {
      assert Measure(events, AmountIn(b), k) == 0.0;
    }
  }

  lemma EightExactRoundings(f: Bucket -> real, r: Row)
    requires r.buckets == (map b | b in BUCKETS :: Quantize(f(b)))
    requires r.total == Quantize(EightBuckets(f)) && forall b :: WholeUnits(f(b))
    ensures r.buckets.Keys == BUCKETS && PrintedBuckets(r) == r.total
  {
  }

  /** Where every amount is a multiple of 0.0001 the printed buckets add up exactly. */
  lemma PrintedBucketsMatchWholeUnits(r: Row, events: seq<CostEvent>, outputs: seq<Output>, pricing: map<Key, Price>)
    requires EventsOk(events) && RowStates(r, events, outputs, pricing)
    requires forall e | e in events :: WholeUnits(Amount()(e))
    ensures r.buckets.Keys == BUCKETS && PrintedBuckets(r) == r.total
  {
    hide Quantize, Measure, WholeUnits;
    BucketsMakeTheTotal(events, r.key);
    var f := (b: Bucket) => Measure(events, AmountIn(b), r.key);
    forall b
      ensures WholeUnits(f(b))
    {
      MeasuresInWholeUnits(events, b, r.key);
    }
    assert r.buckets == (map b | b in BUCKETS :: Quantize(f(b)));
    EightExactRoundings(f, r);
  }

  // ---- The rounding bound is reached ------------------------------------------------------------

  const HALF_UNIT := 0.00005

  /** One event of half a unit for each listed bucket, all in one workspace-month. */
  function HalfUnits(buckets: seq<Bucket>): (events: seq<CostEvent>)
    ensures |events| == |buckets|
  {
    if buckets == [] then []
    else
      var front := HalfUnits(buckets[..|buckets| - 1]);
      front + [CostEvent(seq(|buckets|, _ => 'x'), "w", "2026-08-01", Some(buckets[|buckets| - 1]),
                         Some(HALF_UNIT), "ok")]
  }

  const HALF_UNIT_KEY: Key := ("w", Month("2026-08-01"))

  lemma {:induction false} HalfUnitsAreOk(buckets: seq<Bucket>)
    ensures forall i | 0 <= i < |buckets| ::
      EventOk(HalfUnits(buckets)[i]) && |HalfUnits(buckets)[i].id| == i + 1
  {
    if buckets != [] {
      HalfUnitsAreOk(buckets[..|buckets| - 1]);
      assert "2026-08-01"[4] == '-';
    }
  }

  lemma {:induction false} HalfUnitsMeasured(buckets: seq<Bucket>, b: Bucket)
    requires Distinct(buckets)
    ensures Measure(HalfUnits(buckets), AmountIn(b), HALF_UNIT_KEY) == (if b in buckets then HALF_UNIT else 0.0)
    ensures Measure(HalfUnits(buckets), Amount(), HALF_UNIT_KEY) == |buckets| as real * HALF_UNIT
  {
    if buckets != [] {
      var front, last := buckets[..|buckets| - 1], buckets[|buckets| - 1];
      HalfUnitsMeasured(front, b);
      var e := HalfUnits(buckets)[|buckets| - 1];
      MeasureAppend(HalfUnits(front), e, AmountIn(b), HALF_UNIT_KEY);
      MeasureAppend(HalfUnits(front), e, Amount(), HALF_UNIT_KEY);
      assert buckets == front + [last];
    }
  }

  lemma HalfUnitsAreAccepted(buckets: seq<Bucket>)
    ensures EventsOk(HalfUnits(buckets))
  {
    var events := HalfUnits(buckets);
    HalfUnitsAreOk(buckets);
    assert forall i, j | 0 <= i < j < |events| :: |EventId()(events[i])| != |EventId()(events[j])|;
  }

  lemma HalfAUnitPrintsAsNothing()
    ensures Quantize(HALF_UNIT) == 0 && Quantize(8.0 * HALF_UNIT) == 4
  {
    assert HALF_UNIT * 10000.0 == 0.5 && (0.5).Floor == 0;
  }

  const EACH_BUCKET := [Llm, Tts, ImageVideo, Render, Storage, RetryFailure, Support, Other]

  /** Eight accepted events of 0.00005: every bucket prints 0.0000, the total prints 0.0004. */
  lemma RoundingBoundIsReached(r: Row, outputs: seq<Output>, pricing: map<Key, Price>)
    requires r.key == HALF_UNIT_KEY && RowStates(r, HalfUnits(EACH_BUCKET), outputs, pricing)
    ensures EventsOk(HalfUnits(EACH_BUCKET))
    ensures r.buckets.Keys == BUCKETS && PrintedBuckets(r) - r.total == -4
  {
    hide Quantize, Measure, EventsOk, HalfUnits;
    HalfUnitsAreAccepted(EACH_BUCKET);
    HalfAUnitPrintsAsNothing();
    forall b | b in BUCKETS
      ensures r.buckets[b] == 0
    {
      HalfUnitsMeasured(EACH_BUCKET, b);
      assert b in EACH_BUCKET;
    }
    HalfUnitsMeasured(EACH_BUCKET, Llm);
  }
}

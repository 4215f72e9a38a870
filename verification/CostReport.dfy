/**
 * The workspace-month cost report.  Fields arrive stripped, statuses and outcomes also in lower case,
 * and decimals parsed: an absent amount is text that was no decimal.
 */
module CostReport {
  import opened Foundations
  import opened Sums

  datatype Bucket = Llm | Tts | ImageVideo | Render | Storage | RetryFailure | Support | Other

  const BUCKETS: set<Bucket> := {Llm, Tts, ImageVideo, Render, Storage, RetryFailure, Support, Other}

  /** A workspace and a month. */
  type Key = (string, string)

  /** `bucket` is absent when the text names none of the eight. */
  datatype CostEvent = CostEvent(
    id: string, workspace: string, occurredAt: string, bucket: Option<Bucket>, cost: Option<real>, outcome: string)

  datatype Output = Output(workspace: string, decidedAt: string, item: string, status: string)

  datatype Price = Price(revenue: real, included: real, overage: real, throttle: real, hardCap: real)

  datatype PricingRow = PricingRow(
    workspace: string, month: string, revenue: Option<real>, included: Option<real>, overage: Option<real>,
    throttle: Option<real>, hardCap: Option<real>)

  datatype Error =
    | BadMonth | MissingField | DuplicateEvent | UnknownBucket | BadMoney | DuplicateOutput | DuplicatePricing

  datatype Result<+T> = Ok(value: T) | Err(error: Error)

  // ---- Fields -----------------------------------------------------------------------------------

  predicate HasMonth(text: string) {
    |text| >= 7 && text[4] == '-'
  }

  /** The first seven characters, where they are there. */
  function Month(text: string): string {
    if |text| >= 7 then text[..7] else text
  }

  predicate IsMoney(amount: Option<real>) {
    amount.Some? && amount.value >= 0.0
  }

  function EventKey(e: CostEvent): Key {
    (e.workspace, Month(e.occurredAt))
  }

  function OutputKey(o: Output): Key {
    (o.workspace, Month(o.decidedAt))
  }

  function PricingKey(p: PricingRow): Key {
    (p.workspace, Month(p.month))
  }

  // ---- What is accepted -------------------------------------------------------------------------

  predicate EventOk(e: CostEvent) {
    HasMonth(e.occurredAt) && e.id != "" && e.workspace != "" && e.bucket.Some? && IsMoney(e.cost)
  }

  predicate OutputOk(o: Output) {
    o.status == "approved" ==> HasMonth(o.decidedAt) && o.workspace != "" && o.item != ""
  }

  predicate PricingOk(p: PricingRow) {
    && HasMonth(p.month) && p.workspace != ""
    && IsMoney(p.revenue) && IsMoney(p.included) && IsMoney(p.overage) && IsMoney(p.throttle) && IsMoney(p.hardCap)
  }

  /** No two rows that count have the same identity. */
  ghost predicate NoDuplicates<T, K>(rows: seq<T>, counts: T -> bool, identity: T -> K) {
    forall i, j | 0 <= i < j < |rows| :: counts(rows[i]) && counts(rows[j]) ==> identity(rows[i]) != identity(rows[j])
  }

  function Every<T>(): T -> bool {
    (x: T) => true
  }

  function Approved(): Output -> bool {
    (o: Output) => o.status == "approved"
  }

  function EventId(): CostEvent -> string {
    (e: CostEvent) => e.id
  }

  function OutputId(): Output -> (Key, string) {
    (o: Output) => (OutputKey(o), o.item)
  }

  function PricingId(): PricingRow -> Key {
    (p: PricingRow) => PricingKey(p)
  }

  ghost predicate EventsOk(events: seq<CostEvent>) {
    (forall e | e in events :: EventOk(e)) && NoDuplicates(events, Every(), EventId())
  }

  ghost predicate OutputsOk(outputs: seq<Output>) {
    (forall o | o in outputs :: OutputOk(o)) && NoDuplicates(outputs, Approved(), OutputId())
  }

  ghost predicate PricingsOk(rows: seq<PricingRow>) {
    (forall p | p in rows :: PricingOk(p)) && NoDuplicates(rows, Every(), PricingId())
  }

  /** A refusal names something that is wrong with the rows. */
  ghost predicate Blames(error: Error, events: seq<CostEvent>, outputs: seq<Output>) {
    match error
    case BadMonth =>
      || (exists e | e in events :: !HasMonth(e.occurredAt))
      || (exists o | o in outputs :: o.status == "approved" && !HasMonth(o.decidedAt))
    case MissingField =>
      || (exists e | e in events :: e.id == "" || e.workspace == "")
      || (exists o | o in outputs :: o.status == "approved" && (o.workspace == "" || o.item == ""))
    case DuplicateEvent => !NoDuplicates(events, Every(), EventId())
    case UnknownBucket => exists e | e in events :: e.bucket == None
    case BadMoney => exists e | e in events :: !IsMoney(e.cost)
    case DuplicateOutput => !NoDuplicates(outputs, Approved(), OutputId())
    case DuplicatePricing => false
  }

  /** What is wrong with the next event, after the events already read: the first of these faults. */
  ghost function EventFault(before: seq<CostEvent>, e: CostEvent): Option<Error> {
    if !HasMonth(e.occurredAt) then Some(BadMonth)
    else if e.id == "" || e.workspace == "" then Some(MissingField)
    else if exists d | d in before :: d.id == e.id then Some(DuplicateEvent)
    else if e.bucket == None then Some(UnknownBucket)
    else if !IsMoney(e.cost) then Some(BadMoney)
    else None
  }

  /** The same for the next outcome, which has none unless it is an approval. */
  ghost function OutputFault(before: seq<Output>, o: Output): Option<Error> {
    if o.status != "approved" then None
    else if !HasMonth(o.decidedAt) then Some(BadMonth)
    else if o.workspace == "" || o.item == "" then Some(MissingField)
    else if exists d | d in before && d.status == "approved" :: (OutputKey(d), d.item) == (OutputKey(o), o.item)
    then Some(DuplicateOutput)
    else None
  }

  /** And for the next price. */
  ghost function PricingFault(before: seq<PricingRow>, p: PricingRow): Option<Error> {
    if !HasMonth(p.month) then Some(BadMonth)
    else if p.workspace == "" then Some(MissingField)
    else if exists d | d in before :: PricingKey(d) == PricingKey(p) then Some(DuplicatePricing)
    else if !(IsMoney(p.revenue) && IsMoney(p.included) && IsMoney(p.overage) && IsMoney(p.throttle)
              && IsMoney(p.hardCap)) then Some(BadMoney)
    else None
  }

  /** Reading stops at the first row that does not fit those before it, with the first of its faults. */
  ghost predicate StopsAtEvent(error: Error, events: seq<CostEvent>) {
    exists i | 0 <= i < |events| :: EventsOk(events[..i]) && EventFault(events[..i], events[i]) == Some(error)
  }

  ghost predicate StopsAtOutput(error: Error, outputs: seq<Output>) {
    exists i | 0 <= i < |outputs| :: OutputsOk(outputs[..i]) && OutputFault(outputs[..i], outputs[i]) == Some(error)
  }

  ghost predicate StopsAtPricing(error: Error, rows: seq<PricingRow>) {
    exists i | 0 <= i < |rows| :: PricingsOk(rows[..i]) && PricingFault(rows[..i], rows[i]) == Some(error)
  }

  // ---- What is measured -------------------------------------------------------------------------

  predicate FailedOrRetry(e: CostEvent) {
    e.outcome == "failed" || e.outcome == "retry" || e.outcome == "timed_out" || e.outcome == "dead_letter"
  }

  function Amount(): CostEvent -> real {
    (e: CostEvent) => if e.cost.Some? then e.cost.value else 0.0
  }

  function AmountIn(b: Bucket): CostEvent -> real {
    (e: CostEvent) => if e.bucket == Some(b) then Amount()(e) else 0.0
  }

  function One(): CostEvent -> real {
    (e: CostEvent) => 1.0
  }

  function Failed(): CostEvent -> real {
    (e: CostEvent) => if FailedOrRetry(e) then 1.0 else 0.0
  }

  function KeyOf(): CostEvent -> Key {
    (e: CostEvent) => EventKey(e)
  }

  /** The sum of `weight` over the events of one workspace-month. */
  function Measure(events: seq<CostEvent>, weight: CostEvent -> real, k: Key): real {
    Groups(events, KeyOf(), weight)(k)
  }

  function AcceptedItems(outputs: seq<Output>, k: Key): set<string> {
    set o | o in outputs && o.status == "approved" && OutputKey(o) == k :: o.item
  }

  function EventKeys(events: seq<CostEvent>): set<Key> {
    set e | e in events :: EventKey(e)
  }

  function OutputKeys(outputs: seq<Output>): set<Key> {
    set o | o in outputs && o.status == "approved" :: OutputKey(o)
  }

  // ---- Printing ---------------------------------------------------------------------------------

  /** quantize(Decimal("0.0001")), rounding half to even; the result counts units of 0.0001. */
  function Quantize(x: real): int {
    var scaled := x * 10000.0;
    var below := scaled.Floor;
    var rest := scaled - below as real;
    if rest < 0.5 then below
    else if rest > 0.5 then below + 1
    else if below % 2 == 0 then below
    else below + 1
  }

  /** One printed row; an absent amount prints as N/M, amounts are in units of 0.0001. */
  datatype Row = Row(
    key: Key, accepted: nat, costPerAccepted: Option<int>, total: int, revenue: Option<int>, margin: Option<int>,
    included: Option<int>, overageOutputs: Option<int>, overage: Option<int>, throttle: Option<bool>,
    hardCap: Option<int>, events: nat, failed: nat, buckets: map<Bucket, int>)

  function PriceOf(pricing: map<Key, Price>, k: Key): Option<Price> {
    if k in pricing then Some(pricing[k]) else None
  }

  function Max(x: real, y: real): real {
    if x >= y then x else y
  }

  /** What one row of the report says about the rows that came in. */
  ghost predicate RowStates(r: Row, events: seq<CostEvent>, outputs: seq<Output>, pricing: map<Key, Price>) {
    var total := Measure(events, Amount(), r.key);
    var price := PriceOf(pricing, r.key);
    && r.accepted == |AcceptedItems(outputs, r.key)|
    && r.events as real == Measure(events, One(), r.key)
    && r.failed as real == Measure(events, Failed(), r.key)
    && r.total == Quantize(total)
    && r.buckets == (map b | b in BUCKETS :: Quantize(Measure(events, AmountIn(b), r.key)))
    && r.costPerAccepted == (if r.accepted == 0 then None else Some(Quantize(total / r.accepted as real)))
    && (match price
        case None =>
          r.revenue == None && r.margin == None && r.included == None && r.overageOutputs == None
          && r.overage == None && r.throttle == None && r.hardCap == None
        case Some(p) =>
          && r.revenue == Some(Quantize(p.revenue))
          && r.margin == (if p.revenue > 0.0 then Some(Quantize((p.revenue - total) / p.revenue)) else None)
          && r.included == Some(Quantize(p.included))
          && r.overageOutputs == Some(Quantize(Max(r.accepted as real - p.included, 0.0)))
          && r.overage == Some(Quantize(p.overage))
          && r.throttle == Some(total >= p.throttle)
          && r.hardCap == Some(Quantize(p.hardCap)))
  }

  // ---- Order of keys ----------------------------------------------------------------------------

  /** Lexicographic order by code point, a proper prefix coming first. */
  predicate StringLess(a: string, b: string) {
    b != [] && (a == [] || a[0] < b[0] || (a[0] == b[0] && StringLess(a[1..], b[1..])))
  }

  predicate KeyLess(a: Key, b: Key) {
    StringLess(a.0, b.0) || (a.0 == b.0 && StringLess(a.1, b.1))
  }

  lemma {:induction false} StringLessTransitive(a: string, b: string, c: string)
    requires StringLess(a, b) && StringLess(b, c)
    ensures StringLess(a, c)
  {
    if a != [] && a[0] == b[0] && b[0] == c[0] {
      StringLessTransitive(a[1..], b[1..], c[1..]);
    }
  }

  lemma {:induction false} StringLessTotal(a: string, b: string)
    ensures a == b || StringLess(a, b) || StringLess(b, a)
    ensures !(StringLess(a, b) && StringLess(b, a))
    ensures !StringLess(a, a)
  {
    if a != [] {
      StringLessTotal(a[1..], a[1..]);
      if b != [] {
        StringLessTotal(a[1..], b[1..]);
        assert a == [a[0]] + a[1..] && b == [b[0]] + b[1..];
      }
    }
  }

  lemma KeyLessTransitive(a: Key, b: Key, c: Key)
    requires KeyLess(a, b) && KeyLess(b, c)
    ensures KeyLess(a, c)
  {
    if StringLess(a.0, b.0) && StringLess(b.0, c.0) {
      StringLessTransitive(a.0, b.0, c.0);
    } else if a.0 == b.0 == c.0 {
      StringLessTransitive(a.1, b.1, c.1);
    }
  }

  lemma KeyLessTotal(a: Key, b: Key)
    ensures a == b || KeyLess(a, b) || KeyLess(b, a)
    ensures !(KeyLess(a, b) && KeyLess(b, a))
    ensures !KeyLess(a, a)
  {
    StringLessTotal(a.0, b.0);
    StringLessTotal(a.1, b.1);
  }

  predicate StrictlySorted(keys: seq<Key>) {
    forall i, j :: 0 <= i < j < |keys| ==> KeyLess(keys[i], keys[j])
  }

  ghost predicate Lists(s: seq<Key>, keys: set<Key>) {
    forall k :: k in s <==> k in keys
  }

  /** A set of keys has one sorted listing. */
  lemma {:induction false} SortedListingIsUnique(s: seq<Key>, t: seq<Key>, keys: set<Key>)
    requires StrictlySorted(s) && StrictlySorted(t)
    requires Lists(s, keys) && Lists(t, keys)
    ensures s == t
  {
    if s == [] {
      HeadIsIn(t);
    } else {
      assert s[0] in t && t[0] in s;
      KeyLessTotal(s[0], t[0]);
      TailDropsTheHead(s, keys);
      TailDropsTheHead(t, keys);
      SortedListingIsUnique(s[1..], t[1..], keys - {s[0]});
    }
  }

  lemma HeadIsIn(t: seq<Key>)
    ensures t == [] || t[0] in t
  {
  }

  lemma TailDropsTheHead(s: seq<Key>, keys: set<Key>)
    requires StrictlySorted(s) && s != [] && Lists(s, keys)
    ensures Lists(s[1..], keys - {s[0]})
  {
    KeyLessTotal(s[0], s[0]);
    assert s == [s[0]] + s[1..];
  }

  predicate IsLeast(keys: set<Key>, k: Key) {
    k in keys && forall j | j in keys :: j == k || KeyLess(k, j)
  }

  lemma {:induction false} LeastExists(keys: set<Key>)
    requires keys != {}
    ensures exists k :: IsLeast(keys, k)
  {
    var e :| e in keys;
    var rest := keys - {e};
    if rest == {} {
      assert forall j | j in keys :: j == e || j in rest;
      assert IsLeast(keys, e);
    } else {
      LeastExists(rest);
      var k :| IsLeast(rest, k);
      assert forall j | j in keys :: j == e || j in rest;
      KeyLessTotal(e, k);
      if KeyLess(e, k) {
        forall j | j in rest
          ensures KeyLess(e, j)
        {
          if j != k { KeyLessTransitive(e, k, j); }
        }
        assert IsLeast(keys, e);
      } else {
        assert IsLeast(keys, k);
      }
    }
  }

  /** sorted() of a set of keys. */
  method SortKeys(keys: set<Key>) returns (sorted: seq<Key>)
    ensures StrictlySorted(sorted) && Lists(sorted, keys)
  {
    sorted := [];
    var rest := keys;
    while rest != {}
      invariant StrictlySorted(sorted)
      invariant rest <= keys && Lists(sorted, keys - rest)
      invariant forall i, j :: 0 <= i < |sorted| && j in rest ==> KeyLess(sorted[i], j)
      decreases |rest|
    {
      LeastExists(rest);
      var k :| IsLeast(rest, k);
      sorted := sorted + [k];
      rest := rest - {k};
    }
  }

  // ---- Tallies ----------------------------------------------------------------------------------

  datatype Tally = Tally(buckets: map<Bucket, real>, total: real, events: nat, failed: nat, items: set<string>)

  /** The default factories: an absent key reads as an empty tally, an absent bucket as zero. */
  function Lookup(totals: map<Key, Tally>, k: Key): Tally {
    if k in totals then totals[k] else Tally(map[], 0.0, 0, 0, {})
  }

  function BucketOf(t: Tally, b: Bucket): real {
    if b in t.buckets then t.buckets[b] else 0.0
  }

  function AddEvent(t: Tally, e: CostEvent): Tally
    requires EventOk(e)
  {
    Tally(
      t.buckets[e.bucket.value := BucketOf(t, e.bucket.value) + e.cost.value],
      t.total + e.cost.value,
      t.events + 1,
      t.failed + (if FailedOrRetry(e) then 1 else 0),
      t.items)
  }

  /** The tally holds the measures of one workspace-month. */
  ghost predicate Describes(t: Tally, events: seq<CostEvent>, outputs: seq<Output>, k: Key) {
    && t.total == Measure(events, Amount(), k)
    && t.events as real == Measure(events, One(), k)
    && t.failed as real == Measure(events, Failed(), k)
    && (forall b :: BucketOf(t, b) == Measure(events, AmountIn(b), k))
    && t.items == AcceptedItems(outputs, k)
  }

  lemma MeasureAppend(events: seq<CostEvent>, e: CostEvent, weight: CostEvent -> real, k: Key)
    ensures Measure(events + [e], weight, k) ==
      Measure(events, weight, k) + (if EventKey(e) == k then weight(e) else 0.0)
  {
  }

  lemma DescribesMoreEvents(t: Tally, events: seq<CostEvent>, outputs: seq<Output>, e: CostEvent, k: Key)
    requires EventOk(e) && Describes(t, events, outputs, k)
    ensures Describes(if EventKey(e) == k then AddEvent(t, e) else t, events + [e], outputs, k)
  {
  }

  ghost predicate Tallied(totals: map<Key, Tally>, events: seq<CostEvent>, outputs: seq<Output>) {
    && totals.Keys == EventKeys(events) + OutputKeys(outputs)
    && forall k :: Describes(Lookup(totals, k), events, outputs, k)
  }

  lemma NothingTallied()
    ensures Tallied(map[], [], [])
  {
  }

  lemma TalliedMoreEvents(totals: map<Key, Tally>, events: seq<CostEvent>, e: CostEvent)
    requires EventOk(e) && Tallied(totals, events, [])
    ensures Tallied(totals[EventKey(e) := AddEvent(Lookup(totals, EventKey(e)), e)], events + [e], [])
  {
    hide Describes, AddEvent;
    assert EventKeys(events + [e]) == EventKeys(events) + {EventKey(e)};
    var next := totals[EventKey(e) := AddEvent(Lookup(totals, EventKey(e)), e)];
    forall k
      ensures Describes(Lookup(next, k), events + [e], [], k)
    {
      DescribesMoreEvents(Lookup(totals, k), events, [], e, k);
    }
  }

  function AddItem(t: Tally, item: string): Tally {
    t.(items := t.items + {item})
  }

  lemma DescribesMoreOutputs(t: Tally, events: seq<CostEvent>, outputs: seq<Output>, o: Output, k: Key)
    requires Describes(t, events, outputs, k)
    ensures Describes(
      if o.status == "approved" && OutputKey(o) == k then AddItem(t, o.item) else t, events, outputs + [o], k)
  {
  }

  lemma TalliedMoreOutputs(totals: map<Key, Tally>, events: seq<CostEvent>, outputs: seq<Output>, o: Output)
    requires Tallied(totals, events, outputs)
    ensures o.status == "approved" ==>
      Tallied(totals[OutputKey(o) := AddItem(Lookup(totals, OutputKey(o)), o.item)], events, outputs + [o])
    ensures o.status != "approved" ==> Tallied(totals, events, outputs + [o])
  {
    hide Describes, AddItem;
    assert OutputKeys(outputs + [o]) ==
      OutputKeys(outputs) + (if o.status == "approved" then {OutputKey(o)} else {});
    var key := OutputKey(o);
    var next := if o.status == "approved" then totals[key := AddItem(Lookup(totals, key), o.item)] else totals;
    forall k
      ensures Describes(Lookup(next, k), events, outputs + [o], k)
    {
      DescribesMoreOutputs(Lookup(totals, k), events, outputs, o, k);
    }
  }

  function EventIds(events: seq<CostEvent>): set<string> {
    set e | e in events :: e.id
  }

  function OutputIds(outputs: seq<Output>): set<(Key, string)> {
    set o | o in outputs && o.status == "approved" :: (OutputKey(o), o.item)
  }

  /** Which next event keeps the rows read so far acceptable. */
  lemma OneMoreEvent(events: seq<CostEvent>, i: nat)
    requires i < |events| && EventsOk(events[..i])
    ensures events[..i + 1] == events[..i] + [events[i]]
    ensures EventsOk(events[..i + 1]) <==> EventOk(events[i]) && events[i].id !in EventIds(events[..i])
    ensures EventIds(events[..i + 1]) == EventIds(events[..i]) + {events[i].id}
    ensures events[i].id in EventIds(events[..i]) ==> !NoDuplicates(events, Every(), EventId())
    ensures EventsOk(events) ==> EventsOk(events[..i + 1])
  {
  }

  lemma OneMoreOutput(outputs: seq<Output>, i: nat)
    requires i < |outputs| && OutputsOk(outputs[..i])
    ensures outputs[..i + 1] == outputs[..i] + [outputs[i]]
    ensures var o := outputs[i]; OutputsOk(outputs[..i + 1]) <==>
      OutputOk(o) && (o.status == "approved" ==> (OutputKey(o), o.item) !in OutputIds(outputs[..i]))
    ensures OutputIds(outputs[..i + 1]) == OutputIds(outputs[..i]) +
      (if outputs[i].status == "approved" then {(OutputKey(outputs[i]), outputs[i].item)} else {})
    ensures outputs[i].status == "approved" && (OutputKey(outputs[i]), outputs[i].item) in OutputIds(outputs[..i]) ==>
      !NoDuplicates(outputs, Approved(), OutputId())
    ensures OutputsOk(outputs) ==> OutputsOk(outputs[..i + 1])
  {
  }

  /** If the next event is at fault, reading stops there. */
  lemma EventStops(events: seq<CostEvent>, i: nat)
    requires i < |events| && EventsOk(events[..i])
    ensures events[i].id in EventIds(events[..i]) <==> exists d | d in events[..i] :: d.id == events[i].id
    ensures var fault := EventFault(events[..i], events[i]); fault.Some? ==> StopsAtEvent(fault.value, events)
  {
  }

  lemma OutputStops(outputs: seq<Output>, i: nat)
    requires i < |outputs| && OutputsOk(outputs[..i])
    ensures (OutputKey(outputs[i]), outputs[i].item) in OutputIds(outputs[..i]) <==>
      exists d | d in outputs[..i] && d.status == "approved" ::
        (OutputKey(d), d.item) == (OutputKey(outputs[i]), outputs[i].item)
    ensures var fault := OutputFault(outputs[..i], outputs[i]); fault.Some? ==> StopsAtOutput(fault.value, outputs)
  {
  }

  /** The loop over the cost events. */
  method TallyEvents(events: seq<CostEvent>) returns (r: Result<map<Key, Tally>>)
    ensures r.Ok? <==> EventsOk(events)
    ensures r.Ok? ==> Tallied(r.value, events, [])
    ensures r.Err? ==> Blames(r.error, events, []) && StopsAtEvent(r.error, events)
  {
    hide Tallied, AddEvent, Lookup, EventsOk, EventIds, NoDuplicates, StopsAtEvent;
    var totals: map<Key, Tally> := map[];
    var seen: set<string> := {};
    NothingTallied();
    NothingSeen();
    for i := 0 to |events|
      invariant EventsOk(events[..i]) && seen == EventIds(events[..i])
      invariant Tallied(totals, events[..i], [])
    {
      var e := events[i];
      OneMoreEvent(events, i);
      EventStops(events, i);
      if !HasMonth(e.occurredAt) {
        return Err(BadMonth);
      }
      if e.id == "" || e.workspace == "" {
        return Err(MissingField);
      }
      if e.id in seen {
        return Err(DuplicateEvent);
      }
      if e.bucket.None? {
        return Err(UnknownBucket);
      }
      if !IsMoney(e.cost) {
        return Err(BadMoney);
      }
      seen := seen + {e.id};
      TalliedMoreEvents(totals, events[..i], e);
      totals := totals[EventKey(e) := AddEvent(Lookup(totals, EventKey(e)), e)];
    }
    assert events[..|events|] == events;
    r := Ok(totals);
  }

  lemma NothingSeen()
    ensures EventsOk([]) && EventIds([]) == {}
    ensures OutputsOk([]) && OutputIds([]) == {}
  {
  }

  /** The loop over the review outcomes, of which only approvals count. */
  method TallyOutputs(before: map<Key, Tally>, ghost events: seq<CostEvent>, outputs: seq<Output>)
    returns (r: Result<map<Key, Tally>>)
    requires Tallied(before, events, [])
    ensures r.Ok? <==> OutputsOk(outputs)
    ensures r.Ok? ==> Tallied(r.value, events, outputs)
    ensures r.Err? ==> Blames(r.error, events, outputs) && StopsAtOutput(r.error, outputs)
  {
    hide Tallied, AddItem, Lookup, OutputsOk, OutputIds, NoDuplicates, StopsAtOutput;
    var totals := before;
    var seen: set<(Key, string)> := {};
    NothingSeen();
    for i := 0 to |outputs|
      invariant OutputsOk(outputs[..i]) && seen == OutputIds(outputs[..i])
      invariant Tallied(totals, events, outputs[..i])
    {
      var o := outputs[i];
      OneMoreOutput(outputs, i);
      OutputStops(outputs, i);
      TalliedMoreOutputs(totals, events, outputs[..i], o);
      if o.status == "approved" {
        if !HasMonth(o.decidedAt) {
          return Err(BadMonth);
        }
        if o.workspace == "" || o.item == "" {
          return Err(MissingField);
        }
        var id := (OutputKey(o), o.item);
        if id in seen {
          return Err(DuplicateOutput);
        }
        seen := seen + {id};
        totals := totals[OutputKey(o) := AddItem(Lookup(totals, OutputKey(o)), o.item)];
      }
    }
    assert outputs[..|outputs|] == outputs;
    r := Ok(totals);
  }

  // ---- The report -------------------------------------------------------------------------------

  /** One row of output, from its tally and price. */
  function RenderRow(k: Key, t: Tally, price: Option<Price>): Row {
    var accepted := |t.items|;
    Row(
      k, accepted,
      if accepted == 0 then None else Some(Quantize(t.total / accepted as real)),
      Quantize(t.total),
      if price.Some? then Some(Quantize(price.value.revenue)) else None,
      if price.Some? && price.value.revenue > 0.0
        then Some(Quantize((price.value.revenue - t.total) / price.value.revenue)) else None,
      if price.Some? then Some(Quantize(price.value.included)) else None,
      if price.Some? then Some(Quantize(Max(accepted as real - price.value.included, 0.0))) else None,
      if price.Some? then Some(Quantize(price.value.overage)) else None,
      if price.Some? then Some(t.total >= price.value.throttle) else None,
      if price.Some? then Some(Quantize(price.value.hardCap)) else None,
      t.events, t.failed,
      map b | b in BUCKETS :: Quantize(BucketOf(t, b)))
  }

  lemma RenderedRowStates(k: Key, t: Tally, events: seq<CostEvent>, outputs: seq<Output>, pricing: map<Key, Price>)
    requires Describes(t, events, outputs, k)
    ensures RowStates(RenderRow(k, t, PriceOf(pricing, k)), events, outputs, pricing)
  {
    hide Quantize, Measure, AcceptedItems;
  }

  function KeysOf(report: seq<Row>): seq<Key> {
    seq(|report|, i requires 0 <= i < |report| => report[i].key)
  }

  /** One row for every workspace-month that has events, approvals or a price, in strict key order. */
  ghost predicate IsReport(report: seq<Row>, events: seq<CostEvent>, outputs: seq<Output>, pricing: map<Key, Price>) {
    && StrictlySorted(KeysOf(report))
    && Lists(KeysOf(report), EventKeys(events) + OutputKeys(outputs) + pricing.Keys)
    && forall i | 0 <= i < |report| :: RowStates(report[i], events, outputs, pricing)
  }

  method BuildReport(events: seq<CostEvent>, outputs: seq<Output>, pricing: map<Key, Price>)
    returns (r: Result<seq<Row>>)
    ensures r.Ok? <==> EventsOk(events) && OutputsOk(outputs)
    ensures r.Ok? ==> IsReport(r.value, events, outputs, pricing)
    ensures r.Err? ==> Blames(r.error, events, outputs)
    ensures r.Err? ==> if EventsOk(events) then StopsAtOutput(r.error, outputs) else StopsAtEvent(r.error, events)
  {
    hide EventsOk, OutputsOk, Describes, RowStates, RenderRow, NoDuplicates, StrictlySorted, Lists,
      StopsAtEvent, StopsAtOutput;
    var tallied := TallyEvents(events);
    if tallied.Err? {
      BlameGrows(tallied.error, events, outputs);
      return Err(tallied.error);
    }
    tallied := TallyOutputs(tallied.value, events, outputs);
    if tallied.Err? {
      return Err(tallied.error);
    }
    var totals := tallied.value;
    var keys := SortKeys(totals.Keys + pricing.Keys);
    var report: seq<Row> := [];
    for n := 0 to |keys|
      invariant |report| == n && forall i | 0 <= i < n :: report[i].key == keys[i]
      invariant forall i | 0 <= i < n :: RowStates(report[i], events, outputs, pricing)
    {
      RenderedRowStates(keys[n], Lookup(totals, keys[n]), events, outputs, pricing);
      RenderedKey(keys[n], Lookup(totals, keys[n]), PriceOf(pricing, keys[n]));
      report := report + [RenderRow(keys[n], Lookup(totals, keys[n]), PriceOf(pricing, keys[n]))];
    }
    assert KeysOf(report) == keys;
    r := Ok(report);
  }

  lemma RenderedKey(k: Key, t: Tally, price: Option<Price>)
    ensures RenderRow(k, t, price).key == k
  {
  }

  lemma BlameGrows(error: Error, events: seq<CostEvent>, outputs: seq<Output>)
    requires Blames(error, events, [])
    ensures Blames(error, events, outputs)
  {
  }

  // ---- Pricing ----------------------------------------------------------------------------------

  function PriceIn(p: PricingRow): Price
    requires PricingOk(p)
  {
    Price(p.revenue.value, p.included.value, p.overage.value, p.throttle.value, p.hardCap.value)
  }

  /** The table holds each row under its workspace-month and nothing else. */
  ghost predicate Prices(pricing: map<Key, Price>, rows: seq<PricingRow>) {
    && (forall p | p in rows :: PricingOk(p) && PricingKey(p) in pricing && pricing[PricingKey(p)] == PriceIn(p))
    && (forall k | k in pricing :: exists p | p in rows :: PricingKey(p) == k)
  }

  /** A refusal names something that is wrong with the pricing rows. */
  ghost predicate PricingBlames(error: Error, rows: seq<PricingRow>) {
    match error
    case BadMonth => exists p | p in rows :: !HasMonth(p.month)
    case MissingField => exists p | p in rows :: p.workspace == ""
    case DuplicatePricing => !NoDuplicates(rows, Every(), PricingId())
    case BadMoney => exists p | p in rows ::
      !(IsMoney(p.revenue) && IsMoney(p.included) && IsMoney(p.overage) && IsMoney(p.throttle) && IsMoney(p.hardCap))
    case _ => false
  }

  method LoadPricing(rows: seq<PricingRow>) returns (r: Result<map<Key, Price>>)
    ensures r.Ok? <==> PricingsOk(rows)
    ensures r.Ok? ==> Prices(r.value, rows)
    ensures r.Err? ==> PricingBlames(r.error, rows) && StopsAtPricing(r.error, rows)
  {
    hide PricingsOk, Prices, PricingOk, NoDuplicates, StopsAtPricing;
    var pricing: map<Key, Price> := map[];
    NothingPriced();
    for i := 0 to |rows|
      invariant PricingsOk(rows[..i]) && Prices(pricing, rows[..i])
    {
      var p := rows[i];
      OneMorePricing(rows, i, pricing);
      PricingStops(rows, i, pricing);
      if !HasMonth(p.month) || p.workspace == "" {
        var error := if !HasMonth(p.month) then BadMonth else MissingField;
        PricingNeeds(p);
        return Err(error);
      }
      if PricingKey(p) in pricing {
        return Err(DuplicatePricing);
      }
      if !(IsMoney(p.revenue) && IsMoney(p.included) && IsMoney(p.overage) && IsMoney(p.throttle)
           && IsMoney(p.hardCap)) {
        PricingNeeds(p);
        return Err(BadMoney);
      }
      PricingNeeds(p);
      pricing := pricing[PricingKey(p) := PriceIn(p)];
    }
    assert rows[..|rows|] == rows;
    r := Ok(pricing);
  }

  /** If the next price is at fault, reading stops there. */
  lemma PricingStops(rows: seq<PricingRow>, i: nat, pricing: map<Key, Price>)
    requires i < |rows| && PricingsOk(rows[..i]) && Prices(pricing, rows[..i])
    ensures PricingKey(rows[i]) in pricing <==> exists d | d in rows[..i] :: PricingKey(d) == PricingKey(rows[i])
    ensures var fault := PricingFault(rows[..i], rows[i]); fault.Some? ==> StopsAtPricing(fault.value, rows)
  {
    hide PricingOk, PricingsOk;
  }

  lemma NothingPriced()
    ensures PricingsOk([]) && Prices(map[], [])
  {
  }

  lemma PricingNeeds(p: PricingRow)
    ensures PricingOk(p) <==>
      && HasMonth(p.month) && p.workspace != "" && IsMoney(p.revenue) && IsMoney(p.included)
      && IsMoney(p.overage) && IsMoney(p.throttle) && IsMoney(p.hardCap)
  {
  }

  /** The table knows exactly the workspace-months read so far. */
  lemma PricedKeys(rows: seq<PricingRow>, pricing: map<Key, Price>, k: Key)
    requires Prices(pricing, rows)
    ensures k in pricing <==> exists j | 0 <= j < |rows| :: PricingId()(rows[j]) == k
  {
    hide PricingOk;
    if k in pricing {
      var p :| p in rows && PricingKey(p) == k;
      var j :| 0 <= j < |rows| && rows[j] == p;
      assert PricingId()(rows[j]) == k;
    }
    if j :| 0 <= j < |rows| && PricingId()(rows[j]) == k {
      assert rows[j] in rows;
    }
  }

  lemma NoDuplicatesAppend(rows: seq<PricingRow>, p: PricingRow)
    requires NoDuplicates(rows, Every(), PricingId())
    ensures NoDuplicates(rows + [p], Every(), PricingId()) <==>
      !exists j | 0 <= j < |rows| :: PricingId()(rows[j]) == PricingId()(p)
  {
    var next := rows + [p];
    assert next[|rows|] == p && forall j | 0 <= j < |rows| :: next[j] == rows[j];
    if j :| 0 <= j < |rows| && PricingId()(rows[j]) == PricingId()(p) {
      assert PricingId()(next[j]) == PricingId()(next[|rows|]);
    }
  }

  lemma DuplicatesStay(rows: seq<PricingRow>, n: nat)
    requires n <= |rows| && NoDuplicates(rows, Every(), PricingId())
    ensures NoDuplicates(rows[..n], Every(), PricingId())
  {
  }

  /** Which next row keeps the rows read so far acceptable. */
  lemma NextPricingOk(rows: seq<PricingRow>, i: nat, pricing: map<Key, Price>)
    requires i < |rows| && PricingsOk(rows[..i]) && Prices(pricing, rows[..i])
    ensures rows[..i + 1] == rows[..i] + [rows[i]]
    ensures PricingsOk(rows[..i + 1]) <==> PricingOk(rows[i]) && PricingKey(rows[i]) !in pricing
    ensures PricingKey(rows[i]) in pricing ==> !NoDuplicates(rows, Every(), PricingId())
  {
    hide PricingOk, Prices, NoDuplicates;
    assert rows[..i + 1] == rows[..i] + [rows[i]];
    PricedKeys(rows[..i], pricing, PricingKey(rows[i]));
    NoDuplicatesAppend(rows[..i], rows[i]);
    if NoDuplicates(rows, Every(), PricingId()) {
      DuplicatesStay(rows, i + 1);
    }
    assert rows[i] in rows[..i + 1];
  }

  lemma PricingsOkFront(rows: seq<PricingRow>, n: nat)
    requires n <= |rows| && PricingsOk(rows)
    ensures PricingsOk(rows[..n])
  {
    hide PricingOk;
    assert forall x | x in rows[..n] :: x in rows;
  }

  lemma OneMorePricing(rows: seq<PricingRow>, i: nat, pricing: map<Key, Price>)
    requires i < |rows| && PricingsOk(rows[..i]) && Prices(pricing, rows[..i])
    ensures PricingsOk(rows[..i + 1]) <==> PricingOk(rows[i]) && PricingKey(rows[i]) !in pricing
    ensures PricingKey(rows[i]) in pricing ==> !NoDuplicates(rows, Every(), PricingId())
    ensures PricingsOk(rows[..i + 1]) ==> Prices(pricing[PricingKey(rows[i]) := PriceIn(rows[i])], rows[..i + 1])
    ensures PricingsOk(rows) ==> PricingsOk(rows[..i + 1])
  {
    hide PricingOk, Prices, NoDuplicates, PricingsOk;
    NextPricingOk(rows, i, pricing);
    if PricingsOk(rows) {
      PricingsOkFront(rows, i + 1);
    }
    if PricingsOk(rows[..i + 1]) {
      PricesGrow(pricing, rows[..i], rows[i]);
    }
  }

  lemma PricesGrow(pricing: map<Key, Price>, rows: seq<PricingRow>, p: PricingRow)
    requires Prices(pricing, rows) && PricingOk(p) && PricingKey(p) !in pricing
    ensures Prices(pricing[PricingKey(p) := PriceIn(p)], rows + [p])
  {
  }
}

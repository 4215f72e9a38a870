/** What a printed report says about the rows that were read, in terms of those rows alone. */
module CostOutcomes {
  import opened Foundations
  import opened Sums
  import opened CostReport

  // ---- What is accepted -------------------------------------------------------------------------

  /** A date begins with a four-character year, a dash and two more characters. */
  predicate Dated(text: string, month: string) {
    |month| == 7 && month <= text && month[4] == '-'
  }

  /** A row belongs to the workspace-month that its date begins with. */
  lemma MonthExactly(text: string)
    ensures HasMonth(text) <==> exists month :: Dated(text, month)
    ensures HasMonth(text) ==> Dated(text, Month(text))
    ensures forall month :: Dated(text, month) ==> month == Month(text)
  {
    if HasMonth(text) {
      assert Dated(text, text[..7]);
    }
  }

  ghost predicate NotNegative(amount: Option<real>) {
    exists x :: amount == Some(x) && x >= 0.0
  }

  /** Events are accepted exactly when every field is there, no cost is negative and no id repeats. */
  lemma EventsOkExactly(events: seq<CostEvent>)
    ensures EventsOk(events) <==>
      && (forall e | e in events ::
            && e.id != "" && e.workspace != "" && (exists month :: Dated(e.occurredAt, month))
            && e.bucket != None && NotNegative(e.cost))
      && (forall i, j | 0 <= i < j < |events| :: events[i].id != events[j].id)
  {
    forall e | e in events
      ensures EventOk(e) <==>
        && e.id != "" && e.workspace != "" && (exists month :: Dated(e.occurredAt, month))
        && e.bucket != None && NotNegative(e.cost)
    {
      MonthExactly(e.occurredAt);
    }
  }

  /** Outcomes other than approvals are never looked at; approvals are accepted exactly when every field is
      there and no item is approved twice in one workspace-month. */
  lemma OutputsOkExactly(outputs: seq<Output>)
    ensures OutputsOk(outputs) <==>
      && (forall o | o in outputs && o.status == "approved" ::
            o.workspace != "" && o.item != "" && exists month :: Dated(o.decidedAt, month))
      && (forall i, j, month | 0 <= i < j < |outputs| && outputs[i].status == outputs[j].status == "approved"
            && outputs[i].workspace == outputs[j].workspace && outputs[i].item == outputs[j].item
            && Dated(outputs[i].decidedAt, month) :: !Dated(outputs[j].decidedAt, month))
  {
    forall o | o in outputs
      ensures HasMonth(o.decidedAt) <==> exists month :: Dated(o.decidedAt, month)
      ensures HasMonth(o.decidedAt) ==> Dated(o.decidedAt, Month(o.decidedAt))
      ensures forall month :: Dated(o.decidedAt, month) ==> month == Month(o.decidedAt)
    {
      MonthExactly(o.decidedAt);
    }
    hide HasMonth, Month, Dated;
  }

  /** Prices are accepted exactly when every field is there, none is negative and no workspace-month repeats. */
  lemma PricingsOkExactly(rows: seq<PricingRow>)
    ensures PricingsOk(rows) <==>
      && (forall p | p in rows ::
            && p.workspace != "" && (exists month :: Dated(p.month, month))
            && NotNegative(p.revenue) && NotNegative(p.included) && NotNegative(p.overage)
            && NotNegative(p.throttle) && NotNegative(p.hardCap))
      && (forall i, j, month | 0 <= i < j < |rows| && rows[i].workspace == rows[j].workspace
            && Dated(rows[i].month, month) :: !Dated(rows[j].month, month))
  {
    forall p | p in rows
      ensures HasMonth(p.month) <==> exists month :: Dated(p.month, month)
      ensures HasMonth(p.month) ==> Dated(p.month, Month(p.month))
      ensures forall month :: Dated(p.month, month) ==> month == Month(p.month)
    {
      MonthExactly(p.month);
    }
    hide HasMonth, Month, Dated;
  }

  // ---- What is printed --------------------------------------------------------------------------

  /** The events of one workspace-month. */
  function Mine(events: seq<CostEvent>, k: Key): set<nat> {
    set i: nat | i < |events| && events[i].workspace == k.0 && Dated(events[i].occurredAt, k.1)
  }

  const FAILURES: set<string> := {"failed", "retry", "timed_out", "dead_letter"}

  /** The events that failed, were retried, timed out or went to the dead letters. */
  function Failing(events: seq<CostEvent>): set<nat> {
    set i: nat | i < |events| && events[i].outcome in FAILURES
  }

  function MyFailures(events: seq<CostEvent>, k: Key): set<nat> {
    Mine(events, k) * Failing(events)
  }

  /** One more event is one more of its workspace-month. */
  lemma MineAppend(events: seq<CostEvent>, e: CostEvent, k: Key)
    requires EventOk(e)
    ensures Mine(events + [e], k) == Mine(events, k) + (if EventKey(e) == k then {|events|} else {})
    ensures |events| !in Mine(events, k)
    ensures |Mine(events + [e], k)| == |Mine(events, k)| + (if EventKey(e) == k then 1 else 0)
  {
    MonthExactly(e.occurredAt);
    hide Dated;
  }

  lemma FailingAppend(events: seq<CostEvent>, e: CostEvent)
    ensures Failing(events + [e]) == Failing(events) + (if FailedOrRetry(e) then {|events|} else {})
    ensures |events| !in Failing(events)
  {
    assert FailedOrRetry(e) <==> e.outcome in FAILURES;
    hide FAILURES, FailedOrRetry;
  }

  /** And one more failure exactly if it failed. */
  lemma MyFailuresAppend(events: seq<CostEvent>, e: CostEvent, k: Key)
    requires EventOk(e)
    ensures |MyFailures(events + [e], k)| ==
      |MyFailures(events, k)| + (if EventKey(e) == k && FailedOrRetry(e) then 1 else 0)
  {
    hide Mine, Failing, EventKey, EventOk, FailedOrRetry;
    MineAppend(events, e, k);
    FailingAppend(events, e);
    MeetGrows(Mine(events, k), Failing(events), |events|, EventKey(e) == k, FailedOrRetry(e));
  }

  /** A new element joins the meet of two sets exactly when it joins both. */
  lemma MeetGrows(x: set<nat>, y: set<nat>, n: nat, inX: bool, inY: bool)
    requires n !in x && n !in y
    ensures |(x + (if inX then {n} else {})) * (y + (if inY then {n} else {}))| ==
      |x * y| + (if inX && inY then 1 else 0)
  {
    assert (x + (if inX then {n} else {})) * (y + (if inY then {n} else {})) ==
      (x * y) + (if inX && inY then {n} else {});
  }

  lemma NothingMine(k: Key)
    ensures Mine([], k) == {} && MyFailures([], k) == {}
    ensures Measure([], One(), k) == 0.0 && Measure([], Failed(), k) == 0.0
  {
  }

  /** Counting an event is measuring it with weight one. */
  lemma {:induction false} CountsAreMeasures(events: seq<CostEvent>, k: Key)
    requires forall e | e in events :: EventOk(e)
    ensures Measure(events, One(), k) == |Mine(events, k)| as real
    ensures Measure(events, Failed(), k) == |MyFailures(events, k)| as real
  {
    hide Mine, MyFailures, EventKey, Measure, EventOk, FailedOrRetry;
    NothingMine(k);
    if events != [] {
      var front, e := events[..|events| - 1], events[|events| - 1];
      assert events == front + [e];
      CountsAreMeasures(front, k);
      MeasureAppend(front, e, One(), k);
      MeasureAppend(front, e, Failed(), k);
      MineAppend(front, e, k);
      MyFailuresAppend(front, e, k);
    }
  }

  /** Each row prints how many events fell into its workspace-month, how many of those failed or were
      retried, and how many different items were approved in it. */
  lemma CountsArePrinted(r: Row, events: seq<CostEvent>, outputs: seq<Output>, pricing: map<Key, Price>)
    requires EventsOk(events) && OutputsOk(outputs) && RowStates(r, events, outputs, pricing)
    ensures r.events == |Mine(events, r.key)|
    ensures r.failed == |MyFailures(events, r.key)|
    ensures r.accepted == |set o | o in outputs && o.status == "approved" && o.workspace == r.key.0
                                   && Dated(o.decidedAt, r.key.1) :: o.item|
  {
    hide Dated, Month, HasMonth, IsMoney, NoDuplicates, Quantize, Measure, Mine, MyFailures;
    CountsAreMeasures(events, r.key);
    forall o | o in outputs && o.status == "approved"
      ensures OutputKey(o) == r.key <==> o.workspace == r.key.0 && Dated(o.decidedAt, r.key.1)
    {
      KeyExactly(o.workspace, o.decidedAt, r.key);
    }
    assert AcceptedItems(outputs, r.key) ==
      set o | o in outputs && o.status == "approved" && o.workspace == r.key.0 && Dated(o.decidedAt, r.key.1) :: o.item;
  }

  /** A dated row has the key of the workspace and month it names. */
  lemma KeyExactly(workspace: string, date: string, k: Key)
    requires HasMonth(date)
    ensures (workspace, Month(date)) == k <==> workspace == k.0 && Dated(date, k.1)
  {
    MonthExactly(date);
  }

  /** The report has a row for a workspace-month exactly when an event, an approval or a price names it. */
  lemma RowsExactly(report: seq<Row>, events: seq<CostEvent>, outputs: seq<Output>,
                    pricing: map<Key, Price>, rows: seq<PricingRow>, k: Key)
    requires EventsOk(events) && OutputsOk(outputs) && PricingsOk(rows)
    requires Prices(pricing, rows) && IsReport(report, events, outputs, pricing)
    ensures (exists i | 0 <= i < |report| :: report[i].key == k) <==>
      || (exists e | e in events :: e.workspace == k.0 && Dated(e.occurredAt, k.1))
      || (exists o | o in outputs :: o.status == "approved" && o.workspace == k.0 && Dated(o.decidedAt, k.1))
      || (exists p | p in rows :: p.workspace == k.0 && Dated(p.month, k.1))
  {
    hide Dated, Month, HasMonth, IsMoney, NoDuplicates, RowStates, KeysOf, StrictlySorted;
    KeysReported(report, k);
    forall e | e in events
      ensures EventKey(e) == k <==> e.workspace == k.0 && Dated(e.occurredAt, k.1)
    {
      KeyExactly(e.workspace, e.occurredAt, k);
    }
    forall o | o in outputs && o.status == "approved"
      ensures OutputKey(o) == k <==> o.workspace == k.0 && Dated(o.decidedAt, k.1)
    {
      KeyExactly(o.workspace, o.decidedAt, k);
    }
    forall p | p in rows
      ensures PricingKey(p) == k <==> p.workspace == k.0 && Dated(p.month, k.1)
    {
      KeyExactly(p.workspace, p.month, k);
    }
    hide EventKey, OutputKey, PricingKey, EventOk, OutputOk, PricingOk;
    assert k in pricing <==> exists p | p in rows :: PricingKey(p) == k;
  }

  lemma KeysReported(report: seq<Row>, k: Key)
    ensures k in KeysOf(report) <==> exists i | 0 <= i < |report| :: report[i].key == k
  {
    if i :| 0 <= i < |report| && report[i].key == k {
      assert KeysOf(report)[i] == k;
    }
  }

  /** Every price is printed in the row of its workspace-month, and decides its margin, overage and throttle. */
  lemma PricesArePrinted(r: Row, events: seq<CostEvent>, outputs: seq<Output>,
                         pricing: map<Key, Price>, rows: seq<PricingRow>, p: PricingRow)
    requires PricingsOk(rows) && Prices(pricing, rows) && p in rows
    requires RowStates(r, events, outputs, pricing) && r.key.0 == p.workspace && Dated(p.month, r.key.1)
    ensures p.revenue.Some? && p.included.Some? && p.overage.Some? && p.throttle.Some? && p.hardCap.Some?
    ensures var total := Measure(events, Amount(), r.key);
      && r.revenue == Some(Quantize(p.revenue.value))
      && r.margin ==
           (if p.revenue.value == 0.0 then None else Some(Quantize((p.revenue.value - total) / p.revenue.value)))
      && r.included == Some(Quantize(p.included.value))
      && r.overageOutputs ==
           Some(Quantize(if r.accepted as real <= p.included.value then 0.0 else r.accepted as real - p.included.value))
      && r.overage == Some(Quantize(p.overage.value))
      && r.throttle == Some(p.throttle.value <= total)
      && r.hardCap == Some(Quantize(p.hardCap.value))
  {
    MonthExactly(p.month);
    hide Quantize, Measure, Dated, NoDuplicates;
  }

  // ---- The order of the rows --------------------------------------------------------------------

  /** `a` ends at `n`, or has a smaller code point there, after the same `n` characters. */
  predicate PartAt(a: string, b: string, n: nat) {
    n <= |a| && n < |b| && a[..n] == b[..n] && (n == |a| || a[n] < b[n])
  }

  lemma PartHead(a: string, b: string, n: nat)
    requires PartAt(a, b, n)
    ensures n > 0 ==> a != [] && b != [] && a[0] == b[0]
  {
    if n > 0 {
      assert a[..n][0] == b[..n][0];
    }
  }

  lemma PartLater(a: string, b: string, n: nat)
    requires a != [] && b != [] && a[0] == b[0]
    ensures PartAt(a, b, n + 1) <==> PartAt(a[1..], b[1..], n)
  {
    if n < |a| && n < |b| {
      assert a[..n + 1] == [a[0]] + a[1..][..n] && b[..n + 1] == [b[0]] + b[1..][..n];
    }
  }

  /** One string comes before another exactly when they part so at some position. */
  lemma {:induction false} StringLessExactly(a: string, b: string)
    ensures StringLess(a, b) <==> exists n: nat :: PartAt(a, b, n)
  {
    if a != [] && b != [] && a[0] == b[0] {
      StringLessExactly(a[1..], b[1..]);
      if n: nat :| PartAt(a[1..], b[1..], n) {
        PartLater(a, b, n);
      }
      assert !PartAt(a, b, 0);
      if n: nat :| PartAt(a, b, n) {
        PartLater(a, b, n - 1);
      }
    } else {
      assert PartAt(a, b, 0) <==> StringLess(a, b);
      if n: nat :| PartAt(a, b, n) {
        PartHead(a, b, n);
      }
    }
  }
}

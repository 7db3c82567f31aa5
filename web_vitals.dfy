/**
 * Web-vitals reporting: the per-metric thresholds, the three-band rating, and
 * what the LCP, CLS and FCP observers report for each batch of performance
 * entries the browser delivers. A batch is a parameter; the observer's
 * callback is a method call.
 */
module WebVitals {
  import opened Wrappers

  datatype Rating = Good | NeedsImprovement | Poor

  /** The rating's place from best to worst. */
  function Rank(r: Rating): nat {
    match r
    case Good => 0
    case NeedsImprovement => 1
    case Poor => 2
  }

  datatype Threshold = Threshold(good: real, poor: real)

  /** `THRESHOLDS[name]`: the metrics with an entry, in milliseconds except for the unitless CLS. */
  function Thresholds(name: string): Option<Threshold> {
    if name == "LCP" then Some(Threshold(2500.0, 4000.0))
    else if name == "INP" then Some(Threshold(200.0, 500.0))
    else if name == "CLS" then Some(Threshold(0.1, 0.25))
    else if name == "FCP" then Some(Threshold(1800.0, 3000.0))
    else if name == "TTFB" then Some(Threshold(800.0, 1800.0))
    else None
  }

  function GetRating(name: string, value: real): Rating {
    match Thresholds(name)
    case None => Good
    case Some(t) =>
      if value <= t.good then Good
      else if value <= t.poor then NeedsImprovement
      else Poor
  }

  /** The three bands, and the default for a metric without thresholds. */
  lemma RatingBands(name: string, value: real)
    ensures Thresholds(name).None? ==> GetRating(name, value) == Good
    ensures Thresholds(name).Some? ==>
      var t := Thresholds(name).value;
      && (GetRating(name, value) == Good <==> value <= t.good)
      && (GetRating(name, value) == NeedsImprovement <==> t.good < value <= t.poor)
      && (GetRating(name, value) == Poor <==> t.poor < value)
  {
  }

  /** Every threshold entry leaves room for the middle band. */
  lemma ThresholdsOrdered(name: string)
    ensures Thresholds(name).Some? ==> 0.0 < Thresholds(name).value.good < Thresholds(name).value.poor
    ensures Thresholds(name).Some? <==> name in {"LCP", "INP", "CLS", "FCP", "TTFB"}
  {
  }

  /** For one metric, a larger value never earns a better rating. */
  lemma RatingMonotone(name: string, v1: real, v2: real)
    requires v1 <= v2
    ensures Rank(GetRating(name, v1)) <= Rank(GetRating(name, v2))
  {
    ThresholdsOrdered(name);
  }

  // ----- entries and reports -----

  /** A performance entry; `value` and `hadRecentInput` are the layout-shift fields. */
  datatype PerformanceEntry = PerformanceEntry(name: string, startTime: real, value: real, hadRecentInput: bool)

  datatype Metric = Metric(name: string, value: real, rating: Rating, delta: real, id: string, entries: seq<PerformanceEntry>)

  /**
   * `measureLCP`'s callback for one batch: a report on the last entry only. An
   * empty batch makes the callback fail before it reports anything.
   */
  function LcpReport(batch: seq<PerformanceEntry>): (r: Option<Metric>)
    ensures r.Some? <==> batch != []
  {
    if batch == [] then None
    else
      var last := batch[|batch| - 1];
      Some(Metric("LCP", last.startTime, GetRating("LCP", last.startTime), last.startTime, "lcp", [last]))
  }

  /** Only the last entry of a batch matters, and the report is about it alone. */
  lemma LcpUsesLastEntry(earlier: seq<PerformanceEntry>, others: seq<PerformanceEntry>, last: PerformanceEntry)
    ensures LcpReport(earlier + [last]) == LcpReport(others + [last])
    ensures var m := LcpReport(earlier + [last]).value;
      m.value == m.delta == last.startTime && m.entries == [last] && m.id == "lcp"
      && m.rating == GetRating("LCP", last.startTime)
  {
  }

  // ----- cumulative layout shift -----

  /** The layout shifts that count: those without recent input, in arrival order. */
  function Counted(entries: seq<PerformanceEntry>): seq<PerformanceEntry> {
    if entries == [] then []
    else
      var last := entries[|entries| - 1];
      Counted(entries[..|entries| - 1]) + (if last.hadRecentInput then [] else [last])
  }

  function ShiftSum(entries: seq<PerformanceEntry>): real {
    if entries == [] then 0.0 else ShiftSum(entries[..|entries| - 1]) + entries[|entries| - 1].value
  }

  lemma {:induction false} CountedAppend(a: seq<PerformanceEntry>, b: seq<PerformanceEntry>)
    ensures Counted(a + b) == Counted(a) + Counted(b)
    decreases |b|
  {
    if b == [] {
      assert a + b == a;
    } else {
      var b' := b[..|b| - 1];
      assert (a + b)[..|a + b| - 1] == a + b';
      CountedAppend(a, b');
    }
  }

  lemma {:induction false} ShiftSumAppend(a: seq<PerformanceEntry>, b: seq<PerformanceEntry>)
    ensures ShiftSum(a + b) == ShiftSum(a) + ShiftSum(b)
    decreases |b|
  {
    if b == [] {
      assert a + b == a;
    } else {
      var b' := b[..|b| - 1];
      assert (a + b)[..|a + b| - 1] == a + b';
      ShiftSumAppend(a, b');
    }
  }

  lemma CountedStep(batch: seq<PerformanceEntry>, i: nat)
    requires i < |batch|
    ensures Counted(batch[..i + 1]) == Counted(batch[..i]) + (if batch[i].hadRecentInput then [] else [batch[i]])
  {
    assert batch[..i + 1][..i] == batch[..i];
  }

  lemma ShiftSumStep(a: seq<PerformanceEntry>, e: PerformanceEntry)
    ensures ShiftSum(a + [e]) == ShiftSum(a) + e.value
  {
    assert (a + [e])[..|a|] == a;
  }

  /** An entry is counted exactly when it had no recent input; nothing else enters the list. */
  lemma {:induction false} CountedMembers(entries: seq<PerformanceEntry>, e: PerformanceEntry)
    ensures e in Counted(entries) <==> e in entries && !e.hadRecentInput
    decreases |entries|
  {
    if entries != [] {
      var init := entries[..|entries| - 1];
      CountedMembers(init, e);
      assert entries == init + [entries[|entries| - 1]];
    }
  }

  /** `measureCLS`'s closure: the running sum and the counted entries, kept across batches. */
  class ClsObserver {
    var clsValue: real
    var clsEntries: seq<PerformanceEntry>
    /** Every entry delivered so far, counted or not. */
    ghost var seen: seq<PerformanceEntry>

    ghost predicate Valid()
      reads this
    {
      clsEntries == Counted(seen) && clsValue == ShiftSum(clsEntries)
    }

    constructor ()
      ensures Valid() && clsValue == 0.0 && clsEntries == [] && seen == []
    {
      clsValue := 0.0;
      clsEntries := [];
      seen := [];
    }

    /** The observer's callback: add up the batch's counted shifts, then report the total so far. */
    method OnEntries(batch: seq<PerformanceEntry>) returns (report: Metric)
      requires Valid()
      modifies this
      ensures Valid()
      ensures seen == old(seen) + batch
      ensures clsEntries == old(clsEntries) + Counted(batch)
      ensures clsValue == old(clsValue) + ShiftSum(Counted(batch))
      ensures report == Metric("CLS", clsValue, GetRating("CLS", clsValue), clsValue, "cls", clsEntries)
    {
      var i := 0;
      ghost var added: seq<PerformanceEntry> := [];
      while i < |batch|
        invariant 0 <= i <= |batch|
        invariant seen == old(seen)
        invariant added == Counted(batch[..i])
        invariant clsEntries == old(clsEntries) + added
        invariant clsValue == old(clsValue) + ShiftSum(added)
      {
        var entry := batch[i];
        CountedStep(batch, i);
        if !entry.hadRecentInput {
          ShiftSumStep(added, entry);
          clsValue := clsValue + entry.value;
          clsEntries := clsEntries + [entry];
          added := added + [entry];
        }
        i := i + 1;
      }
      assert batch[..i] == batch;
      ShiftSumAppend(old(clsEntries), added);
      CountedAppend(old(seen), batch);
      seen := seen + batch;
      report := Metric("CLS", clsValue, GetRating("CLS", clsValue), clsValue, "cls", clsEntries);
    }
  }

  /** Two batches report what one batch with both would report. */
  method ClsIsCumulative(b1: seq<PerformanceEntry>, b2: seq<PerformanceEntry>) returns (second: Metric, joint: Metric)
    ensures second == joint
    ensures second.value == ShiftSum(Counted(b1 + b2))
  {
    var o2 := new ClsObserver();
    joint := o2.OnEntries(b1 + b2);
    var o1 := new ClsObserver();
    var _ := o1.OnEntries(b1);
    assert o1.clsEntries == Counted(b1);
    second := o1.OnEntries(b2);
    assert o1.clsEntries == Counted(b1) + Counted(b2);
    assert o1.clsValue == ShiftSum(Counted(b1)) + ShiftSum(Counted(b2));
    CountedAppend(b1, b2);
    ShiftSumAppend(Counted(b1), Counted(b2));
  }

  // ----- first contentful paint -----

  const FirstContentfulPaint := "first-contentful-paint"

  function FcpMetric(e: PerformanceEntry): Metric {
    Metric("FCP", e.startTime, GetRating("FCP", e.startTime), e.startTime, "fcp", [e])
  }

  /** The reports one batch yields while connected: one per entry named `first-contentful-paint`, in order. */
  function FcpReports(batch: seq<PerformanceEntry>): seq<Metric> {
    if batch == [] then []
    else
      var last := batch[|batch| - 1];
      FcpReports(batch[..|batch| - 1]) + (if last.name == FirstContentfulPaint then [FcpMetric(last)] else [])
  }

  /** Each report is about one first-contentful-paint entry of the batch, and each such entry is reported. */
  lemma {:induction false} FcpReportsAreFcp(batch: seq<PerformanceEntry>)
    ensures forall m :: m in FcpReports(batch) ==>
      m.name == "FCP" && m.id == "fcp" && |m.entries| == 1 && m.entries[0] in batch
      && m.entries[0].name == FirstContentfulPaint && m.value == m.delta == m.entries[0].startTime
    ensures forall e :: e in batch && e.name == FirstContentfulPaint ==> FcpMetric(e) in FcpReports(batch)
    ensures FcpReports(batch) == [] <==> forall e :: e in batch ==> e.name != FirstContentfulPaint
    decreases |batch|
  {
    if batch != [] {
      var init := batch[..|batch| - 1];
      FcpReportsAreFcp(init);
      assert batch == init + [batch[|batch| - 1]];
    }
  }

  /** `measureFCP`'s observer: connected until it has reported. */
  class FcpObserver {
    var connected: bool

    constructor ()
      ensures connected
    {
      connected := true;
    }

    /**
     * The observer's callback. A disconnected observer is not called; the loop
     * over the current batch goes on after `disconnect`.
     */
    method OnEntries(batch: seq<PerformanceEntry>) returns (reports: seq<Metric>)
      modifies this
      ensures reports == if old(connected) then FcpReports(batch) else []
      ensures connected <==> old(connected) && FcpReports(batch) == []
    {
      reports := [];
      if !connected {
        return;
      }
      var i := 0;
      while i < |batch|
        invariant 0 <= i <= |batch|
        invariant reports == FcpReports(batch[..i])
        invariant connected <==> reports == []
      {
        assert batch[..i + 1][..i] == batch[..i];
        if batch[i].name == FirstContentfulPaint {
          reports := reports + [FcpMetric(batch[i])];
          connected := false;
        }
        i := i + 1;
      }
      assert batch[..i] == batch;
    }
  }
}

/** The Web-Vitals overlay (portfolio/src/components/PerformanceMonitor.tsx): the observer
    callbacks that record FCP, LCP, FID, CLS and TTFB from performance entries, and the
    score bands used to colour and label each reading. */
module PerformanceMonitor {
  import opened Base

  /** The `{ good, poor }` limits passed to the scoring helpers. */
  datatype Limits = Limits(good: real, poor: real)

  const FcpLimits := Limits(1800.0, 3000.0)
  const LcpLimits := Limits(2500.0, 4000.0)
  const FidLimits := Limits(100.0, 300.0)
  const ClsLimits := Limits(0.1, 0.25)
  const TtfbLimits := Limits(800.0, 1800.0)

  /** `getScoreColor`. A missing reading is `None`. */
  function ScoreColor(value: Option<real>, t: Limits): string {
    if value.None? then "text-gray-500"
    else if value.value <= t.good then "text-green-500"
    else if value.value <= t.poor then "text-yellow-500"
    else "text-red-500"
  }

  /** `getScoreText`. */
  function ScoreText(value: Option<real>, t: Limits): string {
    if value.None? then "N/A"
    else if value.value <= t.good then "Good"
    else if value.value <= t.poor then "Needs Improvement"
    else "Poor"
  }

  /** The bands, from best to worst, with no reading first. */
  datatype Band = NoReading | GoodBand | NeedsImprovementBand | PoorBand

  /** The band a reading falls in, stated by intervals. */
  predicate InBand(value: Option<real>, t: Limits, b: Band) {
    match b
    case NoReading => value.None?
    case GoodBand => value.Some? && value.value <= t.good
    case NeedsImprovementBand => value.Some? && t.good < value.value <= t.poor
    case PoorBand => value.Some? && value.value > t.good && value.value > t.poor
  }

  function Severity(b: Band): nat {
    match b
    case NoReading => 0
    case GoodBand => 1
    case NeedsImprovementBand => 2
    case PoorBand => 3
  }

  function TextOf(b: Band): string {
    match b
    case NoReading => "N/A"
    case GoodBand => "Good"
    case NeedsImprovementBand => "Needs Improvement"
    case PoorBand => "Poor"
  }

  function ColorOf(b: Band): string {
    match b
    case NoReading => "text-gray-500"
    case GoodBand => "text-green-500"
    case NeedsImprovementBand => "text-yellow-500"
    case PoorBand => "text-red-500"
  }

  /** Every reading lies in exactly one band, and the colour and the text both name it:
      they never disagree. */
  lemma ColorAndTextNameOneBand(value: Option<real>, t: Limits, b: Band)
    ensures InBand(value, t, b) <==> ScoreText(value, t) == TextOf(b)
    ensures InBand(value, t, b) <==> ScoreColor(value, t) == ColorOf(b)
  {
  }

  /** Colour and text carry the same information: two readings get the same colour
      exactly when they get the same text. */
  lemma SameColorIffSameText(v: Option<real>, w: Option<real>, t: Limits)
    ensures ScoreColor(v, t) == ScoreColor(w, t) <==> ScoreText(v, t) == ScoreText(w, t)
  {
  }

  function BandOf(value: Option<real>, t: Limits): (b: Band)
    ensures InBand(value, t, b)
  {
    if value.None? then NoReading
    else if value.value <= t.good then GoodBand
    else if value.value <= t.poor then NeedsImprovementBand
    else PoorBand
  }

  /** With `good <= poor` a larger reading never gets a better band. */
  lemma WorseReadingNeverScoresBetter(v: real, w: real, t: Limits)
    requires t.good <= t.poor && v <= w
    ensures Severity(BandOf(Some(v), t)) <= Severity(BandOf(Some(w), t))
    ensures ScoreText(Some(w), t) == "Good" ==> ScoreText(Some(v), t) == "Good"
    ensures ScoreText(Some(v), t) == "Poor" ==> ScoreText(Some(w), t) == "Poor"
  {
  }

  /** The readings, `null` until an observer records one. */
  datatype Metrics = Metrics(fcp: Option<real>, lcp: Option<real>, fid: Option<real>,
                             cls: Option<real>, ttfb: Option<real>)

  /** What a reading cell shows: `metrics.x ? <value> : 'N/A'`, so a reading of exactly 0
      is shown as 'N/A' like a missing one. Rounding and `toFixed` are not modelled. */
  datatype Display = NotAvailable | Reading(value: real)

  function Shown(value: Option<real>): (d: Display)
    ensures d.NotAvailable? <==> value.None? || value.value == 0.0
    ensures d.Reading? ==> value == Some(d.value)
  {
    if value.Some? && value.value != 0.0 then Reading(value.value) else NotAvailable
  }

  /** An FCP of exactly 0 shows 'N/A' while its colour says it is good. */
  lemma ZeroFcpShowsNotAvailableButGood()
    ensures Shown(Some(0.0)) == NotAvailable
    ensures ScoreColor(Some(0.0), FcpLimits) == "text-green-500"
    ensures ScoreText(Some(0.0), FcpLimits) == "Good"
  {
  }

  /** A `paint` entry. */
  datatype PaintEntry = PaintEntry(name: string, startTime: real)

  const FirstContentfulPaint := "first-contentful-paint"

  /** `entries.find(entry => entry.name === 'first-contentful-paint')`. */
  function FindFcp(entries: seq<PaintEntry>): (r: Option<nat>)
    ensures r.Some? ==> r.value < |entries| && entries[r.value].name == FirstContentfulPaint
    ensures r.Some? ==> forall k :: 0 <= k < r.value ==> entries[k].name != FirstContentfulPaint
    ensures r.None? ==> forall k :: 0 <= k < |entries| ==> entries[k].name != FirstContentfulPaint
  {
    if entries == [] then None
    else if entries[0].name == FirstContentfulPaint then Some(0)
    else
      var r := FindFcp(entries[1..]);
      if r.Some? then Some(r.value + 1) else None
  }

  /** A `first-input` entry. */
  datatype FirstInputEntry = FirstInputEntry(processingStart: real, startTime: real)

  /** `processingStart && startTime`: both truthy, that is non-zero. */
  predicate Measurable(e: FirstInputEntry) {
    e.processingStart != 0.0 && e.startTime != 0.0
  }

  function Delay(e: FirstInputEntry): real {
    e.processingStart - e.startTime
  }

  /** The FID after a batch: the delay of the last measurable entry, or the previous
      reading when none is measurable. */
  function LatestFid(entries: seq<FirstInputEntry>, prev: Option<real>): Option<real>
    decreases |entries|
  {
    if entries == [] then prev
    else
      var last := entries[|entries| - 1];
      if Measurable(last) then Some(Delay(last)) else LatestFid(entries[..|entries| - 1], prev)
  }

  /** A batch with no measurable entry (a zero `processingStart` or `startTime` in each)
      leaves the FID reading as it was. */
  lemma {:induction false} UnmeasurableBatchIgnored(entries: seq<FirstInputEntry>, prev: Option<real>)
    requires forall k :: 0 <= k < |entries| ==> !Measurable(entries[k])
    ensures LatestFid(entries, prev) == prev
    decreases |entries|
  {
    if entries != [] {
      var init := entries[..|entries| - 1];
      assert forall k :: 0 <= k < |init| ==> init[k] == entries[k];
      UnmeasurableBatchIgnored(init, prev);
    }
  }

  /** Otherwise the FID recorded is the delay of the batch's last measurable entry. */
  lemma {:induction false} LatestFidIsLastMeasurable(entries: seq<FirstInputEntry>, prev: Option<real>, k: nat)
    requires k < |entries| && Measurable(entries[k])
    requires forall j :: k < j < |entries| ==> !Measurable(entries[j])
    ensures LatestFid(entries, prev) == Some(Delay(entries[k]))
    decreases |entries|
  {
    var n := |entries| - 1;
    if k < n {
      var init := entries[..n];
      assert forall j :: k < j < n ==> init[j] == entries[j];
      LatestFidIsLastMeasurable(init, prev, k);
    }
  }

  /** A `layout-shift` entry. */
  datatype LayoutShift = LayoutShift(hadRecentInput: bool, value: real)

  /** The shift an entry adds to CLS: nothing when it follows recent input. */
  function Contribution(e: LayoutShift): real {
    if e.hadRecentInput then 0.0 else e.value
  }

  /** The layout shift of a sequence of entries, summed from the front. */
  function ClsSum(entries: seq<LayoutShift>): real
    decreases |entries|
  {
    if entries == [] then 0.0 else ClsSum(entries[..|entries| - 1]) + Contribution(entries[|entries| - 1])
  }

  /** CLS is additive over batches: two callbacks add up to one callback over both. */
  lemma {:induction false} ClsSumAppend(a: seq<LayoutShift>, b: seq<LayoutShift>)
    ensures ClsSum(a + b) == ClsSum(a) + ClsSum(b)
    decreases |b|
  {
    if b != [] {
      var n := |b| - 1;
      assert (a + b)[..|a + b| - 1] == a + b[..n];
      assert (a + b)[|a + b| - 1] == b[n];
      ClsSumAppend(a, b[..n]);
    } else {
      assert a + b == a;
    }
  }

  /** An entry with recent input changes nothing, wherever it appears. */
  lemma RecentInputIgnored(a: seq<LayoutShift>, e: LayoutShift, b: seq<LayoutShift>)
    requires e.hadRecentInput
    ensures ClsSum(a + [e] + b) == ClsSum(a + b)
  {
    ClsSumAppend(a + [e], b);
    ClsSumAppend(a, [e]);
    ClsSumAppend(a, b);
    assert [e][..0] == [];
  }

  /** Shifts are never negative, so neither is their sum. */
  lemma {:induction false} ClsSumNonNegative(entries: seq<LayoutShift>)
    requires forall k :: 0 <= k < |entries| ==> entries[k].value >= 0.0
    ensures ClsSum(entries) >= 0.0
    decreases |entries|
  {
    if entries != [] {
      ClsSumNonNegative(entries[..|entries| - 1]);
    }
  }

  predicate Counts(entries: seq<LayoutShift>) {
    exists k :: 0 <= k < |entries| && !entries[k].hadRecentInput
  }

  /** A `navigation` entry. */
  datatype NavigationTiming = NavigationTiming(requestStart: real, responseStart: real)

  /** The component: `metrics` is its state, and `clsValue` the running total the CLS
      observer's closure keeps across callbacks. */
  class Monitor {
    var metrics: Metrics
    var clsValue: real

    /** The first render and the effect's `let clsValue = 0`. */
    constructor ()
      ensures metrics == Metrics(None, None, None, None, None) && clsValue == 0.0
    {
      metrics := Metrics(None, None, None, None, None);
      clsValue := 0.0;
    }

    /** The `paint` observer: records the start time of the first FCP entry, if any. */
    method OnPaint(entries: seq<PaintEntry>)
      modifies this`metrics
      ensures var i := FindFcp(entries);
              metrics == if i.Some? then old(metrics).(fcp := Some(entries[i.value].startTime)) else old(metrics)
    {
      var found := FindFcp(entries);
      if found.Some? {
        metrics := metrics.(fcp := Some(entries[found.value].startTime));
      }
    }

    /** The `largest-contentful-paint` observer: the last entry's start time wins. */
    method OnLargestPaint(startTimes: seq<real>)
      modifies this`metrics
      ensures metrics == if startTimes == [] then old(metrics)
                         else old(metrics).(lcp := Some(startTimes[|startTimes| - 1]))
    {
      if |startTimes| > 0 {
        var lastEntry := startTimes[|startTimes| - 1];
        metrics := metrics.(lcp := Some(lastEntry));
      }
    }

    /** The `first-input` observer: each measurable entry overwrites the reading. */
    method OnFirstInput(entries: seq<FirstInputEntry>)
      modifies this`metrics
      ensures metrics == old(metrics).(fid := LatestFid(entries, old(metrics).fid))
    {
      var i := 0;
      while i < |entries|
        invariant 0 <= i <= |entries|
        invariant metrics == old(metrics).(fid := LatestFid(entries[..i], old(metrics).fid))
      {
        assert entries[..i + 1][..i] == entries[..i];
        var e := entries[i];
        if Measurable(e) {
          var fid := e.processingStart - e.startTime;
          metrics := metrics.(fid := Some(fid));
        }
        i := i + 1;
      }
      assert entries[..i] == entries;
    }

    /** The `layout-shift` observer: adds each entry without recent input to the running
      total and records the total. */
    method OnLayoutShift(entries: seq<LayoutShift>)
      modifies this`metrics, this`clsValue
      ensures clsValue == old(clsValue) + ClsSum(entries)
      ensures metrics == if Counts(entries) then old(metrics).(cls := Some(clsValue)) else old(metrics)
    {
      var i := 0;
      while i < |entries|
        invariant 0 <= i <= |entries|
        invariant clsValue == old(clsValue) + ClsSum(entries[..i])
        invariant metrics == if Counts(entries[..i]) then old(metrics).(cls := Some(clsValue)) else old(metrics)
      {
        var prefix := entries[..i + 1];
        assert prefix[..i] == entries[..i];
        var e := entries[i];
        if !e.hadRecentInput {
          clsValue := clsValue + e.value;
          metrics := metrics.(cls := Some(clsValue));
          assert !prefix[i].hadRecentInput;
        } else {
          assert Counts(prefix) ==> Counts(entries[..i]) by {
            if Counts(prefix) {
              var k :| 0 <= k < |prefix| && !prefix[k].hadRecentInput;
              assert k < i && entries[..i][k] == prefix[k];
            }
          }
        }
        assert Counts(entries[..i]) ==> Counts(prefix) by {
          if Counts(entries[..i]) {
            var k :| 0 <= k < i && !entries[..i][k].hadRecentInput;
            assert prefix[k] == entries[..i][k];
          }
        }
        i := i + 1;
      }
      assert entries[..i] == entries;
    }

    /** The TTFB reading from the first `navigation` entry, when there is one. */
    method OnNavigation(nav: Option<NavigationTiming>)
      modifies this`metrics
      ensures metrics == if nav.None? then old(metrics)
                         else old(metrics).(ttfb := Some(nav.value.responseStart - nav.value.requestStart))
    {
      if nav.Some? {
        metrics := metrics.(ttfb := Some(nav.value.responseStart - nav.value.requestStart));
      }
    }
  }
}

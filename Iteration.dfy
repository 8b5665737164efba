/** `IterationHelper`: feedback-checkpoint schedules and sprint breakdowns,
    integer arithmetic over a number of days. */
module Iteration {
  import opened Wrappers
  import opened Text
  import opened Json
  import opened Validation

  // ---------------------------------------------------------------------
  // Feedback loops

  /** The checkpoint labels for a focus area; an unknown area falls back to
      the technical list. */
  function CheckpointLabels(focusArea: string): (labels: seq<string>)
    ensures |labels| == 5
  {
    if focusArea == "product" then
      ["User feedback collection", "Feature validation", "Usability testing",
       "Market response analysis", "Stakeholder review"]
    else if focusArea == "research" then
      ["Methodology validation", "Preliminary results review", "Peer feedback session",
       "Data quality check", "Hypothesis refinement"]
    else
      ["Architecture review", "Code quality check", "Integration testing",
       "Performance validation", "Security audit"]
  }

  /** `Math.max(1, Math.floor(totalDays / 5))` */
  function Interval(totalDays: nat): (interval: nat)
    ensures interval >= 1
    ensures totalDays >= 5 ==> 5 * interval <= totalDays
  {
    if totalDays / 5 < 1 then 1 else totalDays / 5
  }

  /** `` `Day ${day}: ${title}` `` */
  function Checkpoint(day: nat, title: string): string {
    "Day " + NatToString(day) + ": " + title
  }

  function Min(a: int, b: int): int {
    if a <= b then a else b
  }

  /** The day of the i-th checkpoint. */
  function CheckpointDayAt(totalDays: nat, i: nat): nat {
    (i + 1) * Interval(totalDays)
  }

  /** `generateFeedbackLoops(focusArea, totalDays)`: as many checkpoints as
      fit, at most one per label. The clamp `Math.min(…, totalDays)` never
      takes effect: every day is a multiple of the interval within the
      total. */
  method GenerateFeedbackLoops(focusArea: string, totalDays: nat) returns (checkpoints: seq<string>)
    ensures |checkpoints| == Min(5, totalDays)
    ensures forall i :: 0 <= i < |checkpoints| ==>
      checkpoints[i] == Checkpoint(CheckpointDayAt(totalDays, i), CheckpointLabels(focusArea)[i])
    ensures forall i :: 0 <= i < |checkpoints| ==> 1 <= CheckpointDayAt(totalDays, i) <= totalDays
    ensures CheckpointTiming(JArr(Strings(checkpoints))) == Success(true)
  {
    checkpoints := [];
    var interval := Interval(totalDays);
    var templates := CheckpointLabels(focusArea);
    var i := 0;
    while i < |templates| && i * interval < totalDays
      invariant 0 <= i <= |templates|
      invariant i <= Min(5, totalDays)
      invariant |checkpoints| == i
      invariant forall k :: 0 <= k < i ==>
        1 <= CheckpointDayAt(totalDays, k) <= totalDays &&
        checkpoints[k] == Checkpoint(CheckpointDayAt(totalDays, k), templates[k])
    {
      DayWithinTotal(totalDays, i);
      var day := Min((i + 1) * interval, totalDays);
      checkpoints := checkpoints + [Checkpoint(day, templates[i])];
      i := i + 1;
    }
    LoopRunsToMin(totalDays, i);
    FeedbackLoopsPassTiming(totalDays, templates, checkpoints);
  }

  /** Inside the schedule, the i-th day stays within the total. */
  lemma DayWithinTotal(totalDays: nat, i: nat)
    requires i < 5 && i < totalDays
    ensures 1 <= CheckpointDayAt(totalDays, i) <= totalDays
    ensures Min((i + 1) * Interval(totalDays), totalDays) == CheckpointDayAt(totalDays, i)
    ensures i < Min(5, totalDays)
  {
    var interval := Interval(totalDays);
    if totalDays >= 5 {
      assert (i + 1) * interval <= 5 * interval;
    }
  }

  /** The loop stops exactly after `min(5, totalDays)` checkpoints. */
  lemma LoopRunsToMin(totalDays: nat, i: nat)
    requires i <= Min(5, totalDays)
    requires !(i < 5 && i * Interval(totalDays) < totalDays)
    ensures i == Min(5, totalDays)
  {
    if i < 5 && totalDays >= 5 {
      EarlyCheckpointFits(totalDays, i);
    }
  }

  lemma EarlyCheckpointFits(totalDays: nat, i: nat)
    requires i < 5 <= totalDays
    ensures i * Interval(totalDays) < totalDays
  {
    var interval := Interval(totalDays);
    assert i * interval <= 4 * interval;
  }

  /** The days of a feedback schedule strictly increase, and the validator
      reads them back from the checkpoint texts: a generated schedule, with
      whatever labels, always passes `validateCheckpointTiming`. */
  lemma FeedbackLoopsPassTiming(totalDays: nat, labels: seq<string>, checkpoints: seq<string>)
    requires |checkpoints| <= |labels|
    requires forall i :: 0 <= i < |checkpoints| ==>
      checkpoints[i] == Checkpoint(CheckpointDayAt(totalDays, i), labels[i])
    ensures CheckpointTiming(JArr(Strings(checkpoints))) == Success(true)
  {
    var n := |checkpoints|;
    var days := ScheduleDays(totalDays, n);
    var rests := Rests(labels[..n]);
    ScheduleTexts(totalDays, labels, checkpoints, days, rests);
    ScheduleDaysIncrease(totalDays, n);
    IncreasingDaysPass(Strings(checkpoints), days, rests);
  }

  lemma ScheduleDaysIncrease(totalDays: nat, n: nat)
    ensures StrictlyIncreasing(ScheduleDays(totalDays, n))
  {
    forall i, j | 0 <= i < j < n ensures ScheduleDays(totalDays, n)[i] < ScheduleDays(totalDays, n)[j] {
      DaysIncrease(totalDays, i, j);
    }
  }

  /** The days of the first `n` checkpoints. */
  function ScheduleDays(totalDays: nat, n: nat): (days: seq<nat>)
    ensures |days| == n
    ensures forall i :: 0 <= i < n ==> days[i] == CheckpointDayAt(totalDays, i)
  {
    if n == 0 then [] else ScheduleDays(totalDays, n - 1) + [CheckpointDayAt(totalDays, n - 1)]
  }

  /** What follows the day number in each checkpoint text. */
  function Rests(labels: seq<string>): (rests: seq<string>)
    ensures |rests| == |labels|
    ensures forall i :: 0 <= i < |labels| ==> rests[i] == ": " + labels[i]
  {
    if labels == [] then [] else [": " + labels[0]] + Rests(labels[1..])
  }

  /** Each checkpoint text is `Day <day>` followed by a rest without a
      leading digit. */
  lemma ScheduleTexts(totalDays: nat, labels: seq<string>, checkpoints: seq<string>, days: seq<nat>, rests: seq<string>)
    requires |checkpoints| <= |labels|
    requires forall i :: 0 <= i < |checkpoints| ==>
      checkpoints[i] == Checkpoint(CheckpointDayAt(totalDays, i), labels[i])
    requires days == ScheduleDays(totalDays, |checkpoints|)
    requires rests == Rests(labels[..|checkpoints|])
    ensures DayTexts(Strings(checkpoints), days, rests)
  {
    forall i | 0 <= i < |checkpoints|
      ensures days[i] > 0
      ensures rests[i] == [] || !IsDigit(rests[i][0])
      ensures Strings(checkpoints)[i] == JStr("Day " + NatToString(days[i]) + rests[i])
    {
      CheckpointText(days[i], labels[i]);
      DaysIncrease(totalDays, i, i + 1);
    }
  }

  /** A checkpoint text is `Day `, the day, then a rest that opens with `:`. */
  lemma CheckpointText(day: nat, title: string)
    ensures Checkpoint(day, title) == "Day " + NatToString(day) + (": " + title)
    ensures (": " + title)[0] == ':'
  {
  }

  /** Later checkpoints fall on later days. */
  lemma DaysIncrease(totalDays: nat, i: nat, j: nat)
    requires i < j
    ensures 0 < CheckpointDayAt(totalDays, i) < CheckpointDayAt(totalDays, j)
  {
    MultipleIncreasing(Interval(totalDays), i + 1, j + 1);
  }

  lemma MultipleIncreasing(interval: nat, a: nat, b: nat)
    requires interval >= 1 && a < b
    ensures a * interval < b * interval
  {
  }

  // ---------------------------------------------------------------------
  // Sprints

  /** The label `getSprintFocus` gives a sprint. */
  datatype SprintFocus = Foundation | Development | Refinement {
    /** Position in the project's progression. */
    function Rank(): nat {
      match this
      case Foundation => 0
      case Development => 1
      case Refinement => 2
    }
  }

  datatype Sprint = Sprint(sprint: int, startDay: int, endDay: int, duration: int, focus: SprintFocus)

  /** `getSprintFocus(sprintNumber, totalSprints)`: the ratio compared with
      0.3 and 0.7 by cross-multiplication. A zero total gives an infinite or
      NaN ratio, and so `refinement`. */
  function GetSprintFocus(sprintNumber: nat, totalSprints: nat): (r: SprintFocus)
    ensures totalSprints > 0 && sprintNumber >= totalSprints ==> r == Refinement
    ensures totalSprints >= 4 && sprintNumber <= 1 ==> r == Foundation
  {
    if totalSprints == 0 then Refinement
    else if 10 * sprintNumber <= 3 * totalSprints then Foundation
    else if 10 * sprintNumber <= 7 * totalSprints then Development
    else Refinement
  }

  /** A later sprint never has an earlier focus. */
  lemma SprintFocusMonotone(a: nat, b: nat, totalSprints: nat)
    requires a <= b
    ensures GetSprintFocus(a, totalSprints).Rank() <= GetSprintFocus(b, totalSprints).Rank()
  {
  }

  /** `Math.ceil(totalDays / sprintLength)` */
  function SprintCount(totalDays: nat, sprintLength: nat): (r: nat)
    requires sprintLength >= 1
    ensures r == 0 <==> totalDays == 0
    ensures r <= totalDays
  {
    CeilQuotient(totalDays, sprintLength);
    (totalDays + sprintLength - 1) / sprintLength
  }

  /** The rounded-up quotient is zero exactly for no days and never
      exceeds the days. */
  lemma CeilQuotient(totalDays: nat, sprintLength: nat)
    requires sprintLength >= 1
    ensures (totalDays + sprintLength - 1) / sprintLength == 0 <==> totalDays == 0
    ensures (totalDays + sprintLength - 1) / sprintLength <= totalDays
  {
    var x := totalDays + sprintLength - 1;
    var n, r := x / sprintLength, x % sprintLength;
    assert x == n * sprintLength + r && 0 <= r < sprintLength;
    if n == 0 {
      assert n * sprintLength == 0;
    } else {
      var k := n - 1;
      assert n * sprintLength == k * sprintLength + sprintLength;
      AtMostMultiple(k, sprintLength);
    }
  }

  lemma AtMostMultiple(k: nat, m: nat)
    requires m >= 1
    ensures k <= k * m
  {
    assert k * m == k + k * (m - 1);
  }


  /** The i-th (0-based) sprint of the breakdown. */
  function SprintAt(totalDays: nat, sprintLength: nat, i: nat): Sprint
    requires sprintLength >= 1
  {
    var startDay := i * sprintLength + 1;
    var endDay := Min((i + 1) * sprintLength, totalDays);
    Sprint(i + 1, startDay, endDay, endDay - startDay + 1,
           GetSprintFocus(i + 1, SprintCount(totalDays, sprintLength)))
  }

  /** The whole breakdown, sprint by sprint. */
  function Breakdown(totalDays: nat, sprintLength: nat): seq<Sprint>
    requires sprintLength >= 1
  {
    seq(SprintCount(totalDays, sprintLength), i requires 0 <= i => SprintAt(totalDays, sprintLength, i))
  }

  /** `calculateSprintBreakdown(totalDays, sprintLength)` */
  method CalculateSprintBreakdown(totalDays: nat, sprintLength: nat) returns (sprints: seq<Sprint>)
    requires sprintLength >= 1
    ensures sprints == Breakdown(totalDays, sprintLength)
  {
    sprints := [];
    var numberOfSprints := SprintCount(totalDays, sprintLength);
    for i := 0 to numberOfSprints
      invariant |sprints| == i
      invariant forall k :: 0 <= k < i ==> sprints[k] == SprintAt(totalDays, sprintLength, k)
    {
      var startDay := i * sprintLength + 1;
      var endDay := Min((i + 1) * sprintLength, totalDays);
      sprints := sprints + [Sprint(i + 1, startDay, endDay, endDay - startDay + 1,
                                   GetSprintFocus(i + 1, numberOfSprints))];
    }
  }

  /** `ceil(totalDays / sprintLength)` sprints cover the total: all of them
      reach it, all but the last stop short of it. */
  lemma CeilBounds(totalDays: nat, sprintLength: nat)
    requires sprintLength >= 1
    ensures SprintCount(totalDays, sprintLength) * sprintLength >= totalDays
    ensures SprintCount(totalDays, sprintLength) * sprintLength < totalDays + sprintLength
  {
    var x := totalDays + sprintLength - 1;
    var n := x / sprintLength;
    assert x == n * sprintLength + x % sprintLength;
  }

  /** Every sprint of the breakdown starts within the total. */
  lemma SprintStartsWithin(totalDays: nat, sprintLength: nat, i: nat)
    requires sprintLength >= 1
    requires i < SprintCount(totalDays, sprintLength)
    ensures i * sprintLength < totalDays
  {
    CeilBounds(totalDays, sprintLength);
    var n := SprintCount(totalDays, sprintLength);
    assert (i + 1) * sprintLength <= n * sprintLength;
  }

  /** Sum of the durations of a list of sprints. */
  function SumDurations(sprints: seq<Sprint>): int {
    if sprints == [] then 0 else SumDurations(sprints[..|sprints| - 1]) + sprints[|sprints| - 1].duration
  }

  /** The sprints are numbered from 1 and are contiguous: the first starts on
      day 1, each later one the day after the previous one ends, the last
      ends on the final day; each lasts from 1 to `sprintLength` days. */
  lemma BreakdownContiguous(totalDays: nat, sprintLength: nat)
    requires sprintLength >= 1
    ensures var s := Breakdown(totalDays, sprintLength);
      && (|s| == 0 <==> totalDays == 0)
      && (|s| > 0 ==> s[0].startDay == 1 && s[|s| - 1].endDay == totalDays)
      && (forall i :: 0 <= i < |s| ==> s[i].sprint == i + 1)
      && (forall i :: 0 <= i < |s| - 1 ==> s[i + 1].startDay == s[i].endDay + 1)
      && (forall i :: 0 <= i < |s| ==> s[i].duration == s[i].endDay - s[i].startDay + 1)
      && (forall i :: 0 <= i < |s| ==> 1 <= s[i].duration <= sprintLength)
  {
    var s := Breakdown(totalDays, sprintLength);
    var n := |s|;
    CeilBounds(totalDays, sprintLength);
    forall i | 0 <= i < n
      ensures s[i].sprint == i + 1
      ensures s[i].duration == s[i].endDay - s[i].startDay + 1
      ensures 1 <= s[i].duration <= sprintLength
      ensures i + 1 < n ==> s[i + 1].startDay == s[i].endDay + 1
    {
      SprintShape(totalDays, sprintLength, i);
      if i + 1 < n {
        SprintShape(totalDays, sprintLength, i + 1);
      }
    }
    if n > 0 {
      SprintShape(totalDays, sprintLength, 0);
      SprintShape(totalDays, sprintLength, n - 1);
    }
  }

  /** One sprint of the breakdown: its number, its first day, its last day
      (the end of its full length, or the total for the last sprint) and its
      duration. */
  lemma SprintShape(totalDays: nat, sprintLength: nat, i: nat)
    requires sprintLength >= 1
    requires i < SprintCount(totalDays, sprintLength)
    ensures var sp := SprintAt(totalDays, sprintLength, i);
      && sp.sprint == i + 1
      && sp.startDay == i * sprintLength + 1
      && sp.duration == sp.endDay - sp.startDay + 1
      && 1 <= sp.duration <= sprintLength
      && (i + 1 < SprintCount(totalDays, sprintLength) ==> sp.endDay == (i + 1) * sprintLength)
      && (i + 1 == SprintCount(totalDays, sprintLength) ==> sp.endDay == totalDays)
  {
    CeilBounds(totalDays, sprintLength);
    SprintStartsWithin(totalDays, sprintLength, i);
    assert (i + 1) * sprintLength == i * sprintLength + sprintLength;
    if i + 1 < SprintCount(totalDays, sprintLength) {
      SprintStartsWithin(totalDays, sprintLength, i + 1);
    } else {
      assert (i + 1) * sprintLength == SprintCount(totalDays, sprintLength) * sprintLength;
    }
  }

  /** The first k sprints last `min(k * sprintLength, totalDays)` days. */
  lemma {:induction false} SumDurationsPrefix(totalDays: nat, sprintLength: nat, k: nat)
    requires sprintLength >= 1
    requires k <= SprintCount(totalDays, sprintLength)
    ensures SumDurations(Breakdown(totalDays, sprintLength)[..k]) == Min(k * sprintLength, totalDays)
  {
    var s := Breakdown(totalDays, sprintLength);
    if k > 0 {
      SumDurationsPrefix(totalDays, sprintLength, k - 1);
      assert s[..k][..k - 1] == s[..k - 1];
      SprintShape(totalDays, sprintLength, k - 1);
      SprintStartsWithin(totalDays, sprintLength, k - 1);
      if k < SprintCount(totalDays, sprintLength) {
        SprintStartsWithin(totalDays, sprintLength, k);
      } else {
        CeilBounds(totalDays, sprintLength);
      }
    }
  }

  /** The sprint durations add up to the total number of days. */
  lemma BreakdownCoversDays(totalDays: nat, sprintLength: nat)
    requires sprintLength >= 1
    ensures SumDurations(Breakdown(totalDays, sprintLength)) == totalDays
  {
    var s := Breakdown(totalDays, sprintLength);
    SumDurationsPrefix(totalDays, sprintLength, |s|);
    CeilBounds(totalDays, sprintLength);
    assert s[..|s|] == s;
  }

  /** Focus labels never go backwards, and the last sprint is refinement. */
  lemma BreakdownFocus(totalDays: nat, sprintLength: nat)
    requires sprintLength >= 1
    ensures var s := Breakdown(totalDays, sprintLength);
      && (forall i, j :: 0 <= i <= j < |s| ==> s[i].focus.Rank() <= s[j].focus.Rank())
      && (|s| > 0 ==> s[|s| - 1].focus == Refinement)
  {
    var s := Breakdown(totalDays, sprintLength);
    var n := |s|;
    forall i, j | 0 <= i <= j < n ensures s[i].focus.Rank() <= s[j].focus.Rank() {
      SprintFocusMonotone(i + 1, j + 1, n);
    }
  }

  /** Fourteen days in sprints of seven: two sprints of a week, the first
      at ratio 0.5 (development), the second at 1.0 (refinement). */
  lemma SprintBreakdownExample()
    ensures Breakdown(14, 7) == [Sprint(1, 1, 7, 7, Development), Sprint(2, 8, 14, 7, Refinement)]
  {
    assert SprintCount(14, 7) == 2;
  }
}

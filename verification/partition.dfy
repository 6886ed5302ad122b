/** How `RunBuild` splits the requested duration into sets, and the break
    note it prints once the setlist is complete. */
module Partition {
  import opened Wrappers
  import opened Tracks

  /** Minutes deducted from every set of a multi-set performance to pay for breaks. */
  const BREAK_DEDUCTION: int := 10

  /** Per-set target lengths in minutes, as written in the source. The
      comparisons are strict, so 90, 150 and 180 fall through to a single set,
      and any duration over 180 is replaced by 60 before the three sets are made.
      Go's `/` truncates toward zero; in the two dividing branches the
      duration is positive, where Dafny's `/` agrees with it. */
  function SetLengths(duration: Int32): (r: seq<Int32>)
    ensures 90 < duration < 150 ==> r == [duration / 2 - 10, duration / 2 - 10]
    ensures 150 < duration < 180 ==> r == [duration / 3 - 10, duration / 3 - 10, duration / 3 - 10]
    ensures 180 < duration ==> r == [60, 60, 60]
    ensures duration <= 90 || duration == 150 || duration == 180 ==> r == [duration]
    ensures 1 <= |r| <= 3
    ensures forall i :: 0 <= i < |r| ==> r[i] <= 180
  {
    if 90 < duration < 150 then
      var half := duration / 2 - 10;
      [half, half]
    else if 150 < duration < 180 then
      var third := duration / 3 - 10;
      [third, third, third]
    else if duration > 180 then
      var capped := 60;
      [capped, capped, capped]
    else
      [duration]
  }

  /** What the build prints under "Breaks between sets:". */
  datatype BreakReport =
    | NoBreaks                              // a single set: nothing is printed
    | BreakSection(minutes: Option<int>)    // the header, then the break length if one is known

  function Breaks(numSets: nat): (r: BreakReport)
    ensures r.NoBreaks? <==> numSets <= 1
    ensures numSets == 2 ==> r == BreakSection(Some(20))
    ensures numSets == 3 ==> r == BreakSection(Some(15))
    ensures numSets > 3 ==> r == BreakSection(None)
  {
    if numSets > 1 then
      if numSets == 2 then BreakSection(Some(20))
      else if numSets == 3 then BreakSection(Some(15))
      else BreakSection(None)
    else
      NoBreaks
  }

  /** Total break time in minutes implied by the break note: one break between
      each pair of consecutive sets. */
  function BreakMinutes(numSets: nat): int
  {
    match Breaks(numSets)
    case NoBreaks => 0
    case BreakSection(m) => if m.Some? then (numSets - 1) * m.value else 0
  }

  function Total(lengths: seq<int>): int
  {
    if |lengths| == 0 then 0 else lengths[0] + Total(lengths[1..])
  }

  /** The total of `n` equal sets. */
  lemma {:induction false} TotalOfEqualSets(r: seq<int>, x: int)
    requires forall i :: 0 <= i < |r| ==> r[i] == x
    ensures Total(r) == |r| * x
  {
    if |r| > 0 {
      TotalOfEqualSets(r[1..], x);
    }
  }

  /** For every duration the partitioner splits (91..179, except 150), the
      minutes it deducts from the sets are exactly the break time it reports,
      so sets plus breaks fit in the requested duration, losing at most the
      rounding of the division. */
  lemma SplitPaysForBreaks(duration: Int32)
    requires 90 < duration < 180 && duration != 150
    ensures var r := SetLengths(duration);
      && BreakMinutes(|r|) == BREAK_DEDUCTION * |r|
      && duration - |r| < Total(r) + BreakMinutes(|r|) <= duration
  {
    var r := SetLengths(duration);
    TotalOfEqualSets(r, r[0]);
  }

  /** As written, a duration over 180 minutes yields three 60-minute sets and
      a 15-minute note, 210 minutes in all, although the accompanying alert
      promises a 180-minute maximum including breaks. */
  lemma OverlongDurationExceedsCap()
    ensures SetLengths(200) == [60, 60, 60]
    ensures Total(SetLengths(200)) + BreakMinutes(3) == 210
  {
    TotalOfEqualSets(SetLengths(200), 60);
  }

  /** As written, 150 and 180 minutes give one set with no break, while 149
      gives two sets and 151 three. */
  lemma BoundaryDurationsGiveOneLongSet()
    ensures SetLengths(150) == [150] && Breaks(1) == NoBreaks
    ensures SetLengths(180) == [180]
    ensures |SetLengths(149)| == 2 && |SetLengths(151)| == 3
  {
  }

  /** The corrected partition: the strict bounds read as closed at the top, so
      91..150 minutes gives two sets and 151..180 three, and a longer duration
      is capped at the 180 minutes the alert names before the three-set
      formula is applied. */
  function IntendedSetLengths(duration: Int32): (r: seq<Int32>)
    ensures 1 <= |r| <= 3
    ensures duration > 90 <==> |r| > 1
  {
    var capped := if duration > 180 then 180 else duration;
    if 90 < capped <= 150 then
      var half := capped / 2 - BREAK_DEDUCTION;
      [half, half]
    else if 150 < capped then
      var third := capped / 3 - BREAK_DEDUCTION;
      [third, third, third]
    else
      [capped]
  }

  /** The corrected partition never schedules a set longer than 90 minutes and,
      with its breaks, never exceeds the requested duration or the 180-minute cap. */
  lemma IntendedFitsWithinCap(duration: Int32)
    ensures var r := IntendedSetLengths(duration);
      && (forall i :: 0 <= i < |r| ==> r[i] <= 90)
      && Total(r) + BreakMinutes(|r|) <= duration
      && Total(r) + BreakMinutes(|r|) <= 180
      && (|r| > 1 ==> BreakMinutes(|r|) == BREAK_DEDUCTION * |r|)
  {
    var r := IntendedSetLengths(duration);
    TotalOfEqualSets(r, r[0]);
  }

  /** `RunBuild` passes `int(set*60)`, an `int32` product, as the validator's
      ceiling while the loop compares against `int(set)*60`. For every length
      either partition produces whose loop runs at all, the two agree. */
  lemma CeilingMatchesTarget(length: Int32)
    requires length <= 180
    requires length * 60 > 0
    ensures WrapInt32(length * 60) == length * 60
  {
  }
}

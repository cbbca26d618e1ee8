/** The watermark of an OAI scope over many harvests, and where the next incremental harvest starts. */
module Watermarks {
  import opened Common
  import opened Harvest

  const SECONDS_PER_DAY: int := 86400

  /** The watermark row after a run of set_oai_watermark transactions, whichever harvests made them. */
  function SetAll(held: Option<Mark>, sets: seq<Mark>): Option<Mark>
    decreases |sets|
  {
    if sets == [] then held
    else
      var last := sets[|sets| - 1];
      Some(SetMark(SetAll(held, sets[..|sets| - 1]), last.response, last.stamp))
  }

  /** `best` is the latest of the days given, or null when none was given. */
  ghost predicate IsLatest(best: Option<Day>, days: seq<Option<Day>>) {
    && (best.Some? ==> best in days)
    && (forall d :: d in days && d.Some? ==> best.Some? && d.value <= best.value)
  }

  function Responses(sets: seq<Mark>): (days: seq<Option<Day>>)
    ensures |days| == |sets| && forall i :: 0 <= i < |sets| ==> days[i] == sets[i].response
  {
    seq(|sets|, i requires 0 <= i < |sets| => sets[i].response)
  }

  function Stamps(sets: seq<Mark>): (days: seq<Option<Day>>)
    ensures |days| == |sets| && forall i :: 0 <= i < |sets| ==> days[i] == sets[i].stamp
  {
    seq(|sets|, i requires 0 <= i < |sets| => sets[i].stamp)
  }

  lemma LatestGrows(best: Option<Day>, days: seq<Option<Day>>, day: Option<Day>)
    requires IsLatest(best, days)
    ensures IsLatest(Later(best, day), days + [day])
  {
    assert (days + [day])[|days|] == day;
    forall d | d in days ensures d in days + [day] {
    }
  }

  lemma DaysGrow(sets: seq<Mark>, last: Mark)
    ensures Responses(sets + [last]) == Responses(sets) + [last.response] && Stamps(sets + [last]) == Stamps(sets) + [last.stamp]
  {
  }

  /** Each component is the latest day ever set for it: null never overwrites, and no later harvest moves it back. */
  lemma {:induction false} MarkIsLatest(sets: seq<Mark>)
    requires sets != []
    ensures var mark := SetAll(None, sets);
            mark.Some? && IsLatest(mark.value.response, Responses(sets)) && IsLatest(mark.value.stamp, Stamps(sets))
    decreases |sets|
  {
    var n := |sets| - 1;
    if n == 0 {
      assert SetAll(None, sets[..n]) == None;
      assert Responses(sets)[0] == sets[0].response && Stamps(sets)[0] == sets[0].stamp;
    } else {
      var before := sets[..n];
      MarkIsLatest(before);
      var mark := SetAll(None, before).value;
      LatestGrows(mark.response, Responses(before), sets[n].response);
      LatestGrows(mark.stamp, Stamps(before), sets[n].stamp);
      DaysGrow(before, sets[n]);
      assert before + [sets[n]] == sets;
    }
  }

  /** Writing the same values again, as a harvest does that crashed before it finished, moves nothing, even when
      other harvests wrote in between. */
  lemma {:induction false} RewritingMovesNothing(held: Option<Mark>, mine: Mark, others: seq<Mark>)
    ensures SetAll(held, [mine] + others + [mine]) == SetAll(held, [mine] + others)
  {
    var once := [mine] + others;
    assert (once + [mine])[..|once|] == once;
    NeverBack(SetAll(held, [mine]), others);
    SetAllSplits(held, [mine], others);
    assert [mine][..0] == [];
  }

  predicate NotBefore(a: Option<Day>, b: Option<Day>) { b.Some? ==> a.Some? && a.value >= b.value }

  lemma {:induction false} NeverBack(held: Option<Mark>, sets: seq<Mark>)
    requires held.Some?
    ensures var after := SetAll(held, sets);
            after.Some? && NotBefore(after.value.response, held.value.response) && NotBefore(after.value.stamp, held.value.stamp)
    decreases |sets|
  {
    if sets != [] {
      NeverBack(held, sets[..|sets| - 1]);
    }
  }

  lemma {:induction false} SetAllSplits(held: Option<Mark>, a: seq<Mark>, b: seq<Mark>)
    ensures SetAll(held, a + b) == SetAll(SetAll(held, a), b)
    decreases |b|
  {
    if b == [] {
      assert a + b == a;
    } else {
      assert (a + b)[..|a + b| - 1] == a + b[..|b| - 1];
      SetAllSplits(held, a, b[..|b| - 1]);
    }
  }

  // ------------------------------------------------------------------ the next start

  /** _subtract_oai_overlap: the day of the instant that many seconds before the start of `day`. */
  function SubtractOverlap(day: Day, seconds: nat): Day {
    (day * SECONDS_PER_DAY - seconds) / SECONDS_PER_DAY
  }

  /** _oai_start_datestamp. */
  function StartDay(from: Option<Day>, incremental: bool, mark: Option<Mark>, overlapSeconds: int): Option<Day> {
    if from.Some? then from
    else if !incremental || mark.None? then None
    else
      var day := Or(mark.value.response, mark.value.stamp);
      if day.None? then None
      else if overlapSeconds <= 0 then day
      else Some(SubtractOverlap(day.value, overlapSeconds))
  }

  /** A start taken from the watermark is never later than the component it came from, and reaches back over the
      whole overlap by less than a day too much. */
  lemma StartIsNeverLate(mark: Mark, overlapSeconds: int)
    requires mark.response.Some? || mark.stamp.Some?
    ensures var start := StartDay(None, true, Some(mark), overlapSeconds);
            var component := if mark.response.Some? then mark.response.value else mark.stamp.value;
            && start.Some?
            && start.value <= component
            && (overlapSeconds > 0 ==>
                && start.value * SECONDS_PER_DAY <= component * SECONDS_PER_DAY - overlapSeconds
                && component * SECONDS_PER_DAY - overlapSeconds < (start.value + 1) * SECONDS_PER_DAY)
  {
  }

  /** A day given with the request goes first. Without one a harvest starts at the beginning unless it is incremental
      and the watermark has a day; without an overlap it starts on that day. */
  lemma StartExactly(from: Option<Day>, incremental: bool, mark: Option<Mark>, overlapSeconds: int)
    ensures var start := StartDay(from, incremental, mark, overlapSeconds);
            && (from.Some? ==> start == from)
            && (start.None? <==> from.None? && !(incremental && mark.Some? && (mark.value.response.Some? || mark.value.stamp.Some?)))
            && (from.None? && start.Some? && overlapSeconds <= 0 ==>
                start == if mark.value.response.Some? then mark.value.response else mark.value.stamp)
  {
  }
}

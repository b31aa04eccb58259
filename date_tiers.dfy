/** The date-format tier chosen by `figaxes_xdate` for a time axis
    (dataproc/core/misc_graph.py:412-422). Only the choice of format over the
    plot-date coordinates is modelled; converting astropy times to those
    coordinates is not part of this model. */
module DateTiers {
  import opened Outcome

  /** The five formats, from the finest to the coarsest. */
  datatype DateFormat =
    | HourMinuteSecond
    | HourMinute
    | DayHourMinute
    | MonthOfYear
    | YearOnly

  /** The strftime pattern handed to the date formatter. */
  function Pattern(f: DateFormat): string
  {
    match f
    case HourMinuteSecond => "%H:%M:%S"
    case HourMinute => "%H:%M"
    case DayHourMinute => "%Y-%b-%d %H:%M"
    case MonthOfYear => "%Y %b"
    case YearOnly => "%Y"
  }

  /** Position of a format in the order finest (0) to coarsest (4). */
  function Rank(f: DateFormat): nat
  {
    match f
    case HourMinuteSecond => 0
    case HourMinute => 1
    case DayHourMinute => 2
    case MonthOfYear => 3
    case YearOnly => 4
  }

  /** Plot-date coordinates count days; the span is taken in minutes. */
  const MinutesPerDay: real := 24.0 * 60.0

  /** The thresholds of the tiers, in minutes: 4 minutes, 8 hours, 5 days, 365 days. */
  const FourMinutes: real := 4.0
  const EightHours: real := 8.0 * 60.0
  const FiveDays: real := 5.0 * 60.0 * 24.0
  const OneYear: real := 1.0 * 60.0 * 24.0 * 365.0

  /** The if/elif chain of the source, one strict comparison per tier. The
      contract states each tier as the interval of spans that selects it. */
  function TierFor(tdelta: real): (f: DateFormat)
    ensures f == HourMinuteSecond <==> tdelta < FourMinutes
    ensures f == HourMinute <==> FourMinutes <= tdelta < EightHours
    ensures f == DayHourMinute <==> EightHours <= tdelta < FiveDays
    ensures f == MonthOfYear <==> FiveDays <= tdelta < OneYear
    ensures f == YearOnly <==> OneYear <= tdelta
  {
    if tdelta < 4.0 then HourMinuteSecond
    else if tdelta < 8.0 * 60.0 then HourMinute
    else if tdelta < 5.0 * 60.0 * 24.0 then DayHourMinute
    else if tdelta < 1.0 * 60.0 * 24.0 * 365.0 then MonthOfYear
    else YearOnly
  }

  /** `tdelta = (retx[-1] - retx[0])*24*60`: last minus first coordinate, in
      minutes. An empty sequence has no `retx[-1]` (IndexError), so None. */
  function SpanMinutes(retx: seq<real>): (m: Option<real>)
    ensures m.Some? <==> |retx| > 0
    ensures |retx| == 1 ==> m == Some(0.0)
  {
    if |retx| == 0 then None else Some((retx[|retx| - 1] - retx[0]) * 24.0 * 60.0)
  }

  /** The strftime pattern `figaxes_xdate` hands to the date formatter for
      the given plot-date coordinates: the pattern of the tier its span in
      minutes falls into. */
  function XDateFormat(retx: seq<real>): (fmt: Option<string>)
    ensures fmt.Some? <==> |retx| > 0
    ensures |retx| > 0 ==> fmt == Some(Pattern(TierFor((retx[|retx| - 1] - retx[0]) * MinutesPerDay)))
  {
    match SpanMinutes(retx)
    case None => None
    case Some(t) => Some(Pattern(TierFor(t)))
  }

  /** A longer span never selects a finer format. */
  lemma TierMonotone(t1: real, t2: real)
    requires t1 <= t2
    ensures Rank(TierFor(t1)) <= Rank(TierFor(t2))
  {
  }

  /** Every bound is strict: the boundary value itself falls into the next tier. */
  lemma BoundariesGoToNextTier()
    ensures TierFor(FourMinutes) == HourMinute
    ensures TierFor(EightHours) == DayHourMinute
    ensures TierFor(FiveDays) == MonthOfYear
    ensures TierFor(OneYear) == YearOnly
  {
  }

  /** A negative span (coordinates in decreasing order) gets the finest format. */
  lemma NegativeSpanIsFinest(retx: seq<real>)
    requires |retx| > 0 && retx[|retx| - 1] < retx[0]
    ensures XDateFormat(retx) == Some("%H:%M:%S")
  {
  }

  /** Only the first and the last coordinate matter, and shifting every
      coordinate by the same epoch offset leaves the format unchanged. */
  lemma FormatIgnoresEpoch(retx: seq<real>, shifted: seq<real>, offset: real)
    requires |shifted| == |retx|
    requires forall i :: 0 <= i < |retx| ==> shifted[i] == retx[i] + offset
    ensures XDateFormat(shifted) == XDateFormat(retx)
  {
    if |retx| > 0 {
      assert shifted[|retx| - 1] - shifted[0] == retx[|retx| - 1] - retx[0];
    }
  }
}

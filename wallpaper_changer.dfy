/**
 * The automatic wallpaper changer's fixed choice of intervals and the label
 * its notification shows for the interval in use.
 */
module WallpaperChanger {

  const MinuteMillis: int := 60 * 1000
  const HourMillis: int := 60 * MinuteMillis
  const DayMillis: int := 24 * HourMillis

  /** The intervals, in milliseconds, the user can choose between. */
  const IntervalsList: seq<int> := [1800000, 3600000, 21600000, 86400000, 259200000]

  datatype IntervalLabel = ThirtyMinutes | OneHour | SixHours | OneDay | ThreeDays

  /** Duration, in milliseconds, that each label names. */
  function LabelMillis(l: IntervalLabel): int {
    match l
    case ThirtyMinutes => 30 * MinuteMillis
    case OneHour => HourMillis
    case SixHours => 6 * HourMillis
    case OneDay => DayMillis
    case ThreeDays => 3 * DayMillis
  }

  /** The label for an interval; anything not among the last four entries reads as 30 minutes. */
  function IntervalString(interval: int): (l: IntervalLabel)
    ensures l == OneHour <==> interval == IntervalsList[1]
    ensures l == SixHours <==> interval == IntervalsList[2]
    ensures l == OneDay <==> interval == IntervalsList[3]
    ensures l == ThreeDays <==> interval == IntervalsList[4]
    ensures l == ThirtyMinutes <==> interval !in IntervalsList[1..]
  {
    if interval == IntervalsList[1] then OneHour
    else if interval == IntervalsList[2] then SixHours
    else if interval == IntervalsList[3] then OneDay
    else if interval == IntervalsList[4] then ThreeDays
    else ThirtyMinutes
  }

  /** Five entries, strictly increasing. */
  lemma IntervalsStrictlyIncreasing()
    ensures |IntervalsList| == 5
    ensures forall i, j :: 0 <= i < j < |IntervalsList| ==> IntervalsList[i] < IntervalsList[j]
  {
  }

  /**
   * Every entry of the list is labelled with exactly its own duration, and a
   * label's duration maps back to that label.
   */
  lemma LabelsMatchIntervals(l: IntervalLabel)
    ensures forall i :: 0 <= i < |IntervalsList| ==> LabelMillis(IntervalString(IntervalsList[i])) == IntervalsList[i]
    ensures IntervalString(LabelMillis(l)) == l
    ensures LabelMillis(l) in IntervalsList
  {
  }
}

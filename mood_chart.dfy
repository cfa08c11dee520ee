// components/mood-chart.tsx: the user's last seven mood entries, the seven
// day slots of the bar chart and the average score. The clock and the
// "MMM dd" date formatting are parameters: `now` is the time the chart is
// drawn and `dayOf` the label `format` gives a timestamp.

module MoodHistory {
  import opened Wrappers
  import opened Errors
  import opened Types
  import opened Sequences
  import opened Store

  /** Milliseconds in a day: `subDays(date, i)` steps back `i` of them. */
  const MsPerDay := 86400000

  /** The query `fetchMoodData` sends: the user's entries, newest first, at most seven. */
  function MoodQuery(userId: string): Query
  {
    Select("mood_entries", [Eq("user_id", userId)], Descending, Some(7))
  }

  /**
   * `last7Days`: the labels of today and the six days before it, built
   * newest first and then reversed.
   */
  function Last7Days(now: Timestamp, dayOf: Timestamp -> string): (r: seq<string>)
    ensures |r| == 7
    ensures forall i :: 0 <= i < 7 ==> r[i] == dayOf(now - (6 - i) * MsPerDay)
  {
    Reverse(seq(7, i => dayOf(now - i * MsPerDay)))
  }

  /** One bar of the chart: its day label, its score and its caption. */
  datatype ChartPoint = ChartPoint(day: string, score: int, caption: string)

  const NoDataCaption := "No data"

  /**
   * One entry of `chartData`: the first entry whose date formats as `day`
   * gives the score and caption; a missing entry, or an empty label, shows
   * "No data".
   */
  function PointFor(day: string, moodData: seq<MoodEntry>, dayOf: Timestamp -> string): ChartPoint
  {
    var entry := Find(moodData, (m: MoodEntry) => dayOf(m.created_at) == day);
    ChartPoint(
      day,
      if entry.Some? then entry.value.mood_score else 0,
      if entry.Some? && entry.value.mood_label != "" then entry.value.mood_label else NoDataCaption)
  }

  /** `chartData`: one point per day slot, in the slots' order. */
  function ChartData(days: seq<string>, moodData: seq<MoodEntry>, dayOf: Timestamp -> string): (r: seq<ChartPoint>)
    ensures |r| == |days|
    ensures forall i :: 0 <= i < |days| ==> r[i].day == days[i]
    // each slot is the point `PointForDay` describes for its day
    ensures forall i :: 0 <= i < |days| ==> r[i] == PointFor(days[i], moodData, dayOf)
  {
    seq(|days|, i requires 0 <= i < |days| => PointFor(days[i], moodData, dayOf))
  }

  /**
   * A day with no entry shows an empty bar captioned "No data"; a day with
   * entries shows the first of them, with its score and its label (or "No
   * data" when the label is empty).
   */
  lemma {:induction false} PointForDay(day: string, moodData: seq<MoodEntry>, dayOf: Timestamp -> string)
    ensures (forall e :: e in moodData ==> dayOf(e.created_at) != day) ==>
      PointFor(day, moodData, dayOf) == ChartPoint(day, 0, NoDataCaption)
    ensures forall k :: 0 <= k < |moodData| && dayOf(moodData[k].created_at) == day
                        && (forall j :: 0 <= j < k ==> dayOf(moodData[j].created_at) != day) ==>
      && PointFor(day, moodData, dayOf).score == moodData[k].mood_score
      && PointFor(day, moodData, dayOf).caption
         == (if moodData[k].mood_label != "" then moodData[k].mood_label else NoDataCaption)
  {
    var p := (m: MoodEntry) => dayOf(m.created_at) == day;
    FindSpec(moodData, p);
    var entry := Find(moodData, p);
    if entry.Some? {
      var i :| FirstMatchAt(moodData, p, i) && moodData[i] == entry.value;
      forall k | 0 <= k < |moodData| && p(moodData[k]) && (forall j :: 0 <= j < k ==> !p(moodData[j]))
        ensures k == i
      {
      }
    }
  }

  /**
   * With the entries newest first, as the query returns them, the bar of a
   * day shows the latest entry of that day.
   */
  lemma {:induction false} PointShowsLatestOfDay(day: string, moodData: seq<MoodEntry>, dayOf: Timestamp -> string)
    requires SortedBy(moodData, (e: MoodEntry) => e.created_at, Descending)
    ensures forall k :: 0 <= k < |moodData| && dayOf(moodData[k].created_at) == day ==>
      exists i :: (0 <= i <= k && dayOf(moodData[i].created_at) == day
        && moodData[i].created_at >= moodData[k].created_at
        && PointFor(day, moodData, dayOf).score == moodData[i].mood_score)
  {
    var p := (m: MoodEntry) => dayOf(m.created_at) == day;
    FindSpec(moodData, p);
    PointForDay(day, moodData, dayOf);
    forall k | 0 <= k < |moodData| && dayOf(moodData[k].created_at) == day
      ensures exists i :: (0 <= i <= k && dayOf(moodData[i].created_at) == day
        && moodData[i].created_at >= moodData[k].created_at
        && PointFor(day, moodData, dayOf).score == moodData[i].mood_score)
    {
      var i :| FirstMatchAt(moodData, p, i) && moodData[i] == Find(moodData, p).value;
      assert i <= k;
      assert InOrder(moodData[i].created_at, moodData[k].created_at, Descending) || i == k;
    }
  }

  /** `averageMood`: "N/A" without entries, else the mean score (shown to one decimal). */
  datatype Average = NotAvailable | Mean(total: int, count: nat)

  function ScoreSum(entries: seq<MoodEntry>): int
  {
    if entries == [] then 0 else entries[0].mood_score + ScoreSum(entries[1..])
  }

  function AverageMood(moodData: seq<MoodEntry>): (r: Average)
    ensures r.NotAvailable? <==> moodData == []
    ensures r.Mean? ==> r.count == |moodData| > 0 && r.total == ScoreSum(moodData)
  {
    if |moodData| == 0 then NotAvailable else Mean(ScoreSum(moodData), |moodData|)
  }

  /** Entries saved from the slider average between 1 and 10. */
  lemma {:induction false} AverageBounds(moodData: seq<MoodEntry>)
    requires forall e :: e in moodData ==> 1 <= e.mood_score <= 10
    ensures |moodData| <= ScoreSum(moodData) <= 10 * |moodData|
  {
    if moodData != [] {
      assert moodData[0] in moodData;
      AverageBounds(moodData[1..]);
    }
  }

  /** `height: ${score * 10}%` */
  function BarHeightPercent(score: int): int
  {
    score * 10
  }

  /** `opacity: score ? 0.6 + score / 20 : 0.2`, in twentieths. */
  function OpacityTwentieths(score: int): int
  {
    if score != 0 then 12 + score else 4
  }

  /**
   * A score from 0 (no entry) to 10 fills between none and all of the
   * bar's height, higher scores drawing taller bars; a scored day is drawn
   * more opaque than an empty one.
   */
  lemma BarBounds(score: int)
    requires 0 <= score <= 10
    ensures 0 <= BarHeightPercent(score) <= 100
    ensures BarHeightPercent(score) < BarHeightPercent(score + 1)
    ensures score != 0 ==> OpacityTwentieths(0) < OpacityTwentieths(score) <= 22
  {
  }

  /** The alert text for a failed load: the caught error's description after a fixed prefix. */
  function LoadError(detail: string): string
  {
    "Failed to load mood data: " + detail
  }

  /** What the card shows. */
  datatype View = Loading | ErrorAlert(message: string) | NoDataYet | Chart(points: seq<ChartPoint>, average: Average)

  /** The `MoodChart` component's state. */
  class MoodChart {
    var moodData: seq<MoodEntry>
    var loading: bool
    var error: Option<string>

    constructor()
      ensures moodData == [] && loading && error.None?
    {
      moodData := [];
      loading := true;
      error := None;
    }

    /** The card's content: loading, then an error, then an empty notice, then the chart. */
    function Render(now: Timestamp, dayOf: Timestamp -> string): (v: View)
      reads this
      ensures v.Loading? <==> loading
      ensures v.ErrorAlert? <==> !loading && error.Some?
      ensures v.Chart? ==> |v.points| == 7 && v.average.Mean?
      ensures v.ErrorAlert? ==> v.message == error.value
      ensures v.Chart? ==> v.points == ChartData(Last7Days(now, dayOf), moodData, dayOf) && v.average == AverageMood(moodData)
      ensures v.NoDataYet? <==> !loading && error.None? && moodData == []
    {
      if loading then Loading
      else if error.Some? then ErrorAlert(error.value)
      else if |moodData| == 0 then NoDataYet
      else Chart(ChartData(Last7Days(now, dayOf), moodData, dayOf), AverageMood(moodData))
    }

    /**
     * `fetchMoodData`: `auth` is what `getUser()` yields, `rows` the table's
     * rows in the query's order and `dbError` the query's error. Returns the
     * query sent, if any.
     */
    method FetchMoodData(auth: AuthOutcome, rows: seq<MoodEntry>, dbError: Option<StoreError>)
      returns (sent: Option<Query>)
      modifies this
      ensures !loading
      ensures sent.Some? <==> auth.SignedIn?
      ensures auth.SignedIn? ==> sent == Some(MoodQuery(auth.user.id))
      // an auth error is reported and nothing is fetched
      ensures auth.AuthFailed? ==>
        moodData == old(moodData) && error == Some(LoadError("Auth error: " + auth.message))
      // no user: the chart stops loading without data or error
      ensures auth.SignedOut? ==> moodData == old(moodData) && error == old(error)
      // a query error is reported
      ensures auth.SignedIn? && dbError.Some? ==>
        moodData == old(moodData) && error == Some(LoadError("Database error: " + dbError.value.message))
      // otherwise the user's latest entries, at most seven, newest first
      ensures auth.SignedIn? && dbError.None? ==>
        && moodData == Run(MoodQuery(auth.user.id), rows, MoodRow)
        && |moodData| <= 7
        && (forall e :: e in moodData ==> e.user_id == auth.user.id && e in rows)
        && error == old(error)
    {
      sent := None;
      match auth {
        case AuthFailed(m) =>
          error := Some(LoadError(Describe(ErrorInstance("Auth error: " + m))));
        case SignedOut =>
        case SignedIn(user) =>
          var q := MoodQuery(user.id);
          sent := Some(q);
          if dbError.Some? {
            error := Some(LoadError(Describe(ErrorInstance("Database error: " + dbError.value.message))));
          } else {
            moodData := Run(q, rows, MoodRow);
            forall e | e in moodData ensures e.user_id == user.id {
              OwnerFilter(e.id, e.user_id, user.id);
            }
          }
      }
      loading := false;
    }
  }

  /** The entries a fetch keeps are in the order the store returned them. */
  lemma FetchedNewestFirst(userId: string, rows: seq<MoodEntry>)
    requires SortedBy(rows, (e: MoodEntry) => e.created_at, Descending)
    ensures SortedBy(Run(MoodQuery(userId), rows, MoodRow), (e: MoodEntry) => e.created_at, Descending)
  {
    RunKeepsOrder(MoodQuery(userId), rows, MoodRow, (e: MoodEntry) => e.created_at);
  }
}

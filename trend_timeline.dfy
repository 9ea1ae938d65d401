/** The CHI trend timeline (src/components/TrendTimeline.tsx): the points of the
    last 24 hours, falling back to all points, and the highlighted last point.
    The clock reading and the date parser are inputs; a parser answer of None
    stands for an invalid date, whose time never passes the cutoff. */
module TrendTimeline {
  import opened Wrappers
  import opened Seqs
  import opened Types

  /** 24 hours in milliseconds. */
  const DayMs: int := 24 * 60 * 60 * 1000

  /** The earliest time shown, `now - 24 h`. */
  function Cutoff(now: int): (cutoff: int)
    ensures cutoff == now - 86400000
  {
    now - DayMs
  }

  /** A point's timestamp parses to a time no earlier than the cutoff. */
  predicate Recent(p: CHIDataPoint, cutoff: int, timeOf: string -> Option<int>) {
    var t := timeOf(p.timestamp);
    t.Some? && t.value >= cutoff
  }

  /** The filter predicate `d => new Date(d.timestamp).getTime() >= cutoff`. */
  function RecentAt(cutoff: int, timeOf: string -> Option<int>): CHIDataPoint -> bool {
    (d: CHIDataPoint) => Recent(d, cutoff, timeOf)
  }

  /** `filtered`: nothing for no data; otherwise the recent points in order
      when there are any, and all the data when there are none. */
  function Filtered(data: seq<CHIDataPoint>, now: int, timeOf: string -> Option<int>): (r: seq<CHIDataPoint>)
    ensures data == [] ==> r == []
    ensures |r| > 0 <==> |data| > 0
    ensures (exists i :: 0 <= i < |data| && Recent(data[i], Cutoff(now), timeOf)) ==>
      && |r| == Count(data, RecentAt(Cutoff(now), timeOf))
      && (forall i :: 0 <= i < |r| ==> Recent(r[i], Cutoff(now), timeOf))
      && (forall i :: 0 <= i < |data| && Recent(data[i], Cutoff(now), timeOf) ==> data[i] in r)
      && IsSubsequence(r, data)
    ensures (forall i :: 0 <= i < |data| ==> !Recent(data[i], Cutoff(now), timeOf)) ==> r == data
  {
    if data == [] then []
    else
      var cutoff := Cutoff(now);
      var last24 := Filter(data, RecentAt(cutoff, timeOf));
      if |last24| > 0 then last24 else data
  }

  /** `lastPoint`: the final shown point, absent when nothing is shown. */
  function LastPoint(shown: seq<CHIDataPoint>): (p: Option<CHIDataPoint>)
    ensures p.None? <==> shown == []
    ensures p.Some? ==> p.value == shown[|shown| - 1]
  {
    if |shown| > 0 then Some(shown[|shown| - 1]) else None
  }

  /** A dot is drawn highlighted exactly when there is a last point and the
      dot's timestamp is that point's. */
  function IsCurrentDot(dot: CHIDataPoint, last: Option<CHIDataPoint>): (current: bool)
    ensures current <==> last.Some? && dot.timestamp == last.value.timestamp
  {
    match last
    case None => false
    case Some(p) => dot.timestamp == p.timestamp
  }

  /** Whenever there is data, the last shown point is highlighted, and so is
      every shown point sharing its timestamp. */
  lemma LastShownPointIsCurrent(data: seq<CHIDataPoint>, now: int, timeOf: string -> Option<int>)
    requires data != []
    ensures var shown := Filtered(data, now, timeOf);
      IsCurrentDot(shown[|shown| - 1], LastPoint(shown))
  {
  }
}

/** The competitor comparison panel (src/components/CompetitorComparison.tsx):
    chart rows normalised from the competitor records, the metric a tab
    selects, the winner taken from a stable descending sort of a copy of the
    rows, the trophy on the winner's tick and the bar colours. */
module CompetitorComparison {
  import opened Wrappers
  import opened Seqs
  import opened Types

  const TmPink: string := "#E20074"
  const OtherGray: string := "#A0A0A0"
  const TMobileName: string := "T-Mobile"

  /** The tab labels, in display order. */
  const Tabs: seq<string> := ["CHI", "Sentiment", "Network", "Value"]

  /** The suffix the winner's tick gets: the trophy emoji as the file's bytes
      read back in a single-byte code page. */
  const TrophySuffix: string := " \U{F0}\U{178}\U{2020}"

  /** `Math.round` on an exact number: the nearest integer, halves rounding up. */
  function Round(x: real): (n: int)
    ensures n as real - 0.5 <= x < n as real + 0.5
  {
    (x + 0.5).Floor
  }

  /** One bar-chart row. */
  datatype ChartRow = ChartRow(
    name: string,
    chiScore: real,
    sentiment: int,
    network: real,
    value: real,
    signalStrength: real,
    avgSpeed: real,
    dropRate: real)

  /** One competitor's chart row: sentiment is the rounded CHI, network the
      signal strength and value the market share (0 when absent). */
  function Normalize(c: CompetitorData): (row: ChartRow)
    ensures row.name == c.name && row.chiScore == c.chiScore
    ensures row.sentiment == Round(c.chiScore)
    ensures row.network == c.signalStrength
    ensures c.marketShare.Some? ==> row.value == c.marketShare.value
    ensures c.marketShare.None? ==> row.value == 0.0
    ensures row.signalStrength == c.signalStrength && row.avgSpeed == c.avgSpeed && row.dropRate == c.dropRate
  {
    ChartRow(c.name, c.chiScore, Round(c.chiScore), c.signalStrength,
             c.marketShare.GetOr(0.0), c.signalStrength, c.avgSpeed, c.dropRate)
  }

  /** `data`: one row per competitor, in the same order. */
  function ChartData(competitors: seq<CompetitorData>): (rows: seq<ChartRow>)
    ensures |rows| == |competitors|
    ensures forall i :: 0 <= i < |rows| ==> rows[i] == Normalize(competitors[i])
  {
    Map(competitors, Normalize)
  }

  /** The row field a bar length is read from. */
  datatype MetricKey = ChiScoreKey | SentimentKey | NetworkKey | ValueKey

  /** `keyForTab`: each tab selects its own field; anything else the CHI. */
  function KeyForTab(tab: string): (key: MetricKey)
    ensures tab == "CHI" ==> key == ChiScoreKey
    ensures tab == "Sentiment" ==> key == SentimentKey
    ensures tab == "Network" ==> key == NetworkKey
    ensures tab == "Value" ==> key == ValueKey
    ensures tab !in Tabs ==> key == ChiScoreKey
  {
    if tab == "Sentiment" then SentimentKey
    else if tab == "Network" then NetworkKey
    else if tab == "Value" then ValueKey
    else ChiScoreKey
  }

  /** `row[key]` */
  function Metric(row: ChartRow, key: MetricKey): real {
    match key
    case ChiScoreKey => row.chiScore
    case SentimentKey => row.sentiment as real
    case NetworkKey => row.network
    case ValueKey => row.value
  }

  /** Inserts `x` in front of the first row whose metric is not above its own,
      so rows already present that tie with `x` come after it. */
  function InsertDesc(x: ChartRow, sorted: seq<ChartRow>, key: MetricKey): (r: seq<ChartRow>)
    ensures |r| == |sorted| + 1
  {
    if sorted == [] || Metric(sorted[0], key) <= Metric(x, key) then [x] + sorted
    else [sorted[0]] + InsertDesc(x, sorted[1..], key)
  }

  /** `[...rows].sort((a, b) => b[key] - a[key])`: the comparator sorts
      descending and the sort is stable, so tied rows keep their order. */
  function SortDesc(rows: seq<ChartRow>, key: MetricKey): (r: seq<ChartRow>)
    ensures |r| == |rows|
  {
    if rows == [] then [] else InsertDesc(rows[0], SortDesc(rows[1..], key), key)
  }

  /** Inserting adds exactly the one row. */
  lemma {:induction false} InsertDescPermutation(x: ChartRow, sorted: seq<ChartRow>, key: MetricKey)
    ensures multiset(InsertDesc(x, sorted, key)) == multiset(sorted) + multiset{x}
  {
    if sorted != [] && Metric(sorted[0], key) > Metric(x, key) {
      InsertDescPermutation(x, sorted[1..], key);
      assert sorted == [sorted[0]] + sorted[1..];
    }
  }

  /** The sorted copy holds exactly the rows, each as often as before. */
  lemma {:induction false} SortDescPermutation(rows: seq<ChartRow>, key: MetricKey)
    ensures multiset(SortDesc(rows, key)) == multiset(rows)
  {
    if rows != [] {
      SortDescPermutation(rows[1..], key);
      InsertDescPermutation(rows[0], SortDesc(rows[1..], key), key);
      assert rows == [rows[0]] + rows[1..];
    }
  }

  predicate SortedDesc(rows: seq<ChartRow>, key: MetricKey) {
    forall i, j :: 0 <= i < j < |rows| ==> Metric(rows[i], key) >= Metric(rows[j], key)
  }

  /** Inserting keeps every row at or below a bound that they all respect. */
  lemma {:induction false} InsertDescBounded(x: ChartRow, sorted: seq<ChartRow>, key: MetricKey, m: real)
    requires Metric(x, key) <= m
    requires forall i :: 0 <= i < |sorted| ==> Metric(sorted[i], key) <= m
    ensures forall i :: 0 <= i < |sorted| + 1 ==> Metric(InsertDesc(x, sorted, key)[i], key) <= m
  {
    var r := InsertDesc(x, sorted, key);
    if sorted == [] || Metric(sorted[0], key) <= Metric(x, key) {
      assert r == [x] + sorted;
      forall i | 0 < i < |r| ensures Metric(r[i], key) <= m {
        assert r[i] == sorted[i - 1];
        assert Metric(sorted[i - 1], key) <= m;
      }
    } else {
      var rest := InsertDesc(x, sorted[1..], key);
      InsertDescBounded(x, sorted[1..], key, m);
      assert r == [sorted[0]] + rest;
      forall i | 0 < i < |r| ensures Metric(r[i], key) <= m {
        assert r[i] == rest[i - 1];
        assert Metric(rest[i - 1], key) <= m;
      }
    }
  }

  lemma {:induction false} InsertDescSorted(x: ChartRow, sorted: seq<ChartRow>, key: MetricKey)
    requires SortedDesc(sorted, key)
    ensures SortedDesc(InsertDesc(x, sorted, key), key)
  {
    if sorted != [] && Metric(sorted[0], key) > Metric(x, key) {
      var tail := sorted[1..];
      InsertDescSorted(x, tail, key);
      InsertDescBounded(x, tail, key, Metric(sorted[0], key));
      var rest := InsertDesc(x, tail, key);
      var r := [sorted[0]] + rest;
      assert r == InsertDesc(x, sorted, key);
      forall i, j | 0 <= i < j < |r| ensures Metric(r[i], key) >= Metric(r[j], key) {
        assert r[j] == rest[j - 1];
        if i > 0 {
          assert r[i] == rest[i - 1];
          assert Metric(rest[i - 1], key) >= Metric(rest[j - 1], key);
        } else {
          assert Metric(rest[j - 1], key) <= Metric(sorted[0], key);
        }
      }
    }
  }

  /** The sorted copy is in descending order of the metric. */
  lemma {:induction false} SortDescSorted(rows: seq<ChartRow>, key: MetricKey)
    ensures SortedDesc(SortDesc(rows, key), key)
  {
    if rows != [] {
      SortDescSorted(rows[1..], key);
      InsertDescSorted(rows[0], SortDesc(rows[1..], key), key);
    }
  }

  /** The reference for the winner: the first row whose metric is as large
      as every row's. */
  function FirstMaxIndex(rows: seq<ChartRow>, key: MetricKey): (i: nat)
    requires rows != []
    ensures i < |rows|
    ensures forall k :: 0 <= k < |rows| ==> Metric(rows[k], key) <= Metric(rows[i], key)
    ensures forall k :: 0 <= k < i ==> Metric(rows[k], key) < Metric(rows[i], key)
  {
    if |rows| == 1 then 0
    else
      var j := FirstMaxIndex(rows[1..], key);
      if Metric(rows[0], key) >= Metric(rows[1 + j], key) then 0 else 1 + j
  }

  lemma InsertDescHead(x: ChartRow, sorted: seq<ChartRow>, key: MetricKey)
    ensures InsertDesc(x, sorted, key)[0] ==
      if sorted == [] || Metric(sorted[0], key) <= Metric(x, key) then x else sorted[0]
  {
  }

  /** The head of the stable descending sort is the first row with the
      largest metric. */
  lemma {:induction false} SortDescHead(rows: seq<ChartRow>, key: MetricKey)
    requires rows != []
    ensures SortDesc(rows, key)[0] == rows[FirstMaxIndex(rows, key)]
  {
    var tail := SortDesc(rows[1..], key);
    assert SortDesc(rows, key) == InsertDesc(rows[0], tail, key);
    InsertDescHead(rows[0], tail, key);
    if |rows| > 1 {
      SortDescHead(rows[1..], key);
      var j := FirstMaxIndex(rows[1..], key);
      assert tail[0] == rows[1 + j];
      assert FirstMaxIndex(rows, key) == if Metric(rows[0], key) >= Metric(rows[1 + j], key) then 0 else 1 + j;
    }
  }

  /** `winnerName`: absent exactly when there are no rows; otherwise the name
      of the first row whose metric no row exceeds. */
  function WinnerName(rows: seq<ChartRow>, key: MetricKey): (w: Option<string>)
    ensures w.None? <==> rows == []
    ensures w.Some? ==> exists i ::
      && 0 <= i < |rows| && rows[i].name == w.value
      && (forall k :: 0 <= k < |rows| ==> Metric(rows[k], key) <= Metric(rows[i], key))
      && (forall k :: 0 <= k < i ==> Metric(rows[k], key) < Metric(rows[i], key))
  {
    var sorted := SortDesc(rows, key);
    if sorted == [] then None
    else
      SortDescHead(rows, key);
      Some(sorted[0].name)
  }

  /** `formatTick`: a tick gets the trophy exactly when it is the winner's name. */
  function FormatTick(value: string, winner: Option<string>): (tick: string)
    ensures tick != value <==> winner == Some(value)
    ensures winner == Some(value) ==> tick == value + TrophySuffix
    ensures tick[..|value|] == value
  {
    if winner == Some(value) then value + TrophySuffix else value
  }

  /** A bar is pink exactly when its row is T-Mobile's; all others are gray. */
  function BarColor(name: string): (color: string)
    ensures color == TmPink <==> name == TMobileName
    ensures color == OtherGray <==> name != TMobileName
  {
    if name == TMobileName then TmPink else OtherGray
  }

  /** The panel for a list of competitors and a selected tab. */
  datatype Panel = Panel(competitors: seq<CompetitorData>, tab: string) {
    function Rows(): seq<ChartRow> { ChartData(competitors) }
    function Winner(): Option<string> { WinnerName(Rows(), KeyForTab(tab)) }
  }

  /** The winner of a panel is a competitor no other beats on the tab's metric,
      and on a tie it is the earliest such competitor. */
  lemma WinnerIsFirstBest(p: Panel)
    requires p.competitors != []
    ensures var rows := p.Rows(); var key := KeyForTab(p.tab);
      p.Winner() == Some(rows[FirstMaxIndex(rows, key)].name)
  {
    SortDescHead(p.Rows(), KeyForTab(p.tab));
  }
}

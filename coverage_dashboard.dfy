/** The network coverage page (src/pages/Index.tsx): the hotspot overlay that
    splits a "City, ST" label, the key-driver and trend lists derived from the
    current analysis, and the page state the map and the header button update. */
module CoverageDashboard {
  import opened Wrappers
  import opened Seqs
  import opened Strings
  import opened Types
  import opened HotspotSelection

  /** `place.split(',')[0]` */
  function CityPart(place: string): string {
    Split(place, ",")[0]
  }

  /** `place.split(', ')[1]`, which is `undefined` when there is no ", ". */
  function StatePart(place: string): Option<string> {
    var parts := Split(place, ", ");
    if |parts| > 1 then Some(parts[1]) else None
  }

  /** The derived city is the place up to its first comma (all of it when
      there is none). */
  lemma CityIsTextBeforeFirstComma(place: string)
    ensures var city := CityPart(place);
      && |city| <= |place| && city == place[..|city|]
      && (forall i :: 0 <= i < |city| ==> place[i] != ',')
      && (city == place || place[|city|] == ',')
  {
    SplitFirst(place, ",");
    var city := CityPart(place);
    forall i | 0 <= i < |city| ensures place[i] != ',' {
      assert !OccursAt(place, ",", i);
      assert place[i..i + 1] == [place[i]];
    }
    if city != place {
      assert OccursAt(place, ",", |city|);
      assert place[|city|..|city| + 1] == [place[|city|]];
    }
  }

  /** The derived state is absent exactly when the place has no ", ";
      otherwise it is the text after the first ", " up to the next one. */
  lemma StateIsSecondSegment(place: string)
    ensures StatePart(place).None? <==> !Contains(place, ", ")
    ensures StatePart(place).Some? ==>
      exists k :: FirstOccurrence(place, ", ", k) && IsFirstPiece(place[k + 2..], ", ", StatePart(place).value)
  {
    var parts := Split(place, ", ");
    SingleSegmentIffAbsent(place, ", ");
    if |parts| > 1 {
      SplitFirst(place, ", ");
      SplitRest(place, ", ");
      var k := |parts[0]|;
      SplitFirst(place[k + 2..], ", ");
      assert parts[1] == Split(place[k + 2..], ", ")[0];
      assert FirstOccurrence(place, ", ", k);
    }
  }

  /** The analysis shown for a hotspot on this page: the location's city and
      state come from the hotspot's place and the CHI from the hotspot; all
      else is the base analysis. */
  function AnalysisForHotspot(analysis: AnalysisResult, hotspot: Hotspot): (r: AnalysisResult)
    ensures r.location.city == CityPart(hotspot.city) && r.location.state == StatePart(hotspot.city)
    ensures r.chiScore == hotspot.chi
    ensures r.location.(city := analysis.location.city, state := analysis.location.state) == analysis.location
    ensures r.(location := analysis.location, chiScore := analysis.chiScore) == analysis
  {
    analysis.(
      location := analysis.location.(city := CityPart(hotspot.city), state := StatePart(hotspot.city)),
      chiScore := hotspot.chi)
  }

  const MaxDriversPerSentiment: nat := 5
  const MaxTrendPoints: nat := 24

  function DriverText(d: KeyDriver): string { d.text }

  /** The filter predicate `d => d.sentiment === sentiment`. */
  function OfSentiment(sentiment: Sentiment): KeyDriver -> bool {
    (d: KeyDriver) => d.sentiment == sentiment
  }

  /** `drivers.filter(kd => kd.sentiment === sentiment).slice(0, 5).map(kd => kd.text)`:
      the texts of the first five drivers with that sentiment, in list order. */
  function DriverTexts(drivers: seq<KeyDriver>, sentiment: Sentiment): (texts: seq<string>)
    ensures var n := Count(drivers, OfSentiment(sentiment));
      |texts| == if n < MaxDriversPerSentiment then n else MaxDriversPerSentiment
    ensures forall i :: 0 <= i < |texts| ==> texts[i] == Filter(drivers, OfSentiment(sentiment))[i].text
    ensures forall i :: 0 <= i < |texts| ==>
      exists j :: 0 <= j < |drivers| && drivers[j].sentiment == sentiment && drivers[j].text == texts[i]
    ensures IsSubsequence(texts, Map(drivers, DriverText))
    ensures Count(drivers, OfSentiment(sentiment)) <= MaxDriversPerSentiment ==>
      forall j :: 0 <= j < |drivers| && drivers[j].sentiment == sentiment ==> drivers[j].text in texts
  {
    var matching := Filter(drivers, OfSentiment(sentiment));
    var first := Prefix(matching, MaxDriversPerSentiment);
    assert forall i :: 0 <= i < |matching| ==> OfSentiment(sentiment)(matching[i]);
    FirstTextsAreMatches(drivers, matching, first, sentiment);
    FirstTextsAreSubsequence(drivers, matching, first);
    Map(first, DriverText)
  }

  /** The kept texts are those of the first matching drivers, and each comes
      from a driver with the sentiment. */
  lemma FirstTextsAreMatches(drivers: seq<KeyDriver>, matching: seq<KeyDriver>, first: seq<KeyDriver>,
                             sentiment: Sentiment)
    requires forall i :: 0 <= i < |matching| ==> matching[i] in drivers && matching[i].sentiment == sentiment
    requires forall j :: 0 <= j < |drivers| && drivers[j].sentiment == sentiment ==> drivers[j] in matching
    requires |first| <= |matching| && first == matching[..|first|]
    requires |matching| <= MaxDriversPerSentiment ==> first == matching
    ensures var texts := Map(first, DriverText);
      && (forall i :: 0 <= i < |texts| ==> texts[i] == matching[i].text)
      && (forall i :: 0 <= i < |texts| ==>
            exists j :: 0 <= j < |drivers| && drivers[j].sentiment == sentiment && drivers[j].text == texts[i])
      && (|matching| <= MaxDriversPerSentiment ==>
            forall j :: 0 <= j < |drivers| && drivers[j].sentiment == sentiment ==> drivers[j].text in texts)
  {
    var texts := Map(first, DriverText);
    forall i | 0 <= i < |texts|
      ensures exists j :: 0 <= j < |drivers| && drivers[j].sentiment == sentiment && drivers[j].text == texts[i]
    {
      assert first[i] == matching[i] && matching[i] in drivers;
      var j :| 0 <= j < |drivers| && drivers[j] == matching[i];
      assert drivers[j].text == texts[i];
    }
    if |matching| <= MaxDriversPerSentiment {
      forall j | 0 <= j < |drivers| && drivers[j].sentiment == sentiment ensures drivers[j].text in texts {
        assert drivers[j] in matching;
        var i :| 0 <= i < |matching| && matching[i] == drivers[j];
        assert texts[i] == drivers[j].text;
      }
    }
  }

  /** The kept texts appear in the drivers' texts in the same order. */
  lemma FirstTextsAreSubsequence(drivers: seq<KeyDriver>, matching: seq<KeyDriver>, first: seq<KeyDriver>)
    requires IsSubsequence(matching, drivers)
    requires |first| <= |matching| && first == matching[..|first|]
    ensures IsSubsequence(Map(first, DriverText), Map(drivers, DriverText))
  {
    PrefixIsSubsequence(matching, |first|);
    SubsequenceTransitive(first, matching, drivers);
    MapSubsequence(first, drivers, DriverText);
  }

  /** The two driver lists the page shows; neutral drivers feed neither. */
  datatype KeyDriverLists = KeyDriverLists(positive: seq<string>, negative: seq<string>)

  function KeyDriversData(drivers: seq<KeyDriver>): (lists: KeyDriverLists)
    ensures lists.positive == DriverTexts(drivers, Positive) && lists.negative == DriverTexts(drivers, Negative)
    ensures |lists.positive| <= MaxDriversPerSentiment && |lists.negative| <= MaxDriversPerSentiment
    ensures forall i :: 0 <= i < |lists.positive| ==>
      exists j :: 0 <= j < |drivers| && drivers[j].sentiment == Positive && drivers[j].text == lists.positive[i]
    ensures forall i :: 0 <= i < |lists.negative| ==>
      exists j :: 0 <= j < |drivers| && drivers[j].sentiment == Negative && drivers[j].text == lists.negative[i]
  {
    KeyDriverLists(DriverTexts(drivers, Positive), DriverTexts(drivers, Negative))
  }

  datatype TrendEntry = TrendEntry(date: string, value: real)

  function ToTrendEntry(p: CHIDataPoint): TrendEntry { TrendEntry(p.hour, p.score) }

  /** `trendData.slice(0, 24).map(td => ({ date: td.hour, value: td.score }))` */
  function TrendsData(points: seq<CHIDataPoint>): (r: seq<TrendEntry>)
    ensures |r| == if |points| < MaxTrendPoints then |points| else MaxTrendPoints
    ensures forall i :: 0 <= i < |r| ==> r[i].date == points[i].hour && r[i].value == points[i].score
  {
    Map(Prefix(points, MaxTrendPoints), ToTrendEntry)
  }

  /** The page's state hooks. */
  class IndexPage {
    const hotspots: seq<Hotspot>
    const analysis: AnalysisResult
    var selectedHotspot: Option<Hotspot>
    var selectedProvider: string
    var showReportModal: bool
    var reportTarget: Option<ReportTarget>

    /** `hotspots` and `analysis` are the mock data the page imports. */
    constructor (hotspots: seq<Hotspot>, analysis: AnalysisResult)
      ensures this.hotspots == hotspots && this.analysis == analysis
      ensures selectedHotspot == None && selectedProvider == AllProviders
      ensures !showReportModal && reportTarget == None
    {
      this.hotspots := hotspots;
      this.analysis := analysis;
      selectedHotspot := None;
      selectedProvider := AllProviders;
      showReportModal := false;
      reportTarget := None;
    }

    /** The hotspots handed to the map: all of them for "all", otherwise
        exactly those with the selected provider tag, in list order. */
    function FilteredHotspots(): (r: seq<Hotspot>)
      reads this
      ensures selectedProvider == AllProviders ==> r == hotspots
      ensures selectedProvider != AllProviders ==>
        && (forall i :: 0 <= i < |r| ==> r[i].provider == selectedProvider)
        && (forall i :: 0 <= i < |hotspots| && hotspots[i].provider == selectedProvider ==> hotspots[i] in r)
        && IsSubsequence(r, hotspots)
        && |r| == Count(hotspots, HasProvider(selectedProvider))
    {
      FilterByProvider(hotspots, selectedProvider)
    }

    /** The analysis the side panels show: the base one until a hotspot is
        selected, then that hotspot's overlay. */
    function CurrentAnalysis(): (r: AnalysisResult)
      reads this
      ensures selectedHotspot == None ==> r == analysis
      ensures selectedHotspot != None ==>
        && r.chiScore == selectedHotspot.value.chi
        && r.location.city == CityPart(selectedHotspot.value.city)
        && r.location.state == StatePart(selectedHotspot.value.city)
        && r.(location := analysis.location, chiScore := analysis.chiScore) == analysis
      ensures selectedHotspot.Some? ==> r == AnalysisForHotspot(analysis, selectedHotspot.value)
    {
      match selectedHotspot
      case None => analysis
      case Some(h) => AnalysisForHotspot(analysis, h)
    }

    function KeyDrivers(): KeyDriverLists
      reads this
    {
      KeyDriversData(CurrentAnalysis().keyDrivers)
    }

    function Trends(): seq<TrendEntry>
      reads this
    {
      TrendsData(CurrentAnalysis().trendData)
    }

    method SelectProvider(id: string)
      modifies this`selectedProvider
      ensures selectedProvider == id
    {
      selectedProvider := id;
    }

    /** A click on a marker selects its hotspot. */
    method ClickHotspot(h: Hotspot)
      modifies this`selectedHotspot
      ensures selectedHotspot == Some(h)
    {
      selectedHotspot := Some(h);
    }

    /** A click on the map targets that point and opens the modal; unlike the
        command centre, the selected hotspot stays selected. */
    method ClickMap(coords: LatLng)
      modifies this`reportTarget, this`showReportModal
      ensures reportTarget == Some(PointTarget(coords)) && showReportModal
    {
      reportTarget := Some(PointTarget(coords));
      showReportModal := true;
    }

    /** The header's "Generate Report" button targets the selected hotspot,
        or the general view when none is selected. */
    method ClickHeaderReport()
      modifies this`reportTarget, this`showReportModal
      ensures selectedHotspot != None ==> reportTarget == Some(HotspotTarget(selectedHotspot.value))
      ensures selectedHotspot == None ==> reportTarget == Some(GeneralTarget)
      ensures showReportModal
    {
      reportTarget := Some(if selectedHotspot != None then HotspotTarget(selectedHotspot.value) else GeneralTarget);
      showReportModal := true;
    }

    method CloseReportModal()
      modifies this`showReportModal
      ensures !showReportModal
    {
      showReportModal := false;
    }

    /** The modal's generate button: nothing without a target; otherwise the
        payload for the target (with this page's overlay) and the modal closes. */
    method GenerateReport(generatedAt: string) returns (payload: Option<Payload>)
      modifies this`showReportModal
      ensures old(reportTarget) == None ==> payload == None && showReportModal == old(showReportModal)
      ensures old(reportTarget) != None ==>
        && payload == Some(ReportPayload(reportTarget.value, generatedAt, analysis, AnalysisForHotspot))
        && !showReportModal
    {
      if reportTarget == None {
        return None;
      }
      var target := reportTarget.value;
      var p := Payload(generatedAt, target, None);
      if HasCity(target) {
        p := p.(analysis := Some(HotspotAnalysis(AnalysisForHotspot(analysis, target.hotspot))));
      } else if target.PointTarget? {
        p := p.(analysis := Some(PointAnalysis(PointNote, target.coords)));
      }
      payload := Some(p);
      showReportModal := false;
    }
  }

  /** The header button with nothing selected yields a report without analysis. */
  lemma GeneralReportHasNoAnalysis(generatedAt: string, analysis: AnalysisResult)
    ensures ReportPayload(GeneralTarget, generatedAt, analysis, AnalysisForHotspot).analysis == None
    ensures ReportPayload(GeneralTarget, generatedAt, analysis, AnalysisForHotspot).target == GeneralTarget
  {
  }
}

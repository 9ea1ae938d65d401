/** The network-outage command centre page (src/App2.tsx): its fixed hotspot
    list, the hotspot overlay of the analysis, the marker style, and the page
    state that the markers, the map and the report modal update. */
module CommandCenter {
  import opened Wrappers
  import opened Types
  import opened HotspotSelection

  /** The ten hotspots the page is built around. */
  const MockHotspots: seq<Hotspot> := [
    Hotspot(1, 32.7767, -96.7970, "Dallas, TX", Critical, "tmobile", 847, 62.3, "2h 34m"),
    Hotspot(2, 30.2672, -97.7431, "Austin, TX", Warning, "tmobile", 342, 74.1, "1h 12m"),
    Hotspot(3, 29.7604, -95.3698, "Houston, TX", Critical, "verizon", 1243, 58.7, "3h 45m"),
    Hotspot(4, 33.4484, -112.0740, "Phoenix, AZ", Warning, "att", 456, 71.2, "0h 48m"),
    Hotspot(5, 34.0522, -118.2437, "Los Angeles, CA", Moderate, "tmobile", 234, 78.9, "0h 23m"),
    Hotspot(6, 40.7128, -74.0060, "New York, NY", Critical, "verizon", 1892, 54.2, "4h 12m"),
    Hotspot(7, 41.8781, -87.6298, "Chicago, IL", Warning, "tmobile", 567, 69.8, "1h 56m"),
    Hotspot(8, 37.7749, -122.4194, "San Francisco, CA", Moderate, "att", 289, 81.3, "0h 34m"),
    Hotspot(9, 47.6062, -122.3321, "Seattle, WA", Warning, "tmobile", 423, 72.5, "1h 28m"),
    Hotspot(10, 25.7617, -80.1918, "Miami, FL", Moderate, "verizon", 312, 76.4, "0h 41m")
  ]

  /** The provider buttons, in display order. */
  const ProviderIds: seq<string> := [AllProviders, "tmobile", "verizon", "att"]

  /** The analysis shown for a hotspot: the base analysis with the location's
      city replaced by the hotspot's full label and the CHI by the hotspot's. */
  function AnalysisForHotspot(analysis: AnalysisResult, hotspot: Hotspot): (r: AnalysisResult)
    ensures r.location.city == hotspot.city && r.chiScore == hotspot.chi
    ensures r.location.(city := analysis.location.city) == analysis.location
    ensures r.(location := analysis.location, chiScore := analysis.chiScore) == analysis
  {
    analysis.(location := analysis.location.(city := hotspot.city), chiScore := hotspot.chi)
  }

  const UnknownSeverityColor: string := "#94a3b8"

  /** The `colors` lookup with its fallback. */
  function MarkerColor(severity: string): (color: string)
    ensures severity == "critical" ==> color == "#ef4444"
    ensures severity == "warning" ==> color == "#f59e0b"
    ensures severity == "moderate" ==> color == "#eab308"
    ensures ParseSeverity(severity).None? ==> color == UnknownSeverityColor
  {
    match ParseSeverity(severity)
    case Some(Critical) => "#ef4444"
    case Some(Warning) => "#f59e0b"
    case Some(Moderate) => "#eab308"
    case None => UnknownSeverityColor
  }

  /** Critical markers are drawn larger than every other kind. */
  function MarkerRadius(severity: string): (radius: nat)
    ensures radius == 16 <==> severity == "critical"
    ensures radius == 12 <==> severity != "critical"
  {
    if severity == "critical" then 16 else 12
  }

  /** The page's state hooks. */
  class Dashboard {
    const hotspots: seq<Hotspot>
    const analysis: AnalysisResult
    var selectedHotspot: Option<Hotspot>
    var selectedProvider: string
    var showReportModal: bool
    var reportTarget: Option<ReportTarget>

    constructor (analysis: AnalysisResult)
      ensures hotspots == MockHotspots && this.analysis == analysis
      ensures selectedHotspot == None && selectedProvider == AllProviders
      ensures !showReportModal && reportTarget == None
    {
      this.hotspots := MockHotspots;
      this.analysis := analysis;
      selectedHotspot := None;
      selectedProvider := AllProviders;
      showReportModal := false;
      reportTarget := None;
    }

    /** The markers on the map and the list the stat cards count. */
    function FilteredHotspots(): seq<Hotspot>
      reads this
    {
      FilterByProvider(hotspots, selectedProvider)
    }

    /** A provider button. */
    method SelectProvider(id: string)
      modifies this`selectedProvider
      ensures selectedProvider == id
    {
      selectedProvider := id;
    }

    /** The header "Generate Report" button opens the modal and keeps the target. */
    method OpenReportModal()
      modifies this`showReportModal
      ensures showReportModal
    {
      showReportModal := true;
    }

    /** A click on a marker selects its hotspot and opens the side panel. */
    method ClickMarker(h: Hotspot)
      modifies this`selectedHotspot
      ensures selectedHotspot == Some(h)
    {
      selectedHotspot := Some(h);
    }

    /** The popup's "Generate Report for this area" button. */
    method ClickPopupReport(h: Hotspot)
      modifies this`reportTarget, this`selectedHotspot, this`showReportModal
      ensures reportTarget == Some(HotspotTarget(h)) && selectedHotspot == Some(h) && showReportModal
    {
      reportTarget := Some(HotspotTarget(h));
      selectedHotspot := Some(h);
      showReportModal := true;
    }

    /** A click on the map away from any marker targets that point, clears the
        selected hotspot and opens the modal. */
    method ClickMap(coords: LatLng)
      modifies this`reportTarget, this`selectedHotspot, this`showReportModal
      ensures reportTarget == Some(PointTarget(coords)) && selectedHotspot == None && showReportModal
    {
      reportTarget := Some(PointTarget(coords));
      selectedHotspot := None;
      showReportModal := true;
    }

    /** The side panel's close button. */
    method ClosePanel()
      modifies this`selectedHotspot
      ensures selectedHotspot == None
    {
      selectedHotspot := None;
    }

    /** The modal's close button. */
    method CloseReportModal()
      modifies this`showReportModal
      ensures !showReportModal
    {
      showReportModal := false;
    }

    /** "Generate & Download Report": with no target nothing happens; otherwise
        the payload for the target is produced and the modal closes. The
        download itself is left out; `generatedAt` is the clock reading. */
    method GenerateReport(generatedAt: string) returns (payload: Option<Payload>)
      modifies this`showReportModal
      ensures old(reportTarget) == None ==> payload == None && showReportModal == old(showReportModal)
      ensures old(reportTarget) != None ==>
        && payload == Some(ReportPayload(reportTarget.value, generatedAt, analysis, AnalysisForHotspot))
        && !showReportModal
    {
      if reportTarget == None {
        return None;
      }
      var target := reportTarget.value;
      var p := Payload(generatedAt, target, None);
      if HasCity(target) {
        p := p.(analysis := Some(HotspotAnalysis(AnalysisForHotspot(analysis, target.hotspot))));
      } else if target.PointTarget? {
        p := p.(analysis := Some(PointAnalysis(PointNote, target.coords)));
      }
      payload := Some(p);
      showReportModal := false;
    }
  }
}

/** Hotspot selection and the report payload, which the command-centre page
    (src/App2.tsx) and the coverage page (src/pages/Index.tsx) compute the
    same way: the provider filter, the badge and severity counts, and the
    three-way choice of what a report carries. */
module HotspotSelection {
  import opened Wrappers
  import opened Seqs
  import opened Types

  /** The provider id that stands for "every provider". */
  const AllProviders: string := "all"

  /** The filter predicate `h => h.provider === provider`. */
  function HasProvider(provider: string): Hotspot -> bool {
    (h: Hotspot) => h.provider == provider
  }

  /** `hotspots.filter(h => h.provider === provider)` */
  function WithProvider(hotspots: seq<Hotspot>, provider: string): seq<Hotspot> {
    Filter(hotspots, HasProvider(provider))
  }

  /** The hotspots shown for the selected provider tab. */
  function FilterByProvider(hotspots: seq<Hotspot>, provider: string): (r: seq<Hotspot>)
    ensures provider == AllProviders ==> r == hotspots
    ensures provider != AllProviders ==>
      && (forall i :: 0 <= i < |r| ==> r[i].provider == provider)
      && (forall i :: 0 <= i < |hotspots| && hotspots[i].provider == provider ==> hotspots[i] in r)
      && IsSubsequence(r, hotspots)
      && |r| == Count(hotspots, HasProvider(provider))
  {
    if provider == AllProviders then hotspots else WithProvider(hotspots, provider)
  }

  /** The number on a provider button: the whole list for "all", otherwise the
      hotspots with that provider tag. It is the number of markers that
      selecting the button would show. */
  function BadgeCount(hotspots: seq<Hotspot>, providerId: string): (n: nat)
    ensures n == |FilterByProvider(hotspots, providerId)|
    ensures providerId == AllProviders ==> n == |hotspots|
    ensures providerId != AllProviders ==> n == Count(hotspots, HasProvider(providerId))
  {
    if providerId == AllProviders then |hotspots| else |WithProvider(hotspots, providerId)|
  }

  /** `filteredHotspots.filter(h => h.severity === severity).length` */
  function SeverityCount(hotspots: seq<Hotspot>, severity: Severity): (n: nat)
    ensures n <= |hotspots|
  {
    |Filter(hotspots, (h: Hotspot) => h.severity == severity)|
  }

  /** The critical, warning and moderate stat cards add up to the list shown. */
  lemma {:induction false} SeverityCountsPartition(hotspots: seq<Hotspot>)
    ensures SeverityCount(hotspots, Critical) + SeverityCount(hotspots, Warning)
            + SeverityCount(hotspots, Moderate) == |hotspots|
  {
    if hotspots != [] {
      SeverityCountsPartition(hotspots[1..]);
    }
  }

  /** The `lat`/`lng` pair a map click delivers. */
  datatype LatLng = LatLng(lat: real, lng: real)

  /** What a report is about: a hotspot, an arbitrary map point, or (on the
      coverage page) the general view with nothing selected. */
  datatype ReportTarget =
    | HotspotTarget(hotspot: Hotspot)
    | PointTarget(coords: LatLng)
    | GeneralTarget

  /** `reportTarget.city` is truthy: a hotspot whose city label is non-empty. */
  predicate HasCity(target: ReportTarget) {
    target.HotspotTarget? && target.hotspot.city != ""
  }

  const PointNote: string := "Point selection - no hotspot analysis"

  datatype PayloadAnalysis =
    | HotspotAnalysis(analysis: AnalysisResult)
    | PointAnalysis(note: string, coords: LatLng)

  /** The JSON object offered for download; `analysis` is absent when the
      target is neither a hotspot with a city nor a point. */
  datatype Payload = Payload(generatedAt: string, target: ReportTarget, analysis: Option<PayloadAnalysis>)

  /** The payload built for a target from the page's base analysis, its
      hotspot overlay `overlay`, and the clock reading `generatedAt`. */
  function ReportPayload(target: ReportTarget, generatedAt: string, analysis: AnalysisResult,
                         overlay: (AnalysisResult, Hotspot) -> AnalysisResult): (p: Payload)
    ensures p.generatedAt == generatedAt && p.target == target
    ensures p.analysis.Some? <==> HasCity(target) || target.PointTarget?
    ensures HasCity(target) ==> p.analysis == Some(HotspotAnalysis(overlay(analysis, target.hotspot)))
    ensures target.PointTarget? ==> p.analysis == Some(PointAnalysis(PointNote, target.coords))
  {
    var base := Payload(generatedAt, target, None);
    if HasCity(target) then base.(analysis := Some(HotspotAnalysis(overlay(analysis, target.hotspot))))
    else if target.PointTarget? then base.(analysis := Some(PointAnalysis(PointNote, target.coords)))
    else base
  }

  /** A hotspot whose city label is empty is falsy under `reportTarget.city`,
      so its report carries no analysis at all. */
  lemma EmptyCityHotspotHasNoAnalysis(h: Hotspot, generatedAt: string, analysis: AnalysisResult,
                                      overlay: (AnalysisResult, Hotspot) -> AnalysisResult)
    requires h.city == ""
    ensures ReportPayload(HotspotTarget(h), generatedAt, analysis, overlay).analysis == None
  {
  }
}

/** The coverage map's marker style (src/components/CoverageMap.tsx): fill colour
    and radius by severity, with fallbacks for any other severity string. */
module CoverageMap {
  import opened Wrappers
  import opened Types

  const DefaultSeverityColor: string := "#6b7280"

  /** `getSeverityColor` */
  function SeverityColor(severity: string): (color: string)
    ensures severity == "critical" ==> color == "#ef4444"
    ensures severity == "warning" ==> color == "#f59e0b"
    ensures severity == "moderate" ==> color == "#22c55e"
    ensures ParseSeverity(severity).None? ==> color == DefaultSeverityColor
  {
    match ParseSeverity(severity)
    case Some(Critical) => "#ef4444"
    case Some(Warning) => "#f59e0b"
    case Some(Moderate) => "#22c55e"
    case None => DefaultSeverityColor
  }

  /** Only the three severities have their own colour. */
  lemma OwnColourOnlyForSeverities(severity: string)
    ensures SeverityColor(severity) != DefaultSeverityColor <==> ParseSeverity(severity).Some?
  {
  }

  /** The marker radius: 16 for critical, 12 for warning, 8 for anything else. */
  function MarkerRadius(severity: string): (radius: nat)
    ensures severity == "critical" ==> radius == 16
    ensures severity == "warning" ==> radius == 12
    ensures severity != "critical" && severity != "warning" ==> radius == 8
  {
    if severity == "critical" then 16 else if severity == "warning" then 12 else 8
  }

  /** How serious a severity is: 2 for critical, 1 for warning, 0 for moderate. */
  function Seriousness(s: Severity): nat {
    match s
    case Critical => 2
    case Warning => 1
    case Moderate => 0
  }

  /** More serious hotspots are drawn strictly larger. */
  lemma RadiusFollowsSeriousness(s: Severity, t: Severity)
    requires Seriousness(s) > Seriousness(t)
    ensures MarkerRadius(s.Name()) > MarkerRadius(t.Name())
  {
  }
}

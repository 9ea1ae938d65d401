/** The location summary header (src/components/LocationSummaryHeader.tsx):
    the colour band of the CHI score. */
module LocationSummary {

  /** The three bands, best first, with the class each one renders. */
  datatype ChiBand = ModerateBand | WarningBand | CriticalBand {
    function ClassName(): string {
      match this
      case ModerateBand => "text-status-moderate"
      case WarningBand => "text-status-warning"
      case CriticalBand => "text-status-critical"
    }

    /** 2 for the best band, 0 for the worst. */
    function Rank(): nat {
      match this
      case ModerateBand => 2
      case WarningBand => 1
      case CriticalBand => 0
    }
  }

  /** `chiColor`: 75 and up is moderate, 65 up to 75 warning, below 65 critical. */
  function BandOf(chiScore: real): (band: ChiBand)
    ensures chiScore >= 75.0 ==> band == ModerateBand
    ensures 65.0 <= chiScore < 75.0 ==> band == WarningBand
    ensures chiScore < 65.0 ==> band == CriticalBand
  {
    if chiScore >= 75.0 then ModerateBand else if chiScore >= 65.0 then WarningBand else CriticalBand
  }

  /** The class string of the band. */
  function ChiColor(chiScore: real): (cls: string)
    ensures cls == "text-status-moderate" <==> chiScore >= 75.0
    ensures cls == "text-status-warning" <==> 65.0 <= chiScore < 75.0
    ensures cls == "text-status-critical" <==> chiScore < 65.0
  {
    BandOf(chiScore).ClassName()
  }

  /** A higher score never lands in a worse band. */
  lemma BandIsMonotone(a: real, b: real)
    requires a <= b
    ensures BandOf(a).Rank() <= BandOf(b).Rank()
  {
  }

  /** The three class names are distinct, so the band can be read off the class. */
  lemma ClassNamesDistinct(x: ChiBand, y: ChiBand)
    ensures x.ClassName() == y.ClassName() <==> x == y
  {
  }
}

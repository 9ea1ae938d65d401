/** The record shapes and enumerations shared by the dashboard
    (src/types/index.ts). String-literal unions become datatypes; each has
    `Name()` giving the literal the source uses and a parser that is its exact
    inverse, so "one of these values" is a fact of the type. Numbers with
    fractions are `real`. */
module Types {
  import opened Wrappers

  datatype Coordinates = Coordinates(lat: real, lon: real)

  /** `state` is declared as a string, but the hotspot overlay of the Index page
      can store `undefined` there, so the model lets it be absent. */
  datatype LocationData = LocationData(
    city: string,
    state: Option<string>,
    zipCode: string,
    coordinates: Coordinates,
    population: int,
    timestamp: string)

  datatype Severity = Critical | Warning | Moderate {
    function Name(): string {
      match this
      case Critical => "critical"
      case Warning => "warning"
      case Moderate => "moderate"
    }
  }

  function ParseSeverity(name: string): (r: Option<Severity>)
    ensures r.Some? ==> r.value.Name() == name
    ensures forall s: Severity :: s.Name() == name ==> r == Some(s)
  {
    if name == "critical" then Some(Critical)
    else if name == "warning" then Some(Warning)
    else if name == "moderate" then Some(Moderate)
    else None
  }

  datatype Hotspot = Hotspot(
    id: int,
    lat: real,
    lng: real,
    city: string,
    severity: Severity,
    provider: string,
    outageCount: int,
    chi: real,
    duration: string)

  /** `marketShare` is declared as a number, but CompetitorComparison falls back
      to 0 when it is missing, so the model lets it be absent. */
  datatype CompetitorData = CompetitorData(
    name: string,
    marketShare: Option<real>,
    chiScore: real,
    signalStrength: real,
    avgSpeed: real,
    dropRate: real,
    color: string)

  datatype AgentState = Idle | Processing | Complete | Error {
    function Name(): string {
      match this
      case Idle => "idle"
      case Processing => "processing"
      case Complete => "complete"
      case Error => "error"
    }
  }

  function ParseAgentState(name: string): (r: Option<AgentState>)
    ensures r.Some? ==> r.value.Name() == name
    ensures forall s: AgentState :: s.Name() == name ==> r == Some(s)
  {
    if name == "idle" then Some(Idle)
    else if name == "processing" then Some(Processing)
    else if name == "complete" then Some(Complete)
    else if name == "error" then Some(Error)
    else None
  }

  datatype AgentStatus = AgentStatus(
    id: int,
    name: string,
    status: AgentState,
    description: string,
    icon: string,
    processingTime: Option<real>,
    result: Option<string>)

  datatype Sentiment = Positive | Negative | Neutral {
    function Name(): string {
      match this
      case Positive => "positive"
      case Negative => "negative"
      case Neutral => "neutral"
    }
  }

  function ParseSentiment(name: string): (r: Option<Sentiment>)
    ensures r.Some? ==> r.value.Name() == name
    ensures forall s: Sentiment :: s.Name() == name ==> r == Some(s)
  {
    if name == "positive" then Some(Positive)
    else if name == "negative" then Some(Negative)
    else if name == "neutral" then Some(Neutral)
    else None
  }

  datatype DriverCategory = NetworkCategory | Pricing | Support | Coverage | Features {
    function Name(): string {
      match this
      case NetworkCategory => "network"
      case Pricing => "pricing"
      case Support => "support"
      case Coverage => "coverage"
      case Features => "features"
    }
  }

  function ParseDriverCategory(name: string): (r: Option<DriverCategory>)
    ensures r.Some? ==> r.value.Name() == name
    ensures forall c: DriverCategory :: c.Name() == name ==> r == Some(c)
  {
    if name == "network" then Some(NetworkCategory)
    else if name == "pricing" then Some(Pricing)
    else if name == "support" then Some(Support)
    else if name == "coverage" then Some(Coverage)
    else if name == "features" then Some(Features)
    else None
  }

  datatype KeyDriver = KeyDriver(
    id: string,
    text: string,
    sentiment: Sentiment,
    frequency: real,
    impact: real,
    category: DriverCategory)

  datatype MetricStatus = Excellent | Good | Fair | Poor
  datatype MetricTrend = Up | Down | Stable

  datatype NetworkMetric = NetworkMetric(
    name: string,
    value: real,
    unit: string,
    status: MetricStatus,
    trend: MetricTrend,
    trendValue: real,
    icon: string)

  datatype CHIDataPoint = CHIDataPoint(timestamp: string, score: real, date: string, hour: string)

  datatype FeedbackSource = Twitter | Survey | App | Call

  datatype CustomerFeedback = CustomerFeedback(
    id: string,
    text: string,
    sentiment: Sentiment,
    source: FeedbackSource,
    timestamp: string,
    location: Option<string>)

  datatype Summary = Summary(
    totalInteractions: int,
    positiveSentiment: real,
    negativeSentiment: real,
    neutralSentiment: real,
    avgResponseTime: real)

  /** Every field is required, so an analysis always carries all eight parts. */
  datatype AnalysisResult = AnalysisResult(
    location: LocationData,
    chiScore: real,
    competitors: seq<CompetitorData>,
    keyDrivers: seq<KeyDriver>,
    networkHealth: seq<NetworkMetric>,
    trendData: seq<CHIDataPoint>,
    recentFeedback: seq<CustomerFeedback>,
    summary: Summary)

  datatype ApiResponse<T> = ApiResponse(success: bool, data: T, message: Option<string>, timestamp: string)

  /** The `success: false` literal type is the constant below rather than a
      field, so an error response never reports success. */
  datatype ErrorResponse = ErrorResponse(error: string, code: string, timestamp: string) {
    const success: bool := false
  }

  datatype LoadingState = IdleLoading | Loading | SuccessLoading | ErrorLoading {
    function Name(): string {
      match this
      case IdleLoading => "idle"
      case Loading => "loading"
      case SuccessLoading => "success"
      case ErrorLoading => "error"
    }
  }

  function ParseLoadingState(name: string): (r: Option<LoadingState>)
    ensures r.Some? ==> r.value.Name() == name
    ensures forall s: LoadingState :: s.Name() == name ==> r == Some(s)
  {
    if name == "idle" then Some(IdleLoading)
    else if name == "loading" then Some(Loading)
    else if name == "success" then Some(SuccessLoading)
    else if name == "error" then Some(ErrorLoading)
    else None
  }

  datatype DashboardState = DashboardState(
    loadingState: LoadingState,
    currentLocation: Option<LocationData>,
    analysisResult: Option<AnalysisResult>,
    error: Option<string>,
    lastUpdated: Option<string>)
}

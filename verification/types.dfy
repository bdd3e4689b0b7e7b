/** The records, statistics, profiles, fleet rows and model-lifecycle values
    the dashboard passes between its services, with their enumerations. */
module Types {
  import opened Common

  // ---------------------------------------------------------------------
  // Telemetry events
  // ---------------------------------------------------------------------

  datatype Beverage =
    | Espresso | Lungo | Ristretto | GreenTea | BlackTea | EarlGrey
    | LatteMacchiato | Cappuccino

  /** The enumeration's string values, used as object keys and display names. */
  function BeverageName(b: Beverage): string
  {
    match b
    case Espresso => "Espresso"
    case Lungo => "Lungo"
    case Ristretto => "Ristretto"
    case GreenTea => "Green Tea"
    case BlackTea => "Black Tea"
    case EarlGrey => "Earl Grey"
    case LatteMacchiato => "Latte Macchiato"
    case Cappuccino => "Cappuccino"
  }

  /** Every beverage, in declaration order. */
  function AllBeverages(): (r: seq<Beverage>)
    ensures |r| == 8
    ensures forall i, j :: 0 <= i < j < |r| ==> r[i] != r[j]
  {
    [Espresso, Lungo, Ristretto, GreenTea, BlackTea, EarlGrey, LatteMacchiato, Cappuccino]
  }

  /** The enumeration has exactly the eight listed members, Ristretto among them. */
  lemma AllBeveragesComplete()
    ensures forall b :: b in AllBeverages()
    ensures Ristretto in AllBeverages()
  {
    var r := AllBeverages();
    forall b ensures b in r {
      match b
      case Espresso => assert r[0] == b;
      case Lungo => assert r[1] == b;
      case Ristretto => assert r[2] == b;
      case GreenTea => assert r[3] == b;
      case BlackTea => assert r[4] == b;
      case EarlGrey => assert r[5] == b;
      case LatteMacchiato => assert r[6] == b;
      case Cappuccino => assert r[7] == b;
    }
  }

  datatype Gender = Male | Female | Other

  datatype ModelType = UserPersona | BehaviorAnalysis | Recommendation | SalesPrediction

  /** The two fault codes the synthesizer injects. */
  datatype ErrorCode = PressureLow | TimeoutGateway

  datatype GeoLocation = GeoLocation(city: string, lat: real, lng: real)

  datatype BrewingParams = BrewingParams(temperature: int, pressure: real, volume: int, brewingTime: int)

  datatype Telemetry = Telemetry(latency: int, signalStrength: int, cpuUsage: int, errorCode: Option<ErrorCode>)

  datatype IoTRecord = IoTRecord(
    id: string,
    timestamp: int,
    userId: string,
    age: int,
    gender: Gender,
    location: GeoLocation,
    beverage: Beverage,
    quantity: nat,
    params: BrewingParams,
    telemetry: Telemetry,
    machineId: string,
    firmwareVersion: string)

  /** `if (r.telemetry.errorCode)`: both codes are non-empty strings. */
  predicate HasError(r: IoTRecord) { r.telemetry.errorCode.Some? }

  // Named projections, so that the same key function is passed everywhere.
  function CityOf(r: IoTRecord): string { r.location.city }
  function BeverageOf(r: IoTRecord): Beverage { r.beverage }
  function UserOf(r: IoTRecord): string { r.userId }
  function MachineOf(r: IoTRecord): string { r.machineId }
  function TimestampOf(r: IoTRecord): int { r.timestamp }
  function ErrorFlag(r: IoTRecord): bool { HasError(r) }

  /** The sums of the brewing temperatures and of the network latencies. */
  function TotalTemp(records: seq<IoTRecord>): int
  {
    if |records| == 0 then 0 else TotalTemp(records[..|records| - 1]) + records[|records| - 1].params.temperature
  }

  function TotalLatency(records: seq<IoTRecord>): int
  {
    if |records| == 0 then 0 else TotalLatency(records[..|records| - 1]) + records[|records| - 1].telemetry.latency
  }

  // ---------------------------------------------------------------------
  // Aggregated statistics
  // ---------------------------------------------------------------------

  /** The 24 hour-of-day buckets of `timeDistribution`. */
  type HourBuckets = s: seq<nat> | |s| == 24 witness seq(24, i => 0)

  /** `topBeverage` is `None` where the source shows the string 'N/A'. */
  datatype AggregatedStats = AggregatedStats(
    totalBrews: nat,
    avgTemp: real,
    topBeverage: Option<Beverage>,
    activeUsers: nat,
    cityDistribution: map<string, nat>,
    timeDistribution: HourBuckets,
    beverageDistribution: map<Beverage, nat>,
    avgLatency: real,
    errorRate: real)

  // ---------------------------------------------------------------------
  // Machine learning results and the model lifecycle
  // ---------------------------------------------------------------------

  datatype TrainingMetrics = TrainingMetrics(accuracy: real, loss: real, precision: real, recall: real, epoch: int)

  datatype ClusterCentroid = ClusterCentroid(
    id: int, avgAge: real, avgBrewHour: real, prefTemp: real, size: nat, segment: string)

  datatype ForecastPoint = ForecastPoint(day: int, value: int)

  datatype RegressionResult = RegressionResult(slope: real, intercept: real, rSquared: real, forecast: seq<ForecastPoint>)

  datatype RecommendationRule = RecommendationRule(antecedent: Beverage, consequent: Beverage, confidence: real, lift: real)

  datatype AlgorithmCandidate = AlgorithmCandidate(name: string, metrics: TrainingMetrics, isBest: bool)

  datatype FeatureWeight = FeatureWeight(feature: string, importance: real)

  datatype MLResult = MLResult(
    modelType: ModelType,
    metrics: TrainingMetrics,
    algorithm: Option<string>,
    candidates: Option<seq<AlgorithmCandidate>>,
    clusters: Option<seq<ClusterCentroid>>,
    regression: Option<RegressionResult>,
    recommendations: Option<seq<RecommendationRule>>,
    featureImportance: Option<seq<FeatureWeight>>)

  datatype HyperParameters = HyperParameters(epochs: nat, learningRate: real, batchSize: nat, k: Option<nat>)

  datatype VersionStatus = Training | Ready | Production | Archived

  datatype ModelVersion = ModelVersion(
    id: string,
    versionTag: string,
    timestamp: int,
    hyperParams: HyperParameters,
    metrics: TrainingMetrics,
    status: VersionStatus,
    result: MLResult)

  /** `productionVersionId: string | null`. */
  datatype ModelLifecycleData = ModelLifecycleData(versions: seq<ModelVersion>, productionVersionId: Option<string>)

  // ---------------------------------------------------------------------
  // CRM profiles and next-best actions
  // ---------------------------------------------------------------------

  datatype TagCategory = Value | Risk | Habit | AI

  /** The entries of the tag library; the hardware tag carries its error
      count and the AI tag its cluster label. */
  datatype TagKind =
    | HighTemp | LowTemp | MorningUser | NightUser | ChurnRisk | Vip | HighSpender
    | HardwareIssue(errors: nat)
    | AiCluster(clusterLabel: string)

  datatype CRMTag = CRMTag(id: string, kind: TagKind, category: TagCategory, isAiGenerated: bool)

  datatype EvidenceLabel =
    | LtvScoreLabel | TotalOrdersLabel | OrderFrequencyLabel | TotalSpendLabel
    | InventoryLabel | SentimentLabel | LastRequestLabel | ChurnLabel

  datatype Trend = Up | Down | Stable

  datatype Color = Green | Red | Slate | Blue

  datatype EvidenceMetric = EvidenceMetric(metric: EvidenceLabel, trend: Trend, color: Color)

  datatype ActionType = Upsell | Maintenance | Engagement | Retention | Replenishment

  datatype Priority = High | Medium | Low

  /** `suggestedOffer`: a refill of one product, the 20% retention
      voucher, or a product recommendation where `None` is the membership
      upgrade offered without a matching association rule. */
  datatype Offer = NoOffer | Restock(sku: Beverage) | RetentionVoucher | Recommend(product: Option<Beverage>)

  datatype NextBestAction = NextBestAction(
    actionType: ActionType,
    confidenceScore: nat,
    priority: Priority,
    offer: Offer,
    evidence: seq<EvidenceMetric>)

  datatype FeedbackType = Complaint | Inquiry | Suggestion | Praise

  datatype TicketStatus = Open | Resolved | Pending

  /** Feedback dates are `Date.now()` minus a random number of days, so reals. */
  datatype FeedbackRecord = FeedbackRecord(id: string, date: real, kind: FeedbackType, status: TicketStatus)

  /** The four-value scale shared by items and the overall inventory status. */
  datatype StockLevel = High | Medium | Low | Critical

  datatype InventoryItem = InventoryItem(
    sku: Beverage,
    currentStock: int,
    lastOrderQty: nat,
    consumptionRate: real,
    estimatedDaysLeft: int,
    status: StockLevel)

  /** `lastOrderDate` is `None` where the source computes NaN (empty user id). */
  datatype InventoryStatus = InventoryStatus(lastOrderDate: Option<int>, overallStatus: StockLevel, items: seq<InventoryItem>)

  datatype Financials = Financials(totalSpend: real, avgOrderValue: real, orderFrequencyDays: int, lastOrderAmount: real)

  datatype Sentiment = Positive | Neutral | Negative

  datatype LoyaltyTier = Bronze | Silver | Gold | Platinum

  datatype CustomerProfile = CustomerProfile(
    userId: string,
    joinDate: int,
    ltvScore: int,
    churnProbability: Percent,
    loyaltyTier: LoyaltyTier,
    tags: seq<CRMTag>,
    nextBestAction: NextBestAction,
    lastActive: int,
    totalBrews: nat,
    favoriteProduct: Option<Beverage>,
    averageDailyBrews: real,
    feedbackHistory: seq<FeedbackRecord>,
    inventory: InventoryStatus,
    financials: Financials,
    currentSentiment: Sentiment)

  // ---------------------------------------------------------------------
  // Fleet
  // ---------------------------------------------------------------------

  datatype MachineStatus = Active | Maintenance | Offline

  datatype IotInterface = WiFi | FiveG | LoRaWAN

  /** One machine's current row. The map pin is the latest record's location
      moved by `jitterRadius` along the bearing `jitterAngleDeg`. */
  datatype MachineFleetStatus = MachineFleetStatus(
    machineId: string,
    city: string,
    address: string,
    baseLat: real,
    baseLng: real,
    jitterAngleDeg: nat,
    jitterRadius: real,
    status: MachineStatus,
    onlineTime: string,
    totalSalesQty: nat,
    totalRevenue: real,
    categoryCount: nat,
    iotInterface: IotInterface,
    signalStrength: int,
    avgLatency: int,
    errorRate: real,
    cpuLoad: int)
}

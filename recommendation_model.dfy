/** Cost recommendations and the cost analysis the optimizer reports. */
module RecommendationModel {
  import opened Common
  import opened ServiceModel
  import opened Actions

  datatype RecommendationType =
    CostOptimization | PerformanceTuning | SecurityImprovement | ResourceRightsizing | IdleResourceCleanup

  function RecommendationTypeName(t: RecommendationType): string
  {
    match t
    case CostOptimization => "cost_optimization"
    case PerformanceTuning => "performance_tuning"
    case SecurityImprovement => "security_improvement"
    case ResourceRightsizing => "resource_rightsizing"
    case IdleResourceCleanup => "idle_resource_cleanup"
  }

  datatype RecommendationPriority = Low | Medium | High | Critical

  function PriorityName(p: RecommendationPriority): string
  {
    match p
    case Low => "low"
    case Medium => "medium"
    case High => "high"
    case Critical => "critical"
  }

  const AllRecommendationTypes: seq<RecommendationType> :=
    [CostOptimization, PerformanceTuning, SecurityImprovement, ResourceRightsizing, IdleResourceCleanup]
  const AllPriorities: seq<RecommendationPriority> := [Low, Medium, High, Critical]

  /** Five recommendation types and four priorities, each under a distinct name. */
  lemma RecommendationEnumerationsAreClosed()
    ensures |AllRecommendationTypes| == 5 && forall t :: t in AllRecommendationTypes
    ensures forall i, j :: 0 <= i < j < 5 ==>
      RecommendationTypeName(AllRecommendationTypes[i]) != RecommendationTypeName(AllRecommendationTypes[j])
    ensures |AllPriorities| == 4 && forall p :: p in AllPriorities
    ensures forall i, j :: 0 <= i < j < 4 ==> PriorityName(AllPriorities[i]) != PriorityName(AllPriorities[j])
  {
    forall t: RecommendationType
      ensures t in AllRecommendationTypes
    {
      match t
      case CostOptimization => assert AllRecommendationTypes[0] == t;
      case PerformanceTuning => assert AllRecommendationTypes[1] == t;
      case SecurityImprovement => assert AllRecommendationTypes[2] == t;
      case ResourceRightsizing => assert AllRecommendationTypes[3] == t;
      case IdleResourceCleanup => assert AllRecommendationTypes[4] == t;
    }
    forall p: RecommendationPriority
      ensures p in AllPriorities
    {
      match p
      case Low => assert AllPriorities[0] == p;
      case Medium => assert AllPriorities[1] == p;
      case High => assert AllPriorities[2] == p;
      case Critical => assert AllPriorities[3] == p;
    }
  }

  /** Descriptive text, kept as its parts: a plain sentence, or the
      utilisation note of a rightsizing recommendation (the rendering of the
      percentage with one decimal is not modelled). */
  datatype Text = Plain(s: string) | UtilizationNote(serviceName: string, utilization: real)

  datatype Recommendation = Recommendation(
    id: string,
    recType: RecommendationType,
    priority: RecommendationPriority,
    title: string,
    description: Text,
    serviceId: Option<string>,
    estimatedSavingsMonthly: real,
    impact: string,
    actions: seq<Action>,
    metadata: Metadata)

  /** A recommendation built from its required fields only. */
  function NewRecommendation(id: string, recType: RecommendationType, priority: RecommendationPriority,
                             title: string, description: Text, impact: string): (r: Recommendation)
    ensures r.serviceId == None && r.estimatedSavingsMonthly == 0.0
    ensures r.actions == [] && r.metadata == map[]
  {
    Recommendation(id, recType, priority, title, description, None, 0.0, impact, [], map[])
  }

  /** One row of `top_expensive_services`. */
  datatype TopEntry = TopEntry(serviceId: string, serviceName: string, serviceType: ServiceType, cost: real)

  datatype CostAnalysis = CostAnalysis(
    totalMonthlyCost: real,
    breakdownByServiceType: map<ServiceType, real>,
    topExpensiveServices: seq<TopEntry>,
    optimizationPotential: real)

  /** A cost analysis built from its required fields only. */
  function NewCostAnalysis(total: real, breakdown: map<ServiceType, real>): (c: CostAnalysis)
    ensures c.totalMonthlyCost == total && c.breakdownByServiceType == breakdown
    ensures c.topExpensiveServices == [] && c.optimizationPotential == 0.0
  {
    CostAnalysis(total, breakdown, [], 0.0)
  }

  datatype RecommendationResponse = RecommendationResponse(
    recommendations: seq<Recommendation>,
    costAnalysis: Option<CostAnalysis>,
    totalPotentialSavings: real)

  /** `RecommendationResponse()`: every field at its default. */
  function EmptyRecommendationResponse(): (r: RecommendationResponse)
    ensures r.recommendations == [] && r.costAnalysis == None && r.totalPotentialSavings == 0.0
  {
    RecommendationResponse([], None, 0.0)
  }
}

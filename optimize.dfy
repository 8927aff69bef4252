/** The cost-optimisation workflow: one listing of the caller's services
    yields rightsizing recommendations for under-used instances and a cost
    analysis (total, per-type breakdown, the five most expensive services,
    and the savings the recommendations promise). Money is exact. */
module Optimize {
  import opened Common
  import opened Sorting
  import opened ServiceModel
  import opened Actions
  import opened RecommendationModel
  import opened Platform

  /** Memory use below this fraction of the allocation counts as under-use. */
  const UtilizationThreshold: real := 0.3

  /** A rightsizing downgrade is expected to save half of the monthly cost. */
  const SavingsFactor: real := 0.5

  /** `metrics.get("memory_usage_mb", 0)`. */
  function MemoryUsage(s: Service): real
  {
    if "memory_usage_mb" in s.metrics then s.metrics["memory_usage_mb"] else 0.0
  }

  function Utilization(s: Service): real
    requires s.config.memoryMb > 0
  {
    MemoryUsage(s) / s.config.memoryMb as real
  }

  /** A running service with a positive memory allocation that uses strictly
      less than 30% of it. */
  predicate Underutilized(s: Service)
  {
    s.status == Running && s.config.memoryMb > 0 && Utilization(s) < UtilizationThreshold
  }

  /** The recommendation made for one under-used service. */
  function Rightsizing(s: Service): Recommendation
    requires s.config.memoryMb > 0
  {
    Recommendation(
      "rec_" + s.id + "_rightsizing",
      ResourceRightsizing,
      Medium,
      "Downgrade underutilized " + ServiceTypeName(s.serviceType) + " instance",
      UtilizationNote(s.name, Utilization(s)),
      Some(s.id),
      MonthlyCost(s.estimatedCostHourly) * SavingsFactor,
      "Reduce resource allocation to match actual usage",
      [DowngradeTier(s.id, s.tier, Starter)],
      map["current_utilization" := Num(Utilization(s))])
  }

  /** The specification of `_analyze_usage`: at most one recommendation per
      service, in the order of the services. */
  function Recommendations(services: seq<Service>): (recs: seq<Recommendation>)
    ensures |recs| <= |services|
    decreases |services|
  {
    if services == [] then []
    else
      var last := services[|services| - 1];
      Recommendations(services[..|services| - 1]) + (if Underutilized(last) then [Rightsizing(last)] else [])
  }

  /** A medium-priority rightsizing of one service carrying a single
      downgrade of that service to the starter tier. */
  predicate IsRightsizing(r: Recommendation)
  {
    && r.recType == ResourceRightsizing && r.priority == Medium
    && r.serviceId.Some? && |r.actions| == 1
    && r.actions[0].DowngradeTier?
    && r.actions[0].serviceId == r.serviceId.value && r.actions[0].toTier == Starter
  }

  /** Every recommendation made is such a rightsizing. */
  lemma {:induction false} RecommendationShape(services: seq<Service>)
    ensures forall r :: r in Recommendations(services) ==> IsRightsizing(r)
    decreases |services|
  {
    if services != [] {
      var last := services[|services| - 1];
      RecommendationShape(services[..|services| - 1]);
      if Underutilized(last) {
        assert IsRightsizing(Rightsizing(last));
      }
    }
  }

  /** One more service adds its recommendation, if it is under-used, at the end. */
  lemma RecommendationsSnoc(services: seq<Service>, s: Service)
    ensures Recommendations(services + [s])
         == Recommendations(services) + (if Underutilized(s) then [Rightsizing(s)] else [])
  {
    assert (services + [s])[..|services|] == services;
  }

  /** `_analyze_usage`: one pass over the services, appending a
      recommendation for each under-used one. */
  method AnalyzeUsage(services: seq<Service>) returns (recs: seq<Recommendation>)
    ensures recs == Recommendations(services)
  {
    recs := [];
    var i := 0;
    while i < |services|
      invariant 0 <= i <= |services|
      invariant recs == Recommendations(services[..i])
    {
      var service := services[i];
      RecommendationsSnoc(services[..i], service);
      assert services[..i + 1] == services[..i] + [service];
      if service.status == Running {
        var memoryUsage := MemoryUsage(service);
        var memoryLimit := service.config.memoryMb;
        if memoryLimit > 0 && memoryUsage / memoryLimit as real < UtilizationThreshold {
          recs := recs + [Rightsizing(service)];
        }
      }
      i := i + 1;
    }
    assert services[..|services|] == services;
  }

  lemma {:induction false} RecommendationsAppend(a: seq<Service>, b: seq<Service>)
    ensures Recommendations(a + b) == Recommendations(a) + Recommendations(b)
    decreases |b|
  {
    if b == [] {
      assert a + b == a;
    } else {
      var init := b[..|b| - 1];
      assert (a + b)[..|a + b| - 1] == a + init;
      assert (a + b)[|a + b| - 1] == b[|b| - 1];
      RecommendationsAppend(a, init);
    }
  }

  /** Exactly the under-used services are recommended for rightsizing: each
      under-used service gets its recommendation, and every recommendation
      belongs to an under-used service. */
  lemma {:induction false} RecommendedExactlyTheUnderutilized(services: seq<Service>)
    ensures forall s :: s in services && Underutilized(s) ==> Rightsizing(s) in Recommendations(services)
    ensures forall r :: r in Recommendations(services) ==>
      exists s :: s in services && Underutilized(s) && r == Rightsizing(s)
    decreases |services|
  {
    if services != [] {
      var init := services[..|services| - 1];
      var last := services[|services| - 1];
      RecommendedExactlyTheUnderutilized(init);
      forall s | s in services && Underutilized(s)
        ensures Rightsizing(s) in Recommendations(services)
      {
        if s != last {
          var k :| 0 <= k < |services| && services[k] == s;
          assert s == init[k];
        }
      }
      forall r | r in Recommendations(services)
        ensures exists s :: s in services && Underutilized(s) && r == Rightsizing(s)
      {
        if r in Recommendations(init) {
          var s :| s in init && Underutilized(s) && r == Rightsizing(s);
          assert s in services;
        } else {
          assert r == Rightsizing(last);
        }
      }
    }
  }

  /** The threshold is strict: a running service at exactly 30% use gets no
      recommendation, whatever else it is. */
  lemma ThresholdIsStrict(s: Service)
    requires s.config.memoryMb > 0 && MemoryUsage(s) == 0.3 * s.config.memoryMb as real
    ensures !Underutilized(s)
    ensures Recommendations([s]) == []
  {
    assert [s][..0] == [];
  }

  /** A recommendation's figures: half the monthly cost, and a downgrade of
      that service to the starter tier. */
  lemma RightsizingFigures(s: Service)
    requires Underutilized(s)
    ensures Rightsizing(s).estimatedSavingsMonthly == 360.0 * s.estimatedCostHourly
    ensures Rightsizing(s).serviceId == Some(s.id)
    ensures Rightsizing(s).actions == [DowngradeTier(s.id, s.tier, Starter)]
    ensures Rightsizing(s).metadata["current_utilization"] == Num(MemoryUsage(s) / s.config.memoryMb as real)
  {
  }

  /** `sum(s.estimated_cost_hourly * 24 * 30 for s in services)`. */
  function TotalMonthlyCost(services: seq<Service>): real
    decreases |services|
  {
    if services == [] then 0.0
    else TotalMonthlyCost(services[..|services| - 1]) + MonthlyCost(services[|services| - 1].estimatedCostHourly)
  }

  /** The monthly cost of the services of one type. */
  function CostOfType(services: seq<Service>, t: ServiceType): real
    decreases |services|
  {
    if services == [] then 0.0
    else
      var last := services[|services| - 1];
      CostOfType(services[..|services| - 1], t) + (if last.serviceType == t then MonthlyCost(last.estimatedCostHourly) else 0.0)
  }

  function TypesPresent(services: seq<Service>): set<ServiceType>
  {
    set s | s in services :: s.serviceType
  }

  /** The specification of the breakdown: one key per type present, mapped
      to that type's monthly cost. */
  function BreakdownOf(services: seq<Service>): map<ServiceType, real>
  {
    map t | t in TypesPresent(services) :: CostOfType(services, t)
  }

  /** The breakdown loop of `execute`: `breakdown[t] = breakdown.get(t, 0) + cost`. */
  method Breakdown(services: seq<Service>) returns (breakdown: map<ServiceType, real>)
    ensures breakdown == BreakdownOf(services)
    ensures forall t :: t in breakdown <==> exists s :: s in services && s.serviceType == t
  {
    breakdown := map[];
    var i := 0;
    while i < |services|
      invariant 0 <= i <= |services|
      invariant breakdown == BreakdownOf(services[..i])
    {
      var service := services[i];
      var cost := service.estimatedCostHourly * 24.0 * 30.0;
      assert cost == MonthlyCost(service.estimatedCostHourly);
      var previous := if service.serviceType in breakdown then breakdown[service.serviceType] else 0.0;
      BreakdownStep(services[..i], service);
      assert services[..i + 1] == services[..i] + [service];
      breakdown := breakdown[service.serviceType := previous + cost];
      i := i + 1;
    }
    assert services[..|services|] == services;
    BreakdownKeys(services);
  }

  /** The breakdown has a key exactly for each type some service has. */
  lemma BreakdownKeys(services: seq<Service>)
    ensures forall t :: t in BreakdownOf(services) <==> exists s :: s in services && s.serviceType == t
  {
    forall t | t in BreakdownOf(services)
      ensures exists s :: s in services && s.serviceType == t
    {
      var s :| s in services && s.serviceType == t;
    }
  }

  /** Adding one service to the breakdown adds its cost under its own type. */
  lemma BreakdownStep(services: seq<Service>, s: Service)
    ensures BreakdownOf(services + [s]) == BreakdownOf(services)[s.serviceType :=
      (if s.serviceType in BreakdownOf(services) then BreakdownOf(services)[s.serviceType] else 0.0)
      + MonthlyCost(s.estimatedCostHourly)]
  {
    var ss := services + [s];
    assert ss[..|ss| - 1] == services;
    assert TypesPresent(ss) == TypesPresent(services) + {s.serviceType};
    if s.serviceType !in TypesPresent(services) {
      CostOfAbsentType(services, s.serviceType);
    }
  }

  lemma {:induction false} CostOfAbsentType(services: seq<Service>, t: ServiceType)
    requires t !in TypesPresent(services)
    ensures CostOfType(services, t) == 0.0
    decreases |services|
  {
    if services != [] {
      var init := services[..|services| - 1];
      assert TypesPresent(init) <= TypesPresent(services);
      CostOfAbsentType(init, t);
    }
  }

  function BreakdownValue(breakdown: map<ServiceType, real>, t: ServiceType): real
  {
    if t in breakdown then breakdown[t] else 0.0
  }

  /** The sum of a breakdown's values. */
  function SumBreakdown(breakdown: map<ServiceType, real>): real
  {
    BreakdownValue(breakdown, Redis) + BreakdownValue(breakdown, RabbitMQ)
    + BreakdownValue(breakdown, PostgreSQL) + BreakdownValue(breakdown, MongoDB)
    + BreakdownValue(breakdown, MySQL) + BreakdownValue(breakdown, Elasticsearch)
  }

  lemma {:induction false} CostsOfAllTypes(services: seq<Service>)
    ensures CostOfType(services, Redis) + CostOfType(services, RabbitMQ)
          + CostOfType(services, PostgreSQL) + CostOfType(services, MongoDB)
          + CostOfType(services, MySQL) + CostOfType(services, Elasticsearch)
         == TotalMonthlyCost(services)
    decreases |services|
  {
    if services != [] {
      CostsOfAllTypes(services[..|services| - 1]);
    }
  }

  /** The breakdown's values add up to the total monthly cost. */
  lemma BreakdownSumsToTotal(services: seq<Service>)
    ensures SumBreakdown(BreakdownOf(services)) == TotalMonthlyCost(services)
  {
    var b := BreakdownOf(services);
    forall t | true
      ensures BreakdownValue(b, t) == CostOfType(services, t)
    {
      if t !in TypesPresent(services) {
        CostOfAbsentType(services, t);
      }
    }
    CostsOfAllTypes(services);
  }

  function HourlyCost(s: Service): real
  {
    s.estimatedCostHourly
  }

  /** `sorted(services, key=estimated_cost_hourly, reverse=True)`. */
  function ByCost(services: seq<Service>): seq<Service>
  {
    SortDesc(services, HourlyCost)
  }

  const TopCount := 5

  function ToEntry(s: Service): TopEntry
  {
    TopEntry(s.id, s.name, s.serviceType, MonthlyCost(s.estimatedCostHourly))
  }

  /** `top_expensive_services`: the first five services by cost. */
  function TopExpensive(services: seq<Service>): (top: seq<TopEntry>)
    ensures |top| == if |services| < TopCount then |services| else TopCount
  {
    var ranked := ByCost(services);
    var n := if |ranked| < TopCount then |ranked| else TopCount;
    seq(n, i requires 0 <= i < n => ToEntry(ranked[i]))
  }

  /** The ranking is a stable, non-increasing permutation of the services:
      services of equal cost keep their listing order. */
  lemma ByCostIsStableRanking(services: seq<Service>)
    ensures SortedDesc(ByCost(services), HourlyCost)
    ensures multiset(ByCost(services)) == multiset(services)
    ensures forall k :: WithKey(ByCost(services), HourlyCost, k) == WithKey(services, HourlyCost, k)
  {
    SortDescSorted(services, HourlyCost);
    forall k | true
      ensures WithKey(ByCost(services), HourlyCost, k) == WithKey(services, HourlyCost, k)
    {
      SortDescStable(services, HourlyCost, k);
    }
  }

  /** The top entries are in non-increasing monthly cost, and entry `i` is
      the entry of the `i`-th listed service in the cost ranking. */
  lemma TopExpensiveOrdered(services: seq<Service>)
    ensures forall i, j :: 0 <= i < j < |TopExpensive(services)| ==>
      TopExpensive(services)[i].cost >= TopExpensive(services)[j].cost
    ensures forall i :: 0 <= i < |TopExpensive(services)| ==>
      ByCost(services)[i] in services && TopExpensive(services)[i] == ToEntry(ByCost(services)[i])
  {
    var ranked := ByCost(services);
    var top := TopExpensive(services);
    SortDescSorted(services, HourlyCost);
    forall i, j | 0 <= i < j < |top|
      ensures top[i].cost >= top[j].cost
    {
      assert HourlyCost(ranked[i]) >= HourlyCost(ranked[j]);
    }
    forall i | 0 <= i < |top|
      ensures ranked[i] in services
    {
      assert ranked[i] in multiset(services);
    }
  }

  /** A service left out of the top five costs no more than the fifth entry. */
  lemma TopExpensiveDominates(services: seq<Service>, s: Service)
    requires |services| > TopCount && s in services
    ensures ToEntry(s) in TopExpensive(services)
         || MonthlyCost(s.estimatedCostHourly) <= TopExpensive(services)[TopCount - 1].cost
  {
    var ranked := ByCost(services);
    var top := TopExpensive(services);
    SortDescPrefixDominates(services, HourlyCost, TopCount, s);
    if s in ranked[..TopCount] {
      var k :| 0 <= k < TopCount && ranked[..TopCount][k] == s;
      assert top[k] == ToEntry(s);
    }
  }

  /** `sum(rec.estimated_savings_monthly for rec in recommendations)`. */
  function Potential(recs: seq<Recommendation>): real
    decreases |recs|
  {
    if recs == [] then 0.0 else Potential(recs[..|recs| - 1]) + recs[|recs| - 1].estimatedSavingsMonthly
  }

  function UnderutilizedServices(services: seq<Service>): seq<Service>
    decreases |services|
  {
    if services == [] then []
    else
      var last := services[|services| - 1];
      UnderutilizedServices(services[..|services| - 1]) + (if Underutilized(last) then [last] else [])
  }

  /** The savings potential is half the monthly cost of the under-used services. */
  lemma {:induction false} PotentialIsHalfOfUnderusedCost(services: seq<Service>)
    ensures Potential(Recommendations(services)) == TotalMonthlyCost(UnderutilizedServices(services)) * SavingsFactor
    decreases |services|
  {
    if services != [] {
      var init := services[..|services| - 1];
      var last := services[|services| - 1];
      PotentialIsHalfOfUnderusedCost(init);
      var recs := Recommendations(services);
      var under := UnderutilizedServices(services);
      if Underutilized(last) {
        assert recs[..|recs| - 1] == Recommendations(init);
        assert Potential(recs) == Potential(Recommendations(init)) + MonthlyCost(last.estimatedCostHourly) * SavingsFactor;
        assert under[..|under| - 1] == UnderutilizedServices(init);
        assert TotalMonthlyCost(under) == TotalMonthlyCost(UnderutilizedServices(init)) + MonthlyCost(last.estimatedCostHourly);
      } else {
        assert recs == Recommendations(init);
        assert under == UnderutilizedServices(init);
      }
    }
  }

  /** With no negative price, the under-used services cost at most all of them. */
  lemma {:induction false} UnderusedCostAtMostTotal(services: seq<Service>)
    requires forall i :: 0 <= i < |services| ==> services[i].estimatedCostHourly >= 0.0
    ensures TotalMonthlyCost(UnderutilizedServices(services)) <= TotalMonthlyCost(services)
    decreases |services|
  {
    if services != [] {
      var init := services[..|services| - 1];
      var last := services[|services| - 1];
      assert forall i :: 0 <= i < |init| ==> init[i] == services[i];
      UnderusedCostAtMostTotal(init);
      var under := UnderutilizedServices(services);
      assert MonthlyCost(last.estimatedCostHourly) >= 0.0;
      assert TotalMonthlyCost(services) == TotalMonthlyCost(init) + MonthlyCost(last.estimatedCostHourly);
      if Underutilized(last) {
        assert under[..|under| - 1] == UnderutilizedServices(init);
        assert TotalMonthlyCost(under) == TotalMonthlyCost(UnderutilizedServices(init)) + MonthlyCost(last.estimatedCostHourly);
      } else {
        assert under == UnderutilizedServices(init);
      }
    }
  }

  /** So the potential is at most half the total when no price is negative. */
  lemma PotentialAtMostHalfOfTotal(services: seq<Service>)
    requires forall i :: 0 <= i < |services| ==> services[i].estimatedCostHourly >= 0.0
    ensures Potential(Recommendations(services)) <= TotalMonthlyCost(services) * SavingsFactor
  {
    PotentialIsHalfOfUnderusedCost(services);
    UnderusedCostAtMostTotal(services);
  }

  /** The specification of `execute` over a successful listing. */
  function Report(services: seq<Service>): (r: RecommendationResponse)
    ensures r.costAnalysis.Some?
    ensures r.totalPotentialSavings == r.costAnalysis.value.optimizationPotential
    ensures r.totalPotentialSavings == Potential(r.recommendations)
  {
    var recs := Recommendations(services);
    RecommendationResponse(
      recs,
      Some(CostAnalysis(TotalMonthlyCost(services), BreakdownOf(services), TopExpensive(services), Potential(recs))),
      Potential(recs))
  }

  /** `execute`: a single listing call; its failure propagates, otherwise
      the report on the listed services. Nothing is written to the platform. */
  method Execute(client: PlatformClient, token: string) returns (r: Result<RecommendationResponse, string>)
    ensures client.listServices(token).Err? ==> r == Err(client.listServices(token).error)
    ensures client.listServices(token).Ok? ==> r == Ok(Report(client.listServices(token).value))
  {
    var listed := client.listServices(token);
    if listed.Err? {
      return Err(listed.error);
    }
    var services := listed.value;
    var total := TotalMonthlyCost(services);
    var breakdown := Breakdown(services);
    var top := TopExpensive(services);
    var recs := AnalyzeUsage(services);
    var potential := Potential(recs);
    r := Ok(RecommendationResponse(recs, Some(CostAnalysis(total, breakdown, top, potential)), potential));
  }
}

/** The provisioning workflow: a rule-based reading of the request into a
    service configuration, a tier price list, the single pending action the
    reply proposes, and the confirmed call to the platform, whose failure is
    returned as data. The instruction prompt it builds is never sent. */
module Provision {
  import opened Common
  import opened Text
  import opened ServiceModel
  import opened Actions
  import opened VectorStore
  import opened Platform

  /** Words that raise the request to the pro tier. `"ha"` is matched as a
      substring, so it also fires inside words such as "what" or "chat". */
  const EscalationWords: seq<string> := ["production", "high availability", "ha"]

  predicate Escalates(message: string)
  {
    ContainsAny(Lower(message), EscalationWords)
  }

  /** `entities.get("service_type", "redis")`. */
  function ServiceTypeEntity(entities: map<string, string>): string
  {
    if "service_type" in entities then entities["service_type"] else "redis"
  }

  /** The text of the `ValueError` raised by `ServiceType(s)`. */
  function InvalidServiceType(s: string): string
  {
    "'" + s + "' is not a valid ServiceType"
  }

  /** Memory before escalation: 256 MB for redis, 512 MB for every other type. */
  function BaseMemoryMb(t: ServiceType): int
  {
    if t == Redis then 256 else 512
  }

  /** The documentation lookup that starts the extraction; its items are not
      used, but its failure aborts the workflow. */
  function SetupLookup(index: IndexSearch, message: string): Result<seq<KnowledgeItem>, string>
  {
    Search(index, message, Some("setup"), 1)
  }

  /** The specification of `_extract_requirements`. */
  function Requirements(message: string, entities: map<string, string>, index: IndexSearch)
    : (r: Result<ServiceConfig, string>)
    ensures r.Ok? <==> SetupLookup(index, message).Ok? && ParseServiceType(ServiceTypeEntity(entities)).Some?
    ensures SetupLookup(index, message).Err? ==> r == Err(SetupLookup(index, message).error)
    ensures SetupLookup(index, message).Ok? && ParseServiceType(ServiceTypeEntity(entities)).None? ==>
      r == Err(InvalidServiceType(ServiceTypeEntity(entities)))
    ensures r.Ok? ==> ValidConfig(r.value)
    ensures r.Ok? ==> r.value.serviceType == ParseServiceType(ServiceTypeEntity(entities)).value
    ensures r.Ok? ==> (r.value.tier == Pro <==> Escalates(message)) && r.value.tier != Enterprise
    ensures r.Ok? ==> r.value.memoryMb == BaseMemoryMb(r.value.serviceType) * (if Escalates(message) then 4 else 1)
    ensures r.Ok? ==> r.value.cpuCores == (if Escalates(message) then 1.0 else 0.5)
    ensures r.Ok? ==> r.value.storageGb == 1 && r.value.replicas == 1
    ensures r.Ok? ==> !r.value.backupEnabled && !r.value.highAvailability && r.value.customConfig == map[]
  {
    var lookup := SetupLookup(index, message);
    var parsed := ParseServiceType(ServiceTypeEntity(entities));
    if lookup.Err? then Err(lookup.error)
    else if parsed.None? then Err(InvalidServiceType(ServiceTypeEntity(entities)))
    else
      var base := DefaultConfig(parsed.value).(memoryMb := BaseMemoryMb(parsed.value));
      if Escalates(message) then Ok(base.(tier := Pro, memoryMb := base.memoryMb * 4, cpuCores := 1.0))
      else Ok(base)
  }

  /** `_extract_requirements`: the locals `tier`, `memory_mb`, `cpu_cores`
      and `storage_gb` start at the base values and are raised together when
      the message asks for production or high availability. */
  method ExtractRequirements(message: string, entities: map<string, string>, index: IndexSearch)
    returns (r: Result<ServiceConfig, string>)
    ensures r == Requirements(message, entities, index)
  {
    var knowledge := SearchKnowledge(index, message, Some("setup"), 1);
    if knowledge.Err? {
      return Err(knowledge.error);
    }
    var name := ServiceTypeEntity(entities);
    var parsed := ParseServiceType(name);
    if parsed.None? {
      return Err(InvalidServiceType(name));
    }
    var serviceType := parsed.value;
    var tier := Starter;
    var memoryMb := if serviceType == Redis then 256 else 512;
    var cpuCores := 0.5;
    var storageGb := 1;
    if Escalates(message) {
      tier := Pro;
      memoryMb := memoryMb * 4;
      cpuCores := 1.0;
    }
    return Ok(DefaultConfig(serviceType).(tier := tier, memoryMb := memoryMb,
                                          cpuCores := cpuCores, storageGb := storageGb));
  }

  /** Position of a tier in the enumeration's declaration order: starter,
      pro, enterprise. */
  function TierRank(t: ServiceTier): nat
  {
    match t
    case Starter => 0
    case Pro => 1
    case Enterprise => 2
  }

  /** `_estimate_cost`: the hourly price of a tier in USD. */
  function EstimateHourlyCost(tier: ServiceTier): (cost: real)
    ensures cost > 0.0
    ensures tier == Starter ==> cost == 0.01
    ensures tier == Pro ==> cost == 0.04
    ensures tier == Enterprise ==> cost == 0.15
  {
    match tier
    case Starter => 0.01
    case Pro => 0.04
    case Enterprise => 0.15
  }

  /** A higher tier always costs more per hour. */
  lemma HourlyCostIncreasesWithTier(a: ServiceTier, b: ServiceTier)
    ensures TierRank(a) < TierRank(b) <==> EstimateHourlyCost(a) < EstimateHourlyCost(b)
  {
  }

  /** Escalation quadruples both the memory and the hourly price. */
  lemma EscalationQuadruplesMemoryAndPrice(message: string, entities: map<string, string>, index: IndexSearch)
    requires Requirements(message, entities, index).Ok? && Escalates(message)
    ensures Requirements(message, entities, index).value.memoryMb
         == 4 * BaseMemoryMb(Requirements(message, entities, index).value.serviceType)
    ensures EstimateHourlyCost(Requirements(message, entities, index).value.tier)
         == 4.0 * EstimateHourlyCost(Starter)
  {
  }

  /** Any message containing the lower-case letters "ha" escalates. */
  lemma LettersHaEscalate(message: string)
    requires Contains(message, "ha")
    ensures Escalates(message)
  {
    LoweredKeepsLowerCaseWord(message, "ha");
    assert Contains(Lower(message), EscalationWords[2]);
  }

  /** Any message containing "ha" in any case ("HA", "Ha", "hA") escalates. */
  lemma AnyCaseHaEscalates(message: string, u: string)
    requires Lower(u) == "ha" && Contains(message, u)
    ensures Escalates(message)
  {
    AnySpellingMatches(message, u, "ha");
    assert Contains(Lower(message), EscalationWords[2]);
  }

  /** A plain request such as "what is a chat queue" is priced as pro. */
  lemma OrdinaryWordsEscalate()
    ensures Escalates("what is a chat queue")
  {
    var s := "what is a chat queue";
    assert s[1..3] == "ha";
    assert OccursAt(s, "ha", 1);
    LettersHaEscalate(s);
  }

  /** The generated service name `{type}-{tier}`, which always passes the
      name-length rule of a provisioning request. */
  function ServiceName(c: ServiceConfig): (name: string)
    ensures MinServiceNameLength <= |name| <= MaxServiceNameLength
    ensures |ServiceTypeName(c.serviceType)| < |name|
    ensures name[..|ServiceTypeName(c.serviceType)|] == ServiceTypeName(c.serviceType)
    ensures name[|ServiceTypeName(c.serviceType)|] == '-'
  {
    ServiceTypeName(c.serviceType) + "-" + TierName(c.tier)
  }

  const PendingConfirmation := "pending_confirmation"

  /** The figures the reply text presents; its wording is not modelled. */
  datatype ProvisionProposal = ProvisionProposal(config: ServiceConfig, hourlyCost: real, monthlyCost: real)

  datatype ProvisionPlan = ProvisionPlan(proposal: ProvisionProposal, actions: seq<Action>)

  /** `execute`: proposes the extracted configuration with its price and
      leaves exactly one provisioning action pending; the platform is not
      called (the caller's token is not needed). */
  method Execute(message: string, entities: map<string, string>, index: IndexSearch)
    returns (r: Result<ProvisionPlan, string>)
    ensures r.Err? <==> Requirements(message, entities, index).Err?
    ensures r.Err? ==> r.error == Requirements(message, entities, index).error
    ensures r.Ok? ==>
      var c := Requirements(message, entities, index).value;
      var hourly := EstimateHourlyCost(c.tier);
      && r.value.proposal == ProvisionProposal(c, hourly, MonthlyCost(hourly))
      && r.value.actions == [ProvisionServiceAction(ServiceName(c), c, hourly, PendingConfirmation)]
    ensures r.Ok? ==> r.value.proposal.monthlyCost == 720.0 * r.value.proposal.hourlyCost
    ensures r.Ok? ==> |r.value.actions| == 1 && ActionType(r.value.actions[0]) == "provision_service"
    ensures r.Ok? ==>
      && ValidConfig(r.value.actions[0].config)
      && ValidProvisionRequest(ProvisionServiceRequest(r.value.actions[0].serviceName, r.value.actions[0].config))
  {
    var config := ExtractRequirements(message, entities, index);
    if config.Err? {
      return Err(config.error);
    }
    var c := config.value;
    var hourly := EstimateHourlyCost(c.tier);
    var monthly := hourly * 24.0 * 30.0;
    var name := ServiceName(c);
    r := Ok(ProvisionPlan(ProvisionProposal(c, hourly, monthly),
                          [ProvisionServiceAction(name, c, hourly, PendingConfirmation)]));
  }

  /** What `provision_service` returns: the created service, or the text of
      whatever was raised, as data. */
  datatype ProvisionOutcome = Provisioned(service: Service) | ProvisionFailed(error: string)

  function OutcomeStatus(o: ProvisionOutcome): string
  {
    if o.Provisioned? then "success" else "error"
  }

  function FailureMessage(error: string): string
  {
    "Failed to provision service: " + error
  }

  /** The text of the validation error for a name outside 3..50 characters. */
  const InvalidNameError := "invalid service name length"

  /** `provision_service`: validates the request, then calls the platform
      once; nothing is raised to the caller. */
  function ProvisionService(client: PlatformClient, token: string, name: string, config: ServiceConfig)
    : (r: ProvisionOutcome)
    ensures r.Provisioned? <==>
      ValidProvisionRequest(ProvisionServiceRequest(name, config))
      && client.provisionService(token, ProvisionServiceRequest(name, config)).Ok?
    ensures r.Provisioned? ==> r.service == client.provisionService(token, ProvisionServiceRequest(name, config)).value
    ensures !ValidProvisionRequest(ProvisionServiceRequest(name, config)) ==> r == ProvisionFailed(InvalidNameError)
    ensures r.ProvisionFailed? && ValidProvisionRequest(ProvisionServiceRequest(name, config)) ==>
      r.error == client.provisionService(token, ProvisionServiceRequest(name, config)).error
  {
    var request := ProvisionServiceRequest(name, config);
    if !ValidProvisionRequest(request) then ProvisionFailed(InvalidNameError)
    else
      match client.provisionService(token, request)
      case Ok(service) => Provisioned(service)
      case Err(e) => ProvisionFailed(e)
  }

  /** A request with a bad name fails before the platform is reached: the
      outcome is the same whatever the platform would do. */
  lemma InvalidNameNeverReachesPlatform(a: PlatformClient, b: PlatformClient, token: string,
                                        name: string, config: ServiceConfig)
    requires !(MinServiceNameLength <= |name| <= MaxServiceNameLength)
    ensures ProvisionService(a, token, name, config) == ProvisionService(b, token, name, config)
  {
  }

  /** Confirming a proposed action can only fail where the platform fails:
      the generated name always passes validation. */
  lemma ProposalIsProvisionable(message: string, entities: map<string, string>, index: IndexSearch,
                                client: PlatformClient, token: string)
    requires Requirements(message, entities, index).Ok?
    ensures var c := Requirements(message, entities, index).value;
      ProvisionService(client, token, ServiceName(c), c).ProvisionFailed? <==>
      client.provisionService(token, ProvisionServiceRequest(ServiceName(c), c)).Err?
  {
  }
}

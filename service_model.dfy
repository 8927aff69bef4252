/** Services of the managed platform: their kinds, tiers and statuses, the
    configuration a caller asks for, and the record the platform returns. */
module ServiceModel {
  import opened Common

  datatype ServiceType = Redis | RabbitMQ | PostgreSQL | MongoDB | MySQL | Elasticsearch

  function ServiceTypeName(t: ServiceType): string
  {
    match t
    case Redis => "redis"
    case RabbitMQ => "rabbitmq"
    case PostgreSQL => "postgresql"
    case MongoDB => "mongodb"
    case MySQL => "mysql"
    case Elasticsearch => "elasticsearch"
  }

  const AllServiceTypes: seq<ServiceType> :=
    [Redis, RabbitMQ, PostgreSQL, MongoDB, MySQL, Elasticsearch]

  /** `ServiceType(s)`: the member whose value is `s`; `None` where Python
      raises `ValueError`. */
  function ParseServiceType(s: string): (r: Option<ServiceType>)
    ensures r.Some? ==> ServiceTypeName(r.value) == s
    ensures r.None? ==> forall t :: ServiceTypeName(t) != s
  {
    if s == "redis" then Some(Redis)
    else if s == "rabbitmq" then Some(RabbitMQ)
    else if s == "postgresql" then Some(PostgreSQL)
    else if s == "mongodb" then Some(MongoDB)
    else if s == "mysql" then Some(MySQL)
    else if s == "elasticsearch" then Some(Elasticsearch)
    else None
  }

  datatype ServiceTier = Starter | Pro | Enterprise

  function TierName(t: ServiceTier): string
  {
    match t
    case Starter => "starter"
    case Pro => "pro"
    case Enterprise => "enterprise"
  }

  const AllTiers: seq<ServiceTier> := [Starter, Pro, Enterprise]

  function ParseTier(s: string): (r: Option<ServiceTier>)
    ensures r.Some? ==> TierName(r.value) == s
    ensures r.None? ==> forall t :: TierName(t) != s
  {
    if s == "starter" then Some(Starter)
    else if s == "pro" then Some(Pro)
    else if s == "enterprise" then Some(Enterprise)
    else None
  }

  datatype ServiceStatus = Pending | Provisioning | Running | Failed | Stopped | Deleting

  function StatusName(s: ServiceStatus): string
  {
    match s
    case Pending => "pending"
    case Provisioning => "provisioning"
    case Running => "running"
    case Failed => "failed"
    case Stopped => "stopped"
    case Deleting => "deleting"
  }

  const AllStatuses: seq<ServiceStatus> :=
    [Pending, Provisioning, Running, Failed, Stopped, Deleting]

  function ParseStatus(s: string): (r: Option<ServiceStatus>)
    ensures r.Some? ==> StatusName(r.value) == s
    ensures r.None? ==> forall t :: StatusName(t) != s
  {
    if s == "pending" then Some(Pending)
    else if s == "provisioning" then Some(Provisioning)
    else if s == "running" then Some(Running)
    else if s == "failed" then Some(Failed)
    else if s == "stopped" then Some(Stopped)
    else if s == "deleting" then Some(Deleting)
    else None
  }

  /** The enumerations are closed: six service types (MySQL among them), three
      tiers and six statuses, each listed once under a distinct name. */
  lemma EnumerationsAreClosed()
    ensures |AllServiceTypes| == 6 && MySQL in AllServiceTypes
    ensures forall t :: t in AllServiceTypes
    ensures forall i, j :: 0 <= i < j < 6 ==>
      ServiceTypeName(AllServiceTypes[i]) != ServiceTypeName(AllServiceTypes[j])
    ensures |AllTiers| == 3 && forall t :: t in AllTiers
    ensures forall i, j :: 0 <= i < j < 3 ==> TierName(AllTiers[i]) != TierName(AllTiers[j])
    ensures |AllStatuses| == 6 && forall s :: s in AllStatuses
    ensures forall i, j :: 0 <= i < j < 6 ==>
      StatusName(AllStatuses[i]) != StatusName(AllStatuses[j])
  {
    forall t: ServiceType
      ensures t in AllServiceTypes
    {
      match t
      case Redis => assert AllServiceTypes[0] == t;
      case RabbitMQ => assert AllServiceTypes[1] == t;
      case PostgreSQL => assert AllServiceTypes[2] == t;
      case MongoDB => assert AllServiceTypes[3] == t;
      case MySQL => assert AllServiceTypes[4] == t;
      case Elasticsearch => assert AllServiceTypes[5] == t;
    }
    forall t: ServiceTier
      ensures t in AllTiers
    {
      match t
      case Starter => assert AllTiers[0] == t;
      case Pro => assert AllTiers[1] == t;
      case Enterprise => assert AllTiers[2] == t;
    }
    forall s: ServiceStatus
      ensures s in AllStatuses
    {
      match s
      case Pending => assert AllStatuses[0] == s;
      case Provisioning => assert AllStatuses[1] == s;
      case Running => assert AllStatuses[2] == s;
      case Failed => assert AllStatuses[3] == s;
      case Stopped => assert AllStatuses[4] == s;
      case Deleting => assert AllStatuses[5] == s;
    }
  }

  const MinMemoryMb := 128
  const MaxMemoryMb := 16384
  const MinCpuCores: real := 0.1
  const MaxCpuCores: real := 8.0
  const MinStorageGb := 1
  const MaxStorageGb := 1000
  const MinReplicas := 1
  const MaxReplicas := 5

  datatype ServiceConfig = ServiceConfig(
    serviceType: ServiceType,
    tier: ServiceTier,
    memoryMb: int,
    cpuCores: real,
    storageGb: int,
    replicas: int,
    backupEnabled: bool,
    highAvailability: bool,
    customConfig: Metadata)

  /** The field bounds a `ServiceConfig` is validated against. */
  predicate ValidConfig(c: ServiceConfig)
  {
    && MinMemoryMb <= c.memoryMb <= MaxMemoryMb
    && MinCpuCores <= c.cpuCores <= MaxCpuCores
    && MinStorageGb <= c.storageGb <= MaxStorageGb
    && MinReplicas <= c.replicas <= MaxReplicas
  }

  /** `ServiceConfig(service_type=t)`: every other field at its default. */
  function DefaultConfig(t: ServiceType): (c: ServiceConfig)
    ensures ValidConfig(c)
    ensures c.serviceType == t && c.tier == Starter
    ensures c.memoryMb == 256 && c.cpuCores == 0.5 && c.storageGb == 1 && c.replicas == 1
    ensures !c.backupEnabled && !c.highAvailability && c.customConfig == map[]
  {
    ServiceConfig(t, Starter, 256, 0.5, 1, 1, false, false, map[])
  }

  /** A service instance as the platform reports it; timestamps are ticks. */
  datatype Service = Service(
    id: string,
    name: string,
    serviceType: ServiceType,
    tier: ServiceTier,
    status: ServiceStatus,
    organizationId: string,
    createdAt: nat,
    updatedAt: nat,
    config: ServiceConfig,
    connectionInfo: Metadata,
    metrics: map<string, real>,
    estimatedCostHourly: real)

  /** A `Service` built from its required fields only. */
  function NewService(id: string, name: string, serviceType: ServiceType, tier: ServiceTier,
                      status: ServiceStatus, organizationId: string, createdAt: nat,
                      updatedAt: nat, config: ServiceConfig): (s: Service)
    ensures s.connectionInfo == map[] && s.metrics == map[]
    ensures s.estimatedCostHourly == 0.0 && MonthlyCost(s.estimatedCostHourly) == 0.0
  {
    Service(id, name, serviceType, tier, status, organizationId, createdAt, updatedAt,
            config, map[], map[], 0.0)
  }

  /** Hours in the thirty-day month every cost estimate uses: 24 hours times 30 days. */
  const HoursPerMonth: real := 720.0

  /** `hourly * 24 * 30`. */
  function MonthlyCost(hourly: real): real
  {
    hourly * HoursPerMonth
  }

  const MinServiceNameLength := 3
  const MaxServiceNameLength := 50

  datatype ProvisionServiceRequest = ProvisionServiceRequest(name: string, config: ServiceConfig)

  predicate ValidProvisionRequest(r: ProvisionServiceRequest)
  {
    MinServiceNameLength <= |r.name| <= MaxServiceNameLength
  }
}

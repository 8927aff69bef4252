/** The structured actions a reply suggests or leaves pending. */
module Actions {
  import opened ServiceModel

  datatype Action =
    | ProvisionServiceAction(serviceName: string, config: ServiceConfig,
                             estimatedCostHourly: real, status: string)
    | ShowLogs(serviceId: string)
    | RestartService(serviceId: string)
    | ScaleService(serviceId: string)
    | DowngradeTier(serviceId: string, fromTier: ServiceTier, toTier: ServiceTier)

  /** The value of the action's `"type"` (or, for a recommendation step, `"action"`) key. */
  function ActionType(a: Action): string
  {
    match a
    case ProvisionServiceAction(_, _, _, _) => "provision_service"
    case ShowLogs(_) => "show_logs"
    case RestartService(_) => "restart_service"
    case ScaleService(_) => "scale_service"
    case DowngradeTier(_, _, _) => "downgrade_tier"
  }
}

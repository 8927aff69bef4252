/** The managed-services platform API as the workflows see it: each call takes
    the caller's bearer token and either returns its result or raises, the
    `Err` carrying the exception text. URLs, headers and HTTP status handling
    of the client are not part of this model. */
module Platform {
  import opened Common
  import opened ServiceModel

  datatype PlatformClient = PlatformClient(
    provisionService: (string, ProvisionServiceRequest) -> Result<Service, string>,
    getService: (string, string) -> Result<Service, string>,
    listServices: string -> Result<seq<Service>, string>,
    getServiceMetrics: (string, string) -> Result<Metadata, string>,
    getServiceLogs: (string, string, nat) -> Result<seq<string>, string>)
}

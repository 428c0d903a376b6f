/**
 * The desired-state side of the two custom resources: the fields of the
 * APIEndpoint and APIClient specifications and of their status that the
 * controllers read or write.
 */
module Types {

  datatype Option<T> = None | Some(value: T)

  /** CORS settings of an API endpoint. */
  datatype Cors = Cors(
    allowCredentials: bool,
    allowHeaders: seq<string>,
    allowMethods: seq<string>,
    allowOrigin: seq<string>,
    allowOriginRegex: seq<string>,
    exposeHeaders: seq<string>,
    maxAge: int,
    enabled: bool,
    errorStatusCode: int,
    runPolicies: bool)

  /**
   * A desired access plan. The plan name is its business key; the security
   * definition is kept as its JSON encoding, an opaque string.
   */
  datatype Plan = Plan(
    name: string,
    description: string,
    security: string,
    securityDefinition: string)

  /** Desired state of an API endpoint; `cors` is a pointer in the schema, hence optional. */
  datatype EndpointSpec = EndpointSpec(
    name: string,
    version: string,
    contextPath: string,
    description: string,
    target: string,
    targetService: string,
    cors: Option<Cors>,
    plans: seq<Plan>,
    tags: seq<string>)

  /** A desired subscription of a client application to the plan of an API. */
  datatype APISubscription = APISubscription(apiContextPath: string, apiPlanName: string)

  /** Desired state of a client application. */
  datatype ClientSpec = ClientSpec(
    name: string,
    description: string,
    appType: string,
    clientId: string,
    subscriptions: seq<APISubscription>)

  /**
   * Observed status shared by both resources: the remote ID ("" before the
   * remote counterpart exists), the remote last-modified timestamp and the
   * last reconciled generation.
   */
  datatype Status = Status(id: string, updatedAt: int, updatedGeneration: int)

  /** The configuration values the controllers read. */
  datatype Config = Config(
    reschedulePeriod: int,
    serviceDefaultProtocol: string,
    serviceDefaultDomain: string)

  /** Result of one reconcile pass as seen by the dispatch layer. */
  datatype CtrlResult = CtrlResult(requeueAfter: int)

  /** An empty `ctrl.Result{}`: no requeue is scheduled. */
  const NoRequeue := CtrlResult(0)
}

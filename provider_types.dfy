/**
 * The values the provider export handler reads and produces: the request
 * body, the records its collaborators return, the collaborators themselves
 * (as pure functions of their arguments), the calls it makes and the reply.
 */
module ProviderTypes {
  import opened Js

  /** `req.body.dataExchange`: only the two fields the handler reads. */
  datatype DataExchange = DataExchange(id: Option<string>, resourceId: Option<string>)

  /** `req.body`: the exchange, the consumer's callback endpoint and the
      contract locator (a URL whose path names `bilaterals` or `contracts`). */
  datatype RequestBody = RequestBody(
    dataExchange: DataExchange,
    consumerEndpoint: Option<string>,
    contract: string)

  /** The contract returned by the contract service. `serviceOffering` is a
      bare identifier or a URL whose last path segment is the identifier. */
  datatype Contract = Contract(serviceOffering: Option<string>)

  /** How the provider's data is fetched: `type`, `method` (as httpMethod), `url`, `credential`. */
  datatype Representation = Representation(
    kind: string, httpMethod: string, url: string, credential: string)

  /** A catalog self-description. A service offering lists its data
      resources; a data resource carries its representation. */
  datatype CatalogEntry = CatalogEntry(
    dataResources: seq<string>,
    representation: Option<Representation>)

  /** What `pepVerification` resolves to. */
  datatype PepDecision = PepDecision(pep: bool, contractID: string, resourceID: string)

  /** The collaborators whose answers decide the handler's path, each a pure
      function of the arguments it is called with. `consumerError` and
      `processLeftOperands` return nothing the handler uses: they appear only
      in the trace. The configured contract service URI is a separate input
      of the run. */
  datatype Collaborators = Collaborators(
    getContract: string -> Result<Contract>,
    pepVerification: (Option<string>, string) -> PepDecision,
    getCatalogData: Option<string> -> Result<CatalogEntry>,
    getRepresentation: (string, string, string) -> Result<JsValue>,
    consumerImport: (Option<string>, Option<string>, JsValue) -> Result<JsValue>)

  /** One awaited collaborator call, with its arguments. */
  datatype Call =
    | GetContractUri
    | ConsumerError(endpoint: Option<string>, exchangeId: Option<string>, message: string)
    | GetContract(locator: string)
    | PepVerification(targetResource: Option<string>, referenceURL: string)
    | GetCatalogData(key: Option<string>)
    | GetRepresentation(httpMethod: string, url: string, credential: string)
    | ConsumerImport(endpoint: Option<string>, exchangeId: Option<string>, data: JsValue)
    | ProcessLeftOperands(operands: seq<string>, contractID: string, resourceID: string)

  /** The synchronous reply: a status with `{ success }`, or none at all. */
  datatype Outcome = Respond(status: int, success: bool) | NoResponse

  /** One run of the handler: its reply and the calls it made, in order. */
  datatype Run = Run(outcome: Outcome, trace: seq<Call>)

  /** The pipeline stages, in the order the handler runs them; `Notify`
      (the consumer error callback) may happen between any two of them. */
  datatype Stage = Config | Notify | ContractFetch | Policy | Catalog | Fetch | Import | Metering

  function StageOf(c: Call): Stage {
    match c
    case GetContractUri => Config
    case ConsumerError(_, _, _) => Notify
    case GetContract(_) => ContractFetch
    case PepVerification(_, _) => Policy
    case GetCatalogData(_) => Catalog
    case GetRepresentation(_, _, _) => Fetch
    case ConsumerImport(_, _, _) => Import
    case ProcessLeftOperands(_, _, _) => Metering
  }

  /** Position of a non-notification stage in the forward order. */
  function Rank(k: Stage): nat {
    match k
    case Config => 0
    case Notify => 0
    case ContractFetch => 1
    case Policy => 2
    case Catalog => 3
    case Fetch => 4
    case Import => 5
    case Metering => 6
  }

  /** No call of any stage in `ks` was made. */
  ghost predicate NoCallsIn(trace: seq<Call>, ks: set<Stage>) {
    forall c :: c in trace ==> StageOf(c) !in ks
  }

  /** Apart from notifications, calls are made in forward stage order. */
  ghost predicate InStageOrder(trace: seq<Call>) {
    forall i, j :: 0 <= i < j < |trace| && StageOf(trace[i]) != Notify && StageOf(trace[j]) != Notify ==>
      Rank(StageOf(trace[i])) <= Rank(StageOf(trace[j]))
  }

  /** The call `c` is a fallible collaborator call whose answer, under `env`, is an error. */
  predicate Failed(env: Collaborators, c: Call) {
    match c
    case GetContract(locator) => env.getContract(locator).Err?
    case GetCatalogData(key) => env.getCatalogData(key).Err?
    case GetRepresentation(m, u, cr) => env.getRepresentation(m, u, cr).Err?
    case ConsumerImport(ep, id, data) => env.consumerImport(ep, id, data).Err?
    case _ => false
  }

  /** `contractResp?.serviceOffering ?? dataExchange.resourceId`: the key of
      the service-offering lookup. */
  function OfferingKey(contract: Contract, exchange: DataExchange): Option<string> {
    if contract.serviceOffering.Some? then contract.serviceOffering else exchange.resourceId
  }

  /** `serviceOfferingSD.dataResources[0]`, `undefined` when the list is empty. */
  function FirstResource(entry: CatalogEntry): Option<string> {
    if |entry.dataResources| > 0 then Some(entry.dataResources[0]) else None
  }

  /** The three values the B-to-B branch requires to be truthy. */
  predicate ExchangeReady(body: RequestBody, resource: Option<string>) {
    TruthyStr(body.dataExchange.id) && TruthyStr(body.consumerEndpoint) && TruthyStr(resource)
  }

  /** The notice sent to the consumer with a given message. */
  function Notice(body: RequestBody, message: string): Call {
    ConsumerError(body.consumerEndpoint, body.dataExchange.id, message)
  }

  /** The usage counter increment keyed by the policy decision's ids. */
  function Meter(decision: PepDecision): Call {
    ProcessLeftOperands(["count"], decision.contractID, decision.resourceID)
  }

  const ConfigErrorMessage := "Provider configuration error"
  const NoRepresentationMessage := "No representation found"
  const NoDataMessage := "No Data found"
}

/**
 * `providerExport`, the provider side of a data exchange: check the
 * configuration, fetch the contract, derive the policy target, ask the
 * policy enforcement point, look the offering and its first resource up in
 * the catalog, fetch the data, hand it to the consumer and meter the use.
 */
module ProviderController {
  import opened Js
  import opened Strings
  import opened ProviderTypes

  /** The resource the policy enforcement point is asked about.
      A `bilaterals` locator uses the contract's service offering, cut down
      to its last path segment when it is an http(s) URL; a `contracts`
      locator uses the exchange's resource id; any other locator leaves the
      target `undefined`. The `bilaterals` test is made first. */
  function DeriveTarget(locator: string, serviceOffering: Option<string>, resourceId: Option<string>)
    : (target: Option<string>)
    ensures Includes(locator, "bilaterals") && serviceOffering.Some? && HasHttpScheme(serviceOffering.value) ==>
      target.Some? && IsFinalSegment(target.value, serviceOffering.value)
    ensures Includes(locator, "bilaterals") && !(serviceOffering.Some? && HasHttpScheme(serviceOffering.value)) ==>
      target == serviceOffering
    ensures !Includes(locator, "bilaterals") && Includes(locator, "contracts") ==> target == resourceId
    ensures !Includes(locator, "bilaterals") && !Includes(locator, "contracts") ==> target.None?
  {
    if Includes(locator, "bilaterals") then
      if serviceOffering.Some? && HasHttpScheme(serviceOffering.value) then
        LastSegmentIsFinalSegment(serviceOffering.value);
        Some(LastSegment(serviceOffering.value))
      else
        serviceOffering
    else if Includes(locator, "contracts") then
      resourceId
    else
      None
  }

  /** For a `bilaterals` locator and an http(s) offering, the target is
      exactly the last element of `serviceOffering.split('/')`. */
  lemma BilateralUrlTargetIsLastSplitElement(locator: string, offering: string, resourceId: Option<string>)
    requires Includes(locator, "bilaterals") && HasHttpScheme(offering)
    ensures
      var parts := Split(offering, '/');
      DeriveTarget(locator, Some(offering), resourceId) == Some(parts[|parts| - 1])
  {
  }

  /** A `bilaterals` locator with an offering URL: `https://x/offerings/42` gives `42`. */
  lemma BilateralUrlExample(locator: string, offering: string, resourceId: Option<string>)
    requires locator == "/bilaterals/abc" && offering == "https://x/offerings/42"
    ensures DeriveTarget(locator, Some(offering), resourceId) == Some("42")
  {
    assert Includes(locator, "bilaterals") by {
      assert locator[1..11] == "bilaterals";
      assert OccursAt(locator, "bilaterals", 1);
      IncludesIffOccurs(locator, "bilaterals");
    }
    assert HasHttpScheme(offering) by {
      assert offering[..8] == "https://";
    }
    assert IsFinalSegment("42", offering) by {
      assert offering[|offering| - 2..] == "42";
      assert offering[|offering| - 3] == '/';
    }
    var target := DeriveTarget(locator, Some(offering), resourceId);
    FinalSegmentUnique(offering, target.value, "42");
  }

  /** The policy target for this request and contract. */
  function Target(body: RequestBody, contract: Contract): Option<string> {
    DeriveTarget(body.contract, contract.serviceOffering, body.dataExchange.resourceId)
  }

  /** `r` with the calls `prefix` made before it. */
  function Then(prefix: seq<Call>, r: Run): Run {
    Run(r.outcome, prefix + r.trace)
  }

  /** The calls made up to and including the contract fetch: the
      configuration lookup, a notice if it came back falsy, the fetch. */
  function Opening(body: RequestBody, contractUri: JsValue): seq<Call> {
    var t := [GetContractUri];
    var t := if contractUri.Truthy() then t else t + [Notice(body, ConfigErrorMessage)];
    t + [GetContract(body.contract)]
  }

  /** The run of `providerExport` on `body` when the configured contract
      service URI is `contractUri` and the collaborators answer as `env` says. */
  function Export(body: RequestBody, contractUri: JsValue, env: Collaborators): Run {
    var opening := Opening(body, contractUri);
    var contractResp := env.getContract(body.contract);
    if contractResp.Err? then Run(Respond(400, false), opening)
    else Then(opening, Authorize(body, env, contractResp.value))
  }

  /** The policy check on the derived target and, when it grants access,
      the rest of the run. */
  function Authorize(body: RequestBody, env: Collaborators, contract: Contract): Run {
    var target := Target(body, contract);
    var decision := env.pepVerification(target, body.contract);
    var ask := [PepVerification(target, body.contract)];
    if !decision.pep then Run(NoResponse, ask)
    else Then(ask, ResolveOffering(body, env, contract, decision))
  }

  /** The service-offering lookup and the check that the exchange id, the
      consumer endpoint and the offering's first data resource are set. */
  function ResolveOffering(body: RequestBody, env: Collaborators, contract: Contract, decision: PepDecision): Run {
    var key := OfferingKey(contract, body.dataExchange);
    var offeringResp := env.getCatalogData(key);
    if offeringResp.Err? then Run(Respond(400, false), [GetCatalogData(key)])
    else
      var resource := FirstResource(offeringResp.value);
      if !ExchangeReady(body, resource) then Run(Respond(500, false), [GetCatalogData(key)])
      else Then([GetCatalogData(key)], ResolveResource(body, env, resource, decision))
  }

  /** The resource lookup and the notice when it has no representation. */
  function ResolveResource(body: RequestBody, env: Collaborators, resource: Option<string>, decision: PepDecision)
    : Run
  {
    var endpointResp := env.getCatalogData(resource);
    if endpointResp.Err? then Run(Respond(400, false), [GetCatalogData(resource)])
    else
      var representation := endpointResp.value.representation;
      var notice := if representation.None? then [Notice(body, NoRepresentationMessage)] else [];
      Then([GetCatalogData(resource)] + notice, FetchData(body, env, representation, decision))
  }

  /** The data fetch, made only for a `REST` representation; any other
      representation, or none, leaves the data `undefined`. */
  function FetchData(body: RequestBody, env: Collaborators, representation: Option<Representation>,
                     decision: PepDecision): Run
  {
    if representation.Some? && representation.value.kind == "REST" then
      var rep := representation.value;
      var fetched := env.getRepresentation(rep.httpMethod, rep.url, rep.credential);
      var get := [GetRepresentation(rep.httpMethod, rep.url, rep.credential)];
      if fetched.Err? then Run(Respond(400, false), get)
      else Then(get, Forward(body, env, fetched.value, decision))
    else
      Forward(body, env, Undefined, decision)
  }

  /** The data check, the import into the consumer and the metering. */
  function Forward(body: RequestBody, env: Collaborators, data: JsValue, decision: PepDecision): Run {
    var notice := if data.Truthy() then [] else [Notice(body, NoDataMessage)];
    var imp := ConsumerImport(body.consumerEndpoint, body.dataExchange.id, data);
    var imported := env.consumerImport(body.consumerEndpoint, body.dataExchange.id, data);
    if imported.Err? then Run(Respond(400, false), notice + [imp])
    else if imported.value.Truthy() then Run(Respond(200, true), notice + [imp, Meter(decision)])
    else Run(Respond(200, true), notice + [imp])
  }

  /** Prepending two call sequences one after the other prepends their concatenation. */
  lemma ThenThen(p: seq<Call>, q: seq<Call>, r: Run)
    ensures Then(p, Then(q, r)) == Then(p + q, r)
  {
    assert p + (q + r.trace) == p + q + r.trace;
  }

  /** The export handler: runs the stages in order, appending each
      collaborator call to `trace`, and returns early as the source does.
      Once the preconditions hold, the rest of the exchange is `ExportResource`. */
  method ProviderExport(body: RequestBody, contractUri: JsValue, env: Collaborators)
    returns (outcome: Outcome, trace: seq<Call>)
    ensures Run(outcome, trace) == Export(body, contractUri, env)
  {
    var exchange := body.dataExchange;
    var endpoint := body.consumerEndpoint;
    var locator := body.contract;

    trace := [GetContractUri];
    if !contractUri.Truthy() {
      trace := trace + [Notice(body, ConfigErrorMessage)];
    }

    trace := trace + [GetContract(locator)];
    var contractResp := env.getContract(locator);
    if contractResp.Err? {
      return Respond(400, false), trace;
    }
    var contract := contractResp.value;
    assert Export(body, contractUri, env) == Then(trace, Authorize(body, env, contract));

    var target := DeriveTarget(locator, contract.serviceOffering, exchange.resourceId);
    ghost var before := trace;
    trace := trace + [PepVerification(target, locator)];
    var decision := env.pepVerification(target, locator);
    if !decision.pep {
      return NoResponse, trace;
    }
    ThenThen(before, [PepVerification(target, locator)], ResolveOffering(body, env, contract, decision));

    var key := OfferingKey(contract, exchange);
    before := trace;
    trace := trace + [GetCatalogData(key)];
    var offeringResp := env.getCatalogData(key);
    if offeringResp.Err? {
      return Respond(400, false), trace;
    }
    var resource := FirstResource(offeringResp.value);
    if !ExchangeReady(body, resource) {
      return Respond(500, false), trace;
    }
    ThenThen(before, [GetCatalogData(key)], ResolveResource(body, env, resource, decision));

    outcome, trace := ExportResource(body, env, resource, decision, trace);
  }

  /** The B-to-B exchange for a resource: looks it up in the catalog, notifies
      the consumer when it has no representation, fetches the data of a
      `REST` one, then hands over to `ImportData`. */
  method ExportResource(body: RequestBody, env: Collaborators, resource: Option<string>, decision: PepDecision,
                        trace0: seq<Call>)
    returns (outcome: Outcome, trace: seq<Call>)
    ensures Run(outcome, trace) == Then(trace0, ResolveResource(body, env, resource, decision))
  {
    trace := trace0 + [GetCatalogData(resource)];
    var endpointResp := env.getCatalogData(resource);
    if endpointResp.Err? {
      return Respond(400, false), trace;
    }
    var representation := endpointResp.value.representation;
    if representation.None? {
      trace := trace + [Notice(body, NoRepresentationMessage)];
    }
    ThenThen(trace0, trace[|trace0|..], FetchData(body, env, representation, decision));
    assert trace0 + trace[|trace0|..] == trace;

    var data := Undefined;
    if representation.Some? && representation.value.kind == "REST" {
      var rep := representation.value;
      ghost var before := trace;
      trace := trace + [GetRepresentation(rep.httpMethod, rep.url, rep.credential)];
      var fetched := env.getRepresentation(rep.httpMethod, rep.url, rep.credential);
      if fetched.Err? {
        return Respond(400, false), trace;
      }
      data := fetched.value;
      ThenThen(before, [GetRepresentation(rep.httpMethod, rep.url, rep.credential)],
               Forward(body, env, data, decision));
    }

    outcome, trace := ImportData(body, env, data, decision, trace);
  }

  /** The data check, the import into the consumer and the metering, with
      the reply that follows. */
  method ImportData(body: RequestBody, env: Collaborators, data: JsValue, decision: PepDecision,
                    trace0: seq<Call>)
    returns (outcome: Outcome, trace: seq<Call>)
    ensures Run(outcome, trace) == Then(trace0, Forward(body, env, data, decision))
  {
    trace := trace0;
    if !data.Truthy() {
      trace := trace + [Notice(body, NoDataMessage)];
    }

    trace := trace + [ConsumerImport(body.consumerEndpoint, body.dataExchange.id, data)];
    var imported := env.consumerImport(body.consumerEndpoint, body.dataExchange.id, data);
    if imported.Err? {
      return Respond(400, false), trace;
    }
    if imported.value.Truthy() {
      trace := trace + [Meter(decision)];
    }
    return Respond(200, true), trace;
  }
}

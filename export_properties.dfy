/**
 * What a run of `providerExport` guarantees, stated over `Export` (which
 * `ProviderExport` is proved to compute): which collaborator calls happen,
 * in what order, with which arguments, and which reply results.
 */
module ExportProperties {
  import opened Js
  import opened Strings
  import opened ProviderTypes
  import opened ProviderController

  /** The policy decision for this request, once the contract is known. */
  function Decision(body: RequestBody, env: Collaborators): PepDecision
    requires env.getContract(body.contract).Ok?
  {
    env.pepVerification(Target(body, env.getContract(body.contract).value), body.contract)
  }

  /** The contract was fetched and the policy enforcement point granted access. */
  predicate Granted(body: RequestBody, env: Collaborators) {
    env.getContract(body.contract).Ok? && Decision(body, env).pep
  }

  /** The service-offering lookup key for this request, once the contract is known. */
  function Key(body: RequestBody, env: Collaborators): Option<string>
    requires env.getContract(body.contract).Ok?
  {
    OfferingKey(env.getContract(body.contract).value, body.dataExchange)
  }

  /** The policy question asked for this request, once the contract is known. */
  function Ask(body: RequestBody, env: Collaborators): Call
    requires env.getContract(body.contract).Ok?
  {
    PepVerification(Target(body, env.getContract(body.contract).value), body.contract)
  }

  /** A granted run is the opening, the policy question, then `ResolveOffering`. */
  lemma ExportWhenGranted(body: RequestBody, uri: JsValue, env: Collaborators)
    requires Granted(body, env)
    ensures Export(body, uri, env) ==
      Then(Opening(body, uri) + [Ask(body, env)],
           ResolveOffering(body, env, env.getContract(body.contract).value, Decision(body, env)))
  {
    var contract := env.getContract(body.contract).value;
    ThenThen(Opening(body, uri), [Ask(body, env)], ResolveOffering(body, env, contract, Decision(body, env)));
  }

  // ---------------------------------------------------------------------
  // The stages after the policy check make only calls of their own kind.

  /** Every call in `trace` belongs to one of the stages `ks`. */
  ghost predicate CallsWithin(trace: seq<Call>, ks: set<Stage>) {
    forall c :: c in trace ==> StageOf(c) in ks
  }

  /** Every import in `trace` goes to the request's endpoint under its exchange id. */
  ghost predicate ImportsFor(body: RequestBody, trace: seq<Call>) {
    forall c :: c in trace && c.ConsumerImport? ==>
      c.endpoint == body.consumerEndpoint && c.exchangeId == body.dataExchange.id
  }

  lemma OpeningCalls(body: RequestBody, uri: JsValue)
    ensures NoCallsIn(Opening(body, uri), {Policy, Catalog, Fetch, Import, Metering})
  {
  }

  lemma ForwardCalls(body: RequestBody, env: Collaborators, data: JsValue, d: PepDecision)
    ensures var r := Forward(body, env, data, d);
      && CallsWithin(r.trace, {Notify, Import, Metering})
      && ImportsFor(body, r.trace)
      && r.outcome in {Respond(200, true), Respond(400, false)}
  {
  }

  lemma FetchDataCalls(body: RequestBody, env: Collaborators, representation: Option<Representation>,
                       d: PepDecision)
    ensures var r := FetchData(body, env, representation, d);
      && CallsWithin(r.trace, {Notify, Fetch, Import, Metering})
      && ImportsFor(body, r.trace)
      && r.outcome in {Respond(200, true), Respond(400, false)}
  {
    if representation.Some? && representation.value.kind == "REST" {
      var rep := representation.value;
      var fetched := env.getRepresentation(rep.httpMethod, rep.url, rep.credential);
      if fetched.Ok? {
        ForwardCalls(body, env, fetched.value, d);
      }
    } else {
      ForwardCalls(body, env, Undefined, d);
    }
  }

  lemma ResolveResourceCalls(body: RequestBody, env: Collaborators, resource: Option<string>, d: PepDecision)
    ensures var r := ResolveResource(body, env, resource, d);
      && CallsWithin(r.trace, {Notify, Catalog, Fetch, Import, Metering})
      && ImportsFor(body, r.trace)
      && r.outcome in {Respond(200, true), Respond(400, false)}
  {
    var endpointResp := env.getCatalogData(resource);
    if endpointResp.Ok? {
      FetchDataCalls(body, env, endpointResp.value.representation, d);
    }
  }

  lemma ResolveOfferingCalls(body: RequestBody, env: Collaborators, contract: Contract, d: PepDecision)
    ensures var r := ResolveOffering(body, env, contract, d);
      && CallsWithin(r.trace, {Notify, Catalog, Fetch, Import, Metering})
      && ImportsFor(body, r.trace)
      && (forall c :: c in r.trace && StageOf(c) in {Fetch, Import, Metering} ==>
            TruthyStr(body.dataExchange.id) && TruthyStr(body.consumerEndpoint))
      && r.outcome != NoResponse
  {
    var key := OfferingKey(contract, body.dataExchange);
    var offeringResp := env.getCatalogData(key);
    if offeringResp.Ok? {
      var resource := FirstResource(offeringResp.value);
      if ExchangeReady(body, resource) {
        ResolveResourceCalls(body, env, resource, d);
      }
    }
  }

  /** A trace whose calls all belong to `ks` makes no call of a stage outside `ks`. */
  lemma CallsWithinExcludes(trace: seq<Call>, ks: set<Stage>, excluded: set<Stage>)
    requires CallsWithin(trace, ks) && ks !! excluded
    ensures NoCallsIn(trace, excluded)
  {
  }

  // ---------------------------------------------------------------------
  // Properties of a whole run.

  /** The reply is one of 200 `{success:true}`, 400 or 500 `{success:false}`,
      or nothing; nothing exactly when the policy check denied access. */
  lemma ReplyKinds(body: RequestBody, uri: JsValue, env: Collaborators)
    ensures Export(body, uri, env).outcome in
      {NoResponse, Respond(200, true), Respond(400, false), Respond(500, false)}
    ensures Export(body, uri, env).outcome == NoResponse <==>
      env.getContract(body.contract).Ok? && !Decision(body, env).pep
  {
    if Granted(body, env) {
      var contract := env.getContract(body.contract).value;
      var key := OfferingKey(contract, body.dataExchange);
      var offeringResp := env.getCatalogData(key);
      ResolveOfferingCalls(body, env, contract, Decision(body, env));
      if offeringResp.Ok? && ExchangeReady(body, FirstResource(offeringResp.value)) {
        ResolveResourceCalls(body, env, FirstResource(offeringResp.value), Decision(body, env));
      }
    }
  }

  /** A falsy contract URI only notifies the consumer: the run makes the
      same calls and gives the same reply as with the URI set, with the
      notice inserted after the configuration lookup. */
  lemma ConfigCheckOnlyNotifies(body: RequestBody, env: Collaborators, missing: JsValue, configured: JsValue)
    requires !missing.Truthy() && configured.Truthy()
    ensures
      var without := Export(body, missing, env);
      var with := Export(body, configured, env);
      && without.outcome == with.outcome
      && |with.trace| >= 2
      && with.trace[0] == GetContractUri
      && without.trace == [GetContractUri, Notice(body, ConfigErrorMessage)] + with.trace[1..]
  {
    var notice := [GetContractUri, Notice(body, ConfigErrorMessage)];
    var o, o' := Opening(body, missing), Opening(body, configured);
    assert o == notice + o'[1..];
    var contractResp := env.getContract(body.contract);
    if contractResp.Ok? {
      var rest := Authorize(body, env, contractResp.value).trace;
      assert o + rest == notice + (o' + rest)[1..];
    }
  }

  /** A contract that cannot be fetched ends the run with 400 right after
      the fetch: no policy check, catalog lookup, data fetch, import or metering. */
  lemma ContractFailureStops(body: RequestBody, uri: JsValue, env: Collaborators)
    requires env.getContract(body.contract).Err?
    ensures Export(body, uri, env).outcome == Respond(400, false)
    ensures Export(body, uri, env).trace[|Export(body, uri, env).trace| - 1] == GetContract(body.contract)
    ensures NoCallsIn(Export(body, uri, env).trace, {Policy, Catalog, Fetch, Import, Metering})
  {
  }

  /** A call of stage `k` between two sequences without calls of that stage
      is the only call of its stage, and occurs once. */
  lemma SoleCallOfStage(p: seq<Call>, x: Call, q: seq<Call>, k: Stage, kp: set<Stage>, kq: set<Stage>)
    requires StageOf(x) == k && NoCallsIn(p, kp) && k in kp && NoCallsIn(q, kq) && k in kq
    ensures multiset(p + [x] + q)[x] == 1
    ensures forall c :: c in p + [x] + q && StageOf(c) == k ==> c == x
  {
    assert x !in p && x !in q;
    assert multiset(p + [x] + q) == multiset(p) + multiset{x} + multiset(q);
  }

  /** Once the contract is known, the policy enforcement point is asked
      exactly once, about the derived target and the contract locator. */
  lemma PolicyAskedOnce(body: RequestBody, uri: JsValue, env: Collaborators)
    requires env.getContract(body.contract).Ok?
    ensures
      var run := Export(body, uri, env);
      && multiset(run.trace)[Ask(body, env)] == 1
      && forall c :: c in run.trace && c.PepVerification? ==> c == Ask(body, env)
  {
    var opening := Opening(body, uri);
    var rest: seq<Call> := [];
    if Decision(body, env).pep {
      rest := GrantedRestSkipsPolicy(body, uri, env);
    } else {
      DenialIsSilent(body, uri, env);
    }
    OpeningCalls(body, uri);
    SoleCallOfStage(opening, Ask(body, env), rest, Policy,
                    {Policy, Catalog, Fetch, Import, Metering}, {Config, ContractFetch, Policy});
  }

  /** After a grant, the calls that follow the policy question include no
      configuration lookup, contract fetch or further policy question. */
  lemma GrantedRestSkipsPolicy(body: RequestBody, uri: JsValue, env: Collaborators) returns (rest: seq<Call>)
    requires Granted(body, env)
    ensures Export(body, uri, env).trace == Opening(body, uri) + [Ask(body, env)] + rest
    ensures NoCallsIn(rest, {Config, ContractFetch, Policy})
  {
    var contract := env.getContract(body.contract).value;
    ExportWhenGranted(body, uri, env);
    ResolveOfferingCalls(body, env, contract, Decision(body, env));
    rest := ResolveOffering(body, env, contract, Decision(body, env)).trace;
    CallsWithinExcludes(rest, {Notify, Catalog, Fetch, Import, Metering}, {Config, ContractFetch, Policy});
  }

  /** A locator naming neither `bilaterals` nor `contracts` still reaches
      the policy check, with an `undefined` target. */
  lemma UnmatchedLocatorReachesPolicy(body: RequestBody, uri: JsValue, env: Collaborators)
    requires env.getContract(body.contract).Ok?
    requires !Includes(body.contract, "bilaterals") && !Includes(body.contract, "contracts")
    ensures PepVerification(None, body.contract) in Export(body, uri, env).trace
  {
  }

  /** Access denied is silence: no reply and nothing after the policy check. */
  lemma DenialIsSilent(body: RequestBody, uri: JsValue, env: Collaborators)
    requires env.getContract(body.contract).Ok? && !Decision(body, env).pep
    ensures Export(body, uri, env).outcome == NoResponse
    ensures Export(body, uri, env).trace == Opening(body, uri) + [Ask(body, env)]
    ensures NoCallsIn(Export(body, uri, env).trace, {Catalog, Fetch, Import, Metering})
  {
  }

  /** The policy check is the only gate: no catalog lookup, data fetch,
      import or metering happens unless access was granted. */
  lemma PolicyGatesDownstream(body: RequestBody, uri: JsValue, env: Collaborators)
    ensures forall c :: c in Export(body, uri, env).trace && StageOf(c) in {Catalog, Fetch, Import, Metering} ==>
      Granted(body, env)
  {
  }

  /** After a granted policy check the next call is the offering lookup,
      keyed on the contract's raw `serviceOffering` (or the exchange's
      resource id when it is undefined), not on the derived target; if it
      fails the run ends there with 400. */
  lemma OfferingLookupFollowsPolicy(body: RequestBody, uri: JsValue, env: Collaborators)
    requires Granted(body, env)
    ensures
      var run := Export(body, uri, env);
      var n := |Opening(body, uri)|;
      && |run.trace| >= n + 2
      && run.trace[n] == Ask(body, env)
      && run.trace[n + 1] == GetCatalogData(Key(body, env))
      && (env.getCatalogData(Key(body, env)).Err? ==>
            run.outcome == Respond(400, false) && |run.trace| == n + 2)
  {
    ExportWhenGranted(body, uri, env);
  }

  /** A missing exchange id, consumer endpoint or first data resource is a
      500, and only then; no resource lookup, fetch, import or metering follows. */
  lemma MissingPreconditionIsServerError(body: RequestBody, uri: JsValue, env: Collaborators)
    ensures Export(body, uri, env).outcome == Respond(500, false) <==>
      && Granted(body, env)
      && env.getCatalogData(Key(body, env)).Ok?
      && !ExchangeReady(body, FirstResource(env.getCatalogData(Key(body, env)).value))
    ensures Export(body, uri, env).outcome == Respond(500, false) ==>
      && Export(body, uri, env).trace == Opening(body, uri) + [Ask(body, env), GetCatalogData(Key(body, env))]
      && NoCallsIn(Export(body, uri, env).trace, {Fetch, Import, Metering})
  {
    if Granted(body, env) {
      ExportWhenGranted(body, uri, env);
      var contract := env.getContract(body.contract).value;
      var offeringResp := env.getCatalogData(Key(body, env));
      if offeringResp.Ok? && ExchangeReady(body, FirstResource(offeringResp.value)) {
        ResolveResourceCalls(body, env, FirstResource(offeringResp.value), Decision(body, env));
      }
    }
  }

  /** Data is fetched, imported or metered only for a request that carries
      a truthy exchange id and consumer endpoint, and only to that endpoint. */
  lemma ForwardOnlyWhenReady(body: RequestBody, uri: JsValue, env: Collaborators)
    ensures forall c :: c in Export(body, uri, env).trace && StageOf(c) in {Fetch, Import, Metering} ==>
      TruthyStr(body.dataExchange.id) && TruthyStr(body.consumerEndpoint)
    ensures ImportsFor(body, Export(body, uri, env).trace)
  {
    if Granted(body, env) {
      ExportWhenGranted(body, uri, env);
      ResolveOfferingCalls(body, env, env.getContract(body.contract).value, Decision(body, env));
    }
  }

  // ---------------------------------------------------------------------
  // Forward order: each stage's calls rank after the ones before it.

  /** Every non-notification call in `trace` ranks at least `k`. */
  ghost predicate RanksAtLeast(trace: seq<Call>, k: nat) {
    forall c :: c in trace && StageOf(c) != Notify ==> Rank(StageOf(c)) >= k
  }

  /** Every non-notification call in `trace` ranks at most `k`. */
  ghost predicate RanksAtMost(trace: seq<Call>, k: nat) {
    forall c :: c in trace && StageOf(c) != Notify ==> Rank(StageOf(c)) <= k
  }

  lemma InStageOrderConcat(p: seq<Call>, q: seq<Call>, k: nat)
    requires InStageOrder(p) && InStageOrder(q) && RanksAtMost(p, k) && RanksAtLeast(q, k)
    ensures InStageOrder(p + q)
  {
    var s := p + q;
    forall i, j | 0 <= i < j < |s| && StageOf(s[i]) != Notify && StageOf(s[j]) != Notify
      ensures Rank(StageOf(s[i])) <= Rank(StageOf(s[j]))
    {
      if j < |p| {
        assert s[i] == p[i] && s[j] == p[j];
      } else if i >= |p| {
        assert s[i] == q[i - |p|] && s[j] == q[j - |p|];
      } else {
        assert s[i] == p[i] && s[j] == q[j - |p|];
        assert s[i] in p && s[j] in q;
      }
    }
  }

  /** Stage order is kept when a stage's run follows calls ranked no later than it. */
  lemma InOrderThen(p: seq<Call>, r: Run, k: nat, low: nat)
    requires low <= k
    requires InStageOrder(p) && RanksAtMost(p, k) && RanksAtLeast(p, low)
    requires InStageOrder(r.trace) && RanksAtLeast(r.trace, k)
    ensures InStageOrder(Then(p, r).trace) && RanksAtLeast(Then(p, r).trace, low)
  {
    InStageOrderConcat(p, r.trace, k);
  }

  lemma ForwardInOrder(body: RequestBody, env: Collaborators, data: JsValue, d: PepDecision)
    ensures var r := Forward(body, env, data, d);
      InStageOrder(r.trace) && RanksAtLeast(r.trace, Rank(Import))
  {
    var notice := if data.Truthy() then [] else [Notice(body, NoDataMessage)];
    var imp := ConsumerImport(body.consumerEndpoint, body.dataExchange.id, data);
    var imported := env.consumerImport(body.consumerEndpoint, body.dataExchange.id, data);
    var tail := if imported.Ok? && imported.value.Truthy() then [imp, Meter(d)] else [imp];
    assert Forward(body, env, data, d).trace == notice + tail;
    assert InStageOrder(notice) && RanksAtMost(notice, Rank(Import));
    if imported.Ok? && imported.value.Truthy() {
      PairInOrder(imp, Meter(d), Rank(Import));
    } else {
      SingleInOrder(imp, Rank(Import));
    }
    InStageOrderConcat(notice, tail, Rank(Import));
  }

  /** A single call is in order and ranks as its stage does. */
  lemma SingleInOrder(x: Call, k: nat)
    requires k <= Rank(StageOf(x))
    ensures InStageOrder([x]) && RanksAtLeast([x], k)
  {
  }

  /** Two calls of forward-ordered stages are in order. */
  lemma PairInOrder(x: Call, y: Call, k: nat)
    requires StageOf(x) != Notify && StageOf(y) != Notify
    requires k <= Rank(StageOf(x)) <= Rank(StageOf(y))
    ensures InStageOrder([x, y]) && RanksAtLeast([x, y], k)
  {
  }

  lemma FetchDataInOrder(body: RequestBody, env: Collaborators, representation: Option<Representation>,
                         d: PepDecision)
    ensures var r := FetchData(body, env, representation, d);
      InStageOrder(r.trace) && RanksAtLeast(r.trace, Rank(Fetch))
  {
    if representation.Some? && representation.value.kind == "REST" {
      var rep := representation.value;
      var fetched := env.getRepresentation(rep.httpMethod, rep.url, rep.credential);
      if fetched.Ok? {
        ForwardInOrder(body, env, fetched.value, d);
        InOrderThen([GetRepresentation(rep.httpMethod, rep.url, rep.credential)],
                    Forward(body, env, fetched.value, d), Rank(Fetch), Rank(Fetch));
      }
    } else {
      ForwardInOrder(body, env, Undefined, d);
    }
  }

  lemma ResolveResourceInOrder(body: RequestBody, env: Collaborators, resource: Option<string>, d: PepDecision)
    ensures var r := ResolveResource(body, env, resource, d);
      InStageOrder(r.trace) && RanksAtLeast(r.trace, Rank(Catalog))
  {
    var endpointResp := env.getCatalogData(resource);
    if endpointResp.Ok? {
      var representation := endpointResp.value.representation;
      var notice := if representation.None? then [Notice(body, NoRepresentationMessage)] else [];
      var p := [GetCatalogData(resource)] + notice;
      assert InStageOrder(p) && RanksAtMost(p, Rank(Catalog)) && RanksAtLeast(p, Rank(Catalog));
      FetchDataInOrder(body, env, representation, d);
      InOrderThen(p, FetchData(body, env, representation, d), Rank(Catalog), Rank(Catalog));
    }
  }

  lemma ResolveOfferingInOrder(body: RequestBody, env: Collaborators, contract: Contract, d: PepDecision)
    ensures var r := ResolveOffering(body, env, contract, d);
      InStageOrder(r.trace) && RanksAtLeast(r.trace, Rank(Catalog))
  {
    var key := OfferingKey(contract, body.dataExchange);
    var offeringResp := env.getCatalogData(key);
    if offeringResp.Ok? {
      var resource := FirstResource(offeringResp.value);
      if ExchangeReady(body, resource) {
        ResolveResourceInOrder(body, env, resource, d);
        InOrderThen([GetCatalogData(key)], ResolveResource(body, env, resource, d), Rank(Catalog), Rank(Catalog));
      }
    }
  }

  /** Apart from notices to the consumer, calls are made strictly in stage
      order: configuration, contract, policy, catalog, data fetch, import,
      metering; the configuration lookup comes first and the contract fetch
      is always made. */
  lemma StagesRunForward(body: RequestBody, uri: JsValue, env: Collaborators)
    ensures var run := Export(body, uri, env);
      && InStageOrder(run.trace)
      && |run.trace| >= 2 && run.trace[0] == GetContractUri
      && GetContract(body.contract) in run.trace
  {
    var opening := Opening(body, uri);
    OpeningInOrder(body, uri);
    if env.getContract(body.contract).Ok? {
      var contract := env.getContract(body.contract).value;
      AuthorizeInOrder(body, env, contract);
      InOrderThen(opening, Authorize(body, env, contract), Rank(ContractFetch), 0);
    }
  }

  lemma OpeningInOrder(body: RequestBody, uri: JsValue)
    ensures var opening := Opening(body, uri);
      && InStageOrder(opening) && RanksAtMost(opening, Rank(ContractFetch)) && RanksAtLeast(opening, 0)
      && |opening| >= 2 && opening[0] == GetContractUri && opening[|opening| - 1] == GetContract(body.contract)
  {
  }

  lemma AuthorizeInOrder(body: RequestBody, env: Collaborators, contract: Contract)
    ensures var r := Authorize(body, env, contract);
      InStageOrder(r.trace) && RanksAtLeast(r.trace, Rank(Policy))
  {
    var decision := env.pepVerification(Target(body, contract), body.contract);
    if decision.pep {
      ResolveOfferingInOrder(body, env, contract, decision);
      InOrderThen([PepVerification(Target(body, contract), body.contract)],
                  ResolveOffering(body, env, contract, decision), Rank(Policy), Rank(Policy));
    }
  }

  // ---------------------------------------------------------------------
  // A failed collaborator call ends the run with 400.

  /** Under `env`, a failed call in `r` is its last call and the reply is 400;
      a 400 reply follows a failed call. */
  ghost predicate FailureEnds(env: Collaborators, r: Run) {
    && (forall i :: 0 <= i < |r.trace| && Failed(env, r.trace[i]) ==>
          i == |r.trace| - 1 && r.outcome == Respond(400, false))
    && (r.outcome == Respond(400, false) ==> |r.trace| > 0 && Failed(env, r.trace[|r.trace| - 1]))
  }

  lemma FailureEndsExtend(env: Collaborators, p: seq<Call>, r: Run)
    requires forall c :: c in p ==> !Failed(env, c)
    requires FailureEnds(env, r)
    ensures FailureEnds(env, Then(p, r))
  {
    var s := p + r.trace;
    forall i | 0 <= i < |p| ensures !Failed(env, s[i]) {
      assert s[i] == p[i];
    }
    forall i | |p| <= i < |s| ensures s[i] == r.trace[i - |p|] {
    }
    if r.outcome == Respond(400, false) {
      assert s[|s| - 1] == r.trace[|r.trace| - 1];
    }
  }

  lemma ForwardFailureEnds(body: RequestBody, env: Collaborators, data: JsValue, d: PepDecision)
    ensures FailureEnds(env, Forward(body, env, data, d))
  {
  }

  lemma FetchDataFailureEnds(body: RequestBody, env: Collaborators, representation: Option<Representation>,
                             d: PepDecision)
    ensures FailureEnds(env, FetchData(body, env, representation, d))
  {
    if representation.Some? && representation.value.kind == "REST" {
      var rep := representation.value;
      var fetched := env.getRepresentation(rep.httpMethod, rep.url, rep.credential);
      if fetched.Ok? {
        ForwardFailureEnds(body, env, fetched.value, d);
        FailureEndsExtend(env, [GetRepresentation(rep.httpMethod, rep.url, rep.credential)],
                          Forward(body, env, fetched.value, d));
      }
    } else {
      ForwardFailureEnds(body, env, Undefined, d);
    }
  }

  lemma ResolveResourceFailureEnds(body: RequestBody, env: Collaborators, resource: Option<string>, d: PepDecision)
    ensures FailureEnds(env, ResolveResource(body, env, resource, d))
  {
    var endpointResp := env.getCatalogData(resource);
    if endpointResp.Ok? {
      var representation := endpointResp.value.representation;
      var notice := if representation.None? then [Notice(body, NoRepresentationMessage)] else [];
      FetchDataFailureEnds(body, env, representation, d);
      FailureEndsExtend(env, [GetCatalogData(resource)] + notice, FetchData(body, env, representation, d));
    }
  }

  lemma ResolveOfferingFailureEnds(body: RequestBody, env: Collaborators, contract: Contract, d: PepDecision)
    ensures FailureEnds(env, ResolveOffering(body, env, contract, d))
  {
    var key := OfferingKey(contract, body.dataExchange);
    var offeringResp := env.getCatalogData(key);
    if offeringResp.Ok? {
      var resource := FirstResource(offeringResp.value);
      if ExchangeReady(body, resource) {
        ResolveResourceFailureEnds(body, env, resource, d);
        FailureEndsExtend(env, [GetCatalogData(key)], ResolveResource(body, env, resource, d));
      }
    }
  }

  /** Every collaborator error ends the run: the failed call is the last one
      made and the reply is 400 `{success:false}`; conversely a 400 reply
      always answers a failed contract fetch, catalog lookup, data fetch or
      import. */
  lemma FailuresEndTheRun(body: RequestBody, uri: JsValue, env: Collaborators)
    ensures FailureEnds(env, Export(body, uri, env))
  {
    var opening := Opening(body, uri);
    if Granted(body, env) {
      var contract := env.getContract(body.contract).value;
      ExportWhenGranted(body, uri, env);
      ResolveOfferingFailureEnds(body, env, contract, Decision(body, env));
      FailureEndsExtend(env, opening + [Ask(body, env)], ResolveOffering(body, env, contract, Decision(body, env)));
    } else if env.getContract(body.contract).Ok? {
      var s := opening + [Ask(body, env)];
      forall i | 0 <= i < |s| ensures !Failed(env, s[i]) {
        if i < |opening| {
          assert s[i] == opening[i];
        }
      }
    } else {
      forall i | 0 <= i < |opening| - 1 ensures !Failed(env, opening[i]) {
      }
    }
  }

  // ---------------------------------------------------------------------
  // Forwarding and metering.

  /** Under `env` and policy decision `d`, the run `r` meters only with the
      decision's ids, at most once, and only after an import that answered
      truthy; an import error is a 400 with no metering, any other import
      answer a 200; a 200 always follows an import. */
  ghost predicate MeteringSound(env: Collaborators, d: PepDecision, r: Run) {
    && (forall c :: c in r.trace && c.ProcessLeftOperands? ==>
          c == Meter(d) && multiset(r.trace)[c] == 1 && r.outcome == Respond(200, true))
    && (forall c :: c in r.trace && c.ConsumerImport? ==>
          && multiset(r.trace)[c] == 1
          && var imported := env.consumerImport(c.endpoint, c.exchangeId, c.data);
          && (imported.Err? ==> r.outcome == Respond(400, false) && Meter(d) !in r.trace)
          && (imported.Ok? ==>
                r.outcome == Respond(200, true) && (Meter(d) in r.trace <==> imported.value.Truthy())))
    && (r.outcome == Respond(200, true) ==> exists c :: c in r.trace && c.ConsumerImport?)
  }

  lemma MeteringSoundExtend(env: Collaborators, d: PepDecision, p: seq<Call>, r: Run)
    requires NoCallsIn(p, {Import, Metering})
    requires MeteringSound(env, d, r)
    ensures MeteringSound(env, d, Then(p, r))
  {
    var s := p + r.trace;
    assert multiset(s) == multiset(p) + multiset(r.trace);
    forall c | c in s && (c.ConsumerImport? || c.ProcessLeftOperands?)
      ensures c in r.trace && multiset(s)[c] == multiset(r.trace)[c]
    {
      assert StageOf(c) in {Import, Metering};
      assert c !in p;
    }
    assert Meter(d) !in p by {
      assert StageOf(Meter(d)) in {Import, Metering};
    }
    if r.outcome == Respond(200, true) {
      var c :| c in r.trace && c.ConsumerImport?;
      assert c in s;
    }
  }

  lemma ForwardMeteringSound(body: RequestBody, env: Collaborators, data: JsValue, d: PepDecision)
    ensures MeteringSound(env, d, Forward(body, env, data, d))
  {
    var notice := if data.Truthy() then [] else [Notice(body, NoDataMessage)];
    var imp := ConsumerImport(body.consumerEndpoint, body.dataExchange.id, data);
    var imported := env.consumerImport(body.consumerEndpoint, body.dataExchange.id, data);
    var tail := if imported.Ok? && imported.value.Truthy() then [imp, Meter(d)] else [imp];
    var r := Run(Forward(body, env, data, d).outcome, tail);
    assert Forward(body, env, data, d) == Then(notice, r);
    assert multiset(tail)[imp] == 1;
    assert imp in tail;
    assert multiset(tail)[Meter(d)] == (if |tail| == 2 then 1 else 0);
    MeteringSoundExtend(env, d, notice, r);
  }

  lemma FetchDataMeteringSound(body: RequestBody, env: Collaborators, representation: Option<Representation>,
                               d: PepDecision)
    ensures MeteringSound(env, d, FetchData(body, env, representation, d))
  {
    if representation.Some? && representation.value.kind == "REST" {
      var rep := representation.value;
      var fetched := env.getRepresentation(rep.httpMethod, rep.url, rep.credential);
      if fetched.Ok? {
        ForwardMeteringSound(body, env, fetched.value, d);
        MeteringSoundExtend(env, d, [GetRepresentation(rep.httpMethod, rep.url, rep.credential)],
                            Forward(body, env, fetched.value, d));
      }
    } else {
      ForwardMeteringSound(body, env, Undefined, d);
    }
  }

  lemma ResolveResourceMeteringSound(body: RequestBody, env: Collaborators, resource: Option<string>,
                                     d: PepDecision)
    ensures MeteringSound(env, d, ResolveResource(body, env, resource, d))
  {
    var endpointResp := env.getCatalogData(resource);
    if endpointResp.Ok? {
      var representation := endpointResp.value.representation;
      var notice := if representation.None? then [Notice(body, NoRepresentationMessage)] else [];
      FetchDataMeteringSound(body, env, representation, d);
      MeteringSoundExtend(env, d, [GetCatalogData(resource)] + notice, FetchData(body, env, representation, d));
    }
  }

  lemma ResolveOfferingMeteringSound(body: RequestBody, env: Collaborators, contract: Contract, d: PepDecision)
    ensures MeteringSound(env, d, ResolveOffering(body, env, contract, d))
  {
    var key := OfferingKey(contract, body.dataExchange);
    var offeringResp := env.getCatalogData(key);
    if offeringResp.Ok? {
      var resource := FirstResource(offeringResp.value);
      if ExchangeReady(body, resource) {
        ResolveResourceMeteringSound(body, env, resource, d);
        MeteringSoundExtend(env, d, [GetCatalogData(key)], ResolveResource(body, env, resource, d));
      }
    }
  }

  /** Usage is metered, as `processLeftOperands(['count'], contractID,
      resourceID)` with the policy decision's ids, exactly when the import
      answered truthy, and then once; an import error is a 400 without
      metering; otherwise the reply is 200. Without a granted policy check
      nothing is imported or metered and the reply is never 200. */
  lemma MeteringFollowsImport(body: RequestBody, uri: JsValue, env: Collaborators)
    ensures Granted(body, env) ==> MeteringSound(env, Decision(body, env), Export(body, uri, env))
    ensures !Granted(body, env) ==>
      NoCallsIn(Export(body, uri, env).trace, {Import, Metering}) &&
      Export(body, uri, env).outcome != Respond(200, true)
  {
    if Granted(body, env) {
      var contract := env.getContract(body.contract).value;
      var p := Opening(body, uri) + [Ask(body, env)];
      assert NoCallsIn(p, {Import, Metering});
      ExportWhenGranted(body, uri, env);
      ResolveOfferingMeteringSound(body, env, contract, Decision(body, env));
      MeteringSoundExtend(env, Decision(body, env), p, ResolveOffering(body, env, contract, Decision(body, env)));
    }
  }

  // ---------------------------------------------------------------------
  // Missing representation or data only notifies the consumer.

  /** The request passed the policy check, the offering lookup and the
      precondition check, and its first resource was found in the catalog. */
  predicate ResourceFound(body: RequestBody, env: Collaborators) {
    && Granted(body, env)
    && env.getCatalogData(Key(body, env)).Ok?
    && ExchangeReady(body, FirstResource(env.getCatalogData(Key(body, env)).value))
    && env.getCatalogData(FirstResource(env.getCatalogData(Key(body, env)).value)).Ok?
  }

  /** The first data resource of the offering, once it is known. */
  function Resource(body: RequestBody, env: Collaborators): Option<string>
    requires Granted(body, env) && env.getCatalogData(Key(body, env)).Ok?
  {
    FirstResource(env.getCatalogData(Key(body, env)).value)
  }

  /** The representation of the resource found. */
  function RepresentationFound(body: RequestBody, env: Collaborators): Option<Representation>
    requires ResourceFound(body, env)
  {
    env.getCatalogData(Resource(body, env)).value.representation
  }

  /** What the rest of a run does once the resource's representation is
      known: with none, the consumer hears of the missing representation and
      of the missing data and `undefined` is imported; with one that is not
      `REST`, only the missing data is reported and `undefined` is imported;
      with a `REST` one, it is fetched with its method, url and credential,
      and fetched data is imported whether or not it is truthy, a falsy one
      after a notice. No fetch happens without a `REST` representation. */
  ghost predicate FallsThrough(body: RequestBody, env: Collaborators, representation: Option<Representation>,
                               trace: seq<Call>)
  {
    var noRep := Notice(body, NoRepresentationMessage);
    var noData := Notice(body, NoDataMessage);
    var importUndefined := ConsumerImport(body.consumerEndpoint, body.dataExchange.id, Undefined);
    && (representation.None? ==>
          noRep in trace && noData in trace && importUndefined in trace && NoCallsIn(trace, {Fetch}))
    && (representation.Some? && representation.value.kind != "REST" ==>
          noRep !in trace && noData in trace && importUndefined in trace && NoCallsIn(trace, {Fetch}))
    && (representation.Some? && representation.value.kind == "REST" ==>
          var rep := representation.value;
          var fetched := env.getRepresentation(rep.httpMethod, rep.url, rep.credential);
          && GetRepresentation(rep.httpMethod, rep.url, rep.credential) in trace
          && (fetched.Ok? ==>
                && ConsumerImport(body.consumerEndpoint, body.dataExchange.id, fetched.value) in trace
                && (noData in trace <==> !fetched.value.Truthy())))
  }

  lemma FallsThroughExtend(body: RequestBody, env: Collaborators, representation: Option<Representation>,
                           p: seq<Call>, trace: seq<Call>)
    requires NoCallsIn(p, {Fetch, Import})
    requires Notice(body, NoRepresentationMessage) !in p && Notice(body, NoDataMessage) !in p
    requires FallsThrough(body, env, representation, trace)
    ensures FallsThrough(body, env, representation, p + trace)
  {
  }

  /** `FetchData` never reports a missing representation; without a `REST`
      representation it reports missing data, imports `undefined` and
      fetches nothing; with one it fetches, and imports what it fetched,
      reporting missing data exactly when that is falsy. */
  lemma FetchDataFallsThrough(body: RequestBody, env: Collaborators, representation: Option<Representation>,
                              d: PepDecision)
    ensures Notice(body, NoRepresentationMessage) !in FetchData(body, env, representation, d).trace
    ensures representation.Some? ==> FallsThrough(body, env, representation, FetchData(body, env, representation, d).trace)
    ensures representation.None? ==>
      var trace := FetchData(body, env, representation, d).trace;
      && Notice(body, NoDataMessage) in trace
      && ConsumerImport(body.consumerEndpoint, body.dataExchange.id, Undefined) in trace
      && NoCallsIn(trace, {Fetch})
  {
    assert NoRepresentationMessage != NoDataMessage;
  }

  lemma ResolveResourceFallsThrough(body: RequestBody, env: Collaborators, resource: Option<string>,
                                    d: PepDecision)
    requires env.getCatalogData(resource).Ok?
    ensures FallsThrough(body, env, env.getCatalogData(resource).value.representation,
                         ResolveResource(body, env, resource, d).trace)
  {
    var representation := env.getCatalogData(resource).value.representation;
    var notice := if representation.None? then [Notice(body, NoRepresentationMessage)] else [];
    FetchDataFallsThrough(body, env, representation, d);
    var f := FetchData(body, env, representation, d).trace;
    assert ResolveResource(body, env, resource, d).trace == [GetCatalogData(resource)] + notice + f;
    assert NoRepresentationMessage != NoDataMessage;
  }

  /** Once the resource is found, a run is the opening, the policy question,
      the offering lookup, then `ResolveResource`. */
  lemma ExportWhenResourceFound(body: RequestBody, uri: JsValue, env: Collaborators)
    requires ResourceFound(body, env)
    ensures Export(body, uri, env) ==
      Then(Opening(body, uri) + [Ask(body, env), GetCatalogData(Key(body, env))],
           ResolveResource(body, env, Resource(body, env), Decision(body, env)))
  {
    ExportWhenGranted(body, uri, env);
    var p := Opening(body, uri) + [Ask(body, env)];
    ThenThen(p, [GetCatalogData(Key(body, env))], ResolveResource(body, env, Resource(body, env), Decision(body, env)));
    assert p + [GetCatalogData(Key(body, env))] == Opening(body, uri) + [Ask(body, env), GetCatalogData(Key(body, env))];
  }

  /** Up to the offering lookup, nothing is fetched or imported and no
      representation or data is reported missing. */
  lemma QuietBeforeResource(body: RequestBody, uri: JsValue, env: Collaborators, p: seq<Call>)
    requires env.getContract(body.contract).Ok?
    requires p == Opening(body, uri) + [Ask(body, env), GetCatalogData(Key(body, env))]
    ensures NoCallsIn(p, {Fetch, Import})
    ensures Notice(body, NoRepresentationMessage) !in p && Notice(body, NoDataMessage) !in p
  {
    assert ConfigErrorMessage != NoRepresentationMessage && ConfigErrorMessage != NoDataMessage;
    OpeningCalls(body, uri);
  }

  /** The fall-throughs hold of the whole run once the resource is found. */
  lemma ExportFallsThrough(body: RequestBody, uri: JsValue, env: Collaborators)
    requires ResourceFound(body, env)
    ensures FallsThrough(body, env, RepresentationFound(body, env), Export(body, uri, env).trace)
  {
    ExportWhenResourceFound(body, uri, env);
    var p := Opening(body, uri) + [Ask(body, env), GetCatalogData(Key(body, env))];
    QuietBeforeResource(body, uri, env, p);
    ResolveResourceFallsThrough(body, env, Resource(body, env), Decision(body, env));
    FallsThroughExtend(body, env, RepresentationFound(body, env), p,
                       ResolveResource(body, env, Resource(body, env), Decision(body, env)).trace);
  }

  /** No representation: the consumer is told so and that no data was found,
      nothing is fetched, and `undefined` is still imported. */
  lemma MissingRepresentationStillImports(body: RequestBody, uri: JsValue, env: Collaborators)
    requires ResourceFound(body, env) && RepresentationFound(body, env).None?
    ensures var run := Export(body, uri, env);
      && Notice(body, NoRepresentationMessage) in run.trace
      && Notice(body, NoDataMessage) in run.trace
      && ConsumerImport(body.consumerEndpoint, body.dataExchange.id, Undefined) in run.trace
      && NoCallsIn(run.trace, {Fetch})
  {
    ExportFallsThrough(body, uri, env);
  }

  /** A representation whose type is not `REST`: nothing is fetched, the
      consumer is told no data was found, and `undefined` is imported. */
  lemma UnknownRepresentationImportsUndefined(body: RequestBody, uri: JsValue, env: Collaborators)
    requires ResourceFound(body, env)
    requires RepresentationFound(body, env).Some? && RepresentationFound(body, env).value.kind != "REST"
    ensures var run := Export(body, uri, env);
      && Notice(body, NoRepresentationMessage) !in run.trace
      && Notice(body, NoDataMessage) in run.trace
      && ConsumerImport(body.consumerEndpoint, body.dataExchange.id, Undefined) in run.trace
      && NoCallsIn(run.trace, {Fetch})
  {
    ExportFallsThrough(body, uri, env);
  }

  /** A `REST` representation is fetched with its method, url and credential;
      when the data comes back falsy the consumer is told so and the data is
      imported all the same; truthy data is imported without a notice. */
  lemma FetchedDataIsImported(body: RequestBody, uri: JsValue, env: Collaborators)
    requires ResourceFound(body, env)
    requires RepresentationFound(body, env).Some? && RepresentationFound(body, env).value.kind == "REST"
    ensures var rep := RepresentationFound(body, env).value;
      var run := Export(body, uri, env);
      var fetched := env.getRepresentation(rep.httpMethod, rep.url, rep.credential);
      && GetRepresentation(rep.httpMethod, rep.url, rep.credential) in run.trace
      && (fetched.Ok? ==>
            && ConsumerImport(body.consumerEndpoint, body.dataExchange.id, fetched.value) in run.trace
            && (Notice(body, NoDataMessage) in run.trace <==> !fetched.value.Truthy()))
  {
    ExportFallsThrough(body, uri, env);
  }

  /** Everything succeeds, the `REST` fetch returns truthy data and the import
      answers truthy: 200 `{success:true}` and usage is metered under the
      policy decision's ids. */
  lemma SuccessfulExportIsMetered(body: RequestBody, uri: JsValue, env: Collaborators)
    requires ResourceFound(body, env)
    requires RepresentationFound(body, env).Some? && RepresentationFound(body, env).value.kind == "REST"
    requires var rep := RepresentationFound(body, env).value;
      var fetched := env.getRepresentation(rep.httpMethod, rep.url, rep.credential);
      && fetched.Ok? && fetched.value.Truthy()
      && var imported := env.consumerImport(body.consumerEndpoint, body.dataExchange.id, fetched.value);
      imported.Ok? && imported.value.Truthy()
    ensures Export(body, uri, env).outcome == Respond(200, true)
    ensures Meter(Decision(body, env)) in Export(body, uri, env).trace
  {
    ExportWhenResourceFound(body, uri, env);
  }
}

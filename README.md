# Provider export of the dataspace connector, in Dafny

This project models `providerExport`, the provider side of a data exchange in
the dataspace connector. The handler receives the exchange, the consumer's
endpoint and a contract locator. It then runs these steps in order:

1. Check that a contract service URI is configured.
2. Fetch the contract.
3. Derive the resource the policy enforcement point (PEP) is asked about.
4. Ask the PEP.
5. Look the service offering up in the catalog.
6. Check that the exchange id, the endpoint and the offering's first data
   resource are all present.
7. Look that resource up in the catalog.
8. Fetch its data through its representation.
9. Import the data into the consumer.
10. Increment the `count` usage counter.

Along the way it answers 200, 400, 500 or not at all.

Files:

- `js.dfy`: the few JavaScript notions the handler relies on. These are
  `undefined` (`Option`), the `[value, error]` pair of `handle` (`Result`),
  and truthiness (`JsValue.Truthy`, `TruthyStr`).
- `strings.dfy`: `includes`, the anchored `^https?://` test, and
  `split('/')` followed by taking the last element. `split` comes with its
  round trip against `join`, and the last element is characterised as the
  final path segment.
- `provider_types.dfy`:
  - the request body and the records the collaborators return;
  - the collaborators, as pure functions of their arguments;
  - the calls the handler makes;
  - the reply.
- `provider_controller.dfy`: the model of the handler itself, in three
  parts:
  - `DeriveTarget`, the target rule;
  - `Export`, a specification function of one run (its reply and its
    calls), built from one function per stage: `Opening`, `Authorize`,
    `ResolveOffering`, `ResolveResource`, `FetchData` and `Forward`. Each
    stage returns the calls it makes itself, and `Then` puts the calls
    made before it in front;
  - the handler written step by step: `ProviderExport`, `ExportResource`
    (from the resource lookup to the fetch) and `ImportData` (from the data
    check to the reply). Each appends every awaited collaborator call to a
    trace and returns early where the source does. Each is proved to
    compute the matching part of `Export`.
- `export_properties.dfy`: what every run guarantees, proved over `Export`.
  It covers:
  - which calls happen and in what order;
  - with which arguments;
  - which reply follows;
  - when usage is metered.

Collaborators return values; they do not throw. Each collaborator answer is
a field of `Collaborators`, so the same arguments always get the same answer.
The configured contract service URI, the answer of `getContractUri`, is a
separate input of the run. `consumerError` and `processLeftOperands` return
nothing the handler uses, so they appear only in the trace.

The model keeps these behaviours of the handler as written, although some
of them are questionable:

- A falsy contract URI only notifies the consumer, and the run goes on.
- A missing representation, or missing or falsy data, only notifies the
  consumer. `undefined` (or the falsy data) is still imported.
- A locator that names neither `bilaterals` nor `contracts` leaves the target
  `undefined`, and the PEP is still asked.
- The exchange id, endpoint and first-resource check comes before the
  second catalog lookup.
- Usage is metered only when the import answers truthy. A successful import
  that answers falsy gives 200 without metering.
- The service-offering lookup keys on the contract's raw `serviceOffering`,
  falling back to the exchange's `resourceId` when it is undefined. The
  target derived for the PEP is not used for it.

## Model

| member | source | states |
|---|---|---|
| ProviderController.DeriveTarget | src/controllers/public/v1/provider.public.controller.ts:47-62 | Which target the PEP is asked about. A `bilaterals` locator with an http(s) offering gives the offering's final path segment (a suffix without `/` that is the whole string or follows a `/`). A `bilaterals` locator with any other offering takes it verbatim, including `undefined`. Otherwise a `contracts` locator takes the exchange's `resourceId`. Any other locator gives `undefined`. The `bilaterals` check comes first. |
| ProviderController.BilateralUrlTargetIsLastSplitElement | src/controllers/public/v1/provider.public.controller.ts:51-55 | For a `bilaterals` locator and an http(s) offering, the target is exactly the last element of `serviceOffering.split('/')`. |
| ProviderController.BilateralUrlExample | src/controllers/public/v1/provider.public.controller.ts:51-55 | `/bilaterals/abc` with offering `https://x/offerings/42` gives target `42`. |
| ProviderController.ProviderExport | src/controllers/public/v1/provider.public.controller.ts:20-165 | The handler's reply and its sequence of collaborator calls are exactly the run `Export` describes, so every property below holds of the handler. |
| ProviderController.ExportResource | src/controllers/public/v1/provider.public.controller.ts:89-160 | From the resource lookup on, the handler's reply and calls are exactly `ResolveResource`'s, after the calls already made: 400 right after a failed lookup or fetch, a notice for a missing representation, a fetch only for a `REST` one, then what `ImportData` does with the data. |
| ProviderController.ImportData | src/controllers/public/v1/provider.public.controller.ts:135-160 | From the data check on, the handler's reply and calls are exactly `Forward`'s, after the calls already made: a notice for falsy data, the import, 400 on an import error, otherwise metering on a truthy answer and 200. |
| Strings.IncludesIffOccurs | src/controllers/public/v1/provider.public.controller.ts:51 | `includes` holds exactly when the substring occurs at some index. Both directions are proved. |
| Strings.Split | src/controllers/public/v1/provider.public.controller.ts:54 | `split` on a one-character separator never returns an empty list. |
| Strings.SplitPiecesAreSeparatorFree | src/controllers/public/v1/provider.public.controller.ts:54 | No piece of a split contains the separator. |
| Strings.JoinSplit | src/controllers/public/v1/provider.public.controller.ts:54 | Joining the pieces of a split with the same separator gives the string back. |
| Strings.SplitJoin | src/controllers/public/v1/provider.public.controller.ts:54 | Splitting a join of separator-free pieces gives the pieces back. |
| Strings.SplitAtSeparator | src/controllers/public/v1/provider.public.controller.ts:54 | A separator-free prefix followed by the separator splits off as the first piece. |
| Strings.SplitSeparatorFree | src/controllers/public/v1/provider.public.controller.ts:54 | A string without the separator splits into itself alone. |
| Strings.SplitManyHasSeparator | src/controllers/public/v1/provider.public.controller.ts:54 | A split into more than one piece means the separator occurs in the string. |
| Strings.LastSegmentIsFinalSegment | src/controllers/public/v1/provider.public.controller.ts:54-55 | The last element of `split('/')` is a suffix without `/` that is the whole string or follows a `/`. |
| Strings.LastSegmentCharacterized | src/controllers/public/v1/provider.public.controller.ts:54-55 | A string is the last element of `split('/')` if and only if it is that final path segment. |
| ExportProperties.ReplyKinds | src/controllers/public/v1/provider.public.controller.ts:35-164 | The reply is 200 `{success:true}`, 400 or 500 `{success:false}`, or none. It is none exactly when the contract was fetched and the PEP denied access. |
| ExportProperties.ConfigCheckOnlyNotifies | src/controllers/public/v1/provider.public.controller.ts:27-33 | A falsy contract URI only adds the `Provider configuration error` notice after the configuration lookup. The reply and every other call are those of a run with the URI set. |
| ExportProperties.ContractFailureStops | src/controllers/public/v1/provider.public.controller.ts:35-45 | A contract fetch error gives 400, and the fetch is the last call. No PEP, catalog, representation, import or metering call is made. |
| ExportProperties.PolicyAskedOnce | src/controllers/public/v1/provider.public.controller.ts:65-68 | Once the contract is known, the PEP is asked exactly once, with the derived target and the contract locator, and is never asked anything else. |
| ExportProperties.UnmatchedLocatorReachesPolicy | src/controllers/public/v1/provider.public.controller.ts:51-68 | A locator naming neither `bilaterals` nor `contracts` still reaches the PEP, with an `undefined` target. |
| ExportProperties.DenialIsSilent | src/controllers/public/v1/provider.public.controller.ts:65-70 | A PEP denial gives no reply, and no catalog, representation, import or metering call follows. |
| ExportProperties.PolicyGatesDownstream | src/controllers/public/v1/provider.public.controller.ts:70 | A catalog, representation, import or metering call only happens when the contract was fetched and the PEP granted access. |
| ExportProperties.OfferingLookupFollowsPolicy | src/controllers/public/v1/provider.public.controller.ts:71-83 | After a grant, the next call is the catalog lookup of the contract's raw `serviceOffering`, or of `resourceId` when that is undefined. If the lookup fails, the run ends right there with 400. |
| ExportProperties.MissingPreconditionIsServerError | src/controllers/public/v1/provider.public.controller.ts:85-162 | The reply is 500 exactly when access was granted, the offering was found, and the exchange id, the endpoint or `dataResources[0]` is falsy. No further lookup, fetch, import or metering call follows. |
| ExportProperties.ForwardOnlyWhenReady | src/controllers/public/v1/provider.public.controller.ts:88-146 | A fetch, import or metering call only happens with a truthy exchange id and endpoint. Every import goes to the request's endpoint, with its exchange id. |
| ExportProperties.StagesRunForward | src/controllers/public/v1/provider.public.controller.ts:25-164 | Apart from notices to the consumer, calls come strictly in stage order: configuration, contract, policy, catalog, fetch, import, metering. The configuration lookup is first, and the contract is always fetched. |
| ExportProperties.FailuresEndTheRun | src/controllers/public/v1/provider.public.controller.ts:35-154 | An error from any collaborator call is the last call of the run, and the reply is 400. Conversely, every 400 answers such an error. |
| ExportProperties.MeteringFollowsImport | src/controllers/public/v1/provider.public.controller.ts:144-160 | After a grant, `processLeftOperands(['count'], contractID, resourceID)` is called only with the PEP decision's ids, at most once, and exactly when the import answered truthy. An import error gives 400 and no metering; any other import answer gives 200; a 200 always follows an import. Without a grant nothing is imported or metered and the reply is never 200. |
| ExportProperties.MissingRepresentationStillImports | src/controllers/public/v1/provider.public.controller.ts:102-146 | When the resource has no representation, the consumer is told `No representation found` and `No Data found`, nothing is fetched, and `undefined` is still imported. |
| ExportProperties.UnknownRepresentationImportsUndefined | src/controllers/public/v1/provider.public.controller.ts:110-146 | A representation whose type is not `REST` is not fetched. The consumer is told `No Data found`, but not `No representation found`, and `undefined` is imported. |
| ExportProperties.FetchedDataIsImported | src/controllers/public/v1/provider.public.controller.ts:111-146 | A `REST` representation is fetched with its method, url and credential. The fetched data is imported whether or not it is truthy, and `No Data found` is sent exactly when it is falsy. |
| ExportProperties.SuccessfulExportIsMetered | src/controllers/public/v1/provider.public.controller.ts:110-160 | When every step succeeds with a `REST` representation, truthy data and a truthy import answer, the reply is 200 `{success:true}` and usage is metered with the PEP decision's ids. |

## Left out

- The Express request and response objects are left out. `restfulResponse` is modelled as the reply value `Respond(status, success)`.
- `Logger` calls are left out. They do not influence the reply or the calls made.
- Asynchrony is left out. Every awaited call is a step of one sequential run; nothing is concurrent.
- Exceptions are left out, in these cases:
  - reading `dataExchange._id` or `dataResources[0]` when `dataExchange` or `dataResources` itself is missing;
  - `contract.includes` on a non-string locator;
  - a rejection of a call the handler does not wrap in `handle` (`getContractUri`, `consumerError`, `pepVerification`, `processLeftOperands`);
  - `getContract` resolving to `undefined` or `null`. With a `bilaterals` locator, reading `contractResp.serviceOffering` then throws. `Result<Contract>` always carries a contract record, so the nearest value the model has is a contract without a service offering, for which it asks the PEP with an `undefined` target instead of throwing;
  - `getCatalogData` resolving to `undefined` or `null` for the service offering. Reading `dataResources` then throws. The model's catalog entry is always a record.

  The model assumes these calls return normally and the fields exist.
- `Err` in the model always stands for a truthy error reason. A call rejected with a falsy reason passes the handler's `if (...Error)` tests as a success with an `undefined` value. The model does not represent this; every `Err` stops the run with 400.
- `null` for the optional fields is left out. Only `undefined` is modelled, as `None`.
- Representation fields are plain strings. A representation whose `method`, `url` or `credential` is undefined is not modelled.
- The collaborators' internals are not part of this model: `getContractUri`, `getContract`, `getCatalogData`, `getRepresentation`, `consumerImport`, `consumerError`, `pepVerification` and `processLeftOperands`. Each is a function of its arguments; the configured contract service URI is an input value of the run.
- The regular expression engine is left out. `/^https?:\/\//` is modelled as the prefix test `HasHttpScheme`.
- `JsValue` has integer numbers only, so `NaN` and floating point are not modelled.
- The payload is opaque. Only its truthiness decides the handler's path.
- Making missing data fatal, or rejecting an unmatched locator, would change the handler. The model keeps its fall-through behaviour.

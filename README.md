# Ecobici API client — Dafny model

This project models the core of `lib/ecobici.js`, a client for the Ecobici bike-share API. It covers:

- the `options` record and its defaults;
- the access-token validity test;
- the request builder for the four endpoint types (`info`, `status`, `oauth`, `refresh`);
- the classification of an HTTP response into a promise outcome;
- the token-update transition that writes the credentials in place;
- `getStations`, which runs the token update and then the data request.

How the model is built:

- HTTP exchanges are not performed. The response to each request is an input value: a transport error, or a status code, a status text, a body and what `JSON.parse` makes of that body.
- Time is an integer number of seconds, passed in. `now` is the instant of the validity test. `receivedAt` is the instant at which the token response is handled.
- A promise is modelled by the sequence of `resolve`/`reject` calls made on it. The first call settles it and later calls have no effect (`FirstSettlement`). This covers two quirks of the code:
  - a non-200 response is rejected and then also resolved;
  - with a valid token, `__updateAccessTokenData` resolves at once but does not return, so the refresh request is still sent and its grant is still stored.
- The state the source mutates is the `options` field of the class `Ecobici.Client`. Its methods are proved equal to pure specification functions: `TokenHandler`, `TokenUpdate` and `GetStationsSpec`. The properties are lemmas about those functions.

Files:

- `wrappers.dfy`: Option and Result.
- `json.dfy`: parsed JSON values, and `hasOwnProperty('error')`.
- `decimal.dfy`: decimal rendering of status codes in error messages.
- `ecobici.dfy`: the client.

Where the code departs from what a reader would expect, this model follows the code:

- the token request is a GET with query parameters, where sections 4.4.2 and 6 of RFC 6749 ask for a form POST;
- with a valid token, a refresh request is still issued on every `getStations` call;
- a non-200 response whose body is `null`, or an object with its own `hasOwnProperty` key, makes the `hasOwnProperty('error')` call throw inside the response callback, so the promise never settles (`Unsettled`);
- an `expireTimestamp` passed to the constructor is copied by deep-extend into a plain object without `isAfter`, so the stored expiry is unusable and the token is never valid until a grant is stored;
- the stations-type error message keeps the source's spelling ("Sations Type Sholud be ...").

## Model

| member | source | states |
|---|---|---|
| `Ecobici.Client.constructor` | lib/ecobici.js:7-20 | the new client's options are the defaults merged with the caller's options |
| `Ecobici.Merge` | lib/ecobici.js:10-19 | the merged options never hold a usable expiry, and merging no options changes nothing |
| `Ecobici.ConstructedTokenNeverValid` | lib/ecobici.js:10-25 | whatever options are given, a newly constructed client's token is not valid |
| `Ecobici.DefaultOptions` | lib/ecobici.js:10-19 | without options, the three URLs are the provider's and every credential field is empty, with no expiry |
| `Ecobici.SuppliedOptionsWin` | lib/ecobici.js:10-19 | each supplied string option replaces exactly its own field and every field left out keeps its default; a supplied expiry is stored unusable |
| `Ecobici.IsAccessTokenValid` | lib/ecobici.js:22-29 | valid iff the token is non-empty and an expiry is present and strictly after `now` (a missing expiry is the catch branch) |
| `Ecobici.ValidityIsMonotone` | lib/ecobici.js:25 | a token valid at some instant was valid at every earlier instant |
| `Ecobici.TokenExpiresAtExpiry` | lib/ecobici.js:25 | at or after its expiry instant a token is not valid |
| `Ecobici.EndpointTypeOf` | lib/ecobici.js:34-39 | exactly the four table keys are known, and each maps to the endpoint of that name |
| `Ecobici.EndpointNamesRoundTrip` | lib/ecobici.js:34-39 | the table is a bijection between its keys and the endpoint types, in both directions |
| `Ecobici.BaseUrl` | lib/ecobici.js:34-39 | `info` and `status` map to their own URLs and both token types to the token URL |
| `Ecobici.EndpointRequest` | lib/ecobici.js:41-70 | every request is a GET of the table's URL and carries either a token query (oauth, refresh) or a header (info, status), never both |
| `Ecobici.BuildEndpointOptions` | lib/ecobici.js:31-71 | fails with "Endpoint Type Not Valid" iff the type is absent or not one of the four keys; otherwise builds the request for that type's URL |
| `Ecobici.DataEndpointRequest` | lib/ecobici.js:65-69 | `info` and `status` are a GET of their own URL with header `Authorization: Bearer <accessToken>` and no query |
| `Ecobici.TokenEndpointRequest` | lib/ecobici.js:52-64 | `oauth` and `refresh` are a GET of the token URL, with no header; the query holds the client id and secret plus the client-credentials grant, or the refresh-token grant and the refresh token |
| `Ecobici.EndpointErrorMessage` | lib/ecobici.js:32-49 | both endpoint-type errors have a message that starts with "Endpoint Type Not Valid" |
| `Ecobici.Message` | lib/ecobici.js:32-113 | every error the client builds itself has a message (a transport error keeps its own); a provider body and an unreadable grant have none; the engine's TypeError on a null token body is reported without its message |
| `Ecobici.HttpErrorMessageCarriesStatus` | lib/ecobici.js:87 | the "HTTP Error" message determines the status code and status text it was built from |
| `Decimal.NatToString` | lib/ecobici.js:83-87 | a status code is rendered as a non-empty string of decimal digits without leading zeros |
| `Decimal.NatStringRoundTrip` | lib/ecobici.js:83-87 | reading the rendered digits back gives the status code |
| `Decimal.NatToStringInjective` | lib/ecobici.js:83-87 | distinct status codes are rendered differently |
| `Json.HasOwnError` | lib/ecobici.js:87 | `hasOwnProperty('error')` throws exactly on `null` and on objects with their own `hasOwnProperty` key, and is true exactly for other objects with an `error` key |
| `Ecobici.ParseBody` | lib/ecobici.js:81 | an empty body reads as `{}`; any other body is whatever `JSON.parse` gives |
| `Ecobici.FirstSettlement` | lib/ecobici.js:76-92 | a promise is unsettled iff nothing was called; otherwise its first call decides the outcome |
| `Ecobici.FirstSettlementOfConcat` | lib/ecobici.js:86-91 | calls made after a settlement never change the outcome |
| `Ecobici.ResponseCallback` | lib/ecobici.js:77-92 | the callback makes at most two calls, and none exactly when a non-200 body makes `hasOwnProperty('error')` throw |
| `Ecobici.RequestOutcome` | lib/ecobici.js:77-91 | resolves iff the status is 200 and the body is usable, with that body; a transport error, an unparseable body, a provider `error` body and any other non-200 response reject with their own errors; a non-200 body on which `hasOwnProperty` throws never settles |
| `Ecobici.RejectionWinsOverLaterResolve` | lib/ecobici.js:86-91 | for a non-200 response the callback resolves after rejecting, and the outcome is still the rejection |
| `Ecobici.Request` | lib/ecobici.js:73-75 | an unknown type throws before any request; otherwise the outcome is the response's classification |
| `Ecobici.ReadGrant` | lib/ecobici.js:102-104 | a null token body throws; a grant is read iff the body has a string `access_token`, a string `refresh_token` and a number `expires_in`, and the grant holds exactly those values |
| `Ecobici.TokenMode` | lib/ecobici.js:100 | the update asks for a first grant iff no access token is held, and refreshes otherwise |
| `Ecobici.ApplyGrant` | lib/ecobici.js:102-104 | a grant sets the access token, the refresh token and the expiry `receivedAt + expires_in`, and keeps the configuration |
| `Ecobici.GrantValidity` | lib/ecobici.js:102-104 | a stored grant changes only the credential fields and is valid exactly until `receivedAt + expires_in` |
| `Ecobici.TokenHandler` | lib/ecobici.js:101-108 | the handlers call nothing iff the token request never settles, and change the options only when a readable grant arrives |
| `Ecobici.TokenUpdate` | lib/ecobici.js:96-110 | the update keeps the configuration, sends its token request to the token URL without a header, rejects or stays unsettled only without a valid token, and changes the options only on a resolved token request |
| `Ecobici.UpdateGrantType` | lib/ecobici.js:100 | the token request targets the token URL with `grant_type=client_credentials` iff the token is empty, and `refresh_token` otherwise |
| `Ecobici.UpdateStoresGrant` | lib/ecobici.js:101-105 | a readable grant resolves the update, and overwrites the expiry (`receivedAt + expires_in`), the access token and the refresh token, and nothing else |
| `Ecobici.UpdateFailureKeepsOptions` | lib/ecobici.js:106-108 | a failed token request leaves the options unchanged; without a valid token its error is the outcome, unchanged |
| `Ecobici.ValidTokenStillRefreshes` | lib/ecobici.js:99-105 | with a valid token the update resolves regardless of the refresh result, yet still sends the refresh request and stores what it returns |
| `Ecobici.InvalidTokenWaitsForGrant` | lib/ecobici.js:99-108 | without a valid token the update settles exactly as the token handlers do |
| `Ecobici.Client.HandleTokenResponse` | lib/ecobici.js:101-108 | writes the three credential fields in place as `TokenHandler` says and returns its calls |
| `Ecobici.Client.UpdateAccessTokenData` | lib/ecobici.js:96-110 | outcome, token request and new options are those of `TokenUpdate` on the old options |
| `Ecobici.GetStationsSpec` | lib/ecobici.js:112-125 | `getStations` throws iff it sends nothing; it sends at most two requests, the token request first, and when it sends the data request the outcome is that response's |
| `Ecobici.StationsTypeChecked` | lib/ecobici.js:113 | `getStations` throws iff the type is not `info` or `status`, and then sends no request and changes nothing |
| `Ecobici.StationsUseNewGrant` | lib/ecobici.js:116-119 | without a valid token, a fetched grant is stored and the data request carries the new token; the outcome is the data response's |
| `Ecobici.StationsPassTokenErrors` | lib/ecobici.js:116-124 | a rejected token request is the caller's rejection, unchanged; only the token request is sent and nothing changes |
| `Ecobici.StationsWithValidToken` | lib/ecobici.js:99-119 | with a valid token, the refresh request goes first, the data request carries the current token and decides the outcome, and the refresh grant is still stored |
| `Ecobici.StationsKeepConfiguration` | lib/ecobici.js:112-125 | one `getStations` call never changes the client id, secret or URLs |
| `Ecobici.RunKeepsConfiguration` | lib/ecobici.js:96-125 | across any sequence of `getStations` calls, the client id, secret and URLs stay those of construction |
| `Ecobici.Client.GetStations` | lib/ecobici.js:112-125 | result, requests sent in order, and new options are those of `GetStationsSpec` on the old options |
| `Ecobici.BuilderExamples` | test/ecobici.js:99-170 | the builder's examples: a missing or unknown type fails, and `status`, `info`, `oauth` and `refresh` build the expected requests |
| `Ecobici.ResponseExamples` | test/ecobici.js:180-237 | the response examples: 200 resolves, 400 with `error` rejects with the body, 500 rejects with an HTTP error, bad JSON rejects, an empty body is `{}`, a network error keeps its message |

## Left out

- The HTTP transport (the `request` package) is left out. Each response is an input value.
- `JSON.parse` is left out. Its result is an input value. JSON numbers are integers, so fractional `expires_in` values are not modelled.
- `moment` is left out. Instants are integer seconds passed in. Millisecond precision is not modelled.
- Promise scheduling is left out. Each call is a sequential step whose outcome is its first settlement. Overlapping `getStations` calls on one client are not modelled.
- Uncaught exceptions are not modelled as values. When the response callback throws (a non-200 body on which `hasOwnProperty` throws), the model only records that the promise never settles.
- `deep-extend`'s nested merge is modelled per field. The seven string options are copied as given. A supplied expiry is copied into a plain object, so it is stored as unusable. Keys outside the eight known options are not modelled.
- Ecobici.Merge: it merges only over options whose expiry is unusable, as the constructor's defaults (`''`) are. Merging over options that already hold a `moment` is not modelled, because the source never does it. The same requires is on Ecobici.SuppliedOptionsWin.
- Non-string values (`null`, `undefined`, numbers, objects) given for the known option keys are left out. Each supplied option is a string, except `expireTimestamp`, whose presence alone is recorded.
- Ecobici.Message: the message of the TypeError the JavaScript engine raises when a null token body is read is engine-specific and is not modelled. Message reports None for `NullTokenResponse`.
- Non-string endpoint or stations types are left out. Only strings and an absent value (`undefined`) are modelled.
- The auto-construction path (calling `Ecobici(options)` without `new`) is left out. It builds the same object.
- Ecobici.ReadGrant: a non-null token body that lacks a string `access_token`, a string `refresh_token` or a numeric `expires_in` is rejected with the model's own `UnreadableGrant` error and the options are left unchanged. The source instead stores `undefined` or the non-string value in the options and resolves.
- Ecobici.TokenHandler: for a non-null token body without the three typed fields it rejects with `UnreadableGrant` and keeps the options. The source writes `undefined` or the raw values at lines 102-104 and resolves. Modelling that would need options that hold arbitrary JavaScript values.
- Ecobici.UpdateFailureKeepsOptions: its requires also covers the unreadable non-null grant above. For that case, "options unchanged" describes the model and not the source.
- Ecobici.Client.HandleTokenResponse: it follows TokenHandler, so the same unreadable-grant gap applies to its writes.
- Ecobici.TokenUpdate: it follows TokenHandler, so the same unreadable-grant gap applies to its outcome and options.
- Ecobici.GetStationsSpec: it runs TokenUpdate, so the same unreadable-grant gap applies. A 200 token body `5` gives `Ok(Rejected(UnreadableGrant(JNumber(5))))`, where the source stores `undefined` and sends `Bearer undefined`.
- Ecobici.Client.UpdateAccessTokenData: it follows TokenUpdate, so the same unreadable-grant gap applies to its writes.
- Ecobici.Client.GetStations: it follows GetStationsSpec, so the same unreadable-grant gap applies to its writes and result.

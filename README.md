# RegistryClient decision core

This project models the core of `RegistryClient`, the client that crepecake (the image
builder that became Jib) uses to talk to a container-image registry over the registry HTTP
API v2. The client holds a read-only server, image name and optional credential. It
dispatches one endpoint call at a time. Each call picks the URL it was given or else the
default route `http://<server>/v2/<image><suffix>`. It attaches the credential only when
there is one, and sends the provider's method and request. A success goes to the provider's
response handler. An HTTP failure is classified by status:

- 400, 404 and 405 give a registry error with one reason per parsed error entry;
- 401 and 403 give an unauthorized error;
- 307 calls again at the Location with the same provider;
- any other status is passed on unchanged.

A connection that yields no HTTP response gives a no-response error. On top of this
dispatch sit the public operations: pull and push a manifest, pull a blob, and push a blob
in three phases (initiate, write, commit).

The model has two layers:

- **Specification functions** (`Endpoint.Dispatch`, `BlobUpload.PushBlobExchange`). They
  compute a call's result, the requests it sends and the answers it leaves unread, as a
  function of the client's fields, the endpoint provider and the transport's scripted
  answers. The lemmas about them state the route shape, the failure classification, how
  redirects are followed and the exact request sequence of a blob push.
- **Imperative client** (`Client.RegistryClient`). A class with the three read-only fields.
  Its recursive `CallRegistryEndpoint` opens a connection per attempt, sends, releases the
  connection and classifies the answer. In the Java code a successful response is handed
  to the handler while the connection is still open. The model releases the connection
  first; no outcome it represents can tell the two orders apart. `PushBlob` runs the
  phases in sequence and reassigns the location between them. Each method is proved to send exactly the requests, and return
  exactly the result, that the specification functions give. Each method also opens exactly
  one connection per request it sends and leaves none open.

The transport is `Transport.ScriptedTransport`: it answers each request with the next
outcome of a finite script and logs what was sent. Once the script is used up it answers
with no HTTP response, as a stub server with nothing left to say drops the connection. This
makes every redirect chain finite without a hop limit: the source has none, and the model
adds none.

Endpoint providers (manifest puller and pusher, blob puller, blob pusher's initializer,
writer and committer) are values of `RegistryTypes.Provider`. Each holds a route suffix, a
method, what `buildRequest` adds, a response handler and an action-description producer.
The code they come from is not part of this model.

## Model

| member | source | states |
|---|---|---|
| `ApiRoutes.ApiRouteShape` | crepecake/src/main/java/com/google/cloud/tools/crepecake/registry/RegistryClient.java:111-114 | The default route is exactly `http://`, the server, `/v2/`, the image name and the route suffix, in that order and with nothing else. |
| `ApiRoutes.RouteSuffixOfApiRoute` | crepecake/src/main/java/com/google/cloud/tools/crepecake/registry/RegistryClient.java:111-114 | Every default route lies under `http://<server>/v2/<image>`, and the suffix can be read back from it. |
| `ApiRoutes.ApiRouteOfRouteSuffix` | crepecake/src/main/java/com/google/cloud/tools/crepecake/registry/RegistryClient.java:111-114 | Every URL under the route base is the default route of the suffix read from it. |
| `ApiRoutes.ApiRouteInjective` | crepecake/src/main/java/com/google/cloud/tools/crepecake/registry/RegistryClient.java:111-114 | Two providers get the same default route only when their suffixes are equal. |
| `Endpoint.Settle` | crepecake/src/main/java/com/google/cloud/tools/crepecake/registry/RegistryClient.java:139-171 | Classification of a final answer, each case an if-and-only-if. Success exactly when it is a reply the handler accepts. Registry error exactly on 400/404/405 with a parsed body, carrying the action description, every entry in order and the failure. Unauthorized exactly on 401/403, whatever the body. Passed on unchanged exactly on any status other than those and 307. Unreadable-body error, carrying the failure, exactly on 400/404/405 with a body that does not parse. No-response error exactly when no HTTP response came. A 307 without a Location gives a malformed-URL error. Any other I/O failure passes through with its detail. A handler that fails gives a handler error with its detail. |
| `Endpoint.Dispatch` | crepecake/src/main/java/com/google/cloud/tools/crepecake/registry/RegistryClient.java:123-139 | A call sends at least one request and consumes exactly one answer per request. The first request goes to the given URL verbatim, or to the default route when none is given. It uses the provider's method and carries the credential exactly when the client has one. |
| `Endpoint.DispatchSettles` | crepecake/src/main/java/com/google/cloud/tools/crepecake/registry/RegistryClient.java:141-171 | A call ends on the answer to its last request. That answer is not a followed redirect, and the call's result is that answer's classification. |
| `Endpoint.EveryAttemptAlike` | crepecake/src/main/java/com/google/cloud/tools/crepecake/registry/RegistryClient.java:131-164 | Every attempt of a call, redirected or not, sends the same method and the same request with the same credential. Every attempt but the last got a 307 with a Location, and the next attempt goes to that Location. |
| `Endpoint.RedirectFollowed` | crepecake/src/main/java/com/google/cloud/tools/crepecake/registry/RegistryClient.java:162-164 | After a 307 with a Location, the call sends its first request and then exactly what a call with the same provider at the Location sends. Its result and its unread answers are that call's. |
| `Endpoint.SettledAtOnce` | crepecake/src/main/java/com/google/cloud/tools/crepecake/registry/RegistryClient.java:136-171 | A call whose first answer is not a followed redirect sends one request and returns that answer's classification. |
| `Endpoint.RedirectChainTransparent` | crepecake/src/main/java/com/google/cloud/tools/crepecake/registry/RegistryClient.java:162-164 | k redirects in a row and then a final answer: the call sends k + 1 requests and returns the final answer's classification. |
| `Endpoint.IgnoresLaterAnswers` | crepecake/src/main/java/com/google/cloud/tools/crepecake/registry/RegistryClient.java:123-173 | A call reads only the answers to its own requests; answers scripted after them change neither its result nor its requests. |
| `Endpoint.RepeatedCallAgrees` | crepecake/src/main/java/com/google/cloud/tools/crepecake/registry/RegistryClient.java:55-59 | Calling the same endpoint twice against a server that answers both calls alike gives equal results and equal requests: the client keeps no state between calls. |
| `Endpoint.RedirectThenReply` | crepecake/src/main/java/com/google/cloud/tools/crepecake/registry/RegistryClient.java:162-164 | A 307 to U2 and then a reply: exactly two requests, the second to U2 with the first one's method and request. The result is the handler's reading of the reply. |
| `Endpoint.NotFoundCarriesReason` | crepecake/src/main/java/com/google/cloud/tools/crepecake/registry/RegistryClient.java:143-156 | A 404 whose body lists one error entry fails with a registry error carrying the action description and exactly that one reason. |
| `BlobUpload.WriteAndCommit` | crepecake/src/main/java/com/google/cloud/tools/crepecake/registry/RegistryClient.java:100-108 | The write goes first, to the initiate Location. A failing write ends the phases with its error, and a write without a Location with a malformed-URL error; either way only the write's requests are sent and no commit. Otherwise the commit's requests follow the write's, the first of them to the URL derived from the write's Location, and a failing commit's error is returned. The phases return false exactly when the write returns a Location and the commit succeeds, and they never return true. |
| `BlobUpload.PushBlobExchange` | crepecake/src/main/java/com/google/cloud/tools/crepecake/registry/RegistryClient.java:91-109 | A push first sends the initializer's request to its default route. It returns true exactly when initiate returns no Location, and then it sends nothing but initiate's requests. A failing initiate ends the push with that error and nothing else sent. |
| `BlobUpload.PushBlobUploaded` | crepecake/src/main/java/com/google/cloud/tools/crepecake/registry/RegistryClient.java:100-108 | After initiate returns a Location, the push sends initiate's requests and then the write's and commit's, the first of which goes to that Location. Its result is that of the write and commit phases, so a write or commit error reaches the caller unchanged. The push returns false exactly when write and commit succeed. |
| `Client.BuildRegistryError` | crepecake/src/main/java/com/google/cloud/tools/crepecake/registry/RegistryClient.java:149-156 | The registry error carries the action description and the failure, and one reason per parsed entry, in the body's order. |
| `Client.RegistryClient.constructor` | crepecake/src/main/java/com/google/cloud/tools/crepecake/registry/RegistryClient.java:45-53 | The client keeps the credential, server and image name it was given. They are constants and never change afterwards. |
| `Client.RegistryClient.CallRegistryEndpoint` | crepecake/src/main/java/com/google/cloud/tools/crepecake/registry/RegistryClient.java:123-173 | The imperative dispatch returns Dispatch's result, appends exactly Dispatch's requests to the log and consumes exactly their answers. It opens exactly one connection per request it sends and leaves none open. |
| `Client.RegistryClient.PullManifest` | crepecake/src/main/java/com/google/cloud/tools/crepecake/registry/RegistryClient.java:55-59 | Pulling a manifest is one dispatch of the puller at its default route. |
| `Client.RegistryClient.PushManifest` | crepecake/src/main/java/com/google/cloud/tools/crepecake/registry/RegistryClient.java:61-66 | Pushing a manifest is one dispatch of the pusher at its default route. |
| `Client.RegistryClient.PullBlob` | crepecake/src/main/java/com/google/cloud/tools/crepecake/registry/RegistryClient.java:68-80 | Pulling a blob is one dispatch of the puller at its default route; the result is what its handler returns. |
| `Client.RegistryClient.FinishUpload` | crepecake/src/main/java/com/google/cloud/tools/crepecake/registry/RegistryClient.java:100-108 | The write and commit phases, run in sequence, send exactly WriteAndCommit's requests and return its result. They open one connection per request and leave none open. |
| `Client.RegistryClient.PushBlob` | crepecake/src/main/java/com/google/cloud/tools/crepecake/registry/RegistryClient.java:91-109 | The blob push, run in sequence, sends exactly PushBlobExchange's requests and returns its result. It opens one connection per request and leaves none open. |
| `Transport.ScriptedTransport.Open` | crepecake/src/main/java/com/google/cloud/tools/crepecake/registry/RegistryClient.java:130 | A connection is opened to the call's URL, and only when no connection is open. The count of opened connections goes up by one. |
| `Transport.ScriptedTransport.Send` | crepecake/src/main/java/com/google/cloud/tools/crepecake/registry/RegistryClient.java:136-137 | A send records one request to the open connection's URL, with the given method and request, and takes the next scripted answer. |
| `Transport.ScriptedTransport.Close` | crepecake/src/main/java/com/google/cloud/tools/crepecake/registry/RegistryClient.java:130 | Closing releases the open connection and changes nothing else. |

## Left out

- The HTTP connection, the request builder and sending are foreign I/O. They are replaced by a finite script of outcomes. Once the script is used up, every further request gets no HTTP response; this convention belongs to the model, not to the client.
- An endless chain of 307 redirects cannot be written as a finite script. The client recurses without bound there, until the Java stack overflows. That behaviour is not modelled. No hop limit is added either: the code has none, and a limit would change what the client does.
- Reading the JSON error body is not modelled. The body is given either already parsed into its (code, message) entries, or as a parse failure that surfaces as its own error.
- `RegistryErrorExceptionBuilder` is not part of this model. Its `addReason` is modelled as keeping each error entry as one reason; message formatting is not modelled.
- The internals of `ManifestPuller`, `ManifestPusher`, `BlobPuller` and `BlobPusher` are not part of this model. Their route suffixes, response parsing, action descriptions and commit-URL derivation are opaque values of a provider. The mount query parameter is not modelled either.
- `buildRequest` is modelled as adding an opaque payload; it is assumed not to change the authorization header.
- `java.net.URL` parsing is not modelled; URLs are strings. `new URL(null)` is the one exception. It happens for a 307 without a Location, or a write that returns no Location, and is modelled as a malformed-URL error.
- Exceptions thrown inside the response handler are modelled only as a handler failure. A `NoHttpResponseException` or `HttpResponseException` raised while a handler streams a body would be classified by the catch clauses; that is not modelled.
- Any other I/O failure of the connection is passed through as an I/O error carrying an opaque detail.
- Blob content streaming to and from files (`Path`, `Blob`) is not modelled, and neither is digest computation or verification.
- Concurrency is not modelled. Each operation is a blocking round trip on a single thread.

# InstanceSync — a verified model of the AEM package-manager client

This project models `InstanceSync`, the client the Gradle AEM plugin uses to talk to
an AEM instance. It covers uploading, installing, activating, deleting and
uninstalling CRX packages through the package manager's HTTP service. It also covers
the OSGi bundle and component state queries. The HTTP transport is abstract. A
request is a value. The instance's reply to the n-th request of a client is given
by an oracle `server: (nat, Request) -> Exchange`. An `Exchange` is either a response
(status code, status line, body) or the exception the HTTP client threw.

Modules, one per layer of the client:

- `Common` (common.dfy): `Option`, `Result`, the exceptions (`DeployException` with
  its cause, foreign exceptions, Kotlin's uninitialised `lateinit` error), and the
  local package file.
- `Transport` (transport.dfy): URL normalisation, multipart and url-encoded bodies
  built from a parameter map, and `fetch`'s classification of a reply.
- `Lifecycle` (lifecycle.dfy): the typed responses, the configuration, the install
  and delete/uninstall status tables, and what one attempt of each operation
  yields. It also holds the retry loop shared by upload and install, the
  listing-cache rule, and the state queries that degrade to "unknown".
- `Sync` (sync.dfy): the classes `Instance`, whose `packages` listing is cached in
  place, and `InstanceSync`. Each `InstanceSync` method sends its requests to the
  oracle and records them in `sent`. It counts released connections in `released`
  and records retry countdowns in `countdowns`. Its `ensures` ties the new state
  and the result to the `Lifecycle` functions.

Behaviour as the code has it:

- Every upload failure is re-thrown as `DeployException("Cannot upload package")`.
  This includes an unsuccessful acknowledgement. The `FileNotFoundException` branch
  is never reached, because `execute` already wraps every exception. A missing
  package file is not reported locally. Its part is left out of the multipart body
  and the request is sent anyway.
- `normalizeUrl` encodes the spaces of the whole URL, not only of its path.
- Delete and uninstall accept `SUCCESS_WITH_ERRORS` when there are no error lines.
  Install rejects it.
- `determineComponentState`'s "unknown" keeps no cause. `determineBundleState`'s
  keeps the exception.
- A negative retry count makes no attempt. The loop then throws Kotlin's
  `UninitializedPropertyAccessException`, because its `lateinit var exception` is
  read unset.
- `HttpGet(...)` and `HttpPost(...)` parse their URL with `URI.create` before `fetch`
  runs, outside its try/finally. A URL that is not a valid URI once its spaces are
  encoded therefore throws `IllegalArgumentException` as it is, with no request
  sent. An example is a package path containing `[`. Install, delete, uninstall,
  upload and activation wrap that exception like any other failure. Package lookup
  and the state queries see it raw.
- Activation is not wrapped uniformly. An unsuccessful acknowledgement is thrown with
  the server's own message. A failed request is thrown as "Cannot activate package".
  An unparsable reply is thrown as "Package activation failed".

## Model

| member | source | states |
|---|---|---|
| `Transport.NormalizeUrl` | src/main/kotlin/com/cognifide/gradle/aem/instance/InstanceSync.kt:95-97 | the normalised URL contains no space and is at least as long as the input |
| `Transport.NormalizeUrlRoundTrip` | src/main/kotlin/com/cognifide/gradle/aem/instance/InstanceSync.kt:95-97 | only spaces change: on a URL without `%`, decoding each `%20` back to a space gives exactly the original URL |
| `Transport.NormalizeUrlWithoutSpaces` | src/main/kotlin/com/cognifide/gradle/aem/instance/InstanceSync.kt:95-97 | a URL with no space is sent unchanged |
| `Transport.NormalizeUrlConcat` | src/main/kotlin/com/cognifide/gradle/aem/instance/InstanceSync.kt:75-97 | normalisation distributes over concatenation, so the base URL, service suffix and package path are each encoded on their own |
| `Transport.BuildMultipart` | src/main/kotlin/com/cognifide/gradle/aem/instance/InstanceSync.kt:163-179 | the builder loop produces exactly the parts of `MultipartParts`, in the map's order |
| `Transport.MultipartPartsMembership` | src/main/kotlin/com/cognifide/gradle/aem/instance/InstanceSync.kt:163-179 | a part is in the body if and only if some map entry contributes it |
| `Transport.MultipartFileRule` | src/main/kotlin/com/cognifide/gradle/aem/instance/InstanceSync.kt:166-169 | a file is sent as a binary part under its key if and only if the map holds it and it exists |
| `Transport.MultipartTextRule` | src/main/kotlin/com/cognifide/gradle/aem/instance/InstanceSync.kt:170-175 | a text part is sent if and only if its text is not blank and a non-file entry with that key stringifies to exactly that text |
| `Transport.BuildUrlencoded` | src/main/kotlin/com/cognifide/gradle/aem/instance/InstanceSync.kt:157-161 | the url-encoded body has one pair per entry, unconditionally, with the key and the value's `toString()`, in order |
| `Transport.FetchResult` | src/main/kotlin/com/cognifide/gradle/aem/instance/InstanceSync.kt:99-127 | the body is returned if and only if the status is 200; otherwise a DeployException "Failed instance request: ..." wraps the transport fault or the "Unexpected instance response" error |
| `Sync.InstanceSync.Fetch` | src/main/kotlin/com/cognifide/gradle/aem/instance/InstanceSync.kt:112-127 | one request is appended to the log, its connection is released on every path (`released == \|sent\|` is kept), and the result is `FetchResult` of the oracle's reply |
| `Sync.InstanceSync.Get` | src/main/kotlin/com/cognifide/gradle/aem/instance/InstanceSync.kt:75-77 | a GET of the normalised URL with the client's settings; a URL that URI.create rejects throws its exception unwrapped and sends nothing, otherwise exactly one request is sent and judged by fetch |
| `Sync.InstanceSync.PostMultipart` | src/main/kotlin/com/cognifide/gradle/aem/instance/InstanceSync.kt:83-89 | a POST of the normalised URL with the filtered multipart body; a URL that URI.create rejects throws unwrapped and sends nothing, otherwise exactly one request is sent and judged by fetch |
| `Sync.InstanceSync.PostUrlencoded` | src/main/kotlin/com/cognifide/gradle/aem/instance/InstanceSync.kt:79-89 | a POST of the normalised URL with every entry url-encoded; a URL that URI.create rejects throws unwrapped and sends nothing, otherwise exactly one request is sent and judged by fetch |
| `Sync.InstanceSync.Send` | src/main/kotlin/com/cognifide/gradle/aem/instance/InstanceSync.kt:86-89 | building the HttpGet/HttpPost object runs URI.create outside fetch's try/finally: a rejected URL throws its exception as it is, sends nothing and opens no connection; an accepted one is fetched |
| `Sync.InstanceSync.constructor` | src/main/kotlin/com/cognifide/gradle/aem/instance/InstanceSync.kt:49-73 | the service URLs are built from the instance URL; credentials, timeout and TLS trust come from the instance and the configuration; transport retries start enabled |
| `Lifecycle.ListingOutcome` | src/main/kotlin/com/cognifide/gradle/aem/instance/InstanceSync.kt:218-225 | a failed listing request propagates unchanged; an unparsable listing is thrown as "Cannot ask AEM for uploaded packages!"; otherwise the parsed listing |
| `Sync.InstanceSync.ResolveRemotePackage` | src/main/kotlin/com/cognifide/gradle/aem/instance/InstanceSync.kt:215-228 | the listing is requested if and only if none is cached or a refresh is asked for; on success the cache holds it and the resolver runs on it; on failure the cache is unchanged and the error is thrown |
| `Sync.InstanceSync.DetermineRemotePackage` | src/main/kotlin/com/cognifide/gradle/aem/instance/InstanceSync.kt:181-185 | always refreshes the listing and resolves the build's own package identity |
| `Sync.InstanceSync.DetermineRemotePackageOf` | src/main/kotlin/com/cognifide/gradle/aem/instance/InstanceSync.kt:198-213 | a file without a vault descriptor is rejected with no request; otherwise its (group, name, version) is resolved under the cache rule |
| `Sync.InstanceSync.DetermineRemotePackagePath` | src/main/kotlin/com/cognifide/gradle/aem/instance/InstanceSync.kt:187-196 | a non-blank configured remote path is returned with no request and no cache change; otherwise the listing is refreshed, the cache holds it when it parses and is unchanged when not, and the result is the resolved package's path, with a missing package thrown as "Package is not uploaded on AEM instance." |
| `Lifecycle.UploadBody` | src/main/kotlin/com/cognifide/gradle/aem/instance/InstanceSync.kt:268-271 | the upload body holds the package part only if the file exists and always holds `force`; a snapshot file is sent with force "true" even when forcing is not configured |
| `Lifecycle.UploadOutcome` | src/main/kotlin/com/cognifide/gradle/aem/instance/InstanceSync.kt:262-287 | one upload attempt succeeds if and only if the reply is 200 and parses to a successful acknowledgement; every failure is "Cannot upload package" wrapping its cause |
| `Sync.InstanceSync.UploadPackageOnce` | src/main/kotlin/com/cognifide/gradle/aem/instance/InstanceSync.kt:262-287 | sends exactly one upload request with the force rule applied, and returns `UploadOutcome` of its reply |
| `Lifecycle.Retry` | src/main/kotlin/com/cognifide/gradle/aem/instance/InstanceSync.kt:230-249 | with a negative retry count no attempt is made and the unset `lateinit` exception is thrown |
| `Lifecycle.RetryTakesFirstSuccess` | src/main/kotlin/com/cognifide/gradle/aem/instance/InstanceSync.kt:230-249 | the loop returns the first successful attempt k after k countdowns; if all retryTimes + 1 attempts fail, it makes all of them, runs exactly retryTimes countdowns and throws the last exception |
| `Lifecycle.RetryBounds` | src/main/kotlin/com/cognifide/gradle/aem/instance/InstanceSync.kt:289-307 | at most retryTimes + 1 attempts and one countdown fewer than attempts; the result is the last attempt's; it succeeds if and only if some attempt does |
| `Sync.InstanceSync.UploadPackage` | src/main/kotlin/com/cognifide/gradle/aem/instance/InstanceSync.kt:230-249 | repeats the same upload request exactly as `Retry` over the oracle's replies says, and appends one "Retrying upload (i/N)" countdown per failed attempt before the last |
| `Lifecycle.InstallRejection` | src/main/kotlin/com/cognifide/gradle/aem/instance/InstanceSync.kt:318-336 | install accepts a report if and only if its status is SUCCESS with no error lines; FAIL is "Installation incomplete!" and the rest "Installation completed with errors!" |
| `Lifecycle.InstallOutcome` | src/main/kotlin/com/cognifide/gradle/aem/instance/InstanceSync.kt:309-342 | one install attempt returns the report if and only if the reply is 200 and the report passes the install table; every failure is "Cannot install package." wrapping the cause |
| `Sync.InstanceSync.InstallPackageOnce` | src/main/kotlin/com/cognifide/gradle/aem/instance/InstanceSync.kt:309-342 | sends exactly one install request at the package's path with `recursive`, and returns `InstallOutcome` of its reply |
| `Sync.InstanceSync.InstallOfRejectedUrl` | src/main/kotlin/com/cognifide/gradle/aem/instance/InstanceSync.kt:309-342 | a package path that makes the install URL unacceptable to URI.create fails all retryTimes + 1 attempts whatever the server would answer, sends no request, and the loop throws "Cannot install package." wrapping the URI error |
| `Sync.InstanceSync.InstallPackage` | src/main/kotlin/com/cognifide/gradle/aem/instance/InstanceSync.kt:289-307 | repeats the install request exactly as `Retry` says, with "Retrying install" countdowns |
| `Lifecycle.RemovalRejection` | src/main/kotlin/com/cognifide/gradle/aem/instance/InstanceSync.kt:397-411 | delete and uninstall accept a report if and only if its status is not FAIL and it has no error lines, with the operation's own messages |
| `Lifecycle.InstallStricterThanRemoval` | src/main/kotlin/com/cognifide/gradle/aem/instance/InstanceSync.kt:318-336 | every report install accepts is accepted by delete and uninstall, and SUCCESS_WITH_ERRORS without error lines separates the two tables |
| `Lifecycle.RemovalOutcome` | src/main/kotlin/com/cognifide/gradle/aem/instance/InstanceSync.kt:388-416 | delete or uninstall returns normally if and only if the reply is 200 and the report passes the removal table; every failure is "Cannot delete package." or "Cannot uninstall package." wrapping the cause |
| `Sync.InstanceSync.RemovalOf` | src/main/kotlin/com/cognifide/gradle/aem/instance/InstanceSync.kt:427-441 | the status `when` shared by delete and uninstall computes `RemovalOutcome` |
| `Sync.InstanceSync.DeletePackage` | src/main/kotlin/com/cognifide/gradle/aem/instance/InstanceSync.kt:388-416 | one delete request, no retry, judged by `RemovalOutcome` |
| `Sync.InstanceSync.UninstallPackage` | src/main/kotlin/com/cognifide/gradle/aem/instance/InstanceSync.kt:418-446 | one uninstall request with `recursive`, no retry, judged by `RemovalOutcome` |
| `Lifecycle.ActivateOutcome` | src/main/kotlin/com/cognifide/gradle/aem/instance/InstanceSync.kt:359-386 | activation succeeds if and only if the reply is 200 and parses to a successful acknowledgement; the three failures are thrown as listed above |
| `Sync.InstanceSync.ActivatePackage` | src/main/kotlin/com/cognifide/gradle/aem/instance/InstanceSync.kt:359-386 | one replicate request, no retry, judged by `ActivateOutcome` |
| `Sync.InstanceSync.UploadThenInstall` | src/main/kotlin/com/cognifide/gradle/aem/instance/InstanceSync.kt:348-350 | `installPackage(uploadPackage(file).path)` sends the upload attempts `Retry` dictates and, only if one returned, the install attempts at the returned path, numbered after them; the result is that path or the first exception that escaped |
| `Sync.InstanceSync.DeployPackage` | src/main/kotlin/com/cognifide/gradle/aem/instance/InstanceSync.kt:348-350 | the requests, countdowns and outcome are those of `DeployTrace`: upload, then install at the uploaded path; a failed upload sends no install request and its error is thrown |
| `Sync.InstanceSync.DistributePackage` | src/main/kotlin/com/cognifide/gradle/aem/instance/InstanceSync.kt:352-357 | the requests, countdowns and outcome are those of `DistributeTrace`: deployPackage's, then one activation request at the uploaded path numbered after every earlier attempt; each failure stops the later steps and no request undoes an earlier one |
| `Lifecycle.BundleStateOf` | src/main/kotlin/com/cognifide/gradle/aem/instance/InstanceSync.kt:452-461 | the bundles are known if and only if the request and the parse both succeed; otherwise "unknown" carrying the exception that stopped it |
| `Sync.InstanceSync.DetermineBundleState` | src/main/kotlin/com/cognifide/gradle/aem/instance/InstanceSync.kt:452-461 | one GET of bundles.json; it always returns a state and never throws |
| `Lifecycle.ComponentStateOf` | src/main/kotlin/com/cognifide/gradle/aem/instance/InstanceSync.kt:463-472 | the components are known if and only if the request and the parse both succeed; otherwise "unknown" |
| `Sync.InstanceSync.DetermineComponentState` | src/main/kotlin/com/cognifide/gradle/aem/instance/InstanceSync.kt:463-472 | one GET of components.json; it always returns a state and never throws |

## Left out

- `createHttpClient` and `createSslConnectionSocketFactory` (Apache HttpClient construction, trust-all TLS, preemptive basic auth) are not modelled. These are foreign library calls. Each request records only the settings the client would be built with: credentials, timeout, TLS trust and automatic retries.
- `requestConfigurer` and `responseHandler` are caller-supplied hooks with no-op defaults. They are not modelled. An exception they throw would reach `execute` like any transport fault, and the model covers transport faults.
- `URI.create` is not modelled, because its code is not shown. It is given by the `uriError` collaborator, which gives the exception for a rejected URL.
- The response parsers (`ListResponse`, `UploadResponse`, `InstallResponse`, `DeleteResponse`, `UninstallResponse`, `BundleState`, `ComponentState`) are not modelled, because their code is not shown. The same holds for `ListResponse.resolvePackage` and `Patterns.wildcard`. They are given as the function-valued fields of `Collaborators`. A parser yields the value or the exception it throws.
- Reading the package's zip entry and XML descriptor in `determineRemotePackage(file)` (ZipUtil, Jsoup) is not modelled. The file's (group, name, version) triple, or its absence, is an input (`LocalFile.descriptor`).
- `ProgressCountdown` sleeping and all logging are not modelled. A countdown is recorded as its action, attempt number, retry count and delay, and no time passes.
- The connection settings (`basicUser`, `basicPassword`, `connectionTimeout`, `connectionUntrustedSsl`, `connectionRetries`) are `var`s that callers may reassign between calls. The model fixes them at construction, with the initial values the source gives them. No modelled operation assigns them.
- `Collection<Instance>.sync` is not modelled. Its purpose is parallel fan-out over instances.
- `buildPackage`, `reload` and `determineInstanceState` are not modelled. Each is one request or one constructor call with no decision logic of its own.
- The server is an oracle. Its reply depends on the request and its number, and server-side state is not modelled.
- `Transport.IsWhitespace` lists the code points for which Kotlin's `Char.isWhitespace()` holds on the JVM. It does not call the JDK's Unicode tables.
- The status line of a reply is a string given with the exchange. A null response body, which the source reads as "", does not arise, because bodies are strings.

/** The instance client as the object it is: an `Instance` whose package
    listing is cached in place, and an `InstanceSync` that issues requests to
    it. The server is an oracle: the reply to the n-th request this client
    sends. The client keeps the log of requests sent, the number of connections
    released and the countdowns run between retries. */
module Sync {
  import opened Common
  import opened Transport
  import opened Lifecycle

  const PackageManagerServiceSuffix := "/crx/packmgr/service"
  const PackageManagerListSuffix := "/crx/packmgr/list.jsp"

  /** What a composite operation does: the requests it sends, the countdowns
      it runs, and its result or the exception it throws. */
  datatype Trace<T> = Trace(requests: seq<Request>, waits: seq<Countdown>, result: Result<T>)

  /** A remote instance: its address and credentials, and the listing of its
      packages last read, which the client refreshes in place. */
  class Instance {
    const httpUrl: string
    const user: string
    const password: string
    var packages: Option<PackageList>

    constructor (httpUrl: string, user: string, password: string)
      ensures this.httpUrl == httpUrl && this.user == user && this.password == password
      ensures packages == None
    {
      this.httpUrl := httpUrl;
      this.user := user;
      this.password := password;
      packages := None;
    }
  }

  class InstanceSync {
    const instance: Instance
    const config: AemConfig
    const env: Collaborators
    /** The reply the server gives to the n-th request of this client. */
    const server: (nat, Request) -> Exchange

    const jsonTargetUrl: string
    const htmlTargetUrl: string
    const listPackagesUrl: string
    const bundlesUrl: string
    const componentsUrl: string

    /** The connection settings every request's client is built with, fixed
        once this client is constructed. */
    const basicUser: string
    const basicPassword: string
    const connectionTimeout: int
    const connectionUntrustedSsl: bool
    const connectionRetries: bool

    /** Every request sent, in order. */
    var sent: seq<Request>
    /** Connections released so far. */
    var released: nat
    /** Every countdown run between retries, in order. */
    var countdowns: seq<Countdown>

    /** Every connection opened has been released. */
    ghost predicate Valid()
      reads this`sent, this`released
    {
      released == |sent|
    }

    constructor (instance: Instance, config: AemConfig, env: Collaborators, server: (nat, Request) -> Exchange)
      ensures Valid() && sent == [] && countdowns == []
      ensures this.instance == instance && this.config == config && this.env == env && this.server == server
      ensures jsonTargetUrl == instance.httpUrl + PackageManagerServiceSuffix + "/.json"
      ensures htmlTargetUrl == instance.httpUrl + PackageManagerServiceSuffix + "/.html"
      ensures listPackagesUrl == instance.httpUrl + PackageManagerListSuffix
      ensures bundlesUrl == instance.httpUrl + "/system/console/bundles.json"
      ensures componentsUrl == instance.httpUrl + "/system/console/components.json"
      ensures Settings() == ClientSettings(instance.user, instance.password,
                                           config.instanceConnectionTimeout, config.instanceConnectionUntrustedSsl, true)
    {
      this.instance := instance;
      this.config := config;
      this.env := env;
      this.server := server;
      jsonTargetUrl := instance.httpUrl + PackageManagerServiceSuffix + "/.json";
      htmlTargetUrl := instance.httpUrl + PackageManagerServiceSuffix + "/.html";
      listPackagesUrl := instance.httpUrl + PackageManagerListSuffix;
      bundlesUrl := instance.httpUrl + "/system/console/bundles.json";
      componentsUrl := instance.httpUrl + "/system/console/components.json";
      basicUser := instance.user;
      basicPassword := instance.password;
      connectionTimeout := config.instanceConnectionTimeout;
      connectionUntrustedSsl := config.instanceConnectionUntrustedSsl;
      connectionRetries := true;
      sent := [];
      released := 0;
      countdowns := [];
    }

    /** The settings createHttpClient builds each request's client with. */
    function Settings(): ClientSettings
    {
      ClientSettings(basicUser, basicPassword, connectionTimeout, connectionUntrustedSsl, connectionRetries)
    }

    // ------------------------------------------------------------ transport

    /** fetch/execute: sends the request, releases its connection whatever
        happens, and returns the body of a 200 reply or throws. */
    method Fetch(request: Request) returns (r: Result<string>)
      requires Valid()
      modifies this`sent, this`released
      ensures Valid() && sent == old(sent) + [request]
      ensures r == FetchResult(server(|old(sent)|, request))
    {
      var exchange := server(|sent|, request);
      sent := sent + [request];
      r := FetchResult(exchange);
      released := released + 1;  // finally { method.releaseConnection() }
    }

    /** What the `count` sends of `request` put on the wire: nothing when its
        URL is rejected, since the request object is never built. */
    function Sends(request: Request, count: nat): (wire: seq<Request>)
      ensures env.uriError(request.url).None? ==> |wire| == count
      ensures env.uriError(request.url).Some? ==> wire == []
    {
      if env.uriError(request.url).None? then Repeat(request, count) else []
    }

    lemma SendsSnoc(prefix: seq<Request>, request: Request, count: nat)
      ensures prefix + Sends(request, count) + Sends(request, 1) == prefix + Sends(request, count + 1)
    {
      if env.uriError(request.url).None? {
        assert Repeat(request, 1) == [request];
        RepeatSnoc(prefix, request, count);
      }
    }

    /** What get or post yields when its request would be the n-th sent: the
        exception URI.create throws on a rejected URL, unwrapped and before
        any request; otherwise what fetch makes of the server's reply. */
    function Reply(n: nat, request: Request): (r: Result<string>)
      ensures env.uriError(request.url).Some? ==> r == Err(env.uriError(request.url).value)
      ensures env.uriError(request.url).None? ==> r == FetchResult(server(n, request))
    {
      match env.uriError(request.url)
      case Some(rejected) => Err(rejected)
      case None => FetchResult(server(n, request))
    }

    /** Once URI.create has rejected a request, its number no longer matters. */
    lemma ReplyAt(n: nat, m: nat, request: Request)
      requires env.uriError(request.url).Some? || n == m
      ensures Reply(n, request) == Reply(m, request)
    {
    }

    /** get: HttpGet(normalizeUrl(url)), then fetch. */
    method Get(url: string) returns (r: Result<string>)
      requires Valid()
      modifies this`sent, this`released
      ensures Valid() && sent == old(sent) + Sends(GetRequest(url, Settings()), 1)
      ensures r == Reply(|old(sent)|, GetRequest(url, Settings()))
    {
      var request := Request(HttpGet, NormalizeUrl(url), NoBody, Settings());
      r := Send(request);
    }

    /** The request object's construction (URI.create on its URL) followed by
        fetch: a rejected URL throws before anything is sent. */
    method Send(request: Request) returns (r: Result<string>)
      requires Valid()
      modifies this`sent, this`released
      ensures Valid() && sent == old(sent) + Sends(request, 1)
      ensures r == Reply(|old(sent)|, request)
    {
      var rejected := env.uriError(request.url);
      if rejected.Some? {
        return Err(rejected.value);
      }
      assert Repeat(request, 1) == [request];
      r := Fetch(request);
    }

    method PostMultipart(url: string, params: Params) returns (r: Result<string>)
      requires Valid()
      modifies this`sent, this`released
      ensures Valid() && sent == old(sent) + Sends(MultipartRequest(url, params, Settings()), 1)
      ensures r == Reply(|old(sent)|, MultipartRequest(url, params, Settings()))
    {
      var parts := BuildMultipart(params);
      r := Send(Request(HttpPost, NormalizeUrl(url), Multipart(parts), Settings()));
    }

    method PostUrlencoded(url: string, params: Params) returns (r: Result<string>)
      requires Valid()
      modifies this`sent, this`released
      ensures Valid() && sent == old(sent) + Sends(UrlencodedRequest(url, params, Settings()), 1)
      ensures r == Reply(|old(sent)|, UrlencodedRequest(url, params, Settings()))
    {
      var pairs := BuildUrlencoded(params);
      assert pairs == UrlencodedPairs(params);
      r := Send(Request(HttpPost, NormalizeUrl(url), Urlencoded(pairs), Settings()));
    }

    // ------------------------------------------------------------ package lookup

    function ListRequest(client: ClientSettings): Request
    {
      MultipartRequest(listPackagesUrl, [], client)
    }

    /** The listing the resolver runs on, given the cache, the refresh flag and
        the number of the request that would fetch it. */
    ghost function Listing(cache: Option<PackageList>, refresh: bool, n: nat, client: ClientSettings): Result<PackageList>
    {
      if NeedsListing(cache, refresh) then ListingOutcome(Reply(n, ListRequest(client)), env.listFromJson)
      else Ok(cache.value)
    }

    /** resolveRemotePackage: asks for the listing only when none is cached or
        a refresh is requested, caches it when it parses, and resolves the
        package on the cached listing. */
    method ResolveRemotePackage(id: PackageId, refresh: bool) returns (r: Result<Option<RemotePackage>>)
      requires Valid()
      modifies this`sent, this`released, instance`packages
      ensures Valid()
      ensures NeedsListing(old(instance.packages), refresh) ==> sent == old(sent) + Sends(ListRequest(Settings()), 1)
      ensures !NeedsListing(old(instance.packages), refresh) ==> sent == old(sent)
      ensures var listing := Listing(old(instance.packages), refresh, |old(sent)|, Settings());
              if listing.Ok? then instance.packages == Some(listing.value) && r == Ok(env.resolvePackage(listing.value, id))
              else instance.packages == old(instance.packages) && r == Err(listing.error)
    {
      if instance.packages.None? || refresh {
        var json := PostMultipart(listPackagesUrl, []);
        if json.Err? {
          return Err(json.error);
        }
        var parsed := env.listFromJson(json.value);
        if parsed.Err? {
          return Err(Wrap("Cannot ask AEM for uploaded packages!", parsed.error));
        }
        instance.packages := Some(parsed.value);
      }
      r := Ok(env.resolvePackage(instance.packages.value, id));
    }

    /** determineRemotePackage(): the build's own package, always refreshing. */
    method DetermineRemotePackage() returns (r: Result<Option<RemotePackage>>)
      requires Valid()
      modifies this`sent, this`released, instance`packages
      ensures Valid() && sent == old(sent) + Sends(ListRequest(Settings()), 1)
      ensures var listing := Listing(old(instance.packages), true, |old(sent)|, Settings());
              if listing.Ok? then instance.packages == Some(listing.value) && r == Ok(env.resolvePackage(listing.value, config.projectPackage))
              else instance.packages == old(instance.packages) && r == Err(listing.error)
    {
      r := ResolveRemotePackage(config.projectPackage, true);
    }

    /** determineRemotePackage(file, refresh): the package the file's vault
        descriptor names; a file without one is not a package. */
    method DetermineRemotePackageOf(file: LocalFile, refresh: bool) returns (r: Result<Option<RemotePackage>>)
      requires Valid()
      modifies this`sent, this`released, instance`packages
      ensures Valid()
      ensures file.descriptor.None? ==>
                r == Err(DeployException("File is not a valid CRX package: " + file.path, None))
                && sent == old(sent) && instance.packages == old(instance.packages)
      ensures file.descriptor.Some? ==>
                var listing := Listing(old(instance.packages), refresh, |old(sent)|, Settings());
                (NeedsListing(old(instance.packages), refresh) ==> sent == old(sent) + Sends(ListRequest(Settings()), 1))
                && (!NeedsListing(old(instance.packages), refresh) ==> sent == old(sent))
                && if listing.Ok? then instance.packages == Some(listing.value)
                                       && r == Ok(env.resolvePackage(listing.value, file.descriptor.value))
                   else instance.packages == old(instance.packages) && r == Err(listing.error)
    {
      if file.descriptor.None? {
        return Err(DeployException("File is not a valid CRX package: " + file.path, None));
      }
      r := ResolveRemotePackage(file.descriptor.value, refresh);
    }

    /** determineRemotePackagePath: a configured non-blank remote path is
        returned without any request; otherwise the build's package is looked
        up, and its absence is thrown. */
    method DetermineRemotePackagePath() returns (r: Result<string>)
      requires Valid()
      modifies this`sent, this`released, instance`packages
      ensures Valid()
      ensures !IsBlank(config.packageRemotePath) ==>
                r == Ok(config.packageRemotePath) && sent == old(sent) && instance.packages == old(instance.packages)
      ensures IsBlank(config.packageRemotePath) ==>
                var listing := Listing(old(instance.packages), true, |old(sent)|, Settings());
                sent == old(sent) + Sends(ListRequest(Settings()), 1)
                && (if listing.Ok? then instance.packages == Some(listing.value)
                    else instance.packages == old(instance.packages))
                && r == if listing.Err? then Err(listing.error)
                        else match env.resolvePackage(listing.value, config.projectPackage)
                          case None => Err(DeployException("Package is not uploaded on AEM instance.", None))
                          case Some(pkg) => Ok(pkg.path)
    {
      if !IsBlank(config.packageRemotePath) {
        return Ok(config.packageRemotePath);
      }
      var found := DetermineRemotePackage();
      if found.Err? {
        return Err(found.error);
      }
      match found.value {
        case None => r := Err(DeployException("Package is not uploaded on AEM instance.", None));
        case Some(pkg) => r := Ok(pkg.path);
      }
    }

    // ------------------------------------------------------------ upload

    function UploadRequest(file: LocalFile, client: ClientSettings): Request
    {
      MultipartRequest(jsonTargetUrl + "/?cmd=upload", UploadParams(file, UploadForce(config, env, file)), client)
    }

    /** uploadPackageOnce: one upload request, forced when configured or when
        the file is a snapshot. */
    method UploadPackageOnce(file: LocalFile) returns (r: Result<UploadResponse>)
      requires Valid()
      modifies this`sent, this`released
      ensures Valid() && sent == old(sent) + Sends(UploadRequest(file, Settings()), 1)
      ensures r == UploadOutcome(Reply(|old(sent)|, UploadRequest(file, Settings())), env.uploadFromJson)
    {
      var force := UploadForce(config, env, file);
      var json := PostMultipart(jsonTargetUrl + "/?cmd=upload", [("package", FileValue(file)), ("force", BoolValue(force))]);
      if json.Err? {
        return Err(Wrap("Cannot upload package", json.error));
      }
      var response := env.uploadFromJson(json.value);
      if response.Err? {
        return Err(Wrap("Cannot upload package", response.error));
      }
      if !response.value.isSuccess {
        return Err(Wrap("Cannot upload package", DeployException(response.value.msg, None)));
      }
      r := response;
    }

    /** What each of the upload's possible attempts would yield, when the first
        is the request numbered `start`. */
    ghost function UploadAttempts(start: nat, file: LocalFile, client: ClientSettings): (outcomes: seq<Result<UploadResponse>>)
      ensures config.uploadRetryTimes < |outcomes|
    {
      var request := UploadRequest(file, client);
      var n := if config.uploadRetryTimes < 0 then 0 else config.uploadRetryTimes + 1;
      seq(n, i requires 0 <= i < n => UploadOutcome(Reply(start + i, request), env.uploadFromJson))
    }

    /** Attempt i of the loop is the (start + i)-th request's outcome. */
    lemma UploadAttemptAt(start: nat, file: LocalFile, client: ClientSettings, i: nat)
      requires i < |UploadAttempts(start, file, client)|
      ensures UploadAttempts(start, file, client)[i] == UploadOutcome(Reply(start + i, UploadRequest(file, client)), env.uploadFromJson)
    {
    }

    /** uploadPackage: uploadPackageOnce retried as the Retry function says. */
    method UploadPackage(file: LocalFile) returns (r: Result<UploadResponse>)
      requires Valid()
      modifies this`sent, this`released, this`countdowns
      ensures Valid()
      ensures var run := Retry(config.uploadRetryTimes, UploadAttempts(|old(sent)|, file, Settings()));
              && r == run.result
              && sent == old(sent) + Sends(UploadRequest(file, Settings()), run.attempts)
              && countdowns == old(countdowns)
                               + Countdowns("upload", run.countdowns, config.uploadRetryTimes, config.uploadRetryDelay)
    {
      ghost var request := UploadRequest(file, Settings());
      ghost var outcomes := UploadAttempts(|sent|, file, Settings());
      ghost var waited := 0;
      var exception := LateinitUnset;
      var i := 0;
      while i <= config.uploadRetryTimes
        invariant Valid() && i <= |outcomes|
        invariant i <= config.uploadRetryTimes ==> waited == i
        invariant sent == old(sent) + Sends(request, i)
        invariant countdowns == old(countdowns)
                                + Countdowns("upload", waited, config.uploadRetryTimes, config.uploadRetryDelay)
        invariant RetryFrom(config.uploadRetryTimes, outcomes, i, exception, waited)
                  == Retry(config.uploadRetryTimes, outcomes)
        decreases config.uploadRetryTimes - i
      {
        ghost var number := |sent|;
        var attempt := UploadPackageOnce(file);
        ReplyAt(number, |old(sent)| + i, request);
        UploadAttemptAt(|old(sent)|, file, Settings(), i);
        assert attempt == outcomes[i];
        SendsSnoc(old(sent), request, i);
        RetryFromStep(config.uploadRetryTimes, outcomes, i, exception, waited);
        if attempt.Ok? {
          return attempt;
        }
        exception := attempt.error;
        if i < config.uploadRetryTimes {
          CountdownsSnoc(old(countdowns), "upload", waited, config.uploadRetryTimes, config.uploadRetryDelay);
          countdowns := countdowns + [Countdown("upload", i + 1, config.uploadRetryTimes, config.uploadRetryDelay)];
          waited := waited + 1;
        }
        i := i + 1;
      }
      RetryFromDone(config.uploadRetryTimes, outcomes, i, exception, waited);
      r := Err(exception);
    }

    // ------------------------------------------------------------ install

    function InstallRequest(path: string, client: ClientSettings): Request
    {
      MultipartRequest(htmlTargetUrl + path + "/?cmd=install", [("recursive", BoolValue(config.installRecursive))], client)
    }

    /** installPackageOnce: one install request, judged by the install table. */
    method InstallPackageOnce(path: string) returns (r: Result<Report>)
      requires Valid()
      modifies this`sent, this`released
      ensures Valid() && sent == old(sent) + Sends(InstallRequest(path, Settings()), 1)
      ensures r == InstallOutcome(Reply(|old(sent)|, InstallRequest(path, Settings())), env.installFromHtml)
    {
      var html := PostMultipart(htmlTargetUrl + path + "/?cmd=install", [("recursive", BoolValue(config.installRecursive))]);
      if html.Err? {
        return Err(Wrap("Cannot install package.", html.error));
      }
      var report := env.installFromHtml(html.value);
      if report.Err? {
        return Err(Wrap("Cannot install package.", report.error));
      }
      var status := report.value.status;
      if status == Success && report.value.errors == [] {
        r := report;
      } else if status == Fail {
        r := Err(Wrap("Cannot install package.", DeployException("Installation incomplete!", None)));
      } else {
        r := Err(Wrap("Cannot install package.", DeployException("Installation completed with errors!", None)));
      }
    }

    ghost function InstallAttempts(start: nat, path: string, client: ClientSettings): (outcomes: seq<Result<Report>>)
      ensures config.installRetryTimes < |outcomes|
    {
      var request := InstallRequest(path, client);
      var n := if config.installRetryTimes < 0 then 0 else config.installRetryTimes + 1;
      seq(n, i requires 0 <= i < n => InstallOutcome(Reply(start + i, request), env.installFromHtml))
    }

    /** Attempt i of the loop is the (start + i)-th request's outcome. */
    lemma InstallAttemptAt(start: nat, path: string, client: ClientSettings, i: nat)
      requires i < |InstallAttempts(start, path, client)|
      ensures InstallAttempts(start, path, client)[i] == InstallOutcome(Reply(start + i, InstallRequest(path, client)), env.installFromHtml)
    {
    }

    /** A package path that makes the install URL unacceptable to URI.create
        fails every attempt, whatever the server would say: nothing is sent,
        and the loop throws "Cannot install package." around the URI error. */
    lemma {:induction false} InstallOfRejectedUrl(start: nat, path: string, client: ClientSettings)
      requires env.uriError(InstallRequest(path, client).url).Some?
      requires 0 <= config.installRetryTimes
      ensures var run := Retry(config.installRetryTimes, InstallAttempts(start, path, client));
              && run.result == Err(Wrap("Cannot install package.", env.uriError(InstallRequest(path, client).url).value))
              && run.attempts == config.installRetryTimes + 1
              && Sends(InstallRequest(path, client), run.attempts) == []
    {
      var request := InstallRequest(path, client);
      var thrown := Wrap("Cannot install package.", env.uriError(request.url).value);
      var outcomes := InstallAttempts(start, path, client);
      forall j | 0 <= j < |outcomes|
        ensures outcomes[j] == Err(thrown)
      {
        assert outcomes[j] == InstallOutcome(Reply(start + j, request), env.installFromHtml);
      }
      RetryTakesFirstSuccess(config.installRetryTimes, outcomes);
      var k := FirstSuccess(outcomes, 0, config.installRetryTimes + 1);
      if k <= config.installRetryTimes {
        assert false;
      }
    }

    /** installPackage: installPackageOnce retried as the Retry function says. */
    method InstallPackage(path: string) returns (r: Result<Report>)
      requires Valid()
      modifies this`sent, this`released, this`countdowns
      ensures Valid()
      ensures var run := Retry(config.installRetryTimes, InstallAttempts(|old(sent)|, path, Settings()));
              && r == run.result
              && sent == old(sent) + Sends(InstallRequest(path, Settings()), run.attempts)
              && countdowns == old(countdowns)
                               + Countdowns("install", run.countdowns, config.installRetryTimes, config.installRetryDelay)
    {
      ghost var request := InstallRequest(path, Settings());
      ghost var outcomes := InstallAttempts(|sent|, path, Settings());
      ghost var waited := 0;
      var exception := LateinitUnset;
      var i := 0;
      while i <= config.installRetryTimes
        invariant Valid() && i <= |outcomes|
        invariant i <= config.installRetryTimes ==> waited == i
        invariant sent == old(sent) + Sends(request, i)
        invariant countdowns == old(countdowns)
                                + Countdowns("install", waited, config.installRetryTimes, config.installRetryDelay)
        invariant RetryFrom(config.installRetryTimes, outcomes, i, exception, waited)
                  == Retry(config.installRetryTimes, outcomes)
        decreases config.installRetryTimes - i
      {
        ghost var number := |sent|;
        var attempt := InstallPackageOnce(path);
        ReplyAt(number, |old(sent)| + i, request);
        InstallAttemptAt(|old(sent)|, path, Settings(), i);
        assert attempt == outcomes[i];
        SendsSnoc(old(sent), request, i);
        RetryFromStep(config.installRetryTimes, outcomes, i, exception, waited);
        if attempt.Ok? {
          return attempt;
        }
        exception := attempt.error;
        if i < config.installRetryTimes {
          CountdownsSnoc(old(countdowns), "install", waited, config.installRetryTimes, config.installRetryDelay);
          countdowns := countdowns + [Countdown("install", i + 1, config.installRetryTimes, config.installRetryDelay)];
          waited := waited + 1;
        }
        i := i + 1;
      }
      RetryFromDone(config.installRetryTimes, outcomes, i, exception, waited);
      r := Err(exception);
    }

    // ------------------------------------------------------------ activate, delete, uninstall

    function ActivateRequest(path: string, client: ClientSettings): Request
    {
      MultipartRequest(jsonTargetUrl + path + "/?cmd=replicate", [], client)
    }

    /** activatePackage: one replicate request, no retry. */
    method ActivatePackage(path: string) returns (r: Result<UploadResponse>)
      requires Valid()
      modifies this`sent, this`released
      ensures Valid() && sent == old(sent) + Sends(ActivateRequest(path, Settings()), 1)
      ensures r == ActivateOutcome(Reply(|old(sent)|, ActivateRequest(path, Settings())), env.uploadFromJson)
    {
      var json := PostMultipart(jsonTargetUrl + path + "/?cmd=replicate", []);
      if json.Err? {
        return Err(Wrap("Cannot activate package", json.error));
      }
      var response := env.uploadFromJson(json.value);
      if response.Err? {
        return Err(Wrap("Package activation failed", response.error));
      }
      if !response.value.isSuccess {
        return Err(DeployException(response.value.msg, None));
      }
      r := response;
    }

    function DeleteRequest(path: string, client: ClientSettings): Request
    {
      MultipartRequest(htmlTargetUrl + path + "/?cmd=delete", [], client)
    }

    /** deletePackage: one delete request, judged by the removal table. */
    method DeletePackage(path: string) returns (r: Result<()>)
      requires Valid()
      modifies this`sent, this`released
      ensures Valid() && sent == old(sent) + Sends(DeleteRequest(path, Settings()), 1)
      ensures r == RemovalOutcome(Delete, Reply(|old(sent)|, DeleteRequest(path, Settings())), env.deleteFromHtml)
    {
      var html := PostMultipart(htmlTargetUrl + path + "/?cmd=delete", []);
      r := RemovalOf(Delete, html, env.deleteFromHtml);
    }

    function UninstallRequest(path: string, client: ClientSettings): Request
    {
      MultipartRequest(htmlTargetUrl + path + "/?cmd=uninstall", [("recursive", BoolValue(config.installRecursive))], client)
    }

    /** uninstallPackage: one uninstall request, judged by the removal table. */
    method UninstallPackage(path: string) returns (r: Result<()>)
      requires Valid()
      modifies this`sent, this`released
      ensures Valid() && sent == old(sent) + Sends(UninstallRequest(path, Settings()), 1)
      ensures r == RemovalOutcome(Uninstall, Reply(|old(sent)|, UninstallRequest(path, Settings())), env.uninstallFromHtml)
    {
      var html := PostMultipart(htmlTargetUrl + path + "/?cmd=uninstall", [("recursive", BoolValue(config.installRecursive))]);
      r := RemovalOf(Uninstall, html, env.uninstallFromHtml);
    }

    /** The `when` over the report's status shared by delete and uninstall. */
    static method RemovalOf(op: Removal, html: Result<string>, parse: string -> Result<Report>) returns (r: Result<()>)
      ensures r == RemovalOutcome(op, html, parse)
    {
      var failure := if op == Delete then "Cannot delete package." else "Cannot uninstall package.";
      if html.Err? {
        return Err(Wrap(failure, html.error));
      }
      var report := parse(html.value);
      if report.Err? {
        return Err(Wrap(failure, report.error));
      }
      match report.value.status {
        case Success | SuccessWithErrors =>
          if report.value.errors == [] {
            r := Ok(());
          } else {
            var withErrors := if op == Delete then "Package deleted with errors!" else "Package uninstalled with errors!";
            r := Err(Wrap(failure, DeployException(withErrors, None)));
          }
        case Fail =>
          var failed := if op == Delete then "Package deleting failed!" else "Package uninstalling failed!";
          r := Err(Wrap(failure, DeployException(failed, None)));
      }
    }

    // ------------------------------------------------------------ compositions

    /** What deployPackage does when its first request is numbered `start`:
        the upload loop, then, if it returned a response, the install loop at
        the uploaded path; the result is that path, or the exception thrown. */
    ghost function DeployTrace(start: nat, file: LocalFile, client: ClientSettings): Trace<string>
    {
      var upload := Retry(config.uploadRetryTimes, UploadAttempts(start, file, client));
      var uploads := Sends(UploadRequest(file, client), upload.attempts);
      var uploadWaits := Countdowns("upload", upload.countdowns, config.uploadRetryTimes, config.uploadRetryDelay);
      if upload.result.Err? then Trace(uploads, uploadWaits, Err(upload.result.error))
      else
        var path := upload.result.value.path;
        var install := Retry(config.installRetryTimes, InstallAttempts(start + |uploads|, path, client));
        Trace(uploads + Sends(InstallRequest(path, client), install.attempts),
              uploadWaits + Countdowns("install", install.countdowns, config.installRetryTimes, config.installRetryDelay),
              if install.result.Ok? then Ok(path) else Err(install.result.error))
    }

    /** What distributePackage does when its first request is numbered `start`:
        deployPackage's requests and countdowns, then, if both loops returned,
        one activation request at the uploaded path, numbered after them. */
    ghost function DistributeTrace(start: nat, file: LocalFile, client: ClientSettings): Trace<()>
    {
      var deployed := DeployTrace(start, file, client);
      if deployed.result.Err? then Trace(deployed.requests, deployed.waits, Err(deployed.result.error))
      else
        var path := deployed.result.value;
        var activated := ActivateOutcome(Reply(start + |deployed.requests|, ActivateRequest(path, client)), env.uploadFromJson);
        Trace(deployed.requests + Sends(ActivateRequest(path, client), 1), deployed.waits,
              if activated.Ok? then Ok(()) else Err(activated.error))
    }

    /** installPackage(uploadPackage(file).path): the step deployPackage is
        and distributePackage begins with; the uploaded path once installed,
        or the exception that stopped it. */
    method UploadThenInstall(file: LocalFile) returns (r: Result<string>)
      requires Valid()
      modifies this`sent, this`released, this`countdowns
      ensures Valid()
      ensures var trace := DeployTrace(|old(sent)|, file, Settings());
              && sent == old(sent) + trace.requests
              && countdowns == old(countdowns) + trace.waits
              && r == trace.result
    {
      var uploaded := UploadPackage(file);
      if uploaded.Err? {
        return Err(uploaded.error);
      }
      var path := uploaded.value.path;
      ghost var upload := Retry(config.uploadRetryTimes, UploadAttempts(|old(sent)|, file, Settings()));
      ghost var install := Retry(config.installRetryTimes, InstallAttempts(|sent|, path, Settings()));
      ConcatAssoc(old(sent), Sends(UploadRequest(file, Settings()), upload.attempts),
                  Sends(InstallRequest(path, Settings()), install.attempts));
      ConcatAssoc(old(countdowns), Countdowns("upload", upload.countdowns, config.uploadRetryTimes, config.uploadRetryDelay),
                  Countdowns("install", install.countdowns, config.installRetryTimes, config.installRetryDelay));
      var installed := InstallPackage(path);
      if installed.Err? {
        return Err(installed.error);
      }
      r := Ok(path);
    }

    /** deployPackage: upload, then install at the uploaded path; a failed
        upload stops it before any install request. */
    method DeployPackage(file: LocalFile) returns (r: Result<()>)
      requires Valid()
      modifies this`sent, this`released, this`countdowns
      ensures Valid()
      ensures var trace := DeployTrace(|old(sent)|, file, Settings());
              && sent == old(sent) + trace.requests
              && countdowns == old(countdowns) + trace.waits
              && r == if trace.result.Ok? then Ok(()) else Err(trace.result.error)
    {
      var installed := UploadThenInstall(file);
      r := if installed.Ok? then Ok(()) else Err(installed.error);
    }

    /** distributePackage: upload, then install and activate at the uploaded
        path; each failure stops what follows, and nothing done is undone. */
    method DistributePackage(file: LocalFile) returns (r: Result<()>)
      requires Valid()
      modifies this`sent, this`released, this`countdowns
      ensures Valid()
      ensures var trace := DistributeTrace(|old(sent)|, file, Settings());
              && sent == old(sent) + trace.requests
              && countdowns == old(countdowns) + trace.waits
              && r == trace.result
    {
      var installed := UploadThenInstall(file);
      if installed.Err? {
        return Err(installed.error);
      }
      var activated := ActivatePackage(installed.value);
      r := if activated.Ok? then Ok(()) else Err(activated.error);
    }

    // ------------------------------------------------------------ state queries

    /** determineBundleState: one GET, never throws. */
    method DetermineBundleState() returns (s: BundleState)
      requires Valid()
      modifies this`sent, this`released
      ensures Valid() && sent == old(sent) + Sends(GetRequest(bundlesUrl, Settings()), 1)
      ensures s == BundleStateOf(Reply(|old(sent)|, GetRequest(bundlesUrl, Settings())), env.bundlesFromJson)
    {
      var json := Get(bundlesUrl);
      if json.Err? {
        return UnknownBundles(json.error);
      }
      var parsed := env.bundlesFromJson(json.value);
      s := if parsed.Ok? then Bundles(parsed.value) else UnknownBundles(parsed.error);
    }

    /** determineComponentState: one GET, never throws. */
    method DetermineComponentState() returns (s: ComponentState)
      requires Valid()
      modifies this`sent, this`released
      ensures Valid() && sent == old(sent) + Sends(GetRequest(componentsUrl, Settings()), 1)
      ensures s == ComponentStateOf(Reply(|old(sent)|, GetRequest(componentsUrl, Settings())), env.componentsFromJson)
    {
      var json := Get(componentsUrl);
      if json.Err? {
        return UnknownComponents;
      }
      var parsed := env.componentsFromJson(json.value);
      s := if parsed.Ok? then Components(parsed.value) else UnknownComponents;
    }
  }
}

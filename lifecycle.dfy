/** The decisions of the package-manager client, as functions of what the server
    answered: the typed responses (whose parsers are outside the model), the
    configuration, the status tables of install, delete and uninstall, what one
    attempt of each operation yields, the retry policy shared by upload and
    install, the package-listing cache rule, and the state queries that degrade
    to "unknown". */
module Lifecycle {
  import opened Common
  import opened Transport

  // ---------------------------------------------------------------- responses

  /** ListResponse.Package: a package known to the instance. */
  datatype RemotePackage = RemotePackage(group: string, name: string, version: string, path: string)

  /** ListResponse: the instance's package listing. */
  datatype PackageList = PackageList(packages: seq<RemotePackage>)

  /** UploadResponse, also the reply to a replicate command. */
  datatype UploadResponse = UploadResponse(isSuccess: bool, msg: string, path: string)

  /** HtmlResponse.Status */
  datatype Status = Success | SuccessWithErrors | Fail

  /** An install, delete or uninstall report: its status and its error lines, in order. */
  datatype Report = Report(status: Status, errors: seq<string>)

  /** One OSGi bundle or component and its state. */
  datatype Component = Component(id: string, state: string)

  /** BundleState: the bundles, or "unknown" with the exception that prevented reading them. */
  datatype BundleState = Bundles(bundles: seq<Component>) | UnknownBundles(cause: Exception)

  /** ComponentState: the components, or "unknown" (which keeps no cause). */
  datatype ComponentState = Components(components: seq<Component>) | UnknownComponents

  /** The code the client calls but which is not part of this model: the
      response parsers, the listing's package resolution, the wildcard
      matcher used to recognise snapshot packages, and `URI.create`, which
      HttpGet and HttpPost run on their URL (None when it accepts the URL,
      otherwise the IllegalArgumentException it throws). A parser yields Err
      with the exception it throws. */
  datatype Collaborators = Collaborators(
    uriError: string -> Option<Exception>,
    listFromJson: string -> Result<PackageList>,
    resolvePackage: (PackageList, PackageId) -> Option<RemotePackage>,
    uploadFromJson: string -> Result<UploadResponse>,
    installFromHtml: string -> Result<Report>,
    deleteFromHtml: string -> Result<Report>,
    uninstallFromHtml: string -> Result<Report>,
    bundlesFromJson: string -> Result<seq<Component>>,
    componentsFromJson: string -> Result<seq<Component>>,
    wildcard: (string, seq<string>) -> bool)

  /** The part of AemConfig the client reads. `projectPackage` is the identity
      ListResponse.Package(project) takes from the build. */
  datatype AemConfig = AemConfig(
    instanceConnectionTimeout: int,
    instanceConnectionUntrustedSsl: bool,
    packageRemotePath: string,
    projectPackage: PackageId,
    uploadForce: bool,
    packageSnapshots: seq<string>,
    uploadRetryTimes: int,
    uploadRetryDelay: int,
    installRecursive: bool,
    installRetryTimes: int,
    installRetryDelay: int)

  // ---------------------------------------------------------------- upload

  /** The upload's force flag: forced by configuration or by a snapshot file name. */
  function UploadForce(config: AemConfig, env: Collaborators, file: LocalFile): bool
  {
    config.uploadForce || env.wildcard(file.path, config.packageSnapshots)
  }

  /** The parameters of the upload request. */
  function UploadParams(file: LocalFile, force: bool): Params
  {
    [("package", FileValue(file)), ("force", BoolValue(force))]
  }

  /** The upload body always carries the force flag; it carries the package
      only when the file exists; a snapshot file is uploaded with force "true"
      even when forcing is not configured. */
  lemma UploadBody(config: AemConfig, env: Collaborators, file: LocalFile)
    ensures var force := UploadForce(config, env, file);
            MultipartParts(UploadParams(file, force))
            == (if file.onDisk then [BinaryPart("package", file)] else [])
               + [TextPart("force", if force then "true" else "false")]
    ensures env.wildcard(file.path, config.packageSnapshots) ==>
              TextPart("force", "true") in MultipartParts(UploadParams(file, UploadForce(config, env, file)))
  {
    var force := UploadForce(config, env, file);
    var params := UploadParams(file, force);
    assert !IsWhitespace(ValueText(BoolValue(force))[0]);
    assert params[..1] == [("package", FileValue(file))];
    assert params[..1][..0] == [];
  }

  /** uploadPackageOnce: the parsed acknowledgement when the server answered
      200 with a successful one; any other outcome, including an unsuccessful
      acknowledgement, is thrown as DeployException "Cannot upload package". */
  function UploadOutcome(fetched: Result<string>, parse: string -> Result<UploadResponse>): (r: Result<UploadResponse>)
    ensures r.Ok? <==> fetched.Ok? && parse(fetched.value).Ok? && parse(fetched.value).value.isSuccess
    ensures r.Ok? ==> r.value == parse(fetched.value).value
    ensures r.Err? ==> r.error.DeployException? && r.error.message == "Cannot upload package"
    ensures fetched.Err? ==> r.error.cause == Some(fetched.error)
    ensures fetched.Ok? && parse(fetched.value).Err? ==> r.error.cause == Some(parse(fetched.value).error)
    ensures fetched.Ok? && parse(fetched.value).Ok? && !parse(fetched.value).value.isSuccess ==>
              r.error.cause == Some(DeployException(parse(fetched.value).value.msg, None))
  {
    if fetched.Err? then Err(Wrap("Cannot upload package", fetched.error))
    else match parse(fetched.value)
      case Err(e) => Err(Wrap("Cannot upload package", e))
      case Ok(response) =>
        if response.isSuccess then Ok(response)
        else Err(Wrap("Cannot upload package", DeployException(response.msg, None)))
  }

  // ---------------------------------------------------------------- status tables

  /** The install table: only SUCCESS without error lines is accepted; otherwise
      the exception to throw. */
  function InstallRejection(report: Report): (e: Option<Exception>)
    ensures e.None? <==> report.status == Success && report.errors == []
    ensures report.status == Fail ==> e == Some(DeployException("Installation incomplete!", None))
    ensures report.status != Fail && e.Some? ==> e == Some(DeployException("Installation completed with errors!", None))
  {
    match report.status
    case Success =>
      if report.errors == [] then None
      else Some(DeployException("Installation completed with errors!", None))
    case SuccessWithErrors => Some(DeployException("Installation completed with errors!", None))
    case Fail => Some(DeployException("Installation incomplete!", None))
  }

  datatype Removal = Delete | Uninstall

  /** The delete and uninstall table: SUCCESS and SUCCESS_WITH_ERRORS are both
      accepted when there are no error lines; FAIL never is. */
  function RemovalRejection(op: Removal, report: Report): (e: Option<Exception>)
    ensures e.None? <==> report.status != Fail && report.errors == []
    ensures report.status == Fail ==>
              e == Some(DeployException(if op == Delete then "Package deleting failed!" else "Package uninstalling failed!", None))
    ensures report.status != Fail && e.Some? ==>
              e == Some(DeployException(if op == Delete then "Package deleted with errors!" else "Package uninstalled with errors!", None))
  {
    match report.status
    case Fail =>
      Some(DeployException(if op == Delete then "Package deleting failed!" else "Package uninstalling failed!", None))
    case _ =>
      if report.errors == [] then None
      else Some(DeployException(if op == Delete then "Package deleted with errors!" else "Package uninstalled with errors!", None))
  }

  /** The two tables differ on purpose: whatever install accepts, delete and
      uninstall accept, but SUCCESS_WITH_ERRORS without error lines is accepted
      by delete and uninstall and rejected by install. */
  lemma InstallStricterThanRemoval(op: Removal, report: Report)
    ensures InstallRejection(report).None? ==> RemovalRejection(op, report).None?
    ensures RemovalRejection(op, Report(SuccessWithErrors, [])).None?
    ensures InstallRejection(Report(SuccessWithErrors, [])).Some?
  {
  }

  /** installPackageOnce: the report when the server answered 200 with a
      report that passes the install table; anything else is thrown as
      DeployException "Cannot install package." wrapping the cause. */
  function InstallOutcome(fetched: Result<string>, parse: string -> Result<Report>): (r: Result<Report>)
    ensures r.Ok? <==> fetched.Ok? && parse(fetched.value).Ok?
                       && parse(fetched.value).value.status == Success && parse(fetched.value).value.errors == []
    ensures r.Ok? ==> r.value == parse(fetched.value).value
    ensures r.Err? ==> r.error.DeployException? && r.error.message == "Cannot install package."
    ensures fetched.Err? ==> r == Err(Wrap("Cannot install package.", fetched.error))
    ensures fetched.Ok? && parse(fetched.value).Ok? && r.Err? ==>
              r.error.cause == InstallRejection(parse(fetched.value).value)
  {
    if fetched.Err? then Err(Wrap("Cannot install package.", fetched.error))
    else match parse(fetched.value)
      case Err(e) => Err(Wrap("Cannot install package.", e))
      case Ok(report) =>
        match InstallRejection(report)
        case None => Ok(report)
        case Some(e) => Err(Wrap("Cannot install package.", e))
  }

  /** deletePackage / uninstallPackage: return normally when the server answered
      200 with a report that passes the removal table; anything else is thrown
      as DeployException "Cannot delete package." / "Cannot uninstall package.". */
  function RemovalOutcome(op: Removal, fetched: Result<string>, parse: string -> Result<Report>): (r: Result<()>)
    ensures r.Ok? <==> fetched.Ok? && parse(fetched.value).Ok?
                       && parse(fetched.value).value.status != Fail && parse(fetched.value).value.errors == []
    ensures r.Err? ==> r.error.DeployException?
                       && r.error.message == (if op == Delete then "Cannot delete package." else "Cannot uninstall package.")
    ensures fetched.Ok? && parse(fetched.value).Ok? && r.Err? ==>
              r.error.cause == RemovalRejection(op, parse(fetched.value).value)
  {
    var failure := if op == Delete then "Cannot delete package." else "Cannot uninstall package.";
    if fetched.Err? then Err(Wrap(failure, fetched.error))
    else match parse(fetched.value)
      case Err(e) => Err(Wrap(failure, e))
      case Ok(report) =>
        match RemovalRejection(op, report)
        case None => Ok(())
        case Some(e) => Err(Wrap(failure, e))
  }

  /** activatePackage: the acknowledgement when it is successful. A failed
      request is thrown as "Cannot activate package", an unparsable reply as
      "Package activation failed", and an unsuccessful acknowledgement as a
      DeployException carrying the server's own message, unwrapped. */
  function ActivateOutcome(fetched: Result<string>, parse: string -> Result<UploadResponse>): (r: Result<UploadResponse>)
    ensures r.Ok? <==> fetched.Ok? && parse(fetched.value).Ok? && parse(fetched.value).value.isSuccess
    ensures r.Ok? ==> r.value == parse(fetched.value).value
    ensures fetched.Err? ==> r == Err(Wrap("Cannot activate package", fetched.error))
    ensures fetched.Ok? && parse(fetched.value).Err? ==>
              r == Err(Wrap("Package activation failed", parse(fetched.value).error))
    ensures fetched.Ok? && parse(fetched.value).Ok? && !parse(fetched.value).value.isSuccess ==>
              r == Err(DeployException(parse(fetched.value).value.msg, None))
  {
    if fetched.Err? then Err(Wrap("Cannot activate package", fetched.error))
    else match parse(fetched.value)
      case Err(e) => Err(Wrap("Package activation failed", e))
      case Ok(response) =>
        if response.isSuccess then Ok(response) else Err(DeployException(response.msg, None))
  }

  // ---------------------------------------------------------------- package listing cache

  /** The listing is asked for only when none is cached or a refresh is requested. */
  predicate NeedsListing(cache: Option<PackageList>, refresh: bool)
  {
    cache.None? || refresh
  }

  /** The listing request's outcome: a failed request propagates as it is; a
      reply that does not parse is thrown as "Cannot ask AEM for uploaded packages!". */
  function ListingOutcome(fetched: Result<string>, parse: string -> Result<PackageList>): (r: Result<PackageList>)
    ensures r.Ok? <==> fetched.Ok? && parse(fetched.value).Ok?
    ensures r.Ok? ==> r.value == parse(fetched.value).value
    ensures fetched.Err? ==> r == Err(fetched.error)
    ensures fetched.Ok? && r.Err? ==>
              r.error == Wrap("Cannot ask AEM for uploaded packages!", parse(fetched.value).error)
  {
    if fetched.Err? then Err(fetched.error)
    else match parse(fetched.value)
      case Err(e) => Err(Wrap("Cannot ask AEM for uploaded packages!", e))
      case Ok(list) => Ok(list)
  }

  // ---------------------------------------------------------------- retries

  /** How a retry loop ended: its result, how many attempts it made and how
      many countdowns it ran. */
  datatype RetryRun<T> = RetryRun(result: Result<T>, attempts: nat, countdowns: nat)

  /** The exception a retry loop throws when it made no attempt at all: its
      `lateinit var exception` was never assigned. */
  const LateinitUnset := UninitializedProperty("lateinit property exception has not been initialized")

  /** The loop `for (i in 0..retryTimes)` from attempt `i` on, where attempt j
      would yield `outcomes[j]`, `last` is the exception kept so far and
      `waited` the countdowns run so far: the first success is returned; a
      countdown follows each failure but the last; after the last attempt the
      kept exception is thrown. */
  function RetryFrom<T>(retryTimes: int, outcomes: seq<Result<T>>, i: nat, last: Exception, waited: nat): RetryRun<T>
    requires retryTimes < |outcomes| && i <= |outcomes|
    decreases |outcomes| - i
  {
    if retryTimes < i then RetryRun(Err(last), i, waited)
    else match outcomes[i]
      case Ok(v) => RetryRun(Ok(v), i + 1, waited)
      case Err(e) => RetryFrom(retryTimes, outcomes, i + 1, e, if i < retryTimes then waited + 1 else waited)
  }

  /** One turn of the loop, as the loop body takes it. */
  lemma RetryFromStep<T>(retryTimes: int, outcomes: seq<Result<T>>, i: nat, last: Exception, waited: nat)
    requires retryTimes < |outcomes| && i <= retryTimes
    ensures outcomes[i].Ok? ==> RetryFrom(retryTimes, outcomes, i, last, waited) == RetryRun(outcomes[i], i + 1, waited)
    ensures outcomes[i].Err? ==>
              RetryFrom(retryTimes, outcomes, i, last, waited)
              == RetryFrom(retryTimes, outcomes, i + 1, outcomes[i].error, if i < retryTimes then waited + 1 else waited)
  {
  }

  /** After the last attempt the loop throws the exception it kept. */
  lemma RetryFromDone<T>(retryTimes: int, outcomes: seq<Result<T>>, i: nat, last: Exception, waited: nat)
    requires retryTimes < |outcomes| && i <= |outcomes| && retryTimes < i
    ensures RetryFrom(retryTimes, outcomes, i, last, waited) == RetryRun(Err(last), i, waited)
  {
  }

  /** The whole retry loop of uploadPackage and installPackage. */
  function Retry<T>(retryTimes: int, outcomes: seq<Result<T>>): (run: RetryRun<T>)
    requires retryTimes < |outcomes|
    ensures retryTimes < 0 ==> run == RetryRun(Err(LateinitUnset), 0, 0)
  {
    RetryFrom(retryTimes, outcomes, 0, LateinitUnset, 0)
  }

  /** The index of the first successful outcome in [from, bound), or bound when
      there is none. */
  function FirstSuccess<T>(outcomes: seq<Result<T>>, from: nat, bound: nat): (k: nat)
    requires from <= bound <= |outcomes|
    ensures from <= k <= bound
    ensures forall j :: from <= j < k ==> outcomes[j].Err?
    ensures k < bound ==> outcomes[k].Ok?
    decreases bound - from
  {
    if from == bound || outcomes[from].Ok? then from else FirstSuccess(outcomes, from + 1, bound)
  }

  lemma {:induction false} RetryFromSucceeds<T>(retryTimes: int, outcomes: seq<Result<T>>, i: nat, last: Exception, k: nat)
    requires retryTimes < |outcomes| && i <= k <= retryTimes
    requires outcomes[k].Ok? && forall j :: i <= j < k ==> outcomes[j].Err?
    ensures RetryFrom(retryTimes, outcomes, i, last, i) == RetryRun(outcomes[k], k + 1, k)
    decreases k - i
  {
    if i < k {
      RetryFromSucceeds(retryTimes, outcomes, i + 1, outcomes[i].error, k);
    }
  }

  lemma {:induction false} RetryFromExhausted<T>(retryTimes: int, outcomes: seq<Result<T>>, i: nat, last: Exception)
    requires retryTimes < |outcomes| && i <= retryTimes
    requires forall j :: i <= j <= retryTimes ==> outcomes[j].Err?
    ensures RetryFrom(retryTimes, outcomes, i, last, i) == RetryRun(outcomes[retryTimes], retryTimes + 1, retryTimes)
    decreases retryTimes - i
  {
    if i < retryTimes {
      RetryFromExhausted(retryTimes, outcomes, i + 1, outcomes[i].error);
    } else {
      assert RetryFrom(retryTimes, outcomes, i, last, i) == RetryFrom(retryTimes, outcomes, i + 1, outcomes[i].error, i);
    }
  }

  /** With retryTimes >= 0 the loop makes at most retryTimes + 1 attempts and
      returns the first success, after one countdown per failed attempt before
      it; when every attempt fails it makes exactly retryTimes + 1 attempts, runs
      exactly retryTimes countdowns and throws the last attempt's exception. */
  lemma RetryTakesFirstSuccess<T>(retryTimes: int, outcomes: seq<Result<T>>)
    requires 0 <= retryTimes < |outcomes|
    ensures var k := FirstSuccess(outcomes, 0, retryTimes + 1);
            Retry(retryTimes, outcomes)
            == if k <= retryTimes then RetryRun(outcomes[k], k + 1, k)
               else RetryRun(outcomes[retryTimes], retryTimes + 1, retryTimes)
  {
    var k := FirstSuccess(outcomes, 0, retryTimes + 1);
    if k <= retryTimes {
      RetryFromSucceeds(retryTimes, outcomes, 0, LateinitUnset, k);
    } else {
      RetryFromExhausted(retryTimes, outcomes, 0, LateinitUnset);
    }
  }

  /** The loop succeeds exactly when one of its retryTimes + 1 attempts does;
      it never makes more than retryTimes + 1 attempts and always runs one
      countdown fewer than it makes attempts. */
  lemma RetryBounds<T>(retryTimes: int, outcomes: seq<Result<T>>)
    requires 0 <= retryTimes < |outcomes|
    ensures var run := Retry(retryTimes, outcomes);
            && 1 <= run.attempts <= retryTimes + 1
            && run.countdowns == run.attempts - 1
            && run.result == outcomes[run.attempts - 1]
            && (run.result.Ok? <==> exists j :: 0 <= j <= retryTimes && outcomes[j].Ok?)
  {
    RetryTakesFirstSuccess(retryTimes, outcomes);
  }

  /** The countdown header "Retrying <action> (<attempt>/<retryTimes>) after
      delay." with the countdown's delay. */
  datatype Countdown = Countdown(action: string, attempt: nat, of: int, delay: int)

  /** The countdowns a retry loop runs after its first `count` failed attempts. */
  function Countdowns(action: string, count: nat, of: int, delay: int): (r: seq<Countdown>)
    ensures |r| == count
  {
    seq(count, j requires 0 <= j < count => Countdown(action, j + 1, of, delay))
  }

  lemma CountdownsSnoc(prefix: seq<Countdown>, action: string, count: nat, of: int, delay: int)
    ensures prefix + Countdowns(action, count, of, delay) + [Countdown(action, count + 1, of, delay)]
            == prefix + Countdowns(action, count + 1, of, delay)
  {
  }

  // ---------------------------------------------------------------- state queries

  /** determineBundleState never throws: the bundles when they could be read
      and parsed, otherwise "unknown" with the exception that stopped it. */
  function BundleStateOf(fetched: Result<string>, parse: string -> Result<seq<Component>>): (s: BundleState)
    ensures s.Bundles? <==> fetched.Ok? && parse(fetched.value).Ok?
    ensures s.Bundles? ==> s.bundles == parse(fetched.value).value
    ensures fetched.Err? ==> s == UnknownBundles(fetched.error)
    ensures fetched.Ok? && parse(fetched.value).Err? ==> s == UnknownBundles(parse(fetched.value).error)
  {
    if fetched.Err? then UnknownBundles(fetched.error)
    else match parse(fetched.value)
      case Err(e) => UnknownBundles(e)
      case Ok(bundles) => Bundles(bundles)
  }

  /** determineComponentState never throws: the components when they could be
      read and parsed, otherwise "unknown". */
  function ComponentStateOf(fetched: Result<string>, parse: string -> Result<seq<Component>>): (s: ComponentState)
    ensures s.Components? <==> fetched.Ok? && parse(fetched.value).Ok?
    ensures s.Components? ==> s.components == parse(fetched.value).value
  {
    if fetched.Err? then UnknownComponents
    else match parse(fetched.value)
      case Err(_) => UnknownComponents
      case Ok(components) => Components(components)
  }
}

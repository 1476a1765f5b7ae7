/**
  `ValidateGetPageRequest`: five guard checks over the read-only fields of a
  paging request, run in a fixed order; the first that fails decides the
  error, and the request is valid exactly when none fails. No I/O.
*/
module Validation {
  import opened Wrappers
  import opened Numbers
  import opened Framework
  import Datasource

  const MaxPageSize: int := 100

  /** The checks, named for what they guard. */
  datatype Check = ConfigCheck | AuthCheck | EntityCheck | ChildEntitiesCheck | PageSizeCheck

  /** The order in which the checks run. */
  const CheckOrder: seq<Check> := [ConfigCheck, AuthCheck, EntityCheck, ChildEntitiesCheck, PageSizeCheck]

  /** `Config.Validate`: the error text for an invalid configuration, None for a valid one. */
  type ConfigValidator<!C> = C -> Option<string>

  predicate AuthMissing(auth: Option<AuthCredentials>) {
    auth.None? || auth.value.httpAuthorization == ""
  }

  /** Whether `check` rejects `request`. */
  predicate Fails<C>(validateConfig: ConfigValidator<C>, request: Request<C>, check: Check) {
    match check
    case ConfigCheck => validateConfig(request.config).Some?
    case AuthCheck => AuthMissing(request.auth)
    case EntityCheck => request.entity.externalId !in Datasource.ValidEntityExternalIDs
    case ChildEntitiesCheck => |request.entity.childEntities| > 0
    case PageSizeCheck => request.pageSize > MaxPageSize
  }

  /** The error a failing check reports. */
  function FailureOf<C>(validateConfig: ConfigValidator<C>, request: Request<C>, check: Check): Error
    requires Fails(validateConfig, request, check)
  {
    match check
    case ConfigCheck =>
      Error("Provided config is invalid: " + validateConfig(request.config).value + ".", InvalidDatasourceConfig)
    case AuthCheck =>
      Error("PagerDuty auth is missing required token.", InvalidDatasourceConfig)
    case EntityCheck =>
      Error("Provided entity external ID is invalid.", InvalidEntityConfig)
    case ChildEntitiesCheck =>
      Error("Requested entity does not support child entities.", InvalidEntityConfig)
    case PageSizeCheck =>
      Error("Provided page size (" + FormatInt(request.pageSize) + ") exceeds maximum ("
            + FormatInt(MaxPageSize) + ").", InvalidPageRequestConfig)
  }

  /** The position of the first check in `checks` that `fails`, if any: fail-fast search. */
  function FirstFailing(checks: seq<Check>, fails: Check -> bool): (r: Option<nat>)
    ensures r.None? <==> forall i :: 0 <= i < |checks| ==> !fails(checks[i])
    ensures r.Some? ==>
      && r.value < |checks|
      && fails(checks[r.value])
      && forall j :: 0 <= j < r.value ==> !fails(checks[j])
  {
    if checks == [] then None
    else if fails(checks[0]) then Some(0)
    else match FirstFailing(checks[1..], fails)
      case None => None
      case Some(k) => Some(k + 1)
  }

  /**
    The request is rejected with the error of the earliest failing check in
    the order config, auth, entity, child entities, page size, and accepted
    exactly when every check passes.
  */
  function ValidateGetPageRequest<C>(validateConfig: ConfigValidator<C>, request: Request<C>): (r: Option<Error>)
    ensures r.None? <==> forall c: Check :: !Fails(validateConfig, request, c)
    ensures var first := FirstFailing(CheckOrder, c => Fails(validateConfig, request, c));
      r == if first.None? then None else Some(FailureOf(validateConfig, request, CheckOrder[first.value]))
  {
    var configErr := validateConfig(request.config);
    if configErr.Some? then
      assert Fails(validateConfig, request, ConfigCheck);
      Some(Error("Provided config is invalid: " + configErr.value + ".", InvalidDatasourceConfig))
    else if request.auth.None? || request.auth.value.httpAuthorization == "" then
      assert Fails(validateConfig, request, AuthCheck);
      Some(Error("PagerDuty auth is missing required token.", InvalidDatasourceConfig))
    else if request.entity.externalId !in Datasource.ValidEntityExternalIDs then
      assert Fails(validateConfig, request, EntityCheck);
      Some(Error("Provided entity external ID is invalid.", InvalidEntityConfig))
    else if |request.entity.childEntities| > 0 then
      assert Fails(validateConfig, request, ChildEntitiesCheck);
      Some(Error("Requested entity does not support child entities.", InvalidEntityConfig))
    else if request.pageSize > MaxPageSize then
      assert Fails(validateConfig, request, PageSizeCheck);
      Some(Error("Provided page size (" + FormatInt(request.pageSize) + ") exceeds maximum ("
                 + FormatInt(MaxPageSize) + ").", InvalidPageRequestConfig))
    else
      None
  }

  // ---------------------------------------------------------------------------
  // One lemma per check: what it reports, given that the earlier ones passed.

  lemma InvalidConfigRejected<C>(validateConfig: ConfigValidator<C>, request: Request<C>)
    requires validateConfig(request.config).Some?
    ensures ValidateGetPageRequest(validateConfig, request)
         == Some(Error("Provided config is invalid: " + validateConfig(request.config).value + ".",
                       InvalidDatasourceConfig))
  {
  }

  lemma MissingTokenRejected<C>(validateConfig: ConfigValidator<C>, request: Request<C>)
    requires validateConfig(request.config).None?
    requires AuthMissing(request.auth)
    ensures ValidateGetPageRequest(validateConfig, request)
         == Some(Error("PagerDuty auth is missing required token.", InvalidDatasourceConfig))
  {
  }

  lemma UnknownEntityRejected<C>(validateConfig: ConfigValidator<C>, request: Request<C>)
    requires validateConfig(request.config).None? && !AuthMissing(request.auth)
    requires request.entity.externalId != Datasource.Teams
    ensures var r := ValidateGetPageRequest(validateConfig, request);
      r.Some? && r.value.code == InvalidEntityConfig
  {
  }

  lemma ChildEntitiesRejected<C>(validateConfig: ConfigValidator<C>, request: Request<C>)
    requires validateConfig(request.config).None? && !AuthMissing(request.auth)
    requires request.entity.externalId == Datasource.Teams
    requires request.entity.childEntities != []
    ensures var r := ValidateGetPageRequest(validateConfig, request);
      r.Some? && r.value.code == InvalidEntityConfig
  {
  }

  /** Only the upper bound is checked: 100 passes, as do zero and negative sizes. */
  lemma PageSizeBound<C>(validateConfig: ConfigValidator<C>, request: Request<C>)
    requires validateConfig(request.config).None? && !AuthMissing(request.auth)
    requires request.entity.externalId == Datasource.Teams && request.entity.childEntities == []
    ensures var r := ValidateGetPageRequest(validateConfig, request);
      && (r.None? <==> request.pageSize <= MaxPageSize)
      && (r.Some? ==> r.value.code == InvalidPageRequestConfig)
  {
  }
}

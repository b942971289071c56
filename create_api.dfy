/**
 * The permissions API factory: the caller's options are shallow-merged onto
 * the defaults, and the two endpoints (the status query and the request
 * mutation) gate every kind on the merged permission list before calling a
 * handler. Each query provides, and each mutation invalidates, the tag of
 * its kind.
 *
 * An endpoint's outcome records the handler calls and provider calls made,
 * so that "the handler is never invoked" is a stated postcondition.
 */
module CreateApi {
  import opened Wrappers
  import opened Types
  import opened Handlers

  // ---------------------------------------------------------------------------
  // Options and the config merge

  /** A key of the caller's options object: left out, explicitly `undefined`, or given a value. */
  datatype Supplied<T> = Omitted | Undefined | Given(value: T)

  /** The caller's options, every key optional. */
  datatype Options = Options(
    permissions: Supplied<seq<PermissionType>>,
    recheckOnForeground: Supplied<bool>,
    autoCheckOnMount: Supplied<bool>,
    cacheTime: Supplied<CacheTime>)

  /** `createPermissionsApi()` with no argument. */
  const NoOptions: Options := Options(Omitted, Omitted, Omitted, Omitted)

  /** Options that give every key the value it has in `c`. */
  function OptionsOf(c: PermissionsConfig): Options {
    Options(Given(c.permissions), Given(c.recheckOnForeground), Given(c.autoCheckOnMount), Given(c.cacheTime))
  }

  predicate NoUndefinedKey(o: Options) {
    !o.permissions.Undefined? && !o.recheckOnForeground.Undefined?
    && !o.autoCheckOnMount.Undefined? && !o.cacheTime.Undefined?
  }

  function KeyOr<T>(s: Supplied<T>, default: T): T {
    if s.Given? then s.value else default
  }

  /** Merges options onto `base`: a key the caller gives wins, every other key keeps its base value. */
  function MergeConfig(base: PermissionsConfig, o: Options): (c: PermissionsConfig)
    ensures o.permissions.Given? ==> c.permissions == o.permissions.value
    ensures !o.permissions.Given? ==> c.permissions == base.permissions
    ensures o.recheckOnForeground.Given? ==> c.recheckOnForeground == o.recheckOnForeground.value
    ensures !o.recheckOnForeground.Given? ==> c.recheckOnForeground == base.recheckOnForeground
    ensures o.autoCheckOnMount.Given? ==> c.autoCheckOnMount == o.autoCheckOnMount.value
    ensures !o.autoCheckOnMount.Given? ==> c.autoCheckOnMount == base.autoCheckOnMount
    ensures o.cacheTime.Given? ==> c.cacheTime == o.cacheTime.value
    ensures !o.cacheTime.Given? ==> c.cacheTime == base.cacheTime
  {
    PermissionsConfig(
      KeyOr(o.permissions, base.permissions),
      KeyOr(o.recheckOnForeground, base.recheckOnForeground),
      KeyOr(o.autoCheckOnMount, base.autoCheckOnMount),
      KeyOr(o.cacheTime, base.cacheTime))
  }

  /** Merging no options changes nothing. */
  lemma MergeNothing(base: PermissionsConfig)
    ensures MergeConfig(base, NoOptions) == base
  {
  }

  /** Options that give every key replace the base entirely. */
  lemma MergeEverything(base: PermissionsConfig, c: PermissionsConfig)
    ensures MergeConfig(base, OptionsOf(c)) == c
  {
  }

  /** Merging the same options twice is merging them once. */
  lemma MergeIdempotent(base: PermissionsConfig, o: Options)
    ensures MergeConfig(MergeConfig(base, o), o) == MergeConfig(base, o)
  {
  }

  /** The merged object as the spread builds it: `None` where a key holds `undefined`. */
  datatype SpreadConfig = SpreadConfig(
    permissions: Option<seq<PermissionType>>,
    recheckOnForeground: Option<bool>,
    autoCheckOnMount: Option<bool>,
    cacheTime: Option<CacheTime>)

  function Defined(c: PermissionsConfig): SpreadConfig {
    SpreadConfig(Some(c.permissions), Some(c.recheckOnForeground), Some(c.autoCheckOnMount), Some(c.cacheTime))
  }

  function SpreadKey<T>(base: T, s: Supplied<T>): Option<T> {
    match s
    case Omitted => Some(base)
    case Undefined => None
    case Given(v) => Some(v)
  }

  /** `{ ...base, ...o }` as JavaScript evaluates it: an own key holding `undefined` is copied too. */
  function SpreadAsWritten(base: PermissionsConfig, o: Options): (c: SpreadConfig)
    ensures o.permissions.Undefined? <==> c.permissions.None?
    ensures o.recheckOnForeground.Undefined? <==> c.recheckOnForeground.None?
    ensures o.autoCheckOnMount.Undefined? <==> c.autoCheckOnMount.None?
    ensures o.cacheTime.Undefined? <==> c.cacheTime.None?
    ensures o.permissions.Given? ==> c.permissions == Some(o.permissions.value)
    ensures o.permissions.Omitted? ==> c.permissions == Some(base.permissions)
    ensures o.recheckOnForeground.Given? ==> c.recheckOnForeground == Some(o.recheckOnForeground.value)
    ensures o.recheckOnForeground.Omitted? ==> c.recheckOnForeground == Some(base.recheckOnForeground)
    ensures o.autoCheckOnMount.Given? ==> c.autoCheckOnMount == Some(o.autoCheckOnMount.value)
    ensures o.autoCheckOnMount.Omitted? ==> c.autoCheckOnMount == Some(base.autoCheckOnMount)
    ensures o.cacheTime.Given? ==> c.cacheTime == Some(o.cacheTime.value)
    ensures o.cacheTime.Omitted? ==> c.cacheTime == Some(base.cacheTime)
  {
    SpreadConfig(
      SpreadKey(base.permissions, o.permissions),
      SpreadKey(base.recheckOnForeground, o.recheckOnForeground),
      SpreadKey(base.autoCheckOnMount, o.autoCheckOnMount),
      SpreadKey(base.cacheTime, o.cacheTime))
  }

  /** An explicitly undefined `permissions` key leaves the merged config with no permission list at all. */
  lemma UndefinedKeyErasesDefault()
    ensures SpreadAsWritten(DefaultConfig, NoOptions.(permissions := Undefined)).permissions == None
    ensures MergeConfig(DefaultConfig, NoOptions.(permissions := Undefined)).permissions == AllPermissions
  {
  }

  /** Without explicitly undefined keys, the spread and the merge agree. */
  lemma SpreadAgreesWithMerge(base: PermissionsConfig, o: Options)
    requires NoUndefinedKey(o)
    ensures SpreadAsWritten(base, o) == Defined(MergeConfig(base, o))
  {
  }

  // ---------------------------------------------------------------------------
  // Endpoint results

  /** The framework's error status for errors a query function returns itself. */
  const CustomError: string := "CUSTOM_ERROR"

  datatype QueryError = QueryError(status: string, error: string)

  /** What a query function returns: `{ data }` or `{ error }`. */
  datatype QueryReturn = Data(data: PermissionState) | Error(error: QueryError)

  /** A query function's return value with the handler and provider calls it made. */
  datatype EndpointOutcome = EndpointOutcome(
    returned: QueryReturn,
    handlerCalls: seq<PermissionType>,
    providerCalls: seq<ProviderCall>)

  /** The error for a kind outside the configured list. */
  function NotConfiguredMessage(k: PermissionType): string {
    "Permission \"" + PermissionTypeName(k) + "\" is not configured"
  }

  /**
   * The body shared by both endpoints' query functions: reject a kind that is
   * not configured before calling anything, otherwise call the handler once
   * and pass its data through or wrap its error.
   */
  function QueryFn(config: PermissionsConfig, k: PermissionType, handler: PermissionType -> HandlerOutcome)
    : (o: EndpointOutcome)
    ensures k !in config.permissions ==>
              && o.returned == Error(QueryError(CustomError, NotConfiguredMessage(k)))
              && o.handlerCalls == [] && o.providerCalls == []
    ensures k in config.permissions ==>
              && o.handlerCalls == [k]
              && o.providerCalls == handler(k).calls
              && (handler(k).result.Failure? ==> o.returned == Error(QueryError(CustomError, handler(k).result.error)))
              && (handler(k).result.Success? ==> o.returned == Data(handler(k).result.value))
  {
    if k !in config.permissions then
      EndpointOutcome(Error(QueryError(CustomError, NotConfiguredMessage(k))), [], [])
    else
      var run := handler(k);
      match run.result
      case Failure(e) => EndpointOutcome(Error(QueryError(CustomError, e)), [k], run.calls)
      case Success(state) => EndpointOutcome(Data(state), [k], run.calls)
  }

  /**
   * Holds of an endpoint outcome for kind `k` whose handler dispatches to the
   * `action` family: the gate, the missing module and the provider answer,
   * end to end.
   */
  predicate Served(
    config: PermissionsConfig, k: PermissionType, action: Action, available: string -> bool,
    respond: ProviderCall -> PermissionResponse, o: EndpointOutcome)
  {
    var m := ModuleOf(k);
    && (k !in config.permissions ==>
          o.returned == Error(QueryError(CustomError, NotConfiguredMessage(k)))
          && o.handlerCalls == [] && o.providerCalls == [])
    && (k in config.permissions && !available(ModuleId(m)) ==>
          o.returned == Error(QueryError(CustomError, NotInstalled(m)))
          && o.handlerCalls == [k] && o.providerCalls == [])
    && (k in config.permissions && available(ModuleId(m)) ==>
          && o.handlerCalls == [k]
          && |o.providerCalls| == 1
          && o.providerCalls[0].provider == m
          && o.providerCalls[0].action == action
          && o.providerCalls[0].name == Capability(k, action)
          && o.returned == Data(NormalizeResponse(respond(o.providerCalls[0]))))
  }

  // ---------------------------------------------------------------------------
  // The API

  /** An API instance: its endpoints close over the merged configuration. */
  datatype PermissionsApi = PermissionsApi(config: PermissionsConfig) {

    /** The `getPermission` query's query function. */
    function GetPermissionQuery(k: PermissionType, available: string -> bool, respond: ProviderCall -> PermissionResponse)
      : (o: EndpointOutcome)
      ensures Served(config, k, Get, available, respond, o)
    {
      QueryFn(config, k, kind => GetPermission(kind, available, respond))
    }

    /** The `requestPermission` mutation's query function. */
    function RequestPermissionMutation(k: PermissionType, available: string -> bool, respond: ProviderCall -> PermissionResponse)
      : (o: EndpointOutcome)
      ensures Served(config, k, Request, available, respond, o)
    {
      QueryFn(config, k, kind => RequestPermission(kind, available, respond))
    }
  }

  /** Builds an API whose configuration is the options merged onto the defaults. */
  function CreatePermissionsApi(options: Options): (api: PermissionsApi)
    ensures api.config == MergeConfig(DefaultConfig, options)
    ensures options == NoOptions ==> api.config == DefaultConfig
  {
    PermissionsApi(MergeConfig(DefaultConfig, options))
  }

  /** With options `{ permissions: [camera, microphone] }`: camera is served, contacts is refused. */
  lemma CameraAndMicrophoneScenario(available: string -> bool, respond: ProviderCall -> PermissionResponse)
    requires available("expo-camera")
    requires forall c :: respond(c) == PermissionResponse("granted", None, None, None)
    ensures var api := CreatePermissionsApi(NoOptions.(permissions := Given([Camera, Microphone])));
      && api.GetPermissionQuery(Camera, available, respond).returned == Data(PermissionState(Granted, true, Never))
      && api.GetPermissionQuery(Contacts, available, respond).returned
           == Error(QueryError(CustomError, NotConfiguredMessage(Contacts)))
  {
  }

  /** Both endpoints refuse every kind of an API configured with no kinds, calling no provider. */
  lemma EmptyListRefusesAll(k: PermissionType, available: string -> bool, respond: ProviderCall -> PermissionResponse)
    ensures var api := CreatePermissionsApi(NoOptions.(permissions := Given([])));
      && api.GetPermissionQuery(k, available, respond).returned.Error?
      && api.GetPermissionQuery(k, available, respond).providerCalls == []
      && api.RequestPermissionMutation(k, available, respond).returned.Error?
      && api.RequestPermissionMutation(k, available, respond).providerCalls == []
  {
  }

  // ---------------------------------------------------------------------------
  // Cache tags

  /** The API's one tag type. */
  const PermissionTag: string := "Permission"

  /** A cache tag: a whole tag type, or one id of it. */
  datatype Tag = TypeTag(tagType: string) | IdTag(tagType: string, id: PermissionType)

  /** The tags the `getPermission` query provides for kind `k`. */
  function ProvidesTags(k: PermissionType): seq<Tag> {
    [IdTag(PermissionTag, k)]
  }

  /** The tags the `requestPermission` mutation invalidates for kind `k`. */
  function InvalidatesTags(k: PermissionType): seq<Tag> {
    [IdTag(PermissionTag, k)]
  }

  /** The tag list the foreground listener passes to `api.util.invalidateTags`. */
  const BulkInvalidation: seq<Tag> := [TypeTag(PermissionTag)]

  /**
   * The caching framework's matching rule: invalidating a bare type hits
   * every tag of that type, invalidating an id hits only that id.
   */
  predicate Hits(invalidated: Tag, provided: Tag) {
    invalidated.tagType == provided.tagType
    && (invalidated.IdTag? ==> provided.IdTag? && invalidated.id == provided.id)
  }

  predicate Invalidates(invalidated: seq<Tag>, provided: seq<Tag>) {
    exists i, j :: 0 <= i < |invalidated| && 0 <= j < |provided| && Hits(invalidated[i], provided[j])
  }

  /** A query and a mutation of the same kind use the same tag, `{ type: "Permission", id: k }`. */
  lemma TagsAgree(k: PermissionType)
    ensures ProvidesTags(k) == InvalidatesTags(k) == [IdTag("Permission", k)]
  {
  }

  /** A mutation for `j` invalidates the cached query for `k` exactly when `j == k`. */
  lemma MutationInvalidatesOwnKind(j: PermissionType, k: PermissionType)
    ensures Invalidates(InvalidatesTags(j), ProvidesTags(k)) <==> j == k
  {
    if j == k {
      assert Hits(InvalidatesTags(j)[0], ProvidesTags(k)[0]);
    }
  }

  /** The bulk tag list, once dispatched as an invalidation, would hit the cached query of every kind. */
  lemma BulkInvalidatesEveryKind(k: PermissionType)
    ensures Invalidates(BulkInvalidation, ProvidesTags(k))
  {
    assert Hits(BulkInvalidation[0], ProvidesTags(k)[0]);
  }
}

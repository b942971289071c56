/**
 * The permission handlers: the normaliser that turns a provider's response
 * into the canonical record, and the dispatch of each kind to its optional
 * provider module, for reading the status and for requesting it.
 *
 * Loading a module is an availability predicate over module ids, and a
 * provider capability is an injected function from the call made to the
 * response it returns. The calls made are recorded in the outcome, so that
 * "no provider is called" is something a contract can state.
 */
module Handlers {
  import opened Wrappers
  import opened Types

  /** A provider's raw answer: a status string and three optional fields. */
  datatype PermissionResponse = PermissionResponse(
    status: string,
    canAskAgain: Option<bool>,
    expires: Option<Expiry>,
    granted: Option<bool>)

  /** Maps a provider response onto the canonical record. */
  function NormalizeResponse(response: PermissionResponse): (r: PermissionState)
    // a status some non-undetermined status is named by is kept, anything else is undetermined
    ensures forall s :: s != Undetermined && StatusName(s) == response.status ==> r.status == s
    ensures r.status != Undetermined ==> StatusName(r.status) == response.status
    // defaults apply only to absent fields
    ensures response.canAskAgain.Some? ==> r.canAskAgain == response.canAskAgain.value
    ensures response.canAskAgain.None? ==> r.canAskAgain
    ensures response.expires.Some? ==> r.expires == response.expires.value
    ensures response.expires.None? ==> r.expires == Never
  {
    var status := response.status;
    PermissionState(
      if status == "granted" then Granted
      else if status == "denied" then Denied
      else if status == "limited" then Limited
      else Undetermined,
      response.canAskAgain.GetOr(true),
      response.expires.GetOr(Never))
  }

  /** A record written out as a provider response with every field present. */
  function AsResponse(state: PermissionState, granted: Option<bool>): PermissionResponse {
    PermissionResponse(StatusName(state.status), Some(state.canAskAgain), Some(state.expires), granted)
  }

  /** Normalising a response that already is a canonical record gives that record back. */
  lemma NormalizeCanonical(state: PermissionState, granted: Option<bool>)
    ensures NormalizeResponse(AsResponse(state, granted)) == state
  {
  }

  /** Normalising is idempotent: a normalised record normalises to itself. */
  lemma NormalizeIdempotent(response: PermissionResponse, granted: Option<bool>)
    ensures NormalizeResponse(AsResponse(NormalizeResponse(response), granted)) == NormalizeResponse(response)
  {
    NormalizeCanonical(NormalizeResponse(response), granted);
  }

  /** The `granted` flag has no influence on the record. */
  lemma NormalizeIgnoresGranted(response: PermissionResponse, granted: Option<bool>)
    ensures NormalizeResponse(response.(granted := granted)) == NormalizeResponse(response)
  {
  }

  /** The normalised status is undetermined exactly when the input names none of granted, denied, limited. */
  lemma NormalizeUndetermined(response: PermissionResponse)
    ensures NormalizeResponse(response).status == Undetermined
        <==> response.status != "granted" && response.status != "denied" && response.status != "limited"
  {
  }

  /** The seven optional provider modules. */
  datatype ExpoModule =
    | ExpoCamera
    | ExpoMediaLibrary
    | ExpoLocation
    | ExpoNotifications
    | ExpoContacts
    | ExpoCalendar
    | ExpoTrackingTransparency

  /** The package id under which a module is loaded. */
  function ModuleId(m: ExpoModule): string {
    match m
    case ExpoCamera => "expo-camera"
    case ExpoMediaLibrary => "expo-media-library"
    case ExpoLocation => "expo-location"
    case ExpoNotifications => "expo-notifications"
    case ExpoContacts => "expo-contacts"
    case ExpoCalendar => "expo-calendar"
    case ExpoTrackingTransparency => "expo-tracking-transparency"
  }

  /** The module serving each kind: camera and microphone share one, so do the two location kinds. */
  function ModuleOf(k: PermissionType): ExpoModule {
    match k
    case Camera => ExpoCamera
    case Microphone => ExpoCamera
    case MediaLibrary => ExpoMediaLibrary
    case LocationForeground => ExpoLocation
    case LocationBackground => ExpoLocation
    case Notifications => ExpoNotifications
    case Contacts => ExpoContacts
    case Calendar => ExpoCalendar
    case Tracking => ExpoTrackingTransparency
  }

  /** The error a handler raises when a module cannot be loaded. */
  function NotInstalled(m: ExpoModule): string {
    ModuleId(m) + " is not installed"
  }

  /** Which of a provider's two capability families is called. */
  datatype Action = Get | Request

  /** The provider function each kind calls, in each family. */
  function Capability(k: PermissionType, action: Action): string {
    match (k, action)
    case (Camera, Get) => "getCameraPermissionsAsync"
    case (Camera, Request) => "requestCameraPermissionsAsync"
    case (Microphone, Get) => "getMicrophonePermissionsAsync"
    case (Microphone, Request) => "requestMicrophonePermissionsAsync"
    case (MediaLibrary, Get) => "getPermissionsAsync"
    case (MediaLibrary, Request) => "requestPermissionsAsync"
    case (LocationForeground, Get) => "getForegroundPermissionsAsync"
    case (LocationForeground, Request) => "requestForegroundPermissionsAsync"
    case (LocationBackground, Get) => "getBackgroundPermissionsAsync"
    case (LocationBackground, Request) => "requestBackgroundPermissionsAsync"
    case (Notifications, Get) => "getPermissionsAsync"
    case (Notifications, Request) => "requestPermissionsAsync"
    case (Contacts, Get) => "getPermissionsAsync"
    case (Contacts, Request) => "requestPermissionsAsync"
    case (Calendar, Get) => "getCalendarPermissionsAsync"
    case (Calendar, Request) => "requestCalendarPermissionsAsync"
    case (Tracking, Get) => "getTrackingPermissionsAsync"
    case (Tracking, Request) => "requestTrackingPermissionsAsync"
  }

  /** One call of a provider capability: its module, its family and the function's name. */
  datatype ProviderCall = ProviderCall(provider: ExpoModule, action: Action, name: string)

  /** What a handler returns, together with the provider calls it made. */
  datatype HandlerOutcome = HandlerOutcome(result: Result<PermissionState, string>, calls: seq<ProviderCall>)

  /**
   * One case of a handler's switch: load module `m`; if it is missing, fail
   * and call nothing; otherwise call the named capability once and normalise
   * its response.
   */
  function Invoke(
    available: string -> bool, m: ExpoModule, action: Action, name: string,
    respond: ProviderCall -> PermissionResponse): HandlerOutcome
  {
    if !available(ModuleId(m)) then
      HandlerOutcome(Failure(NotInstalled(m)), [])
    else
      var call := ProviderCall(m, action, name);
      HandlerOutcome(Success(NormalizeResponse(respond(call))), [call])
  }

  /** Holds of a handler outcome for kind `k` that dispatched to the `action` family. */
  predicate Dispatched(
    k: PermissionType, action: Action, available: string -> bool,
    respond: ProviderCall -> PermissionResponse, o: HandlerOutcome)
  {
    var m := ModuleOf(k);
    && (!available(ModuleId(m)) ==> o.result == Failure(NotInstalled(m)) && o.calls == [])
    && (available(ModuleId(m)) ==>
          && |o.calls| == 1
          && o.calls[0].provider == m
          && o.calls[0].action == action
          && o.calls[0].name == Capability(k, action)
          && o.result == Success(NormalizeResponse(respond(o.calls[0]))))
  }

  /** Reads a kind's current status from its provider. */
  function GetPermission(
    k: PermissionType, available: string -> bool,
    respond: ProviderCall -> PermissionResponse): (o: HandlerOutcome)
    ensures Dispatched(k, Get, available, respond, o)
  {
    match k
    case Camera => Invoke(available, ExpoCamera, Get, "getCameraPermissionsAsync", respond)
    case Microphone => Invoke(available, ExpoCamera, Get, "getMicrophonePermissionsAsync", respond)
    case MediaLibrary => Invoke(available, ExpoMediaLibrary, Get, "getPermissionsAsync", respond)
    case LocationForeground => Invoke(available, ExpoLocation, Get, "getForegroundPermissionsAsync", respond)
    case LocationBackground => Invoke(available, ExpoLocation, Get, "getBackgroundPermissionsAsync", respond)
    case Notifications => Invoke(available, ExpoNotifications, Get, "getPermissionsAsync", respond)
    case Contacts => Invoke(available, ExpoContacts, Get, "getPermissionsAsync", respond)
    case Calendar => Invoke(available, ExpoCalendar, Get, "getCalendarPermissionsAsync", respond)
    case Tracking => Invoke(available, ExpoTrackingTransparency, Get, "getTrackingPermissionsAsync", respond)
  }

  /** Asks the user for a kind through its provider's prompt. */
  function RequestPermission(
    k: PermissionType, available: string -> bool,
    respond: ProviderCall -> PermissionResponse): (o: HandlerOutcome)
    ensures Dispatched(k, Request, available, respond, o)
  {
    match k
    case Camera => Invoke(available, ExpoCamera, Request, "requestCameraPermissionsAsync", respond)
    case Microphone => Invoke(available, ExpoCamera, Request, "requestMicrophonePermissionsAsync", respond)
    case MediaLibrary => Invoke(available, ExpoMediaLibrary, Request, "requestPermissionsAsync", respond)
    case LocationForeground => Invoke(available, ExpoLocation, Request, "requestForegroundPermissionsAsync", respond)
    case LocationBackground => Invoke(available, ExpoLocation, Request, "requestBackgroundPermissionsAsync", respond)
    case Notifications => Invoke(available, ExpoNotifications, Request, "requestPermissionsAsync", respond)
    case Contacts => Invoke(available, ExpoContacts, Request, "requestPermissionsAsync", respond)
    case Calendar => Invoke(available, ExpoCalendar, Request, "requestCalendarPermissionsAsync", respond)
    case Tracking => Invoke(available, ExpoTrackingTransparency, Request, "requestTrackingPermissionsAsync", respond)
  }

  /** Two kinds share a module exactly when both are camera/microphone or both are location kinds. */
  lemma SharedModules(a: PermissionType, b: PermissionType)
    ensures ModuleOf(a) == ModuleOf(b) <==>
              (|| a == b
               || (a in {Camera, Microphone} && b in {Camera, Microphone})
               || (a in {LocationForeground, LocationBackground} && b in {LocationForeground, LocationBackground}))
  {
  }

  /** Distinct modules have distinct package ids. */
  lemma ModuleIdInjective(m: ExpoModule, n: ExpoModule)
    ensures ModuleId(m) == ModuleId(n) <==> m == n
  {
  }

  /** Every module serves some kind. */
  lemma ModuleOfOnto(m: ExpoModule) returns (k: PermissionType)
    ensures k in AllPermissions && ModuleOf(k) == m
  {
    k := match m
      case ExpoCamera => Camera
      case ExpoMediaLibrary => MediaLibrary
      case ExpoLocation => LocationForeground
      case ExpoNotifications => Notifications
      case ExpoContacts => Contacts
      case ExpoCalendar => Calendar
      case ExpoTrackingTransparency => Tracking;
    AllPermissionsExactlyOnce(k);
  }

  /** The seven modules. */
  const AllModules: set<ExpoModule> := {
    ExpoCamera, ExpoMediaLibrary, ExpoLocation, ExpoNotifications,
    ExpoContacts, ExpoCalendar, ExpoTrackingTransparency}

  /** The modules serving the nine kinds are exactly the seven modules. */
  lemma ModulesServingAll()
    ensures (set k | k in AllPermissions :: ModuleOf(k)) == AllModules
  {
    forall m | m in AllModules ensures m in (set k | k in AllPermissions :: ModuleOf(k)) {
      var k := ModuleOfOnto(m);
    }
  }

  /** The nine kinds are served by exactly seven modules. */
  lemma SevenModules()
    ensures |set k | k in AllPermissions :: ModuleOf(k)| == 7
  {
    ModulesServingAll();
  }

  /**
   * Requesting uses the same module, fails with the same message and makes
   * the same number of calls as reading; only the capability called differs.
   */
  lemma RequestMirrorsGet(k: PermissionType, available: string -> bool, respond: ProviderCall -> PermissionResponse)
    ensures var g, r := GetPermission(k, available, respond), RequestPermission(k, available, respond);
      && (g.result.Failure? <==> r.result.Failure?)
      && (g.result.Failure? ==> g.result == r.result)
      && |g.calls| == |r.calls|
      && (forall i :: 0 <= i < |g.calls| ==>
            g.calls[i].provider == r.calls[i].provider && g.calls[i].action != r.calls[i].action)
  {
  }

  /** Two kinds that make the same provider call are the same kind, in either family. */
  lemma CallsIdentifyKind(a: PermissionType, b: PermissionType, action: Action)
    ensures (ProviderCall(ModuleOf(a), action, Capability(a, action))
             == ProviderCall(ModuleOf(b), action, Capability(b, action))) <==> a == b
  {
  }

  /** Every message a handler fails with is non-empty, hence truthy. */
  lemma HandlerErrorsNonEmpty(k: PermissionType, available: string -> bool, respond: ProviderCall -> PermissionResponse)
    ensures GetPermission(k, available, respond).result.Failure? ==>
              |GetPermission(k, available, respond).result.error| > 0
    ensures RequestPermission(k, available, respond).result.Failure? ==>
              |RequestPermission(k, available, respond).result.error| > 0
  {
  }
}

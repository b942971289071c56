/**
 * The permission vocabulary: the nine permission kinds, the four statuses,
 * the canonical three-field permission record, the configuration and its
 * defaults.
 */
module Types {

  /** The closed set of permission kinds, in declaration order. */
  datatype PermissionType =
    | Camera
    | Microphone
    | MediaLibrary
    | LocationForeground
    | LocationBackground
    | Notifications
    | Contacts
    | Calendar
    | Tracking

  /** The string tag by which a permission kind is known to callers. */
  function PermissionTypeName(k: PermissionType): string {
    match k
    case Camera => "camera"
    case Microphone => "microphone"
    case MediaLibrary => "mediaLibrary"
    case LocationForeground => "locationForeground"
    case LocationBackground => "locationBackground"
    case Notifications => "notifications"
    case Contacts => "contacts"
    case Calendar => "calendar"
    case Tracking => "tracking"
  }

  datatype PermissionStatus = Undetermined | Granted | Denied | Limited

  /** The string literal the status stands for. */
  function StatusName(s: PermissionStatus): string {
    match s
    case Undetermined => "undetermined"
    case Granted => "granted"
    case Denied => "denied"
    case Limited => "limited"
  }

  /** `expires: "never" | number`; a number is an epoch-like instant. */
  datatype Expiry = Never | At(time: real)

  /** The canonical permission record: exactly these three fields. */
  datatype PermissionState = PermissionState(status: PermissionStatus, canAskAgain: bool, expires: Expiry)

  /** The cache lifetime in seconds; the source's `Infinity` is `Unbounded`. */
  datatype CacheTime = Unbounded | Seconds(seconds: real)

  /** A fully resolved configuration (every key present). */
  datatype PermissionsConfig = PermissionsConfig(
    permissions: seq<PermissionType>,
    recheckOnForeground: bool,
    autoCheckOnMount: bool,
    cacheTime: CacheTime)

  /** Every permission kind, in the fixed enumeration order. */
  const AllPermissions: seq<PermissionType> := [
    Camera, Microphone, MediaLibrary, LocationForeground, LocationBackground,
    Notifications, Contacts, Calendar, Tracking
  ]

  /** The documented defaults: all kinds, recheck on foreground, no check on mount, unbounded cache. */
  const DefaultConfig: PermissionsConfig := PermissionsConfig(AllPermissions, true, false, Unbounded)

  /** The string tags of a list of kinds, in order. */
  function Names(ks: seq<PermissionType>): (r: seq<string>)
    ensures |r| == |ks|
    ensures forall i :: 0 <= i < |ks| ==> r[i] == PermissionTypeName(ks[i])
  {
    if ks == [] then [] else [PermissionTypeName(ks[0])] + Names(ks[1..])
  }

  /** The position of a kind in AllPermissions. */
  function PositionOf(k: PermissionType): (i: nat)
    ensures i < |AllPermissions| && AllPermissions[i] == k
  {
    match k
    case Camera => 0
    case Microphone => 1
    case MediaLibrary => 2
    case LocationForeground => 3
    case LocationBackground => 4
    case Notifications => 5
    case Contacts => 6
    case Calendar => 7
    case Tracking => 8
  }

  /** AllPermissions lists the nine tags in the documented order. */
  lemma AllPermissionsListing()
    ensures |AllPermissions| == 9
    ensures Names(AllPermissions) == [
      "camera", "microphone", "mediaLibrary", "locationForeground", "locationBackground",
      "notifications", "contacts", "calendar", "tracking"]
  {
  }

  /** Every kind occurs in AllPermissions, and exactly once. */
  lemma AllPermissionsExactlyOnce(k: PermissionType)
    ensures k in AllPermissions
    ensures forall i :: 0 <= i < |AllPermissions| && AllPermissions[i] == k ==> i == PositionOf(k)
  {
  }

  /** No two positions of AllPermissions hold the same kind. */
  lemma AllPermissionsDistinct()
    ensures forall i, j :: 0 <= i < j < |AllPermissions| ==> AllPermissions[i] != AllPermissions[j]
  {
  }

  /** Distinct kinds have distinct string tags. */
  lemma PermissionTypeNameInjective(a: PermissionType, b: PermissionType)
    ensures PermissionTypeName(a) == PermissionTypeName(b) <==> a == b
  {
  }

  /** The default configuration's four values. */
  lemma DefaultConfigValues()
    ensures DefaultConfig.permissions == AllPermissions
    ensures DefaultConfig.recheckOnForeground
    ensures !DefaultConfig.autoCheckOnMount
    ensures DefaultConfig.cacheTime == Unbounded
  {
  }
}

# expo-permissions-store, modelled in Dafny

This library exposes a mobile platform's runtime permission checks as a
declarative query/cache API. The model covers its four pieces of actual logic:

- **Types** (`types.dfy`): the nine permission kinds, the four statuses, the
  canonical three-field `PermissionState`, the configuration, the ordered
  `AllPermissions` list and `DefaultConfig`.
- **Handlers** (`handlers.dfy`): `NormalizeResponse`, which maps a provider
  response onto the canonical record, and `GetPermission` /
  `RequestPermission`, which send each kind to one of seven optional Expo
  modules and fail with `"<module> is not installed"` when the module cannot
  be loaded.
- **CreateApi** (`create_api.dfy`): the shallow merge of the caller's options
  onto the defaults, and the query function shared by the `getPermission`
  query and the `requestPermission` mutation. That function refuses a kind
  that is not configured before it calls the handler, and wraps handler
  errors as `CUSTOM_ERROR`. This file also holds the per-kind cache tags and
  the bulk tag list.
- **Foreground** (`foreground.dfy`): the listener installed by
  `setupForegroundListener`, a class whose `previousState` field is
  reassigned on every change event. It calls
  `api.util.invalidateTags(["Permission"])` exactly on a transition from a
  non-active state to `active`.

`wrappers.dfy` holds `Option` (a TypeScript optional field) and `Result`.

How effects are represented:

- Loading a module (`safeRequire`) is an injected predicate `available` over
  module ids.
- Each Expo provider function is an injected function `respond` from the call
  made to the response it gives.
- Every outcome records the provider calls and handler calls made. So "no
  provider is called", and "the handler is not invoked", are postconditions.
- The handlers throw on a missing module, while `createApi.ts` reads
  `result.error` / `result.data`. The model follows the repository's tests,
  which mock the handler as returning `{ data, error }`. A handler outcome is
  therefore a `Result<PermissionState, string>`, and the "not installed"
  throw becomes a `Failure` with the same message. No catch is modelled, and
  there is no `Unknown error` fallback: neither exists in the code.
- The listener's effect on the API is a log, `invalidations`, holding one
  entry per `api.util.invalidateTags` call.

## Model

| member | source | states |
|---|---|---|
| `Types.AllPermissionsListing` | src/types.ts:50-60 | the list has 9 entries whose tags are camera, microphone, mediaLibrary, locationForeground, locationBackground, notifications, contacts, calendar, tracking, in that order |
| `Types.AllPermissionsExactlyOnce` | src/types.ts:1-10 | every kind of the closed union occurs in the list, at exactly one position |
| `Types.AllPermissionsDistinct` | src/types.ts:50-60 | no two positions of the list hold the same kind |
| `Types.PositionOf` | src/types.ts:50-60 | each kind has a position in the list that holds that kind |
| `Types.PermissionTypeNameInjective` | src/types.ts:1-10 | two kinds have the same string tag exactly when they are the same kind |
| `Types.DefaultConfigValues` | src/types.ts:62-67 | the defaults are all permissions, recheck on foreground, no check on mount, and an unbounded cache time |
| `Handlers.NormalizeResponse` | src/permissions/handlers.ts:10-22 | the status is kept when the input names granted, denied or limited, and is undetermined otherwise; an absent canAskAgain becomes true and a given one (false included) is kept; an absent expires becomes never and a given one (0 included) is kept |
| `Handlers.NormalizeUndetermined` | src/permissions/handlers.ts:15-18 | the result is undetermined exactly when the input status is none of "granted", "denied", "limited" |
| `Handlers.NormalizeCanonical` | src/permissions/handlers.ts:14-21 | a response that already is a canonical record normalises to that record, whatever its granted flag |
| `Handlers.NormalizeIdempotent` | src/permissions/handlers.ts:14-21 | normalising a normalised record again gives it back unchanged |
| `Handlers.NormalizeIgnoresGranted` | src/permissions/handlers.ts:3-8 | the granted flag has no effect on the record, which has no field for it |
| `Handlers.GetPermission` | src/permissions/handlers.ts:53-145 | if the kind's module is unavailable, the result is that module's "not installed" failure and no provider is called; otherwise exactly one call is made, to the kind's own "get" function of that module (the `Capability` table), and its response, normalised, is the result |
| `Handlers.RequestPermission` | src/permissions/handlers.ts:147-239 | the same as GetPermission, with the kind's own "request" function called instead |
| `Handlers.CallsIdentifyKind` | src/permissions/handlers.ts:57-138 | in either family, two kinds make the same provider call exactly when they are the same kind |
| `Handlers.RequestMirrorsGet` | src/permissions/handlers.ts:147-239 | for every kind, requesting and reading fail together and with the same message, and call the same module the same number of times; only the capability family differs |
| `Handlers.SharedModules` | src/permissions/handlers.ts:57-138 | two kinds share a module exactly when both are camera/microphone or both are location kinds |
| `Handlers.ModuleOfOnto` | src/permissions/handlers.ts:29-43 | each of the seven modules serves some kind |
| `Handlers.ModulesServingAll` | src/permissions/handlers.ts:29-43 | the modules serving the nine kinds are exactly the seven modules |
| `Handlers.SevenModules` | src/permissions/handlers.ts:29-43 | the nine kinds are served by exactly seven modules |
| `Handlers.ModuleIdInjective` | src/permissions/handlers.ts:29-43 | the seven modules have seven distinct package ids |
| `Handlers.HandlerErrorsNonEmpty` | src/createApi.ts:29-30 | every handler failure message is non-empty, so the truthiness test on `result.error` agrees with the failure tag |
| `CreateApi.MergeConfig` | src/createApi.ts:10-11 | every key the caller gives overrides the base value; every key left out keeps it |
| `CreateApi.MergeNothing` | src/createApi.ts:10-11 | with no options the merged config equals the base |
| `CreateApi.MergeEverything` | src/createApi.ts:11 | options giving every key replace the base entirely |
| `CreateApi.MergeIdempotent` | src/createApi.ts:11 | merging the same options twice is merging them once |
| `CreateApi.SpreadAsWritten` | src/createApi.ts:11 | the object spread as evaluated: a key holds undefined in the result exactly when the caller set it to undefined; a given key holds the caller's value and an omitted key the base value |
| `CreateApi.UndefinedKeyErasesDefault` | src/createApi.ts:11 | `{ permissions: undefined }` leaves the spread result with no permission list, while the corrected merge keeps all permissions |
| `CreateApi.SpreadAgreesWithMerge` | src/createApi.ts:11 | when no key is explicitly undefined, the spread and the corrected merge give the same config |
| `CreateApi.QueryFn` | src/createApi.ts:19-39 | an unconfigured kind gives CUSTOM_ERROR with `Permission "<kind>" is not configured`, and calls neither handler nor provider; a configured kind calls the handler once, passes its data through unchanged, or returns its error unchanged inside CUSTOM_ERROR |
| `CreateApi.PermissionsApi.GetPermissionQuery` | src/createApi.ts:18-44 | end to end: the not-configured error with neither handler nor provider called; for a configured kind with a missing module, CUSTOM_ERROR with "module is not installed" and no provider call; otherwise one call of the kind's own "get" function of its module and its normalised response as data |
| `CreateApi.PermissionsApi.RequestPermissionMutation` | src/createApi.ts:46-71 | the same as GetPermissionQuery, with one call of the kind's own "request" function |
| `CreateApi.CreatePermissionsApi` | src/createApi.ts:75-78 | the returned config is the options merged onto the defaults, and equals the defaults when no options are given |
| `CreateApi.CameraAndMicrophoneScenario` | src/createApi.ts:19-38 | configured with camera and microphone, and given a provider answering `{status: "granted"}`, camera yields {granted, true, never} and contacts is refused as not configured |
| `CreateApi.EmptyListRefusesAll` | src/createApi.ts:20-27 | with an empty permission list, both endpoints refuse every kind and call no provider |
| `CreateApi.TagsAgree` | src/createApi.ts:40-42 | the tag a query provides for a kind equals the tag the mutation invalidates for it, namely {Permission, kind} |
| `CreateApi.MutationInvalidatesOwnKind` | src/createApi.ts:68-70 | under the framework's tag-matching rule, a mutation for kind j hits the cached query for kind k exactly when j equals k |
| `CreateApi.BulkInvalidatesEveryKind` | src/foreground.ts:14 | the bulk list ["Permission"] passed to `invalidateTags` would, once dispatched, hit the cached query of every kind |
| `Foreground.FireCountSnoc` | src/foreground.ts:11-17 | one more change event adds one firing exactly when it goes from a non-active remembered state to active |
| `Foreground.FiresNeverAdjacent` | src/foreground.ts:12-16 | n events fire at most ceil(n/2) times, and at most floor(n/2) times when starting from active, because a firing leaves the state active and the next event cannot fire |
| `Foreground.NoActiveNoFire` | src/foreground.ts:12 | a trace that never reaches active fires nothing |
| `Foreground.StayingActiveNoFire` | src/foreground.test.ts:90-99 | active followed only by active fires nothing |
| `Foreground.MultipleTransitions` | src/foreground.test.ts:121-146 | from active, background, active, inactive, active, active give cumulative counts 0, 1, 1, 2, 2 |
| `Foreground.ForegroundListener.constructor` | src/foreground.ts:8-11 | previousState starts as the platform's current state; the listener is subscribed and has invalidated nothing |
| `Foreground.ForegroundListener.OnChange` | src/foreground.ts:11-17 | appends the bulk invalidation exactly when the remembered state is not active and the new one is; afterwards previousState is the new state, whether or not it fired; the invalidation count stays equal to FireCount of the history |
| `Foreground.ForegroundListener.Deliver` | src/foreground.ts:11-19 | while subscribed an event runs the callback; after cleanup an event changes nothing |
| `Foreground.ForegroundListener.Cleanup` | src/foreground.ts:19 | removes the subscription and changes nothing else |

`Foreground.ReplayMultipleTransitions` is a client of the listener's contracts alone. It replays the transitions of src/foreground.test.ts:121-146 and then cleans up, which removes the subscription as src/foreground.test.ts:111-119 checks. That later events add no invalidation follows from `Deliver`, the model's stand-in for an event source that delivers only to a live subscription; the test does not check it.

## Findings

| source | as written | input that shows it | evidently intended | confidence | as-written member | corrected member |
|---|---|---|---|---|---|---|
| src/createApi.ts:11 | `{ ...DEFAULT_CONFIG, ...config }` copies an own key whose value is `undefined`, so that key's default is overwritten with `undefined` | `createPermissionsApi({ permissions: undefined })`, which type-checks against the optional key: `mergedConfig.permissions` is undefined, so the `includes` call at src/createApi.ts:20 throws | a key set to undefined keeps its documented default, as the merged config's type claims: all permissions, recheck true, auto-check false, cache time Infinity | medium, not executed | `CreateApi.SpreadAsWritten`, exhibited by `CreateApi.UndefinedKeyErasesDefault` | `CreateApi.MergeConfig`, which `CreateApi.CreatePermissionsApi` uses |

## Left out

- Loading modules with `safeRequire` / `require()` (src/permissions/handlers.ts:26-51) is a foreign call. The model replaces it with the `available` predicate over module ids.
- The Expo provider functions themselves are opaque platform calls. Their responses are the injected `respond`, and the call records only the module, capability family and function name, not the `Camera.` namespace.
- A provider call that rejects, or never resolves, is not modelled. In the source such a rejection propagates uncaught.
- Promises and `await`: the model is sequential.
- Redux Toolkit Query: `createApi`, `fakeBaseQuery`, `reducerPath`, `keepUnusedDataFor`, reducers, middleware and hooks are left out, and so are src/store.ts, src/api.ts and src/index.ts. The framework's tag-matching rule is stated as `CreateApi.Hits`; it is not code of this repository.
- `providesTags` and `invalidatesTags` ignore the result, so the tag does not depend on success or failure; the model's tag functions take only the kind.
- `recheckOnForeground` and `autoCheckOnMount` are carried in the config, but no core code reads them: `setupForegroundListener` does not consult `recheckOnForeground`.
- The unreachable `default` branches (src/permissions/handlers.ts:140-143, 234-237) are covered by Dafny's exhaustive `match`.
- JavaScript numbers for `expires` and `cacheTime` are `real`. NaN, -0 and other floating-point corners are not modelled. `Infinity` is `CacheTime.Unbounded`.
- `CreateApi.QueryFn` tests the handler result's failure tag, while the source tests `result.error` for truthiness. The two differ only for an empty error string, which no handler produces (`Handlers.HandlerErrorsNonEmpty`).
- CreateApi.PermissionsApi.GetPermissionQuery, CreateApi.PermissionsApi.RequestPermissionMutation: they state the endpoints for a handler that returns `{ data, error }`, as the repository's tests mock it, not as the code is written. As written, `getPermission` / `requestPermission` resolve to a bare `PermissionState` (src/permissions/handlers.ts:53-55, 63), so `result.error` is undefined and a successful call returns `{ data: undefined }` (src/createApi.ts:30, 38, 58, 66). A missing module makes the handler throw (src/permissions/handlers.ts:61), which rejects the query function at src/createApi.ts:29 / 57, so the endpoint never returns the `CUSTOM_ERROR` "is not installed" value the model gives.
- CreateApi.BulkInvalidatesEveryKind, Foreground.ForegroundListener.OnChange: in Redux Toolkit Query, `api.util.invalidateTags([...])` only builds an invalidation action, and src/foreground.ts:14 discards it without dispatching it. `setupForegroundListener` receives no dispatch, and no file of the repository dispatches the action. So a foreground transition, as written, invalidates no cache entry. The `invalidations` log records the calls, and `Hits` describes what the action would do only once it is dispatched. The store and dispatch are not part of this model.
- CreateApi.CreatePermissionsApi, CreateApi.PermissionsApi.GetPermissionQuery, CreateApi.PermissionsApi.RequestPermissionMutation: the model takes a value snapshot of the merged config at creation. In the source the spread at src/createApi.ts:11 is shallow, so `mergedConfig.permissions` is the caller's own array, or the exported `ALL_PERMISSIONS` itself when defaulted (src/types.ts:63). `api.config` is that same object (src/createApi.ts:77), and both gates re-read `permissions.includes(...)` on every call (src/createApi.ts:20, 48). Mutating the array or `api.config` after setup therefore changes which kinds the endpoints serve, and mutating `ALL_PERMISSIONS` changes every API built with the defaults; this sharing by reference is not modelled. Option keys other than the four of `PermissionsConfig` are copied into `api.config` by the spread but never read; `Options` has only the four keys.
- React Native's `AppState` and `subscription.remove()` are external. `ForegroundListener.Deliver` stands for the event source delivering only to a live subscription, and the subscription is the boolean `subscribed`.
- `AppStateStatus` includes React Native's `unknown` and `extension` states; the detector treats them like any other non-active state.
- Build and test configuration (tsup.config.ts, eslint.config.js, vitest.setup.ts) is out of scope.

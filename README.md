# Android runtime-permission adapter, modelled in Dafny

This project models the Android adapter of the ns-permissions NativeScript plugin
(`src/ns-permissions.android.ts`). It has five parts:

- the table that turns a logical permission name (`camera`, `location`, …) into an
  Android manifest identifier, passing unknown names through unchanged;
- the ask-history store: one boolean per identifier in the application settings,
  under the key prefix `@NSPermissions:didAskPermission:`;
- the four-way status decision of `check` (authorized, undetermined, denied,
  restricted);
- the one-permission request flow `requestPermission`, which takes a request code
  from the module counter `mRequestCode`, shows the dialog and registers a
  handler that filters permission-result events by that code;
- the batch flow `requestMultiplePermissions`, which splits its inputs into
  answered-now and to-ask, shows one dialog for the to-ask list in input order,
  and fills in the results by position.

The operating system is a value `Os(sdk, granted, rationale)`: the SDK level, the
identifiers the permission check reports granted, and the identifiers for which
`shouldShowRequestPermissionRationale` answers true. Every Android call becomes a
read of that value. An exception from the dialog call becomes an `Option<string>`
parameter. The module-level state is the class `Adapter.PermissionAdapter`. It
holds the counter, the settings map, the registered handlers (a `seq<Listener>`,
only ever appended to), the first settlement of each request promise, and the
`grantedPermissions` dictionary of each batch that opened a dialog. Promises and
event delivery become separate steps:

- a request method returns either an immediate answer, a pending request code, or
  a rejection;
- `Deliver(requestCode, grantResults, os)` hands a permission-result event to every
  registered handler in order;
- `FinishRequest(code)` is the `.then` continuation of the facade's `request` once
  its dialog has been answered.

Modules: `PermissionTypes` (the table, `getTypes`), `AndroidOs` (the OS value),
`PermissionStatus` (the two result vocabularies and the single-result and `check`
decisions), `BatchFlow` (the two loops of the batch flow and their lemmas),
`Facade` (list mapping with de-duplication, `hasPermission`, the settings
helpers), `Adapter` (the stateful class and the facade operations built on it),
and `Scenarios` (client methods proved from the contracts alone).

Behaviours of the code that a caller might not expect:

- `request` writes the ask flag whenever `requestPermission` resolves. That
  includes the already-granted path and the pre-SDK-23 path, where no dialog is
  shown (`src/ns-permissions.android.ts` lines 111-119 and 261-268;
  `Adapter.PermissionAdapter.Request`, `Scenarios.GrantedRequestStillRecordsAsking`).
- Handlers are never removed, and the model makes no one-shot claim. A promise
  settles once (`settled` keeps the first resolution). A repeated event for a
  batch code does re-fill the dictionary the caller already holds, because the
  promise resolved with that same object.
- `requestPermissions` keys its result by platform identifier, not by logical
  name. `checkPermissions` keys by the name as given.
- `request` resolves `'never_ask_again'` through `result as Status`, a value outside
  the declared `Status` union (`PermissionStatus.RequestNameOutsideStatus`).
- Below SDK 23, `request` resolves `'denied'` for an ungranted permission, and a
  later `check` reports `'restricted'` for it (`PermissionStatus.LegacyCheckNeverDenied`,
  `Scenarios.LegacyRequestIsDenied`).
- When the dialog call throws, the request code has already been taken
  (`mRequestCode++` runs first), and no handler is registered
  (`Scenarios.ThrowingDialogUsesACode`).
- The boolean branch of `request` (lines 264-266) cannot be reached, because
  `requestPermission` always resolves a PermissionStatus string. The model's
  `SingleStart` has no boolean case.

## Model

| member | source | states |
|---|---|---|
| `PermissionTypes.ManifestConstant` | src/ns-permissions.android.ts:7-38 | the table has a getter exactly for the ten names of `getTypes`, and each getter yields an `android.permission.` identifier |
| `PermissionTypes.PlatformId` | src/ns-permissions.android.ts:236 | a name with a table entry maps to that manifest identifier; any other name maps to itself (the same expression is at lines 254, 259 and 273) |
| `PermissionTypes.GetTypes` | src/ns-permissions.android.ts:231-233 | ten distinct names, exactly the names the table maps |
| `PermissionTypes.ConstantsAreNotNames` | src/ns-permissions.android.ts:7-38 | no manifest identifier is itself a key of the table |
| `PermissionTypes.PlatformIdIdempotent` | src/ns-permissions.android.ts:7-38 | mapping an already-mapped identifier changes nothing |
| `PermissionTypes.TableIsInjective` | src/ns-permissions.android.ts:7-38 | two different table names never share an identifier |
| `AndroidOs.IsGranted` | src/ns-permissions.android.ts:60-74 | both SDK branches of `check` / `hasPermission` answer whether the OS reports the identifier granted |
| `AndroidOs.ShowRationale` | src/ns-permissions.android.ts:211-221 | the rationale wrapper is false below SDK 23 and the OS answer from SDK 23 on |
| `PermissionStatus.SingleOutcome` | src/ns-permissions.android.ts:128-136 | GRANTED exactly when the result array is non-empty and its first entry is PERMISSION_GRANTED; otherwise DENIED exactly when a rationale is showable, else NEVER_ASK_AGAIN |
| `PermissionStatus.CheckDecision` | src/ns-permissions.android.ts:238-250 | each of the four statuses, with both directions: authorized iff granted; undetermined iff not granted and never asked; denied / restricted iff asked and the rationale is / is not showable |
| `PermissionStatus.RequestNameOutsideStatus` | src/ns-permissions.android.ts:268 | the cast result is one of the four Status strings exactly when the outcome is not NEVER_ASK_AGAIN |
| `PermissionStatus.CheckAgreesWithDialog` | src/ns-permissions.android.ts:243-245 | at SDK 23 or above, once the ask flag is set and the OS reflects the dialog's answer, `check` reports the status matching the dialog outcome (NEVER_ASK_AGAIN shows as restricted) |
| `PermissionStatus.LegacyCheckNeverDenied` | src/ns-permissions.android.ts:212-213 | below SDK 23 `check` never reports denied; an ungranted permission that was asked about reports restricted |
| `BatchFlow.Precheck` | src/ns-permissions.android.ts:152-167 | the pre-check loop builds the pre-check dictionary and the to-ask queue, and its counter plus the queue's length equals the number of inputs |
| `BatchFlow.PrecheckMapEntries` | src/ns-permissions.android.ts:155-163 | the pre-check dictionary holds exactly the inputs that are below SDK 23 or granted, each GRANTED if granted and DENIED otherwise |
| `BatchFlow.ToAskMembers` | src/ns-permissions.android.ts:161-166 | the queue holds exactly the inputs that are ungranted at SDK 23 or above |
| `BatchFlow.ToAskAppend` | src/ns-permissions.android.ts:152-166 | the queue keeps input order: the queue of a concatenation is the concatenation of the queues |
| `BatchFlow.ToAskDistinct` | src/ns-permissions.android.ts:165 | inputs without repeats give a queue without repeats |
| `BatchFlow.LegacyNeedsNoDialog` | src/ns-permissions.android.ts:155-160 | below SDK 23 nothing is queued, every input gets an entry, and no entry is NEVER_ASK_AGAIN |
| `BatchFlow.BatchEntryIsSingleOutcome` | src/ns-permissions.android.ts:182-190 | each queued position is decided as a one-permission dialog would decide it; a position past the end of the result array counts as not granted |
| `BatchFlow.FillResults` | src/ns-permissions.android.ts:180-191 | the callback loop writes each queued position's entry into the dictionary, in queue order |
| `BatchFlow.FilledEntries` | src/ns-permissions.android.ts:180-191 | the callback adds exactly the queued permissions and leaves every other entry unchanged |
| `BatchFlow.FilledAt` | src/ns-permissions.android.ts:182-189 | position j's permission ends with position j's entry when it does not recur later in the queue; a repeated permission keeps the entry of its last position |
| `BatchFlow.BatchCoversInputs` | src/ns-permissions.android.ts:145-192 | for any input list, repeats included: after the matching callback every input has an entry, inputs granted at call time are GRANTED, and each queued permission gets the entry of its last queue position |
| `BatchFlow.BatchPositionsOfDistinctInputs` | src/ns-permissions.android.ts:145-192 | with inputs without repeats, every queue position decides its own permission's entry |
| `Facade.PlatformIds` | src/ns-permissions.android.ts:273 | maps each name to its identifier, position by position |
| `Facade.Dedup` | src/ns-permissions.android.ts:273-274 | the de-duplicated list has no repeats and holds exactly the identifiers of the input |
| `Facade.DedupKeepsOrder` | src/ns-permissions.android.ts:273-274 | insertion order: de-duplicating a prefix gives a prefix of the whole result |
| `Facade.DedupOfDistinct` | src/ns-permissions.android.ts:273-274 | a list without repeats comes back unchanged |
| `Facade.HasPermission` | src/ns-permissions.android.ts:253-256 | a table name is checked under its manifest identifier, any other name as given, against the OS's granted set |
| `Facade.CanOpenSettings` | src/ns-permissions.android.ts:223-225 | always false |
| `Facade.OpenSettings` | src/ns-permissions.android.ts:227-229 | always rejects with the deprecation message |
| `Adapter.AskKey` | src/ns-permissions.android.ts:40-44 | the key is the storage prefix followed by the identifier |
| `Adapter.Handle` | src/ns-permissions.android.ts:124-193 | a handler acts only on its own code; settlements already made are kept (first resolution wins) and at most the event's code is added; a single handler settles with the one-result outcome and leaves the dictionaries alone; a batch handler re-fills its dictionary through the callback loop; no other dictionary changes |
| `Adapter.AskKeyInjective` | src/ns-permissions.android.ts:40-44 | different identifiers have different ask-history keys |
| `Adapter.ListenerCodesDistinct` | src/ns-permissions.android.ts:124-125 | no two registered handlers share a request code, and every code is below the counter |
| `Adapter.PermissionAdapter.constructor` | src/ns-permissions.android.ts:108 | the counter starts at 0, with no handlers and no settled requests |
| `Adapter.PermissionAdapter.DidAskOnce` | src/ns-permissions.android.ts:44 | reads false when the key is unset, otherwise the stored boolean |
| `Adapter.PermissionAdapter.SetDidAskOnce` | src/ns-permissions.android.ts:42 | stores true under the prefixed key; the flag then reads true; every other identifier's flag is unchanged; nothing is cleared |
| `Adapter.PermissionAdapter.RequestPermission` | src/ns-permissions.android.ts:109-143 | below SDK 23, GRANTED or DENIED only; at 23 or above a granted identifier is GRANTED; neither path takes a code or registers a handler; otherwise the current code is taken and the counter increments; on success one handler for that code and identifier is appended; when the dialog throws the promise rejects with no handler |
| `Adapter.PermissionAdapter.RequestMultiplePermissions` | src/ns-permissions.android.ts:145-178 | resolves at once, without taking a code, with the pre-check dictionary exactly when nothing is queued; otherwise takes one code and registers one handler for exactly the queue, with the pre-check dictionary stored for it |
| `Adapter.PermissionAdapter.Deliver` | src/ns-permissions.android.ts:177-178 | an event reaches every handler; only the one whose code matches acts; with no matching code nothing changes |
| `Adapter.PermissionAdapter.RunHandler` | src/ns-permissions.android.ts:126-137 | the matching handler settles a single request with the one-result outcome (first settlement wins), or fills a batch's dictionary and settles it |
| `Adapter.PermissionAdapter.Check` | src/ns-permissions.android.ts:235-251 | the second component is always true; authorized iff hasPermission; undetermined iff not granted and never asked; denied iff not granted, asked and a rationale is showable; restricted iff not granted, asked and no rationale is showable; denied only at SDK 23 or above |
| `Adapter.PermissionAdapter.CheckPermissions` | src/ns-permissions.android.ts:277-285 | one entry per input name, keyed by the name as given, each equal to that name's `check` |
| `Adapter.PermissionAdapter.Request` | src/ns-permissions.android.ts:258-270 | answered at once exactly when no dialog is needed, with the status string and true, after writing the ask flag for the mapped identifier; a pending or rejected request leaves the store alone; ask-history only grows |
| `Adapter.PermissionAdapter.FinishRequest` | src/ns-permissions.android.ts:268 | once the request of that code has settled, writes its ask flag and resolves with its status string and true; until then nothing changes |
| `Adapter.PermissionAdapter.RequestPermissions` | src/ns-permissions.android.ts:272-275 | runs the batch flow on the de-duplicated identifiers, with the whole new state on each outcome (counter, handlers, dictionaries); the dialog's list has no repeats and holds exactly the ungranted identifiers of the input names |
| `Adapter.CheckMatchesHasPermission` | src/ns-permissions.android.ts:253-256 | `check` reports authorized exactly when `hasPermission` is true |
| `Scenarios.ConcurrentRequestsResolveIndependently` | src/ns-permissions.android.ts:124-137 | two concurrent requests get codes 0 and 1; answers delivered in reverse order settle each request with its own result |
| `Scenarios.GrantedRequestStillRecordsAsking` | src/ns-permissions.android.ts:118-119 | a granted permission resolves authorized with no code taken, and its ask flag is set |
| `Scenarios.LegacyRequestIsDenied` | src/ns-permissions.android.ts:111-116 | below SDK 23 an ungranted permission resolves denied, and a later check reports restricted |
| `Scenarios.ThrowingDialogUsesACode` | src/ns-permissions.android.ts:123-141 | a throwing dialog rejects the request and still advances the counter, with no handler registered |
| `Scenarios.MixedBatch` | src/ns-permissions.android.ts:145-192 | with one granted, one never-asked and one rationale-showable input, only the last two are in the dialog; the result holds all three |
| `Scenarios.ShortResultArray` | src/ns-permissions.android.ts:182 | with an empty result array, every queued permission is DENIED or NEVER_ASK_AGAIN by its rationale |
| `Scenarios.DuplicatesAskedOnce` | src/ns-permissions.android.ts:273 | "camera" twice plus "android.permission.CAMERA" (different inputs with one identifier) put the identifier in the dialog once |

## Left out

- The Android calls themselves are not modelled (`checkPermission`, `checkSelfPermission`, `requestPermissions`, `shouldShowRequestPermissionRationale`, the foreground or start activity lookup). They are reads of the `Os` value. The install-time check and the runtime self-check share one `granted` set.
- An exception from `shouldShowRequestPermissionRationale` or from the permission checks is not modelled. Only the dialog call's exception is a parameter.
- Promises, `async` and the `application.android.on` event bus are not modelled. They become the separate steps `Request`/`RequestPermission`, `Deliver` and `FinishRequest`. Microtask ordering is not modelled.
- `applicationSettings` is modelled only as an in-memory `map<string, bool>`, not as persistent storage.
- The `rationale` and `options` arguments of `request` and `check` are accepted by the source but never used, so the model leaves them out. The commented-out rationale dialog (lines 83-92) and the commented-out block at lines 195-203 are not modelled.
- The `PermissionsAndroid.request`, `PermissionsAndroid.requestPermissions`, `PermissionsAndroid.check` and `PermissionsAndroid.hasPermission` wrappers are modelled through what they delegate to: `Request`/`RequestPermission`, `RequestMultiplePermissions` and `AndroidOs.IsGranted`.
- The debug logger (`src/ns-permissions.common.ts`), the type declaration files and the demo apps are not part of this model.
- `PermissionTypes.PlatformId`: property lookup on the JavaScript table object also finds inherited keys such as `toString` or `constructor`. The model treats every name without an own table entry as passing through.
- The counter is an unbounded `nat`. JavaScript number precision beyond 2^53 requests is not modelled.

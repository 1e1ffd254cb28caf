# Web Push demo: client push controller and service worker, in Dafny

This project models the logic of a small Web Push demo: the client push
controller that checks platform support, dispatches on the notification
permission, registers the service worker, reuses or creates a push
subscription, submits it to the server and reports to an `onSubscribe`
callback; the decoder that turns the VAPID public key from base64url into
bytes; the merge of notification options in `sendWebPush`; and the service
worker's `push` and `notificationclick` listeners.

Platform calls (the permission prompt, `register`, `getSubscription`,
`subscribe`, `fetch`, `showNotification`) are oracle inputs: a `Platform`
value says how each would settle, and each run returns the effects it
performs in order, the values handed to `onSubscribe`, and whether an
exception or unhandled rejection leaves the controller. Whether the caller's
callback throws is an input too, which exposes the catch blocks calling it
again.

Files:

- `wrappers.dfy` — `Option`, and `Settled` for a promise that fulfils or rejects.
- `base64.dfy` — RFC 4648: the alphabets of sections 4 and 5, padded and
  unpadded encoding, decoding of padded input (`atob`), and the round trip.
- `key_decoder.dfy` — `urlBase64ToUint8Array` as a method with its copy loop,
  specified by `KeyBytes`, and the proof that it inverts unpadded base64url.
- `js_value.dfy` — JavaScript values, truthiness, `??`, `?.` and the members
  `JSON.stringify` keeps.
- `push_controller.dfy` — the capability check, the permission dispatch,
  registration, subscription and submission.
- `push_body.dfy` — the spread merge of the push body and `sendWebPush`.
- `service_worker.dfy` — the `push` and `notificationclick` listeners.

The worker forwards none of the payload's `icon`, `image`, `badge` or `url`
(`PayloadExtrasIgnored`).
The code treats an empty-string VAPID key as missing (`!key`), and an ok (2xx)
reply whose body is not JSON as a failed submission (`response.json()`
rejects).

## Model

| member | source | states |
|---|---|---|
| `PushController.NotificationUnsupported` | app/Push.ts:31-41 | true exactly when at least one of the three capability checks fails, for all eight combinations |
| `PushController.CheckPermissionStateAndAct` | app/Push.ts:44-66 | unsupported: no effect and no callback; denied: only `onSubscribe(null)`; a prompt happens iff the state is default; registration happens iff the state is granted or the prompt answers granted; every supported run ends in a callback; no subscription reaches the callback unsubmitted; creation always asks for user-visible pushes |
| `PushController.ControllerReportsOutcome` | app/Push.ts:54-65 | the first callback value is `Outcome` (the delivered subscription when the dispatch reaches a successful registration, else null); with a non-throwing callback it is the only call and nothing escapes; unsupported runs never call back |
| `PushController.RequestNotificationPermission` | app/Push.ts:69-84 | prompts first; registers iff the answer is granted; any other answer or a rejected prompt yields only `onSubscribe(null)` for a non-throwing callback |
| `PushController.RequestNotificationPermissionReports` | app/Push.ts:72-83 | after a prompt the first callback value is `Outcome`, and the only one for a non-throwing callback |
| `PushController.RegisterAndSubscribe` | app/Push.ts:160-171 | registers `/sw.js` first, never prompts, ends in a callback; a failed registration yields exactly register then `onSubscribe(null)` |
| `PushController.RegisterAndSubscribeReports` | app/Push.ts:163-170 | the first callback value is the delivered subscription when registration succeeds, else null; the only call for a non-throwing callback |
| `PushController.Acquire` | app/Push.ts:89-106 | starts with `getSubscription`; an existing subscription is taken as is; a subscription is created only when none exists, the key is present and decodes, with that key and `userVisibleOnly` true; conversely, with none existing and a present key that decodes, it calls `getSubscription` then `pushManager.subscribe` with the decoded key and takes what that settles to; a rejected `getSubscription`, a missing key or a failed decoding leave nothing to submit |
| `PushController.SubscribeAttempt` | app/Push.ts:88-109 | the try block starts with `getSubscription` and never prompts or registers; when nothing escapes it ends in a callback; every subscription handed to the callback was posted before; creation asks for user-visible pushes only |
| `PushController.AttemptReports` | app/Push.ts:88-109 | the try block calls back once, with `Delivered`, when there is one, and not at all otherwise; it throws iff there is nothing to deliver or the callback throws on the subscription |
| `PushController.Subscribe` | app/Push.ts:87-114 | starts with `getSubscription`, ends in a callback, never prompts or registers, submits before any success callback |
| `PushController.SubscribeReportsDelivered` | app/Push.ts:108-113 | callback values are `[Delivered]`, or `[Delivered, null]` when the callback throws on the subscription; an exception escapes only when the null call throws too |
| `PushController.AcquireThenSubmit` | app/Push.ts:99-108 | the reference `Delivered` equals the acquired subscription whenever submitting it does not throw, and null otherwise |
| `PushController.AttemptStartsWithAcquire` | app/Push.ts:89-108 | the `try` block of `subscribe` begins with exactly the calls that acquire the subscription |
| `PushController.CreationNeedsNoSubscription` | app/Push.ts:90-105 | every `pushManager.subscribe` call happens with no existing subscription and a present key, and passes exactly the bytes the decoder yields for that key; conversely, with no existing subscription and a present key that decodes, `pushManager.subscribe` is called with those bytes |
| `PushController.ReusesExistingSubscription` | app/Push.ts:90-108 | an existing subscription means no `pushManager.subscribe` call; it is submitted and is what the callback receives when the server accepts it |
| `PushController.KeyOnlyNeededToCreate` | app/Push.ts:92-96 | unless `getSubscription` reports none, the outcome does not depend on the VAPID key; on the creation path a missing key creates nothing and ends in null |
| `PushController.SubmitSubscription` | app/Push.ts:133-157 | throws iff the endpoint is empty, the fetch fails, the status is not ok or the body is not JSON; posts to the subscription route only when the endpoint is present |
| `PushController.ErrorsEndInNull` | app/Push.ts:94-169 | registration failure, missing key when creating, missing endpoint, rejected submission: exactly one `onSubscribe(null)` and no escaping exception, for a non-throwing callback |
| `PushController.ThrowingCallbackInRegistration` | app/Push.ts:108-170 | inside `registerAndSubscribe`, a callback that throws on the subscription is called again with null, and a third time when that throws too; the rejection escapes exactly then |
| `PushController.ThrowingCallbackIsCalledAgain` | app/Push.ts:59-61 | in the granted state, the controller's callback values are `[Delivered, null]`, plus a third null when the null call throws, which is also when the rejection escapes |
| `PushController.ThrowingCallbackAfterPrompt` | app/Push.ts:62-83 | in the default state with the prompt answered granted, the catch of `requestNotificationPermission` adds a fourth call: `[Delivered, null, null, null]` when the callback throws on everything, `[Delivered, null]` when it throws only on the subscription |
| `Base64.EncodeWith` | app/Push.ts:117-130 | the encoding the decoder inverts: output length is four characters per 3-byte group plus the final partial group, padded or not |
| `Base64.Decode` | app/Push.ts:123 | decoding succeeds only on a length that is a multiple of 4, yielding at most three bytes per quantum |
| `Base64.Atob` | app/Push.ts:123 | `atob` succeeds iff decoding does; character i of its binary string has code equal to decoded byte i |
| `Base64.DecodeEncode` | app/Push.ts:123 | decoding inverts the padded base64 encoding of section 4 of RFC 4648 |
| `KeyDecoder.Padding` | app/Push.ts:118 | the padding has 0 to 3 `=` characters and makes the length a multiple of 4 |
| `KeyDecoder.ReplaceAll` | app/Push.ts:119-121 | same length; each occurrence of the character is replaced and every other character kept |
| `KeyDecoder.ToStandardAlphabet` | app/Push.ts:119-121 | same length; every `-` becomes `+`, every `_` becomes `/`, and every other character is kept |
| `KeyDecoder.UrlBase64ToUint8Array` | app/Push.ts:117-130 | fails iff `atob` throws; output byte i is char code i of the decoded string; the base64url encoding (unpadded) of any bytes decodes to exactly those bytes |
| `KeyDecoder.KeyBytesInvertsUrlEncoding` | app/Push.ts:117-130 | padding, translation, `atob` and the copy loop together invert unpadded base64url encoding |
| `KeyDecoder.PaddingRestoresEncoding` | app/Push.ts:118 | the padding added to an unpadded encoding is exactly the padding of section 4 of RFC 4648 |
| `KeyDecoder.ToStandardOfUrl` | app/Push.ts:119-121 | translating a base64url encoding yields the standard encoding of the same bytes |
| `PushBody.PushBody` | app/Push.ts:193-201 | the keys are title, body, the defaults, the options and the forced keys; `renotify`, `silent`, `actions` take the forced values; caller options beat defaults; defaults survive where the caller is silent |
| `PushBody.DefaultOptions` | app/Push.ts:181-190 | the six default keys: icon, badge, tag, requireInteraction, image, data |
| `PushBody.TitleAndBodyAreArguments` | app/Push.ts:174-201 | `title` and `body` are the arguments unless the options name those keys; options of the declared type never do, so for them they always are |
| `PushBody.DataOverrideIsShallow` | app/Push.ts:187-197 | without caller `data`, `data.url` is the origin; a caller `data` replaces the default object wholesale, losing `url` unless supplied |
| `PushBody.UndefinedOptionIsDropped` | app/Push.ts:197-206 | an option explicitly set to `undefined` overrides the default and is then absent from the JSON sent |
| `PushBody.NestedUndefinedIsDropped` | app/Push.ts:193-206 | a caller `data` object whose `url` is `undefined` is sent as a `data` object without `url` |
| `JsValue.Serialized` | app/Push.ts:206 | `JSON.stringify` of an object keeps exactly the members that are not `undefined`, each serialised, and what it writes holds no `undefined` at any depth |
| `JsValue.Json` | app/Push.ts:206 | a value serialises to `undefined` exactly when it is `undefined`; an object keeps exactly its members that are not `undefined`, each serialised; an array keeps its length, with `undefined` items written as `null` and the others serialised; other values are unchanged; the result holds no `undefined` at any depth |
| `JsValue.JsonKeepsDefined` | app/Push.ts:206 | a value with no `undefined` anywhere in it is written unchanged |
| `PushBody.SendWebPush` | app/Push.ts:203-212 | posts to the send route; the body sent is the JSON serialisation of the merged `PushBody`; fails iff the fetch fails, the status is not ok or the body is not JSON; the sent body carries the forced fields and holds no `undefined` at any depth |
| `ServiceWorker.NotificationOptions` | public/sw.js:23-32 | only `body` comes from the payload; icon, tag, requireInteraction and silent are fixed; `data.url` is the origin; no image, badge or url option |
| `ServiceWorker.NotificationTitle` | public/sw.js:22 | the payload title unless null or undefined, else `Bijak Uangmu` |
| `ServiceWorker.OnPush` | public/sw.js:12-40 | no data: nothing happens; it throws exactly when the data is not JSON or is `null`, and then shows nothing; otherwise one notification, followed by the delivery report exactly when showing succeeds |
| `ServiceWorker.PushOfObjectPayload` | public/sw.js:19-28 | for an object payload the title is the payload's (an empty string kept) or the default; the body is the payload's; `data.url` is the origin |
| `ServiceWorker.PayloadExtrasIgnored` | public/sw.js:19-32 | changing the payload's icon, image, badge or url changes nothing |
| `ServiceWorker.OnNotificationClick` | public/sw.js:43-49 | always closes first; opens `data.url` exactly once when it is truthy and not at all otherwise |
| `ServiceWorker.ClickOpensOrigin` | public/sw.js:26-47 | clicking a notification the push listener showed opens the origin once, unless it is empty |
| `ServiceWorker.OnPushAsWritten` | public/sw.js:26-28 | with a `window` present it behaves as `OnPush` with that origin |
| `ServiceWorker.NoWindowNoNotification` | public/sw.js:27 | in a service worker scope without `window`, no push event shows a notification and every event with data throws |

## Findings

| source | as written | input that shows it | evidently intended | confidence | as-written member | corrected member |
|---|---|---|---|---|---|---|
| public/sw.js:27 | the notification options read `window.location.origin`, but a service worker's global scope has no `window`, so this throws a ReferenceError | any push event whose data parses to a non-null JSON value | show the notification with `data.url` set to the app's origin (`self.location.origin`) | high; not executed | `ServiceWorker.OnPushAsWritten` (`ServiceWorker.NoWindowNoNotification`) | `ServiceWorker.OnPush` (`ServiceWorker.ClickOpensOrigin`) |

## Left out

- Asynchrony: the model is sequential; each platform call happens at most once per run and settles as its oracle says. A synchronous throw and an unhandled rejection are both recorded as `escaped`.
- `navigator.serviceWorker.ready` is assumed to resolve; `registration.scope` and every `console.*` call are not modelled.
- The callback's behaviour is two booleans (throws on a subscription, throws on null), not an arbitrary function.
- `subscription.toJSON()` and the request headers: the posted subscription is the subscription value itself.
- `Base64.Atob`: does not strip ASCII whitespace from its input as the browser's forgiving decoder does; strings are sequences of Unicode scalar values, not UTF-16 code units.
- `JsValue.Prop`: properties of primitives (such as a string's `length`) are not modelled; the source reads none of them.
- Numbers are integers: floating point, NaN and -0 are left out of truthiness and JSON.
- `ServiceWorker.OnPush`: a rejected `showNotification` is modelled only as the missing delivery report, not as the rejection `waitUntil` receives; the `install` listener only logs and is left out.
- The server route handlers (`app/api/...`), the key generator script and the React page are not part of this model: they hold no controller or worker logic.

# Notification store of the contacts frontend

This project models the global notification store of a Vue contact-management
frontend: the `useNotification` composable. Four module-level cells hold the
single notification on display: `show`, `color` (the notification type),
`message` and `timeout` (the auto-close duration in milliseconds, `0` meaning no
auto close). Every call of `useNotification()` returns a handle over those same
cells, with six operations:

- `showNotification(msg, type = 'success', duration = 3000)` overwrites the message, type and duration and makes the notification visible;
- `success`, `error`, `warning` and `info` call it with their type fixed and a default duration of 3000 ms, or 4000 ms for `error`;
- `close` hides the notification and keeps the rest.

The model has two modules:

- `NotificationSpec` (`notification_spec.dfy`) is the value-level meaning. A `Snapshot` holds the four cells. A `Call` is one operation, with the same optional arguments and defaults as the source. `Step` is the effect of one call and `Run` the effect of a sequence of calls. The lemmas state what holds after any history: latest wins, no earlier value survives, and `close` is idempotent. Two more lemmas show that the type stays one of the four types listed in the source's doc comment, and that the duration stays non-negative. Each holds only when callers pass such values.
- `NotificationComposable` (`use_notification.dfy`) is the imperative store. `Store` is a class with the four cells as mutable fields. `Handle` is the object `useNotification()` returns; it holds a reference to the one store. Each of its methods assigns the fields as the source does. Each method's postcondition gives every field's new value and ties the new snapshot to `Step` of the old one.

The source keeps the cells as module globals. Dafny has no mutable globals, so the loaded JavaScript module is itself an object, `NotificationModule`. Its constructor creates the one `Store` with the initial values. Its method `UseNotification()` takes no arguments, like the source's, and returns a handle over that store. So every handle it hands out shares one object.

## Model

| member | source | states |
|---|---|---|
| NotificationComposable.Store.constructor | frontend/src/composables/useNotification.js:4-7 | the cells start hidden, with type "success", an empty message and 3000 ms |
| NotificationComposable.NotificationModule.constructor | frontend/src/composables/useNotification.js:3-7 | loading the module creates one fresh store holding the initial values |
| NotificationComposable.NotificationModule.UseNotification | frontend/src/composables/useNotification.js:13-84 | every call, with no arguments, returns a new handle over the module's one store, never a copy |
| NotificationComposable.Handle.ShowNotification | frontend/src/composables/useNotification.js:20-25 | afterwards message, type and duration are exactly the arguments (defaults "success" and 3000) and the notification is visible, whatever was there before |
| NotificationComposable.Handle.Success | frontend/src/composables/useNotification.js:32-34 | a visible notification of type "success" with the given message, 3000 ms unless a duration is given |
| NotificationComposable.Handle.Error | frontend/src/composables/useNotification.js:41-43 | a visible notification of type "error" with the given message, 4000 ms unless a duration is given |
| NotificationComposable.Handle.Warning | frontend/src/composables/useNotification.js:50-52 | a visible notification of type "warning" with the given message, 3000 ms unless a duration is given |
| NotificationComposable.Handle.Info | frontend/src/composables/useNotification.js:59-61 | a visible notification of type "info" with the given message, 3000 ms unless a duration is given |
| NotificationComposable.Handle.Close | frontend/src/composables/useNotification.js:66-68 | the notification is hidden; message, type and duration keep their values |
| NotificationComposable.HandlesShareState | frontend/src/composables/useNotification.js:70-75 | an error shown through one handle and a close made through another act on one state, which ends hidden with the error's text, type and 4000 ms |
| NotificationComposable.SecondDisplayWins | frontend/src/composables/useNotification.js:20-25 | two displays in a row, with any messages, types and durations, leave exactly the second one's values |
| NotificationSpec.Call.Kind | frontend/src/composables/useNotification.js:32-61 | the type a call hands to `showNotification`: its own argument for `showNotification`, and one of success, error, warning, info for each wrapper |
| NotificationSpec.Step | frontend/src/composables/useNotification.js:20-68 | a displaying call leaves the notification visible with exactly its message, type and duration; `close` hides it and keeps message, type and duration |
| NotificationSpec.Run | frontend/src/composables/useNotification.js:20-68 | after a non-empty sequence of calls the notification is visible exactly when the last call displays |
| NotificationSpec.WrappersDelegate | frontend/src/composables/useNotification.js:20-61 | each wrapper is `showNotification` with its type fixed and its default duration (4000 ms for error, 3000 ms otherwise); `showNotification(msg)` alone means type "success" and 3000 ms |
| NotificationSpec.LatestWins | frontend/src/composables/useNotification.js:20-25 | after any sequence of calls, message, type and duration are those of the last displaying call, and the notification is visible exactly when no close followed it |
| NotificationSpec.ForgetsHistory | frontend/src/composables/useNotification.js:20-25 | once a sequence contains a displaying call, its outcome is the same from every starting state |
| NotificationSpec.RunAppend | frontend/src/composables/useNotification.js:20-68 | the calls of two sequences made one after the other have the effect of their concatenation |
| NotificationSpec.CloseOnly | frontend/src/composables/useNotification.js:66-68 | any non-empty run of closes only hides the notification; an empty run changes nothing |
| NotificationSpec.CloseIdempotent | frontend/src/composables/useNotification.js:66-68 | after any history, closing twice gives the same state as closing once |
| NotificationSpec.KnownTypePreserved | frontend/src/composables/useNotification.js:17-61 | the type stays one of success, error, warning, info while `showNotification` is only given those types; the wrappers always pass one of them |
| NotificationSpec.DurationNonNegativePreserved | frontend/src/composables/useNotification.js:18-25 | the duration stays non-negative while every call passes a non-negative duration |

## Left out

- Vue reactivity: the cells are `ref`s whose changes re-render the notification component. Here they are plain fields. Change propagation is a framework concern.
- Auto-dismiss timing: `timeout` is only stored. Any countdown lives in the rendering component, which is not part of this model. So a stale timer hiding a newer notification cannot be expressed here.
- The HTTP client and its response interceptor (`frontend(1)/src/services/api.js`) and the contact service wrappers (`frontend(1)/src/services/contactService.js`) are not part of this model. They do network I/O and dispatch notifications asynchronously.
- The lint configuration (`frontend/eslint.config.js`) has no runtime logic.
- Durations are JavaScript numbers. The model uses unbounded integers, so fractional, infinite or NaN durations are not modelled.
- The type argument is not validated. The doc comment at `frontend/src/composables/useNotification.js:17` lists four types, but the code accepts any string, and so does the model. That the type stays one of the four is proved only when callers pass one of them (`KnownTypePreserved`).
- The duration is not validated either. The doc comment at `frontend/src/composables/useNotification.js:18` says only that `0` means no auto close. A non-negative duration is an assumption this model adds, and `DurationNonNegativePreserved` proves it is kept only when callers pass non-negative durations.

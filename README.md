# Push notifications and hamburger builder: a Dafny model

This project models the sequential logic of a small Expo / React Native
app and proves properties of it. It covers four parts:

- **The notification adapter** (`NotificationAdapter`,
  `notification_adapter.dfy`). The one-shot `setup()` installs the
  foreground presentation handler. `registerForPushNotificationsAsync` then
  runs in order: it creates the Android channel, checks that it runs on a
  device, reads the permission status, requests permission if needed, and
  fetches the Expo push token. The Expo SDK is a collaborator that records
  every call made to it (`Adapter.calls`). What it answers (platform,
  device kind, both permission statuses, token data, configured project id)
  is the `Host` the adapter is built with.
- **The application's notification hook** (`PushNotificationsHook`,
  `push_notifications_hook.dfy`). It covers:
  - the deep-link rule of `handleNotificationNavigation`;
  - the foreground alert and its "Cerrar" / "Ver" buttons;
  - the background-tap listener;
  - the cold-start latch `hasCheckedInitial`;
  - the token flow that upserts a `devices` row.

  The router, `setTimeout`, `Alert.alert` and the remote store are
  collaborators that record their calls.
- **The generic notification hook** (`NotificationsCoreHook`,
  `notifications_core_hook.dfy`). It covers the `enabled ?? Boolean(userId)`
  gate, the setup-then-register order and the `onToken` guard.
- **The hamburger builder screen** (`HamburgerBuilder`,
  `hamburger_builder.dfy`). It covers:
  - `toggleIngredient` as a list operation;
  - the buttons' `isSelected` flags;
  - the "Tu Hamburguesa" tag list;
  - the `ingredients` route parameter of the checkout. Its `JSON.stringify`
    is proved to round-trip through a JSON string-array reader.
- **The `Button` atom** (`Button`, `button.dfy`). It covers the recursive
  `isOnlyTextNode` check, the choice to wrap the children in `Text`, and
  the `Pressable` style list.

`js_values.dfy` (`JsValues`) holds the shared `Option` type, a JavaScript
value type and JavaScript truthiness.

Three behaviours of the code are worth naming, and the model keeps them:
- Permission is requested whenever the existing status is not `"granted"`,
  `"denied"` included (notifications-core/NotificationAdapter.ts:50).
- The cold-start latch is a `useRef`, so it holds once per hook instance
  (lib/modules/notifications/usePushNotifications.ts:37).
- "Ver" is offered for any truthy `data.url`, and a url that is not a
  string then does not navigate
  (lib/modules/notifications/usePushNotifications.ts:20, 70).

## Model

| member | source | states |
|---|---|---|
| NotificationAdapter.Adapter.constructor | notifications-core/NotificationAdapter.ts:6 | The process starts with the setup flag down and no SDK call made. |
| NotificationAdapter.Adapter.Setup | notifications-core/NotificationAdapter.ts:13-27 | After `setup()` the flag is up. The handler with the fixed behaviour (alert, sound, banner and list on; badge off) is installed only if the flag was down. |
| NotificationAdapter.SetupInstallsOnce | notifications-core/NotificationAdapter.ts:6-27 | Any number n ≥ 1 of `setup()` calls from process start installs the handler exactly once. |
| NotificationAdapter.SetupRepeatedly | notifications-core/NotificationAdapter.ts:6-27 | Calling `setup()` n times on a freshly loaded adapter makes the SDK calls of n successive setups; for n ≥ 1 that is exactly one handler install. |
| NotificationAdapter.Adapter.RegisterForPushNotifications | notifications-core/NotificationAdapter.ts:29-67 | Registration makes exactly the SDK calls of `RegisterTrace`, in that order, and returns `RegisterResult`. The lemmas below state what these two mean. |
| NotificationAdapter.ChannelCreatedFirst | notifications-core/NotificationAdapter.ts:34-45 | On Android the first call creates the "default" channel with MAX importance, pattern [0,250,250,250] and colour #FF231F7C. It does so even when a non-device then returns null. Other platforms create no channel. |
| NotificationAdapter.NonDeviceSkipsPermissions | notifications-core/NotificationAdapter.ts:43-45 | On a non-device the result is null, with no permission read, no permission request and no token fetch. |
| NotificationAdapter.RequestOnlyWhenNotGranted | notifications-core/NotificationAdapter.ts:47-53 | On a device the status is read once. Permission is requested once iff the existing status is not "granted", and never otherwise. A granted existing status is the final status. |
| NotificationAdapter.TokenOnlyWhenGranted | notifications-core/NotificationAdapter.ts:55-66 | Exactly one token fetch happens on the device-and-granted path, and none otherwise. The result is non-null exactly then. It is the fetched token's data, and the fetch is the last call and uses `projectId ?? configured id`. |
| NotificationAdapter.DeniedReturnsNull | notifications-core/NotificationAdapter.ts:55-57 | A final status other than "granted" gives null and no token fetch. |
| PushNotificationsHook.Navigation | lib/modules/notifications/usePushNotifications.ts:16-26 | Navigation is scheduled iff `data?.url` is a non-empty string. It is then exactly one push of that url, delayed 500 ms. |
| PushNotificationsHook.ForegroundAlert | lib/modules/notifications/usePushNotifications.ts:65-82 | The title is the notification's title, or "Notificación" when absent; the body is its body, or "". "Cerrar" (cancel) is always the first button. "Ver" is the second and last button iff `data?.url` is truthy. |
| PushNotificationsHook.ForegroundButtonsNavigate | lib/modules/notifications/usePushNotifications.ts:68-82 | Pressing "Cerrar" schedules nothing. Pressing "Ver" applies the navigation rule to the notification's data, so a truthy non-string url shows "Ver" and pressing it does nothing. |
| PushNotificationsHook.Hook.PressAlertButton | lib/modules/notifications/usePushNotifications.ts:68-79 | Pressing a button of a shown alert adds that button's pushes to the scheduled pushes. |
| PushNotificationsHook.Hook.OnNotificationReceived | lib/modules/notifications/usePushNotifications.ts:58-84 | While the foreground listener is subscribed, a notification shows exactly its foreground alert and schedules no navigation. |
| PushNotificationsHook.Hook.OnNotificationResponse | lib/modules/notifications/usePushNotifications.ts:91-101 | While the tap listener is subscribed, a background or killed-state tap schedules exactly the navigation rule's pushes. It shows no alert. |
| PushNotificationsHook.Hook.SubscribeReceived | lib/modules/notifications/usePushNotifications.ts:58-60 | Mounting the foreground effect subscribes its listener. |
| PushNotificationsHook.Hook.RemoveReceived | lib/modules/notifications/usePushNotifications.ts:86 | The foreground effect's cleanup unsubscribes it. |
| PushNotificationsHook.Hook.SubscribeResponse | lib/modules/notifications/usePushNotifications.ts:91-93 | Mounting the tap effect subscribes its listener. |
| PushNotificationsHook.Hook.RemoveResponse | lib/modules/notifications/usePushNotifications.ts:103 | The tap effect's cleanup unsubscribes it. |
| PushNotificationsHook.Hook.constructor | lib/modules/notifications/usePushNotifications.ts:35-37 | A new hook instance starts with the latch down, nothing scheduled, shown or stored, and no listener subscribed. |
| PushNotificationsHook.Hook.CheckInitialResponse | lib/modules/notifications/usePushNotifications.ts:109-122 | The latch goes up before the query, so the cold-start query is made at most once per instance. A null response navigates nothing. Otherwise the response goes through the navigation rule. |
| PushNotificationsHook.ColdStartTwice | lib/modules/notifications/usePushNotifications.ts:109-122 | Running the cold-start effect twice on one instance schedules at most one push, and only from the first answer. |
| PushNotificationsHook.RegistrationUpserts | lib/modules/notifications/usePushNotifications.ts:41-50 | An upsert is sent iff the user id and the token are both truthy. It is exactly one upsert, to "devices": {user_id, token, platform: Platform.OS, last_used_at}, with conflict target "token". |
| PushNotificationsHook.Hook.RegisterEffect | lib/modules/notifications/usePushNotifications.ts:40-54 | Without a truthy user id no SDK call is made. Otherwise registration runs with no project id and its token is saved as `RegistrationUpserts` says. |
| PushNotificationsHook.Hook.SaveTokenToDatabase | lib/modules/notifications/usePushNotifications.ts:125-141 | Exactly one upsert of the row keyed on "token" is recorded. An upsert error does not change the outcome and is never raised. |
| PushNotificationsHook.LoadModule | lib/modules/notifications/usePushNotifications.ts:10-11 | Loading the module runs `setup()`. |
| NotificationsCoreHook.ShouldRun | notifications-core/usePushNotifications.ts:14-15 | A defined `enabled` alone decides. Otherwise the hook runs iff `userId` is a non-empty string. |
| NotificationsCoreHook.NotRunningDoesNothing | notifications-core/usePushNotifications.ts:17-18 | When the hook does not run, no SDK call is made and `onToken` is not called. |
| NotificationsCoreHook.SetupBeforeRegister | notifications-core/usePushNotifications.ts:20-25 | When running, every handler install precedes every registration call, and from a fresh process the first call installs the handler. The token fetch uses the hook's `projectId` when given, else the configured one. |
| NotificationsCoreHook.OnTokenOnce | notifications-core/usePushNotifications.ts:27-29 | `onToken` is called at most once. It is called exactly once, with the token, iff registration yields a non-empty token and a callback was given. |
| NotificationsCoreHook.RunEffect | notifications-core/usePushNotifications.ts:17-33 | One run of the effect leaves the setup flag up iff it was up or the hook runs. It makes exactly the setup-then-register SDK calls, forwarding `projectId` unchanged, and returns the `onToken` invocations. |
| HamburgerBuilder.RemoveAll | app/games/hamburger-builder.tsx:26 | The filter drops every occurrence of the ingredient and keeps every other ingredient with its multiplicity. |
| HamburgerBuilder.RemoveAllKeepsOrder | app/games/hamburger-builder.tsx:26 | The filter's result is a subsequence of the selection, so the other ingredients keep their order. |
| HamburgerBuilder.Toggle | app/games/hamburger-builder.tsx:23-31 | After a toggle the ingredient is selected iff it was not, and every other ingredient's membership is unchanged. |
| HamburgerBuilder.TogglePresentRemoves | app/games/hamburger-builder.tsx:25-26 | Toggling a present ingredient removes every occurrence and keeps the rest in order. Without duplicates, the length drops by one. |
| HamburgerBuilder.ToggleAbsentAppends | app/games/hamburger-builder.tsx:27-28 | Toggling an absent ingredient appends it at the end, and the length grows by one. |
| HamburgerBuilder.TogglePreservesNoDuplicates | app/games/hamburger-builder.tsx:23-31 | Toggling keeps a selection free of duplicates. |
| HamburgerBuilder.ToggleTwice | app/games/hamburger-builder.tsx:23-31 | Toggling twice restores an absent ingredient's list exactly. It restores the set of selected ingredients in every case, and the multiset when there are no duplicates. |
| HamburgerBuilder.ReachableSelections | app/games/hamburger-builder.tsx:16-31 | From `[]`, pressing only `INGREDIENTS_LIST` buttons yields a duplicate-free selection of list members. |
| HamburgerBuilder.IngredientButtons | app/games/hamburger-builder.tsx:75-77 | There is one button per `INGREDIENTS_LIST` entry, in order. Its `isSelected` holds exactly when that ingredient is in the selection. |
| HamburgerBuilder.PressFlipsOnlyThatButton | app/games/hamburger-builder.tsx:75-85 | Pressing a button flips its own `isSelected` and no other button's. |
| HamburgerBuilder.SelectedSectionShape | app/games/hamburger-builder.tsx:120-141 | The section renders iff the selection is non-empty. Its n+2 tags are "Pan Superior", one tag per selected ingredient in selection order, then "Pan Inferior". |
| HamburgerBuilder.TagsHaveColors | app/games/hamburger-builder.tsx:125-139 | When every selected ingredient is a list member, the tag after the top bread for each selected ingredient is that ingredient's tag with its `colorMap` colour. |
| HamburgerBuilder.ReachableTagsHaveColors | app/games/hamburger-builder.tsx:120-141 | Every tag of a selection reached through the buttons has a colour. |
| HamburgerBuilder.CheckoutIngredientsRoundTrip | app/games/hamburger-builder.tsx:39-45 | `handleBuy` pushes "./hamburger-checkout". Its `ingredients` parameter reads back as exactly the selection, in order. |
| Button.OnlyTextIffPrimitiveLeaves | components/atoms/Button.tsx:11-24 | A node is only text iff every node reached by opening arrays and fragments is null, undefined, a boolean, a string or a number. |
| Button.OnlyTextIffPrimitiveLeavesOf | components/atoms/Button.tsx:14 | An array's elements are all text iff all leaves under them are primitives. |
| Button.IsOnlyTextNodeCases | components/atoms/Button.tsx:12-23 | Primitives are text. An array is the conjunction of its elements, so `[]` is text. A fragment is what its children are. Any other element, plain object or other kind is not text. |
| Button.ButtonContent | components/atoms/Button.tsx:26-48 | Children are wrapped in `Text` iff they are only text, and are otherwise passed on as they are. The text style list is exactly [text, textSecondary] for the "secondary" variant and [text, undefined] otherwise. |
| Button.PressableStyle | components/atoms/Button.tsx:32-39 | The list starts [button, primary-or-secondary], with primary by default. "pressed" is third iff pressed and "disabled" is last iff disabled, so the length is 2 + [pressed] + [disabled]. |

## Left out

- Rendering, `StyleSheet` values, icons, the 3D hamburger, layout and navigation scaffolding are left out. They are declarative UI without behaviour.
- Prices are left out: `calculateHamburgerPrice`, `HAMBURGER_INGREDIENTS` (the ingredient labels and prices), `totalPrice.toFixed` and the `totalPrice` route parameter. These are floating point, or live in a file that is not part of this model.
- The unused `order` object of `handleBuy` and its `Date.now()` timestamp are left out.
- The success and dice screens are left out. They use random numbers, floating-point formatting, animation, haptics and the accelerometer.
- `setTimeout` is modelled as a recorded `DelayedPush(500, url)`. The router push that happens 500 ms later, and whether the router is ready then, are not modelled.
- React effects and listener callbacks are modelled as sequential method calls. The un-awaited `register()` runs to completion within its effect. Late results arriving after an unmount are not modelled, and neither are effect re-runs caused by dependency changes; each run is a new call.
- The hook in `lib/` imports the adapter from `core/notifications/notification.adapter`, which is not part of this model. The model assumes it behaves like `notifications-core/NotificationAdapter.ts` for `setup` and registration. Its listener subscriptions are modelled as subscribed/unsubscribed flags.
- The SDK answers for a given `Adapter` are fixed by its `Host`. The OS permission dialog, changes of permission between calls and SDK failures (rejected promises) are not modelled.
- `console.log` / `console.error` and `new Date().toISOString()` are left out. The timestamp is a parameter (`now`).
- The remote store is only recorded. What an upsert does to the `devices` table (one row per token) is not modelled.
- `await onToken(token)` is modelled as the recorded invocation. What the callback does, and its promise, are not modelled.
- JavaScript numbers are modelled as reals plus `NaN`, so only their truthiness is captured.
- `ReactNode` is modelled through what `isOnlyTextNode` inspects. An element is a fragment or another element type, and a missing `props.children` is `undefined`.
- HamburgerBuilder.CheckoutIngredientsRoundTrip: the model of `JSON.stringify` escapes only `"` and `\`. Control characters, which `JSON.stringify` writes as escape sequences, are not modelled; ingredient names contain none. The checkout screen that reads the parameter is not part of this model, so the reader is a reference JSON string-array parser.

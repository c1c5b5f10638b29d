# ReactiveAlex emergency trigger and dispatch, modelled in Dafny

ReactiveAlex is a React Native personal-safety app. The user shakes the phone,
or presses a panic button. The app then looks up the location on a best-effort
basis and asks for confirmation. It then sends an emergency email, an SMS, or
both to a configured contact. A configuration gate decides whether the app is
armed. This project models the decision logic around those native calls:

- `ShakeDetection` (hooks/useShakeDetector.ts) models the accelerometer gate.
  A sample fires when its magnitude is above 12 and more than 800 ms have
  passed since the last accepted shake. The class also holds the debug label,
  the subscription state and the latch `lastShake`. The panic alert is a
  location lookup followed by a two-button prompt.
- `Location` models the location lookup that both alert flows share: ask for
  permission, read the position, reverse-geocode it. Any failure keeps the
  flow's fallback text.
- `EmergencyMessaging` (hooks/useEmergencyMessaging.ts) models the two
  senders. Each one is a pure function from what the device and the store
  answer to exactly one alert, plus the trace of native calls it issued. It
  also models the fan-out to both channels. `triggerEmergencyAlert` is the
  state machine `EmergencyAlert`: location lookup, confirmation prompt,
  channel prompt, dispatch.
- `EmergencyContext` (contexts/EmergencyContext.tsx) models the provider's
  completeness check. The check publishes `isConfigured` and `isLoading` and
  persists `"true"`/`"false"` under `isConfigured`. The module also models
  the consumer hook's guard.
- `UserConfig` (hooks/useUserConfiguration.ts) models the reader hook. It
  takes the persisted flag by JavaScript truthiness. So the `"false"` the
  provider writes reads back as configured, which `CheckThenRead` proves.
- `Storage` and `Wrappers` hold shared pieces. `Storage` models AsyncStorage:
  a map of strings plus the set of keys whose calls raise. `Wrappers` holds
  `Option` and `Reply`. A `Reply` is the settlement of one awaited native
  call: it returns a value or raises an error.

Every native call is an input. Availability probes, composer results,
permission, position and geocoding results are `Reply` values. Stored values
come from a `Snapshot`. The clock (`Date.now()`) is the `now` parameter of the
shake handler. The user's button presses are parameters of the prompt steps.

The code differs from the app's design description in the ways below, and
the model follows the code in each:

- The design has a failed reverse geocoding fall back to raw coordinates. The
  code keeps the fixed fallback text (hooks/useEmergencyMessaging.ts:179-196).
- The design bounds the location lookup in time. The code awaits it with no
  limit (hooks/useEmergencyMessaging.ts:181-196).
- The design gives the two channels the same guard order. The code probes
  email availability before reading storage, but reads the SMS phone before
  probing SMS availability.
- The design reports a missing email address as "unavailable". The code gives
  it its own "Configuration Missing" alert
  (hooks/useEmergencyMessaging.ts:77-81).
- The design sends a confirmed shake on to channel choice and dispatch. The
  code's shake path only shows a placeholder notice and sends nothing
  (hooks/useShakeDetector.ts:69-81).
- The design lets the user cancel at the channel prompt. The code's channel
  prompt has only the three channel buttons and is not cancelable
  (hooks/useEmergencyMessaging.ts:211-229).
- The design ignores a second trigger while an alert is open. The code
  launches the panic alert on every accepted shake
  (hooks/useShakeDetector.ts:30), so only the cooldown separates alerts.

## Model

| member | source | states |
|---|---|---|
| ShakeDetection.MagnitudeThresholds | hooks/useShakeDetector.ts:14-26 | Let m be the non-negative square root of x²+y²+z². Comparing x²+y²+z² with 144 (or 64) gives the same answer as comparing m with 12 (or 8), so the model needs no square root. |
| ShakeDetection.Label | hooks/useShakeDetector.ts:18-29 | The debug label is "PANIC TRIGGERED" iff the sample was accepted. Otherwise it is Movement iff the magnitude exceeds 8, and Stable if not. It is never the initial "waiting" text again. |
| ShakeDetection.ShakeDetector.HandleShakeDetection | hooks/useShakeDetector.ts:13-37 | Fires iff magnitude > 12 and now − lastShake > 800, both strict. On firing, lastShake becomes now before the alert is launched: the alert records the already-latched value. A rejected sample leaves lastShake and the alerts unchanged. Keeps the invariant that launched alerts are pairwise more than 800 ms apart. |
| ShakeDetection.TriggersSpaced | hooks/useShakeDetector.ts:26-27 | For any stream of samples, with timestamps in any order, the accepted triggers are pairwise more than 800 ms apart. Each one is also more than 800 ms after the initial latch. |
| ShakeDetection.TwoQuickShakesTriggerOnce | hooks/useShakeDetector.ts:26-27 | When the first sample clears the 800 ms cooldown, two magnitude-14 samples 500 ms apart launch exactly one alert. |
| ShakeDetection.TwoQuickShakesTriggerAtMostOnce | hooks/useShakeDetector.ts:26-27 | For every latch value, two magnitude-14 samples 500 ms apart launch at most one alert. |
| ShakeDetection.ShakeDetector.constructor | hooks/useShakeDetector.ts:7-10 | Starts with no subscription, inactive, lastShake 0 and the "waiting for movement" label. |
| ShakeDetection.ShakeDetector.StartShakeDetection | hooks/useShakeDetector.ts:92-99 | With a subscription present nothing changes. Otherwise it subscribes and sets isActive. isActive always equals "subscription present". |
| ShakeDetection.ShakeDetector.StopShakeDetection | hooks/useShakeDetector.ts:101-107 | With no subscription nothing changes. Otherwise it unsubscribes and clears isActive. The isActive invariant is kept. |
| ShakeDetection.TriggerPanicAlert | hooks/useShakeDetector.ts:39-90 | The prompt shows 'Ubicación no disponible' unless permission is granted and geocoding returns an address. "False alarm" dismisses; the other button shows the emergency notice. |
| Location.LocationText | hooks/useEmergencyMessaging.ts:179-196 | The location text is the first geocoded address with its coordinates when permission is granted and every call settles with an address. Otherwise it is the fallback, including when any call raises. |
| Location.LookupLocation | hooks/useShakeDetector.ts:42-59 | The step-by-step lookup, which overwrites a local fallback only once an address is known, yields exactly LocationText. |
| EmergencyMessaging.SendEmergencyEmail | hooks/useEmergencyMessaging.ts:11-91 | Probes availability first. If it is unavailable, the outcome is "Email Not Available" and nothing else is called. The composer is opened iff both addresses are non-empty, addressed exactly to [contactEmail], with the user and location in the body. A missing address gives "Configuration Missing", with each field reported Set/Missing on its own. The status maps SENT to sent, SAVED to drafts and anything else to cancelled. Every raised error becomes "Email Error". |
| EmergencyMessaging.SendEmergencySMS | hooks/useEmergencyMessaging.ts:93-162 | Reads the phone first. If it is missing, the outcome is "Phone Number Missing" with no availability probe and no composer call. A present phone on a device without SMS gives "SMS Not Available". The composer is opened iff the phone is set and SMS is available, addressed exactly to [contactPhone]. 'sent' maps to sent, 'cancelled' to cancelled, anything else to the SMS error. Every raised error becomes the SMS error. |
| EmergencyMessaging.SendBothEmergencyMessages | hooks/useEmergencyMessaging.ts:164-174 | Always yields exactly one report per channel, and each one equals what that channel's sender gives alone. |
| EmergencyMessaging.BothWithoutPhone | hooks/useEmergencyMessaging.ts:93-153 | With no stored phone, choosing both yields "Phone Number Missing" for SMS after a single read, and still an email report. |
| EmergencyMessaging.EmergencyAlert.constructor | hooks/useEmergencyMessaging.ts:176-200 | The alert starts at the confirmation prompt with no channel contacted. Its location text is the lookup's result, with fallback 'Location not available'. |
| EmergencyMessaging.EmergencyAlert.Respond | hooks/useEmergencyMessaging.ts:198-211 | "False Alarm" ends the alert with no sender invoked. Confirming moves to the channel prompt. |
| EmergencyMessaging.DeniedLocationFlow | hooks/useEmergencyMessaging.ts:179-231 | A run with location permission denied, then confirmed and sent through both channels. The prompt shows 'Location not available', both channels are dispatched with their senders' reports, and every message composed carries that same text. |
| EmergencyMessaging.EmergencyAlert.Choose | hooks/useEmergencyMessaging.ts:211-231 | The three choices dispatch exactly {email}, {sms} or {email, sms}, each with its sender's report. Every composed message carries the location text the first prompt showed. |
| EmergencyContext.StoredCompleteIffAllSet | contexts/EmergencyContext.tsx:21-26 | The completeness predicate `ConfigurationComplete`, applied to the stored values: configuration is complete iff userEmail, contactEmail and contactPhone are all present and non-empty. |
| EmergencyContext.FlagText | contexts/EmergencyContext.tsx:31 | The persisted flag is exactly "true" or "false", and it is "true" iff the configuration is complete. |
| EmergencyContext.EmergencyProvider.constructor | contexts/EmergencyContext.tsx:13-14 | Starts with isConfigured null and isLoading true. |
| EmergencyContext.EmergencyProvider.CheckConfiguration | contexts/EmergencyContext.tsx:16-39 | On success, isConfigured equals completeness, and the only store change writes "true"/"false" to 'isConfigured'. If any call raises, including the final write after true was published, the result is false and the store is unchanged. isLoading is false at the end on every path. |
| EmergencyContext.UseEmergencyContext | contexts/EmergencyContext.tsx:63-69 | Raises the "must be used within EmergencyProvider" error iff there is no provider, and otherwise returns the provider's value unchanged. |
| UserConfig.ReadsAsConfigured | hooks/useUserConfiguration.ts:11-15 | Configured iff the read settles with a present, non-empty string: truthiness, not parsing. A raised read gives false. |
| UserConfig.PersistedFlagReadsConfigured | hooks/useUserConfiguration.ts:11-12 | Both flags the provider can persist, "false" included, read back as configured. |
| UserConfig.UserConfiguration.constructor | hooks/useUserConfiguration.ts:5-6 | Starts with isConfigured null and isLoading true. |
| UserConfig.UserConfiguration.CheckPreviousConfiguration | hooks/useUserConfiguration.ts:8-19 | isConfigured becomes the truthiness of the stored flag, or false on a raised read. isLoading ends false, and storage is never written (its frame excludes the store). |
| UserConfig.CheckThenRead | hooks/useUserConfiguration.ts:8-19 | When every storage call succeeds, the provider's check changes the store only by writing FlagText(completeness) to 'isConfigured', so "false" when the contacts are incomplete. The reader then still reports the app configured. |

## Left out

- Native platform APIs are inputs, not models. This covers AsyncStorage, expo-location, MailComposer, SMS, the Accelerometer and `Alert.alert`. A raised error from `Alert.alert` itself, which the flows' outer catches would swallow, is not modelled.
- `Accelerometer.setUpdateInterval(100)` and the `useEffect` cleanup that removes the subscription are not modelled.
- Floating point is not modelled: `Math.sqrt`, `toFixed`, and coordinates are kept as their printed text. The gate compares squared magnitudes over `real`.
- Message subjects, bodies and alert wording are left out, and so is `new Date().toLocaleString()`. Alerts are categories. A composer call records only its recipients and the user and location its body embeds.
- `Promise.all` concurrency is left out. "Both" runs the two senders and collects two reports, with no interleavings. Given that `Alert.alert` does not raise, the outer catch of the fan-out can never fire, because each sender catches its own errors. If `Alert.alert` raised inside a sender's catch, that sender's promise would reject and the fan-out's catch would take it; this is not modelled.
- The 3-second `setTimeout` that resets the debug label is a timer and is left out, and so is all logging.
- React closure semantics are left out. The listener registered by `startShakeDetection` captures the render in which it subscribed. For the whole subscription it reads the `lastShake` of that render, usually the initial 0. In the running app the 800 ms cooldown therefore never engages, and every sample with magnitude above 12 launches the panic alert. The model reads `lastShake` as the field the handler writes. It therefore states the gate as written, not the app's effective behaviour.
- ShakeDetection.ShakeDetector.HandleShakeDetection does not model React's deferred state updates. `lastShake` is updated at once.
- EmergencyContext.EmergencyProvider.CheckConfiguration does not state that `isLoading` is true while the check runs. The model has no suspension points, so only the final state is observable. The method does set it true first, as the source does.
- UserConfig.UserConfiguration.CheckPreviousConfiguration has the same gap: `isLoading` true during the check is set but not observable.
- The error message text is opaque. A raised error carries a string, and `error instanceof Error ? error.message : String(error)` is not modelled.
- EmergencyContext.UseEmergencyContext models the context value as `isConfigured` and `isLoading`. The `refreshConfiguration` callback, which re-runs `CheckConfiguration`, is not a value here.

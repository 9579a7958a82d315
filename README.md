# Horn and siren alert state, modelled in Dafny

This project models the alert logic of a driver-assistance app for deaf drivers.
The app has three alert screens:

- **HornDetection** (`src/screens/HornDetection.tsx`) and its near-duplicate
  **ButtonOneScreen** (`src/screens/buttonOne.tsx`). Each listens to the latest
  document of the Firestore `alerts` collection. A `type` switch turns the
  document into an alert text and an `AlertDetails` record. The screen then
  shows the alert and appends its text to an in-memory history. It triggers
  haptic feedback, plays the alert sound if one is loaded, and re-arms a single
  5000 ms reset. The reset, or the Reset Alert button, returns the screen to
  'No Horn Detected'.
- **The app root** (`App.tsx`). Each MQTT message on `alerts/siren_detected`
  shows a full-screen siren overlay, vibrates with a fixed pattern and
  schedules its own 12000 ms reset. It never cancels earlier resets.

## Layout

| file | module | contents |
|---|---|---|
| `js_values.dfy` | `JsValues` | `Option`; JavaScript truthiness and `field \|\| fallback` |
| `alert_records.dfy` | `AlertRecords` | the document fields read, `Details`, `Alert`, the fixed texts, the per-kind default table |
| `horn_detection.dfy` | `HornDetection` | the `type` switch of HornDetection and its properties |
| `button_one.dfy` | `ButtonOne` | the `type` switch of ButtonOneScreen and how it differs |
| `horn_engine.dfy` | `HornEngine` | the shared state machine of both horn screens, one pure function per handler, runs over event traces, and the lemmas about them |
| `horn_screen.dfy` | `HornScreen` | class `Screen`: the component's state, refs and timer queue as fields; each handler is a method proved equal to its `HornEngine` step |
| `siren_engine.dfy` | `SirenEngine` | the siren handler, its resets and the derived display texts as a pure state machine, with lemmas |
| `siren_app.dfy` | `SirenApp` | class `App`: the root component's state and timer queue as fields; its handlers are proved equal to the `SirenEngine` steps |

How the model treats the runtime:

- **Time** is an integer clock. The runtime's timers are a map from timer id to due time.
- `setTimeout` returns the next id, starting at 1, so ids are always truthy.
- `clearTimeout` removes the timer from the map. A timer that is no longer in the map never runs.
- A timer runs at its due time: its event sets the clock to that time.
- A trace is *admissible* when every event arrives no earlier than the clock and after every timer that was already due.
- **Haptic feedback, sound requests, sound release and vibration** are recorded in an effect log, not executed. In the classes the log is a ghost field.
- **Sound** is a loaded or not loaded flag for `soundRef`.
- **Batching:** the two state setters in each `App.tsx` callback (lines 41-42 and 76-77) commit as one render. React 18 batches updates automatically under the Fabric renderer, which `android/app/src/main/java/com/researchapp/MainActivity.kt:14` enables. `SirenEngine.AlertActiveNeverShown` depends on this: without batching, a reset would first render a hidden overlay with the old message.
- **Unmounting:** React drops a state setter called after a component has unmounted, but refs and timers keep working. The `mounted` flag models that. The mount effect of both horn screens discards the unsubscribe function returned by `setupFirestoreListener` (`src/screens/HornDetection.tsx:74`). The model therefore keeps the listener registered after unmount. `HornEngine.ListenerOutlivesUnmount` proves that an update arriving after unmount still triggers haptic feedback and arms a reset.
- A document with an unrecognised `type` is handled like any other update: it shows 'No Horn Detected', appends that text to the history, triggers haptic feedback, calls `playSound`, which requests the sound only if one is loaded, and arms a new reset.
- The siren handler never cancels an earlier reset. `SirenEngine.StaleResetHidesNewerSiren` and `SirenEngine.TwoSirens` prove the consequence: an older siren's reset clears a newer siren before the newer one's own 12000 ms are up.

## Model

| member | source | states |
|---|---|---|
| `JsValues.NumberOr` | src/screens/HornDetection.tsx:249 | `intensity \|\| d`: a truthy field is kept; a missing or zero field gives the default; a non-zero default never yields 0 |
| `JsValues.TextOr` | src/screens/HornDetection.tsx:249 | `severity \|\| d`: a non-empty field is kept; a missing or empty field gives the default; a non-empty default never yields '' |
| `HornDetection.Classify` | src/screens/HornDetection.tsx:238-261 | The text is 'No Horn Detected' iff `type` is not Horn/Left/Right, iff the details are {0, 'None', 'None'}, iff the direction is 'None'. A recognised document always has a non-zero intensity and a non-empty severity |
| `HornDetection.ClassifyFollowsTable` | src/screens/HornDetection.tsx:246-261 | For every document, the switch agrees with the per-kind default table. Text and direction come from the table. Intensity and severity come from the document when truthy and from the table otherwise. An unrecognised type gives the idle alert |
| `HornDetection.DefaultsFillMissingFields` | src/screens/HornDetection.tsx:247-257 | `{type: Horn}` gives 8/Front/Medium, `{type: Left}` gives 10/Left/High and `{type: Right}` gives 10/Right/High. A zero intensity or empty severity counts as missing |
| `HornDetection.SuppliedValuesKept` | src/screens/HornDetection.tsx:249-257 | In a recognised document, a non-zero intensity and a non-empty severity are shown unchanged |
| `HornDetection.DirectionFieldIgnored` | src/screens/HornDetection.tsx:247-249 | The document's `direction` field never changes the result, so a `Horn` document always shows 'Front' |
| `ButtonOne.Classify` | src/screens/buttonOne.tsx:127-150 | 'No Horn Detected' iff `type` is not Horn/Left/Right, and then the details are idle. A recognised document has a non-zero intensity and a non-empty severity and direction |
| `ButtonOne.HornDirectionHonoured` | src/screens/buttonOne.tsx:136-138 | A `Horn` document shows its own direction when truthy and 'Front' otherwise |
| `ButtonOne.AgreesWithHornDetection` | src/screens/buttonOne.tsx:135-150 | For every document, ButtonOneScreen's switch equals HornDetection's, except for the direction of a `Horn` document |
| `ButtonOne.HornMayClaimNoDirection` | src/screens/buttonOne.tsx:136-138 | A `Horn` document with direction 'None' shows 'Horn Detected!' with direction 'None', a state HornDetection cannot reach |
| `HornEngine.Initial` | src/screens/HornDetection.tsx:55-65 | The first render is idle: 'No Horn Detected', idle details, empty history, no reset pending, listener not yet registered. Nothing is loading, no sound is loaded, the reset ref is empty, no feedback has been given and the clock reads the start time |
| `HornEngine.PlaySound` | src/screens/HornDetection.tsx:203-211 | A playback request is logged exactly when a sound is loaded; nothing else changes |
| `HornEngine.UnloadSound` | src/screens/buttonOne.tsx:84-89 | Afterwards no sound is loaded; a release is logged exactly when one was loaded |
| `HornEngine.HandleUpdate` | src/screens/HornDetection.tsx:263-273 | In a valid state, exactly one reset is pending afterwards: the new one, due 5000 ms from now, held by the ref. A mounted screen shows the new alert and its history grows by exactly its text. Feedback is one haptic pulse, plus a sound request iff the sound is loaded |
| `HornEngine.Refresh` | src/screens/HornDetection.tsx:276-280 | No reset is pending afterwards. A mounted screen shows the idle alert; an unmounted one keeps its alert and details. No other field changes |
| `HornEngine.OnMount` | src/screens/HornDetection.tsx:72-74 | The listener is registered, a sound load is in flight and the loading flag is raised; the clock moves to the event's time and nothing else changes |
| `HornEngine.OnSoundLoaded` | src/screens/buttonOne.tsx:71-82 | Success marks the sound loaded. Failure shows 'Failed to load alert sound' and leaves the sound absent. Success, or an unmounted screen, keeps the alert text. The clock moves to the event's time; no other field changes |
| `HornEngine.OnSnapshot` | src/screens/HornDetection.tsx:220-227 | An empty snapshot changes only the loading flag. A non-empty one is `handleFirestoreUpdate` of `docs[0]`. A mounted screen's loading flag drops either way; an unmounted screen's stays. The clock moves to the event's time |
| `HornEngine.OnListenerError` | src/screens/HornDetection.tsx:228-232 | A mounted screen shows 'Error connecting to Firestore' and drops the loading flag; an unmounted one keeps both. The clock moves to the event's time; every other field is unchanged |
| `HornEngine.OnTimer` | src/screens/HornDetection.tsx:272-273 | A cleared timer does nothing. A live one runs at its due time, leaves no reset pending and shows the idle alert |
| `HornEngine.OnUnmount` | src/screens/HornDetection.tsx:82-85 | Afterwards no reset is pending and no sound is loaded; the sound release is logged; the listener stays registered. Alert, details, history, loading flags, the reset ref and a sound load in flight are unchanged; the clock moves to the event's time |
| `HornEngine.StepPreservesValid` | src/screens/HornDetection.tsx:272-273 | Every event keeps the invariant: at most the ref's timer is pending |
| `HornEngine.StepHistory` | src/screens/HornDetection.tsx:265 | Only an update of a mounted screen writes the history, and it appends exactly the classified text; every other event leaves it alone |
| `HornEngine.AtMostOneResetPending` | src/screens/HornDetection.tsx:272-273 | A valid state has at most one pending reset |
| `HornEngine.UpdateFeedback` | src/screens/HornDetection.tsx:267-269 | Every update, recognised type or not, logs one haptic pulse, then a sound request iff the sound is loaded |
| `HornEngine.OnlyFirstDocumentCounts` | src/screens/HornDetection.tsx:221-224 | A snapshot's result depends only on its first document |
| `HornEngine.UpdateSupersedes` | src/screens/HornDetection.tsx:263-273 | After an update, the new alert is shown and its reset is the only one pending, due 5000 ms after the update |
| `HornEngine.SupersededTimerIsInert` | src/screens/HornDetection.tsx:272 | A reset pending before an update is cleared by it; when its time comes it changes nothing |
| `HornEngine.TimerAndButtonAgree` | src/screens/HornDetection.tsx:368 | The reset timer and a press of Reset Alert at its due time produce the same state |
| `HornEngine.ResetIdempotent` | src/screens/buttonOne.tsx:165-169 | Pressing Reset Alert twice equals pressing it once |
| `HornEngine.ListenerErrorTouchesOnlyText` | src/screens/buttonOne.tsx:116-120 | The listener error changes the alert text and loading flag only: details, history, timers and feedback are unchanged |
| `HornEngine.EmptySnapshotKeepsAlert` | src/screens/buttonOne.tsx:108-115 | An empty snapshot leaves alert, details, history, timers and feedback as they were and drops the loading flag |
| `HornEngine.ListenerOutlivesUnmount` | src/screens/HornDetection.tsx:72-86 | After unmount the listener can still deliver. An update then changes neither alert nor history, but logs a haptic pulse and arms a fresh reset |
| `HornEngine.OnlyUpdatesArmTimers` | src/screens/HornDetection.tsx:271-273 | No event other than an update adds a timer or moves a due time |
| `HornEngine.RunPreservesValid` | src/screens/buttonOne.tsx:161-162 | After any sequence of events, at most the ref's timer is pending |
| `HornEngine.HistoryOnlyGrows` | src/screens/buttonOne.tsx:154 | Over any run, the old history is a prefix of the new one and grows by at most one entry per event |
| `HornEngine.BurstOfUpdates` | src/screens/buttonOne.tsx:152-154 | After any non-empty burst of updates on a mounted screen, the last one is shown and the history grows by exactly their texts in arrival order |
| `HornEngine.TimerSafety` | src/screens/HornDetection.tsx:271-273 | From a state with no pending reset, after any run every pending reset is due exactly 5000 ms after the latest update, so an earlier update's timer cannot clear a later alert |
| `HornEngine.ResetRunsDelayAfterLatestUpdate` | src/screens/HornDetection.tsx:273 | When the automatic reset runs, the clock reads exactly 5000 ms after the latest update, and a mounted screen goes back to idle |
| `HornEngine.FailedLoadStaysSilent` | src/screens/buttonOne.tsx:71-99 | Once the sound load has failed, no admissible run loads a sound or logs a sound request; the effect log only grows |
| `HornScreen.Screen.constructor` | src/screens/HornDetection.tsx:55-65 | The new component's state is `HornEngine.Initial` and valid |
| `HornScreen.Screen.Mount` | src/screens/HornDetection.tsx:72-74 | Makes the `Mount` step of `HornEngine` and keeps validity |
| `HornScreen.Screen.OnSoundLoaded` | src/screens/HornDetection.tsx:185-193 | Makes the sound load callback step and keeps validity |
| `HornScreen.Screen.PlaySound` | src/screens/HornDetection.tsx:203-211 | Makes `HornEngine.PlaySound` |
| `HornScreen.Screen.UnloadSound` | src/screens/HornDetection.tsx:196-201 | Makes `HornEngine.UnloadSound` |
| `HornScreen.Screen.HandleFirestoreUpdate` | src/screens/HornDetection.tsx:238-274 | Makes `HornEngine.HandleUpdate` of the screen's own classification; in a valid state it leaves exactly the new reset pending |
| `HornScreen.Screen.Apply` | src/screens/HornDetection.tsx:263-273 | Makes `HornEngine.HandleUpdate` for an already classified alert |
| `HornScreen.Screen.ShowAlert` | src/screens/HornDetection.tsx:263-265 | Makes the three state setters of the update |
| `HornScreen.Screen.GiveFeedback` | src/screens/HornDetection.tsx:268-269 | Logs the haptic pulse, then plays the sound if loaded |
| `HornScreen.Screen.RearmReset` | src/screens/HornDetection.tsx:272-273 | Clears the ref's timer, then arms and stores a new 5000 ms one |
| `HornScreen.Screen.RefreshAlerts` | src/screens/HornDetection.tsx:276-280 | Makes `HornEngine.Refresh`; in a valid state no reset is pending afterwards |
| `HornScreen.Screen.OnSnapshot` | src/screens/HornDetection.tsx:220-227 | Makes the snapshot step and keeps validity |
| `HornScreen.Screen.OnListenerError` | src/screens/HornDetection.tsx:228-232 | Makes the listener error step and keeps validity |
| `HornScreen.Screen.PressReset` | src/screens/HornDetection.tsx:368 | Makes the Reset Alert step and keeps validity |
| `HornScreen.Screen.FireTimer` | src/screens/HornDetection.tsx:273 | Makes the timer step (a cleared timer does nothing) and keeps validity |
| `HornScreen.Screen.Unmount` | src/screens/HornDetection.tsx:82-85 | Makes the cleanup step and keeps validity |
| `SirenEngine.Initial` | App.tsx:14-15 | No message, no overlay, no reset pending, an empty vibration log, the clock at the start time; valid |
| `SirenEngine.OnMessage` | App.tsx:38-43 | The message is stored and the overlay shown, whatever came before. One non-repeating vibration [0, 800, 400, 800, 400, 1200] is logged. A new reset is added, due 12000 ms later. Every earlier reset stays pending with its due time, so the count grows by one. The clock moves to the message's time and the timer counter advances by one |
| `SirenEngine.FireReset` | App.tsx:75-79 | Any live reset, whichever message armed it, hides the overlay and nulls the message at its due time, logs no vibration and arms no timer; a cleared one does nothing |
| `SirenEngine.AlertText` | App.tsx:148-153 | The Current Alert box shows the message when it is non-empty, else 'No siren detected yet.' |
| `SirenEngine.StatusCard` | App.tsx:139-146 | The status card is absent exactly while the overlay is shown; otherwise it reads Alert Active for a non-empty message and Monitoring... for a null or empty one |
| `SirenEngine.StepPreservesValid` | App.tsx:41-42 | Every enabled event keeps: overlay shown iff a message is stored, and no reset due more than 12000 ms ahead |
| `SirenEngine.RunPreservesValid` | App.tsx:76-77 | After any admissible run, the overlay is shown exactly when a message is stored |
| `SirenEngine.AlertActiveNeverShown` | App.tsx:139-146 | In every valid state the status card never reads Alert Active, since it appears only when no message is stored |
| `SirenEngine.PendingResetsGrow` | App.tsx:75-79 | After an admissible run of n messages, n more resets are pending and none of the earlier ones has gone |
| `SirenEngine.StaleResetHidesNewerSiren` | App.tsx:75-79 | A reset armed earlier and still pending when a newer message arrives clears that message less than 12000 ms after it arrived; the newer message's own reset stays pending |
| `SirenEngine.TwoSirens` | App.tsx:38-80 | Siren A at 0 ms and siren B at 5000 ms is an admissible run. A's reset runs at 12000 ms and hides B after 7000 ms, leaving B's reset pending for 17000 ms |
| `SirenApp.App.constructor` | App.tsx:14-15 | The new component's state is `SirenEngine.Initial` |
| `SirenApp.App.OnMessage` | App.tsx:38-80 | Makes `SirenEngine.OnMessage` |
| `SirenApp.App.FireReset` | App.tsx:75-79 | Makes `SirenEngine.FireReset` |
| `SirenApp.App.CurrentAlert` | App.tsx:148-153 | Returns the message when it is non-empty, else 'No siren detected yet.' |
| `SirenApp.App.Status` | App.tsx:139-146 | Returns no card exactly while the overlay is shown, and otherwise the card `SirenEngine.StatusCard` gives |

## Left out

- Styles, `Animated` sequences, loops and interpolations, icon images, direction colours, the dark-mode toggle, and the status-line colour. These are presentation and floating-point animation values.
- The `ErrorBoundary` class of both horn screens. It is React exception interception with no alert logic.
- Firestore query construction (`collection`, `orderBy`, `limit`, `onSnapshot`). Only the two callbacks it invokes are modelled. The document is reduced to the four fields the screens read.
- The MQTT client: `connect`, its reconnect and timeout options, `subscribe`, the `connect` handler (which subscribes and logs) and the `error` handler (which only logs), and `client.end()` on unmount. Only the `message` handler is modelled, with `message.toString()` taken as given text. The root component's unmount is not modelled.
- `console` logging, `Sound.setCategory`, and the playback-finished callback of `play`, which only logs.
- The device drivers for sound, haptic feedback and vibration. Their calls are logged as effects, not performed.
- `pulseAnim.setValue(1)` in the siren reset is an animation value.
- JavaScript numbers: `intensity` is an integer. NaN (also falsy) and non-number field values (which `||` would pass through unchanged) are not modelled. A `type` that is not a string matches no case, exactly like a missing one. A `severity` or `direction` that is not a string is not modelled either: the source shows a truthy one unchanged and treats a falsy one as missing.
- The end of a Firestore subscription after its error callback: the model keeps the listener registered after `ListenerError`, so further snapshots stay possible. Every lemma about runs quantifies over all such traces, so it also covers the traces in which no snapshot follows an error.
- Timer tolerance: a timer runs exactly at its due time. The runtime's scheduling delay is not modelled.
- HomeScreen navigation, the placeholder screens, the `SirenAlert` component and the platform bootstrap files. None of them holds alert logic.

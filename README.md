# MacAlert unplug alarm, modelled in Dafny

MacAlert is a small macOS utility. It polls the laptop's power state. When the
power adapter is unplugged, it shows a "did you unplug the power intentionally?"
prompt. If the prompt is still up and unconfirmed ten seconds later, it starts a
looping alarm sound. All of this logic lives in `PowerStateViewModel`. This
project models that class:

- `readings.dfy` (module `Readings`) turns IOKit's answers into values. Each power
  source's description is a property-list dictionary, and
  `ChargingFlag` is what `description[kIOPSIsChargingKey] as? Bool` yields.
  `SomeSourceCharging` says that some source reports charging.
- `transitions.dfy` (module `Transitions`) holds the state machine as values.
  `MonitorState` holds the view model's four flags, whether the alarm is
  playing, and how many deferred alarm checks are queued and have not run yet.
  Each event is one function: a poll, a queued check running, a confirmation,
  hiding the prompt, play and stop. Hiding the prompt is also what happens when
  the user dismisses the alert (including with "Cancel"), because the alert's
  `isPresented` binding writes `false` to `showUnplugConfirmation`. `Next` and
  `Run` fold traces of events. The invariant `Inv` says that the prompt is only up while the last poll saw no
  adapter, the unplug is unconfirmed, and a check is queued. The lemmas state
  what holds across whole traces.
- `view_model.dfy` (module `ViewModel`) holds the class `PowerStateViewModel`,
  with the same fields, updated in place. Each method is proved to move
  `State()` exactly as the matching function in `Transitions` does. Each method
  also keeps `Valid()`, which is `Inv` on the object's fields.

The model follows the code as written. Some of this behaviour is surprising:

- Every poll that sees no adapter before any confirmation queues one more
  deferred check. Repeated polls are not deduplicated
  (`DisconnectedPollsQueueOneCheckEach`).
- `unpluggedIntentionally` is never reset. After a confirmation, plugging the
  adapter back in does not re-arm the prompt (`ConfirmationIsPermanent`,
  `ConfirmedUnplugIsNotRearmed`).
- A confirmation hides the prompt but does not stop a sound that is already
  playing (`AfterConfirm`). The next poll stops it.
- The cable (charging) reading is stored but never decides anything
  (`CableReadingNeverDecides`).
- When a queued check starts the alarm, it also hides the prompt.

## Model

| member | source | states |
|---|---|---|
| Readings.ChargingFlag | Alert/Alert/ContentView.swift:86-87 | A source gives a charging flag exactly when its description has the is-charging key and that value is a Bool; the flag is that Bool. A missing key or a non-Bool value gives no flag. |
| ViewModel.PowerStateViewModel.IsPowerCableConnected | Alert/Alert/ContentView.swift:81-94 | The loop with early return yields true if and only if some source's charging flag is true; an empty list of sources yields false. |
| ViewModel.PowerStateViewModel.CheckPowerAdapterConnection | Alert/Alert/ContentView.swift:96-99 | The adapter counts as connected exactly when the adapter details are non-nil. |
| ViewModel.PowerStateViewModel.constructor | Alert/Alert/ContentView.swift:7-11 | A new view model has both connection flags true, no prompt, no confirmation, no sound and no queued check, and satisfies the invariant. |
| ViewModel.PowerStateViewModel.UpdatePowerState | Alert/Alert/ContentView.swift:58-79 | A poll stores the charging reading and the adapter reading. The object then moves as `AfterUpdate` says. From any state, the invariant holds afterwards. |
| ViewModel.PowerStateViewModel.AlarmCheckFires | Alert/Alert/ContentView.swift:68-73 | A queued check can run only while one is queued. It consumes one queued check and moves the object as `AfterAlarmCheck` says. |
| ViewModel.PowerStateViewModel.PlaySound | Alert/Alert/ContentView.swift:101-105 | Afterwards the sound is playing. Nothing else changes. |
| ViewModel.PowerStateViewModel.StopSound | Alert/Alert/ContentView.swift:107-111 | Afterwards the sound is stopped. Nothing else changes. |
| ViewModel.PowerStateViewModel.HideUnplugConfirmation | Alert/Alert/ContentView.swift:113-115 | Afterwards the prompt is down. Nothing else changes. |
| ViewModel.PowerStateViewModel.ConfirmUnpluggedIntentionally | Alert/Alert/ContentView.swift:117-120 | Afterwards the prompt is down and the unplug is confirmed. Nothing else changes. |
| Transitions.AfterUpdate | Alert/Alert/ContentView.swift:60-77 | With no adapter and no confirmation, a poll raises the prompt and queues exactly one more check, and leaves the sound as it was. Otherwise it lowers the prompt, stops the sound and queues nothing. Both readings are stored and the confirmation is untouched. Every poll leaves the invariant true. |
| Transitions.AfterAlarmCheck | Alert/Alert/ContentView.swift:68-73 | A check always consumes one queued check. It starts the sound and lowers the prompt only if, when it runs, the prompt is up and the unplug is unconfirmed; otherwise nothing else changes. It keeps the invariant. |
| Transitions.AfterConfirm | Alert/Alert/ContentView.swift:117-120 | The unplug becomes confirmed and the prompt goes down. The sound and the queued checks are untouched, so a playing alarm keeps playing. |
| Transitions.AfterHide | Alert/Alert/ContentView.swift:113-115 | The prompt is down and every other field is unchanged. |
| Transitions.AfterPlay | Alert/Alert/ContentView.swift:101-105 | The sound is playing afterwards. Playing while already playing changes nothing, and no other field changes. |
| Transitions.AfterStop | Alert/Alert/ContentView.swift:107-111 | The sound is stopped afterwards. Stopping while already stopped changes nothing, and no other field changes. |
| Transitions.Next | Alert/Alert/ContentView.swift:58-120 | Every event keeps the invariant. Only a confirmation sets the confirmation flag, and nothing clears it. The sound starts only by a manual play or by a queued check that finds the prompt up and the unplug unconfirmed. Under the invariant, the latter needs the last poll to have seen no adapter. The prompt is raised only by a poll that sees no adapter before any confirmation. |
| Transitions.RunKeepsInv | Alert/Alert/ContentView.swift:58-120 | The invariant holds after any feasible sequence of events that starts where it holds. |
| Transitions.ReachableStatesKeepInv | Alert/Alert/ContentView.swift:7-11 | Every state reachable from the initial one satisfies the invariant. |
| Transitions.ConfirmationIsPermanent | Alert/Alert/ContentView.swift:58-120 | After a confirmation, no later event clears it or raises the prompt. The sound can be playing afterwards only if it already was or a manual play started it. |
| Transitions.DisconnectedPollsQueueOneCheckEach | Alert/Alert/ContentView.swift:63-68 | Before any confirmation, n polls that see no adapter queue exactly n more checks and leave the prompt up. |
| Transitions.CableReadingNeverDecides | Alert/Alert/ContentView.swift:60-63 | Two traces whose polls differ only in the cable reading reach states that differ only in the stored cable reading. |
| Transitions.UnconfirmedUnplugEscalates | Alert/Alert/ContentView.swift:58-79 | Take a connected poll and then a disconnected one. When the queued check runs, the sound plays, the prompt is down and no check is left. A later connected poll stops the sound. In the running app about a thousand polls fall within the 10-second grace period, each queuing a check, so "no check is left" holds only for this short trace, in which the check runs with no polls in between. |
| Transitions.ConfirmedUnplugIsNotRearmed | Alert/Alert/ContentView.swift:117-120 | Take an unplug that is confirmed before its check runs. That check does nothing. After a reconnect and a second unplug there is no prompt, no sound and no queued check. |

## Left out

- ChargingFlag: takes a description for every source. The source force-unwraps the results of `IOPSCopyPowerSourcesInfo`, `IOPSCopyPowerSourcesList` and `IOPSGetPowerSourceDescription` (lines 82, 83 and 86), so it traps when IOKit returns no snapshot, no list or no description; those traps are not modelled, and the optional chaining on the description after the unwrap can never see nil.
- The IOKit calls (`IOPSCopyPowerSourcesInfo`, `IOPSCopyPowerSourcesList`, `IOPSGetPowerSourceDescription`, `IOPSCopyExternalPowerAdapterDetails`) are foreign platform calls. Their results are parameters of `UpdatePowerState`.
- A property-list value is either one that `as? Bool` accepts or some other value. Which Foundation values bridge to Bool is not modelled.
- `AVAudioPlayer` setup and playback are modelled as the single `playing` flag. The model does not cover the bundle lookup, the looping setting, or the crash when `playSound` or `stopSound` runs after the sound file failed to load (the player is an implicitly unwrapped optional). The `print` diagnostics are left out too.
- The 0.01-second Combine timer and the sleep/wake notifications are left out. So is the main-queue dispatch of `updatePowerState`, including the one that `init` requests. Each of these only causes a poll, and polls are `UpdatePowerState` calls made one at a time.
- The 10-second `asyncAfter` delay is wall-clock time. The model has a count of queued checks, and `AlarmCheckFires` may run whenever one is queued. Nothing states that a check runs only after its grace period, or in which order checks run.
- The queued check runs on a global queue while polls run on the main queue, which is a data race on the published fields. That concurrency is not modelled: events happen one at a time.
- The SwiftUI `ContentView` is presentation and is left out: the labels, the alert, and the button whose local toggle forwards to `playSound`, `stopSound` and `confirmUnpluggedIntentionally`.
- The `@Published` change notifications are left out.

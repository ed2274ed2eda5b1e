# Danfoss Air device session, modelled in Dafny

This project models the session controller of the Homey Danfoss Air driver,
`DanfossAirDevice` in `drivers/danfoss-air/device.ts`. The controller owns one
transport client for the air unit at the configured host. It:

- translates capability writes (`fan_mode`, `fan_speed.step`, `onoff.boost`,
  `onoff.bypass`, `onoff.automatic_bypass`) into commands;
- translates pushed parameters into capability values;
- holds back inbound operating modes for a debounce window after a mode write;
- starts the client and checks the unit's serial number;
- on a transport error, tears the client down and schedules one retry;
- reacts to a changed `hostname` setting and to deletion of the device.

The project has four modules:

- `Translate` (translate.dfy) holds the pure rules:
  - the mode switch in both directions;
  - the step clamp;
  - the serial number composed with JavaScript's 32-bit `<<`, `&` and `|`;
  - the table that routes each pushed parameter.
- `Session` (session.dfy) is the controller as a state machine on values.
  - A `State` holds the device's own fields, the platform's part and the transport's part:
    - device fields: `danfossAir`, `currentFanStep`, `modeSwitchTimeout`, `reinitTimeout`, `isInitializing`;
    - platform: capability values and presence, availability, whether listeners are registered, scheduled timers;
    - transport: live clients and the log of calls made.
  - There is one transition function per event.
  - The invariant `Inv` says nothing dangles: the scheduled timers are exactly those the two slots hold, and the live clients are exactly the one the device holds.
  - The invariant `Serialized` says no retry is pending while an initialization is in flight.
- `SessionProofs` (session_proofs.dfy) proves the controller's promises about `Session`.
- `Device` (device.dfy) is the imperative form.
  - The classes are `Homey` (the platform's view of the device), `Transport` (the client library) and `DanfossAirDevice`.
  - `DanfossAirDevice` has the source's fields and one method per handler.
  - Every method is proved to leave `Model()` exactly where the matching `Session` transition puts it. So everything proved in `SessionProofs` holds of these methods.

Each handler runs as one atomic step of the single-threaded event loop, with one exception. `deviceInit` is split at its `await` of `start()`, and its later `await` of `setAvailable()` is not split (see "## Left out"):

- `BeginDeviceInit` is the synchronous part.
- `OnInitSettled` runs when `start()` settles. It is given:
  - whether `start()` succeeded;
  - what `getParameter` returned for the two serial-number words.

  It then runs the continuation of the caller that awaited the initialization: `onInit`, the reinit timer's callback, or `onSettings`.

Timers fire only through `OnTimer`, and a cleared timer never fires.

Two behaviours of the code are easy to misread, and the model follows the code in both:

- A failed `deviceInit` only lowers `isInitializing` and re-throws. It does not set the device unavailable.
  - After a failure awaited by `onInit` or `onSettings`, the device keeps whatever availability it had. For `onInit` that is unavailable.
  - After a failed reinit attempt, `restartInit` sets the device unavailable.
- `restartInit` does not ignore a call made while a retry is pending. It clears the pending timer and schedules a new one (`RestartInitTwice`). Only the transport's error callback skips the restart while a retry is pending (`TransportErrorWhilePending`).

## Model

| member | source | states |
|---|---|---|
| Translate.ModeCode | drivers/danfoss-air/device.ts:33-47 | the code is 1 exactly for `program` and 2 exactly for `manual`; `demand` and every other string give 0 |
| Translate.ModeName | drivers/danfoss-air/device.ts:226-237 | the mode is one of the three names; `program` exactly for the number 1 and `manual` exactly for the number 2 (strict equality, so `true` is not 1); anything else gives `demand` |
| Translate.ModeNameOfModeCode | drivers/danfoss-air/device.ts:33-47 | a mode written as its code and read back is the same mode |
| Translate.ModeCodeOfModeName | drivers/danfoss-air/device.ts:226-237 | a code 0..2 read as a mode and written back is the same code |
| Translate.StepFromPercent | drivers/danfoss-air/device.ts:60 | the step sent is in 1..10; below 20 it is 1, from 100 on it is 10, and in between `step*10 <= value < step*10 + 10` |
| Translate.StepRoundTrip | drivers/danfoss-air/device.ts:58-61 | a step 1..10 shown as `step * 10` and written back sends the same step |
| Translate.SerialPattern | drivers/danfoss-air/device.ts:194 | the 32-bit pattern of `high << 16` OR-ed with `low & 0xFFFF` is the high word's low 16 bits followed by the low word's low 16 bits |
| Translate.SerialNumber | drivers/danfoss-air/device.ts:194 | the serial number is a signed 32-bit number whose upper half is the high word's low 16 bits and whose lower half is the low word's low 16 bits |
| Translate.SerialExample | drivers/danfoss-air/device.ts:187-194 | the words 0x1234 and 0xABCD give the serial 0x1234ABCD |
| Translate.RouteOf | drivers/danfoss-air/device.ts:220-305 | `operation_mode` goes to the debounced mode path, `fan_step` to the cache-and-scale path; the three revision/runtime ids are ignored, unknown ids only logged; every other id is copied into a capability that is neither `fan_mode` nor `fan_speed.step` |
| Translate.RoutesInjective | drivers/danfoss-air/device.ts:222-296 | no two parameters are copied into the same capability |
| SessionProofs.OnInitEstablishes | drivers/danfoss-air/device.ts:21-30 | `onInit` leaves the device unavailable with both invariants; with a hostname exactly one client is live and started, without one nothing is started and `fan_speed.step` is absent |
| SessionProofs.StepInv | drivers/danfoss-air/device.ts:89-101 | every event keeps both invariants: no dangling timer or client, and no retry pending while an initialization is in flight |
| SessionProofs.RunInv | drivers/danfoss-air/device.ts:89-101 | any sequence of events keeps both invariants |
| SessionProofs.AtMostOneLiveClient | drivers/danfoss-air/device.ts:146-153 | at any point after `onInit` at most one client is live, at most one reinit timer and at most one mode-switch timer are scheduled |
| SessionProofs.WritesNeedListeners | drivers/danfoss-air/device.ts:28-31 | before `onInit` has registered its listeners, capability writes change nothing |
| SessionProofs.WriteFanModeRearms | drivers/danfoss-air/device.ts:48-55 | a `fan_mode` write cancels every earlier mode-switch timer, leaves exactly one new one, leaves the reinit timer alone and sends the mode on the current client |
| SessionProofs.FanModeWriteSendsMode | drivers/danfoss-air/device.ts:31-56 | writing a known mode appends exactly one `setMode` whose code reads back as that mode |
| SessionProofs.FanStepWriteSendsStep | drivers/danfoss-air/device.ts:58-61 | a step write appends exactly one `setFanStep` in 1..10 on the current client and changes nothing else |
| SessionProofs.FanStepWriteOfShownStep | drivers/danfoss-air/device.ts:58-61 | writing back the shown `step * 10` sends `step` |
| SessionProofs.SwitchWritesSendOne | drivers/danfoss-air/device.ts:63-80 | boost sends activate or deactivate by the switch state; bypass and automatic bypass send one parameter write carrying the switch state |
| SessionProofs.DebounceDropsMode | drivers/danfoss-air/device.ts:239-244 | while the mode-switch window is armed, an inbound mode changes nothing |
| SessionProofs.ModeAppliedOutsideWindow | drivers/danfoss-air/device.ts:239-241 | outside the window an inbound mode sets `fan_mode` and makes `fan_speed.step` present exactly for `manual` |
| SessionProofs.DebounceIgnoresOtherIds | drivers/danfoss-air/device.ts:247-303 | every other parameter is handled the same whether the window is armed or not |
| SessionProofs.ModeSwitchFiringClears | drivers/danfoss-air/device.ts:51-54 | the window's timer firing empties the slot, leaves no mode-switch timer and keeps the reinit slot |
| SessionProofs.CopiedParameterSetsOneCapability | drivers/danfoss-air/device.ts:222-296 | a copied parameter sets its capability to the pushed value if present and changes nothing else |
| SessionProofs.UnroutedChangesNothing | drivers/danfoss-air/device.ts:297-303 | ignored and unknown parameters change nothing |
| SessionProofs.FanStepCachedAndShown | drivers/danfoss-air/device.ts:256-261 | an inbound `fan_step` is always cached, and shown as `value * 10` only when `fan_speed.step` is present |
| SessionProofs.UpdateFanStepPresence | drivers/danfoss-air/device.ts:208-218 | afterwards `fan_speed.step` is present exactly when asked for; no other capability or value changes |
| SessionProofs.UpdateFanStepIdempotent | drivers/danfoss-air/device.ts:208-218 | asking twice is asking once |
| SessionProofs.UpdateFanStepBackfill | drivers/danfoss-air/device.ts:209-216 | a newly added `fan_speed.step` gets `currentFanStep * 10` exactly when a truthy step is cached; an already present one is untouched; a removed one has no value |
| SessionProofs.BeginInitWhileInFlight | drivers/danfoss-air/device.ts:139-144 | while an initialization is in flight `deviceInit` changes nothing |
| SessionProofs.BeginInitReplacesClient | drivers/danfoss-air/device.ts:146-185 | otherwise the flag is raised, the previous client is cleaned up before a fresh one is constructed and started, and only the fresh one is live |
| SessionProofs.CleanupEmptiesHandle | drivers/danfoss-air/device.ts:127-137 | cleanup always empties the handle and releases the client it held |
| SessionProofs.FinishInitSettles | drivers/danfoss-air/device.ts:185-205 | the flag is lowered on both outcomes; success exactly when `start` succeeded, the client is still held and both serial words exist (a word whose value is 0 passes); success makes the device available; a failed reinit attempt schedules exactly one new timer; any other failure changes only the flag |
| SessionProofs.RestartInitSchedulesOne | drivers/danfoss-air/device.ts:89-124 | afterwards there is no reinit timer if an initialization is in flight, and otherwise exactly one fresh one, with the device unavailable and no client live |
| SessionProofs.RestartInitTwice | drivers/danfoss-air/device.ts:90-95 | a second `restartInit` replaces the pending attempt: still exactly one reinit timer |
| SessionProofs.TransportErrorWhilePending | drivers/danfoss-air/device.ts:179-182 | the error callback changes nothing while a retry is pending |
| SessionProofs.ReinitFiringBegins | drivers/danfoss-air/device.ts:111-116 | the reinit timer firing empties its slot and begins an initialization on one fresh client |
| SessionProofs.FailedAttemptKeepsOnePending | drivers/danfoss-air/device.ts:116-123 | a fired attempt whose start fails starts exactly one client and leaves exactly one new reinit timer, with the device unavailable and no client live |
| SessionProofs.FailedAttemptsCadence | drivers/danfoss-air/device.ts:117-123 | n consecutive failed attempts start exactly n clients and always leave exactly one attempt pending |
| SessionProofs.DeletedTearsDown | drivers/danfoss-air/device.ts:363-377 | after `onDeleted` no timer is scheduled and no client is live |
| SessionProofs.SettingsReinitialize | drivers/danfoss-air/device.ts:335-347 | a `hostname` change clears the pending retry and the client and begins a new initialization only for a non-empty hostname; other keys change nothing |
| SessionProofs.DeletedDuringReinitRetries | drivers/danfoss-air/device.ts:116-123 | a device deleted while a reinit attempt is in flight still gets a new reinit timer: the attempt fails without a client and its callback calls `restartInit` |
| SessionProofs.HostnameChangeDuringOnInitStrands | drivers/danfoss-air/device.ts:335-346 | a non-empty `hostname` change while `onInit` awaits its initialization releases the client and its own `deviceInit` is skipped; once that initialization fails, no client is live, no retry is pending and no listeners are registered |
| Device.DanfossAirDevice.constructor | drivers/danfoss-air/device.ts:6-10 | a new device holds no client, no cached step, no timers and is not initializing |
| Device.DanfossAirDevice.OnInit | drivers/danfoss-air/device.ts:21-30 | `onInit` up to its `await`, as `Session.OnInit` |
| Device.DanfossAirDevice.FinishOnInit | drivers/danfoss-air/device.ts:31-82 | registers the listeners, then `updateFanStep(false)` |
| Device.DanfossAirDevice.OnFanModeSet | drivers/danfoss-air/device.ts:31-56 | the `fan_mode` listener, as `Session.WriteFanMode` |
| Device.DanfossAirDevice.OnFanStepSet | drivers/danfoss-air/device.ts:58-61 | the `fan_speed.step` listener, as `Session.WriteFanStep` |
| Device.DanfossAirDevice.OnBoostSet | drivers/danfoss-air/device.ts:63-70 | the `onoff.boost` listener, as `Session.WriteBoost` |
| Device.DanfossAirDevice.OnBypassSet | drivers/danfoss-air/device.ts:72-75 | the `onoff.bypass` listener, as `Session.WriteBypass` |
| Device.DanfossAirDevice.OnAutomaticBypassSet | drivers/danfoss-air/device.ts:77-80 | the `onoff.automatic_bypass` listener, as `Session.WriteAutomaticBypass` |
| Device.DanfossAirDevice.RestartInit | drivers/danfoss-air/device.ts:89-125 | `restartInit`, as `Session.RestartInit` |
| Device.DanfossAirDevice.CleanupDanfossInstance | drivers/danfoss-air/device.ts:127-137 | `cleanupDanfossInstance`, as `Session.CleanupClient` |
| Device.DanfossAirDevice.BeginDeviceInit | drivers/danfoss-air/device.ts:139-185 | `deviceInit` up to `await start()`, as `Session.BeginInit` |
| Device.DanfossAirDevice.SettleDeviceInit | drivers/danfoss-air/device.ts:185-205 | the outcome is `Session.InitResult`; only the flag, and on success availability, change |
| Device.DanfossAirDevice.OnInitSettled | drivers/danfoss-air/device.ts:116-123 | the settling initialization and its awaiter's continuation, as `Session.FinishInit` |
| Device.DanfossAirDevice.UpdateFanStep | drivers/danfoss-air/device.ts:208-218 | `updateFanStep`, as `Session.UpdateFanStep` on the platform |
| Device.DanfossAirDevice.OnDanfossMessage | drivers/danfoss-air/device.ts:220-305 | `onDanfossMessage`, as `Session.OnMessage` |
| Device.DanfossAirDevice.OnTransportError | drivers/danfoss-air/device.ts:161-183 | the client's error callback, as `Session.OnTransportError` |
| Device.DanfossAirDevice.OnTimer | drivers/danfoss-air/device.ts:111-116 | a scheduled timer's callback (also the mode-switch one, lines 51-54), as `Session.FireTimer` |
| Device.DanfossAirDevice.OnSettings | drivers/danfoss-air/device.ts:335-347 | `onSettings`, as `Session.OnSettings` |
| Device.DanfossAirDevice.OnDeleted | drivers/danfoss-air/device.ts:363-377 | `onDeleted`, as `Session.OnDeleted` |

## Left out

- Logging, `homeyLog` reports and the `catch(this.error)` handlers are not modelled: they change no state.
- Platform calls are modelled as succeeding. There is one exception: `setCapabilityValue` on a capability the device lacks changes nothing.
  - A rejected `setUnavailable` in `restartInit` would skip the cleanup there. That path is not modelled.
- Real time is not modelled. Timers have handles but no durations (6 s for the mode window, 30 s for a retry). Any scheduled timer may fire next.
- The `await`s inside the handlers other than `deviceInit` are not modelled: each such handler runs as one atomic step. Interleavings in the middle of `restartInit` or `updateFanStep` are therefore not explored.
- Device.DanfossAirDevice.SettleDeviceInit and Device.DanfossAirDevice.OnInitSettled do not split at the `await` of `setAvailable()` (device.ts:196). That `await` comes before `isInitializing` is lowered (device.ts:199), so events arriving in between are not explored. Example: an `onSettings` with a new, non-empty `hostname` would release the client, its own `deviceInit` would be skipped, and the device would end up available with no client and no retry pending.
- The host a client is bound to is not modelled. Neither is how the platform stores settings: `onInit` and `onSettings` receive the hostname.
- Pushed values are numbers or booleans:
  - JavaScript strings, `NaN` and infinities are not modelled;
  - the measurement values are copied through unchanged.
- Parameter ids are an enumeration of the known wire names plus `OtherId` for any other name. An `OtherId` carrying a known name is not excluded.
- `onAdded` and `onRenamed` only log, so they are not modelled.
- The driver's pairing code, the app entry point and the test harness are not part of this model.
- The `danfoss-air-api` client is not part of this model:
  - its start and its serial-number reads are inputs of `OnInitSettled`;
  - its pushes are calls of `OnDanfossMessage`;
  - its errors are calls of `OnTransportError`;
  - its commands are entries in the transport's log.

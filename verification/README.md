# Humidifier power-state synchronisation

This project models the power-state synchronisation in the SwitchBot humidifier accessory for homebridge. The `Humidifier` object keeps two fields: its belief about the device's power, `switchOn`, and a single slot for the deferred-report timer, `runTimer`. The GET handler answers with `switchOn`. The SET handler does the following:

- it cancels the timer stored in `runTimer`;
- when the requested state equals `switchOn`, it re-reports the current state and acknowledges straight away, then carries on anyway;
- it scans for BLE devices and takes the first one whose address equals the configured MAC address;
- it sends `turnOn` or `turnOff` to that device;
- when the command resolves, it sets `switchOn` to the target. A missing device, a failed scan or a rejected command leaves `switchOn` alone;
- on every path it stores a new 500 ms timer in `runTimer` and acknowledges. When that timer fires, it pushes `switchOn` as it is at that moment.

The host runs a single-threaded event loop, so every callback of the promise chain runs on its own. The model is a state machine over these events:

- `BeginSet(target)`: the SET handler is invoked;
- `ScanDone(id, devices)` and `ScanFailed(id)`: the scan resolves or rejects;
- `CommandResult(id, ok)`: the command resolves or rejects;
- `TimerFire(t)`: a deferred report runs.

Scan results and command outcomes are inputs of these events. Overlapping SET requests are interleavings of their events. No lock is added, because the source has none.

- `options.dfy`: `Option`.
- `device_lookup.dfy` (module `DeviceLookup`): the scanned `Device` and `FindFirst`, the first-match lookup. `FindTargetDevice` is the source's `for … break` loop, proved equal to `FindFirst`.
- `power_sync.dfy` (module `PowerSync`): the state machine as pure functions. `State` holds the accessory's fields, the event loop's pending timers, the requests in flight and two observable logs. `reports` records every `updateValue` push. `acks` records which request each SET callback call acknowledged. The module also holds the invariant `Valid` and the lemmas for the properties below.
- `humidifier.dfy` (module `HumidifierAccessory`): the class `Humidifier`. Its fields are updated in place, one method per handler or callback. The event methods `Set`, `ScanDone`, `ScanFailed`, `CommandResult` and `TimerFire` are each proved to perform exactly one `PowerSync.Step` and to keep `Valid`.
- `strict_equality.dfy` (module `StrictEquality`): the "target unchanged" test on the JavaScript values it really compares (see Findings).

Two consequences of the code are worth stating outright:

- A target equal to the current state is acknowledged twice: once immediately (line 47) and once when the attempt settles (line 93 or 100).
- A new SET cancels only the timer stored in `runTimer`. A timer whose handle a later completion overwrote is never cancelled and still fires, so overlapping requests can produce more than one deferred report (`OrphanedTimerReportsFiringTimeState`).

## Model

| member | source | states |
|---|---|---|
| DeviceLookup.FindFirst | src/humidifier-accessory.ts:55-62 | The result is the index of a device with the configured address that has no such device before it. None means no scanned device has that address. |
| DeviceLookup.FindTargetDevice | src/humidifier-accessory.ts:55-62 | The loop with `break` finds a device exactly when `FindFirst` does, and finds that same device. |
| DeviceLookup.FirstMatchIsFound | src/humidifier-accessory.ts:56-61 | A matching device with no match before it is exactly the one the lookup takes. This is the converse of `FindFirst`'s contract. |
| DeviceLookup.LaterDevicesIgnored | src/humidifier-accessory.ts:58-61 | Devices reported after the first match never change the result. |
| PowerSync.IssuedCommand | src/humidifier-accessory.ts:63-84 | No command is sent iff no device matches. Otherwise the command goes to the first scanned device with the configured address, and it is turnOn iff the target is on. |
| PowerSync.InitValid | src/humidifier-accessory.ts:19-20 | A new accessory is off, has no timers and no requests, and satisfies the invariant. |
| PowerSync.StepPreservesValid | src/humidifier-accessory.ts:41-101 | Every event keeps the invariant. Timer ids stay fresh, only issued requests are acknowledged, and each request has one acknowledgement for an immediate echo plus one for settling. |
| PowerSync.RunPreservesValid | src/humidifier-accessory.ts:41-101 | Any sequence of events that can occur keeps the invariant. |
| PowerSync.AcknowledgementCount | src/humidifier-accessory.ts:44-100 | In every reachable state, a request has been acknowledged once if its target equalled `switchOn` on arrival and once more if it has settled. |
| PowerSync.BeginSetCancelsOnlyStoredTimer | src/humidifier-accessory.ts:42-53 | SET removes exactly the timer stored in `runTimer` from the pending set. Every other pending timer stays pending. SET leaves `switchOn` and `runTimer` unchanged and always starts a scan, with no early return. |
| PowerSync.BeginSetEchoesUnchangedTarget | src/humidifier-accessory.ts:44-48 | A target equal to `switchOn` pushes the current state and acknowledges immediately. Any other target does neither. |
| PowerSync.FailureLeavesStateUnchanged | src/humidifier-accessory.ts:94-100 | A scan error, "No device was found." or a rejected command leaves `switchOn` unchanged. It adds exactly one fresh timer, stores it in `runTimer`, and acknowledges the request once. The error never reaches the callback. |
| PowerSync.MatchedDeviceIsCommanded | src/humidifier-accessory.ts:69-85 | A found device moves the request to the command stage and changes nothing observable. The command goes to the first matching device. |
| PowerSync.CommandSuccessSetsTarget | src/humidifier-accessory.ts:86-93 | A resolved command sets `switchOn` to the request's target. It adds exactly one fresh timer, stores it in `runTimer`, and acknowledges the request once. |
| PowerSync.TimerReportsCurrentState | src/humidifier-accessory.ts:89-91 | A firing timer pushes the value `switchOn` has when it fires, then stops being pending. |
| PowerSync.SoloRequest | src/humidifier-accessory.ts:41-101 | One request with nothing interleaved sets `switchOn` to the target iff the command succeeds. With an unchanged target, `switchOn` keeps its value in every outcome and the request is acknowledged twice; otherwise it is acknowledged once. The stored timer is cancelled and one fresh timer is left pending. |
| PowerSync.OrphanedTimerReportsFiringTimeState | src/humidifier-accessory.ts:43-98 | Scenario: a timer scheduled while the accessory was off has its handle overwritten by a later success. It survives the next SET's cancel and reports on, the state when it fires. |
| PowerSync.LastResolutionWins | src/humidifier-accessory.ts:86-88 | Scenario: with overlapping requests, the one that resolves last decides `switchOn`, not the one issued last. |
| HumidifierAccessory.Humidifier.constructor | src/humidifier-accessory.ts:19-20 | The object starts in the state `Init`: off, no stored timer, nothing pending. |
| HumidifierAccessory.Humidifier.Get | src/humidifier-accessory.ts:37-40 | GET returns `switchOn` and modifies nothing. |
| HumidifierAccessory.Humidifier.ClearStoredTimer | src/humidifier-accessory.ts:43 | `clearTimeout(this.runTimer)` removes the stored timer from the pending set and leaves the field as it was. |
| HumidifierAccessory.Humidifier.Set | src/humidifier-accessory.ts:41-53 | The new state is `Step(old, BeginSet(target))`, and the invariant is kept. |
| HumidifierAccessory.Humidifier.ScheduleReportAndAck | src/humidifier-accessory.ts:89-100 | Stores a fresh timer in `runTimer` and acknowledges the request, as both handlers do. |
| HumidifierAccessory.Humidifier.ScanDone | src/humidifier-accessory.ts:53-85 | The new state is `Step(old, ScanDone(id, devices))`. The returned command is the one `IssuedCommand` specifies. |
| HumidifierAccessory.Humidifier.ScanFailed | src/humidifier-accessory.ts:94-100 | The new state is `Step(old, ScanFailed(id))`, and the invariant is kept. |
| HumidifierAccessory.Humidifier.CommandResult | src/humidifier-accessory.ts:86-100 | The new state is `Step(old, CommandResult(id, ok))`, and the invariant is kept. |
| HumidifierAccessory.Humidifier.TimerFire | src/humidifier-accessory.ts:89-91 | The new state is `Step(old, TimerFire(t))`, and the invariant is kept. |
| StrictEquality.FreshAccessoryOffRequestMissed | src/humidifier-accessory.ts:42-44 | On a new accessory, a request for off (number 0) asks for the current state. The test as written misses this, while the corrected test and the model acknowledge immediately. |
| StrictEquality.AsWrittenAgreesOnceNumeric | src/humidifier-accessory.ts:42-44 | Once `switchOn` holds a number (after line 88 has run), the test as written agrees with the corrected one. |
| StrictEquality.UnchangedMatchesModel | src/humidifier-accessory.ts:44-48 | The corrected test holds iff the model's SET re-reports and acknowledges immediately. |

## Left out

- Building the HAP service and characteristic and `setProps` (lines 34-36), the accessory information strings (lines 104-107), `identify` and `getServices`: framework wiring with no logic.
- The BLE library: `require('node-switchbot')`, `discover`, `turnOn` and `turnOff`. Their outcomes are the inputs of `ScanDone`, `ScanFailed` and `CommandResult`. The scan duration and the model filter are only passed through to the library, so they are not modelled.
- The no-op `onconnect`/`ondisconnect` handlers and all logging.
- Real time: the 500 ms delay is not modelled. A timer is an abstract id that fires when the event loop delivers `TimerFire`. The event loop fires only pending timers (`TimerFire` requires this).
- The "No device was found." rejection and the catch handler it reaches run as one step. Both only read and write the accessory's own fields, so no other event can tell them apart from two steps.
- A SET callback that throws inside the success handler would run the catch handler too: a second timer and a second acknowledgement. The callback is framework code that is not part of this model.
- The type of the stored value: the model keeps `switchOn` as a power state (a boolean). The source stores the framework's number after the first success. `StrictEquality` models the one place where this matters.

## Findings

| source | as written | input that shows it | evidently intended | confidence | as-written member | corrected member |
|---|---|---|---|---|---|---|
| src/humidifier-accessory.ts:42-44 | `targetState === this.switchOn` compares the number the framework delivers for the uint8 characteristic with `switchOn`. `switchOn` is the boolean `false` until a command first succeeds, and `value as boolean` converts nothing. | A new accessory (`switchOn` = `false`) receives SET with value 0 (off). The strict equality is false, so the handler neither re-reports nor acknowledges immediately. | Treat a request for the state the accessory is already in as unchanged, whatever representation the value has. | medium; not executed; relies on the framework passing the uint8 value as a number | StrictEquality.FreshAccessoryOffRequestMissed | StrictEquality.UnchangedMatchesModel |

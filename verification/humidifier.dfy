/**
 * The `Humidifier` accessory object: its power state `switchOn` and its timer
 * slot `runTimer`, updated in place by the GET and SET characteristic
 * handlers and by the callbacks of the SET handler's promise chain. Each
 * event is one method: `Set`, `ScanDone`, `ScanFailed`, `CommandResult` and
 * `TimerFire` are each proved to perform exactly one `PowerSync.Step` and to
 * keep `Valid`, so every property proved there holds of the object.
 *
 * Besides the two fields of the source, the object carries the parts of the
 * event loop the handlers act on: the pending timers and the continuations
 * of the requests in flight. The `updateValue` pushes and the callback
 * invocations are recorded in ghost logs.
 */
module HumidifierAccessory {
  import opened Options
  import opened DeviceLookup
  import opened PowerSync

  class Humidifier {
    const bleMac: string
    var switchOn: bool
    var runTimer: Option<TimerId>
    /** Timers the event loop still holds. */
    var pending: set<TimerId>
    /** The id the next `setTimeout` returns. */
    var nextTimer: TimerId
    /** The SET requests issued so far, indexed by request id, with where each chain stands. */
    var requests: seq<Request>
    /** Every value pushed with `updateValue`. */
    ghost var reports: seq<bool>
    /** The request of every SET callback invocation. */
    ghost var acks: seq<RequestId>

    ghost function Abs(): State
      reads this
    {
      State(bleMac, switchOn, runTimer, pending, nextTimer, requests, reports, acks)
    }

    ghost predicate Valid()
      reads this
    {
      PowerSync.Valid(Abs())
    }

    constructor (bleMac: string)
      ensures Abs() == Init(bleMac) && Valid()
    {
      this.bleMac := bleMac;
      switchOn := false;
      runTimer := None;
      pending := {};
      nextTimer := 0;
      requests := [];
      reports := [];
      acks := [];
      InitValid(bleMac);
    }

    /** The GET handler: answers with the current power state and changes nothing. */
    method Get() returns (on: bool)
      ensures on == switchOn
    {
      on := switchOn;
    }

    /** `clearTimeout(this.runTimer)` */
    method ClearStoredTimer()
      modifies this
      ensures Abs() == CancelStored(old(Abs()))
    {
      if runTimer.Some? {
        pending := pending - {runTimer.value};
      }
    }

    /**
     * The SET handler up to the call of `discover`: cancel the stored timer,
     * re-report and acknowledge when the target equals the current state, and
     * start the scan in every case. Returns the new request's id.
     */
    method Set(target: bool) returns (id: RequestId)
      requires Valid()
      modifies this
      ensures id == |old(requests)|
      ensures Abs() == Step(old(Abs()), BeginSet(target)) && Valid()
    {
      ClearStoredTimer();
      id := |requests|;
      var echoed := target == switchOn;
      if echoed {
        reports := reports + [switchOn];
        acks := acks + [id];
      }
      requests := requests + [Request(target, echoed, Scanning)];
      StepPreservesValid(old(Abs()), BeginSet(target));
    }

    /** `this.runTimer = setTimeout(...)` followed by `callback()`, then the request is settled. */
    method ScheduleReportAndAck(id: RequestId)
      requires id < |requests|
      modifies this
      ensures Abs() == Settle(old(Abs()), id)
    {
      runTimer := Some(nextTimer);
      pending := pending + {nextTimer};
      nextTimer := nextTimer + 1;
      requests := requests[id := requests[id].(stage := Settled)];
      acks := acks + [id];
    }

    /**
     * The scan of request `id` resolved with `devices`: look for the configured
     * address; when it is missing, the rejection reaches the catch handler;
     * otherwise the command for the request's target is sent to the device.
     */
    method ScanDone(id: RequestId, devices: seq<Device>) returns (command: Option<Command>)
      requires Valid() && InStage(Abs(), id, Scanning)
      modifies this
      ensures command == IssuedCommand(old(Abs()), id, devices)
      ensures Abs() == Step(old(Abs()), PowerSync.ScanDone(id, devices)) && Valid()
    {
      var targetDevice := FindTargetDevice(devices, bleMac);
      if targetDevice.None? {
        command := None;
        ScheduleReportAndAck(id);
      } else {
        command := Some(CommandFor(requests[id].target, targetDevice.value));
        requests := requests[id := requests[id].(stage := Commanding)];
      }
      StepPreservesValid(old(Abs()), PowerSync.ScanDone(id, devices));
    }

    /** The scan of request `id` rejected: the catch handler runs. */
    method ScanFailed(id: RequestId)
      requires Valid() && InStage(Abs(), id, Scanning)
      modifies this
      ensures Abs() == Step(old(Abs()), PowerSync.ScanFailed(id)) && Valid()
    {
      ScheduleReportAndAck(id);
      StepPreservesValid(old(Abs()), PowerSync.ScanFailed(id));
    }

    /**
     * The command of request `id` resolved (`ok`) or rejected: the success
     * handler records the target, the catch handler leaves `switchOn` alone.
     */
    method CommandResult(id: RequestId, ok: bool)
      requires Valid() && InStage(Abs(), id, Commanding)
      modifies this
      ensures Abs() == Step(old(Abs()), PowerSync.CommandResult(id, ok)) && Valid()
    {
      if ok {
        switchOn := requests[id].target;
      }
      ScheduleReportAndAck(id);
      StepPreservesValid(old(Abs()), PowerSync.CommandResult(id, ok));
    }

    /** The deferred report `t` runs: it pushes `switchOn` as it is now. */
    method TimerFire(t: TimerId)
      requires Valid() && t in pending
      modifies this
      ensures Abs() == Step(old(Abs()), PowerSync.TimerFire(t)) && Valid()
    {
      pending := pending - {t};
      reports := reports + [switchOn];
      StepPreservesValid(old(Abs()), PowerSync.TimerFire(t));
    }
  }
}

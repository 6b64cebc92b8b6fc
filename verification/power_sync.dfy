/**
 * The power-state synchronisation of the humidifier accessory as a state
 * machine over explicit events. The host runs one event loop, so every
 * callback of the SET handler's promise chain runs to completion on its own;
 * each callback becomes one event here, and overlapping SET requests are
 * interleavings of their events.
 *
 * Scan results and command outcomes are inputs of the events. Timers are
 * abstract ids: scheduling one adds it to `pending`, `clearTimeout` removes
 * it, and the event loop fires a pending one with `TimerFire`.
 */
module PowerSync {
  import opened Options
  import opened DeviceLookup

  type TimerId = nat
  type RequestId = nat

  /** Where one SET request's promise chain stands. */
  datatype Stage =
    | Scanning    // `discover` has been called and has not settled
    | Commanding  // the device was found and `turnOn`/`turnOff` has not settled
    | Settled     // the success or the catch handler has run

  /**
   * One SET request: the requested state, whether the handler re-reported and
   * acknowledged immediately because the target equalled `switchOn`, and its stage.
   */
  datatype Request = Request(target: bool, echoed: bool, stage: Stage)

  /** The BLE command the scan callback issues to the device it found. */
  datatype Command = TurnOn(device: Device) | TurnOff(device: Device)

  /**
   * The accessory's state together with the event loop's timers and the
   * observable logs: `reports` holds every `updateValue` push, `acks` the
   * request of every SET callback invocation.
   */
  datatype State = State(
    bleMac: string,
    switchOn: bool,
    runTimer: Option<TimerId>,
    pending: set<TimerId>,
    nextTimer: TimerId,
    requests: seq<Request>,
    reports: seq<bool>,
    acks: seq<RequestId>)

  datatype Event =
    | BeginSet(target: bool)                       // the SET handler is invoked
    | ScanDone(id: RequestId, devices: seq<Device>) // `discover` of request `id` resolves
    | ScanFailed(id: RequestId)                    // `discover` of request `id` rejects
    | CommandResult(id: RequestId, ok: bool)       // `turnOn`/`turnOff` resolves (ok) or rejects
    | TimerFire(timer: TimerId)                    // a deferred report runs

  /** A freshly constructed accessory: off, no timer stored, nothing scheduled. */
  function Init(bleMac: string): State {
    State(bleMac, false, None, {}, 0, [], [], [])
  }

  predicate InStage(s: State, id: RequestId, stage: Stage) {
    id < |s.requests| && s.requests[id].stage == stage
  }

  /** The events the event loop can deliver in state `s`. */
  predicate Enabled(s: State, e: Event) {
    match e
    case BeginSet(_) => true
    case ScanDone(id, _) => InStage(s, id, Scanning)
    case ScanFailed(id) => InStage(s, id, Scanning)
    case CommandResult(id, _) => InStage(s, id, Commanding)
    case TimerFire(t) => t in s.pending
  }

  /** `clearTimeout(this.runTimer)`: the stored timer no longer fires; the field keeps its handle. */
  function CancelStored(s: State): State {
    match s.runTimer
    case None => s
    case Some(t) => s.(pending := s.pending - {t})
  }

  /** The synchronous part of the SET handler. */
  function Begin(s: State, target: bool): State {
    var c := CancelStored(s);
    var id := |s.requests|;
    var echoed := target == s.switchOn;
    c.(requests := c.requests + [Request(target, echoed, Scanning)],
       reports := if echoed then c.reports + [c.switchOn] else c.reports,
       acks := if echoed then c.acks + [id] else c.acks)
  }

  /**
   * The tail shared by the success and the catch handler: store a new deferred
   * report in `runTimer`, then acknowledge request `id`.
   */
  function Settle(s: State, id: RequestId): State
    requires id < |s.requests|
  {
    var t := s.nextTimer;
    s.(runTimer := Some(t),
       pending := s.pending + {t},
       nextTimer := t + 1,
       requests := s.requests[id := s.requests[id].(stage := Settled)],
       acks := s.acks + [id])
  }

  function CommandFor(target: bool, d: Device): Command {
    if target then TurnOn(d) else TurnOff(d)
  }

  /** What the scan callback of request `id` sends, given the scanned devices. */
  function IssuedCommand(s: State, id: RequestId, devices: seq<Device>): (c: Option<Command>)
    requires id < |s.requests|
    ensures c.None? <==> forall j :: 0 <= j < |devices| ==> !Matches(devices[j], s.bleMac)
    ensures c.Some? ==> c.value.device in devices && c.value.device.address == s.bleMac
    ensures c.Some? ==> (c.value.TurnOn? <==> s.requests[id].target)
    ensures c.Some? ==> exists i :: 0 <= i < |devices| && devices[i] == c.value.device &&
                          forall j :: 0 <= j < i ==> !Matches(devices[j], s.bleMac)
  {
    match FindFirst(devices, s.bleMac)
    case None => None
    case Some(i) => Some(CommandFor(s.requests[id].target, devices[i]))
  }

  /** One event handled by the accessory. */
  function Step(s: State, e: Event): State
    requires Enabled(s, e)
  {
    match e
    case BeginSet(target) => Begin(s, target)
    case ScanDone(id, devices) =>
      if FindFirst(devices, s.bleMac).None? then Settle(s, id)  // "No device was found." rejection
      else s.(requests := s.requests[id := s.requests[id].(stage := Commanding)])
    case ScanFailed(id) => Settle(s, id)
    case CommandResult(id, ok) =>
      if ok then Settle(s.(switchOn := s.requests[id].target), id) else Settle(s, id)
    case TimerFire(t) => s.(pending := s.pending - {t}, reports := s.reports + [s.switchOn])
  }

  /** Delivers `events` in order; None when one of them cannot occur. */
  function Run(s: State, events: seq<Event>): Option<State>
    decreases |events|
  {
    if events == [] then Some(s)
    else if !Enabled(s, events[0]) then None
    else Run(Step(s, events[0]), events[1..])
  }

  /** How often request `r` has been acknowledged so far. */
  function ExpectedAcks(r: Request): nat {
    (if r.echoed then 1 else 0) + (if r.stage == Settled then 1 else 0)
  }

  /**
   * The invariant of every reachable state: timer ids are fresh below
   * `nextTimer`, only issued requests are acknowledged, and each request has
   * been acknowledged once for the immediate echo and once for settling.
   */
  predicate Valid(s: State) {
    && (s.runTimer.Some? ==> s.runTimer.value < s.nextTimer)
    && (forall t :: t in s.pending ==> t < s.nextTimer)
    && (forall k :: 0 <= k < |s.acks| ==> s.acks[k] < |s.requests|)
    && (forall id :: 0 <= id < |s.requests| ==> multiset(s.acks)[id] == ExpectedAcks(s.requests[id]))
  }

  lemma InitValid(bleMac: string)
    ensures Valid(Init(bleMac)) && Init(bleMac).switchOn == false
    ensures Init(bleMac).pending == {} && Init(bleMac).requests == []
  {
  }

  lemma SettlePreservesValid(s: State, id: RequestId)
    requires Valid(s) && id < |s.requests| && s.requests[id].stage != Settled
    ensures Valid(Settle(s, id))
  {
  }

  lemma BeginPreservesValid(s: State, target: bool)
    requires Valid(s)
    ensures Valid(Begin(s, target))
  {
  }

  /** Every event keeps the invariant. */
  lemma StepPreservesValid(s: State, e: Event)
    requires Valid(s) && Enabled(s, e)
    ensures Valid(Step(s, e))
  {
    match e
    case BeginSet(target) => BeginPreservesValid(s, target);
    case ScanDone(id, devices) =>
      if FindFirst(devices, s.bleMac).None? {
        SettlePreservesValid(s, id);
      } else {
        var s' := Step(s, e);
        forall x | 0 <= x < |s'.requests|
          ensures multiset(s'.acks)[x] == ExpectedAcks(s'.requests[x])
        {
          assert ExpectedAcks(s'.requests[x]) == ExpectedAcks(s.requests[x]);
        }
      }
    case ScanFailed(id) => SettlePreservesValid(s, id);
    case CommandResult(id, ok) =>
      if ok {
        SettlePreservesValid(s.(switchOn := s.requests[id].target), id);
      } else {
        SettlePreservesValid(s, id);
      }
    case TimerFire(t) =>
  }

  /** Every state the accessory can reach from construction satisfies the invariant. */
  lemma {:induction false} RunPreservesValid(s: State, events: seq<Event>)
    requires Valid(s) && Run(s, events).Some?
    ensures Valid(Run(s, events).value)
    decreases |events|
  {
    if events != [] {
      StepPreservesValid(s, events[0]);
      RunPreservesValid(Step(s, events[0]), events[1..]);
    }
  }

  /**
   * In every reachable state a settled request has been acknowledged twice
   * when its target equalled `switchOn` on arrival and once otherwise.
   */
  lemma AcknowledgementCount(bleMac: string, events: seq<Event>, id: RequestId)
    requires Run(Init(bleMac), events).Some?
    requires id < |Run(Init(bleMac), events).value.requests|
    ensures var s := Run(Init(bleMac), events).value;
      multiset(s.acks)[id] ==
        (if s.requests[id].echoed then 1 else 0) + (if s.requests[id].stage == Settled then 1 else 0)
  {
    RunPreservesValid(Init(bleMac), events);
  }

  /**
   * A new SET cancels exactly the timer stored in `runTimer`: every other
   * pending timer, orphaned or not, stays pending. Nothing else about the
   * power state or the timer slot changes, and the new request goes on to
   * scan even when the target equals the current state (no early return).
   */
  lemma BeginSetCancelsOnlyStoredTimer(s: State, target: bool)
    ensures var s' := Step(s, BeginSet(target));
      && (forall t :: t in s'.pending <==> t in s.pending && s.runTimer != Some(t))
      && s'.switchOn == s.switchOn && s'.runTimer == s.runTimer && s'.nextTimer == s.nextTimer
      && InStage(s', |s.requests|, Scanning) && s'.requests[|s.requests|].target == target
      && s'.requests[..|s.requests|] == s.requests
  {
  }

  /**
   * A target equal to the current state is re-reported and acknowledged at
   * once; any other target produces neither a report nor an acknowledgement.
   */
  lemma BeginSetEchoesUnchangedTarget(s: State, target: bool)
    ensures var s' := Step(s, BeginSet(target));
      && (target == s.switchOn ==>
            s'.reports == s.reports + [s.switchOn] && s'.acks == s.acks + [|s.requests|])
      && (target != s.switchOn ==> s'.reports == s.reports && s'.acks == s.acks)
      && (s'.requests[|s.requests|].echoed <==> target == s.switchOn)
  {
  }

  /**
   * `s'` is `s` after request `id` settled: exactly one new timer, fresh and
   * stored in `runTimer`, no timer cancelled, `id` acknowledged once, and no
   * report pushed yet.
   */
  ghost predicate SettledWithDeferredReport(s: State, s': State, id: RequestId) {
    && s'.runTimer.Some?
    && s'.runTimer.value !in s.pending
    && s'.pending == s.pending + {s'.runTimer.value}
    && s'.acks == s.acks + [id]
    && s'.reports == s.reports
    && InStage(s', id, Settled)
  }

  /** The events that end a request without a successful command. */
  predicate IsFailure(s: State, e: Event) {
    match e
    case ScanFailed(_) => true
    case ScanDone(_, devices) => FindFirst(devices, s.bleMac).None?
    case CommandResult(_, ok) => !ok
    case _ => false
  }

  /**
   * Scan error, "No device was found." and a rejected command all leave
   * `switchOn` as it was, still schedule a deferred report and acknowledge the
   * request: the error never reaches the callback.
   */
  lemma FailureLeavesStateUnchanged(s: State, e: Event)
    requires Valid(s) && Enabled(s, e) && IsFailure(s, e)
    ensures e.ScanFailed? || e.ScanDone? || e.CommandResult?
    ensures var s' := Step(s, e);
      s'.switchOn == s.switchOn && SettledWithDeferredReport(s, s', e.id)
  {
  }

  /**
   * When a scan finds the device, the request moves on to the command and
   * nothing observable happens yet; the command sent is turnOn exactly when
   * the target is on, to the first device with the configured address.
   */
  lemma MatchedDeviceIsCommanded(s: State, id: RequestId, devices: seq<Device>)
    requires InStage(s, id, Scanning) && FindFirst(devices, s.bleMac).Some?
    ensures var s' := Step(s, ScanDone(id, devices));
      && InStage(s', id, Commanding)
      && s'.switchOn == s.switchOn && s'.pending == s.pending && s'.runTimer == s.runTimer
      && s'.reports == s.reports && s'.acks == s.acks
    ensures var c := IssuedCommand(s, id, devices);
      c.Some? && c.value.device == devices[FindFirst(devices, s.bleMac).value]
      && (c.value.TurnOn? <==> s.requests[id].target)
  {
  }

  /**
   * A resolved command sets `switchOn` to the request's target, schedules
   * exactly one new deferred report and acknowledges the request.
   */
  lemma CommandSuccessSetsTarget(s: State, id: RequestId)
    requires Valid(s) && InStage(s, id, Commanding)
    ensures var s' := Step(s, CommandResult(id, true));
      s'.switchOn == s.requests[id].target && SettledWithDeferredReport(s, s', id)
  {
  }

  /**
   * A deferred report pushes `switchOn` as it is when the timer fires, and
   * the fired timer is no longer pending.
   */
  lemma TimerReportsCurrentState(s: State, t: TimerId)
    requires t in s.pending
    ensures var s' := Step(s, TimerFire(t));
      s'.reports == s.reports + [s.switchOn] && s'.switchOn == s.switchOn
      && t !in s'.pending && s'.pending == s.pending - {t} && s'.acks == s.acks
  {
  }

  /** What the outside world does for one request: the scan rejects, or yields devices and the command resolves or rejects. */
  datatype Outcome = ScanError | Scanned(devices: seq<Device>, commandOk: bool)

  /** The events of one request that nothing else interleaves with. */
  function SoloEvents(s: State, target: bool, outcome: Outcome): seq<Event> {
    var id := |s.requests|;
    match outcome
    case ScanError => [BeginSet(target), ScanFailed(id)]
    case Scanned(devices, ok) =>
      if FindFirst(devices, s.bleMac).None? then [BeginSet(target), ScanDone(id, devices)]
      else [BeginSet(target), ScanDone(id, devices), CommandResult(id, ok)]
  }

  predicate Succeeds(s: State, outcome: Outcome) {
    outcome.Scanned? && FindFirst(outcome.devices, s.bleMac).Some? && outcome.commandOk
  }

  /**
   * One request on its own: `switchOn` becomes the target exactly on success;
   * a target equal to the current state leaves `switchOn` unchanged in every
   * outcome and is acknowledged twice, any other target once; the stored
   * timer is cancelled and one fresh timer is left stored in `runTimer`.
   */
  lemma SoloRequest(s: State, target: bool, outcome: Outcome)
    requires Valid(s)
    ensures Run(s, SoloEvents(s, target, outcome)).Some?
    ensures var s' := Run(s, SoloEvents(s, target, outcome)).value;
      var id := |s.requests|;
      && s'.switchOn == (if Succeeds(s, outcome) then target else s.switchOn)
      && (target == s.switchOn ==> s'.switchOn == s.switchOn)
      && multiset(s'.acks)[id] == (if target == s.switchOn then 2 else 1)
      && InStage(s', id, Settled)
      && s'.runTimer.Some? && s'.runTimer.value !in s.pending
      && s'.pending == CancelStored(s).pending + {s'.runTimer.value}
  {
    var id := |s.requests|;
    var s1 := Step(s, BeginSet(target));
    var s2 := SoloAfterBegin(s, target, outcome);
    assert id !in s.acks;
    assert s1.acks == s.acks + (if target == s.switchOn then [id] else []);
    assert s2.acks == s1.acks + [id];
    assert multiset(s2.acks)[id] == multiset(s1.acks)[id] + 1;
    assert s2.runTimer == Some(s.nextTimer) && s.nextTimer !in s.pending;
    assert s2.pending == s1.pending + {s.nextTimer};
  }

  /** The request's own events after BeginSet, delivered to the state BeginSet left. */
  lemma SoloAfterBegin(s: State, target: bool, outcome: Outcome) returns (s2: State)
    requires Valid(s)
    ensures Run(s, SoloEvents(s, target, outcome)) == Some(s2)
    ensures var s1 := Step(s, BeginSet(target));
      && s2.switchOn == (if Succeeds(s, outcome) then target else s.switchOn)
      && SettledWithDeferredReport(s1, s2, |s.requests|)
      && s2.runTimer == Some(s.nextTimer)
      && s1.acks == s.acks + (if target == s.switchOn then [|s.requests|] else [])
      && s1.pending == CancelStored(s).pending && s1.nextTimer == s.nextTimer
  {
    var id := |s.requests|;
    var s1 := Step(s, BeginSet(target));
    BeginPreservesValid(s, target);
    if outcome.ScanError? || FindFirst(outcome.devices, s.bleMac).None? {
      var e1 := if outcome.ScanError? then ScanFailed(id) else ScanDone(id, outcome.devices);
      assert SoloEvents(s, target, outcome) == [BeginSet(target), e1];
      RunTwo(s, BeginSet(target), e1);
      FailureLeavesStateUnchanged(s1, e1);
      s2 := Step(s1, e1);
    } else {
      var e1 := ScanDone(id, outcome.devices);
      var e2 := CommandResult(id, outcome.commandOk);
      assert SoloEvents(s, target, outcome) == [BeginSet(target), e1, e2];
      MatchedDeviceIsCommanded(s1, id, outcome.devices);
      StepPreservesValid(s1, e1);
      var m := Step(s1, e1);
      RunThree(s, BeginSet(target), e1, e2);
      if outcome.commandOk {
        CommandSuccessSetsTarget(m, id);
      } else {
        FailureLeavesStateUnchanged(m, e2);
      }
      s2 := Step(m, e2);
    }
  }

  lemma RunTwo(s: State, e1: Event, e2: Event)
    requires Enabled(s, e1) && Enabled(Step(s, e1), e2)
    ensures Run(s, [e1, e2]) == Some(Step(Step(s, e1), e2))
  {
    var s2 := Step(Step(s, e1), e2);
    assert [e2][1..] == [];
    assert Run(Step(s, e1), [e2]) == Run(s2, []);
    assert [e1, e2][1..] == [e2];
  }

  lemma RunThree(s: State, e1: Event, e2: Event, e3: Event)
    requires Enabled(s, e1) && Enabled(Step(s, e1), e2) && Enabled(Step(Step(s, e1), e2), e3)
    ensures Run(s, [e1, e2, e3]) == Some(Step(Step(Step(s, e1), e2), e3))
  {
    assert [e1, e2, e3][1..] == [e2, e3];
    RunTwo(Step(s, e1), e2, e3);
  }

  lemma RunCons(s: State, e: Event, rest: seq<Event>)
    requires Enabled(s, e)
    ensures Run(s, [e] + rest) == Run(Step(s, e), rest)
  {
    assert ([e] + rest)[1..] == rest;
  }

  lemma {:induction false} RunAppend(s: State, a: seq<Event>, b: seq<Event>)
    requires Run(s, a).Some?
    ensures Run(s, a + b) == Run(Run(s, a).value, b)
    decreases |a|
  {
    if a == [] {
      assert a + b == b;
    } else {
      assert (a + b)[0] == a[0] && (a + b)[1..] == a[1..] + b;
      RunAppend(Step(s, a[0]), a[1..], b);
    }
  }

  /** The first request of the orphan scenario fails while the accessory is off. */
  lemma OrphanScenarioFirstFails(mac: string) returns (s3: State)
    ensures Run(Init(mac), [BeginSet(true), BeginSet(true), ScanFailed(0)]) == Some(s3)
    ensures !s3.switchOn && s3.runTimer == Some(0) && s3.pending == {0} && s3.reports == []
    ensures InStage(s3, 1, Scanning) && s3.requests[1].target && s3.nextTimer == 1 && s3.bleMac == mac
  {
    var s0 := Init(mac);
    var s1 := Step(s0, BeginSet(true));
    var s2 := Step(s1, BeginSet(true));
    s3 := Step(s2, ScanFailed(0));
    RunCons(s0, BeginSet(true), [BeginSet(true), ScanFailed(0)]);
    RunCons(s1, BeginSet(true), [ScanFailed(0)]);
    RunCons(s2, ScanFailed(0), []);
  }

  /** The second request succeeds, a third SET arrives, and the first timer fires. */
  lemma OrphanScenarioLaterEvents(s3: State, d: Device) returns (s7: State)
    requires !s3.switchOn && s3.runTimer == Some(0) && s3.pending == {0} && s3.reports == []
    requires InStage(s3, 1, Scanning) && s3.requests[1].target
    requires Matches(d, s3.bleMac) && s3.nextTimer == 1
    ensures Run(s3, [ScanDone(1, [d]), CommandResult(1, true), BeginSet(false), TimerFire(0)]) == Some(s7)
    ensures s7.reports == [true] && s7.pending == {}
  {
    assert FindFirst([d], s3.bleMac) == Some(0);
    var s4 := Step(s3, ScanDone(1, [d]));
    var s5 := Step(s4, CommandResult(1, true));
    assert s5.switchOn && s5.runTimer == Some(1) && s5.pending == {0, 1};
    var s6 := Step(s5, BeginSet(false));
    assert s6.pending == {0};
    s7 := Step(s6, TimerFire(0));
    RunCons(s3, ScanDone(1, [d]), [CommandResult(1, true), BeginSet(false), TimerFire(0)]);
    RunCons(s4, CommandResult(1, true), [BeginSet(false), TimerFire(0)]);
    RunCons(s5, BeginSet(false), [TimerFire(0)]);
    RunCons(s6, TimerFire(0), []);
  }

  /**
   * Overlapping requests on an accessory that is off: the first one's scan
   * fails, so its report is scheduled while `switchOn` is off; the second one
   * succeeds and overwrites `runTimer`. The next SET cancels only the second
   * timer, so the first still fires, and it reports on, the state at firing
   * time. A new SET therefore does not silence every earlier deferred report.
   */
  lemma OrphanedTimerReportsFiringTimeState(mac: string)
    ensures var first := [BeginSet(true), BeginSet(true), ScanFailed(0)];
      var d := Device(mac, "humidifier");
      var later := [ScanDone(1, [d]), CommandResult(1, true), BeginSet(false), TimerFire(0)];
      && Run(Init(mac), first).Some?
      && Run(Init(mac), first).value.switchOn == false
      && Run(Init(mac), first).value.runTimer == Some(0)
      && Run(Init(mac), first + later).Some?
      && Run(Init(mac), first + later).value.reports == [true]
      && Run(Init(mac), first + later).value.pending == {}
  {
    var first := [BeginSet(true), BeginSet(true), ScanFailed(0)];
    var d := Device(mac, "humidifier");
    var later := [ScanDone(1, [d]), CommandResult(1, true), BeginSet(false), TimerFire(0)];
    var s3 := OrphanScenarioFirstFails(mac);
    var s7 := OrphanScenarioLaterEvents(s3, d);
    RunAppend(Init(mac), first, later);
  }

  /**
   * No mutual exclusion: the accessory is off, a request for on is followed by
   * one for off, and the later request's command resolves first. The earlier
   * request resolves last and wins, so the accessory ends up on although off
   * was asked for last.
   */
  lemma LastResolutionWins(mac: string)
    ensures var d := Device(mac, "humidifier");
      var events := [BeginSet(true), BeginSet(false), ScanDone(1, [d]), CommandResult(1, true),
                     ScanDone(0, [d]), CommandResult(0, true)];
      && Run(Init(mac), events).Some?
      && Run(Init(mac), events).value.switchOn == true
  {
    var d := Device(mac, "humidifier");
    var events := [BeginSet(true), BeginSet(false), ScanDone(1, [d]), CommandResult(1, true),
                   ScanDone(0, [d]), CommandResult(0, true)];
    assert FindFirst([d], mac) == Some(0);
    var s0 := Init(mac);
    var s1 := Step(s0, BeginSet(true));
    var s2 := Step(s1, BeginSet(false));
    var s3 := Step(s2, ScanDone(1, [d]));
    var s4 := Step(s3, CommandResult(1, true));
    assert !s4.switchOn;
    var s5 := Step(s4, ScanDone(0, [d]));
    var s6 := Step(s5, CommandResult(0, true));
    RunCons(s0, events[0], events[1..]);
    RunCons(s1, events[1], events[2..]);
    RunCons(s2, events[2], events[3..]);
    RunCons(s3, events[3], events[4..]);
    RunCons(s4, events[4], events[5..]);
    RunCons(s5, events[5], []);
    assert Run(s0, events) == Some(s6);
  }
}

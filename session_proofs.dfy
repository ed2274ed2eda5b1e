/** What the device session controller guarantees, proved about the Session state machine. */
module SessionProofs {
  import opened Wrappers
  import opened Translate
  import opened Session

  // ---------------------------------------------------------------------------
  // The invariants hold from `onInit` on, whatever happens afterwards

  /** `onInit` on a freshly created device leaves it unavailable, with nothing dangling. */
  lemma OnInitEstablishes(values: map<Capability, Value>, present: set<Capability>, available: bool, hostname: string)
    ensures var s := OnInit(Initial(values, present, available), hostname);
      && Inv(s) && Serialized(s) && !s.homey.available
      && (hostname == "" ==> !s.dev.isInitializing && s.link.live == {} && FanSpeedStep !in s.homey.present)
      && (hostname != "" ==> s.dev.isInitializing && s.dev.awaiter == OnInitAwaits && s.link.live == {0}
                              && s.link.sent == [Outbound(0, Start)])
  {
  }

  lemma CleanupClientInv(s: State)
    requires Inv(s)
    ensures var s' := CleanupClient(s);
      Inv(s') && s'.dev.client.None? && s'.link.live == {} && s'.dev.isInitializing == s.dev.isInitializing
      && s'.dev.reinitTimeout == s.dev.reinitTimeout
  {
  }

  lemma RestartInitInv(s: State)
    requires Inv(s)
    ensures Inv(RestartInit(s)) && RestartInit(s).dev.reinitTimeout.Some? == !s.dev.isInitializing
    ensures RestartInit(s).dev.isInitializing == s.dev.isInitializing
  {
    var cleared := ClearReinit(s);
    CleanupClientInv(cleared.(homey := cleared.homey.(available := false)));
  }

  lemma BeginInitInv(s: State, awaiter: Awaiter)
    requires Inv(s)
    ensures Inv(BeginInit(s, awaiter))
    ensures BeginInit(s, awaiter).dev.isInitializing
    ensures BeginInit(s, awaiter).dev.reinitTimeout == s.dev.reinitTimeout
  {
    if !s.dev.isInitializing {
      CleanupClientInv(s);
    }
  }

  /** `updateFanStep` touches only capabilities. */
  lemma UpdateFanStepFrame(h: Platform, currentFanStep: Option<Datum>, hasFanStep: bool)
    ensures var h' := UpdateFanStep(h, currentFanStep, hasFanStep);
      h'.timers == h.timers && h'.nextTimer == h.nextTimer
      && h'.available == h.available && h'.listening == h.listening
  {
  }

  lemma FinishInitInv(s: State, startOk: bool, high: Option<Datum>, low: Option<Datum>)
    requires Inv(s) && Serialized(s)
    ensures Inv(FinishInit(s, startOk, high, low)) && Serialized(FinishInit(s, startOk, high, low))
  {
    match InitResult(s, startOk, high, low)
    case NotInFlight =>
    case Ready(_) =>
      UpdateFanStepFrame(s.homey.(available := true, listening := true), s.dev.currentFanStep, false);
    case Failed(_) =>
      RestartInitInv(s.(dev := s.dev.(isInitializing := false)));
  }

  lemma SendInv(s: State, cmd: Command)
    requires Inv(s) && Serialized(s)
    ensures Inv(Send(s, cmd)) && Serialized(Send(s, cmd))
  {
  }

  lemma WriteFanModeInv(s: State, value: string)
    requires Inv(s) && Serialized(s)
    ensures Inv(WriteFanMode(s, value)) && Serialized(WriteFanMode(s, value))
  {
    if s.homey.listening {
      var armed := ArmModeSwitch(ClearModeSwitch(s));
      assert Inv(armed);
      SendInv(armed, SetMode(ModeCode(value)));
    }
  }

  lemma MessageInv(s: State, p: Param)
    requires Inv(s) && Serialized(s)
    ensures Inv(OnMessage(s, p)) && Serialized(OnMessage(s, p))
  {
    match RouteOf(p.id)
    case ToFanMode =>
      if s.dev.modeSwitchTimeout.None? {
        var moded := SetCapability(s.homey, FanMode, Text(ModeName(p.value)));
        UpdateFanStepFrame(moded, s.dev.currentFanStep, p.value == Num(2.0));
      }
    case _ =>
  }

  lemma FireTimerInv(s: State, t: Timer)
    requires Inv(s) && Serialized(s)
    ensures Inv(FireTimer(s, t)) && Serialized(FireTimer(s, t))
  {
    if t in s.homey.timers {
      var homey := s.homey.(timers := s.homey.timers - {t});
      if t.kind == Reinit {
        BeginInitInv(State(s.dev.(reinitTimeout := None), homey, s.link), ReinitAwaits);
      }
    }
  }

  lemma DeletedInv(s: State)
    requires Inv(s) && Serialized(s)
    ensures Inv(OnDeleted(s)) && Serialized(OnDeleted(s))
  {
    CleanupClientInv(ClearModeSwitch(ClearReinit(s)));
  }

  /** Every event keeps both invariants. */
  lemma StepInv(s: State, e: Event)
    requires Inv(s) && Serialized(s)
    ensures Inv(Step(s, e)) && Serialized(Step(s, e))
  {
    match e
    case FanModeWritten(mode) => WriteFanModeInv(s, mode);
    case FanStepWritten(percent) => SendInv(s, SetFanStep(StepFromPercent(percent)));
    case BoostWritten(on) => SendInv(s, if on then ActivateBoost else DeactivateBoost);
    case BypassWritten(on) => SendInv(s, WriteParameter("bypass", on));
    case AutomaticBypassWritten(on) => SendInv(s, WriteParameter("automatic_bypass", on));
    case Message(p) => MessageInv(s, p);
    case TransportError =>
      if s.dev.reinitTimeout.None? {
        RestartInitInv(s);
      }
    case Fired(t) => FireTimerInv(s, t);
    case InitSettled(startOk, high, low) => FinishInitInv(s, startOk, high, low);
    case SettingsChanged(keys, host) => SettingsKeepsInv(s, keys, host);
    case Deleted => DeletedInv(s);
  }

  /** Any run of events keeps both invariants. */
  lemma {:induction false} RunInv(s: State, events: seq<Event>)
    requires Inv(s) && Serialized(s)
    ensures Inv(Run(s, events)) && Serialized(Run(s, events))
    decreases |events|
  {
    if events != [] {
      StepInv(s, events[0]);
      RunInv(Step(s, events[0]), events[1..]);
    }
  }

  /** Consequently, at any point of a device's life at most one client is live. */
  lemma AtMostOneLiveClient(values: map<Capability, Value>, present: set<Capability>, available: bool,
                            hostname: string, events: seq<Event>)
    ensures var s := Run(OnInit(Initial(values, present, available), hostname), events);
      |s.link.live| <= 1 && |ReinitTimers(s)| <= 1 && |ModeSwitchTimers(s)| <= 1
  {
    var s0 := OnInit(Initial(values, present, available), hostname);
    OnInitEstablishes(values, present, available, hostname);
    RunInv(s0, events);
    var s := Run(s0, events);
    SlotTimerCounts(s);
  }

  lemma SlotTimerCounts(s: State)
    requires Inv(s)
    ensures |s.link.live| <= 1
    ensures ReinitTimers(s) == if s.dev.reinitTimeout.Some? then {Timer(Reinit, s.dev.reinitTimeout.value)} else {}
    ensures ModeSwitchTimers(s) ==
              if s.dev.modeSwitchTimeout.Some? then {Timer(ModeSwitch, s.dev.modeSwitchTimeout.value)} else {}
  {
    var r := if s.dev.reinitTimeout.Some? then {Timer(Reinit, s.dev.reinitTimeout.value)} else {};
    var m := if s.dev.modeSwitchTimeout.Some? then {Timer(ModeSwitch, s.dev.modeSwitchTimeout.value)} else {};
    assert s.homey.timers == m + r;
    assert ReinitTimers(s) == r by {
      forall t | t in ReinitTimers(s) ensures t in r { }
    }
    assert ModeSwitchTimers(s) == m by {
      forall t | t in ModeSwitchTimers(s) ensures t in m { }
    }
  }

  // ---------------------------------------------------------------------------
  // Mode debounce (device.ts:48-54, 239-244)

  /** A `fan_mode` write cancels the previous window and arms exactly one new one before sending. */
  lemma WriteFanModeRearms(s: State, value: string)
    requires Inv(s) && s.homey.listening
    ensures var s' := WriteFanMode(s, value);
      && Inv(s')
      && ModeSwitchTimers(s') == {Timer(ModeSwitch, s.homey.nextTimer)}
      && ReinitTimers(s') == ReinitTimers(s)
      && (forall t :: t in ModeSwitchTimers(s) ==> t !in s'.homey.timers)
      && s'.link.sent == s.link.sent + (if s.dev.client.Some? then [Outbound(s.dev.client.value, SetMode(ModeCode(value)))] else [])
  {
    var s' := WriteFanMode(s, value);
    WriteFanModeSlots(s, value);
    SlotTimerCounts(s);
    SlotTimerCounts(s');
    forall t | t in ModeSwitchTimers(s) ensures t !in s'.homey.timers {
      assert t.id < s.homey.nextTimer;
    }
  }

  lemma WriteFanModeSlots(s: State, value: string)
    requires Inv(s) && s.homey.listening
    ensures var s' := WriteFanMode(s, value);
      && Inv(s')
      && s'.dev.modeSwitchTimeout == Some(s.homey.nextTimer) && s'.dev.reinitTimeout == s.dev.reinitTimeout
      && s'.link.sent == s.link.sent + (if s.dev.client.Some? then [Outbound(s.dev.client.value, SetMode(ModeCode(value)))] else [])
  {
    var armed := ArmModeSwitch(ClearModeSwitch(s));
    assert Inv(armed);
  }

  /** While the window is armed, an inbound mode changes nothing at all. */
  lemma DebounceDropsMode(s: State, p: Param)
    requires s.dev.modeSwitchTimeout.Some? && p.id == OperationMode
    ensures OnMessage(s, p) == s
  {
  }

  /** Outside the window, an inbound mode sets `fan_mode` and makes the step capability present iff the mode is manual. */
  lemma ModeAppliedOutsideWindow(s: State, p: Param)
    requires s.dev.modeSwitchTimeout.None? && p.id == OperationMode
    ensures var s' := OnMessage(s, p);
      && (FanMode in s.homey.present ==> s'.homey.values[FanMode] == Text(ModeName(p.value)))
      && (FanSpeedStep in s'.homey.present <==> ModeName(p.value) == "manual")
  {
  }

  /** Every other parameter is handled the same whether or not the window is armed. */
  lemma DebounceIgnoresOtherIds(s: State, p: Param, slot: Option<nat>)
    requires p.id != OperationMode
    ensures var armed := s.(dev := s.dev.(modeSwitchTimeout := slot));
      var s' := OnMessage(s, p);
      OnMessage(armed, p) == s'.(dev := s'.dev.(modeSwitchTimeout := slot))
  {
  }

  /** Firing the window's timer empties the slot and leaves no mode-switch timer. */
  lemma ModeSwitchFiringClears(s: State, t: Timer)
    requires Inv(s) && t in s.homey.timers && t.kind == ModeSwitch
    ensures var s' := FireTimer(s, t);
      s'.dev.modeSwitchTimeout.None? && ModeSwitchTimers(s') == {} && s'.dev.reinitTimeout == s.dev.reinitTimeout
  {
  }

  // ---------------------------------------------------------------------------
  // Capability writes (device.ts:31-80)

  /** Before `onInit` registers its listeners, no capability write reaches the device. */
  lemma WritesNeedListeners(s: State, e: Event)
    requires !s.homey.listening
    requires e.FanModeWritten? || e.FanStepWritten? || e.BoostWritten? || e.BypassWritten? || e.AutomaticBypassWritten?
    ensures Step(s, e) == s
  {
  }

  /**
   * A `fan_mode` write of a known mode sends the code that reads back as that mode,
   * on the current client, as the one new entry of the log.
   */
  lemma FanModeWriteSendsMode(s: State, value: string)
    requires s.homey.listening && s.dev.client.Some? && value in Modes
    ensures var s' := WriteFanMode(s, value);
      && |s'.link.sent| == |s.link.sent| + 1
      && s'.link.sent[..|s.link.sent|] == s.link.sent
      && s'.link.sent[|s.link.sent|].client == s.dev.client.value
      && s'.link.sent[|s.link.sent|].command.SetMode?
      && ModeName(Num(s'.link.sent[|s.link.sent|].command.code as real)) == value
  {
    var armed := ArmModeSwitch(ClearModeSwitch(s));
    assert armed.dev.client == s.dev.client && armed.link == s.link;
    ModeNameOfModeCode(value);
  }

  /** A `fan_speed.step` write sends one step in 1..10 on the current client and changes nothing but the log. */
  lemma FanStepWriteSendsStep(s: State, value: real)
    requires s.homey.listening && s.dev.client.Some?
    ensures var s' := WriteFanStep(s, value);
      && s'.dev == s.dev && s'.homey == s.homey
      && |s'.link.sent| == |s.link.sent| + 1
      && s'.link.sent[..|s.link.sent|] == s.link.sent
      && s'.link.sent[|s.link.sent|].client == s.dev.client.value
      && s'.link.sent[|s.link.sent|].command == SetFanStep(StepFromPercent(value))
      && 1 <= s'.link.sent[|s.link.sent|].command.step <= 10
  {
  }

  /** Writing back the value shown for a step, `step * 10`, sends that same step. */
  lemma FanStepWriteOfShownStep(s: State, step: int)
    requires s.homey.listening && s.dev.client.Some? && 1 <= step <= 10
    ensures WriteFanStep(s, TimesTen(Num(step as real))).link.sent
              == s.link.sent + [Outbound(s.dev.client.value, SetFanStep(step))]
  {
    StepRoundTrip(step);
  }

  /** The boost and bypass switches each send one command carrying the switch's new state. */
  lemma SwitchWritesSendOne(s: State, on: bool)
    requires s.homey.listening && s.dev.client.Some?
    ensures var c := s.dev.client.value;
      && WriteBoost(s, on).link.sent == s.link.sent + [Outbound(c, if on then ActivateBoost else DeactivateBoost)]
      && WriteBypass(s, on).link.sent == s.link.sent + [Outbound(c, WriteParameter("bypass", on))]
      && WriteAutomaticBypass(s, on).link.sent == s.link.sent + [Outbound(c, WriteParameter("automatic_bypass", on))]
  {
  }

  // ---------------------------------------------------------------------------
  // Inbound parameters other than the mode (device.ts:220-305)

  /** A copied parameter sets its own capability to the pushed value, and nothing else. */
  lemma CopiedParameterSetsOneCapability(s: State, p: Param)
    requires RouteOf(p.id).CopyTo?
    ensures var cap := RouteOf(p.id).cap;
      && OnMessage(s, p).dev == s.dev && OnMessage(s, p).link == s.link
      && OnMessage(s, p).homey ==
           if cap in s.homey.present then s.homey.(values := s.homey.values[cap := AsValue(p.value)]) else s.homey
  {
  }

  /** Ignored and unknown parameters change nothing. */
  lemma UnroutedChangesNothing(s: State, p: Param)
    requires p.id in IgnoredIds || p.id.OtherId?
    ensures OnMessage(s, p) == s
  {
  }

  /** An inbound `fan_step` always caches the step, and shows `step * 10` only when the capability is present. */
  lemma FanStepCachedAndShown(s: State, p: Param)
    requires p.id == FanStep
    ensures var s' := OnMessage(s, p);
      && s'.dev.currentFanStep == Some(p.value)
      && s'.homey.present == s.homey.present
      && (FanSpeedStep in s.homey.present ==>
            s'.homey.values == s.homey.values[FanSpeedStep := Number(TimesTen(p.value))])
      && (FanSpeedStep !in s.homey.present ==> s'.homey.values == s.homey.values)
  {
  }

  // ---------------------------------------------------------------------------
  // updateFanStep (device.ts:208-218)

  /** Afterwards the step capability is present exactly when asked for; no other capability changes. */
  lemma UpdateFanStepPresence(h: Platform, currentFanStep: Option<Datum>, hasFanStep: bool)
    ensures var h' := UpdateFanStep(h, currentFanStep, hasFanStep);
      && (FanSpeedStep in h'.present <==> hasFanStep)
      && h'.present - {FanSpeedStep} == h.present - {FanSpeedStep}
      && (forall cap :: cap != FanSpeedStep ==> (cap in h'.values <==> cap in h.values))
      && (forall cap :: cap != FanSpeedStep && cap in h.values ==> h'.values[cap] == h.values[cap])
  {
  }

  /** Asking twice is asking once. */
  lemma UpdateFanStepIdempotent(h: Platform, currentFanStep: Option<Datum>, hasFanStep: bool)
    ensures var once := UpdateFanStep(h, currentFanStep, hasFanStep);
      UpdateFanStep(once, currentFanStep, hasFanStep) == once
  {
  }

  /**
   * The value is backfilled with `currentFanStep * 10` only when the capability is
   * newly added and a truthy step is cached; a present capability keeps its value,
   * and a removed one has none.
   */
  lemma UpdateFanStepBackfill(h: Platform, currentFanStep: Option<Datum>, hasFanStep: bool)
    ensures var h' := UpdateFanStep(h, currentFanStep, hasFanStep);
      && (hasFanStep && FanSpeedStep in h.present ==> h' == h)
      && (!hasFanStep && FanSpeedStep in h.present ==> FanSpeedStep !in h'.values)
      && (hasFanStep && FanSpeedStep !in h.present ==>
            && (FanSpeedStep in h'.values <==> currentFanStep.Some? && Truthy(currentFanStep.value))
            && (FanSpeedStep in h'.values ==> h'.values[FanSpeedStep] == Number(TimesTen(currentFanStep.value))))
  {
  }

  // ---------------------------------------------------------------------------
  // deviceInit and cleanupDanfossInstance (device.ts:127-206)

  /** While an initialization is in flight, another `deviceInit` is a no-op. */
  lemma BeginInitWhileInFlight(s: State, awaiter: Awaiter)
    requires s.dev.isInitializing
    ensures BeginInit(s, awaiter) == s
  {
  }

  /** Otherwise the previous client is cleaned up before the new one is constructed and started. */
  lemma BeginInitReplacesClient(s: State, awaiter: Awaiter)
    requires Inv(s) && !s.dev.isInitializing
    ensures var s' := BeginInit(s, awaiter);
      && s'.dev.isInitializing && s'.dev.awaiter == awaiter
      && s'.dev.client == Some(s.link.nextClient) && s'.link.live == {s.link.nextClient}
      && s'.link.sent == s.link.sent + (if s.dev.client.Some? then [Outbound(s.dev.client.value, Cleanup)] else [])
                                     + [Outbound(s.link.nextClient, Start)]
  {
  }

  /** `cleanupDanfossInstance` always leaves the handle empty. */
  lemma CleanupEmptiesHandle(s: State)
    ensures CleanupClient(s).dev.client.None?
    ensures CleanupClient(s).link.live == s.link.live - ClientSet(s.dev.client)
  {
  }

  /**
   * An initialization settles with the flag lowered, available on success, and
   * failing exactly when `start` failed, the client was released meanwhile, or a
   * serial word is missing; a word present with the value 0 passes.
   */
  lemma FinishInitSettles(s: State, startOk: bool, high: Option<Datum>, low: Option<Datum>)
    requires Inv(s) && Serialized(s) && s.dev.isInitializing
    ensures var s' := FinishInit(s, startOk, high, low);
      var r := InitResult(s, startOk, high, low);
      && !s'.dev.isInitializing
      && (r.Ready? <==> startOk && s.dev.client.Some? && high.Some? && low.Some?)
      && (r.Ready? ==> s'.homey.available && r.serial == SerialNumber(high.value, low.value))
      && (r.Ready? && s.dev.awaiter == OnInitAwaits ==> s'.homey.listening && FanSpeedStep !in s'.homey.present)
      && (r.Failed? && s.dev.awaiter == ReinitAwaits ==>
            ReinitTimers(s') == {Timer(Reinit, s.homey.nextTimer)} && !s'.homey.available && s'.link.live == {})
      && (r.Failed? && s.dev.awaiter != ReinitAwaits ==>
            s' == s.(dev := s.dev.(isInitializing := false)))
  {
    match InitResult(s, startOk, high, low)
    case NotInFlight =>
    case Ready(_) =>
      if s.dev.awaiter == OnInitAwaits {
        UpdateFanStepPresence(s.homey.(available := true, listening := true), s.dev.currentFanStep, false);
      }
    case Failed(_) =>
      if s.dev.awaiter == ReinitAwaits {
        RestartInitSchedulesOne(s.(dev := s.dev.(isInitializing := false)));
      }
  }

  // ---------------------------------------------------------------------------
  // Reinit scheduling (device.ts:89-125, 179-182)

  /** After `restartInit` there is at most one reinit timer, and none if an initialization is in flight. */
  lemma RestartInitSchedulesOne(s: State)
    requires Inv(s)
    ensures var s' := RestartInit(s);
      && (s.dev.isInitializing ==> ReinitTimers(s') == {} && s' == ClearReinit(s))
      && (!s.dev.isInitializing ==>
            ReinitTimers(s') == {Timer(Reinit, s.homey.nextTimer)} && !s'.homey.available && s'.link.live == {})
  {
    RestartInitInv(s);
    SlotTimerCounts(RestartInit(s));
  }

  /** Two quick `restartInit` calls leave exactly one pending attempt: the second replaces the first. */
  lemma RestartInitTwice(s: State)
    requires Inv(s) && !s.dev.isInitializing
    ensures ReinitTimers(RestartInit(RestartInit(s))) == {Timer(Reinit, s.homey.nextTimer + 1)}
  {
    RestartInitSchedulesOne(s);
    RestartInitInv(s);
    RestartInitSchedulesOne(RestartInit(s));
  }

  /** The error callback restarts only when no reinit is pending. */
  lemma TransportErrorWhilePending(s: State)
    requires s.dev.reinitTimeout.Some?
    ensures OnTransportError(s) == s
  {
  }

  /** Firing the reinit timer empties its slot before the initialization begins. */
  lemma ReinitFiringBegins(s: State, t: Timer)
    requires Inv(s) && Serialized(s) && t in s.homey.timers && t.kind == Reinit
    ensures var s' := FireTimer(s, t);
      && ReinitTimers(s') == {} && s'.dev.isInitializing && s'.dev.awaiter == ReinitAwaits
      && s'.link.live == {s.link.nextClient}
  {
    BeginInitInv(State(s.dev.(reinitTimeout := None), s.homey.(timers := s.homey.timers - {t}), s.link), ReinitAwaits);
    SlotTimerCounts(FireTimer(s, t));
  }

  /** One retry cycle: the pending reinit timer fires and the initialization it begins fails to start. */
  function FailedAttempt(s: State): State
    requires s.dev.reinitTimeout.Some?
  {
    FinishInit(FireTimer(s, Timer(Reinit, s.dev.reinitTimeout.value)), false, None, None)
  }

  function FailedAttempts(s: State, n: nat): (s': State)
    requires Inv(s) && Serialized(s) && s.dev.reinitTimeout.Some?
    ensures Inv(s') && Serialized(s') && s'.dev.reinitTimeout.Some?
    ensures n > 0 ==> !s'.homey.available && s'.link.live == {}
    decreases n
  {
    if n == 0 then s
    else
      FailedAttemptKeepsOnePending(s);
      var next := FailedAttempt(s);
      if n == 1 then next else FailedAttempts(next, n - 1)
  }

  function Starts(log: seq<Outbound>): nat
  {
    if log == [] then 0
    else (if log[|log| - 1].command == Start then 1 else 0) + Starts(log[..|log| - 1])
  }

  lemma {:induction false} StartsAppend(a: seq<Outbound>, b: seq<Outbound>)
    ensures Starts(a + b) == Starts(a) + Starts(b)
    decreases |b|
  {
    if b == [] {
      assert a + b == a;
    } else {
      assert (a + b)[..|a + b| - 1] == a + b[..|b| - 1];
      StartsAppend(a, b[..|b| - 1]);
    }
  }

  /** A failed attempt starts exactly one client and leaves exactly one new attempt pending. */
  lemma FailedAttemptKeepsOnePending(s: State)
    requires Inv(s) && Serialized(s) && s.dev.reinitTimeout.Some?
    ensures var s' := FailedAttempt(s);
      && Inv(s') && Serialized(s')
      && ReinitTimers(s') == {Timer(Reinit, s.homey.nextTimer)}
      && s'.dev.reinitTimeout == Some(s.homey.nextTimer)
      && s'.homey.nextTimer == s.homey.nextTimer + 1
      && !s'.dev.isInitializing && !s'.homey.available && s'.link.live == {}
      && Starts(s'.link.sent) == Starts(s.link.sent) + 1
  {
    var t := Timer(Reinit, s.dev.reinitTimeout.value);
    var fired := FireTimer(s, t);
    var cleanup := if s.dev.client.Some? then [Outbound(s.dev.client.value, Cleanup)] else [];
    FiredReinitStarts(s);
    FailedReinitRestarts(fired);
    var s' := FailedAttempt(s);
    SlotTimerCounts(s');
    StartsAppend(s.link.sent, cleanup);
    StartsAppend(s.link.sent + cleanup, [Outbound(s.link.nextClient, Start)]);
    StartsAppend(fired.link.sent, [Outbound(s.link.nextClient, Cleanup)]);
  }

  lemma FiredReinitStarts(s: State)
    requires Inv(s) && Serialized(s) && s.dev.reinitTimeout.Some?
    ensures var f := FireTimer(s, Timer(Reinit, s.dev.reinitTimeout.value));
      && Inv(f) && Serialized(f)
      && f.dev.isInitializing && f.dev.awaiter == ReinitAwaits && f.dev.client == Some(s.link.nextClient)
      && f.homey.nextTimer == s.homey.nextTimer && f.dev.reinitTimeout.None?
      && f.link.sent == s.link.sent + (if s.dev.client.Some? then [Outbound(s.dev.client.value, Cleanup)] else [])
                          + [Outbound(s.link.nextClient, Start)]
  {
    var t := Timer(Reinit, s.dev.reinitTimeout.value);
    var unslotted := State(s.dev.(reinitTimeout := None), s.homey.(timers := s.homey.timers - {t}), s.link);
    assert Inv(unslotted);
    BeginInitReplacesClient(unslotted, ReinitAwaits);
    FireTimerInv(s, t);
  }

  lemma FailedReinitRestarts(f: State)
    requires Inv(f) && Serialized(f) && f.dev.isInitializing && f.dev.awaiter == ReinitAwaits && f.dev.client.Some?
    ensures var s' := FinishInit(f, false, None, None);
      && Inv(s') && Serialized(s')
      && s'.dev.reinitTimeout == Some(f.homey.nextTimer) && s'.homey.nextTimer == f.homey.nextTimer + 1
      && !s'.dev.isInitializing && !s'.homey.available && s'.link.live == {}
      && s'.link.sent == f.link.sent + [Outbound(f.dev.client.value, Cleanup)]
  {
    var failed := f.(dev := f.dev.(isInitializing := false));
    assert FinishInit(f, false, None, None) == RestartInit(failed);
    RestartInitInv(failed);
    FinishInitInv(f, false, None, None);
  }

  /**
   * Retry cadence: n consecutive failed attempts start exactly n clients, one per
   * attempt, and there is always exactly one attempt pending, never two.
   */
  lemma {:induction false} FailedAttemptsCadence(s: State, n: nat)
    requires Inv(s) && Serialized(s) && s.dev.reinitTimeout.Some?
    ensures var s' := FailedAttempts(s, n);
      && Starts(s'.link.sent) == Starts(s.link.sent) + n
      && |ReinitTimers(s')| == 1
      && (n > 0 ==> !s'.homey.available && s'.link.live == {})
    decreases n
  {
    if n > 0 {
      FailedAttemptKeepsOnePending(s);
      if n > 1 {
        FailedAttemptsCadence(FailedAttempt(s), n - 1);
      }
    }
    SlotTimerCounts(FailedAttempts(s, n));
  }

  // ---------------------------------------------------------------------------
  // Teardown (device.ts:335-347, 363-377)

  /**
   * A device deleted while a reinit attempt is in flight still schedules a retry:
   * the attempt settles without a client, fails, and its callback calls `restartInit`.
   */
  lemma DeletedDuringReinitRetries(s: State, startOk: bool, high: Option<Datum>, low: Option<Datum>)
    requires Inv(s) && Serialized(s) && s.dev.isInitializing && s.dev.awaiter == ReinitAwaits
    ensures var d := FinishInit(OnDeleted(s), startOk, high, low);
      && InitResult(OnDeleted(s), startOk, high, low).Failed?
      && ReinitTimers(d) == {Timer(Reinit, s.homey.nextTimer)}
  {
    var deleted := OnDeleted(s);
    DeletedTearsDown(s);
    assert deleted.dev.isInitializing && deleted.dev.awaiter == ReinitAwaits;
    RestartInitSchedulesOne(deleted.(dev := deleted.dev.(isInitializing := false)));
  }

  /**
   * A `hostname` change while `onInit` awaits its initialization releases the client,
   * and the `deviceInit` it calls is skipped; the initialization then fails without a
   * client, so `onInit` registers no listeners and nothing schedules a retry.
   */
  lemma HostnameChangeDuringOnInitStrands(s: State, changedKeys: seq<string>, newHostname: string,
                                           startOk: bool, high: Option<Datum>, low: Option<Datum>)
    requires Inv(s) && Serialized(s) && s.dev.isInitializing && s.dev.awaiter == OnInitAwaits
    requires !s.homey.listening && "hostname" in changedKeys && newHostname != ""
    ensures var d := FinishInit(OnSettings(s, changedKeys, newHostname), startOk, high, low);
      && d.dev.client.None? && d.link.live == {} && !d.dev.isInitializing
      && ReinitTimers(d) == {} && !d.homey.listening && d.homey.available == s.homey.available
  {
    var settled := OnSettings(s, changedKeys, newHostname);
    SettingsKeepsInv(s, changedKeys, newHostname);
    CleanupClientInv(ClearReinit(s));
    assert settled == CleanupClient(ClearReinit(s));
    FinishInitInv(settled, startOk, high, low);
    SlotTimerCounts(FinishInit(settled, startOk, high, low));
  }


  /** After `onDeleted` no timer is pending and no client is live. */
  lemma DeletedTearsDown(s: State)
    requires Inv(s)
    ensures var s' := OnDeleted(s);
      s'.homey.timers == {} && s'.dev.client.None? && s'.link.live == {} && Inv(s')
  {
  }

  /**
   * A `hostname` change clears the pending reinit and the client, then begins a new
   * initialization only for a non-empty hostname; other settings change nothing.
   */
  lemma SettingsReinitialize(s: State, changedKeys: seq<string>, newHostname: string)
    requires Inv(s)
    ensures var s' := OnSettings(s, changedKeys, newHostname);
      && ("hostname" !in changedKeys ==> s' == s)
      && ("hostname" in changedKeys ==>
            && ReinitTimers(s') == {}
            && (newHostname == "" || s.dev.isInitializing ==> s'.dev.client.None? && s'.link.live == {})
            && (newHostname != "" && !s.dev.isInitializing ==>
                  s'.dev.isInitializing && s'.dev.awaiter == SettingsAwaits && s'.link.live == {s.link.nextClient}))
  {
    if "hostname" in changedKeys {
      var released := CleanupClient(ClearReinit(s));
      CleanupClientInv(ClearReinit(s));
      if newHostname != "" {
        BeginInitInv(released, SettingsAwaits);
      }
      SettingsKeepsInv(s, changedKeys, newHostname);
    }
  }

  lemma SettingsKeepsInv(s: State, changedKeys: seq<string>, newHostname: string)
    requires Inv(s)
    ensures Inv(OnSettings(s, changedKeys, newHostname))
    ensures Serialized(s) ==> Serialized(OnSettings(s, changedKeys, newHostname))
    ensures "hostname" in changedKeys ==> OnSettings(s, changedKeys, newHostname).dev.reinitTimeout.None?
  {
    if "hostname" in changedKeys {
      CleanupClientInv(ClearReinit(s));
      if newHostname != "" {
        BeginInitInv(CleanupClient(ClearReinit(s)), SettingsAwaits);
      }
    }
    SlotTimerCounts(OnSettings(s, changedKeys, newHostname));
  }
}

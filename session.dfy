/**
 * The device session controller of drivers/danfoss-air/device.ts as a state machine on
 * values. A State holds the device's own fields, the part of the platform they act on
 * (capabilities, availability, scheduled timers) and the part of the transport they
 * act on (live clients, calls made), and each event has one transition function.
 * Every handler runs as one atomic step of the single-threaded event loop, except
 * `deviceInit`, which is split at its `await` of the client's `start` into BeginInit
 * and FinishInit.
 */
module Session {
  import opened Wrappers
  import opened Translate

  datatype TimerKind = ModeSwitch | Reinit

  /** A timer scheduled on the platform: which slot it was stored in, and its handle. */
  datatype Timer = Timer(kind: TimerKind, id: nat)

  /** A call made on a transport client. */
  datatype Command =
    | Start
    | Cleanup
    | SetMode(code: int)
    | SetFanStep(step: int)
    | ActivateBoost
    | DeactivateBoost
    | WriteParameter(name: string, on: bool)

  datatype Outbound = Outbound(client: nat, command: Command)

  /** Who awaits the initialization in flight, and so runs on once it settles. */
  datatype Awaiter = OnInitAwaits | ReinitAwaits | SettingsAwaits

  datatype InitError = StartFailed | ClientGone | SerialMissing

  /** How a settling initialization ends for its awaiter. */
  datatype InitOutcome = NotInFlight | Ready(serial: int) | Failed(error: InitError)

  /** The fields of `DanfossAirDevice` (device.ts:6-10), plus the awaiter of `deviceInit`. */
  datatype Fields = Fields(
    client: Option<nat>,               // danfossAir
    currentFanStep: Option<Datum>,
    modeSwitchTimeout: Option<nat>,
    reinitTimeout: Option<nat>,
    isInitializing: bool,
    awaiter: Awaiter)                  // meaningful while isInitializing

  /** What the platform keeps for the device. */
  datatype Platform = Platform(
    values: map<Capability, Value>,    // capability values
    present: set<Capability>,          // capabilities the device has
    available: bool,
    listening: bool,                   // capability listeners registered
    timers: set<Timer>,                // scheduled, neither fired nor cleared
    nextTimer: nat)

  /** What the transport library keeps: clients constructed and not cleaned up, and every call made. */
  datatype Link = Link(live: set<nat>, nextClient: nat, sent: seq<Outbound>)

  datatype State = State(dev: Fields, homey: Platform, link: Link)

  // ---------------------------------------------------------------------------
  // Invariants

  function SlotTimers(modeSwitch: Option<nat>, reinit: Option<nat>): set<Timer>
  {
    (if modeSwitch.Some? then {Timer(ModeSwitch, modeSwitch.value)} else {}) +
    (if reinit.Some? then {Timer(Reinit, reinit.value)} else {})
  }

  function ClientSet(client: Option<nat>): set<nat>
  {
    if client.Some? then {client.value} else {}
  }

  /**
   * Nothing dangles: the scheduled timers are exactly the ones the two slots hold,
   * with handles never reused, and the live clients are exactly the one the device
   * holds, so at most one client is live.
   */
  ghost predicate Inv(s: State)
  {
    && s.homey.timers == SlotTimers(s.dev.modeSwitchTimeout, s.dev.reinitTimeout)
    && (s.dev.modeSwitchTimeout.Some? ==> s.dev.modeSwitchTimeout.value < s.homey.nextTimer)
    && (s.dev.reinitTimeout.Some? ==> s.dev.reinitTimeout.value < s.homey.nextTimer)
    && s.link.live == ClientSet(s.dev.client)
    && (s.dev.client.Some? ==> s.dev.client.value < s.link.nextClient)
  }

  /** No reinit attempt is scheduled while an initialization is in flight. */
  ghost predicate Serialized(s: State)
  {
    s.dev.isInitializing ==> s.dev.reinitTimeout.None?
  }

  function ReinitTimers(s: State): set<Timer>
  {
    set t | t in s.homey.timers && t.kind == Reinit
  }

  function ModeSwitchTimers(s: State): set<Timer>
  {
    set t | t in s.homey.timers && t.kind == ModeSwitch
  }

  // ---------------------------------------------------------------------------
  // Platform and transport primitives

  /** The device as the platform creates it, before `onInit`. */
  function Initial(values: map<Capability, Value>, present: set<Capability>, available: bool): State
  {
    State(Fields(None, None, None, None, false, OnInitAwaits),
          Platform(values, present, available, false, {}, 0),
          Link({}, 0, []))
  }

  /** `setCapabilityValue`: the platform rejects a capability the device lacks, and the error is swallowed. */
  function SetCapability(h: Platform, cap: Capability, v: Value): Platform
  {
    if cap in h.present then h.(values := h.values[cap := v]) else h
  }

  /** `setTimeout`: schedule a timer under a fresh handle. */
  function SetTimeout(h: Platform, kind: TimerKind): Platform
  {
    h.(timers := h.timers + {Timer(kind, h.nextTimer)}, nextTimer := h.nextTimer + 1)
  }

  /** `this.danfossAir?.cmd()`: nothing is sent when there is no client. */
  function Send(s: State, cmd: Command): State
  {
    match s.dev.client
    case Some(c) => s.(link := s.link.(sent := s.link.sent + [Outbound(c, cmd)]))
    case None => s
  }

  /** `cleanupDanfossInstance` (device.ts:127-137); a throwing `cleanup()` still releases the client. */
  function CleanupClient(s: State): State
  {
    match s.dev.client
    case Some(c) =>
      State(s.dev.(client := None), s.homey,
            s.link.(live := s.link.live - {c}, sent := s.link.sent + [Outbound(c, Cleanup)]))
    case None => s
  }

  function ClearReinit(s: State): State
  {
    match s.dev.reinitTimeout
    case Some(id) =>
      State(s.dev.(reinitTimeout := None), s.homey.(timers := s.homey.timers - {Timer(Reinit, id)}), s.link)
    case None => s
  }

  function ArmReinit(s: State): State
  {
    State(s.dev.(reinitTimeout := Some(s.homey.nextTimer)), SetTimeout(s.homey, Reinit), s.link)
  }

  function ClearModeSwitch(s: State): State
  {
    match s.dev.modeSwitchTimeout
    case Some(id) =>
      State(s.dev.(modeSwitchTimeout := None), s.homey.(timers := s.homey.timers - {Timer(ModeSwitch, id)}), s.link)
    case None => s
  }

  function ArmModeSwitch(s: State): State
  {
    State(s.dev.(modeSwitchTimeout := Some(s.homey.nextTimer)), SetTimeout(s.homey, ModeSwitch), s.link)
  }

  // ---------------------------------------------------------------------------
  // The controller's operations

  /**
   * `updateFanStep` (device.ts:208-218) on the platform: add the step capability when
   * asked for and missing, backfilling `currentFanStep * 10` when a truthy step is
   * cached; remove it when not asked for and present. A capability is added without
   * a value, and a removed one loses its value.
   */
  function UpdateFanStep(h: Platform, currentFanStep: Option<Datum>, hasFanStep: bool): Platform
  {
    if hasFanStep && FanSpeedStep !in h.present then
      var added := h.(present := h.present + {FanSpeedStep}, values := h.values - {FanSpeedStep});
      if currentFanStep.Some? && Truthy(currentFanStep.value)
      then SetCapability(added, FanSpeedStep, Number(TimesTen(currentFanStep.value)))
      else added
    else if !hasFanStep && FanSpeedStep in h.present then
      h.(present := h.present - {FanSpeedStep}, values := h.values - {FanSpeedStep})
    else h
  }

  /**
   * `restartInit` (device.ts:89-125), as one atomic step: clear any pending reinit;
   * unless an initialization is in flight, mark the device unavailable, release the
   * client and schedule a single new attempt.
   */
  function RestartInit(s: State): State
  {
    var cleared := ClearReinit(s);
    if cleared.dev.isInitializing then cleared
    else ArmReinit(CleanupClient(cleared.(homey := cleared.homey.(available := false))))
  }

  /**
   * The synchronous part of `deviceInit` (device.ts:139-185): a no-op while an
   * initialization is in flight; otherwise raise the flag, release the previous
   * client, construct a new one and call its `start`.
   */
  function BeginInit(s: State, awaiter: Awaiter): State
  {
    if s.dev.isInitializing then s
    else
      var released := CleanupClient(s);
      var c := released.link.nextClient;
      State(released.dev.(isInitializing := true, awaiter := awaiter, client := Some(c)),
            released.homey,
            Link(released.link.live + {c}, c + 1, released.link.sent + [Outbound(c, Start)]))
  }

  /** The rest of `onInit` once `deviceInit` returned normally (device.ts:31-82). */
  function AfterOnInit(s: State): State
  {
    s.(homey := UpdateFanStep(s.homey.(listening := true), s.dev.currentFanStep, false))
  }

  /** `onInit` (device.ts:21-87) up to the `await` of `deviceInit`. */
  function OnInit(s: State, hostname: string): State
  {
    var unavailable := s.(homey := s.homey.(available := false));
    if hostname == "" then unavailable.(homey := UpdateFanStep(unavailable.homey, s.dev.currentFanStep, false))
    else if s.dev.isInitializing then AfterOnInit(unavailable)
    else BeginInit(unavailable, OnInitAwaits)
  }

  /**
   * How the initialization in flight settles, given whether `start` succeeded and
   * what `getParameter` returned for the two serial-number words (device.ts:185-194).
   */
  function InitResult(s: State, startOk: bool, high: Option<Datum>, low: Option<Datum>): InitOutcome
  {
    if !s.dev.isInitializing then NotInFlight
    else if !startOk then Failed(StartFailed)
    else if s.dev.client.None? then Failed(ClientGone)
    else if high.None? || low.None? then Failed(SerialMissing)
    else Ready(SerialNumber(high.value, low.value))
  }

  /**
   * The rest of `deviceInit` after `start` settles (device.ts:185-205), followed by
   * its awaiter's continuation: on success `onInit` registers its listeners, and on
   * failure the reinit timer's callback calls `restartInit` (device.ts:117-123).
   */
  function FinishInit(s: State, startOk: bool, high: Option<Datum>, low: Option<Datum>): State
  {
    match InitResult(s, startOk, high, low)
    case NotInFlight => s
    case Ready(_) =>
      var ready := State(s.dev.(isInitializing := false), s.homey.(available := true), s.link);
      if s.dev.awaiter == OnInitAwaits then AfterOnInit(ready) else ready
    case Failed(_) =>
      var failed := s.(dev := s.dev.(isInitializing := false));
      if s.dev.awaiter == ReinitAwaits then RestartInit(failed) else failed
  }

  /** The `fan_mode` listener (device.ts:31-56): re-arm the debounce window, then send the mode. */
  function WriteFanMode(s: State, value: string): State
  {
    if !s.homey.listening then s
    else Send(ArmModeSwitch(ClearModeSwitch(s)), SetMode(ModeCode(value)))
  }

  /** The `fan_speed.step` listener (device.ts:58-61). */
  function WriteFanStep(s: State, value: real): State
  {
    if !s.homey.listening then s else Send(s, SetFanStep(StepFromPercent(value)))
  }

  /** The `onoff.boost` listener (device.ts:63-70). */
  function WriteBoost(s: State, on: bool): State
  {
    if !s.homey.listening then s else Send(s, if on then ActivateBoost else DeactivateBoost)
  }

  /** The `onoff.bypass` listener (device.ts:72-75). */
  function WriteBypass(s: State, on: bool): State
  {
    if !s.homey.listening then s else Send(s, WriteParameter("bypass", on))
  }

  /** The `onoff.automatic_bypass` listener (device.ts:77-80). */
  function WriteAutomaticBypass(s: State, on: bool): State
  {
    if !s.homey.listening then s else Send(s, WriteParameter("automatic_bypass", on))
  }

  /** A pushed value copied verbatim into a capability. */
  function AsValue(d: Datum): Value
  {
    match d
    case Num(x) => Number(x)
    case Bit(b) => Flag(b)
  }

  /** `onDanfossMessage` (device.ts:220-305). */
  function OnMessage(s: State, p: Param): State
  {
    match RouteOf(p.id)
    case CopyTo(cap) => s.(homey := SetCapability(s.homey, cap, AsValue(p.value)))
    case ToFanMode =>
      if s.dev.modeSwitchTimeout.None?
      then
        var moded := SetCapability(s.homey, FanMode, Text(ModeName(p.value)));
        s.(homey := UpdateFanStep(moded, s.dev.currentFanStep, p.value == Num(2.0)))
      else s
    case ToFanStep =>
      var dev := s.dev.(currentFanStep := Some(p.value));
      if FanSpeedStep in s.homey.present
      then State(dev, SetCapability(s.homey, FanSpeedStep, Number(TimesTen(p.value))), s.link)
      else s.(dev := dev)
    case Ignored => s
    case Logged => s
  }

  /** The transport's error callback (device.ts:161-183). */
  function OnTransportError(s: State): State
  {
    if s.dev.reinitTimeout.None? then RestartInit(s) else s
  }

  /**
   * A scheduled timer fires: the mode-switch callback empties its slot
   * (device.ts:51-54); the reinit callback empties its slot and then begins
   * `deviceInit` (device.ts:111-116). A cleared timer never fires.
   */
  function FireTimer(s: State, t: Timer): State
  {
    if t !in s.homey.timers then s
    else
      var homey := s.homey.(timers := s.homey.timers - {t});
      match t.kind
      case ModeSwitch => State(s.dev.(modeSwitchTimeout := None), homey, s.link)
      case Reinit => BeginInit(State(s.dev.(reinitTimeout := None), homey, s.link), ReinitAwaits)
  }

  /** `onSettings` (device.ts:322-349). */
  function OnSettings(s: State, changedKeys: seq<string>, newHostname: string): State
  {
    if "hostname" !in changedKeys then s
    else
      var released := CleanupClient(ClearReinit(s));
      if newHostname != "" then BeginInit(released, SettingsAwaits) else released
  }

  /** `onDeleted` (device.ts:363-378). */
  function OnDeleted(s: State): State
  {
    CleanupClient(ClearModeSwitch(ClearReinit(s)))
  }

  // ---------------------------------------------------------------------------
  // Runs

  /** What can happen to a device after `onInit`. */
  datatype Event =
    | FanModeWritten(mode: string)
    | FanStepWritten(percent: real)
    | BoostWritten(on: bool)
    | BypassWritten(on: bool)
    | AutomaticBypassWritten(on: bool)
    | Message(p: Param)
    | TransportError
    | Fired(t: Timer)
    | InitSettled(startOk: bool, high: Option<Datum>, low: Option<Datum>)
    | SettingsChanged(changedKeys: seq<string>, newHostname: string)
    | Deleted

  function Step(s: State, e: Event): State
  {
    match e
    case FanModeWritten(mode) => WriteFanMode(s, mode)
    case FanStepWritten(percent) => WriteFanStep(s, percent)
    case BoostWritten(on) => WriteBoost(s, on)
    case BypassWritten(on) => WriteBypass(s, on)
    case AutomaticBypassWritten(on) => WriteAutomaticBypass(s, on)
    case Message(p) => OnMessage(s, p)
    case TransportError => OnTransportError(s)
    case Fired(t) => FireTimer(s, t)
    case InitSettled(startOk, high, low) => FinishInit(s, startOk, high, low)
    case SettingsChanged(keys, host) => OnSettings(s, keys, host)
    case Deleted => OnDeleted(s)
  }

  function Run(s: State, events: seq<Event>): State
    decreases |events|
  {
    if events == [] then s else Run(Step(s, events[0]), events[1..])
  }
}

/**
 * The imperative controller: `DanfossAirDevice` (drivers/danfoss-air/device.ts) as a
 * class whose fields its handlers update in place, next to the two objects it drives,
 * the platform's view of the device and the transport library. Each handler is proved
 * to take the state, read through `Model()`, exactly where the corresponding Session
 * transition takes it, so everything proved about Session holds of these methods.
 */
module Device {
  import opened Wrappers
  import opened Translate
  import Session

  /** What the platform keeps for one device: capability values, availability, listeners, timers. */
  class Homey {
    var values: map<Capability, Value>
    var present: set<Capability>
    var available: bool
    var listening: bool
    var timers: set<Session.Timer>
    var nextTimer: nat

    function Model(): Session.Platform
      reads this
    {
      Session.Platform(values, present, available, listening, timers, nextTimer)
    }

    constructor (values: map<Capability, Value>, present: set<Capability>, available: bool)
      ensures Model() == Session.Platform(values, present, available, false, {}, 0)
    {
      this.values := values;
      this.present := present;
      this.available := available;
      listening := false;
      timers := {};
      nextTimer := 0;
    }

    predicate HasCapability(cap: Capability)
      reads this
    {
      cap in present
    }

    /** `setCapabilityValue(...).catch(this.error)`: a capability the device lacks is left alone. */
    method SetCapabilityValue(cap: Capability, v: Value)
      modifies this
      ensures Model() == Session.SetCapability(old(Model()), cap, v)
    {
      if cap in present {
        values := values[cap := v];
      }
    }

    /** `addCapability`, called only for a capability the device lacks: it starts without a value. */
    method AddCapability(cap: Capability)
      requires cap !in present
      modifies this
      ensures Model() == old(Model()).(present := old(present) + {cap}, values := old(values) - {cap})
    {
      present := present + {cap};
      values := values - {cap};
    }

    /** `removeCapability`: the capability and its value are gone. */
    method RemoveCapability(cap: Capability)
      modifies this
      ensures Model() == old(Model()).(present := old(present) - {cap}, values := old(values) - {cap})
    {
      present := present - {cap};
      values := values - {cap};
    }

    method SetAvailable(on: bool)
      modifies this
      ensures Model() == old(Model()).(available := on)
    {
      available := on;
    }

    /** The five `registerCapabilityListener` calls of `onInit`: from now on writes reach the device. */
    method RegisterCapabilityListeners()
      modifies this
      ensures Model() == old(Model()).(listening := true)
    {
      listening := true;
    }

    /** `homey.setTimeout`: schedules a timer and hands back its fresh handle. */
    method SetTimeout(kind: Session.TimerKind) returns (id: nat)
      modifies this
      ensures id == old(nextTimer)
      ensures Model() == Session.SetTimeout(old(Model()), kind)
    {
      id := nextTimer;
      timers := timers + {Session.Timer(kind, id)};
      nextTimer := nextTimer + 1;
    }

    /** `clearTimeout`, and also what happens to a timer once it has fired: it is no longer scheduled. */
    method ClearTimeout(t: Session.Timer)
      modifies this
      ensures Model() == old(Model()).(timers := old(timers) - {t})
    {
      timers := timers - {t};
    }
  }

  /** The transport library: the clients constructed and not yet cleaned up, and every call made on one. */
  class Transport {
    var live: set<nat>
    var nextClient: nat
    var sent: seq<Session.Outbound>

    function Model(): Session.Link
      reads this
    {
      Session.Link(live, nextClient, sent)
    }

    constructor ()
      ensures Model() == Session.Link({}, 0, [])
    {
      live := {};
      nextClient := 0;
      sent := [];
    }

    /** `new DanfossAir({...})`: a fresh client. */
    method Construct() returns (c: nat)
      modifies this
      ensures c == old(nextClient)
      ensures Model() == old(Model()).(live := old(live) + {c}, nextClient := c + 1)
    {
      c := nextClient;
      live := live + {c};
      nextClient := nextClient + 1;
    }

    method Call(c: nat, cmd: Session.Command)
      modifies this
      ensures Model() == old(Model()).(sent := old(sent) + [Session.Outbound(c, cmd)])
    {
      sent := sent + [Session.Outbound(c, cmd)];
    }

    /** `cleanup()`: the call is made, and whether it throws or not the client is released. */
    method Release(c: nat)
      modifies this
      ensures Model() == old(Model()).(live := old(live) - {c}, sent := old(sent) + [Session.Outbound(c, Session.Cleanup)])
    {
      sent := sent + [Session.Outbound(c, Session.Cleanup)];
      live := live - {c};
    }
  }

  class DanfossAirDevice {
    const homey: Homey
    const transport: Transport
    var danfossAir: Option<nat>
    var currentFanStep: Option<Datum>
    var modeSwitchTimeout: Option<nat>
    var reinitTimeout: Option<nat>
    var isInitializing: bool
    var awaiter: Session.Awaiter

    function Model(): Session.State
      reads this, homey, transport
    {
      Session.State(
        Session.Fields(danfossAir, currentFanStep, modeSwitchTimeout, reinitTimeout, isInitializing, awaiter),
        homey.Model(), transport.Model())
    }

    /** The device as the platform creates it, before `onInit` runs. */
    constructor (values: map<Capability, Value>, present: set<Capability>, available: bool)
      ensures Model() == Session.Initial(values, present, available)
      ensures fresh(homey) && fresh(transport)
    {
      homey := new Homey(values, present, available);
      transport := new Transport();
      danfossAir := None;
      currentFanStep := None;
      modeSwitchTimeout := None;
      reinitTimeout := None;
      isInitializing := false;
      awaiter := Session.OnInitAwaits;
    }

    /** `cleanupDanfossInstance` (device.ts:127-137). */
    method CleanupDanfossInstance()
      modifies this, transport
      ensures Model() == Session.CleanupClient(old(Model()))
    {
      if danfossAir.Some? {
        transport.Release(danfossAir.value);
        danfossAir := None;
      }
    }

    /** `this.danfossAir?.cmd(...)`. */
    method Send(cmd: Session.Command)
      modifies transport
      ensures Model() == Session.Send(old(Model()), cmd)
    {
      if danfossAir.Some? {
        transport.Call(danfossAir.value, cmd);
      }
    }

    method ClearReinitTimeout()
      modifies this, homey
      ensures Model() == Session.ClearReinit(old(Model()))
    {
      if reinitTimeout.Some? {
        homey.ClearTimeout(Session.Timer(Session.Reinit, reinitTimeout.value));
        reinitTimeout := None;
      }
    }

    method ClearModeSwitchTimeout()
      modifies this, homey
      ensures Model() == Session.ClearModeSwitch(old(Model()))
    {
      if modeSwitchTimeout.Some? {
        homey.ClearTimeout(Session.Timer(Session.ModeSwitch, modeSwitchTimeout.value));
        modeSwitchTimeout := None;
      }
    }

    /** `updateFanStep` (device.ts:208-218). */
    method UpdateFanStep(hasFanStep: bool)
      modifies homey
      ensures Model() == old(Model()).(homey := Session.UpdateFanStep(old(homey.Model()), currentFanStep, hasFanStep))
    {
      if hasFanStep && !homey.HasCapability(FanSpeedStep) {
        homey.AddCapability(FanSpeedStep);
        if currentFanStep.Some? && Truthy(currentFanStep.value) {
          homey.SetCapabilityValue(FanSpeedStep, Number(TimesTen(currentFanStep.value)));
        }
      }
      if !hasFanStep && homey.HasCapability(FanSpeedStep) {
        homey.RemoveCapability(FanSpeedStep);
      }
    }

    /** `restartInit` (device.ts:89-125). */
    method RestartInit()
      modifies this, homey, transport
      ensures Model() == Session.RestartInit(old(Model()))
    {
      ClearReinitTimeout();
      if isInitializing {
        return;
      }
      homey.SetAvailable(false);
      CleanupDanfossInstance();
      var id := homey.SetTimeout(Session.Reinit);
      reinitTimeout := Some(id);
    }

    /** `deviceInit` (device.ts:139-185) up to the `await` of `start`. */
    method BeginDeviceInit(who: Session.Awaiter)
      modifies this, transport
      ensures Model() == Session.BeginInit(old(Model()), who)
    {
      if isInitializing {
        return;
      }
      isInitializing := true;
      awaiter := who;
      CleanupDanfossInstance();
      var c := transport.Construct();
      danfossAir := Some(c);
      transport.Call(c, Session.Start);
    }

    /**
     * The rest of `deviceInit` (device.ts:185-205), once `start` has settled with
     * `startOk` and the two serial-number words have been read as `high` and `low`.
     */
    method SettleDeviceInit(startOk: bool, high: Option<Datum>, low: Option<Datum>)
      returns (outcome: Session.InitOutcome)
      modifies this, homey
      ensures outcome == Session.InitResult(old(Model()), startOk, high, low)
      ensures outcome.NotInFlight? ==> Model() == old(Model())
      ensures outcome.Ready? ==>
        Model() == old(Model()).(dev := old(Model()).dev.(isInitializing := false),
                                 homey := old(Model()).homey.(available := true))
      ensures outcome.Failed? ==> Model() == old(Model()).(dev := old(Model()).dev.(isInitializing := false))
    {
      if !isInitializing {
        return Session.NotInFlight;
      }
      if !startOk {
        outcome := Session.Failed(Session.StartFailed);
      } else if danfossAir.None? {
        outcome := Session.Failed(Session.ClientGone);
      } else if high.None? || low.None? {
        outcome := Session.Failed(Session.SerialMissing);
      } else {
        var serial := SerialNumber(high.value, low.value);
        homey.SetAvailable(true);
        outcome := Session.Ready(serial);
      }
      isInitializing := false;
    }

    /** The listeners and the final `updateFanStep(false)` of `onInit` (device.ts:31-82). */
    method FinishOnInit()
      modifies homey
      ensures Model() == Session.AfterOnInit(old(Model()))
    {
      homey.RegisterCapabilityListeners();
      UpdateFanStep(false);
    }

    /** `onInit` (device.ts:21-87) up to the `await` of `deviceInit`. */
    method OnInit(hostname: string)
      modifies this, homey, transport
      ensures Model() == Session.OnInit(old(Model()), hostname)
    {
      homey.SetAvailable(false);
      if hostname == "" {
        UpdateFanStep(false);
      } else if isInitializing {
        FinishOnInit();
      } else {
        BeginDeviceInit(Session.OnInitAwaits);
      }
    }

    /**
     * The initialization in flight settles, and its awaiter runs on: `onInit` registers
     * its listeners, and the reinit timer's callback retries on failure.
     */
    method OnInitSettled(startOk: bool, high: Option<Datum>, low: Option<Datum>)
      modifies this, homey, transport
      ensures Model() == Session.FinishInit(old(Model()), startOk, high, low)
    {
      var who := awaiter;
      var outcome := SettleDeviceInit(startOk, high, low);
      match outcome
      case NotInFlight =>
      case Ready(_) =>
        if who == Session.OnInitAwaits {
          FinishOnInit();
        }
      case Failed(_) =>
        if who == Session.ReinitAwaits {
          RestartInit();
        }
    }

    /** The `fan_mode` listener (device.ts:31-56). */
    method OnFanModeSet(value: string)
      modifies this, homey, transport
      ensures Model() == Session.WriteFanMode(old(Model()), value)
    {
      if !homey.listening {
        return;
      }
      var mode := ModeCode(value);
      ClearModeSwitchTimeout();
      var id := homey.SetTimeout(Session.ModeSwitch);
      modeSwitchTimeout := Some(id);
      Send(Session.SetMode(mode));
    }

    /** The `fan_speed.step` listener (device.ts:58-61). */
    method OnFanStepSet(value: real)
      modifies transport
      ensures Model() == Session.WriteFanStep(old(Model()), value)
    {
      if homey.listening {
        Send(Session.SetFanStep(StepFromPercent(value)));
      }
    }

    /** The `onoff.boost` listener (device.ts:63-70). */
    method OnBoostSet(on: bool)
      modifies transport
      ensures Model() == Session.WriteBoost(old(Model()), on)
    {
      if homey.listening {
        if on {
          Send(Session.ActivateBoost);
        } else {
          Send(Session.DeactivateBoost);
        }
      }
    }

    /** The `onoff.bypass` listener (device.ts:72-75). */
    method OnBypassSet(on: bool)
      modifies transport
      ensures Model() == Session.WriteBypass(old(Model()), on)
    {
      if homey.listening {
        Send(Session.WriteParameter("bypass", on));
      }
    }

    /** The `onoff.automatic_bypass` listener (device.ts:77-80). */
    method OnAutomaticBypassSet(on: bool)
      modifies transport
      ensures Model() == Session.WriteAutomaticBypass(old(Model()), on)
    {
      if homey.listening {
        Send(Session.WriteParameter("automatic_bypass", on));
      }
    }

    /** `onDanfossMessage` (device.ts:220-305). */
    method OnDanfossMessage(p: Param)
      modifies this, homey
      ensures Model() == Session.OnMessage(old(Model()), p)
    {
      match RouteOf(p.id)
      case CopyTo(cap) =>
        homey.SetCapabilityValue(cap, Session.AsValue(p.value));
      case ToFanMode =>
        var mode := ModeName(p.value);
        if modeSwitchTimeout.None? {
          homey.SetCapabilityValue(FanMode, Text(mode));
          UpdateFanStep(p.value == Num(2.0));
        }
      case ToFanStep =>
        currentFanStep := Some(p.value);
        if homey.HasCapability(FanSpeedStep) {
          homey.SetCapabilityValue(FanSpeedStep, Number(TimesTen(p.value)));
        }
      case Ignored =>
      case Logged =>
    }

    /** The client's `errorCallback` (device.ts:161-183). */
    method OnTransportError()
      modifies this, homey, transport
      ensures Model() == Session.OnTransportError(old(Model()))
    {
      if reinitTimeout.None? {
        RestartInit();
      }
    }

    /** A scheduled timer's callback runs (device.ts:51-54, 111-124); a cleared one never does. */
    method OnTimer(t: Session.Timer)
      modifies this, homey, transport
      ensures Model() == Session.FireTimer(old(Model()), t)
    {
      if t !in homey.timers {
        return;
      }
      homey.ClearTimeout(t);
      match t.kind
      case ModeSwitch =>
        modeSwitchTimeout := None;
      case Reinit =>
        reinitTimeout := None;
        BeginDeviceInit(Session.ReinitAwaits);
    }

    /** `onSettings` (device.ts:322-349). */
    method OnSettings(changedKeys: seq<string>, newHostname: string)
      modifies this, homey, transport
      ensures Model() == Session.OnSettings(old(Model()), changedKeys, newHostname)
    {
      if "hostname" in changedKeys {
        ClearReinitTimeout();
        CleanupDanfossInstance();
        if newHostname != "" {
          BeginDeviceInit(Session.SettingsAwaits);
        }
      }
    }

    /** `onDeleted` (device.ts:363-378). */
    method OnDeleted()
      modifies this, homey, transport
      ensures Model() == Session.OnDeleted(old(Model()))
    {
      ClearReinitTimeout();
      ClearModeSwitchTimeout();
      CleanupDanfossInstance();
    }
  }
}

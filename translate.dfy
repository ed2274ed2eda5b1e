/** The stock optional-value wrapper used for the source's `undefined`-able fields. */
module Wrappers {
  datatype Option<+T> = None | Some(value: T)
}

/**
 * The parameter translator of the Danfoss Air device driver: the side-effect-free
 * rules that turn the unit's raw parameters into capability values and capability
 * writes into transport commands (drivers/danfoss-air/device.ts).
 */
module Translate {

  /** A raw parameter value pushed by the transport: a JavaScript number or boolean. */
  datatype Datum = Num(x: real) | Bit(b: bool)

  /** A capability value as the platform stores it. */
  datatype Value = Number(x: real) | Flag(b: bool) | Text(s: string)

  /** One pushed parameter: its identifier and its value (the unit is not used). */
  datatype Param = Param(id: ParamId, value: Datum)

  const Modes: set<string> := {"demand", "program", "manual"}

  // ---------------------------------------------------------------------------
  // Operating mode

  /** The numeric code sent for a `fan_mode` capability write (device.ts:33-47). */
  function ModeCode(value: string): (code: int)
    ensures 0 <= code <= 2
    ensures code == 1 <==> value == "program"
    ensures code == 2 <==> value == "manual"
    ensures value !in Modes ==> code == 0
  {
    match value
    case "demand" => 0
    case "program" => 1
    case "manual" => 2
    case _ => 0
  }

  /**
   * The `fan_mode` value for an inbound `operation_mode` parameter (device.ts:226-237).
   * The source compares with `===`, so only the numbers 1 and 2 select a non-default mode.
   */
  function ModeName(value: Datum): (mode: string)
    ensures mode in Modes
    ensures mode == "program" <==> value == Num(1.0)
    ensures mode == "manual" <==> value == Num(2.0)
  {
    if value == Num(1.0) then "program"
    else if value == Num(2.0) then "manual"
    else "demand"
  }

  /** Writing a named mode and reading back its code gives the same mode. */
  lemma ModeNameOfModeCode(mode: string)
    requires mode in Modes
    ensures ModeName(Num(ModeCode(mode) as real)) == mode
  {
  }

  /** Reading a code in 0..2 and writing back the mode gives the same code. */
  lemma ModeCodeOfModeName(code: int)
    requires 0 <= code <= 2
    ensures ModeCode(ModeName(Num(code as real))) == code
  {
  }

  // ---------------------------------------------------------------------------
  // Fan step

  function Min(a: int, b: int): int { if a <= b then a else b }
  function Max(a: int, b: int): int { if a <= b then b else a }

  /**
   * The unit step sent for a `fan_speed.step` capability write:
   * `Math.min(10, Math.max(1, Math.floor(value / 10)))` (device.ts:60).
   */
  function StepFromPercent(value: real): (step: int)
    ensures 1 <= step <= 10
    ensures value < 20.0 ==> step == 1
    ensures 100.0 <= value ==> step == 10
    ensures 10.0 <= value < 110.0 ==>
              step as real * 10.0 <= value < step as real * 10.0 + 10.0
  {
    Min(10, Max(1, (value / 10.0).Floor))
  }

  /**
   * The number `value * 10` that JavaScript computes for a cached or pushed step
   * (device.ts:212, 259); a boolean is coerced to 0 or 1 first.
   */
  function TimesTen(value: Datum): (r: real)
  {
    match value
    case Num(x) => x * 10.0
    case Bit(b) => if b then 10.0 else 0.0
  }

  /** JavaScript truthiness of a pushed value (NaN is not modelled). */
  predicate Truthy(value: Datum)
  {
    match value
    case Num(x) => x != 0.0
    case Bit(b) => b
  }

  /** A step in 1..10 shown as `step * 10` and written back sends the same step. */
  lemma StepRoundTrip(step: int)
    requires 1 <= step <= 10
    ensures TimesTen(Num(step as real)) == step as real * 10.0
    ensures StepFromPercent(TimesTen(Num(step as real))) == step
  {
  }

  // ---------------------------------------------------------------------------
  // Serial number (device.ts:194), on 32-bit patterns held as naturals below 2^32

  const TwoTo16: nat := 0x1_0000
  const TwoTo31: nat := 0x8000_0000
  const TwoTo32: nat := 0x1_0000_0000

  function Pow2(k: nat): (p: nat)
    ensures p >= 1
  {
    if k == 0 then 1 else 2 * Pow2(k - 1)
  }

  /** Bitwise OR of two naturals, bit by bit from the lowest. */
  function BitOr(a: nat, b: nat): nat
  {
    if a == 0 then b
    else if b == 0 then a
    else 2 * BitOr(a / 2, b / 2) + (if a % 2 == 1 || b % 2 == 1 then 1 else 0)
  }

  /** Bitwise AND of two naturals, bit by bit from the lowest. */
  function BitAnd(a: nat, b: nat): nat
  {
    if a == 0 || b == 0 then 0
    else 2 * BitAnd(a / 2, b / 2) + (if a % 2 == 1 && b % 2 == 1 then 1 else 0)
  }

  /** Truncation toward zero, as JavaScript's ToInt32 does before wrapping. */
  function Truncate(x: real): (n: int)
    ensures 0.0 <= x ==> n as real <= x < n as real + 1.0
    ensures x < 0.0 ==> n as real - 1.0 < x <= n as real
  {
    if 0.0 <= x then x.Floor else -((-x).Floor)
  }

  /** The 32-bit pattern JavaScript's ToInt32 gives a pushed value (NaN and infinities not modelled). */
  function ToUint32(value: Datum): (u: nat)
    ensures u < TwoTo32
  {
    match value
    case Num(x) => Truncate(x) % TwoTo32
    case Bit(b) => if b then 1 else 0
  }

  /** `<< 16` on a 32-bit pattern: bits shifted out at the top are lost. */
  function ShiftLeft16(u: nat): nat
  {
    (u * TwoTo16) % TwoTo32
  }

  /** The signed 32-bit number a pattern stands for, as JavaScript's bitwise operators return it. */
  function FromInt32(u: nat): (n: int)
    requires u < TwoTo32
    ensures -(TwoTo31 as int) <= n < TwoTo31
    ensures n % TwoTo32 == u
  {
    if u < TwoTo31 then u else u - TwoTo32
  }

  /** OR-ing a value below 2^k into a multiple of 2^k is addition. */
  lemma {:induction false} BitOrDisjoint(k: nat, a: nat, b: nat)
    requires b < Pow2(k)
    ensures BitOr(a * Pow2(k), b) == a * Pow2(k) + b
  {
    if k == 0 {
      assert b == 0;
    } else if a == 0 || b == 0 {
    } else {
      var p := Pow2(k - 1);
      assert a * Pow2(k) == 2 * (a * p);
      assert (a * Pow2(k)) / 2 == a * p && (a * Pow2(k)) % 2 == 0;
      BitOrDisjoint(k - 1, a, b / 2);
    }
  }

  /** AND with the mask 2^k - 1 keeps the value modulo 2^k. */
  lemma {:induction false} BitAndLowMask(k: nat, u: nat)
    ensures BitAnd(u, Pow2(k) - 1) == u % Pow2(k)
  {
    if k == 0 || u == 0 {
    } else {
      var p := Pow2(k - 1);
      assert (Pow2(k) - 1) / 2 == p - 1 && (Pow2(k) - 1) % 2 == 1;
      BitAndLowMask(k - 1, u / 2);
      DivModTwo(u, p);
    }
  }

  /** A quotient and a remainder in range are the quotient and remainder. */
  lemma DivModUnique(u: int, m: int, q: int, r: int)
    requires m > 0 && 0 <= r < m && u == q * m + r
    ensures u / m == q && u % m == r
  {
    var q', r' := u / m, u % m;
    assert (q - q') * m == r' - r;
    if q > q' {
      assert (q - q') * m >= m by { MulAtLeast(q - q', m); }
    } else if q < q' {
      assert (q' - q) * m >= m by { MulAtLeast(q' - q, m); }
    }
  }

  lemma MulAtLeast(a: int, m: int)
    requires a >= 1 && m > 0
    ensures a * m >= m
  {
  }

  /** Splitting off the lowest bit commutes with reduction modulo 2p. */
  lemma DivModTwo(u: nat, p: nat)
    requires p >= 1
    ensures u % (2 * p) == 2 * ((u / 2) % p) + u % 2
  {
    var q := (u / 2) / p;
    var r := (u / 2) % p;
    assert u == 2 * (u / 2) + u % 2;
    assert u / 2 == q * p + r;
    assert u == q * (2 * p) + (2 * r + u % 2);
    DivModUnique(u, 2 * p, q, 2 * r + u % 2);
  }

  /** Shifting a pattern left by 16 keeps its low 16 bits, now in the high half. */
  lemma ShiftLeft16Low(u: nat)
    ensures ShiftLeft16(u) == (u % TwoTo16) * TwoTo16
  {
    var q := u / TwoTo16;
    var r := u % TwoTo16;
    assert u == q * TwoTo16 + r;
    assert u * TwoTo16 == q * TwoTo32 + r * TwoTo16;
    DivModUnique(u * TwoTo16, TwoTo32, q, r * TwoTo16);
  }

  /**
   * The pattern of `(high << 16) | (low & 0xFFFF)` (device.ts:194): the high word's
   * low 16 bits followed by the low word's low 16 bits.
   */
  function SerialPattern(high: Datum, low: Datum): (u: nat)
    ensures u == (ToUint32(high) % TwoTo16) * TwoTo16 + ToUint32(low) % TwoTo16
    ensures u < TwoTo32
  {
    assert Pow2(16) == TwoTo16 by {
      assert Pow2(4) == 16;
      assert Pow2(8) == 256;
      assert Pow2(12) == 4096;
    }
    ShiftLeft16Low(ToUint32(high));
    BitAndLowMask(16, ToUint32(low));
    BitOrDisjoint(16, ToUint32(high) % TwoTo16, ToUint32(low) % TwoTo16);
    BitOr(ShiftLeft16(ToUint32(high)), BitAnd(ToUint32(low), 0xFFFF))
  }

  /**
   * The serial number the source computes and logs: a signed 32-bit number whose
   * high half is the high word's low 16 bits and whose low half is `low & 0xFFFF`.
   */
  function SerialNumber(high: Datum, low: Datum): (serial: int)
    ensures -(TwoTo31 as int) <= serial < TwoTo31
    ensures serial % TwoTo32 / TwoTo16 == ToUint32(high) % TwoTo16
    ensures serial % TwoTo16 == ToUint32(low) % TwoTo16
  {
    var u := SerialPattern(high, low);
    var hi, lo := ToUint32(high) % TwoTo16, ToUint32(low) % TwoTo16;
    var n := FromInt32(u);
    DivModUnique(u, TwoTo16, hi, lo);
    assert n % TwoTo16 == lo by {
      if n != u {
        assert n == (hi - TwoTo16) * TwoTo16 + lo;
        DivModUnique(n, TwoTo16, hi - TwoTo16, lo);
      }
    }
    n
  }

  /** The worked example: words 0x1234 and 0xABCD give 0x1234ABCD. */
  lemma SerialExample()
    ensures SerialNumber(Num(0x1234 as real), Num(0xABCD as real)) == 0x1234ABCD
  {
    var high, low := Num(0x1234 as real), Num(0xABCD as real);
    assert ToUint32(high) == 0x1234;
    assert ToUint32(low) == 0xABCD;
    assert SerialPattern(high, low) == 0x1234ABCD;
  }

  // ---------------------------------------------------------------------------
  // Inbound dispatch table (device.ts:220-305)

  /** The parameter identifiers the transport pushes; any other identifier is `OtherId`. */
  datatype ParamId =
    | HumidityMeasuredRelative | OperationMode | Bypass | AutomaticBypass | Boost | FanStep
    | FanspeedSupplyActual | FanspeedExtractActual | BatteryIndicationPercent | FilterRemaining
    | TemperatureRoom | TemperatureRoomCalc | DefrostStatus | TemperatureOutdoor
    | TemperatureSupply | TemperatureExtract | TemperatureExhaust
    | TotalRunningMinutes | UnitHardwareRevision | UnitSoftwareRevision
    | OtherId(name: string)

  /** The platform capabilities the driver exposes. */
  datatype Capability =
    | FanMode | FanSpeedStep | OnoffBoost | OnoffBypass | OnoffAutomaticBypass
    | MeasureHumidity | MeasureRpmSupply | MeasureRpmExtract | MeasureBattery | MeasureHepaFilter
    | MeasureTemperatureInside | MeasureTemperatureInsideCalculated | AlarmGenericDefrosting
    | MeasureTemperatureOutdoor | MeasureTemperatureSupply | MeasureTemperatureExtract
    | MeasureTemperatureExhaust

  /** Where an inbound parameter goes. */
  datatype Route =
    | CopyTo(cap: Capability)   // the value is copied verbatim into this capability
    | ToFanMode                 // translated into `fan_mode`, subject to the debounce
    | ToFanStep                 // cached, and scaled into `fan_speed.step`
    | Ignored                   // known but unused
    | Logged                    // unknown: only logged

  const IgnoredIds: set<ParamId> := {TotalRunningMinutes, UnitHardwareRevision, UnitSoftwareRevision}

  function RouteOf(id: ParamId): (r: Route)
    ensures r == ToFanMode <==> id == OperationMode
    ensures r == ToFanStep <==> id == FanStep
    ensures r == Ignored <==> id in IgnoredIds
    ensures r == Logged <==> id.OtherId?
    ensures r.CopyTo? ==> r.cap != FanMode && r.cap != FanSpeedStep
  {
    match id
    case HumidityMeasuredRelative => CopyTo(MeasureHumidity)
    case OperationMode => ToFanMode
    case Bypass => CopyTo(OnoffBypass)
    case AutomaticBypass => CopyTo(OnoffAutomaticBypass)
    case Boost => CopyTo(OnoffBoost)
    case FanStep => ToFanStep
    case FanspeedSupplyActual => CopyTo(MeasureRpmSupply)
    case FanspeedExtractActual => CopyTo(MeasureRpmExtract)
    case BatteryIndicationPercent => CopyTo(MeasureBattery)
    case FilterRemaining => CopyTo(MeasureHepaFilter)
    case TemperatureRoom => CopyTo(MeasureTemperatureInside)
    case TemperatureRoomCalc => CopyTo(MeasureTemperatureInsideCalculated)
    case DefrostStatus => CopyTo(AlarmGenericDefrosting)
    case TemperatureOutdoor => CopyTo(MeasureTemperatureOutdoor)
    case TemperatureSupply => CopyTo(MeasureTemperatureSupply)
    case TemperatureExtract => CopyTo(MeasureTemperatureExtract)
    case TemperatureExhaust => CopyTo(MeasureTemperatureExhaust)
    case TotalRunningMinutes => Ignored
    case UnitHardwareRevision => Ignored
    case UnitSoftwareRevision => Ignored
    case OtherId(_) => Logged
  }

  /** Distinct parameters never write the same capability. */
  lemma RoutesInjective(a: ParamId, b: ParamId)
    requires RouteOf(a).CopyTo? && RouteOf(a) == RouteOf(b)
    ensures a == b
  {
  }
}

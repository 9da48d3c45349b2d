/** The four device state machines (src/simulator/devices.rs). A Rust `tick`
    that mutates `self` is a function from the old record to the new one;
    each random draw it makes is an explicit noise argument. */
module Devices {
  import opened Physics

  // ---------------------------------------------------------------- Boiler

  datatype BoilerStatus = Off | Heating | Steady | Overheat

  datatype Boiler = Boiler(
    id: string,
    temperature: real,
    targetTemperature: real,
    pressure: real,
    status: BoilerStatus)

  /** Degrees per second moved toward the target while ramping. */
  const RampRate: real := 5.0
  /** Within this distance of the target the temperature snaps onto it. */
  const SnapBand: real := 0.1
  const MinTemperature: real := 0.0
  const MaxTemperature: real := 150.0
  const OverheatAbove: real := 120.0
  const OffBelow: real := 10.0
  /** Percent bound of the noise on the boiler pressure. */
  const BoilerNoise: real := 2.0

  function NewBoiler(id: string, targetTemperature: real): (b: Boiler)
    ensures b.id == id && b.targetTemperature == targetTemperature
    ensures b.temperature == 20.0 && b.pressure == 0.0 && b.status == Off
  {
    Boiler(id, 20.0, targetTemperature, 0.0, Off)
  }

  /** True when a tick of `b` takes the ramp branch rather than snapping. */
  predicate Ramping(b: Boiler)
  {
    Abs(b.targetTemperature - b.temperature) > SnapBand
  }

  predicate TemperatureInRange(t: real)
  {
    MinTemperature <= t <= MaxTemperature
  }

  /** One boiler tick of `dt` seconds with pressure noise draw `u`. */
  function BoilerTick(b: Boiler, dt: real, u: real): (r: Boiler)
    requires NoiseIn(u, BoilerNoise)
    ensures r.id == b.id && r.targetTemperature == b.targetTemperature
    // ramp branch: a step of RampRate*dt toward the target, clamped to [0, 150]
    ensures Ramping(b) && b.temperature < b.targetTemperature ==>
              r.temperature == Clamp(b.temperature + RampRate * dt, MinTemperature, MaxTemperature)
    ensures Ramping(b) && b.temperature > b.targetTemperature ==>
              r.temperature == Clamp(b.temperature - RampRate * dt, MinTemperature, MaxTemperature)
    // snap branch: exactly the target
    ensures !Ramping(b) ==> r.temperature == b.targetTemperature
    ensures TemperatureInRange(b.targetTemperature) ==> TemperatureInRange(r.temperature)
    // the status is derived from the final temperature and the branch taken
    ensures r.status == Overheat <==> r.temperature > OverheatAbove
    ensures r.status == Off <==> r.temperature < OffBelow
    ensures r.status == Heating <==> OffBelow <= r.temperature <= OverheatAbove && Ramping(b)
    ensures r.status == Steady <==> OffBelow <= r.temperature <= OverheatAbove && !Ramping(b)
    // the pressure follows the already-updated temperature
    ensures r.pressure == AddNoise(TemperatureToPressure(r.temperature), BoilerNoise, u)
    ensures r.temperature >= 0.0 ==>
              0.98 * (r.temperature / 20.0) <= r.pressure <= 1.02 * (r.temperature / 20.0)
  {
    var tempDiff := b.targetTemperature - b.temperature;
    var ramped :=
      if Abs(tempDiff) > SnapBand then
        var change := Signum(tempDiff) * RampRate * dt;
        b.(temperature := Clamp(b.temperature + change, MinTemperature, MaxTemperature),
           status := Heating)
      else
        b.(temperature := b.targetTemperature, status := Steady);
    var checked :=
      if ramped.temperature > OverheatAbove then ramped.(status := Overheat)
      else if ramped.temperature < OffBelow then ramped.(status := Off)
      else ramped;
    checked.(pressure := AddNoise(TemperatureToPressure(checked.temperature), BoilerNoise, u))
  }

  /** From a temperature and target within [0, 150], a ramp step no longer
      than the remaining distance ends no farther than the target, exactly
      `RampRate * dt` closer to it: the ramp never overshoots. */
  lemma BoilerRampApproachesTarget(b: Boiler, dt: real, u: real)
    requires NoiseIn(u, BoilerNoise)
    requires TemperatureInRange(b.temperature) && TemperatureInRange(b.targetTemperature)
    requires Ramping(b) && 0.0 <= RampRate * dt <= Abs(b.targetTemperature - b.temperature)
    ensures Abs(b.targetTemperature - BoilerTick(b, dt, u).temperature)
            == Abs(b.targetTemperature - b.temperature) - RampRate * dt
  {
  }

  // --------------------------------------------------------- PressureMeter

  datatype MeterStatus = Normal | Warning | Critical

  datatype PressureMeter = PressureMeter(id: string, pressure: real, status: MeterStatus)

  const CriticalAbove: real := 4.5
  const WarningAbove: real := 3.5
  const MeterNoise: real := 1.0

  function NewPressureMeter(id: string): (m: PressureMeter)
    ensures m.id == id && m.pressure == 0.0 && m.status == MeterStatus.Normal
  {
    PressureMeter(id, 0.0, MeterStatus.Normal)
  }

  /** One meter tick: the upstream pressure with 1% noise, then the status. */
  function MeterTick(m: PressureMeter, upstreamPressure: real, u: real): (r: PressureMeter)
    requires NoiseIn(u, MeterNoise)
    ensures r.id == m.id
    ensures r.pressure == AddNoise(upstreamPressure, MeterNoise, u)
    // the reading is within 1% of a non-negative upstream pressure
    ensures upstreamPressure >= 0.0 ==>
              0.99 * upstreamPressure <= r.pressure <= 1.01 * upstreamPressure
    ensures r.status == Critical <==> r.pressure > CriticalAbove
    ensures r.status == Warning <==> WarningAbove < r.pressure <= CriticalAbove
    ensures r.status == MeterStatus.Normal <==> r.pressure <= WarningAbove
  {
    var pressure := AddNoise(upstreamPressure, MeterNoise, u);
    var status :=
      if pressure > CriticalAbove then Critical
      else if pressure > WarningAbove then Warning
      else MeterStatus.Normal;
    m.(pressure := pressure, status := status)
  }

  // ------------------------------------------------------------- FlowMeter

  datatype FlowMeterStatus = Normal | Low | High

  datatype FlowMeter = FlowMeter(
    id: string,
    flowRate: real,
    totalVolume: real,
    status: FlowMeterStatus)

  const HighAbove: real := 40.0
  const LowBelow: real := 5.0
  const FlowNoise: real := 2.0
  /** Flow rates are per minute, ticks are in seconds. */
  const SecondsPerMinute: real := 60.0

  function NewFlowMeter(id: string): (f: FlowMeter)
    ensures f.id == id && f.flowRate == 0.0 && f.totalVolume == 0.0
    ensures f.status == FlowMeterStatus.Normal
  {
    FlowMeter(id, 0.0, 0.0, FlowMeterStatus.Normal)
  }

  /** One flow-meter tick: noisy flow from pressure and valve position, then
      the volume accumulated over `dt` seconds, then the status. */
  function FlowMeterTick(f: FlowMeter, dt: real, upstreamPressure: real, valvePosition: real, u: real)
    : (r: FlowMeter)
    requires NoiseIn(u, FlowNoise)
    ensures r.id == f.id
    ensures r.flowRate == AddNoise(CalculateFlowRate(upstreamPressure, valvePosition), FlowNoise, u)
    ensures r.totalVolume - f.totalVolume == r.flowRate * dt / SecondsPerMinute
    ensures upstreamPressure >= 0.0 && valvePosition >= 0.0 ==> r.flowRate >= 0.0
    // the reading is within 2% of the flow the pressure and position give
    ensures upstreamPressure >= 0.0 && valvePosition >= 0.0 ==>
              0.98 * CalculateFlowRate(upstreamPressure, valvePosition) <= r.flowRate
              <= 1.02 * CalculateFlowRate(upstreamPressure, valvePosition)
    ensures upstreamPressure >= 0.0 && valvePosition >= 0.0 && dt >= 0.0 ==>
              r.totalVolume >= f.totalVolume
    ensures r.status == High <==> r.flowRate > HighAbove
    ensures r.status == Low <==> r.flowRate < LowBelow
    ensures r.status == FlowMeterStatus.Normal <==> LowBelow <= r.flowRate <= HighAbove
  {
    var flowRate := AddNoise(CalculateFlowRate(upstreamPressure, valvePosition), FlowNoise, u);
    var volume := f.totalVolume + flowRate * dt / SecondsPerMinute;
    assert flowRate >= 0.0 && dt >= 0.0 ==> flowRate * dt >= 0.0;
    var status :=
      if flowRate > HighAbove then High
      else if flowRate < LowBelow then Low
      else FlowMeterStatus.Normal;
    f.(flowRate := flowRate, totalVolume := volume, status := status)
  }

  // ----------------------------------------------------------------- Valve

  datatype ValveMode = Manual | Auto

  datatype ValveStatus = Open | Closed | Partial | Fault

  datatype Valve = Valve(id: string, position: real, mode: ValveMode, status: ValveStatus)

  /** Pressure the automatic valve regulates toward, and its dead band. */
  const TargetPressure: real := 3.0
  const DeadBand: real := 0.5
  const PositionStep: real := 0.02
  const OpenAbove: real := 0.8
  const ClosedBelow: real := 0.2

  function NewValve(id: string): (v: Valve)
    ensures v.id == id && v.position == 0.5 && v.mode == Auto && v.status == Partial
  {
    Valve(id, 0.5, Auto, Partial)
  }

  predicate PositionInRange(p: real)
  {
    0.0 <= p <= 1.0
  }

  /** One valve tick: in Auto mode open by a step above the dead band and close
      by a step below it, bounded to [0, 1]; then derive the status. */
  function ValveTick(v: Valve, upstreamPressure: real): (r: Valve)
    ensures r.id == v.id && r.mode == v.mode
    ensures v.mode == Manual ==> r.position == v.position
    ensures v.mode == Auto && upstreamPressure > TargetPressure + DeadBand ==>
              r.position == Min(v.position + PositionStep, 1.0)
    ensures v.mode == Auto && upstreamPressure < TargetPressure - DeadBand ==>
              r.position == Max(v.position - PositionStep, 0.0)
    ensures TargetPressure - DeadBand <= upstreamPressure <= TargetPressure + DeadBand ==>
              r.position == v.position
    ensures PositionInRange(v.position) ==> PositionInRange(r.position)
    ensures r.status != Fault
    ensures r.status == Open <==> r.position > OpenAbove
    ensures r.status == Closed <==> r.position < ClosedBelow
    ensures r.status == Partial <==> ClosedBelow <= r.position <= OpenAbove
  {
    var position :=
      if v.mode == Auto then
        if upstreamPressure > TargetPressure + DeadBand then Min(v.position + PositionStep, 1.0)
        else if upstreamPressure < TargetPressure - DeadBand then Max(v.position - PositionStep, 0.0)
        else v.position
      else v.position;
    var status :=
      if position > OpenAbove then Open
      else if position < ClosedBelow then Closed
      else Partial;
    v.(position := position, status := status)
  }

  /** Position of a valve after one tick per upstream pressure, in order. */
  function ValveTicks(v: Valve, pressures: seq<real>): Valve
    decreases |pressures|
  {
    if |pressures| == 0 then v
    else ValveTicks(ValveTick(v, pressures[0]), pressures[1..])
  }

  /** Any number of ticks leaves a Manual valve's position, id and mode alone. */
  lemma {:induction false} ManualValveHoldsPosition(v: Valve, pressures: seq<real>)
    requires v.mode == Manual
    ensures ValveTicks(v, pressures).position == v.position
    ensures ValveTicks(v, pressures).id == v.id
    ensures ValveTicks(v, pressures).mode == Manual
    decreases |pressures|
  {
    if |pressures| > 0 {
      ManualValveHoldsPosition(ValveTick(v, pressures[0]), pressures[1..]);
    }
  }

  /** A valve in either mode never leaves [0, 1], whatever pressures it sees. */
  lemma {:induction false} ValveStaysInRange(v: Valve, pressures: seq<real>)
    requires PositionInRange(v.position)
    ensures PositionInRange(ValveTicks(v, pressures).position)
    decreases |pressures|
  {
    if |pressures| > 0 {
      ValveStaysInRange(ValveTick(v, pressures[0]), pressures[1..]);
    }
  }

  // ------------------------------------------------- Debug variant names

  /** `format!("{:?}", status)`: the variant name. */
  function BoilerStatusName(s: BoilerStatus): string
  {
    match s
    case Off => "Off"
    case Heating => "Heating"
    case Steady => "Steady"
    case Overheat => "Overheat"
  }

  function MeterStatusName(s: MeterStatus): string
  {
    match s
    case Normal => "Normal"
    case Warning => "Warning"
    case Critical => "Critical"
  }

  function FlowMeterStatusName(s: FlowMeterStatus): string
  {
    match s
    case Normal => "Normal"
    case Low => "Low"
    case High => "High"
  }

  function ValveModeName(m: ValveMode): string
  {
    match m
    case Manual => "Manual"
    case Auto => "Auto"
  }

  function ValveStatusName(s: ValveStatus): string
  {
    match s
    case Open => "Open"
    case Closed => "Closed"
    case Partial => "Partial"
    case Fault => "Fault"
  }
}

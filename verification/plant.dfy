/** The plant topology engine (src/simulator/plant.rs): five named devices
    ticked once each, in the fixed order of the plant flow. */
module Plant {
  import opened Physics
  import opened Devices

  datatype Plant = Plant(
    boiler1: Boiler,
    boiler2: Boiler,
    pressureMeter1: PressureMeter,
    flowMeter1: FlowMeter,
    valve1: Valve)

  /** `DeviceState`, the untagged enum of the published snapshot. */
  datatype DeviceState =
    | BoilerState(boiler: Boiler)
    | PressureMeterState(pressureMeter: PressureMeter)
    | FlowMeterState(flowMeter: FlowMeter)
    | ValveState(valve: Valve)
  {
    function Id(): string
    {
      match this
      case BoilerState(b) => b.id
      case PressureMeterState(m) => m.id
      case FlowMeterState(f) => f.id
      case ValveState(v) => v.id
    }
  }

  /** `PlantState`: device id to device record. */
  datatype PlantState = PlantState(devices: map<string, DeviceState>)

  const Boiler1Id: string := "boiler-1"
  const Boiler2Id: string := "boiler-2"
  const PressureMeter1Id: string := "pressure-meter-1"
  const FlowMeter1Id: string := "flow-meter-1"
  const Valve1Id: string := "valve-1"

  function DeviceIds(): set<string>
  {
    {Boiler1Id, Boiler2Id, PressureMeter1Id, FlowMeter1Id, Valve1Id}
  }

  /** The five ids are pairwise different. */
  lemma DeviceIdsDistinct()
    ensures Boiler1Id != Boiler2Id && Boiler1Id != PressureMeter1Id
    ensures Boiler1Id != FlowMeter1Id && Boiler1Id != Valve1Id
    ensures Boiler2Id != PressureMeter1Id && Boiler2Id != FlowMeter1Id && Boiler2Id != Valve1Id
    ensures PressureMeter1Id != FlowMeter1Id && PressureMeter1Id != Valve1Id
    ensures FlowMeter1Id != Valve1Id
    ensures |DeviceIds()| == 5
  {
    assert Boiler1Id[7] != Boiler2Id[7];
  }

  /** The random draws of one plant tick: one per noisy device. */
  datatype TickNoise = TickNoise(boiler1: real, pressureMeter1: real, flowMeter1: real, boiler2: real)

  predicate ValidNoise(n: TickNoise)
  {
    && NoiseIn(n.boiler1, BoilerNoise)
    && NoiseIn(n.pressureMeter1, MeterNoise)
    && NoiseIn(n.flowMeter1, FlowNoise)
    && NoiseIn(n.boiler2, BoilerNoise)
  }

  /** Every device carries the id it was constructed with. */
  predicate StandardIds(p: Plant)
  {
    && p.boiler1.id == Boiler1Id
    && p.boiler2.id == Boiler2Id
    && p.pressureMeter1.id == PressureMeter1Id
    && p.flowMeter1.id == FlowMeter1Id
    && p.valve1.id == Valve1Id
  }

  /** What every reachable plant satisfies: the constructor's ids, boiler
      temperatures and targets within [0, 150], valve position within [0, 1]. */
  predicate Valid(p: Plant)
  {
    && StandardIds(p)
    && TemperatureInRange(p.boiler1.temperature)
    && TemperatureInRange(p.boiler1.targetTemperature)
    && TemperatureInRange(p.boiler2.temperature)
    && TemperatureInRange(p.boiler2.targetTemperature)
    && PositionInRange(p.valve1.position)
  }

  function New(): (p: Plant)
    ensures Valid(p)
    ensures p.boiler1.targetTemperature == 85.0 && p.boiler2.targetTemperature == 75.0
    ensures p.boiler1.temperature == 20.0 && p.boiler2.temperature == 20.0
    ensures p.valve1.position == 0.5 && p.valve1.mode == Auto && p.valve1.status == Partial
    ensures p.flowMeter1.totalVolume == 0.0
  {
    Plant(
      NewBoiler(Boiler1Id, 85.0),
      NewBoiler(Boiler2Id, 75.0),
      NewPressureMeter(PressureMeter1Id),
      NewFlowMeter(FlowMeter1Id),
      NewValve(Valve1Id))
  }

  /** One plant tick in topology order
        Boiler 1 -> Pressure Meter 1 -> Valve 1 -> Flow Meter 1 -> Boiler 2,
      each downstream device reading this tick's upstream outputs. */
  function Tick(p: Plant, dt: real, n: TickNoise): (r: Plant)
    requires ValidNoise(n)
    ensures StandardIds(p) ==> StandardIds(r)
    ensures Valid(p) ==> Valid(r)
    // the meter reads within 1% of the pressure boiler 1 has just produced
    ensures r.boiler1.pressure >= 0.0 ==>
              0.99 * r.boiler1.pressure <= r.pressureMeter1.pressure <= 1.01 * r.boiler1.pressure
    // the flow is within 2% of what this tick's pressure and valve position give
    ensures Valid(p) ==>
              0.98 * CalculateFlowRate(r.boiler1.pressure, r.valve1.position) <= r.flowMeter1.flowRate
              <= 1.02 * CalculateFlowRate(r.boiler1.pressure, r.valve1.position)
    ensures Valid(p) && dt >= 0.0 ==> r.flowMeter1.totalVolume >= p.flowMeter1.totalVolume
  {
    var b1 := BoilerTick(p.boiler1, dt, n.boiler1);
    var pm := MeterTick(p.pressureMeter1, b1.pressure, n.pressureMeter1);
    var v := ValveTick(p.valve1, b1.pressure);
    var fm := FlowMeterTick(p.flowMeter1, dt, b1.pressure, v.position, n.flowMeter1);
    var b2 := BoilerTick(p.boiler2, dt, n.boiler2);
    assert Valid(p) ==> b1.pressure >= 0.0 && v.position >= 0.0;
    Plant(b1, b2, pm, fm, v)
  }

  // ------------------------------------------------ topology as a schedule

  /** The five device positions of the plant. */
  datatype Slot = Boiler1Slot | PressureMeter1Slot | Valve1Slot | FlowMeter1Slot | Boiler2Slot

  /** The order of `Plant::tick`, following the plant flow. */
  const TopologyOrder: seq<Slot> :=
    [Boiler1Slot, PressureMeter1Slot, Valve1Slot, FlowMeter1Slot, Boiler2Slot]

  function DeviceAt(p: Plant, s: Slot): DeviceState
  {
    match s
    case Boiler1Slot => BoilerState(p.boiler1)
    case PressureMeter1Slot => PressureMeterState(p.pressureMeter1)
    case Valve1Slot => ValveState(p.valve1)
    case FlowMeter1Slot => FlowMeterState(p.flowMeter1)
    case Boiler2Slot => BoilerState(p.boiler2)
  }

  /** Ticks the single device at `s`, feeding it the CURRENT state of its
      upstream neighbours in `p`: boiler 1's pressure for the meter and the
      valve, that pressure and the valve position for the flow meter, nothing
      for either boiler. */
  function Step(p: Plant, s: Slot, dt: real, n: TickNoise): (r: Plant)
    requires ValidNoise(n)
    ensures forall t :: t != s ==> DeviceAt(r, t) == DeviceAt(p, t)
  {
    match s
    case Boiler1Slot => p.(boiler1 := BoilerTick(p.boiler1, dt, n.boiler1))
    case PressureMeter1Slot =>
      p.(pressureMeter1 := MeterTick(p.pressureMeter1, p.boiler1.pressure, n.pressureMeter1))
    case Valve1Slot => p.(valve1 := ValveTick(p.valve1, p.boiler1.pressure))
    case FlowMeter1Slot =>
      p.(flowMeter1 := FlowMeterTick(p.flowMeter1, dt, p.boiler1.pressure, p.valve1.position, n.flowMeter1))
    case Boiler2Slot => p.(boiler2 := BoilerTick(p.boiler2, dt, n.boiler2))
  }

  /** Steps the slots of `order`, first to last. */
  function RunSchedule(p: Plant, order: seq<Slot>, dt: real, n: TickNoise): Plant
    requires ValidNoise(n)
    decreases |order|
  {
    if |order| == 0 then p else RunSchedule(Step(p, order[0], dt, n), order[1..], dt, n)
  }

  /** The schedule names every slot exactly once: each device is ticked once. */
  lemma TopologyOrderVisitsEachSlotOnce(s: Slot)
    ensures multiset(TopologyOrder)[s] == 1
  {
  }

  /** `Tick` is the schedule `TopologyOrder` of single-device steps, so every
      device is ticked once and every edge carries the same-tick upstream value. */
  lemma TickFollowsTopology(p: Plant, dt: real, n: TickNoise)
    requires ValidNoise(n)
    ensures Tick(p, dt, n) == RunSchedule(p, TopologyOrder, dt, n)
  {
    var p1 := Step(p, Boiler1Slot, dt, n);
    var p2 := Step(p1, PressureMeter1Slot, dt, n);
    var p3 := Step(p2, Valve1Slot, dt, n);
    var p4 := Step(p3, FlowMeter1Slot, dt, n);
    var p5 := Step(p4, Boiler2Slot, dt, n);
    calc {
      RunSchedule(p, TopologyOrder, dt, n);
      RunSchedule(p1, TopologyOrder[1..], dt, n);
      { assert TopologyOrder[1..][1..] == TopologyOrder[2..]; }
      RunSchedule(p2, TopologyOrder[2..], dt, n);
      { assert TopologyOrder[2..][1..] == TopologyOrder[3..]; }
      RunSchedule(p3, TopologyOrder[3..], dt, n);
      { assert TopologyOrder[3..][1..] == TopologyOrder[4..]; }
      RunSchedule(p4, TopologyOrder[4..], dt, n);
      { assert TopologyOrder[4..][1..] == []; }
      RunSchedule(p5, [], dt, n);
    }
  }

  /** The downstream devices of one tick read this tick's outputs, never the
      previous tick's. */
  lemma TickReadsSameTickUpstream(p: Plant, dt: real, n: TickNoise)
    requires ValidNoise(n)
    ensures var r := Tick(p, dt, n);
      && r.pressureMeter1 == MeterTick(p.pressureMeter1, r.boiler1.pressure, n.pressureMeter1)
      && r.valve1 == ValveTick(p.valve1, r.boiler1.pressure)
      && r.flowMeter1
         == FlowMeterTick(p.flowMeter1, dt, r.boiler1.pressure, r.valve1.position, n.flowMeter1)
  {
  }

  /** Boiler 2 has no upstream edge: its tick depends only on its own state,
      `dt` and its own noise draw. */
  lemma Boiler2Isolated(p: Plant, q: Plant, dt: real, n: TickNoise, m: TickNoise)
    requires ValidNoise(n) && ValidNoise(m)
    requires p.boiler2 == q.boiler2 && n.boiler2 == m.boiler2
    ensures Tick(p, dt, n).boiler2 == Tick(q, dt, m).boiler2
  {
  }

  // ------------------------------------------------------ runs of ticks

  predicate AllValidNoise(ns: seq<TickNoise>)
  {
    forall i :: 0 <= i < |ns| ==> ValidNoise(ns[i])
  }

  /** The plant after one tick per element of `ns`, each of `dt` seconds. */
  function Run(p: Plant, dt: real, ns: seq<TickNoise>): Plant
    requires AllValidNoise(ns)
    decreases |ns|
  {
    if |ns| == 0 then p else Tick(Run(p, dt, ns[..|ns| - 1]), dt, ns[|ns| - 1])
  }

  /** Every run of ticks keeps the plant valid and, with `dt >= 0`, never
      lowers the flow meter's total volume. */
  lemma {:induction false} RunPreservesValid(p: Plant, dt: real, ns: seq<TickNoise>)
    requires Valid(p) && AllValidNoise(ns)
    ensures Valid(Run(p, dt, ns))
    ensures dt >= 0.0 ==> Run(p, dt, ns).flowMeter1.totalVolume >= p.flowMeter1.totalVolume
    decreases |ns|
  {
    if |ns| > 0 {
      var prefix := ns[..|ns| - 1];
      assert AllValidNoise(prefix);
      RunPreservesValid(p, dt, prefix);
    }
  }

  /** From `New`, with dt = 0.1, boiler 1 climbs 0.5 degrees per tick for
      its first 130 ticks, heating all the way. */
  lemma {:induction false} Boiler1Warmup(ns: seq<TickNoise>)
    requires AllValidNoise(ns) && |ns| <= 130
    ensures Run(New(), 0.1, ns).boiler1.temperature == 20.0 + (|ns| as real) / 2.0
    ensures Run(New(), 0.1, ns).boiler1.targetTemperature == 85.0
    ensures |ns| > 0 ==> Run(New(), 0.1, ns).boiler1.status == Heating
    decreases |ns|
  {
    if |ns| > 0 {
      var prefix := ns[..|ns| - 1];
      assert AllValidNoise(prefix);
      Boiler1Warmup(prefix);
    }
  }

  /** Boiler 1 reaches exactly 85 on tick 130, still Heating, and reports
      Steady on tick 131. */
  lemma Boiler1ReachesTarget(ns: seq<TickNoise>)
    requires AllValidNoise(ns) && |ns| == 131
    ensures Run(New(), 0.1, ns[..130]).boiler1.temperature == 85.0
    ensures Run(New(), 0.1, ns[..130]).boiler1.status == Heating
    ensures Run(New(), 0.1, ns).boiler1.temperature == 85.0
    ensures Run(New(), 0.1, ns).boiler1.status == Steady
  {
    var prefix := ns[..130];
    assert AllValidNoise(prefix);
    Boiler1Warmup(prefix);
    assert ns[..|ns| - 1] == prefix;
  }

  /** The ids of the snapshot are the literal keys of `get_state`; each value
      is a copy of the device stored in that slot. */
  function GetState(p: Plant): (s: PlantState)
    ensures s.devices.Keys == DeviceIds()
    ensures |s.devices| == 5
    ensures s.devices[Boiler1Id] == BoilerState(p.boiler1)
    ensures s.devices[Boiler2Id] == BoilerState(p.boiler2)
    ensures s.devices[PressureMeter1Id] == PressureMeterState(p.pressureMeter1)
    ensures s.devices[FlowMeter1Id] == FlowMeterState(p.flowMeter1)
    ensures s.devices[Valve1Id] == ValveState(p.valve1)
    ensures StandardIds(p) <==> forall k :: k in s.devices ==> s.devices[k].Id() == k
  {
    DeviceIdsDistinct();
    PlantState(map[
      Boiler1Id := BoilerState(p.boiler1),
      Boiler2Id := BoilerState(p.boiler2),
      PressureMeter1Id := PressureMeterState(p.pressureMeter1),
      FlowMeter1Id := FlowMeterState(p.flowMeter1),
      Valve1Id := ValveState(p.valve1)])
  }
}

/** The pipeline end to end: plant devices mirrored into the two controller
    nodes, exposed as points, and polled back by the aggregator.
    The aggregator's paths carry the node folder ("PLC1.Boiler1.Temperature")
    while the nodes register bare ids ("Boiler1.Temperature"), so every read
    misses. `AsWrittenPollIsFallback` states what the code as written
    publishes; `CorrectedPollMatchesPlant` states what reading the registered
    ids gives. */
module Twin {
  import opened Wrappers
  import opened Devices
  import opened Points
  import opened Plant
  import opened Scada
  import Plc1
  import Plc2

  /** The two nodes own disjoint variable sets. */
  lemma NodeIdSetsDisjoint()
    ensures Plc1.Ids() !! Plc2.Ids()
  {
  }

  /** One update pass of PLC-1 over whole-device copies of the plant. */
  function ExposePlc1(store: PointStore, p: Plant): PointStore
  {
    Plc1.Publish(store, p.boiler1, p.pressureMeter1, p.valve1)
  }

  /** One update pass of PLC-2 over whole-device copies of the plant. */
  function ExposePlc2(store: PointStore, p: Plant): PointStore
  {
    Plc2.Publish(store, p.boiler2, p.flowMeter1)
  }

  /** PLC-1's devices rebuilt from fallbacks only: every number 0.0, every
      status and mode its default. */
  function Plc1Fallback(): map<string, DeviceState>
  {
    map[
      Boiler1Id := BoilerState(Boiler(Boiler1Id, 0.0, 0.0, 0.0, Off)),
      PressureMeter1Id := PressureMeterState(PressureMeter(PressureMeter1Id, 0.0, MeterStatus.Normal)),
      Valve1Id := ValveState(Valve(Valve1Id, 0.0, Auto, Partial))]
  }

  /** PLC-2's devices rebuilt from fallbacks only. */
  function Plc2Fallback(): map<string, DeviceState>
  {
    map[
      Boiler2Id := BoilerState(Boiler(Boiler2Id, 0.0, 0.0, 0.0, Off)),
      FlowMeter1Id := FlowMeterState(FlowMeter(FlowMeter1Id, 0.0, 0.0, FlowMeterStatus.Normal))]
  }

  /** A session whose every variable is one the two nodes register. */
  predicate ServesNodeIdsOnly(session: Session)
  {
    session.Connected? ==> session.store.Keys <= Plc1.Ids() + Plc2.Ids()
  }

  /** A namespace-2 read of an id starting with `PLC` misses a session that
      serves only node ids, and then yields the fallback. */
  lemma MissFallsBack(session: Session, identifier: string)
    requires ServesNodeIdsOnly(session)
    requires "PLC" <= identifier
    ensures NumberAt(session, Ns2Path(identifier)) == 0.0
    ensures forall fallback :: TextAt(session, Ns2Path(identifier), fallback) == fallback
  {
    ParseNs2Path(identifier);
    Plc1.IdsCarryNoFolderPrefix();
    Plc2.IdsCarryNoFolderPrefix();
    assert NodeId(2, identifier) !in Plc1.Ids() + Plc2.Ids();
  }

  lemma BoilerReadMisses(session: Session, id: string, t: string, g: string, pr: string, st: string)
    requires ServesNodeIdsOnly(session)
    requires "PLC" <= t && "PLC" <= g && "PLC" <= pr && "PLC" <= st
    ensures ReadBoiler(session, id, Ns2Path(t), Ns2Path(g), Ns2Path(pr), Ns2Path(st))
            == Boiler(id, 0.0, 0.0, 0.0, Off)
  {
    MissFallsBack(session, t);
    MissFallsBack(session, g);
    MissFallsBack(session, pr);
    MissFallsBack(session, st);
  }

  lemma MeterReadMisses(session: Session, id: string, pr: string, st: string)
    requires ServesNodeIdsOnly(session)
    requires "PLC" <= pr && "PLC" <= st
    ensures ReadPressureMeter(session, id, Ns2Path(pr), Ns2Path(st))
            == PressureMeter(id, 0.0, MeterStatus.Normal)
  {
    MissFallsBack(session, pr);
    MissFallsBack(session, st);
  }

  lemma ValveReadMisses(session: Session, id: string, pos: string, md: string, st: string)
    requires ServesNodeIdsOnly(session)
    requires "PLC" <= pos && "PLC" <= md && "PLC" <= st
    ensures ReadValve(session, id, Ns2Path(pos), Ns2Path(md), Ns2Path(st))
            == Valve(id, 0.0, Auto, Partial)
  {
    MissFallsBack(session, pos);
    MissFallsBack(session, md);
    MissFallsBack(session, st);
  }

  lemma FlowMeterReadMisses(session: Session, id: string, fr: string, tv: string, st: string)
    requires ServesNodeIdsOnly(session)
    requires "PLC" <= fr && "PLC" <= tv && "PLC" <= st
    ensures ReadFlowMeter(session, id, Ns2Path(fr), Ns2Path(tv), Ns2Path(st))
            == FlowMeter(id, 0.0, 0.0, FlowMeterStatus.Normal)
  {
    MissFallsBack(session, fr);
    MissFallsBack(session, tv);
    MissFallsBack(session, st);
  }

  /** With the paths as written, reading PLC-1 gives the fallback devices,
      whatever the node currently holds or when it is unreachable. */
  lemma AsWrittenPlc1ReadsFallback(session: Session)
    requires ServesNodeIdsOnly(session)
    ensures ReadPlc1Data(session) == Success(Plc1Fallback())
  {
    BoilerReadMisses(session, Boiler1Id, "PLC1.Boiler1.Temperature", "PLC1.Boiler1.TargetTemperature",
                     "PLC1.Boiler1.Pressure", "PLC1.Boiler1.Status");
    MeterReadMisses(session, PressureMeter1Id, "PLC1.PressureMeter1.Pressure", "PLC1.PressureMeter1.Status");
    ValveReadMisses(session, Valve1Id, "PLC1.Valve1.Position", "PLC1.Valve1.Mode", "PLC1.Valve1.Status");
  }

  /** With the paths as written, reading PLC-2 gives the fallback devices. */
  lemma AsWrittenPlc2ReadsFallback(session: Session)
    requires ServesNodeIdsOnly(session)
    ensures ReadPlc2Data(session) == Success(Plc2Fallback())
  {
    BoilerReadMisses(session, Boiler2Id, "PLC2.Boiler2.Temperature", "PLC2.Boiler2.TargetTemperature",
                     "PLC2.Boiler2.Pressure", "PLC2.Boiler2.Status");
    FlowMeterReadMisses(session, FlowMeter1Id, "PLC2.FlowMeter1.FlowRate", "PLC2.FlowMeter1.TotalVolume",
                        "PLC2.FlowMeter1.Status");
  }

  /** As written, every cycle publishes the all-fallback snapshot, whatever
      the plant state. */
  lemma AsWrittenPollIsFallback(p: Plant, s1: PointStore, s2: PointStore)
    requires SameKinds(s1, Plc1.Initial()) && SameKinds(s2, Plc2.Initial())
    ensures PollVia(Connected(ExposePlc1(s1, p)), Connected(ExposePlc2(s2, p)),
                    Plc1PathsAsWritten, Plc2PathsAsWritten)
            == Some(PlantState(Plc1Fallback() + Plc2Fallback()))
  {
    var c1 := Connected(ExposePlc1(s1, p));
    var c2 := Connected(ExposePlc2(s2, p));
    assert ServesNodeIdsOnly(c1) && ServesNodeIdsOnly(c2);
    AsWrittenPlc1ReadsFallback(c1);
    AsWrittenPlc2ReadsFallback(c2);
    PollIsUnion(c1, c2, Plc1PathsAsWritten, Plc2PathsAsWritten);
  }

  /** The fallback snapshot holds boiler 1 at 0.0 degrees. */
  lemma FallbackBoiler1IsCold()
    ensures Boiler1Id in Plc1Fallback() + Plc2Fallback()
    ensures (Plc1Fallback() + Plc2Fallback())[Boiler1Id].BoilerState?
    ensures (Plc1Fallback() + Plc2Fallback())[Boiler1Id].boiler.temperature == 0.0
  {
    assert (Plc1Fallback() + Plc2Fallback())[Boiler1Id] == Plc1Fallback()[Boiler1Id];
  }

  /** The discrepancy on a concrete input: from `New`, boiler 1 is at 20
      degrees, and the snapshot a polling cycle publishes says 0.0. */
  lemma AsWrittenLosesBoiler1Temperature()
    ensures New().boiler1.temperature == 20.0
    ensures var snapshot := PollVia(Connected(ExposePlc1(Plc1.Initial(), New())),
                                    Connected(ExposePlc2(Plc2.Initial(), New())),
                                    Plc1PathsAsWritten, Plc2PathsAsWritten);
              && snapshot.Some?
              && Boiler1Id in snapshot.value.devices
              && snapshot.value.devices[Boiler1Id].BoilerState?
              && snapshot.value.devices[Boiler1Id].boiler.temperature == 0.0
  {
    SameKindsReflexive(Plc1.Initial());
    SameKindsReflexive(Plc2.Initial());
    AsWrittenPollIsFallback(New(), Plc1.Initial(), Plc2.Initial());
    FallbackBoiler1IsCold();
  }

  // ---------------------------------------------- reading the node ids

  /** The paths that name the variables the nodes actually register. */
  const Plc1PathsCorrected: Plc1Paths := Plc1Paths(
    RenderNodeId(Plc1.Boiler1Temperature),
    RenderNodeId(Plc1.Boiler1TargetTemperature),
    RenderNodeId(Plc1.Boiler1Pressure),
    RenderNodeId(Plc1.Boiler1Status),
    RenderNodeId(Plc1.PressureMeter1Pressure),
    RenderNodeId(Plc1.PressureMeter1Status),
    RenderNodeId(Plc1.Valve1Position),
    RenderNodeId(Plc1.Valve1Mode),
    RenderNodeId(Plc1.Valve1Status))

  const Plc2PathsCorrected: Plc2Paths := Plc2Paths(
    RenderNodeId(Plc2.Boiler2Temperature),
    RenderNodeId(Plc2.Boiler2TargetTemperature),
    RenderNodeId(Plc2.Boiler2Pressure),
    RenderNodeId(Plc2.Boiler2Status),
    RenderNodeId(Plc2.FlowMeter1FlowRate),
    RenderNodeId(Plc2.FlowMeter1TotalVolume),
    RenderNodeId(Plc2.FlowMeter1Status))

  /** Reading a written Double back through its rendered id. */
  lemma NumberReadBack(store: PointStore, id: NodeId, x: real)
    requires id in store && store[id] == Double(x) && Renderable(id)
    ensures NumberAt(Connected(store), RenderNodeId(id)) == x
  {
    ParseRenderRoundTrip(id);
  }

  /** Reading a written String back through its rendered id. */
  lemma TextReadBack(store: PointStore, id: NodeId, t: string, fallback: string)
    requires id in store && store[id] == String(t) && Renderable(id)
    ensures TextAt(Connected(store), RenderNodeId(id), fallback) == t
  {
    ParseRenderRoundTrip(id);
  }

  /** A boiler exposed on four variables is rebuilt unchanged from them. */
  lemma BoilerReadBack(store: PointStore, b: Boiler, t: NodeId, g: NodeId, pr: NodeId, st: NodeId)
    requires t in store && store[t] == Double(b.temperature) && Renderable(t)
    requires g in store && store[g] == Double(b.targetTemperature) && Renderable(g)
    requires pr in store && store[pr] == Double(b.pressure) && Renderable(pr)
    requires st in store && store[st] == String(BoilerStatusName(b.status)) && Renderable(st)
    ensures ReadBoiler(Connected(store), b.id, RenderNodeId(t), RenderNodeId(g), RenderNodeId(pr),
                       RenderNodeId(st)) == b
  {
    NumberReadBack(store, t, b.temperature);
    NumberReadBack(store, g, b.targetTemperature);
    NumberReadBack(store, pr, b.pressure);
    TextReadBack(store, st, BoilerStatusName(b.status), BoilerStatusFallback);
    BoilerStatusRoundTrip(b.status);
  }

  /** Over the registered ids, PLC-1's exposition and the aggregator's
      rebuild are inverse: the devices come back unchanged. */
  lemma CorrectedPlc1RoundTrip(store: PointStore, p: Plant)
    requires SameKinds(store, Plc1.Initial()) && StandardIds(p)
    ensures ReadPlc1DataVia(Connected(ExposePlc1(store, p)), Plc1PathsCorrected)
            == Success(map[
                 Boiler1Id := BoilerState(p.boiler1),
                 PressureMeter1Id := PressureMeterState(p.pressureMeter1),
                 Valve1Id := ValveState(p.valve1)])
  {
    var s := ExposePlc1(store, p);
    var (b, m, v) := (p.boiler1, p.pressureMeter1, p.valve1);
    var w := Plc1.Writes(b, m, v);
    assert forall k :: k in Plc1.Ids() ==> s[k] == w[k];
    BoilerReadBack(s, b, Plc1.Boiler1Temperature, Plc1.Boiler1TargetTemperature,
                   Plc1.Boiler1Pressure, Plc1.Boiler1Status);
    NumberReadBack(s, Plc1.PressureMeter1Pressure, m.pressure);
    TextReadBack(s, Plc1.PressureMeter1Status, MeterStatusName(m.status), MeterStatusFallback);
    NumberReadBack(s, Plc1.Valve1Position, v.position);
    TextReadBack(s, Plc1.Valve1Mode, ValveModeName(v.mode), ValveModeFallback);
    TextReadBack(s, Plc1.Valve1Status, ValveStatusName(v.status), ValveStatusFallback);
    MeterStatusRoundTrip(m.status);
    ValveModeRoundTrip(v.mode);
    ValveStatusRoundTrip(v.status);
  }

  /** Over the registered ids, PLC-2's exposition and the aggregator's
      rebuild are inverse. */
  lemma CorrectedPlc2RoundTrip(store: PointStore, p: Plant)
    requires SameKinds(store, Plc2.Initial()) && StandardIds(p)
    ensures ReadPlc2DataVia(Connected(ExposePlc2(store, p)), Plc2PathsCorrected)
            == Success(map[
                 Boiler2Id := BoilerState(p.boiler2),
                 FlowMeter1Id := FlowMeterState(p.flowMeter1)])
  {
    var s := ExposePlc2(store, p);
    var (b, f) := (p.boiler2, p.flowMeter1);
    var w := Plc2.Writes(b, f);
    assert forall k :: k in Plc2.Ids() ==> s[k] == w[k];
    BoilerReadBack(s, b, Plc2.Boiler2Temperature, Plc2.Boiler2TargetTemperature,
                   Plc2.Boiler2Pressure, Plc2.Boiler2Status);
    NumberReadBack(s, Plc2.FlowMeter1FlowRate, f.flowRate);
    NumberReadBack(s, Plc2.FlowMeter1TotalVolume, f.totalVolume);
    TextReadBack(s, Plc2.FlowMeter1Status, FlowMeterStatusName(f.status), FlowMeterStatusFallback);
    FlowMeterStatusRoundTrip(f.status);
  }

  /** The two nodes' device maps together are the plant's state. */
  lemma NodeMapsMakePlantState(p: Plant)
    ensures map[Boiler1Id := BoilerState(p.boiler1),
                PressureMeter1Id := PressureMeterState(p.pressureMeter1),
                Valve1Id := ValveState(p.valve1)]
            + map[Boiler2Id := BoilerState(p.boiler2),
                  FlowMeter1Id := FlowMeterState(p.flowMeter1)]
            == GetState(p).devices
  {
  }

  /** Reading the registered ids, one cycle publishes exactly the plant's
      own state. */
  lemma CorrectedPollMatchesPlant(p: Plant, s1: PointStore, s2: PointStore)
    requires SameKinds(s1, Plc1.Initial()) && SameKinds(s2, Plc2.Initial()) && StandardIds(p)
    ensures PollVia(Connected(ExposePlc1(s1, p)), Connected(ExposePlc2(s2, p)),
                    Plc1PathsCorrected, Plc2PathsCorrected)
            == Some(GetState(p))
  {
    var c1 := Connected(ExposePlc1(s1, p));
    var c2 := Connected(ExposePlc2(s2, p));
    CorrectedPlc1RoundTrip(s1, p);
    CorrectedPlc2RoundTrip(s2, p);
    PollIsUnion(c1, c2, Plc1PathsCorrected, Plc2PathsCorrected);
    NodeMapsMakePlantState(p);
  }
}

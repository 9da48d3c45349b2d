/** The aggregator (src/opcua_server/scada_client.rs): typed point reads
    with fallbacks, status and mode text decoding, the per-node device
    rebuild, and the both-or-nothing merge of one polling cycle. */
module Scada {
  import opened Wrappers
  import opened Devices
  import opened Points
  import opened Plant

  /** A client session: the address space of the node it is connected to,
      or no usable connection (every service call then fails). */
  datatype Session = Connected(store: PointStore) | Unreachable

  datatype ReadError =
    | InvalidNodeId      // `NodeId::from_str` rejected the text
    | ServiceFault       // the read service call itself failed
    | NoDoubleValue      // "Failed to read value"
    | NoStringValue      // "Failed to read string value"

  // ------------------------------------------------------ typed reads

  /** `read_node_value`: succeeds only on a Double at the addressed id. */
  function ReadNodeValue(session: Session, path: string): (r: Result<real, ReadError>)
    ensures r.Success? <==>
      && session.Connected?
      && ParseNodeId(path).Some?
      && ParseNodeId(path).value in session.store
      && session.store[ParseNodeId(path).value].Double?
    ensures r.Success? ==> r.value == session.store[ParseNodeId(path).value].number
  {
    match ParseNodeId(path)
    case None => Failure(InvalidNodeId)
    case Some(id) =>
      if session.Unreachable? then Failure(ServiceFault)
      else if id in session.store && session.store[id].Double? then Success(session.store[id].number)
      else Failure(NoDoubleValue)
  }

  /** `read_node_string`: succeeds only on a String at the addressed id. */
  function ReadNodeString(session: Session, path: string): (r: Result<string, ReadError>)
    ensures r.Success? <==>
      && session.Connected?
      && ParseNodeId(path).Some?
      && ParseNodeId(path).value in session.store
      && session.store[ParseNodeId(path).value].String?
    ensures r.Success? ==> r.value == session.store[ParseNodeId(path).value].text
  {
    match ParseNodeId(path)
    case None => Failure(InvalidNodeId)
    case Some(id) =>
      if session.Unreachable? then Failure(ServiceFault)
      else if id in session.store && session.store[id].String? then Success(session.store[id].text)
      else Failure(NoStringValue)
  }

  /** A Double written with `SetValue` reads back through its rendered path;
      the same id read as text fails. */
  lemma ReadBackDouble(store: PointStore, id: NodeId, x: real)
    requires id in store && Renderable(id)
    ensures ReadNodeValue(Connected(SetValue(store, id, Double(x))), RenderNodeId(id)) == Success(x)
    ensures ReadNodeString(Connected(SetValue(store, id, Double(x))), RenderNodeId(id)).Failure?
  {
    ParseRenderRoundTrip(id);
  }

  /** A String written with `SetValue` reads back through its rendered path;
      the same id read as a number fails. */
  lemma ReadBackString(store: PointStore, id: NodeId, t: string)
    requires id in store && Renderable(id)
    ensures ReadNodeString(Connected(SetValue(store, id, String(t))), RenderNodeId(id)) == Success(t)
    ensures ReadNodeValue(Connected(SetValue(store, id, String(t))), RenderNodeId(id)).Failure?
  {
    ParseRenderRoundTrip(id);
  }

  /** Numeric field: the read value, or 0.0 on any failure. */
  function NumberAt(session: Session, path: string): real
  {
    ReadNodeValue(session, path).UnwrapOr(0.0)
  }

  /** Text field: the read string, or `fallback` on any failure. */
  function TextAt(session: Session, path: string, fallback: string): string
  {
    ReadNodeString(session, path).UnwrapOr(fallback)
  }

  // --------------------------------------------------- status decoding

  /** Exact, case-sensitive match on the variant names; anything else is Off. */
  function ParseBoilerStatus(text: string): (s: BoilerStatus)
    ensures forall st :: text == BoilerStatusName(st) ==> s == st
    ensures s != Off ==> text == BoilerStatusName(s)
  {
    if text == "Off" then Off
    else if text == "Heating" then Heating
    else if text == "Steady" then Steady
    else if text == "Overheat" then Overheat
    else Off
  }

  /** Anything but a variant name is Normal. */
  function ParseMeterStatus(text: string): (s: MeterStatus)
    ensures forall st :: text == MeterStatusName(st) ==> s == st
    ensures s != MeterStatus.Normal ==> text == MeterStatusName(s)
  {
    if text == "Normal" then MeterStatus.Normal
    else if text == "Warning" then Warning
    else if text == "Critical" then Critical
    else MeterStatus.Normal
  }

  /** Anything but a variant name is Normal. */
  function ParseFlowMeterStatus(text: string): (s: FlowMeterStatus)
    ensures forall st :: text == FlowMeterStatusName(st) ==> s == st
    ensures s != FlowMeterStatus.Normal ==> text == FlowMeterStatusName(s)
  {
    if text == "Normal" then FlowMeterStatus.Normal
    else if text == "Low" then Low
    else if text == "High" then High
    else FlowMeterStatus.Normal
  }

  /** Anything but a mode name is Auto. */
  function ParseValveMode(text: string): (m: ValveMode)
    ensures forall md :: text == ValveModeName(md) ==> m == md
    ensures m != Auto ==> text == ValveModeName(m)
  {
    if text == "Manual" then Manual
    else if text == "Auto" then Auto
    else Auto
  }

  /** Anything but a variant name is Partial. */
  function ParseValveStatus(text: string): (s: ValveStatus)
    ensures forall st :: text == ValveStatusName(st) ==> s == st
    ensures s != Partial ==> text == ValveStatusName(s)
  {
    if text == "Open" then Open
    else if text == "Closed" then Closed
    else if text == "Partial" then Partial
    else if text == "Fault" then Fault
    else Partial
  }

  // Decoding the variant name a node writes gives the variant back.

  lemma BoilerStatusRoundTrip(s: BoilerStatus)
    ensures ParseBoilerStatus(BoilerStatusName(s)) == s
  {
  }

  lemma MeterStatusRoundTrip(s: MeterStatus)
    ensures ParseMeterStatus(MeterStatusName(s)) == s
  {
  }

  lemma FlowMeterStatusRoundTrip(s: FlowMeterStatus)
    ensures ParseFlowMeterStatus(FlowMeterStatusName(s)) == s
  {
  }

  lemma ValveModeRoundTrip(m: ValveMode)
    ensures ParseValveMode(ValveModeName(m)) == m
  {
  }

  lemma ValveStatusRoundTrip(s: ValveStatus)
    ensures ParseValveStatus(ValveStatusName(s)) == s
  {
  }

  /** Matching is case-sensitive: a name in the wrong case decodes to the
      default, not to the variant it spells. */
  lemma DecodingIsCaseSensitive()
    ensures ParseBoilerStatus("overheat") == Off
    ensures ParseMeterStatus("CRITICAL") == MeterStatus.Normal
    ensures ParseFlowMeterStatus("high") == FlowMeterStatus.Normal
    ensures ParseValveMode("manual") == Auto
    ensures ParseValveStatus("fault") == Partial
  {
  }

  // The strings substituted when a text read fails.
  const BoilerStatusFallback: string := "Off"
  const MeterStatusFallback: string := "Normal"
  const FlowMeterStatusFallback: string := "Normal"
  const ValveModeFallback: string := "Auto"
  const ValveStatusFallback: string := "Partial"

  /** A failed text read decodes to the same default as unrecognised text. */
  lemma FallbackTextsDecodeToDefaults(garbage: string)
    requires forall st :: garbage != BoilerStatusName(st)
    requires forall st :: garbage != MeterStatusName(st)
    requires forall st :: garbage != FlowMeterStatusName(st)
    requires forall md :: garbage != ValveModeName(md)
    requires forall st :: garbage != ValveStatusName(st)
    ensures ParseBoilerStatus(BoilerStatusFallback) == ParseBoilerStatus(garbage)
    ensures ParseMeterStatus(MeterStatusFallback) == ParseMeterStatus(garbage)
    ensures ParseFlowMeterStatus(FlowMeterStatusFallback) == ParseFlowMeterStatus(garbage)
    ensures ParseValveMode(ValveModeFallback) == ParseValveMode(garbage)
    ensures ParseValveStatus(ValveStatusFallback) == ParseValveStatus(garbage)
  {
  }

  // ------------------------------------------------ per-node rebuild

  /** The point paths the aggregator asks PLC-1 for. */
  datatype Plc1Paths = Plc1Paths(
    boilerTemperature: string,
    boilerTargetTemperature: string,
    boilerPressure: string,
    boilerStatus: string,
    meterPressure: string,
    meterStatus: string,
    valvePosition: string,
    valveMode: string,
    valveStatus: string)

  /** The point paths the aggregator asks PLC-2 for. */
  datatype Plc2Paths = Plc2Paths(
    boilerTemperature: string,
    boilerTargetTemperature: string,
    boilerPressure: string,
    boilerStatus: string,
    flowRate: string,
    totalVolume: string,
    flowStatus: string)

  /** The paths as `read_plc1_data` spells them, node folder included. */
  const Plc1PathsAsWritten: Plc1Paths := Plc1Paths(
    Ns2Path("PLC1.Boiler1.Temperature"),
    Ns2Path("PLC1.Boiler1.TargetTemperature"),
    Ns2Path("PLC1.Boiler1.Pressure"),
    Ns2Path("PLC1.Boiler1.Status"),
    Ns2Path("PLC1.PressureMeter1.Pressure"),
    Ns2Path("PLC1.PressureMeter1.Status"),
    Ns2Path("PLC1.Valve1.Position"),
    Ns2Path("PLC1.Valve1.Mode"),
    Ns2Path("PLC1.Valve1.Status"))

  /** The paths as `read_plc2_data` spells them, node folder included. */
  const Plc2PathsAsWritten: Plc2Paths := Plc2Paths(
    Ns2Path("PLC2.Boiler2.Temperature"),
    Ns2Path("PLC2.Boiler2.TargetTemperature"),
    Ns2Path("PLC2.Boiler2.Pressure"),
    Ns2Path("PLC2.Boiler2.Status"),
    Ns2Path("PLC2.FlowMeter1.FlowRate"),
    Ns2Path("PLC2.FlowMeter1.TotalVolume"),
    Ns2Path("PLC2.FlowMeter1.Status"))

  /** A boiler rebuilt under `id` from four point reads. */
  function ReadBoiler(session: Session, id: string, temperature: string, target: string,
                      pressure: string, status: string): (b: Boiler)
    ensures b.id == id
  {
    Boiler(
      id,
      NumberAt(session, temperature),
      NumberAt(session, target),
      NumberAt(session, pressure),
      ParseBoilerStatus(TextAt(session, status, BoilerStatusFallback)))
  }

  /** A pressure meter rebuilt under `id` from two point reads. */
  function ReadPressureMeter(session: Session, id: string, pressure: string, status: string)
    : (m: PressureMeter)
    ensures m.id == id
  {
    PressureMeter(
      id,
      NumberAt(session, pressure),
      ParseMeterStatus(TextAt(session, status, MeterStatusFallback)))
  }

  /** A valve rebuilt under `id` from three point reads. */
  function ReadValve(session: Session, id: string, position: string, mode: string, status: string)
    : (v: Valve)
    ensures v.id == id
  {
    Valve(
      id,
      NumberAt(session, position),
      ParseValveMode(TextAt(session, mode, ValveModeFallback)),
      ParseValveStatus(TextAt(session, status, ValveStatusFallback)))
  }

  /** A flow meter rebuilt under `id` from three point reads. */
  function ReadFlowMeter(session: Session, id: string, flowRate: string, totalVolume: string,
                         status: string): (f: FlowMeter)
    ensures f.id == id
  {
    FlowMeter(
      id,
      NumberAt(session, flowRate),
      NumberAt(session, totalVolume),
      ParseFlowMeterStatus(TextAt(session, status, FlowMeterStatusFallback)))
  }

  /** `read_plc1_data` over the given paths: boiler 1, pressure meter 1 and
      valve 1 rebuilt under their fixed ids, every field read with its
      fallback. It never fails. */
  function ReadPlc1DataVia(session: Session, paths: Plc1Paths)
    : (r: Result<map<string, DeviceState>, ReadError>)
    ensures r.Success?
    ensures r.value.Keys == {Boiler1Id, PressureMeter1Id, Valve1Id}
    ensures forall k :: k in r.value ==> r.value[k].Id() == k
  {
    var boiler := ReadBoiler(session, Boiler1Id, paths.boilerTemperature,
                             paths.boilerTargetTemperature, paths.boilerPressure, paths.boilerStatus);
    var meter := ReadPressureMeter(session, PressureMeter1Id, paths.meterPressure, paths.meterStatus);
    var valve := ReadValve(session, Valve1Id, paths.valvePosition, paths.valveMode, paths.valveStatus);
    Success(Plc1Devices(boiler, meter, valve))
  }

  /** PLC-1's devices keyed by their fixed ids. */
  function Plc1Devices(boiler: Boiler, meter: PressureMeter, valve: Valve): (d: map<string, DeviceState>)
    requires boiler.id == Boiler1Id && meter.id == PressureMeter1Id && valve.id == Valve1Id
    ensures d.Keys == {Boiler1Id, PressureMeter1Id, Valve1Id}
    ensures forall k :: k in d ==> d[k].Id() == k
  {
    map[Boiler1Id := BoilerState(boiler), PressureMeter1Id := PressureMeterState(meter),
        Valve1Id := ValveState(valve)]
  }

  /** `read_plc2_data` over the given paths: boiler 2 and flow meter 1 under
      their fixed ids. It never fails. */
  function ReadPlc2DataVia(session: Session, paths: Plc2Paths)
    : (r: Result<map<string, DeviceState>, ReadError>)
    ensures r.Success?
    ensures r.value.Keys == {Boiler2Id, FlowMeter1Id}
    ensures forall k :: k in r.value ==> r.value[k].Id() == k
  {
    var boiler := ReadBoiler(session, Boiler2Id, paths.boilerTemperature,
                             paths.boilerTargetTemperature, paths.boilerPressure, paths.boilerStatus);
    var flowMeter := ReadFlowMeter(session, FlowMeter1Id, paths.flowRate, paths.totalVolume, paths.flowStatus);
    Success(Plc2Devices(boiler, flowMeter))
  }

  /** PLC-2's devices keyed by their fixed ids. */
  function Plc2Devices(boiler: Boiler, flowMeter: FlowMeter): (d: map<string, DeviceState>)
    requires boiler.id == Boiler2Id && flowMeter.id == FlowMeter1Id
    ensures d.Keys == {Boiler2Id, FlowMeter1Id}
    ensures forall k :: k in d ==> d[k].Id() == k
  {
    map[Boiler2Id := BoilerState(boiler), FlowMeter1Id := FlowMeterState(flowMeter)]
  }

  function ReadPlc1Data(session: Session): Result<map<string, DeviceState>, ReadError>
  {
    ReadPlc1DataVia(session, Plc1PathsAsWritten)
  }

  function ReadPlc2Data(session: Session): Result<map<string, DeviceState>, ReadError>
  {
    ReadPlc2DataVia(session, Plc2PathsAsWritten)
  }

  // ------------------------------------------------------------ merge

  /** The aggregation step of one cycle: a snapshot only when both node
      reads succeeded, holding the union of their devices, PLC-2's entry
      winning on a shared id (`HashMap::extend`). */
  function Aggregate(
    plc1: Result<map<string, DeviceState>, ReadError>,
    plc2: Result<map<string, DeviceState>, ReadError>)
    : (r: Option<PlantState>)
    ensures r.Some? <==> plc1.Success? && plc2.Success?
    ensures r.Some? ==> r.value.devices.Keys == plc1.value.Keys + plc2.value.Keys
    ensures r.Some? ==> forall k :: k in plc2.value ==> r.value.devices[k] == plc2.value[k]
    ensures r.Some? ==>
              forall k :: k in plc1.value && k !in plc2.value ==> r.value.devices[k] == plc1.value[k]
  {
    if plc1.Success? && plc2.Success? then Some(PlantState(plc1.value + plc2.value)) else None
  }

  /** With disjoint device ids the snapshot holds every entry of both. */
  lemma AggregateDisjointSize(
    plc1: Result<map<string, DeviceState>, ReadError>,
    plc2: Result<map<string, DeviceState>, ReadError>)
    requires plc1.Success? && plc2.Success?
    requires plc1.value.Keys !! plc2.value.Keys
    ensures |Aggregate(plc1, plc2).value.devices| == |plc1.value| + |plc2.value|
  {
    var u := Aggregate(plc1, plc2).value.devices;
    assert u.Keys == plc1.value.Keys + plc2.value.Keys;
    assert |u.Keys| == |plc1.value.Keys| + |plc2.value.Keys|;
  }

  /** One polling cycle over the given paths. */
  function PollVia(s1: Session, s2: Session, paths1: Plc1Paths, paths2: Plc2Paths): Option<PlantState>
  {
    Aggregate(ReadPlc1DataVia(s1, paths1), ReadPlc2DataVia(s2, paths2))
  }

  /** A cycle's snapshot is the union of the two node reads. */
  lemma PollIsUnion(s1: Session, s2: Session, paths1: Plc1Paths, paths2: Plc2Paths)
    ensures PollVia(s1, s2, paths1, paths2)
            == Some(PlantState(ReadPlc1DataVia(s1, paths1).value + ReadPlc2DataVia(s2, paths2).value))
  {
  }

  /** Merging PLC-1's three devices with PLC-2's two gives all five plant
      devices, each under its own id. */
  lemma MergeCoversPlant(plc1: map<string, DeviceState>, plc2: map<string, DeviceState>)
    requires plc1.Keys == {Boiler1Id, PressureMeter1Id, Valve1Id}
    requires plc2.Keys == {Boiler2Id, FlowMeter1Id}
    requires forall k :: k in plc1 ==> plc1[k].Id() == k
    requires forall k :: k in plc2 ==> plc2[k].Id() == k
    ensures (plc1 + plc2).Keys == DeviceIds()
    ensures |plc1 + plc2| == 5
    ensures forall k :: k in plc1 + plc2 ==> (plc1 + plc2)[k].Id() == k
  {
    var d := plc1 + plc2;
    assert d.Keys == DeviceIds();
    DeviceIdsDistinct();
    assert |d| == |d.Keys|;
  }

  /** Whatever the sessions hold, and even when a node is unreachable, a
      cycle publishes a snapshot of exactly the five plant devices. */
  lemma PollAlwaysPublishes(s1: Session, s2: Session, paths1: Plc1Paths, paths2: Plc2Paths)
    ensures PollVia(s1, s2, paths1, paths2).Some?
    ensures PollVia(s1, s2, paths1, paths2).value.devices.Keys == DeviceIds()
    ensures |PollVia(s1, s2, paths1, paths2).value.devices| == 5
    ensures var d := PollVia(s1, s2, paths1, paths2).value.devices;
              forall k :: k in d ==> d[k].Id() == k
  {
    PollIsUnion(s1, s2, paths1, paths2);
    MergeCoversPlant(ReadPlc1DataVia(s1, paths1).value, ReadPlc2DataVia(s2, paths2).value);
  }
}

/** Controller node PLC-2 (src/opcua_server/plc2.rs): the variables it
    creates for boiler 2 and flow meter 1, and one pass of its update loop
    as a function from the two device copies to the store. */
module Plc2 {
  import opened Devices
  import opened Points

  /** The browse folder of the node; no variable id carries this name. */
  const FolderName: string := "PLC2"

  const Boiler2Temperature: NodeId := NodeId(2, "Boiler2.Temperature")
  const Boiler2TargetTemperature: NodeId := NodeId(2, "Boiler2.TargetTemperature")
  const Boiler2Pressure: NodeId := NodeId(2, "Boiler2.Pressure")
  const Boiler2Status: NodeId := NodeId(2, "Boiler2.Status")
  const FlowMeter1FlowRate: NodeId := NodeId(2, "FlowMeter1.FlowRate")
  const FlowMeter1TotalVolume: NodeId := NodeId(2, "FlowMeter1.TotalVolume")
  const FlowMeter1Status: NodeId := NodeId(2, "FlowMeter1.Status")

  /** The variables created as Double. */
  function NumericIds(): set<NodeId>
  {
    {Boiler2Temperature, Boiler2TargetTemperature, Boiler2Pressure, FlowMeter1FlowRate, FlowMeter1TotalVolume}
  }

  /** The variables created as String. */
  function TextIds(): set<NodeId>
  {
    {Boiler2Status, FlowMeter1Status}
  }

  function Ids(): set<NodeId>
  {
    NumericIds() + TextIds()
  }

  /** The address space as created: numeric variables hold `0.0`, status
      variables the empty string. */
  function Initial(): (s: PointStore)
    ensures s.Keys == Ids()
    ensures forall k :: k in s ==> k.namespace == 2
    ensures forall k :: k in s ==> (KindOf(s[k]) == DoubleKind <==> k in NumericIds())
    ensures forall k :: k in s ==> s[k] == Double(0.0) || s[k] == String("")
  {
    map k | k in Ids() :: if k in NumericIds() then Double(0.0) else String("")
  }

  /** The node creates 7 distinct variables. */
  lemma CreatesSevenVariables()
    ensures |Initial()| == 7
  {
    assert Initial().Keys == Ids();
  }

  /** No variable id starts with the folder name, nor with `PLC` at all. */
  lemma IdsCarryNoFolderPrefix()
    ensures forall k :: k in Ids() ==> !(FolderName + "." <= k.identifier)
    ensures forall k :: k in Ids() ==> !("PLC" <= k.identifier)
  {
    forall k | k in Ids()
      ensures !(FolderName + "." <= k.identifier) && !("PLC" <= k.identifier)
    {
      assert k.identifier[0] != 'P';
    }
  }

  /** The value each variable receives in one pass of the update loop. */
  function Writes(boiler: Boiler, flowMeter: FlowMeter): (w: map<NodeId, Variant>)
    ensures w.Keys == Ids()
    ensures w[Boiler2Temperature] == Double(boiler.temperature)
    ensures w[Boiler2TargetTemperature] == Double(boiler.targetTemperature)
    ensures w[Boiler2Pressure] == Double(boiler.pressure)
    ensures w[Boiler2Status] == String(BoilerStatusName(boiler.status))
    ensures w[FlowMeter1FlowRate] == Double(flowMeter.flowRate)
    ensures w[FlowMeter1TotalVolume] == Double(flowMeter.totalVolume)
    ensures w[FlowMeter1Status] == String(FlowMeterStatusName(flowMeter.status))
  {
    map[
      Boiler2Temperature := Double(boiler.temperature),
      Boiler2TargetTemperature := Double(boiler.targetTemperature),
      Boiler2Pressure := Double(boiler.pressure),
      Boiler2Status := String(BoilerStatusName(boiler.status)),
      FlowMeter1FlowRate := Double(flowMeter.flowRate),
      FlowMeter1TotalVolume := Double(flowMeter.totalVolume),
      FlowMeter1Status := String(FlowMeterStatusName(flowMeter.status))]
  }

  /** Every write has the kind its variable was created with. */
  lemma WritesKeepCreatedKinds(boiler: Boiler, flowMeter: FlowMeter)
    ensures forall k :: k in Writes(boiler, flowMeter) ==>
              (KindOf(Writes(boiler, flowMeter)[k]) == DoubleKind <==> k in NumericIds())
  {
    var w := Writes(boiler, flowMeter);
    forall k | k in w
      ensures KindOf(w[k]) == DoubleKind <==> k in NumericIds()
    {
      assert k in NumericIds() || k in TextIds();
    }
  }

  /** One pass of the update loop: numbers copied, statuses written as their
      variant names. */
  function Publish(store: PointStore, boiler: Boiler, flowMeter: FlowMeter): (r: PointStore)
    ensures r.Keys == store.Keys
    ensures forall k :: k in store && k !in Ids() ==> r[k] == store[k]
    ensures SameKinds(store, Initial()) ==> SameKinds(r, Initial())
    ensures Ids() <= store.Keys ==> forall k :: k in Ids() ==> r[k] == Writes(boiler, flowMeter)[k]
  {
    WritesKeepCreatedKinds(boiler, flowMeter);
    WriteAllKeepsKinds(store, Writes(boiler, flowMeter), Initial());
    WriteAll(store, Writes(boiler, flowMeter))
  }

  /** The order in which the update loop writes its variables. */
  function WriteOrder(): seq<NodeId>
  {
    [Boiler2Temperature,
     Boiler2TargetTemperature,
     Boiler2Pressure,
     Boiler2Status,
     FlowMeter1FlowRate,
     FlowMeter1TotalVolume,
     FlowMeter1Status]
  }

  /** The write order names every variable exactly once. */
  lemma WriteOrderListsIds()
    ensures Distinct(WriteOrder())
    ensures forall i :: 0 <= i < |WriteOrder()| ==> WriteOrder()[i] in Ids()
    ensures forall k :: k in Ids() ==> k in WriteOrder()
  {
  }

  /** One pass of `Publish` is the update loop's run of `set_variable_value`
      calls, one per variable in source order, each a no-op on a missing id. */
  lemma PublishIsSequentialWrites(store: PointStore, boiler: Boiler, flowMeter: FlowMeter)
    ensures Publish(store, boiler, flowMeter) == SetAll(store, WriteOrder(), Writes(boiler, flowMeter))
  {
    WriteOrderListsIds();
    SequentialWritesAreWriteAll(store, WriteOrder(), Writes(boiler, flowMeter));
  }
}

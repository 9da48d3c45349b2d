/** Controller node PLC-1 (src/opcua_server/plc1.rs): the variables it
    creates for boiler 1, pressure meter 1 and valve 1, and one pass of its
    update loop as a function from the three device copies to the store. */
module Plc1 {
  import opened Devices
  import opened Points

  /** The browse folder of the node. Folders only group variables for
      browsing; no variable id below carries this name. */
  const FolderName: string := "PLC1"

  const Boiler1Temperature: NodeId := NodeId(2, "Boiler1.Temperature")
  const Boiler1TargetTemperature: NodeId := NodeId(2, "Boiler1.TargetTemperature")
  const Boiler1Pressure: NodeId := NodeId(2, "Boiler1.Pressure")
  const Boiler1Status: NodeId := NodeId(2, "Boiler1.Status")
  const PressureMeter1Pressure: NodeId := NodeId(2, "PressureMeter1.Pressure")
  const PressureMeter1Status: NodeId := NodeId(2, "PressureMeter1.Status")
  const Valve1Position: NodeId := NodeId(2, "Valve1.Position")
  const Valve1Mode: NodeId := NodeId(2, "Valve1.Mode")
  const Valve1Status: NodeId := NodeId(2, "Valve1.Status")

  /** The variables created as Double. */
  function NumericIds(): set<NodeId>
  {
    {Boiler1Temperature, Boiler1TargetTemperature, Boiler1Pressure, PressureMeter1Pressure, Valve1Position}
  }

  /** The variables created as String. */
  function TextIds(): set<NodeId>
  {
    {Boiler1Status, PressureMeter1Status, Valve1Mode, Valve1Status}
  }

  function Ids(): set<NodeId>
  {
    NumericIds() + TextIds()
  }

  /** The address space as created: numeric variables hold `0.0`, status and
      mode variables the empty string. */
  function Initial(): (s: PointStore)
    ensures s.Keys == Ids()
    ensures forall k :: k in s ==> k.namespace == 2
    ensures forall k :: k in s ==> (KindOf(s[k]) == DoubleKind <==> k in NumericIds())
    ensures forall k :: k in s ==> s[k] == Double(0.0) || s[k] == String("")
  {
    map k | k in Ids() :: if k in NumericIds() then Double(0.0) else String("")
  }

  /** The node creates 9 distinct variables. */
  lemma CreatesNineVariables()
    ensures |Initial()| == 9
  {
    assert Initial().Keys == Ids();
  }

  /** No variable id starts with the folder name, nor with `PLC` at all:
      the `PLC1` folder is a browse path only. */
  lemma IdsCarryNoFolderPrefix()
    ensures forall k :: k in Ids() ==> !(FolderName + "." <= k.identifier)
    ensures forall k :: k in Ids() ==> !("PLC" <= k.identifier)
  {
    forall k | k in Ids()
      ensures !(FolderName + "." <= k.identifier) && !("PLC" <= k.identifier)
    {
      assert k.identifier[0] != 'P' || k.identifier[1] != 'L';
    }
  }

  /** The value each variable receives in one pass of the update loop. */
  function Writes(boiler: Boiler, meter: PressureMeter, valve: Valve): (w: map<NodeId, Variant>)
    ensures w.Keys == Ids()
    ensures w[Boiler1Temperature] == Double(boiler.temperature)
    ensures w[Boiler1TargetTemperature] == Double(boiler.targetTemperature)
    ensures w[Boiler1Pressure] == Double(boiler.pressure)
    ensures w[Boiler1Status] == String(BoilerStatusName(boiler.status))
    ensures w[PressureMeter1Pressure] == Double(meter.pressure)
    ensures w[PressureMeter1Status] == String(MeterStatusName(meter.status))
    ensures w[Valve1Position] == Double(valve.position)
    ensures w[Valve1Mode] == String(ValveModeName(valve.mode))
    ensures w[Valve1Status] == String(ValveStatusName(valve.status))
  {
    map[
      Boiler1Temperature := Double(boiler.temperature),
      Boiler1TargetTemperature := Double(boiler.targetTemperature),
      Boiler1Pressure := Double(boiler.pressure),
      Boiler1Status := String(BoilerStatusName(boiler.status)),
      PressureMeter1Pressure := Double(meter.pressure),
      PressureMeter1Status := String(MeterStatusName(meter.status)),
      Valve1Position := Double(valve.position),
      Valve1Mode := String(ValveModeName(valve.mode)),
      Valve1Status := String(ValveStatusName(valve.status))]
  }

  /** Every write has the kind its variable was created with: a number for
      the numeric variables, text for status and mode. */
  lemma WritesKeepCreatedKinds(boiler: Boiler, meter: PressureMeter, valve: Valve)
    ensures forall k :: k in Writes(boiler, meter, valve) ==>
              (KindOf(Writes(boiler, meter, valve)[k]) == DoubleKind <==> k in NumericIds())
  {
    var w := Writes(boiler, meter, valve);
    forall k | k in w
      ensures KindOf(w[k]) == DoubleKind <==> k in NumericIds()
    {
      assert k in NumericIds() || k in TextIds();
    }
  }

  /** One pass of the update loop: the three device records are each read
      once, and every attribute is written to its variable, numbers copied
      and status and mode as their variant names. */
  function Publish(store: PointStore, boiler: Boiler, meter: PressureMeter, valve: Valve)
    : (r: PointStore)
    ensures r.Keys == store.Keys
    ensures forall k :: k in store && k !in Ids() ==> r[k] == store[k]
    // every write keeps the kind the variable was created with
    ensures SameKinds(store, Initial()) ==> SameKinds(r, Initial())
    ensures Ids() <= store.Keys ==> forall k :: k in Ids() ==> r[k] == Writes(boiler, meter, valve)[k]
  {
    WritesKeepCreatedKinds(boiler, meter, valve);
    WriteAllKeepsKinds(store, Writes(boiler, meter, valve), Initial());
    WriteAll(store, Writes(boiler, meter, valve))
  }

  /** The order in which the update loop writes its variables. */
  function WriteOrder(): seq<NodeId>
  {
    [Boiler1Temperature,
     Boiler1TargetTemperature,
     Boiler1Pressure,
     Boiler1Status,
     PressureMeter1Pressure,
     PressureMeter1Status,
     Valve1Position,
     Valve1Mode,
     Valve1Status]
  }

  /** The write order names every variable exactly once. */
  lemma WriteOrderListsIds()
    ensures Distinct(WriteOrder())
    ensures forall i :: 0 <= i < |WriteOrder()| ==> WriteOrder()[i] in Ids()
    ensures forall k :: k in Ids() ==> k in WriteOrder()
  {
  }

  /** One pass of `Publish` is the update loop's run of `set_variable_value`
      calls, one per variable in source order, each a no-op on a missing id. */
  lemma PublishIsSequentialWrites(store: PointStore, boiler: Boiler, meter: PressureMeter, valve: Valve)
    ensures Publish(store, boiler, meter, valve) == SetAll(store, WriteOrder(), Writes(boiler, meter, valve))
  {
    WriteOrderListsIds();
    SequentialWritesAreWriteAll(store, WriteOrder(), Writes(boiler, meter, valve));
  }
}

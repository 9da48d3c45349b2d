# Water-plant digital twin: a Dafny model

The system simulates a small water plant and mirrors it through two
controller nodes to a monitoring aggregator:

- **Physics** (`src/simulator/physics.rs`): the stateless kernel — noise
  injection, temperature-to-pressure, flow rate, pressure decay.
- **Devices** (`src/simulator/devices.rs`): four state machines — Boiler,
  PressureMeter, FlowMeter, Valve — each with a `tick` that updates its
  readings and derives a status.
- **Plant** (`src/simulator/plant.rs`): the five devices, ticked in
  topology order Boiler 1 → Pressure Meter 1 → Valve 1 → Flow Meter 1 →
  Boiler 2, and the `get_state` snapshot keyed by device id.
- **Controller nodes** (`src/opcua_server/plc1.rs`, `plc2.rs`): each node
  creates one OPC UA variable per device attribute and, on every pass of its
  update loop, writes the numbers as Doubles and the statuses and modes as
  their variant names.
- **Aggregator** (`src/opcua_server/scada_client.rs`): reads every variable
  back with a per-field fallback, decodes status text, rebuilds the devices
  and merges the two node reads into one plant snapshot per cycle.

Modelling choices:
- `f64` is `real`; NaN and rounding are not modelled.
- Every `tick(&mut self, …)` is a pure function from the old record to the
  new one.
- The random draw of `add_noise` is an explicit argument `u` with
  `-p <= u < p`, the half-open range of `gen_range`.
- An OPC UA address space is a map from `NodeId(namespace, identifier)` to a
  `Double` or `String` value. `set_variable_value` on an id that is not
  there leaves the map unchanged; the callers ignore its result.
- An aggregator session is either connected to such a map or unreachable.
  Every failure of a typed read (bad id text, failed service call, missing
  variable, wrong kind) is a `Failure` that the reader replaces by its
  fallback value.

Modules, one file each: `Wrappers` (Option/Result), `Physics`, `Devices`,
`Plant`, `Points` (the address-space stand-in and the `ns=<n>;s=<id>` text
form), `Plc1`, `Plc2`, `Scada`, and `Twin` (the pipeline end to end).

Two behaviours of the code worth knowing:
- Boiler 1, heating from 20.0 in ticks of 0.1 s, reaches exactly 85.0 on
  tick 130 but still reports Heating. Its status comes from the branch taken
  before the snap to the target. It reports Steady from tick 131
  (`Plant.Boiler1ReachesTarget`).
- On a shared device id, `HashMap::extend`
  (src/opcua_server/scada_client.rs:74) lets PLC-2's entry win
  (`Scada.Aggregate`).

## Model

| member | source | states |
|---|---|---|
| Physics.AddNoise | src/simulator/physics.rs:3-7 | zero noise leaves the value unchanged; otherwise the result stays within `value·(1 ± p/100)` on either sign of the value, and a non-negative value stays non-negative when the percent is at most 100 |
| Physics.TemperatureToPressure | src/simulator/physics.rs:9-12 | the linear law: 0 °C is 0 bar, 100 °C is 5 bar, and pressure is one twentieth of the temperature |
| Physics.TemperatureToPressureMonotone | src/simulator/physics.rs:9-12 | a hotter boiler never gives a lower pressure |
| Physics.CalculateFlowRate | src/simulator/physics.rs:14-17 | a closed valve or zero pressure gives no flow; non-negative inputs give non-negative flow |
| Physics.CalculateFlowRateMonotone | src/simulator/physics.rs:14-17 | opening the valve never lowers the flow under non-negative pressure |
| Physics.PressureDecay | src/simulator/physics.rs:19-23 | the result is never negative, is at least upstream minus loss, equals it whenever positive, and, for a non-negative upstream pressure, flow and pipe length, never exceeds the upstream pressure |
| Physics.Clamp | src/simulator/devices.rs:42 | for bounds `lo <= hi`, the result lies in the bounds; it is the input when the input already does, the lower bound below it and the upper bound above it |
| Physics.ClampIsNearest | src/simulator/devices.rs:42 | for bounds `lo <= hi`, the clamped value is the point of the bounds nearest to the input |
| Devices.NewBoiler | src/simulator/devices.rs:22-30 | a new boiler starts at 20 degrees, zero pressure, Off, with the given id and target |
| Devices.BoilerTick | src/simulator/devices.rs:32-58 | ramps `5·dt` toward the target clamped to [0, 150] or snaps onto it; the temperature stays in [0, 150] when the target does; Overheat above 120, Off below 10, otherwise Heating exactly when ramping and Steady exactly when snapping; pressure is the noisy conversion of the new temperature, and within 2% of it when that temperature is non-negative |
| Devices.BoilerRampApproachesTarget | src/simulator/devices.rs:36-43 | from a temperature and target within [0, 150], a ramp step with `0 <= 5·dt` no longer than the remaining distance brings the temperature exactly `5·dt` closer, never past the target |
| Devices.NewPressureMeter | src/simulator/devices.rs:77-83 | a new meter reads 0 and is Normal |
| Devices.MeterTick | src/simulator/devices.rs:85-98 | the reading is the upstream pressure with 1% noise; Critical above 4.5, Warning in (3.5, 4.5], Normal otherwise, each as an if-and-only-if |
| Devices.NewFlowMeter | src/simulator/devices.rs:118-125 | a new flow meter reads zero flow and volume, Normal |
| Devices.FlowMeterTick | src/simulator/devices.rs:127-141 | the flow is the noisy pressure-and-position law, and within 2% of it for non-negative pressure and position; the volume grows by `flow·dt/60`, and never decreases for non-negative pressure, position and `dt`; High above 40, Low below 5, Normal in between |
| Devices.NewValve | src/simulator/devices.rs:169-176 | a new valve is half open, Auto, Partial |
| Devices.ValveTick | src/simulator/devices.rs:178-199 | Manual mode and the dead band [2.5, 3.5] keep the position; in Auto, above 3.5 it opens by 0.02 up to 1 and below 2.5 it closes by 0.02 down to 0; a position in [0, 1] stays there; the status is Open above 0.8, Closed below 0.2, Partial in between, and never Fault |
| Devices.ManualValveHoldsPosition | src/simulator/devices.rs:180 | any run of ticks leaves a Manual valve's position, id and mode unchanged |
| Devices.ValveStaysInRange | src/simulator/devices.rs:184-187 | any run of ticks, in either mode, keeps a valve that starts within [0, 1] within [0, 1] |
| Plant.DeviceIdsDistinct | src/simulator/plant.rs:31-35 | the five device ids are pairwise different |
| Plant.New | src/simulator/plant.rs:29-37 | the initial plant is valid, with targets 85 and 75, both boilers at 20 degrees, the valve half open in Auto, and no volume |
| Plant.Tick | src/simulator/plant.rs:39-48 | standard ids are kept and a valid plant (temperatures, targets and valve position in range) stays valid; the meter reads within 1% of this tick's boiler-1 pressure when that is non-negative; from a valid plant the flow is within 2% of the law applied to this tick's pressure and valve position, and with `dt >= 0` the volume never decreases |
| Plant.Step | src/simulator/plant.rs:43-47 | ticking one device slot changes no other slot |
| Plant.TopologyOrderVisitsEachSlotOnce | src/simulator/plant.rs:40-41 | the topology order names each device exactly once |
| Plant.TickFollowsTopology | src/simulator/plant.rs:39-48 | a plant tick equals running the single-device steps in topology order |
| Plant.TickReadsSameTickUpstream | src/simulator/plant.rs:44-46 | meter, valve and flow meter read the pressure and position produced earlier in the same tick |
| Plant.Boiler2Isolated | src/simulator/plant.rs:47 | boiler 2's tick depends only on its own state, `dt` and its own noise |
| Plant.RunPreservesValid | src/simulator/plant.rs:39-48 | any run of ticks from a valid plant keeps it valid and, with `dt >= 0`, never lowers the total volume |
| Plant.Boiler1Warmup | src/simulator/devices.rs:36-47 | from a new plant with dt 0.1, boiler 1 is at `20 + n/2` degrees and Heating after each of its first 130 ticks |
| Plant.Boiler1ReachesTarget | src/simulator/devices.rs:39-54 | boiler 1 is exactly 85 but still Heating after tick 130, and Steady at 85 after tick 131 |
| Plant.GetState | src/simulator/plant.rs:50-59 | the snapshot holds exactly the five ids, each mapped to a copy of its device; keys equal the devices' own ids exactly when every device carries its standard id |
| Points.SetValue | src/opcua_server/plc1.rs:87-92 | a write replaces only the addressed variable and never creates one |
| Points.WriteAll | src/opcua_server/plc1.rs:84-148 | one pass of writes replaces exactly the written variables that exist and keeps every other variable |
| Points.SetAllReplacesListed | src/opcua_server/plc1.rs:86-148 | a run of `set_variable_value` calls replaces exactly the listed variables that exist and keeps every other variable; an id listed twice gets the same value twice |
| Points.SequentialWritesAreWriteAll | src/opcua_server/plc1.rs:86-148 | writing every id of a write set, in any order, gives the same store as one pass of `WriteAll` |
| Points.ParseNodeId | src/opcua_server/scada_client.rs:167 | a parsed address has a namespace within `u16` range and a non-empty string id |
| Points.ParseRenderRoundTrip | src/opcua_server/scada_client.rs:167 | parsing the `ns=<n>;s=<id>` text of an address whose namespace fits in `u16` and whose string id is not empty gives that address back |
| Points.Ns2Path | src/opcua_server/scada_client.rs:90 | a literal `ns=2;s=…` path is the text form of the namespace-2 address with that identifier |
| Points.ParseNs2Path | src/opcua_server/scada_client.rs:90 | such a path with a non-empty identifier parses to the namespace-2 address whose identifier is everything after `s=` |
| Plc1.Initial | src/opcua_server/plc1.rs:40-69 | PLC-1 creates exactly its nine namespace-2 variables, Double for temperature, target, pressures and position, String for statuses and mode, starting at 0.0 or empty |
| Plc1.CreatesNineVariables | src/opcua_server/plc1.rs:40-69 | the nine variables are distinct |
| Plc1.IdsCarryNoFolderPrefix | src/opcua_server/plc1.rs:29-44 | no variable id begins with the `PLC1.` folder name, nor with `PLC` at all |
| Plc1.Writes | src/opcua_server/plc1.rs:86-148 | one pass writes each of the nine variables, numbers copied and statuses and mode as their variant names |
| Plc1.WritesKeepCreatedKinds | src/opcua_server/plc1.rs:86-148 | each write has the kind its variable was created with |
| Plc1.Publish | src/opcua_server/plc1.rs:80-148 | an update pass keeps the variable set and leaves other variables alone; a store holding the created kinds keeps them; when all nine PLC-1 variables exist, each holds its device attribute |
| Plc1.WriteOrderListsIds | src/opcua_server/plc1.rs:86-148 | the update loop writes each of the nine created variables exactly once |
| Plc1.PublishIsSequentialWrites | src/opcua_server/plc1.rs:86-148 | an update pass equals the loop's nine `set_variable_value` calls made one after another in source order |
| Plc2.Initial | src/opcua_server/plc2.rs:39-57 | PLC-2 creates exactly its seven namespace-2 variables, Double for numbers, String for statuses, starting at 0.0 or empty |
| Plc2.CreatesSevenVariables | src/opcua_server/plc2.rs:39-57 | the seven variables are distinct |
| Plc2.IdsCarryNoFolderPrefix | src/opcua_server/plc2.rs:30-43 | no variable id begins with the `PLC2.` folder name, nor with `PLC` at all |
| Plc2.Writes | src/opcua_server/plc2.rs:73-119 | one pass writes each of the seven variables, numbers copied and statuses as their variant names |
| Plc2.WritesKeepCreatedKinds | src/opcua_server/plc2.rs:73-119 | each write has the kind its variable was created with |
| Plc2.Publish | src/opcua_server/plc2.rs:68-119 | an update pass keeps the variable set and leaves other variables alone; a store holding the created kinds keeps them; when all seven PLC-2 variables exist, each holds its device attribute |
| Plc2.WriteOrderListsIds | src/opcua_server/plc2.rs:74-119 | the update loop writes each of the seven created variables exactly once |
| Plc2.PublishIsSequentialWrites | src/opcua_server/plc2.rs:74-119 | an update pass equals the loop's seven `set_variable_value` calls made one after another in source order |
| Scada.ReadNodeValue | src/opcua_server/scada_client.rs:166-179 | succeeds exactly when the session is connected, the path parses, and the addressed variable exists and holds a Double, and then returns that number |
| Scada.ReadNodeString | src/opcua_server/scada_client.rs:181-194 | succeeds exactly when the session is connected, the path parses, and the addressed variable exists and holds a String, and then returns that text |
| Scada.ReadBackDouble | src/opcua_server/scada_client.rs:166-194 | a number written to an existing variable whose address renders and parses back (namespace within `u16`, non-empty string id) reads back through its text path, and reading it as text fails |
| Scada.ReadBackString | src/opcua_server/scada_client.rs:166-194 | a text written to an existing variable whose address renders and parses back reads back through its text path, and reading it as a number fails |
| Scada.ParseBoilerStatus | src/opcua_server/scada_client.rs:196-204 | each variant name decodes to its variant, and only Off is produced from anything else |
| Scada.ParseMeterStatus | src/opcua_server/scada_client.rs:206-213 | each variant name decodes to its variant, and only Normal is produced from anything else |
| Scada.ParseFlowMeterStatus | src/opcua_server/scada_client.rs:215-222 | each variant name decodes to its variant, and only Normal is produced from anything else |
| Scada.ParseValveMode | src/opcua_server/scada_client.rs:224-230 | each mode name decodes to its mode, and only Auto is produced from anything else |
| Scada.ParseValveStatus | src/opcua_server/scada_client.rs:232-240 | each variant name decodes to its variant, and only Partial is produced from anything else |
| Scada.BoilerStatusRoundTrip | src/opcua_server/scada_client.rs:196-204 | decoding the name a node writes for any boiler status gives that status back |
| Scada.MeterStatusRoundTrip | src/opcua_server/scada_client.rs:206-213 | decoding the name of any pressure-meter status gives it back |
| Scada.FlowMeterStatusRoundTrip | src/opcua_server/scada_client.rs:215-222 | decoding the name of any flow-meter status gives it back |
| Scada.ValveModeRoundTrip | src/opcua_server/scada_client.rs:224-230 | decoding the name of either valve mode gives it back |
| Scada.ValveStatusRoundTrip | src/opcua_server/scada_client.rs:232-240 | decoding the name of any valve status, Fault included, gives it back |
| Scada.DecodingIsCaseSensitive | src/opcua_server/scada_client.rs:196-240 | five wrong-case spellings (`overheat`, `CRITICAL`, `high`, `manual`, `fault`) decode to the default, not to the variant they spell; the general fact follows from the `Parse*` contracts, which yield a non-default variant only for its exact name |
| Scada.FallbackTextsDecodeToDefaults | src/opcua_server/scada_client.rs:93-118 | a failed text read decodes to the same status as unrecognised text |
| Scada.ReadBoiler | src/opcua_server/scada_client.rs:90-101 | the rebuilt boiler carries the fixed id it is read under |
| Scada.ReadPressureMeter | src/opcua_server/scada_client.rs:105-112 | the rebuilt pressure meter carries the fixed id it is read under |
| Scada.ReadValve | src/opcua_server/scada_client.rs:116-125 | the rebuilt valve carries the fixed id it is read under |
| Scada.ReadFlowMeter | src/opcua_server/scada_client.rs:151-160 | the rebuilt flow meter carries the fixed id it is read under |
| Scada.ReadPlc1DataVia | src/opcua_server/scada_client.rs:85-129 | the PLC-1 read never fails and yields exactly boiler 1, pressure meter 1 and valve 1, each under its own id |
| Scada.Plc1Devices | src/opcua_server/scada_client.rs:102-126 | the three rebuilt devices are keyed by their own ids |
| Scada.ReadPlc2DataVia | src/opcua_server/scada_client.rs:131-164 | the PLC-2 read never fails and yields exactly boiler 2 and flow meter 1, each under its own id |
| Scada.Plc2Devices | src/opcua_server/scada_client.rs:148-161 | the two rebuilt devices are keyed by their own ids |
| Scada.Aggregate | src/opcua_server/scada_client.rs:73-77 | a snapshot exists exactly when both reads succeed; it holds the union of their ids, with PLC-2's entry on a shared id and PLC-1's otherwise |
| Scada.AggregateDisjointSize | src/opcua_server/scada_client.rs:73-77 | with disjoint ids the snapshot holds every entry of both reads |
| Scada.PollIsUnion | src/opcua_server/scada_client.rs:66-76 | a cycle's snapshot is the union of the two node reads |
| Scada.MergeCoversPlant | src/opcua_server/scada_client.rs:73-76 | PLC-1's three devices merged with PLC-2's two, each keyed by its own id, give all five plant ids, each device under its own id |
| Scada.PollAlwaysPublishes | src/opcua_server/scada_client.rs:63-78 | whatever the sessions hold, even when unreachable, every cycle publishes a snapshot of exactly the five plant devices |
| Twin.NodeIdSetsDisjoint | src/opcua_server/plc2.rs:39-57 | the two nodes create disjoint variable sets |
| Twin.MissFallsBack | src/opcua_server/scada_client.rs:90 | on a session that is unreachable or serves only the nodes' variables, a namespace-2 path whose identifier starts with `PLC` misses every variable, so a number read yields 0.0 and a text read yields whatever fallback it is given |
| Twin.BoilerReadMisses | src/opcua_server/scada_client.rs:90-101 | on such a session, a boiler read over such paths is the all-fallback boiler |
| Twin.MeterReadMisses | src/opcua_server/scada_client.rs:105-112 | on such a session, a pressure-meter read over such paths is the all-fallback meter |
| Twin.ValveReadMisses | src/opcua_server/scada_client.rs:116-125 | on such a session, a valve read over such paths is the all-fallback valve |
| Twin.FlowMeterReadMisses | src/opcua_server/scada_client.rs:151-160 | on such a session, a flow-meter read over such paths is the all-fallback flow meter |
| Twin.AsWrittenPlc1ReadsFallback | src/opcua_server/scada_client.rs:85-129 | with the literal paths, on a session that is unreachable or serves only the nodes' variables, the PLC-1 read gives the fallback devices whatever those variables hold |
| Twin.AsWrittenPlc2ReadsFallback | src/opcua_server/scada_client.rs:131-164 | with the literal paths, on a session that is unreachable or serves only the nodes' variables, the PLC-2 read gives the fallback devices whatever those variables hold |
| Twin.AsWrittenPollIsFallback | src/opcua_server/scada_client.rs:90-153 | as written, with both stores holding their created variables and kinds, every cycle publishes the same all-fallback snapshot, whatever state the plant is in |
| Twin.AsWrittenLosesBoiler1Temperature | src/opcua_server/scada_client.rs:90 | from a new plant copied onto freshly created nodes, boiler 1 is at 20 degrees, but the snapshot a polling cycle publishes holds boiler 1 at 0.0 |
| Twin.NumberReadBack | src/opcua_server/scada_client.rs:166-179 | a Double at an address that renders and parses back reads back through the address's text form |
| Twin.TextReadBack | src/opcua_server/scada_client.rs:181-194 | a String at an address that renders and parses back reads back through the address's text form |
| Twin.BoilerReadBack | src/opcua_server/scada_client.rs:90-101 | a boiler exposed on four variables whose addresses render and parse back is rebuilt unchanged |
| Twin.CorrectedPlc1RoundTrip | src/opcua_server/plc1.rs:80-148 | for a plant with its standard ids and a store holding the created variables and kinds, reading PLC-1's registered ids after an update pass gives back exactly the three devices the node copied |
| Twin.CorrectedPlc2RoundTrip | src/opcua_server/plc2.rs:68-119 | for a plant with its standard ids and a store holding the created variables and kinds, reading PLC-2's registered ids after an update pass gives back exactly the two devices the node copied |
| Twin.NodeMapsMakePlantState | src/simulator/plant.rs:50-59 | the two nodes' device maps merged are the plant's own snapshot |
| Twin.CorrectedPollMatchesPlant | src/opcua_server/scada_client.rs:63-78 | for a plant with its standard ids and stores holding the created variables and kinds, over the registered ids a polling cycle publishes exactly `get_state` of the plant the nodes copied |

## Left out

- The broadcast hub and the WebSocket bridge (`src/ws_bridge`): delivering a snapshot to observers is I/O.
- Tokio tasks, the `RwLock`s and the cadences of the tick loop, the node loops and the poll loop. Each loop is modelled as one pass; their interleaving is concurrency.
- Source timestamps written with every value: clock reads.
- The OPC UA stack itself: server and client setup, endpoints, certificates, sessions, browse folders, retries.
- `NodeId` text forms other than `ns=<n>;s=<id>` (numeric, GUID and opaque ids, a missing `ns=`). `NodeId::from_str` is library code and is modelled only for this form: the model rejects an empty string id and accepts any other characters after `s=`.
- IEEE-754 behaviour of `f64`: rounding, NaN and infinities. `max`, `min`, `clamp` and `signum` are modelled without them.
- The empty-range panic of `gen_range` for a non-positive noise percent: it is the precondition of `Physics.AddNoise`. Every caller passes 1 or 2.
- The startup failures of the aggregator (`connect_to_endpoint` with `?`) and of the servers (`unwrap`).
- Scada.ReadBoiler: its contract states only the rebuilt id; its field values are stated through `Twin.BoilerReadBack` and `Twin.BoilerReadMisses`.
- Scada.ReadPressureMeter: its contract states only the rebuilt id; its field values are stated through `Twin.CorrectedPlc1RoundTrip` and `Twin.MeterReadMisses`.
- Scada.ReadValve: its contract states only the rebuilt id; its field values are stated through `Twin.CorrectedPlc1RoundTrip` and `Twin.ValveReadMisses`.
- Scada.ReadFlowMeter: its contract states only the rebuilt id; its field values are stated through `Twin.CorrectedPlc2RoundTrip` and `Twin.FlowMeterReadMisses`.
- Plant.Tick: the volume increment `flow·dt/60` is not repeated here. `Devices.FlowMeterTick` states it, and `Plant.TickReadsSameTickUpstream` ties the plant's flow meter to that tick.

## Findings

| source | as written | input that shows it | evidently intended | confidence | as-written member | corrected member |
|---|---|---|---|---|---|---|
| src/opcua_server/scada_client.rs:90-153 | the aggregator reads `ns=2;s=PLC1.Boiler1.Temperature` and the like, but the nodes create `ns=2;s=Boiler1.Temperature` (plc1.rs:41, plc2.rs:40); the folder name is only a browse path, so every read misses and falls back | `Plant::new()` copied by both nodes: boiler 1 is at 20.0, and the published snapshot has 0.0, Off, and likewise for every device | read the ids the nodes create, so that a cycle publishes the plant's state | high, not executed | Twin.AsWrittenPollIsFallback | Twin.CorrectedPollMatchesPlant |

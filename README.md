# EvMatsim core in Dafny

This project models the core of EvMatsim, the MATSim-based toolkit for
electric-vehicle charger placement and traffic-flow calibration, and proves
properties of that model. One module per source file; shared helpers have
their own modules.

- **Flow calibration.**
  - `FlowSimDataset` (flowsim_dataset.dfy) covers the dataset build: dense node and link indices, per-link hourly targets from the counts file, sensor indices, cluster lists, the TAM cache file name, `save_clusters`, and the plan file written from fitted flows.
  - `GradientFlowMatching` covers the fitting loop of `run_gradient_flow_matching.py`: clamp, forward pass TAM·W, masked MSE and MAD, best-model tracking, and the log and save schedule.
  - `FlowSimEnv` covers the Gym environment: trips are loaded onto cached shortest paths, the reward is computed, and the best reward is tracked.
- **OSM to MATSim.**
  - `OsmNetworkReader` covers `SupersonicOsmNetworkReader`: oneway, lanes, free-speed and capacity rules; cutting ways into segments (loops included); link creation in both directions; and adding links to the network, where a repeated link id is an error.
  - `SensorMatching` holds the sensor pipeline shared by the three converters. Each converter has its own module: `GetNetworkAndSensors`, `MatsimOsm2matsim` (the MATSim-side `Osm2matsim`) and `Osm2matsim` (the stand-alone container copy). The pipeline reads the sensor CSV, greedily matches each sensor to its nearest link or node, and writes 24 hourly volumes per matched sensor.
- **Dynamic charging.** `DynamicCharging` models `DynamicChargingLogic` as a class. It holds the insertion-ordered map of plugged vehicles and the arrival queue. One charging pass charges the plugged vehicles first and then plugs the arrivals. Removing a vehicle unplugs it.
- **Charger placement.**
  - `Chargers` holds the charger kinds and constants.
  - `CreateChargers` covers the chargers.xml generators.
  - `MatsimXmlDataset` covers the graph dataset of the placement environment: an edge-attribute row per link, charger flags and cost, and min-max normalisation.
  - `ScriptsUtil` covers `get_str`, epsilon-greedy selection and the running-average Q update.
  - `EvUtil` covers the older driver's helpers.
- **Reward servers.**
  - `Multipart` covers the upload handling shared by both servers.
  - `FlowReward` covers the flow reward of `FlowRewardServer`.
  - `OcpReward` covers the charge and time rewards of `OCPRewardServer`.
- **Events.** `ChangeLinkEvents` and `ChargingStartEvents` cover the attribute maps and the `convert` round trips.
- **Shared.** `Text` holds integer printing and parsing, substring search, Python `str.replace` with an empty replacement and Java `String.split`. `Decimals` holds decimal printing and parsing. `Wrappers` holds `Result` and `Option`.

Imperative source code is modelled as Dafny methods and classes. Each method
is proved against a specification function, and the properties are proved as
lemmas about those functions. Python and Java exceptions become `Err` values
of `Result`. Randomness, numerical oracles and the outside world are
parameters.

Where the code departs from its own documentation, the model follows the
code:
- The traffic assignment matrix is computed by a compiled `get_TAM` routine. Its source is not part of this model. The model takes the TAM as an input of shape (E, Z, Z), and `build_TAM`'s cache decision is modelled.
- An empty sensor set raises no error in the code. The masked loss of an empty selection is a floating-point NaN.
- W is clamped to be non-negative before each forward pass and once after the loop, not after each update. The best model is the copy taken after the optimizer step, so it is not clamped.
- Trip counts of a plan cell are truncated, not rounded.
- The environment's reward uses unweighted shortest paths and adds one to every node row on the path.
- The TAM cache file is named after the network file's stem and the cluster count. It is not written atomically.
- `GetNetworkAndSensors.main` uses `outputFilePath` on line 38, before it is declared on line 61, so it does not compile as written. The model reads the output path from the fourth argument and uses it only in the five-argument case, which is evidently the intent.

## Model

| member | source | states |
|---|---|---|
| Chargers.TypeName | contribs/evWireless/evsim/classes/chargers.py:22-46 | each kind's `type` text ("none", "dynamic", "default") is non-empty |
| Chargers.KindOfType | contribs/evWireless/evsim/classes/chargers.py:22-46 | a recognised `type` text names the kind whose `type` it is |
| Chargers.KindOfTypeName | contribs/evWireless/evsim/classes/chargers.py:22-46 | reading back a kind's `type` text gives the kind again |
| Chargers.PlugPower | contribs/evWireless/evsim/classes/chargers.py:23-47 | plug power is 0 exactly for the none charger (70 dynamic; static 150, or 100 in contribs/ev/evsim/classes/chargers.py) |
| Chargers.PlugCount | contribs/evWireless/evsim/classes/chargers.py:24-48 | plug count is 0 exactly for the none charger (9999 dynamic; static 1, or 5 in the ev copy) |
| Chargers.Price | contribs/evWireless/evsim/classes/chargers.py:25-49 | a price can be read exactly for the dynamic and static kinds of the wireless copy, and it is positive; the none charger and the ev copy have none |
| CreateChargers.ActionErrSticks | contribs/evWireless/evsim/scripts/create_chargers.py:46-59 | once an action fails (bad charger index or unmapped edge) the writer's result stays that error |
| CreateChargers.CreateChargersXmlGymnasium | contribs/evWireless/evsim/scripts/create_chargers.py:44-59 | the loop over the actions yields the elements of the action-vector specification, or its first error |
| CreateChargers.Placed | contribs/evWireless/evsim/scripts/create_chargers.py:46-48 | the edge indices with a non-zero action, ascending, and all of them |
| CreateChargers.ActionElementsOk | contribs/evWireless/evsim/scripts/create_chargers.py:46-50 | the writer succeeds exactly when every non-zero action indexes the charger list and its edge index has a link id |
| CreateChargers.ActionElementsPlaced | contribs/evWireless/evsim/scripts/create_chargers.py:46-59 | on success one element per non-zero action, in ascending index order, with id str(idx), the inverse-mapped link and the chosen kind's fields |
| CreateChargers.ActionIdsDistinct | contribs/evWireless/evsim/scripts/create_chargers.py:46-54 | the ids written are pairwise different |
| CreateChargers.SampleFrom | contribs/evWireless/evsim/scripts/create_chargers.py:86 | a draw without replacement of k values gives k values of the population |
| CreateChargers.SampleFromMultiset | contribs/evWireless/evsim/scripts/create_chargers.py:86 | no position of the population is drawn twice (the draw is a sub-multiset) |
| CreateChargers.SampleFromDistinct | contribs/evWireless/evsim/scripts/create_chargers.py:86-88 | drawing from distinct values gives distinct values |
| CreateChargers.Sample | contribs/evWireless/evsim/scripts/create_chargers.py:86-88 | `choice(..., replace=False)` succeeds exactly when 0 <= k <= population size, giving k population values |
| CreateChargers.SetDiff | contribs/evWireless/evsim/scripts/create_chargers.py:87 | `setdiff1d`: distinct values, exactly those of the first list that are not in the second |
| CreateChargers.Resample | contribs/evWireless/evsim/scripts/create_chargers.py:140 | `choice(..., k)` with replacement succeeds unless k < 0 or it draws from an empty list, and gives k population values |
| CreateChargers.WriteElements | contribs/evWireless/evsim/scripts/create_chargers.py:90-112 | the two loops with the running id give the dynamic elements then the static ones |
| CreateChargers.CreateChargersXml | contribs/evWireless/evsim/scripts/create_chargers.py:79-112 | the method computes the split and the elements of the create_chargers_xml specification |
| CreateChargers.SplitFacts | contribs/evWireless/evsim/scripts/create_chargers.py:79-88 | int(n * percent_dynamic) dynamic links; dynamic and static counts add up to n; all are input links; the static links are distinct and disjoint from the dynamic ones |
| CreateChargers.ElementsRecords | contribs/evWireless/evsim/scripts/create_chargers.py:90-112 | ids 0, 1, 2, ... in order; dynamic elements carry "70", "9999", "dynamic"; static ones "100.0", "1" and no type |
| CreateChargers.ElementsLinks | contribs/evWireless/evsim/scripts/create_chargers.py:91-108 | the elements' links are the dynamic links followed by the static ones |
| CreateChargers.CreatedRecords | contribs/evWireless/evsim/scripts/create_chargers.py:79-112 | on success one charger per input link, the first int(n * percent_dynamic) dynamic, the rest static, ids consecutive from 0 |
| CreateChargers.CreatedLinks | contribs/evWireless/evsim/scripts/create_chargers.py:85-108 | every charger is on an input link, no link carries both a dynamic and a static charger, and static links do not repeat |
| CreateChargers.DistinctLinksSucceed | contribs/evWireless/evsim/scripts/create_chargers.py:79-88 | with distinct links and 0 <= percent_dynamic <= 1 both draws succeed |
| CreateChargers.DuplicateLinkFails | contribs/evWireless/evsim/scripts/create_chargers.py:85-88 | with links ["1", "1"] and no dynamic chargers the static draw asks for 2 of 1 remaining value and fails |
| CreateChargers.SetDiffTwice | contribs/evWireless/evsim/scripts/create_chargers.py:87 | `setdiff1d` keeps a repeated value once |
| CreateChargers.ChargerCount | contribs/evWireless/evsim/scripts/create_chargers.py:132-138 | --num_chargers wins; else int(num_links * percent / 100) (the floor for a non-negative percent); with neither a ValueError |
| CreateChargers.GeneratedCount | contribs/evWireless/evsim/scripts/create_chargers.py:130-143 | on success main writes as many chargers as its count rule gives, all on network links |
| CreateChargers.ActionElement | contribs/evWireless/evsim/scripts/create_chargers.py:51-59 | the element for one placing action: id str(idx), the link, and the chosen kind's plug power, plug count and type as text |
| CreateChargers.ActionElements | contribs/evWireless/evsim/scripts/create_chargers.py:46-59 | the elements of the first n action entries in index order, skipping zero actions; an action past the charger list is IndexError, an unmapped edge index KeyError (specification of the writer loop; its properties are ActionElementsOk and ActionElementsPlaced) |
| CreateChargers.ActionsValid | contribs/evWireless/evsim/scripts/create_chargers.py:46-50 | every non-zero action indexes the charger list and its edge index has a link id |
| CreateChargers.NumDynamic | contribs/evWireless/evsim/scripts/create_chargers.py:82 | the dynamic count int(num_chargers * percent_dynamic), truncated toward zero |
| CreateChargers.Split | contribs/evWireless/evsim/scripts/create_chargers.py:82-88 | the dynamic links drawn without replacement from all links, then the static ones drawn from the distinct links left; a missing percent_dynamic is a TypeError (its properties are SplitFacts) |
| CreateChargers.DynamicElement | contribs/evWireless/evsim/scripts/create_chargers.py:92-100 | a dynamic element: the running id, the link, "70", "9999" and type "dynamic" |
| CreateChargers.StaticElement | contribs/evWireless/evsim/scripts/create_chargers.py:103-111 | a static element: the running id, the link, "100.0", "1" and no type |
| CreateChargers.Elements | contribs/evWireless/evsim/scripts/create_chargers.py:90-112 | the dynamic elements then the static ones, numbered from 0 (its properties are ElementsRecords and ElementsLinks) |
| CreateChargers.Created | contribs/evWireless/evsim/scripts/create_chargers.py:79-112 | create_chargers_xml without the file: the split, then its elements, or the split's error (its properties are CreatedRecords and CreatedLinks) |
| CreateChargers.Generated | contribs/evWireless/evsim/scripts/create_chargers.py:130-143 | main without the files: the count rule, a draw of that many links with replacement, then create_chargers_xml on them (its property is GeneratedCount) |
| CreateChargers.Without | contribs/evWireless/evsim/scripts/create_chargers.py:86 | dropping the drawn position from the population keeps every other element in order and shortens it by one |
| CreateChargers.WithoutDistinct | contribs/evWireless/evsim/scripts/create_chargers.py:86 | dropping a drawn position of distinct values removes that value and keeps the rest distinct, so a draw without replacement cannot repeat it |
| CreateChargers.WithoutMultiset | contribs/evWireless/evsim/scripts/create_chargers.py:86 | dropping a drawn position removes exactly one occurrence of its value |
| CreateChargers.Links | contribs/evWireless/evsim/scripts/create_chargers.py:91-108 | the link of every element, in order, one per element (ElementsLinks) |
| DynamicCharging.ElectricVehicle.constructor | contribs/evWireless/src/main/java/org/matsim/contrib/ev/charging/DynamicChargingLogic.java:43-46 | a vehicle holds the id, capacity, charging-power rule (the power as a function of the charge) and charge it was given |
| DynamicCharging.ChargeAfter | contribs/evWireless/src/main/java/org/matsim/contrib/ev/charging/DynamicChargingLogic.java:45 | `Math.min(old + energy, capacity)`: never above capacity nor above old + energy, and equal to one of them |
| DynamicCharging.EnergyEntry | contribs/evWireless/src/main/java/org/matsim/contrib/ev/charging/DynamicChargingLogic.java:43-47 | the energy event names the vehicle, its new charge is at most the capacity, and its energy is new charge minus old |
| DynamicCharging.Energies | contribs/evWireless/src/main/java/org/matsim/contrib/ev/charging/DynamicChargingLogic.java:39-48 | one energy event per vehicle of the pass |
| DynamicCharging.EnergyLog | contribs/evWireless/src/main/java/org/matsim/contrib/ev/charging/DynamicChargingLogic.java:39-48 | one energy event per plugged vehicle, in plugging order |
| DynamicCharging.PlugsCleanlyTail | contribs/evWireless/src/main/java/org/matsim/contrib/ev/charging/DynamicChargingLogic.java:58-63 | a queue plugs cleanly exactly when its head is not plugged and has a listener, and the rest plugs cleanly after it |
| DynamicCharging.PlugOkIff | contribs/evWireless/src/main/java/org/matsim/contrib/ev/charging/DynamicChargingLogic.java:50-63 | plugging the queue finishes without an exception exactly when the queued ids are distinct, none is plugged yet and each has a listener |
| DynamicCharging.PlugOkOrder | contribs/evWireless/src/main/java/org/matsim/contrib/ev/charging/DynamicChargingLogic.java:50-55 | after it completes normally the arrival queue is empty and the queued ids follow the plugged ones in arrival order |
| DynamicCharging.PlugOkMap | contribs/evWireless/src/main/java/org/matsim/contrib/ev/charging/DynamicChargingLogic.java:50-59 | after it completes normally every queued vehicle is plugged under its id, earlier entries are untouched and nothing else is added |
| DynamicCharging.PlugKeepsValid | contribs/evWireless/src/main/java/org/matsim/contrib/ev/charging/DynamicChargingLogic.java:58-61 | plugging keeps the insertion-ordered map consistent (each id once, each mapped to its vehicle) however it ends |
| DynamicCharging.PlugSuffix | contribs/evWireless/src/main/java/org/matsim/contrib/ev/charging/DynamicChargingLogic.java:50-55 | whatever happens the vehicles left queued are the tail of the queue that was not reached |
| DynamicCharging.PlugClash | contribs/evWireless/src/main/java/org/matsim/contrib/ev/charging/DynamicChargingLogic.java:58-61 | an IllegalArgumentException leaves the offending vehicle at the head of the queue, already put into the map, and its id was plugged before or queued earlier |
| DynamicCharging.LookupDistinct | contribs/evWireless/src/main/java/org/matsim/contrib/ev/charging/DynamicChargingLogic.java:39-41 | the plugged vehicles in plugging order are pairwise different objects, so charging one does not touch another |
| DynamicCharging.RemoveAt | contribs/evWireless/src/main/java/org/matsim/contrib/ev/charging/DynamicChargingLogic.java:80 | removing a key from the ordered map removes exactly that id and keeps the others distinct |
| DynamicCharging.RemoveKeepsValid | contribs/evWireless/src/main/java/org/matsim/contrib/ev/charging/DynamicChargingLogic.java:80 | removing a plugged id keeps the ordered map consistent |
| DynamicCharging.NotPluggedVehicle | contribs/evWireless/src/main/java/org/matsim/contrib/ev/charging/DynamicChargingLogic.java:74 | a vehicle whose id is not plugged is none of the plugged vehicles, so a queued vehicle is not charged in the pass |
| DynamicCharging.DynamicChargingLogic.constructor | contribs/evWireless/src/main/java/org/matsim/contrib/ev/charging/DynamicChargingLogic.java:27-35 | a new logic has no plugged, queued or listened-to vehicle |
| DynamicCharging.DynamicChargingLogic.PluggedVehicles | contribs/evWireless/src/main/java/org/matsim/contrib/ev/charging/DynamicChargingLogic.java:90-95 | getPluggedVehicles is exactly the plugged map's values, in plugging order |
| DynamicCharging.DynamicChargingLogic.QueuedVehicles | contribs/evWireless/src/main/java/org/matsim/contrib/ev/charging/DynamicChargingLogic.java:97-100 | getQueuedVehicles is always empty |
| DynamicCharging.DynamicChargingLogic.AddVehicle | contribs/evWireless/src/main/java/org/matsim/contrib/ev/charging/DynamicChargingLogic.java:72-76 | the vehicle joins the end of the arrival queue and its listener replaces any earlier one; nothing else changes |
| DynamicCharging.DynamicChargingLogic.AddVehicleWithoutListener | contribs/evWireless/src/main/java/org/matsim/contrib/ev/charging/DynamicChargingLogic.java:66-70 | as addVehicle, with an anonymous listener |
| DynamicCharging.DynamicChargingLogic.RemoveVehicle | contribs/evWireless/src/main/java/org/matsim/contrib/ev/charging/DynamicChargingLogic.java:78-88 | a plugged vehicle leaves the plugged map and the listener map with an end event (a missing listener is a NullPointerException); a vehicle not plugged changes nothing; the queue is never touched |
| DynamicCharging.DynamicChargingLogic.ChargePlugged | contribs/evWireless/src/main/java/org/matsim/contrib/ev/charging/DynamicChargingLogic.java:39-48 | every plugged vehicle's charge becomes min(old + power * period, capacity), the power taken from its rule at the old charge, and one energy event per vehicle is logged, in order |
| DynamicCharging.DynamicChargingLogic.ChargeAll | contribs/evWireless/src/main/java/org/matsim/contrib/ev/charging/DynamicChargingLogic.java:40-48 | the iterator loop charges each vehicle and its events are the pass's events |
| DynamicCharging.DynamicChargingLogic.ChargeOne | contribs/evWireless/src/main/java/org/matsim/contrib/ev/charging/DynamicChargingLogic.java:41-47 | one vehicle charged, with energy = new charge - old charge in its event |
| DynamicCharging.DynamicChargingLogic.PlugArriving | contribs/evWireless/src/main/java/org/matsim/contrib/ev/charging/DynamicChargingLogic.java:50-63 | the queue is plugged in order, each removed after plugging, until it is empty or a vehicle fails |
| DynamicCharging.DynamicChargingLogic.ChargeVehicles | contribs/evWireless/src/main/java/org/matsim/contrib/ev/charging/DynamicChargingLogic.java:37-56 | charge first, then plug: vehicles plugged before the call are charged, vehicles queued get no energy in this call, and on normal completion the queue is empty |
| DynamicCharging.Charged | contribs/evWireless/src/main/java/org/matsim/contrib/ev/charging/DynamicChargingLogic.java:43-45 | the charge after one pass: min(old + power * period, capacity), where the power is the vehicle's charging power asked at the charge the pass starts from |
| DynamicCharging.PassEnergy | contribs/evWireless/src/main/java/org/matsim/contrib/ev/charging/DynamicChargingLogic.java:44 | the energy a pass offers: the charging power times the charge period |
| DynamicCharging.Plug | contribs/evWireless/src/main/java/org/matsim/contrib/ev/charging/DynamicChargingLogic.java:50-63 | plugging the arrival queue in order: each vehicle is put into the ordered map (a known id keeps its place), an id already plugged raises IllegalArgumentException after the put, and a vehicle without a listener raises NullPointerException after its start event; the failing vehicle stays at the queue's head (its properties are PlugOkIff, PlugOkOrder, PlugOkMap, PlugSuffix and PlugClash) |
| DynamicCharging.ValidPlugged | contribs/evWireless/src/main/java/org/matsim/contrib/ev/charging/DynamicChargingLogic.java:27 | the LinkedHashMap of plugged vehicles: its insertion order lists each id once, every listed id is a key, and each key maps to the vehicle with that id |
| DynamicCharging.PlugsCleanly | contribs/evWireless/src/main/java/org/matsim/contrib/ev/charging/DynamicChargingLogic.java:50-63 | the queue plugs without an exception exactly when its ids are distinct, none is plugged already, and each has a listener (proved in PlugOkIff) |
| DynamicCharging.Lookup | contribs/evWireless/src/main/java/org/matsim/contrib/ev/charging/DynamicChargingLogic.java:39 | the vehicles the values iterator visits: the map's value for each id in insertion order |
| DynamicCharging.DynamicChargingLogic.Valid | contribs/evWireless/src/main/java/org/matsim/contrib/ev/charging/DynamicChargingLogic.java:27-29 | the invariant every operation keeps: the plugged map is a consistent insertion-ordered map |
| DynamicCharging.Ids | contribs/evWireless/src/main/java/org/matsim/contrib/ev/charging/DynamicChargingLogic.java:50-59 | the ids of the queued vehicles, one per vehicle in queue order (PlugOkIff, PlugOkOrder) |
| ChangeLinkEvents.Attributes | contribs/ev/src/main/java/org/matsim/contrib/ev/charging/ChangeLinkEvent.java:45-52 | getAttributes adds "old_link", "current_link" and "vehicle" with the ids' text to the base map and changes no other key |
| ChangeLinkEvents.Convert | contribs/ev/src/main/java/org/matsim/contrib/ev/charging/ChangeLinkEvent.java:54-61 | convert keeps the generic event's time and reads the three ids from those keys; a missing key is a failure (a null id) |
| ChangeLinkEvents.ConvertAttributes | contribs/ev/src/main/java/org/matsim/contrib/ev/charging/ChangeLinkEvent.java:21-61 | converting an event's attributes back gives the same time, old link, current link and vehicle |
| ChargingStartEvents.Attributes | contribs/rlev/src/main/java/org/matsim/contrib/rlev/charging/ChargingStartEvent.java:64-71 | getAttributes adds "charger", "vehicle" and "charge" (printed as `charge + ""`) and changes no other key |
| ChargingStartEvents.Convert | contribs/rlev/src/main/java/org/matsim/contrib/rlev/charging/ChargingStartEvent.java:73-80 | convert succeeds exactly when both ids and the charge are present and the charge parses with Double.parseDouble (an exponent included); it keeps the time, reads the two ids and gives the parsed value; a missing attribute is a NullPointerException and an unparsable charge a NumberFormatException |
| ChargingStartEvents.Padded | contribs/rlev/src/main/java/org/matsim/contrib/rlev/charging/ChargingStartEvent.java:69-78 | a parsed charge without fraction digits gets the one zero digit Java prints, and its value is unchanged |
| ChargingStartEvents.ConvertAttributes | contribs/rlev/src/main/java/org/matsim/contrib/rlev/charging/ChargingStartEvent.java:40-80 | converting an event's attributes back preserves time, charger, vehicle and charge |
| EvUtil.CreateChargersXml | contribs/ev/evsim/util.py:20-26 | one charger per input link, in input order, with id str(i + 1), power "100.0", count "5" and no type |
| EvUtil.ChargerIds | contribs/ev/evsim/util.py:25-26 | the ids 1..n read back as their positions plus one and are pairwise different |
| EvUtil.FirstLastIteration | contribs/ev/evsim/util.py:49-52 | the position of the first `lastIteration` param, or the end when there is none |
| EvUtil.SetLastIteration | contribs/ev/evsim/util.py:49-52 | the param loop with its `break` gives the params of the updated module |
| EvUtil.FirstIsFirst | contribs/ev/evsim/util.py:49-52 | a position before which no param is `lastIteration` and at which one is, is the first such position |
| EvUtil.UpdateLastIteration | contribs/ev/evsim/util.py:40-52 | each module is replaced by its updated form, in order |
| EvUtil.UpdatedModuleSpec | contribs/ev/evsim/util.py:46-52 | only the first `lastIteration` param of a module named "controler" gets the new value as text; every other param and module is unchanged |
| EvUtil.MonteCarlo | contribs/ev/evsim/util.py:68-69 | np.random.choice draws num_chargers ids, each one of link_ids; a negative count, or a positive count from an empty list, fails |
| EvUtil.MonteCarloIgnoresResults | contribs/ev/evsim/util.py:68-69 | the result does not depend on `algorithm_results` |
| EvUtil.IsLastIteration | contribs/ev/evsim/util.py:50 | a param is the one named "lastIteration" |
| EvUtil.UpdatedModule | contribs/ev/evsim/util.py:46-52 | the module after the update: a "controler" module's first `lastIteration` param gets the new value as text, and anything else is left as it was (its property is UpdatedModuleSpec) |
| Text.NatRoundTrip | contribs/ev/evsim/util.py:26 | reading back `str(i+1)` gives i+1 |
| Text.NatToStringInjective | contribs/ev/evsim/util.py:26 | different numbers print differently, so the generated charger ids are distinct |
| Text.IntRoundTrip | contribs/evWireless/evsim/gradient_flow_matching/flowsim_dataset.py:126 | `int(str(i)) == i` for every integer |
| Text.JavaParseInt | matsim/src/main/java/org/matsim/osm2matsim/GetNetworkAndSensors.java:62 | Integer.parseInt returns a value in the 32-bit range or throws NumberFormatException for its input |
| Text.JavaParseIntPrinted | matsim/src/main/java/org/matsim/osm2matsim/GetNetworkAndSensors.java:62 | Integer.parseInt of a printed integer gives it back exactly when it fits in 32 bits, and throws otherwise |
| Text.Trunc | contribs/ev/evsim/scripts/util.py:80 | `int(x)` truncates toward zero: the result is within one of x on x's side of zero |
| Text.IndexFrom | contribs/evWireless/src/main/java/org/matsim/contrib/ev/FlowRewardServer.java:316 | the first occurrence of a pattern at or after a position, or -1 when there is none |
| Text.LastIndexFrom | contribs/evWireless/src/main/java/org/matsim/contrib/ev/FlowRewardServer.java:325 | the last occurrence of a pattern at or before a position, or -1 when there is none |
| Text.ContainsIff | contribs/evWireless/src/main/java/org/matsim/contrib/ev/FlowRewardServer.java:316 | String.contains holds exactly when the pattern occurs somewhere |
| Text.RemoveAllAbsent | contribs/ev/evsim/scripts/util.py:79-80 | str.replace(pat, "") changes nothing when pat does not occur |
| Text.RemoveCharGone | contribs/ev/evsim/scripts/util.py:79 | removing every occurrence of a one-character pattern leaves none of that character |
| Text.FieldsJoin | contribs/evWireless/src/main/java/org/matsim/contrib/ev/FlowRewardServer.java:169 | the fields between the delimiters, joined with the delimiter, give the string back |
| Text.FieldsOfJoin | contribs/evWireless/src/main/java/org/matsim/contrib/ev/FlowRewardServer.java:169 | splitting a joined list of delimiter-free fields gives the fields back |
| Text.DropTrailingEmpty | contribs/evWireless/src/main/java/org/matsim/contrib/ev/FlowRewardServer.java:169 | String.split drops only trailing empty fields |
| Text.SplitOfJoin | contribs/evWireless/src/main/java/org/matsim/contrib/ev/FlowRewardServer.java:169 | String.split of a joined list whose last field is not empty gives the list back |
| Text.NatToString | contribs/ev/evsim/util.py:26 | str of a natural number: at least one decimal digit and no leading zero (read back by NatRoundTrip, one-to-one by NatToStringInjective) |
| Text.DigitsValueOfNatToString | contribs/ev/evsim/util.py:26 | the digits printed for n denote n |
| Text.ParseNat | contribs/evWireless/evsim/gradient_flow_matching/flowsim_dataset.py:126 | defines reading a non-empty run of decimal digits as the number they denote (NatRoundTrip) |
| Text.IntToString | contribs/evWireless/evsim/gradient_flow_matching/flowsim_dataset.py:126 | str of an integer: a minus sign before the digits of a negative one, never empty (read back by IntRoundTrip) |
| Text.ParseInt | contribs/evWireless/evsim/gradient_flow_matching/flowsim_dataset.py:126 | defines int() on an optional minus sign and digits (IntRoundTrip) |
| Text.IndexOf | contribs/evWireless/src/main/java/org/matsim/contrib/ev/FlowRewardServer.java:324 | String.indexOf from the start: -1 or a position in the string (its occurrence properties in IndexFrom) |
| Text.LastIndexOf | contribs/evWireless/src/main/java/org/matsim/contrib/ev/FlowRewardServer.java:325 | String.lastIndexOf over the whole string: -1 or a position in the string (its occurrence properties in LastIndexFrom) |
| Text.Contains | contribs/evWireless/src/main/java/org/matsim/contrib/ev/FlowRewardServer.java:316 | defines String.contains as indexOf being non-negative (ContainsIff) |
| Text.OccursAtContains | contribs/evWireless/src/main/java/org/matsim/contrib/ev/FlowRewardServer.java:316 | a pattern occurring at some position makes contains hold |
| Text.RemoveAll | contribs/ev/evsim/scripts/util.py:79 | defines str.replace(pat, "") scanning left to right (RemoveAllAbsent, RemoveCharGone) |
| Text.Fields | contribs/evWireless/src/main/java/org/matsim/contrib/ev/FlowRewardServer.java:169 | the fields between the delimiters: at least one, empty ones kept (FieldsJoin, FieldsOfJoin) |
| Text.Join | contribs/evWireless/src/main/java/org/matsim/contrib/ev/FlowRewardServer.java:169 | defines putting the delimiter between consecutive fields, the inverse of splitting (FieldsJoin) |
| Text.JavaSplit | matsim/src/main/java/org/matsim/osm2matsim/GetNetworkAndSensors.java:86 | defines String.split with a literal delimiter: the whole string when the delimiter is absent, otherwise the fields without trailing empty ones (SplitOfJoin) |
| Text.AbsentIndex | contribs/evWireless/src/main/java/org/matsim/contrib/ev/FlowRewardServer.java:169 | a delimiter the string does not contain is not found |
| Text.DelimAfterField | contribs/evWireless/src/main/java/org/matsim/contrib/ev/FlowRewardServer.java:169 | in a field, a delimiter and the rest, the first delimiter is the one after the field |
| Text.At | matsim/src/main/java/org/matsim/osm2matsim/GetNetworkAndSensors.java:95 | defines Java array indexing: the element, or ArrayIndexOutOfBoundsException past the end (TwentySixFieldsFail) |
| Decimals.ScanWhole | contribs/rlev/src/main/java/org/matsim/contrib/rlev/charging/ChargingStartEvent.java:78 | Double.parseDouble's scan over the integer digits accumulates their value |
| Decimals.ScanFraction | contribs/rlev/src/main/java/org/matsim/contrib/rlev/charging/ChargingStartEvent.java:78 | the scan over the fraction digits collects them in order |
| Decimals.ParsePrint | contribs/rlev/src/main/java/org/matsim/contrib/rlev/charging/ChargingStartEvent.java:69-78 | parsing the printed form `charge + ""` (at least one fraction digit, and an exponent when Java prints one) gives the same decimal back, with Python's float() and with Double.parseDouble |
| Decimals.FracValue | contribs/rlev/src/main/java/org/matsim/contrib/rlev/charging/ChargingStartEvent.java:78 | the value of the fraction digits lies in [0, 1] |
| Decimals.Pow10 | contribs/rlev/src/main/java/org/matsim/contrib/rlev/charging/ChargingStartEvent.java:78 | a power of ten is positive, and at least 10 for a positive exponent |
| Decimals.Value | contribs/rlev/src/main/java/org/matsim/contrib/rlev/charging/ChargingStartEvent.java:78 | defines the real number a numeral denotes: sign, whole part plus fraction, times ten to the exponent (ParseDoublePrinted) |
| Decimals.DigitString | contribs/rlev/src/main/java/org/matsim/contrib/rlev/charging/ChargingStartEvent.java:69 | the printed fraction has one decimal character per digit, the i-th for the i-th digit |
| Decimals.ExponentText | contribs/rlev/src/main/java/org/matsim/contrib/rlev/charging/ChargingStartEvent.java:69 | defines the exponent Java prints: nothing for 0, otherwise 'E' and the signed power (ExponentTextShape) |
| Decimals.Print | contribs/rlev/src/main/java/org/matsim/contrib/rlev/charging/ChargingStartEvent.java:69 | defines Java's `charge + ""`: sign, whole part, a point, at least one fraction digit, the exponent (read back by ParsePrint) |
| Decimals.Trim | contribs/rlev/src/main/java/org/matsim/contrib/rlev/charging/ChargingStartEvent.java:78 | String.trim never lengthens the string (TrimNoOp) |
| Decimals.ExponentMark | contribs/rlev/src/main/java/org/matsim/contrib/rlev/charging/ChargingStartEvent.java:78 | the first 'e' or 'E' at or after a position, or the end: no mark lies between |
| Decimals.ParseExponent | contribs/rlev/src/main/java/org/matsim/contrib/rlev/charging/ChargingStartEvent.java:78 | defines the power after the mark as an optional sign and at least one digit (ParseExponentPrinted) |
| Decimals.Numeral | contribs/ev/evsim/classes/matsim_xml_dataset.py:118 | defines a numeral: optional sign, digits with at most one point and at least one digit, then optionally a mark and a signed power (NumeralOfPrinted) |
| Decimals.SignedBody | contribs/ev/evsim/classes/matsim_xml_dataset.py:118 | defines the numeral after its sign: the mantissa up to the first mark and the power after it (BodyOfPrinted) |
| Decimals.Parse | contribs/ev/evsim/classes/matsim_xml_dataset.py:116-118 | defines Python's float() on finite decimal text: the trimmed numeral, or ValueError (ParsePrint) |
| Decimals.JavaParse | contribs/rlev/src/main/java/org/matsim/contrib/rlev/charging/ChargingStartEvent.java:78 | defines Double.parseDouble on finite decimal text: Python's grammar plus one optional f, F, d or D suffix, or NumberFormatException (ParsePrint) |
| Decimals.ParseUnsigned | contribs/rlev/src/main/java/org/matsim/contrib/rlev/charging/ChargingStartEvent.java:78 | defines the unsigned mantissa as whole value and fraction digits, or malformed (ParseUnsignedPrinted) |
| Decimals.Scan | contribs/rlev/src/main/java/org/matsim/contrib/rlev/charging/ChargingStartEvent.java:78 | defines the left-to-right scan of the mantissa: digits before the point extend the whole part, after it the fraction, a second point or another character is malformed, and so is no digit at all (ScanWhole, ScanFraction) |
| Decimals.ParseDouble | contribs/rlev/src/main/java/org/matsim/contrib/rlev/charging/ChargingStartEvent.java:78 | defines Double.parseDouble as the real value of the numeral it reads, or its error (ParseDoublePrinted in the callers) |
| Decimals.DigitCharInjective | contribs/rlev/src/main/java/org/matsim/contrib/rlev/charging/ChargingStartEvent.java:69 | two digits printed as the same character are the same digit |
| Decimals.TrimNoOp | contribs/rlev/src/main/java/org/matsim/contrib/rlev/charging/ChargingStartEvent.java:78 | trim leaves a string that starts and ends above U+0020 unchanged |
| Decimals.ParseUnsignedPrinted | contribs/rlev/src/main/java/org/matsim/contrib/rlev/charging/ChargingStartEvent.java:69-78 | a printed whole part, point and fraction read back as that whole part and fraction |
| Decimals.ParseExponentPrinted | contribs/rlev/src/main/java/org/matsim/contrib/rlev/charging/ChargingStartEvent.java:69-78 | a printed power reads back as itself |
| Decimals.ExponentTextShape | contribs/rlev/src/main/java/org/matsim/contrib/rlev/charging/ChargingStartEvent.java:69 | the printed exponent is empty exactly for 0, and otherwise 'E' followed by the power, ending in a digit |
| Decimals.NoMarkInMantissa | contribs/rlev/src/main/java/org/matsim/contrib/rlev/charging/ChargingStartEvent.java:69 | a printed mantissa holds no exponent mark |
| Decimals.MarkAfter | contribs/rlev/src/main/java/org/matsim/contrib/rlev/charging/ChargingStartEvent.java:78 | the first mark is where the mark-free mantissa ends |
| Decimals.BodyOfPrinted | contribs/rlev/src/main/java/org/matsim/contrib/rlev/charging/ChargingStartEvent.java:69-78 | the unsigned body of a printed numeral reads back as its whole part, fraction and exponent |
| Decimals.SignedBodyOf | contribs/rlev/src/main/java/org/matsim/contrib/rlev/charging/ChargingStartEvent.java:78 | a body whose first mark ends a well-formed mantissa and starts a well-formed power reads back as that mantissa and power |
| Decimals.PrintShape | contribs/rlev/src/main/java/org/matsim/contrib/rlev/charging/ChargingStartEvent.java:69 | a printed numeral is an optional minus and a body that starts and ends with a digit |
| Decimals.NumeralEnds | contribs/rlev/src/main/java/org/matsim/contrib/rlev/charging/ChargingStartEvent.java:69 | a sign, digits, a point, digits and an exponent ending in a digit start the body with a digit and have no blank at either end |
| Decimals.NumeralOfPrinted | contribs/rlev/src/main/java/org/matsim/contrib/rlev/charging/ChargingStartEvent.java:69-78 | trim keeps a printed numeral, and it reads back as the same numeral |
| ScriptsUtil.GetStrNumber | contribs/ev/evsim/scripts/util.py:68-80 | a number becomes the decimal text of its truncation `str(int(num))`; the two replacements find nothing to remove |
| ScriptsUtil.GetStrNoComma | contribs/ev/evsim/scripts/util.py:78-79 | a cleaned string holds no comma |
| ScriptsUtil.RemoveKeepsAbsent | contribs/ev/evsim/scripts/util.py:79 | the second replacement (of ".0") brings back no character the string did not hold |
| ScriptsUtil.GetStrDropsPointZero | contribs/ev/evsim/scripts/util.py:79 | "10.05" becomes "105": every ".0" goes, also inside a number |
| ScriptsUtil.GetStrSinglePass | contribs/ev/evsim/scripts/util.py:79 | "1..00" becomes "1.0": str.replace makes one left-to-right pass and leaves a ".0" it creates |
| ScriptsUtil.InsertByReward | contribs/ev/evsim/scripts/util.py:111 | inserting into a reward-ordered list keeps it ordered and adds exactly that entry |
| ScriptsUtil.SortByReward | contribs/ev/evsim/scripts/util.py:109-111 | `sorted(zip(links, rewards), key=reward)` is ordered by reward, a permutation of the table, and stable: entries of equal reward keep their input order |
| ScriptsUtil.Entries | contribs/ev/evsim/scripts/util.py:109-111 | the (link, average reward) pairs of the table, row by row |
| ScriptsUtil.FirstIndex | contribs/ev/evsim/scripts/util.py:119 | the first position holding the entry |
| ScriptsUtil.RemoveFirst | contribs/ev/evsim/scripts/util.py:119 | `vals.remove(x)` takes out exactly one copy of x |
| ScriptsUtil.DropKeepsOrder | contribs/ev/evsim/scripts/util.py:116-119 | taking any one entry out of an ordered list leaves it ordered |
| ScriptsUtil.ChooseSpec | contribs/ev/evsim/scripts/util.py:115-120 | one selection succeeds exactly on a non-empty list (pop and randint raise otherwise), removes the chosen entry, keeps the rest ordered, and on exploit takes a highest-reward entry |
| ScriptsUtil.SelectionsSpec | contribs/ev/evsim/scripts/util.py:114-120 | n selections succeed exactly when at least n entries are left; they return n entries taken without repetition from the list |
| ScriptsUtil.EGreedyShape | contribs/ev/evsim/scripts/util.py:97-122 | e_greedy succeeds exactly when num_chargers (a negative count being an empty range) is at most the table's size, and returns the links of that many entries drawn without replacement from the table |
| ScriptsUtil.SelectionsStep | contribs/ev/evsim/scripts/util.py:114-120 | one loop turn: the selections from step t are the chosen entry followed by the selections from step t+1 on the remaining list |
| ScriptsUtil.SelectionsErr | contribs/ev/evsim/scripts/util.py:115-119 | a failing turn makes the whole loop fail with that error |
| ScriptsUtil.LinksOf | contribs/ev/evsim/scripts/util.py:120 | `chargers.append(chosen_val[0])`: the link of each chosen entry, in order |
| ScriptsUtil.LinksOfAppend | contribs/ev/evsim/scripts/util.py:120 | appending one chosen entry appends its link |
| ScriptsUtil.SelectLoop | contribs/ev/evsim/scripts/util.py:112-122 | the selection loop returns the links of the selections, or the first error |
| ScriptsUtil.EGreedy | contribs/ev/evsim/scripts/util.py:97-122 | e_greedy runs the selection loop over the table stably sorted by reward; its result is exactly the e_greedy specification (EGreedySpec) |
| ScriptsUtil.UpdateRow | contribs/ev/evsim/scripts/util.py:152-160 | one score: count + 1 and new average * new count == old average * old count + score |
| ScriptsUtil.RowOf | contribs/ev/evsim/scripts/util.py:151-152 | the row of a link when `link in Q.index`, none when no row has that link |
| ScriptsUtil.UpdateQ | contribs/ev/evsim/scripts/util.py:136-164 | the loop over chosen_links gives the table after each chosen link in turn, an unknown link changing nothing |
| ScriptsUtil.UpdateAllSpec | contribs/ev/evsim/scripts/util.py:148-164 | with distinct link ids, every row is updated once per occurrence of its link among the chosen ones: count grows by n and the sum of rewards by n * score; rows stay in place and keep distinct links |
| ScriptsUtil.StepUpdated | contribs/ev/evsim/scripts/util.py:156-160 | one more score extends an n-score update to an (n+1)-score update |
| ScriptsUtil.GetStr | contribs/ev/evsim/scripts/util.py:68-80 | get_str: both replacements on the text, a number first truncated by `str(int(num))`; its properties are GetStrNumber, GetStrNoComma, GetStrDropsPointZero and GetStrSinglePass |
| ScriptsUtil.ByReward | contribs/ev/evsim/scripts/util.py:111 | the list is ordered by reward, as `sorted(..., key=reward)` leaves it |
| ScriptsUtil.WithReward | contribs/ev/evsim/scripts/util.py:111 | the entries of one reward, in order: the part of the list a stable sort must keep in place |
| ScriptsUtil.WithRewardSnoc | contribs/ev/evsim/scripts/util.py:111 | appending an entry appends it to the entries of its reward only |
| ScriptsUtil.InsertByRewardStable | contribs/ev/evsim/scripts/util.py:111 | inserting an entry puts it after the earlier entries of its own reward and changes no other reward's entries |
| ScriptsUtil.SortByRewardStable | contribs/ev/evsim/scripts/util.py:111 | `sorted()` is stable: for every reward the sorted list holds the same entries in the same order as the input |
| ScriptsUtil.TieKeepsInputOrder | contribs/ev/evsim/scripts/util.py:111-116 | two links of equal reward stay in input order, so exploitation pops the later one |
| ScriptsUtil.Choose | contribs/ev/evsim/scripts/util.py:115-119 | one selection: exploit pops the last entry, explore removes a drawn one; an empty list raises (ChooseSpec) |
| ScriptsUtil.Selections | contribs/ev/evsim/scripts/util.py:114-120 | the entries chosen over num_chargers turns, or the first error (SelectionsSpec, SelectionsStep) |
| ScriptsUtil.SelectedLinks | contribs/ev/evsim/scripts/util.py:114-122 | the links of the chosen entries, or the first error (SelectLoop computes it) |
| ScriptsUtil.EGreedySpec | contribs/ev/evsim/scripts/util.py:97-122 | e_greedy: the links selected from the table sorted by reward (EGreedyShape; EGreedy computes it) |
| ScriptsUtil.Prefixed | contribs/ev/evsim/scripts/util.py:120 | the links chosen so far in front of those still to come (SelectionsStep) |
| ScriptsUtil.UpdateLink | contribs/ev/evsim/scripts/util.py:151-162 | one chosen link: its row gets the score, an unknown link changes nothing (StepUpdated) |
| ScriptsUtil.UpdateAll | contribs/ev/evsim/scripts/util.py:150-162 | the table after each chosen link in turn; UpdateAllSpec states its effect and UpdateQ computes it |
| ScriptsUtil.DistinctLinks | contribs/ev/evsim/scripts/util.py:148 | one row per link id, as `set_index("link_id")` assumes |
| ScriptsUtil.Occurrences | contribs/ev/evsim/scripts/util.py:150 | how many times a link was chosen (UpdateAllSpec) |
| ScriptsUtil.RowUpdated | contribs/ev/evsim/scripts/util.py:152-160 | a row after n scores: same link, n more counts, and the summed score grown by n scores (UpdateAllSpec) |
| MatsimXmlDataset.AttrKeys | contribs/ev/evsim/classes/matsim_xml_dataset.py:70-75 | the dict's keys in insertion order: length, freespeed, capacity first, none repeated |
| MatsimXmlDataset.AttrMapping | contribs/ev/evsim/classes/matsim_xml_dataset.py:70-75 | length, freespeed, capacity at columns 0, 1, 2; every charger type at a column from 3 on; every column below 3 + the number of types |
| MatsimXmlDataset.TypeNameInjective | contribs/evWireless/evsim/classes/chargers.py:28-49 | two charger kinds share a type name exactly when they are the same kind |
| MatsimXmlDataset.AttrColumns | contribs/ev/evsim/classes/matsim_xml_dataset.py:72-75 | with distinct charger types, the k-th type of charger_list sits at column 3 + k |
| MatsimXmlDataset.AttrKeysAreKeys | contribs/ev/evsim/classes/matsim_xml_dataset.py:70-75 | the keys listed in insertion order are exactly the dict's keys |
| MatsimXmlDataset.KeyOfMapping | contribs/ev/evsim/classes/matsim_xml_dataset.py:70-75 | every key is length, freespeed, capacity or the type of a listed charger |
| MatsimXmlDataset.AttrLayout | contribs/ev/evsim/classes/matsim_xml_dataset.py:70-98 | with distinct types no two keys share a column and there are 3 + len(charger_list) keys: tot_attr is the row width |
| MatsimXmlDataset.ParseFloat | contribs/ev/evsim/classes/matsim_xml_dataset.py:93-118 | float() of an attribute succeeds exactly when it is a finite decimal numeral, with or without an exponent, and otherwise is a ValueError |
| MatsimXmlDataset.AttrItems | contribs/ev/evsim/classes/matsim_xml_dataset.py:109 | edge_attr_mapping.items(): each key with its own column, in insertion order |
| MatsimXmlDataset.ItemsLayout | contribs/ev/evsim/classes/matsim_xml_dataset.py:98-109 | with distinct types the items' columns are distinct and inside a row of tot_attr entries |
| MatsimXmlDataset.AttrRow | contribs/ev/evsim/classes/matsim_xml_dataset.py:106-118 | the attribute row built from torch.zeros(tot_attr) has tot_attr entries |
| MatsimXmlDataset.AttrRowOk | contribs/ev/evsim/classes/matsim_xml_dataset.py:109-118 | a link's row is built exactly when every attribute the link carries among the mapping's keys parses as a float |
| MatsimXmlDataset.AttrRowCells | contribs/ev/evsim/classes/matsim_xml_dataset.py:106-118 | each key's column holds the link's parsed attribute, and 0 when the link lacks that attribute |
| MatsimXmlDataset.Positions | contribs/ev/evsim/classes/matsim_xml_dataset.py:90-95 | node_pos holds one parsed (x, y) per node |
| MatsimXmlDataset.NodeIds | contribs/ev/evsim/classes/matsim_xml_dataset.py:90-92 | the node ids in document order |
| MatsimXmlDataset.LinkIds | contribs/ev/evsim/classes/matsim_xml_dataset.py:100-107 | the link ids in document order |
| MatsimXmlDataset.LinkEntries | contribs/ev/evsim/classes/matsim_xml_dataset.py:100-120 | one entry (edge, row, cost) per link |
| MatsimXmlDataset.Stacked | contribs/ev/evsim/classes/matsim_xml_dataset.py:105-125 | the stacked edges and rows hold one entry per link |
| MatsimXmlDataset.ParsedLinksWidths | contribs/ev/evsim/classes/matsim_xml_dataset.py:106-120 | every stacked row has tot_attr entries |
| MatsimXmlDataset.ParseNetwork | contribs/ev/evsim/classes/matsim_xml_dataset.py:77-126 | a parsed network has one edge and one row per link, at least one link (torch.stack of nothing raises), every row tot_attr wide, and edge_mapping maps each link id to its position |
| MatsimXmlDataset.ParsedLinksCost | contribs/ev/evsim/classes/matsim_xml_dataset.py:109-117 | max_charger_cost is at least the static price for every link with a length; the ev copy of the charger classes has no price, so a link with a length raises there |
| MatsimXmlDataset.ReadAttributes | contribs/ev/evsim/classes/matsim_xml_dataset.py:109-118 | the attribute loop of one link builds the row AttrRow describes, or fails with the first unparsable attribute |
| MatsimXmlDataset.NextIndex | contribs/ev/evsim/classes/matsim_xml_dataset.py:94-107 | the bidict after one more id maps it to its position |
| MatsimXmlDataset.IndexIds | contribs/ev/evsim/classes/matsim_xml_dataset.py:94-107 | the id loop builds the id-to-position mapping, a repeated id keeping its last position |
| MatsimXmlDataset.NextPosition | contribs/ev/evsim/classes/matsim_xml_dataset.py:93 | one node's parsed position appended |
| MatsimXmlDataset.ReadNodes | contribs/ev/evsim/classes/matsim_xml_dataset.py:90-95 | the node loop gives the parsed positions or the first parse error |
| MatsimXmlDataset.ReadLink | contribs/ev/evsim/classes/matsim_xml_dataset.py:101-120 | one link: its end-node indices (KeyError for an unknown node), its attribute row and its share of max_charger_cost |
| MatsimXmlDataset.ReadLinks | contribs/ev/evsim/classes/matsim_xml_dataset.py:100-120 | the link loop gives the stacked edges, rows and cost, or the first error |
| MatsimXmlDataset.ParseMatsimNetwork | contribs/ev/evsim/classes/matsim_xml_dataset.py:77-126 | the node loop, then the link loop over the mapping's items: the result ParseNetwork describes |
| MatsimXmlDataset.ClearFlags | contribs/ev/evsim/classes/matsim_xml_dataset.py:135 | `edge_attr[:,3:] = 0` keeps columns 0..2 and zeroes every other column |
| MatsimXmlDataset.ClearAll | contribs/ev/evsim/classes/matsim_xml_dataset.py:135 | every row's charger columns are zeroed |
| MatsimXmlDataset.RowIndex | contribs/ev/evsim/classes/matsim_xml_dataset.py:146-150 | a link id found in edge_mapping leads to a row of the tensor |
| MatsimXmlDataset.PlaceChargers | contribs/ev/evsim/classes/matsim_xml_dataset.py:135-150 | clearing and placing chargers keeps the number of rows and each row's width |
| MatsimXmlDataset.MarkNoneRow | contribs/ev/evsim/classes/matsim_xml_dataset.py:158-160 | the none rule on one row keeps its width |
| MatsimXmlDataset.MarkNone | contribs/ev/evsim/classes/matsim_xml_dataset.py:153-160 | the final pass keeps the number of rows and their widths |
| MatsimXmlDataset.ChargerPass | contribs/ev/evsim/classes/matsim_xml_dataset.py:129-162 | the whole charger pass keeps the number of rows and their widths |
| MatsimXmlDataset.PlaceChargersKeeps | contribs/ev/evsim/classes/matsim_xml_dataset.py:135-150 | a column no charger names keeps its cleared value: columns 0..2 their old value, charger columns 0 |
| MatsimXmlDataset.PlaceChargersCost | contribs/ev/evsim/classes/matsim_xml_dataset.py:137-148 | the cost is the static price per static charger (a charger without type counts as static) plus the dynamic price times column 0 times 0.001 for every dynamic charger; the ev copy without prices fails on any priced charger |
| MatsimXmlDataset.PlaceChargerCost | contribs/ev/evsim/classes/matsim_xml_dataset.py:139-148 | one charger adds the static price, or the dynamic price times its link's length in km, or nothing for other types |
| MatsimXmlDataset.MarkNoneRowRule | contribs/ev/evsim/classes/matsim_xml_dataset.py:158-160 | with the flag columns inside the row the rule cannot fail, keeps whether the row has a charger, and is idempotent |
| MatsimXmlDataset.MarkedStep | contribs/ev/evsim/classes/matsim_xml_dataset.py:155-160 | one more link of the final loop keeps every visited row under the none rule |
| MatsimXmlDataset.MarkNoneRows | contribs/ev/evsim/classes/matsim_xml_dataset.py:153-160 | the final pass fails exactly when some link id has no row (KeyError); otherwise every row a link leads to has the none rule applied |
| MatsimXmlDataset.FlagLayout | contribs/ev/evsim/classes/matsim_xml_dataset.py:158-160 | with each kind listed once, the default, dynamic and none columns are distinct charger columns of the row |
| MatsimXmlDataset.NoneColumnOwner | contribs/ev/evsim/classes/matsim_xml_dataset.py:70-75 | with distinct kinds only the "none" key owns the none column |
| MatsimXmlDataset.MappingBaseOwned | contribs/ev/evsim/classes/matsim_xml_dataset.py:71-75 | only length, freespeed and capacity own columns 0..2 |
| MatsimXmlDataset.EdgeIndex | contribs/ev/evsim/classes/matsim_xml_dataset.py:107 | edge_mapping covers every link, and with distinct ids maps each link to its own row |
| MatsimXmlDataset.ShapedFits | contribs/ev/evsim/classes/matsim_xml_dataset.py:158-160 | rows as wide as the mapping hold the three flag columns |
| MatsimXmlDataset.MarkAllRows | contribs/ev/evsim/classes/matsim_xml_dataset.py:153-160 | when every link id has a row, the final pass cannot fail and applies the none rule to every row (to every row exactly once with distinct ids) |
| MatsimXmlDataset.ChargerPassRows | contribs/ev/evsim/classes/matsim_xml_dataset.py:129-162 | when every link has a row the pass fails exactly when a placement fails; its cost is the placement's and only the none column differs from the placed rows |
| MatsimXmlDataset.PlacedKeepsBase | contribs/ev/evsim/classes/matsim_xml_dataset.py:135-150 | chargers whose types are not length, freespeed or capacity leave columns 0..2 as they were |
| MatsimXmlDataset.ChargerPassKeepsBase | contribs/ev/evsim/classes/matsim_xml_dataset.py:129-162 | on the network's rows the charger pass never changes length, freespeed or capacity |
| MatsimXmlDataset.ChargerPassCost | contribs/ev/evsim/classes/matsim_xml_dataset.py:130-162 | the returned cost is the static price per static charger plus the dynamic price per km of each dynamic charger's link, read from column 0 as it stands |
| MatsimXmlDataset.ChargerPassNoneFlag | contribs/ev/evsim/classes/matsim_xml_dataset.py:153-160 | after the pass every link without a default or dynamic flag has its none flag set; when no charger has type "none" the none flag is set exactly on those links |
| MatsimXmlDataset.NoneColumnClear | contribs/ev/evsim/classes/matsim_xml_dataset.py:135-150 | without a charger of type "none" the placement leaves every none flag at 0 |
| MatsimXmlDataset.NoneRuleRows | contribs/ev/evsim/classes/matsim_xml_dataset.py:158-160 | rows under the none rule: no charger flag implies the none flag, and with none flags cleared beforehand the converse |
| MatsimXmlDataset.Column | contribs/ev/evsim/classes/matsim_xml_dataset.py:54 | column j of the rows, one entry per row |
| MatsimXmlDataset.Min | contribs/ev/evsim/classes/matsim_xml_dataset.py:54 | torch.min of a column: an entry of the column no larger than any other |
| MatsimXmlDataset.MaxOf | contribs/ev/evsim/classes/matsim_xml_dataset.py:54 | torch.max of a column: an entry of the column no smaller than any other |
| MatsimXmlDataset.MaxMins | contribs/ev/evsim/classes/matsim_xml_dataset.py:54 | max_mins holds the minimum and maximum of each of columns 0..2 |
| MatsimXmlDataset.NormalizeRoundTrip | contribs/ev/evsim/classes/matsim_xml_dataset.py:65-68 | reverse normalisation undoes the forward one whenever max != min |
| MatsimXmlDataset.NormalizeScales | contribs/ev/evsim/classes/matsim_xml_dataset.py:68 | the forward normalisation times the span gives back the distance to the minimum |
| MatsimXmlDataset.UnitScale | contribs/ev/evsim/classes/matsim_xml_dataset.py:68 | a quotient of a value in [0, span] by the span lies in [0, 1] |
| MatsimXmlDataset.NormalizeRange | contribs/ev/evsim/classes/matsim_xml_dataset.py:54-68 | a value between a column's minimum and maximum lands in [0, 1], at 0 for the minimum and at 1 for the maximum |
| MatsimXmlDataset.NormalizeRow | contribs/ev/evsim/classes/matsim_xml_dataset.py:56-68 | normalisation touches columns 0..2 of a row only |
| MatsimXmlDataset.NormalizeRows | contribs/ev/evsim/classes/matsim_xml_dataset.py:56 | every row normalised, the number of rows kept |
| MatsimXmlDataset.NormalizeRowsRoundTrip | contribs/ev/evsim/classes/matsim_xml_dataset.py:56-68 | reverse normalisation with the same bounds gives the rows back |
| MatsimXmlDataset.NormalizedInUnit | contribs/ev/evsim/classes/matsim_xml_dataset.py:54-56 | normalised by their own bounds, the cells of columns 0..2 that are not NaN (a constant column) lie in [0, 1] |
| MatsimXmlDataset.Dataset.constructor | contribs/ev/evsim/classes/matsim_xml_dataset.py:17-51 | the dataset's fields after parse_matsim_network, max_mins not yet set |
| MatsimXmlDataset.Dataset.ParseChargerNetworkGetChargerCost | contribs/ev/evsim/classes/matsim_xml_dataset.py:129-162 | the method replaces edge_attr by the charger pass's rows and returns its cost, or fails with the pass's error, keeping one row per link |
| MatsimXmlDataset.Dataset.NormalizeBaseColumns | contribs/ev/evsim/classes/matsim_xml_dataset.py:53-56 | max_mins becomes the columns' minima and maxima and the rows become their min-max normalisation by them, keeping the dataset consistent |
| MatsimXmlDataset.Dataset.PlaceAll | contribs/ev/evsim/classes/matsim_xml_dataset.py:135-150 | the clearing and the charger loop leave the rows PlaceChargers describes, or its error |
| MatsimXmlDataset.Dataset.MarkLinksWithoutCharger | contribs/ev/evsim/classes/matsim_xml_dataset.py:153-160 | the final loop leaves the rows MarkNone describes, or its error |
| MatsimXmlDataset.PlaceChargersStep | contribs/ev/evsim/classes/matsim_xml_dataset.py:137-150 | one more charger of the loop is one more placement |
| MatsimXmlDataset.MarkNoneStep | contribs/ev/evsim/classes/matsim_xml_dataset.py:155-160 | one more link of the final loop applies the rule to its row |
| MatsimXmlDataset.Construct | contribs/ev/evsim/classes/matsim_xml_dataset.py:49-56 | construction fails exactly when the charger pass fails, with its error; on success one row per link and three bounds per side |
| MatsimXmlDataset.Load | contribs/ev/evsim/classes/matsim_xml_dataset.py:17-57 | building the dataset from parsed files gives the rows and max_mins of the constructor, or its first error |
| MatsimXmlDataset.BaseNormalized | contribs/ev/evsim/classes/matsim_xml_dataset.py:54-56 | normalising the pass's rows normalises the network's own base columns: each non-NaN cell is its min-max value in [0, 1], a NaN column (a constant one) holds 0.0, which stands for NaN |
| MatsimXmlDataset.ConstructIsPass | contribs/ev/evsim/classes/matsim_xml_dataset.py:51-56 | the constructor is the charger pass followed by normalisation with the pass's bounds |
| MatsimXmlDataset.ConstructBaseColumns | contribs/ev/evsim/classes/matsim_xml_dataset.py:49-56 | after construction every link's length, freespeed and capacity is its parsed value min-max normalised and lies in [0, 1], except a constant column, whose NaN cells the model holds as 0.0 |
| MatsimXmlDataset.DistinctKinds | contribs/ev/evsim/classes/matsim_xml_dataset.py:73-75 | no charger kind is listed twice in charger_list (AttrLayout needs it for distinct columns) |
| MatsimXmlDataset.DistinctKeys | contribs/ev/evsim/classes/matsim_xml_dataset.py:70-75 | no key is listed twice in the mapping's insertion order |
| MatsimXmlDataset.AttrKeysCount | contribs/ev/evsim/classes/matsim_xml_dataset.py:70-75 | with distinct charger types the mapping lists 3 + len(charger_list) keys |
| MatsimXmlDataset.ParseFloatPrinted | contribs/ev/evsim/classes/matsim_xml_dataset.py:118 | an attribute written as MATSim prints a double, plain or with an exponent, reads back as its value |
| MatsimXmlDataset.Zeros | contribs/ev/evsim/classes/matsim_xml_dataset.py:106 | `torch.zeros(tot_attr)`: a row of the given width holding zeros |
| MatsimXmlDataset.Max | contribs/ev/evsim/classes/matsim_xml_dataset.py:117 | Python's max of two prices: at least both, and one of them |
| MatsimXmlDataset.LinkCost | contribs/ev/evsim/classes/matsim_xml_dataset.py:110-117 | what a link adds to max_charger_cost: nothing without a length, else the larger of the static price and the dynamic price for its length in km (ParsedLinksCost bounds the sum) |
| MatsimXmlDataset.ColumnsIn | contribs/ev/evsim/classes/matsim_xml_dataset.py:98-118 | every column the mapping's items name lies inside a row of tot_attr entries (ItemsLayout) |
| MatsimXmlDataset.DistinctColumns | contribs/ev/evsim/classes/matsim_xml_dataset.py:109-118 | no two items share a column (ItemsLayout) |
| MatsimXmlDataset.Cell | contribs/ev/evsim/classes/matsim_xml_dataset.py:109-118 | what a key leaves in its column: the parsed attribute, or 0 when the link has none (AttrRowCells) |
| MatsimXmlDataset.LinkEntry | contribs/ev/evsim/classes/matsim_xml_dataset.py:101-120 | one link: KeyError for an unknown end node, else its node indices, its attribute row and its cost (ReadLink computes it) |
| MatsimXmlDataset.LengthLinks | contribs/ev/evsim/classes/matsim_xml_dataset.py:110-117 | the number of links that carry a length (ParsedLinksCost) |
| MatsimXmlDataset.AttrRowErrSticks | contribs/ev/evsim/classes/matsim_xml_dataset.py:109-118 | once a float() in the attribute loop fails, the rest of the loop keeps that failure |
| MatsimXmlDataset.PositionsErrSticks | contribs/ev/evsim/classes/matsim_xml_dataset.py:90-95 | once a node position fails to parse, the rest of the node loop keeps that failure |
| MatsimXmlDataset.StackedErrSticks | contribs/ev/evsim/classes/matsim_xml_dataset.py:100-120 | once a link fails, the rest of the link loop keeps that failure |
| MatsimXmlDataset.ChargerType | contribs/ev/evsim/classes/matsim_xml_dataset.py:139-141 | a charger without a type attribute is a static ("default") one |
| MatsimXmlDataset.IsBaseKey | contribs/ev/evsim/classes/matsim_xml_dataset.py:71 | length, freespeed and capacity: the keys of columns 0..2 (MappingBaseOwned) |
| MatsimXmlDataset.SetFlag | contribs/ev/evsim/classes/matsim_xml_dataset.py:150 | `edge_attr[k][m[key]] = 1`: KeyError for a type without a column, IndexError outside the row, else that one cell set to 1 |
| MatsimXmlDataset.ChargerCost | contribs/ev/evsim/classes/matsim_xml_dataset.py:143-148 | what one charger adds: the static price, or the dynamic price times its link's length column in km, nothing for another type (PlaceChargerCost) |
| MatsimXmlDataset.PlaceCharger | contribs/ev/evsim/classes/matsim_xml_dataset.py:138-150 | one charger: its cost added, then the flag of its type set on its link's row (PlaceChargersStep) |
| MatsimXmlDataset.Untouched | contribs/ev/evsim/classes/matsim_xml_dataset.py:150 | no placed charger writes the given column (PlaceChargersKeeps) |
| MatsimXmlDataset.StaticCount | contribs/ev/evsim/classes/matsim_xml_dataset.py:143-144 | the number of static chargers, a charger without a type among them (PlaceChargersCost) |
| MatsimXmlDataset.DynamicCount | contribs/ev/evsim/classes/matsim_xml_dataset.py:145-148 | the number of dynamic chargers (PlaceChargersCost) |
| MatsimXmlDataset.LinkKm | contribs/ev/evsim/classes/matsim_xml_dataset.py:147 | a link's length in km as column 0 of its row holds it |
| MatsimXmlDataset.DynamicCost | contribs/ev/evsim/classes/matsim_xml_dataset.py:145-148 | the dynamic price per km summed over the dynamic chargers' links (PlaceChargersCost, ChargerPassCost) |
| MatsimXmlDataset.FlagColumns | contribs/ev/evsim/classes/matsim_xml_dataset.py:158-160 | the default, dynamic and none columns exist and "none" shares its column with neither other (FlagLayout) |
| MatsimXmlDataset.Fits | contribs/ev/evsim/classes/matsim_xml_dataset.py:158-160 | the three flag columns lie inside the row (ShapedFits) |
| MatsimXmlDataset.HasCharger | contribs/ev/evsim/classes/matsim_xml_dataset.py:158-159 | the link's default or dynamic flag is 1 |
| MatsimXmlDataset.NoneRule | contribs/ev/evsim/classes/matsim_xml_dataset.py:158-160 | a row after the final pass: unchanged when it has a charger flag, else its none flag set to 1 (MarkNoneRowRule) |
| MatsimXmlDataset.Marked | contribs/ev/evsim/classes/matsim_xml_dataset.py:155-160 | after the final pass over the first n links every row a link id leads to has the none rule and no other row changes (MarkNoneRows) |
| MatsimXmlDataset.AllKinds | contribs/ev/evsim/classes/matsim_xml_dataset.py:158-160 | charger_list holds the default, dynamic and none kinds, whose columns the final pass reads |
| MatsimXmlDataset.BaseOwned | contribs/ev/evsim/classes/matsim_xml_dataset.py:71-75 | only length, freespeed and capacity own columns 0..2 (MappingBaseOwned) |
| MatsimXmlDataset.Shaped | contribs/ev/evsim/classes/matsim_xml_dataset.py:98-125 | the rows parse_matsim_network leaves: one per link, tot_attr wide |
| MatsimXmlDataset.Rectangular | contribs/ev/evsim/classes/matsim_xml_dataset.py:120-125 | `torch.stack` of equal rows: n rows of one width |
| MatsimXmlDataset.Covers | contribs/ev/evsim/classes/matsim_xml_dataset.py:107 | every link id of the network has a row in edge_mapping (EdgeIndex) |
| MatsimXmlDataset.Identity | contribs/ev/evsim/classes/matsim_xml_dataset.py:107 | with distinct ids, link i's id leads to row i (EdgeIndex) |
| MatsimXmlDataset.NoNoneType | contribs/ev/evsim/classes/matsim_xml_dataset.py:150 | no charger sets the none flag directly (NoneColumnClear) |
| MatsimXmlDataset.PlaceChargersErrSticks | contribs/ev/evsim/classes/matsim_xml_dataset.py:137-150 | once a placement fails, the rest of the charger loop keeps that failure |
| MatsimXmlDataset.MarkNoneErrSticks | contribs/ev/evsim/classes/matsim_xml_dataset.py:155-160 | once the final pass fails on an unknown link, the rest of it keeps that failure |
| MatsimXmlDataset.Wide | contribs/ev/evsim/classes/matsim_xml_dataset.py:54 | every row has the three base columns |
| MatsimXmlDataset.Spread | contribs/ev/evsim/classes/matsim_xml_dataset.py:68 | no base column has its minimum equal to its maximum, so the forward division has a non-zero span |
| MatsimXmlDataset.NanColumns | contribs/ev/evsim/classes/matsim_xml_dataset.py:54-68 | the base columns torch turns to NaN (0 / 0): empty exactly when the bounds are spread |
| MatsimXmlDataset.ConstantColumnIsNan | contribs/ev/evsim/classes/matsim_xml_dataset.py:54-68 | a base column turns to NaN exactly when all its cells are equal |
| MatsimXmlDataset.Normalize | contribs/ev/evsim/classes/matsim_xml_dataset.py:68 | the forward min-max normalisation of a value; its properties are NormalizeRoundTrip and NormalizeRange |
| MatsimXmlDataset.Denormalize | contribs/ev/evsim/classes/matsim_xml_dataset.py:66-67 | the reverse normalisation; NormalizeRoundTrip shows it undoes Normalize |
| MatsimXmlDataset.Dataset.Valid | contribs/ev/evsim/classes/matsim_xml_dataset.py:17-51 | the dataset's invariant: the mapping of its charger list, edge_mapping from the link ids, at least three columns and one row per link as wide as the mapping |
| MatsimXmlDataset.MappingWidth | contribs/ev/evsim/classes/matsim_xml_dataset.py:71 | the mapping always has the three base columns |
| MatsimXmlDataset.Loaded | contribs/ev/evsim/classes/matsim_xml_dataset.py:17-57 | the constructor from the parsed files: parse_matsim_network then Construct; Load computes it |
| MatsimXmlDataset.BaseColumnsNormalized | contribs/ev/evsim/classes/matsim_xml_dataset.py:54-56 | columns 0..2 of the output are the input's normalised by the bounds and lie in [0, 1], save the NaN columns (BaseNormalized) |
| Sorting.Insert | contribs/evWireless/evsim/gradient_flow_matching/flowsim_dataset.py:170 | inserting into an ascending list keeps it ascending and adds exactly that element |
| Sorting.Sort | contribs/evWireless/evsim/gradient_flow_matching/flowsim_dataset.py:170 | the re-sort of the cluster dict by key: ascending and a permutation of the keys |
| Sorting.Ascending | contribs/evWireless/evsim/gradient_flow_matching/flowsim_dataset.py:170 | defines the order sorted() produces, each element at most every later one (Insert, Sort) |
| FlowSimDataset.VolumeValues | contribs/evWireless/evsim/gradient_flow_matching/flowsim_dataset.py:125-127 | one count's values are read exactly when every val parses with int(); the result holds those integers in order, otherwise ValueError names an unreadable val |
| FlowSimDataset.ReadFlows | contribs/evWireless/evsim/gradient_flow_matching/flowsim_dataset.py:120-128 | sensor_flows has exactly the counts' loc_ids as keys, each listed once in insertion order |
| FlowSimDataset.LastCountWins | contribs/evWireless/evsim/gradient_flow_matching/flowsim_dataset.py:128 | the last count with a given loc_id decides that loc_id's volumes |
| FlowSimDataset.ReadSensorFlows | contribs/evWireless/evsim/gradient_flow_matching/flowsim_dataset.py:120-128 | the counts loop gives sensor_flows as ReadFlows describes, or the first ValueError |
| FlowSimDataset.ReadVolumes | contribs/evWireless/evsim/gradient_flow_matching/flowsim_dataset.py:124-127 | the volume loop of one count gives the values VolumeValues describes |
| FlowSimDataset.NodeIds | contribs/evWireless/evsim/gradient_flow_matching/flowsim_dataset.py:130-132 | the node ids in document order |
| FlowSimDataset.LinkIds | contribs/evWireless/evsim/gradient_flow_matching/flowsim_dataset.py:141-147 | the link ids in document order |
| FlowSimDataset.Indexing | contribs/evWireless/evsim/gradient_flow_matching/flowsim_dataset.py:134-148 | the bidict after `mapping[ids[i]] = i` has exactly the ids as keys and maps each key to a position holding it |
| FlowSimDataset.IndexingStep | contribs/evWireless/evsim/gradient_flow_matching/flowsim_dataset.py:134 | one more id maps to the next position, overriding an earlier one |
| FlowSimDataset.LinkIdsStep | contribs/evWireless/evsim/gradient_flow_matching/flowsim_dataset.py:147-148 | one more link appends its id |
| FlowSimDataset.NextIndex | contribs/evWireless/evsim/gradient_flow_matching/flowsim_dataset.py:148 | the link index after one more link |
| FlowSimDataset.IndexingBijective | contribs/evWireless/evsim/gradient_flow_matching/flowsim_dataset.py:134-148 | with distinct ids the i-th id maps to i and no two ids share an index |
| FlowSimDataset.Inverse | contribs/evWireless/evsim/gradient_flow_matching/flowsim_dataset.py:210-211 | `node_mapping.inverse[i]` is the key mapped to i, and exists whenever some key maps to i |
| FlowSimDataset.Coordinates | contribs/evWireless/evsim/gradient_flow_matching/flowsim_dataset.py:139 | node_coords has exactly the node ids as keys |
| FlowSimDataset.NodesStep | contribs/evWireless/evsim/gradient_flow_matching/flowsim_dataset.py:130-139 | one more node: its id appended, its index the next one, its coordinates recorded |
| FlowSimDataset.IndexNodes | contribs/evWireless/evsim/gradient_flow_matching/flowsim_dataset.py:130-139 | the node loop gives the ids, the bidict and the coordinate dict |
| FlowSimDataset.Edges | contribs/evWireless/evsim/gradient_flow_matching/flowsim_dataset.py:142-146 | the edges are built exactly when both ends of every link are nodes; each is the pair of its ends' indices |
| FlowSimDataset.NoCounts | contribs/evWireless/evsim/gradient_flow_matching/flowsim_dataset.py:149 | a link that no count names gets 24 zeros |
| FlowSimDataset.Targets | contribs/evWireless/evsim/gradient_flow_matching/flowsim_dataset.py:149-152 | one target row per link, in link order: the link's counted volumes, or 24 zeros |
| FlowSimDataset.NextTargets | contribs/evWireless/evsim/gradient_flow_matching/flowsim_dataset.py:149-152 | the target rows after one more link |
| FlowSimDataset.EdgesStep | contribs/evWireless/evsim/gradient_flow_matching/flowsim_dataset.py:144-146 | one more link appends its pair, or KeyError names its first missing end |
| FlowSimDataset.IndexLinks | contribs/evWireless/evsim/gradient_flow_matching/flowsim_dataset.py:141-152 | the link loop gives the edges, the edge bidict and the target rows, or the first KeyError |
| FlowSimDataset.SensorIndices | contribs/evWireless/evsim/gradient_flow_matching/flowsim_dataset.py:171 | sensor_idxs is built exactly when every counted loc_id is a link, and holds their link indices in key order; otherwise KeyError names one |
| FlowSimDataset.Members | contribs/evWireless/evsim/gradient_flow_matching/flowsim_dataset.py:164-168 | a cluster's list holds exactly the nodes with that label, in ascending order |
| FlowSimDataset.MembersExtend | contribs/evWireless/evsim/gradient_flow_matching/flowsim_dataset.py:164-168 | appending the next node to its label's list keeps every promise of Members |
| FlowSimDataset.LabelOrder | contribs/evWireless/evsim/gradient_flow_matching/flowsim_dataset.py:164-167 | the dict's keys before the re-sort: each label once, exactly the labels that occur |
| FlowSimDataset.MembersStep | contribs/evWireless/evsim/gradient_flow_matching/flowsim_dataset.py:168 | one more node joins its own label's list only |
| FlowSimDataset.GroupLabels | contribs/evWireless/evsim/gradient_flow_matching/flowsim_dataset.py:164-168 | the label loop gives one list per occurring label, holding exactly its nodes, with keys in first-occurrence order |
| FlowSimDataset.TerminatedSnoc | contribs/evWireless/evsim/gradient_flow_matching/flowsim_dataset.py:180-181 | one more member adds its id and a comma at the end |
| FlowSimDataset.TerminatedJoin | contribs/evWireless/evsim/gradient_flow_matching/flowsim_dataset.py:180-182 | text where each item is followed by the terminator is the join of the items with an empty last field |
| FlowSimDataset.TerminatedFields | contribs/evWireless/evsim/gradient_flow_matching/flowsim_dataset.py:180-182 | splitting such text at the terminator gives the items back and an empty last field |
| FlowSimDataset.MemberIds | contribs/evWireless/evsim/gradient_flow_matching/flowsim_dataset.py:180-181 | a cluster's member ids are found exactly when every member index has an inverse; they are those inverses in order |
| FlowSimDataset.ClusterLines | contribs/evWireless/evsim/gradient_flow_matching/flowsim_dataset.py:178-182 | one line per cluster in the given order |
| FlowSimDataset.IntToStringFree | contribs/evWireless/evsim/gradient_flow_matching/flowsim_dataset.py:179 | a printed label holds no colon or comma |
| FlowSimDataset.ClusterLineReadBack | contribs/evWireless/evsim/gradient_flow_matching/flowsim_dataset.py:179-182 | a written line reads back: the label before the first colon, and the member ids as the comma-separated fields after it |
| FlowSimDataset.Pad2ReadBack | contribs/evWireless/evsim/gradient_flow_matching/flowsim_dataset.py:222 | a zero-padded minute is two digits and reads back as the minute |
| FlowSimDataset.ClockReadBack | contribs/evWireless/evsim/gradient_flow_matching/flowsim_dataset.py:222-228 | "HH:MM:00" is eight characters and reads back as the hour and the minute |
| FlowSimDataset.NodeAtIsInverse | contribs/evWireless/evsim/gradient_flow_matching/flowsim_dataset.py:210-211 | in a parsed network the node lookup is the bidict's inverse |
| FlowSimDataset.Trips | contribs/evWireless/evsim/gradient_flow_matching/flowsim_dataset.py:206-207 | `.to(torch.int64)` truncates toward zero; a count below one (negative included) makes no person |
| FlowSimDataset.AddPersonStep | contribs/evWireless/evsim/gradient_flow_matching/flowsim_dataset.py:208-221 | one more person is numbered after the earlier ones, starts at an hour of the tensor, ends eight hours later mod 24, at a minute below 60 |
| FlowSimDataset.GrowsTrans | contribs/evWireless/evsim/gradient_flow_matching/flowsim_dataset.py:202-207 | k1 persons then k2 persons are k1 + k2 persons, numbering kept |
| FlowSimDataset.AddPersonsCount | contribs/evWireless/evsim/gradient_flow_matching/flowsim_dataset.py:207-218 | count iterations add exactly count persons, numbered on |
| FlowSimDataset.HourPlansCount | contribs/evWireless/evsim/gradient_flow_matching/flowsim_dataset.py:204-218 | the hour loop adds exactly the truncated flows of those hours |
| FlowSimDataset.DestinationPlansCount | contribs/evWireless/evsim/gradient_flow_matching/flowsim_dataset.py:203-218 | the destination loop adds exactly the truncated flows of those cells |
| FlowSimDataset.PlansCount | contribs/evWireless/evsim/gradient_flow_matching/flowsim_dataset.py:184-246 | a successful run creates exactly the truncated flows' total of persons, numbered 1, 2, 3, ... with end hour (hour + 8) mod 24 |
| FlowSimDataset.FileName | contribs/evWireless/evsim/gradient_flow_matching/flowsim_dataset.py:74 | the last path component is no longer than the path |
| FlowSimDataset.Stem | contribs/evWireless/evsim/gradient_flow_matching/flowsim_dataset.py:74 | pathlib's stem is no longer than the path |
| FlowSimDataset.TamFileSeparatesClusters | contribs/evWireless/evsim/gradient_flow_matching/flowsim_dataset.py:74 | two cluster counts never share a TAM cache file |
| FlowSimDataset.Disk.constructor | contribs/evWireless/evsim/gradient_flow_matching/flowsim_dataset.py:75 | a store of files keyed by path |
| FlowSimDataset.ParsedConsistent | contribs/evWireless/evsim/gradient_flow_matching/flowsim_dataset.py:101-171 | a parsed network is consistent: edge ends and sensor indices are in range, one target row per edge, every cluster member a node index, and the sorted keys list exactly the clusters |
| FlowSimDataset.ClustersInRange | contribs/evWireless/evsim/gradient_flow_matching/flowsim_dataset.py:164-168 | every cluster member is a node index |
| FlowSimDataset.ClusterOrderListsClusters | contribs/evWireless/evsim/gradient_flow_matching/flowsim_dataset.py:170 | the sorted dict keeps exactly the clusters |
| FlowSimDataset.EdgesInRange | contribs/evWireless/evsim/gradient_flow_matching/flowsim_dataset.py:144-146 | both ends of every edge are node indices |
| FlowSimDataset.SensorIndicesInRange | contribs/evWireless/evsim/gradient_flow_matching/flowsim_dataset.py:171 | every sensor index is a link index |
| FlowSimDataset.ReadNetwork | contribs/evWireless/evsim/gradient_flow_matching/flowsim_dataset.py:101-171 | parse_network fails on the first unreadable count, then on the first missing node, then on the first uncounted link; it succeeds exactly when all three hold, with the network ParsedFrom describes |
| FlowSimDataset.MemberLine | contribs/evWireless/evsim/gradient_flow_matching/flowsim_dataset.py:180-181 | the member loop writes each member's id and a comma, or fails on the first missing inverse |
| FlowSimDataset.ClusterLinesStep | contribs/evWireless/evsim/gradient_flow_matching/flowsim_dataset.py:178-182 | one more cluster appends its line, or its failure ends the text |
| FlowSimDataset.WriteClusters | contribs/evWireless/evsim/gradient_flow_matching/flowsim_dataset.py:177-182 | the loops of save_clusters write the text ClustersText describes |
| FlowSimDataset.Dataset.constructor | contribs/evWireless/evsim/gradient_flow_matching/flowsim_dataset.py:20-55 | the dataset's paths and cluster count, with an empty network |
| FlowSimDataset.Dataset.ParseNetwork | contribs/evWireless/evsim/gradient_flow_matching/flowsim_dataset.py:101-171 | on success the dataset holds the parsed, consistent network; on failure it is unchanged; success exactly when the files parse |
| FlowSimDataset.Dataset.BuildTam | contribs/evWireless/evsim/gradient_flow_matching/flowsim_dataset.py:73-83 | a cached TAM is loaded unchanged; otherwise get_TAM's result is stored under the cache name; afterwards the cache holds the TAM in use |
| FlowSimDataset.Dataset.SaveClusters | contribs/evWireless/evsim/gradient_flow_matching/flowsim_dataset.py:174-182 | the text written is ClustersText of the network |
| FlowSimDataset.Dataset.SavePlans | contribs/evWireless/evsim/gradient_flow_matching/flowsim_dataset.py:184-246 | the three nested loops produce the persons Plans describes |
| FlowSimDataset.VolumeValuesErrSticks | contribs/evWireless/evsim/gradient_flow_matching/flowsim_dataset.py:125-127 | once a volume's val fails int(), the count's values are that failure whatever follows |
| FlowSimDataset.ReadFlowsErrSticks | contribs/evWireless/evsim/gradient_flow_matching/flowsim_dataset.py:122-128 | once a count fails, reading the counts gives that failure whatever follows |
| FlowSimDataset.EdgesErrSticks | contribs/evWireless/evsim/gradient_flow_matching/flowsim_dataset.py:141-146 | once a link names an unknown node, the edges are that KeyError whatever follows |
| FlowSimDataset.Target | contribs/evWireless/evsim/gradient_flow_matching/flowsim_dataset.py:149-151 | a link's target row: the volumes counted for its id, or 24 zeros when no count names it |
| FlowSimDataset.Rectangular | contribs/evWireless/evsim/gradient_flow_matching/flowsim_dataset.py:157 | torch.tensor(edge_attr) accepts the rows: every row is as long as the first |
| FlowSimDataset.ShortCountRagged | contribs/evWireless/evsim/gradient_flow_matching/flowsim_dataset.py:149-157 | a count with other than 24 volumes on one link beside an uncounted link makes the rows ragged, so torch.tensor raises ValueError |
| FlowSimDataset.FullCountsRectangular | contribs/evWireless/evsim/gradient_flow_matching/flowsim_dataset.py:149-157 | when every count has 24 volumes the target rows form a matrix 24 wide |
| FlowSimDataset.Parses | contribs/evWireless/evsim/gradient_flow_matching/flowsim_dataset.py:101-171 | parse_network succeeds exactly when the counts are readable, every link's ends are nodes, the target rows are equally long and every counted loc_id is a link (proved in ReadNetwork) |
| FlowSimDataset.ParsedFrom | contribs/evWireless/evsim/gradient_flow_matching/flowsim_dataset.py:101-171 | the network parse_network leaves: node ids and bidict, coordinates, edges, edge bidict, targets, clusters by label, the sorted cluster order and the sensor indices |
| FlowSimDataset.Consistent | contribs/evWireless/evsim/gradient_flow_matching/flowsim_dataset.py:101-171 | the relations later steps rely on: node bidict and coordinates agree, cluster members and edge ends are node indices, one target row per edge, sensor indices are edge indices (proved in ParsedConsistent) |
| FlowSimDataset.Terminated | contribs/evWireless/evsim/gradient_flow_matching/flowsim_dataset.py:180-182 | each string followed by the terminator, as the loops write them |
| FlowSimDataset.ClusterLine | contribs/evWireless/evsim/gradient_flow_matching/flowsim_dataset.py:179-182 | one line of the clusters file: the label, a colon, and each member's node id followed by a comma |
| FlowSimDataset.ClustersText | contribs/evWireless/evsim/gradient_flow_matching/flowsim_dataset.py:178-182 | the text save_clusters writes: one line per cluster in the dict's order, or the first failed lookup (its read-back is ClusterLineReadBack) |
| FlowSimDataset.ClusterLinesErrSticks | contribs/evWireless/evsim/gradient_flow_matching/flowsim_dataset.py:178-182 | once a cluster fails, the lines are that failure whatever follows |
| FlowSimDataset.MemberIdsErrSticks | contribs/evWireless/evsim/gradient_flow_matching/flowsim_dataset.py:180-181 | once a member has no node id, the ids are that KeyError whatever follows |
| FlowSimDataset.Pad2 | contribs/evWireless/evsim/gradient_flow_matching/flowsim_dataset.py:222 | the minute as two digits, zero-padded below ten (read back in Pad2ReadBack) |
| FlowSimDataset.Clock | contribs/evWireless/evsim/gradient_flow_matching/flowsim_dataset.py:223-228 | "HH:MM:00" with both fields zero-padded (read back in ClockReadBack) |
| FlowSimDataset.StartTime | contribs/evWireless/evsim/gradient_flow_matching/flowsim_dataset.py:223-225 | a person's start time: its hour and minute as a clock |
| FlowSimDataset.EndTime | contribs/evWireless/evsim/gradient_flow_matching/flowsim_dataset.py:215 | a person's end time: (hour + 8) mod 24 and the same minute as a clock |
| FlowSimDataset.Pick | contribs/evWireless/evsim/gradient_flow_matching/flowsim_dataset.py:208-209 | random.choice from a non-empty cluster: the drawn member |
| FlowSimDataset.NodeAt | contribs/evWireless/evsim/gradient_flow_matching/flowsim_dataset.py:210-211 | node_mapping.inverse[i]: the id at index i, or KeyError (the inverse of the node indexing, by NodeAtIsInverse) |
| FlowSimDataset.NewPerson | contribs/evWireless/evsim/gradient_flow_matching/flowsim_dataset.py:208-246 | one person of cell (c1, c2) at an hour: a missing cluster is KeyError, an empty one IndexError; origin and destination coordinates of the drawn nodes, end hour eight hours on, a minute below 60 |
| FlowSimDataset.AddPerson | contribs/evWireless/evsim/gradient_flow_matching/flowsim_dataset.py:207-218 | the persons so far and one more numbered after them, or the first failure (its property is AddPersonStep) |
| FlowSimDataset.AddPersons | contribs/evWireless/evsim/gradient_flow_matching/flowsim_dataset.py:207-218 | count iterations of the person loop (its property is AddPersonsCount) |
| FlowSimDataset.Numbered | contribs/evWireless/evsim/gradient_flow_matching/flowsim_dataset.py:214-218 | persons numbered 1, 2, 3, ... in order, each ending eight hours (mod 24) after its start hour, at a minute below 60 |
| FlowSimDataset.Grows | contribs/evWireless/evsim/gradient_flow_matching/flowsim_dataset.py:207-218 | a successful step adds exactly k persons and keeps the numbering |
| FlowSimDataset.Shape | contribs/evWireless/evsim/gradient_flow_matching/flowsim_dataset.py:188 | the flows tensor has shape (n_clusters, n_clusters, 24) as documented, generalised to (z1, z2, hours) |
| FlowSimDataset.HourPlans | contribs/evWireless/evsim/gradient_flow_matching/flowsim_dataset.py:204-218 | the hour loop of one cell pair (its count is HourPlansCount) |
| FlowSimDataset.DestinationPlans | contribs/evWireless/evsim/gradient_flow_matching/flowsim_dataset.py:203-218 | the destination loop of one origin cluster (its count is DestinationPlansCount) |
| FlowSimDataset.Plans | contribs/evWireless/evsim/gradient_flow_matching/flowsim_dataset.py:202-218 | every person save_plans_from_flow_res creates, in loop order (its count is PlansCount) |
| FlowSimDataset.HourTrips | contribs/evWireless/evsim/gradient_flow_matching/flowsim_dataset.py:204-207 | the truncated flows of the first h hours of a cell pair, summed |
| FlowSimDataset.DestinationTrips | contribs/evWireless/evsim/gradient_flow_matching/flowsim_dataset.py:203-207 | the truncated flows of an origin cluster's first c2 destinations, summed |
| FlowSimDataset.TotalTrips | contribs/evWireless/evsim/gradient_flow_matching/flowsim_dataset.py:202-207 | the truncated flows of the first c1 origin clusters, summed |
| FlowSimDataset.TamFile | contribs/evWireless/evsim/gradient_flow_matching/flowsim_dataset.py:74 | the cache file: the output directory and "<network stem>_TAM_nclusters_<count>.npz" (two counts never share one, by TamFileSeparatesClusters) |
| FlowSimEnv.Zeros | contribs/ev/evsim/envs/flowsim_env.py:82 | torch.zeros of the target's shape: a grid of zeros |
| FlowSimEnv.PathRows | contribs/ev/evsim/envs/flowsim_env.py:104 | the rows a path selects, one per node, a negative index counting from the end |
| FlowSimEnv.AddPath | contribs/ev/evsim/envs/flowsim_env.py:104 | `result[path, hour] += 1` succeeds exactly when the hour and every path index are in range (else IndexError); in column hour every row the path names gains one, once even when a node repeats, and nothing else changes |
| FlowSimEnv.AddTrip | contribs/ev/evsim/envs/flowsim_env.py:92-104 | one trip keeps the load the target's shape |
| FlowSimEnv.AddTrips | contribs/ev/evsim/envs/flowsim_env.py:91-104 | count trips keep the load the target's shape |
| FlowSimEnv.DestinationLoads | contribs/ev/evsim/envs/flowsim_env.py:88-104 | the destination loop keeps the load the target's shape |
| FlowSimEnv.OriginLoads | contribs/ev/evsim/envs/flowsim_env.py:87-104 | the origin loop keeps the load the target's shape |
| FlowSimEnv.Loads | contribs/ev/evsim/envs/flowsim_env.py:82-104 | the whole loading keeps the load the target's shape |
| FlowSimEnv.AddTripStep | contribs/ev/evsim/envs/flowsim_env.py:92-104 | one trip uses two random draws and keeps the load non-negative |
| FlowSimEnv.AddTripsCount | contribs/ev/evsim/envs/flowsim_env.py:91-104 | count trips use 2 * count draws and keep the load non-negative |
| FlowSimEnv.DestinationLoadsCount | contribs/ev/evsim/envs/flowsim_env.py:88-104 | the destination loop uses two draws per trip, `int(10**a)` trips per cell with cluster1 != cluster2 |
| FlowSimEnv.OriginLoadsCount | contribs/ev/evsim/envs/flowsim_env.py:87-104 | the origin loop uses two draws per trip of its cells |
| FlowSimEnv.LoadsCount | contribs/ev/evsim/envs/flowsim_env.py:82-104 | a successful loading uses two draws per trip of the action and leaves a non-negative load |
| FlowSimEnv.SquareZero | contribs/ev/evsim/envs/flowsim_env.py:106-107 | a square is non-negative and zero only for zero |
| FlowSimEnv.RowSqZero | contribs/ev/evsim/envs/flowsim_env.py:106-107 | a row's summed squared difference is non-negative, and zero exactly when the rows agree |
| FlowSimEnv.SensorErrorZero | contribs/ev/evsim/envs/flowsim_env.py:106-107 | the summed squared error over the sensor rows is non-negative, and zero exactly when every sensor row equals its target row |
| FlowSimEnv.RewardRange | contribs/ev/evsim/envs/flowsim_env.py:106-107 | `1 / (log(err + 1) + 1)` lies in (0, 1], and is 1 exactly when the error is 0 |
| FlowSimEnv.RewardOfRange | contribs/ev/evsim/envs/flowsim_env.py:81-108 | a computed reward lies in (0, 1], and is 1 exactly when the loaded sensor rows equal the counts |
| FlowSimEnv.TracksAdd | contribs/ev/evsim/envs/flowsim_env.py:99-101 | caching a path for a new pair keeps the cache equal to the pairs searched, none searched twice |
| FlowSimEnv.TakeTrip | contribs/ev/evsim/envs/flowsim_env.py:92-104 | one trip through the cache: the load AddTrip describes; the cache holds only true shortest paths and each pair is searched at most once |
| FlowSimEnv.LoadTrips | contribs/ev/evsim/envs/flowsim_env.py:86-104 | the four nested loops give the load Loads describes, with the cache kept as in TakeTrip |
| FlowSimEnv.Better | contribs/ev/evsim/envs/flowsim_env.py:123-124 | the best reward after a step is at least the new reward and the old best, and is one of them |
| FlowSimEnv.Env.constructor | contribs/ev/evsim/envs/flowsim_env.py:19-68 | reward 0, best reward minus infinity (None) and an empty shortest-path cache |
| FlowSimEnv.Env.Reset | contribs/ev/evsim/envs/flowsim_env.py:70-78 | the observation is the current flow tensor |
| FlowSimEnv.Env.ComputeReward | contribs/ev/evsim/envs/flowsim_env.py:81-108 | the reward RewardOf describes, the cache growing only with searched pairs |
| FlowSimEnv.Env.Step | contribs/ev/evsim/envs/flowsim_env.py:111-132 | the flow tensor becomes the action, the reward is RewardOf, the best reward is raised to it when larger; the outcome is (action, reward, False, False); a failing reward leaves the rewards as they were |
| FlowSimEnv.IsGrid | contribs/ev/evsim/envs/flowsim_env.py:82 | a grid of the target's shape: the given number of rows, each of the given width |
| FlowSimEnv.NonNegative | contribs/ev/evsim/envs/flowsim_env.py:104 | every entry of the grid is a count, never negative (kept by every trip, see LoadsCount) |
| FlowSimEnv.RowOf | contribs/ev/evsim/envs/flowsim_env.py:104 | the row a node index selects in `result[path, hour]`: a negative index counts from the end (used by AddPath) |
| FlowSimEnv.Indexable | contribs/ev/evsim/envs/flowsim_env.py:104 | every node index of the path selects a row (-rows <= i < rows); AddPath succeeds exactly when this holds and the hour is in range |
| FlowSimEnv.Fits | contribs/ev/evsim/envs/flowsim_env.py:82-104 | a successful load keeps the target's shape (kept by AddTrip, AddTrips and the loading functions) |
| FlowSimEnv.Choose | contribs/ev/evsim/envs/flowsim_env.py:92-97 | `random.choice(self.dataset.clusters[c])`: KeyError for a missing cluster, IndexError for an empty one, else a member picked by the draw |
| FlowSimEnv.CellTrips | contribs/ev/evsim/envs/flowsim_env.py:89-90 | the trips of one cell: `int(10**a)`, none when cluster1 == cluster2 (counted by DestinationLoadsCount) |
| FlowSimEnv.DestinationTrips | contribs/ev/evsim/envs/flowsim_env.py:88-91 | the trips of one origin's destination loop, summed cell by cell (its meaning is DestinationLoadsCount) |
| FlowSimEnv.OriginTrips | contribs/ev/evsim/envs/flowsim_env.py:87-91 | the trips of one hour, summed origin by origin (its meaning is OriginLoadsCount) |
| FlowSimEnv.TotalTrips | contribs/ev/evsim/envs/flowsim_env.py:86-91 | the trips of the whole action, summed hour by hour (its meaning is LoadsCount) |
| FlowSimEnv.RowSq | contribs/ev/evsim/envs/flowsim_env.py:106-107 | the squared differences of one sensor row, summed; non-negative and zero exactly when the rows agree (RowSqZero) |
| FlowSimEnv.Comparable | contribs/ev/evsim/envs/flowsim_env.py:106-107 | result and target have the same shape and every sensor index selects a row |
| FlowSimEnv.SensorError | contribs/ev/evsim/envs/flowsim_env.py:106-107 | `((result[sensor_idxs, :] - target[sensor_idxs, :])**2).sum()`; its properties are SensorErrorZero |
| FlowSimEnv.LogLike | contribs/ev/evsim/envs/flowsim_env.py:106 | what the reward needs of torch.log: zero at one and positive above one |
| FlowSimEnv.Reward | contribs/ev/evsim/envs/flowsim_env.py:106-108 | `1 / (log(err + 1) + 1)`; its range is RewardRange |
| FlowSimEnv.RewardOf | contribs/ev/evsim/envs/flowsim_env.py:81-108 | the reward of an action, or the first failure while loading its trips; its range is RewardOfRange |
| FlowSimEnv.Cached | contribs/ev/evsim/envs/flowsim_env.py:99-103 | every cached path is the graph's shortest path for its node pair (kept by TakeTrip) |
| FlowSimEnv.Tracks | contribs/ev/evsim/envs/flowsim_env.py:99-101 | the cache holds exactly the pairs searched, none searched twice (kept by TracksAdd and TakeTrip) |
| FlowSimEnv.SensorsIn | contribs/ev/evsim/envs/flowsim_env.py:106 | every sensor index selects a row of the target |
| FlowSimEnv.Env.Valid | contribs/ev/evsim/envs/flowsim_env.py:45-46 | the environment's invariant: true cached paths, each searched once, rewards in (0, 1], best reward the largest of them and None before the first (kept by the constructor, ComputeReward and Step) |
| GradientFlowMatching.CellBijection | contribs/evWireless/evsim/gradient_flow_matching/run_gradient_flow_matching.py:42 | the row-major cell position c1 * Z + c2 and its inverse (k / Z, k % Z) are inverse bijections between Z × Z cells and 0..Z²-1 |
| GradientFlowMatching.CellIndexInRange | contribs/evWireless/evsim/gradient_flow_matching/run_gradient_flow_matching.py:42 | a cell's row-major position lies in 0..Z²-1 |
| GradientFlowMatching.CellIndicesInRange | contribs/evWireless/evsim/gradient_flow_matching/run_gradient_flow_matching.py:42 | every cell's row-major position lies in 0..Z²-1 |
| GradientFlowMatching.CellFromIndex | contribs/evWireless/evsim/gradient_flow_matching/run_gradient_flow_matching.py:42 | the cell at a cell's position is that cell |
| GradientFlowMatching.IndexFromCell | contribs/evWireless/evsim/gradient_flow_matching/run_gradient_flow_matching.py:77 | the position of the cell at a position is that position |
| GradientFlowMatching.MulAtLeast | contribs/evWireless/evsim/gradient_flow_matching/run_gradient_flow_matching.py:37 | a positive multiple of Z is at least Z |
| GradientFlowMatching.ConcatIndex | contribs/evWireless/evsim/gradient_flow_matching/run_gradient_flow_matching.py:42 | in the concatenation of equal-length rows, entry c1 * Z + c2 is row c1's entry c2 |
| GradientFlowMatching.ConcatLength | contribs/evWireless/evsim/gradient_flow_matching/run_gradient_flow_matching.py:42 | concatenating rows of length Z gives Z entries per row |
| GradientFlowMatching.ConcatCells | contribs/evWireless/evsim/gradient_flow_matching/run_gradient_flow_matching.py:42 | Z rows of Z entries concatenate to Z² entries, each cell at its row-major position |
| GradientFlowMatching.FlattenTam | contribs/evWireless/evsim/gradient_flow_matching/run_gradient_flow_matching.py:42 | `TAM.reshape(-1, Z_2)` has one row of Z² entries per link |
| GradientFlowMatching.FlattenLengths | contribs/evWireless/evsim/gradient_flow_matching/run_gradient_flow_matching.py:42 | every reshaped row has Z² entries |
| GradientFlowMatching.FlattenTamCells | contribs/evWireless/evsim/gradient_flow_matching/run_gradient_flow_matching.py:42 | entry c1 * Z + c2 of a reshaped row is TAM[e][c1][c2] |
| GradientFlowMatching.Unflatten | contribs/evWireless/evsim/gradient_flow_matching/run_gradient_flow_matching.py:77 | `best_model.reshape(Z, Z, 24)` puts row c1 * Z + c2 at cell (c1, c2) |
| GradientFlowMatching.Clamp | contribs/evWireless/evsim/gradient_flow_matching/run_gradient_flow_matching.py:56 | `clamp_(0, inf)`: every entry is non-negative and a non-negative entry is unchanged |
| GradientFlowMatching.MatMul | contribs/evWireless/evsim/gradient_flow_matching/run_gradient_flow_matching.py:57 | `torch.matmul(TAM, W)` has one row per link and 24 columns |
| GradientFlowMatching.DotNonNegative | contribs/evWireless/evsim/gradient_flow_matching/run_gradient_flow_matching.py:57 | a dot product of non-negative entries is non-negative |
| GradientFlowMatching.ForwardNonNegative | contribs/evWireless/evsim/gradient_flow_matching/run_gradient_flow_matching.py:56-57 | with a non-negative TAM, the flows from the clamped W are non-negative |
| GradientFlowMatching.RowSqZero | contribs/evWireless/evsim/gradient_flow_matching/run_gradient_flow_matching.py:58 | a row's squared error is non-negative and zero when the rows agree |
| GradientFlowMatching.RowAbsZero | contribs/evWireless/evsim/gradient_flow_matching/run_gradient_flow_matching.py:69 | a row's absolute error is non-negative, and zero exactly when the rows agree |
| GradientFlowMatching.SqErrorZero | contribs/evWireless/evsim/gradient_flow_matching/run_gradient_flow_matching.py:58 | the squared error over the sensor rows is non-negative and zero when they match the target |
| GradientFlowMatching.AbsErrorZero | contribs/evWireless/evsim/gradient_flow_matching/run_gradient_flow_matching.py:69 | the absolute error over the sensor rows is non-negative, and zero exactly when they match the target |
| GradientFlowMatching.MseZero | contribs/evWireless/evsim/gradient_flow_matching/run_gradient_flow_matching.py:58 | mse_loss is non-negative and zero when the sensor rows match the target |
| GradientFlowMatching.MadZero | contribs/evWireless/evsim/gradient_flow_matching/run_gradient_flow_matching.py:48-69 | the logged MAD is non-negative, and zero exactly when the sensor rows match the target |
| GradientFlowMatching.Improve | contribs/evWireless/evsim/gradient_flow_matching/run_gradient_flow_matching.py:62-64 | after a step the best loss is defined and never above the previous best |
| GradientFlowMatching.Step | contribs/evWireless/evsim/gradient_flow_matching/run_gradient_flow_matching.py:54-79 | one step keeps W of shape (Z², 24) |
| GradientFlowMatching.Trained | contribs/evWireless/evsim/gradient_flow_matching/run_gradient_flow_matching.py:50-79 | after any number of steps W has shape (Z², 24) |
| GradientFlowMatching.Weights | contribs/evWireless/evsim/gradient_flow_matching/run_gradient_flow_matching.py:39-60 | W before step t has shape (Z², 24) |
| GradientFlowMatching.Flows | contribs/evWireless/evsim/gradient_flow_matching/run_gradient_flow_matching.py:57 | R at step t has one row per link and 24 columns |
| GradientFlowMatching.TrainedFollows | contribs/evWireless/evsim/gradient_flow_matching/run_gradient_flow_matching.py:53-60 | the loop's W is the trajectory of clamp-then-update from the initial draw, and its R is that of the last step |
| GradientFlowMatching.BestIsMinimum | contribs/evWireless/evsim/gradient_flow_matching/run_gradient_flow_matching.py:50-64 | after t > 0 steps best_loss is the minimum of the losses so far, reached first at a step k whose updated W is best_model; before any step there is none |
| GradientFlowMatching.BestNeverIncreases | contribs/evWireless/evsim/gradient_flow_matching/run_gradient_flow_matching.py:62-64 | the best loss never increases from one step to a later one |
| GradientFlowMatching.SaveStepsExactly | contribs/evWireless/evsim/gradient_flow_matching/run_gradient_flow_matching.py:71-73 | the save steps are exactly the s < t with s != 0 and a positive save_interval dividing s, in ascending order |
| GradientFlowMatching.LogStepsExactly | contribs/evWireless/evsim/gradient_flow_matching/run_gradient_flow_matching.py:66 | the log steps are exactly the s < t that log_interval divides, in ascending order |
| GradientFlowMatching.TrainedStep | contribs/evWireless/evsim/gradient_flow_matching/run_gradient_flow_matching.py:53-79 | one step: the best updated by the step's loss and W, a snapshot on a save step, a log entry on a log step |
| GradientFlowMatching.SavesAtSchedule | contribs/evWireless/evsim/gradient_flow_matching/run_gradient_flow_matching.py:71-79 | the saves during training are one per save step, in order, each holding the best model after that step and that step's R |
| GradientFlowMatching.SavesStepwise | contribs/evWireless/evsim/gradient_flow_matching/run_gradient_flow_matching.py:71-79 | each step appends a snapshot exactly on a save step |
| GradientFlowMatching.SaveStep | contribs/evWireless/evsim/gradient_flow_matching/run_gradient_flow_matching.py:71-79 | one step appends a snapshot exactly on a save step |
| GradientFlowMatching.SnapshotAfter | contribs/evWireless/evsim/gradient_flow_matching/run_gradient_flow_matching.py:74-75 | after a step best_model is set, so a save step's snapshot is (best model, R) |
| GradientFlowMatching.SavesOfSchedule | contribs/evWireless/evsim/gradient_flow_matching/run_gradient_flow_matching.py:71-75 | a list that grows by one snapshot on exactly the save steps holds the snapshots of the save steps in order |
| GradientFlowMatching.LogsAtSchedule | contribs/evWireless/evsim/gradient_flow_matching/run_gradient_flow_matching.py:66-69 | the logs are one per log step, in order, each with that step's MSE and MAD |
| GradientFlowMatching.Rand | contribs/evWireless/evsim/gradient_flow_matching/run_gradient_flow_matching.py:39 | `torch.rand(Z_2, 24)` has shape (Z², 24) |
| GradientFlowMatching.Fit | contribs/evWireless/evsim/gradient_flow_matching/run_gradient_flow_matching.py:37-89 | the loop fails (ZeroDivisionError) exactly when it runs a step with log_interval 0; otherwise it ends with the trained state, W clamped, and one more save after the loop when any step ran |
| GradientFlowMatching.UnflattenCell | contribs/evWireless/evsim/gradient_flow_matching/run_gradient_flow_matching.py:77 | cell (k / Z, k % Z) of the reshaped best model is its row k |
| GradientFlowMatching.UnflattenShape | contribs/evWireless/evsim/gradient_flow_matching/run_gradient_flow_matching.py:77 | the reshaped best model has shape (Z, Z, 24), as save_plans_from_flow_res expects |
| GradientFlowMatching.UnflattenCells | contribs/evWireless/evsim/gradient_flow_matching/run_gradient_flow_matching.py:77 | every row k of the best model lands at cell (k / Z, k % Z) |
| GradientFlowMatching.IsMatrix | contribs/evWireless/evsim/gradient_flow_matching/run_gradient_flow_matching.py:39-43 | a matrix of the given rows and columns: W is (Z², 24), the reshaped TAM (E, Z²), TARGET (E, 24) |
| GradientFlowMatching.TamShape | contribs/evWireless/evsim/gradient_flow_matching/run_gradient_flow_matching.py:38 | the TAM as the dataset gives it: E rows of Z × Z |
| GradientFlowMatching.CellIndex | contribs/evWireless/evsim/gradient_flow_matching/run_gradient_flow_matching.py:42 | the row-major position c1 * Z + c2 of a cell; it is a bijection with CellOf (CellBijection) |
| GradientFlowMatching.CellOf | contribs/evWireless/evsim/gradient_flow_matching/run_gradient_flow_matching.py:77 | the cell (k / Z, k % Z) at a row-major position; inverse of CellIndex (CellBijection) |
| GradientFlowMatching.Concat | contribs/evWireless/evsim/gradient_flow_matching/run_gradient_flow_matching.py:42 | the rows of a cell matrix one after the other; what lands where is ConcatIndex and ConcatCells |
| GradientFlowMatching.Max0 | contribs/evWireless/evsim/gradient_flow_matching/run_gradient_flow_matching.py:56 | one entry of `clamp_(0, inf)`; Clamp states its effect |
| GradientFlowMatching.Dot | contribs/evWireless/evsim/gradient_flow_matching/run_gradient_flow_matching.py:57 | one entry of `torch.matmul`: the sum of a[k] * b[k][j]; non-negative for non-negative factors (DotNonNegative) |
| GradientFlowMatching.Rows | contribs/evWireless/evsim/gradient_flow_matching/run_gradient_flow_matching.py:47 | every sensor index names a row of the flows |
| GradientFlowMatching.Abs | contribs/evWireless/evsim/gradient_flow_matching/run_gradient_flow_matching.py:69 | `torch.abs` of one entry; RowAbsZero states what the summed values mean |
| GradientFlowMatching.RowSq | contribs/evWireless/evsim/gradient_flow_matching/run_gradient_flow_matching.py:58 | a sensor row's squared error; its properties are RowSqZero |
| GradientFlowMatching.RowAbs | contribs/evWireless/evsim/gradient_flow_matching/run_gradient_flow_matching.py:69 | a sensor row's absolute error; its properties are RowAbsZero |
| GradientFlowMatching.Comparable | contribs/evWireless/evsim/gradient_flow_matching/run_gradient_flow_matching.py:58 | flows and target have the same rows, 24 columns each, and every sensor index names a row |
| GradientFlowMatching.SqError | contribs/evWireless/evsim/gradient_flow_matching/run_gradient_flow_matching.py:58 | the squared error summed over the sensor rows; its properties are SqErrorZero |
| GradientFlowMatching.AbsError | contribs/evWireless/evsim/gradient_flow_matching/run_gradient_flow_matching.py:69 | the absolute error summed over the sensor rows; its properties are AbsErrorZero |
| GradientFlowMatching.Mse | contribs/evWireless/evsim/gradient_flow_matching/run_gradient_flow_matching.py:58 | `mse_loss` over the sensor rows: the squared error over the number of sensor entries; its properties are MseZero |
| GradientFlowMatching.Mad | contribs/evWireless/evsim/gradient_flow_matching/run_gradient_flow_matching.py:48-69 | the logged deviation: the absolute error over `target_size`; its properties are MadZero |
| GradientFlowMatching.Valid | contribs/evWireless/evsim/gradient_flow_matching/run_gradient_flow_matching.py:37-48 | the fitting problem's shapes: TAM (E, Z²), TARGET (E, 24), every sensor index a row, at least one sensor |
| GradientFlowMatching.KeepsShape | contribs/evWireless/evsim/gradient_flow_matching/run_gradient_flow_matching.py:60 | `optimizer.step` keeps W of shape (Z², 24) |
| GradientFlowMatching.Setup | contribs/evWireless/evsim/gradient_flow_matching/run_gradient_flow_matching.py:37-48 | a valid problem, a shape-keeping optimizer and an initial W of shape (Z², 24) |
| GradientFlowMatching.LogAt | contribs/evWireless/evsim/gradient_flow_matching/run_gradient_flow_matching.py:66 | the loop logs at a step exactly when `step % log_interval == 0` (a zero interval is the error Fit reports); LogStepsExactly collects them |
| GradientFlowMatching.SaveAt | contribs/evWireless/evsim/gradient_flow_matching/run_gradient_flow_matching.py:71-73 | the loop saves at a step exactly when it is not 0, the interval is positive and divides it; SaveStepsExactly collects them |
| GradientFlowMatching.Finish | contribs/evWireless/evsim/gradient_flow_matching/run_gradient_flow_matching.py:81-89 | after the loop: W clamped once more, and a final snapshot of the best model with the last R when one exists (stated by Fit) |
| GradientFlowMatching.Loss | contribs/evWireless/evsim/gradient_flow_matching/run_gradient_flow_matching.py:58 | the loss of step t on the trajectory; BestIsMinimum relates the best loss to it |
| GradientFlowMatching.LogSteps | contribs/evWireless/evsim/gradient_flow_matching/run_gradient_flow_matching.py:66 | the steps before t that log, in order; LogStepsExactly characterises them |
| GradientFlowMatching.SaveSteps | contribs/evWireless/evsim/gradient_flow_matching/run_gradient_flow_matching.py:71-73 | the steps before t that save, in order; SaveStepsExactly characterises them |
| GradientFlowMatching.SaveSnapshot | contribs/evWireless/evsim/gradient_flow_matching/run_gradient_flow_matching.py:74-75 | what a save at step s writes: the best model after step s and R of step s (SavesAtSchedule) |
| GradientFlowMatching.StepCount | contribs/evWireless/evsim/gradient_flow_matching/run_gradient_flow_matching.py:46 | the iterations of `range(training_steps)`: none for a non-positive count |
| GradientFlowMatching.ProblemOf | contribs/evWireless/evsim/gradient_flow_matching/run_gradient_flow_matching.py:37-48 | the fitting problem from the dataset: the reshaped TAM, the targets, the sensor rows and Z² |
| OsmNetworkReader.OnewayRules | contribs/osm/src/main/java/org/matsim/contrib/osm/networkReader/SupersonicOsmNetworkReader.java:212-236 | a oneway value yes/true/1 makes a way oneway, -1/reverse/no/false/0 two-way; otherwise it is oneway on a roundabout junction or by its type's default; a way runs in reverse exactly when its oneway value is -1 or reverse, and such a way is never oneway |
| OsmNetworkReader.LaneCapacity | contribs/osm/src/main/java/org/matsim/contrib/osm/networkReader/SupersonicOsmNetworkReader.java:276-279 | the lane capacity is the type's lane capacity, doubled on links shorter than 100 |
| OsmNetworkReader.NumberOfLanesRules | contribs/osm/src/main/java/org/matsim/contrib/osm/networkReader/SupersonicOsmNetworkReader.java:281-301 | without a lanes tag a direction gets the type's lanes per direction; a positive direction-specific lanes tag wins; otherwise the lanes tag counts whole on a oneway and half on a two-way link; an unparsable lanes tag falls back to the default |
| OsmNetworkReader.FreespeedRules | contribs/osm/src/main/java/org/matsim/contrib/osm/networkReader/SupersonicOsmNetworkReader.java:238-274 | a tagged speed at or below 51 km/h counts half; an untagged link keeps the type's speed unless it is a short link of a level between motorway and tertiary, whose speed then lies between 10 km/h and the type's speed and is 10 km/h at length 0 |
| OsmNetworkReader.Interpolation | contribs/osm/src/main/java/org/matsim/contrib/osm/networkReader/SupersonicOsmNetworkReader.java:268-274 | the interpolated speed of a link shorter than 300 lies between 10 km/h and the type's free speed |
| OsmNetworkReader.LoopBack | contribs/osm/src/main/java/org/matsim/contrib/osm/networkReader/SupersonicOsmNetworkReader.java:140-158 | the backwards walk of a loop gives at most as many segments as nodes walked, numbered with ids rising by two from the given postfix, chained end to start and ending at the loop's closing node |
| OsmNetworkReader.PrependNothing | contribs/osm/src/main/java/org/matsim/contrib/osm/networkReader/SupersonicOsmNetworkReader.java:94-95 | adding no loop segments leaves the segment list as it was |
| OsmNetworkReader.PrependTwice | contribs/osm/src/main/java/org/matsim/contrib/osm/networkReader/SupersonicOsmNetworkReader.java:94-95 | adding two runs of segments one after the other equals adding their concatenation |
| OsmNetworkReader.LoopSegments | contribs/osm/src/main/java/org/matsim/contrib/osm/networkReader/SupersonicOsmNetworkReader.java:129-160 | handleLoop's loop computes exactly the segments of the loop specification, including the empty result when the filter rejects the loop |
| OsmNetworkReader.CreateWaySegments | contribs/osm/src/main/java/org/matsim/contrib/osm/networkReader/SupersonicOsmNetworkReader.java:74-122 | the segmenting loop over a way's nodes computes exactly the scan specification: loops kept whole, cuts at intersections, the way's end and preserved nodes, and failure on a missing node |
| OsmNetworkReader.LoopSpaced | contribs/osm/src/main/java/org/matsim/contrib/osm/networkReader/SupersonicOsmNetworkReader.java:94-98 | appending a loop's segments keeps a way's segment ids spaced by two and advances the next postfix past them |
| OsmNetworkReader.CutSpaced | contribs/osm/src/main/java/org/matsim/contrib/osm/networkReader/SupersonicOsmNetworkReader.java:106-118 | appending a cut segment with the current postfix keeps a way's segment ids spaced by two |
| OsmNetworkReader.ScanStepSpaced | contribs/osm/src/main/java/org/matsim/contrib/osm/networkReader/SupersonicOsmNetworkReader.java:83-120 | one node step keeps the postfix odd, at least 2i+1 after step i, and the segment ids spaced |
| OsmNetworkReader.ScannedSpaced | contribs/osm/src/main/java/org/matsim/contrib/osm/networkReader/SupersonicOsmNetworkReader.java:83-120 | after any number of node steps the postfix is odd and the segment ids are spaced by two |
| OsmNetworkReader.WaySegmentsFail | contribs/osm/src/main/java/org/matsim/contrib/osm/networkReader/SupersonicOsmNetworkReader.java:74-122 | a scan that fails at some node step makes the whole way's segmentation fail with that error |
| OsmNetworkReader.ScannedErrSticks | contribs/osm/src/main/java/org/matsim/contrib/osm/networkReader/SupersonicOsmNetworkReader.java:83-120 | once a scan has failed, further node steps keep the same failure |
| OsmNetworkReader.WayLinkIdsDistinct | contribs/osm/src/main/java/org/matsim/contrib/osm/networkReader/SupersonicOsmNetworkReader.java:108-112 | within a way, each segment id plus one (the reverse link's id) stays below the next segment's id, so all link ids of a way differ |
| OsmNetworkReader.CreateLink | contribs/osm/src/main/java/org/matsim/contrib/osm/networkReader/SupersonicOsmNetworkReader.java:191-210 | a link exists exactly when the segment's highway type has properties; it then has the segment id (plus one when reversed), the segment's ends and length, the freespeed from the maxspeed tag or the type's rule, the direction's lanes, lane capacity times lanes, and the way id and highway type as attributes |
| OsmNetworkReader.CreateLinksDirections | contribs/osm/src/main/java/org/matsim/contrib/osm/networkReader/SupersonicOsmNetworkReader.java:162-181 | a segment gives one or two links: a forward link with the segment id unless the way runs in reverse, a reverse link with the next id unless it is oneway; a -1 way gives only the reverse link and a yes way only the forward link |
| OsmNetworkReader.AddLinkConsistent | contribs/osm/src/main/java/org/matsim/contrib/osm/networkReader/SupersonicOsmNetworkReader.java:303-321 | adding a link succeeds exactly when its id is new; the network then holds the link under its id and both end nodes, and stays consistent |
| OsmNetworkReader.AddLinksConsistent | contribs/osm/src/main/java/org/matsim/contrib/osm/networkReader/SupersonicOsmNetworkReader.java:162-181 | adding a segment's links one by one keeps the network consistent |
| OsmNetworkReader.AddSegmentsConsistent | contribs/osm/src/main/java/org/matsim/contrib/osm/networkReader/SupersonicOsmNetworkReader.java:66-72 | adding the links of a way's segments keeps the network consistent |
| OsmNetworkReader.ConvertWaysConsistent | contribs/osm/src/main/java/org/matsim/contrib/osm/networkReader/SupersonicOsmNetworkReader.java:66-72 | a converted network stores every link under its own id with both end nodes present |
| OsmNetworkReader.Reader.constructor | contribs/osm/src/main/java/org/matsim/contrib/osm/networkReader/SupersonicOsmNetworkReader.java:37-48 | a new reader keeps the link-property table and settings and starts from an empty network |
| OsmNetworkReader.Reader.AddLinkToNetwork | contribs/osm/src/main/java/org/matsim/contrib/osm/networkReader/SupersonicOsmNetworkReader.java:303-321 | missing end nodes are added; a new link id adds the link, an id already present is the already-present error and leaves the links unchanged |
| OsmNetworkReader.Reader.Convert | contribs/osm/src/main/java/org/matsim/contrib/osm/networkReader/SupersonicOsmNetworkReader.java:50-72 | converting the ways changes the network exactly as the conversion specification does, or fails with its error |
| OsmNetworkReader.Reader.AddWayLinks | contribs/osm/src/main/java/org/matsim/contrib/osm/networkReader/SupersonicOsmNetworkReader.java:68-71 | the links of a way's segments are made and added in turn, as the specification of adding segments says |
| OsmNetworkReader.Reader.AddSegmentLinks | contribs/osm/src/main/java/org/matsim/contrib/osm/networkReader/SupersonicOsmNetworkReader.java:70-71 | a segment's links are added one after another, as the specification of adding links says |
| OsmNetworkReader.AddLinksErr | contribs/osm/src/main/java/org/matsim/contrib/osm/networkReader/SupersonicOsmNetworkReader.java:303-321 | once adding has failed, further links do not change the failure |
| OsmNetworkReader.AddSegmentsErr | contribs/osm/src/main/java/org/matsim/contrib/osm/networkReader/SupersonicOsmNetworkReader.java:66-72 | once adding has failed, further segments do not change the failure |
| OsmNetworkReader.ConvertWaysErr | contribs/osm/src/main/java/org/matsim/contrib/osm/networkReader/SupersonicOsmNetworkReader.java:66-72 | once conversion has failed, further ways do not change the failure |
| OsmNetworkReader.AddOverridingLinkProperties | contribs/osm/src/main/java/org/matsim/contrib/osm/networkReader/SupersonicOsmNetworkReader.java:356-359 | overriding sets the highway type's properties and changes nothing else in the builder |
| OsmNetworkReader.Build | contribs/osm/src/main/java/org/matsim/contrib/osm/networkReader/SupersonicOsmNetworkReader.java:361-371 | building fails with an illegal-argument error exactly when no coordinate transformation was set, and otherwise hands over the transformation, table and settings |
| OsmNetworkReader.OnewayTag | contribs/osm/src/main/java/org/matsim/contrib/osm/networkReader/SupersonicOsmNetworkReader.java:217 | the oneway values yes, true and 1 (OnewayRules) |
| OsmNetworkReader.ReverseTag | contribs/osm/src/main/java/org/matsim/contrib/osm/networkReader/SupersonicOsmNetworkReader.java:218 | the oneway values -1 and reverse (OnewayRules) |
| OsmNetworkReader.NotOnewayTag | contribs/osm/src/main/java/org/matsim/contrib/osm/networkReader/SupersonicOsmNetworkReader.java:218 | the oneway values no, false and 0 (OnewayRules) |
| OsmNetworkReader.IsOneway | contribs/osm/src/main/java/org/matsim/contrib/osm/networkReader/SupersonicOsmNetworkReader.java:212-226 | isOneway; OnewayRules states its cases |
| OsmNetworkReader.IsOnewayReverse | contribs/osm/src/main/java/org/matsim/contrib/osm/networkReader/SupersonicOsmNetworkReader.java:228-236 | isOnewayReverse; OnewayRules states that it holds exactly for -1 and reverse and never with isOneway |
| OsmNetworkReader.ParseDouble | contribs/osm/src/main/java/org/matsim/contrib/osm/networkReader/SupersonicOsmNetworkReader.java:252-254 | Double.parseDouble of a tag: a value exactly when the Java numeral grammar accepts the text, None for a NumberFormatException |
| OsmNetworkReader.ParseDoublePrinted | contribs/osm/src/main/java/org/matsim/contrib/osm/networkReader/SupersonicOsmNetworkReader.java:287-291 | a tag holding a printed number, plain or with an exponent, reads back as its value |
| OsmNetworkReader.NumberOfLanes | contribs/osm/src/main/java/org/matsim/contrib/osm/networkReader/SupersonicOsmNetworkReader.java:281-301 | getNumberOfLanes; NumberOfLanesRules states its cases |
| OsmNetworkReader.ParseSpeedTag | contribs/osm/src/main/java/org/matsim/contrib/osm/networkReader/SupersonicOsmNetworkReader.java:248-259 | the maxspeed tag in m/s: mph converted, km/h divided by 3.6, the type's default when it does not parse (FreespeedRules) |
| OsmNetworkReader.SpeedIfNoSpeedTag | contribs/osm/src/main/java/org/matsim/contrib/osm/networkReader/SupersonicOsmNetworkReader.java:268-274 | calculateSpeedIfNoSpeedTag; FreespeedRules and Interpolation state its cases and range |
| OsmNetworkReader.Freespeed | contribs/osm/src/main/java/org/matsim/contrib/osm/networkReader/SupersonicOsmNetworkReader.java:238-246 | getFreespeed; FreespeedRules states that a tagged speed at or below 51 km/h counts half and an untagged one follows SpeedIfNoSpeedTag |
| OsmNetworkReader.SegmentId | contribs/osm/src/main/java/org/matsim/contrib/osm/networkReader/SupersonicOsmNetworkReader.java:109-112 | a segment's id: way id * 10000 + postfix (Spaced, WayLinkIdsDistinct) |
| OsmNetworkReader.NodeOf | contribs/osm/src/main/java/org/matsim/contrib/osm/networkReader/SupersonicOsmNetworkReader.java:86-87 | `nodes.get(id)`: a missing node is the NullPointerException its first use raises |
| OsmNetworkReader.Prepend | contribs/osm/src/main/java/org/matsim/contrib/osm/networkReader/SupersonicOsmNetworkReader.java:94-95 | the segments so far followed by the rest of a walk, or its failure (PrependNothing, PrependTwice) |
| OsmNetworkReader.HandleLoop | contribs/osm/src/main/java/org/matsim/contrib/osm/networkReader/SupersonicOsmNetworkReader.java:129-160 | handleLoop: nothing when the filter rejects the loop, else the loop's segments walked back (LoopBack, LoopSegments) |
| OsmNetworkReader.ScanStep | contribs/osm/src/main/java/org/matsim/contrib/osm/networkReader/SupersonicOsmNetworkReader.java:83-120 | one node step of createWaySegments: a loop, a cut at a closing node, or a longer segment (ScanStepSpaced) |
| OsmNetworkReader.Scanned | contribs/osm/src/main/java/org/matsim/contrib/osm/networkReader/SupersonicOsmNetworkReader.java:83-120 | the scan after the first node steps (ScannedSpaced, ScannedErrSticks) |
| OsmNetworkReader.WaySegments | contribs/osm/src/main/java/org/matsim/contrib/osm/networkReader/SupersonicOsmNetworkReader.java:74-122 | createWaySegments: an empty way fails on its first node, a missing node fails once used (CreateWaySegments computes it, WaySegmentsFail) |
| OsmNetworkReader.Spaced | contribs/osm/src/main/java/org/matsim/contrib/osm/networkReader/SupersonicOsmNetworkReader.java:83-112 | segment ids of a way: way id * 10000 plus an odd postfix, each at least two above the one before, so reverse ids never collide (WayLinkIdsDistinct) |
| OsmNetworkReader.CreateLinks | contribs/osm/src/main/java/org/matsim/contrib/osm/networkReader/SupersonicOsmNetworkReader.java:162-181 | createLinks; CreateLinksDirections states which links a segment gives |
| OsmNetworkReader.Consistent | contribs/osm/src/main/java/org/matsim/contrib/osm/networkReader/SupersonicOsmNetworkReader.java:303-321 | every link stored under its own id with its end nodes in the network (AddLinkConsistent and the lemmas after it) |
| OsmNetworkReader.AddLink | contribs/osm/src/main/java/org/matsim/contrib/osm/networkReader/SupersonicOsmNetworkReader.java:303-321 | addLinkToNetwork on the node and link tables; AddLinkConsistent states it |
| OsmNetworkReader.AddLinks | contribs/osm/src/main/java/org/matsim/contrib/osm/networkReader/SupersonicOsmNetworkReader.java:70-71 | the links of one segment added in order, a failure staying (AddLinksConsistent, AddLinksErr) |
| OsmNetworkReader.AddSegments | contribs/osm/src/main/java/org/matsim/contrib/osm/networkReader/SupersonicOsmNetworkReader.java:69-71 | the links of a way's segments added in order (AddSegmentsConsistent, AddSegmentsErr) |
| OsmNetworkReader.ConvertWays | contribs/osm/src/main/java/org/matsim/contrib/osm/networkReader/SupersonicOsmNetworkReader.java:66-72 | convert over the ways in order (ConvertWaysConsistent, ConvertWaysErr) |
| SensorMatching.ParseDouble | matsim/src/main/java/org/matsim/osm2matsim/GetNetworkAndSensors.java:90-91 | a field that does not parse as a finite decimal (an exponent allowed) is a NumberFormatException naming that field |
| SensorMatching.Round | matsim/src/main/java/org/matsim/osm2matsim/GetNetworkAndSensors.java:95 | Math.round gives the integer within half a unit of the value, halves rounding up |
| SensorMatching.FieldFlow | matsim/src/main/java/org/matsim/osm2matsim/GetNetworkAndSensors.java:95 | the flow of hour h is read from field h+3, which must exist |
| SensorMatching.Collect | matsim/src/main/java/org/matsim/osm2matsim/GetNetworkAndSensors.java:94-97 | collecting parsed fields gives one value per field |
| SensorMatching.CollectValues | matsim/src/main/java/org/matsim/osm2matsim/GetNetworkAndSensors.java:94-97 | collecting succeeds exactly when every field parses, and then yields exactly the parsed values in order |
| SensorMatching.CollectFirstError | matsim/src/main/java/org/matsim/osm2matsim/GetNetworkAndSensors.java:94-97 | when fields parse up to the n-th and that one fails, collecting fails with the n-th field's error |
| SensorMatching.FieldFlows | matsim/src/main/java/org/matsim/osm2matsim/GetNetworkAndSensors.java:93-97 | the hourly loop reads 24 flows, the h-th from field h+3 |
| SensorMatching.Flows | matsim/src/main/java/org/matsim/osm2matsim/GetNetworkAndSensors.java:93-97 | a row's flows are 24 values, each the rounded field h+3, and need at least 27 fields |
| SensorMatching.ParseRow | matsim/src/main/java/org/matsim/osm2matsim/GetNetworkAndSensors.java:86-97 | a line with fewer than 26 comma fields is skipped; an accepted line has at least 27 fields, its sensor id from field 0, latitude and longitude parsed from fields 1 and 2, and 24 flows |
| SensorMatching.TwentySixFieldsFail | matsim/src/main/java/org/matsim/osm2matsim/GetNetworkAndSensors.java:87-95 | a line of exactly 26 fields passes the length guard but fails with an index-out-of-bounds error on field 26 |
| SensorMatching.AddRow | matsim/src/main/java/org/matsim/osm2matsim/GetNetworkAndSensors.java:99-100 | storing a row fails exactly when the line fails to parse, and a skipped line leaves both maps unchanged |
| SensorMatching.ReadRows | matsim/src/main/java/org/matsim/osm2matsim/GetNetworkAndSensors.java:85-101 | after reading, the coordinate and flow maps have the same sensors, each with two coordinates and 24 flows |
| SensorMatching.AddRowOther | matsim/src/main/java/org/matsim/osm2matsim/GetNetworkAndSensors.java:99-100 | storing a line for another sensor leaves what is stored for a sensor unchanged |
| SensorMatching.AddRowSelf | matsim/src/main/java/org/matsim/osm2matsim/GetNetworkAndSensors.java:99-100 | storing a sensor's line makes the maps hold exactly that row |
| SensorMatching.LastRowWins | matsim/src/main/java/org/matsim/osm2matsim/GetNetworkAndSensors.java:85-101 | every stored sensor holds the row of its last line in the file |
| SensorMatching.ReadSensorLines | matsim/src/main/java/org/matsim/osm2matsim/GetNetworkAndSensors.java:79-105 | the reading loop, skipping the header, computes exactly the specification of reading the sensor file |
| SensorMatching.ReadRowsErrSticks | matsim/src/main/java/org/matsim/osm2matsim/GetNetworkAndSensors.java:85-101 | once a line has failed, reading further lines keeps that failure |
| SensorMatching.ScanFinds | matsim/src/main/java/org/matsim/osm2matsim/GetNetworkAndSensors.java:126-142 | the link scan finds nothing exactly when no link qualifies (unused, within the cap, closer than the maximum double), leaving the distance at the maximum double; otherwise it finds a qualifying link of least distance, the first such in iteration order |
| SensorMatching.Nearest | matsim/src/main/java/org/matsim/osm2matsim/GetNetworkAndSensors.java:126-142 | the inner loop over the links computes exactly the link scan |
| SensorMatching.Match | osm2matsim/Osm2matsim.java:95-136 | only listed sensors are mapped; with exclusive use every mapped link is marked used, and without it nothing is |
| SensorMatching.DistinctPrefix | osm2matsim/Osm2matsim.java:105 | a prefix of distinct sensors is distinct |
| SensorMatching.MatchAt | osm2matsim/Osm2matsim.java:105-132 | a sensor is mapped exactly when its scan finds a link, and then to that link |
| SensorMatching.MatchAtLast | osm2matsim/Osm2matsim.java:125-131 | the last sensor is mapped exactly when its scan finds a link, and then to that link |
| SensorMatching.TurnPrefix | osm2matsim/Osm2matsim.java:105-132 | a sensor's scan depends only on the sensors before it |
| SensorMatching.MatchLast | osm2matsim/Osm2matsim.java:125-131 | matching one more sensor adds its link when its scan finds one and otherwise changes nothing |
| SensorMatching.MatchInjective | osm2matsim/Osm2matsim.java:119-127 | with used links tracked, no two sensors are mapped to the same link |
| SensorMatching.MatchQualifies | osm2matsim/Osm2matsim.java:115-127 | every mapped sensor's link is a candidate within the cap and closer than the maximum double |
| SensorMatching.MatchNearest | matsim/src/main/java/org/matsim/osm2matsim/Osm2matsim.java:269-283 | without used tracking, every mapped sensor gets a candidate of least distance |
| SensorMatching.DistinctCard | matsim/src/main/java/org/matsim/osm2matsim/GetNetworkAndSensors.java:118 | an order listing the keys of a map once each has as many entries as the map |
| SensorMatching.IterationOrder | matsim/src/main/java/org/matsim/osm2matsim/GetNetworkAndSensors.java:118 | a map's keys are visited in some order listing each key once |
| SensorMatching.MapSensors | osm2matsim/Osm2matsim.java:105-132 | the loop over the sensors computes exactly the matching specification |
| SensorMatching.MapSensorsToNearestLinks | osm2matsim/Osm2matsim.java:95-136 | the sensors, in some iteration order, are matched to links by transformed Euclidean distance with exclusive use; no link is used twice and every mapped link qualifies |
| SensorMatching.Volumes | matsim/src/main/java/org/matsim/osm2matsim/GetNetworkAndSensors.java:190-195 | a count has exactly 24 volumes |
| SensorMatching.VolumesRoundTrip | matsim/src/main/java/org/matsim/osm2matsim/GetNetworkAndSensors.java:190-195 | volume k reads back as hour k+1 and as the k-th flow |
| SensorMatching.CountLinksDistinct | matsim/src/main/java/org/matsim/osm2matsim/GetNetworkAndSensors.java:182-187 | counts written for distinct sensors under an injective mapping have distinct link ids |
| SensorMatching.WriteVolumes | matsim/src/main/java/org/matsim/osm2matsim/GetNetworkAndSensors.java:190-195 | the hourly loop writes exactly the 24 volumes of the flows |
| SensorMatching.WriteCounts | matsim/src/main/java/org/matsim/osm2matsim/GetNetworkAndSensors.java:182-196 | writing succeeds exactly when every listed sensor has 24 flows, and then one count per sensor with its link and its volumes |
| SensorMatching.WriteCountsXML | matsim/src/main/java/org/matsim/osm2matsim/GetNetworkAndSensors.java:157-213 | writing succeeds exactly when every mapped sensor has flows (a missing one is a NullPointerException); then there is one count per mapped sensor and no other (CountsCover), with its link id and its 24 volumes, and the link ids are distinct under an injective mapping |
| SensorMatching.OrderCoversKeys | matsim/src/main/java/org/matsim/osm2matsim/GetNetworkAndSensors.java:182 | checking the sensors in iteration order is checking every mapped sensor |
| SensorMatching.CountsOfMapping | matsim/src/main/java/org/matsim/osm2matsim/GetNetworkAndSensors.java:182-196 | counts written in an order of the mapped sensors cover each sensor once with its link and volumes |
| SensorMatching.ParseDoublePrinted | matsim/src/main/java/org/matsim/osm2matsim/GetNetworkAndSensors.java:90-91 | a coordinate Java printed, with or without an exponent, reads back as its value |
| SensorMatching.ReadSensorData | matsim/src/main/java/org/matsim/osm2matsim/GetNetworkAndSensors.java:79-105 | reading skips the header line, so an empty file gives two empty maps, and otherwise the rows after the header are read (ReadRows, LastRowWins) |
| SensorMatching.RowFor | matsim/src/main/java/org/matsim/osm2matsim/GetNetworkAndSensors.java:86-89 | defines the line being an accepted data row of the given sensor id (used by AddRowOther and AddRowSelf) |
| SensorMatching.Holds | matsim/src/main/java/org/matsim/osm2matsim/GetNetworkAndSensors.java:99-100 | defines the maps storing a row's latitude and longitude and its flows under its id (used by LastRowWins) |
| SensorMatching.Qualifies | osm2matsim/Osm2matsim.java:118-121 | defines a link that may be chosen: unused, within the cap when there is one, and closer than Double.MAX_VALUE (its consequences in ScanFinds) |
| SensorMatching.Scan | osm2matsim/Osm2matsim.java:112-123 | defines the scan over the links from (null, Double.MAX_VALUE), replacing the best only on a strictly smaller distance to an unused link (proved by ScanFinds, computed by Nearest) |
| SensorMatching.Turn | osm2matsim/Osm2matsim.java:105-123 | defines what the scan finds for the i-th sensor against the links used by the sensors before it (used by MatchAt and TurnPrefix) |
| SensorMatching.Injective | osm2matsim/Osm2matsim.java:126-127 | defines no two sensors sharing a link (proved of the exclusive match by MatchInjective) |
| SensorMatching.AllQualify | osm2matsim/Osm2matsim.java:119-126 | defines every mapped sensor having a candidate link within the cap and under Double.MAX_VALUE (proved by MatchQualifies) |
| SensorMatching.AllNearest | osm2matsim/Osm2matsim.java:115-123 | defines every mapped sensor having a link no farther than any other qualifying link (proved without exclusive use by MatchNearest) |
| SensorMatching.IsOrderOf | osm2matsim/Osm2matsim.java:105 | defines a sequence listing each key of the sensor map exactly once, the unspecified HashMap iteration order (DistinctCard, IterationOrder) |
| SensorMatching.TransformedDistance | osm2matsim/Osm2matsim.java:107-116 | defines the distance from the sensor's transformed (lon, lat) coordinate to the link's coordinate, Double.MAX_VALUE for a missing one |
| SensorMatching.CountsFor | matsim/src/main/java/org/matsim/osm2matsim/GetNetworkAndSensors.java:182-196 | defines the i-th count being the i-th sensor's, with its link id and its 24 volumes (established by WriteCounts) |
| SensorMatching.CountsCover | matsim/src/main/java/org/matsim/osm2matsim/GetNetworkAndSensors.java:182-196 | defines one count per mapped sensor and no other, each on the sensor's link with its volumes (established by CountsOfMapping) |
| SensorMatching.CountsOfMatch | matsim/src/main/java/org/matsim/osm2matsim/GetNetworkAndSensors.java:67-72 | defines the counts being those of the exclusive greedy match of the sensors in some iteration order of the sensor map (established by the Execute methods) |
| GetNetworkAndSensors.Arguments | matsim/src/main/java/org/matsim/osm2matsim/GetNetworkAndSensors.java:26-62 | fewer than five arguments other than two print the usage and exit; two, or more than five, convert the network only; exactly five read the sensor file, output path and an integer cap, whose parse failure is a NumberFormatException |
| GetNetworkAndSensors.MappingWithPrintedCap | matsim/src/main/java/org/matsim/osm2matsim/GetNetworkAndSensors.java:59-62 | five arguments whose last is a printed int give the mapping mode with that cap |
| GetNetworkAndSensors.MapSensorsToLinks | matsim/src/main/java/org/matsim/osm2matsim/GetNetworkAndSensors.java:109-155 | sensors are matched, in some iteration order, to unused links by haversine distance below the cap; no link is used twice and every mapped link qualifies |
| GetNetworkAndSensors.Execute | matsim/src/main/java/org/matsim/osm2matsim/GetNetworkAndSensors.java:24-77 | the usage case exits with status 1, two arguments only convert, and five arguments write counts to the output path: exactly the counts of the greedy match of the sensors in some order (CountsOfMatch), each link closer than the cap and no link twice; a bad cap or a bad sensor file is an error |
| GetNetworkAndSensors.LinkDistance | matsim/src/main/java/org/matsim/osm2matsim/GetNetworkAndSensors.java:122-135 | the haversine distance from the sensor's (latitude, longitude) to the link's coordinate taken back to WGS84; a missing id is never in reach (MapSensorsToLinks matches by it) |
| GetNetworkAndSensors.CountMappedSensors | matsim/src/main/java/org/matsim/osm2matsim/GetNetworkAndSensors.java:67-72 | when every sensor has 24 flows the counts are written; each count is a matched sensor on a network link closer than the cap with its first 24 volumes, no link twice, and the counts are exactly the match of some sensor order (CountsOfMatch) |
| MatsimOsm2matsim.Arguments | matsim/src/main/java/org/matsim/osm2matsim/Osm2matsim.java:26-37 | fewer than three arguments print the usage and exit; exactly three fail on the missing fourth argument; otherwise the sensor file and output path are arguments 2 and 3 |
| MatsimOsm2matsim.HasParentExamples | matsim/src/main/java/org/matsim/osm2matsim/Osm2matsim.java:344-347 | a path with a directory part has a parent, a bare file name has none |
| MatsimOsm2matsim.CoordRows | matsim/src/main/java/org/matsim/osm2matsim/Osm2matsim.java:170-196 | there is at most one CSV row per sensor |
| MatsimOsm2matsim.CoordRowsSkip | matsim/src/main/java/org/matsim/osm2matsim/Osm2matsim.java:178-190 | a row is written exactly for the sensors with two coordinates, each row the sensor id followed by its cells |
| MatsimOsm2matsim.CsvLines | matsim/src/main/java/org/matsim/osm2matsim/Osm2matsim.java:171-175 | a CSV file is its header followed by one line per row |
| MatsimOsm2matsim.CsvReadBack | matsim/src/main/java/org/matsim/osm2matsim/Osm2matsim.java:188-189 | splitting a written line on commas gives back its row when no cell holds a comma and the last is not empty |
| MatsimOsm2matsim.WriteCoordinateRows | matsim/src/main/java/org/matsim/osm2matsim/Osm2matsim.java:178-190 | the coordinate loop computes exactly the coordinate rows |
| MatsimOsm2matsim.MapSensorsToNodes | matsim/src/main/java/org/matsim/osm2matsim/Osm2matsim.java:252-292 | sensors are matched to nodes by transformed Euclidean distance with nodes reused; every mapped node qualifies and is a nearest one |
| MatsimOsm2matsim.NodeRowsNearest | matsim/src/main/java/org/matsim/osm2matsim/Osm2matsim.java:207-244 | each row of the sensor-to-node CSV names a sensor, a node of least raw distance and that distance |
| MatsimOsm2matsim.NodeMappingRows | matsim/src/main/java/org/matsim/osm2matsim/Osm2matsim.java:207-244 | the node loop computes exactly the node-mapping rows |
| MatsimOsm2matsim.MappingRows | matsim/src/main/java/org/matsim/osm2matsim/Osm2matsim.java:88-94 | the second node file holds, in some iteration order of the node mapping, one row per mapped sensor with the sensor and its node (PairRows) |
| MatsimOsm2matsim.WriteCoordinateFiles | matsim/src/main/java/org/matsim/osm2matsim/Osm2matsim.java:102-196 | the two coordinate files are their headers followed by the raw and the transformed coordinate rows, each in some sensor order (OriginalFile, TransformedFile) |
| MatsimOsm2matsim.WriteNodeFiles | matsim/src/main/java/org/matsim/osm2matsim/Osm2matsim.java:79-98 | the sensor-to-node file is its header with one nearest-node row and distance per sensor (DistanceFile); the second file is its header with the rows of the transformed node mapping (MappingFile) |
| MatsimOsm2matsim.Execute | matsim/src/main/java/org/matsim/osm2matsim/Osm2matsim.java:26-99 | fewer than three arguments exit with status 1; three fail on the missing argument; a bad sensor file is its error; an output path without parent is a NullPointerException; otherwise the counts go to the output path, exactly those of the greedy match in some order (CountsOfMatch) with distinct links, and the four CSV files hold the contents OriginalFile, TransformedFile, DistanceFile and MappingFile describe |
| MatsimOsm2matsim.HasParent | matsim/src/main/java/org/matsim/osm2matsim/Osm2matsim.java:345-346 | `Path.getParent()` is not null: some '/' is followed later by another character; HasParentExamples shows both outcomes |
| MatsimOsm2matsim.OriginalCells | matsim/src/main/java/org/matsim/osm2matsim/Osm2matsim.java:183-188 | the fields after the id in the original-coordinates file: latitude and longitude as printed (CoordRowsSkip states the rows) |
| MatsimOsm2matsim.TransformedCells | matsim/src/main/java/org/matsim/osm2matsim/Osm2matsim.java:124-129 | the fields after the id in the transformed file: latitude, longitude, and x and y of the transformed (lon, lat) (CoordRowsSkip states the rows) |
| MatsimOsm2matsim.RawDistance | matsim/src/main/java/org/matsim/osm2matsim/Osm2matsim.java:212-227 | the Euclidean distance from the untransformed (lon, lat) pair to a node; NodeRowsNearest states the rows it picks |
| MatsimOsm2matsim.NodeRows | matsim/src/main/java/org/matsim/osm2matsim/Osm2matsim.java:207-244 | the rows of the sensor-to-node file: sensor, nearest node and distance for each sensor that finds one; their meaning is NodeRowsNearest |
| MatsimOsm2matsim.NearestRow | matsim/src/main/java/org/matsim/osm2matsim/Osm2matsim.java:230-238 | one row of the sensor-to-node file: a listed sensor, a node at least raw distance and that distance as printed |
| MatsimOsm2matsim.PairRows | matsim/src/main/java/org/matsim/osm2matsim/Osm2matsim.java:91-92 | the "sensor,node" rows of a mapping in a given key order (MappingRows ties them to the iteration order) |
| MatsimOsm2matsim.OriginalFile | matsim/src/main/java/org/matsim/osm2matsim/Osm2matsim.java:170-196 | the original-coordinates file: its header, then one row per sensor with two coordinates, in an iteration order of the sensors |
| MatsimOsm2matsim.TransformedFile | matsim/src/main/java/org/matsim/osm2matsim/Osm2matsim.java:102-137 | the transformed-coordinates file: its header, then each such sensor's row with the transformed x and y appended |
| MatsimOsm2matsim.DistanceFile | matsim/src/main/java/org/matsim/osm2matsim/Osm2matsim.java:199-250 | the first node file: its header, then each sensor's nearest node by raw coordinates and the distance, in an iteration order of the sensors |
| MatsimOsm2matsim.MappingFile | matsim/src/main/java/org/matsim/osm2matsim/Osm2matsim.java:84-94 | the second node file: its header, then one "sensor,node" row per entry of mapSensorsToNodes' match for some sensor order |
| MatsimOsm2matsim.CountMappedSensors | matsim/src/main/java/org/matsim/osm2matsim/Osm2matsim.java:74-76 | when every sensor has 24 flows the counts are written; each count is a matched sensor on a network link with its first 24 volumes, no link twice, and the counts are exactly the match of some sensor order (CountsOfMatch) |
| MatsimOsm2matsim.CsvFiles | matsim/src/main/java/org/matsim/osm2matsim/Osm2matsim.java:66-87 | the four CSV files under their four distinct names, each holding its own lines |
| Osm2matsim.Execute | osm2matsim/Osm2matsim.java:22-63 | fewer than three arguments exit with status 1; a bad sensor file is its error; otherwise the counts written to the fixed output file are exactly those of the greedy match in some order (CountsOfMatch), with their volumes and no link twice |
| Multipart.NameOfLine | contribs/evWireless/src/main/java/org/matsim/contrib/ev/FlowRewardServer.java:317 | a file name taken from a disposition line has no double quotes left |
| Multipart.ExtractFileName | contribs/evWireless/src/main/java/org/matsim/contrib/ev/FlowRewardServer.java:314-321 | there is no file name exactly when no line contains "filename"; a found name has no double quotes |
| Multipart.FileNameFromFirstLine | contribs/evWireless/src/main/java/org/matsim/contrib/ev/FlowRewardServer.java:314-321 | the file name comes from the first line containing "filename", and its failure is the whole lookup's failure |
| Multipart.RemoveAround | contribs/evWireless/src/main/java/org/matsim/contrib/ev/FlowRewardServer.java:317 | removing the quotes around a quote-free name gives the name back |
| Multipart.RemoveBefore | contribs/evWireless/src/main/java/org/matsim/contrib/ev/FlowRewardServer.java:317 | removing a trailing quote from a quote-free name gives the name back |
| Multipart.JoinThree | contribs/evWireless/src/main/java/org/matsim/contrib/ev/FlowRewardServer.java:317 | joining three fields puts the separator between each pair |
| Multipart.JoinTwo | contribs/evWireless/src/main/java/org/matsim/contrib/ev/FlowRewardServer.java:317 | joining two fields puts the separator between them |
| Multipart.FreeConcat | contribs/evWireless/src/main/java/org/matsim/contrib/ev/FlowRewardServer.java:317 | two texts free of a character concatenate to a text free of it |
| Multipart.DispositionFields | contribs/evWireless/src/main/java/org/matsim/contrib/ev/FlowRewardServer.java:317 | a disposition line whose name and file name have no semicolons splits on ';' into its three fields |
| Multipart.DispositionLineJoin | contribs/evWireless/src/main/java/org/matsim/contrib/ev/FlowRewardServer.java:317 | a disposition line is its three fields joined by ';' |
| Multipart.FileNameFields | contribs/evWireless/src/main/java/org/matsim/contrib/ev/FlowRewardServer.java:317 | the filename field without '=' in the name splits on '=' into the key and the quoted name |
| Multipart.NameOfDispositionLine | contribs/evWireless/src/main/java/org/matsim/contrib/ev/FlowRewardServer.java:314-321 | the file name read back from a written disposition line is the name that was written |
| Multipart.ExtractFileContent | contribs/evWireless/src/main/java/org/matsim/contrib/ev/FlowRewardServer.java:323-327 | the content is no longer than the part, and a part without a closing CRLF and dashes is an error |
| Multipart.ContentOfPart | contribs/evWireless/src/main/java/org/matsim/contrib/ev/FlowRewardServer.java:323-327 | a part made of headers, a blank line, content and a boundary trailer gives back exactly the content |
| Multipart.LastConfig | contribs/evWireless/src/main/java/org/matsim/contrib/ev/FlowRewardServer.java:284-286 | the config path is the name of a saved file containing "config" |
| Multipart.LastConfigNone | contribs/evWireless/src/main/java/org/matsim/contrib/ev/FlowRewardServer.java:284-286 | there is no config path exactly when no saved file name contains "config" |
| Multipart.LastConfigIsLast | contribs/evWireless/src/main/java/org/matsim/contrib/ev/FlowRewardServer.java:284-286 | the config path is the last saved file whose name contains "config" |
| Multipart.SaveParts | contribs/evWireless/src/main/java/org/matsim/contrib/ev/FlowRewardServer.java:279-291 | saving parts keeps the config path on the last config file, saves at most one file per part, and every saved name is quote-free |
| Multipart.SaveErrSticks | contribs/evWireless/src/main/java/org/matsim/contrib/ev/FlowRewardServer.java:279-291 | once saving a part has failed, later parts keep that failure |
| Multipart.Handled | contribs/evWireless/src/main/java/org/matsim/contrib/ev/FlowRewardServer.java:251-305 | a request is a bad request exactly when its content type is missing or not multipart/form-data; an enqueued request carries a config path containing "config" that is the last such file |
| Multipart.SavePartsStep | contribs/evWireless/src/main/java/org/matsim/contrib/ev/FlowRewardServer.java:279-291 | saving one more part applies that part to the upload so far |
| Multipart.SaveOne | contribs/evWireless/src/main/java/org/matsim/contrib/ev/FlowRewardServer.java:280-289 | handling one part computes exactly the part specification |
| Multipart.SaveAll | contribs/evWireless/src/main/java/org/matsim/contrib/ev/FlowRewardServer.java:279-291 | the loop over the parts computes exactly the saving specification |
| Multipart.Handle | contribs/evWireless/src/main/java/org/matsim/contrib/ev/FlowRewardServer.java:251-305 | the handler computes exactly the request specification |
| Multipart.DispositionLine | contribs/evWireless/src/main/java/org/matsim/contrib/ev/FlowRewardServer.java:316-317 | the Content-Disposition line a client sends for a file field; NameOfDispositionLine shows the file name read back from it |
| Multipart.HeaderLines | contribs/evWireless/src/main/java/org/matsim/contrib/ev/FlowRewardServer.java:323-324 | header lines: every CR starts a CRLF followed by a non-empty line, so the first blank line ends them (ContentOfPart) |
| Multipart.LastConfigAt | contribs/evWireless/src/main/java/org/matsim/contrib/ev/FlowRewardServer.java:284-286 | the file at index k mentions "config" and no later one does (LastConfigIsLast) |
| Multipart.SavePart | contribs/evWireless/src/main/java/org/matsim/contrib/ev/FlowRewardServer.java:280-289 | one part: unchanged without Content-Disposition or a file name, else its file saved with its content and the config path replaced when the name mentions "config" (SavePartsStep) |
| Multipart.Chars | contribs/evWireless/src/main/java/org/matsim/contrib/ev/FlowRewardServer.java:272 | `String.split` with an empty pattern: one string per character, [""] for an empty body |
| Multipart.Boundary | contribs/evWireless/src/main/java/org/matsim/contrib/ev/FlowRewardServer.java:258 | `contentType.split("boundary=")[1]`: ArrayIndexOutOfBoundsException when no boundary follows |
| Multipart.SplitBody | contribs/evWireless/src/main/java/org/matsim/contrib/ev/FlowRewardServer.java:272 | `bodyString.split(boundary)`, an empty boundary splitting into characters |
| FlowReward.RecordDiff | contribs/evWireless/src/main/java/org/matsim/contrib/ev/FlowRewardServer.java:169-172 | one record contributes the absolute difference of its MATSim and count volumes, never negative |
| FlowReward.Diffs | contribs/evWireless/src/main/java/org/matsim/contrib/ev/FlowRewardServer.java:168-174 | one difference per record, the i-th from the i-th record |
| FlowReward.SumOver | contribs/evWireless/src/main/java/org/matsim/contrib/ev/FlowRewardServer.java:168-174 | summing n records counts n and gives a non-negative total |
| FlowReward.SumOverSpec | contribs/evWireless/src/main/java/org/matsim/contrib/ev/FlowRewardServer.java:168-174 | summing succeeds exactly when every record parses, and the total is zero exactly when every difference is zero |
| FlowReward.SumErrSticks | contribs/evWireless/src/main/java/org/matsim/contrib/ev/FlowRewardServer.java:168-174 | once a record has failed, later records keep that failure |
| FlowReward.DiffsNonNegative | contribs/evWireless/src/main/java/org/matsim/contrib/ev/FlowRewardServer.java:172 | every record's difference is non-negative |
| FlowReward.SumStep | contribs/evWireless/src/main/java/org/matsim/contrib/ev/FlowRewardServer.java:172-173 | one more record adds its difference to the total and one to the count |
| FlowReward.SumAll | contribs/evWireless/src/main/java/org/matsim/contrib/ev/FlowRewardServer.java:168-174 | the record loop computes exactly the summing specification |
| FlowReward.SumDiffs | contribs/evWireless/src/main/java/org/matsim/contrib/ev/FlowRewardServer.java:163-174 | reading the records computes exactly the sum of their differences |
| FlowReward.Reward | contribs/evWireless/src/main/java/org/matsim/contrib/ev/FlowRewardServer.java:181 | the reward 1/(1+log10(diff+1)) lies in (0, 1] and is 1 exactly when the total difference is 0 |
| FlowReward.InvDecreasing | contribs/evWireless/src/main/java/org/matsim/contrib/ev/FlowRewardServer.java:181 | reciprocals of positive numbers decrease |
| FlowReward.RewardDecreasing | contribs/evWireless/src/main/java/org/matsim/contrib/ev/FlowRewardServer.java:181 | a larger total difference gives a strictly smaller reward |
| FlowReward.Improve | contribs/evWireless/src/main/java/org/matsim/contrib/ev/FlowRewardServer.java:183-185 | the best reward never falls, is at least the new reward, and is either the new reward or the old best |
| FlowReward.CountsTotals | contribs/evWireless/src/main/java/org/matsim/contrib/ev/FlowRewardServer.java:159-174 | the totals count every record and have a non-negative difference |
| FlowReward.ProcessSpec | contribs/evWireless/src/main/java/org/matsim/contrib/ev/FlowRewardServer.java:176-209 | the best reward never falls and covers any reward sent; a reward is sent exactly when there is more than one record; the first response is "initialoutput" and later ones "output"; the flag clears once a response is sent |
| FlowReward.Replay | contribs/evWireless/src/main/java/org/matsim/contrib/ev/FlowRewardServer.java:116-221 | a sequence of runs gives one outcome per run |
| FlowReward.NoneBeforeCons | contribs/evWireless/src/main/java/org/matsim/contrib/ev/FlowRewardServer.java:195-202 | no response before position i of a sequence means none at its head and none before i-1 in its tail |
| FlowReward.ReplayInitial | contribs/evWireless/src/main/java/org/matsim/contrib/ev/FlowRewardServer.java:195-209 | over any sequence of runs, only the first response sent is "initialoutput" |
| FlowReward.FlowRewardServer.constructor | contribs/evWireless/src/main/java/org/matsim/contrib/ev/FlowRewardServer.java:58-64 | a new server has no best reward yet and will send the initial output first |
| FlowReward.FlowRewardServer.Respond | contribs/evWireless/src/main/java/org/matsim/contrib/ev/FlowRewardServer.java:116-221 | processing a request updates the best reward and the initial flag, and sends a response, exactly as the processing specification does |
| FlowReward.Abs | contribs/evWireless/src/main/java/org/matsim/contrib/ev/FlowRewardServer.java:172 | Math.abs: the distance of x from zero, never negative |
| FlowReward.NonNegative | contribs/evWireless/src/main/java/org/matsim/contrib/ev/FlowRewardServer.java:168-174 | every parsed difference is non-negative, as RecordDiff's are |
| FlowReward.Log10Like | contribs/evWireless/src/main/java/org/matsim/contrib/ev/FlowRewardServer.java:181 | what the reward uses of Math.log10 on [1, infinity): zero at 1 and strictly increasing |
| FlowReward.Sane | contribs/evWireless/src/main/java/org/matsim/contrib/ev/FlowRewardServer.java:168-174 | totals whose summed difference is non-negative, as CountsTotals gives |
| FlowReward.Process | contribs/evWireless/src/main/java/org/matsim/contrib/ev/FlowRewardServer.java:176-209 | the end of processRequest for one run: an unparsable record throws into the catch (no response, no change); a reward only for more than one record; the best reward updated before zipping; a failed zip sends nothing; a response is "initialoutput" while the flag is set and clears it (its properties are ProcessSpec) |
| FlowReward.SaneRuns | contribs/evWireless/src/main/java/org/matsim/contrib/ev/FlowRewardServer.java:116-221 | every run's totals are sane |
| FlowReward.NoneBefore | contribs/evWireless/src/main/java/org/matsim/contrib/ev/FlowRewardServer.java:195-202 | no response was sent before position i |
| FlowReward.InitialOnlyFirst | contribs/evWireless/src/main/java/org/matsim/contrib/ev/FlowRewardServer.java:195-209 | each sent response is "initialoutput" exactly when the flag was set and nothing was sent before it |
| OcpReward.TypeCapacities | contribs/rlev/src/main/java/org/matsim/contrib/rlev/OCPRewardServer.java:320-326 | a vehicle type contributes at most one capacity per attribute |
| OcpReward.SumBounds | contribs/rlev/src/main/java/org/matsim/contrib/rlev/OCPRewardServer.java:331 | a sum of values between lo and hi lies between n*lo and n*hi |
| OcpReward.MeanBounds | contribs/rlev/src/main/java/org/matsim/contrib/rlev/OCPRewardServer.java:331 | the mean of values between lo and hi lies between them |
| OcpReward.TypeErrSticks | contribs/rlev/src/main/java/org/matsim/contrib/rlev/OCPRewardServer.java:320-326 | once a capacity fails to parse, later attributes keep that failure |
| OcpReward.AllErrSticks | contribs/rlev/src/main/java/org/matsim/contrib/rlev/OCPRewardServer.java:314-328 | once a vehicle type fails, later types keep that failure |
| OcpReward.CollectType | contribs/rlev/src/main/java/org/matsim/contrib/rlev/OCPRewardServer.java:320-326 | the attribute loop computes exactly the capacities of one vehicle type |
| OcpReward.GetAverageEnergyCapacity | contribs/rlev/src/main/java/org/matsim/contrib/rlev/OCPRewardServer.java:303-337 | the vehicle loop computes exactly the average capacity, 0 on a missing file or parse error |
| OcpReward.AverageCapacitySpec | contribs/rlev/src/main/java/org/matsim/contrib/rlev/OCPRewardServer.java:303-337 | with no capacities the average is 0, and otherwise it lies between the least and greatest capacity |
| OcpReward.Divide | contribs/rlev/src/main/java/org/matsim/contrib/rlev/OCPRewardServer.java:200 | a quotient is finite exactly when the divisor is non-zero, and then times the divisor gives the dividend |
| OcpReward.ChargeValues | contribs/rlev/src/main/java/org/matsim/contrib/rlev/OCPRewardServer.java:184-189 | one charge value per record |
| OcpReward.ChargeOver | contribs/rlev/src/main/java/org/matsim/contrib/rlev/OCPRewardServer.java:184-189 | summing charges succeeds exactly when every record parses, and then counts them all |
| OcpReward.ChargeOverSum | contribs/rlev/src/main/java/org/matsim/contrib/rlev/OCPRewardServer.java:184-189 | when every record parses, the charge total is the sum of their values |
| OcpReward.ChargeErrSticks | contribs/rlev/src/main/java/org/matsim/contrib/rlev/OCPRewardServer.java:184-189 | once a record has failed, later records keep that failure |
| OcpReward.SumCharges | contribs/rlev/src/main/java/org/matsim/contrib/rlev/OCPRewardServer.java:184-189 | the record loop computes exactly the charge total |
| OcpReward.ChargeRewardIsFraction | contribs/rlev/src/main/java/org/matsim/contrib/rlev/OCPRewardServer.java:194-200 | the charge reward is the mean charge divided by the average capacity |
| OcpReward.ChargeRewardBounded | contribs/rlev/src/main/java/org/matsim/contrib/rlev/OCPRewardServer.java:194-200 | with charges between 0 and a positive average capacity the charge reward is finite and in [0, 1] |
| OcpReward.FractionBounds | contribs/rlev/src/main/java/org/matsim/contrib/rlev/OCPRewardServer.java:200 | a part of a positive whole divided by it lies in [0, 1] |
| OcpReward.ChargeRewardUnguarded | contribs/rlev/src/main/java/org/matsim/contrib/rlev/OCPRewardServer.java:194-200 | with no records and no charge the charge reward is NaN (0/0), and with a zero average capacity and a positive charge it is positive infinity; the source does not guard either |
| OcpReward.SkipSpaces | contribs/rlev/src/main/java/org/matsim/contrib/rlev/OCPRewardServer.java:208 | skipping whitespace stops at the first non-space, with only spaces skipped |
| OcpReward.SkipNumber | contribs/rlev/src/main/java/org/matsim/contrib/rlev/OCPRewardServer.java:208 | skipping a number stops at the first character that is neither digit nor dot |
| OcpReward.MatchAt | contribs/rlev/src/main/java/org/matsim/contrib/rlev/OCPRewardServer.java:208 | a match at a position captures a non-empty run of digits and dots |
| OcpReward.FindFrom | contribs/rlev/src/main/java/org/matsim/contrib/rlev/OCPRewardServer.java:208-212 | a match found from a position captures a non-empty run of digits and dots |
| OcpReward.PrintIsNumber | contribs/rlev/src/main/java/org/matsim/contrib/rlev/OCPRewardServer.java:208 | a printed non-negative decimal without exponent consists of digits and dots |
| OcpReward.MatchOfSummaryLine | contribs/rlev/src/main/java/org/matsim/contrib/rlev/OCPRewardServer.java:208-213 | the summary line "average leg duration: w seconds" yields w |
| OcpReward.SummaryLayout | contribs/rlev/src/main/java/org/matsim/contrib/rlev/OCPRewardServer.java:208 | the positions of the number and "seconds" in a summary line |
| OcpReward.SkipNumberRun | contribs/rlev/src/main/java/org/matsim/contrib/rlev/OCPRewardServer.java:208 | skipping a run of n number characters ends n places on |
| OcpReward.TimeRewardOfSummary | contribs/rlev/src/main/java/org/matsim/contrib/rlev/OCPRewardServer.java:212-216 | a summary line with w seconds gives the time reward w/86400 |
| OcpReward.TimeRewardOf | contribs/rlev/src/main/java/org/matsim/contrib/rlev/OCPRewardServer.java:212-216 | a matched duration of s seconds gives the time reward s/86400 |
| OcpReward.ParseDoublePrint | contribs/rlev/src/main/java/org/matsim/contrib/rlev/OCPRewardServer.java:213-214 | a printed non-negative decimal without exponent parses back to its value and matches the duration pattern's characters |
| OcpReward.ProcessSpec | contribs/rlev/src/main/java/org/matsim/contrib/rlev/OCPRewardServer.java:223-269 | a sent response clears the initial flag and is "initialoutput" exactly when the flag was set; a server error arises only from a missing or empty zip, and every reply other than a sent one leaves the flag |
| OcpReward.OcpRewardServer.constructor | contribs/rlev/src/main/java/org/matsim/contrib/rlev/OCPRewardServer.java:63-69 | a new server will send the initial output first |
| OcpReward.OcpRewardServer.Respond | contribs/rlev/src/main/java/org/matsim/contrib/rlev/OCPRewardServer.java:121-275 | processing a request updates the initial flag and replies exactly as the processing specification does |
| OcpReward.AllCapacities | contribs/rlev/src/main/java/org/matsim/contrib/rlev/OCPRewardServer.java:314-328 | the capacities of all vehicle types in document order, or the first parse failure (AllErrSticks, GetAverageEnergyCapacity) |
| OcpReward.Sum | contribs/rlev/src/main/java/org/matsim/contrib/rlev/OCPRewardServer.java:331 | the sum of the capacities; SumBounds bounds it |
| OcpReward.Mean | contribs/rlev/src/main/java/org/matsim/contrib/rlev/OCPRewardServer.java:331 | `average().orElse(0.0)`: 0 for no values, else the sum over the count; MeanBounds puts it between the values' bounds |
| OcpReward.AverageEnergyCapacity | contribs/rlev/src/main/java/org/matsim/contrib/rlev/OCPRewardServer.java:303-337 | getAverageEnergyCapacity: 0 for an unreadable file, a failed parse or no values, else their mean (AverageCapacitySpec; GetAverageEnergyCapacity computes it) |
| OcpReward.ChargeValue | contribs/rlev/src/main/java/org/matsim/contrib/rlev/OCPRewardServer.java:185-186 | the third tab-separated column of a record parsed by Double.parseDouble, or ArrayIndexOutOfBounds when it has fewer than three |
| OcpReward.ChargeTotals | contribs/rlev/src/main/java/org/matsim/contrib/rlev/OCPRewardServer.java:176-192 | the charge sum and record count: zero for a file that cannot be opened, else the record loop's totals or its first failure (ChargeOverSum) |
| OcpReward.ChargeReward | contribs/rlev/src/main/java/org/matsim/contrib/rlev/OCPRewardServer.java:194-200 | `avgChargeIntegral / totEnergyCapacity` without a guard (ChargeRewardIsFraction, ChargeRewardUnguarded) |
| OcpReward.IsSpace | contribs/rlev/src/main/java/org/matsim/contrib/rlev/OCPRewardServer.java:208 | `\s` of a Java pattern: space, tab, newline, vertical tab, form feed, carriage return |
| OcpReward.IsNumberChar | contribs/rlev/src/main/java/org/matsim/contrib/rlev/OCPRewardServer.java:208 | `[0-9.]` |
| OcpReward.LegDuration | contribs/rlev/src/main/java/org/matsim/contrib/rlev/OCPRewardServer.java:208-213 | the seconds group of the first match in the text, if any (FindFrom, MatchOfSummaryLine) |
| OcpReward.TimeReward | contribs/rlev/src/main/java/org/matsim/contrib/rlev/OCPRewardServer.java:210-219 | seconds / 86400 for the first match, 0 without one, or the parse failure (TimeRewardOf, TimeRewardOfSummary) |
| OcpReward.Process | contribs/rlev/src/main/java/org/matsim/contrib/rlev/OCPRewardServer.java:175-273 | the reply and the new first-response flag of one finished run; ProcessSpec states that only a 200 clears the flag and that "initialoutput" goes exactly with the set flag |

## Left out

- File and network I/O are left out: XML parsing and writing, CSV and text files, directories, zip archives, tensorboard, progress bars and `torch.save`. Parsed documents are sequences of records, and written files are sequences of lines or records.
- The HTTP server, its thread pool, the request queue, the MATSim child process and the shutdown hook are left out. Each server's `processRequest` is modelled as a function of the finished run's output.
- Numerical oracles are parameters:
  - `get_TAM` (compiled code that is not part of this model), k-means and `pairwise_distances_argmin`;
  - `nx.shortest_path`, the Adam optimizer and `torch.rand`;
  - `random.choice`, `np.random` and `np.random.randint`;
  - the logarithms, the power of ten, the haversine formula, the coordinate transformations and Euclidean distances.
- Floating-point arithmetic is modelled as exact real arithmetic. NaN and infinity appear only where the code divides without a guard:
  - `OcpReward.Divide` returns them as values;
  - `MatsimXmlDataset.NanColumns` records the constant base columns whose min-max normalisation is 0/0, and the model holds 0.0 in their cells;
  - the masked loss of an empty sensor selection in gradient flow matching is NaN, and `GradientFlowMatching.Fit` excludes that case (see below).
- Decimals.Parse: reads only finite decimal numerals with an optional exponent. NaN, Infinity, hexadecimal floats, Python's underscores between digits, "inf" and "nan", and Python's wider whitespace set are not accepted, and the model reports them as parse errors. `MatsimXmlDataset.ParseFloat` reads through it.
- Decimals.JavaParse: the same restriction for Double.parseDouble. It is shared by `SensorMatching.ParseDouble`, `OsmNetworkReader.ParseDouble` and `ChargingStartEvents.Convert`.
- DynamicCharging.ElectricVehicle.constructor: the charging power is a function of the charge only. The code's ChargingPower may also depend on the charger, which is not part of this model.
- `SupersonicOsmNetworkReader` runs its parallel streams and `synchronized` blocks concurrently. The model converts the ways one after another in a given order.
- `OsmNetworkParser.parse`, `LinkProperties.createLinkProperties` and `OsmTags` are not part of this model. The nodes, ways and link-property table are inputs, and tag keys are the OSM tag names.
- HashMap and HashSet iteration order is left unspecified. Results that depend on it are stated for some order that lists each key once.
- The network cleaner and the OSM reader used by the converters are not part of this model. The network is given as its links and nodes.
- Plotting, argument parsing with argparse, configuration setup and the RL training drivers are left out.
- GradientFlowMatching.Fit: requires a non-empty sensor list. With no sensors, the code's loss is NaN at every step, which real arithmetic cannot express.
- GradientFlowMatching.MseZero: states only that matching sensor rows give a zero MSE. The converse is stated for the MAD, in `GradientFlowMatching.MadZero`.
- MatsimXmlDataset.Construct: requires at least one link. `torch.min` over an empty network raises in the code, and that error is not modelled.
- MatsimXmlDataset.Dataset.NormalizeBaseColumns: requires at least one link, for the same reason.
- Multipart.SplitBody: splits the body at each literal occurrence of the boundary. Java's `String.split` reads the boundary as a regular expression. The two agree for boundaries without regular-expression metacharacters, such as the hexadecimal or dash-and-letter boundaries common clients send. A boundary holding `+ . ( ) ?` or another metacharacter splits differently in the code, or raises PatternSyntaxException there; the model does not capture this.
- Multipart.Handled: inherits the literal boundary split of `Multipart.SplitBody`.
- Multipart.Handle: inherits the literal boundary split of `Multipart.SplitBody`.
- CreateChargers.SetDiff: keeps the values in first-occurrence order, where numpy's `setdiff1d` returns them sorted. The set of values is the same. The order only changes which value a given random draw picks, and the draws are parameters of the model.
- SensorMatching.Round: drops the `(int)` cast of `Math.round`'s 64-bit result. Flows outside the 32-bit range would wrap in the code and stay exact in the model.
- OsmNetworkReader.SegmentId: computes `wayId * 10000 + postfix` on unbounded integers. The code's 64-bit `long` arithmetic wraps for way ids above about 9.2 * 10^14, far beyond current OSM ids.

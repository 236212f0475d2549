# AoA gateway core, modelled in Dafny

This project models the core of a Bluetooth angle-of-arrival (AoA) gateway.
The gateway scans for asset tags that advertise the IQ-report service and connects to the ones on its whitelist.
For each connection it runs GATT discovery up to notifications on the IQ-report characteristic.
It turns each IQ sample report relayed by a locator into an angle.
It then collects one angle per configured locator for every tag.
When every locator of a tag has reported, it runs the position estimate.

The model is split into the modules of the C source:

- `AoaTypes`, `Search` (`types.dfy`): the fixed-width integers, addresses, the IQ report, angle and position records, and the capacities (30 tags, 8 locators, 4 snapshots of 16 antennas, 7 reference samples). `Search.FirstIndex` is the first-match linear scan that every lookup of the source performs.
- `Conn` (`conn.dfy`): the connection table of `conn.c`. It is a class over an array of 30 connection records with an active count. A pointer into the table is modelled as a slot index.
- `Aoa` (`aoa.dfy`): the sample demultiplexer of `aoa.c`. It is a class over the four 2-D sample buffers. Beside it are the channel-to-frequency map, the IQ-quality classification and the result copying of `aoa_calculate`.
- `App` (`app.c`, `app.dfy`):
  - the advertising-data parser;
  - the locator registry loaded from the configuration;
  - the asset-tag table with its per-locator angle and ready slots;
  - the readiness gate and the position estimate;
  - the IQ-report path from angle to observation.

  The state-changing code is the class `AppState`, over the tag and locator arrays. Its methods are proved against value-level step functions (`AdmitStep`, `ObserveStep`, `MessageStep`, `EstimatedTag`), and the lemmas about the message flow are stated on those functions.
- `AppGateway` (`app_gateway.dfy`): `app_bt_on_event`.
  - Each event that is routed by connection handle is a pure step on one connection record (`ServiceStep`, `CharacteristicStep`, `CompletionStep`, `IqValueStep`, folded by `ConnRun`). The state-machine lemmas are stated on these steps.
  - The handler methods apply the steps to the table in place.
  - The BLE stack commands a handler issues are returned as a list of `StackCommand` values.

External libraries are parameters:

- The RTL locationing library is a `Rtl` value: the return code of each call, the locator IDs it assigns, its position results and its filter outputs.
- The AoX estimator and the distance filter are functions in `Externals`.
- `aoa_address_to_id` is `Externals.addressToId`.
- The whitelist lookup is `Environment.onWhitelist`.

Each RTL `CHECK_ERROR` chain is modelled as an ordered list of `RtlCall` values. `Completed` counts the calls that succeed before the first failure, and `ChainCode` is the code the chain returns.

Where the code departs from the expected GATT flow and bounds, the model follows the code:

- A characteristic-found event sets DISCOVER_CHARACTERISTICS from any state, RUNNING included. So the state machine can move backwards, and it leaves DISCOVER_SERVICES only through a characteristic event, not through a completion.
- IQ reports are forwarded for every known connection, whatever its state, not only in RUNNING.
- Locator sessions are appended with no bound against the locator capacity.
- A failed tag init or a failed position estimate ends the process in `app_assert`. It is not a recoverable condition.
- In `run_estimation`, a locator's ready flag is cleared right after that locator's own measurement calls succeed. So a failure at locator i leaves the flags below i cleared and the rest untouched. The flags are not all cleared, nor all kept.
- `get_samples` reads past the end of a report of 1 to 14 samples, because the antenna loop restarts at index 14.

## Model

| member | source | states |
|---|---|---|
| Search.FirstIndex | aod_gateway_victor/conn.c:123-136 | the result is the lowest index whose element matches, and None exactly when no element matches |
| Search.FirstIndexAppend | aod_gateway_victor/app_gateway.c:290-294 | after appending an element that matches where none did, the first match is the appended one |
| Conn.ConnectionTable.constructor | aod_gateway_victor/conn.c:28-34 | the zero-initialised static table: no active connections, every slot zero |
| Conn.ConnectionTable.InitConnection | aod_gateway_victor/conn.c:36-47 | the active count is 0 and every slot has its connection, service and characteristic handles set to 0xFFFF / 0xFFFFFFFF / 0xFFFF, with the rest kept |
| Conn.ConnectionTable.AddConnection | aod_gateway_victor/conn.c:49-71 | a slot is returned iff the table was not full; it is the old count, holding the handle, address and type in DISCOVER_SERVICES with no sessions, and the active list grows by that one record; on a full table nothing changes; duplicate handles are not refused |
| Conn.ConnectionTable.RemoveConnection | aod_gateway_victor/conn.c:73-115 | an unknown handle (or an empty table) returns 1 and changes nothing; otherwise the first entry with the handle is removed, its sessions are torn down in order, the active list keeps the others in order, the count drops by one, every slot from the new count on has the invalid handles, 0 is returned and the table is not full |
| Conn.ConnectionTable.ShiftDown | aod_gateway_victor/conn.c:103-105 | slots k to n-1 take the next slot's entry; every other slot is unchanged |
| Conn.ConnectionTable.InvalidateFrom | aod_gateway_victor/conn.c:108-112 | every slot from n on has its three handles invalidated; the slots below n are unchanged |
| Conn.ConnectionTable.IsConnectionListFull | aod_gateway_victor/conn.c:117-121 | full exactly when 30 connections are active |
| Conn.ConnectionTable.GetConnectionByHandle | aod_gateway_victor/conn.c:123-136 | the lowest active slot with the handle, None when there is none |
| Conn.ConnectionTable.GetConnectionByAddress | aod_gateway_victor/conn.c:138-151 | the lowest active slot with the address, None when there is none |
| Conn.DeinitSessions | aod_gateway_victor/conn.c:96-98 | exactly the first num_locators_found sessions are torn down, in order |
| Conn.ShiftedOut | aod_gateway_victor/conn.c:103-105 | the left shift from slot k on leaves the old sequence without entry k, order kept |
| Conn.GetLibitemByLocatorAddress | aod_gateway_victor/conn.c:153-166 | the lowest of the connection's first num_locators_found sessions with the locator address, None when there is none |
| Aoa.TableIsRfChannel | aod_gateway_victor/aoa.c:150-154 | the 40-entry table agrees entry by entry with the RF-channel assignment of the Bluetooth Core Specification, Vol 6, Part B, section 1.4.1 |
| Aoa.TableIsPermutation | aod_gateway_victor/aoa.c:150-154 | the table is a permutation of 0..39: it has an inverse on both sides |
| Aoa.CalcFrequencyFromChannel | aod_gateway_victor/aoa.c:148-158 | a frequency is known exactly for the indices 0-39 the table covers; it is 2402 MHz plus 2 MHz times the RF channel of the index, so it lies in 2402-2480 MHz; a larger uint8_t index reads past the table and has no known frequency |
| Aoa.FrequencyExamples | aod_gateway_victor/aoa.c:148-158 | channels 37, 38, 39 and 0 give 2402, 2426, 2480 and 2404 MHz, and channel 40 lies past the table |
| Aoa.FrequencyInjective | aod_gateway_victor/aoa.c:150-157 | distinct channel indices within the table give distinct frequencies |
| Aoa.ClassifyQuality | aod_gateway_victor/aoa.c:100-109 | each of the four categories holds exactly when its condition in priority order holds: empty mask, then either jitter bit, then the SNDR bit, then any other bit |
| Aoa.ReadsInBoundsIffLongerThanReference | aod_gateway_victor/aoa.c:211-216 | every index get_samples reads lies inside the report exactly when the report is longer than the 14 reference samples |
| Aoa.ReadingStopsAtLastSample | aod_gateway_victor/aoa.c:201-227 | for a report of 15 to 142 samples, reading ends exactly at the last sample and nothing after it is read |
| Aoa.FullReportLayout | aod_gateway_victor/aoa.c:197-228 | with at least 142 samples, ref_i[0][k] and ref_q[0][k] come from samples 2k and 2k+1, and i[s][a] and q[s][a] from samples 14+2(16s+a) and the next one, all inside the report |
| Aoa.SampleBuffers.constructor | aod_gateway_victor/aoa.c:54-61 | four fresh, distinct buffers of 4 x 16 cells |
| Aoa.SampleBuffers.FillReference | aod_gateway_victor/aoa.c:199-210 | ref_i[0][k] holds sample 2k and ref_q[0][k] sample 2k+1 for the indices read before the length is reached; every other cell keeps its value |
| Aoa.SampleBuffers.FillSnapshot | aod_gateway_victor/aoa.c:214-223 | one snapshot row is filled from index 14+32s up to the length or the row's end, and the index reached is returned; all other cells keep their values |
| Aoa.SampleBuffers.FillGrid | aod_gateway_victor/aoa.c:211-227 | i[s][a] and q[s][a] hold samples 14+2(16s+a) and the next one for the indices read before the length is reached; every other cell keeps its value |
| Aoa.SampleBuffers.GetSamples | aod_gateway_victor/aoa.c:197-228 | the reference pair and the grid are both loaded as above, stopping right after the last sample |
| Aoa.AngleFromEstimate | aod_gateway_victor/aoa.c:96-124 | OK exactly when the estimator succeeded, so in-progress is a failure; on OK the angle carries the estimator's azimuth and elevation, the filtered distance, and the report's rssi, channel and event counter, and the quality is the classified mask |
| Aoa.AoaCalculate | aod_gateway_victor/aoa.c:88-146 | the buffers are loaded from the report and the result is the estimate on those buffers at the report's channel frequency |
| App.StructuresAscend | aod_gateway_victor/app.c:302-321 | the AD structures visited lie inside the data at strictly increasing offsets, so the walk ends |
| App.FindServiceInAdvertisement | aod_gateway_victor/app.c:292-323 | true iff some AD structure of type 0x06 or 0x07 holds the UUID in a 16-byte slot starting at offset 2+16k inside it |
| App.FindUuidInStructure | aod_gateway_victor/app.c:309-314 | true iff the service list at the offset holds the UUID in one of its slots |
| App.Completed | aod_gateway_victor/app.c:457-521 | the count of calls before the first failing one: all before it succeed, and the one at it fails |
| App.CompletedUnique | aod_gateway_victor/app.c:457-521 | that count is determined: any k with the first k calls succeeding and call k failing is it |
| App.CompletedConcat | aod_gateway_victor/app.c:552-589 | a chain of two chains runs the second only when the whole first one succeeds |
| App.ChainCode | aod_gateway_victor/app.c:552-589 | a chain returns success exactly when every call in it succeeds |
| App.Record | aod_gateway_victor/app.c:441-442 | the locator's angle is overwritten and its flag set; every other slot, the ID, the locator IDs and the position are unchanged |
| App.RecordAll | aod_gateway_victor/app.c:441-442 | a run of observations keeps the tag well formed; which flags it sets is stated by RecordAllReady |
| App.RecordAllReady | aod_gateway_victor/app.c:386-394 | after a run of observations a flag is set exactly when it was set before or its locator reported, so the tag is ready exactly when each locator below the count did one or the other |
| App.InitCalls | aod_gateway_victor/app.c:552-589 | init_asset_tag makes 9 calls plus one per configured locator |
| App.AddCalls | aod_gateway_victor/app.c:567-571 | one add_locator call per configured locator, in table order |
| App.AssignedBelow | aod_gateway_victor/app.c:568 | the locator-ID array keeps its 8 entries; which IDs it holds after a successful init is stated by InitSuccess |
| App.ClearedBelow | aod_gateway_victor/app.c:570 | the flag array keeps its 8 entries; that every configured locator's flag is cleared is stated by InitSuccess |
| App.LocatorsAdded | aod_gateway_victor/app.c:567-571 | no more locators are added than are configured; InitFailsEarly and InitAfterLocators state when the count stops short |
| App.InitializedTag | aod_gateway_victor/app.c:552-589 | the slot after init_asset_tag stays well formed; its contents are stated by InitSuccess, InitFailsEarly and InitAfterLocators |
| App.InitFailsEarly | aod_gateway_victor/app.c:559-564 | when init or set_mode fails, no locator is added and that call's code is returned |
| App.InitAfterLocators | aod_gateway_victor/app.c:566-588 | after init and set_mode, a failed add_locator ends the chain with its code and otherwise the estimator setup decides |
| App.InitSuccess | aod_gateway_victor/app.c:552-589 | a successful init stores the ID, stores every locator's assigned ID and clears every locator's flag |
| App.LocatorCalls | aod_gateway_victor/app.c:463-492 | locator i makes 3 measurement calls with a single locator and 2 otherwise |
| App.MeasurementCalls | aod_gateway_victor/app.c:462-494 | the measurement calls of the first k locators, GroupStart(k) of them |
| App.MeasurementCallAt | aod_gateway_victor/app.c:462-494 | locator i's calls sit at GroupStart(i) in the full list |
| App.MeasurementsStopAt | aod_gateway_victor/app.c:462-494 | a failing call of locator i, after all earlier locators succeeded, stops the chain inside locator i's calls with that call's code |
| App.MeasurementsContinue | aod_gateway_victor/app.c:462-494 | when locator i's calls all succeed, the chain has gone through locator i |
| App.TailCalls | aod_gateway_victor/app.c:497-518 | process, three results, three filters and clear: 8 calls |
| App.FedFlags | aod_gateway_victor/app.c:493 | the flag array keeps its 8 entries; which flags are cleared is stated by FedFlagsStep |
| App.FedFlagsStep | aod_gateway_victor/app.c:493 | part of locator i's calls clears no flag; all of them clear exactly flag i |
| App.EstimatedTag | aod_gateway_victor/app.c:457-521 | the tag after run_estimation stays well formed; its flags and position are stated by EstimationSuccess, EstimationFailsAtLocator and TailOutcome |
| App.TailOutcome | aod_gateway_victor/app.c:497-520 | once the measurements went through, the number of tail calls that succeed decides the code and which coordinates hold results and filter outputs |
| App.EstimationSuccess | aod_gateway_victor/app.c:457-521 | a successful run clears every flag below the count and leaves the filtered results in the position |
| App.EstimationFailsAtLocator | aod_gateway_victor/app.c:462-494 | a failure in locator i's measurements returns an error, leaves the flags below i cleared and the rest as they were, and keeps the position |
| App.MeasurementsFed | aod_gateway_victor/app.c:462-492 | azimuth and elevation are fed for every locator, and a distance is fed at all exactly when there is a single locator |
| App.AdmitStep | aod_gateway_victor/app.c:419-435 | a known tag's slot is its lowest, with no change; a new tag is initialised in the slot at the count, which grows by one only when the init succeeds; only that slot can change |
| App.ObserveStep | aod_gateway_victor/app.c:438-450 | the ID and locator IDs are kept and exactly the reporting locator's angle is replaced |
| App.MessageStep | aod_gateway_victor/app.c:396-451 | on_message keeps the tag table well formed with its count within 30; its effect in each case is stated by the Message lemmas below (MessageUnknownLocator, MessageTagListFull, MessageInitFails, MessageNewTag, MessageStepAdmitted, MessageTouchesOneSlot, MessageEstimatesWhenReady) |
| App.MessageUnknownLocator | aod_gateway_victor/app.c:409-415 | an observation from an unknown locator changes nothing |
| App.MessageTagListFull | aod_gateway_victor/app.c:422-434 | an unknown tag on a full table is dropped and nothing changes |
| App.MessageInitFails | aod_gateway_victor/app.c:423-427 | a failed init of a new tag ends in app_assert with the init code; the count is kept and only the slot at the count was written |
| App.MessageNewTag | aod_gateway_victor/app.c:423-445 | with several locators, a new tag is added at the count with its ID and every flag clear, the angle is recorded, the count rises by one and no estimation runs |
| App.RecordedInNewSlot | aod_gateway_victor/app.c:429-442 | a new tag's admission followed by the recording of its angle gives the recorded tag in the new slot |
| App.AdmitNewTag | aod_gateway_victor/app.c:422-429 | an unknown tag with room and a successful init gets the slot at the count |
| App.ObserveNotReady | aod_gateway_victor/app.c:441-450 | while another locator's flag is clear, an observation is only recorded |
| App.MessageStepAdmitted | aod_gateway_victor/app.c:437-450 | once the tag has a slot, on_message is the observation in that slot |
| App.MessageTouchesOneSlot | aod_gateway_victor/app.c:437-442 | on_message changes only the tag's slot, in which only the reporting locator's angle is replaced, and the count grows by at most one |
| App.MessageEstimatesWhenReady | aod_gateway_victor/app.c:445-450 | the estimation runs exactly when the tag is fully ready after recording; a success leaves every flag below the count clear and the filtered position published |
| App.Published | aod_gateway_victor/app.c:373-377 | the angle is published unless an app_assert ended the process, and a position is published first exactly when the estimation produced one |
| App.AppState.constructor | aod_gateway_victor/app.c:63-92 | empty locator and tag tables with zero-initialised slots |
| App.FullTableOutcome | aod_gateway_victor/app.c:642-660 | entered with a full table, the one parser answer decides: a parsed locator is the overflow, NOT_FOUND ends normally, any other error ends in app_assert with its code |
| App.AppState.ParseConfig | aod_gateway_victor/app.c:642-660 | parsed locators are stored from the count on until NOT_FOUND or 8 locators; a parser error ends in app_assert; the other slots are unchanged; entered with a full table (a second configuration file), a parsed locator is reported as ConfigOverflow, the write past the table's end |
| App.AppState.FindLocator | aod_gateway_victor/app.c:609-619 | the lowest configured locator with the ID, None for INVALID_IDX |
| App.AppState.FindAssetTag | aod_gateway_victor/app.c:594-604 | the lowest known tag with the ID, None for INVALID_IDX |
| App.AppState.IsReady | aod_gateway_victor/app.c:386-394 | true iff every flag below the locator count is set, so true for no locators |
| App.AppState.AddLocators | aod_gateway_victor/app.c:567-571 | locators are added in order until a call fails; each one added has its assigned ID stored and its flag cleared, and the failing code is returned |
| App.AppState.CreateEstimator | aod_gateway_victor/app.c:573-586 | the code of the estimator and filter setup chain |
| App.AppState.InitAssetTag | aod_gateway_victor/app.c:552-589 | only slot t changes, to the initialised tag, and the code is that of the whole init chain |
| App.AppState.FeedMeasurements | aod_gateway_victor/app.c:462-494 | the code is that of the measurement chain, and exactly the flags of the locators whose calls all succeeded are cleared |
| App.AppState.FeedLocator | aod_gateway_victor/app.c:463-492 | the code of locator i's measurement calls |
| App.AppState.RunEstimation | aod_gateway_victor/app.c:457-521 | only slot t changes, to the estimated tag, and the code is the estimation's |
| App.AppState.RunTail | aod_gateway_victor/app.c:497-520 | the tail calls leave slot t as the estimated tag and return the estimation's code |
| App.AppState.AdmitTag | aod_gateway_victor/app.c:419-435 | the table, count, slot and refusal are those of AdmitStep |
| App.AppState.Observe | aod_gateway_victor/app.c:438-450 | slot t and the outcome are those of ObserveStep |
| App.AppState.OnMessage | aod_gateway_victor/app.c:396-451 | the table, the count and the outcome are those of MessageStep |
| App.AppState.AppOnIqReport | aod_gateway_victor/app.c:339-381 | an unknown locator ends it with nothing changed; for a known one the buffers hold the report's samples; a failed angle leaves the tags as they were; otherwise the tags are on_message's result under the tag's ID and the publications are those of Published |
| App.AppState.CalculateAngle | aod_gateway_victor/app.c:349-362 | the buffers hold the report's reference and antenna samples, and the angle is the estimate of the reporting locator's session on them |
| App.AppState.DeliverAngle | aod_gateway_victor/app.c:365-377 | the angle goes to on_message under the connection's tag ID and is then published |
| AppGateway.ServiceStep | aod_gateway_victor/app_gateway.c:175-186 | the state never changes; the service handle is stored when the UUID is the IQ service, and otherwise nothing changes |
| AppGateway.CharacteristicStep | aod_gateway_victor/app_gateway.c:189-201 | the state becomes DISCOVER_CHARACTERISTICS from any state; the characteristic handle changes exactly when the UUID is the IQ-report characteristic |
| AppGateway.CompletionStep | aod_gateway_victor/app_gateway.c:205-253 | DISCOVER_SERVICES stays and asks for characteristic discovery, DISCOVER_CHARACTERISTICS goes to ENABLE_CTE and enables notifications, ENABLE_CTE goes to RUNNING and RUNNING stays, with no command in either; the handles are kept |
| AppGateway.IqValueStep | aod_gateway_victor/app_gateway.c:285-294 | an empty report changes nothing; otherwise the reporting address then has a session, appended at the end only when it had none |
| AppGateway.StepKeepsSessionsDistinct | aod_gateway_victor/app_gateway.c:290-294 | no routed event makes two sessions of a connection share a locator address |
| AppGateway.RunKeepsSessionsDistinct | aod_gateway_victor/app_gateway.c:290-294 | nor does any run of routed events |
| AppGateway.CompletionsKeepDiscoveringServices | aod_gateway_victor/app_gateway.c:213-223 | a connection in DISCOVER_SERVICES that gets only completions stays there and asks for characteristic discovery each time |
| AppGateway.LeavingDiscoverServicesNeedsCharacteristic | aod_gateway_victor/app_gateway.c:175-253 | a connection leaves DISCOVER_SERVICES only if a characteristic event arrives |
| AppGateway.IqValuesKeepState | aod_gateway_victor/app_gateway.c:268-306 | IQ reports issue no command, move neither the state nor the handles, and only add sessions at the end |
| AppGateway.DiscoveryReachesRunning | aod_gateway_victor/app_gateway.c:175-253 | service found, completion, characteristic found, completion, completion take a new connection to RUNNING with both handles stored, issuing the characteristic discovery and then the notification request |
| AppGateway.SessionsExceedLocatorCapacity | aod_gateway_victor/app_gateway.c:290-294 | a connection with 8 sessions gets a ninth from a new locator: session creation has no bound |
| AppGateway.OnScanReport | aod_gateway_victor/app_gateway.c:110-148 | a stop-scan and connection-open request is issued iff the tag is whitelisted, the packet type has bits 1 and 2 clear, the IQ service is advertised, the table has room and no connection has the address; otherwise no command |
| AppGateway.OnConnectionOpened | aod_gateway_victor/app_gateway.c:149-172 | the connection is appended when there is room and silently refused otherwise; service discovery is requested either way |
| AppGateway.OnGattEvent | aod_gateway_victor/app_gateway.c:175-253 | an unknown handle changes nothing and issues nothing; otherwise only the first connection with the handle changes, as its step says |
| AppGateway.OnCharacteristicValue | aod_gateway_victor/app_gateway.c:268-307 | a report is forwarded iff the connection is known and the report is non-empty, whatever the state; the connection's sessions are updated as IqValueStep says; nothing reaches the tags otherwise |
| AppGateway.AddLocatorSession | aod_gateway_victor/app_gateway.c:290-294 | slot k becomes IqValueStep of itself and no other slot changes |
| AppGateway.OnConnectionClosed | aod_gateway_victor/app_gateway.c:255-265 | the connection with the handle is removed as remove_connection does, and scanning restarts |
| AppGateway.OnRoutedEvent | aod_gateway_victor/app_gateway.c:175-307 | a handle-routed event changes at most the first connection with its handle, as its step says; only IQ reports are forwarded |
| AppGateway.OnTableEvent | aod_gateway_victor/app_gateway.c:76-172 | TableEventDone holds: boot issues the four setup commands, a scan report requests a connection iff admitted, and an opened or closed connection is added or removed as the table says |
| AppGateway.AppBtOnEvent | aod_gateway_victor/app_gateway.c:67-314 | routed events keep the count and change at most one connection; only characteristic values reach the tags; for the other events TableEventDone holds, the same postcondition OnTableEvent ensures: the boot commands, the admission-gated connection request, the append on open and the removal on close |

## Left out

- The BLE stack (`sl_bt_*`): commands are returned as values. Their status codes and the `app_assert` on them are not modelled; every command is taken to succeed.
- The RTL library maths (AoX estimation, phase rotation, position estimate, filters, `rssi2distance`): these are parameters returning opaque results and codes. Floating point is taken as real arithmetic.
- MQTT: `mqtt_publish` is taken to succeed, and publications are returned as values. Topic and payload formatting (`snprintf`, `sscanf`, `aoa_angle_to_string`, `aoa_string_to_angle`) is left out. The angle reaches `on_message` unchanged, and the topic is the pair of IDs.
- `aoa_address_to_id`, `aoa_id_compare`, `aoa_id_copy` and the whitelist functions are not part of this model. IDs are opaque strings compared by equality, and the whitelist is a parameter.
- Configuration file loading and the parser (`load_file`, `aoa_parse_*`): `ParseConfig` takes the parser's answers as a list. The multilocator ID parse is not modelled.
- Process startup and shutdown (`main.c`, `app_init`, `app_deinit`), the serial and TCP wrappers, and logging: these are I/O.
- `aoa_init`, `aoa_deinit` and the buffer allocation of `aoa_init_buffers`: these are library state and memory. A session is its locator address, and teardown is the returned list of sessions.
- App.AppState.AppOnIqReport: requires the reporting locator to have a session on the connection. The handler always creates one first; in C, a missing session would be a null dereference.
- AppGateway.OnCharacteristicValue: states which reports are forwarded, and the locator ID it sets, rather than restating what `app_on_iq_report` then does to the tags.
- AppGateway.IqValueStep: the sessions are an unbounded sequence. In C, `aoa_states` has 8 entries and `num_locators_found` is a `uint8_t`, so a ninth locator writes past the array. The model shows the missing bound (`SessionsExceedLocatorCapacity`) but not the overflow.
- Aoa.SampleAt: a read past the end of a report yields 0.0, where C reads whatever memory follows. App.ByteAt does the same for the advertising data.
- App.AppState.RunTail: the eight tail calls are written as one cascade of guarded steps on a local copy of the slot, rather than as eight early returns.
- The IQ report's `length` is `|samples|`; its 8-bit width is not modelled.
- App.AppState.ParseConfig: entered with a full table, the C loop writes the parsed locator to `locator_list[8]`, past the end, and the count becomes 9. The model reports this as `ConfigOverflow` and keeps the table and count as they were; what the process does after the write is not modelled.
- Aoa.CalcFrequencyFromChannel: for a channel index past 39 the C function reads past its table; the model returns `None`, and the estimator is handed that unknown frequency.
- App.Rtl and App.Externals: the RTL library, the AoX estimator and the RSSI distance filter are modelled without memory. Each answer depends only on the tag ID or locator session and that call's arguments, not on earlier calls. So in the model `sl_rtl_aox_process` does not return IN_PROGRESS until it has seen enough packets, the position estimate does not depend on the measurements fed in that or earlier rounds, and the filters do not smooth across calls. Every estimation of a tag therefore yields the same position.

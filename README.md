# Lift-rig control and record keeping, modelled in Dafny

This project models the control and bookkeeping core of a quadcopter lift rig.
The rig holds a drone over a set of load cells, turns its motors, and records
what it measures. The model covers four parts, each with its legacy copy where
the repository keeps one:

- **Arduino fleet manager** (`src/lib/ard.py`, legacy `src/ard.py`). The
  model covers:
  - parsing of the `DAT <json>` telemetry line each board prints;
  - the `IDEN`/`CALIB` handshake;
  - the logical channel mapping built from the boards' readings;
  - the combined reading taken through that mapping;
  - the splitting of a fleet-wide `MOVE` into one command per board;
  - the refusal rules for saving and loading a mapping;
  - the interactive remap of motors and load cells.

  Modules: `ArdLink` (one board), `ArdFleet` (the manager), `ArdRemap`
  (`customise_mapping`) and `ArdLegacy` (the differences of `src/ard.py`).
- **Drone RPM controller** (`src/lib/drone.py`), module `Drone`. It models
  the state the class keeps: `armed`, the control flag, four throttles
  clamped to [1000, 1525], four rpm targets, and the last telemetry. On that
  state it models:
  - the decoding of inbound `ARMING`/`MOTOR`/`POWER` messages;
  - throttle and target commands, each sending the full `SET` vector;
  - switching the worker on and off, and arming;
  - one tick of the integer feedback loop `throttle + (target - rpm) // 100`;
  - the blocking wait of `set_rpm`.

  Each operation is a function on a `Rig` value. The class `Drone` has a
  method for each, proved to end in the state that function gives.
- **Experiment records** (`src/lib/utils.py`, legacy `src/utils.py`), modules
  `Records` and `Numerical`.
  - A `Frame` is modelled as its attribute dictionary.
  - The model covers the keyword filter of `Data.add`, the `get_frame`
    search, `clear`, `compactify`, and the guards and file layout of
    `dump`/`load`.
  - It also covers the per-frame projections, the mass sum, the length
    guard of `get_mass_vec`, and `Numerical.sort_peaks`.
- **Analysis selection** (`src/lib/processor.py`, legacy `src/processor.py`),
  modules `Processor` and `ProcessorLegacy`. The model covers `in_range`,
  `remove_by_indices`, the index selection and parameter checks of
  `outlier_filter`, the peak selection of `w2_normalisation`, and the bin
  assignment of `bin_by_w`.

Module `Py` holds the Python behaviour the core relies on:
- `Result`/`Option` and the Python exception kinds;
- decoded JSON values and their truthiness;
- `sum`, negative indexing, `strip`, `split`, `join`;
- `int()` on decimal text and `str()` of integers.

Python integers are unbounded, so no wrap-around is modelled. Times, masses
and frequencies are `real`, because the code only adds, compares and divides
them.

Some behaviour of the code differs from what its names or comments suggest;
the model follows the code:
- Disarming does not put the throttles back to the minimum. `set_arming(False)`
  only switches the feedback worker off, and that zeroes the targets; the
  comment at src/lib/drone.py:206-209 says the motors keep spinning
  (src/lib/drone.py:137-142, 202-213).
- A rejected throttle command is ignored (a message is printed); no error is
  raised (src/lib/drone.py:149-155).
- `in_range` excludes both ends, although its comment at
  src/lib/processor.py:510 says the range is half-open.
- `get_dev_info` reads lines without any bound until an `IDEN` line arrives
  (src/lib/ard.py:323).

Operations that loop in the source are methods with loop invariants. Each
method's `ensures` ties its result or new state to a specification function,
and lemmas state what those functions promise. Operations that
are single expressions in the source are functions.

## Model

| member | source | states |
|---|---|---|
| ArdLink.EmptyReading | src/lib/ard.py:18-26 | a fresh reading has exactly the schema's fields, each an empty list |
| ArdLink.Load | src/lib/ard.py:28-31 | loading a payload keeps the reading's fields; a field named in the payload takes its value, every other field keeps its own |
| ArdLink.LoadIgnoresUnknownKey | src/lib/ard.py:28-31 | adding or removing a key that names no field never changes the loaded reading |
| ArdLink.ParseTelemetry | src/lib/ard.py:342-355 | the parse is `Ok(None)` exactly when the line's tag is not `DAT`; a parsed reading has exactly the schema's fields; a `DAT` line without a payload is an IndexError (the same code is src/ard.py:263-275) |
| ArdLink.TelemetryRoundTrip | src/lib/ard.py:342-355 | a `DAT` line whose payload decodes to an object parses to the fresh reading loaded with that object |
| ArdLink.OtherTagIsNotData | src/lib/ard.py:343-349 | a line with any other tag gives no reading and no error |
| ArdLink.IsOperating | src/lib/ard.py:337-338 | true iff the reading's `operating` list holds a value equal to True; a missing reading is an AttributeError |
| ArdLink.MoveMessageDecodes | src/lib/ard.py:363-364 | splitting a `MOVE` message on spaces gives back `MOVE` and exactly the step counts sent |
| ArdLink.WireText | src/lib/ard.py:295-296 | the text written is the message followed by one newline |
| ArdLink.WireTextFrames | src/lib/ard.py:295-296 | a message without newlines is the first line of what is written, with nothing after the newline |
| ArdLink.MoveMessageIsOneLine | src/lib/ard.py:363-364 | a `MOVE` command never contains a newline, so it is one frame on the wire |
| ArdLink.DevInfo | src/lib/ard.py:320-333 | the handshake reads no more lines than it is given, ends identified only with an id set, and reads nothing when an id is already known |
| ArdLink.IdenEndsHandshake | src/lib/ard.py:323-333 | after any number of lines with other tags, `IDEN n` ends the handshake with id `n`; nothing bounds the number of lines read |
| ArdLink.IgnoredLinesKeepWaiting | src/lib/ard.py:323-333 | lines with unknown tags never end the handshake |
| ArdLink.CalibSetsFactors | src/lib/ard.py:330-331 | a `CALIB` line sets the calibration factors to all its parameters and the handshake reads on |
| ArdLink.Arduino.constructor | src/lib/ard.py:250-267 | a new link starts with no id and no factors; its id and factors are those the handshake over the board's first lines gives, and its cached line is the stripped line after the `IDEN` line, or empty when the handshake does not end identified |
| ArdLink.Arduino.GetDevInfo | src/lib/ard.py:320-333 | the loop leaves the id, the factors and the number of lines read that the handshake function gives, and leaves the cached line alone |
| ArdFleet.EmptyMapping | src/lib/ard.py:41-47 | a fresh mapping has every component, each with no channels |
| ArdFleet.DeviceChannels | src/lib/ard.py:101 | a board reporting `n` values contributes channels `(dev, 0) .. (dev, n-1)` in order |
| ArdFleet.AddComponents | src/lib/ard.py:98-101 | numbering one board's reading keeps the mapping's components |
| ArdFleet.AddComponentsEffect | src/lib/ard.py:98-101 | numbering succeeds iff every component's value has a length; then each component gains exactly that board's channels and no other component changes |
| ArdFleet.AutoMap | src/lib/ard.py:92-103 | a generated mapping has exactly the schema's components |
| ArdFleet.AutoMapIsExpected | src/lib/ard.py:92-103 | a generated mapping equals the reference numbering: board by board in dictionary order, each board's channels `0 .. n-1` |
| ArdFleet.ExpectedChannels | src/lib/ard.py:75 | with boards in ascending id, the reference numbering lists exactly each board's channels, once each, by ascending id and then ascending index |
| ArdFleet.AutoMapOrderAndLength | src/lib/ard.py:92-103 | with boards sorted by id, each component's mapping is ordered by id and then index, has the sum of the boards' counts as its length, and holds exactly the channels the boards report (the legacy `gen_mapping`, src/ard.py:52-63, is the same code) |
| ArdFleet.ReadAll | src/lib/ard.py:166 | the per-board readings are keyed by exactly the connected ids |
| ArdFleet.ReadAllValues | src/lib/ard.py:166 | each board's entry is the parse of its own cached line |
| ArdFleet.Gather | src/lib/ard.py:171-173 | gathering a component gives one value per mapped channel |
| ArdFleet.Combine | src/lib/ard.py:168-173 | the combined reading holds the fresh reading's fields plus every gathered component |
| ArdFleet.CombinedReading | src/lib/ard.py:164-175 | the manager's reading has exactly the schema's components |
| ArdFleet.GatherValues | src/lib/ard.py:171-173 | entry `k` of a gathered component is the value at channel `k`'s index in channel `k`'s board reading |
| ArdFleet.GatherUnknownDevice | src/lib/ard.py:172 | a channel on a board that gave no reading makes the gather fail |
| ArdFleet.CombineValues | src/lib/ard.py:168-173 | every component of a successful combination is its gathered list |
| ArdFleet.CombineFails | src/lib/ard.py:168-173 | one failing component makes the whole reading fail |
| ArdFleet.CombinedReadingEntries | src/lib/ard.py:164-175 | for every component, the output has one entry per mapped channel, and entry `k` is the value that channel's board parsed at that channel's index |
| ArdFleet.CombinedReadingUnknownDevice | src/lib/ard.py:164-175 | a mapped channel on a board that is not connected is an error, never a silently dropped channel |
| ArdFleet.Targets | src/lib/ard.py:191-197 | an integer target is given to every motor; a list is accepted iff its length is the motor count, and is then used unchanged |
| ArdFleet.GroupWellFormed | src/lib/ard.py:199-205 | the per-board grouping lists each board once and each board's local ids once, exactly those given a step count |
| ArdFleet.GroupOrderCovers | src/lib/ard.py:199-205 | the boards of the grouping are exactly the boards of the motor channels |
| ArdFleet.GroupStepsCover | src/lib/ard.py:199-205 | a board's step counts are keyed by exactly the local ids its motor channels have |
| ArdFleet.GroupLastWriteWins | src/lib/ard.py:199-205 | each channel gets the value at its last position in the target list |
| ArdFleet.DeviceSteps | src/lib/ard.py:207-210 | a board's command carries one step count per local motor |
| ArdFleet.DeviceStepsAscending | src/lib/ard.py:207-210 | a board's step counts are listed by strictly ascending local id, each the count given to that local id |
| ArdFleet.DispatchAllPresent | src/lib/ard.py:207-210 | with every board connected, every board's `MOVE` is sent, exactly once each and in the order of the command list (one command per board, in order of first appearance) |
| ArdFleet.DispatchStopsAtMissing | src/lib/ard.py:207-210 | the first board that is not connected ends the dispatch with a KeyError, after exactly the commands of the boards before it were sent |
| ArdFleet.MoveTargets | src/lib/ard.py:190-197 | a list of the wrong length raises before anything is sent; an integer moves as the list repeating it for every motor |
| ArdFleet.MoveExample | src/lib/ard.py:190-210 | motors on boards 1, 2, 1 with targets 10, 20, 30 send `MOVE 10 30` to board 1, then `MOVE 20` to board 2 |
| ArdFleet.GroupExample | src/lib/ard.py:199-205 | the grouping of that example |
| ArdFleet.DispatchExample | src/lib/ard.py:207-210 | the dispatch of that example |
| ArdFleet.MotorTarget | src/lib/ard.py:224 | the target of `move_motor` has one entry per motor: `steps` at the chosen motor, 0 everywhere else |
| ArdFleet.MoveMotorMovesOne | src/lib/ard.py:222-225 | with distinct channels, the chosen motor's channel gets `steps` and every other mapped channel gets 0 |
| ArdFleet.MappingFields | src/lib/ard.py:54 | the saved form holds each component under its field name and nothing else |
| ArdFleet.DumpMapping | src/lib/ard.py:49-54 | saving fails with IOError iff the file exists; otherwise it adds exactly that file, holding every field, and leaves other files alone (src/ard.py:168-173 is the same) |
| ArdFleet.LoadMapping | src/lib/ard.py:56-65 | loading fails with IOError iff the file is missing; a component named in the file takes its value, every other keeps its own, unknown keys are ignored (src/ard.py:175-184 is the same) |
| ArdFleet.MappingRoundTrip | src/lib/ard.py:49-65 | loading what was saved restores the mapping exactly, whatever the fields held before |
| ArdFleet.GatherChannels | src/lib/ard.py:171-173 | the inner loop of `get_reading` computes the gather |
| ArdFleet.AddDevice | src/lib/ard.py:98-101 | the component loop of `gen_mapping` computes one board's numbering |
| ArdFleet.AutoMapLinks | src/lib/ard.py:95-101 | the board loop of `gen_mapping` computes the generated mapping |
| ArdFleet.ReadLinks | src/lib/ard.py:166 | the comprehension of `get_reading` computes every board's reading |
| ArdFleet.CombineFields | src/lib/ard.py:168-173 | the component loop of `get_reading` computes the combined reading |
| ArdFleet.GroupTargets | src/lib/ard.py:199-205 | the first loop of `move` builds the per-board grouping |
| ArdFleet.DispatchMoves | src/lib/ard.py:207-210 | the second loop of `move` sends what the dispatch function says |
| ArdFleet.ByIdKeys | src/lib/ard.py:70-73 | the boards are keyed by exactly the ids they reported |
| ArdFleet.ByIdLastWins | src/lib/ard.py:70-73 | a board whose id no later board reports is the one kept under that id |
| ArdFleet.ArdManager.constructor | src/lib/ard.py:67-75 | the boards found are keyed by their ids and sorted by id; no mapping exists yet |
| ArdFleet.ArdManager.GenMapping | src/lib/ard.py:92-103 | on success the mapping becomes the generated one; on an error the previous mapping stays; the boards are unchanged |
| ArdFleet.ArdManager.GetReading | src/lib/ard.py:164-175 | returns the combined reading through the current mapping |
| ArdFleet.ArdManager.Move | src/lib/ard.py:190-210 | sends exactly the commands, and ends as, the move function describes |
| ArdFleet.ArdManager.MoveMotor | src/lib/ard.py:222-225 | with no mapping, an AttributeError and nothing sent; otherwise the move of the one-motor target |
| ArdFleet.ArdManager.Dump | src/lib/ard.py:234-237 | with no mapping it raises; otherwise it saves the mapping under the file rules above |
| ArdFleet.ArdManager.Load | src/lib/ard.py:241-245 | refuses to replace an existing mapping; otherwise starts from an empty mapping and loads the file into it; a missing file leaves the empty mapping and raises IOError |
| ArdFleet.LoadAsWritten | src/lib/ard.py:244 | with a mapping present, the load raises (the refusal) |
| ArdFleet.LoadAsWrittenNeverLoads | src/lib/ard.py:241-245 | as written, loading into a manager without a mapping is a NameError; the corrected load restores a saved mapping (src/ard.py:157 has the same unqualified name) |
| ArdRemap.CheckMotorIdAsWritten | src/lib/ard.py:127-136 | the checks as written raise IndexError exactly for the answer naming the motor count |
| ArdRemap.CheckMotorId | src/lib/ard.py:127-136 | an answer is accepted iff it is numeric, names an existing slot, and that slot is free; the accepted id is its value; non-numeric answers are the only ones rejected as such |
| ArdRemap.CheckMotorIdAgrees | src/lib/ard.py:127-136 | the two checks agree on every answer except the motor count |
| ArdRemap.CheckMotorIdOverrun | src/lib/ard.py:131-137 | answering with the motor count crashes the remap as written, and is refused as out of range with the corrected bound |
| ArdRemap.FirstAccepted | src/lib/ard.py:123-135 | one prompt reads answers until one names a free slot in range; when none does, every answer is read |
| ArdRemap.FirstAcceptedIsFirst | src/lib/ard.py:123-135 | the accepted answer passes the checks with the returned id, and every answer read before it was rejected |
| ArdRemap.PlaceNext | src/lib/ard.py:120-137 | one turn of the motor loop puts motor `i` in the free slot its accepted answer names and records that id; with no accepted answer the loop ends with every answer read and the slots unchanged |
| ArdRemap.PlaceMotors | src/lib/ard.py:119-137 | the loop over the first `n` motors reads no more answers than given, records one id per motor while it goes on, and stops only with every answer read |
| ArdRemap.PlaceIdsStep | src/lib/ard.py:137 | placing a motor in a free slot moves no motor placed before it |
| ArdRemap.PlaceMotorsSpec | src/lib/ard.py:119-137 | while the loop goes on, motor `i` sits in the slot `ids[i]` accepted at its prompt |
| ArdRemap.PlaceMotorsFilled | src/lib/ard.py:119-137 | while the loop goes on, exactly the motors prompted so far fill the slots |
| ArdRemap.MotorPlacementSpec | src/lib/ard.py:119-137 | when every motor is placed, motor `i` sits in slot `ids[i]`, every slot is filled, and the new motor list is a permutation of the old one |
| ArdRemap.PlaceMotorsStops | src/lib/ard.py:123-137 | once a prompt runs out of answers, no later motor changes the outcome |
| ArdRemap.AskMotorId | src/lib/ard.py:123-135 | the prompt loop ends with the id, the answers read and the outcome `FirstAccepted` gives |
| ArdRemap.RemapMotors | src/lib/ard.py:119-137 | the motor loop ends with the slots, the answers read, the accepted ids and the outcome `MotorPlacement` gives |
| ArdRemap.FirstPushed | src/lib/ard.py:146-149 | the selected cell is the first whose reading exceeds 50 either way; none when no cell does |
| ArdRemap.FindPushed | src/lib/ard.py:146-149 | the scan of one reading returns that first pushed cell |
| ArdRemap.Pushes | src/lib/ard.py:144-152 | at most one cell is selected per reading |
| ArdRemap.RemapCellsAsWritten | src/lib/ard.py:146-153 | as written, each cell's channel is stored at the pushed cell's own index |
| ArdRemap.RemapCellsAsWrittenIsIdentity | src/lib/ard.py:146-153 | as written, every filled cell keeps its own channel, so the load cells are never reordered |
| ArdRemap.RemapCellsSwapExample | src/lib/ard.py:140-153 | with two cells pushed in the order 1 then 0, the pushed order is `[1, 0]`, and the loop as written leaves the cells in place |
| ArdRemap.RemapCellsSwapIntended | src/lib/ard.py:140-153 | the corrected cell loop on the same two cells and readings swaps them |
| ArdRemap.RemapCells | src/lib/ard.py:140-153 | uses no more readings than given; when every cell is assigned, new cell `i` holds the channel of the `i`-th cell pushed |
| ArdRemap.TestMoveAsWritten | src/lib/ard.py:124-125 | as written, the test move before a motor's prompt raises TypeError: an integer target has no step counts to join |
| ArdRemap.TestMoveMovesOne | src/lib/ard.py:125 | the intended test move, `move_motor(i, 90)`, turns motor `i` by 90 steps and every other mapped motor by 0 |
| ArdRemap.CustomiseAsWritten | src/lib/ard.py:111 | as written, every call raises NameError before any prompt |
| ArdRemap.RemapComponents | src/lib/ard.py:118-157 | a new mapping exists iff every motor is placed and there are at least as many pushes as cells; then each old motor `i` sits at the id accepted at its prompt, the new motor list is a permutation of the old one, new cell `i` is the `i`-th cell pushed, and every other component keeps its channels |
| ArdRemap.Customise | src/lib/ard.py:107-157 | without a mapping it raises; when every motor and cell is placed, each old motor `i` sits at the id accepted at its prompt, the new motor list is a permutation of the old one, new cell `i` is the `i`-th cell pushed, and every other component keeps its channels; when answers or readings run out the mapping is unchanged |
| ArdLegacy.LegacyReadingFields | src/ard.py:11-21 | a legacy reading has exactly `accel`, `dist`, `mass` and `motor`; an `operating` key is dropped |
| ArdLegacy.LegacyReading | src/ard.py:117-129 | with a mapping, the legacy reading is the combined reading over the fixed component list; without one, an AttributeError after all boards were read |
| ArdLegacy.MotorMessageDecodes | src/ard.py:231-233 | `MOVE <motor> <steps>` splits back into the motor and the step count |
| ArdLegacy.MotorMoves | src/ard.py:138-140 | one command per motor until a board is missing; a complete run sends exactly one per motor |
| ArdLegacy.MotorMovesAllPresent | src/ard.py:138-140 | with every board connected, motor `i`'s board is told to move its local motor by `target[i]`, in mapping order |
| ArdLegacy.MoveMotor | src/ard.py:133-140 | the loop sends what the expected moves give: an AttributeError without a mapping, a raise before any send for a list of the wrong length |
| ArdLegacy.MoveMotorAsWritten | src/ard.py:138-140 | as written, the call can only succeed when there are no motors |
| ArdLegacy.MoveMotorAsWrittenRaises | src/ard.py:140 | with one connected motor the call as written raises TypeError, while the intended call sends one command |
| ArdLegacy.LegacyDevInfoAsWritten | src/ard.py:235-248 | as written, the handshake can end only with a nonzero id |
| ArdLegacy.LegacyDevInfo | src/ard.py:235-248 | the intended handshake ends identified only with an id set, and reads nothing when an id is already known |
| ArdLegacy.LegacyIdenEnds | src/ard.py:237-245 | after any lines with other tags (including `CALIB`), `IDEN n` ends the intended handshake with id `n`, for every `n` including 0 |
| ArdLegacy.LegacyIdZeroBlocks | src/ard.py:237 | as written, a board reporting id 0 is never identified; it waits on through every following line |
| ArdLegacy.ZeroIdKeepsWaiting | src/ard.py:237-245 | with id 0 set, lines without `IDEN` never end the loop as written |
| ArdLegacy.LegacyAgreesOffZero | src/ard.py:237-245 | for every nonzero id, the handshake as written ends where the intended one does |
| ArdLegacy.LegacyArduino.GetDevInfo | src/ard.py:235-248 | the loop leaves the id and the number of lines read that the intended handshake gives |
| Drone.Clamp | src/lib/drone.py:157-159 | the result lies in [1000, 1525]; a value inside is kept, one outside goes to the nearer limit |
| Drone.FloorDiv | src/lib/drone.py:242 | Python's `//`: the quotient rounded toward minus infinity |
| Drone.Request | src/lib/drone.py:235-242 | a motor with target 0 is asked for the minimum throttle; otherwise the throttle moves by the rpm error over 100, rounded down |
| Drone.RequestTowardsTarget | src/lib/drone.py:238-242 | the request rises when the motor is at least 100 rpm too slow, falls when it is too fast, and stays within the 100 rpm just above |
| Drone.SetMessageDecodes | src/lib/drone.py:161-163 | splitting a `SET` message on spaces gives back `SET` and exactly the throttle vector |
| Drone.Decode | src/lib/drone.py:39-70 | a header other than `ARMING`, `POWER` or `MOTOR` decodes to nothing; decoded speed and power lists hold at most four entries |
| Drone.ArmingDecodes | src/lib/drone.py:56-58 | `ARMING n` decodes to armed iff `n` is not 0 |
| Drone.MotorDecodes | src/lib/drone.py:66-70 | `MOTOR a,b,...` decodes to the first four speeds listed |
| Drone.PowerMessage | src/lib/drone.py:61-64 | a `POWER` message's argument is split on commas, parsed as floats and cut to four; a malformed entry is a ValueError |
| Drone.PowerDecodes | src/lib/drone.py:61-64 | `POWER a,b,...` decodes iff every entry parses as a float, to the first four values listed; otherwise a ValueError |
| Drone.Spread | src/lib/drone.py:166-169 | an integer becomes that value for all four motors; a list is used as given |
| Drone.InitialValid | src/lib/drone.py:11-22 | the class defaults keep the invariant (four clamped throttles, four targets) and every target is 0 |
| Drone.ThrottleForEffect | src/lib/drone.py:148-163 | when armed and below index 4, only that motor's throttle changes, to the clamped value, and the whole new vector is sent; a negative index counts from the end, one below -4 is an IndexError |
| Drone.ThrottleForIgnored | src/lib/drone.py:149-155 | at index 4 or more, or while disarmed, nothing changes and nothing is sent |
| Drone.ThrottleForValid | src/lib/drone.py:157-161 | a throttle command keeps every throttle within the clamp |
| Drone.ThrottleAllDisarmed | src/lib/drone.py:166-172 | while disarmed, `set_throttle` changes and sends nothing |
| Drone.ThrottleAllEffect | src/lib/drone.py:166-172 | when armed, each listed motor gets its clamped value, motors past the list keep theirs, one `SET` is sent per motor set (the last carrying the final vector), and nothing else changes |
| Drone.ThrottleUniform | src/lib/drone.py:166-172 | `set_throttle(n)` sets all four throttles to the clamped `n` with four `SET` messages |
| Drone.TargetAllEffect | src/lib/drone.py:184-190 | `set_rpm` with the corrected `set_rpm_for_motor` guard (see the Findings row for src/lib/drone.py:176) stores each listed target (extra entries ignored), changes nothing else and never raises |
| Drone.TargetForOverrun | src/lib/drone.py:175-180 | as written, index 4 passes the guard and raises IndexError; with the corrected guard it is ignored |
| Drone.TargetForAgrees | src/lib/drone.py:175-180 | both guards agree on every index except 4 |
| Drone.WorkerOffEffect | src/lib/drone.py:202-213 | switching off clears the flag, zeroes every target and ends the worker; throttles keep their values |
| Drone.WorkerOnEffect | src/lib/drone.py:215-222 | switching on starts a worker, with all targets reset to 0, only when none is alive; otherwise nothing changes |
| Drone.ArmingEffect | src/lib/drone.py:137-142 | disarming first switches the worker off and then sends `ARMING 0`; arming sends `ARMING 1`; neither touches the throttles nor `armed` |
| Drone.ArmingValid | src/lib/drone.py:137-142 | arming and the worker switch keep the invariant |
| Drone.TickMotorsEffect | src/lib/drone.py:231-245 | the first `n` motors of a tick get their clamped feedback throttle, one `SET` is sent per motor, and nothing else changes |
| Drone.TickEffect | src/lib/drone.py:231-245 | a tick with control on, armed and speeds known sets each motor to its clamped feedback request, sends one `SET` per motor (the last carrying the final vector) and changes nothing else |
| Drone.TickExits | src/lib/drone.py:226-229 | with control off or disarmed, the worker ends without touching throttles or sending anything |
| Drone.TickWithoutTelemetry | src/lib/drone.py:231-232 | before any speed is reported, a tick raises TypeError and changes no throttle |
| Drone.TickValid | src/lib/drone.py:231-245 | every tick keeps every throttle within the clamp, whatever the telemetry |
| Drone.ReceiveKeepsControls | src/lib/drone.py:39-70 | inbound messages never change throttles, targets, the control flag or what was sent; they mark the link connected |
| Drone.OtherHeaderIgnored | src/lib/drone.py:55-70 | a message with an unknown header only marks the link connected |
| Drone.AverageRpm | src/lib/drone.py:251-252 | the average fails iff no speed has been reported |
| Drone.AverageIgnoresExtra | src/lib/drone.py:251-252 | speeds past the fourth do not count |
| Drone.AverageOfSteady | src/lib/drone.py:251-252 | four equal speeds average to that speed |
| Drone.Deviations | src/lib/drone.py:194 | succeeds iff both lists have four entries; each entry is the absolute difference of target and speed |
| Drone.Await | src/lib/drone.py:192-198 | the wait uses no more observations than given |
| Drone.AwaitReturnsWhenSettled | src/lib/drone.py:192-198 | the wait returns at the first observation with every motor within 150 rpm of its target, and not before |
| Drone.AwaitRpm | src/lib/drone.py:192-198 | the polling loop ends as the wait function says |
| Drone.Drone.constructor | src/lib/drone.py:11-22 | a new controller starts in the class-default state |
| Drone.Drone.OnMessage | src/lib/drone.py:39-70 | the fields change as decoding the message says |
| Drone.Drone.SetThrottleForMotor | src/lib/drone.py:148-163 | the fields change as the throttle command says |
| Drone.Drone.SetThrottle | src/lib/drone.py:166-172 | the fields change as setting each listed motor in turn says |
| Drone.Drone.SetRpmForMotor | src/lib/drone.py:175-180 | the fields change as the target command with the corrected guard says |
| Drone.Drone.SetRpm | src/lib/drone.py:184-198 | with the corrected `set_rpm_for_motor` guard (see the Findings row for src/lib/drone.py:176), stores the targets; when blocking, then waits on the observations until every motor is within tolerance |
| Drone.Drone.SetRpmWorkerOn | src/lib/drone.py:202-222 | the fields change as the worker switch says |
| Drone.Drone.SetArming | src/lib/drone.py:137-142 | the fields change as the arming request says |
| Drone.Drone.MotorWorkerStep | src/lib/drone.py:232-245 | the adjustment of motor `i` changes the fields as the model of that loop body says, raising TypeError before any speed is reported and IndexError for a missing entry |
| Drone.Drone.RpmWorkerTick | src/lib/drone.py:224-249 | one pass of the worker loop changes the fields as a tick says |
| Numerical.Zip | src/lib/utils.py:561 | `zip` pairs amplitude with frequency and stops at the shorter list |
| Numerical.SortDescending | src/lib/utils.py:561 | the sort is a permutation of its input |
| Numerical.SortDescendingSorted | src/lib/utils.py:561 | the sort orders pairs by amplitude descending, then frequency descending |
| Numerical.SortPeaks | src/lib/utils.py:560-564 | both outputs have the length of the shorter input |
| Numerical.SortPeaksSpec | src/lib/utils.py:560-564 | the outputs pair up into a permutation of the input pairs, ordered by amplitude descending and then frequency descending, with the input length when both inputs have equal length (src/utils.py:513-517 is the same) |
| Records.FrameDefaults | src/lib/utils.py:15-37 | a fresh frame has exactly the frame fields (`tracker_pos` only in the lib copy, src/utils.py:14-34) |
| Records.DataDefaults | src/lib/utils.py:98-107 | a fresh record has exactly the metadata fields (`audiofile` only in the lib copy) |
| Records.CompactedSpec | src/lib/utils.py:42-46 | a compacted copy has exactly the frame fields, no audio, is marked compact, keeps every other field, and compacting again changes nothing (src/utils.py:37-41 is the same) |
| Records.SumOf | src/lib/utils.py:55-56 | the sum of an empty list is 0 |
| Records.TotalMassOfReadings | src/lib/utils.py:55-56 | the total mass of numeric readings is their sum, 0 for none, and compacting does not change it (src/utils.py:51-52 is the same) |
| Records.MassVecInput | src/lib/utils.py:63-65 | the guard passes exactly nine readings, and raises IndexError iff `mass` has a length other than 9 (src/utils.py:58-60 is the same) |
| Records.NewFrameSpec | src/lib/utils.py:112-140 | `add` raises iff a keyword repeats an explicit argument or names a method; otherwise keywords naming a field are kept, every other keyword is dropped, and the frame has exactly the frame fields, the given time and audio, and `compact` false |
| Records.LegacyAddRejectsReadings | src/utils.py:105-108 | as written, the legacy `add` given a `mass` reading raises RuntimeError, where the filtering `add` stores it |
| Records.LegacyAddAgreesOnClassAttrs | src/utils.py:92-119 | for keywords the class itself has, the legacy `add` agrees with the filtering one |
| Records.FirstAfter | src/lib/utils.py:185-188 | the result is the first frame, in order, whose time exceeds `t`; every frame before it has a time at most `t`; none when no frame does |
| Records.LegacyFindFrameNeverSearches | src/utils.py:161-171 | as written, the legacy time search raises NameError even when a later frame exists; the corrected search finds it |
| Records.LegacyFindFrameAgreesByIndex | src/utils.py:161-165 | whenever a nonzero index is given, the legacy and corrected lookups agree |
| Records.Column | src/utils.py:123-131 | a projection succeeds iff every frame has the attribute; it then has one entry per frame, in frame order, each that frame's value |
| Records.TotalMasses | src/utils.py:133-134 | one total per frame, in frame order, each that frame's total mass; it fails iff some frame's total fails |
| Records.ClearedSpec | src/lib/utils.py:197-205 | `clear` puts every metadata field but `audiofile` back to its default and keeps `audiofile` |
| Records.DumpData | src/lib/utils.py:218-229 | saving fails with IOError iff the file exists; otherwise it adds exactly that file and leaves the others alone (src/utils.py:192-203 is the same) |
| Records.FramesFrom | src/lib/utils.py:253-256 | rebuilding frames yields at most one frame per saved item, exactly one each when nothing fails |
| Records.LoadData | src/lib/utils.py:233-256 | loading refuses a missing file (IOError) and a record that has frames, changing nothing; otherwise the metadata keeps exactly the metadata fields (src/utils.py:205-228 is the same) |
| Records.FramesFromRows | src/lib/utils.py:253-256 | frames saved from full frames rebuild to the same frames, in order |
| Records.DumpLoadRoundTrip | src/lib/utils.py:218-256 | loading what `dump` saved, into a record without frames, restores the metadata and every frame's attributes |
| Records.Frame.constructor | src/lib/utils.py:15-37 | a frame built from field values holds the defaults overridden by those values |
| Records.Frame.Update | src/lib/utils.py:50-52 | every entry of the state is set on the frame, whatever its name |
| Records.Frame.Compactify | src/lib/utils.py:42-46 | returns a new frame holding the compacted attributes; the original is unchanged |
| Records.Data.constructor | src/lib/utils.py:98-107 | a new record has the default metadata and no frames |
| Records.Data.Add | src/lib/utils.py:112-140 | appends exactly one frame, the new frame function's result, or raises and appends none; metadata and earlier frames are unchanged |
| Records.Data.GetFrame | src/lib/utils.py:178-190 | returns the frame the lookup function names, nothing, or its error |
| Records.Data.Clear | src/lib/utils.py:197-205 | the metadata is cleared as above and the frame list is emptied |
| Records.Data.Compactify | src/lib/utils.py:210-214 | a new record with the same metadata marked compact, whose frames are new compacted copies, one per frame in order; this record is unchanged |
| Records.Data.CompactCopies | src/lib/utils.py:212 | one new compacted copy per frame, in order |
| Records.Data.Dump | src/lib/utils.py:218-229 | the file system after saving is what the dump function gives |
| Records.Data.Load | src/lib/utils.py:233-256 | the metadata, frames and raised error after loading are what the load function gives |
| Records.Data.AppendLoaded | src/lib/utils.py:254-256 | appends one frame: the defaults updated with the saved item |
| Records.Data.LoadFrames | src/lib/utils.py:253-256 | the frame loop of `load` rebuilds the frames the rebuild function gives |
| Processor.InRangeExclusive | src/lib/processor.py:513-514 | a value is in range iff strictly between the bounds; both bounds themselves are out; absent bounds admit everything (src/processor.py:410-411 is the same) |
| Processor.KeptPositions | src/lib/processor.py:507 | the kept positions are strictly ascending, below the length, exactly the positions not listed |
| Processor.RemoveByIndices | src/lib/processor.py:506-507 | the result lists the elements at the kept positions, in their original order (src/processor.py:405-406 is the same) |
| Processor.KeptAndListed | src/lib/processor.py:507 | kept and listed positions together make up the whole list |
| Processor.RemoveAscendingCount | src/lib/processor.py:506-507 | removing a strictly ascending list of valid positions shortens the list by exactly that many |
| Processor.OutlierIndices | src/lib/processor.py:490-499 | every index the loop appends is a position of the values |
| Processor.OutlierIndicesSpec | src/lib/processor.py:490-501 | the indices are strictly ascending, and a position is listed iff its value fails one of the three tests |
| Processor.Outliers | src/lib/processor.py:477-501 | invalid parameters (percentile limit 100 or more, negative `z` or IQR factor) are a ValueError; with valid ones the filter fails iff the statistics fail (src/processor.py:377-381 is the same check) |
| Processor.OutliersSpec | src/lib/processor.py:477-501 | the result is ascending, free of repeats, within the list, and lists exactly the failing positions |
| Processor.ZeroDeviationSkipsDistance | src/lib/processor.py:493 | with zero deviation the distance test is skipped instead of dividing by zero |
| Processor.OutlierFilter | src/lib/processor.py:477-501 | the loop returns what the filter function gives |
| Processor.FirstInRange | src/lib/processor.py:36-39 | the selected peak is in range and every earlier peak is not; none when no peak is |
| Processor.PickAt | src/lib/processor.py:42-46 | a frame whose first peak in range is `f` contributes its time and its lift over `f` squared |
| Processor.Selection | src/lib/processor.py:35-46 | the two lists have equal length, at most one entry per frame |
| Processor.SelectionOnePerFrame | src/lib/processor.py:35-46 | exactly one pair per frame with a peak in range and none for the others; every selected time is a frame's time (src/processor.py:15-26 is the same) |
| Processor.PickPeak | src/lib/processor.py:36-45 | the peak loop gives what the per-frame selection function gives: the first peak in range with its time and lift over frequency squared, nothing when no peak is in range, and the errors of a missing peak list, a failing lift and a zero frequency |
| Processor.SelectPeaks | src/lib/processor.py:33-46 | the frame loop builds the lists the selection function gives |
| Processor.W2NormalisationLengths | src/lib/processor.py:48-52 | the two results have equal length: the frames with a peak in range less the outliers (src/processor.py:29-33 differs: it calls the legacy outlier filter, which raises on constant values; see ProcessorLegacy.ConstantValuesExample) |
| Processor.BinOf | src/lib/processor.py:144-147 | the chosen bin is the first whose open interval holds the frequency; none when no interval does |
| Processor.InteriorEndpointUnbinned | src/lib/processor.py:144-147 | with sorted endpoints, a peak exactly at an interior endpoint falls in no bin |
| Processor.Place | src/lib/processor.py:140-148 | a frame goes to at most one existing bin |
| Processor.Bins | src/lib/processor.py:139-148 | the frame loop leaves one bin per pair of consecutive endpoints |
| Processor.BinByW | src/lib/processor.py:128-151 | no endpoints is an IndexError; otherwise the record's height and one bin per pair of consecutive endpoints (src/processor.py:110-133 is the same) |
| Processor.BinsOnePerFrame | src/lib/processor.py:139-148 | the bins together hold exactly one mass per placed frame, so at most one per frame |
| Processor.PlaceFrame | src/lib/processor.py:140-148 | the two inner loops pick the bin the placement function gives: the first peak inside the whole range, then the first open interval holding it |
| Processor.BinFrames | src/lib/processor.py:128-151 | the frame loop returns what the binning function gives, including the first frame's error |
| ProcessorLegacy.LegacyOutliersAsWritten | src/processor.py:377-381 | the legacy filter rejects the same invalid parameters with ValueError |
| ProcessorLegacy.LegacyIndicesAgree | src/processor.py:390-399 | with no `z` or a nonzero deviation, the legacy loop returns exactly the guarded loop's indices |
| ProcessorLegacy.LegacyOutliersAgree | src/processor.py:377-401 | with no `z` or a nonzero deviation, the legacy and guarded filters agree |
| ProcessorLegacy.LegacyZeroDeviationRaises | src/processor.py:393 | with `z` given and zero deviation, any non-empty list makes the legacy loop raise ZeroDivisionError |
| ProcessorLegacy.ConstantValuesExample | src/processor.py:29 | on two equal values, as `w2_normalisation` calls it, the legacy filter raises while the guarded one finds no outlier |

## Left out

- Serial ports and websockets are not modelled: port discovery, `open`, `close`, `reset`, DTR toggling, `readline`, and the autobahn/Twisted reactor. A board is its id and its last cached line. Sent commands are returned as values, or appended to a `sent` list in the drone.
- Threads are not modelled: `readline_worker`, `socket_worker`, and the `rpm_worker` thread. The worker is modelled as one tick at a time, plus a flag saying whether it is alive; `join` is that flag being cleared.
- `time.sleep` and the polling loops are not modelled as such. A blocking wait is modelled on a finite list of successive observations, and "still waiting" is reported when the list runs out.
- JSON text (RFC 8259) is not modelled. Decoding is an injected `decode` function from text to a JSON value. Saved files are a map from name to decoded value. A saved mapping file is typed as a map from component name to channel list, so a file whose JSON is not an object (an AttributeError in `ArdMapping.load`), or whose field holds a value that is not a channel list (which `setattr` would store), cannot be represented. Float text parsing is an injected `parseReal`.
- ArdFleet.ArdManager.constructor: the port scan, the two-second sleep, and the initial `gen_mapping`/`load` are not modelled. It takes the boards found, each already identified. In the source, `arduinos` is one dictionary on the class (src/lib/ard.py:38, src/ard.py:25), written into (src/lib/ard.py:73, src/ard.py:36) before the instance rebinds it (src/lib/ard.py:75, src/ard.py:38). So a later manager in the same process also keeps every board found by earlier ones. The model gives each manager only its own boards.
- ArdFleet.ArdManager.Move: the blocking wait on the motors' flags after the commands (src/lib/ard.py:212-218) is left out. The legacy blocking loop (src/ard.py:142-147) is left out too.
- ParseInt: ASCII digits and ASCII whitespace only, as are IsDigit, Strip and ArdRemap.IsNumeric. Python's `int()` also accepts other Unicode decimal digits and `_` between digits, and `strip()` removes Unicode whitespace; those inputs are not modelled.
- ArdRemap.CheckMotorIdAsWritten: a numeric answer that `int()` refuses, such as `"²"`, raises ValueError in the source; the model treats it as not numeric and prompts again. An answer in other Unicode digits, such as `"١"`, is accepted by the source and rejected by the model.
- ArdRemap.CheckMotorId: the same ASCII narrowing as CheckMotorIdAsWritten.
- ArdFleet.Targets: targets are integers or integer lists. A float target, and the TypeError `len` raises on a float or boolean scalar (src/lib/ard.py:196), are not modelled.
- ArdFleet.ArdManager.MoveMotor: integer step counts only. A float such as `90.0` would go on the wire as `90.0`; that text is not modelled.
- ArdLink.Arduino.GetDevInfo: the `IDEN` request written first is not modelled. A blank line is an IndexError, as `parsed[0]` is.
- `Arduino.move` with `block=True`, `stop`, `level`, `tare` and `calibrate` (src/lib/ard.py:363-414) are not modelled: they are hardware commands followed by polling or prompts. `ArdManager.stop`, `get_mass` and `get_accel` are also not modelled.
- ArdRemap.Customise: the prompts' text and the confirmation read before each motor's test move (src/lib/ard.py:124) are not modelled, nor is the test move itself (src/lib/ard.py:125): as written it raises TypeError (`TestMoveAsWritten`), and the intended move of that motor is stated apart (`TestMoveMovesOne`). Answers and mass readings are injected sequences. A prompt that runs out of answers reports "not done" instead of blocking.
- ArdRemap.Customise: `asdict(old_mapping)` at src/lib/ard.py:115 iterates the dictionary's keys, which cannot be unpacked into pairs. The corrected remap builds the new motor and mass lists directly, and leaves the other components as they were.
- In the legacy `ArdManager`, `__init__`, `customise_mapping` and the module-level loop (src/ard.py:30-49, 65-115, 281-283) are not modelled. Their logic is the lib version's.
- The drone's class-level mutable lists (`throttle`, `target`) are shared between instances in Python. The model keeps them per instance.
- `close()` (src/lib/drone.py:133-135), socket setup, and the configurator launch are not modelled.
- Drone.Drone.SetArming: the wait for the flight controller to confirm the new arming state (src/lib/drone.py:145-146) is not modelled. `armed` changes only through `OnMessage`.
- Drone.Drone.SetThrottle: an integer and a list are told apart by an explicit `Setting` datatype, instead of by `type(...) is int`.
- The FFT, the peak finder and the statistics are inputs, not modelled computations:
  - `Numerical.fft`, `freq_filter` and `find_peaks` are the injected `analyse` function of `add`.
  - mean, stdev and the percentiles of `outlier_filter` are an abstract `Stats` input.
  - `get_mass_stat` and `get_mean_rpm` are not modelled.
  - The trigonometry of `get_mass_vec` is not modelled; only its length guard is.
- Frames as `Processor` reads them: `FrameView` carries only a frame's time, its peak list and its total mass. `Records.Column` and `Records.TotalMasses` give those columns.
- `bin_by_w` only prints a warning for unsorted endpoints, so that check is not modelled. Its only caller passes a numpy array; on a plain list the `.all()` of that check would raise AttributeError, which is also not modelled. The endpoints are a sequence of reals.
- The generic `Data.__getattr__` dispatch (src/lib/utils.py:146-164) is modelled only through the projections it produces, `Records.Column` and `Records.TotalMasses`. Its name parsing is not modelled.
- `Records.Data.Dump`: `json.dumps` runs before the existence check in the source, so an unserialisable record would raise before IOError. Serialisation failures are not modelled.
- Records.Frame.Update: dictionary iteration order does not matter for `setattr`, so `update` is a map override.
- `Frame` objects sharing lists with the record (shallow copies) are not modelled. A frame's attributes are values.
- `hasattr` on method and dunder names such as `load` or `__init__`: in `Frame.update`, `ArdReading.load` (src/lib/ard.py:30) and `ArdMapping.load` (src/lib/ard.py:64) such a key would replace the method or attribute. The model ignores these keys: they are not among the modelled field names.
- The legacy `_load_frames_list` and `_convert_frames_list` helpers are not modelled: they are deprecated in favour of `load`. The plotter and recorder classes in both utils files are also not modelled.

## Findings

| source | as written | input that shows it | evidently intended | confidence | as-written member | corrected member |
|---|---|---|---|---|---|---|
| src/lib/ard.py:111 | `customise_mapping` tests `old_mappping`, a name that does not exist | any call | test `old_mapping` | not executed | ArdRemap.CustomiseAsWritten | ArdRemap.Customise |
| src/lib/ard.py:125 | the test move calls `Arduino.move(motor_id, 90)`, whose target must be a list of step counts; joining an integer raises TypeError | any remap with at least one motor, at the first prompt | move that motor 90 steps, as `move_motor(i, 90)` does | not executed | ArdRemap.TestMoveAsWritten | ArdRemap.TestMoveMovesOne |
| src/lib/ard.py:131 | the bound `new_id > max_id` accepts `max_id`, which then indexes past the new motor list | answer `"2"` with two motors | reject `new_id >= max_id` | not executed | ArdRemap.CheckMotorIdOverrun | ArdRemap.CheckMotorId |
| src/lib/ard.py:146-153 | the inner `for i` reuses the outer loop variable, so each cell's channel is written back at its own index | two cells pushed in the order 1, 0 | new cell `i` takes the channel of the `i`-th cell pushed | not executed | ArdRemap.RemapCellsAsWrittenIsIdentity | ArdRemap.RemapCells |
| src/lib/ard.py:244 | `ArdMapping()` is called unqualified, but the class is nested in `ArdManager` | `load(name)` on a manager without a mapping | `self.ArdMapping()` | not executed | ArdFleet.LoadAsWrittenNeverLoads | ArdFleet.ArdManager.Load |
| src/ard.py:140 | `Arduino.move_motor` takes one argument but is called with two | one connected motor, any target | pass the local motor id and the steps | not executed | ArdLegacy.MoveMotorAsWrittenRaises | ArdLegacy.MoveMotor |
| src/ard.py:237 | the handshake loops `while not self.dev_id`, so id 0 never ends it | a board answering `IDEN 0` | loop `while self.dev_id is None` | not executed | ArdLegacy.LegacyIdZeroBlocks | ArdLegacy.LegacyDevInfo |
| src/lib/drone.py:176 | the guard `ind > NUM_OF_MOTORS` lets index 4 reach the four-element target list | `set_rpm_for_motor(4, 1000)` | `ind >= NUM_OF_MOTORS`, as in `set_throttle_for_motor` | not executed | Drone.TargetForOverrun | Drone.Drone.SetRpmForMotor |
| src/utils.py:106-108 | keys are popped from `kwargs` while iterating over it, so any unknown keyword raises RuntimeError | `add(t, mass=[1.0])` | iterate over a copy of the keys | not executed | Records.LegacyAddRejectsReadings | Records.Data.Add |
| src/utils.py:167 | the time branch tests `t`, which is undefined (the parameter is `_t`) | `get_frame(_t=1.0)` with a later frame | test `_t` | not executed | Records.LegacyFindFrameNeverSearches | Records.Data.GetFrame |
| src/processor.py:393 | the z test divides by the deviation without checking it for zero | `w2_normalisation` on two frames with equal values | skip the z test when the deviation is zero, as src/lib/processor.py:493 does | not executed | ProcessorLegacy.ConstantValuesExample | Processor.OutlierFilter |

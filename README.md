# Experiment sequencing of Artemis / Hyperion, modelled in Dafny

This project models the experiment-sequencing core of the Artemis/Hyperion
beamline-control software (the MX beamline I03 at Diamond Light Source):

- the Bluesky plans, each seen as the sequence of messages it yields to the
  run engine (`Msg`), with every hardware reading, database id, clock reading
  and analysis result taken as an input;
- the objects those plans update in place, as classes:
  - the ISPyB store and the ISPyB callback;
  - the OAV snapshot collector;
  - the log's data-collection-group filter;
  - the parameter bucket;
  - the beamline positions of the UDC default-state sequence.

The modules are:

| module | models |
|---|---|
| `Plans` | the message vocabulary, reading values, error kinds and trace helpers shared by every plan |
| `TopUp` | top-up gating before a collection |
| `DefaultState` | the I03 unattended-data-collection default-state sequence |
| `SteppedGridScan` | the Artemis stepped grid scan, its validity wait, aperture choice and final move |
| `FastGridScan` | the Artemis fast grid scan, with its ISPyB records and analysis calls |
| `StoreInIspyb` | the rows the ISPyB store writes, the visit search in a path, and the end-of-scan updates |
| `SetupPanda` | the PandA sequencer table, and arming and disarming the PandA |
| `ReadHardware` | the two hardware-reading bundles for ISPyB |
| `Log` | the data-collection-group tag filter and the log file location |
| `IspybCallback` | the ISPyB callback base: start, descriptor, event and stop handling |
| `OavSnapshot` | the OAV snapshot collector |
| `GridDetect` | grid detection followed by X-ray centring |
| `Context` | device lookup in the Bluesky context and device composites |
| `InternalParameters` | flattening of the external parameters, the parameter bucket and parameter equality |

Each operation is proved against a specification function or a stated
property. Every plan has lemmas about the order of its messages, what it
leaves behind, and its error paths.

## Model

| member | source | states |
|---|---|---|
| TopUp.PollTraceSleeps | src/hyperion/device_setup_plans/check_topup.py:43-47 | a poll that sees k zero countdowns sleeps exactly k times, each for 0.1 s |
| TopUp.PollTraceAlternates | src/hyperion/device_setup_plans/check_topup.py:43-47 | a poll's messages alternate: reads of the start countdown at even positions, first and last included, and 0.1 s sleeps between them |
| TopUp.WaitForTopupComplete | src/hyperion/device_setup_plans/check_topup.py:43-47 | the loop stops at the first non-zero countdown reading; every reading before it was 0; the messages are the poll of that many zeros |
| TopUp.GateSleeps | src/hyperion/device_setup_plans/check_topup.py:71-78 | the gate's end-countdown read, single sleep and re-read sleep once, for the wait |
| TopUp.WaitOutTopup | src/hyperion/device_setup_plans/check_topup.py:70-80 | once gated: reads the end countdown, sleeps it when the run would overlap the top-up (0 s otherwise), re-reads the start countdown, and polls only when that reading is 0, stopping at the first non-zero one |
| TopUp.CheckTopupAndWaitIfNecessary | src/hyperion/device_setup_plans/check_topup.py:50-80 | in decay mode or a mode that does not permit gating: two reads and a null, no sleep; otherwise the gate reads the end countdown, sleeps it when the run would overlap the top-up (0 s otherwise), re-reads the start countdown, and polls with 0.1 s sleeps only while that reading is 0 |
| TopUp.InDecayMode | src/hyperion/device_setup_plans/check_topup.py:11-15 | a start countdown of -1 means decay mode; CheckTopupAndWaitIfNecessary states that it switches gating off |
| TopUp.GatingPermitted | src/hyperion/device_setup_plans/check_topup.py:18-23 | gating is permitted in the user and special machine modes only; CheckTopupAndWaitIfNecessary states that any other mode switches gating off |
| TopUp.DelayToAvoidTopup | src/hyperion/device_setup_plans/check_topup.py:26-40 | the collection waits when its total run time exceeds the time to the next top-up; WaitOutTopup states that the gate sleeps exactly then |
| DefaultState.ScinPositions | src/artemis/UDC_move_to_default_state.py:50-56 | every signal keeps a position after make_scin_safe; what they are is stated by MakeScinSafeEstablishesGuard |
| DefaultState.BsPositions | src/artemis/UDC_move_to_default_state.py:58-63 | every signal keeps a position after put_bs_in; what they are is stated by PutBsInEstablishesGuard |
| DefaultState.GonioStage | src/artemis/UDC_move_to_default_state.py:120-122 | every signal keeps a position after the goniometer batches; what they are is stated by GonioStageSets |
| DefaultState.FinalStage | src/artemis/UDC_move_to_default_state.py:124-126 | every signal keeps a position after the final batches; what they are is stated by FinalStageSets |
| DefaultState.GonioPositions | src/artemis/UDC_move_to_default_state.py:119-122 | every signal keeps a position after make_scin_safe, deciding with the guard as written (`z < 0.1`), and the goniometer stage; what they are is stated by GonioStageReached |
| DefaultState.DefaultPositions | src/artemis/UDC_move_to_default_state.py:113-126 | every signal keeps a position at the end of the whole sequence (guard as written); what they are is stated by DefaultStateReached and DefaultCmdsReachDefaultPositions |
| DefaultState.RunScinCmds | src/artemis/UDC_move_to_default_state.py:50-56 | make_scin_safe's messages, run in turn, reach ScinPositions |
| DefaultState.RunBsCmds | src/artemis/UDC_move_to_default_state.py:58-63 | put_bs_in's messages, run in turn, reach BsPositions |
| DefaultState.ReachGonioStage | src/artemis/UDC_move_to_default_state.py:119-122 | the messages up to the goniometer batch reach GonioPositions |
| DefaultState.DefaultCmdsReachDefaultPositions | src/artemis/UDC_move_to_default_state.py:113-126 | the batches the sequence issues, run in order, reach exactly DefaultPositions |
| DefaultState.ScinCmds | src/artemis/UDC_move_to_default_state.py:50-56 | make_scin_safe reads y first, reads z exactly when y is below 0.016, and moves something exactly when the guard fails |
| DefaultState.BsCmds | src/artemis/UDC_move_to_default_state.py:58-63 | put_bs_in reads z first, reads y exactly when z is above 25, and moves something exactly when z or y is not above 25 |
| DefaultState.CheckWarnings | src/artemis/UDC_move_to_default_state.py:66-80 | at most two warnings: the backpressure warning exactly when it is above 0.1 and the temperature warning exactly when it is above 110, and no other |
| DefaultState.DefaultCmds | src/artemis/UDC_move_to_default_state.py:113-126 | the messages of the whole sequence; DefaultCmdsReachDefaultPositions states where they take the beamline and the order lemmas below state the safe order of the batches |
| DefaultState.MakeScinSafeEstablishesGuard | src/artemis/UDC_move_to_default_state.py:50-56 | after make_scin_safe (guard as written) the scintillator is safe (y < 0.016, z <= 0.1) and either passed the strict guard untouched or sits at its parked position (y 0.015, z 0.1, scatterguard x -4.75); only the stick, the mini aperture x and the scatterguard x may have moved |
| DefaultState.PutBsInEstablishesGuard | src/artemis/UDC_move_to_default_state.py:58-63 | after put_bs_in the beamstop is in, and only the beamstop may have moved |
| DefaultState.GonioStageSets | src/artemis/UDC_move_to_default_state.py:120-122 | the goniometer stage sets the fluorescence detector out, chi and the seven goniometer axes to 0, and moves nothing else |
| DefaultState.FinalStageSets | src/artemis/UDC_move_to_default_state.py:124-126 | the final stage sets the mini aperture to z 15.8, x 2.564, y 31.4 and the cryojet in, and moves nothing else |
| DefaultState.GonioStageReached | src/artemis/UDC_move_to_default_state.py:119-122 | after the goniometer stage the scintillator is safe and settled, that stage's targets hold, and the cryojet readings are untouched |
| DefaultState.LaterStagesKeepGonioTargets | src/artemis/UDC_move_to_default_state.py:123-126 | put_bs_in and the final moves keep the goniometer stage's targets and the settled scintillator |
| DefaultState.DefaultStateReached | src/artemis/UDC_move_to_default_state.py:84-126 | from any starting positions the sequence reaches the default state (scintillator safe and settled, goniometer zeroed, beamstop in, mini aperture and cryojet at their load positions) and leaves the cryojet readings untouched |
| DefaultState.MakeScinSafeIdempotent | src/artemis/UDC_move_to_default_state.py:50-56 | with the corrected guard (`z <= 0.1`), a second make_scin_safe only reads y and z and moves nothing |
| DefaultState.PutBsInIdempotent | src/artemis/UDC_move_to_default_state.py:58-63 | a second put_bs_in only reads z and y and moves nothing |
| DefaultState.ScinSafeAsWrittenRepeats | src/artemis/UDC_move_to_default_state.py:52-56 | with the guard as written, the parked z of 0.1 fails `z < 0.1`, so a second call moves the stick again |
| DefaultState.ScinParkedMovedAgainAsWritten | src/artemis/UDC_move_to_default_state.py:52-56 | a stick parked at y 0.015, z 0.1 gets four messages from the guard as written and two (reads only) from the corrected one |
| DefaultState.StagesFixDefaultState | src/artemis/UDC_move_to_default_state.py:119-126 | in the default state every stage leaves the positions as they are |
| DefaultState.DefaultPositionsFixAtDefault | src/artemis/UDC_move_to_default_state.py:113-126 | from the default state the sequence moves nothing to a new position: a parked stick is moved to where it already is, and the mini aperture x it sends to -4.91 is put back to 2.564 by the final batches |
| DefaultState.DefaultCmdsAtDefault | src/artemis/UDC_move_to_default_state.py:113-126 | from the default state the messages are the checks, two scintillator reads, the two scintillator batches exactly when z is 0.1 (which `z < 0.1` rejects), the goniometer batches, two beamstop reads and the final batches; no beamstop move |
| DefaultState.DefaultStateIdempotent | src/artemis/UDC_move_to_default_state.py:113-126 | a second run of the sequence leaves every position where the first left it |
| DefaultState.SecondRunRepeatsScinMovesOnlyAfterParking | src/artemis/UDC_move_to_default_state.py:113-126 | a second run issues no beamstop move and repeats the two scintillator batches exactly when the first run issued them (the parked z of 0.1 fails `z < 0.1` again) |
| DefaultState.DefaultCmdsMovedBefore | src/artemis/UDC_move_to_default_state.py:113-126 | the whole sequence keeps an order "a was last moved to va before b reaches v, and stays put while b moves" whenever each of its move groups keeps it |
| DefaultState.ScintillatorOrder | src/artemis/UDC_move_to_default_state.py:55-56 | the stick's y, the mini aperture x and the scatterguard x are at their clearing positions (0.015, -4.91, -4.75) when the stick's z is parked at 0.1 |
| DefaultState.OmegaOrder | src/artemis/UDC_move_to_default_state.py:120-122 | the fluorescence detector is at its out position and chi at 0 when omega turns to 0 |
| DefaultState.BeamstopOrder | src/artemis/UDC_move_to_default_state.py:62-63 | the beamstop's z is at 30 when its y and x move to 45 and 1.6 |
| DefaultState.MiniApertureOrder | src/artemis/UDC_move_to_default_state.py:124-125 | the mini aperture's z is at 15.8 when its x and y reach their load positions 2.564 and 31.4 |
| DefaultState.Beamline.MakeScinSafe | src/artemis/UDC_move_to_default_state.py:50-56 | reads y, reads z only when y passed, and moves in two batches when the guard as written (`y < 0.016 and z < 0.1`) fails; the positions become ScinPositions and the messages ScinCmds |
| DefaultState.Beamline.PutBsIn | src/artemis/UDC_move_to_default_state.py:58-63 | reads z, reads y only when z passed, and moves in two batches when the beamstop is not in; the positions become BsPositions and the messages BsCmds |
| DefaultState.Beamline.CheckTemp | src/artemis/UDC_move_to_default_state.py:66-72 | reads the cryo temperature, adds a warning when it is above 110 and carries on with a null; nothing moves |
| DefaultState.Beamline.CheckBackpressure | src/artemis/UDC_move_to_default_state.py:74-80 | reads the backpressure, adds a warning when it is above 0.1 and carries on with a null; nothing moves |
| DefaultState.Beamline.ZeroGoniometer | src/artemis/UDC_move_to_default_state.py:120-122 | issues the three goniometer batches; positions become GonioStage |
| DefaultState.Beamline.FinalMoves | src/artemis/UDC_move_to_default_state.py:124-126 | issues the three final batches; positions become FinalStage |
| DefaultState.Beamline.MoveToDefaultUdcState | src/artemis/UDC_move_to_default_state.py:84-126 | issues DefaultCmds (guard as written), warns as CheckWarnings says, and ends at DefaultPositions |
| SteppedGridScan.ApertureFor | src/artemis/experiment_plans/stepped_grid_scan_plan.py:112-122 | medium aperture when the box's x extent is below 2, large otherwise; IndexError for an empty box |
| SteppedGridScan.ApertureIgnoresYZ | src/artemis/experiment_plans/stepped_grid_scan_plan.py:116-122 | boxes with the same x extent get the same aperture whatever y and z are |
| SteppedGridScan.SetApertureForBboxSize | src/artemis/experiment_plans/stepped_grid_scan_plan.py:112-134 | a run keyed "change_aperture" holding one set of the aperture, or the IndexError of an empty box |
| SteppedGridScan.ApertureRunNamesPreset | src/artemis/experiment_plans/stepped_grid_scan_plan.py:127-132 | the run's metadata names the aperture it sets |
| SteppedGridScan.FirstPassing | src/artemis/experiment_plans/stepped_grid_scan_plan.py:181-188 | the index of the first check that is valid with a position counter of 0; every earlier check fails |
| SteppedGridScan.WaitForFgsValid | src/artemis/experiment_plans/stepped_grid_scan_plan.py:177-190 | the loop issues the messages and reaches the outcome of FgsValid, whose meaning FgsValidOutcome states |
| SteppedGridScan.FailedChecksOnly | src/artemis/experiment_plans/stepped_grid_scan_plan.py:181-189 | failing checks issue only the two validity reads and the sleep |
| SteppedGridScan.FailedChecksSleeps | src/artemis/experiment_plans/stepped_grid_scan_plan.py:179-189 | each failing check sleeps once, for 0.1 s |
| SteppedGridScan.FgsValidOutcome | src/artemis/experiment_plans/stepped_grid_scan_plan.py:177-190 | the wait completes exactly when one of the first timesToCheck checks passes, and raises WarningException otherwise; it sleeps 0.1 s once per failing check before the first passing one (timesToCheck times when none passes, never when the first passes) |
| SteppedGridScan.FgsValidMessages | src/artemis/experiment_plans/stepped_grid_scan_plan.py:177-190 | the wait issues only the two validity reads and the sleep, and a completed wait ends with the two reads of the passing check |
| SteppedGridScan.GridscanVocabulary | src/artemis/experiment_plans/stepped_grid_scan_plan.py:198-241 | run_gridscan issues no multi-axis move and never names the sample position, the zebra set-up or tidy-up, the aperture or the enclosing runs |
| SteppedGridScan.GridscanSetupOrder | src/artemis/experiment_plans/stepped_grid_scan_plan.py:207-226 | omega is set to 0 before the hardware is read, and the hardware is read before the grid parameters are set |
| SteppedGridScan.InvalidScanNeverKicksOff | src/artemis/experiment_plans/stepped_grid_scan_plan.py:226-238 | when no check passes, the detector is never staged and the scan is never kicked off; the run closes unsuccessfully with a WarningException |
| SteppedGridScan.ValidScanOrder | src/artemis/experiment_plans/stepped_grid_scan_plan.py:198-241 | when a check passes the scan completes: omega to 0 before the hardware reads, the hardware save before the grid parameters, those before the validity reads, the validity reads before staging, the position counter before kickoff, completion before the z_steps reset, which is issued without waiting just before the run closes |
| SteppedGridScan.GridscanMessages | src/artemis/experiment_plans/stepped_grid_scan_plan.py:198-241 | the scan opens its own run and never reads sample z, never sets up or tidies the zebra, never sets the aperture and never moves the sample |
| SteppedGridScan.WaitForResults | src/artemis/experiment_plans/stepped_grid_scan_plan.py:274 | with no analysis result, the centre is the initial position and there is no box; otherwise the result's centre and box |
| SteppedGridScan.MoveXyz | src/artemis/experiment_plans/stepped_grid_scan_plan.py:155-174 | a run keyed "move_xyz" holding a single move of x, y and z together |
| SteppedGridScan.AfterScanVocabulary | src/artemis/experiment_plans/stepped_grid_scan_plan.py:274-288 | the aperture change and final move use only their own names |
| SteppedGridScan.InitialPositionReadFirst | src/artemis/experiment_plans/stepped_grid_scan_plan.py:254-261 | x, y and z are read, in that order, before the zebra is set up, and the zebra is set up before the scan |
| SteppedGridScan.NoResultReturnsToInitial | src/artemis/experiment_plans/stepped_grid_scan_plan.py:274-288 | without an analysis result the sample goes back to where it started and the aperture is left alone |
| SteppedGridScan.ApertureBeforeMove | src/artemis/experiment_plans/stepped_grid_scan_plan.py:276-288 | after any front part that neither sets the aperture nor moves, the aperture for the box is set before the sample moves to the centre |
| SteppedGridScan.EmptyBoxFails | src/artemis/experiment_plans/stepped_grid_scan_plan.py:276-280 | an empty bounding box raises IndexError before any move and closes the run as failed |
| SteppedGridScan.PassedScanShape | src/artemis/experiment_plans/stepped_grid_scan_plan.py:246-288 | once the scan passes, the plan is its set-up, the scan, the aperture change and move the result calls for, then the run's close |
| SteppedGridScan.BoxResultMovesToCentre | src/artemis/experiment_plans/stepped_grid_scan_plan.py:276-288 | with a box, the aperture for the box is set before the sample moves to the centre, and the run completes |
| SteppedGridScan.ResultMovesToCentre | src/artemis/experiment_plans/stepped_grid_scan_plan.py:274-288 | with a result the sample ends at the centre found; the aperture, if set, is set before that move |
| SteppedGridScan.TidyUpOnEveryExit | src/artemis/experiment_plans/stepped_grid_scan_plan.py:291-318 | without the composite nothing is issued (AssertionError); otherwise the zebra tidy-up runs once, last, whether the plan completed or raised |
| SteppedGridScan.RunGridscanAndMove | src/artemis/experiment_plans/stepped_grid_scan_plan.py:246-288 | the scan-and-move plan; InitialPositionReadFirst, PassedScanShape, NoResultReturnsToInitial and ResultMovesToCentre state its order and where the sample ends |
| SteppedGridScan.GetPlan | src/artemis/experiment_plans/stepped_grid_scan_plan.py:291-318 | the whole plan; TidyUpOnEveryExit states that the zebra tidy-up runs once, last, on every exit |
| FastGridScan.WithReadings | src/artemis/fast_grid_scan_plan.py:41-52 | the four readings are in the ISPyB parameters' four fields |
| FastGridScan.WithReadingsOnlyFour | src/artemis/fast_grid_scan_plan.py:41-52 | only those four fields change: putting the old values back gives the original, and a second update overrides the first |
| FastGridScan.UpdateParamsFromEpicsDevices | src/artemis/fast_grid_scan_plan.py:41-52 | four reads in order; the ISPyB parameters take the readings and the detector and grid parameters are unchanged |
| FastGridScan.PerIdEach | src/artemis/fast_grid_scan_plan.py:85-86 | one call per collection id, in order |
| FastGridScan.UpdateCallsEach | src/artemis/fast_grid_scan_plan.py:100-106 | one end-of-scan update per collection id, in order |
| FastGridScan.CallForEachId | src/artemis/fast_grid_scan_plan.py:85-86 | the loop issues one call per collection id, in order (PerId) |
| FastGridScan.RecordEnds | src/artemis/fast_grid_scan_plan.py:99-106 | one end-of-scan update call per collection id; the store's rows grow by one end row per collection, with the one end time and "DataCollection Successful" |
| FastGridScan.RecordScan | src/artemis/fast_grid_scan_plan.py:76-106 | returns the collection and group ids the scan rows are written under, one update call per collection, and the rows: the scan's rows, then the end rows at the clock's next reading |
| FastGridScan.StoreScanAndMove | src/artemis/fast_grid_scan_plan.py:76-128 | what follows the four beamline reads completes the trace of a passed plan, and the rows are the scan's rows followed by the end rows |
| FastGridScan.RunGridscan | src/artemis/fast_grid_scan_plan.py:55-128 | a failed omega check issues the opening, one read of omega and a failed close, raises AssertionError, writes no row and leaves the parameters alone; otherwise the ISPyB parameters take the readings and the plan completes with the trace and rows of the updated parameters |
| FastGridScan.GuardFailedDoesNothing | src/artemis/fast_grid_scan_plan.py:66-70 | a failed omega check stores nothing, kicks off nothing, sets and moves nothing, and closes the run as failed |
| FastGridScan.OmegaCheckBounds | src/artemis/fast_grid_scan_plan.py:66-70 | the check passes exactly when omega is within 0.1 of 0 and within 0.1 of the requested start, so that start lies within 0.2 of 0 |
| FastGridScan.StoreBeforeRunStart | src/artemis/fast_grid_scan_plan.py:83-86 | the scan is stored before any analysis starts |
| FastGridScan.ScanCallsOnlyWriter | src/artemis/fast_grid_scan_plan.py:89-97 | the scan calls nothing but the NeXus writer |
| FastGridScan.RunStartBeforeScan | src/artemis/fast_grid_scan_plan.py:85-97 | every collection's analysis starts before every step of the scan |
| FastGridScan.CompleteBeforeUpdates | src/artemis/fast_grid_scan_plan.py:91-106 | the scan completes before any collection is marked successful |
| FastGridScan.UpdatesBeforeRunEnd | src/artemis/fast_grid_scan_plan.py:100-109 | every collection is marked successful before any analysis ends |
| FastGridScan.OmegaReturnsBeforeCentring | src/artemis/fast_grid_scan_plan.py:111-128 | the plan moves no motor until its end: awaiting the result, omega back to its start, a wait for the sample motors, x, y and z to the centre together, and the run closed |
| FastGridScan.EndRecordsShared | src/artemis/fast_grid_scan_plan.py:99-106 | every collection gets the same end time and "DataCollection Successful", under its own group |
| StoreInIspyb.DigitRun | src/artemis/ispyb/store_in_ispyb.py:17 | the run of `\d` characters from an index: all digits, and the next character is not one |
| StoreInIspyb.SegmentAt | src/artemis/ispyb/store_in_ispyb.py:17 | a match of `/([a-zA-Z]{2}\d{4,5}-\d{1,3})/` from a slash gives the text between that slash and the closing one |
| StoreInIspyb.SegmentIsVisit | src/artemis/ispyb/store_in_ispyb.py:17 | whatever a segment matches is shaped like a visit: two letters, 4 or 5 digits, a dash, 1 to 3 digits |
| StoreInIspyb.LineEnd | src/artemis/ispyb/store_in_ispyb.py:17 | `.` reaches up to, and not past, the next newline |
| StoreInIspyb.GetVisitString | src/artemis/ispyb/store_in_ispyb.py:204-213 | the visit found in the ISPyB visit path when there is a non-empty one, else the visit found in the detector directory |
| StoreInIspyb.SearchSound | src/artemis/ispyb/store_in_ispyb.py:211-213 | whatever the search from an index finds is the segment of some slash after that index |
| StoreInIspyb.SearchNone | src/artemis/ispyb/store_in_ispyb.py:211-213 | a start that finds nothing leaves no segment later on its line |
| StoreInIspyb.RightmostVisit | src/artemis/ispyb/store_in_ispyb.py:17 | on a one-line path, the greedy `.+` makes the search find the rightmost visit segment, and finds one exactly when some slash after the first character starts one |
| StoreInIspyb.VisitFromPathSound | src/artemis/ispyb/store_in_ispyb.py:211-213 | a visit is found only in a path that is present; it is the segment of a slash after the first character and is visit-shaped |
| StoreInIspyb.VisitOfDataPath | src/artemis/ispyb/store_in_ispyb.py:204-213 | a concrete beamline data path gives its visit directory |
| StoreInIspyb.GetVisitStringFromPath | src/artemis/ispyb/store_in_ispyb.py:211-213 | no visit for a missing or empty path, else the search; VisitFromPathSound and RightmostVisit state what the search finds |
| StoreInIspyb.ScanRows | src/artemis/ispyb/store_in_ispyb.py:221-268 | the rows a scan writes; ScanLayout, ScanIdsDistinct and SecondCollectionShifted state their layout, ids and the second collection |
| StoreInIspyb.CollectionRecordFields | src/artemis/ispyb/store_in_ispyb.py:119-175 | a collection is recorded as a still at its omega start (one pass, no overlap, first image 1), with detector 78, suffix "h5", its group as parent, the run number, the slit gaps, the comment prefixed "Artemis: " and a file template that starts with the prefix and ends in "_master.h5" |
| StoreInIspyb.ScanLayout | src/artemis/ispyb/store_in_ispyb.py:221-268 | a 3D scan writes a group and two collections, a 2D scan a group and one; each collection has its position and its grid, and the ids returned are those rows' ids |
| StoreInIspyb.ScanIdsDistinct | src/artemis/ispyb/store_in_ispyb.py:221-247 | the two collection ids a 3D scan returns differ, and so do its two grid ids |
| StoreInIspyb.SecondCollectionShifted | src/artemis/ispyb/store_in_ispyb.py:248-251 | the second collection differs from the first only in omega start + 90, run number + 1, the omega-end snapshots, its start time and its ids |
| StoreInIspyb.EndRowsEach | src/artemis/ispyb/store_in_ispyb.py:53-59 | one end-of-scan update per collection, in order, with the shared end time and status |
| StoreInIspyb.RunStatus | src/artemis/ispyb/store_in_ispyb.py:48-51 | "DataCollection Unsuccessful" exactly when there was an exception, "DataCollection Successful" otherwise |
| StoreInIspyb.IspybStore.constructor | src/artemis/ispyb/store_in_ispyb.py:19-35 | a fresh store holds the given parameters and the experiment type of its kind, "Mesh3D" or "mesh" |
| StoreInIspyb.IspybStore.GetCurrentTimeString | src/artemis/ispyb/store_in_ispyb.py:200-202 | the clock's next reading |
| StoreInIspyb.IspybStore.StoreDataCollectionGroupTable | src/artemis/ispyb/store_in_ispyb.py:189-198 | writes the group row of the parameters and experiment type under the next id, and returns that id |
| StoreInIspyb.IspybStore.StoreDataCollectionTable | src/artemis/ispyb/store_in_ispyb.py:119-175 | reads the clock once and writes the collection row (current omega start, run number and snapshots) under the next id, which it returns |
| StoreInIspyb.IspybStore.StorePositionTable | src/artemis/ispyb/store_in_ispyb.py:177-187 | writes the position row under the collection's id |
| StoreInIspyb.IspybStore.StoreGridInfoTable | src/artemis/ispyb/store_in_ispyb.py:102-117 | writes the grid row of the collection under the next id, and returns that id |
| StoreInIspyb.IspybStore.PrepareSecondScanParams | src/artemis/ispyb/store_in_ispyb.py:248-251 | omega start + 90, run number + 1, the omega-end snapshots |
| StoreInIspyb.IspybStore.StoreCollection | src/artemis/ispyb/store_in_ispyb.py:224-230 | one collection under the group: its record, then its position, then its grid, with consecutive ids and one clock reading |
| StoreInIspyb.IspybStore.StoreGroupAndFirstCollection | src/artemis/ispyb/store_in_ispyb.py:222-230 | the group row and the first collection's rows, with three consecutive ids from the next one |
| StoreInIspyb.IspybStore.StoreSecondCollection | src/artemis/ispyb/store_in_ispyb.py:232-240 | the second collection's rows under the group, with omega start + 90, run number + 1 and the omega-end snapshots |
| StoreInIspyb.IspybStore.StoreTwoDimensionalScan | src/artemis/ispyb/store_in_ispyb.py:259-268 | the rows written are those of a 2D scan (group, then one collection) and the ids returned are those rows' ids |
| StoreInIspyb.IspybStore.StoreThreeDimensionalScan | src/artemis/ispyb/store_in_ispyb.py:221-246 | the rows written are those of a 3D scan (group, then two collections) and the ids returned are those rows' ids |
| StoreInIspyb.IspybStore.StoreScanData | src/artemis/ispyb/store_in_ispyb.py:221-268 | the store's own kind decides 2D or 3D; the rows written are that scan's rows and the ids returned are their ids |
| StoreInIspyb.IspybStore.StoreGridScan | src/artemis/ispyb/store_in_ispyb.py:66-79 | keeps the parameters, takes run number, omega start and snapshots from them, and writes that scan's rows |
| StoreInIspyb.IspybStore.Enter | src/artemis/ispyb/store_in_ispyb.py:37-45 | stores the scan of the store's own parameters, and keeps and returns its ids |
| StoreInIspyb.IspybStore.UpdateGridScanWithEndTimeAndStatus | src/artemis/ispyb/store_in_ispyb.py:85-100 | writes an end-of-scan update for the collection with the given time and status |
| StoreInIspyb.IspybStore.Exit | src/artemis/ispyb/store_in_ispyb.py:47-59 | one clock reading, then every kept collection updated with it and the status the exception calls for |
| SetupPanda.Trunc | src/hyperion/device_setup_plans/setup_panda.py:96-108 | numpy's float-to-int32 conversion truncates toward 0: the result lies within 1 of the value, on the side of 0 |
| SetupPanda.TruncMonotone | src/hyperion/device_setup_plans/setup_panda.py:96-108 | truncation keeps order |
| SetupPanda.FlyscanTable | src/hyperion/device_setup_plans/setup_panda.py:86-123 | the fly scan's sequencer table; every position in it fits in 32 bits |
| SetupPanda.FlyscanTableShape | src/hyperion/device_setup_plans/setup_panda.py:86-123 | every column has six rows, each row repeats once with time1 0 and time2 1, outputs b to f stay off, and output a is the same in both phases |
| SetupPanda.FlyscanTableMirrored | src/hyperion/device_setup_plans/setup_panda.py:88-106 | the return sweep mirrors the outward one: rows 4 to 6 are rows 1 to 3 with greater-than turned into less-than and the two positions swapped |
| SetupPanda.FlyscanSignalWindow | src/hyperion/device_setup_plans/setup_panda.py:88-117 | output a is on exactly in the rows that follow a physical-trigger row (the start of each sweep's step window) |
| SetupPanda.FlyscanPositions | src/hyperion/device_setup_plans/setup_panda.py:96-108 | the step-window positions are within 1 count of the start and step end in encoder counts (truncation); for a non-negative step the outward window opens before it closes and the return window mirrors it |
| SetupPanda.ArmEnables | src/hyperion/device_setup_plans/setup_panda.py:143-148 | arming leaves the sequencer and pulse block at "ONE" and touches nothing else |
| SetupPanda.DisarmDisables | src/hyperion/device_setup_plans/setup_panda.py:151-160 | disarming leaves the sequencer, clock and pulse block at "ZERO" and touches nothing else |
| SetupPanda.DisarmUndoesArm | src/hyperion/device_setup_plans/setup_panda.py:143-160 | whatever the groups, disarming after arming leaves every block the arm enabled disabled |
| SetupPanda.ArmWaitsForItsSets | src/hyperion/device_setup_plans/setup_panda.py:143-148 | the arm's sets are awaited by a wait on their own group exactly when the group is the default one or `wait` is set |
| SetupPanda.SetupThenArmed | src/hyperion/device_setup_plans/setup_panda.py:18-127 | setting up homes the encoder at the initial X in counts, writes the table just before enabling the sequencer, ends with a wait on the arm group, and leaves the sequencer and pulse block enabled |
| SetupPanda.ArmPandaForGridscan | src/hyperion/device_setup_plans/setup_panda.py:143-148 | the arming messages; ArmEnables and ArmWaitsForItsSets state what they enable and when they are awaited |
| SetupPanda.DisarmPandaForGridscan | src/hyperion/device_setup_plans/setup_panda.py:151-160 | the disarming messages; DisarmDisables and DisarmUndoesArm state what they disable |
| SetupPanda.SetupPandaForFlyscan | src/hyperion/device_setup_plans/setup_panda.py:18-127 | the set-up messages; SetupThenArmed states their order and FlyscanTable the table written |
| ReadHardware.BundleDocs | src/hyperion/device_setup_plans/read_hardware_for_setup.py:25-32 | a bundle gives a descriptor named by its create, and an event that points at that descriptor |
| ReadHardware.ProducersAreBundles | src/hyperion/device_setup_plans/read_hardware_for_setup.py:17-42 | both producers emit well-formed bundles under distinct names |
| ReadHardware.PreCollectionEvent | src/hyperion/device_setup_plans/read_hardware_for_setup.py:17-32 | the pre-collection event holds exactly the undulator gap, machine mode and the two slit gaps |
| ReadHardware.DuringCollectionEvent | src/hyperion/device_setup_plans/read_hardware_for_setup.py:35-42 | the during-collection event holds exactly the transmission and the flux |
| ReadHardware.PreCollection | src/hyperion/device_setup_plans/read_hardware_for_setup.py:17-32 | the pre-collection bundle; ProducersAreBundles and PreCollectionEvent state its shape and what its event holds |
| ReadHardware.DuringCollection | src/hyperion/device_setup_plans/read_hardware_for_setup.py:35-42 | the during-collection bundle; ProducersAreBundles and DuringCollectionEvent state its shape and what its event holds |
| Log.StampedTagMeaning | src/hyperion/log.py:25-28 | a truthy id always ends up on the record; a falsy one (None after the tag is cleared) leaves the record's tag as it was; stamping twice is stamping once |
| Log.DcgidFilter.constructor | src/hyperion/log.py:22-31 | the filter starts without a group id |
| Log.DcgidFilter.Filter | src/hyperion/log.py:25-28 | the filter never drops a record, and stamps it as StampedTag says |
| Log.DcgidFilter.SetDcgidTag | src/hyperion/log.py:34-37 | the filter's id becomes the given one, so Filter stamps later records with it; None clears it |
| Log.LoggingDirectory | src/hyperion/log.py:73 | HYPERION_LOG_DIR when it is set and non-empty, "./tmp/dev/" otherwise |
| Log.LoggingFilePath | src/hyperion/log.py:63-75 | the directory is the one LoggingDirectory chooses (never empty) and the file name is the given one |
| IspybCallback.FinalizeAfterFirst | src/hyperion/external_interaction/callbacks/ispyb_callback_base.py:47-49 | from no uid, a series of start documents leaves the first uid any of them carries |
| IspybCallback.ExitStatusOf | src/hyperion/external_interaction/callbacks/ispyb_callback_base.py:96-98 | the stop document's status when it has a non-empty one, the placeholder otherwise; never empty |
| IspybCallback.ReasonOf | src/hyperion/external_interaction/callbacks/ispyb_callback_base.py:99 | the reason, or "" when it is missing or empty |
| IspybCallback.CommentOutcomeSwallowsOnlyTypeError | src/hyperion/external_interaction/callbacks/ispyb_callback_base.py:109-116 | appending a comment completes exactly when the call succeeds or fails with a TypeError; any other failure propagates unchanged |
| IspybCallback.IspybCallbackBase.constructor | src/hyperion/external_interaction/callbacks/ispyb_callback_base.py:28-45 | no parameters, no descriptors, no uid to finish on, empty ids, no calls |
| IspybCallback.IspybCallbackBase.ActivityGatedStart | src/hyperion/external_interaction/callbacks/ispyb_callback_base.py:47-49 | the first start's uid becomes the one to finish on; later starts leave it |
| IspybCallback.IspybCallbackBase.ActivityGatedDescriptor | src/hyperion/external_interaction/callbacks/ispyb_callback_base.py:51-52 | caches the descriptor under its uid, replacing any earlier one |
| IspybCallback.IspybCallbackBase.ActivityGatedEvent | src/hyperion/external_interaction/callbacks/ispyb_callback_base.py:54-87 | the parameters and outcome are those EventStep gives; when a deposition begins, one begin call is made and the new ids are kept, otherwise the ids stay |
| IspybCallback.IspybCallbackBase.ActivityGatedStop | src/hyperion/external_interaction/callbacks/ispyb_callback_base.py:89-107 | clears the log's group id, ends the deposition with the stop document's status and reason, and always completes |
| IspybCallback.IspybCallbackBase.AppendComment | src/hyperion/external_interaction/callbacks/ispyb_callback_base.py:109-116 | asks the deposition to append the comment; the outcome is CommentOutcome |
| IspybCallback.HardwareEventCopiesReadings | src/hyperion/external_interaction/callbacks/ispyb_callback_base.py:63-75 | the pre-collection bundle's event copies its four readings into the parameters and begins nothing |
| IspybCallback.FluxEventBeginsDeposition | src/hyperion/external_interaction/callbacks/ispyb_callback_base.py:77-87 | the during-collection bundle's event copies the transmission and flux and begins the deposition |
| IspybCallback.BeginsOnlyOnFluxEvent | src/hyperion/external_interaction/callbacks/ispyb_callback_base.py:54-87 | a deposition begins exactly on a transmission-and-flux event holding both readings with parameters present, and then the event completes having copied the two readings |
| IspybCallback.UnknownDescriptorRaises | src/hyperion/external_interaction/callbacks/ispyb_callback_base.py:60 | an event of an uncached descriptor raises KeyError for it and changes nothing |
| IspybCallback.OtherEventsIgnored | src/hyperion/external_interaction/callbacks/ispyb_callback_base.py:63-87 | an event of any other bundle completes and changes nothing |
| IspybCallback.EventWritesOnlyItsFields | src/hyperion/external_interaction/callbacks/ispyb_callback_base.py:63-87 | an event keeps the parameters present; transmission and flux change only on a transmission-and-flux event, the four beamline fields only on a hardware event |
| IspybCallback.StopStatusNeverEmpty | src/hyperion/external_interaction/callbacks/ispyb_callback_base.py:96-98 | a stop ends the deposition with a non-empty status, which is the placeholder exactly when the document's status is missing, empty or the placeholder itself |
| IspybCallback.EventStep | src/hyperion/external_interaction/callbacks/ispyb_callback_base.py:54-87 | one event of the ISPyB callback; HardwareEventCopiesReadings, FluxEventBeginsDeposition, BeginsOnlyOnFluxEvent, UnknownDescriptorRaises, OtherEventsIgnored and EventWritesOnlyItsFields state its effect |
| IspybCallback.CommentOutcome | src/hyperion/external_interaction/callbacks/ispyb_callback_base.py:109-116 | how appending a comment ends; CommentOutcomeSwallowsOnlyTypeError states that only a TypeError is swallowed |
| OavSnapshot.Get | src/hyperion/external_interaction/callbacks/oav_snapshot_callback.py:15-22 | the reading under the key, None when the event has none |
| OavSnapshot.RowsFollowEvents | src/hyperion/external_interaction/callbacks/oav_snapshot_callback.py:10-23 | row i of each list comes from event i: the three paths and the top-left corner |
| OavSnapshot.OavSnapshotCallback.constructor | src/hyperion/external_interaction/callbacks/oav_snapshot_callback.py:5-8 | both lists start empty |
| OavSnapshot.OavSnapshotCallback.Event | src/hyperion/external_interaction/callbacks/oav_snapshot_callback.py:10-23 | appends the event's three paths and its corner, keeping one row per event seen |
| GridDetect.LoadedPositions | src/hyperion/experiment_plans/grid_detect_then_xray_centre_plan.py:80-84 | the positions the scatterguard already has, else the defaults |
| GridDetect.Composite.constructor | src/hyperion/experiment_plans/grid_detect_then_xray_centre_plan.py:61-84 | creating the composite loads the default aperture positions when the scatterguard has none |
| GridDetect.Eiger.SetDetectorParameters | src/hyperion/experiment_plans/grid_detect_then_xray_centre_plan.py:210 | the detector holds the given parameters |
| GridDetect.SnapshotNames | src/hyperion/experiment_plans/grid_detect_then_xray_centre_plan.py:111-113 | each snapshot is named `<prefix>_<run number>_<angle>` |
| GridDetect.CreateParametersForFlyscan | src/hyperion/experiment_plans/grid_detect_then_xray_centre_plan.py:91-99 | the gridscan parameters are constructed from the input's dictionary with the experiment parameters replaced by the grid, and whatever else the construction derives, they hold the grid as their experiment parameters |
| GridDetect.DetectedIspybFields | src/hyperion/experiment_plans/grid_detect_then_xray_centre_plan.py:148-160 | IndexError exactly when fewer than two events were seen; otherwise the omega-start snapshots are event 0's full-overlay, outer and saved paths (the collected row reversed), the omega-end ones those of event 1, and the corner is [x of event 0, y of event 0, y of event 1] |
| GridDetect.DetectTraceOrder | src/hyperion/experiment_plans/grid_detect_then_xray_centre_plan.py:142-196 | four messages: the detection, then backlight out, then the aperture to its small position, then the flyscan, which is called nowhere earlier |
| GridDetect.DetectTrace | src/hyperion/experiment_plans/grid_detect_then_xray_centre_plan.py:142-196 | the plan's messages once detection succeeded; DetectTraceOrder states their order |
| GridDetect.DetectedIspyb | src/hyperion/experiment_plans/grid_detect_then_xray_centre_plan.py:148-160 | the ISPyB fields the detection gives, or IndexError; DetectedIspybFields states each field |
| GridDetect.FlyscanIgnoresEdgeDetectExperiment | src/hyperion/experiment_plans/grid_detect_then_xray_centre_plan.py:91-99 | the flyscan parameters do not depend on the edge-detect experiment parameters, and different grids give different flyscan parameters |
| GridDetect.CollectSnapshots | src/hyperion/experiment_plans/grid_detect_then_xray_centre_plan.py:115-146 | the collector fed the detection's events holds one snapshot row and one corner row per event, in order |
| GridDetect.DetectGridAndDoGridscan | src/hyperion/experiment_plans/grid_detect_then_xray_centre_plan.py:102-196 | AssertionError and nothing issued without aperture positions; IndexError after the detection with fewer than two events, the parameters untouched; otherwise the ISPyB fields are replaced in place as DetectedIspyb says, the trace is DetectTrace and the flyscan gets the parameters constructed from the updated ones with the grid |
| GridDetect.GridDetectThenXrayCentre | src/hyperion/experiment_plans/grid_detect_then_xray_centre_plan.py:199-225 | the detector holds the parameters' detector settings; the plan opens with the detector preparation for their distance, and when it completes the rest is DetectTrace and the flyscan gets the parameters constructed from the updated ones with the grid |
| Context.FindDeviceInContext | src/hyperion/utils/context.py:28-43 | success gives the context's own device under the name |
| Context.FindDeviceMeaning | src/hyperion/utils/context.py:28-43 | the lookup succeeds exactly when the name is present with the expected type; every failure is a ValueError |
| Context.CompositeSucceedsIffEveryLookup | src/hyperion/utils/context.py:46-72 | the composite is built exactly when every field's lookup succeeds |
| Context.CompositeBindsEveryField | src/hyperion/utils/context.py:58-72 | a built composite binds each field, and only the fields, to the context's device of that name, which has the field's type |
| Context.FirstFailingFieldAborts | src/hyperion/utils/context.py:61-64 | a failed composite fails with the error of the first field whose lookup fails |
| Context.CompositeFailurePersists | src/hyperion/utils/context.py:61-70 | once a prefix of the fields fails, every longer prefix fails the same way |
| Context.DeviceCompositeFromContext | src/hyperion/utils/context.py:46-72 | the loop gives CompositeDevices; the devices waited on are the context's devices of the fields so far, all of them exactly on success; on failure, exactly those of the fields before the first one whose lookup fails, with that lookup's error |
| Context.CompositeDevices | src/hyperion/utils/context.py:46-72 | the composite or the first failing lookup's error; CompositeSucceedsIffEveryLookup, CompositeBindsEveryField and FirstFailingFieldAborts state its meaning |
| InternalParameters.FlattenDictLoop | src/artemis/parameters/internal_parameters/internal_parameters.py:60-71 | the loop with its recursion gives FlattenDict |
| InternalParameters.FlattenDict | src/artemis/parameters/internal_parameters/internal_parameters.py:60-71 | a successful flattening as written holds exactly the leaves from any depth, a later leaf replacing an earlier one of the same key; a failed one raises "Duplicate keys" naming a leaf key that is among the caller's items or occurs at least twice among the leaf keys |
| InternalParameters.FlattenChecked | src/artemis/parameters/internal_parameters/internal_parameters.py:60-71 | the corrected flattening of a whole dictionary succeeds exactly when no leaf key repeats at any depth, and then holds exactly the leaves |
| InternalParameters.FlattenKeys | src/artemis/parameters/internal_parameters/internal_parameters.py:60-71 | a successful flattening as written holds the starting items' keys and the leaf keys from any depth, nothing else |
| InternalParameters.FlattenValues | src/artemis/parameters/internal_parameters/internal_parameters.py:60-71 | a successful flattening as written holds the starting items updated with each leaf's value under its key, a later leaf replacing an earlier one |
| InternalParameters.SameLevelDuplicatesRaise | src/artemis/parameters/internal_parameters/internal_parameters.py:68-69 | flatten_dict raises whenever a leaf of the top level repeats a key of the caller's items or a leaf key, at any depth, of the entries before it |
| InternalParameters.RepeatedLeafRaises | src/artemis/parameters/internal_parameters/internal_parameters.py:63-69 | the loop raises once a leaf's key is among the caller's items, this level's items or the leaf keys of the entries before it, whatever lies in between |
| InternalParameters.FlattenLoopRaisesOnRepeats | src/artemis/parameters/internal_parameters/internal_parameters.py:63-70 | the loop raises only with "Duplicate keys" naming a leaf key that is among the caller's items, this level's items, or occurs at least twice among the leaf keys |
| InternalParameters.FlattenLoopAgreesWithChecked | src/artemis/parameters/internal_parameters/internal_parameters.py:63-70 | where the checked loop succeeds, the loop as written gives the same result, even against a subset of the caller's items |
| InternalParameters.DistinctLeavesAccepted | src/artemis/parameters/internal_parameters/internal_parameters.py:60-71 | a dictionary whose leaf keys are distinct at any depth is accepted by flatten_dict as written, with the checked flattening's result |
| InternalParameters.NestedDuplicateAccepted | src/artemis/parameters/internal_parameters/internal_parameters.py:60-71 | as written, {"a":1,"s":{"t":{"a":2}}} is accepted and flattens to {"a":2} |
| InternalParameters.FlattenCheckedExact | src/artemis/parameters/internal_parameters/internal_parameters.py:60-71 | the corrected flattening succeeds exactly when no leaf key repeats at any depth nor repeats a key already seen, and then adds exactly the leaf keys |
| InternalParameters.FlattenCheckedValues | src/artemis/parameters/internal_parameters/internal_parameters.py:60-71 | a successful corrected flattening holds each leaf's value under its key |
| InternalParameters.NestedDuplicateRejected | src/artemis/parameters/internal_parameters/internal_parameters.py:60-71 | the corrected flattening rejects {"a":1,"s":{"t":{"a":2}}} |
| InternalParameters.FetchSubdict | src/artemis/parameters/internal_parameters/internal_parameters.py:93-100 | a key is in the result exactly when it is listed and the bucket holds a non-None value for it, with that value |
| InternalParameters.KeyDefinitions | src/artemis/parameters/internal_parameters/internal_parameters.py:137-149 | the four artemis keys; the detector fields followed by "detector"; the ISPyB fields |
| InternalParameters.ToPoint3D | src/artemis/parameters/internal_parameters/internal_parameters.py:168 | `Point3D(*position)` succeeds exactly on an iterable of three elements (a list, a point or a three-character string) and gives the point of those elements; anything else raises TypeError |
| InternalParameters.PreprocessOutcome | src/artemis/parameters/internal_parameters/internal_parameters.py:156-168 | the preprocessing completes exactly when the position is there and spreads into a point; a missing position raises KeyError("position"), a bad one TypeError |
| InternalParameters.ParamBucket.ArtemisParamPreprocessing | src/artemis/parameters/internal_parameters/internal_parameters.py:156-168 | always stores num_images; makes position a point when it spreads into one (ToPoint3D), raising KeyError("position") when it is missing and TypeError when it does not spread; the bucket becomes PreprocessedBucket and the outcome is PreprocessOutcome |
| InternalParameters.PreprocessingChangesTwoKeys | src/artemis/parameters/internal_parameters/internal_parameters.py:156-168 | preprocessing adds num_images with the count and changes no key but num_images and position; when it completes and position was a list, that list had three values and position becomes their point |
| InternalParameters.NewInternalParameters | src/artemis/parameters/internal_parameters/internal_parameters.py:89-129 | the steps of `__init__`, flattening with flatten_dict as written, give BuildParameters |
| InternalParameters.BuildParameters | src/artemis/parameters/internal_parameters/internal_parameters.py:89-129 | `__init__` succeeds exactly when flatten_dict as written accepts the input and the preprocessing of its leaves completes, the pydantic constructions being taken to succeed; the result keeps the subclass and takes the experiment parameters from the leaves |
| InternalParameters.BuiltParametersShareOutBucket | src/artemis/parameters/internal_parameters/internal_parameters.py:89-129 | when the build succeeds, the experiment parameters are fetched from the leaves flatten_dict gives, before preprocessing; the detector parameters see num_images as the count and the ISPyB parameters position as a point; the detector parameters hold only annotated keys and "detector" |
| InternalParameters.ArtemisEq | src/artemis/parameters/internal_parameters/internal_parameters.py:42-57 | artemis parameters are equal exactly when all six fields are; a non-instance gives NotImplemented |
| InternalParameters.InternalEq | src/artemis/parameters/internal_parameters/internal_parameters.py:177-184 | internal parameters are equal exactly when their artemis and experiment parameters are; a non-instance gives NotImplemented |
| InternalParameters.InternalEqIgnoresKind | src/artemis/parameters/internal_parameters/internal_parameters.py:177-184 | equality ignores the subclass: parameters that compare equal still do with the other's kind, and are the same value when their kinds agree |

## Left out

- I/O, clocks, the database, the analysis service and the hardware are inputs. The model takes the readings, ids, clock values and analysis results as parameters.
- The run engine is left out: each plan is the sequence of messages it yields, with the outcome it ends in. The subscribe and unsubscribe messages of `bpp.subs_decorator` (src/hyperion/experiment_plans/grid_detect_then_xray_centre_plan.py:122) are not in the traces; GridDetect.DetectionCall folds the subscribed detection into one call message.
- The database's own id allocation is modelled as consecutive ids from a given first id. `retrieve_visit_id` is not part of this model; the visit string it is given is.
- ScanIdsDistinct: the model draws group, collection and grid ids from one counter, so they never coincide across kinds. In the database each table allocates its own ids, so a group id may equal a collection or grid id; the lemma promises distinctness only within the collection ids and within the grid ids.
- `get_beam_position_mm` and `grid_position_to_motor_position` are devices outside this model. Their results are inputs.
- The NeXus writer, `run_start`, `run_end` and `wait_for_result` are messages (calls) of the plan. What they do is not part of this model.
- The bundle-name constants (`ISPYB_HARDWARE_READ_PLAN` and the transmission-and-flux plan name) live in a constants file that is not part of this model. The model uses two placeholder names; only their distinctness matters.
- Floating-point rounding is not modelled: positions and times are `real`. Python's `int()` and numpy's int32 cast are modelled as truncation toward 0.
- SetupPanda.FlyscanTable and SetupPanda.SetupPandaForFlyscan (with SetupThenArmed and the table lemmas): require the positions to fit in 32 bits, because numpy's wrap-around for out-of-range int32 values is not modelled.
- The visit regex uses ASCII digits only for `\d`. Python also accepts other Unicode digits there.
- Device failures, `wait_for_connection` time-outs and device creation are left out. A composite's lookups are modelled; connecting is recorded as the list of devices waited on.
- `load_default_aperture_scatterguard_positions_if_unset` is modelled by its name: defaults are loaded when the positions are unset.
- `start_preparing_data_collection_then_do_plan` is one call message followed by the inner plan. Its own moves are in a utilities file that is not part of this model.
- `grid_detection_plan` and `flyscan_xray_centre` are call messages. The OAV events they emit and the grid the detection callback derives are inputs.
- The GridDetectionCallback is not part of this model.
- `experiment_param_preprocessing` is a no-op in the base class and is modelled as none.
- The experiment parameters' `get_num_images` is an input. The annotation lists of DetectorParams, IspybParams and the experiment class are inputs too.
- BuildParameters: the pydantic constructions `self.experiment_params_type(**experiment_field_args)` and `ArtemisParameters(**artemis_params_args)` are modelled as keeping the fields they are given, and are taken to succeed. Their validation errors are not modelled, so `__init__` can raise in more cases than the model's failure side names.
- NewInternalParameters: as for BuildParameters, the pydantic constructions are taken to succeed.
- TopUp.WaitForTopupComplete: the poll has no time-out. A countdown that stays at 0 makes the source poll for ever; the model covers only runs in which the countdown leaves 0 (EventuallyNonZero).
- TopUp.WaitOutTopup: covers only runs in which a 0 start countdown later leaves 0, for the same reason as WaitForTopupComplete.
- TopUp.CheckTopupAndWaitIfNecessary: covers only runs in which a 0 start countdown later leaves 0 (ReadingsSuffice), for the same reason as WaitForTopupComplete.
- CreateParametersForFlyscan: the pydantic construction of the gridscan parameters is an input function. The model promises only that it keeps the grid as the experiment parameters. Which detector fields it derives from the grid (the trigger and image counts, for one) and whether the rest of the shared parameters survive it are not modelled.
- ToPoint3D: a dictionary position is not modelled, because a value in this model is never a dictionary. Python would spread a three-key dictionary's keys into a point.
- `isinstance` against a device type is modelled as membership of the type's name in the device's type set. The error message names the class by that name, not by Python's type repr.
- `doc.get("data")` returning None in the OAV snapshot callback is not modelled: an event always has its data map.
- Python's fallback after `NotImplemented` (identity comparison) is not modelled. The result is reported as NotImplemented.
- The ISPyB callback's `self.ispyb` is taken as always set. The asserts on it are not modelled, because the subclasses that set it are not part of this model.
- The log handlers, the path join and the `mkdir` of the log directory are left out. The file path is returned as (directory, file name).
- The guards of `make_scin_safe` and `put_bs_in` (src/artemis/UDC_move_to_default_state.py:52 and :59) each have one closing parenthesis too many, so the module does not parse as written. The model follows the evident grouping: `y < 0.016 and z < 0.1`, and `z > 25 and y > 25`.
- The module src/artemis/experiment_plans/stepped_grid_scan_plan.py does not parse as written: a logging line is spliced into line 201 (the type of `fgs_composite`) and into line 231 (the list given to `stage_decorator`). The model follows the evident reading: the type is `SteppedGridScanComposite`, and the scan stages `fgs_composite.eiger`.
- `print` in the UDC checks is modelled as a list of warnings. The module-level device creation and `RE(...)` call are left out.
- Logging (LOGGER calls) and tracing spans are left out. They issue no messages.

## Findings

| source | as written | input that shows it | evidently intended | confidence | as-written member | corrected member |
|---|---|---|---|---|---|---|
| src/artemis/UDC_move_to_default_state.py:52 | `scin.z < 0.1` is strict, but the parked position the function moves to is z = 0.1 (the line also has one `)` more than `(`, as does line 59; the model follows the evident grouping `(y < 0.016) and (z < 0.1)`) | a stick already at y 0.015, z 0.1: the guard fails and both move batches are issued again | the parked position counts as safe (`z <= 0.1`), so make_scin_safe is idempotent | not executed | DefaultState.ScinParkedMovedAgainAsWritten | DefaultState.MakeScinSafeIdempotent |
| src/artemis/parameters/internal_parameters/internal_parameters.py:65 | a sub-dictionary is flattened with this level's items only as its parent, and merged with `update` without a check | {"a": 1, "s": {"t": {"a": 2}}} flattens to {"a": 2} with no error | every key unique at any depth ("assuming all keys are unique"), so the nested "a" raises "Duplicate keys" | not executed | InternalParameters.NestedDuplicateAccepted | InternalParameters.FlattenCheckedExact |

/** The fast grid scan: check that omega starts at 0, read the beamline state
    into the ISPyB parameters, record the scan in ISPyB, start the analysis of
    every collection, run the scan with the zebra, the Eiger and the scan
    device staged inside the NeXus writer, record the end of every collection,
    end the analyses, then return omega to its start and move the sample to
    the X-ray centre found. */
module FastGridScan {
  import opened Wrappers
  import opened Plans
  import opened StoreInIspyb

  /** The devices, signals, runs and calls of the plan. `SampleMotors` is the
      motor group waited on; `RunStart`, `RunEnd` and `WaitForResult` are the
      analysis service's calls, `StoreGridScan` and `UpdateGridScan` the
      database's, `NexusWriterOpen`/`NexusWriterClose` the NeXus writer
      context. */
  datatype Name =
    | Omega | SampleX | SampleY | SampleZ | SampleMotors
    | UndulatorGap | SynchrotronMode | SlitXGap | SlitYGap
    | Zebra | Eiger | Fgs | GridscanRun | SetFastGridScanParams
    | StoreGridScan | UpdateGridScan | RunStart | RunEnd | WaitForResult
    | NexusWriterOpen | NexusWriterClose

  /** How close to 0 (and to the requested omega start) omega must be. */
  const OMEGA_TOLERANCE: real := 0.1

  function Abs(x: real): real
  {
    if x < 0.0 then -x else x
  }

  /** The plan may start: omega is within the tolerance of its requested start
      and of 0. */
  predicate OmegaOk(omega: real, omegaStart: real)
  {
    Abs(omega - omegaStart) < OMEGA_TOLERANCE && Abs(omega) < OMEGA_TOLERANCE
  }

  /** `bps.rd` with `default_value=0`: an unread omega counts as 0. */
  function OmegaOrDefault(reading: Option<real>): real
  {
    if reading.None? then 0.0 else reading.value
  }

  // ---------------------------------------------------------------------------
  // The parameters and the beamline reads
  // ---------------------------------------------------------------------------

  /** The values the plan reads into the ISPyB parameters. */
  datatype Readings = Readings(undulatorGap: real, synchrotronMode: string, slitXGap: real, slitYGap: real)

  const EPICS_READS: seq<Msg<Name>> := [Read(UndulatorGap), Read(SynchrotronMode), Read(SlitXGap), Read(SlitYGap)]

  /** The ISPyB parameters with the readings in their four fields. */
  function WithReadings(ispyb: IspybParams, r: Readings): (q: IspybParams)
    ensures q.undulatorGap == r.undulatorGap && q.synchrotronMode == r.synchrotronMode
    ensures q.slitGapSizeX == r.slitXGap && q.slitGapSizeY == r.slitYGap
  {
    ispyb.(undulatorGap := r.undulatorGap, synchrotronMode := r.synchrotronMode,
           slitGapSizeX := r.slitXGap, slitGapSizeY := r.slitYGap)
  }

  /** Only the four fields read change: putting their old values back gives the
      old parameters, and reading twice is reading once. */
  lemma WithReadingsOnlyFour(ispyb: IspybParams, r: Readings, s: Readings)
    ensures WithReadings(ispyb, r).(undulatorGap := ispyb.undulatorGap, synchrotronMode := ispyb.synchrotronMode,
                                    slitGapSizeX := ispyb.slitGapSizeX, slitGapSizeY := ispyb.slitGapSizeY) == ispyb
    ensures WithReadings(WithReadings(ispyb, s), r) == WithReadings(ispyb, r)
  {
  }

  /** The plan's parameter object, which it updates in place. */
  class Parameters {
    var ispyb: IspybParams
    var detector: DetectorParams
    var grid: GridScanParams

    constructor(p: FullParameters)
      ensures Value() == p
    {
      ispyb := p.ispyb;
      detector := p.detector;
      grid := p.grid;
    }

    function Value(): FullParameters
      reads this
    {
      FullParameters(ispyb, detector, grid)
    }
  }

  /** `update_params_from_epics_devices`: reads the undulator gap, the machine
      mode and the two slit gaps, in that order, into the ISPyB parameters. */
  method UpdateParamsFromEpicsDevices(parameters: Parameters, r: Readings) returns (trace: seq<Msg<Name>>)
    modifies parameters
    ensures trace == EPICS_READS
    ensures parameters.ispyb == WithReadings(old(parameters.ispyb), r)
    ensures parameters.detector == old(parameters.detector) && parameters.grid == old(parameters.grid)
  {
    trace := [Read(UndulatorGap)];
    parameters.ispyb := parameters.ispyb.(undulatorGap := r.undulatorGap);
    trace := trace + [Read(SynchrotronMode)];
    parameters.ispyb := parameters.ispyb.(synchrotronMode := r.synchrotronMode);
    trace := trace + [Read(SlitXGap)];
    parameters.ispyb := parameters.ispyb.(slitGapSizeX := r.slitXGap);
    trace := trace + [Read(SlitYGap)];
    parameters.ispyb := parameters.ispyb.(slitGapSizeY := r.slitYGap);
  }

  // ---------------------------------------------------------------------------
  // The trace of the plan
  // ---------------------------------------------------------------------------

  /** One call of `name` per collection id, in order. */
  function PerId(name: Name, ids: seq<int>): seq<Msg<Name>>
  {
    if ids == [] then []
    else PerId(name, ids[..|ids| - 1]) + [Call(name, [Int(ids[|ids| - 1])])]
  }

  lemma {:induction false} PerIdEach(name: Name, ids: seq<int>)
    ensures |PerId(name, ids)| == |ids|
    ensures forall i :: 0 <= i < |ids| ==> PerId(name, ids)[i] == Call(name, [Int(ids[i])])
  {
    if ids != [] {
      PerIdEach(name, ids[..|ids| - 1]);
    }
  }

  /** The end-of-scan update of one collection, as a call of the plan. */
  function UpdateCall(id: int): Msg<Name>
  {
    Call(UpdateGridScan, [Int(id), Str(RUN_SUCCESSFUL)])
  }

  function UpdateCalls(ids: seq<int>): seq<Msg<Name>>
  {
    if ids == [] then [] else UpdateCalls(ids[..|ids| - 1]) + [UpdateCall(ids[|ids| - 1])]
  }

  lemma {:induction false} UpdateCallsEach(ids: seq<int>)
    ensures |UpdateCalls(ids)| == |ids|
    ensures forall i :: 0 <= i < |ids| ==> UpdateCalls(ids)[i] == UpdateCall(ids[i])
  {
    if ids != [] {
      UpdateCallsEach(ids[..|ids| - 1]);
    }
  }

  const GRIDSCAN_OPEN: Msg<Name> := OpenRun(GridscanRun, map[])

  /** The scan proper: grid parameters set, then inside the NeXus writer the
      zebra, the Eiger and the scan device staged, the scan kicked off and
      waited for, and the devices unstaged in reverse order. */
  const DO_FGS: seq<Msg<Name>> :=
    [SubPlan(SetFastGridScanParams), Call(NexusWriterOpen, []),
     Stage(Zebra), Stage(Eiger), Stage(Fgs), Kickoff(Fgs), Complete(Fgs),
     Unstage(Fgs), Unstage(Eiger), Unstage(Zebra), Call(NexusWriterClose, [])]

  /** The first two messages: the run opened, omega read. */
  const OPENING: seq<Msg<Name>> := [GRIDSCAN_OPEN, Read(Omega)]

  /** The end of the plan: the analysis result awaited for the group, omega
      back to its start, a wait for the sample motors, then x, y and z to the
      centre together, and the run closed. */
  function Closing(omegaStart: real, groupId: int, centre: Point3): seq<Msg<Name>>
  {
    [Call(WaitForResult, [Int(groupId)]), Mv([(Omega, omegaStart)]), Wait(Some("sample_motors"), None),
     Mv([(SampleX, centre.x), (SampleY, centre.y), (SampleZ, centre.z)]), CloseRun(GridscanRun, true)]
  }

  /** What follows the beamline reads: the scan stored, the analyses
      started, the scan, the collections marked successful, the analyses
      ended, then the closing moves. */
  function FgsRest(omegaStart: real, dcIds: seq<int>, groupId: int, centre: Point3): seq<Msg<Name>>
  {
    [Call(StoreGridScan, [])] + (PerId(RunStart, dcIds) + (DO_FGS + (UpdateCalls(dcIds) +
      (PerId(RunEnd, dcIds) + Closing(omegaStart, groupId, centre)))))
  }

  /** The messages and calls of a plan whose omega check passed. */
  function FgsTrace(omegaStart: real, dcIds: seq<int>, groupId: int, centre: Point3): seq<Msg<Name>>
  {
    OPENING + (EPICS_READS + FgsRest(omegaStart, dcIds, groupId, centre))
  }

  /** The trace of a plan whose omega check passed, for its parameters, the
      database's next id and the centre the analysis finds. */
  function GridscanTrace(p: FullParameters, firstId: int, xrayCentre: int -> Point3): seq<Msg<Name>>
  {
    var ids := ScanIds(p.grid.is3dGridScan, firstId);
    FgsTrace(p.detector.omegaStart, ids.0, ids.2, xrayCentre(ids.2))
  }

  /** The rows a plan whose omega check passed leaves in the database: the
      scan's rows, then the end of every collection at the clock's next
      reading. */
  function GridscanRows(p: FullParameters, firstId: int, clock: nat -> string): seq<Row>
  {
    var ids := ScanIds(p.grid.is3dGridScan, firstId);
    ScanRows(p, p.grid.is3dGridScan, firstId, clock, 0) + EndRows(ids.0, ids.2, clock(|ids.0|), RUN_SUCCESSFUL)
  }

  /** The messages of a plan whose omega check failed. */
  const GUARD_FAILED: seq<Msg<Name>> := [GRIDSCAN_OPEN, Read(Omega), CloseRun(GridscanRun, false)]

  // ---------------------------------------------------------------------------
  // The plan
  // ---------------------------------------------------------------------------

  /** A loop over the collection ids issuing one call of `name` for each. */
  method CallForEachId(name: Name, ids: seq<int>) returns (calls: seq<Msg<Name>>)
    ensures calls == PerId(name, ids)
  {
    calls := [];
    var i := 0;
    while i < |ids|
      invariant 0 <= i <= |ids|
      invariant calls == PerId(name, ids[..i])
    {
      assert ids[..i + 1][..i] == ids[..i];
      calls := calls + [Call(name, [Int(ids[i])])];
      i := i + 1;
    }
    assert ids[..i] == ids;
  }

  /** The loop marking every collection successful at one end time. */
  method RecordEnds(ispyb: IspybStore, currentTime: string, ids: seq<int>, groupId: int) returns (calls: seq<Msg<Name>>)
    modifies ispyb`rows
    ensures calls == UpdateCalls(ids)
    ensures ispyb.rows == old(ispyb.rows) + EndRows(ids, groupId, currentTime, RUN_SUCCESSFUL)
  {
    calls := [];
    var i := 0;
    while i < |ids|
      invariant 0 <= i <= |ids|
      invariant calls == UpdateCalls(ids[..i])
      invariant ispyb.rows == old(ispyb.rows) + EndRows(ids[..i], groupId, currentTime, RUN_SUCCESSFUL)
    {
      assert ids[..i + 1][..i] == ids[..i];
      var _ := ispyb.UpdateGridScanWithEndTimeAndStatus(currentTime, RUN_SUCCESSFUL, ids[i], groupId);
      calls := calls + [UpdateCall(ids[i])];
      i := i + 1;
    }
    assert ids[..i] == ids;
  }

  /** The database side of the plan: the scan stored, then, once it has run,
      every collection marked successful at one clock reading. `updates` are
      the update calls, in order. */
  method RecordScan(p: FullParameters, clock: nat -> string, firstId: int)
    returns (dcIds: seq<int>, groupId: int, updates: seq<Msg<Name>>, rows: seq<Row>)
    ensures dcIds == ScanIds(p.grid.is3dGridScan, firstId).0 && groupId == ScanIds(p.grid.is3dGridScan, firstId).2
    ensures updates == UpdateCalls(dcIds)
    ensures rows == GridscanRows(p, firstId, clock)
  {
    var ispyb := new IspybStore(p.grid.is3dGridScan, clock, None, firstId);
    var gridIds;
    dcIds, gridIds, groupId := ispyb.StoreGridScan(p);
    var currentTime := ispyb.GetCurrentTimeString();
    updates := RecordEnds(ispyb, currentTime, dcIds, groupId);
    rows := ispyb.rows;
  }

  /** Everything after the beamline reads: the scan recorded, its
      collections started, the scan run, the collections ended and the sample
      moved to the centre found. */
  method StoreScanAndMove(p: FullParameters, clock: nat -> string, firstId: int, xrayCentre: int -> Point3)
    returns (rest: seq<Msg<Name>>, rows: seq<Row>)
    ensures OPENING + (EPICS_READS + rest) == GridscanTrace(p, firstId, xrayCentre)
    ensures rows == GridscanRows(p, firstId, clock)
  {
    var dcIds, groupId, updates;
    dcIds, groupId, updates, rows := RecordScan(p, clock, firstId);
    var starts := CallForEachId(RunStart, dcIds);
    var ends := CallForEachId(RunEnd, dcIds);
    rest := [Call(StoreGridScan, [])] + (starts + (DO_FGS + (updates +
            (ends + Closing(p.detector.omegaStart, groupId, xrayCentre(groupId))))));
  }

  /** `run_gridscan`. `omegaReading` is what omega reads (nothing read counts
      as 0), `r` what the beamline reads, `clock` the wall clock, `firstId` the
      next id of the database and `xrayCentre` the motor position of the
      centre the analysis finds for a group. */
  method RunGridscan(parameters: Parameters, omegaReading: Option<real>, r: Readings,
                     clock: nat -> string, firstId: int, xrayCentre: int -> Point3)
    returns (trace: seq<Msg<Name>>, outcome: Outcome, rows: seq<Row>)
    modifies parameters
    ensures !OmegaOk(OmegaOrDefault(omegaReading), old(parameters.detector.omegaStart)) ==>
              trace == GUARD_FAILED && outcome == Raised(AssertionError) && rows == [] &&
              parameters.Value() == old(parameters.Value())
    ensures OmegaOk(OmegaOrDefault(omegaReading), old(parameters.detector.omegaStart)) ==>
              outcome == Completed &&
              parameters.Value() == old(parameters.Value()).(ispyb := WithReadings(old(parameters.ispyb), r)) &&
              trace == GridscanTrace(parameters.Value(), firstId, xrayCentre) &&
              rows == GridscanRows(parameters.Value(), firstId, clock)
  {
    trace := OPENING;
    var currentOmega := OmegaOrDefault(omegaReading);
    if !(Abs(currentOmega - parameters.detector.omegaStart) < OMEGA_TOLERANCE && Abs(currentOmega) < OMEGA_TOLERANCE) {
      trace := trace + [CloseRun(GridscanRun, false)];
      outcome := Raised(AssertionError);
      rows := [];
      return;
    }
    var hardwareReads := UpdateParamsFromEpicsDevices(parameters, r);
    var p := parameters.Value();
    var rest;
    rest, rows := StoreScanAndMove(p, clock, firstId, xrayCentre);
    trace := trace + (hardwareReads + rest);
    outcome := Completed;
  }

  // ---------------------------------------------------------------------------
  // What the plan promises
  // ---------------------------------------------------------------------------

  /** A failed omega check stops the plan before anything is read, recorded,
      started or scanned. */
  lemma GuardFailedDoesNothing()
    ensures forall i :: 0 <= i < |GUARD_FAILED| ==>
              GUARD_FAILED[i] != Kickoff(Fgs) && GUARD_FAILED[i] != Call(StoreGridScan, []) &&
              !GUARD_FAILED[i].Mv? && !GUARD_FAILED[i].AbsSet?
    ensures GUARD_FAILED[|GUARD_FAILED| - 1] == CloseRun(GridscanRun, false)
  {
  }

  /** The omega check passes only when omega is within 0.1 of 0, so a
      requested start further from 0 than 0.2 can never pass. */
  lemma OmegaCheckBounds(omega: real, omegaStart: real)
    ensures OmegaOk(omega, omegaStart) ==> -0.1 < omega < 0.1 && -0.2 < omegaStart < 0.2
    ensures OmegaOk(omega, omegaStart) <==> -0.1 < omega < 0.1 && -0.1 < omega - omegaStart < 0.1
  {
  }

  /** The analysis names no call but its own, and a call of the plan for
      another service is not among them. */
  lemma NotInPerId(name: Name, ids: seq<int>, m: Msg<Name>)
    requires !m.Call? || m.name != name
    ensures m !in PerId(name, ids)
  {
    PerIdEach(name, ids);
  }

  lemma NotInUpdates(ids: seq<int>, m: Msg<Name>)
    requires !m.Call? || m.name != UpdateGridScan
    ensures m !in UpdateCalls(ids)
  {
    UpdateCallsEach(ids);
  }

  /** An order the part after the beamline reads keeps, the whole trace
      keeps, when the later message is neither the opening nor a read. */
  lemma PrecedesInRest(omegaStart: real, dcIds: seq<int>, groupId: int, centre: Point3, m1: Msg<Name>, m2: Msg<Name>)
    requires PrecedesAll(FgsRest(omegaStart, dcIds, groupId, centre), m1, m2)
    requires m2 !in OPENING && m2 !in EPICS_READS
    ensures PrecedesAll(FgsTrace(omegaStart, dcIds, groupId, centre), m1, m2)
  {
    var rest := FgsRest(omegaStart, dcIds, groupId, centre);
    PrecedesAllPrepend(EPICS_READS, rest, m1, m2);
    PrecedesAllPrepend(OPENING, EPICS_READS + rest, m1, m2);
  }

  // The same order within the part after the beamline reads.
  lemma StoreBeforeRunStartInRest(omegaStart: real, dcIds: seq<int>, groupId: int, centre: Point3, id: int)
    ensures PrecedesAll(FgsRest(omegaStart, dcIds, groupId, centre), Call(StoreGridScan, []), Call(RunStart, [Int(id)]))
  {
    var store: Msg<Name> := Call(StoreGridScan, []);
    NotInPerId(RunStart, dcIds, store);
    NotInUpdates(dcIds, store);
    NotInPerId(RunEnd, dcIds, store);
    OtherCallNotInScan(store, omegaStart, groupId, centre);
    var closing := Closing(omegaStart, groupId, centre);
    assert store !in PerId(RunStart, dcIds) + (DO_FGS + (UpdateCalls(dcIds) + (PerId(RunEnd, dcIds) + closing)));
    PrecedesAllConcat([store], PerId(RunStart, dcIds) + (DO_FGS + (UpdateCalls(dcIds) + (PerId(RunEnd, dcIds) + closing))),
                      store, Call(RunStart, [Int(id)]));
  }

  /** The scan is stored in the database before any analysis starts. */
  lemma StoreBeforeRunStart(omegaStart: real, dcIds: seq<int>, groupId: int, centre: Point3, id: int)
    ensures PrecedesAll(FgsTrace(omegaStart, dcIds, groupId, centre), Call(StoreGridScan, []), Call(RunStart, [Int(id)]))
  {
    StoreBeforeRunStartInRest(omegaStart, dcIds, groupId, centre, id);
    PrecedesInRest(omegaStart, dcIds, groupId, centre, Call(StoreGridScan, []), Call(RunStart, [Int(id)]));
  }

  /** The scan calls nothing but the NeXus writer. */
  lemma ScanCallsOnlyWriter(m: Msg<Name>)
    requires m in DO_FGS
    ensures m.Call? ==> m.name == NexusWriterOpen || m.name == NexusWriterClose
  {
  }

  /** A call to neither the NeXus writer nor the result service is not part
      of the scan or of the closing moves. */
  lemma OtherCallNotInScan(m: Msg<Name>, omegaStart: real, groupId: int, centre: Point3)
    requires m.Call? && m.name != NexusWriterOpen && m.name != NexusWriterClose && m.name != WaitForResult
    ensures m !in DO_FGS && m !in Closing(omegaStart, groupId, centre)
  {
  }

  // The same order within the part after the beamline reads.
  lemma RunStartBeforeScanInRest(omegaStart: real, dcIds: seq<int>, groupId: int, centre: Point3, id: int, m: Msg<Name>)
    requires m in DO_FGS
    ensures PrecedesAll(FgsRest(omegaStart, dcIds, groupId, centre), Call(RunStart, [Int(id)]), m)
  {
    ScanCallsOnlyWriter(m);
    var start := Call(RunStart, [Int(id)]);
    var after := DO_FGS + (UpdateCalls(dcIds) + (PerId(RunEnd, dcIds) + Closing(omegaStart, groupId, centre)));
    NotInUpdates(dcIds, start);
    NotInPerId(RunEnd, dcIds, start);
    OtherCallNotInScan(start, omegaStart, groupId, centre);
    NotInPerId(RunStart, dcIds, m);
    PrecedesAllConcat(PerId(RunStart, dcIds), after, start, m);
    PrecedesAllPrepend([Call(StoreGridScan, [])], PerId(RunStart, dcIds) + after, start, m);
  }

  /** The analysis of every collection starts before every step of the scan:
      before the grid is set up, the devices staged and the scan kicked off. */
  lemma RunStartBeforeScan(omegaStart: real, dcIds: seq<int>, groupId: int, centre: Point3, id: int, m: Msg<Name>)
    requires m in DO_FGS
    ensures PrecedesAll(FgsTrace(omegaStart, dcIds, groupId, centre), Call(RunStart, [Int(id)]), m)
  {
    RunStartBeforeScanInRest(omegaStart, dcIds, groupId, centre, id, m);
    PrecedesInRest(omegaStart, dcIds, groupId, centre, Call(RunStart, [Int(id)]), m);
  }

  // The same order within the part after the beamline reads.
  lemma CompleteBeforeUpdatesInRest(omegaStart: real, dcIds: seq<int>, groupId: int, centre: Point3, a: int)
    ensures PrecedesAll(FgsRest(omegaStart, dcIds, groupId, centre), Complete(Fgs), UpdateCall(a))
  {
    var update := UpdateCall(a);
    var after := UpdateCalls(dcIds) + (PerId(RunEnd, dcIds) + Closing(omegaStart, groupId, centre));
    NotInUpdates(dcIds, Complete(Fgs));
    NotInPerId(RunEnd, dcIds, Complete(Fgs));
    PrecedesAllConcat(DO_FGS, after, Complete(Fgs), update);
    NotInPerId(RunStart, dcIds, update);
    PrecedesAllPrepend(PerId(RunStart, dcIds), DO_FGS + after, Complete(Fgs), update);
    PrecedesAllPrepend([Call(StoreGridScan, [])], PerId(RunStart, dcIds) + (DO_FGS + after), Complete(Fgs), update);
  }

  /** The scan completes before any collection is marked successful. */
  lemma CompleteBeforeUpdates(omegaStart: real, dcIds: seq<int>, groupId: int, centre: Point3, a: int)
    ensures PrecedesAll(FgsTrace(omegaStart, dcIds, groupId, centre), Complete(Fgs), UpdateCall(a))
  {
    CompleteBeforeUpdatesInRest(omegaStart, dcIds, groupId, centre, a);
    PrecedesInRest(omegaStart, dcIds, groupId, centre, Complete(Fgs), UpdateCall(a));
  }

  // The same order within the part after the beamline reads.
  lemma UpdatesBeforeRunEndInRest(omegaStart: real, dcIds: seq<int>, groupId: int, centre: Point3, a: int, b: int)
    ensures PrecedesAll(FgsRest(omegaStart, dcIds, groupId, centre), UpdateCall(a), Call(RunEnd, [Int(b)]))
  {
    var update := UpdateCall(a);
    var end := Call(RunEnd, [Int(b)]);
    var closing := Closing(omegaStart, groupId, centre);
    NotInPerId(RunEnd, dcIds, update);
    NotInUpdates(dcIds, end);
    PrecedesAllConcat(UpdateCalls(dcIds), PerId(RunEnd, dcIds) + closing, update, end);
    var after := UpdateCalls(dcIds) + (PerId(RunEnd, dcIds) + closing);
    PrecedesAllPrepend(DO_FGS, after, update, end);
    NotInPerId(RunStart, dcIds, end);
    PrecedesAllPrepend(PerId(RunStart, dcIds), DO_FGS + after, update, end);
    PrecedesAllPrepend([Call(StoreGridScan, [])], PerId(RunStart, dcIds) + (DO_FGS + after), update, end);
  }

  /** Every collection is marked successful before any analysis is ended. */
  lemma UpdatesBeforeRunEnd(omegaStart: real, dcIds: seq<int>, groupId: int, centre: Point3, a: int, b: int)
    ensures PrecedesAll(FgsTrace(omegaStart, dcIds, groupId, centre), UpdateCall(a), Call(RunEnd, [Int(b)]))
  {
    UpdatesBeforeRunEndInRest(omegaStart, dcIds, groupId, centre, a, b);
    PrecedesInRest(omegaStart, dcIds, groupId, centre, UpdateCall(a), Call(RunEnd, [Int(b)]));
  }

  /** No message of `s` moves a motor. */
  predicate NoMove(s: seq<Msg<Name>>)
  {
    forall i :: 0 <= i < |s| ==> !s[i].Mv?
  }

  /** `s` ends with `c` and moves no motor before it. */
  predicate EndsWithOnlyMoves(s: seq<Msg<Name>>, c: seq<Msg<Name>>)
  {
    |s| >= |c| && s[|s| - |c|..] == c && forall i :: 0 <= i < |s| - |c| ==> !s[i].Mv?
  }

  lemma EndsWithPrepend(a: seq<Msg<Name>>, b: seq<Msg<Name>>, c: seq<Msg<Name>>)
    requires NoMove(a) && EndsWithOnlyMoves(b, c)
    ensures EndsWithOnlyMoves(a + b, c)
  {
    assert (a + b)[|a + b| - |c|..] == b[|b| - |c|..];
    forall i | 0 <= i < |a + b| - |c|
      ensures !(a + b)[i].Mv?
    {
      if i >= |a| {
        assert (a + b)[i] == b[i - |a|];
      }
    }
  }

  /** The plan ends by awaiting the analysis result, moving omega back to its
      start, waiting for the sample motors, moving x, y and z to the centre
      and closing its run; nothing before moves a motor. */
  lemma OmegaReturnsBeforeCentring(omegaStart: real, dcIds: seq<int>, groupId: int, centre: Point3)
    ensures EndsWithOnlyMoves(FgsTrace(omegaStart, dcIds, groupId, centre), Closing(omegaStart, groupId, centre))
  {
    var closing := Closing(omegaStart, groupId, centre);
    assert closing[|closing| - |closing|..] == closing;
    PerIdEach(RunStart, dcIds);
    PerIdEach(RunEnd, dcIds);
    UpdateCallsEach(dcIds);
    EndsWithPrepend(PerId(RunEnd, dcIds), closing, closing);
    var s := PerId(RunEnd, dcIds) + closing;
    EndsWithPrepend(UpdateCalls(dcIds), s, closing);
    s := UpdateCalls(dcIds) + s;
    EndsWithPrepend(DO_FGS, s, closing);
    s := DO_FGS + s;
    EndsWithPrepend(PerId(RunStart, dcIds), s, closing);
    s := PerId(RunStart, dcIds) + s;
    EndsWithPrepend([Call(StoreGridScan, [])], s, closing);
    s := [Call(StoreGridScan, [])] + s;
    EndsWithPrepend(EPICS_READS, s, closing);
    EndsWithPrepend(OPENING, EPICS_READS + s, closing);
  }

  /** Every collection gets the same end time and is marked successful, with
      the group; a 3D grid records two collections and a 2D grid one. */
  lemma EndRecordsShared(p: FullParameters, firstId: int, clock: nat -> string)
    ensures var (dcIds, gridIds, groupId) := ScanIds(p.grid.is3dGridScan, firstId);
            var ends := EndRows(dcIds, groupId, clock(|dcIds|), RUN_SUCCESSFUL);
            |dcIds| == (if p.grid.is3dGridScan then 2 else 1) && |ends| == |dcIds| &&
            forall i :: 0 <= i < |ends| ==>
              ends[i] == EndUpdate(dcIds[i], groupId, clock(|dcIds|), "DataCollection Successful")
  {
    var (dcIds, gridIds, groupId) := ScanIds(p.grid.is3dGridScan, firstId);
    EndRowsEach(dcIds, groupId, clock(|dcIds|), RUN_SUCCESSFUL);
  }
}

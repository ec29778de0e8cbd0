/** The stepped grid scan of Artemis: check that the scan parameters were
    accepted, run the scan, wait for the analysis result and move to the centre
    it found, changing the aperture to suit the size of the crystal. */
module SteppedGridScan {
  import opened Wrappers
  import opened Plans

  /** The signals, devices, reading bundles, runs and sub-plans the plans
      name. `IspybPlanName` is the reading bundle the ISPyB recorder listens
      for. */
  datatype Name =
    | Omega | SampleX | SampleY | SampleZ
    | ScanInvalid | PositionCounter | ZSteps | Fgs | Eiger | Aperture
    | UndulatorGap | SynchrotronMode | SlitXGap | SlitYGap
    | IspybPlanName
    | SetGridParams | SetupZebra | SetZebraShutterToManual | SetDetectorParams
    | ChangeApertureRun | DoFgsRun | GridscanRun | GridscanAndMoveRun | MoveXyzRun

  /** Seconds between two validity checks. */
  const SLEEP_PER_CHECK: real := 0.1
  /** int(0.5 / 0.1): the number of checks made with the default timeout of 0.5 s. */
  const DEFAULT_TIMES_TO_CHECK: nat := 5
  const PIN_MESSAGE := "Scan invalid - pin too long/short/bent and out of range"

  const MEDIUM_APERTURE := "MEDIUM_APERTURE"
  const LARGE_APERTURE := "LARGE_APERTURE"

  // ---------------------------------------------------------------------------
  // The aperture chosen from the bounding box

  /** The aperture for a crystal whose bounding box measures `bbox` ([x, y, z]
      in grid boxes): only the x extent matters. An empty box has no x entry and
      the lookup fails. */
  function ApertureFor(bbox: seq<int>): (r: Result<string, PlanError>)
    ensures r.Failure? <==> bbox == []
    ensures r.Failure? ==> r.error == IndexError
    ensures r.Success? ==> (r.value == MEDIUM_APERTURE <==> bbox[0] < 2)
    ensures r.Success? ==> (r.value == LARGE_APERTURE <==> bbox[0] >= 2)
  {
    if bbox == [] then Failure(IndexError)
    else if bbox[0] < 2 then Success(MEDIUM_APERTURE)
    else Success(LARGE_APERTURE)
  }

  /** Two boxes with the same x extent get the same aperture, whatever their y
      and z extents. */
  lemma ApertureIgnoresYZ(b1: seq<int>, b2: seq<int>)
    requires b1 != [] && b2 != [] && b1[0] == b2[0]
    ensures ApertureFor(b1) == ApertureFor(b2)
  {
  }

  /** The metadata of the run that changes the aperture. */
  function ApertureMd(selected: string): map<string, Value>
  {
    map["subplan_name" := Str("change_aperture"), "aperture_size" := Str(selected)]
  }

  /** The messages of `set_aperture_for_bbox_size`: a run of its own, keyed
      "change_aperture", setting the aperture to the chosen preset. */
  function SetApertureForBboxSize(bbox: seq<int>): (r: Result<seq<Msg<Name>>, PlanError>)
    ensures r.Failure? <==> bbox == []
    ensures r.Success? ==>
              var size := if bbox[0] < 2 then MEDIUM_APERTURE else LARGE_APERTURE;
              |r.value| == 3 &&
              r.value[0] == OpenRun(ChangeApertureRun, ApertureMd(size)) &&
              r.value[1] == AbsSet(Aperture, Named(size), None, false) &&
              r.value[2] == CloseRun(ChangeApertureRun, true)
  {
    match ApertureFor(bbox)
    case Failure(e) => Failure(e)
    case Success(size) =>
      Success([OpenRun(ChangeApertureRun, ApertureMd(size)),
               AbsSet(Aperture, Named(size), None, false),
               CloseRun(ChangeApertureRun, true)])
  }

  /** The run's metadata names the aperture it sets. */
  lemma ApertureRunNamesPreset(bbox: seq<int>)
    requires bbox != []
    ensures var r := SetApertureForBboxSize(bbox);
            r.Success? &&
            r.value[0].md["aperture_size"] == Str(r.value[1].value.preset) &&
            r.value[0].md["subplan_name"] == Str("change_aperture")
  {
  }

  // ---------------------------------------------------------------------------
  // Waiting for the scan parameters to be accepted

  /** One check: the scan is valid when it is not flagged invalid and the
      position counter is back at 0. */
  predicate CheckPasses(scanInvalid: bool, positionCounter: int)
  {
    !scanInvalid && positionCounter == 0
  }

  /** Index of the first passing check among `checks`, or |checks| if none passes. */
  function FirstPassing(checks: seq<(bool, int)>): (k: nat)
    ensures k <= |checks|
    ensures forall j :: 0 <= j < k ==> !CheckPasses(checks[j].0, checks[j].1)
    ensures k < |checks| ==> CheckPasses(checks[k].0, checks[k].1)
  {
    if checks == [] then 0
    else if CheckPasses(checks[0].0, checks[0].1) then 0
    else 1 + FirstPassing(checks[1..])
  }

  /** The messages of `k` failing checks: two reads and a 0.1 s sleep each. */
  function FailedChecks(k: nat): seq<Msg<Name>>
  {
    if k == 0 then []
    else FailedChecks(k - 1) + [Read(ScanInvalid), Read(PositionCounter), Sleep(SLEEP_PER_CHECK)]
  }

  /** The messages and outcome of `wait_for_fgs_valid` on the successive
      readings `checks`, making at most `timesToCheck` checks. */
  function FgsValid(checks: seq<(bool, int)>, timesToCheck: nat): (seq<Msg<Name>>, Outcome)
    requires timesToCheck <= |checks|
  {
    var k := FirstPassing(checks[..timesToCheck]);
    if k < timesToCheck then (FailedChecks(k) + [Read(ScanInvalid), Read(PositionCounter)], Completed)
    else (FailedChecks(timesToCheck), Raised(WarningException(PIN_MESSAGE)))
  }

  /** Reads the validity of the scan parameters up to `timesToCheck` times,
      sleeping 0.1 s after each failing check, and raises when none passes.
      `checks` are the successive (scan_invalid, position_counter) readings. */
  method WaitForFgsValid(checks: seq<(bool, int)>, timesToCheck: nat) returns (trace: seq<Msg<Name>>, outcome: Outcome)
    requires timesToCheck <= |checks|
    ensures (trace, outcome) == FgsValid(checks, timesToCheck)
  {
    trace := [];
    var i := 0;
    while i < timesToCheck
      invariant 0 <= i <= timesToCheck
      invariant forall j :: 0 <= j < i ==> !CheckPasses(checks[j].0, checks[j].1)
      invariant trace == FailedChecks(i)
    {
      var scanInvalid := checks[i].0;
      trace := trace + [Read(ScanInvalid)];
      var posCounter := checks[i].1;
      trace := trace + [Read(PositionCounter)];
      if !scanInvalid && posCounter == 0 {
        FirstPassingAt(checks[..timesToCheck], i);
        assert trace == FailedChecks(i) + [Read(ScanInvalid), Read(PositionCounter)];
        outcome := Completed;
        return;
      }
      trace := trace + [Sleep(SLEEP_PER_CHECK)];
      i := i + 1;
    }
    FirstPassingNone(checks[..timesToCheck]);
    outcome := Raised(WarningException(PIN_MESSAGE));
  }

  lemma FirstPassingAt(checks: seq<(bool, int)>, i: nat)
    requires i < |checks| && CheckPasses(checks[i].0, checks[i].1)
    requires forall j :: 0 <= j < i ==> !CheckPasses(checks[j].0, checks[j].1)
    ensures FirstPassing(checks) == i
  {
  }

  lemma FirstPassingNone(checks: seq<(bool, int)>)
    requires forall j :: 0 <= j < |checks| ==> !CheckPasses(checks[j].0, checks[j].1)
    ensures FirstPassing(checks) == |checks|
  {
  }

  /** The messages of the validity checks: the two reads and the sleep. */
  predicate OnlyChecks(w: seq<Msg<Name>>)
  {
    forall m :: m in w ==> m == Read(ScanInvalid) || m == Read(PositionCounter) || m == Sleep(SLEEP_PER_CHECK)
  }

  /** Failing checks hold nothing but the two validity reads and the sleep. */
  lemma {:induction false} FailedChecksOnly(k: nat)
    ensures |FailedChecks(k)| == 3 * k
    ensures OnlyChecks(FailedChecks(k))
  {
    if k > 0 {
      FailedChecksOnly(k - 1);
    }
  }

  /** Each failing check sleeps once for 0.1 s. */
  lemma {:induction false} FailedChecksSleeps(k: nat)
    ensures Sleeps(FailedChecks(k)) == Repeat(SLEEP_PER_CHECK, k)
  {
    if k > 0 {
      FailedChecksSleeps(k - 1);
      var t := [Read(ScanInvalid), Read(PositionCounter), Sleep(SLEEP_PER_CHECK)];
      SleepsConcat(FailedChecks(k - 1), t);
      assert t == [Read(ScanInvalid)] + [Read(PositionCounter)] + [Sleep(SLEEP_PER_CHECK)];
      SleepsConcat([Read(ScanInvalid)] + [Read(PositionCounter)], [Sleep(SLEEP_PER_CHECK)]);
      SleepsConcat([Read(ScanInvalid)], [Read(PositionCounter)]);
      SleepsSingleton(Read(ScanInvalid));
      SleepsSingleton(Read(PositionCounter));
      SleepsSingleton<Name>(Sleep(SLEEP_PER_CHECK));
    }
  }

  /** No check among the first `n` passes exactly when the first passing one
      lies at or beyond `n`. */
  lemma FirstPassingPrefix(checks: seq<(bool, int)>, n: nat)
    requires n <= |checks|
    ensures FirstPassing(checks[..n]) < n <==> exists j :: 0 <= j < n && CheckPasses(checks[j].0, checks[j].1)
  {
    var k := FirstPassing(checks[..n]);
    if k < n {
      assert checks[..n][k] == checks[k];
    } else {
      forall j | 0 <= j < n
        ensures !CheckPasses(checks[j].0, checks[j].1)
      {
        assert checks[..n][j] == checks[j];
      }
    }
  }

  /** The wait succeeds exactly when one of the first `timesToCheck` checks
      passes; it then sleeps once per earlier failing check (not at all when the
      first check passes), and otherwise raises the pin warning after sleeping
      after every check. */
  lemma FgsValidOutcome(checks: seq<(bool, int)>, timesToCheck: nat)
    requires timesToCheck <= |checks|
    ensures var (trace, outcome) := FgsValid(checks, timesToCheck);
            (outcome == Completed <==> exists j :: 0 <= j < timesToCheck && CheckPasses(checks[j].0, checks[j].1)) &&
            (outcome != Completed ==> outcome == Raised(WarningException(PIN_MESSAGE)) &&
                                      Sleeps(trace) == Repeat(SLEEP_PER_CHECK, timesToCheck)) &&
            (outcome == Completed ==> Sleeps(trace) == Repeat(SLEEP_PER_CHECK, FirstPassing(checks[..timesToCheck]))) &&
            (timesToCheck > 0 && CheckPasses(checks[0].0, checks[0].1) ==> Sleeps(trace) == [])
  {
    var k := FirstPassing(checks[..timesToCheck]);
    FirstPassingPrefix(checks, timesToCheck);
    FailedChecksSleeps(k);
    if k < timesToCheck {
      var tail := [Read(ScanInvalid), Read(PositionCounter)];
      SleepsConcat(FailedChecks(k), tail);
      assert tail == [Read(ScanInvalid)] + [Read(PositionCounter)];
      SleepsConcat([Read(ScanInvalid)], [Read(PositionCounter)]);
      SleepsSingleton(Read(ScanInvalid));
      SleepsSingleton(Read(PositionCounter));
    }
    if timesToCheck > 0 && CheckPasses(checks[0].0, checks[0].1) {
      assert checks[..timesToCheck][0] == checks[0];
    }
  }

  /** The messages the validity wait issues are checks only, and end with the
      two reads of the passing check when it succeeds. */
  lemma FgsValidMessages(checks: seq<(bool, int)>, timesToCheck: nat)
    requires timesToCheck <= |checks|
    ensures var (w, o) := FgsValid(checks, timesToCheck);
            OnlyChecks(w) &&
            (o == Completed ==> |w| >= 2 && w[|w| - 2] == Read(ScanInvalid) && w[|w| - 1] == Read(PositionCounter))
  {
    FailedChecksOnly(FirstPassing(checks[..timesToCheck]));
    FailedChecksOnly(timesToCheck);
  }

  // ---------------------------------------------------------------------------
  // The plans

  /** The reading bundle deposited in ISPyB: undulator gap, machine mode and the
      two slit gaps. */
  const READ_HARDWARE_FOR_ISPYB: seq<Msg<Name>> :=
    [Create(IspybPlanName), Read(UndulatorGap), Read(SynchrotronMode),
     Read(SlitXGap), Read(SlitYGap), Save]

  const GRIDSCAN_OPEN: Msg<Name> := OpenRun(GridscanRun, map["subplan_name" := Str("run_gridscan")])
  const OMEGA_TO_ZERO: Msg<Name> := AbsSet(Omega, Int(0), None, false)
  const Z_STEPS_TO_ZERO: Msg<Name> := AbsSet(ZSteps, Int(0), None, false)

  /** The messages issued before the validity checks of `run_gridscan`. */
  const GRIDSCAN_SETUP: seq<Msg<Name>> :=
    [GRIDSCAN_OPEN, OMEGA_TO_ZERO] + READ_HARDWARE_FOR_ISPYB + [SubPlan(SetGridParams)]

  /** The scan proper: a run keyed "do_fgs" with the detector staged, waiting
      for all moves before kicking the scan off and waiting for it to complete. */
  const DO_FGS: seq<Msg<Name>> :=
    [OpenRun(DoFgsRun, map["subplan_name" := Str("do_fgs")]), Stage(Eiger), Wait(None, None),
     Kickoff(Fgs), Complete(Fgs), Unstage(Eiger), CloseRun(DoFgsRun, true)]

  /** What follows the validity checks: the scan and z_steps reset to 0 without
      waiting when they passed, the run closed unsuccessfully otherwise. */
  function AfterChecks(passed: bool): seq<Msg<Name>>
  {
    if passed then DO_FGS + [Z_STEPS_TO_ZERO, CloseRun(GridscanRun, true)]
    else [CloseRun(GridscanRun, false)]
  }

  /** `run_gridscan`: omega to 0, the hardware readings, the grid parameters,
      the validity checks and, when they pass, the scan and the z steps reset to
      0 without waiting. The checks are made with the default timeout, so at
      most DEFAULT_TIMES_TO_CHECK of them. A failing check ends the run
      unsuccessfully. */
  function RunGridscan(checks: seq<(bool, int)>): (seq<Msg<Name>>, Outcome)
    requires DEFAULT_TIMES_TO_CHECK <= |checks|
  {
    var (w, o) := FgsValid(checks, DEFAULT_TIMES_TO_CHECK);
    (GRIDSCAN_SETUP + w + AfterChecks(o == Completed), o)
  }

  /** A message that sets the aperture. */
  predicate SetsAperture(msg: Msg<Name>)
  {
    msg.AbsSet? && msg.signal == Aperture
  }

  /** The names the scan's own messages never use: the sample position, the
      zebra set-up and tidy-up, the aperture and the enclosing runs. */
  predicate ForeignToScan(n: Name)
  {
    n == SampleX || n == SampleY || n == SampleZ || n == SetupZebra || n == SetZebraShutterToManual ||
    n == Aperture || n == GridscanAndMoveRun || n == MoveXyzRun || n == ChangeApertureRun || n == SetDetectorParams
  }

  /** A message the scan may issue: no multi-axis move, and no foreign name. */
  predicate ScanMessage(m: Msg<Name>)
  {
    !m.Mv? && (NameOf(m).Some? ==> !ForeignToScan(NameOf(m).value))
  }

  lemma SetupVocabulary()
    ensures forall m :: m in GRIDSCAN_SETUP ==> ScanMessage(m)
  {
    forall i | 0 <= i < |GRIDSCAN_SETUP|
      ensures ScanMessage(GRIDSCAN_SETUP[i])
    {
    }
  }

  lemma AfterChecksVocabulary(passed: bool)
    ensures forall m :: m in AfterChecks(passed) ==> ScanMessage(m)
  {
    var t := AfterChecks(passed);
    forall i | 0 <= i < |t|
      ensures ScanMessage(t[i])
    {
    }
  }

  /** Every message of the scan is a scan message. */
  lemma GridscanVocabulary(checks: seq<(bool, int)>)
    requires DEFAULT_TIMES_TO_CHECK <= |checks|
    ensures forall m :: m in RunGridscan(checks).0 ==> ScanMessage(m)
  {
    FgsValidMessages(checks, DEFAULT_TIMES_TO_CHECK);
    var (w, o) := FgsValid(checks, DEFAULT_TIMES_TO_CHECK);
    SetupVocabulary();
    AfterChecksVocabulary(o == Completed);
    assert forall m :: m in w ==> ScanMessage(m);
  }

  /** The set-up sets omega to 0 before reading the hardware, and sets the grid
      parameters after the readings. */
  lemma GridscanSetupOrder()
    ensures PrecedesAll(GRIDSCAN_SETUP, OMEGA_TO_ZERO, Read(UndulatorGap))
    ensures PrecedesAll(GRIDSCAN_SETUP, Save, SubPlan(SetGridParams))
  {
    var head := [GRIDSCAN_OPEN, OMEGA_TO_ZERO];
    PrecedesAllConcat(head, READ_HARDWARE_FOR_ISPYB, OMEGA_TO_ZERO, Read(UndulatorGap));
    PrecedesAllExtend(head + READ_HARDWARE_FOR_ISPYB, [SubPlan(SetGridParams)], OMEGA_TO_ZERO, Read(UndulatorGap));
    PrecedesAllConcat(head + READ_HARDWARE_FOR_ISPYB, [SubPlan(SetGridParams)], Save, SubPlan(SetGridParams));
  }

  /** The set-up issues none of the scan's later messages. */
  lemma GridscanSetupExcludes()
    ensures Read(ScanInvalid) !in GRIDSCAN_SETUP && Read(PositionCounter) !in GRIDSCAN_SETUP
    ensures Stage(Eiger) !in GRIDSCAN_SETUP && Kickoff(Fgs) !in GRIDSCAN_SETUP
    ensures Complete(Fgs) !in GRIDSCAN_SETUP && Z_STEPS_TO_ZERO !in GRIDSCAN_SETUP
  {
  }

  /** The checks and the scan that follows them in `run_gridscan`, for any
      checks `w`: the set-up comes first, and the scan's messages after the
      checks. */
  lemma PassedOrderSetup(w: seq<Msg<Name>>)
    requires OnlyChecks(w)
    ensures var t := GRIDSCAN_SETUP + w + AfterChecks(true);
            PrecedesAll(t, OMEGA_TO_ZERO, Read(UndulatorGap)) &&
            PrecedesAll(t, Save, SubPlan(SetGridParams)) &&
            PrecedesAll(t, SubPlan(SetGridParams), Read(ScanInvalid))
  {
    GridscanSetupOrder();
    GridscanSetupExcludes();
    var after := AfterChecks(true);
    PrecedesAllExtend(GRIDSCAN_SETUP, w, OMEGA_TO_ZERO, Read(UndulatorGap));
    PrecedesAllExtend(GRIDSCAN_SETUP + w, after, OMEGA_TO_ZERO, Read(UndulatorGap));
    PrecedesAllExtend(GRIDSCAN_SETUP, w, Save, SubPlan(SetGridParams));
    PrecedesAllExtend(GRIDSCAN_SETUP + w, after, Save, SubPlan(SetGridParams));
    PrecedesAllConcat(GRIDSCAN_SETUP, w, SubPlan(SetGridParams), Read(ScanInvalid));
    PrecedesAllExtend(GRIDSCAN_SETUP + w, after, SubPlan(SetGridParams), Read(ScanInvalid));
  }

  /** Every validity read comes before staging and kickoff, and z_steps is reset
      only after the scan completes. */
  lemma PassedOrderScan(w: seq<Msg<Name>>)
    requires OnlyChecks(w)
    ensures var t := GRIDSCAN_SETUP + w + AfterChecks(true);
            PrecedesAll(t, Read(ScanInvalid), Stage(Eiger)) &&
            PrecedesAll(t, Read(PositionCounter), Kickoff(Fgs)) &&
            PrecedesAll(t, Complete(Fgs), Z_STEPS_TO_ZERO)
  {
    GridscanSetupExcludes();
    var after := AfterChecks(true);
    PrecedesAllConcat(GRIDSCAN_SETUP + w, after, Read(ScanInvalid), Stage(Eiger));
    PrecedesAllConcat(GRIDSCAN_SETUP + w, after, Read(PositionCounter), Kickoff(Fgs));
    var z := [Z_STEPS_TO_ZERO, CloseRun(GridscanRun, true)];
    PrecedesAllConcat(GRIDSCAN_SETUP + w + DO_FGS, z, Complete(Fgs), Z_STEPS_TO_ZERO);
    assert GRIDSCAN_SETUP + w + after == GRIDSCAN_SETUP + w + DO_FGS + z;
  }

  /** An invalid scan is never staged nor kicked off: the run ends unsuccessfully
      right after the last failing check, with the pin warning. */
  lemma InvalidScanNeverKicksOff(checks: seq<(bool, int)>)
    requires DEFAULT_TIMES_TO_CHECK <= |checks|
    requires forall j :: 0 <= j < DEFAULT_TIMES_TO_CHECK ==> !CheckPasses(checks[j].0, checks[j].1)
    ensures var (t, o) := RunGridscan(checks);
            o == Raised(WarningException(PIN_MESSAGE)) &&
            Kickoff(Fgs) !in t && Stage(Eiger) !in t &&
            t[|t| - 1] == CloseRun(GridscanRun, false)
  {
    FgsValidOutcome(checks, DEFAULT_TIMES_TO_CHECK);
    FgsValidMessages(checks, DEFAULT_TIMES_TO_CHECK);
    GridscanSetupExcludes();
  }

  /** When a check passes, omega is set to 0 before the hardware is read, the
      grid parameters are set after the readings and before the validity
      checks, every validity read comes before staging and kickoff, and z_steps
      is reset, without waiting, only after the scan completes. */
  lemma ValidScanOrder(checks: seq<(bool, int)>)
    requires DEFAULT_TIMES_TO_CHECK <= |checks|
    requires exists j :: 0 <= j < DEFAULT_TIMES_TO_CHECK && CheckPasses(checks[j].0, checks[j].1)
    ensures var (t, o) := RunGridscan(checks);
            o == Completed &&
            Kickoff(Fgs) in t && Read(ScanInvalid) in t &&
            PrecedesAll(t, OMEGA_TO_ZERO, Read(UndulatorGap)) &&
            PrecedesAll(t, Save, SubPlan(SetGridParams)) &&
            PrecedesAll(t, SubPlan(SetGridParams), Read(ScanInvalid)) &&
            PrecedesAll(t, Read(ScanInvalid), Stage(Eiger)) &&
            PrecedesAll(t, Read(PositionCounter), Kickoff(Fgs)) &&
            PrecedesAll(t, Complete(Fgs), Z_STEPS_TO_ZERO) &&
            t[|t| - 2] == Z_STEPS_TO_ZERO && !t[|t| - 2].wait
  {
    FgsValidOutcome(checks, DEFAULT_TIMES_TO_CHECK);
    FgsValidMessages(checks, DEFAULT_TIMES_TO_CHECK);
    var w := FgsValid(checks, DEFAULT_TIMES_TO_CHECK).0;
    assert w[|w| - 2] in w;
    assert Kickoff(Fgs) in DO_FGS;
    PassedOrderSetup(w);
    PassedOrderScan(w);
  }

  /** The scan's messages never read the sample position, set up the zebra,
      touch the aperture, move the sample or tidy up; they open with the scan's
      own run. */
  lemma GridscanMessages(checks: seq<(bool, int)>)
    requires DEFAULT_TIMES_TO_CHECK <= |checks|
    ensures var (g, o) := RunGridscan(checks);
            Read(SampleZ) !in g && SubPlan(SetupZebra) !in g && SubPlan(SetZebraShutterToManual) !in g &&
            (forall i :: 0 <= i < |g| ==> !SetsAperture(g[i]) && !g[i].Mv?) &&
            g[0] == GRIDSCAN_OPEN
  {
    GridscanVocabulary(checks);
    var g := RunGridscan(checks).0;
    NotInScan(g, Read(SampleZ));
    NotInScan(g, SubPlan(SetupZebra));
    NotInScan(g, SubPlan(SetZebraShutterToManual));
    GridscanNoAperture(g);
  }

  lemma NotInScan(g: seq<Msg<Name>>, m: Msg<Name>)
    requires forall x :: x in g ==> ScanMessage(x)
    requires !ScanMessage(m)
    ensures m !in g
  {
  }

  lemma GridscanNoAperture(g: seq<Msg<Name>>)
    requires forall m :: m in g ==> ScanMessage(m)
    ensures forall i :: 0 <= i < |g| ==> !SetsAperture(g[i]) && !g[i].Mv?
  {
    forall i | 0 <= i < |g|
      ensures !SetsAperture(g[i]) && !g[i].Mv?
    {
      assert g[i] in g;
    }
  }

  /** The outcome of waiting for the analysis result of a scan. */
  datatype ZocaloResult =
    | Found(centre: Point3, bbox: Option<seq<int>>)
    | NoResult

  /** The result rendezvous, seen from the plan: the centre and bounding box
      found, or the fallback position and no box when none was found. */
  function WaitForResults(z: ZocaloResult, fallback: Point3): (r: (Point3, Option<seq<int>>))
    ensures z.NoResult? ==> r == (fallback, None)
    ensures z.Found? ==> r == (z.centre, z.bbox)
  {
    match z
    case Found(c, b) => (c, b)
    case NoResult => (fallback, None)
  }

  /** The single move of x, y and z to `p`. */
  function MoveTo(p: Point3): Msg<Name>
  {
    Mv([(SampleX, p.x), (SampleY, p.y), (SampleZ, p.z)])
  }

  /** `move_xyz`: a run keyed "move_xyz" holding one move of x, y and z together. */
  function MoveXyz(p: Point3): (t: seq<Msg<Name>>)
    ensures |t| == 3 && t[1] == MoveTo(p)
    ensures t[0].OpenRun? && t[0].key == MoveXyzRun && t[2] == CloseRun(MoveXyzRun, true)
  {
    [OpenRun(MoveXyzRun, map["subplan_name" := Str("move_xyz")]), MoveTo(p), CloseRun(MoveXyzRun, true)]
  }

  const RUN_AND_MOVE_OPEN: Msg<Name> := OpenRun(GridscanAndMoveRun, map["subplan_name" := Str("run_gridscan_and_move")])

  /** The messages before the scan in `run_gridscan_and_move`: the run opens,
      the initial x, y, z are read and the zebra is set up. */
  const RUN_AND_MOVE_SETUP: seq<Msg<Name>> :=
    [RUN_AND_MOVE_OPEN, Read(SampleX), Read(SampleY), Read(SampleZ), SubPlan(SetupZebra)]

  /** The aperture change and final move that follow a successful scan. */
  function ApertureAndMove(centre: Point3, bbox: Option<seq<int>>): (seq<Msg<Name>>, Outcome)
  {
    if bbox.None? then (MoveXyz(centre), Completed)
    else match SetApertureForBboxSize(bbox.value)
      case Failure(e) => ([], Raised(e))
      case Success(a) => (a + MoveXyz(centre), Completed)
  }

  /** What follows the scan in `run_gridscan_and_move`: nothing more when the
      scan raised, otherwise the aperture change and the move to the result. */
  function AfterScan(scan: Outcome, initial: Point3, z: ZocaloResult): (seq<Msg<Name>>, Outcome)
  {
    if scan.Raised? then ([], scan)
    else
      var (centre, bbox) := WaitForResults(z, initial);
      ApertureAndMove(centre, bbox)
  }

  /** `run_gridscan_and_move`, given the initial position read, the validity
      readings and what the analysis returns. */
  function RunGridscanAndMove(initial: Point3, checks: seq<(bool, int)>, z: ZocaloResult): (seq<Msg<Name>>, Outcome)
    requires DEFAULT_TIMES_TO_CHECK <= |checks|
  {
    var (g, o) := RunGridscan(checks);
    var (m, o2) := AfterScan(o, initial, z);
    (RUN_AND_MOVE_SETUP + g + m + [CloseRun(GridscanAndMoveRun, o2 == Completed)], o2)
  }

  /** The names the aperture change and the final move use. */
  predicate AfterScanMessage(msg: Msg<Name>)
  {
    NameOf(msg).Some? ==>
      NameOf(msg).value == Aperture || NameOf(msg).value == ChangeApertureRun || NameOf(msg).value == MoveXyzRun
  }

  /** The aperture change and the final move use only their own names. */
  lemma AfterScanVocabulary(scan: Outcome, initial: Point3, z: ZocaloResult)
    ensures var m := AfterScan(scan, initial, z).0;
            forall i :: 0 <= i < |m| ==> AfterScanMessage(m[i])
  {
    var m := AfterScan(scan, initial, z).0;
    forall i | 0 <= i < |m|
      ensures AfterScanMessage(m[i])
    {
    }
  }

  /** The messages after the scan never read the sample position, set up the
      zebra, tidy up or open the scan's run. */
  lemma AfterScanExcludes(m: seq<Msg<Name>>)
    requires forall i :: 0 <= i < |m| ==> AfterScanMessage(m[i])
    ensures Read(SampleZ) !in m && SubPlan(SetupZebra) !in m && SubPlan(SetZebraShutterToManual) !in m &&
            GRIDSCAN_OPEN !in m
  {
  }

  /** The initial position is read, x then y then z, before the zebra is set
      up and before the scan starts. */
  lemma InitialPositionReadFirst(initial: Point3, checks: seq<(bool, int)>, z: ZocaloResult)
    requires DEFAULT_TIMES_TO_CHECK <= |checks|
    ensures var (t, o) := RunGridscanAndMove(initial, checks, z);
            t[0] == RUN_AND_MOVE_OPEN && t[1] == Read(SampleX) && t[2] == Read(SampleY) && t[3] == Read(SampleZ) &&
            PrecedesAll(t, Read(SampleZ), SubPlan(SetupZebra)) &&
            PrecedesAll(t, SubPlan(SetupZebra), GRIDSCAN_OPEN)
  {
    var o := RunGridscan(checks).1;
    var g := RunGridscan(checks).0;
    var m := AfterScan(o, initial, z).0;
    var rest := m + [CloseRun(GridscanAndMoveRun, AfterScan(o, initial, z).1 == Completed)];
    GridscanMessages(checks);
    AfterScanVocabulary(o, initial, z);
    AfterScanExcludes(m);
    assert RunGridscanAndMove(initial, checks, z).0 == RUN_AND_MOVE_SETUP + g + rest;
    ZebraAfterPosition(g, rest);
    ScanAfterZebra(g, rest);
  }

  lemma ZebraAfterPosition(g: seq<Msg<Name>>, rest: seq<Msg<Name>>)
    requires Read(SampleZ) !in g && Read(SampleZ) !in rest
    ensures PrecedesAll(RUN_AND_MOVE_SETUP + g + rest, Read(SampleZ), SubPlan(SetupZebra))
  {
    var t := RUN_AND_MOVE_SETUP + g + rest;
    assert t[..4] == [RUN_AND_MOVE_OPEN, Read(SampleX), Read(SampleY), Read(SampleZ)];
    assert t[4..] == [SubPlan(SetupZebra)] + g + rest;
  }

  lemma ScanAfterZebra(g: seq<Msg<Name>>, rest: seq<Msg<Name>>)
    requires SubPlan(SetupZebra) !in g && SubPlan(SetupZebra) !in rest && GRIDSCAN_OPEN !in rest
    ensures PrecedesAll(RUN_AND_MOVE_SETUP + g + rest, SubPlan(SetupZebra), GRIDSCAN_OPEN)
  {
    PrecedesAllConcat(RUN_AND_MOVE_SETUP, g, SubPlan(SetupZebra), GRIDSCAN_OPEN);
    PrecedesAllExtend(RUN_AND_MOVE_SETUP + g, rest, SubPlan(SetupZebra), GRIDSCAN_OPEN);
  }

  /** Nothing before the aperture change sets the aperture or moves the sample. */
  lemma BeforeAfterScan(checks: seq<(bool, int)>)
    requires DEFAULT_TIMES_TO_CHECK <= |checks|
    ensures var front := RUN_AND_MOVE_SETUP + RunGridscan(checks).0;
            forall i :: 0 <= i < |front| ==> !SetsAperture(front[i]) && !front[i].Mv?
  {
    GridscanMessages(checks);
    var g := RunGridscan(checks).0;
    var front := RUN_AND_MOVE_SETUP + g;
    forall i | 0 <= i < |front|
      ensures !SetsAperture(front[i]) && !front[i].Mv?
    {
      if i >= |RUN_AND_MOVE_SETUP| {
        assert front[i] == g[i - |RUN_AND_MOVE_SETUP|];
      }
    }
  }

  /** Without an analysis result the sample goes back to where it started, and
      the aperture is left alone. */
  lemma NoResultReturnsToInitial(initial: Point3, checks: seq<(bool, int)>)
    requires DEFAULT_TIMES_TO_CHECK <= |checks|
    requires exists j :: 0 <= j < DEFAULT_TIMES_TO_CHECK && CheckPasses(checks[j].0, checks[j].1)
    ensures var (t, o) := RunGridscanAndMove(initial, checks, NoResult);
            o == Completed &&
            t[|t| - 3] == MoveTo(initial) &&
            t[|t| - 1] == CloseRun(GridscanAndMoveRun, true) &&
            forall i :: 0 <= i < |t| ==> !SetsAperture(t[i])
  {
    FgsValidOutcome(checks, DEFAULT_TIMES_TO_CHECK);
    BeforeAfterScan(checks);
    var front := RUN_AND_MOVE_SETUP + RunGridscan(checks).0;
    var back := MoveXyz(initial) + [CloseRun(GridscanAndMoveRun, true)];
    var t := RunGridscanAndMove(initial, checks, NoResult).0;
    assert t == front + MoveXyz(initial) + [CloseRun(GridscanAndMoveRun, true)];
    forall i | 0 <= i < |t|
      ensures !SetsAperture(t[i])
    {
      if i < |front| {
        assert t[i] == front[i];
      }
    }
  }

  /** The aperture change, when there is one, comes before the final move. */
  lemma ApertureBeforeMove(centre: Point3, bbox: seq<int>, front: seq<Msg<Name>>)
    requires bbox != []
    requires forall i :: 0 <= i < |front| ==> !SetsAperture(front[i]) && !front[i].Mv?
    ensures var size := if bbox[0] < 2 then MEDIUM_APERTURE else LARGE_APERTURE;
            var t := front + ApertureAndMove(centre, Some(bbox)).0 + [CloseRun(GridscanAndMoveRun, true)];
            t[|t| - 6] == AbsSet(Aperture, Named(size), None, false) && t[|t| - 3] == MoveTo(centre) &&
            PrecedesAll(t, AbsSet(Aperture, Named(size), None, false), MoveTo(centre))
  {
    var size := if bbox[0] < 2 then MEDIUM_APERTURE else LARGE_APERTURE;
    var setAperture := AbsSet(Aperture, Named(size), None, false);
    var a := SetApertureForBboxSize(bbox).value;
    var back := MoveXyz(centre) + [CloseRun(GridscanAndMoveRun, true)];
    var t := front + ApertureAndMove(centre, Some(bbox)).0 + [CloseRun(GridscanAndMoveRun, true)];
    assert t == (front + a) + back;
    assert MoveTo(centre) !in front + a by {
      forall i | 0 <= i < |front + a|
        ensures (front + a)[i] != MoveTo(centre)
      {
        if i < |front| {
          assert (front + a)[i] == front[i];
        }
      }
    }
    assert setAperture !in back;
    assert t[..|front + a|] == front + a && t[|front + a|..] == back;
  }

  /** An empty bounding box fails before any move and closes the run as failed. */
  lemma EmptyBoxFails(initial: Point3, checks: seq<(bool, int)>, centre: Point3)
    requires DEFAULT_TIMES_TO_CHECK <= |checks|
    requires exists j :: 0 <= j < DEFAULT_TIMES_TO_CHECK && CheckPasses(checks[j].0, checks[j].1)
    ensures var (t, o) := RunGridscanAndMove(initial, checks, Found(centre, Some([])));
            o == Raised(IndexError) && (forall i :: 0 <= i < |t| ==> !t[i].Mv?) &&
            t[|t| - 1] == CloseRun(GridscanAndMoveRun, false)
  {
    FgsValidOutcome(checks, DEFAULT_TIMES_TO_CHECK);
    BeforeAfterScan(checks);
    var front := RUN_AND_MOVE_SETUP + RunGridscan(checks).0;
    var t := RunGridscanAndMove(initial, checks, Found(centre, Some([]))).0;
    assert t == front + [CloseRun(GridscanAndMoveRun, false)];
    forall i | 0 <= i < |t|
      ensures !t[i].Mv?
    {
      if i < |front| {
        assert t[i] == front[i];
      }
    }
  }

  /** Once the scan has passed its validity check, the plan is its set-up, the
      scan, the aperture change and move the analysis result calls for, and the
      closing of the run. */
  lemma PassedScanShape(initial: Point3, checks: seq<(bool, int)>, z: ZocaloResult)
    requires DEFAULT_TIMES_TO_CHECK <= |checks|
    requires exists j :: 0 <= j < DEFAULT_TIMES_TO_CHECK && CheckPasses(checks[j].0, checks[j].1)
    ensures var (t, o) := RunGridscanAndMove(initial, checks, z);
            var (centre, bbox) := WaitForResults(z, initial);
            var (m, o2) := ApertureAndMove(centre, bbox);
            o == o2 &&
            t == RUN_AND_MOVE_SETUP + RunGridscan(checks).0 + m + [CloseRun(GridscanAndMoveRun, o2 == Completed)]
  {
    FgsValidOutcome(checks, DEFAULT_TIMES_TO_CHECK);
  }

  /** A result with a box: the aperture for the box is set, then the sample
      moves to the centre. */
  lemma BoxResultMovesToCentre(initial: Point3, checks: seq<(bool, int)>, centre: Point3, bbox: seq<int>)
    requires DEFAULT_TIMES_TO_CHECK <= |checks|
    requires exists j :: 0 <= j < DEFAULT_TIMES_TO_CHECK && CheckPasses(checks[j].0, checks[j].1)
    requires bbox != []
    ensures var (t, o) := RunGridscanAndMove(initial, checks, Found(centre, Some(bbox)));
            var size := if bbox[0] < 2 then MEDIUM_APERTURE else LARGE_APERTURE;
            o == Completed && |t| >= 6 && t[|t| - 3] == MoveTo(centre) &&
            t[|t| - 1] == CloseRun(GridscanAndMoveRun, true) &&
            t[|t| - 6] == AbsSet(Aperture, Named(size), None, false) &&
            PrecedesAll(t, AbsSet(Aperture, Named(size), None, false), MoveTo(centre))
  {
    PassedScanShape(initial, checks, Found(centre, Some(bbox)));
    var front := RUN_AND_MOVE_SETUP + RunGridscan(checks).0;
    BeforeAfterScan(checks);
    ApertureBeforeMove(centre, bbox, front);
    assert RunGridscanAndMove(initial, checks, Found(centre, Some(bbox))).0
      == front + ApertureAndMove(centre, Some(bbox)).0 + [CloseRun(GridscanAndMoveRun, true)];
  }

  /** With a result, the aperture is set (from a non-empty box) or left alone
      (no box) and then the sample moves to the centre found: the aperture
      always changes before the final move. */
  lemma ResultMovesToCentre(initial: Point3, checks: seq<(bool, int)>, centre: Point3, bbox: Option<seq<int>>)
    requires DEFAULT_TIMES_TO_CHECK <= |checks|
    requires exists j :: 0 <= j < DEFAULT_TIMES_TO_CHECK && CheckPasses(checks[j].0, checks[j].1)
    requires bbox != Some([])
    ensures var (t, o) := RunGridscanAndMove(initial, checks, Found(centre, bbox));
            o == Completed && t[|t| - 3] == MoveTo(centre) &&
            t[|t| - 1] == CloseRun(GridscanAndMoveRun, true) &&
            (bbox.Some? ==>
               var size := if bbox.value[0] < 2 then MEDIUM_APERTURE else LARGE_APERTURE;
               t[|t| - 6] == AbsSet(Aperture, Named(size), None, false) &&
               PrecedesAll(t, AbsSet(Aperture, Named(size), None, false), MoveTo(centre)))
  {
    if bbox.Some? {
      BoxResultMovesToCentre(initial, checks, centre, bbox.value);
    } else {
      PassedScanShape(initial, checks, Found(centre, bbox));
      var front := RUN_AND_MOVE_SETUP + RunGridscan(checks).0;
      assert RunGridscanAndMove(initial, checks, Found(centre, bbox)).0
        == front + MoveXyz(centre) + [CloseRun(GridscanAndMoveRun, true)];
    }
  }

  // ---------------------------------------------------------------------------
  // The whole plan, with its tidy-up

  /** `get_plan`: the detector parameters are set while the plan is built (the
      composite of devices must exist), then the scan-and-move plan runs and
      the zebra shutter is put back to manual however it ends. */
  function GetPlan(compositeCreated: bool, initial: Point3, checks: seq<(bool, int)>, z: ZocaloResult): (seq<Msg<Name>>, Outcome)
    requires DEFAULT_TIMES_TO_CHECK <= |checks|
  {
    if !compositeCreated then ([], Raised(AssertionError))
    else
      var (t, o) := RunGridscanAndMove(initial, checks, z);
      ([Call(SetDetectorParams, [])] + t + [SubPlan(SetZebraShutterToManual)], o)
  }

  /** The tidy-up runs exactly once, as the last step, whether the scan plan
      completed or raised; without the composite nothing is issued. */
  lemma TidyUpOnEveryExit(compositeCreated: bool, initial: Point3, checks: seq<(bool, int)>, z: ZocaloResult)
    requires DEFAULT_TIMES_TO_CHECK <= |checks|
    ensures var (t, o) := GetPlan(compositeCreated, initial, checks, z);
            (!compositeCreated <==> t == []) &&
            (!compositeCreated ==> o == Raised(AssertionError)) &&
            (compositeCreated ==>
               o == RunGridscanAndMove(initial, checks, z).1 &&
               t[|t| - 1] == SubPlan(SetZebraShutterToManual) && Occurrences(t, SubPlan(SetZebraShutterToManual)) == 1)
  {
    if compositeCreated {
      var tidy := SubPlan(SetZebraShutterToManual);
      var (r, o) := RunGridscanAndMove(initial, checks, z);
      var (g, og) := RunGridscan(checks);
      var (m, om) := AfterScan(og, initial, z);
      GridscanMessages(checks);
      AfterScanVocabulary(og, initial, z);
      AfterScanExcludes(m);
      assert tidy !in r;
      OccurrencesZero(r, tidy);
      OccurrencesConcat([Call(SetDetectorParams, [])] + r, [tidy], tidy);
      OccurrencesConcat([Call(SetDetectorParams, [])], r, tidy);
      OccurrencesZero([Call(SetDetectorParams, [])], tidy);
      assert Occurrences([tidy], tidy) == 1 by {
        assert [tidy][..0] == [];
      }
    }
  }
}

/** Grid detection then X-ray centring: the OAV finds the grid and takes the
    snapshots, the snapshots and the image corner are written into the ISPyB
    parameters, the backlight goes out, the aperture goes to its small
    position and the flyscan runs on parameters that differ from the input
    in the detected grid and in what the gridscan parameters derive from it. */
module GridDetect {
  import opened Wrappers
  import opened Plans
  import opened OavSnapshot

  /** The devices, services and sub-plans the plan talks to. */
  datatype Name =
    | GridDetection                     // grid_detection_plan, with the two collectors subscribed
    | Backlight
    | ApertureScatterguard
    | FlyscanXrayCentre                 // flyscan_xray_centre
    | StartPreparingDataCollection      // start_preparing_data_collection_then_do_plan

  const BACKLIGHT_OUT: Value := Named("Out")
  const OAV_CONTEXT: string := "xrayCentring"
  const ANGLE_PLACEHOLDER: string := "{angle}"

  /** The aperture positions of the scatterguard, as loaded from its
      configuration. */
  datatype AperturePositions = AperturePositions(large: Value, medium: Value, small: Value, robotLoad: Value)

  /** The positions after the defaults are loaded if unset. */
  function LoadedPositions(current: Option<AperturePositions>, defaults: AperturePositions): (p: AperturePositions)
    ensures current.Some? ==> p == current.value
    ensures current.None? ==> p == defaults
  {
    if current.Some? then current.value else defaults
  }

  class ApertureScatterguardDevice {
    var aperturePositions: Option<AperturePositions>

    constructor(positions: Option<AperturePositions>)
      ensures aperturePositions == positions
    {
      aperturePositions := positions;
    }
  }

  datatype DetectorParams = DetectorParams(prefix: string, runNumber: int, detectorDistance: real)

  /** The ISPyB fields the plan writes. */
  datatype IspybParams = IspybParams(xtalSnapshotsOmegaStart: seq<Value>, xtalSnapshotsOmegaEnd: seq<Value>, upperLeft: seq<Value>)

  datatype HyperionParams = HyperionParams(detector: DetectorParams, ispyb: IspybParams)

  /** The experiment parameters of a grid detection. */
  datatype EdgeDetectParams = EdgeDetectParams(exposureTime: real, snapshotDir: string, gridWidthMicrons: real, setStubOffsets: bool)

  /** The grid the detection found. */
  datatype GridScanParams = GridScanParams(
    xSteps: int, ySteps: int, zSteps: int, xStepSize: real, yStepSize: real, zStepSize: real,
    xAxisStart: real, y1Start: real, y2Start: real, z1Start: real, z2Start: real)

  /** Internal parameters: the shared part and the experiment's own. */
  datatype InternalParameters<E> = InternalParameters(hyperionParams: HyperionParams, experimentParams: E)

  class Eiger {
    var detectorParams: Option<DetectorParams>

    constructor()
      ensures detectorParams == None
    {
      detectorParams := None;
    }

    /** `set_detector_parameters`. */
    method SetDetectorParameters(p: DetectorParams)
      modifies this
      ensures detectorParams == Some(p)
    {
      detectorParams := Some(p);
    }
  }

  /** `GridDetectThenXRayCentreComposite`, with the devices the model follows. */
  class Composite {
    const apertureScatterguard: ApertureScatterguardDevice
    const eiger: Eiger

    /** Creating the composite loads the default aperture positions when
        the scatterguard has none. */
    constructor(apertureScatterguard: ApertureScatterguardDevice, eiger: Eiger, defaults: AperturePositions)
      modifies apertureScatterguard
      ensures this.apertureScatterguard == apertureScatterguard && this.eiger == eiger
      ensures apertureScatterguard.aperturePositions == Some(LoadedPositions(old(apertureScatterguard.aperturePositions), defaults))
    {
      this.apertureScatterguard := apertureScatterguard;
      this.eiger := eiger;
      new;
      if apertureScatterguard.aperturePositions.None? {
        apertureScatterguard.aperturePositions := Some(defaults);
      }
    }
  }

  /** The parameters object the plan is given; the plan writes its ISPyB
      fields in place. */
  class EdgeDetectParameters {
    var hyperionParams: HyperionParams
    const experimentParams: EdgeDetectParams

    constructor(hyperionParams: HyperionParams, experimentParams: EdgeDetectParams)
      ensures this.hyperionParams == hyperionParams && this.experimentParams == experimentParams
    {
      this.hyperionParams := hyperionParams;
      this.experimentParams := experimentParams;
    }

    function Current(): InternalParameters<EdgeDetectParams>
      reads this
    {
      InternalParameters(hyperionParams, experimentParams)
    }
  }

  // ---------------------------------------------------------------------------
  // The pure parts
  // ---------------------------------------------------------------------------

  /** `f"{prefix}_{run_number}_{{angle}}"`: the snapshot name template, with a
      literal `{angle}` left for the detection to fill. */
  function SnapshotTemplate(d: DetectorParams): string
  {
    d.prefix + "_" + IntToString(d.runNumber) + "_" + ANGLE_PLACEHOLDER
  }

  /** Filling the template's trailing `{angle}` with an angle. */
  function FillAngle(template: string, angle: string): string
  {
    if |template| >= |ANGLE_PLACEHOLDER| && template[|template| - |ANGLE_PLACEHOLDER|..] == ANGLE_PLACEHOLDER
    then template[..|template| - |ANGLE_PLACEHOLDER|] + angle
    else template
  }

  /** Each snapshot is named after the prefix, the run number and its angle. */
  lemma SnapshotNames(d: DetectorParams, angle: string)
    ensures FillAngle(SnapshotTemplate(d), angle) == d.prefix + "_" + IntToString(d.runNumber) + "_" + angle
  {
    var head := d.prefix + "_" + IntToString(d.runNumber) + "_";
    assert SnapshotTemplate(d) == head + ANGLE_PLACEHOLDER;
    assert SnapshotTemplate(d)[|SnapshotTemplate(d)| - |ANGLE_PLACEHOLDER|..] == ANGLE_PLACEHOLDER;
    assert SnapshotTemplate(d)[..|SnapshotTemplate(d)| - |ANGLE_PLACEHOLDER|] == head;
  }

  /** `[::-1]`. */
  function Reverse(s: seq<Value>): (r: seq<Value>)
    ensures |r| == |s|
  {
    seq(|s|, i requires 0 <= i < |s| => s[|s| - 1 - i])
  }

  /** Whether a construction of the gridscan parameters keeps the experiment
      parameters it is given. What else it derives from them (the detector's
      trigger and image counts, say) is up to the parameter classes. */
  ghost predicate KeepsExperiment(construct: InternalParameters<GridScanParams> -> InternalParameters<GridScanParams>)
  {
    forall j :: construct(j).experimentParams == j.experimentParams
  }

  /** `create_parameters_for_flyscan_xray_centre`: the input parameters, as a
      dictionary, with the experiment parameters replaced by the detected
      grid, handed to the gridscan parameters' construction `construct`. */
  function CreateParametersForFlyscan(p: InternalParameters<EdgeDetectParams>, grid: GridScanParams,
                                      construct: InternalParameters<GridScanParams> -> InternalParameters<GridScanParams>)
      : (r: InternalParameters<GridScanParams>)
    requires KeepsExperiment(construct)
    ensures r.experimentParams == grid
  {
    construct(InternalParameters(p.hyperionParams, grid))
  }

  /** The flyscan parameters depend on the edge-detect parameters only
      through the shared part: the edge-detect experiment (exposure, snapshot
      directory, grid width) is dropped for the grid. */
  lemma FlyscanIgnoresEdgeDetectExperiment(p: InternalParameters<EdgeDetectParams>, e: EdgeDetectParams,
                                           grid: GridScanParams, other: GridScanParams,
                                           construct: InternalParameters<GridScanParams> -> InternalParameters<GridScanParams>)
    requires KeepsExperiment(construct)
    ensures CreateParametersForFlyscan(p.(experimentParams := e), grid, construct) == CreateParametersForFlyscan(p, grid, construct)
    ensures grid != other ==> CreateParametersForFlyscan(p, grid, construct) != CreateParametersForFlyscan(p, other, construct)
  {
  }

  /** The ISPyB fields the detection's events give, or the IndexError raised
      when there are fewer than two events: the first and the second triple
      of paths, each reversed, and the first corner followed by the second
      corner's y. */
  function DetectedIspyb(before: IspybParams, events: seq<map<string, Value>>): Result<IspybParams, PlanError>
  {
    if |events| < 2 then Failure(IndexError)
    else Success(before.(
      xtalSnapshotsOmegaStart := Reverse(SnapshotRow(events[0])),
      xtalSnapshotsOmegaEnd := Reverse(SnapshotRow(events[1])),
      upperLeft := UpperLeftRow(events[0]) + [UpperLeftRow(events[1])[1]]))
  }

  /** What the detected fields hold, reading by reading: the omega-start
      snapshots are the first event's overlay, outer and saved paths, the
      omega-end ones the second event's, and the corner is `[x0, y0, y1]`. */
  lemma DetectedIspybFields(before: IspybParams, events: seq<map<string, Value>>)
    ensures DetectedIspyb(before, events).Failure? <==> |events| < 2
    ensures DetectedIspyb(before, events).Failure? ==> DetectedIspyb(before, events).error == IndexError
    ensures |events| >= 2 ==>
              var r := DetectedIspyb(before, events).value;
              r.xtalSnapshotsOmegaStart ==
                [Get(events[0], LAST_PATH_FULL_OVERLAY), Get(events[0], LAST_PATH_OUTER), Get(events[0], LAST_SAVED_PATH)] &&
              r.xtalSnapshotsOmegaEnd ==
                [Get(events[1], LAST_PATH_FULL_OVERLAY), Get(events[1], LAST_PATH_OUTER), Get(events[1], LAST_SAVED_PATH)] &&
              r.upperLeft == [Get(events[0], TOP_LEFT_X), Get(events[0], TOP_LEFT_Y), Get(events[1], TOP_LEFT_Y)]
  {
  }

  /** The messages of the plan up to and including the grid detection. */
  function DetectionCall(oavConfig: string, p: InternalParameters<EdgeDetectParams>): Msg<Name>
  {
    Call(GridDetection, [Str(OAV_CONTEXT), Str(oavConfig), Str(SnapshotTemplate(p.hyperionParams.detector)),
                         Str(p.experimentParams.snapshotDir), Real(p.experimentParams.gridWidthMicrons)])
  }

  /** The whole plan once detection succeeded. */
  function DetectTrace(oavConfig: string, p: InternalParameters<EdgeDetectParams>, small: Value): seq<Msg<Name>>
  {
    [DetectionCall(oavConfig, p),
     AbsSet(Backlight, BACKLIGHT_OUT, None, false),
     AbsSet(ApertureScatterguard, small, None, false),
     Call(FlyscanXrayCentre, [])]
  }

  /** The plan runs the detection, then takes the backlight out, then moves
      the aperture to its small position, then runs the flyscan, each once. */
  lemma DetectTraceOrder(oavConfig: string, p: InternalParameters<EdgeDetectParams>, small: Value)
    ensures var t := DetectTrace(oavConfig, p, small);
            |t| == 4 && t[0].Call? && t[0].name == GridDetection &&
            t[1] == AbsSet(Backlight, BACKLIGHT_OUT, None, false) &&
            t[2] == AbsSet(ApertureScatterguard, small, None, false) &&
            t[3].Call? && t[3].name == FlyscanXrayCentre &&
            forall i :: 0 <= i < 4 && i != 3 ==> t[i] != Call(FlyscanXrayCentre, [])
  {
  }

  // ---------------------------------------------------------------------------
  // The plans
  // ---------------------------------------------------------------------------

  /** The grid detection with the snapshot collector subscribed: the run
      engine hands each of the detection's events to a fresh collector, and
      the collector's two lists are what the plan reads afterwards. */
  method CollectSnapshots(events: seq<map<string, Value>>) returns (snapshotFilenames: seq<seq<Value>>, outUpperLeft: seq<seq<Value>>)
    ensures snapshotFilenames == SnapshotRows(events) && outUpperLeft == UpperLeftRows(events)
  {
    var oavCallback := new OavSnapshotCallback();
    var i := 0;
    while i < |events|
      invariant 0 <= i <= |events|
      invariant oavCallback.Valid() && oavCallback.events == events[..i]
      modifies oavCallback
    {
      oavCallback.Event(events[i]);
      assert events[..i + 1] == events[..i] + [events[i]];
      i := i + 1;
    }
    assert events[..i] == events;
    snapshotFilenames, outUpperLeft := oavCallback.snapshotFilenames, oavCallback.outUpperLeft;
  }

  /** `detect_grid_and_do_gridscan`. `events` is the event data the grid
      detection emits to the subscribed snapshot collector, `grid` the grid
      the detection collector derives, and `construct` the construction of
      the gridscan parameters from their dictionary. */
  method DetectGridAndDoGridscan(composite: Composite, parameters: EdgeDetectParameters, oavConfig: string,
                                 events: seq<map<string, Value>>, grid: GridScanParams,
                                 construct: InternalParameters<GridScanParams> -> InternalParameters<GridScanParams>)
      returns (trace: seq<Msg<Name>>, flyscan: Option<InternalParameters<GridScanParams>>, outcome: Outcome)
    requires KeepsExperiment(construct)
    modifies parameters
    ensures composite.apertureScatterguard.aperturePositions.None? ==>
              outcome == Raised(AssertionError) && trace == [] && flyscan.None? &&
              parameters.hyperionParams == old(parameters.hyperionParams)
    ensures composite.apertureScatterguard.aperturePositions.Some? ==>
              var detected := DetectedIspyb(old(parameters.hyperionParams.ispyb), events);
              var small := composite.apertureScatterguard.aperturePositions.value.small;
              (detected.Failure? ==>
                 outcome == Raised(detected.error) && flyscan.None? &&
                 trace == [DetectionCall(oavConfig, old(parameters.Current()))] &&
                 parameters.hyperionParams == old(parameters.hyperionParams)) &&
              (detected.Success? ==>
                 outcome == Completed &&
                 parameters.hyperionParams == old(parameters.hyperionParams).(ispyb := detected.value) &&
                 flyscan == Some(CreateParametersForFlyscan(parameters.Current(), grid, construct)) &&
                 trace == DetectTrace(oavConfig, old(parameters.Current()), small))
  {
    if composite.apertureScatterguard.aperturePositions.None? {
      return [], None, Raised(AssertionError);
    }
    trace := [DetectionCall(oavConfig, parameters.Current())];
    var snapshotFilenames, outUpperLeft := CollectSnapshots(events);
    RowsFollowEvents(events);
    if |outUpperLeft| < 2 {
      return trace, None, Raised(IndexError);
    }
    var upperLeft := outUpperLeft[0] + [outUpperLeft[1][1]];
    var ispyb := parameters.hyperionParams.ispyb;
    ispyb := ispyb.(xtalSnapshotsOmegaStart := Reverse(snapshotFilenames[0]));
    ispyb := ispyb.(xtalSnapshotsOmegaEnd := Reverse(snapshotFilenames[1]));
    ispyb := ispyb.(upperLeft := upperLeft);
    parameters.hyperionParams := parameters.hyperionParams.(ispyb := ispyb);
    flyscan := Some(CreateParametersForFlyscan(parameters.Current(), grid, construct));
    var small := composite.apertureScatterguard.aperturePositions.value.small;
    trace := trace + [AbsSet(Backlight, BACKLIGHT_OUT, None, false), AbsSet(ApertureScatterguard, small, None, false),
                      Call(FlyscanXrayCentre, [])];
    outcome := Completed;
  }

  /** `grid_detect_then_xray_centre`: sets the detector parameters on the
      Eiger while the plan is built, then runs the detection and gridscan
      inside the detector preparation for the parameters' distance. */
  method GridDetectThenXrayCentre(composite: Composite, parameters: EdgeDetectParameters, oavConfig: string,
                                  events: seq<map<string, Value>>, grid: GridScanParams,
                                  construct: InternalParameters<GridScanParams> -> InternalParameters<GridScanParams>)
      returns (trace: seq<Msg<Name>>, flyscan: Option<InternalParameters<GridScanParams>>, outcome: Outcome)
    requires composite.eiger != composite.apertureScatterguard as object
    requires KeepsExperiment(construct)
    modifies composite.eiger, parameters
    ensures composite.eiger.detectorParams == Some(old(parameters.hyperionParams.detector))
    ensures |trace| >= 1 &&
            trace[0] == Call(StartPreparingDataCollection, [Real(old(parameters.hyperionParams.detector.detectorDistance))])
    ensures outcome.Completed? ==>
              composite.apertureScatterguard.aperturePositions.Some? &&
              trace[1..] == DetectTrace(oavConfig, old(parameters.Current()), composite.apertureScatterguard.aperturePositions.value.small) &&
              flyscan == Some(CreateParametersForFlyscan(parameters.Current(), grid, construct)) &&
              parameters.hyperionParams.detector == old(parameters.hyperionParams.detector)
  {
    composite.eiger.SetDetectorParameters(parameters.hyperionParams.detector);
    var distance := parameters.hyperionParams.detector.detectorDistance;
    var inner;
    inner, flyscan, outcome := DetectGridAndDoGridscan(composite, parameters, oavConfig, events, grid, construct);
    trace := [Call(StartPreparingDataCollection, [Real(distance)])] + inner;
  }
}

/** The records a grid scan leaves in the ISPyB database: the visit a data
    directory belongs to, the data-collection group, one or two data
    collections (a 2D or a 3D grid scan) with their position and grid rows,
    and the end-of-scan update of every collection. The database is an
    abstract store that issues consecutive ids and keeps the rows in the order
    they were written. */
module StoreInIspyb {
  import opened Wrappers
  import opened Plans

  const I03_EIGER_DETECTOR: int := 78
  const EIGER_FILE_SUFFIX: string := "h5"
  const RUN_SUCCESSFUL: string := "DataCollection Successful"
  const RUN_UNSUCCESSFUL: string := "DataCollection Unsuccessful"
  const EXPERIMENT_TYPE_3D: string := "Mesh3D"
  const EXPERIMENT_TYPE_2D: string := "mesh"
  /** Orientation.HORIZONTAL.value */
  const ORIENTATION_HORIZONTAL: string := "horizontal"

  // ---------------------------------------------------------------------------
  // Visit strings: `.+/([a-zA-Z]{2}\d{4,5}-\d{1,3})/` searched in a path
  // ---------------------------------------------------------------------------

  predicate IsAsciiLetter(c: char)
  {
    'a' <= c <= 'z' || 'A' <= c <= 'Z'
  }

  /** The number of consecutive decimal digits of `s` from index `k` on. */
  function DigitRun(s: string, k: nat): (n: nat)
    ensures k + n <= |s| || n == 0
    ensures forall i :: k <= i < k + n ==> IsDigit(s[i])
    ensures k + n < |s| ==> !IsDigit(s[k + n])
    decreases |s| - k
  {
    if k < |s| && IsDigit(s[k]) then 1 + DigitRun(s, k + 1) else 0
  }

  /** A visit name on its own: two letters, four or five digits, a dash and
      one to three digits. */
  predicate VisitShaped(v: string)
  {
    |v| >= 8 && IsAsciiLetter(v[0]) && IsAsciiLetter(v[1]) &&
    var d := DigitRun(v, 2);
    (d == 4 || d == 5) && 2 + d < |v| && v[2 + d] == '-' &&
    var e := DigitRun(v, 3 + d);
    1 <= e <= 3 && |v| == 3 + d + e
  }

  /** The visit named by `/([a-zA-Z]{2}\d{4,5}-\d{1,3})/` when its first slash
      is at index `j` of `path`. Each digit count is fixed by the character
      that must follow it, so there is at most one way to match from `j`. */
  function SegmentAt(path: string, j: nat): (r: Option<string>)
    ensures r.Some? ==>
              j < |path| && path[j] == '/' && j + 1 + |r.value| < |path| &&
              path[j + 1..j + 1 + |r.value|] == r.value && path[j + 1 + |r.value|] == '/'
  {
    if j + 3 <= |path| && path[j] == '/' && IsAsciiLetter(path[j + 1]) && IsAsciiLetter(path[j + 2]) then
      var d := DigitRun(path, j + 3);
      var dash := j + 3 + d;
      if (d == 4 || d == 5) && dash < |path| && path[dash] == '-' then
        var e := DigitRun(path, dash + 1);
        var close := dash + 1 + e;
        if 1 <= e <= 3 && close < |path| && path[close] == '/' then Some(path[j + 1..close]) else None
      else None
    else None
  }

  /** The digits counted inside a slice are the digits counted in the whole
      string, up to the end of the slice. */
  lemma {:induction false} DigitRunSlice(s: string, lo: nat, hi: nat, k: nat)
    requires lo <= k <= hi <= |s|
    requires hi == |s| || !IsDigit(s[hi])
    ensures DigitRun(s[lo..hi], k - lo) == DigitRun(s, k)
    decreases hi - k
  {
    if k < hi && IsDigit(s[k]) {
      DigitRunSlice(s, lo, hi, k + 1);
    }
  }

  /** Whatever a segment matches is a visit name. */
  lemma SegmentIsVisit(path: string, j: nat)
    requires SegmentAt(path, j).Some?
    ensures VisitShaped(SegmentAt(path, j).value)
  {
    var d := DigitRun(path, j + 3);
    var dash := j + 3 + d;
    var e := DigitRun(path, dash + 1);
    var close := dash + 1 + e;
    var v := path[j + 1..close];
    DigitRunSlice(path, j + 1, close, j + 3);
    DigitRunSlice(path, j + 1, close, dash + 1);
    assert v[2 + d] == path[dash];
  }

  /** The index of the first newline at or after `i`, or the length of the path:
      how far `.` can reach from `i`. */
  function LineEnd(path: string, i: nat): (e: nat)
    requires i <= |path|
    ensures i <= e <= |path|
    ensures forall k :: i <= k < e ==> path[k] != '\n'
    ensures e < |path| ==> path[e] == '\n'
    decreases |path| - i
  {
    if i == |path| || path[i] == '\n' then i else LineEnd(path, i + 1)
  }

  /** What a segment match gives for every slash position of the path. */
  function Segments(path: string): (segs: seq<Option<string>>)
    ensures |segs| == |path| + 1 && forall j :: 0 <= j <= |path| ==> segs[j] == SegmentAt(path, j)
  {
    seq(|path| + 1, j requires 0 <= j <= |path| => SegmentAt(path, j))
  }

  /** The largest index in `lo..hi` that holds a value, or `lo - 1` when none
      does. */
  function LastSomeIndex<T>(s: seq<Option<T>>, lo: nat, hi: int): (j: int)
    requires hi < |s|
    ensures j == lo - 1 || (lo <= j <= hi && s[j].Some?)
    ensures forall k :: j < k <= hi && 0 <= k ==> s[k].None?
    decreases hi - lo
  {
    if hi < lo then lo - 1
    else if s[hi].Some? then hi
    else LastSomeIndex(s, lo, hi - 1)
  }

  /** The match of the whole pattern from `i`: the greedy `.+` takes as many
      characters of the line as it can and gives them back one by one until a
      segment follows. */
  function MatchAt(path: string, i: nat): Option<string>
    requires i < |path|
  {
    var j := LastSomeIndex(Segments(path), i + 1, LineEnd(path, i));
    if j >= i + 1 then SegmentAt(path, j) else None
  }

  /** `re.search`: the match from the first start position that has one. */
  function Search(path: string, i: nat): Option<string>
    requires i <= |path|
    decreases |path| - i
  {
    if i == |path| then None
    else if MatchAt(path, i).Some? then MatchAt(path, i)
    else Search(path, i + 1)
  }

  /** `get_visit_string_from_path`: no visit for a missing or empty path,
      otherwise the visit the search finds, if any. */
  function GetVisitStringFromPath(path: Option<string>): Option<string>
  {
    if path.None? || path.value == "" then None else Search(path.value, 0)
  }

  /** `get_visit_string`: the visit of the ispyb visit path when it has one,
      else the visit of the detector directory. */
  function GetVisitString(visitPath: Option<string>, directory: Option<string>): (r: Option<string>)
    ensures GetVisitStringFromPath(visitPath).Some? && GetVisitStringFromPath(visitPath).value != "" ==>
              r == GetVisitStringFromPath(visitPath)
    ensures GetVisitStringFromPath(visitPath).None? ==> r == GetVisitStringFromPath(directory)
  {
    var fromVisitPath := GetVisitStringFromPath(visitPath);
    if fromVisitPath.Some? && fromVisitPath.value != "" then fromVisitPath
    else GetVisitStringFromPath(directory)
  }

  /** Whatever the search finds from `i` is a segment with at least one
      character of the path before its slash. */
  lemma {:induction false} SearchSound(path: string, i: nat)
    requires i <= |path|
    ensures Search(path, i).Some? ==> exists j: nat :: i < j <= |path| && SegmentAt(path, j) == Search(path, i)
    decreases |path| - i
  {
    if i < |path| {
      if MatchAt(path, i).None? {
        SearchSound(path, i + 1);
      }
    }
  }

  /** A later start finds no segment when an earlier one on the same line
      found none. */
  lemma {:induction false} SearchNone(path: string, i: nat)
    requires forall k :: 0 <= k < |path| ==> path[k] != '\n'
    requires i <= |path|
    requires forall k :: i < k <= |path| ==> SegmentAt(path, k).None?
    ensures Search(path, i).None?
    decreases |path| - i
  {
    if i < |path| {
      assert LineEnd(path, i) == |path|;
      assert MatchAt(path, i).None?;
      SearchNone(path, i + 1);
    }
  }

  /** On a path without line breaks the search finds a visit exactly when some
      visit segment has a character before its slash, and then it finds the
      rightmost such segment. */
  lemma RightmostVisit(path: string)
    requires forall k :: 0 <= k < |path| ==> path[k] != '\n'
    ensures (exists j :: 1 <= j <= |path| && SegmentAt(path, j).Some?) <==> Search(path, 0).Some?
    ensures Search(path, 0).Some? ==>
              exists j :: 1 <= j <= |path| && SegmentAt(path, j) == Search(path, 0) &&
                          forall k :: j < k <= |path| ==> SegmentAt(path, k).None?
  {
    if |path| > 0 {
      var segs := Segments(path);
      assert LineEnd(path, 0) == |path|;
      var j := LastSomeIndex(segs, 1, |path|);
      if j >= 1 {
        assert Search(path, 0) == SegmentAt(path, j);
        assert forall k :: j < k <= |path| ==> segs[k] == SegmentAt(path, k);
      } else {
        assert forall k :: 1 <= k <= |path| ==> segs[k] == SegmentAt(path, k);
        SearchNone(path, 0);
      }
    }
  }

  /** The visit found in a path is a visit name that stands between two
      slashes of the path, with at least one character before the first. */
  lemma VisitFromPathSound(path: Option<string>)
    ensures GetVisitStringFromPath(path).Some? ==>
              path.Some? && VisitShaped(GetVisitStringFromPath(path).value) &&
              exists j :: 1 <= j <= |path.value| && SegmentAt(path.value, j) == GetVisitStringFromPath(path)
  {
    if GetVisitStringFromPath(path).Some? {
      SearchSound(path.value, 0);
      var j: nat :| 0 < j <= |path.value| && SegmentAt(path.value, j) == Search(path.value, 0);
      SegmentIsVisit(path.value, j);
    }
  }

  /** A visit directory of a beamline data path. */
  lemma VisitOfDataPath()
    ensures GetVisitStringFromPath(Some("/dls/i03/data/2022/cm31105-5/")) == Some("cm31105-5")
  {
    var path := "/dls/i03/data/2022/cm31105-5/";
    SegmentOfDataPath(path);
    NoSegmentAfter(path);
    assert forall k :: 0 <= k < |path| ==> path[k] != '\n' by {
      DataPathOneLine(path);
    }
    RightmostVisit(path);
  }

  lemma DataPathOneLine(path: string)
    requires path == "/dls/i03/data/2022/cm31105-5/"
    ensures forall k :: 0 <= k < |path| ==> path[k] != '\n'
  {
  }

  lemma SegmentOfDataPath(path: string)
    requires path == "/dls/i03/data/2022/cm31105-5/"
    ensures SegmentAt(path, 18) == Some("cm31105-5")
  {
    assert DigitRun(path, 28) == 0;
    assert DigitRun(path, 27) == 1;
    assert DigitRun(path, 26) == 0;
    assert DigitRun(path, 21) == 5;
    assert path[19..28] == "cm31105-5";
  }

  lemma NoSegmentAfter(path: string)
    requires path == "/dls/i03/data/2022/cm31105-5/"
    ensures forall k :: 18 < k <= |path| ==> SegmentAt(path, k).None?
  {
    forall k | 18 < k <= |path|
      ensures SegmentAt(path, k).None?
    {
      assert k + 3 > |path| || path[k] != '/';
    }
  }

  // ---------------------------------------------------------------------------
  // Parameters and records
  // ---------------------------------------------------------------------------

  datatype Snapshots = Snapshots(first: string, second: string, third: string)

  datatype IspybParams = IspybParams(
    sampleId: int, sampleBarcode: string, visitPath: Option<string>,
    pixelsPerMicronX: real, pixelsPerMicronY: real, upperLeft: (int, int), position: (real, real, real),
    xtalSnapshotsOmegaStart: Snapshots, xtalSnapshotsOmegaEnd: Snapshots,
    focalSpotSizeX: real, focalSpotSizeY: real, slitGapSizeX: real, slitGapSizeY: real,
    beamSizeX: real, beamSizeY: real, transmission: real, comment: string, flux: real,
    resolution: real, wavelength: real, synchrotronMode: string, undulatorGap: real)

  /** `beamPosition` is what `get_beam_position_mm` gives for the detector
      distance. */
  datatype DetectorParams = DetectorParams(
    runNumber: int, omegaStart: real, detectorDistance: real, exposureTime: real,
    directory: string, prefix: string, numImages: int, beamPosition: (real, real))

  datatype GridScanParams = GridScanParams(
    xStepSize: real, yStepSize: real, xSteps: int, ySteps: int, is3dGridScan: bool)

  datatype FullParameters = FullParameters(ispyb: IspybParams, detector: DetectorParams, grid: GridScanParams)

  datatype GroupRecord = GroupRecord(visit: Option<string>, experimentType: string, sampleId: int, sampleBarcode: string)

  datatype CollectionRecord = CollectionRecord(
    visit: Option<string>, parentId: int, sampleId: int, detectorId: int,
    axisStart: real, axisEnd: real, axisRange: real,
    focalSpotSizeAtSampleX: real, focalSpotSizeAtSampleY: real, slitGapVertical: real, slitGapHorizontal: real,
    beamSizeAtSampleX: real, beamSizeAtSampleY: real, transmission: real, comments: string,
    dataCollectionNumber: int, detectorDistance: real, exposureTime: real,
    imageDirectory: string, imagePrefix: string, imageSuffix: string, numImages: int,
    numPasses: int, overlap: int, flux: real, omegaStart: real, startImageNumber: int,
    resolution: real, wavelength: real, xBeam: real, yBeam: real, snapshots: Snapshots,
    synchrotronMode: string, undulatorGap: real, startTime: string, fileTemplate: string)

  datatype GridRecord = GridRecord(
    parentId: int, dxInMm: real, dyInMm: real, stepsX: int, stepsY: int,
    pixelsPerMicronX: real, pixelsPerMicronY: real, snapshotOffsetXPixel: int, snapshotOffsetYPixel: int,
    orientation: string, snaked: bool)

  /** A row written to the store. Positions and end-of-scan updates are written
      against an existing collection and take no id of their own. */
  datatype Row =
    | GroupRow(id: int, group: GroupRecord)
    | CollectionRow(id: int, collection: CollectionRecord)
    | PositionRow(dcId: int, position: (real, real, real))
    | GridRow(id: int, grid: GridRecord)
    | EndUpdate(dcId: int, groupId: int, endTime: string, runStatus: string)

  function VisitOf(p: FullParameters): Option<string>
  {
    GetVisitString(p.ispyb.visitPath, Some(p.detector.directory))
  }

  function ExperimentType(threeD: bool): string
  {
    if threeD then EXPERIMENT_TYPE_3D else EXPERIMENT_TYPE_2D
  }

  function GroupRecordOf(p: FullParameters, experimentType: string): GroupRecord
  {
    GroupRecord(VisitOf(p), experimentType, p.ispyb.sampleId, p.ispyb.sampleBarcode)
  }

  /** The name of the master file of a collection. */
  function FileTemplate(prefix: string, runNumber: int): string
  {
    prefix + "_" + IntToString(runNumber) + "_master.h5"
  }

  /** The record `_store_data_collection_table` writes for one collection. */
  function CollectionRecordOf(p: FullParameters, groupId: int, omegaStart: real, runNumber: int,
                              snapshots: Snapshots, startTime: string): CollectionRecord
  {
    CollectionRecord(
      VisitOf(p), groupId, p.ispyb.sampleId, I03_EIGER_DETECTOR,
      omegaStart, omegaStart, 0.0,
      p.ispyb.focalSpotSizeX, p.ispyb.focalSpotSizeY, p.ispyb.slitGapSizeY, p.ispyb.slitGapSizeX,
      p.ispyb.beamSizeX, p.ispyb.beamSizeY, p.ispyb.transmission, "Artemis: " + p.ispyb.comment,
      runNumber, p.detector.detectorDistance, p.detector.exposureTime,
      p.detector.directory, p.detector.prefix, EIGER_FILE_SUFFIX, p.detector.numImages,
      1, 0, p.ispyb.flux, omegaStart, 1,
      p.ispyb.resolution, p.ispyb.wavelength, p.detector.beamPosition.0, p.detector.beamPosition.1, snapshots,
      p.ispyb.synchrotronMode, p.ispyb.undulatorGap, startTime, FileTemplate(p.detector.prefix, runNumber))
  }

  /** The record `_store_grid_info_table` writes for one collection. */
  function GridRecordOf(p: FullParameters, dcId: int): GridRecord
  {
    GridRecord(dcId, p.grid.xStepSize, p.grid.yStepSize, p.grid.xSteps, p.grid.ySteps,
               p.ispyb.pixelsPerMicronX, p.ispyb.pixelsPerMicronY, p.ispyb.upperLeft.0, p.ispyb.upperLeft.1,
               ORIENTATION_HORIZONTAL, true)
  }

  /** A collection is recorded as a still at its omega start: the axis neither
      starts nor ends anywhere else; one pass, no overlap, images numbered
      from 1, the Eiger detector, and a comment and a master file named after
      the prefix and run. */
  lemma CollectionRecordFields(p: FullParameters, groupId: int, omegaStart: real, runNumber: int,
                               snapshots: Snapshots, startTime: string)
    ensures var c := CollectionRecordOf(p, groupId, omegaStart, runNumber, snapshots, startTime);
            c.axisStart == c.axisEnd == c.omegaStart == omegaStart && c.axisRange == 0.0 &&
            c.numPasses == 1 && c.overlap == 0 && c.startImageNumber == 1 &&
            c.detectorId == 78 && c.imageSuffix == "h5" && c.parentId == groupId &&
            c.dataCollectionNumber == runNumber &&
            c.comments[..9] == "Artemis: " && c.comments[9..] == p.ispyb.comment &&
            c.slitGapVertical == p.ispyb.slitGapSizeY && c.slitGapHorizontal == p.ispyb.slitGapSizeX &&
            c.fileTemplate[..|p.detector.prefix|] == p.detector.prefix &&
            c.fileTemplate[|c.fileTemplate| - 10..] == "_master.h5"
  {
  }

  /** The rows a scan writes, from `firstId` on: the group, then for each
      collection its record, its position and its grid. A 3D scan's second
      collection is 90 degrees further round, has the next run number and
      carries the omega-end snapshots. */
  function ScanRows(p: FullParameters, threeD: bool, firstId: int, clock: nat -> string, tick: nat): seq<Row>
  {
    FirstRows(p, ExperimentType(threeD), firstId, clock(tick)) +
    (if threeD then SecondRows(p, firstId, clock(tick + 1)) else [])
  }

  /** The group row and the rows of the first collection of a scan. */
  function FirstRows(p: FullParameters, experimentType: string, firstId: int, startTime: string): seq<Row>
  {
    [GroupRow(firstId, GroupRecordOf(p, experimentType))] +
    CollectionRows(p, firstId, firstId + 1, p.detector.omegaStart, p.detector.runNumber,
                   p.ispyb.xtalSnapshotsOmegaStart, startTime)
  }

  /** The rows of the second collection of a 3D scan. */
  function SecondRows(p: FullParameters, groupId: int, startTime: string): seq<Row>
  {
    CollectionRows(p, groupId, groupId + 3, p.detector.omegaStart + 90.0, p.detector.runNumber + 1,
                   p.ispyb.xtalSnapshotsOmegaEnd, startTime)
  }

  /** The rows of one collection: its record, its position and its grid. */
  function CollectionRows(p: FullParameters, groupId: int, dcId: int, omegaStart: real, runNumber: int,
                          snapshots: Snapshots, startTime: string): seq<Row>
  {
    [CollectionRow(dcId, CollectionRecordOf(p, groupId, omegaStart, runNumber, snapshots, startTime)),
     PositionRow(dcId, p.ispyb.position),
     GridRow(dcId + 1, GridRecordOf(p, dcId))]
  }

  /** The ids a scan returns: its collections, its grids and its group. */
  function ScanIds(threeD: bool, firstId: int): (seq<int>, seq<int>, int)
  {
    if threeD then ([firstId + 1, firstId + 3], [firstId + 2, firstId + 4], firstId)
    else ([firstId + 1], [firstId + 2], firstId)
  }

  /** A 3D scan stores two collections and a 2D scan one; every collection
      belongs to the group, has its position and its grid, and the ids
      returned are the ids of those rows. */
  lemma ScanLayout(p: FullParameters, threeD: bool, firstId: int, clock: nat -> string, tick: nat)
    ensures var rows := ScanRows(p, threeD, firstId, clock, tick);
            var (dcIds, gridIds, groupId) := ScanIds(threeD, firstId);
            |rows| == 1 + 3 * |dcIds| && |dcIds| == |gridIds| == (if threeD then 2 else 1) &&
            rows[0] == GroupRow(groupId, GroupRecordOf(p, if threeD then "Mesh3D" else "mesh")) &&
            forall c :: 0 <= c < |dcIds| ==>
              rows[1 + 3 * c].CollectionRow? && rows[1 + 3 * c].id == dcIds[c] &&
              rows[1 + 3 * c].collection.parentId == groupId &&
              rows[2 + 3 * c] == PositionRow(dcIds[c], p.ispyb.position) &&
              rows[3 + 3 * c].GridRow? && rows[3 + 3 * c].id == gridIds[c] &&
              rows[3 + 3 * c].grid.parentId == dcIds[c] &&
              rows[3 + 3 * c].grid.snaked && rows[3 + 3 * c].grid.orientation == ORIENTATION_HORIZONTAL
  {
  }

  /** The two collections of a 3D scan get different ids, and so do their
      two grids: each pair comes from two inserts into the same table. */
  lemma ScanIdsDistinct(threeD: bool, firstId: int)
    ensures var (dcIds, gridIds, groupId) := ScanIds(threeD, firstId);
            (forall a, b :: 0 <= a < b < |dcIds| ==> dcIds[a] != dcIds[b]) &&
            (forall a, b :: 0 <= a < b < |gridIds| ==> gridIds[a] != gridIds[b])
  {
  }

  /** The second collection of a 3D scan differs from the first only in its
      omega start (90 degrees on), its run number (one on), its snapshots
      (those at omega end) and its start time. */
  lemma SecondCollectionShifted(p: FullParameters, firstId: int, clock: nat -> string, tick: nat)
    ensures var rows := ScanRows(p, true, firstId, clock, tick);
            var c1 := rows[1].collection;
            var c2 := rows[4].collection;
            c2.omegaStart == c1.omegaStart + 90.0 && c2.axisStart == c1.axisStart + 90.0 &&
            c2.dataCollectionNumber == c1.dataCollectionNumber + 1 &&
            c1.snapshots == p.ispyb.xtalSnapshotsOmegaStart && c2.snapshots == p.ispyb.xtalSnapshotsOmegaEnd &&
            c2 == c1.(axisStart := c2.axisStart, axisEnd := c2.axisEnd, omegaStart := c2.omegaStart,
                      dataCollectionNumber := c2.dataCollectionNumber, snapshots := c2.snapshots,
                      startTime := c2.startTime, fileTemplate := c2.fileTemplate)
  {
  }

  lemma RowsAssociative(a: seq<Row>, b: seq<Row>, c: seq<Row>)
    ensures (a + b) + c == a + (b + c)
  {
  }

  /** The end-of-scan updates: every collection gets the same end time, the
      same status and the group. */
  function EndRows(dcIds: seq<int>, groupId: int, endTime: string, runStatus: string): seq<Row>
  {
    if dcIds == [] then []
    else EndRows(dcIds[..|dcIds| - 1], groupId, endTime, runStatus) + [EndUpdate(dcIds[|dcIds| - 1], groupId, endTime, runStatus)]
  }

  lemma {:induction false} EndRowsEach(dcIds: seq<int>, groupId: int, endTime: string, runStatus: string)
    ensures |EndRows(dcIds, groupId, endTime, runStatus)| == |dcIds|
    ensures forall i :: 0 <= i < |dcIds| ==>
              EndRows(dcIds, groupId, endTime, runStatus)[i] == EndUpdate(dcIds[i], groupId, endTime, runStatus)
  {
    if dcIds != [] {
      EndRowsEach(dcIds[..|dcIds| - 1], groupId, endTime, runStatus);
    }
  }

  /** The status of a scan that ends with or without an exception. */
  function RunStatus(exception: bool): (s: string)
    ensures s == RUN_UNSUCCESSFUL <==> exception
    ensures s == RUN_SUCCESSFUL <==> !exception
  {
    if exception then RUN_UNSUCCESSFUL else RUN_SUCCESSFUL
  }

  // ---------------------------------------------------------------------------
  // The store
  // ---------------------------------------------------------------------------

  /** `StoreInIspyb3D` (`threeD`) or `StoreInIspyb2D`, over a store that issues
      the ids `nextId`, `nextId + 1`, ... and a wall clock read through `clock`
      at `ticks`. */
  class IspybStore {
    const threeD: bool
    const experimentType: string
    const clock: nat -> string
    var ticks: nat
    var fullParams: Option<FullParameters>
    var omegaStart: real
    var runNumber: int
    var xtalSnapshots: Snapshots
    var rows: seq<Row>
    var nextId: int
    var datacollectionIds: seq<int>
    var gridIds: seq<int>
    var datacollectionGroupId: int

    constructor(threeD: bool, clock: nat -> string, parameters: Option<FullParameters>, firstId: int)
      ensures this.threeD == threeD && this.clock == clock && fullParams == parameters
      ensures experimentType == ExperimentType(threeD)
      ensures ticks == 0 && rows == [] && nextId == firstId
      ensures datacollectionIds == [] && gridIds == []
    {
      this.threeD := threeD;
      experimentType := if threeD then EXPERIMENT_TYPE_3D else EXPERIMENT_TYPE_2D;
      this.clock := clock;
      ticks := 0;
      fullParams := parameters;
      omegaStart := 0.0;
      runNumber := 0;
      xtalSnapshots := Snapshots("", "", "");
      rows := [];
      nextId := firstId;
      datacollectionIds := [];
      gridIds := [];
      datacollectionGroupId := 0;
    }

    method GetCurrentTimeString() returns (now: string)
      modifies this`ticks
      ensures now == clock(old(ticks)) && ticks == old(ticks) + 1
    {
      now := clock(ticks);
      ticks := ticks + 1;
    }

    /** Writes a row with the next id. */
    method Upsert(row: int -> Row) returns (id: int)
      modifies this`rows, this`nextId
      ensures id == old(nextId) && nextId == old(nextId) + 1 && rows == old(rows) + [row(id)]
    {
      id := nextId;
      rows := rows + [row(id)];
      nextId := nextId + 1;
    }

    method StoreDataCollectionGroupTable() returns (id: int)
      requires fullParams.Some?
      modifies this`rows, this`nextId
      ensures id == old(nextId) && nextId == old(nextId) + 1
      ensures rows == old(rows) + [GroupRow(id, GroupRecordOf(fullParams.value, experimentType))]
    {
      var record := GroupRecordOf(fullParams.value, experimentType);
      id := Upsert(id => GroupRow(id, record));
    }

    method StoreDataCollectionTable(groupId: int) returns (id: int)
      requires fullParams.Some?
      modifies this`rows, this`nextId, this`ticks
      ensures id == old(nextId) && nextId == old(nextId) + 1 && ticks == old(ticks) + 1
      ensures rows == old(rows) + [CollectionRow(id, CollectionRecordOf(fullParams.value, groupId, omegaStart, runNumber,
                                                                        xtalSnapshots, clock(old(ticks))))]
    {
      var now := GetCurrentTimeString();
      var record := CollectionRecordOf(fullParams.value, groupId, omegaStart, runNumber, xtalSnapshots, now);
      id := Upsert(id => CollectionRow(id, record));
    }

    method StorePositionTable(dcId: int)
      requires fullParams.Some?
      modifies this`rows
      ensures rows == old(rows) + [PositionRow(dcId, fullParams.value.ispyb.position)]
    {
      rows := rows + [PositionRow(dcId, fullParams.value.ispyb.position)];
    }

    method StoreGridInfoTable(dcId: int) returns (id: int)
      requires fullParams.Some?
      modifies this`rows, this`nextId
      ensures id == old(nextId) && nextId == old(nextId) + 1
      ensures rows == old(rows) + [GridRow(id, GridRecordOf(fullParams.value, dcId))]
    {
      var record := GridRecordOf(fullParams.value, dcId);
      id := Upsert(id => GridRow(id, record));
    }

    /** The second collection of a 3D scan: 90 degrees on, the next run, the
        omega-end snapshots. */
    method PrepareSecondScanParams()
      requires fullParams.Some?
      modifies this`omegaStart, this`runNumber, this`xtalSnapshots
      ensures omegaStart == old(omegaStart) + 90.0 && runNumber == old(runNumber) + 1
      ensures xtalSnapshots == fullParams.value.ispyb.xtalSnapshotsOmegaEnd
    {
      omegaStart := omegaStart + 90.0;
      runNumber := runNumber + 1;
      xtalSnapshots := fullParams.value.ispyb.xtalSnapshotsOmegaEnd;
    }

    /** One collection of a scan: its record, then its position, then its grid. */
    method StoreCollection(groupId: int) returns (dcId: int, gridId: int)
      requires fullParams.Some?
      modifies this`rows, this`nextId, this`ticks
      ensures dcId == old(nextId) && gridId == dcId + 1 && nextId == old(nextId) + 2 && ticks == old(ticks) + 1
      ensures rows == old(rows) + CollectionRows(fullParams.value, groupId, dcId, omegaStart, runNumber,
                                                 xtalSnapshots, clock(old(ticks)))
    {
      dcId := StoreDataCollectionTable(groupId);
      StorePositionTable(dcId);
      gridId := StoreGridInfoTable(dcId);
    }

    /** The group and the first collection of a scan. */
    method StoreGroupAndFirstCollection() returns (groupId: int, dcId: int, gridId: int)
      requires fullParams.Some?
      requires omegaStart == fullParams.value.detector.omegaStart && runNumber == fullParams.value.detector.runNumber
      requires xtalSnapshots == fullParams.value.ispyb.xtalSnapshotsOmegaStart
      modifies this`rows, this`nextId, this`ticks
      ensures groupId == old(nextId) && dcId == groupId + 1 && gridId == groupId + 2
      ensures nextId == old(nextId) + 3 && ticks == old(ticks) + 1
      ensures rows == old(rows) + FirstRows(fullParams.value, experimentType, groupId, clock(old(ticks)))
    {
      groupId := StoreDataCollectionGroupTable();
      dcId, gridId := StoreCollection(groupId);
    }

    /** The second collection of a 3D scan, on the shifted parameters. */
    method StoreSecondCollection(groupId: int) returns (dcId: int, gridId: int)
      requires fullParams.Some?
      requires omegaStart == fullParams.value.detector.omegaStart && runNumber == fullParams.value.detector.runNumber
      requires nextId == groupId + 3
      modifies this`rows, this`nextId, this`ticks, this`omegaStart, this`runNumber, this`xtalSnapshots
      ensures dcId == old(nextId) && gridId == dcId + 1 && nextId == old(nextId) + 2 && ticks == old(ticks) + 1
      ensures rows == old(rows) + SecondRows(fullParams.value, groupId, clock(old(ticks)))
    {
      PrepareSecondScanParams();
      dcId, gridId := StoreCollection(groupId);
    }

    /** The scan of the 2D store: the group and one collection. */
    method StoreTwoDimensionalScan() returns (dcIds: seq<int>, grids: seq<int>, groupId: int)
      requires fullParams.Some?
      requires omegaStart == fullParams.value.detector.omegaStart && runNumber == fullParams.value.detector.runNumber
      requires xtalSnapshots == fullParams.value.ispyb.xtalSnapshotsOmegaStart
      requires experimentType == ExperimentType(false)
      modifies this`rows, this`nextId, this`ticks
      ensures rows == old(rows) + ScanRows(fullParams.value, false, old(nextId), clock, old(ticks))
      ensures (dcIds, grids, groupId) == ScanIds(false, old(nextId))
      ensures nextId == old(nextId) + 3 && ticks == old(ticks) + 1
    {
      ghost var n0, t0 := nextId, ticks;
      var dc, grid;
      groupId, dc, grid := StoreGroupAndFirstCollection();
      dcIds, grids := [dc], [grid];
      ghost var first := FirstRows(fullParams.value, experimentType, groupId, clock(t0));
      assert ScanRows(fullParams.value, false, n0, clock, t0) == first + [] == first;
    }

    /** The scan of the 3D store: the group, the first collection and the
        second one. */
    method StoreThreeDimensionalScan() returns (dcIds: seq<int>, grids: seq<int>, groupId: int)
      requires fullParams.Some?
      requires omegaStart == fullParams.value.detector.omegaStart && runNumber == fullParams.value.detector.runNumber
      requires xtalSnapshots == fullParams.value.ispyb.xtalSnapshotsOmegaStart
      requires experimentType == ExperimentType(true)
      modifies this`rows, this`nextId, this`ticks, this`omegaStart, this`runNumber, this`xtalSnapshots
      ensures rows == old(rows) + ScanRows(fullParams.value, true, old(nextId), clock, old(ticks))
      ensures (dcIds, grids, groupId) == ScanIds(true, old(nextId))
      ensures nextId == old(nextId) + 5 && ticks == old(ticks) + 2
    {
      ghost var r0, n0, t0 := rows, nextId, ticks;
      var dc1, grid1;
      groupId, dc1, grid1 := StoreGroupAndFirstCollection();
      var dc2, grid2 := StoreSecondCollection(groupId);
      dcIds, grids := [dc1, dc2], [grid1, grid2];
      ghost var first := FirstRows(fullParams.value, experimentType, groupId, clock(t0));
      ghost var second := SecondRows(fullParams.value, groupId, clock(t0 + 1));
      assert ScanRows(fullParams.value, true, n0, clock, t0) == first + second;
      RowsAssociative(r0, first, second);
    }

    /** `_store_scan_data` of the 3D or the 2D store. */
    method StoreScanData() returns (dcIds: seq<int>, grids: seq<int>, groupId: int)
      requires fullParams.Some?
      requires omegaStart == fullParams.value.detector.omegaStart && runNumber == fullParams.value.detector.runNumber
      requires xtalSnapshots == fullParams.value.ispyb.xtalSnapshotsOmegaStart
      requires experimentType == ExperimentType(threeD)
      modifies this`rows, this`nextId, this`ticks, this`omegaStart, this`runNumber, this`xtalSnapshots
      ensures rows == old(rows) + ScanRows(fullParams.value, threeD, old(nextId), clock, old(ticks))
      ensures (dcIds, grids, groupId) == ScanIds(threeD, old(nextId))
      ensures nextId == old(nextId) + (if threeD then 5 else 3)
      ensures ticks == old(ticks) + (if threeD then 2 else 1)
    {
      if threeD {
        dcIds, grids, groupId := StoreThreeDimensionalScan();
      } else {
        dcIds, grids, groupId := StoreTwoDimensionalScan();
      }
    }

    /** `store_grid_scan`: takes the parameters, then writes the scan. */
    method StoreGridScan(p: FullParameters) returns (dcIds: seq<int>, grids: seq<int>, groupId: int)
      requires experimentType == ExperimentType(threeD)
      modifies this`rows, this`nextId, this`ticks, this`omegaStart, this`runNumber, this`xtalSnapshots, this`fullParams
      ensures fullParams == Some(p)
      ensures rows == old(rows) + ScanRows(p, threeD, old(nextId), clock, old(ticks))
      ensures (dcIds, grids, groupId) == ScanIds(threeD, old(nextId))
      ensures nextId == old(nextId) + (if threeD then 5 else 3)
      ensures ticks == old(ticks) + (if threeD then 2 else 1)
    {
      fullParams := Some(p);
      runNumber := p.detector.runNumber;
      omegaStart := p.detector.omegaStart;
      xtalSnapshots := p.ispyb.xtalSnapshotsOmegaStart;
      dcIds, grids, groupId := StoreScanData();
    }

    /** `__enter__`: stores the scan of the parameters the store was made with
        and keeps its ids. */
    method Enter() returns (dcIds: seq<int>, grids: seq<int>, groupId: int)
      requires fullParams.Some? && experimentType == ExperimentType(threeD)
      modifies this
      ensures rows == old(rows) + ScanRows(old(fullParams).value, threeD, old(nextId), clock, old(ticks))
      ensures (dcIds, grids, groupId) == ScanIds(threeD, old(nextId))
      ensures datacollectionIds == dcIds && gridIds == grids && datacollectionGroupId == groupId
      ensures nextId == old(nextId) + (if threeD then 5 else 3)
      ensures fullParams == old(fullParams)
    {
      dcIds, grids, groupId := StoreGridScan(fullParams.value);
      datacollectionIds, gridIds, datacollectionGroupId := dcIds, grids, groupId;
    }

    method UpdateGridScanWithEndTimeAndStatus(endTime: string, runStatus: string, dcId: int, groupId: int) returns (id: int)
      modifies this`rows
      ensures id == dcId && rows == old(rows) + [EndUpdate(dcId, groupId, endTime, runStatus)]
    {
      rows := rows + [EndUpdate(dcId, groupId, endTime, runStatus)];
      id := dcId;
    }

    /** `__exit__`: one clock reading, then every collection is updated with it
        and with the status the exception calls for. */
    method Exit(exception: bool)
      modifies this`rows, this`ticks
      ensures ticks == old(ticks) + 1
      ensures rows == old(rows) + EndRows(datacollectionIds, datacollectionGroupId, clock(old(ticks)), RunStatus(exception))
    {
      var runStatus := if exception then RUN_UNSUCCESSFUL else RUN_SUCCESSFUL;
      var currentTime := GetCurrentTimeString();
      var i := 0;
      while i < |datacollectionIds|
        invariant 0 <= i <= |datacollectionIds|
        invariant rows == old(rows) + EndRows(datacollectionIds[..i], datacollectionGroupId, currentTime, runStatus)
        invariant ticks == old(ticks) + 1
      {
        assert datacollectionIds[..i + 1][..i] == datacollectionIds[..i];
        var _ := UpdateGridScanWithEndTimeAndStatus(currentTime, runStatus, datacollectionIds[i], datacollectionGroupId);
        i := i + 1;
      }
      assert datacollectionIds[..i] == datacollectionIds;
    }
  }
}

/** Setting up the PandA for a fly scan: loading its base configuration,
    homing the X encoder, writing the six-row sequencer table that gates the
    detector's triggers on the X position, and arming and disarming the
    sequencer and pulse blocks. */
module SetupPanda {
  import opened Wrappers
  import opened Plans

  /** The PandA signals the plans set: the X encoder's set point, sequencer
      1's table and enable, pulse 1's and clock 1's enables; `LoadDevice` is
      the call that loads a saved configuration. */
  datatype Name = LoadDevice | Inenc1Setp | Seq1Table | Seq1Enable | Pulse1Enable | Clock1Enable

  const MM_TO_ENCODER_COUNTS: int := 20000
  /** Seconds allowed for a wait on the PandA. */
  const GENERAL_TIMEOUT: int := 60
  const ARM_GROUP: string := "arm_panda_gridscan"
  const DISARM_GROUP: string := "disarm_panda_gridscan"

  const INT32_MIN: int := -0x8000_0000
  const INT32_MAX: int := 0x7fff_ffff

  /** The grid parameters the table uses: where the first row of the grid
      starts in X and the width of one step, both in mm. */
  datatype PandaGridScanParams = PandaGridScanParams(xStart: real, xStepSize: real)

  /** numpy's conversion of a float to an integer type: truncation toward 0. */
  function Trunc(r: real): (i: int)
    ensures (r >= 0.0 ==> 0 <= i && i as real <= r < i as real + 1.0)
    ensures (r < 0.0 ==> i <= 0 && i as real - 1.0 < r <= i as real)
  {
    if r >= 0.0 then r.Floor else -((-r).Floor)
  }

  /** Truncation keeps order. */
  lemma TruncMonotone(a: real, b: real)
    requires a <= b
    ensures Trunc(a) <= Trunc(b)
  {
    if a < 0.0 && b >= 0.0 {
    } else if a >= 0.0 {
      assert Trunc(b) as real > b - 1.0 >= a - 1.0 >= Trunc(a) as real - 1.0;
    } else {
      assert Trunc(a) as real < a + 1.0 <= b + 1.0 <= Trunc(b) as real + 1.0;
    }
  }

  /** Where the scan's first step starts, in encoder counts. */
  function StartCounts(p: PandaGridScanParams): real
  {
    p.xStart * MM_TO_ENCODER_COUNTS as real
  }

  /** Where the scan's first step ends, in encoder counts. */
  function StepEndCounts(p: PandaGridScanParams): real
  {
    p.xStart * MM_TO_ENCODER_COUNTS as real + p.xStepSize * MM_TO_ENCODER_COUNTS as real
  }

  /** Both positions fit the table's 32-bit position column. */
  predicate PositionsFit(p: PandaGridScanParams)
  {
    INT32_MIN <= Trunc(StartCounts(p)) <= INT32_MAX && INT32_MIN <= Trunc(StepEndCounts(p)) <= INT32_MAX
  }

  /** The sequencer table: a physical trigger, then wait for X to pass the
      step's start (signal on) and its end (signal off); a second physical
      trigger, then the same two positions passed the other way. */
  function FlyscanTable(p: PandaGridScanParams): (t: SeqTable)
    requires PositionsFit(p)
    ensures forall i :: 0 <= i < |t.position| ==> INT32_MIN <= t.position[i] <= INT32_MAX
  {
    var s := Trunc(StartCounts(p));
    var e := Trunc(StepEndCounts(p));
    var off := [false, false, false, false, false, false];
    SeqTable(
      repeats := [1, 1, 1, 1, 1, 1],
      trigger := [BitA1, PosAGt, PosAGt, BitA1, PosALt, PosALt],
      position := [0, s, e, 0, e, s],
      time1 := [0, 0, 0, 0, 0, 0],
      outa1 := [false, true, false, false, true, false],
      outb1 := off, outc1 := off, outd1 := off, oute1 := off, outf1 := off,
      time2 := [1, 1, 1, 1, 1, 1],
      outa2 := [false, true, false, false, true, false],
      outb2 := off, outc2 := off, outd2 := off, oute2 := off, outf2 := off)
  }

  /** Every column has the six rows; every row runs once, with no wait in its
      first phase and one tick in its second; only output A is ever used, and
      it is the same in both phases. */
  lemma FlyscanTableShape(p: PandaGridScanParams)
    requires PositionsFit(p)
    ensures var t := FlyscanTable(p);
            |t.repeats| == |t.trigger| == |t.position| == |t.time1| == |t.time2| == 6 &&
            |t.outa1| == |t.outa2| == |t.outb1| == |t.outf2| == 6 &&
            (forall i :: 0 <= i < 6 ==> t.repeats[i] == 1 && t.time1[i] == 0 && t.time2[i] == 1) &&
            (forall i :: 0 <= i < 6 ==>
               !t.outb1[i] && !t.outc1[i] && !t.outd1[i] && !t.oute1[i] && !t.outf1[i] &&
               !t.outb2[i] && !t.outc2[i] && !t.outd2[i] && !t.oute2[i] && !t.outf2[i]) &&
            t.outa1 == t.outa2
  {
  }

  /** The return sweep mirrors the outward one: rows 4 to 6 are rows 1 to 3
      with "greater than" turned into "less than" and the two positions in
      the opposite order, and the same outputs. */
  lemma FlyscanTableMirrored(p: PandaGridScanParams)
    requires PositionsFit(p)
    ensures var t := FlyscanTable(p);
            t.trigger[3] == t.trigger[0] == BitA1 &&
            t.trigger[1] == t.trigger[2] == PosAGt && t.trigger[4] == t.trigger[5] == PosALt &&
            t.position[3] == t.position[0] && t.position[4] == t.position[2] && t.position[5] == t.position[1] &&
            forall i :: 0 <= i < 3 ==> t.outa1[i + 3] == t.outa1[i]
  {
  }

  /** The detector is signalled exactly in the rows that follow a physical
      trigger: from passing the step's start until passing its end, in each
      direction. */
  lemma FlyscanSignalWindow(p: PandaGridScanParams)
    requires PositionsFit(p)
    ensures var t := FlyscanTable(p);
            forall i :: 0 <= i < 6 ==> (t.outa1[i] <==> 0 < i && t.trigger[i] != BitA1 && t.trigger[i - 1] == BitA1)
  {
  }

  /** The positions are the step's ends in encoder counts, truncated toward 0
      (each is less than one count from the exact value), and a forward step
      gives a forward outward sweep and a backward return sweep. */
  lemma FlyscanPositions(p: PandaGridScanParams)
    requires PositionsFit(p)
    ensures var t := FlyscanTable(p);
            -1.0 < t.position[1] as real - StartCounts(p) < 1.0 &&
            -1.0 < t.position[2] as real - StepEndCounts(p) < 1.0
    ensures p.xStepSize >= 0.0 ==>
              var t := FlyscanTable(p);
              t.position[1] <= t.position[2] && t.position[4] >= t.position[5]
  {
    if p.xStepSize >= 0.0 {
      TruncMonotone(StartCounts(p), StepEndCounts(p));
    }
  }

  /** `arm_panda_for_gridscan`: the sequencer and pulse blocks enabled in
      `group`, a wait on the default arming group, then, when asked, a wait on
      `group`. */
  function ArmPandaForGridscan(group: string, wait: bool): seq<Msg<Name>>
  {
    [AbsSet(Seq1Enable, Str("ONE"), Some(group), false),
     AbsSet(Pulse1Enable, Str("ONE"), Some(group), false),
     Wait(Some(ARM_GROUP), Some(GENERAL_TIMEOUT))] +
    (if wait then [Wait(Some(group), Some(GENERAL_TIMEOUT))] else [])
  }

  /** `disarm_panda_for_gridscan`: the sequencer, clock and pulse blocks
      disabled in `group`, a wait on the default disarming group, then, when
      asked, a wait on `group`. */
  function DisarmPandaForGridscan(group: string, wait: bool): seq<Msg<Name>>
  {
    [AbsSet(Seq1Enable, Str("ZERO"), Some(group), false),
     AbsSet(Clock1Enable, Str("ZERO"), Some(group), false),
     AbsSet(Pulse1Enable, Str("ZERO"), Some(group), false),
     Wait(Some(DISARM_GROUP), Some(GENERAL_TIMEOUT))] +
    (if wait then [Wait(Some(group), Some(GENERAL_TIMEOUT))] else [])
  }

  /** `setup_panda_for_flyscan`: the base configuration loaded, the X encoder
      homed at the initial X in counts (waited for), the table written, then
      the PandA armed and waited for. */
  function SetupPandaForFlyscan(configYamlPath: string, p: PandaGridScanParams, initialX: real): seq<Msg<Name>>
    requires PositionsFit(p)
  {
    [Call(LoadDevice, [Str(configYamlPath)]),
     AbsSet(Inenc1Setp, Real(initialX * MM_TO_ENCODER_COUNTS as real), None, true),
     SetTable(Seq1Table, FlyscanTable(p))] +
    ArmPandaForGridscan(ARM_GROUP, true)
  }

  /** The values the signals hold after `t` when they held `m` before it: the
      last value set on each. */
  function ApplyAll(m: map<Name, Value>, t: seq<Msg<Name>>): map<Name, Value>
  {
    if t == [] then m
    else
      var last := t[|t| - 1];
      var before := ApplyAll(m, t[..|t| - 1]);
      if last.AbsSet? then before[last.signal := last.value] else before
  }

  /** The values the signals hold after a trace from the start. */
  function Applied(t: seq<Msg<Name>>): map<Name, Value>
  {
    ApplyAll(map[], t)
  }

  lemma {:induction false} ApplyAllConcat(m: map<Name, Value>, a: seq<Msg<Name>>, b: seq<Msg<Name>>)
    ensures ApplyAll(m, a + b) == ApplyAll(ApplyAll(m, a), b)
  {
    if b == [] {
      assert a + b == a;
    } else {
      assert (a + b)[..|a + b| - 1] == a + b[..|b| - 1];
      ApplyAllConcat(m, a, b[..|b| - 1]);
    }
  }

  lemma ApplyAllOne(m: map<Name, Value>, x: Msg<Name>)
    ensures ApplyAll(m, [x]) == if x.AbsSet? then m[x.signal := x.value] else m
  {
    assert [x][..0] == [];
  }

  /** A trace that sets nothing changes nothing. */
  lemma {:induction false} ApplyAllNoSets(m: map<Name, Value>, t: seq<Msg<Name>>)
    requires forall i :: 0 <= i < |t| ==> !t[i].AbsSet?
    ensures ApplyAll(m, t) == m
  {
    if t != [] {
      ApplyAllNoSets(m, t[..|t| - 1]);
    }
  }

  /** The values after a set, a set and then messages that set nothing. */
  lemma ApplyTwoSets(m: map<Name, Value>, x: Msg<Name>, y: Msg<Name>, rest: seq<Msg<Name>>)
    requires x.AbsSet? && y.AbsSet?
    requires forall i :: 0 <= i < |rest| ==> !rest[i].AbsSet?
    ensures ApplyAll(m, [x, y] + rest) == m[x.signal := x.value][y.signal := y.value]
  {
    assert [x, y] + rest == [x] + ([y] + rest);
    ApplyAllConcat(m, [x], [y] + rest);
    ApplyAllOne(m, x);
    ApplyAllConcat(m[x.signal := x.value], [y], rest);
    ApplyAllOne(m[x.signal := x.value], y);
    ApplyAllNoSets(m[x.signal := x.value][y.signal := y.value], rest);
  }

  /** Arming leaves the sequencer and the pulse block enabled and touches
      nothing else. */
  lemma ArmEnables(m: map<Name, Value>, group: string, wait: bool)
    ensures ApplyAll(m, ArmPandaForGridscan(group, wait)) == m[Seq1Enable := Str("ONE")][Pulse1Enable := Str("ONE")]
  {
    var t := ArmPandaForGridscan(group, wait);
    assert t == [t[0], t[1]] + t[2..];
    ApplyTwoSets(m, t[0], t[1], t[2..]);
  }

  /** Disarming leaves the sequencer, the clock and the pulse block disabled
      and touches nothing else. */
  lemma DisarmDisables(m: map<Name, Value>, group: string, wait: bool)
    ensures ApplyAll(m, DisarmPandaForGridscan(group, wait)) ==
              m[Seq1Enable := Str("ZERO")][Clock1Enable := Str("ZERO")][Pulse1Enable := Str("ZERO")]
  {
    var t := DisarmPandaForGridscan(group, wait);
    assert t == [t[0]] + ([t[1], t[2]] + t[3..]);
    ApplyAllConcat(m, [t[0]], [t[1], t[2]] + t[3..]);
    ApplyAllOne(m, t[0]);
    ApplyTwoSets(m[Seq1Enable := Str("ZERO")], t[1], t[2], t[3..]);
  }

  /** Whatever the groups, disarming after arming leaves every block the arm
      enabled disabled again. */
  lemma DisarmUndoesArm(a: seq<Msg<Name>>, armGroup: string, armWait: bool, disarmGroup: string, disarmWait: bool)
    ensures var after := Applied(a + ArmPandaForGridscan(armGroup, armWait) + DisarmPandaForGridscan(disarmGroup, disarmWait));
            Seq1Enable in after && Pulse1Enable in after && Clock1Enable in after &&
            after[Seq1Enable] == Str("ZERO") && after[Pulse1Enable] == Str("ZERO") && after[Clock1Enable] == Str("ZERO")
  {
    ApplyAllConcat(map[], a + ArmPandaForGridscan(armGroup, armWait), DisarmPandaForGridscan(disarmGroup, disarmWait));
    DisarmDisables(Applied(a + ArmPandaForGridscan(armGroup, armWait)), disarmGroup, disarmWait);
  }

  /** The sets of an arm are awaited (some later wait names their group)
      exactly when their group is the default one or the caller asks for the
      wait: the first wait always names the default group. */
  lemma ArmWaitsForItsSets(group: string, wait: bool)
    ensures var t := ArmPandaForGridscan(group, wait);
            (exists j :: 2 <= j < |t| && t[j].Wait? && t[j].group == Some(group)) <==> (group == ARM_GROUP || wait)
  {
    var t := ArmPandaForGridscan(group, wait);
    if wait {
      assert t[3].Wait? && t[3].group == Some(group);
    } else if group == ARM_GROUP {
      assert t[2].Wait? && t[2].group == Some(group);
    } else {
      assert |t| == 3 && t[2].group != Some(group);
    }
  }

  /** Setting up homes the encoder at the initial X in counts and leaves the
      sequencer and the pulse block enabled; the table is written before the
      sequencer is enabled, and the arming is waited for. */
  lemma SetupThenArmed(configYamlPath: string, p: PandaGridScanParams, initialX: real)
    requires PositionsFit(p)
    ensures var t := SetupPandaForFlyscan(configYamlPath, p, initialX);
            var after := Applied(t);
            Inenc1Setp in after && Seq1Enable in after && Pulse1Enable in after &&
            after[Inenc1Setp] == Real(initialX * 20000.0) &&
            after[Seq1Enable] == Str("ONE") && after[Pulse1Enable] == Str("ONE") &&
            t[2] == SetTable(Seq1Table, FlyscanTable(p)) && t[3] == AbsSet(Seq1Enable, Str("ONE"), Some(ARM_GROUP), false) &&
            t[|t| - 1] == Wait(Some(ARM_GROUP), Some(GENERAL_TIMEOUT))
  {
    var load: Msg<Name> := Call(LoadDevice, [Str(configYamlPath)]);
    var home: Msg<Name> := AbsSet(Inenc1Setp, Real(initialX * MM_TO_ENCODER_COUNTS as real), None, true);
    var table: Msg<Name> := SetTable(Seq1Table, FlyscanTable(p));
    var arm := ArmPandaForGridscan(ARM_GROUP, true);
    assert SetupPandaForFlyscan(configYamlPath, p, initialX) == [load] + ([home] + ([table] + arm));
    ApplyAllConcat(map[], [load], [home] + ([table] + arm));
    ApplyAllOne(map[], load);
    ApplyAllConcat(map[], [home], [table] + arm);
    ApplyAllOne(map[], home);
    ApplyAllConcat(map[][Inenc1Setp := home.value], [table], arm);
    ApplyAllOne(map[][Inenc1Setp := home.value], table);
    ArmEnables(map[][Inenc1Setp := home.value], ARM_GROUP, true);
  }
}

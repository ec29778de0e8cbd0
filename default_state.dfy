/** The I03 unattended-data-collection (UDC) default-state sequence: checks of
    the cryojet, then guarded batches of moves, in an order chosen so that no
    motor move collides with another motor's position. A batch is one `mv`:
    every axis in it is set, and all are waited for, before the next batch. */
module DefaultState {
  /** The motors and read-only signals the sequence touches. */
  datatype Signal =
    | ScinY | ScinZ                       // scintillator stick
    | MaptX | MaptY | MaptZ               // mini aperture
    | SgX                                 // scatterguard
    | FluoPos                             // fluorescence detector
    | Chi | SgonX | SgonY | SgonZ | Phi | Omega   // smargon
    | GonpX | GonpZ                       // lower goniometer stages
    | BsX | BsY | BsZ                     // beamstop
    | CryoCourse | CryoFine               // cryojet
    | CryoTemp | CryoBackpress            // cryojet readings (never moved)

  /** A batch of concurrent moves: each axis it names and that axis's target. */
  type Batch = map<Signal, real>

  /** A command the sequence issues. */
  datatype Cmd = Rd(signal: Signal) | Mv(batch: Batch) | Null

  /** A line the sequence prints instead of aborting. */
  datatype Warning = TemperatureTooHigh(temp: real) | BackpressureTooHigh(backpressure: real)

  /** Named positions that belong to devices: the fluorescence detector's OUT and
      the cryojet's IN. */
  datatype Presets = Presets(fluoOut: real, cryoIn: real)

  predicate Complete(p: map<Signal, real>)
  {
    forall s: Signal :: s in p
  }

  const TEMPERATURE_LIMIT: real := 110.0
  const BACKPRESSURE_LIMIT: real := 0.1

  const SCIN_CLEAR_BATCH: Batch := map[ScinY := 0.015, MaptX := -4.91, SgX := -4.75]
  const SCIN_PARK_BATCH: Batch := map[ScinZ := 0.1]
  const BS_Z_BATCH: Batch := map[BsZ := 30.0]
  const BS_XY_BATCH: Batch := map[BsY := 45.0, BsX := 1.6]
  const CHI_BATCH: Batch := map[Chi := 0.0]
  const GONIO_BATCH: Batch := map[SgonX := 0.0, SgonY := 0.0, SgonZ := 0.0, Phi := 0.0, Omega := 0.0,
                                  GonpX := 0.0, GonpZ := 0.0]
  const MAPT_Z_BATCH: Batch := map[MaptZ := 15.8]
  const MAPT_XY_BATCH: Batch := map[MaptX := 2.564, MaptY := 31.4]

  function FluoBatch(pre: Presets): Batch { map[FluoPos := pre.fluoOut] }
  function CryoBatch(pre: Presets): Batch { map[CryoCourse := pre.cryoIn, CryoFine := pre.cryoIn] }

  /** The scintillator guard as the source writes it: both strict. */
  predicate ScinSafeAsWritten(p: map<Signal, real>)
    requires Complete(p)
  {
    p[ScinY] < 0.016 && p[ScinZ] < 0.1
  }

  /** The scintillator guard as intended: the parked position (y 0.015, z 0.1)
      itself counts as safe. */
  predicate ScinSafe(p: map<Signal, real>)
    requires Complete(p)
  {
    p[ScinY] < 0.016 && p[ScinZ] <= 0.1
  }

  predicate BeamstopIn(p: map<Signal, real>)
    requires Complete(p)
  {
    p[BsZ] > 25.0 && p[BsY] > 25.0
  }

  /** The commands of make_scin_safe under a guard outcome: read y, read z only
      when y passed (Python's `and` short-circuits), and when the guard fails,
      clear y, the mini aperture and the scatterguard in one batch before
      parking z. */
  function ScinCmds(p: map<Signal, real>, safe: bool): (r: seq<Cmd>)
    requires Complete(p)
    ensures |r| > 0 && r[0] == Rd(ScinY)
    ensures Rd(ScinZ) in r <==> p[ScinY] < 0.016
    ensures (exists i :: 0 <= i < |r| && r[i].Mv?) <==> !safe
  {
    var rds := ScinReads(p);
    assert !safe ==> (rds + ScinMoves(safe))[|rds|].Mv?;
    rds + ScinMoves(safe)
  }

  function ScinReads(p: map<Signal, real>): seq<Cmd>
    requires Complete(p)
  {
    [Rd(ScinY)] + (if p[ScinY] < 0.016 then [Rd(ScinZ)] else [])
  }

  function ScinMoves(safe: bool): seq<Cmd>
  {
    if safe then [] else [Mv(SCIN_CLEAR_BATCH), Mv(SCIN_PARK_BATCH)]
  }

  /** Positions after make_scin_safe under a guard outcome. */
  function ScinPositions(p: map<Signal, real>, safe: bool): (r: map<Signal, real>)
    requires Complete(p)
    ensures Complete(r)
  {
    if safe then p else p[ScinY := 0.015][MaptX := -4.91][SgX := -4.75][ScinZ := 0.1]
  }

  /** The commands of put_bs_in: read z, read y only when z passed, and when the
      beamstop is not in, move z before y and x. */
  function BsCmds(p: map<Signal, real>): (r: seq<Cmd>)
    requires Complete(p)
    ensures |r| > 0 && r[0] == Rd(BsZ)
    ensures Rd(BsY) in r <==> p[BsZ] > 25.0
    ensures (exists i :: 0 <= i < |r| && r[i].Mv?) <==> !(p[BsZ] > 25.0 && p[BsY] > 25.0)
  {
    var rds := BsReads(p);
    assert !BeamstopIn(p) ==> (rds + BsMoves(BeamstopIn(p)))[|rds|].Mv?;
    rds + BsMoves(BeamstopIn(p))
  }

  function BsReads(p: map<Signal, real>): seq<Cmd>
    requires Complete(p)
  {
    [Rd(BsZ)] + (if p[BsZ] > 25.0 then [Rd(BsY)] else [])
  }

  function BsMoves(isIn: bool): seq<Cmd>
  {
    if isIn then [] else [Mv(BS_Z_BATCH), Mv(BS_XY_BATCH)]
  }

  function BsPositions(p: map<Signal, real>): (r: map<Signal, real>)
    requires Complete(p)
    ensures Complete(r)
  {
    if BeamstopIn(p) then p else p[BsZ := 30.0][BsY := 45.0][BsX := 1.6]
  }

  /** Each check reads its signal, may print, and then yields a null message. */
  const CHECK_CMDS: seq<Cmd> := [Rd(CryoBackpress), Null, Rd(CryoTemp), Null]

  /** What the two checks print: backpressure first, then temperature. */
  function CheckWarnings(p: map<Signal, real>): (w: seq<Warning>)
    requires Complete(p)
    ensures |w| <= 2
    ensures BackpressureTooHigh(p[CryoBackpress]) in w <==> p[CryoBackpress] > BACKPRESSURE_LIMIT
    ensures TemperatureTooHigh(p[CryoTemp]) in w <==> p[CryoTemp] > TEMPERATURE_LIMIT
    ensures forall i :: 0 <= i < |w| ==> w[i] == BackpressureTooHigh(p[CryoBackpress]) || w[i] == TemperatureTooHigh(p[CryoTemp])
  {
    (if p[CryoBackpress] > BACKPRESSURE_LIMIT then [BackpressureTooHigh(p[CryoBackpress])] else [])
    + (if p[CryoTemp] > TEMPERATURE_LIMIT then [TemperatureTooHigh(p[CryoTemp])] else [])
  }

  /** The three unconditional batches between the scintillator and the beamstop. */
  function GonioCmds(pre: Presets): seq<Cmd>
  {
    [Mv(FluoBatch(pre)), Mv(CHI_BATCH), Mv(GONIO_BATCH)]
  }

  /** The three unconditional batches after the beamstop. */
  function FinalCmds(pre: Presets): seq<Cmd>
  {
    [Mv(MAPT_Z_BATCH), Mv(MAPT_XY_BATCH), Mv(CryoBatch(pre))]
  }

  /** The goniometer stage applied to positions `q`: the fluorescence detector
      out, then chi, then the goniometer axes at 0. */
  function GonioStage(q: map<Signal, real>, pre: Presets): (r: map<Signal, real>)
    requires Complete(q)
    ensures Complete(r)
  {
    q[FluoPos := pre.fluoOut][Chi := 0.0]
      [SgonX := 0.0][SgonY := 0.0][SgonZ := 0.0][Phi := 0.0][Omega := 0.0][GonpX := 0.0][GonpZ := 0.0]
  }

  /** The final stage applied to positions `q`: the mini aperture's z, then its
      x and y, then the cryojet in. */
  function FinalStage(q: map<Signal, real>, pre: Presets): (r: map<Signal, real>)
    requires Complete(q)
    ensures Complete(r)
  {
    q[MaptZ := 15.8][MaptX := 2.564][MaptY := 31.4][CryoCourse := pre.cryoIn][CryoFine := pre.cryoIn]
  }

  /** Positions once the goniometer is zeroed: after make_scin_safe (guard as
      written) and the goniometer stage. */
  function GonioPositions(p: map<Signal, real>, pre: Presets): (r: map<Signal, real>)
    requires Complete(p)
    ensures Complete(r)
  {
    GonioStage(ScinPositions(p, ScinSafeAsWritten(p)), pre)
  }

  /** Positions at the end of move_to_default_UDC_state. */
  function DefaultPositions(p: map<Signal, real>, pre: Presets): (r: map<Signal, real>)
    requires Complete(p)
    ensures Complete(r)
  {
    FinalStage(BsPositions(GonioPositions(p, pre)), pre)
  }

  /** Commands of move_to_default_UDC_state, in order. */
  function DefaultCmds(p: map<Signal, real>, pre: Presets): seq<Cmd>
    requires Complete(p)
  {
    CHECK_CMDS + ScinCmds(p, ScinSafeAsWritten(p)) + GonioCmds(pre) + BsCmds(GonioPositions(p, pre)) + FinalCmds(pre)
  }

  // ----- The commands move the beamline to the computed positions -----

  /** The positions a command sequence leaves: every batch applied in order. */
  function RunCmds(p: map<Signal, real>, cmds: seq<Cmd>): map<Signal, real>
  {
    if cmds == [] then p
    else
      var last := cmds[|cmds| - 1];
      var before := RunCmds(p, cmds[..|cmds| - 1]);
      if last.Mv? then before + last.batch else before
  }

  lemma {:induction false} RunCmdsConcat(p: map<Signal, real>, a: seq<Cmd>, b: seq<Cmd>)
    ensures RunCmds(p, a + b) == RunCmds(RunCmds(p, a), b)
  {
    if b == [] {
      assert a + b == a;
    } else {
      assert (a + b)[..|a + b| - 1] == a + b[..|b| - 1];
      assert (a + b)[|a + b| - 1] == b[|b| - 1];
      RunCmdsConcat(p, a, b[..|b| - 1]);
    }
  }

  /** Reads and null messages move nothing. */
  lemma {:induction false} RunCmdsWithoutMoves(p: map<Signal, real>, cmds: seq<Cmd>)
    requires forall i :: 0 <= i < |cmds| ==> !cmds[i].Mv?
    ensures RunCmds(p, cmds) == p
  {
    if cmds != [] {
      RunCmdsWithoutMoves(p, cmds[..|cmds| - 1]);
    }
  }

  /** Two batches run in turn. */
  lemma RunTwoBatches(p: map<Signal, real>, x: Batch, y: Batch)
    ensures RunCmds(p, [Mv(x), Mv(y)]) == p + x + y
  {
    assert [Mv(x)][..0] == [];
    assert RunCmds(p, [Mv(x)]) == p + x;
    assert [Mv(x), Mv(y)][..1] == [Mv(x)];
  }

  /** Three batches run in turn. */
  lemma RunThreeBatches(p: map<Signal, real>, x: Batch, y: Batch, z: Batch)
    ensures RunCmds(p, [Mv(x), Mv(y), Mv(z)]) == p + x + y + z
  {
    assert [Mv(x), Mv(y), Mv(z)][..2] == [Mv(x), Mv(y)];
    RunTwoBatches(p, x, y);
  }

  /** The two scintillator batches, merged in turn, are the chain of updates. */
  lemma ScinBatchesApply(q: map<Signal, real>)
    ensures q + SCIN_CLEAR_BATCH + SCIN_PARK_BATCH == q[ScinY := 0.015][MaptX := -4.91][SgX := -4.75][ScinZ := 0.1]
  {
  }

  lemma BsBatchesApply(q: map<Signal, real>)
    ensures q + BS_Z_BATCH + BS_XY_BATCH == q[BsZ := 30.0][BsY := 45.0][BsX := 1.6]
  {
  }

  lemma GonioBatchesApply(q: map<Signal, real>, pre: Presets)
    requires Complete(q)
    ensures q + FluoBatch(pre) + CHI_BATCH + GONIO_BATCH == GonioStage(q, pre)
  {
  }

  lemma FinalBatchesApply(q: map<Signal, real>, pre: Presets)
    requires Complete(q)
    ensures q + MAPT_Z_BATCH + MAPT_XY_BATCH + CryoBatch(pre) == FinalStage(q, pre)
  {
  }

  /** make_scin_safe's commands take the beamline to ScinPositions. */
  lemma RunScinCmds(p: map<Signal, real>, safe: bool)
    requires Complete(p)
    ensures RunCmds(p, ScinCmds(p, safe)) == ScinPositions(p, safe)
  {
    RunCmdsWithoutMoves(p, ScinReads(p));
    RunCmdsConcat(p, ScinReads(p), ScinMoves(safe));
    if !safe {
      RunTwoBatches(p, SCIN_CLEAR_BATCH, SCIN_PARK_BATCH);
      ScinBatchesApply(p);
    }
  }

  /** put_bs_in's commands take the beamline to BsPositions. */
  lemma RunBsCmds(p: map<Signal, real>)
    requires Complete(p)
    ensures RunCmds(p, BsCmds(p)) == BsPositions(p)
  {
    RunCmdsWithoutMoves(p, BsReads(p));
    RunCmdsConcat(p, BsReads(p), BsMoves(BeamstopIn(p)));
    if !BeamstopIn(p) {
      RunTwoBatches(p, BS_Z_BATCH, BS_XY_BATCH);
      BsBatchesApply(p);
    }
  }

  /** The trace up to the goniometer batches ends at GonioPositions. */
  lemma ReachGonioStage(p: map<Signal, real>, pre: Presets)
    requires Complete(p)
    ensures RunCmds(p, CHECK_CMDS + ScinCmds(p, ScinSafeAsWritten(p)) + GonioCmds(pre)) == GonioPositions(p, pre)
  {
    var sc := ScinCmds(p, ScinSafeAsWritten(p));
    var scin := ScinPositions(p, ScinSafeAsWritten(p));
    RunCmdsWithoutMoves(p, CHECK_CMDS);
    RunCmdsConcat(p, CHECK_CMDS, sc);
    RunScinCmds(p, ScinSafeAsWritten(p));
    RunCmdsConcat(p, CHECK_CMDS + sc, GonioCmds(pre));
    RunThreeBatches(scin, FluoBatch(pre), CHI_BATCH, GONIO_BATCH);
    GonioBatchesApply(scin, pre);
  }

  /** The batches move_to_default_UDC_state issues take the beamline exactly to
      the default positions: the command trace and the position model agree. */
  lemma DefaultCmdsReachDefaultPositions(p: map<Signal, real>, pre: Presets)
    requires Complete(p)
    ensures RunCmds(p, DefaultCmds(p, pre)) == DefaultPositions(p, pre)
  {
    var gonio := GonioPositions(p, pre);
    var upToGonio := CHECK_CMDS + ScinCmds(p, ScinSafeAsWritten(p)) + GonioCmds(pre);
    ReachGonioStage(p, pre);
    RunCmdsConcat(p, upToGonio, BsCmds(gonio));
    RunBsCmds(gonio);
    var bs := BsPositions(gonio);
    RunCmdsConcat(p, upToGonio + BsCmds(gonio), FinalCmds(pre));
    RunThreeBatches(bs, MAPT_Z_BATCH, MAPT_XY_BATCH, CryoBatch(pre));
    FinalBatchesApply(bs, pre);
  }

  // ----- Guards, the reached state and idempotence -----

  /** After make_scin_safe the scintillator is safe: either it passed the guard
      as written and nothing moved, or it sits at its parked position. Only the
      scintillator, the mini aperture x and the scatterguard x may have moved. */
  lemma MakeScinSafeEstablishesGuard(p: map<Signal, real>)
    requires Complete(p)
    ensures var r := ScinPositions(p, ScinSafeAsWritten(p));
      ScinSafe(r) && ScinSettled(r) &&
      forall s :: s !in {ScinY, ScinZ, MaptX, SgX} ==> r[s] == p[s]
  {
  }

  /** The beamstop is in after put_bs_in, and only the beamstop may have moved. */
  lemma PutBsInEstablishesGuard(p: map<Signal, real>)
    requires Complete(p)
    ensures var r := BsPositions(p);
      BeamstopIn(r) && forall s :: s !in {BsX, BsY, BsZ} ==> r[s] == p[s]
  {
  }

  /** The goniometer stage sets the fluorescence detector, chi and the
      goniometer axes, and moves nothing else. */
  lemma GonioStageSets(q: map<Signal, real>, pre: Presets)
    requires Complete(q)
    ensures var r := GonioStage(q, pre);
      r[FluoPos] == pre.fluoOut && r[Chi] == 0.0 &&
      r[SgonX] == 0.0 && r[SgonY] == 0.0 && r[SgonZ] == 0.0 && r[Phi] == 0.0 && r[Omega] == 0.0 &&
      r[GonpX] == 0.0 && r[GonpZ] == 0.0 &&
      forall s :: s !in {FluoPos, Chi, SgonX, SgonY, SgonZ, Phi, Omega, GonpX, GonpZ} ==> r[s] == q[s]
  {
  }

  /** The final stage sets the mini aperture and the cryojet, and moves nothing else. */
  lemma FinalStageSets(q: map<Signal, real>, pre: Presets)
    requires Complete(q)
    ensures var r := FinalStage(q, pre);
      r[MaptZ] == 15.8 && r[MaptX] == 2.564 && r[MaptY] == 31.4 &&
      r[CryoCourse] == pre.cryoIn && r[CryoFine] == pre.cryoIn &&
      forall s :: s !in {MaptZ, MaptX, MaptY, CryoCourse, CryoFine} ==> r[s] == q[s]
  {
  }

  /** The targets of the goniometer stage hold, and the scintillator is safe. */
  predicate GonioTargets(g: map<Signal, real>, pre: Presets)
    requires Complete(g)
  {
    ScinSafe(g) && g[FluoPos] == pre.fluoOut && g[Chi] == 0.0 &&
    g[SgonX] == 0.0 && g[SgonY] == 0.0 && g[SgonZ] == 0.0 && g[Phi] == 0.0 && g[Omega] == 0.0 &&
    g[GonpX] == 0.0 && g[GonpZ] == 0.0
  }

  /** The scintillator passes the guard as written, or sits where make_scin_safe
      parks it (y 0.015, z 0.1, scatterguard x -4.75). */
  predicate ScinSettled(r: map<Signal, real>)
    requires Complete(r)
  {
    ScinSafeAsWritten(r) || (r[ScinY] == 0.015 && r[ScinZ] == 0.1 && r[SgX] == -4.75)
  }

  /** The default state: the goniometer stage's targets, the scintillator
      settled, the beamstop in, and the mini aperture and cryojet at their
      final targets. */
  predicate AtDefault(r: map<Signal, real>, pre: Presets)
    requires Complete(r)
  {
    GonioTargets(r, pre) && ScinSettled(r) && BeamstopIn(r) &&
    r[MaptZ] == 15.8 && r[MaptX] == 2.564 && r[MaptY] == 31.4 &&
    r[CryoCourse] == pre.cryoIn && r[CryoFine] == pre.cryoIn
  }

  /** After the goniometer stage its targets hold and the cryojet readings are untouched. */
  lemma GonioStageReached(p: map<Signal, real>, pre: Presets)
    requires Complete(p)
    ensures var g := GonioPositions(p, pre);
      GonioTargets(g, pre) && ScinSettled(g) && g[CryoTemp] == p[CryoTemp] && g[CryoBackpress] == p[CryoBackpress]
  {
    var s := ScinPositions(p, ScinSafeAsWritten(p));
    MakeScinSafeEstablishesGuard(p);
    GonioStageSets(s, pre);
  }

  /** put_bs_in and the final stage keep the goniometer stage's targets and the
      settled scintillator. */
  lemma LaterStagesKeepGonioTargets(g: map<Signal, real>, pre: Presets)
    requires Complete(g) && GonioTargets(g, pre) && ScinSettled(g)
    ensures GonioTargets(BsPositions(g), pre) && GonioTargets(FinalStage(BsPositions(g), pre), pre)
    ensures ScinSettled(FinalStage(BsPositions(g), pre))
  {
    PutBsInEstablishesGuard(g);
    FinalStageSets(BsPositions(g), pre);
  }

  /** move_to_default_UDC_state reaches the default state and leaves the
      cryojet readings untouched. */
  lemma DefaultStateReached(p: map<Signal, real>, pre: Presets)
    requires Complete(p)
    ensures var r := DefaultPositions(p, pre);
      AtDefault(r, pre) && r[CryoTemp] == p[CryoTemp] && r[CryoBackpress] == p[CryoBackpress]
  {
    var g := GonioPositions(p, pre);
    GonioStageReached(p, pre);
    LaterStagesKeepGonioTargets(g, pre);
    PutBsInEstablishesGuard(g);
    FinalStageSets(BsPositions(g), pre);
  }

  /** make_scin_safe (corrected guard) is idempotent: from where it leaves the
      beamline, a second call reads y and z and moves nothing. */
  lemma MakeScinSafeIdempotent(p: map<Signal, real>)
    requires Complete(p)
    ensures var r := ScinPositions(p, ScinSafe(p));
      ScinCmds(r, ScinSafe(r)) == [Rd(ScinY), Rd(ScinZ)] && ScinPositions(r, ScinSafe(r)) == r
  {
  }

  /** put_bs_in is idempotent: its own targets (z 30, y 45) pass its guard, so a
      second call reads z and y and moves nothing. */
  lemma PutBsInIdempotent(p: map<Signal, real>)
    requires Complete(p)
    ensures var r := BsPositions(p);
      BsCmds(r) == [Rd(BsZ), Rd(BsY)] && BsPositions(r) == r
  {
  }

  /** The scintillator guard as written repeats its moves: wherever the stick
      starts, once make_scin_safe has moved it, z is 0.1, the strict `z < 0.1`
      fails again and a second call issues both batches again. */
  lemma ScinSafeAsWrittenRepeats(p: map<Signal, real>)
    requires Complete(p)
    ensures var r := ScinPositions(p, false);
      !ScinSafeAsWritten(r) &&
      ScinCmds(r, ScinSafeAsWritten(r)) == [Rd(ScinY), Rd(ScinZ), Mv(SCIN_CLEAR_BATCH), Mv(SCIN_PARK_BATCH)]
  {
  }

  /** A concrete instance: a stick already at its parked position (y 0.015,
      z 0.1) is moved again by the guard as written, but not by the corrected one. */
  lemma ScinParkedMovedAgainAsWritten(p: map<Signal, real>)
    requires Complete(p) && p[ScinY] == 0.015 && p[ScinZ] == 0.1
    ensures |ScinCmds(p, ScinSafeAsWritten(p))| == 4 && |ScinCmds(p, ScinSafe(p))| == 2
  {
  }

  /** In the default state every stage's targets already hold, so the stages
      leave the positions as they are. */
  lemma StagesFixDefaultState(r: map<Signal, real>, pre: Presets)
    requires Complete(r) && AtDefault(r, pre)
    ensures GonioStage(r, pre) == r && FinalStage(r, pre) == r
  {
    GonioStageSets(r, pre);
    FinalStageSets(r, pre);
  }

  /** From the default state the scintillator stage at most moves the mini
      aperture's x away, and the goniometer stage changes nothing else. */
  lemma GonioPositionsAtDefault(r: map<Signal, real>, pre: Presets)
    requires Complete(r) && AtDefault(r, pre)
    ensures GonioPositions(r, pre) == r || GonioPositions(r, pre) == r[MaptX := -4.91]
  {
    StagesFixDefaultState(r, pre);
    if !ScinSafeAsWritten(r) {
      var q := r[MaptX := -4.91];
      assert ScinPositions(r, false) == q;
      GonioStageSets(q, pre);
      assert GonioStage(q, pre) == q;
    }
  }

  /** From the default state the sequence moves nothing to a new position: the
      mini aperture x, which the scintillator batch may move, is put back by the
      final stage. */
  lemma DefaultPositionsFixAtDefault(r: map<Signal, real>, pre: Presets)
    requires Complete(r) && AtDefault(r, pre)
    ensures DefaultPositions(r, pre) == r
  {
    GonioPositionsAtDefault(r, pre);
    StagesFixDefaultState(r, pre);
    var g := GonioPositions(r, pre);
    assert BsPositions(g) == g;
    FinalStageSets(g, pre);
  }

  /** From the default state the sequence issues no beamstop move, and it
      re-issues the two scintillator batches exactly when the stick sits at
      z 0.1, which the guard as written does not accept. */
  lemma DefaultCmdsAtDefault(r: map<Signal, real>, pre: Presets)
    requires Complete(r) && AtDefault(r, pre)
    ensures DefaultCmds(r, pre) ==
      CHECK_CMDS + [Rd(ScinY), Rd(ScinZ)] + ScinMoves(ScinSafeAsWritten(r)) + GonioCmds(pre)
        + [Rd(BsZ), Rd(BsY)] + FinalCmds(pre)
    ensures !ScinSafeAsWritten(r) <==> r[ScinZ] == 0.1
  {
    GonioPositionsAtDefault(r, pre);
  }

  /** A second run of move_to_default_UDC_state moves nothing to a new position. */
  lemma DefaultStateIdempotent(p: map<Signal, real>, pre: Presets)
    requires Complete(p)
    ensures var r := DefaultPositions(p, pre); DefaultPositions(r, pre) == r
  {
    DefaultStateReached(p, pre);
    DefaultPositionsFixAtDefault(DefaultPositions(p, pre), pre);
  }

  /** The second run issues no beamstop move, and it repeats the two
      scintillator batches exactly when the first run issued them. */
  lemma SecondRunRepeatsScinMovesOnlyAfterParking(p: map<Signal, real>, pre: Presets)
    requires Complete(p)
    ensures var r := DefaultPositions(p, pre);
      DefaultCmds(r, pre) ==
        CHECK_CMDS + [Rd(ScinY), Rd(ScinZ)] + ScinMoves(ScinSafeAsWritten(p)) + GonioCmds(pre)
          + [Rd(BsZ), Rd(BsY)] + FinalCmds(pre)
  {
    var r := DefaultPositions(p, pre);
    DefaultStateReached(p, pre);
    DefaultCmdsAtDefault(r, pre);
    var g := GonioPositions(p, pre);
    GonioStageReached(p, pre);
    MakeScinSafeEstablishesGuard(p);
    GonioStageSets(ScinPositions(p, ScinSafeAsWritten(p)), pre);
    PutBsInEstablishesGuard(g);
    FinalStageSets(BsPositions(g), pre);
    assert ScinSafeAsWritten(r) == ScinSafeAsWritten(p);
  }

  // ----- Safety order of the batches -----

  predicate Moves(c: Cmd, s: Signal)
  {
    c.Mv? && s in c.batch
  }

  predicate Sets(c: Cmd, s: Signal, v: real)
  {
    c.Mv? && s in c.batch && c.batch[s] == v
  }

  /** Some batch of `cmds` moves `a`, and the last one that does sets it
      to `va`. */
  predicate LastMoveSets(cmds: seq<Cmd>, a: Signal, va: real)
  {
    cmds != [] &&
    if Moves(cmds[|cmds| - 1], a) then Sets(cmds[|cmds| - 1], a, va) else LastMoveSets(cmds[..|cmds| - 1], a, va)
  }

  /** Every batch that sets `b` to `v` leaves `a` alone and comes after `a`
      was last moved to `va` (batches complete before the next one starts),
      so `a` is at `va` when `b` goes to `v`. */
  predicate MovedBefore(cmds: seq<Cmd>, a: Signal, va: real, b: Signal, v: real)
  {
    cmds == [] ||
    (var prefix := cmds[..|cmds| - 1];
     MovedBefore(prefix, a, va, b, v) &&
     (Sets(cmds[|cmds| - 1], b, v) ==> !Moves(cmds[|cmds| - 1], a) && LastMoveSets(prefix, a, va)))
  }

  /** The order is kept when the first part is in order and every batch of the
      second part is in order given that the first part moved `a` whenever it needs to. */
  lemma {:induction false} MovedBeforeConcat(x: seq<Cmd>, y: seq<Cmd>, a: Signal, va: real, b: Signal, v: real)
    requires MovedBefore(x, a, va, b, v) && MovedBefore(y, a, va, b, v)
    ensures MovedBefore(x + y, a, va, b, v)
  {
    if y == [] {
      assert x + y == x;
    } else {
      var yp := y[..|y| - 1];
      assert (x + y)[..|x + y| - 1] == x + yp;
      assert (x + y)[|x + y| - 1] == y[|y| - 1];
      MovedBeforeConcat(x, yp, a, va, b, v);
      if Sets(y[|y| - 1], b, v) {
        LastMoveSetsAppend(x, yp, a, va);
      }
    }
  }

  lemma {:induction false} LastMoveSetsAppend(x: seq<Cmd>, y: seq<Cmd>, a: Signal, va: real)
    requires LastMoveSets(y, a, va)
    ensures LastMoveSets(x + y, a, va)
  {
    var yp := y[..|y| - 1];
    assert (x + y)[..|x + y| - 1] == x + yp;
    assert (x + y)[|x + y| - 1] == y[|y| - 1];
    if !Moves(y[|y| - 1], a) {
      LastMoveSetsAppend(x, yp, a, va);
    }
  }

  /** One more batch at the end: in order exactly when the sequence was, and
      the new batch, if it sets the target, leaves `a` alone after `a` moved. */
  lemma MovedBeforeSnoc(cmds: seq<Cmd>, c: Cmd, a: Signal, va: real, b: Signal, v: real)
    ensures MovedBefore(cmds + [c], a, va, b, v) <==>
      MovedBefore(cmds, a, va, b, v) && (Sets(c, b, v) ==> !Moves(c, a) && LastMoveSets(cmds, a, va))
  {
    assert (cmds + [c])[..|cmds|] == cmds;
  }

  lemma LastMoveSetsSnoc(cmds: seq<Cmd>, c: Cmd, a: Signal, va: real)
    ensures LastMoveSets(cmds + [c], a, va) <==> if Moves(c, a) then Sets(c, a, va) else LastMoveSets(cmds, a, va)
  {
    assert (cmds + [c])[..|cmds|] == cmds;
  }

  /** Groups of two and three batches are in order when no batch sets the
      target before `a` reached `va`, and none that sets it also moves `a`. */
  lemma MovedBeforeTwo(c0: Cmd, c1: Cmd, a: Signal, va: real, b: Signal, v: real)
    requires !Sets(c0, b, v)
    requires Sets(c1, b, v) ==> !Moves(c1, a) && Sets(c0, a, va)
    ensures MovedBefore([c0, c1], a, va, b, v)
    ensures LastMoveSets([c0, c1], a, va) <==> if Moves(c1, a) then Sets(c1, a, va) else Sets(c0, a, va)
  {
    MovedBeforeSnoc([], c0, a, va, b, v);
    MovedBeforeSnoc([c0], c1, a, va, b, v);
    LastMoveSetsSnoc([], c0, a, va);
    LastMoveSetsSnoc([c0], c1, a, va);
    assert [c0, c1] == [c0] + [c1] && [c0] == [] + [c0];
  }

  lemma MovedBeforeThree(c0: Cmd, c1: Cmd, c2: Cmd, a: Signal, va: real, b: Signal, v: real)
    requires !Sets(c0, b, v)
    requires Sets(c1, b, v) ==> !Moves(c1, a) && Sets(c0, a, va)
    requires Sets(c2, b, v) ==> !Moves(c2, a) && if Moves(c1, a) then Sets(c1, a, va) else Sets(c0, a, va)
    ensures MovedBefore([c0, c1, c2], a, va, b, v)
  {
    MovedBeforeTwo(c0, c1, a, va, b, v);
    MovedBeforeSnoc([c0, c1], c2, a, va, b, v);
    assert [c0, c1, c2] == [c0, c1] + [c2];
  }

  /** A sequence in which no batch sets `b` to `v` is trivially in order. */
  lemma {:induction false} MovedBeforeNoTarget(cmds: seq<Cmd>, a: Signal, va: real, b: Signal, v: real)
    requires forall i :: 0 <= i < |cmds| ==> !Sets(cmds[i], b, v)
    ensures MovedBefore(cmds, a, va, b, v)
  {
    if cmds != [] {
      MovedBeforeNoTarget(cmds[..|cmds| - 1], a, va, b, v);
    }
  }

  /** Five parts each in order, with the last four free of the target when
      their own order needs an earlier move, concatenate to a sequence in order. */
  lemma MovedBeforeFive(s1: seq<Cmd>, s2: seq<Cmd>, s3: seq<Cmd>, s4: seq<Cmd>, s5: seq<Cmd>,
                        a: Signal, va: real, b: Signal, v: real)
    requires MovedBefore(s1, a, va, b, v) && MovedBefore(s2, a, va, b, v) && MovedBefore(s3, a, va, b, v)
    requires MovedBefore(s4, a, va, b, v) && MovedBefore(s5, a, va, b, v)
    ensures MovedBefore(s1 + s2 + s3 + s4 + s5, a, va, b, v)
  {
    MovedBeforeConcat(s1, s2, a, va, b, v);
    MovedBeforeConcat(s1 + s2, s3, a, va, b, v);
    MovedBeforeConcat(s1 + s2 + s3, s4, a, va, b, v);
    MovedBeforeConcat(s1 + s2 + s3 + s4, s5, a, va, b, v);
  }

  lemma ScinCmdsMovedBefore(p: map<Signal, real>, safe: bool, a: Signal, va: real, b: Signal, v: real)
    requires Complete(p)
    requires MovedBefore(ScinMoves(false), a, va, b, v)
    ensures MovedBefore(ScinCmds(p, safe), a, va, b, v)
  {
    MovedBeforeNoTarget(ScinReads(p), a, va, b, v);
    MovedBeforeConcat(ScinReads(p), ScinMoves(safe), a, va, b, v);
  }

  lemma BsCmdsMovedBefore(p: map<Signal, real>, a: Signal, va: real, b: Signal, v: real)
    requires Complete(p)
    requires MovedBefore(BsMoves(false), a, va, b, v)
    ensures MovedBefore(BsCmds(p), a, va, b, v)
  {
    MovedBeforeNoTarget(BsReads(p), a, va, b, v);
    MovedBeforeConcat(BsReads(p), BsMoves(BeamstopIn(p)), a, va, b, v);
  }

  /** Every group of moves of the sequence, the guarded ones taken as moving,
      is in order. */
  predicate GroupsInOrder(pre: Presets, a: Signal, va: real, b: Signal, v: real)
  {
    MovedBefore(ScinMoves(false), a, va, b, v) && MovedBefore(GonioCmds(pre), a, va, b, v) &&
    MovedBefore(BsMoves(false), a, va, b, v) && MovedBefore(FinalCmds(pre), a, va, b, v)
  }

  /** The whole sequence is in order when each of its move groups is, whatever
      the guards decide. */
  lemma DefaultCmdsMovedBefore(p: map<Signal, real>, pre: Presets, a: Signal, va: real, b: Signal, v: real)
    requires Complete(p) && GroupsInOrder(pre, a, va, b, v)
    ensures MovedBefore(DefaultCmds(p, pre), a, va, b, v)
  {
    MovedBeforeNoTarget(CHECK_CMDS, a, va, b, v);
    ScinCmdsMovedBefore(p, ScinSafeAsWritten(p), a, va, b, v);
    BsCmdsMovedBefore(GonioPositions(p, pre), a, va, b, v);
    MovedBeforeFive(CHECK_CMDS, ScinCmds(p, ScinSafeAsWritten(p)), GonioCmds(pre), BsCmds(GonioPositions(p, pre)),
                    FinalCmds(pre), a, va, b, v);
  }

  /** Groups that never set `b` to `v` are in order whatever `a` is. */
  lemma ScinGroupNoTarget(a: Signal, va: real, b: Signal, v: real)
    requires b != ScinY && b != ScinZ && b != SgX && (b == MaptX ==> v != -4.91)
    ensures MovedBefore(ScinMoves(false), a, va, b, v)
  {
    MovedBeforeNoTarget(ScinMoves(false), a, va, b, v);
  }

  lemma GonioGroupNoTarget(pre: Presets, a: Signal, va: real, b: Signal, v: real)
    requires b !in {FluoPos, Chi, SgonX, SgonY, SgonZ, Phi, Omega, GonpX, GonpZ}
    ensures MovedBefore(GonioCmds(pre), a, va, b, v)
  {
    MovedBeforeNoTarget(GonioCmds(pre), a, va, b, v);
  }

  lemma BsGroupNoTarget(a: Signal, va: real, b: Signal, v: real)
    requires b !in {BsZ, BsY, BsX}
    ensures MovedBefore(BsMoves(false), a, va, b, v)
  {
    MovedBeforeNoTarget(BsMoves(false), a, va, b, v);
  }

  lemma FinalGroupNoTarget(pre: Presets, a: Signal, va: real, b: Signal, v: real)
    requires b !in {MaptZ, MaptX, MaptY, CryoCourse, CryoFine}
    ensures MovedBefore(FinalCmds(pre), a, va, b, v)
  {
    MovedBeforeNoTarget(FinalCmds(pre), a, va, b, v);
  }

  /** The stick's y, the mini aperture x and the scatterguard x are at their
      clearing positions when the stick's z parks. */
  lemma ScintillatorOrder(p: map<Signal, real>, pre: Presets, a: Signal)
    requires Complete(p) && a in SCIN_CLEAR_BATCH
    ensures MovedBefore(DefaultCmds(p, pre), a, SCIN_CLEAR_BATCH[a], ScinZ, 0.1)
  {
    var va := SCIN_CLEAR_BATCH[a];
    MovedBeforeTwo(Mv(SCIN_CLEAR_BATCH), Mv(SCIN_PARK_BATCH), a, va, ScinZ, 0.1);
    GonioGroupNoTarget(pre, a, va, ScinZ, 0.1);
    BsGroupNoTarget(a, va, ScinZ, 0.1);
    FinalGroupNoTarget(pre, a, va, ScinZ, 0.1);
    DefaultCmdsMovedBefore(p, pre, a, va, ScinZ, 0.1);
  }

  /** The fluorescence detector is at its out position and chi at 0 when
      omega turns to 0. */
  lemma OmegaOrder(p: map<Signal, real>, pre: Presets, a: Signal)
    requires Complete(p) && (a == FluoPos || a == Chi)
    ensures MovedBefore(DefaultCmds(p, pre), a, if a == FluoPos then pre.fluoOut else 0.0, Omega, 0.0)
  {
    var va := if a == FluoPos then pre.fluoOut else 0.0;
    ScinGroupNoTarget(a, va, Omega, 0.0);
    MovedBeforeThree(Mv(FluoBatch(pre)), Mv(CHI_BATCH), Mv(GONIO_BATCH), a, va, Omega, 0.0);
    BsGroupNoTarget(a, va, Omega, 0.0);
    FinalGroupNoTarget(pre, a, va, Omega, 0.0);
    DefaultCmdsMovedBefore(p, pre, a, va, Omega, 0.0);
  }

  /** The beamstop's z is at 30 when its y and x move to their in positions. */
  lemma BeamstopOrder(p: map<Signal, real>, pre: Presets, b: Signal, v: real)
    requires Complete(p) && ((b == BsY && v == 45.0) || (b == BsX && v == 1.6))
    ensures MovedBefore(DefaultCmds(p, pre), BsZ, 30.0, b, v)
  {
    ScinGroupNoTarget(BsZ, 30.0, b, v);
    GonioGroupNoTarget(pre, BsZ, 30.0, b, v);
    MovedBeforeTwo(Mv(BS_Z_BATCH), Mv(BS_XY_BATCH), BsZ, 30.0, b, v);
    FinalGroupNoTarget(pre, BsZ, 30.0, b, v);
    DefaultCmdsMovedBefore(p, pre, BsZ, 30.0, b, v);
  }

  /** The mini aperture's z is at 15.8 when its x and y reach their load
      positions (its x moved earlier, to clear the scintillator, but not to
      its load position). */
  lemma MiniApertureOrder(p: map<Signal, real>, pre: Presets, b: Signal, v: real)
    requires Complete(p) && ((b == MaptX && v == 2.564) || (b == MaptY && v == 31.4))
    ensures MovedBefore(DefaultCmds(p, pre), MaptZ, 15.8, b, v)
  {
    ScinGroupNoTarget(MaptZ, 15.8, b, v);
    GonioGroupNoTarget(pre, MaptZ, 15.8, b, v);
    BsGroupNoTarget(MaptZ, 15.8, b, v);
    MovedBeforeThree(Mv(MAPT_Z_BATCH), Mv(MAPT_XY_BATCH), Mv(CryoBatch(pre)), MaptZ, 15.8, b, v);
    DefaultCmdsMovedBefore(p, pre, MaptZ, 15.8, b, v);
  }

  // ----- The beamline the plan drives -----

  /** Appending five parts one after the other appends their concatenation. */
  lemma AppendFive<T>(s: seq<T>, a: seq<T>, b: seq<T>, c: seq<T>, d: seq<T>, e: seq<T>)
    ensures s + a + b + c + d + e == s + (a + b + c + d + e)
  {
  }

  /** The beamline as the plan sees it: the motor positions and readings, the
      commands issued so far, and the lines printed so far. */
  class Beamline {
    var positions: map<Signal, real>
    var issued: seq<Cmd>
    var console: seq<Warning>
    const presets: Presets

    predicate Valid()
      reads this
    {
      Complete(positions)
    }

    constructor(start: map<Signal, real>, pre: Presets)
      requires Complete(start)
      ensures Valid() && positions == start && issued == [] && console == [] && presets == pre
    {
      positions := start;
      issued := [];
      console := [];
      presets := pre;
    }

    /** bps.rd: the current value of a signal. */
    method Read(s: Signal) returns (v: real)
      requires Valid()
      modifies this
      ensures Valid() && v == positions[s]
      ensures positions == old(positions) && issued == old(issued) + [Rd(s)] && console == old(console)
    {
      v := positions[s];
      issued := issued + [Rd(s)];
    }

    /** bps.mv: every axis of the batch reaches its target before the next command. */
    method Move(batch: Batch)
      requires Valid()
      modifies this
      ensures Valid() && positions == old(positions) + batch
      ensures issued == old(issued) + [Mv(batch)] && console == old(console)
    {
      positions := positions + batch;
      issued := issued + [Mv(batch)];
    }

    /** bps.null. */
    method Nothing()
      requires Valid()
      modifies this
      ensures Valid() && positions == old(positions) && issued == old(issued) + [Null] && console == old(console)
    {
      issued := issued + [Null];
    }

    /** make_scin_safe, with the guard as written (`z < 0.1`). */
    method MakeScinSafe()
      requires Valid()
      modifies this
      ensures Valid()
      ensures positions == ScinPositions(old(positions), ScinSafeAsWritten(old(positions)))
      ensures issued == old(issued) + ScinCmds(old(positions), ScinSafeAsWritten(old(positions)))
      ensures console == old(console)
    {
      var y := Read(ScinY);
      var safe := false;
      if y < 0.016 {
        var z := Read(ScinZ);
        safe := z < 0.1;
      }
      if !safe {
        Move(SCIN_CLEAR_BATCH);
        Move(SCIN_PARK_BATCH);
        ScinBatchesApply(old(positions));
      }
    }

    /** put_bs_in. */
    method PutBsIn()
      requires Valid()
      modifies this
      ensures Valid()
      ensures positions == BsPositions(old(positions))
      ensures issued == old(issued) + BsCmds(old(positions))
      ensures console == old(console)
    {
      var z := Read(BsZ);
      var isIn := false;
      if z > 25.0 {
        var y := Read(BsY);
        isIn := y > 25.0;
      }
      if !isIn {
        Move(BS_Z_BATCH);
        Move(BS_XY_BATCH);
        BsBatchesApply(old(positions));
      }
    }

    /** check_temp: prints a warning above 110 and carries on. */
    method CheckTemp()
      requires Valid()
      modifies this
      ensures Valid() && positions == old(positions)
      ensures issued == old(issued) + [Rd(CryoTemp), Null]
      ensures console == old(console) +
        (if positions[CryoTemp] > TEMPERATURE_LIMIT then [TemperatureTooHigh(positions[CryoTemp])] else [])
    {
      var temp := Read(CryoTemp);
      if temp > TEMPERATURE_LIMIT {
        console := console + [TemperatureTooHigh(temp)];
      }
      Nothing();
    }

    /** check_backpressure: prints a warning above 0.1 and carries on. */
    method CheckBackpressure()
      requires Valid()
      modifies this
      ensures Valid() && positions == old(positions)
      ensures issued == old(issued) + [Rd(CryoBackpress), Null]
      ensures console == old(console) +
        (if positions[CryoBackpress] > BACKPRESSURE_LIMIT then [BackpressureTooHigh(positions[CryoBackpress])] else [])
    {
      var backpressure := Read(CryoBackpress);
      if backpressure > BACKPRESSURE_LIMIT {
        console := console + [BackpressureTooHigh(backpressure)];
      }
      Nothing();
    }

    /** The goniometer stage: fluorescence detector out, chi, then the rest of
        the goniometer. */
    method ZeroGoniometer()
      requires Valid()
      modifies this
      ensures Valid() && positions == GonioStage(old(positions), presets)
      ensures issued == old(issued) + GonioCmds(presets) && console == old(console)
    {
      Move(FluoBatch(presets));
      Move(CHI_BATCH);
      Move(GONIO_BATCH);
      GonioBatchesApply(old(positions), presets);
    }

    /** The final stage: mini aperture z, then its x and y, then the cryojet in. */
    method FinalMoves()
      requires Valid()
      modifies this
      ensures Valid() && positions == FinalStage(old(positions), presets)
      ensures issued == old(issued) + FinalCmds(presets) && console == old(console)
    {
      Move(MAPT_Z_BATCH);
      Move(MAPT_XY_BATCH);
      Move(CryoBatch(presets));
      FinalBatchesApply(old(positions), presets);
    }

    /** move_to_default_UDC_state: the checks, then the batches in their safe order. */
    method MoveToDefaultUdcState()
      requires Valid()
      modifies this
      ensures Valid()
      ensures positions == DefaultPositions(old(positions), presets)
      ensures issued == old(issued) + DefaultCmds(old(positions), presets)
      ensures console == old(console) + CheckWarnings(old(positions))
    {
      ghost var p := positions;
      ghost var i0 := issued;
      CheckBackpressure();
      CheckTemp();
      assert issued == i0 + CHECK_CMDS;
      ghost var i1 := issued;
      MakeScinSafe();
      ZeroGoniometer();
      ghost var g := positions;
      assert g == GonioPositions(p, presets);
      PutBsIn();
      ghost var b := positions;
      FinalMoves();
      assert positions == FinalStage(b, presets);
      assert issued == i1 + ScinCmds(p, ScinSafeAsWritten(p)) + GonioCmds(presets) + BsCmds(g) + FinalCmds(presets);
      AppendFive(i0, CHECK_CMDS, ScinCmds(p, ScinSafeAsWritten(p)), GonioCmds(presets), BsCmds(g), FinalCmds(presets));
    }
  }
}

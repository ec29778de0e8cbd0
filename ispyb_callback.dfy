/** The ISPyB recorder's base: it keeps the uid of the run to finish on, caches
    the descriptors it sees, copies the beamline readings of the two reading
    bundles into its parameters, begins the deposition once the transmission
    and flux arrive, and ends the deposition on stop without letting a failure
    escape. */
module IspybCallback {
  import opened Wrappers
  import opened Plans
  import opened ReadHardware
  import opened Log

  const UNDULATOR_GAP_KEY: string := "undulator_current_gap"
  const SYNCHROTRON_MODE_KEY: string := "synchrotron_machine_status_synchrotron_mode"
  const SLIT_X_KEY: string := "s4_slit_gaps_xgap"
  const SLIT_Y_KEY: string := "s4_slit_gaps_ygap"
  const TRANSMISSION_KEY: string := "attenuator_actual_transmission"
  const FLUX_KEY: string := "flux_flux_reading"

  const NO_EXIT_STATUS: string := "Exit status not available in stop document!"

  /** The fields of the recorder's ISPyB parameters that the handlers write. */
  datatype HardwareFields = HardwareFields(
    undulatorGap: Value, synchrotronMode: Value, slitGapSizeX: Value, slitGapSizeY: Value,
    transmissionFraction: Value, flux: Value)

  /** The ids a deposition hands back. */
  datatype IspybIds = IspybIds(dataCollectionIds: seq<int>, gridIds: seq<int>, groupId: Option<int>)

  /** The calls the recorder makes on its deposition object. */
  datatype DepositionCall =
    | BeginDeposition
    | EndDeposition(exitStatus: string, reason: string)
    | AppendToComment(id: int, comment: string)

  // ---------------------------------------------------------------------------
  // What each handler does, as functions of the state it reads
  // ---------------------------------------------------------------------------

  /** The uid to finish on after a start document: the first one set stays. */
  function FinalizeOn(current: Option<string>, startUid: Option<string>): Option<string>
  {
    if current.None? then startUid else current
  }

  /** The uid to finish on after a series of start documents. */
  function FinalizeAfter(current: Option<string>, startUids: seq<Option<string>>): Option<string>
  {
    if startUids == [] then current
    else FinalizeOn(FinalizeAfter(current, startUids[..|startUids| - 1]), startUids[|startUids| - 1])
  }

  /** The first uid that is set in a series, if any. */
  function FirstSome(uids: seq<Option<string>>): Option<string>
  {
    if uids == [] then None else if uids[0].Some? then uids[0] else FirstSome(uids[1..])
  }

  /** From no uid, a series of starts leaves the first uid any of them
      carries: later starts never move it. */
  lemma {:induction false} FinalizeAfterFirst(startUids: seq<Option<string>>)
    ensures FinalizeAfter(None, startUids) == FirstSome(startUids)
  {
    if startUids != [] {
      var init := startUids[..|startUids| - 1];
      FinalizeAfterFirst(init);
      FirstSomeSnoc(init, startUids[|startUids| - 1]);
      assert init + [startUids[|startUids| - 1]] == startUids;
    }
  }

  lemma {:induction false} FirstSomeSnoc(uids: seq<Option<string>>, u: Option<string>)
    ensures FirstSome(uids + [u]) == if FirstSome(uids).Some? then FirstSome(uids) else u
  {
    if uids != [] {
      assert (uids + [u])[1..] == uids[1..] + [u];
      FirstSomeSnoc(uids[1..], u);
    } else {
      assert (uids + [u])[1..] == [];
    }
  }

  /** What an event does: the parameters afterwards, whether a deposition
      began, and how the handler ended. */
  datatype EventResult = EventResult(params: Option<HardwareFields>, begun: bool, outcome: Outcome)

  /** The event handler. Without parameters it fails its assertion; an event
      of an unknown descriptor raises a KeyError; an event of the hardware
      bundle copies its four readings, one field after the other, and one of
      the transmission and flux bundle copies those two and then begins the
      deposition. A missing reading raises a KeyError for its key, after the
      fields before it were written. */
  function EventStep(params: Option<HardwareFields>, descriptors: map<string, Doc>, descriptor: string,
                     data: map<string, Value>): (r: EventResult)
  {
    if params.None? then EventResult(params, false, Raised(AssertionError))
    else if descriptor !in descriptors then EventResult(params, false, Raised(KeyError(descriptor)))
    else
      var f := params.value;
      var name := DescriptorName(descriptors[descriptor]);
      if name == Some(ISPYB_HARDWARE_READ_PLAN) then
        if UNDULATOR_GAP_KEY !in data then EventResult(Some(f), false, Raised(KeyError(UNDULATOR_GAP_KEY)))
        else
          var f1 := f.(undulatorGap := data[UNDULATOR_GAP_KEY]);
          if SYNCHROTRON_MODE_KEY !in data then EventResult(Some(f1), false, Raised(KeyError(SYNCHROTRON_MODE_KEY)))
          else
            var f2 := f1.(synchrotronMode := data[SYNCHROTRON_MODE_KEY]);
            if SLIT_X_KEY !in data then EventResult(Some(f2), false, Raised(KeyError(SLIT_X_KEY)))
            else
              var f3 := f2.(slitGapSizeX := data[SLIT_X_KEY]);
              if SLIT_Y_KEY !in data then EventResult(Some(f3), false, Raised(KeyError(SLIT_Y_KEY)))
              else EventResult(Some(f3.(slitGapSizeY := data[SLIT_Y_KEY])), false, Completed)
      else if name == Some(ISPYB_TRANSMISSION_FLUX_READ_PLAN) then
        if TRANSMISSION_KEY !in data then EventResult(Some(f), false, Raised(KeyError(TRANSMISSION_KEY)))
        else
          var f1 := f.(transmissionFraction := data[TRANSMISSION_KEY]);
          if FLUX_KEY !in data then EventResult(Some(f1), false, Raised(KeyError(FLUX_KEY)))
          else EventResult(Some(f1.(flux := data[FLUX_KEY])), true, Completed)
      else EventResult(params, false, Completed)
  }

  /** The `name` of a cached descriptor, if it has one. */
  function DescriptorName(d: Doc): Option<string>
  {
    if d.DescriptorDoc? then d.name else None
  }

  /** `doc.get("exit_status") or ...`: the exit status when the stop document
      has a non-empty one, the placeholder otherwise. */
  function ExitStatusOf(exitStatus: Option<string>): (s: string)
    ensures s != ""
    ensures exitStatus.Some? && exitStatus.value != "" ==> s == exitStatus.value
  {
    if exitStatus.Some? && exitStatus.value != "" then exitStatus.value else NO_EXIT_STATUS
  }

  /** `doc.get("reason") or ""`. */
  function ReasonOf(reason: Option<string>): (s: string)
    ensures reason.Some? ==> s == reason.value
    ensures reason.None? ==> s == ""
  {
    if reason.Some? && reason.value != "" then reason.value else ""
  }

  /** How `_append_to_comment` ends when the deposition's call ends with
      `failure`: only a TypeError (no deposition yet) is swallowed. */
  function CommentOutcome(failure: Option<PlanError>): (o: Outcome)
  {
    if failure.Some? && failure.value != TypeError then Raised(failure.value) else Completed
  }

  lemma CommentOutcomeSwallowsOnlyTypeError(failure: Option<PlanError>)
    ensures CommentOutcome(failure) == Completed <==> failure.None? || failure == Some(TypeError)
    ensures CommentOutcome(failure).Raised? ==> Some(CommentOutcome(failure).error) == failure
  {
  }

  // ---------------------------------------------------------------------------
  // The recorder
  // ---------------------------------------------------------------------------

  /** `BaseISPyBCallback`. `logFilter` is the log's shared group id filter,
      `calls` the calls made on the deposition object so far. */
  class IspybCallbackBase {
    var params: Option<HardwareFields>
    var descriptors: map<string, Doc>
    var uidToFinalizeOn: Option<string>
    var ispybIds: IspybIds
    var calls: seq<DepositionCall>
    const logFilter: DcgidFilter

    constructor(logFilter: DcgidFilter)
      ensures this.logFilter == logFilter
      ensures params == None && descriptors == map[] && uidToFinalizeOn == None
      ensures ispybIds == IspybIds([], [], None) && calls == []
    {
      this.logFilter := logFilter;
      params := None;
      descriptors := map[];
      uidToFinalizeOn := None;
      ispybIds := IspybIds([], [], None);
      calls := [];
    }

    /** `activity_gated_start`: the first start's uid is the one to finish on. */
    method ActivityGatedStart(runUid: Option<string>)
      modifies this`uidToFinalizeOn
      ensures uidToFinalizeOn == FinalizeOn(old(uidToFinalizeOn), runUid)
    {
      if uidToFinalizeOn.None? {
        uidToFinalizeOn := runUid;
      }
    }

    /** `activity_gated_descriptor`: caches the descriptor under its uid,
        replacing any earlier one. */
    method ActivityGatedDescriptor(uid: string, name: Option<string>)
      modifies this`descriptors
      ensures descriptors == old(descriptors)[uid := DescriptorDoc(uid, name)]
    {
      descriptors := descriptors[uid := DescriptorDoc(uid, name)];
    }

    /** `activity_gated_event`. `newIds` are the ids the deposition hands back
        if it begins. */
    method ActivityGatedEvent(descriptor: string, data: map<string, Value>, newIds: IspybIds) returns (outcome: Outcome)
      modifies this`params, this`ispybIds, this`calls
      ensures var r := EventStep(old(params), descriptors, descriptor, data);
              params == r.params && outcome == r.outcome &&
              ispybIds == (if r.begun then newIds else old(ispybIds)) &&
              calls == old(calls) + (if r.begun then [BeginDeposition] else [])
    {
      if params.None? {
        return Raised(AssertionError);
      }
      if descriptor !in descriptors {
        return Raised(KeyError(descriptor));
      }
      var name := DescriptorName(descriptors[descriptor]);
      if name == Some(ISPYB_HARDWARE_READ_PLAN) {
        if UNDULATOR_GAP_KEY !in data {
          return Raised(KeyError(UNDULATOR_GAP_KEY));
        }
        params := Some(params.value.(undulatorGap := data[UNDULATOR_GAP_KEY]));
        if SYNCHROTRON_MODE_KEY !in data {
          return Raised(KeyError(SYNCHROTRON_MODE_KEY));
        }
        params := Some(params.value.(synchrotronMode := data[SYNCHROTRON_MODE_KEY]));
        if SLIT_X_KEY !in data {
          return Raised(KeyError(SLIT_X_KEY));
        }
        params := Some(params.value.(slitGapSizeX := data[SLIT_X_KEY]));
        if SLIT_Y_KEY !in data {
          return Raised(KeyError(SLIT_Y_KEY));
        }
        params := Some(params.value.(slitGapSizeY := data[SLIT_Y_KEY]));
      }
      if name == Some(ISPYB_TRANSMISSION_FLUX_READ_PLAN) {
        if TRANSMISSION_KEY !in data {
          return Raised(KeyError(TRANSMISSION_KEY));
        }
        params := Some(params.value.(transmissionFraction := data[TRANSMISSION_KEY]));
        if FLUX_KEY !in data {
          return Raised(KeyError(FLUX_KEY));
        }
        params := Some(params.value.(flux := data[FLUX_KEY]));
        calls := calls + [BeginDeposition];
        ispybIds := newIds;
      }
      outcome := Completed;
    }

    /** `activity_gated_stop`: clears the log's group id, then ends the
        deposition with the stop document's status and reason; a failure of
        the deposition is logged and goes no further, so the handler always
        completes. */
    method ActivityGatedStop(exitStatus: Option<string>, reason: Option<string>) returns (outcome: Outcome)
      modifies this`calls, logFilter
      ensures outcome == Completed
      ensures logFilter.dcGroupId == NoneV
      ensures calls == old(calls) + [EndDeposition(ExitStatusOf(exitStatus), ReasonOf(reason))]
    {
      var status := if exitStatus.Some? && exitStatus.value != "" then exitStatus.value else NO_EXIT_STATUS;
      var why := if reason.Some? && reason.value != "" then reason.value else "";
      logFilter.SetDcgidTag(NoneV);
      calls := calls + [EndDeposition(status, why)];
      outcome := Completed;
    }

    /** `_append_to_comment`: asks the deposition to append `comment`;
        `failure` is how that call ends. */
    method AppendComment(id: int, comment: string, failure: Option<PlanError>) returns (outcome: Outcome)
      modifies this`calls
      ensures calls == old(calls) + [AppendToComment(id, comment)]
      ensures outcome == CommentOutcome(failure)
    {
      calls := calls + [AppendToComment(id, comment)];
      if failure.Some? && failure.value != TypeError {
        outcome := Raised(failure.value);
      } else {
        outcome := Completed;
      }
    }
  }

  // ---------------------------------------------------------------------------
  // The recorder against its producers
  // ---------------------------------------------------------------------------

  /** The event of the pre-collection bundle, once its descriptor is cached,
      completes with the four readings in the parameters, the transmission
      and flux untouched and no deposition begun. */
  lemma HardwareEventCopiesReadings(f: HardwareFields, descriptors: map<string, Doc>, uid: string, reading: Name -> Value)
    ensures var docs := BundleDocs(PreCollection(), uid, reading);
            var r := EventStep(Some(f), descriptors[uid := docs.0], uid, docs.1.data);
            r.outcome == Completed && !r.begun &&
            r.params == Some(f.(undulatorGap := reading(UndulatorCurrentGap), synchrotronMode := reading(SynchrotronMode),
                                slitGapSizeX := reading(S4SlitXGap), slitGapSizeY := reading(S4SlitYGap)))
  {
    ProducersAreBundles();
    PreCollectionEvent(uid, reading);
  }

  /** The event of the during-collection bundle, once its descriptor is
      cached, completes with the transmission and flux in the parameters and
      begins the deposition. */
  lemma FluxEventBeginsDeposition(f: HardwareFields, descriptors: map<string, Doc>, uid: string, reading: Name -> Value)
    ensures var docs := BundleDocs(DuringCollection(), uid, reading);
            var r := EventStep(Some(f), descriptors[uid := docs.0], uid, docs.1.data);
            r.outcome == Completed && r.begun &&
            r.params == Some(f.(transmissionFraction := reading(AttenuatorTransmission), flux := reading(FluxReading)))
  {
    ProducersAreBundles();
    DuringCollectionEvent(uid, reading);
  }

  /** A deposition begins only on a complete event of the transmission and
      flux bundle: never without parameters, never for an unknown or other
      descriptor, never when a reading is missing. */
  lemma BeginsOnlyOnFluxEvent(params: Option<HardwareFields>, descriptors: map<string, Doc>, descriptor: string,
                              data: map<string, Value>)
    ensures var r := EventStep(params, descriptors, descriptor, data);
            r.begun <==>
              params.Some? && descriptor in descriptors &&
              DescriptorName(descriptors[descriptor]) == Some(ISPYB_TRANSMISSION_FLUX_READ_PLAN) &&
              TRANSMISSION_KEY in data && FLUX_KEY in data
    ensures var r := EventStep(params, descriptors, descriptor, data);
            r.begun ==> r.outcome == Completed &&
                        r.params == Some(params.value.(transmissionFraction := data[TRANSMISSION_KEY], flux := data[FLUX_KEY]))
  {
  }

  /** An event of a descriptor never seen raises a KeyError for it and
      changes nothing. */
  lemma UnknownDescriptorRaises(f: HardwareFields, descriptors: map<string, Doc>, descriptor: string, data: map<string, Value>)
    requires descriptor !in descriptors
    ensures EventStep(Some(f), descriptors, descriptor, data) == EventResult(Some(f), false, Raised(KeyError(descriptor)))
  {
  }

  /** An event of any other bundle completes and changes nothing. */
  lemma OtherEventsIgnored(f: HardwareFields, descriptors: map<string, Doc>, descriptor: string, data: map<string, Value>)
    requires descriptor in descriptors
    requires DescriptorName(descriptors[descriptor]) != Some(ISPYB_HARDWARE_READ_PLAN)
    requires DescriptorName(descriptors[descriptor]) != Some(ISPYB_TRANSMISSION_FLUX_READ_PLAN)
    ensures EventStep(Some(f), descriptors, descriptor, data) == EventResult(Some(f), false, Completed)
  {
  }

  /** Whatever an event does, the fields it writes are only those of its
      bundle: a hardware event leaves transmission and flux alone, and a flux
      event leaves the four beamline fields alone. */
  lemma EventWritesOnlyItsFields(f: HardwareFields, descriptors: map<string, Doc>, descriptor: string, data: map<string, Value>)
    ensures var r := EventStep(Some(f), descriptors, descriptor, data);
            r.params.Some? &&
            (r.params.value.transmissionFraction != f.transmissionFraction || r.params.value.flux != f.flux ==>
               DescriptorName(descriptors[descriptor]) == Some(ISPYB_TRANSMISSION_FLUX_READ_PLAN)) &&
            (r.params.value.undulatorGap != f.undulatorGap || r.params.value.synchrotronMode != f.synchrotronMode ||
             r.params.value.slitGapSizeX != f.slitGapSizeX || r.params.value.slitGapSizeY != f.slitGapSizeY ==>
               DescriptorName(descriptors[descriptor]) == Some(ISPYB_HARDWARE_READ_PLAN))
  {
  }

  /** A stop ends the deposition with a non-empty status: the document's own
      when it has one, the placeholder otherwise. */
  lemma StopStatusNeverEmpty(exitStatus: Option<string>)
    ensures ExitStatusOf(exitStatus) != ""
    ensures ExitStatusOf(exitStatus) == NO_EXIT_STATUS <==> exitStatus.None? || exitStatus.value in {"", NO_EXIT_STATUS}
  {
  }
}

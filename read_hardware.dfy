/** The two reading bundles the plans emit for the ISPyB recorder: the
    beamline state before a collection, and the transmission and flux during
    it. Each bundle is a `create`, its reads and a `save`; the run engine turns
    it into a descriptor named after the bundle and one event holding the
    readings under the signals' names. */
module ReadHardware {
  import opened Wrappers
  import opened Plans

  /** The bundles and the signals they read. */
  datatype Name =
    | IspybHardwareRead | IspybTransmissionFluxRead
    | UndulatorCurrentGap | SynchrotronMode | S4SlitXGap | S4SlitYGap
    | AttenuatorTransmission | FluxReading

  /** The descriptor names of the two bundles. */
  const ISPYB_HARDWARE_READ_PLAN: string := "ispyb_reading_hardware"
  const ISPYB_TRANSMISSION_FLUX_READ_PLAN: string := "ispyb_update_transmission_flux"

  /** The name a bundle's descriptor carries. */
  function BundleName(n: Name): string
  {
    if n == IspybHardwareRead then ISPYB_HARDWARE_READ_PLAN
    else if n == IspybTransmissionFluxRead then ISPYB_TRANSMISSION_FLUX_READ_PLAN
    else ""
  }

  /** The key of a signal's reading in an event: the device's name joined to
      the signal's. */
  function DataKey(n: Name): string
  {
    match n
    case UndulatorCurrentGap => "undulator_current_gap"
    case SynchrotronMode => "synchrotron_machine_status_synchrotron_mode"
    case S4SlitXGap => "s4_slit_gaps_xgap"
    case S4SlitYGap => "s4_slit_gaps_ygap"
    case AttenuatorTransmission => "attenuator_actual_transmission"
    case FluxReading => "flux_flux_reading"
    case _ => ""
  }

  /** `read_hardware_for_ispyb_pre_collection`: the undulator gap, the machine
      mode and the two S4 slit gaps, in one bundle. */
  function PreCollection(): seq<Msg<Name>>
  {
    [Create(IspybHardwareRead), Read(UndulatorCurrentGap), Read(SynchrotronMode),
     Read(S4SlitXGap), Read(S4SlitYGap), Save]
  }

  /** `read_hardware_for_ispyb_during_collection`: the transmission and the
      flux, in one bundle. */
  function DuringCollection(): seq<Msg<Name>>
  {
    [Create(IspybTransmissionFluxRead), Read(AttenuatorTransmission), Read(FluxReading), Save]
  }

  /** The readings of a sequence of reads, under their keys. */
  function EventData(signalReads: seq<Msg<Name>>, reading: Name -> Value): map<string, Value>
  {
    if signalReads == [] then map[]
    else
      var last := signalReads[|signalReads| - 1];
      var before := EventData(signalReads[..|signalReads| - 1], reading);
      if last.Read? then before[DataKey(last.signal) := reading(last.signal)] else before
  }

  /** A bundle: a create, reads only, then a save. */
  predicate IsBundle(t: seq<Msg<Name>>)
  {
    |t| >= 2 && t[0].Create? && t[|t| - 1] == Save &&
    forall i :: 1 <= i < |t| - 1 ==> t[i].Read?
  }

  /** The descriptor and the event the run engine emits for a bundle, with
      `uid` the descriptor's uid and `reading` what each signal reads. */
  function BundleDocs(t: seq<Msg<Name>>, uid: string, reading: Name -> Value): (docs: (Doc, Doc))
    requires IsBundle(t)
    ensures docs.0 == DescriptorDoc(uid, Some(BundleName(t[0].name)))
    ensures docs.1.EventDoc? && docs.1.descriptor == uid
  {
    (DescriptorDoc(uid, Some(BundleName(t[0].name))), EventDoc(uid, EventData(t[1..|t| - 1], reading)))
  }

  /** Both producers emit well-formed bundles under distinct names. */
  lemma ProducersAreBundles()
    ensures IsBundle(PreCollection()) && IsBundle(DuringCollection())
    ensures BundleName(PreCollection()[0].name) == ISPYB_HARDWARE_READ_PLAN
    ensures BundleName(DuringCollection()[0].name) == ISPYB_TRANSMISSION_FLUX_READ_PLAN
    ensures ISPYB_HARDWARE_READ_PLAN != ISPYB_TRANSMISSION_FLUX_READ_PLAN
  {
  }

  /** The event of the pre-collection bundle holds exactly the four readings
      under their keys. */
  lemma PreCollectionEvent(uid: string, reading: Name -> Value)
    ensures var data := BundleDocs(PreCollection(), uid, reading).1.data;
            data.Keys == {"undulator_current_gap", "synchrotron_machine_status_synchrotron_mode",
                          "s4_slit_gaps_xgap", "s4_slit_gaps_ygap"} &&
            data["undulator_current_gap"] == reading(UndulatorCurrentGap) &&
            data["synchrotron_machine_status_synchrotron_mode"] == reading(SynchrotronMode) &&
            data["s4_slit_gaps_xgap"] == reading(S4SlitXGap) &&
            data["s4_slit_gaps_ygap"] == reading(S4SlitYGap)
  {
    var a: Msg<Name>, b: Msg<Name>, c: Msg<Name>, d: Msg<Name> :=
      Read(UndulatorCurrentGap), Read(SynchrotronMode), Read(S4SlitXGap), Read(S4SlitYGap);
    assert PreCollection()[1..5] == [a, b, c, d];
    assert [a, b, c, d][..3] == [a, b, c] && [a, b, c][..2] == [a, b] && [a, b][..1] == [a] && [a][..0] == [];
    assert EventData([a], reading) == map["undulator_current_gap" := reading(UndulatorCurrentGap)];
    assert EventData([a, b], reading) == EventData([a], reading)[DataKey(SynchrotronMode) := reading(SynchrotronMode)];
    assert EventData([a, b, c], reading) == EventData([a, b], reading)[DataKey(S4SlitXGap) := reading(S4SlitXGap)];
    assert EventData([a, b, c, d], reading) == EventData([a, b, c], reading)[DataKey(S4SlitYGap) := reading(S4SlitYGap)];
    assert EventData([a, b, c, d], reading) ==
           map["undulator_current_gap" := reading(UndulatorCurrentGap),
               "synchrotron_machine_status_synchrotron_mode" := reading(SynchrotronMode),
               "s4_slit_gaps_xgap" := reading(S4SlitXGap),
               "s4_slit_gaps_ygap" := reading(S4SlitYGap)];
  }

  /** The event of the during-collection bundle holds exactly the
      transmission and the flux under their keys. */
  lemma DuringCollectionEvent(uid: string, reading: Name -> Value)
    ensures var data := BundleDocs(DuringCollection(), uid, reading).1.data;
            data.Keys == {"attenuator_actual_transmission", "flux_flux_reading"} &&
            data["attenuator_actual_transmission"] == reading(AttenuatorTransmission) &&
            data["flux_flux_reading"] == reading(FluxReading)
  {
    var a: Msg<Name>, b: Msg<Name> := Read(AttenuatorTransmission), Read(FluxReading);
    assert DuringCollection()[1..3] == [a, b];
    assert [a, b][..1] == [a] && [a][..0] == [];
    assert EventData([a], reading) == map["attenuator_actual_transmission" := reading(AttenuatorTransmission)];
    assert EventData([a, b], reading) ==
           map["attenuator_actual_transmission" := reading(AttenuatorTransmission),
               "flux_flux_reading" := reading(FluxReading)];
  }
}

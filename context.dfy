/** Finding devices in the bluesky context: a lookup by name that checks the
    device's type, and the filling of a device composite, one lookup per
    field of the composite's dataclass. */
module Context {
  import opened Wrappers
  import opened Plans

  /** The base type every device of the context is an instance of. */
  const DEVICE: string := "Device"

  /** A device of the context: its class name and the types it is an
      instance of besides `Device`. */
  datatype Device = Device(id: nat, className: string, types: set<string>)

  /** `isinstance(device, expected)`. */
  predicate IsInstance(d: Device, expected: string)
  {
    expected == DEVICE || expected in d.types
  }

  /** The devices of a context by name; a name it lacks finds nothing. */
  type Context = map<string, Device>

  /** `find_device_in_context`: the device under `name` if the context has
      one of the expected type; a ValueError otherwise. */
  function FindDeviceInContext(context: Context, name: string, expected: string): (r: Result<Device, PlanError>)
    ensures r.Success? ==> name in context && r.value == context[name]
  {
    if name !in context then
      Failure(ValueError("Cannot find device named '" + name + "' in bluesky context."))
    else if !IsInstance(context[name], expected) then
      Failure(ValueError("Found device named '" + name + "' and expected it to be a '" + expected +
                         "' but it was a '" + context[name].className + "'"))
    else Success(context[name])
  }

  /** The lookup succeeds exactly when the name is present with the expected
      type, and then gives the context's own device; a missing name and a
      wrong type are told apart by their messages. */
  lemma FindDeviceMeaning(context: Context, name: string, expected: string)
    ensures FindDeviceInContext(context, name, expected).Success? <==>
              name in context && IsInstance(context[name], expected)
    ensures FindDeviceInContext(context, name, expected).Success? ==>
              FindDeviceInContext(context, name, expected).value == context[name]
    ensures FindDeviceInContext(context, name, expected).Failure? ==>
              FindDeviceInContext(context, name, expected).error.ValueError?
    ensures name in context ==> FindDeviceInContext(context, name, DEVICE).Success?
  {
  }

  /** The type a field is looked up with: its type hint, `Device` when it
      has none. */
  function ExpectedType(hints: map<string, string>, field: string): string
  {
    if field in hints then hints[field] else DEVICE
  }

  /** The devices of a composite with these fields, or the error of the
      first field whose lookup fails. */
  function CompositeDevices(context: Context, fields: seq<string>, hints: map<string, string>): Result<map<string, Device>, PlanError>
  {
    if fields == [] then Success(map[])
    else
      var field := fields[|fields| - 1];
      var before := CompositeDevices(context, fields[..|fields| - 1], hints);
      if before.Failure? then before
      else
        var found := FindDeviceInContext(context, field, ExpectedType(hints, field));
        if found.Failure? then Failure(found.error) else Success(before.value[field := found.value])
  }

  /** The composite is built exactly when every field's lookup succeeds. */
  lemma {:induction false} CompositeSucceedsIffEveryLookup(context: Context, fields: seq<string>, hints: map<string, string>)
    ensures CompositeDevices(context, fields, hints).Success? <==>
              forall k :: 0 <= k < |fields| ==> FindDeviceInContext(context, fields[k], ExpectedType(hints, fields[k])).Success?
  {
    if fields != [] {
      var init := fields[..|fields| - 1];
      CompositeSucceedsIffEveryLookup(context, init, hints);
      assert forall k :: 0 <= k < |init| ==> init[k] == fields[k];
    }
  }

  /** A built composite binds each field, and only the fields, to the
      context's device of that name, which has the field's type. */
  lemma {:induction false} CompositeBindsEveryField(context: Context, fields: seq<string>, hints: map<string, string>)
    requires CompositeDevices(context, fields, hints).Success?
    ensures var devices := CompositeDevices(context, fields, hints).value;
            devices.Keys == (set k | 0 <= k < |fields| :: fields[k]) &&
            forall k :: 0 <= k < |fields| ==>
              fields[k] in context && devices[fields[k]] == context[fields[k]] && IsInstance(context[fields[k]], ExpectedType(hints, fields[k]))
  {
    if fields != [] {
      var init := fields[..|fields| - 1];
      CompositeBindsEveryField(context, init, hints);
      assert forall k :: 0 <= k < |init| ==> init[k] == fields[k];
      var field := fields[|fields| - 1];
      FindDeviceMeaning(context, field, ExpectedType(hints, field));
      assert (set k | 0 <= k < |fields| :: fields[k]) == (set k | 0 <= k < |init| :: init[k]) + {field};
    }
  }

  /** A failed composite fails with the error of the first field whose
      lookup fails. */
  lemma {:induction false} FirstFailingFieldAborts(context: Context, fields: seq<string>, hints: map<string, string>)
    requires CompositeDevices(context, fields, hints).Failure?
    ensures exists k :: 0 <= k < |fields| &&
              FindDeviceInContext(context, fields[k], ExpectedType(hints, fields[k])) ==
                Failure(CompositeDevices(context, fields, hints).error) &&
              forall j :: 0 <= j < k ==> FindDeviceInContext(context, fields[j], ExpectedType(hints, fields[j])).Success?
  {
    var init := fields[..|fields| - 1];
    var field := fields[|fields| - 1];
    assert forall k :: 0 <= k < |init| ==> init[k] == fields[k];
    if CompositeDevices(context, init, hints).Failure? {
      FirstFailingFieldAborts(context, init, hints);
      var k :| 0 <= k < |init| &&
               FindDeviceInContext(context, init[k], ExpectedType(hints, init[k])) ==
                 Failure(CompositeDevices(context, init, hints).error) &&
               forall j :: 0 <= j < k ==> FindDeviceInContext(context, init[j], ExpectedType(hints, init[j])).Success?;
      assert fields[k] == init[k];
    } else {
      CompositeSucceedsIffEveryLookup(context, init, hints);
      var k := |fields| - 1;
      assert forall j :: 0 <= j < k ==> fields[j] == init[j];
    }
  }

  /** `device_composite_from_context`: looks up each field of the composite
      in order, with its hinted type, waits for the device to connect and
      binds it; the first failing lookup aborts. `connected` are the devices
      waited on, in order: on failure, those of the fields before the first
      one whose lookup fails. */
  method DeviceCompositeFromContext(context: Context, fields: seq<string>, hints: map<string, string>)
      returns (composite: Result<map<string, Device>, PlanError>, connected: seq<Device>)
    ensures composite == CompositeDevices(context, fields, hints)
    ensures |connected| <= |fields| &&
            forall k :: 0 <= k < |connected| ==> fields[k] in context && connected[k] == context[fields[k]]
    ensures composite.Success? <==> |connected| == |fields|
    ensures composite.Failure? ==>
              FindDeviceInContext(context, fields[|connected|], ExpectedType(hints, fields[|connected|])) == Failure(composite.error) &&
              forall j :: 0 <= j < |connected| ==> FindDeviceInContext(context, fields[j], ExpectedType(hints, fields[j])).Success?
  {
    var devices: map<string, Device> := map[];
    connected := [];
    var i := 0;
    while i < |fields|
      invariant 0 <= i <= |fields|
      invariant CompositeDevices(context, fields[..i], hints) == Success(devices)
      invariant |connected| == i && forall k :: 0 <= k < i ==> fields[k] in context && connected[k] == context[fields[k]]
      invariant forall k :: 0 <= k < i ==> FindDeviceInContext(context, fields[k], ExpectedType(hints, fields[k])).Success?
    {
      var field := fields[i];
      var device := FindDeviceInContext(context, field, ExpectedType(hints, field));
      CompositeStep(context, fields, hints, i);
      if device.Failure? {
        CompositeFailurePersists(context, fields, hints, i + 1);
        return Failure(device.error), connected;
      }
      connected := connected + [device.value];
      devices := devices[field := device.value];
      i := i + 1;
    }
    assert fields[..i] == fields;
    composite := Success(devices);
  }

  /** One more field: the composite of the longer prefix extends the
      shorter one's by the field's lookup. */
  lemma CompositeStep(context: Context, fields: seq<string>, hints: map<string, string>, i: nat)
    requires i < |fields|
    ensures var before := CompositeDevices(context, fields[..i], hints);
            var found := FindDeviceInContext(context, fields[i], ExpectedType(hints, fields[i]));
            before.Success? ==>
              CompositeDevices(context, fields[..i + 1], hints) ==
                if found.Failure? then Failure(found.error) else Success(before.value[fields[i] := found.value])
  {
    assert fields[..i + 1][..i] == fields[..i];
  }

  /** Once a prefix of the fields fails, every longer prefix fails the same
      way. */
  lemma {:induction false} CompositeFailurePersists(context: Context, fields: seq<string>, hints: map<string, string>, n: nat)
    requires n <= |fields| && CompositeDevices(context, fields[..n], hints).Failure?
    ensures CompositeDevices(context, fields, hints) == CompositeDevices(context, fields[..n], hints)
    decreases |fields| - n
  {
    if n < |fields| {
      assert fields[..n + 1][..n] == fields[..n];
      CompositeFailurePersists(context, fields, hints, n + 1);
    } else {
      assert fields[..n] == fields;
    }
  }
}

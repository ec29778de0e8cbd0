/** The OAV snapshot collector: for every event it sees it appends the three
    snapshot paths and the top-left corner of the image, in event order. */
module OavSnapshot {
  import opened Plans

  const LAST_SAVED_PATH: string := "oav_snapshot_last_saved_path"
  const LAST_PATH_OUTER: string := "oav_snapshot_last_path_outer"
  const LAST_PATH_FULL_OVERLAY: string := "oav_snapshot_last_path_full_overlay"
  const TOP_LEFT_X: string := "oav_snapshot_top_left_x"
  const TOP_LEFT_Y: string := "oav_snapshot_top_left_y"

  /** `data.get(key)`: the reading under `key`, None when the event has none. */
  function Get(data: map<string, Value>, key: string): (v: Value)
    ensures key in data ==> v == data[key]
    ensures key !in data ==> v == NoneV
  {
    if key in data then data[key] else NoneV
  }

  /** The snapshot paths an event contributes: the saved image, the one with
      the grid outline and the one with the full overlay. */
  function SnapshotRow(data: map<string, Value>): seq<Value>
  {
    [Get(data, LAST_SAVED_PATH), Get(data, LAST_PATH_OUTER), Get(data, LAST_PATH_FULL_OVERLAY)]
  }

  /** The top-left corner an event contributes. */
  function UpperLeftRow(data: map<string, Value>): seq<Value>
  {
    [Get(data, TOP_LEFT_X), Get(data, TOP_LEFT_Y)]
  }

  /** The snapshot rows of a series of events, in order. */
  function SnapshotRows(events: seq<map<string, Value>>): seq<seq<Value>>
  {
    if events == [] then [] else SnapshotRows(events[..|events| - 1]) + [SnapshotRow(events[|events| - 1])]
  }

  /** The corner rows of a series of events, in order. */
  function UpperLeftRows(events: seq<map<string, Value>>): seq<seq<Value>>
  {
    if events == [] then [] else UpperLeftRows(events[..|events| - 1]) + [UpperLeftRow(events[|events| - 1])]
  }

  /** Row `i` of each list comes from event `i`: one triple and one pair per
      event, in event order, with a missing reading as None. */
  lemma {:induction false} RowsFollowEvents(events: seq<map<string, Value>>)
    ensures |SnapshotRows(events)| == |events| && |UpperLeftRows(events)| == |events|
    ensures forall i :: 0 <= i < |events| ==>
              SnapshotRows(events)[i] == SnapshotRow(events[i]) && UpperLeftRows(events)[i] == UpperLeftRow(events[i])
  {
    if events != [] {
      var init := events[..|events| - 1];
      RowsFollowEvents(init);
      assert forall i :: 0 <= i < |init| ==> init[i] == events[i];
    }
  }

  /** `OavSnapshotCallback`. `events` is the event data seen so far. */
  class OavSnapshotCallback {
    var snapshotFilenames: seq<seq<Value>>
    var outUpperLeft: seq<seq<Value>>
    ghost var events: seq<map<string, Value>>

    /** Both lists hold one row per event seen, in order. */
    ghost predicate Valid()
      reads this
    {
      snapshotFilenames == SnapshotRows(events) && outUpperLeft == UpperLeftRows(events)
    }

    /** Both lists start empty. */
    constructor()
      ensures Valid() && events == []
      ensures snapshotFilenames == [] && outUpperLeft == []
    {
      snapshotFilenames := [];
      outUpperLeft := [];
      events := [];
    }

    /** `event`: appends the event's triple of paths and its corner. */
    method Event(data: map<string, Value>)
      requires Valid()
      modifies this
      ensures Valid() && events == old(events) + [data]
      ensures snapshotFilenames == old(snapshotFilenames) + [SnapshotRow(data)]
      ensures outUpperLeft == old(outUpperLeft) + [UpperLeftRow(data)]
    {
      snapshotFilenames := snapshotFilenames + [
        [Get(data, LAST_SAVED_PATH), Get(data, LAST_PATH_OUTER), Get(data, LAST_PATH_FULL_OVERLAY)]];
      outUpperLeft := outUpperLeft + [[Get(data, TOP_LEFT_X), Get(data, TOP_LEFT_Y)]];
      events := events + [data];
      assert events[..|events| - 1] == old(events);
    }
  }
}

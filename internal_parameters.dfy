/** Artemis' internal parameters: the external parameters, a nested
    dictionary, are flattened into one bucket of keys, the bucket is
    preprocessed, and its values are shared out between the experiment
    parameters, the detector parameters, the ISPyB parameters and the
    artemis parameters by lists of keys. */
module InternalParameters {
  import opened Wrappers
  import opened Plans

  // ---------------------------------------------------------------------------
  // Nested dictionaries and their flattening
  // ---------------------------------------------------------------------------

  /** A value of a nested dictionary: a leaf or a dictionary. */
  datatype Node = Leaf(value: Value) | Sub(entries: seq<Entry>)

  /** One key and its value, in the dictionary's order. */
  datatype Entry = Entry(key: string, node: Node)

  /** The error `flatten_dict` raises for a repeated key. */
  function DuplicateKeys(k: string): PlanError
  {
    OtherError("Duplicate keys '" + k + "' in input parameters!")
  }

  /** The keys of the leaves, at any depth, in the order a depth-first walk
      meets them. */
  function LeafKeys(entries: seq<Entry>): seq<string>
    decreases entries
  {
    if entries == [] then []
    else
      (match entries[0].node
       case Leaf(_) => [entries[0].key]
       case Sub(sub) => LeafKeys(sub)) + LeafKeys(entries[1..])
  }

  /** The loop of `flatten_dict` from the entry `entries[0]` on, with the
      level's `items` so far and the caller's `parent` items: a leaf whose
      key is in either raises, a leaf otherwise goes into the items, and a
      sub-dictionary is flattened with this level's items as its parent and
      merged into the items without a check. */
  function FlattenLoop(entries: seq<Entry>, parent: map<string, Value>, items: map<string, Value>): Result<map<string, Value>, PlanError>
    decreases entries
  {
    if entries == [] then Success(items)
    else
      var e := entries[0];
      match e.node
      case Sub(sub) =>
        var flattened := FlattenLoop(sub, items, map[]);
        if flattened.Failure? then flattened else FlattenLoop(entries[1..], parent, items + flattened.value)
      case Leaf(v) =>
        if e.key in items || e.key in parent then Failure(DuplicateKeys(e.key))
        else FlattenLoop(entries[1..], parent, items[e.key := v])
  }

  /** `flatten_dict(d, parent_items)`, as written: when it succeeds it holds
      exactly the leaves, from any depth, a later leaf replacing an earlier
      one of the same key; when it raises, it names a leaf key that is among
      the caller's items or occurs at least twice. */
  function FlattenDict(entries: seq<Entry>, parent: map<string, Value>): (r: Result<map<string, Value>, PlanError>)
    ensures r.Success? ==> r.value == LeafMap(entries) && r.value.Keys == KeySet(LeafKeys(entries))
    ensures r.Failure? ==>
              exists k :: r.error == DuplicateKeys(k) && k in LeafKeys(entries) &&
                          (k in parent || multiset(LeafKeys(entries))[k] >= 2)
  {
    FlattenLoopRaisesOnRepeats(entries, parent, map[]);
    FlattenKeys(entries, parent, map[]);
    FlattenValues(entries, parent, map[]);
    MergeIntoEmpty(LeafMap(entries));
    FlattenLoop(entries, parent, map[])
  }

  /** `flatten_dict`, with its loop and its recursion. */
  method FlattenDictLoop(entries: seq<Entry>, parent: map<string, Value>) returns (r: Result<map<string, Value>, PlanError>)
    ensures r == FlattenDict(entries, parent)
    decreases entries
  {
    var items: map<string, Value> := map[];
    var i := 0;
    while i < |entries|
      invariant 0 <= i <= |entries|
      invariant FlattenLoop(entries[i..], parent, items) == FlattenDict(entries, parent)
    {
      var e := entries[i];
      assert e in entries;
      assert entries[i..][1..] == entries[i + 1..];
      match e.node {
        case Sub(sub) =>
          var flattened := FlattenDictLoop(sub, items);
          if flattened.Failure? {
            return flattened;
          }
          items := items + flattened.value;
        case Leaf(v) =>
          if e.key in items || e.key in parent {
            return Failure(DuplicateKeys(e.key));
          }
          items := items[e.key := v];
      }
      i := i + 1;
    }
    r := Success(items);
  }

  /** A flattening that succeeds holds every leaf key, from any depth, and
      nothing else besides the items it started from; keys that only hold
      sub-dictionaries do not appear. */
  lemma {:induction false} FlattenKeys(entries: seq<Entry>, parent: map<string, Value>, items: map<string, Value>)
    ensures FlattenLoop(entries, parent, items).Success? ==>
              FlattenLoop(entries, parent, items).value.Keys == items.Keys + KeySet(LeafKeys(entries))
    decreases entries
  {
    if entries != [] {
      var e := entries[0];
      assert e in entries;
      var rest := entries[1..];
      match e.node
      case Sub(sub) =>
        assert LeafKeys(entries) == LeafKeys(sub) + LeafKeys(rest);
        var flattened := FlattenLoop(sub, items, map[]);
        FlattenKeys(sub, items, map[]);
        if flattened.Success? {
          FlattenKeys(rest, parent, items + flattened.value);
        }
      case Leaf(v) =>
        assert LeafKeys(entries) == [e.key] + LeafKeys(rest);
        if !(e.key in items || e.key in parent) {
          assert FlattenLoop(entries, parent, items) == FlattenLoop(rest, parent, items[e.key := v]);
          FlattenKeys(rest, parent, items[e.key := v]);
        }
    }
  }

  /** Every leaf under its key, a later leaf replacing an earlier one of the
      same key. */
  function LeafMap(entries: seq<Entry>): map<string, Value>
    decreases entries
  {
    if entries == [] then map[]
    else
      (match entries[0].node
       case Leaf(v) => map[entries[0].key := v]
       case Sub(sub) => LeafMap(sub)) + LeafMap(entries[1..])
  }

  /** A flattening that succeeds holds each leaf's value under its key; as
      written, when a nested leaf repeats a key, the later value wins. */
  lemma {:induction false} FlattenValues(entries: seq<Entry>, parent: map<string, Value>, items: map<string, Value>)
    ensures FlattenLoop(entries, parent, items).Success? ==>
              FlattenLoop(entries, parent, items).value == items + LeafMap(entries)
    decreases entries
  {
    if entries != [] {
      var e := entries[0];
      assert e in entries;
      var rest := entries[1..];
      match e.node
      case Sub(sub) =>
        var flattened := FlattenLoop(sub, items, map[]);
        FlattenValues(sub, items, map[]);
        if flattened.Success? {
          FlattenValues(rest, parent, items + flattened.value);
          MergeIntoEmpty(LeafMap(sub));
          MergeAssociative(items, LeafMap(sub), LeafMap(rest));
        }
      case Leaf(v) =>
        if !(e.key in items || e.key in parent) {
          assert FlattenLoop(entries, parent, items) == FlattenLoop(rest, parent, items[e.key := v]);
          FlattenValues(rest, parent, items[e.key := v]);
          MergeOne(items, e.key, v);
          MergeAssociative(items, map[e.key := v], LeafMap(rest));
        }
    }
  }

  /** Merging with `update` is associative. */
  lemma MergeAssociative(a: map<string, Value>, b: map<string, Value>, c: map<string, Value>)
    ensures (a + b) + c == a + (b + c)
  {
    var l, r := (a + b) + c, a + (b + c);
    assert l.Keys == r.Keys;
    forall k | k in l ensures l[k] == r[k] {
    }
  }

  /** Storing one key is merging a one-key map. */
  lemma MergeOne(a: map<string, Value>, k: string, v: Value)
    ensures a[k := v] == a + map[k := v]
  {
  }

  /** Merging into nothing gives the map merged. */
  lemma MergeIntoEmpty(m: map<string, Value>)
    ensures map[] + m == m
  {
  }

  /** The keys a sequence holds. */
  function KeySet(keys: seq<string>): set<string>
  {
    set x | x in keys
  }

  /** A leaf raises once its key is among the caller's items, this level's
      items or the leaf keys of the entries before it, whatever comes in
      between: an earlier sub-dictionary either raises itself or adds its
      leaf keys to this level's items. */
  lemma {:induction false} RepeatedLeafRaises(entries: seq<Entry>, parent: map<string, Value>, items: map<string, Value>, i: nat)
    requires i < |entries| && entries[i].node.Leaf?
    requires entries[i].key in parent || entries[i].key in items || entries[i].key in LeafKeys(entries[..i])
    ensures FlattenLoop(entries, parent, items).Failure?
    decreases entries
  {
    var e := entries[0];
    assert e in entries;
    var rest := entries[1..];
    if i == 0 {
      assert entries[..0] == [];
    } else {
      assert entries[..i][0] == e && entries[..i][1..] == rest[..i - 1];
      assert rest[i - 1] == entries[i];
      match e.node
      case Sub(sub) =>
        assert LeafKeys(entries[..i]) == LeafKeys(sub) + LeafKeys(rest[..i - 1]);
        var flattened := FlattenLoop(sub, items, map[]);
        if flattened.Success? {
          FlattenKeys(sub, items, map[]);
          RepeatedLeafRaises(rest, parent, items + flattened.value, i - 1);
        }
      case Leaf(v) =>
        assert LeafKeys(entries[..i]) == [e.key] + LeafKeys(rest[..i - 1]);
        if !(e.key in items || e.key in parent) {
          RepeatedLeafRaises(rest, parent, items[e.key := v], i - 1);
        }
    }
  }

  /** `flatten_dict` raises whenever a leaf of the top level repeats a key
      of the caller's items or a leaf key, at any depth, of the entries
      before it. */
  lemma SameLevelDuplicatesRaise(entries: seq<Entry>, parent: map<string, Value>, i: nat)
    requires i < |entries| && entries[i].node.Leaf?
    requires entries[i].key in parent || entries[i].key in LeafKeys(entries[..i])
    ensures FlattenDict(entries, parent).Failure?
  {
    RepeatedLeafRaises(entries, parent, map[], i);
  }

  /** The loop raises only for a leaf key that repeats: one already among
      the caller's items or this level's, or one that occurs twice among
      the leaf keys. */
  lemma {:induction false} FlattenLoopRaisesOnRepeats(entries: seq<Entry>, parent: map<string, Value>, items: map<string, Value>)
    ensures FlattenLoop(entries, parent, items).Failure? ==>
              exists k :: FlattenLoop(entries, parent, items).error == DuplicateKeys(k) && k in LeafKeys(entries) &&
                          (k in parent || k in items || multiset(LeafKeys(entries))[k] >= 2)
    decreases entries
  {
    if entries != [] {
      var e := entries[0];
      assert e in entries;
      var rest := entries[1..];
      var r := FlattenLoop(entries, parent, items);
      match e.node
      case Sub(sub) =>
        assert LeafKeys(entries) == LeafKeys(sub) + LeafKeys(rest);
        var counts := multiset(LeafKeys(entries));
        assert counts == multiset(LeafKeys(sub)) + multiset(LeafKeys(rest));
        var flattened := FlattenLoop(sub, items, map[]);
        if flattened.Failure? {
          var none: map<string, Value> := map[];
          FlattenLoopRaisesOnRepeats(sub, items, none);
          var k :| flattened.error == DuplicateKeys(k) && k in LeafKeys(sub) &&
                   (k in items || k in none || multiset(LeafKeys(sub))[k] >= 2);
          assert r.error == DuplicateKeys(k) && k in LeafKeys(entries) && (k in items || counts[k] >= 2);
        } else if r.Failure? {
          var merged := items + flattened.value;
          FlattenKeys(sub, items, map[]);
          FlattenLoopRaisesOnRepeats(rest, parent, merged);
          var k :| r.error == DuplicateKeys(k) && k in LeafKeys(rest) &&
                   (k in parent || k in merged || multiset(LeafKeys(rest))[k] >= 2);
          if k in merged && k !in items {
            assert k in LeafKeys(sub);
            assert multiset(LeafKeys(sub))[k] >= 1 && multiset(LeafKeys(rest))[k] >= 1;
          }
          assert r.error == DuplicateKeys(k) && k in LeafKeys(entries) && (k in parent || k in items || counts[k] >= 2);
        }
      case Leaf(v) =>
        assert LeafKeys(entries) == [e.key] + LeafKeys(rest);
        var counts := multiset(LeafKeys(entries));
        assert counts == multiset([e.key]) + multiset(LeafKeys(rest));
        if e.key in items || e.key in parent {
          assert r.error == DuplicateKeys(e.key) && e.key in LeafKeys(entries);
        } else if r.Failure? {
          var stored := items[e.key := v];
          FlattenLoopRaisesOnRepeats(rest, parent, stored);
          var k :| r.error == DuplicateKeys(k) && k in LeafKeys(rest) &&
                   (k in parent || k in stored || multiset(LeafKeys(rest))[k] >= 2);
          if k == e.key {
            assert multiset(LeafKeys(rest))[k] >= 1;
          }
          assert r.error == DuplicateKeys(k) && k in LeafKeys(entries) && (k in parent || k in items || counts[k] >= 2);
        }
    }
  }

  /** As written, a leaf two levels down that repeats a key of the top level
      is let through, and its value replaces the first one. */
  lemma NestedDuplicateAccepted()
    ensures FlattenDict([Entry("a", Leaf(Int(1))), Entry("s", Sub([Entry("t", Sub([Entry("a", Leaf(Int(2)))]))]))], map[]) ==
            Success(map["a" := Int(2)])
  {
    var t := [Entry("a", Leaf(Int(2)))];
    var s := [Entry("t", Sub(t))];
    var top := [Entry("a", Leaf(Int(1))), Entry("s", Sub(s))];
    assert FlattenLoop(t, map[], map[]) == FlattenLoop([], map[], map["a" := Int(2)]);
    assert map[] + map["a" := Int(2)] == map["a" := Int(2)];
    assert s[1..] == [];
    assert FlattenLoop(s, map["a" := Int(1)], map[]) == FlattenLoop([], map["a" := Int(1)], map["a" := Int(2)]);
    assert top[1..] == [Entry("s", Sub(s))];
    assert FlattenLoop(top, map[], map[]) == FlattenLoop(top[1..], map[], map["a" := Int(1)]);
    assert map["a" := Int(1)] + map["a" := Int(2)] == map["a" := Int(2)];
  }

  /** The flattening the docstring describes: a sub-dictionary is checked
      against everything seen so far, the caller's items and this level's,
      so a key can appear only once at any depth. */
  function FlattenCheckedLoop(entries: seq<Entry>, parent: map<string, Value>, items: map<string, Value>): Result<map<string, Value>, PlanError>
    decreases entries
  {
    if entries == [] then Success(items)
    else
      var e := entries[0];
      match e.node
      case Sub(sub) =>
        var flattened := FlattenCheckedLoop(sub, parent + items, map[]);
        if flattened.Failure? then flattened else FlattenCheckedLoop(entries[1..], parent, items + flattened.value)
      case Leaf(v) =>
        if e.key in items || e.key in parent then Failure(DuplicateKeys(e.key))
        else FlattenCheckedLoop(entries[1..], parent, items[e.key := v])
  }

  /** The checked flattening of a whole dictionary: it succeeds exactly when
      no leaf key repeats at any depth, and then holds exactly the leaves. */
  function FlattenChecked(entries: seq<Entry>): (r: Result<map<string, Value>, PlanError>)
    ensures r.Success? <==> Distinct(LeafKeys(entries))
    ensures r.Success? ==> r.value == LeafMap(entries)
  {
    FlattenCheckedExact(entries, map[], map[]);
    FlattenCheckedValues(entries, map[], map[]);
    MergeIntoEmpty(LeafMap(entries));
    FlattenCheckedLoop(entries, map[], map[])
  }

  /** Whether a sequence of keys repeats none. */
  predicate Distinct(keys: seq<string>)
  {
    forall i, j :: 0 <= i < j < |keys| ==> keys[i] != keys[j]
  }

  /** The checked flattening succeeds exactly when no leaf key repeats,
      whatever the depth, nor repeats a key already seen; then it adds
      exactly the leaf keys. */
  lemma {:induction false} FlattenCheckedExact(entries: seq<Entry>, parent: map<string, Value>, items: map<string, Value>)
    ensures var keys := LeafKeys(entries);
            FlattenCheckedLoop(entries, parent, items).Success? <==>
              Distinct(keys) && forall x :: x in keys ==> x !in parent && x !in items
    ensures FlattenCheckedLoop(entries, parent, items).Success? ==>
              FlattenCheckedLoop(entries, parent, items).value.Keys == items.Keys + KeySet(LeafKeys(entries))
    decreases entries
  {
    if entries != [] {
      var e := entries[0];
      assert e in entries;
      var rest := entries[1..];
      match e.node
      case Sub(sub) =>
        var sk, rk := LeafKeys(sub), LeafKeys(rest);
        assert LeafKeys(entries) == sk + rk;
        DistinctConcat(sk, rk);
        var flattened := FlattenCheckedLoop(sub, parent + items, map[]);
        FlattenCheckedExact(sub, parent + items, map[]);
        if flattened.Success? {
          assert flattened.value.Keys == KeySet(sk);
          FlattenCheckedExact(rest, parent, items + flattened.value);
        } else {
          assert !(Distinct(sk) && forall x :: x in sk ==> x !in parent + items);
        }
      case Leaf(v) =>
        var rk := LeafKeys(rest);
        assert LeafKeys(entries) == [e.key] + rk;
        DistinctConcat([e.key], rk);
        if !(e.key in items || e.key in parent) {
          assert FlattenCheckedLoop(entries, parent, items) == FlattenCheckedLoop(rest, parent, items[e.key := v]);
          FlattenCheckedExact(rest, parent, items[e.key := v]);
        } else {
          assert e.key in LeafKeys(entries);
        }
    }
  }

  /** A checked flattening that succeeds holds each leaf's value under its
      key, none replaced. */
  lemma {:induction false} FlattenCheckedValues(entries: seq<Entry>, parent: map<string, Value>, items: map<string, Value>)
    ensures FlattenCheckedLoop(entries, parent, items).Success? ==>
              FlattenCheckedLoop(entries, parent, items).value == items + LeafMap(entries)
    decreases entries
  {
    if entries != [] {
      var e := entries[0];
      assert e in entries;
      var rest := entries[1..];
      match e.node
      case Sub(sub) =>
        var flattened := FlattenCheckedLoop(sub, parent + items, map[]);
        FlattenCheckedValues(sub, parent + items, map[]);
        if flattened.Success? {
          FlattenCheckedValues(rest, parent, items + flattened.value);
          MergeIntoEmpty(LeafMap(sub));
          MergeAssociative(items, LeafMap(sub), LeafMap(rest));
        }
      case Leaf(v) =>
        if !(e.key in items || e.key in parent) {
          assert FlattenCheckedLoop(entries, parent, items) == FlattenCheckedLoop(rest, parent, items[e.key := v]);
          FlattenCheckedValues(rest, parent, items[e.key := v]);
          MergeOne(items, e.key, v);
          MergeAssociative(items, map[e.key := v], LeafMap(rest));
        }
    }
  }

  /** A concatenation repeats no key exactly when neither part does and they
      share none. */
  lemma DistinctConcat(a: seq<string>, b: seq<string>)
    ensures Distinct(a + b) <==> Distinct(a) && Distinct(b) && forall x :: x in a ==> x !in b
  {
    if Distinct(a) && Distinct(b) && forall x :: x in a ==> x !in b {
      forall i, j | 0 <= i < j < |a + b| ensures (a + b)[i] != (a + b)[j] {
        if j < |a| {
        } else if i >= |a| {
          assert (a + b)[i] == b[i - |a|] && (a + b)[j] == b[j - |a|];
        } else {
          assert (a + b)[i] == a[i] && a[i] in a;
          assert (a + b)[j] == b[j - |a|];
        }
      }
    }
    if Distinct(a + b) {
      forall i, j | 0 <= i < j < |a| ensures a[i] != a[j] {
        assert (a + b)[i] == a[i] && (a + b)[j] == a[j];
      }
      forall i, j | 0 <= i < j < |b| ensures b[i] != b[j] {
        assert (a + b)[|a| + i] == b[i] && (a + b)[|a| + j] == b[j];
      }
      forall i, j | 0 <= i < |a| && 0 <= j < |b| ensures a[i] != b[j] {
        assert (a + b)[i] == a[i] && (a + b)[|a| + j] == b[j];
      }
    }
  }

  /** Where the checked flattening succeeds, the one as written does too,
      with the same result, even against fewer of the caller's items: it
      checks a subset of what the checked one does. */
  lemma {:induction false} FlattenLoopAgreesWithChecked(entries: seq<Entry>, parent: map<string, Value>,
                                                         checkedParent: map<string, Value>, items: map<string, Value>)
    requires parent.Keys <= checkedParent.Keys
    ensures FlattenCheckedLoop(entries, checkedParent, items).Success? ==>
              FlattenLoop(entries, parent, items) == FlattenCheckedLoop(entries, checkedParent, items)
    decreases entries
  {
    if entries != [] {
      var e := entries[0];
      assert e in entries;
      var rest := entries[1..];
      match e.node
      case Sub(sub) =>
        FlattenLoopAgreesWithChecked(sub, items, checkedParent + items, map[]);
        var flattened := FlattenCheckedLoop(sub, checkedParent + items, map[]);
        if flattened.Success? {
          FlattenLoopAgreesWithChecked(rest, parent, checkedParent, items + flattened.value);
        }
      case Leaf(v) =>
        if !(e.key in items || e.key in checkedParent) {
          FlattenLoopAgreesWithChecked(rest, parent, checkedParent, items[e.key := v]);
        }
    }
  }

  /** A dictionary whose leaf keys are all distinct, at any depth, is
      accepted by `flatten_dict` as written, with the checked result. */
  lemma DistinctLeavesAccepted(entries: seq<Entry>)
    ensures FlattenChecked(entries).Success? ==> FlattenDict(entries, map[]) == FlattenChecked(entries)
  {
    FlattenLoopAgreesWithChecked(entries, map[], map[], map[]);
  }

  /** The corrected flattening rejects the nested repeat the one as written
      lets through. */
  lemma NestedDuplicateRejected()
    ensures FlattenChecked([Entry("a", Leaf(Int(1))), Entry("s", Sub([Entry("t", Sub([Entry("a", Leaf(Int(2)))]))]))]).Failure?
  {
    var entries := [Entry("a", Leaf(Int(1))), Entry("s", Sub([Entry("t", Sub([Entry("a", Leaf(Int(2)))]))]))];
    FlattenCheckedExact(entries, map[], map[]);
    var t := [Entry("a", Leaf(Int(2)))];
    var s := [Entry("t", Sub(t))];
    assert LeafKeys(t) == ["a"];
    assert LeafKeys(s) == ["a"];
    assert entries[1..] == [Entry("s", Sub(s))];
    assert LeafKeys(entries[1..]) == ["a"];
    assert LeafKeys(entries) == ["a", "a"];
  }

  // ---------------------------------------------------------------------------
  // Sharing out the bucket
  // ---------------------------------------------------------------------------

  /** `fetch_subdict_from_bucket`: the listed keys the bucket holds a value
      other than None for, with their values. */
  function FetchSubdict(keys: seq<string>, bucket: map<string, Value>): (sub: map<string, Value>)
    ensures forall k :: k in sub <==> k in keys && k in bucket && bucket[k] != NoneV
    ensures forall k :: k in sub ==> sub[k] == bucket[k]
  {
    map k | k in keys && k in bucket && bucket[k] != NoneV :: bucket[k]
  }

  const ARTEMIS_PARAM_FIELD_KEYS: seq<string> := ["zocalo_environment", "beamline", "insertion_prefix", "experiment_type"]
  const DETECTOR_FIELD_ENCODER_KEY: string := "detector"

  /** `key_definitions`: the four artemis keys, the detector parameters'
      fields followed by `detector`, and the ISPyB parameters' fields. The
      two field lists are the annotations of classes outside this model. */
  function KeyDefinitions(detectorAnnotations: seq<string>, ispybAnnotations: seq<string>): (keys: (seq<string>, seq<string>, seq<string>))
    ensures keys.0 == ARTEMIS_PARAM_FIELD_KEYS
    ensures keys.1 == detectorAnnotations + [DETECTOR_FIELD_ENCODER_KEY] && DETECTOR_FIELD_ENCODER_KEY in keys.1
    ensures keys.2 == ispybAnnotations
  {
    (ARTEMIS_PARAM_FIELD_KEYS, detectorAnnotations + [DETECTOR_FIELD_ENCODER_KEY], ispybAnnotations)
  }

  /** `Point3D(*position)`: any iterable of exactly three elements spreads
      into a point (a list, a point, or a string of three characters, each
      character a string of its own); anything else raises a TypeError. */
  function ToPoint3D(position: Value): (r: Result<Value, PlanError>)
    ensures r.Success? <==> Spreadable(position) && |Spread(position)| == 3
    ensures r.Success? ==> r.value == Point(Spread(position)[0], Spread(position)[1], Spread(position)[2])
    ensures r.Failure? ==> r.error == TypeError
  {
    match position
    case List(items) => if |items| == 3 then Success(Point(items[0], items[1], items[2])) else Failure(TypeError)
    case Point(x, y, z) => Success(Point(x, y, z))
    case Str(s) => if |s| == 3 then Success(Point(Str([s[0]]), Str([s[1]]), Str([s[2]]))) else Failure(TypeError)
    case _ => Failure(TypeError)
  }

  /** Whether `*` can spread a value: the iterables among the values. */
  predicate Spreadable(v: Value)
  {
    v.List? || v.Point? || v.Str?
  }

  /** The elements `*` spreads an iterable value into. */
  function Spread(v: Value): seq<Value>
    requires Spreadable(v)
  {
    match v
    case List(items) => items
    case Point(x, y, z) => [x, y, z]
    case Str(s) => seq(|s|, i requires 0 <= i < |s| => Str([s[i]]))
  }

  /** The flattened parameters, changed in place by the preprocessing. */
  class ParamBucket {
    var entries: map<string, Value>

    constructor(entries: map<string, Value>)
      ensures this.entries == entries
    {
      this.entries := entries;
    }

    /** `artemis_param_preprocessing`: stores the experiment's image count
        under `num_images`, then turns `position` into a point; a missing
        position raises a KeyError after the count is stored. */
    method ArtemisParamPreprocessing(numImages: int) returns (outcome: Outcome)
      modifies this
      ensures outcome == PreprocessOutcome(old(entries))
      ensures entries == PreprocessedBucket(old(entries), numImages)
    {
      entries := entries["num_images" := Int(numImages)];
      if "position" !in entries {
        return Raised(KeyError("position"));
      }
      var point := ToPoint3D(entries["position"]);
      if point.Failure? {
        return Raised(point.error);
      }
      entries := entries["position" := point.value];
      outcome := Completed;
    }
  }

  /** How the preprocessing of a bucket ends: it completes exactly when the
      position is there and spreads into a point. */
  function PreprocessOutcome(bucket: map<string, Value>): (o: Outcome)
    ensures o == Completed <==> "position" in bucket && ToPoint3D(bucket["position"]).Success?
    ensures "position" !in bucket ==> o == Raised(KeyError("position"))
    ensures "position" in bucket && o.Raised? ==> o.error == TypeError
  {
    if "position" !in bucket then Raised(KeyError("position"))
    else if ToPoint3D(bucket["position"]).Failure? then Raised(ToPoint3D(bucket["position"]).error)
    else Completed
  }

  /** The bucket after the preprocessing: the count always stored, the
      position a point when it could be made one. */
  function PreprocessedBucket(bucket: map<string, Value>, numImages: int): map<string, Value>
  {
    var counted := bucket["num_images" := Int(numImages)];
    if "position" in bucket && ToPoint3D(bucket["position"]).Success?
    then counted["position" := ToPoint3D(bucket["position"]).value]
    else counted
  }

  /** A completed preprocessing changes exactly `num_images` and `position`,
      and a position of three values becomes the point of those values. */
  lemma PreprocessingChangesTwoKeys(bucket: map<string, Value>, numImages: int)
    ensures var after := PreprocessedBucket(bucket, numImages);
            after.Keys == bucket.Keys + {"num_images"} &&
            after["num_images"] == Int(numImages) &&
            forall k :: k in bucket && k != "num_images" && k != "position" ==> after[k] == bucket[k]
    ensures PreprocessOutcome(bucket) == Completed ==>
              "position" in bucket &&
              (bucket["position"].List? ==>
                 |bucket["position"].items| == 3 &&
                 PreprocessedBucket(bucket, numImages)["position"] ==
                   Point(bucket["position"].items[0], bucket["position"].items[1], bucket["position"].items[2]))
  {
  }

  /** The pydantic defaults of the artemis fields. */
  datatype ArtemisDefaults = ArtemisDefaults(zocaloEnvironment: Value, beamline: Value, insertionPrefix: Value, experimentType: Value)

  datatype ArtemisParameters = ArtemisParameters(
    zocaloEnvironment: Value, beamline: Value, insertionPrefix: Value, experimentType: Value,
    detectorParams: map<string, Value>, ispybParams: map<string, Value>)

  /** `InternalParameters`: `kind` is the concrete subclass. */
  datatype InternalParams = InternalParams(kind: string, artemisParams: ArtemisParameters, experimentParams: map<string, Value>)

  function FieldOr(args: map<string, Value>, key: string, default: Value): Value
  {
    if key in args then args[key] else default
  }

  /** What `__init__` builds from the external parameters: the experiment's
      fields from the flat bucket, then, after the preprocessing, the
      artemis, detector and ISPyB fields by their keys. `experimentKeys`
      are the experiment type's fields and `numImages` the count its
      parameters give. */
  function BuildParameters(kind: string, external: seq<Entry>, experimentKeys: seq<string>, detectorAnnotations: seq<string>,
                           ispybAnnotations: seq<string>, numImages: int, defaults: ArtemisDefaults): (r: Result<InternalParams, PlanError>)
    ensures r.Success? <==>
              FlattenDict(external, map[]).Success? && PreprocessOutcome(LeafMap(external)) == Completed
    ensures r.Success? ==> r.value.kind == kind && r.value.experimentParams == FetchSubdict(experimentKeys, LeafMap(external))
  {
    var flat := FlattenDict(external, map[]);
    if flat.Failure? then Failure(flat.error)
    else
      var experiment := FetchSubdict(experimentKeys, flat.value);
      var outcome := PreprocessOutcome(flat.value);
      if outcome.Raised? then Failure(outcome.error)
      else
        var bucket := PreprocessedBucket(flat.value, numImages);
        var keys := KeyDefinitions(detectorAnnotations, ispybAnnotations);
        var args := FetchSubdict(keys.0, bucket);
        Success(InternalParams(kind, ArtemisParameters(
          FieldOr(args, "zocalo_environment", defaults.zocaloEnvironment),
          FieldOr(args, "beamline", defaults.beamline),
          FieldOr(args, "insertion_prefix", defaults.insertionPrefix),
          FieldOr(args, "experiment_type", defaults.experimentType),
          FetchSubdict(keys.1, bucket),
          FetchSubdict(keys.2, bucket)), experiment))
  }

  /** `InternalParameters.__init__`, step by step. */
  method NewInternalParameters(kind: string, external: seq<Entry>, experimentKeys: seq<string>, detectorAnnotations: seq<string>,
                               ispybAnnotations: seq<string>, numImages: int, defaults: ArtemisDefaults)
      returns (r: Result<InternalParams, PlanError>)
    ensures r == BuildParameters(kind, external, experimentKeys, detectorAnnotations, ispybAnnotations, numImages, defaults)
  {
    var flat := FlattenDictLoop(external, map[]);
    if flat.Failure? {
      return Failure(flat.error);
    }
    var bucket := new ParamBucket(flat.value);
    var experiment := FetchSubdict(experimentKeys, bucket.entries);
    var outcome := bucket.ArtemisParamPreprocessing(numImages);
    if outcome.Raised? {
      return Failure(outcome.error);
    }
    var keys := KeyDefinitions(detectorAnnotations, ispybAnnotations);
    var args := FetchSubdict(keys.0, bucket.entries);
    var detectorArgs := FetchSubdict(keys.1, bucket.entries);
    var ispybArgs := FetchSubdict(keys.2, bucket.entries);
    r := Success(InternalParams(kind, ArtemisParameters(
      FieldOr(args, "zocalo_environment", defaults.zocaloEnvironment),
      FieldOr(args, "beamline", defaults.beamline),
      FieldOr(args, "insertion_prefix", defaults.insertionPrefix),
      FieldOr(args, "experiment_type", defaults.experimentType),
      detectorArgs, ispybArgs), experiment));
  }

  /** What the built parameters hold: the experiment's fields are taken
      before the preprocessing, the detector's after it, so the detector
      sees the image count and the point while the experiment does not;
      ISPyB gets the point too. */
  lemma BuiltParametersShareOutBucket(kind: string, external: seq<Entry>, experimentKeys: seq<string>, detectorAnnotations: seq<string>,
                                      ispybAnnotations: seq<string>, numImages: int, defaults: ArtemisDefaults)
    ensures BuildParameters(kind, external, experimentKeys, detectorAnnotations, ispybAnnotations, numImages, defaults).Success? ==>
            var p := BuildParameters(kind, external, experimentKeys, detectorAnnotations, ispybAnnotations, numImages, defaults).value;
            var flat := LeafMap(external);
            p.experimentParams == FetchSubdict(experimentKeys, flat) &&
            ("num_images" in detectorAnnotations ==> p.artemisParams.detectorParams["num_images"] == Int(numImages)) &&
            ("position" in ispybAnnotations ==> p.artemisParams.ispybParams["position"] == ToPoint3D(flat["position"]).value) &&
            p.artemisParams.detectorParams.Keys <= (set k | k in detectorAnnotations) + {DETECTOR_FIELD_ENCODER_KEY}
  {
    if BuildParameters(kind, external, experimentKeys, detectorAnnotations, ispybAnnotations, numImages, defaults).Success? {
      var flat := LeafMap(external);
      var bucket := PreprocessedBucket(flat, numImages);
      assert "num_images" in bucket && bucket["num_images"] == Int(numImages);
      assert "position" in bucket && bucket["position"] == ToPoint3D(flat["position"]).value;
    }
  }

  // ---------------------------------------------------------------------------
  // Equality
  // ---------------------------------------------------------------------------

  /** What the other operand of `==` is. */
  datatype Operand<T> = Instance(value: T) | NotInstance

  /** The result of `__eq__`. */
  datatype EqResult = NotImplemented | Equal(b: bool)

  /** `ArtemisParameters.__eq__`: field by field, in declaration order.
      Artemis parameters are equal exactly when all six fields are; anything
      else is left to Python's fallback. */
  function ArtemisEq(self: ArtemisParameters, other: Operand<ArtemisParameters>): (r: EqResult)
    ensures other.NotInstance? <==> r == NotImplemented
    ensures other.Instance? ==> r == Equal(self == other.value)
  {
    if other.NotInstance? then NotImplemented
    else
      var o := other.value;
      if self.zocaloEnvironment != o.zocaloEnvironment then Equal(false)
      else if self.beamline != o.beamline then Equal(false)
      else if self.insertionPrefix != o.insertionPrefix then Equal(false)
      else if self.experimentType != o.experimentType then Equal(false)
      else if self.detectorParams != o.detectorParams then Equal(false)
      else if self.ispybParams != o.ispybParams then Equal(false)
      else Equal(true)
  }

  /** `InternalParameters.__eq__`: the artemis parameters, then the
      experiment's; equal exactly when both are. */
  function InternalEq(self: InternalParams, other: Operand<InternalParams>): (r: EqResult)
    ensures other.NotInstance? <==> r == NotImplemented
    ensures other.Instance? ==>
              r == Equal(self.artemisParams == other.value.artemisParams && self.experimentParams == other.value.experimentParams)
  {
    if other.NotInstance? then NotImplemented
    else if self.artemisParams != other.value.artemisParams then Equal(false)
    else if self.experimentParams != other.value.experimentParams then Equal(false)
    else Equal(true)
  }

  /** Equality ignores the subclass: parameters of two different kinds can
      compare equal, and parameters of one kind that compare equal are the
      same value. */
  lemma InternalEqIgnoresKind(self: InternalParams, other: Operand<InternalParams>)
    ensures other.Instance? && InternalEq(self, other) == Equal(true) ==>
              InternalEq(self.(kind := other.value.kind), other) == Equal(true) &&
              (self.kind == other.value.kind ==> self == other.value)
  {
  }
}

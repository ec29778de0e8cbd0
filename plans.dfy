/** The vocabulary shared by every plan of the model: the values a plan reads,
    sets or carries in a document, the messages a plan issues (bluesky's
    `bps.*` stubs, seen as an abstract command trace), the documents a run
    emits, and the errors a step can raise. */
module Plans {
  import opened Wrappers

  /** A JSON-like value: a reading, a parameter or a document field. `NoneV` is
      Python's `None`. */
  datatype Value =
    | NoneV
    | Bool(b: bool)
    | Int(i: int)
    | Real(r: real)
    | Str(s: string)
    | List(items: seq<Value>)
    | Point(x: Value, y: Value, z: Value)   // a Point3D built from three values
    | Named(preset: string)                 // a named preset of a device (an aperture size, OUT, ...)

  /** Python truthiness of a value. */
  predicate Truthy(v: Value)
  {
    match v
    case NoneV => false
    case Bool(b) => b
    case Int(i) => i != 0
    case Real(r) => r != 0.0
    case Str(s) => s != ""
    case List(items) => items != []
    case _ => true
  }

  /** A position in motor space. */
  datatype Point3 = Point3(x: real, y: real, z: real)

  /** Trigger condition of one row of a PandA sequencer table. */
  datatype SeqTrigger = Immediate | BitA1 | PosAGt | PosALt

  /** A PandA sequencer table, column by column, as ophyd_async's SeqTable holds it. */
  datatype SeqTable = SeqTable(
    repeats: seq<int>, trigger: seq<SeqTrigger>, position: seq<int>, time1: seq<int>,
    outa1: seq<bool>, outb1: seq<bool>, outc1: seq<bool>, outd1: seq<bool>, oute1: seq<bool>, outf1: seq<bool>,
    time2: seq<int>,
    outa2: seq<bool>, outb2: seq<bool>, outc2: seq<bool>, outd2: seq<bool>, oute2: seq<bool>, outf2: seq<bool>)

  /** A message a plan yields, over the names `N` a module gives its signals,
      devices, reading bundles, runs and sub-plans. Each multi-axis move is one
      atomic batch: all axes are set and all are waited for before the next
      message. */
  datatype Msg<N> =
    | Read(signal: N)                                        // bps.rd / bps.read
    | Sleep(seconds: real)                                   // bps.sleep
    | Null                                                   // bps.null
    | Mv(moves: seq<(N, real)>)                              // bps.mv
    | AbsSet(signal: N, value: Value, group: Option<string>, wait: bool)
    | SetTable(signal: N, table: SeqTable)                   // bps.abs_set of a sequencer table
    | Wait(group: Option<string>, timeout: Option<int>)      // bps.wait
    | Create(name: N)                                        // bps.create: opens a reading bundle
    | Save                                                   // bps.save: closes it
    | OpenRun(key: N, md: map<string, Value>)
    | CloseRun(key: N, success: bool)
    | Stage(device: N)
    | Unstage(device: N)
    | Kickoff(device: N)
    | Complete(device: N)                                    // bps.complete(..., wait=True)
    | SubPlan(name: N)                                       // a plan from a library outside this model
    | Call(name: N, args: seq<Value>)                        // a direct call into a device or service

  /** The one name a message carries, if it carries exactly one. */
  function NameOf<N>(m: Msg<N>): Option<N>
  {
    match m
    case Read(n) => Some(n)
    case AbsSet(n, _, _, _) => Some(n)
    case SetTable(n, _) => Some(n)
    case Create(n) => Some(n)
    case OpenRun(n, _) => Some(n)
    case CloseRun(n, _) => Some(n)
    case Stage(n) => Some(n)
    case Unstage(n) => Some(n)
    case Kickoff(n) => Some(n)
    case Complete(n) => Some(n)
    case SubPlan(n) => Some(n)
    case Call(n, _) => Some(n)
    case _ => None
  }

  /** The documents of a run, as the recorders receive them. */
  datatype Doc =
    | StartDoc(runUid: Option<string>)
    | DescriptorDoc(uid: string, name: Option<string>)
    | EventDoc(descriptor: string, data: map<string, Value>)
    | StopDoc(exitStatus: Option<string>, reason: Option<string>)

  /** The exceptions a plan step can raise. */
  datatype PlanError =
    | WarningException(message: string)
    | AssertionError
    | KeyError(key: string)
    | ValueError(message: string)
    | TypeError
    | IndexError
    | OtherError(message: string)

  /** How a plan ended: normally or by raising. */
  datatype Outcome = Completed | Raised(error: PlanError)

  /** The durations of the sleeps of a trace, in order. Traces grow at the end,
      so the recursion peels off the last message. */
  function Sleeps<N>(trace: seq<Msg<N>>): seq<real>
  {
    if trace == [] then []
    else
      var last := trace[|trace| - 1];
      Sleeps(trace[..|trace| - 1]) + (if last.Sleep? then [last.seconds] else [])
  }

  lemma {:induction false} SleepsConcat<N>(a: seq<Msg<N>>, b: seq<Msg<N>>)
    ensures Sleeps(a + b) == Sleeps(a) + Sleeps(b)
  {
    if b == [] {
      assert a + b == a;
    } else {
      assert (a + b)[..|a + b| - 1] == a + b[..|b| - 1];
      SleepsConcat(a, b[..|b| - 1]);
    }
  }

  /** `n` copies of `x`. */
  function Repeat<T>(x: T, n: nat): (r: seq<T>)
    ensures |r| == n && forall i :: 0 <= i < n ==> r[i] == x
  {
    if n == 0 then [] else Repeat(x, n - 1) + [x]
  }

  lemma SleepsSingleton<N>(m: Msg<N>)
    ensures Sleeps([m]) == if m.Sleep? then [m.seconds] else []
  {
    assert [m][..0] == [];
  }

  /** A trace has no sleep at all exactly when none of its messages is a sleep. */
  lemma {:induction false} SleepsEmpty<N>(trace: seq<Msg<N>>)
    ensures Sleeps(trace) == [] <==> forall i :: 0 <= i < |trace| ==> !trace[i].Sleep?
  {
    if trace != [] {
      SleepsEmpty(trace[..|trace| - 1]);
    }
  }

  /** How often a message occurs in a trace. */
  function Occurrences<N(==)>(trace: seq<Msg<N>>, m: Msg<N>): nat
  {
    if trace == [] then 0
    else Occurrences(trace[..|trace| - 1], m) + (if trace[|trace| - 1] == m then 1 else 0)
  }

  lemma {:induction false} OccurrencesConcat<N>(a: seq<Msg<N>>, b: seq<Msg<N>>, m: Msg<N>)
    ensures Occurrences(a + b, m) == Occurrences(a, m) + Occurrences(b, m)
  {
    if b == [] {
      assert a + b == a;
    } else {
      assert (a + b)[..|a + b| - 1] == a + b[..|b| - 1];
      OccurrencesConcat(a, b[..|b| - 1], m);
    }
  }

  /** A message occurs nowhere in a trace exactly when its count is zero. */
  lemma {:induction false} OccurrencesZero<N>(trace: seq<Msg<N>>, m: Msg<N>)
    ensures Occurrences(trace, m) == 0 <==> m !in trace
  {
    if trace != [] {
      OccurrencesZero(trace[..|trace| - 1], m);
      assert trace == trace[..|trace| - 1] + [trace[|trace| - 1]];
    }
  }

  /** Every `m1` of `t` comes before every `m2`: some split of `t` has no `m2`
      in front and no `m1` behind. */
  predicate PrecedesAll<N(==)>(t: seq<Msg<N>>, m1: Msg<N>, m2: Msg<N>)
  {
    exists n :: 0 <= n <= |t| && m2 !in t[..n] && m1 !in t[n..]
  }

  /** What the split means position by position. */
  lemma PrecedesAllPositions<N>(t: seq<Msg<N>>, m1: Msg<N>, m2: Msg<N>)
    requires PrecedesAll(t, m1, m2)
    ensures forall i, j :: 0 <= i < |t| && 0 <= j < |t| && t[i] == m1 && t[j] == m2 ==> i < j
  {
    var n :| 0 <= n <= |t| && m2 !in t[..n] && m1 !in t[n..];
    forall i | n <= i < |t|
      ensures t[i] != m1
    {
      assert t[i] == t[n..][i - n];
    }
    forall j | 0 <= j < n
      ensures t[j] != m2
    {
      assert t[j] == t[..n][j];
    }
  }

  /** A message missing from both halves precedes nothing and follows nothing. */
  lemma PrecedesAllConcat<N>(a: seq<Msg<N>>, b: seq<Msg<N>>, m1: Msg<N>, m2: Msg<N>)
    requires m2 !in a && m1 !in b
    ensures PrecedesAll(a + b, m1, m2)
  {
    assert (a + b)[..|a|] == a && (a + b)[|a|..] == b;
  }

  /** Appending messages without `m1` keeps every `m1` before every `m2`. */
  lemma PrecedesAllExtend<N>(a: seq<Msg<N>>, b: seq<Msg<N>>, m1: Msg<N>, m2: Msg<N>)
    requires PrecedesAll(a, m1, m2) && m1 !in b
    ensures PrecedesAll(a + b, m1, m2)
  {
    var n :| 0 <= n <= |a| && m2 !in a[..n] && m1 !in a[n..];
    assert (a + b)[..n] == a[..n];
    assert (a + b)[n..] == a[n..] + b;
  }

  /** Prepending messages without `m2` keeps every `m1` before every `m2`. */
  lemma PrecedesAllPrepend<N>(a: seq<Msg<N>>, b: seq<Msg<N>>, m1: Msg<N>, m2: Msg<N>)
    requires PrecedesAll(b, m1, m2) && m2 !in a
    ensures PrecedesAll(a + b, m1, m2)
  {
    var n :| 0 <= n <= |b| && m2 !in b[..n] && m1 !in b[n..];
    assert (a + b)[..|a| + n] == a + b[..n];
    assert (a + b)[|a| + n..] == b[n..];
  }

  function DigitChar(d: nat): (c: char)
    requires d < 10
    ensures '0' <= c <= '9'
  {
    "0123456789"[d]
  }

  predicate IsDigit(c: char) { '0' <= c <= '9' }

  /** Decimal rendering of a natural number, as Python's `str` gives it. */
  function NatToString(n: nat): (s: string)
    ensures |s| >= 1 && forall k :: 0 <= k < |s| ==> IsDigit(s[k])
    ensures n < 10 <==> |s| == 1
  {
    if n < 10 then [DigitChar(n)] else NatToString(n / 10) + [DigitChar(n % 10)]
  }

  /** Decimal rendering of an integer, with a leading '-' when negative. */
  function IntToString(i: int): (s: string)
    ensures |s| >= 1
    ensures i < 0 <==> s[0] == '-'
    ensures forall k :: (if i < 0 then 1 else 0) <= k < |s| ==> IsDigit(s[k])
  {
    if i < 0 then "-" + NatToString(-i) else NatToString(i)
  }
}

/** The top-up gate run before a collection: when the synchrotron is in a mode
    that allows gating and not in decay mode, the collection is delayed until
    the next top-up is over if it would not finish before that top-up starts. */
module TopUp {
  import opened Plans

  /** The signals the gate reads: synchrotron.machine_status.synchrotron_mode,
      synchrotron.top_up.start_countdown and synchrotron.top_up.end_countdown. */
  datatype Signal = MachineMode | StartCountdown | EndCountdown

  /** Machine modes in which gating on top-up is permitted (User and Special). */
  const ALLOWED_MODES: seq<string> := ["User", "Special"]
  /** Value of the start countdown while the machine is in decay mode. */
  const DECAY_MODE_COUNTDOWN: real := -1.0
  /** Value of the start countdown while a top-up is in progress. */
  const COUNTDOWN_DURING_TOPUP: real := 0.0
  /** Seconds slept between two reads of the start countdown while polling. */
  const POLL_INTERVAL: real := 0.1

  predicate InDecayMode(timeToTopup: real)
  {
    timeToTopup == DECAY_MODE_COUNTDOWN
  }

  predicate GatingPermitted(machineMode: string)
  {
    machineMode in ALLOWED_MODES
  }

  /** The collection must wait when it would run past the start of the next top-up. */
  predicate DelayToAvoidTopup(totalRunTime: real, timeToTopup: real)
  {
    totalRunTime > timeToTopup
  }

  /** Gating applies: not in decay mode and in a permitted machine mode. */
  predicate Gated(machineMode: string, timeToTopup: real)
  {
    !(InDecayMode(timeToTopup) || !GatingPermitted(machineMode))
  }

  /** Some reading of the countdown is not 0. The poll has no time-out: the
      model covers the runs in which the countdown leaves 0, and says
      nothing about a countdown that stays at 0 for ever. */
  predicate EventuallyNonZero(readings: seq<real>)
  {
    exists j :: 0 <= j < |readings| && readings[j] != COUNTDOWN_DURING_TOPUP
  }

  /** The messages of a poll that sees `k` zero readings before a non-zero one:
      a read, then `k` times a sleep followed by a read. */
  function PollTrace(k: nat): seq<Msg<Signal>>
  {
    if k == 0 then [Read(StartCountdown)]
    else PollTrace(k - 1) + [Sleep(POLL_INTERVAL), Read(StartCountdown)]
  }

  /** A poll of `k` zero readings sleeps exactly `k` times, each time for 0.1 s. */
  lemma {:induction false} PollTraceSleeps(k: nat)
    ensures Sleeps(PollTrace(k)) == Repeat(POLL_INTERVAL, k)
  {
    if k == 0 {
      SleepsSingleton(Read(StartCountdown));
    } else {
      PollTraceSleeps(k - 1);
      SleepsConcat(PollTrace(k - 1), [Sleep(POLL_INTERVAL)]);
      SleepsConcat(PollTrace(k - 1) + [Sleep(POLL_INTERVAL)], [Read(StartCountdown)]);
      SleepsSingleton<Signal>(Sleep(POLL_INTERVAL));
      SleepsSingleton(Read(StartCountdown));
      assert PollTrace(k) == PollTrace(k - 1) + [Sleep(POLL_INTERVAL)] + [Read(StartCountdown)];
    }
  }

  /** The messages of a poll of `k` zero readings alternate between reads (at even
      positions, first and last included) and sleeps. */
  lemma {:induction false} PollTraceAlternates(k: nat)
    ensures |PollTrace(k)| == 2 * k + 1
    ensures forall j :: 0 <= j < |PollTrace(k)| ==>
              PollTrace(k)[j] == (if j % 2 == 0 then Read(StartCountdown) else Sleep(POLL_INTERVAL))
  {
    if k > 0 {
      PollTraceAlternates(k - 1);
      var p := PollTrace(k - 1);
      assert PollTrace(k) == p + [Sleep(POLL_INTERVAL), Read(StartCountdown)];
      forall j | 0 <= j < |PollTrace(k)|
        ensures PollTrace(k)[j] == (if j % 2 == 0 then Read(StartCountdown) else Sleep(POLL_INTERVAL))
      {
        if j < |p| {
          assert PollTrace(k)[j] == p[j];
        } else if j == |p| {
          assert j % 2 == 1;
        } else {
          assert j == 2 * k && j % 2 == 0;
        }
      }
    }
  }

  /** Reads the start countdown until it is not 0, sleeping 0.1 s between reads.
      `readings` are the successive values the countdown gives; `used` is how
      many of them the poll consumed. */
  method WaitForTopupComplete(readings: seq<real>) returns (trace: seq<Msg<Signal>>, used: nat)
    requires EventuallyNonZero(readings)
    ensures 1 <= used <= |readings|
    ensures readings[used - 1] != COUNTDOWN_DURING_TOPUP
    ensures forall j :: 0 <= j < used - 1 ==> readings[j] == COUNTDOWN_DURING_TOPUP
    ensures trace == PollTrace(used - 1)
  {
    var start := readings[0];
    trace := [Read(StartCountdown)];
    used := 1;
    while start == COUNTDOWN_DURING_TOPUP
      invariant 1 <= used <= |readings|
      invariant start == readings[used - 1]
      invariant forall j :: 0 <= j < used - 1 ==> readings[j] == COUNTDOWN_DURING_TOPUP
      invariant trace == PollTrace(used - 1)
      decreases |readings| - used
    {
      var w :| 0 <= w < |readings| && readings[w] != COUNTDOWN_DURING_TOPUP;
      assert w >= used;
      trace := trace + [Sleep(POLL_INTERVAL)];
      start := readings[used];
      trace := trace + [Read(StartCountdown)];
      used := used + 1;
    }
  }

  /** The plan is defined on these readings: one start-countdown reading when
      gating does not apply; otherwise a second one, and when that one is 0 a
      later reading that is not (see EventuallyNonZero). */
  predicate ReadingsSuffice(machineMode: string, startReads: seq<real>)
  {
    |startReads| >= 1 &&
    (Gated(machineMode, startReads[0]) ==>
       |startReads| >= 2 &&
       (startReads[1] == COUNTDOWN_DURING_TOPUP ==> EventuallyNonZero(startReads[2..])))
  }

  /** The gate's own messages sleep once, for the wait. */
  lemma GateSleeps(wait: real)
    ensures Sleeps([Read(EndCountdown), Sleep(wait), Read(StartCountdown)]) == [wait]
  {
    var gate := [Read(EndCountdown), Sleep(wait), Read(StartCountdown)];
    assert gate == [Read(EndCountdown)] + [Sleep(wait)] + [Read(StartCountdown)];
    SleepsSingleton<Signal>(Read(EndCountdown));
    SleepsSingleton<Signal>(Sleep(wait));
    SleepsSingleton<Signal>(Read(StartCountdown));
    SleepsConcat([Read(EndCountdown)], [Sleep(wait)]);
    SleepsConcat([Read(EndCountdown)] + [Sleep(wait)], [Read(StartCountdown)]);
  }

  /** The gated part of the check: reads the end countdown, sleeps it (or 0 s
      when the collection ends before the top-up starts), re-reads the start
      countdown and polls while that reading is 0. */
  method WaitOutTopup(startReads: seq<real>, endCountdown: real, totalRunTime: real)
    returns (trace: seq<Msg<Signal>>, polls: nat)
    requires |startReads| >= 2
    requires startReads[1] == COUNTDOWN_DURING_TOPUP ==> EventuallyNonZero(startReads[2..])
    ensures var wait := if DelayToAvoidTopup(totalRunTime, startReads[0]) then endCountdown else 0.0;
            |trace| >= 3 &&
            trace[..3] == [Read(EndCountdown), Sleep(wait), Read(StartCountdown)] &&
            Sleeps(trace) == [wait] + Repeat(POLL_INTERVAL, polls)
    ensures startReads[1] != COUNTDOWN_DURING_TOPUP ==> |trace| == 3 && polls == 0
    ensures startReads[1] == COUNTDOWN_DURING_TOPUP ==>
              trace[3..] == PollTrace(polls) &&
              2 + polls < |startReads| && startReads[2 + polls] != COUNTDOWN_DURING_TOPUP &&
              forall j :: 2 <= j < 2 + polls ==> startReads[j] == COUNTDOWN_DURING_TOPUP
  {
    var timeToWait := if DelayToAvoidTopup(totalRunTime, startReads[0]) then endCountdown else 0.0;
    trace := [Read(EndCountdown), Sleep(timeToWait), Read(StartCountdown)];
    GateSleeps(timeToWait);
    polls := 0;
    var checkStart := startReads[1];
    if checkStart == COUNTDOWN_DURING_TOPUP {
      var poll, used := WaitForTopupComplete(startReads[2..]);
      polls := used - 1;
      ghost var polled := startReads[2..];
      assert forall j :: 2 <= j < 2 + polls ==> startReads[j] == polled[j - 2];
      assert startReads[2 + polls] == polled[polls];
      PollTraceSleeps(polls);
      SleepsConcat(trace, poll);
      ghost var gate := trace;
      trace := trace + poll;
      assert trace[..3] == gate && trace[3..] == poll;
    }
  }

  /** Checks whether top-up gating applies and, if so, sleeps until the top-up
      is over when it would start before the collection ends. `startReads` are
      the successive values of the start countdown, `endCountdown` the value of
      the end countdown; `polls` is the number of 0.1 s sleeps while polling. */
  method CheckTopupAndWaitIfNecessary(
    machineMode: string, startReads: seq<real>, endCountdown: real,
    totalExposureTime: real, opsTime: real)
    returns (trace: seq<Msg<Signal>>, polls: nat)
    requires ReadingsSuffice(machineMode, startReads)
    // decay mode or a mode that does not permit gating: no sleep at all
    ensures !Gated(machineMode, startReads[0]) ==>
              trace == [Read(MachineMode), Read(StartCountdown), Null] && Sleeps(trace) == [] && polls == 0
    // gated: one sleep of the end countdown or of 0, then one re-read of the start countdown
    ensures Gated(machineMode, startReads[0]) ==>
              var wait := if DelayToAvoidTopup(totalExposureTime + opsTime, startReads[0]) then endCountdown else 0.0;
              |trace| >= 5 &&
              trace[..5] == [Read(MachineMode), Read(StartCountdown), Read(EndCountdown), Sleep(wait), Read(StartCountdown)] &&
              Sleeps(trace) == [wait] + Repeat(POLL_INTERVAL, polls)
    // polling happens only when the re-read countdown is 0, and stops at the first non-zero value
    ensures Gated(machineMode, startReads[0]) && startReads[1] != COUNTDOWN_DURING_TOPUP ==>
              |trace| == 5 && polls == 0
    ensures Gated(machineMode, startReads[0]) && startReads[1] == COUNTDOWN_DURING_TOPUP ==>
              trace[5..] == PollTrace(polls) &&
              2 + polls < |startReads| && startReads[2 + polls] != COUNTDOWN_DURING_TOPUP &&
              forall j :: 2 <= j < 2 + polls ==> startReads[j] == COUNTDOWN_DURING_TOPUP
  {
    var timeToTopup := startReads[0];
    var head := [Read(MachineMode), Read(StartCountdown)];
    SleepsEmpty(head);
    if InDecayMode(timeToTopup) || !GatingPermitted(machineMode) {
      trace, polls := head + [Null], 0;
      SleepsEmpty(trace);
      return;
    }
    var rest;
    trace, polls := WaitOutTopup(startReads, endCountdown, totalExposureTime + opsTime);
    rest := trace;
    SleepsConcat(head, rest);
    trace := head + rest;
    assert trace[..5] == head + rest[..3];
    assert trace[5..] == rest[3..];
  }
}

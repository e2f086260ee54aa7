/**
 * The probe loop of `Main` (lines 87-119) with the network and the Ctrl+C
 * handler taken out as oracles: `send(k)` is what the `k`-th call of
 * `ping.Send` gives (counting from 0), and `running(k)` is the value of the
 * `isRunning` flag when the loop condition is evaluated before that call.
 */
module Probe {
  import opened Text
  import opened Options
  import opened Statistics

  /** What one `ping.Send` gives: a reply whose status is `Success`, with its
      round-trip time; a reply with any other status; or a `PingException`. */
  datatype ProbeOutcome = Success(rtt: int64) | Failed(status: string) | Exception(message: string)

  /** The system sound a probe plays, if any. */
  datatype Sound = Silent | Asterisk | Hand

  /** The sound after one probe: Asterisk for a success under `-a success`,
      Hand for a failed status or an exception under `-a failure`, else none. */
  function AlertFor(mode: AlertMode, outcome: ProbeOutcome): (s: Sound)
    ensures s == Asterisk <==> outcome.Success? && mode == OnSuccess
    ensures s == Hand <==> !outcome.Success? && mode == OnFailure
  {
    if outcome.Success? then (if mode == OnSuccess then Asterisk else Silent)
    else if mode == OnFailure then Hand else Silent
  }

  /** The sounds played over a run, one per probe. */
  function Alerts(mode: AlertMode, outcomes: seq<ProbeOutcome>): seq<Sound> {
    seq(|outcomes|, j requires 0 <= j < |outcomes| => AlertFor(mode, outcomes[j]))
  }

  // ---------------------------------------------------------------- run state

  /** The loop's counters and the list of recorded round-trip times. */
  datatype RunState = RunState(transmitted: int, received: int, roundTripTimes: seq<int64>)

  /** The invariant of the run state: one recorded time per reply, and no more
      replies than requests. */
  predicate Consistent(s: RunState) {
    0 <= s.received <= s.transmitted && |s.roundTripTimes| == s.received
  }

  /** The bookkeeping of one iteration. */
  function Record(s: RunState, outcome: ProbeOutcome): (r: RunState)
    ensures Consistent(s) ==> Consistent(r)
  {
    match outcome
    case Success(rtt) => RunState(s.transmitted + 1, s.received + 1, s.roundTripTimes + [rtt])
    case _ => RunState(s.transmitted + 1, s.received, s.roundTripTimes)
  }

  /** The run state after the given outcomes, iteration by iteration. */
  function Replay(outcomes: seq<ProbeOutcome>): (s: RunState)
    ensures Consistent(s) && s.transmitted == |outcomes|
  {
    if outcomes == [] then RunState(0, 0, [])
    else Record(Replay(outcomes[..|outcomes| - 1]), outcomes[|outcomes| - 1])
  }

  /** The round-trip times of the successful outcomes, in order. */
  function Replies(outcomes: seq<ProbeOutcome>): seq<int64> {
    if outcomes == [] then []
    else (if outcomes[0].Success? then [outcomes[0].rtt] else []) + Replies(outcomes[1..])
  }

  lemma {:induction false} RepliesSnoc(outcomes: seq<ProbeOutcome>, o: ProbeOutcome)
    ensures Replies(outcomes + [o]) == Replies(outcomes) + (if o.Success? then [o.rtt] else [])
  {
    if outcomes == [] {
      assert [] + [o] == [o];
    } else {
      assert (outcomes + [o])[0] == outcomes[0];
      assert (outcomes + [o])[1..] == outcomes[1..] + [o];
      RepliesSnoc(outcomes[1..], o);
    }
  }

  /** After any run, `transmitted` counts every probe, `received` counts the
      successful ones and the list holds their round-trip times in the order
      the replies came. */
  lemma {:induction false} ReplayCounts(outcomes: seq<ProbeOutcome>)
    ensures Replay(outcomes) == RunState(|outcomes|, |Replies(outcomes)|, Replies(outcomes))
  {
    if outcomes != [] {
      var init := outcomes[..|outcomes| - 1];
      var last := outcomes[|outcomes| - 1];
      ReplayCounts(init);
      assert init + [last] == outcomes;
      RepliesSnoc(init, last);
    }
  }

  /** A run with no successful probe records nothing and leaves `received` at 0. */
  lemma NoRepliesNoTimes(outcomes: seq<ProbeOutcome>)
    requires forall j :: 0 <= j < |outcomes| ==> !outcomes[j].Success?
    ensures Replay(outcomes).received == 0 && Replay(outcomes).roundTripTimes == []
  {
    ReplayCounts(outcomes);
    NoSuccessNoReplies(outcomes);
  }

  lemma {:induction false} NoSuccessNoReplies(outcomes: seq<ProbeOutcome>)
    requires forall j :: 0 <= j < |outcomes| ==> !outcomes[j].Success?
    ensures Replies(outcomes) == []
  {
    if outcomes != [] {
      assert !outcomes[0].Success?;
      NoSuccessNoReplies(outcomes[1..]);
    }
  }

  // ---------------------------------------------------------------- the loop exit

  /** The number of probes a count allows: none when it is 0 or negative. */
  function Limit(count: int32): nat {
    if count < 0 then 0 else count as nat
  }

  /** The number of iterations of `while (isRunning && transmitted < count)`,
      counting from iteration `k`: the first one at which the flag is down or
      the count is reached. */
  function Iterations(count: int32, running: nat -> bool, k: nat): (n: nat)
    requires k <= Limit(count)
    ensures k <= n <= Limit(count)
    ensures forall j :: k <= j < n ==> running(j)
    ensures n == Limit(count) || !running(n)
    decreases Limit(count) - k
  {
    if !running(k) || k >= count as int then k else Iterations(count, running, k + 1)
  }

  /** Without an interrupt the loop sends exactly `max(count, 0)` probes. */
  lemma Uninterrupted(count: int32, running: nat -> bool)
    requires forall j :: 0 <= j < Limit(count) ==> running(j)
    ensures Iterations(count, running, 0) == Limit(count)
  {
  }

  /** The outcomes of the first `n` probes. */
  function Sent(send: nat -> ProbeOutcome, n: nat): seq<ProbeOutcome> {
    seq(n, j requires 0 <= j < n => send(j))
  }

  /** One more outcome is one more `Record` step and one more sound. */
  lemma OneMoreProbe(send: nat -> ProbeOutcome, n: nat, mode: AlertMode)
    ensures Sent(send, n + 1) == Sent(send, n) + [send(n)]
    ensures Replay(Sent(send, n + 1)) == Record(Replay(Sent(send, n)), send(n))
    ensures Alerts(mode, Sent(send, n + 1)) == Alerts(mode, Sent(send, n)) + [AlertFor(mode, send(n))]
  {
    assert Sent(send, n + 1)[..n] == Sent(send, n);
  }

  /** The body of one iteration after `transmitted++`: the reply is counted and
      its time recorded on success, and the sound is chosen; both the `else`
      branch and the `catch` block leave the counters alone. */
  method HandleOutcome(outcome: ProbeOutcome, mode: AlertMode, transmitted: int32, received: int32, roundTripTimes: seq<int64>)
    returns (received': int32, roundTripTimes': seq<int64>, sound: Sound)
    requires 0 <= received < transmitted
    ensures RunState(transmitted as int, received' as int, roundTripTimes')
      == Record(RunState(transmitted as int - 1, received as int, roundTripTimes), outcome)
    ensures sound == AlertFor(mode, outcome)
  {
    received', roundTripTimes', sound := received, roundTripTimes, Silent;
    match outcome {
      case Success(rtt) =>
        received' := received + 1;
        roundTripTimes' := roundTripTimes + [rtt];
        if mode == OnSuccess {
          sound := Asterisk;
        }
      case Failed(_) =>
        if mode == OnFailure {
          sound := Hand;
        }
      case Exception(_) =>
        if mode == OnFailure {
          sound := Hand;
        }
    }
  }

  /** The loop as the program runs it, with 32-bit counters. */
  method ProbeLoop(count: int32, mode: AlertMode, running: nat -> bool, send: nat -> ProbeOutcome)
    returns (transmitted: int32, received: int32, roundTripTimes: seq<int64>, alerts: seq<Sound>)
    ensures transmitted as int == Iterations(count, running, 0)
    ensures RunState(transmitted as int, received as int, roundTripTimes) == Replay(Sent(send, transmitted as int))
    ensures alerts == Alerts(mode, Sent(send, transmitted as int))
  {
    transmitted, received, roundTripTimes, alerts := 0, 0, [], [];
    while running(transmitted as int) && transmitted < count
      invariant 0 <= transmitted as int <= Limit(count)
      invariant Iterations(count, running, transmitted as int) == Iterations(count, running, 0)
      invariant RunState(transmitted as int, received as int, roundTripTimes) == Replay(Sent(send, transmitted as int))
      invariant alerts == Alerts(mode, Sent(send, transmitted as int))
      decreases Limit(count) - transmitted as int
    {
      OneMoreProbe(send, transmitted as nat, mode);
      transmitted := transmitted + 1;
      var outcome := send(transmitted as int - 1);
      var sound;
      received, roundTripTimes, sound := HandleOutcome(outcome, mode, transmitted, received, roundTripTimes);
      alerts := alerts + [sound];
    }
  }


}

/**
 * `Main` from start to end with the console, the clock and the sounds taken
 * out: no arguments print the usage text; otherwise the options are scanned
 * (a bad `-s` or `-a` value ends the program with status 1 before anything
 * else happens), the payload is built, the probe loop runs, and the summary
 * line is produced when a reply came back.
 */
module PingTool {
  import opened Wrappers
  import opened Text
  import opened Options
  import opened Payload
  import opened Statistics
  import opened Probe

  /** How a run of the program ends and what it has to report. */
  datatype Report =
    | Usage
    | ConfigError(error: ParseError)
    | Finished(target: string, options: Options, payload: seq<byte>,
               transmitted: int32, received: int32, roundTripTimes: seq<int64>,
               alerts: seq<Sound>, summary: Option<RttSummary>)
  {
    /** The process exit status: 1 after a configuration error, 0 otherwise. */
    function ExitCode(): int {
      if ConfigError? then error.ExitCode() else 0
    }
  }

  method RunPing(args: seq<string>, running: nat -> bool, send: nat -> ProbeOutcome) returns (report: Report)
    ensures report.Usage? <==> |args| == 0
    ensures report.ConfigError? <==> |args| > 0 && Scan(args).Err?
    ensures report.ConfigError? ==> report.error == Scan(args).error && report.ExitCode() == 1
    ensures report.Finished? ==>
      && report.ExitCode() == 0
      && report.target == args[0]
      && Scan(args) == Ok(report.options)
      && ValidOptions(report.options)
      && |report.payload| == report.options.dataSize as int
      && (forall i :: 0 <= i < |report.payload| ==> report.payload[i] as int == i % 256)
      && report.transmitted as int == Iterations(report.options.count, running, 0)
      && RunState(report.transmitted as int, report.received as int, report.roundTripTimes)
         == Replay(Sent(send, report.transmitted as int))
      && report.alerts == Alerts(report.options.alertMode, Sent(send, report.transmitted as int))
      && (report.summary.Some? <==> report.received > 0)
      && report.summary == Summarize(report.roundTripTimes)
  {
    if |args| < 1 {
      return Usage;
    }
    var target := args[0];
    var scanned := ScanOptions(args);
    if scanned.Err? {
      return ConfigError(scanned.error);
    }
    var options := scanned.value;
    var buffer := BuildPayload(options.dataSize as nat);
    var transmitted, received, roundTripTimes, alerts :=
      ProbeLoop(options.count, options.alertMode, running, send);
    var summary := None;
    if received > 0 {
      summary := Some(RttSummary(Min(roundTripTimes), Mean(roundTripTimes), Max(roundTripTimes)));
    }
    report := Finished(target, options, buffer[..], transmitted, received, roundTripTimes, alerts, summary);
  }
}

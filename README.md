# pingtool, modelled in Dafny

`pingtool` is a small command-line ping: `pingtool <target> [-c count] [-s size] [-a success|failure]`.
It scans its options, builds an echo-request payload, sends one ICMP echo request per
second until the count is used up or Ctrl+C is pressed, plays a system sound after a
success or a failure depending on the alert mode, and prints a summary. This project
models the deterministic part of `Main` and proves what it does:

- `text.dfy` (module `Text`): the two .NET text routines the scanner uses. `int.TryParse`
  is modelled concretely (white space around the number, an optional `+` or `-`, ASCII
  digits, 32-bit range) on the newtype `int32`. `ToLower` is ASCII lower-casing.
- `options.dfy` (module `Options`): the handler dictionary and the scan loop. `Tokenize`
  lists the handler calls the scan makes. `ApplyAll` runs the handlers over that list.
  `Scan` combines the two. `ScanOptions` is the program's loop over three mutable
  locals, proved equal to `Scan`. `CountHandler`, `SizeHandler` and `AlertHandler` model
  the three closures. `Invoke` models the dispatch that runs one of them.
- `payload.dfy` (module `Payload`): the in-place fill of the payload array.
- `probe.dfy` (module `Probe`): the probe loop. `ping.Send` is an oracle `send(k)` giving
  the outcome of the `k`-th probe. The Ctrl+C flag is an oracle `running(k)` giving the
  value of `isRunning` when the loop condition is checked before probe `k`. `ProbeLoop`
  keeps 32-bit counters and is proved against `Replay` (the bookkeeping, one `Record`
  step per outcome), `Iterations` (the loop exit) and `Alerts` (the sounds).
- `statistics.dfy` (module `Statistics`): `Min`, `Max` and the average of the recorded
  round-trip times (`long`, the newtype `int64`), and the `received > 0` guard.
- `ping.dfy` (module `PingTool`): `Main` from start to end as `RunPing`, returning a
  `Report`: usage, a fatal configuration error with exit status 1, or a finished run.

## Model

| member | source | states |
|---|---|---|
| `Text.ParseShow` | Program.cs:30-34 | `int.TryParse` accepts the decimal spelling of every 32-bit value and gives that value back |
| `Text.ParseIgnoresWhite` | Program.cs:30-34 | white space before and after the number never changes what `int.TryParse` gives |
| `Text.LowerMatches` | Program.cs:43-44 | a value lower-cases to `success` (or any lower-case ASCII word) exactly when each of its characters is that word's letter or its capital |
| `Text.ParseInt` | Program.cs:30-34 | `int.TryParse`: nothing but white space is no number; an accepted text ends in a digit after trimming, and a negative result was written with `-` |
| `Text.Lower` | Program.cs:43 | `ToLower`: same length, each capital ASCII letter replaced by its small letter and every other character kept, so the result has no capital |
| `Options.FlagOf` | Program.cs:57 | `TryGetValue` on the dictionary whose comparer (line 27) ignores case: a recognised argument is two characters starting with `-`, and it lower-cases to the key of the flag found |
| `Options.FlagOfMatches` | Program.cs:27-42 | the case-insensitive dictionary recognises exactly `-c`/`-C`, `-s`/`-S` and `-a`/`-A`, and nothing else |
| `Options.ModeOf` | Program.cs:43-44 | the mode `-a` accepts: none exactly when the lower-cased value is neither `success` nor `failure`, otherwise the mode whose name is that lower-cased value |
| `Options.Handle` | Program.cs:29-51 | the three handlers as one function: `-c` never aborts; an abort carries the offending value; a successful `-s` stores its parsed value, which lies in [1, 65500]; a successful `-a` stores the mode named by the lower-cased value |
| `Options.HandleEffect` | Program.cs:29-51 | a handler aborts exactly on a fatal value and then reports it; otherwise it changes only the option its flag names |
| `Options.CountHandler` | Program.cs:29-32 | `-c` takes any integer `TryParse` accepts (0 and negatives included); a non-integer leaves the count as it was and is no error |
| `Options.SizeHandler` | Program.cs:33-41 | `-s` asks for exit exactly when the value is not an integer in [1, 65500]; otherwise the size becomes the parsed value |
| `Options.AlertHandler` | Program.cs:42-51 | `-a` asks for exit exactly when the lower-cased value is neither `success` nor `failure`; otherwise the stored mode's name is the lower-cased value |
| `Options.Invoke` | Program.cs:57-59 | running the handler the flag selects on the three locals agrees with the handler specification, its error included |
| `Options.ApplyAll` | Program.cs:55-62 | the handler calls in order, stopping at the first abort: an abort reports the value of one of the calls, and calls that are all `-c` never abort |
| `Options.Tokenize` | Program.cs:55-61 | the handler calls the scan makes from index `i` on; each consumes two arguments, so there are at most half as many as arguments left |
| `Options.Scan` | Program.cs:21-62 | the scan from `args[1]` on, starting from the defaults: with at most one argument after the target it gives the defaults, and every completed scan has a payload size in [1, 65500] |
| `Options.ScanCallStep` | Program.cs:57-60 | a recognised flag followed by an argument hands that argument to its handler, and the scan goes on after both |
| `Options.ScanAbortStep` | Program.cs:57-59 | a recognised flag whose handler aborts (lines 39 and 49) ends the scan with that handler's error |
| `Options.ScanSkipStep` | Program.cs:55-57 | any other argument, and a recognised flag in last position, is skipped alone |
| `Options.ScanOptions` | Program.cs:55-62 | the program's loop gives exactly the options, or the first error, that `Scan` specifies |
| `Options.ApplyAllAppend` | Program.cs:55-62 | handler calls compose in order, and after an abort nothing later is acted on |
| `Options.FirstFatal` | Program.cs:33-51 | the position of the first fatal handler call: that call is fatal and none before it is |
| `Options.ApplyAllFails` | Program.cs:33-51 | the scan fails exactly when some handler call is fatal, and it reports the first such call's error |
| `Options.ApplyAllValid` | Program.cs:33-35 | every completed sequence of handler calls keeps the payload size in [1, 65500] |
| `Options.LastOccurrenceWins` | Program.cs:29-51 | in a completed scan the last `-s` or `-a` always decides the size or the mode; the last `-c` decides the count when its value is an integer, while a `-c` with a non-integer value changes nothing (`Options.UnparsableCountIgnored`) |
| `Options.UnparsableCountIgnored` | Program.cs:29-32 | a `-c` handler call whose value is no integer can be removed from any sequence of handler calls without changing the result |
| `Options.NoFlagsNoCalls` | Program.cs:55-62 | when no argument is a recognised flag, no handler is called |
| `Options.ScanDefaults` | Program.cs:22-24 | with no options after the target the result is count `int.MaxValue`, size 56 and alert mode `failure` |
| `Options.AppendArgument` | Program.cs:55-62 | appending an argument either changes no handler call or, when the last argument was a pending flag, adds exactly one call that consumes the new argument |
| `Payload.BuildPayload` | Program.cs:70-72 | the buffer is a new array of `dataSize` bytes and byte `i` is `i % 256` |
| `Statistics.Min` | Program.cs:132 | `Min()` is a recorded time and no recorded time is smaller |
| `Statistics.Max` | Program.cs:132 | `Max()` is a recorded time and no recorded time is larger |
| `Statistics.Sum` | Program.cs:130 | the exact sum of the recorded times inside `Average()`; with no negative time it is not negative |
| `Statistics.SumSnoc` | Program.cs:130 | adding the times one by one from the front, as `Average()` does, gives the same total |
| `Statistics.SumBounds` | Program.cs:130 | the sum of `n` values lies between `n` times a lower and `n` times an upper bound of them |
| `Statistics.Mean` | Program.cs:130 | the average lies between the minimum and the maximum |
| `Statistics.Summarize` | Program.cs:128-132 | the summary exists exactly when a time was recorded; then min ≤ avg ≤ max and every recorded time lies in [min, max] |
| `Probe.AlertFor` | Program.cs:101-117 | Asterisk exactly on a success in `success` mode; Hand exactly on a failed status or an exception in `failure` mode; otherwise no sound |
| `Probe.Record` | Program.cs:89-99 | one iteration keeps the invariant `|roundTripTimes| == received <= transmitted` |
| `Probe.Replay` | Program.cs:87-119 | after any sequence of outcomes the run state is consistent and `transmitted` equals the number of probes |
| `Probe.ReplayCounts` | Program.cs:87-119 | `received` counts the successful outcomes, and `roundTripTimes` holds their times in the order the replies came |
| `Probe.NoRepliesNoTimes` | Program.cs:104-118 | a run in which no probe succeeds records no time and leaves `received` at 0 |
| `Probe.Iterations` | Program.cs:87 | the loop stops at the first check where the flag is down or `transmitted` has reached `count`, and after at most `max(count, 0)` probes |
| `Probe.Uninterrupted` | Program.cs:87 | without an interrupt exactly `max(count, 0)` probes are sent, so a count of 0 or less sends none |
| `Probe.HandleOutcome` | Program.cs:96-118 | one iteration after `transmitted++` equals one `Record` step, and the sound is the one `AlertFor` chooses |
| `Probe.ProbeLoop` | Program.cs:87-119 | the loop runs `Iterations` times, and its counters, its time list and its sounds are those the outcomes of the probes sent determine |
| `PingTool.RunPing` | Program.cs:12-132 | no arguments give the usage text; a bad `-s` or `-a` value gives exit status 1 with the first error, and no buffer or probe; otherwise the run uses the scanned options, the pattern payload, the loop's counters, and a summary exactly when `received > 0` |

## Left out

- `Ping.Send`, `PingReply` and `IPStatus`: ICMP through the operating system. They are replaced by the oracle `send`. The target, the 2000 ms timeout and the buffer that line 93 passes to it are not modelled. Neither are the reply's address and TTL.
- Exceptions other than `PingException` thrown by `Send`: they would end the program, and the model does not include them.
- `Console.CancelKeyPress`: an asynchronous handler. It is replaced by the oracle `running`, read once per loop check.
- `Stopwatch`, `DateTime.Now`, the elapsed time and `Thread.Sleep(1000)` are clock and timing effects. Also not modelled: the sleep is skipped after a `PingException`.
- `SystemSounds.*.Play()`: only which sound is chosen is modelled.
- All console output: the usage text, the banner with its `dataSize + 28` total, the per-probe lines and the statistics lines. Only the two error messages are kept, as `ParseError.Message`.
- Floating point. This covers the loss percentage `((transmitted - received) * 100.0) / transmitted` and the mean deviation (`Math.Sqrt`, `Math.Pow`). It also covers the `:F1`/`:F3` formatting.
- Statistics.Mean: the average is exact rational arithmetic. `Average()` rounds to `double`, and it throws if the `long` sum overflows. Neither is modelled.
- Text.ParseInt: only the invariant culture's `+` and `-` signs are accepted. Two .NET rules are left out: culture-specific signs, and trailing NUL characters, which .NET accepts.
- Text.Lower: only ASCII letters are folded. Two effects are left out: culture-sensitive `ToLower`, where for example under a Turkish culture `FAILURE` does not lower-case to `failure`, and the non-ASCII case pairs of `OrdinalIgnoreCase`.

## Behaviour of the code worth noting

- `-c` takes any 32-bit integer, 0 and negatives included. A count of 0 or less sends no probe (`Probe.Uninterrupted`).
- The loss percentage on Program.cs:126 is not guarded. With 0 transmitted, the `double` division prints NaN rather than failing. This happens with `-c 0`, with a negative count, or with Ctrl+C before the first probe. Floating point is left out, so the model does not state it.
- `args[0]` is always taken as the target, even when it is a flag such as `-c`. Options are scanned only from `args[1]` on.

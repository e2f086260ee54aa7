/**
 * The option scanner of `Main`: the arguments after the target are scanned
 * left to right; a recognised flag (`-c`, `-s`, `-a`, any letter case)
 * followed by another argument hands that argument to the flag's handler and
 * both are skipped; anything else is skipped alone. The `-s` and `-a`
 * handlers end the program with exit code 1 on a bad value.
 *
 * The specification is split in two: `Tokenize` lists the handler calls the
 * scan makes, `ApplyAll` runs the handlers over that list, and `Scan` is the
 * two together. `ScanOptions` is the loop of the program, proved equal to `Scan`.
 */
module Options {
  import opened Wrappers
  import opened Text

  /** The value of `alertMode`; `Name` is the lower-case string the program stores. */
  datatype AlertMode = OnSuccess | OnFailure {
    function Name(): string {
      match this
      case OnSuccess => "success"
      case OnFailure => "failure"
    }
  }

  datatype Options = Options(count: int32, dataSize: int32, alertMode: AlertMode)

  /** The two fatal configuration errors; each carries the offending value. */
  datatype ParseError = BadSize(value: string) | BadAlertMode(value: string) {
    function Message(): string {
      match this
      case BadSize(_) => "Error: Size must be between 1 and 65500 bytes"
      case BadAlertMode(_) => "Error: Alert mode must be either 'success' or 'failure'"
    }

    /** The status passed to `Environment.Exit`. */
    function ExitCode(): int {
      1
    }
  }

  /** `int.MaxValue`: with no `-c` the program pings until interrupted. */
  const DefaultCount: int32 := 0x7FFF_FFFF
  /** The payload size of the Linux ping. */
  const DefaultSize: int32 := 56
  const MaxSize: int32 := 65500

  function Defaults(): Options {
    Options(DefaultCount, DefaultSize, OnFailure)
  }

  /** What every successful scan produces: a payload size the `-s` handler admits. */
  predicate ValidOptions(o: Options) {
    0 < o.dataSize <= MaxSize
  }

  // ---------------------------------------------------------------- flags

  datatype Flag = CountFlag | SizeFlag | AlertFlag

  /** The keys of the handler dictionary. */
  const Handlers: map<string, Flag> := map["-c" := CountFlag, "-s" := SizeFlag, "-a" := AlertFlag]

  /** The dictionary lookup `optionHandlers.TryGetValue(arg, ...)`, whose key
      comparer ignores letter case. */
  function FlagOf(arg: string): (r: Option<Flag>)
    ensures r.Some? ==> |arg| == 2 && arg[0] == '-'
    ensures r == Some(CountFlag) ==> Lower(arg) == "-c"
    ensures r == Some(SizeFlag) ==> Lower(arg) == "-s"
    ensures r == Some(AlertFlag) ==> Lower(arg) == "-a"
  {
    var key := Lower(arg);
    if key in Handlers then Some(Handlers[key]) else None
  }

  /** Exactly the two spellings of each flag are recognised. */
  lemma FlagOfMatches(arg: string)
    ensures FlagOf(arg) == Some(CountFlag) <==> arg == "-c" || arg == "-C"
    ensures FlagOf(arg) == Some(SizeFlag) <==> arg == "-s" || arg == "-S"
    ensures FlagOf(arg) == Some(AlertFlag) <==> arg == "-a" || arg == "-A"
    ensures FlagOf(arg) == None <==> Lower(arg) !in {"-c", "-s", "-a"}
  {
    LowerMatches(arg, "-c");
    LowerMatches(arg, "-s");
    LowerMatches(arg, "-a");
    if |arg| == 2 {
      assert arg == [arg[0], arg[1]];
    }
  }

  // ---------------------------------------------------------------- the handlers

  /** One call of a handler: the flag and the argument it consumed. */
  datatype Invocation = Invocation(flag: Flag, value: string)

  /** The mode `-a` accepts for a value, if any. */
  function ModeOf(value: string): (r: Option<AlertMode>)
    ensures r.None? <==> Lower(value) != "success" && Lower(value) != "failure"
    ensures r.Some? ==> r.value.Name() == Lower(value)
  {
    var mode := Lower(value);
    if mode == "success" then Some(OnSuccess)
    else if mode == "failure" then Some(OnFailure)
    else None
  }

  /** The handlers of lines 29-51: `-c` takes any 32-bit integer and ignores
      anything else; `-s` and `-a` take a valid value or abort. */
  function Handle(inv: Invocation, o: Options): (r: Result<Options, ParseError>)
    ensures inv.flag == CountFlag ==> r.Ok?
    ensures r.Err? ==> r.error.value == inv.value
    ensures r.Ok? && inv.flag == SizeFlag ==> 0 < r.value.dataSize <= MaxSize && ParseInt(inv.value) == Some(r.value.dataSize)
    ensures r.Ok? && inv.flag == AlertFlag ==> r.value.alertMode.Name() == Lower(inv.value)
  {
    match inv.flag
    case CountFlag =>
      (match ParseInt(inv.value)
       case Some(n) => Ok(o.(count := n))
       case None => Ok(o))
    case SizeFlag =>
      (match ParseInt(inv.value)
       case Some(n) => if 0 < n <= MaxSize then Ok(o.(dataSize := n)) else Err(BadSize(inv.value))
       case None => Err(BadSize(inv.value)))
    case AlertFlag =>
      (match ModeOf(inv.value)
       case Some(m) => Ok(o.(alertMode := m))
       case None => Err(BadAlertMode(inv.value)))
  }

  /** Whether a handler call aborts the program, stated on the call alone:
      the failure conditions of `Handle` with the options left out.
      `HandleEffect` shows that `Handle` fails exactly then, whatever the
      options so far. */
  predicate Fatal(inv: Invocation) {
    match inv.flag
    case CountFlag => false
    case SizeFlag => !(ParseInt(inv.value).Some? && 0 < ParseInt(inv.value).value <= MaxSize)
    case AlertFlag => ModeOf(inv.value).None?
  }

  /** The error a fatal call reports: `-s` complains about the size and `-a`
      about the alert mode. */
  function FatalError(inv: Invocation): ParseError {
    if inv.flag == SizeFlag then BadSize(inv.value) else BadAlertMode(inv.value)
  }

  /** Whether a handler fails does not depend on the options so far (`Fatal`
      names the condition on the call alone), and a failure carries the call's
      own error; otherwise the handler changes the one option its flag names
      and no other. */
  lemma HandleEffect(inv: Invocation, o: Options)
    ensures Handle(inv, o).Err? <==> Fatal(inv)
    ensures Handle(inv, o).Err? ==> Handle(inv, o).error == FatalError(inv)
    ensures Handle(inv, o).Ok? ==>
      var o' := Handle(inv, o).value;
      (inv.flag != CountFlag ==> o'.count == o.count) &&
      (inv.flag != SizeFlag ==> o'.dataSize == o.dataSize) &&
      (inv.flag != AlertFlag ==> o'.alertMode == o.alertMode)
  {
  }

  /** Runs the handler calls in order, stopping at the first that aborts. */
  function ApplyAll(invs: seq<Invocation>, o: Options): (r: Result<Options, ParseError>)
    ensures r.Err? ==> exists j :: 0 <= j < |invs| && invs[j].value == r.error.value
    ensures (forall j :: 0 <= j < |invs| ==> invs[j].flag == CountFlag) ==> r.Ok?
  {
    if invs == [] then Ok(o)
    else
      match Handle(invs[0], o)
      case Err(e) => Err(e)
      case Ok(o') => ApplyAll(invs[1..], o')
  }

  // ---------------------------------------------------------------- the scan

  /** The handler calls the loop of lines 55-62 makes from index `i` on. */
  function Tokenize(args: seq<string>, i: nat): (r: seq<Invocation>)
    ensures 2 * |r| <= if i <= |args| then |args| - i else 0
    decreases |args| - i
  {
    if i >= |args| then []
    else if FlagOf(args[i]).Some? && i + 1 < |args| then
      [Invocation(FlagOf(args[i]).value, args[i + 1])] + Tokenize(args, i + 2)
    else Tokenize(args, i + 1)
  }

  /** The options the program runs with, or the error it exits with;
      `args[0]` is the target and is not scanned. */
  function Scan(args: seq<string>): (r: Result<Options, ParseError>)
    ensures |args| <= 2 ==> r == Ok(Defaults())
    ensures r.Ok? ==> ValidOptions(r.value)
  {
    ApplyAllValid(Tokenize(args, 1), Defaults());
    ApplyAll(Tokenize(args, 1), Defaults())
  }

  /** One step of the scan at a recognised flag with a value following it:
      the handler runs, and the scan goes on two places further. */
  lemma ScanCallStep(args: seq<string>, i: nat, o: Options, o': Options)
    requires i + 1 < |args| && FlagOf(args[i]).Some?
    requires Handle(Invocation(FlagOf(args[i]).value, args[i + 1]), o) == Ok(o')
    ensures ApplyAll(Tokenize(args, i), o) == ApplyAll(Tokenize(args, i + 2), o')
  {
    var inv := Invocation(FlagOf(args[i]).value, args[i + 1]);
    assert Tokenize(args, i) == [inv] + Tokenize(args, i + 2);
    assert ([inv] + Tokenize(args, i + 2))[1..] == Tokenize(args, i + 2);
  }

  /** The same step when the handler aborts: the scan ends with its error. */
  lemma ScanAbortStep(args: seq<string>, i: nat, o: Options, e: ParseError)
    requires i + 1 < |args| && FlagOf(args[i]).Some?
    requires Handle(Invocation(FlagOf(args[i]).value, args[i + 1]), o) == Err(e)
    ensures ApplyAll(Tokenize(args, i), o) == Err(e)
  {
    var inv := Invocation(FlagOf(args[i]).value, args[i + 1]);
    assert Tokenize(args, i) == [inv] + Tokenize(args, i + 2);
  }

  /** A step at any other argument skips it alone. */
  lemma ScanSkipStep(args: seq<string>, i: nat, o: Options)
    requires i < |args| && !(FlagOf(args[i]).Some? && i + 1 < |args|)
    ensures ApplyAll(Tokenize(args, i), o) == ApplyAll(Tokenize(args, i + 1), o)
  {
  }

  /** The `-c` handler (lines 29-32): any integer `TryParse` accepts becomes
      the count; any other value leaves it as it was. */
  method CountHandler(value: string, count: int32) returns (count': int32)
    ensures ParseInt(value).Some? ==> count' == ParseInt(value).value
    ensures ParseInt(value).None? ==> count' == count
  {
    count' := count;
    var specified := ParseInt(value);
    if specified.Some? {
      count' := specified.value;
    }
  }

  /** The `-s` handler (lines 33-41): a size in [1, 65500] is taken, anything
      else asks for the process to exit. */
  method SizeHandler(value: string, dataSize: int32) returns (exit: bool, dataSize': int32)
    ensures exit <==> !(ParseInt(value).Some? && 0 < ParseInt(value).value <= MaxSize)
    ensures !exit ==> ParseInt(value) == Some(dataSize')
    ensures exit ==> dataSize' == dataSize
  {
    dataSize' := dataSize;
    var size := ParseInt(value);
    if size.Some? && size.value > 0 && size.value <= MaxSize {
      exit := false;
      dataSize' := size.value;
    } else {
      exit := true;
    }
  }

  /** The `-a` handler (lines 42-51): a value that lower-cases to `success` or
      `failure` is taken in its lower-case form, anything else asks for the
      process to exit. */
  method AlertHandler(value: string, alertMode: AlertMode) returns (exit: bool, alertMode': AlertMode)
    ensures exit <==> Lower(value) != "success" && Lower(value) != "failure"
    ensures !exit ==> alertMode'.Name() == Lower(value) && ModeOf(value) == Some(alertMode')
    ensures exit ==> alertMode' == alertMode && ModeOf(value) == None
  {
    alertMode' := alertMode;
    var mode := Lower(value);
    if mode == "success" || mode == "failure" {
      exit := false;
      alertMode' := if mode == "success" then OnSuccess else OnFailure;
      assert "failure"[0] != "success"[0];
    } else {
      exit := true;
    }
  }

  /** `handler(args[i + 1])`: the handler the flag selects, run on the three
      locals it captures; `exit` holds the error when it calls `Environment.Exit`. */
  method Invoke(flag: Flag, value: string, count: int32, dataSize: int32, alertMode: AlertMode)
    returns (count': int32, dataSize': int32, alertMode': AlertMode, exit: Option<ParseError>)
    ensures Handle(Invocation(flag, value), Options(count, dataSize, alertMode)) ==
      if exit.Some? then Err(exit.value) else Ok(Options(count', dataSize', alertMode'))
  {
    count', dataSize', alertMode', exit := count, dataSize, alertMode, None;
    var abort := false;
    match flag {
      case CountFlag =>
        count' := CountHandler(value, count);
      case SizeFlag =>
        abort, dataSize' := SizeHandler(value, dataSize);
        if abort {
          exit := Some(BadSize(value));
        }
      case AlertFlag =>
        abort, alertMode' := AlertHandler(value, alertMode);
        if abort {
          exit := Some(BadAlertMode(value));
        }
    }
  }

  /** The scan loop with its three mutable locals, as the program runs it. */
  method ScanOptions(args: seq<string>) returns (r: Result<Options, ParseError>)
    ensures r == Scan(args)
  {
    var count := DefaultCount;
    var dataSize := DefaultSize;
    var alertMode := OnFailure;
    var i := 1;
    while i < |args|
      invariant 1 <= i <= |args| + 1
      invariant Scan(args) == ApplyAll(Tokenize(args, i), Options(count, dataSize, alertMode))
      decreases |args| - i
    {
      var handler := FlagOf(args[i]);
      if handler.Some? && i + 1 < |args| {
        ghost var o := Options(count, dataSize, alertMode);
        var exit;
        count, dataSize, alertMode, exit := Invoke(handler.value, args[i + 1], count, dataSize, alertMode);
        if exit.Some? {
          ScanAbortStep(args, i, o, exit.value);
          return Err(exit.value);
        }
        ScanCallStep(args, i, o, Options(count, dataSize, alertMode));
        i := i + 1; // the value is consumed
      } else {
        ScanSkipStep(args, i, Options(count, dataSize, alertMode));
      }
      i := i + 1;
    }
    assert Tokenize(args, i) == [];
    return Ok(Options(count, dataSize, alertMode));
  }

  // ---------------------------------------------------------------- properties

  /** Running two lists of handler calls is running the first, then the
      second from where the first left off; an abort ends everything. */
  lemma {:induction false} ApplyAllAppend(p: seq<Invocation>, q: seq<Invocation>, o: Options)
    ensures ApplyAll(p + q, o) ==
      match ApplyAll(p, o)
      case Err(e) => Err(e)
      case Ok(o') => ApplyAll(q, o')
  {
    if p == [] {
      assert p + q == q;
    } else {
      assert (p + q)[0] == p[0];
      assert (p + q)[1..] == p[1..] + q;
      match Handle(p[0], o)
      case Err(e) =>
      case Ok(o') => ApplyAllAppend(p[1..], q, o');
    }
  }

  /** The position of the first fatal handler call, if there is one. */
  function FirstFatal(p: seq<Invocation>): (r: Option<nat>)
    ensures r.Some? ==> r.value < |p| && Fatal(p[r.value]) && forall j :: 0 <= j < r.value ==> !Fatal(p[j])
    ensures r.None? ==> forall j :: 0 <= j < |p| ==> !Fatal(p[j])
  {
    if p == [] then None
    else if Fatal(p[0]) then Some(0)
    else
      match FirstFatal(p[1..])
      case Some(k) => Some(k + 1)
      case None => None
  }

  /** The scan aborts exactly when some handler call is fatal, and it reports
      the first fatal call's error: no later argument is acted on. */
  lemma {:induction false} ApplyAllFails(p: seq<Invocation>, o: Options)
    ensures ApplyAll(p, o).Err? <==> FirstFatal(p).Some?
    ensures ApplyAll(p, o).Err? ==> ApplyAll(p, o).error == FatalError(p[FirstFatal(p).value])
  {
    if p != [] {
      HandleEffect(p[0], o);
      if !Fatal(p[0]) {
        var o' := Handle(p[0], o).value;
        assert ApplyAll(p, o) == ApplyAll(p[1..], o');
        ApplyAllFails(p[1..], o');
        if FirstFatal(p[1..]).Some? {
          var k := FirstFatal(p[1..]).value;
          assert FirstFatal(p) == Some(k + 1);
          assert p[k + 1] == p[1..][k];
        }
      }
    }
  }

  /** Every completed scan leaves a payload size in the range `-s` admits. */
  lemma {:induction false} ApplyAllValid(p: seq<Invocation>, o: Options)
    requires ValidOptions(o)
    ensures ApplyAll(p, o).Ok? ==> ValidOptions(ApplyAll(p, o).value)
  {
    if p != [] && Handle(p[0], o).Ok? {
      ApplyAllValid(p[1..], Handle(p[0], o).value);
    }
  }


  /** Handler calls for other flags keep an option unchanged. */
  lemma {:induction false} ApplyAllKeeps(q: seq<Invocation>, f: Flag, o: Options)
    requires forall j :: 0 <= j < |q| ==> q[j].flag != f
    requires ApplyAll(q, o).Ok?
    ensures f == CountFlag ==> ApplyAll(q, o).value.count == o.count
    ensures f == SizeFlag ==> ApplyAll(q, o).value.dataSize == o.dataSize
    ensures f == AlertFlag ==> ApplyAll(q, o).value.alertMode == o.alertMode
  {
    if q != [] {
      HandleEffect(q[0], o);
      ApplyAllKeeps(q[1..], f, Handle(q[0], o).value);
    }
  }

  /** A later occurrence of a flag overrides every earlier one: the option
      the scan ends with is the one the last occurrence's value gives. */
  lemma LastOccurrenceWins(p: seq<Invocation>, inv: Invocation, q: seq<Invocation>, o: Options)
    requires forall j :: 0 <= j < |q| ==> q[j].flag != inv.flag
    ensures ApplyAll(p + [inv] + q, o).Ok? ==>
      var o' := ApplyAll(p + [inv] + q, o).value;
      match inv.flag
      case CountFlag => ParseInt(inv.value).Some? ==> o'.count == ParseInt(inv.value).value
      case SizeFlag => ParseInt(inv.value) == Some(o'.dataSize)
      case AlertFlag => o'.alertMode.Name() == Lower(inv.value)
  {
    ApplyAllAppend(p + [inv], q, o);
    ApplyAllAppend(p, [inv], o);
    if ApplyAll(p + [inv] + q, o).Ok? {
      var before := ApplyAll(p, o).value;
      var after := Handle(inv, before).value;
      assert ApplyAll([inv], before) == Ok(after);
      ApplyAllKeeps(q, inv.flag, after);
    }
  }

  /** A `-c` whose value is not an integer is no error and changes nothing. */
  lemma UnparsableCountIgnored(p: seq<Invocation>, v: string, q: seq<Invocation>, o: Options)
    requires ParseInt(v).None?
    ensures ApplyAll(p + [Invocation(CountFlag, v)] + q, o) == ApplyAll(p + q, o)
  {
    var inv := Invocation(CountFlag, v);
    ApplyAllAppend(p + [inv], q, o);
    ApplyAllAppend(p, [inv], o);
    ApplyAllAppend(p, q, o);
    if ApplyAll(p, o).Ok? {
      assert ApplyAll([inv], ApplyAll(p, o).value) == Ok(ApplyAll(p, o).value);
    }
  }

  /** With no recognised flag among the arguments the scan calls no handler. */
  lemma {:induction false} NoFlagsNoCalls(args: seq<string>, i: nat)
    requires forall j :: i <= j < |args| ==> FlagOf(args[j]).None?
    ensures Tokenize(args, i) == []
    decreases |args| - i
  {
    if i < |args| {
      NoFlagsNoCalls(args, i + 1);
    }
  }

  /** Without options the program runs with a count of `int.MaxValue`, a
      56-byte payload and alerts on failure. */
  lemma ScanDefaults(args: seq<string>)
    requires forall j :: 1 <= j < |args| ==> FlagOf(args[j]).None?
    ensures Scan(args) == Ok(Options(0x7FFF_FFFF, 56, OnFailure))
  {
    NoFlagsNoCalls(args, 1);
  }

  /** Whether the scan from `i` ends on the last argument and that argument
      is a recognised flag, which is then left without a value. */
  predicate Pending(args: seq<string>, i: nat)
    ensures Pending(args, i) ==> |args| > 0 && FlagOf(args[|args| - 1]).Some?
    decreases |args| - i
  {
    if i >= |args| then false
    else if i + 1 == |args| then FlagOf(args[i]).Some?
    else if FlagOf(args[i]).Some? then Pending(args, i + 2)
    else Pending(args, i + 1)
  }

  /** A recognised flag in last position is ignored; appending one more
      argument either changes no handler call or, when the last argument was
      such a flag, adds exactly one call that consumes the new argument. */
  lemma {:induction false} AppendArgument(args: seq<string>, x: string, i: nat)
    requires i <= |args|
    ensures Tokenize(args + [x], i) ==
      Tokenize(args, i) + (if Pending(args, i) then [Invocation(FlagOf(args[|args| - 1]).value, x)] else [])
    decreases |args| - i
  {
    var a := args + [x];
    if i == |args| {
      assert Tokenize(a, i + 1) == [];
    } else {
      assert a[i] == args[i];
      if i + 1 == |args| {
        assert a[i + 1] == x;
        assert Tokenize(args, i + 1) == [];
        if FlagOf(args[i]).Some? {
          assert Tokenize(a, i + 2) == [];
        } else {
          assert Tokenize(a, i + 1) == [];
        }
      } else if FlagOf(args[i]).Some? {
        assert a[i + 1] == args[i + 1];
        AppendArgument(args, x, i + 2);
      } else {
        AppendArgument(args, x, i + 1);
      }
    }
  }
}

// Model of the daemon's command-line Parser (sensord/parser.cpp): every
// argument is matched against the option names by substring, valued
// options take the field after the first '=', and the parsed log level is
// mapped to a SensordLogLevel (logging.h is not part of this model).
module Parser {
  import opened Common

  /** The SensordLogLevel values getLogLevel returns. */
  datatype LogLevel = SensordLogTest | SensordLogDebug | SensordLogWarning | SensordLogCritical

  /** The parser's fields. logTarget_ is not set by the constructor, so it has no value until an option sets it. */
  datatype Options = Options(
    printHelp: bool,
    contextInfo: bool,
    changeLogLevel: bool,
    configFile: bool,
    daemon: bool,
    magnetometerCalibration: bool,
    configFilePath: string,
    logLevel: string,
    logTarget: Option<int>)

  /** The constructor's initial values. */
  function Defaults(): (o: Options)
    ensures o.contextInfo && o.magnetometerCalibration
    ensures !o.printHelp && !o.changeLogLevel && !o.configFile && !o.daemon
    ensures o.configFilePath == "" && o.logLevel == "" && o.logTarget.None?
  {
    Options(false, true, false, false, false, true, "", "", None)
  }

  /** `sub` occurs in `s` at position `i`. */
  predicate OccursAt(s: string, sub: string, i: nat)
  {
    i + |sub| <= |s| && s[i..i + |sub|] == sub
  }

  /** QString::contains: `sub` occurs somewhere in `s`. */
  predicate Contains(s: string, sub: string)
  {
    exists i: nat :: i <= |s| && OccursAt(s, sub, i)
  }

  /**
   * The first '=' of `s` is at `i` and `v` is the text that follows it up to
   * the next '=' or the end.
   */
  predicate SecondField(s: string, i: nat, v: string)
  {
    && i + 1 + |v| <= |s| && s[i] == '=' && '=' !in s[..i]
    && s[i + 1..i + 1 + |v|] == v && '=' !in v && (i + 1 + |v| == |s| || s[i + 1 + |v|] == '=')
  }

  /**
   * split("=").at(1): the text between the first '=' and the next one (or
   * the end); there is no such field when `s` has no '='.
   */
  function Field(s: string): (r: Option<string>)
    ensures r.None? <==> '=' !in s
    ensures r.Some? ==> exists i: nat :: SecondField(s, i, r.value)
  {
    var before := UpTo(s, '=');
    if |before| == |s| then
      assert s == before;
      None
    else
      var i := |before|;
      var r := UpTo(s[i + 1..], '=');
      assert s[i + 1..][..|r|] == s[i + 1..i + 1 + |r|];
      assert i + 1 + |r| < |s| ==> s[i + 1..][|r|] == s[i + 1 + |r|];
      assert s[..i] == before;
      assert SecondField(s, i, r);
      Some(r)
  }

  function DigitsValue(s: string): (n: nat)
    requires forall i :: 0 <= i < |s| ==> '0' <= s[i] <= '9'
  {
    if s == [] then 0 else DigitsValue(s[..|s| - 1]) * 10 + (s[|s| - 1] as int - '0' as int)
  }

  predicate IsDigits(s: string)
  {
    s != [] && forall i :: 0 <= i < |s| ==> '0' <= s[i] <= '9'
  }

  /** The value of a signed decimal numeral, if `s` is one. */
  function Numeral(s: string): (r: Option<int>)
    ensures r.Some? <==> IsDigits(s) || (|s| >= 2 && (s[0] == '-' || s[0] == '+') && IsDigits(s[1..]))
    ensures r.Some? && s[0] == '-' ==> r.value <= 0
    ensures r.Some? && s[0] != '-' ==> r.value >= 0
  {
    if IsDigits(s) then Some(DigitsValue(s))
    else if |s| >= 1 && s[0] == '-' && IsDigits(s[1..]) then
      var v: int := DigitsValue(s[1..]);
      Some(-v)
    else if |s| >= 1 && s[0] == '+' && IsDigits(s[1..]) then Some(DigitsValue(s[1..]))
    else None
  }

  /** QString::toInt: a decimal numeral within the int range, and 0 for anything else. */
  function ToInt(s: string): (r: int)
    ensures -0x8000_0000 <= r < 0x8000_0000
    ensures Numeral(s).None? ==> r == 0
    ensures Numeral(s).Some? && -0x8000_0000 <= Numeral(s).value < 0x8000_0000 ==> r == Numeral(s).value
    ensures Numeral(s).Some? && !(-0x8000_0000 <= Numeral(s).value < 0x8000_0000) ==> r == 0
  {
    match Numeral(s)
    case Some(v) => if -0x8000_0000 <= v < 0x8000_0000 then v else 0
    case None => 0
  }

  /** The decimal digits of `n`, most significant first, without leading zeros. */
  function Decimal(n: nat): (s: string)
    ensures IsDigits(s) && DigitsValue(s) == n
    ensures s[0] == '0' ==> n == 0
    decreases n
  {
    var d := ['0' + (n % 10) as char];
    if n < 10 then d
    else
      var s := Decimal(n / 10) + d;
      assert s[..|s| - 1] == Decimal(n / 10);
      s
  }

  /** The numeral of an integer: its digits, after a '-' when it is negative. */
  function Signed(n: int): string
  {
    if n < 0 then "-" + Decimal(-n) else Decimal(n)
  }

  /** Every integer's numeral reads back as that integer. */
  lemma NumeralRoundTrip(n: int)
    ensures Numeral(Signed(n)) == Some(n)
  {
    if n < 0 {
      assert Signed(n)[1..] == Decimal(-n);
    }
  }

  /** toInt reads an int's numeral back as that int. */
  lemma ToIntRoundTrip(n: int)
    requires -0x8000_0000 <= n < 0x8000_0000
    ensures ToInt(Signed(n)) == n
  {
    NumeralRoundTrip(n);
  }

  predicate NamesLogLevel(opt: string) { Contains(opt, "-l=") || Contains(opt, "--log-level") }
  predicate NamesLogTarget(opt: string) { Contains(opt, "--log-target") }
  predicate NamesConfigFile(opt: string) { Contains(opt, "-c=") || Contains(opt, "--config-file") }
  predicate NamesDaemon(opt: string) { Contains(opt, "-d") || Contains(opt, "--daemon") }
  predicate NamesHelp(opt: string) { Contains(opt, "-h") || Contains(opt, "--help") }

  /** Which of the options an argument names, each found by substring. */
  datatype Named = Named(logLevel: bool, logTarget: bool, configFile: bool, noContextInfo: bool,
                         noMagnetometerCalibration: bool, daemon: bool, help: bool)

  function NamedIn(opt: string): Named
  {
    Named(NamesLogLevel(opt), NamesLogTarget(opt), NamesConfigFile(opt), Contains(opt, "--no-context-info"),
          Contains(opt, "--no-magnetometer-bg-calibration"), NamesDaemon(opt), NamesHelp(opt))
  }

  /** The argument names a valued option but has no '=', so the field it asks for does not exist. */
  predicate MissingValue(opt: string)
  {
    (NamesLogLevel(opt) || NamesLogTarget(opt) || NamesConfigFile(opt)) && '=' !in opt
  }

  /** The options that take a value, each taking `field`. */
  function ApplyValued(o: Options, n: Named, field: Option<string>): (r: Options)
    requires (n.logLevel || n.logTarget || n.configFile) ==> field.Some?
    ensures n.logLevel ==> r.changeLogLevel && r.logLevel == field.value
    ensures n.logTarget ==> r.logTarget == Some(ToInt(field.value))
    ensures n.configFile ==> r.configFile && r.configFilePath == field.value
    ensures !n.logLevel && !n.logTarget && !n.configFile ==> r == o
    ensures r.printHelp == o.printHelp && r.contextInfo == o.contextInfo && r.daemon == o.daemon
    ensures r.magnetometerCalibration == o.magnetometerCalibration
  {
    o.(changeLogLevel := o.changeLogLevel || n.logLevel,
       logLevel := if n.logLevel then field.value else o.logLevel,
       logTarget := if n.logTarget then Some(ToInt(field.value)) else o.logTarget,
       configFile := o.configFile || n.configFile,
       configFilePath := if n.configFile then field.value else o.configFilePath)
  }

  /** The switches. */
  function ApplySwitches(o: Options, n: Named): (r: Options)
    ensures r.(printHelp := o.printHelp, contextInfo := o.contextInfo, daemon := o.daemon,
               magnetometerCalibration := o.magnetometerCalibration) == o
    ensures n.daemon ==> r.daemon
    ensures n.help ==> r.printHelp
    ensures n.noContextInfo ==> !r.contextInfo
    ensures n.noMagnetometerCalibration ==> !r.magnetometerCalibration
    ensures !n.daemon && !n.help && !n.noContextInfo && !n.noMagnetometerCalibration ==> r == o
  {
    o.(contextInfo := o.contextInfo && !n.noContextInfo,
       magnetometerCalibration := o.magnetometerCalibration && !n.noMagnetometerCalibration,
       daemon := o.daemon || n.daemon,
       printHelp := o.printHelp || n.help)
  }

  /** The options in `n` applied; none applies when a valued one has no field. */
  function Apply(o: Options, n: Named, field: Option<string>): (r: Option<Options>)
    ensures r.None? <==> (n.logLevel || n.logTarget || n.configFile) && field.None?
  {
    if (n.logLevel || n.logTarget || n.configFile) && field.None? then None
    else Some(ApplySwitches(ApplyValued(o, n, field), n))
  }

  /**
   * One argument of parsingCommandLine. It fails exactly when it names a
   * valued option without a value; otherwise every option it contains
   * takes effect and the other fields are kept.
   */
  function ParseArg(o: Options, opt: string): (r: Option<Options>)
    ensures r.None? <==> MissingValue(opt)
    ensures r.Some? ==>
      && r.value.changeLogLevel == (o.changeLogLevel || NamesLogLevel(opt))
      && r.value.logLevel == (if NamesLogLevel(opt) then Field(opt).value else o.logLevel)
      && r.value.logTarget == (if NamesLogTarget(opt) then Some(ToInt(Field(opt).value)) else o.logTarget)
      && r.value.configFile == (o.configFile || NamesConfigFile(opt))
      && r.value.configFilePath == (if NamesConfigFile(opt) then Field(opt).value else o.configFilePath)
      && r.value.contextInfo == (o.contextInfo && !Contains(opt, "--no-context-info"))
      && r.value.magnetometerCalibration == (o.magnetometerCalibration && !Contains(opt, "--no-magnetometer-bg-calibration"))
      && r.value.daemon == (o.daemon || NamesDaemon(opt))
      && r.value.printHelp == (o.printHelp || NamesHelp(opt))
  {
    Apply(o, NamedIn(opt), Field(opt))
  }

  /**
   * parsingCommandLine over all arguments: the options after each one, and
   * whether every argument could be parsed; an argument without the value
   * it asks for stops the parse.
   */
  function ParseAll(o: Options, args: seq<string>): (r: (Options, bool))
    ensures r.1 <==> forall i :: 0 <= i < |args| ==> !MissingValue(args[i])
    decreases |args|
  {
    if args == [] then (o, true)
    else
      match ParseArg(o, args[0])
      case None => (o, false)
      case Some(o') =>
        var r := ParseAll(o', args[1..]);
        assert forall i :: 1 <= i < |args| ==> args[1..][i - 1] == args[i];
        r
  }

  /** A successful parse is the first argument's parse followed by the parse of the rest. */
  lemma ParseAllStep(o: Options, args: seq<string>)
    requires args != [] && ParseAll(o, args).1
    ensures ParseArg(o, args[0]).Some?
    ensures ParseAll(o, args) == ParseAll(ParseArg(o, args[0]).value, args[1..])
  {
  }

  /**
   * The last occurrence of a valued option wins: the configuration file
   * path is the field of the last argument naming the option.
   */
  lemma {:induction false} LastConfigFileWins(o: Options, args: seq<string>, i: int)
    requires ParseAll(o, args).1
    requires 0 <= i < |args| && NamesConfigFile(args[i])
    requires forall j :: i < j < |args| ==> !NamesConfigFile(args[j])
    ensures ParseAll(o, args).0.configFilePath == Field(args[i]).value
    ensures ParseAll(o, args).0.configFile
    decreases |args|
  {
    var o' := ParseArg(o, args[0]).value;
    ParseAllStep(o, args);
    forall j | i - 1 < j < |args| - 1 ensures !NamesConfigFile(args[1..][j]) {
      assert args[1..][j] == args[j + 1];
    }
    if i == 0 {
      NoMoreConfigFile(o', args[1..]);
    } else {
      LastConfigFileWins(o', args[1..], i - 1);
    }
  }

  /** Arguments that do not name the option keep the path and the flag. */
  lemma {:induction false} NoMoreConfigFile(o: Options, args: seq<string>)
    requires ParseAll(o, args).1
    requires forall j :: 0 <= j < |args| ==> !NamesConfigFile(args[j])
    ensures ParseAll(o, args).0.configFilePath == o.configFilePath
    ensures ParseAll(o, args).0.configFile == o.configFile
    decreases |args|
  {
    if args != [] {
      var o' := ParseArg(o, args[0]).value;
      NoMoreConfigFile(o', args[1..]);
    }
  }

  /** The same holds for the log level. */
  lemma {:induction false} LastLogLevelWins(o: Options, args: seq<string>, i: int)
    requires ParseAll(o, args).1
    requires 0 <= i < |args| && NamesLogLevel(args[i])
    requires forall j :: i < j < |args| ==> !NamesLogLevel(args[j])
    ensures ParseAll(o, args).0.logLevel == Field(args[i]).value
    ensures ParseAll(o, args).0.changeLogLevel
    decreases |args|
  {
    var o' := ParseArg(o, args[0]).value;
    ParseAllStep(o, args);
    forall j | i - 1 < j < |args| - 1 ensures !NamesLogLevel(args[1..][j]) {
      assert args[1..][j] == args[j + 1];
    }
    if i == 0 {
      NoMoreLogLevel(o', args[1..]);
    } else {
      LastLogLevelWins(o', args[1..], i - 1);
    }
  }

  lemma {:induction false} NoMoreLogLevel(o: Options, args: seq<string>)
    requires ParseAll(o, args).1
    requires forall j :: 0 <= j < |args| ==> !NamesLogLevel(args[j])
    ensures ParseAll(o, args).0.logLevel == o.logLevel
    ensures ParseAll(o, args).0.changeLogLevel == o.changeLogLevel
    decreases |args|
  {
    if args != [] {
      var o' := ParseArg(o, args[0]).value;
      NoMoreLogLevel(o', args[1..]);
    }
  }

  /** The switches: daemon mode is on exactly when some argument names it, and likewise for help. */
  lemma SwitchesSpec(o: Options, args: seq<string>)
    requires ParseAll(o, args).1
    ensures ParseAll(o, args).0.daemon <==> o.daemon || exists j :: 0 <= j < |args| && NamesDaemon(args[j])
    ensures ParseAll(o, args).0.printHelp <==> o.printHelp || exists j :: 0 <= j < |args| && NamesHelp(args[j])
    ensures ParseAll(o, args).0.contextInfo <==>
      o.contextInfo && forall j :: 0 <= j < |args| ==> !Contains(args[j], "--no-context-info")
  {
    DaemonSpec(o, args);
    HelpSpec(o, args);
    ContextInfoSpec(o, args);
  }

  lemma {:induction false} DaemonSpec(o: Options, args: seq<string>)
    requires ParseAll(o, args).1
    ensures ParseAll(o, args).0.daemon <==> o.daemon || exists j :: 0 <= j < |args| && NamesDaemon(args[j])
    decreases |args|
  {
    if args != [] {
      var o' := ParseArg(o, args[0]).value;
      ParseAllStep(o, args);
      DaemonSpec(o', args[1..]);
      assert forall j :: 1 <= j < |args| ==> args[1..][j - 1] == args[j];
    }
  }

  lemma {:induction false} HelpSpec(o: Options, args: seq<string>)
    requires ParseAll(o, args).1
    ensures ParseAll(o, args).0.printHelp <==> o.printHelp || exists j :: 0 <= j < |args| && NamesHelp(args[j])
    decreases |args|
  {
    if args != [] {
      var o' := ParseArg(o, args[0]).value;
      ParseAllStep(o, args);
      HelpSpec(o', args[1..]);
      assert forall j :: 1 <= j < |args| ==> args[1..][j - 1] == args[j];
    }
  }

  lemma {:induction false} ContextInfoSpec(o: Options, args: seq<string>)
    requires ParseAll(o, args).1
    ensures ParseAll(o, args).0.contextInfo <==>
      o.contextInfo && forall j :: 0 <= j < |args| ==> !Contains(args[j], "--no-context-info")
    decreases |args|
  {
    if args != [] {
      var o' := ParseArg(o, args[0]).value;
      ParseAllStep(o, args);
      ContextInfoSpec(o', args[1..]);
      assert forall j :: 1 <= j < |args| ==> args[1..][j - 1] == args[j];
    }
  }

  /** getLogLevel: the four level names, and warning for anything else. */
  function GetLogLevel(logLevel: string): (r: LogLevel)
    ensures r == SensordLogTest <==> logLevel == "test"
    ensures r == SensordLogDebug <==> logLevel == "debug"
    ensures r == SensordLogCritical <==> logLevel == "critical"
    ensures r == SensordLogWarning <==> logLevel !in {"test", "debug", "critical"}
  {
    if logLevel == "test" then SensordLogTest
    else if logLevel == "debug" then SensordLogDebug
    else if logLevel == "warning" then SensordLogWarning
    else if logLevel == "critical" then SensordLogCritical
    else SensordLogWarning
  }

  class Parser {
    var printHelp: bool
    var contextInfo: bool
    var changeLogLevel: bool
    var configFile: bool
    var daemon: bool
    var magnetometerCalibration: bool
    var configFilePath: string
    var logLevel: string
    var logTarget: Option<int>

    function Snapshot(): Options
      reads this
    {
      Options(printHelp, contextInfo, changeLogLevel, configFile, daemon,
              magnetometerCalibration, configFilePath, logLevel, logTarget)
    }

    /** Parser(arguments): the defaults, then the arguments, up to the first one that lacks its value. */
    constructor (arguments: seq<string>)
      ensures Snapshot() == ParseAll(Defaults(), arguments).0
    {
      printHelp, contextInfo, changeLogLevel, configFile := false, true, false, false;
      daemon, magnetometerCalibration := false, true;
      configFilePath, logLevel, logTarget := "", "", None;
      new;
      var _ := ParsingCommandLine(arguments);
    }

    /** parsingCommandLine(arguments) */
    method ParsingCommandLine(arguments: seq<string>) returns (ok: bool)
      modifies this
      ensures (Snapshot(), ok) == ParseAll(old(Snapshot()), arguments)
    {
      var i := 0;
      while i < |arguments|
        invariant 0 <= i <= |arguments|
        invariant ParseAll(Snapshot(), arguments[i..]) == ParseAll(old(Snapshot()), arguments)
      {
        assert arguments[i..][0] == arguments[i] && arguments[i..][1..] == arguments[i + 1..];
        var parsed := ParseOption(arguments[i]);
        if !parsed {
          return false;
        }
        i := i + 1;
      }
      return true;
    }

    /** The body of the loop of parsingCommandLine, for one argument. */
    method ParseOption(opt: string) returns (ok: bool)
      modifies this
      ensures ok <==> ParseArg(old(Snapshot()), opt).Some?
      ensures ok ==> Snapshot() == ParseArg(old(Snapshot()), opt).value
      ensures !ok ==> Snapshot() == old(Snapshot())
    {
      var field := Field(opt);
      var n := NamedIn(opt);
      if (n.logLevel || n.logTarget || n.configFile) && field.None? {
        return false;
      }
      ParseValued(n, field);
      ParseSwitches(n);
      return true;
    }

    /** The options that take a value: the log level, the log target and the configuration file. */
    method ParseValued(n: Named, field: Option<string>)
      requires (n.logLevel || n.logTarget || n.configFile) ==> field.Some?
      modifies this`changeLogLevel, this`logLevel, this`logTarget, this`configFile, this`configFilePath
      ensures Snapshot() == ApplyValued(old(Snapshot()), n, field)
    {
      if n.logLevel {
        changeLogLevel := true;
        logLevel := field.value;
      }
      if n.logTarget {
        logTarget := Some(ToInt(field.value));
      }
      if n.configFile {
        configFile := true;
        configFilePath := field.value;
      }
    }

    /** The switches: no context info, no magnetometer calibration, daemon and help. */
    method ParseSwitches(n: Named)
      modifies this`contextInfo, this`magnetometerCalibration, this`daemon, this`printHelp
      ensures Snapshot() == ApplySwitches(old(Snapshot()), n)
    {
      if n.noContextInfo {
        contextInfo := false;
      }
      if n.noMagnetometerCalibration {
        magnetometerCalibration := false;
      }
      if n.daemon {
        daemon := true;
      }
      if n.help {
        printHelp := true;
      }
    }
  }
}

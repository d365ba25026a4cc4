/** The start of `_tmain`: the five global settings of the test program and
    the loop that sets them from the command line. Every argument is compared
    exactly with a fixed list of switches; an argument that matches none is
    ignored. With no argument at all the program instead asks whether to
    relaunch itself from a UNICODE-named folder. */
module CommandLine {
  import opened Options

  // Exception kinds accepted by crEmulateCrash, in the order CrashRpt.h
  // defines them (CrashRpt.h is not part of this model).
  const SehException: int := 0
  const CppTerminateCall: int := 1
  const CppUnexpectedCall: int := 2
  const CppPureCall: int := 3
  const CppNewOperatorError: int := 4
  const CppSecurityError: int := 5
  const CppInvalidParameter: int := 6
  const CppSigabrt: int := 7
  const CppSigfpe: int := 8
  const CppSigill: int := 9
  const CppSigint: int := 10
  const CppSigsegv: int := 11
  const CppSigterm: int := 12

  /** The exception type that selects a manual report (crGenerateErrorReport)
      instead of an emulated crash. */
  const ManualReport: int := -1

  /** The values of g_bRunningFromUNICODEFolder, g_bException,
      g_nExceptionType, g_bExceptionInWorkerThread and g_bRunAllTest. */
  datatype Flags = Flags(
    unicode: bool,
    exception: bool,
    exceptionType: int,
    workerThread: bool,
    runAll: bool)

  /** The values the globals have before `_tmain` runs. */
  const Initial := Flags(false, false, 0, false, false)

  /** The switches the argument loop compares against, each with what it
      sets. */
  datatype Switch =
    | UnicodeSwitch                 // /unicode
    | ExceptionSwitch               // /exception
    | WorkerThreadSwitch            // /exception_in_worker_thread
    | KindSwitch(code: int)         // /seh ... /sigterm
    | ManualReportSwitch            // /manual_report
    | AllSwitch                     // /all

  /** The switch an argument is, compared exactly and in the order of the
      loop's if-chain; `None` when it is none of them. */
  function Classify(arg: string): (r: Option<Switch>)
    ensures r == Some(UnicodeSwitch) <==> arg == "/unicode"
    ensures r == Some(ExceptionSwitch) <==> arg == "/exception"
    ensures r == Some(WorkerThreadSwitch) <==> arg == "/exception_in_worker_thread"
    ensures r == Some(ManualReportSwitch) <==> arg == "/manual_report"
    ensures r == Some(AllSwitch) <==> arg == "/all"
  {
    if arg == "/unicode" then Some(UnicodeSwitch)
    else if arg == "/exception" then Some(ExceptionSwitch)
    else if arg == "/exception_in_worker_thread" then Some(WorkerThreadSwitch)
    else if arg == "/seh" then Some(KindSwitch(SehException))
    else if arg == "/terminate" then Some(KindSwitch(CppTerminateCall))
    else if arg == "/unexpected" then Some(KindSwitch(CppUnexpectedCall))
    else if arg == "/purecall" then Some(KindSwitch(CppPureCall))
    else if arg == "/new" then Some(KindSwitch(CppNewOperatorError))
    else if arg == "/security" then Some(KindSwitch(CppSecurityError))
    else if arg == "/invparam" then Some(KindSwitch(CppInvalidParameter))
    else if arg == "/sigabrt" then Some(KindSwitch(CppSigabrt))
    else if arg == "/sigfpe" then Some(KindSwitch(CppSigfpe))
    else if arg == "/sigill" then Some(KindSwitch(CppSigill))
    else if arg == "/sigint" then Some(KindSwitch(CppSigint))
    else if arg == "/sigsegv" then Some(KindSwitch(CppSigsegv))
    else if arg == "/sigterm" then Some(KindSwitch(CppSigterm))
    else if arg == "/manual_report" then Some(ManualReportSwitch)
    else if arg == "/all" then Some(AllSwitch)
    else None
  }

  /** The switches that select an exception type: the thirteen crash kinds
      and `/manual_report`. */
  const KindSwitches: set<string> :=
    {"/seh", "/terminate", "/unexpected", "/purecall", "/new", "/security", "/invparam",
     "/sigabrt", "/sigfpe", "/sigill", "/sigint", "/sigsegv", "/sigterm", "/manual_report"}

  /** The exception type a switch selects, if it is one of the crash-kind
      switches or `/manual_report`. */
  function KindCode(arg: string): (r: Option<int>)
    ensures r.Some? <==> arg in KindSwitches
    ensures r == Some(ManualReport) <==> arg == "/manual_report"
  {
    match Classify(arg)
    case Some(KindSwitch(code)) => Some(code)
    case Some(ManualReportSwitch) => Some(ManualReport)
    case _ => None
  }

  /** Every switch the loop recognises. */
  predicate Known(arg: string)
  {
    Classify(arg).Some?
  }

  /** The switches that raise a boolean global on their own. */
  const FlagSwitches: set<string> :=
    {"/unicode", "/exception", "/exception_in_worker_thread", "/all"}

  /** The loop recognises exactly the eighteen switches, spelled exactly. */
  lemma KnownExactly(arg: string)
    ensures Known(arg) <==> arg in FlagSwitches || arg in KindSwitches
  {
    if arg in FlagSwitches {
      assert arg == "/unicode" || arg == "/exception" || arg == "/exception_in_worker_thread" || arg == "/all";
    }
  }

  /** One pass of the argument loop: the first matching comparison wins. */
  function Apply(f: Flags, arg: string): Flags
  {
    match Classify(arg)
    case None => f
    case Some(UnicodeSwitch) => f.(unicode := true)
    case Some(ExceptionSwitch) => f.(exception := true)
    case Some(WorkerThreadSwitch) => f.(workerThread := true)
    case Some(KindSwitch(code)) => f.(exceptionType := code)
    case Some(ManualReportSwitch) => f.(exception := true, exceptionType := ManualReport)
    case Some(AllSwitch) => f.(runAll := true)
  }

  /** The loop over a whole argument list, in order. */
  function ApplyAll(f: Flags, args: seq<string>): Flags
  {
    if args == [] then f else Apply(ApplyAll(f, args[..|args| - 1]), args[|args| - 1])
  }

  /** Unknown arguments change nothing, and the comparison is exact: a switch
      written with another case or with extra characters is unknown. */
  lemma UnknownIgnored(f: Flags, arg: string)
    requires !Known(arg)
    ensures Apply(f, arg) == f
  {
  }

  /** `/manual_report` sets g_bException and selects the manual report,
      whatever was set before. */
  lemma ManualReportEffect(f: Flags)
    ensures Apply(f, "/manual_report") == f.(exception := true, exceptionType := ManualReport)
  {
  }

  /** One pass sets a boolean global exactly when it was set or the argument
      is one of its switches. */
  lemma ApplyFlags(f: Flags, arg: string)
    ensures var r := Apply(f, arg);
      && (r.unicode <==> f.unicode || arg == "/unicode")
      && (r.exception <==> f.exception || arg == "/exception" || arg == "/manual_report")
      && (r.workerThread <==> f.workerThread || arg == "/exception_in_worker_thread")
      && (r.runAll <==> f.runAll || arg == "/all")
  {
  }

  /** The boolean globals are only ever set to TRUE: each ends up set exactly
      when it was set before or one of its switches occurs in the arguments. */
  lemma {:induction false} FlagsOnlyRise(f: Flags, args: seq<string>)
    ensures var r := ApplyAll(f, args);
      && (r.unicode <==> f.unicode || "/unicode" in args)
      && (r.exception <==> f.exception || "/exception" in args || "/manual_report" in args)
      && (r.workerThread <==> f.workerThread || "/exception_in_worker_thread" in args)
      && (r.runAll <==> f.runAll || "/all" in args)
  {
    if args != [] {
      var init, last := args[..|args| - 1], args[|args| - 1];
      FlagsOnlyRise(f, init);
      ApplyFlags(ApplyAll(f, init), last);
      assert args == init + [last];
    }
  }

  /** One pass sets the exception type exactly for a crash-kind switch. */
  lemma ApplyKind(f: Flags, arg: string)
    ensures Apply(f, arg).exceptionType ==
      if KindCode(arg).Some? then KindCode(arg).value else f.exceptionType
  {
  }

  /** The last crash-kind switch wins: with no such switch the exception
      type is unchanged, otherwise it is the code of the last one. */
  lemma {:induction false} LastKindWins(f: Flags, args: seq<string>)
    ensures (forall i :: 0 <= i < |args| ==> KindCode(args[i]).None?) ==>
      ApplyAll(f, args).exceptionType == f.exceptionType
    ensures forall i ::
      (0 <= i < |args| && KindCode(args[i]).Some? &&
       (forall j :: i < j < |args| ==> KindCode(args[j]).None?)) ==>
      ApplyAll(f, args).exceptionType == KindCode(args[i]).value
  {
    if args != [] {
      var init := args[..|args| - 1];
      ApplyKind(ApplyAll(f, init), args[|args| - 1]);
      LastKindWins(f, init);
      assert forall i :: 0 <= i < |init| ==> init[i] == args[i];
    }
  }

  /** The globals as an object: `ParseArguments` is the branch at the top of
      `_tmain`. */
  class Settings {
    var runningFromUnicodeFolder: bool
    var exception: bool
    var exceptionType: int
    var exceptionInWorkerThread: bool
    var runAllTest: bool

    /** The five globals as one value. */
    function State(): Flags
      reads this
    {
      Flags(runningFromUnicodeFolder, exception, exceptionType, exceptionInWorkerThread, runAllTest)
    }

    /** The static initialisers of the globals. */
    constructor ()
      ensures State() == Initial
    {
      runningFromUnicodeFolder := false;
      exception := false;
      exceptionType := 0;
      exceptionInWorkerThread := false;
      runAllTest := false;
    }

    /** One pass of the loop body on `argv[argnum]`. The chain of string
        comparisons is `Classify`. */
    method ApplySwitch(arg: string)
      modifies this
      ensures State() == Apply(old(State()), arg)
    {
      match Classify(arg) {
        case None =>
        case Some(UnicodeSwitch) =>
          runningFromUnicodeFolder := true;
        case Some(ExceptionSwitch) =>
          exception := true;
        case Some(WorkerThreadSwitch) =>
          exceptionInWorkerThread := true;
        case Some(KindSwitch(code)) =>
          exceptionType := code;
        case Some(ManualReportSwitch) =>
          exception := true;
          exceptionType := ManualReport;
        case Some(AllSwitch) =>
          runAllTest := true;
      }
    }

    /** `if(argc==1) ... else for(argnum=1; argnum<argc; argnum++) ...`.
        `argv` holds the program name first; `answer` is the line read from
        the console, used only when there is no argument. The result says
        whether `_tmain` relaunches itself through `fork()` at this point. */
    method ParseArguments(argv: seq<string>, answer: string) returns (relaunch: bool)
      modifies this
      ensures |argv| == 1 ==>
        State() == old(State()).(unicode := old(State()).unicode || answer == "y" || answer == "Y")
      ensures |argv| != 1 ==> State() == ApplyAll(old(State()), if argv == [] then [] else argv[1..])
      ensures relaunch <==> |argv| == 1 && runningFromUnicodeFolder
    {
      relaunch := false;
      if |argv| == 1 {
        if answer == "y" || answer == "Y" {
          runningFromUnicodeFolder := true;
        }
        if runningFromUnicodeFolder {
          relaunch := true;
          return;
        }
      } else {
        var argnum := 1;
        while argnum < |argv|
          invariant |argv| == 0 || 1 <= argnum <= |argv|
          invariant State() == ApplyAll(old(State()), if argv == [] then [] else argv[1..argnum])
        {
          ApplySwitch(argv[argnum]);
          assert argv[1..argnum + 1][..argnum - 1] == argv[1..argnum];
          argnum := argnum + 1;
        }
        assert argv == [] || argv[1..argnum] == argv[1..];
      }
    }
  }

  /** What `_tmain` does once the globals are set. */
  datatype Action =
    | Relaunch                                   // return fork()
    | CrashTest(exceptionType: int, inWorkerThread: bool)   // install, crash, return 1
    | RunSuites(interactive: bool)               // run the registered suites

  /** The dispatch after the argument loop: the relaunch, then the crash
      branch taken when g_bException is set and g_bRunAllTest is not, and
      otherwise the test run, which reads the suite selection from the
      console unless g_bRunAllTest is set. The postconditions only name the
      condition of each branch; what the command line leads to is stated in
      AllRunsSuites and ExceptionCrashes below. */
  function Dispatch(relaunch: bool, f: Flags): (a: Action)
    ensures a.Relaunch? <==> relaunch
    ensures a.CrashTest? <==> !relaunch && f.exception && !f.runAll
    ensures a.CrashTest? ==> a.exceptionType == f.exceptionType && a.inWorkerThread == f.workerThread
    ensures a.RunSuites? ==> (a.interactive <==> !f.runAll)
  {
    if relaunch then Relaunch
    else if f.exception && !f.runAll then CrashTest(f.exceptionType, f.workerThread)
    else RunSuites(!f.runAll)
  }

  /** `/all` always leads to the non-interactive test run, whatever else the
      command line holds. */
  lemma AllRunsSuites(args: seq<string>)
    requires "/all" in args
    ensures Dispatch(false, ApplyAll(Initial, args)) == RunSuites(false)
  {
    FlagsOnlyRise(Initial, args);
  }

  /** Without `/all`, `/exception` or `/manual_report` leads to the crash
      branch, with the exception type the argument loop left (the code of the
      last kind switch, by LastKindWins) and the worker-thread choice it made. */
  lemma ExceptionCrashes(args: seq<string>)
    requires "/all" !in args
    requires "/exception" in args || "/manual_report" in args
    ensures var f := ApplyAll(Initial, args);
      && Dispatch(false, f).CrashTest?
      && Dispatch(false, f).exceptionType == f.exceptionType
      && (Dispatch(false, f).inWorkerThread <==> "/exception_in_worker_thread" in args)
  {
    FlagsOnlyRise(Initial, args);
  }
}

# CrashRpt test driver, modelled in Dafny

CrashRpt is a crash-reporting library for Windows programs. Its unit-test
program (`tests/Tests.cpp`) provides these pieces:

- a small test framework: a tree of test suites (`CTestSuite`), each holding its own test
  names, child suites, failure flags and a list of error messages;
- string helpers that turn the typed suite selection into a set of names;
- the command-line switches that select a crash test;
- the crash callback the crash test installs;
- the version banner.

This project models that program and proves what each part promises:

- `StringUtil`: `trim2` and `explode`, each proved equal to a specification function
  (`Trimmed`, `Tokens`). `explode` is a method with a loop; `trim2` is built from the
  searching loops `FindLastNotOf` and `FindFirstNotOf`. Lemmas about those functions cover:
  the trimmed result is a contiguous slice with untrimmed edges; trimming twice is the
  same as trimming once; tokens are non-empty and free of separators; tokens keep input
  order; a line of blanks gives no token.
- `SuiteModel`: the suite tree as a value (`Suite`), plus these functions:
  - the list builders `TestList` and `ErrorList`;
  - the failure-state steps (`Cleared`, `WithError`, `Before`, `Body`);
  - the whole `Run` as a function of the old tree and the outcomes of the test bodies.

  The lemmas about them cover:
  - the shape of the test list: filtering, the "SetUp"/"TearDown" frame, child order and
    length;
  - the shape and length of the error list;
  - the flag invariant: a set test-failed flag always has a message;
  - the cascade of "SetUp Failure" messages;
  - the result of `Run`;
  - the bound: when every body reports at most one failure, a tree that has not run yet
    never ends with more messages than tests; a concrete tree shows that bodies
    reporting several failures can exceed it.
- `Suites`: `CTestSuite` as a class whose fields are updated in place, with a ghost value
  of the whole subtree. The methods that change the failure state or build a list are
  proved against the `SuiteModel` function for their step. `AfterTest`, `AddChildSuite`,
  `GetChildSuite` and `GetChildSuiteCount` are stated directly on the fields and the
  ghost value. `Run` recurses through the child objects, and the object invariant keeps
  `AfterTest`'s read of the last message in range.
- `TestMain`: the end of `_tmain`. It covers:
  - the selection line becoming `aTestSuitesToRun`;
  - counting, running and listing errors on the top suite;
  - the exit code;
  - proof that "Tests passed" never goes negative when every body reports at most one
    failure.
- `CommandLine`: the five globals and the argument loop as a class with a loop, proved
  against a fold over the arguments (`ApplyAll`). Lemmas cover exact matching, flags
  that are only ever raised, and "the last crash kind wins". It also models the
  dispatch to a relaunch, the crash test or the test run.
- `CrashCallbacks`: `CrashCallback` with its static counter as a field. The callback
  asks for the next stage on the first call only and cancels on every later call;
  `CallStages` ties k consecutive calls on one object to that sequence of answers.
- `Versions`: the version split printed in the banner, the packing the API test uses,
  and their round trips.

The outcome of every test body, and of every SetUp and TearDown, is an input: an
`Oracle` from (suite name, function name) to the sequence of failures the body reports, each
a `Failure(function, assertion, message)` with the message optional; the empty sequence is
a body that passes. Each failure is one `AddErrorMsg` call.
The source defines `DoWithMyTests` in Tests.h, which is not part of this model. Each
suite's own test names are given data, and running them is modelled as
`if (BeforeTest(t)) t(); AfterTest(t);` for each name in order.

`TEST_ASSERT` is defined in Tests.h, which is not part of this model. Within one function
its uses read as a jump to a `__TEST_CLEANUP__` label after the first failure, as at
tests/CrashRptAPITests.cpp:1294-1296. A body whose assertions all run on its own thread
therefore reports at most one failure. That is not true of every body:
`Test_crInstallToCurrentThread2_concurrent` (tests/CrashRptAPITests.cpp:1119-1147) starts
three `ThreadProc3` worker threads, and each of them can report its own failure. The bound
on messages is therefore stated under the explicit predicate `SuiteModel.OneFailureEach`,
which says every body reports at most one failure:
- `SuiteModel.OwnErrorsBound` and `SuiteModel.ErrorsWithinTests` require it;
- the `|errors| <= testCount` clause of `TestMain.RunSelected` is an implication from it;
- `SuiteModel.SeveralFailuresExceedTests` shows a tree two of whose bodies report three
  failures each, where the error list is longer than the test list.

Everything else about `Run` holds for bodies reporting any number of failures.

## Model

| member | source | states |
|---|---|---|
| StringUtil.FirstIndexOf | tests/Tests.cpp:298 | the first position holding a character of the set, or None exactly when no position does |
| StringUtil.FindFirstOf | tests/Tests.cpp:298 | the searching loop returns the first position holding a separator, as FirstIndexOf |
| StringUtil.FindFirstNotOf | tests/Tests.cpp:284 | the first position holding a character outside the trim set, every earlier one inside it; None when all are inside |
| StringUtil.FindLastNotOf | tests/Tests.cpp:281 | the last position holding a character outside the trim set, every later one inside it; None when all are inside |
| StringUtil.Trim2 | tests/Tests.cpp:279-288 | the erase sequence leaves exactly Trimmed(str, trim): the right end cut first, then the left end, and an all-trim string emptied |
| StringUtil.TrimRightShape | tests/Tests.cpp:281-283 | cutting the right end leaves a prefix; every removed character is a trim character and the new last character is not |
| StringUtil.TrimLeftShape | tests/Tests.cpp:284-285 | cutting the left end leaves a suffix; every removed character is a trim character and the new first character is not |
| StringUtil.TrimmedSlice | tests/Tests.cpp:279-288 | the result is the contiguous slice str[i..j]; everything cut away on either side is a trim character |
| StringUtil.TrimmedEdges | tests/Tests.cpp:279-288 | a non-empty result neither starts nor ends with a trim character |
| StringUtil.TrimmedEmptyIff | tests/Tests.cpp:287 | the result is empty exactly when every character of the input is a trim character (the empty input included) |
| StringUtil.TrimmedIdempotent | tests/Tests.cpp:279-288 | trimming twice gives the same as trimming once |
| StringUtil.TrimmedKeeps | tests/Tests.cpp:279-288 | a character outside the trim set is never cut away |
| StringUtil.Explode | tests/Tests.cpp:291-313 | the for(;;) loop, which ends because each non-final pass keeps only what follows the separator, returns exactly Tokens(str, separators) |
| StringUtil.TokensWellFormed | tests/Tests.cpp:300-305 | every token is non-empty, holds no separator and neither starts nor ends with a space, tab or newline |
| StringUtil.TokensNoSeparator | tests/Tests.cpp:298-302 | a line without separator gives at most the one trimmed token |
| StringUtil.TokensConcat | tests/Tests.cpp:296-310 | tokens come out in input order: a separator splits the token list into that of the text before it followed by that of the text after it |
| StringUtil.TokensEmptyIff | tests/Tests.cpp:291-313 | no token exactly when the line holds only separator and trim characters |
| SuiteModel.TestListEmptyIff | tests/Tests.cpp:465-475 | the test list is empty exactly for a suite with a parent, a non-empty selection and a name outside it; the root and the empty selection are never filtered |
| SuiteModel.TestListFrame | tests/Tests.cpp:477-498 | an unfiltered list starts with "SetUp", continues with the suite's own test names and ends with "TearDown" |
| SuiteModel.TestListNoChildren | tests/Tests.cpp:477-498 | without bIncludeChildren the list is exactly "SetUp", the own tests, "TearDown" |
| SuiteModel.ChildTestLists | tests/Tests.cpp:481-496 | one list per child, in child order |
| SuiteModel.ConcatLength | tests/Tests.cpp:490-494 | appending the children's lists entry by entry gives a list as long as the sum of their lengths |
| SuiteModel.TestListLength | tests/Tests.cpp:461-501 | with no selection the list counts every test of the tree plus "SetUp" and "TearDown" of every suite |
| SuiteModel.ErrorListShape | tests/Tests.cpp:654-675 | the error list starts with the suite's own messages, equals them without bIncludeChildren, and has as many entries as there are messages in the tree |
| SuiteModel.StepsKeepFlag | tests/Tests.cpp:625-652 | ClearErrors, AddErrorMsg, BeforeTest and a body each leave a set test-failed flag with a message behind it |
| SuiteModel.BeforeSpec | tests/Tests.cpp:578-595 | BeforeTest refuses the body exactly after a failed SetUp, and then adds exactly one "SetUp Failure" message and leaves the flag set; otherwise it only clears the flag |
| SuiteModel.RunTestsFacts | tests/Tests.cpp:528-529 | running the own tests changes only the failure bookkeeping, only appends messages after the old ones, keeps the flag invariant, and adds at most one message per test when every body reports at most one failure |
| SuiteModel.RunKeepsSound | tests/Tests.cpp:503-551 | Run keeps the flag invariant in every suite of the tree |
| SuiteModel.RunResult | tests/Tests.cpp:537-550 | Run returns true exactly when the suite ends with no message of its own |
| SuiteModel.RunSkipped | tests/Tests.cpp:505-517 | a filtered suite is cleared and reports success without running anything or visiting its children |
| SuiteModel.SetUpFailures | tests/Tests.cpp:587-592 | one "SetUp Failure" message per test, in order |
| SuiteModel.RunTestsAfterSetUpFailure | tests/Tests.cpp:587-592 | after a failed SetUp every own test adds exactly its "SetUp Failure" message |
| SuiteModel.SetUpFailureCascade | tests/Tests.cpp:521-543 | a failing SetUp leaves exactly its own messages, a "SetUp Failure" per own test and one for TearDown, and Run returns false |
| SuiteModel.AllClearNoErrors | tests/Tests.cpp:654-675 | a tree with no messages has an empty error list |
| SuiteModel.OwnErrorsBound | tests/Tests.cpp:521-543 | for bodies that report at most one failure, Run leaves at most one message for SetUp, one per own test and one for TearDown |
| SuiteModel.ErrorsWithinTests | tests/Tests.cpp:238-267 | for bodies that report at most one failure, in a tree that has not run, the error list after Run is never longer than the test list counted before it |
| SuiteModel.SeveralFailuresExceedTests | tests/CrashRptAPITests.cpp:1119-1147 | two bodies that report three failures each, as the three ThreadProc3 threads can, leave six messages against a test list of four entries |
| SuiteModel.RunSuiteChildren | tests/Tests.cpp:531-535 | Run keeps the suite's name, tests and parent link, and each child of an unfiltered suite becomes that child's own Run value |
| SuiteModel.BodyEffect | tests/Tests.cpp:625-652 | a body appends exactly the messages of its failures, in order, and sets the test-failed flag exactly when it reports one; nothing else changes |
| SuiteModel.FailureTexts | tests/Tests.cpp:637-646 | one stored message per failure, in order |
| SuiteModel.AllPassNoErrors | tests/Tests.cpp:503-551 | when every body passes, Run leaves no message in the tree and returns true |
| SuiteModel.AllPassTests | tests/Tests.cpp:528-529 | when every body passes and SetUp did not fail, the own tests add no message |
| SuiteModel.TestList | tests/Tests.cpp:461-501 | the test list as a function of the suite value; its properties are TestListEmptyIff, TestListFrame, TestListNoChildren and TestListLength |
| SuiteModel.ErrorList | tests/Tests.cpp:654-675 | the error list as a function of the suite value; its properties are ErrorListShape and AllClearNoErrors |
| SuiteModel.Cleared | tests/Tests.cpp:677-682 | the value after ClearErrors; StepsKeepFlag shows it keeps the flag invariant |
| SuiteModel.WithError | tests/Tests.cpp:625-652 | the value after AddErrorMsg: one message more and the flag set; StepsKeepFlag shows the flag then has a message |
| SuiteModel.Before | tests/Tests.cpp:578-595 | the value after BeforeTest and whether the body may run; characterised by BeforeSpec |
| SuiteModel.Body | tests/Tests.cpp:625-652 | one AddErrorMsg call per reported failure, in order; characterised by BodyEffect |
| SuiteModel.Guarded | tests/Tests.cpp:528-529 | one own test as `if (BeforeTest(t)) t(); AfterTest(t);` |
| SuiteModel.RunTests | tests/Tests.cpp:528-529 | the own tests run in order; its properties are RunTestsFacts, RunTestsAfterSetUpFailure and AllPassTests |
| SuiteModel.SetUpPhase | tests/Tests.cpp:521-526 | the SetUp step, whose failure marks the suite's SetUp as failed |
| SuiteModel.TearDownPhase | tests/Tests.cpp:537-550 | the TearDown step and the result of Run |
| SuiteModel.RunSuite | tests/Tests.cpp:503-551 | Run as a function of the old subtree; its properties are RunKeepsSound, RunResult, RunSkipped, SetUpFailureCascade, ErrorsWithinTests and AllPassNoErrors |
| StringUtil.TrimRight | tests/Tests.cpp:281-283 | the string cut after its last character outside the trim set; characterised by TrimRightShape |
| StringUtil.TrimLeft | tests/Tests.cpp:284-285 | the string cut before its first character outside the trim set; characterised by TrimLeftShape |
| StringUtil.Trimmed | tests/Tests.cpp:279-288 | what trim2 leaves; its properties are TrimmedSlice, TrimmedEdges, TrimmedEmptyIff, TrimmedIdempotent and TrimmedKeeps |
| StringUtil.Tokens | tests/Tests.cpp:291-313 | what explode returns, piece by piece; its properties are TokensWellFormed, TokensNoSeparator, TokensConcat and TokensEmptyIff |
| CommandLine.Classify | tests/Tests.cpp:101-141 | the comparisons are exact: an argument is the /unicode, /exception, /exception_in_worker_thread, /manual_report or /all switch exactly when it equals that string |
| CommandLine.KindCode | tests/Tests.cpp:107-137 | an exception type is selected exactly by the fourteen strings of KindSwitches, and -1 exactly by /manual_report |
| CommandLine.KnownExactly | tests/Tests.cpp:101-141 | the loop recognises exactly the eighteen switch strings, compared exactly |
| CommandLine.Apply | tests/Tests.cpp:99-141 | one pass of the argument loop; characterised by ApplyFlags, UnknownIgnored and ManualReportEffect |
| CommandLine.ApplyAll | tests/Tests.cpp:97-143 | the whole loop as a fold; its properties are FlagsOnlyRise and LastKindWins |
| Versions.Encode | tests/CrashRptAPITests.cpp:1340 | the packed product version; its properties are EncodeSplit, SplitEncode, EncodeInjective and EncodeAmbiguous |
| TestMain.Selection | tests/Tests.cpp:230-234 | the set of tokens of the selection line; its properties are SelectionFacts |
| Suites.TestSuite.RunBody | tests/Tests.cpp:522 | one body with its outcome, one AddErrorMsg call per failure; the new value is Body of the old one |
| Suites.TestSuite.RunChildLoop | tests/Tests.cpp:531-535 | each child object runs in order and ends valid with its RunSuite value; the children's footprints stay disjoint and inside the parent's |
| SuiteModel.ErrorText | tests/Tests.cpp:637-645 | the stored message: "In test: " + function + " Expr: " + assertion, then " Msg: " + the formatted text when a message is given |
| SuiteModel.SetUpFailureText | tests/Tests.cpp:590 | the message BeforeTest records after a failed SetUp: AddErrorMsg with "SetUp Failure" and no message |
| SuiteModel.Skipped | tests/Tests.cpp:465-475 | the filter GetTestList and Run (lines 507-517) both apply: a parent, a non-empty selection and a name outside it; TestListEmptyIff and RunSkipped give its effect |
| SuiteModel.ChildErrorLists | tests/Tests.cpp:661-671 | one error list per child, in child order |
| CommandLine.Settings.constructor | tests/Tests.cpp:17-21 | the globals start as their initialisers: every flag FALSE and exception type 0 |
| CrashCallbacks.CrashCallback.constructor | tests/Tests.cpp:55 | the static counter starts at 0 |
| Suites.TestSuite.ModelSound | tests/Tests.cpp:607 | the object invariant makes every suite of the tree hold a message whenever its flag is set |
| Suites.TestSuite.constructor | tests/Tests.cpp:456-459 | a suite with the given parent, no child and no message |
| Suites.TestSuite.GetChildSuiteCount | tests/Tests.cpp:563-566 | the number of children |
| Suites.TestSuite.GetChildSuite | tests/Tests.cpp:573-576 | the i-th child, a valid suite whose value is the i-th child value |
| Suites.TestSuite.AddChildSuite | tests/Tests.cpp:568-571 | the child is appended last; nothing else changes |
| Suites.TestSuite.ClearErrors | tests/Tests.cpp:677-682 | both flags cleared and the message list emptied |
| Suites.TestSuite.AddErrorMsg | tests/Tests.cpp:625-652 | exactly one message appended, "In test: f Expr: a" followed by " Msg: " and the formatted text when a message is given, and the test-failed flag set; nothing else changes |
| Suites.TestSuite.BeforeTest | tests/Tests.cpp:578-595 | returns false, appending one "SetUp Failure" message, exactly when SetUp failed; the flag is cleared otherwise |
| Suites.TestSuite.AfterTest | tests/Tests.cpp:597-612 | on failure it reads the last message, which the object invariant guarantees exists |
| Suites.TestSuite.RunMyTests | tests/Tests.cpp:528-529 | every own test in order, each guarded by BeforeTest, as RunTests |
| Suites.TestSuite.RunSetUp | tests/Tests.cpp:521-526 | SetUp runs after BeforeTest whatever BeforeTest returns (after ClearErrors it always returns true); a failure marks the suite's SetUp as failed |
| Suites.TestSuite.RunTearDown | tests/Tests.cpp:537-550 | TearDown is run guarded; false when it added a message, else whether no message is held |
| Suites.TestSuite.RunChildren | tests/Tests.cpp:531-535 | each child object runs in order and its value becomes its RunSuite value |
| Suites.TestSuite.Run | tests/Tests.cpp:503-551 | the new value of the whole subtree and the result are exactly RunSuite's, and the object invariant holds |
| Suites.AppendAll | tests/Tests.cpp:490-494 | pushing a list onto the back of another entry by entry gives their concatenation (also lines 666-670) |
| Suites.TestSuite.GetChildTestLists | tests/Tests.cpp:481-496 | the loop over the children yields the children's test lists, concatenated in child order |
| Suites.TestSuite.GetTestList | tests/Tests.cpp:461-501 | the recursive append loops build exactly TestList |
| Suites.TestSuite.GetErrorList | tests/Tests.cpp:654-675 | the recursive append loops build exactly ErrorList |
| TestMain.SuitesToRun | tests/Tests.cpp:230-234 | the set holds exactly the tokens of the selection line |
| TestMain.SelectionFacts | tests/Tests.cpp:230-234 | every selected name is a well-formed token; an all-blank line selects nothing, and then no suite is filtered |
| TestMain.RunSelected | tests/Tests.cpp:229-275 | test count before the run, the run, the error list after it; "Tests passed" is their difference, which is not negative when every body reports at most one failure; exit code 0 exactly without errors, and 0 whenever every body passes |
| TestMain.RunAllCountsEverything | tests/Tests.cpp:196-239 | with /all the selection line stays empty and the count covers every test of the tree |
| CommandLine.Settings.ParseArguments | tests/Tests.cpp:68-143 | with no argument only the y/Y answer can set the UNICODE flag and then the program relaunches itself; otherwise the globals become the fold of every argument after the program name |
| CommandLine.ApplyFlags | tests/Tests.cpp:101-141 | one comparison pass raises a boolean global exactly for its own switch |
| CommandLine.ApplyKind | tests/Tests.cpp:107-137 | one comparison pass sets the exception type to the code of a crash-kind switch or /manual_report and leaves it alone otherwise |
| CommandLine.Settings.ApplySwitch | tests/Tests.cpp:100-141 | the loop body updates the globals to one comparison pass on the argument |
| CommandLine.UnknownIgnored | tests/Tests.cpp:99-142 | an argument that matches no switch exactly changes nothing |
| CommandLine.ManualReportEffect | tests/Tests.cpp:133-137 | /manual_report sets g_bException and exception type -1 |
| CommandLine.FlagsOnlyRise | tests/Tests.cpp:97-143 | each boolean global ends up set exactly when it was set before or one of its switches occurs; none is ever cleared |
| CommandLine.LastKindWins | tests/Tests.cpp:107-137 | the exception type is that of the last crash-kind switch, and unchanged without one |
| CommandLine.Dispatch | tests/Tests.cpp:145-198 | the crash test runs exactly when g_bException is set and g_bRunAllTest is not; the selection prompt appears exactly without g_bRunAllTest |
| CommandLine.AllRunsSuites | tests/Tests.cpp:145-198 | /all always leads to the non-interactive test run |
| CommandLine.ExceptionCrashes | tests/Tests.cpp:145-191 | without /all, /exception or /manual_report leads to the crash test, with the exception type the loop left and the worker thread exactly when /exception_in_worker_thread was given |
| CrashCallbacks.VerdictAt | tests/Tests.cpp:59-62 | the next stage is asked for exactly when the counter is still zero |
| CrashCallbacks.Verdicts | tests/Tests.cpp:53-62 | the i-th of k consecutive calls answers as the counter plus i dictates |
| CrashCallbacks.FirstCallOnly | tests/Tests.cpp:53-62 | from the initial counter, only the first call asks for the next stage |
| CrashCallbacks.CancelsForever | tests/Tests.cpp:59-60 | once called, every later call cancels |
| CrashCallbacks.VerdictsSplit | tests/Tests.cpp:55-59 | a run of calls splits anywhere into the calls before and the calls from the counter they left |
| CrashCallbacks.CrashCallback.Call | tests/Tests.cpp:53-62 | bContinueExecution becomes FALSE, the counter grows by one, the verdict is that of the old counter |
| CrashCallbacks.CallStages | tests/Tests.cpp:53-62 | k consecutive calls on one callback answer exactly Verdicts from the starting counter, and the counter grows by k |
| Versions.Split | tests/Tests.cpp:200-203 | the minor part is one digit and the build two |
| Versions.EncodeSplit | tests/Tests.cpp:200-203 | packing the printed parts gives CRASHRPT_VER back |
| Versions.SplitEncode | tests/CrashRptAPITests.cpp:1340 | splitting a packed version with a one-digit minor and a two-digit build gives the parts back |
| Versions.EncodeInjective | tests/CrashRptAPITests.cpp:1340-1342 | for such versions, the packed numbers are equal exactly when the versions are |
| Versions.EncodeAmbiguous | tests/CrashRptAPITests.cpp:1340 | 1.10.0 and 2.0.0 pack to the same number |

## Left out

- `fork()` (file copying, folders, `CreateProcess`) is not modelled: it is operating-system plumbing. `ParseArguments` only reports that `_tmain` returns through it.
- Console I/O is not modelled. The typed answer and the typed selection line are parameters. `_getch` is left out. `printf` output, including the messages BeforeTest, AfterTest and AddErrorMsg print, is left out.
- The elapsed time is not modelled: `GetTickCount` returns clock values and the time is a `double`.
- `CrashThread`, crash-handler installation, `crEmulateCrash`, `crGenerateErrorReport` and `TerminateProcess` are calls into the library or the operating system; only the decision to take that branch is modelled (`Dispatch`).
- Suites.TestSuite.AddErrorMsg: the `vsnprintf_s(szBuffer, 4095, 4095, ...)` formatting of `szMsg` and its arguments is not modelled. It keeps at most 4094 characters; longer output goes to the C runtime's invalid-parameter handler instead of being cut short. The formatted text is an opaque optional string, which is appended after " Msg: ".
- `g_pCurTestSuite`, through which `TEST_ASSERT` reaches the running suite, is left out; a failing body is handed to the running suite directly.
- `DoWithMyTests`, `GetSuiteInfo` and the `TEST_ASSERT`/`REGISTER_TEST` macros come from Tests.h, which is not part of this model. Own test names and suite names are data; a suite's description is left out.
- `CTestRegistry` (a function-static singleton that builds the suite tree) is left out. `TestMain.RunSelected` takes an already built valid tree with no messages.
- Suites.TestSuite.constructor: the C++ constructor leaves both flags uninitialised. The model starts them false, which every `Run` does first anyway.
- Suites.TestSuite.AddChildSuite: requires that the child is a separate tree, disjoint from the parent's objects. The source does not check this. The frame proofs of `Run` need disjoint footprints, so a suite registered twice, or under two parents, is not covered. A child list that leads back to the suite itself would make `Run` and `GetTestList` recurse forever.
- CrashCallbacks.CrashCallback.Call: the counter is unbounded; the wrap-around of a 32-bit `int` after 2^31 calls is not modelled.
- Versions.Split: CRASHRPT_VER is a non-negative constant, so only non-negative values are modelled, where C's truncating `/` and `%` agree with Dafny's. The WORD widths of the packed parts are not modelled, since their packing cannot overflow a DWORD.
- The numeric codes of the exception kinds follow CrashRpt.h, which is not part of this model (`CR_SEH_EXCEPTION` = 0 through `CR_CPP_SIGTERM` = 12).
- The `UINT` and `size_t` widths of loop counters and list sizes are unbounded here.
- The remaining fields of `CR_CRASH_CALLBACK_INFO` are left out; the callback only writes `bContinueExecution`.
- Worker threads are not modelled. The three `ThreadProc3` threads of `Test_crInstallToCurrentThread2_concurrent` call `AddErrorMsg` on the running suite without synchronisation, so their `push_back` calls race. The model takes the failures of a body as one sequence in some order, appended one after another. It does not capture interleaving inside one `push_back`, lost or torn messages, or the flag being cleared by one thread while another reports.
- SuiteModel.OwnErrorsBound: requires `OneFailureEach`, which the concurrent test's body does not meet.
- SuiteModel.ErrorsWithinTests: requires `OneFailureEach` for the same reason; `SeveralFailuresExceedTests` shows the bound failing without it.
- TestMain.RunSelected: its `|errors| <= testCount` clause, and so the non-negative "Tests passed", holds only under `OneFailureEach`. "Tests passed" is `(int)(nTestsToRun-nErrorCount)`, modelled as the plain difference; the `size_t` wrap and the cast back to `int` give that value while both counts stay below 2^31.

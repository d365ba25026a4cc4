/** The value model of a test suite (`CTestSuite`): its name and own tests,
    its failure bookkeeping and its child suites. It gives the pure
    list builders `GetTestList` and `GetErrorList`, and the effect of each
    state-changing operation (`ClearErrors`, `AddErrorMsg`, `BeforeTest`, one
    guarded test, `Run`) as a function from the old value to the new one.
    The class in module Suites keeps one of these values as its abstract state. */
module SuiteModel {
  import opened Options

  /** One failed assertion reported through AddErrorMsg: the function name,
      the assertion text and, when the assertion carries one, the message it
      formatted. */
  datatype Failure = Failure(fn: string, assertion: string, msg: Option<string>)

  /** What one body (a test, SetUp or TearDown) does when it runs: the failed
      assertions it reports, in the order their messages are appended. The
      empty sequence is a body that passes. A body's own assertion leaves the
      body at its first failure, but a body that starts worker threads, as
      `Test_crInstallToCurrentThread2_concurrent` does, reports up to one
      failure per thread. */
  type Outcome = seq<Failure>

  /** Test bodies are outside the model: their outcome is given per suite
      name and function name ("SetUp", a test name, "TearDown"). */
  type Oracle = (string, string) -> Outcome

  /** Every body reports at most one failure: true of every body whose
      assertions all run on the thread that runs the body. */
  ghost predicate OneFailureEach(oracle: Oracle)
  {
    forall n, f :: |oracle(n, f)| <= 1
  }

  datatype Suite = Suite(
    name: string,
    hasParent: bool,
    tests: seq<string>,
    errors: seq<string>,
    testFailed: bool,
    setUpFailed: bool,
    children: seq<Suite>)

  // ---------------------------------------------------------------------
  // Messages
  // ---------------------------------------------------------------------

  /** The message AddErrorMsg records. */
  function ErrorText(fn: string, assertion: string, msg: Option<string>): string
  {
    "In test: " + fn + " Expr: " + assertion +
    match msg
    case None => ""
    case Some(m) => " Msg: " + m
  }

  /** The messages of a body's failures, in order. */
  function FailureTexts(o: Outcome): (r: seq<string>)
    ensures |r| == |o|
  {
    seq(|o|, i requires 0 <= i < |o| => ErrorText(o[i].fn, o[i].assertion, o[i].msg))
  }

  /** The message BeforeTest records for a function skipped after a failed SetUp. */
  function SetUpFailureText(fn: string): string
  {
    ErrorText(fn, "SetUp Failure", None)
  }

  // ---------------------------------------------------------------------
  // GetTestList and GetErrorList
  // ---------------------------------------------------------------------

  /** The lists `lists[0] + lists[1] + ...`, built by appending one list after another. */
  function Concat(lists: seq<seq<string>>): seq<string>
  {
    if lists == [] then [] else Concat(lists[..|lists| - 1]) + lists[|lists| - 1]
  }

  lemma ConcatStep(lists: seq<seq<string>>, i: nat)
    requires i < |lists|
    ensures Concat(lists[..i + 1]) == Concat(lists[..i]) + lists[i]
  {
    assert lists[..i + 1][..i] == lists[..i];
  }

  /** A suite below the top one is skipped when a non-empty selection does
      not name it. */
  predicate Skipped(s: Suite, run: set<string>)
  {
    s.hasParent && |run| != 0 && s.name !in run
  }

  /** `GetTestList(SuitesToRun, bIncludeChildren)`. */
  function TestList(s: Suite, run: set<string>, includeChildren: bool): seq<string>
    decreases s, 1
  {
    if Skipped(s, run) then []
    else
      ["SetUp"] + s.tests +
      (if includeChildren then Concat(ChildTestLists(s, run, includeChildren)) else []) +
      ["TearDown"]
  }

  /** The test list of each child, in child order. */
  function ChildTestLists(s: Suite, run: set<string>, includeChildren: bool): (r: seq<seq<string>>)
    ensures |r| == |s.children|
    decreases s, 0
  {
    seq(|s.children|, i requires 0 <= i < |s.children| => TestList(s.children[i], run, includeChildren))
  }

  /** `GetErrorList(bIncludeChildren)`. */
  function ErrorList(s: Suite, includeChildren: bool): seq<string>
    decreases s, 1
  {
    s.errors + if includeChildren then Concat(ChildErrorLists(s, includeChildren)) else []
  }

  /** The error list of each child, in child order. */
  function ChildErrorLists(s: Suite, includeChildren: bool): (r: seq<seq<string>>)
    ensures |r| == |s.children|
    decreases s, 0
  {
    seq(|s.children|, i requires 0 <= i < |s.children| => ErrorList(s.children[i], includeChildren))
  }

  // ---------------------------------------------------------------------
  // Single-step effects on one suite
  // ---------------------------------------------------------------------

  /** `ClearErrors`. */
  function Cleared(s: Suite): Suite
  {
    s.(errors := [], testFailed := false, setUpFailed := false)
  }

  /** `AddErrorMsg(fn, assertion, msg)`. */
  function WithError(s: Suite, fn: string, assertion: string, msg: Option<string>): Suite
  {
    s.(testFailed := true, errors := s.errors + [ErrorText(fn, assertion, msg)])
  }

  /** `BeforeTest(function)`: the new value and whether the body may run. */
  function Before(s: Suite, fn: string): (Suite, bool)
  {
    var t := s.(testFailed := false);
    if t.setUpFailed then (WithError(t, fn, "SetUp Failure", None), false) else (t, true)
  }

  /** Running one body with the given outcome: one AddErrorMsg call per
      failure, in order. */
  function Body(s: Suite, o: Outcome): Suite
  {
    if o == [] then s
    else
      var f := o[|o| - 1];
      WithError(Body(s, o[..|o| - 1]), f.fn, f.assertion, f.msg)
  }

  /** A body appends exactly the messages of its failures and sets the
      test-failed flag exactly when it reports one; nothing else changes. */
  lemma {:induction false} BodyEffect(s: Suite, o: Outcome)
    ensures Body(s, o) ==
      s.(testFailed := s.testFailed || o != [], errors := s.errors + FailureTexts(o))
  {
    if o != [] {
      var init := o[..|o| - 1];
      BodyEffect(s, init);
      assert FailureTexts(o) == FailureTexts(init) + [FailureTexts(o)[|o| - 1]];
    }
  }

  /** One registered test: `if (BeforeTest(t)) t(); AfterTest(t);`. */
  function Guarded(s: Suite, test: string, oracle: Oracle): Suite
  {
    var (t, go) := Before(s, test);
    if go then Body(t, oracle(s.name, test)) else t
  }

  /** The suite's own tests `tests`, run in order. */
  function RunTests(s: Suite, tests: seq<string>, oracle: Oracle): Suite
  {
    if tests == [] then s
    else Guarded(RunTests(s, tests[..|tests| - 1], oracle), tests[|tests| - 1], oracle)
  }

  /** The SetUp step of `Run`: SetUp runs after BeforeTest whatever
      BeforeTest returns (after ClearErrors it always returns true); a failure
      marks the suite's SetUp as failed. */
  function SetUpPhase(c: Suite, oracle: Oracle): Suite
  {
    var a := Before(c, "SetUp").0;
    var b := Body(a, oracle(c.name, "SetUp"));
    if b.testFailed then b.(setUpFailed := true) else b
  }

  /** The TearDown step of `Run` and the result: false when TearDown added a
      message, otherwise whether the suite has no message at all. */
  function TearDownPhase(f: Suite, oracle: Oracle): (Suite, bool)
  {
    var (g, go) := Before(f, "TearDown");
    var h := if go then Body(g, oracle(f.name, "TearDown")) else g;
    (h, if |f.errors| != |h.errors| then false else |h.errors| == 0)
  }

  /** `Run(SuitesToRun)`: the new value of the suite and of its subtree, and
      the result the call returns. */
  function RunSuite(s: Suite, run: set<string>, oracle: Oracle): (Suite, bool)
    decreases s
  {
    var c := Cleared(s);
    if Skipped(c, run) then (c, true)
    else
      var d := SetUpPhase(c, oracle);
      var e := RunTests(d, s.tests, oracle);
      var f := e.(children := seq(|s.children|, i requires 0 <= i < |s.children| =>
                                    RunSuite(s.children[i], run, oracle).0));
      TearDownPhase(f, oracle)
  }

  // ---------------------------------------------------------------------
  // Properties of the list builders
  // ---------------------------------------------------------------------

  /** GetTestList returns the empty list exactly for a skipped suite; the top
      suite and a run with an empty selection are never skipped. */
  lemma TestListEmptyIff(s: Suite, run: set<string>, includeChildren: bool)
    ensures TestList(s, run, includeChildren) == [] <==> Skipped(s, run)
    ensures !s.hasParent || |run| == 0 ==> TestList(s, run, includeChildren) != []
  {
    if !Skipped(s, run) {
      assert TestList(s, run, includeChildren)[0] == "SetUp";
    }
  }

  /** A list that is not empty is framed by "SetUp" and "TearDown" and has the
      suite's own test names right after "SetUp". */
  lemma TestListFrame(s: Suite, run: set<string>, includeChildren: bool)
    requires !Skipped(s, run)
    ensures var l := TestList(s, run, includeChildren);
      && |l| >= |s.tests| + 2
      && l[0] == "SetUp"
      && l[1..|s.tests| + 1] == s.tests
      && l[|l| - 1] == "TearDown"
  {
    var l := TestList(s, run, includeChildren);
    var rest := if includeChildren then Concat(ChildTestLists(s, run, includeChildren)) else [];
    assert l == ["SetUp"] + s.tests + rest + ["TearDown"];
    assert l[1..|s.tests| + 1] == s.tests;
  }

  /** Without children, a suite that is not skipped lists exactly its own tests. */
  lemma TestListNoChildren(s: Suite, run: set<string>)
    requires !Skipped(s, run)
    ensures TestList(s, run, false) == ["SetUp"] + s.tests + ["TearDown"]
  {
  }

  /** The sum of a sequence of counts. */
  function Sum(ns: seq<nat>): nat
  {
    if ns == [] then 0 else Sum(ns[..|ns| - 1]) + ns[|ns| - 1]
  }

  /** The length of a concatenation is the sum of the lengths. */
  lemma {:induction false} ConcatLength(lists: seq<seq<string>>, ns: seq<nat>)
    requires |lists| == |ns|
    requires forall i :: 0 <= i < |lists| ==> |lists[i]| == ns[i]
    ensures |Concat(lists)| == Sum(ns)
  {
    if lists != [] {
      ConcatLength(lists[..|lists| - 1], ns[..|ns| - 1]);
    }
  }

  /** Number of entries in the whole run list of a tree: SetUp, the own tests
      and TearDown of every suite. */
  function TestCount(s: Suite): nat
    decreases s
  {
    |s.tests| + 2 + Sum(seq(|s.children|, i requires 0 <= i < |s.children| => TestCount(s.children[i])))
  }

  /** With an empty selection, the list holds every suite's framed test names. */
  lemma {:induction false} TestListLength(s: Suite)
    ensures |TestList(s, {}, true)| == TestCount(s)
    decreases s
  {
    var lists := ChildTestLists(s, {}, true);
    var ns := seq(|s.children|, i requires 0 <= i < |s.children| => TestCount(s.children[i]));
    forall i | 0 <= i < |lists| ensures |lists[i]| == ns[i] {
      TestListLength(s.children[i]);
    }
    ConcatLength(lists, ns);
  }

  /** Number of messages in the error lists of a whole tree. */
  function ErrorCount(s: Suite): nat
    decreases s
  {
    |s.errors| + Sum(seq(|s.children|, i requires 0 <= i < |s.children| => ErrorCount(s.children[i])))
  }

  /** GetErrorList holds the suite's own messages first; with children its
      length is the own count plus that of every child's list, and without
      children it is the own list. */
  lemma {:induction false} ErrorListShape(s: Suite)
    ensures ErrorList(s, false) == s.errors
    ensures ErrorList(s, true)[..|s.errors|] == s.errors
    ensures |ErrorList(s, true)| == ErrorCount(s)
    decreases s
  {
    var lists := ChildErrorLists(s, true);
    var ns := seq(|s.children|, i requires 0 <= i < |s.children| => ErrorCount(s.children[i]));
    forall i | 0 <= i < |lists| ensures |lists[i]| == ns[i] {
      ErrorListShape(s.children[i]);
    }
    ConcatLength(lists, ns);
  }

  // ---------------------------------------------------------------------
  // The failure invariant
  // ---------------------------------------------------------------------

  /** AfterTest reads the last message whenever the test-failed flag is set,
      so the flag must never be set with an empty list. */
  predicate FlagHasMessage(s: Suite)
  {
    s.testFailed ==> |s.errors| > 0
  }

  /** FlagHasMessage in every suite of the tree. */
  predicate Sound(s: Suite)
    decreases s
  {
    FlagHasMessage(s) && forall i :: 0 <= i < |s.children| ==> Sound(s.children[i])
  }

  /** After ClearErrors, AddErrorMsg or BeforeTest the flag has a message:
      ClearErrors clears both, AddErrorMsg adds the message it flags, and
      BeforeTest clears the flag unless it also adds a message. */
  lemma StepsKeepFlag(s: Suite, fn: string, assertion: string, msg: Option<string>, o: Outcome)
    requires FlagHasMessage(s)
    ensures FlagHasMessage(Cleared(s))
    ensures FlagHasMessage(WithError(s, fn, assertion, msg))
    ensures FlagHasMessage(Before(s, fn).0)
    ensures FlagHasMessage(Body(s, o))
  {
    BodyEffect(s, o);
  }

  /** BeforeTest reports "SetUp Failure" and refuses the body exactly when the
      suite's SetUp failed; otherwise it only clears the test-failed flag. */
  lemma BeforeSpec(s: Suite, fn: string)
    ensures Before(s, fn).1 <==> !s.setUpFailed
    ensures Before(s, fn).0.testFailed == s.setUpFailed
    ensures Before(s, fn).0.errors ==
      if s.setUpFailed then s.errors + [SetUpFailureText(fn)] else s.errors
    ensures Before(s, fn).0.setUpFailed == s.setUpFailed
  {
  }

  /** The guarded steps change only the failure bookkeeping, only append
      messages and keep the flag invariant; when every body reports at most
      one failure they add at most one message per test. */
  lemma {:induction false} RunTestsFacts(s: Suite, tests: seq<string>, oracle: Oracle)
    ensures var r := RunTests(s, tests, oracle);
      && r.name == s.name && r.tests == s.tests && r.hasParent == s.hasParent
      && r.children == s.children && r.setUpFailed == s.setUpFailed
      && |s.errors| <= |r.errors|
      && (OneFailureEach(oracle) ==> |r.errors| <= |s.errors| + |tests|)
      && r.errors[..|s.errors|] == s.errors
      && (FlagHasMessage(s) ==> FlagHasMessage(r))
  {
    if tests != [] {
      var p := RunTests(s, tests[..|tests| - 1], oracle);
      RunTestsFacts(s, tests[..|tests| - 1], oracle);
      var t := tests[|tests| - 1];
      BodyEffect(Before(p, t).0, oracle(s.name, t));
      var r := RunTests(s, tests, oracle);
      assert r == Guarded(p, t, oracle);
      assert r.errors[..|p.errors|] == p.errors;
      assert r.errors[..|s.errors|] == p.errors[..|s.errors|];
    }
  }

  /** Run keeps the suite's name, tests and parent link, and every child
      becomes that child's own Run value. */
  lemma RunSuiteChildren(s: Suite, run: set<string>, oracle: Oracle)
    ensures var r := RunSuite(s, run, oracle).0;
      && r.name == s.name && r.tests == s.tests && r.hasParent == s.hasParent
      && |r.children| == |s.children|
      && (!Skipped(s, run) ==>
            forall i :: 0 <= i < |s.children| ==> r.children[i] == RunSuite(s.children[i], run, oracle).0)
  {
    var c := Cleared(s);
    if !Skipped(c, run) {
      var a := Before(c, "SetUp").0;
      var b := Body(a, oracle(s.name, "SetUp"));
      BodyEffect(a, oracle(s.name, "SetUp"));
      var d := if b.testFailed then b.(setUpFailed := true) else b;
      RunTestsFacts(d, s.tests, oracle);
      var e := RunTests(d, s.tests, oracle);
      var f := e.(children := seq(|s.children|, i requires 0 <= i < |s.children| =>
                                 RunSuite(s.children[i], run, oracle).0));
      var (g, go) := Before(f, "TearDown");
      BodyEffect(g, oracle(s.name, "TearDown"));
    }
  }

  /** Run keeps the flag invariant in every suite of the tree. */
  lemma {:induction false} RunKeepsSound(s: Suite, run: set<string>, oracle: Oracle)
    requires Sound(s)
    ensures Sound(RunSuite(s, run, oracle).0)
    decreases s
  {
    var c := Cleared(s);
    if !Skipped(c, run) {
      var a := Before(c, "SetUp").0;
      var b := Body(a, oracle(s.name, "SetUp"));
      BodyEffect(a, oracle(s.name, "SetUp"));
      var d := if b.testFailed then b.(setUpFailed := true) else b;
      RunTestsFacts(d, s.tests, oracle);
      var e := RunTests(d, s.tests, oracle);
      var f := e.(children := seq(|s.children|, i requires 0 <= i < |s.children| =>
                                 RunSuite(s.children[i], run, oracle).0));
      var (g, go) := Before(f, "TearDown");
      BodyEffect(g, oracle(s.name, "TearDown"));
      var r := RunSuite(s, run, oracle).0;
      forall i | 0 <= i < |r.children| ensures Sound(r.children[i]) {
        RunKeepsSound(s.children[i], run, oracle);
      }
    }
  }

  /** The value Run returns says exactly whether the suite's own list of
      messages is empty afterwards; the children's failures do not change it. */
  lemma RunResult(s: Suite, run: set<string>, oracle: Oracle)
    ensures RunSuite(s, run, oracle).1 <==> RunSuite(s, run, oracle).0.errors == []
  {
  }

  /** Run changes a skipped suite only by clearing its own bookkeeping; its
      children are not visited. */
  lemma RunSkipped(s: Suite, run: set<string>, oracle: Oracle)
    requires Skipped(s, run)
    ensures RunSuite(s, run, oracle) == (Cleared(s), true)
  {
  }

  // ---------------------------------------------------------------------
  // A failed SetUp
  // ---------------------------------------------------------------------

  /** The "SetUp Failure" messages for `tests`, in order. */
  function SetUpFailures(tests: seq<string>): (r: seq<string>)
    ensures |r| == |tests|
  {
    if tests == [] then [] else SetUpFailures(tests[..|tests| - 1]) + [SetUpFailureText(tests[|tests| - 1])]
  }

  /** After a failed SetUp every own test is refused with one "SetUp Failure". */
  lemma {:induction false} RunTestsAfterSetUpFailure(s: Suite, tests: seq<string>, oracle: Oracle)
    requires s.setUpFailed
    ensures RunTests(s, tests, oracle).errors == s.errors + SetUpFailures(tests)
    ensures RunTests(s, tests, oracle).setUpFailed
  {
    if tests != [] {
      RunTestsAfterSetUpFailure(s, tests[..|tests| - 1], oracle);
    }
  }

  /** When SetUp fails, Run records its failures, then one "SetUp Failure" for
      each own test and one for TearDown, and returns false. */
  lemma SetUpFailureCascade(s: Suite, run: set<string>, oracle: Oracle)
    requires !Skipped(s, run) && oracle(s.name, "SetUp") != []
    ensures RunSuite(s, run, oracle).0.errors ==
      FailureTexts(oracle(s.name, "SetUp")) + SetUpFailures(s.tests) + [SetUpFailureText("TearDown")]
    ensures !RunSuite(s, run, oracle).1
  {
    var o := oracle(s.name, "SetUp");
    var c := Cleared(s);
    var a := Before(c, "SetUp").0;
    var b := Body(a, o);
    BodyEffect(a, o);
    assert b.errors == FailureTexts(o);
    var d := b.(setUpFailed := true);
    RunTestsAfterSetUpFailure(d, s.tests, oracle);
    RunTestsFacts(d, s.tests, oracle);
  }

  // ---------------------------------------------------------------------
  // Errors never outnumber tests
  // ---------------------------------------------------------------------

  /** No suite of the tree holds a message, as after construction. */
  predicate AllClear(s: Suite)
    decreases s
  {
    s.errors == [] && forall i :: 0 <= i < |s.children| ==> AllClear(s.children[i])
  }

  /** A tree without messages has an empty error list. */
  lemma {:induction false} AllClearNoErrors(s: Suite)
    requires AllClear(s)
    ensures ErrorList(s, true) == []
    decreases s
  {
    ErrorListShape(s);
    var ns := seq(|s.children|, i requires 0 <= i < |s.children| => ErrorCount(s.children[i]));
    forall i | 0 <= i < |s.children| ensures ns[i] == 0 {
      AllClearNoErrors(s.children[i]);
      ErrorListShape(s.children[i]);
    }
    SumZero(ns);
  }

  lemma {:induction false} SumZero(ns: seq<nat>)
    requires forall i :: 0 <= i < |ns| ==> ns[i] == 0
    ensures Sum(ns) == 0
  {
    if ns != [] {
      SumZero(ns[..|ns| - 1]);
    }
  }

  lemma {:induction false} SumMonotone(ms: seq<nat>, ns: seq<nat>)
    requires |ms| == |ns|
    requires forall i :: 0 <= i < |ms| ==> ms[i] <= ns[i]
    ensures Sum(ms) <= Sum(ns)
  {
    if ms != [] {
      SumMonotone(ms[..|ms| - 1], ns[..|ns| - 1]);
    }
  }

  /** When every body reports at most one failure, Run adds at most one
      message for SetUp, one per own test and one for TearDown, so a suite's
      own messages never outnumber its own entries in the run list. */
  lemma OwnErrorsBound(s: Suite, run: set<string>, oracle: Oracle)
    requires !Skipped(s, run)
    requires OneFailureEach(oracle)
    ensures |RunSuite(s, run, oracle).0.errors| <= |s.tests| + 2
  {
    var c := Cleared(s);
    var a := Before(c, "SetUp").0;
    var b := Body(a, oracle(s.name, "SetUp"));
    BodyEffect(a, oracle(s.name, "SetUp"));
    var d := if b.testFailed then b.(setUpFailed := true) else b;
    RunTestsFacts(d, s.tests, oracle);
    var e := RunTests(d, s.tests, oracle);
    var f := e.(children := seq(|s.children|, i requires 0 <= i < |s.children| =>
                               RunSuite(s.children[i], run, oracle).0));
    var (g, go) := Before(f, "TearDown");
    if go {
      BodyEffect(g, oracle(s.name, "TearDown"));
    }
  }

  /** When every body reports at most one failure, the messages Run leaves
      in a tree that has not run yet never outnumber the entries of the run
      list computed beforehand, so the driver's "tests passed" count (test
      count minus error count) is never negative. */
  lemma {:induction false} ErrorsWithinTests(s: Suite, run: set<string>, oracle: Oracle)
    requires AllClear(s)
    requires OneFailureEach(oracle)
    ensures |ErrorList(RunSuite(s, run, oracle).0, true)| <= |TestList(s, run, true)|
    decreases s
  {
    var r := RunSuite(s, run, oracle).0;
    ErrorListShape(r);
    if Skipped(s, run) {
      assert r == Cleared(s);
      AllClearNoErrors(s);
      ErrorListShape(s);
    } else {
      OwnErrorsBound(s, run, oracle);
      RunSuiteChildren(s, run, oracle);
      var ms := seq(|r.children|, i requires 0 <= i < |r.children| => ErrorCount(r.children[i]));
      var lists := ChildTestLists(s, run, true);
      var ns := seq(|lists|, i requires 0 <= i < |lists| => |lists[i]|);
      forall i | 0 <= i < |ms| ensures ms[i] <= ns[i] {
        ErrorsWithinTests(s.children[i], run, oracle);
        ErrorListShape(r.children[i]);
      }
      SumMonotone(ms, ns);
      ConcatLength(lists, ns);
      assert |TestList(s, run, true)| == |s.tests| + 2 + |Concat(lists)|;
    }
  }

  /** Without OneFailureEach the bound does not hold: in a top suite with two
      tests whose bodies each report three failures, as three worker threads
      can, Run leaves six messages against a run list of four entries. */
  lemma SeveralFailuresExceedTests()
    ensures var s := Suite("s", false, ["a", "b"], [], false, false, []);
      var x := Failure("ThreadProc3", "nResult == 0", None);
      var oracle := (n: string, f: string) => if f == "a" || f == "b" then [x, x, x] else [];
      |ErrorList(RunSuite(s, {}, oracle).0, true)| == 6 && |TestList(s, {}, true)| == 4
  {
    var s := Suite("s", false, ["a", "b"], [], false, false, []);
    var x := Failure("ThreadProc3", "nResult == 0", None);
    var oracle := (n: string, f: string) => if f == "a" || f == "b" then [x, x, x] else [];
    var d := SetUpPhase(Cleared(s), oracle);
    BodyEffect(Before(Cleared(s), "SetUp").0, oracle("s", "SetUp"));
    assert d.errors == [] && !d.setUpFailed;
    var e1 := Guarded(d, "a", oracle);
    BodyEffect(Before(d, "a").0, oracle("s", "a"));
    assert |e1.errors| == 3 && !e1.setUpFailed;
    var e2 := Guarded(e1, "b", oracle);
    BodyEffect(Before(e1, "b").0, oracle("s", "b"));
    assert |e2.errors| == 6;
    assert ["a", "b"][..1] == ["a"];
    assert RunTests(d, ["a", "b"], oracle) == e2;
    var f := e2.(children := []);
    BodyEffect(Before(f, "TearDown").0, oracle("s", "TearDown"));
    var r := RunSuite(s, {}, oracle).0;
    assert r.errors == e2.errors && r.children == [];
    ErrorListShape(r);
  }

  /** When every body passes, Run leaves no message anywhere in a tree that
      had none, and returns true. */
  lemma {:induction false} AllPassNoErrors(s: Suite, run: set<string>, oracle: Oracle)
    requires AllClear(s)
    requires forall n, f :: oracle(n, f) == []
    ensures AllClear(RunSuite(s, run, oracle).0)
    ensures RunSuite(s, run, oracle).1
    decreases s
  {
    var c := Cleared(s);
    if !Skipped(c, run) {
      var a := Before(c, "SetUp").0;
      var b := Body(a, oracle(s.name, "SetUp"));
      assert b.errors == [] && !b.testFailed;
      AllPassTests(b, s.tests, oracle);
      var r := RunSuite(s, run, oracle).0;
      forall i | 0 <= i < |r.children| ensures AllClear(r.children[i]) {
        AllPassNoErrors(s.children[i], run, oracle);
      }
    }
  }

  lemma {:induction false} AllPassTests(s: Suite, tests: seq<string>, oracle: Oracle)
    requires !s.setUpFailed
    requires forall n, f :: oracle(n, f) == []
    ensures RunTests(s, tests, oracle).errors == s.errors
    ensures !RunTests(s, tests, oracle).setUpFailed
  {
    if tests != [] {
      AllPassTests(s, tests[..|tests| - 1], oracle);
    }
  }
}

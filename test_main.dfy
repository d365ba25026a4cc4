/** The test run at the end of `_tmain`: the typed selection line becomes a
    set of suite names, the top suite's test list is counted, the tree is run
    and the error list of the whole tree is summarised into the exit code. */
module TestMain {
  import opened StringUtil
  import opened SuiteModel
  import opened Suites

  /** The names a selection line asks for: the tokens explode finds in it. */
  function Selection(line: string): set<string>
  {
    set t | t in Tokens(line, DefaultSeparators)
  }

  /** Every selected name is a well-formed token; no name is selected exactly
      when the line holds nothing but spaces, tabs and newlines, and then
      every suite runs. */
  lemma SelectionFacts(line: string)
    ensures forall t :: t in Selection(line) ==> WellFormedToken(t, DefaultSeparators)
    ensures Selection(line) == {} <==>
      forall k :: 0 <= k < |line| ==> line[k] in DefaultSeparators || line[k] in DefaultTrim
    ensures Selection(line) == {} ==> forall s :: !Skipped(s, Selection(line))
  {
    TokensWellFormed(line, DefaultSeparators);
    TokensEmptyIff(line, DefaultSeparators);
    var tokens := Tokens(line, DefaultSeparators);
    if tokens != [] {
      assert tokens[0] in Selection(line);
    }
  }

  /** `explode(sSuiteList)` and the loop inserting each token into
      `aTestSuitesToRun`. */
  method SuitesToRun(line: string) returns (run: set<string>)
    ensures run == Selection(line)
  {
    var tokens := Explode(line, DefaultSeparators);
    run := {};
    var i := 0;
    while i < |tokens|
      invariant 0 <= i <= |tokens|
      invariant run == set t | t in tokens[..i]
    {
      assert tokens[..i + 1] == tokens[..i] + [tokens[i]];
      run := run + {tokens[i]};
      i := i + 1;
    }
    assert tokens[..i] == tokens;
  }

  /** The figures the summary prints and the exit code. "Tests passed" is
      `(int)(nTestsToRun-nErrorCount)`, the difference of the two counts. */
  datatype Summary = Summary(testCount: nat, errors: seq<string>, passed: int, exitCode: int)

  /** From `std::string sSuiteList = szSuiteList` to `return nErrorCount==0?0:1`.
      The selection line is empty when g_bRunAllTest is set, otherwise it is
      the line typed at the prompt. The suites of a freshly registered tree
      hold no messages. */
  method RunSelected(top: TestSuite, runAll: bool, typed: string, oracle: Oracle)
    returns (summary: Summary)
    requires top.Valid() && AllClear(top.Model)
    modifies top.Repr
    ensures top.Valid()
    ensures var run := Selection(if runAll then "" else typed);
      && summary.testCount == |TestList(old(top.Model), run, true)|
      && top.Model == RunSuite(old(top.Model), run, oracle).0
      && summary.errors == ErrorList(top.Model, true)
    ensures summary.passed == summary.testCount - |summary.errors|
    ensures OneFailureEach(oracle) ==> |summary.errors| <= summary.testCount && summary.passed >= 0
    ensures summary.exitCode == (if summary.errors == [] then 0 else 1)
    ensures (forall n, f :: oracle(n, f) == []) ==> summary.exitCode == 0
  {
    var line := if runAll then "" else typed;
    var run := SuitesToRun(line);
    ghost var m0 := top.Model;
    var testList := top.GetTestList(run, true);
    var nTestsToRun := |testList|;
    var _ := top.Run(run, oracle);
    var errorList := top.GetErrorList(true);
    if OneFailureEach(oracle) {
      ErrorsWithinTests(m0, run, oracle);
    }
    if forall n, f :: oracle(n, f) == [] {
      AllPassNoErrors(m0, run, oracle);
      AllClearNoErrors(top.Model);
    }
    var nErrorCount := |errorList|;
    summary := Summary(nTestsToRun, errorList, nTestsToRun - nErrorCount,
                       if nErrorCount == 0 then 0 else 1);
  }

  /** With `/all` the selection is empty, so every suite runs and the count
      covers every test of the tree. */
  lemma RunAllCountsEverything(s: Suite)
    ensures Selection("") == {}
    ensures |TestList(s, Selection(""), true)| == TestCount(s)
  {
    SelectionFacts("");
    TestListLength(s);
  }
}

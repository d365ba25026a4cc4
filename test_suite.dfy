/** `CTestSuite` as an object: the fields the source updates in place
    (`m_bTestFailed`, `m_bSuiteSetUpFailed`, `m_asErrorMsg`, `m_apChildSuites`)
    and its methods. The suite name and the own test names, which the source
    gets from the virtual `GetSuiteInfo` and `DoWithMyTests` generated in
    Tests.h, are constructor arguments here. The ghost field `Model` is the
    value of the whole subtree; `Repr` is the set of objects it is made of. */
module Suites {
  import opened Options
  import opened SuiteModel

  /** The inner loops of GetTestList and GetErrorList: `more` pushed onto
      the back of `list` entry by entry. */
  method AppendAll(list: seq<string>, more: seq<string>) returns (r: seq<string>)
    ensures r == list + more
  {
    r := list;
    var j := 0;
    while j < |more|
      invariant 0 <= j <= |more|
      invariant r == list + more[..j]
    {
      r := r + [more[j]];
      assert more[..j + 1] == more[..j] + [more[j]];
      j := j + 1;
    }
    assert more[..j] == more;
  }

  class TestSuite {
    var parent: TestSuite?
    const name: string
    const tests: seq<string>
    var testFailed: bool
    var setUpFailed: bool
    var errors: seq<string>
    var children: seq<TestSuite>

    ghost var Model: Suite
    ghost var Repr: set<object>

    /** The structural part of the object invariant: the fields agree with
        Model, and the children are valid trees with disjoint footprints. */
    ghost predicate Tree()
      reads this, Repr
      decreases Repr, 0
    {
      && this in Repr
      && Model.name == name
      && Model.tests == tests
      && Model.hasParent == (parent != null)
      && Model.errors == errors
      && Model.testFailed == testFailed
      && Model.setUpFailed == setUpFailed
      && |Model.children| == |children|
      && (forall i :: 0 <= i < |children| ==>
            && children[i] in Repr
            && children[i].Repr <= Repr
            && this !in children[i].Repr
            && children[i].Valid()
            && children[i].Model == Model.children[i])
      && (forall i, j :: 0 <= i < j < |children| ==> children[i].Repr !! children[j].Repr)
    }

    /** The object invariant: a tree in which a set test-failed flag always
        has a message behind it. */
    ghost predicate Valid()
      reads this, Repr
      decreases Repr, 1
    {
      Tree() && FlagHasMessage(Model)
    }

    /** The object invariant makes the value sound: no flag without a message
        anywhere in the subtree. */
    lemma ModelSound()
      requires Valid()
      ensures Sound(Model)
      decreases Repr
    {
      forall i | 0 <= i < |children| ensures Sound(Model.children[i]) {
        children[i].ModelSound();
      }
    }

    /** `CTestSuite(pParentSuite)`: no children and no messages. The C++
        constructor leaves both flags uninitialised; here they start false. */
    constructor (parent: TestSuite?, name: string, tests: seq<string>)
      ensures Valid() && fresh(Repr - {this}) && Repr == {this}
      ensures this.parent == parent && children == []
      ensures Model == Suite(name, parent != null, tests, [], false, false, [])
    {
      this.parent := parent;
      this.name := name;
      this.tests := tests;
      testFailed := false;
      setUpFailed := false;
      errors := [];
      children := [];
      Model := Suite(name, parent != null, tests, [], false, false, []);
      Repr := {this};
    }

    /** `GetChildSuiteCount`. */
    method GetChildSuiteCount() returns (n: nat)
      requires Valid()
      ensures n == |children| == |Model.children|
    {
      n := |children|;
    }

    /** `GetChildSuite(i)`: the i-th child, whose value is the i-th child value. */
    method GetChildSuite(i: nat) returns (child: TestSuite)
      requires Valid() && i < |children|
      ensures child == children[i] && |Model.children| == |children|
      ensures child.Valid() && child.Model == Model.children[i] && child.Repr <= Repr
    {
      child := children[i];
    }

    /** `AddChildSuite(pChildSuite)`: the child goes last. The child must be a
        separate tree, as every suite registered under a parent is. */
    method AddChildSuite(child: TestSuite)
      requires Valid() && child.Valid() && Repr !! child.Repr
      modifies this
      ensures Valid() && Repr == old(Repr) + child.Repr
      ensures children == old(children) + [child]
      ensures Model == old(Model).(children := old(Model.children) + [child.Model])
      ensures parent == old(parent)
    {
      children := children + [child];
      Model := Model.(children := Model.children + [child.Model]);
      Repr := Repr + child.Repr;
      assert forall i :: 0 <= i < |old(children)| ==> children[i] == old(children)[i];
    }

    /** `ClearErrors`: both flags down and no message. */
    method ClearErrors()
      requires Valid()
      modifies this
      ensures Valid() && Repr == old(Repr) && children == old(children) && parent == old(parent)
      ensures Model == Cleared(old(Model))
      ensures errors == [] && !testFailed && !setUpFailed
    {
      setUpFailed := false;
      testFailed := false;
      errors := [];
      Model := Cleared(Model);
    }

    /** `AddErrorMsg(szFunction, szAssertion, szMsg, ...)`: exactly one
        message more, "In test: <function> Expr: <assertion>" followed by
        " Msg: <text>" when a message is given, the test-failed flag set,
        nothing else changed. The text formatted from `szMsg` and its
        arguments is given already formatted. It also repairs the flag invariant, which
        BeforeTest breaks just before calling it. */
    method AddErrorMsg(fn: string, assertion: string, msg: Option<string>)
      requires Tree()
      modifies this
      ensures Valid() && Repr == old(Repr) && children == old(children) && parent == old(parent)
      ensures Model == WithError(old(Model), fn, assertion, msg)
      ensures errors == old(errors) + [ErrorText(fn, assertion, msg)]
      ensures errors[|errors| - 1] == "In test: " + fn + " Expr: " + assertion +
                                      (if msg.Some? then " Msg: " + msg.value else "")
      ensures testFailed && setUpFailed == old(setUpFailed)
    {
      testFailed := true;
      var text := ErrorText(fn, assertion, msg);
      errors := errors + [text];
      Model := WithError(Model, fn, assertion, msg);
    }

    /** `BeforeTest(szFunction)`: clears the test-failed flag; after a failed
        SetUp it records "SetUp Failure" and refuses the body. */
    method BeforeTest(fn: string) returns (go: bool)
      requires Valid()
      modifies this
      ensures Valid() && Repr == old(Repr) && children == old(children) && parent == old(parent)
      ensures (Model, go) == Before(old(Model), fn)
      ensures go <==> !old(setUpFailed)
      ensures errors == if go then old(errors) else old(errors) + [SetUpFailureText(fn)]
    {
      testFailed := false;
      Model := Model.(testFailed := false);
      if setUpFailed {
        testFailed := true;
        Model := Model.(testFailed := true);
        AddErrorMsg(fn, "SetUp Failure", None);
        go := false;
        return;
      }
      go := true;
    }

    /** `AfterTest(szFunction)`: on failure it reads the last message (the
        one it prints); the object invariant guarantees there is one. */
    method AfterTest(fn: string) returns (failure: Option<string>)
      requires Valid()
      ensures failure.Some? <==> testFailed
      ensures failure.Some? ==> |errors| > 0 && failure.value == errors[|errors| - 1]
    {
      if !testFailed {
        failure := None;
      } else {
        var errorMsg := errors[|errors| - 1];
        failure := Some(errorMsg);
      }
    }

    /** One body with its outcome: each failure it reports is one AddErrorMsg
        call, in order. */
    method RunBody(o: Outcome)
      requires Valid()
      modifies this
      ensures Valid() && Repr == old(Repr) && children == old(children) && parent == old(parent)
      ensures Model == Body(old(Model), o)
    {
      var i := 0;
      while i < |o|
        invariant 0 <= i <= |o|
        invariant Valid() && Repr == old(Repr) && children == old(children) && parent == old(parent)
        invariant Model == Body(old(Model), o[..i])
      {
        AddErrorMsg(o[i].fn, o[i].assertion, o[i].msg);
        assert o[..i + 1][..i] == o[..i];
        i := i + 1;
      }
      assert o[..i] == o;
    }

    /** `DoWithMyTests(RUN_TESTS, ...)`: each own test in order, as
        `if (BeforeTest(t)) t(); AfterTest(t);`. */
    method RunMyTests(oracle: Oracle)
      requires Valid()
      modifies this
      ensures Valid() && Repr == old(Repr) && children == old(children) && parent == old(parent)
      ensures Model == RunTests(old(Model), tests, oracle)
    {
      var i := 0;
      while i < |tests|
        invariant 0 <= i <= |tests|
        invariant Valid() && Repr == old(Repr) && children == old(children) && parent == old(parent)
        invariant Model == RunTests(old(Model), tests[..i], oracle)
      {
        ghost var before := Model;
        var go := BeforeTest(tests[i]);
        if go {
          RunBody(oracle(name, tests[i]));
        }
        var _ := AfterTest(tests[i]);
        assert tests[..i + 1][..i] == tests[..i];
        assert Model == Guarded(before, tests[i], oracle);
        i := i + 1;
      }
      assert tests[..i] == tests;
    }

    /** The SetUp part of `Run`: SetUp runs after BeforeTest whatever
        BeforeTest returns; a failed SetUp sets `m_bSuiteSetUpFailed`. */
    method RunSetUp(oracle: Oracle)
      requires Valid()
      modifies this
      ensures Valid() && Repr == old(Repr) && children == old(children) && parent == old(parent)
      ensures Model == SetUpPhase(old(Model), oracle)
    {
      var _ := BeforeTest("SetUp");
      RunBody(oracle(name, "SetUp"));
      var _ := AfterTest("SetUp");
      if testFailed {
        setUpFailed := true;
        Model := Model.(setUpFailed := true);
      }
    }

    /** The TearDown part of `Run` and its result: false when TearDown added
        a message, otherwise whether the suite holds no message. */
    method RunTearDown(oracle: Oracle) returns (ok: bool)
      requires Valid()
      modifies this
      ensures Valid() && Repr == old(Repr) && children == old(children) && parent == old(parent)
      ensures (Model, ok) == TearDownPhase(old(Model), oracle)
    {
      var nErrors := |errors|;
      var go := BeforeTest("TearDown");
      if go {
        RunBody(oracle(name, "TearDown"));
      }
      var _ := AfterTest("TearDown");
      if nErrors != |errors| {
        ok := false;
        return;
      }
      ok := |errors| == 0;
    }

    /** The child loop of `Run`: every child runs in order. Only the children's
        objects change; the new child values are returned for the parent. */
    method RunChildLoop(run: set<string>, oracle: Oracle) returns (ghost models: seq<Suite>)
      requires Valid()
      modifies Repr - {this}
      ensures |models| == |children|
      ensures forall i :: 0 <= i < |children| ==>
        && children[i].Valid()
        && children[i].Repr == old(children[i].Repr)
        && children[i] in Repr && children[i].Repr <= Repr && this !in children[i].Repr
        && children[i].Model == models[i]
        && models[i] == RunSuite(old(children[i].Model), run, oracle).0
      ensures forall i, j :: 0 <= i < j < |children| ==> children[i].Repr !! children[j].Repr
      decreases Repr, 0
    {
      var count := |children|;
      var i := 0;
      models := [];
      while i < count
        invariant 0 <= i <= count == |children|
        invariant |models| == i
        invariant forall k :: 0 <= k < count ==>
          && children[k].Repr == old(children[k].Repr)
          && children[k] in Repr && children[k].Repr <= Repr && this !in children[k].Repr
        invariant forall k, l :: 0 <= k < l < count ==> children[k].Repr !! children[l].Repr
        invariant forall k :: 0 <= k < i ==>
          children[k].Valid() && children[k].Model == models[k] &&
          models[k] == RunSuite(old(children[k].Model), run, oracle).0
        invariant forall k :: i <= k < count ==>
          children[k].Valid() && children[k].Model == old(children[k].Model)
      {
        var child := children[i];
        var _ := child.Run(run, oracle);
        models := models + [child.Model];
        i := i + 1;
      }
    }

    /** `for(i...) m_apChildSuites[i]->Run(SuitesToRun)`: each child value
        becomes its RunSuite value; the suite's own bookkeeping is untouched. */
    method RunChildren(run: set<string>, oracle: Oracle)
      requires Valid()
      modifies Repr
      ensures Valid() && Repr == old(Repr) && children == old(children) && parent == old(parent)
      ensures Model == old(Model).(children := seq(|old(Model).children|,
        i requires 0 <= i < |old(Model).children| => RunSuite(old(Model).children[i], run, oracle).0))
      decreases Repr, 1
    {
      ghost var models := RunChildLoop(run, oracle);
      Model := Model.(children := models);
    }

    /** `Run(SuitesToRun)`: the new value of the whole subtree and the result
        are those of RunSuite; the object invariant is kept. */
    method Run(run: set<string>, oracle: Oracle) returns (ok: bool)
      requires Valid()
      modifies Repr
      ensures Valid() && Repr == old(Repr) && children == old(children) && parent == old(parent)
      ensures (Model, ok) == RunSuite(old(Model), run, oracle)
      decreases Repr, 2
    {
      ghost var m0 := Model;
      ClearErrors();
      if parent != null && |run| != 0 {
        if name !in run {
          ok := true;
          return;
        }
      }
      ghost var c := Model;
      RunSetUp(oracle);
      RunMyTests(oracle);
      ghost var e := Model;
      assert e == RunTests(SetUpPhase(c, oracle), m0.tests, oracle);
      RunTestsFacts(SetUpPhase(c, oracle), m0.tests, oracle);
      assert e.children == m0.children;
      RunChildren(run, oracle);
      ok := RunTearDown(oracle);
    }

    /** The loop of `GetTestList` over the children: each child's list is
        appended entry by entry. */
    method GetChildTestLists(run: set<string>, includeChildren: bool) returns (list: seq<string>)
      requires Valid()
      ensures list == Concat(ChildTestLists(Model, run, includeChildren))
      decreases Repr, 0
    {
      list := [];
      ghost var lists := ChildTestLists(Model, run, includeChildren);
      var count := GetChildSuiteCount();
      var i := 0;
      while i < count
        invariant 0 <= i <= count
        invariant list == Concat(lists[..i])
      {
        var child := GetChildSuite(i);
        var childList := child.GetTestList(run, includeChildren);
        list := AppendAll(list, childList);
        ConcatStep(lists, i);
        i := i + 1;
      }
      assert lists[..i] == lists;
    }

    /** `GetTestList(SuitesToRun, bIncludeChildren)`: nothing for a child
        suite left out of a non-empty selection, otherwise "SetUp", the own
        tests, the children's lists and "TearDown". */
    method GetTestList(run: set<string>, includeChildren: bool) returns (list: seq<string>)
      requires Valid()
      ensures list == TestList(Model, run, includeChildren)
      decreases Repr, 1
    {
      list := [];
      if parent != null && |run| != 0 {
        if name !in run {
          return;
        }
      }
      list := list + ["SetUp"];
      list := list + tests;
      if includeChildren {
        var more := GetChildTestLists(run, includeChildren);
        list := list + more;
      }
      list := list + ["TearDown"];
    }

    /** `GetErrorList(bIncludeChildren)`: the own messages, then each child's
        list appended entry by entry. */
    method GetErrorList(includeChildren: bool) returns (list: seq<string>)
      requires Valid()
      ensures list == ErrorList(Model, includeChildren)
      decreases Repr
    {
      list := errors;
      if includeChildren {
        ghost var lists := ChildErrorLists(Model, includeChildren);
        var count := GetChildSuiteCount();
        var i := 0;
        while i < count
          invariant 0 <= i <= count
          invariant list == errors + Concat(lists[..i])
        {
          var child := GetChildSuite(i);
          var childErrors := child.GetErrorList(includeChildren);
          list := AppendAll(list, childErrors);
          ConcatStep(lists, i);
          i := i + 1;
        }
        assert lists[..i] == lists;
      }
    }
  }
}

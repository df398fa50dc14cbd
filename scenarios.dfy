/** Client code in the style of the library's test script: what a caller of the test
    doubles can rely on, proved from the contracts of the classes alone. */
module Scenarios {
  import opened Text
  import opened Binder
  import opened MockPdo
  import opened Harness

  /** Each execute replaces the stored parameters, an execute without argument empties
      them, and the template never changes. */
  method ExecuteOverwrites(template: string, first: seq<string>, second: seq<string>)
    returns (query: string, afterSecond: seq<string>, afterReset: seq<string>)
    ensures query == template
    ensures afterSecond == second
    ensures afterReset == []
  {
    var s := new DummyPDOStatement(template);
    s.Execute(first);
    s.Execute(second);
    afterSecond := s.GetParameters();
    s.Execute();
    afterReset := s.GetParameters();
    query := s.GetQuery();
  }

  /** get_bound_query changes nothing, so asking twice gives the same answer. */
  method BoundQueryTwice(s: DummyPDOStatement) returns (first: FormatResult, second: FormatResult)
    requires NoPercent(s.query)
    ensures first == second
    ensures first == BoundQuery(s.query, s.inputParameters)
  {
    first := s.GetBoundQuery();
    second := s.GetBoundQuery();
  }

  /** A fresh statement returns the fake row four times and `false` on the fifth and
      sixth call. */
  method FetchSixTimes() returns (results: seq<FetchResult>)
    ensures results == [Fetched(FakeRow), Fetched(FakeRow), Fetched(FakeRow), Fetched(FakeRow),
                        NoMoreRows, NoMoreRows]
  {
    var s := new DummyPDOStatement("SELECT * FROM users");
    results := [];
    var k := 0;
    while k < 6
      invariant 0 <= k <= 6 && s.Valid()
      invariant s.currentRow == if k < 4 then k + 1 else LastRow
      invariant results == Fetches(1, k)
    {
      var r := s.Fetch(0);
      results := results + [r];
      k := k + 1;
    }
    FetchesBoundary(1, 6);
  }

  /** After a second prepare the connection reports the second statement's bound query,
      whatever is done to the first statement. */
  method PrepareForgetsEarlier(t1: string, t2: string, values: seq<string>) returns (r: FormatResult)
    requires NoPercent(t2)
    ensures r == BoundQuery(t2, [])
  {
    var db := new DummyPDO();
    var s1 := db.Prepare(t1);
    var s2 := db.Prepare(t2);
    s1.Execute(values);
    r := db.GetLastQuery();
  }

  lemma SummaryOnePassOneFail()
    ensures SummaryLine(1, 1) == "1 tests passed. 1 tests failed."
  {
    OneRendersAsOne();
    SummaryText();
  }

  lemma OneRendersAsOne()
    ensures NatToString(1) == "1"
  {
  }

  lemma SummaryText()
    ensures "1" + " tests passed. " + "1" + " tests failed." ==
            "1 tests passed. 1 tests failed."
  {
  }

  lemma ReportOnePassOneFail(passedName: string, failedName: string)
    ensures ReportLines(Ledger([passedName], [failedName])) ==
            ["1 tests passed. 1 tests failed.", "Failed tests: " + failedName]
  {
    SummaryOnePassOneFail();
    assert Join(", ", [failedName]) == failedName;
  }

  lemma FindUserQueriesDiffer()
    ensures "SELECT * FROM users WHERE name = \"Bob\"" !=
            "SELECT * FROM users WHERE name = \"Fred\" AND age = \"10\""
  {
    assert "SELECT * FROM users WHERE name = \"Bob\""[34] !=
           "SELECT * FROM users WHERE name = \"Fred\" AND age = \"10\""[34];
  }

  /** Two checks on a tester whose connection binds to `actual`: the first, against
      `actual`, passes and the second, against a different string, fails. */
  method CheckMatchThenMismatch(tester: Tester, actual: string, wrong: string,
                                name1: string, name2: string)
    requires tester.CanCheck() && tester.db.LastBoundQuery() == Formatted(actual)
    requires wrong != actual
    modifies tester
    ensures tester.db == old(tester.db) && tester.CanCheck()
    ensures tester.passedTests == old(tester.passedTests) + [name1]
    ensures tester.failedTests == old(tester.failedTests) + [name2]
    ensures tester.output == old(tester.output) +
              FormatLines(tester.browser, ["PASS: " + name1] + FailureLines(name2, wrong, actual))
  {
    var first, second := Check(name1, actual, actual), Check(name2, wrong, actual);
    assert CheckLines(first) == ["PASS: " + name1];
    assert CheckLines(second) == FailureLines(name2, wrong, actual);
    FormatLinesAppend(tester.browser, CheckLines(first), CheckLines(second));
    tester.CheckEqual(name1, actual);
    assert tester.db.LastBoundQuery() == Formatted(actual);
    tester.CheckEqual(name2, wrong);
  }

  /** A fresh tester on a fresh connection whose last statement is `template` executed
      with `values`. */
  method ConnectedTester(browser: bool, template: string, values: seq<string>) returns (tester: Tester)
    requires NoPercent(template)
    ensures fresh(tester) && tester.browser == browser
    ensures tester.passedTests == [] && tester.failedTests == [] && tester.output == []
    ensures tester.db != null && tester.db.lastQuery != null && tester.db.lastQuery.query == template
    ensures tester.db.LastBoundQuery() == BoundQuery(template, values)
  {
    var db := new DummyPDO();
    tester := new Tester(browser);
    tester.SetDb(db);
    var s := db.Prepare(template);
    s.Execute(values);
  }

  /** A check against the bound query followed by one against a different string, then
      the report: the first name passes, the second fails, and the printed lines are the
      pass line, the three failure lines and the two report lines. */
  method MatchThenMismatch(browser: bool, template: string, values: seq<string>,
                           actual: string, wrong: string, name1: string, name2: string)
    returns (passed: seq<string>, failed: seq<string>, lines: seq<string>)
    requires NoPercent(template) && BoundQuery(template, values) == Formatted(actual)
    requires wrong != actual
    ensures passed == [name1] && failed == [name2]
    ensures lines == FormatLines(browser, ["PASS: " + name1] +
                                          FailureLines(name2, wrong, actual) +
                                          ReportLines(Ledger([name1], [name2])))
  {
    var tester := ConnectedTester(browser, template, values);
    var checks := ["PASS: " + name1] + FailureLines(name2, wrong, actual);
    var report := ReportLines(Ledger([name1], [name2]));
    FormatLinesAppend(browser, checks, report);
    CheckMatchThenMismatch(tester, actual, wrong, name1, name2);
    assert tester.CurrentLedger() == Ledger([name1], [name2]);
    tester.Report();
    passed, failed, lines := tester.passedTests, tester.failedTests, tester.output;
  }

  lemma FindUserLines(actual: string, wrong: string)
    ensures ["PASS: " + "find user"] + FailureLines("find user wrong", wrong, actual) +
            ["1 tests passed. 1 tests failed.", "Failed tests: " + "find user wrong"] ==
            ["PASS: find user", "FAIL: find user wrong", "Expected: " + wrong, "Actual: " + actual,
             "1 tests passed. 1 tests failed.", "Failed tests: find user wrong"]
  {
    assert "PASS: " + "find user" == "PASS: find user";
    assert "FAIL: " + "find user wrong" == "FAIL: find user wrong";
    assert "Failed tests: " + "find user wrong" == "Failed tests: find user wrong";
  }

  /** The find-user example: one matching and one mismatching check, then the report. */
  method FindUser(browser: bool) returns (passed: seq<string>, failed: seq<string>, lines: seq<string>)
    ensures passed == ["find user"] && failed == ["find user wrong"]
    ensures lines == FormatLines(browser, [
              "PASS: find user",
              "FAIL: find user wrong",
              "Expected: " + "SELECT * FROM users WHERE name = \"Bob\"",
              "Actual: " + "SELECT * FROM users WHERE name = \"Fred\" AND age = \"10\"",
              "1 tests passed. 1 tests failed.",
              "Failed tests: find user wrong"])
  {
    var actual := "SELECT * FROM users WHERE name = \"Fred\" AND age = \"10\"";
    var wrong := "SELECT * FROM users WHERE name = \"Bob\"";
    FindUserQueriesDiffer();
    BindingExample();
    ReportOnePassOneFail("find user", "find user wrong");
    FindUserLines(actual, wrong);
    passed, failed, lines := MatchThenMismatch(browser, "SELECT * FROM users WHERE name = ? AND age = ?",
                                               ["Fred", "10"], actual, wrong, "find user", "find user wrong");
  }
}

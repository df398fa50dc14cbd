/** The Tester class: a ledger of passed and failed test names, checked against the bound
    query of the configured DummyPDO, and the lines it prints.

    PHP keeps the ledger in static properties; here it lives in one Tester object, and
    the lines it echoes are appended to its `output` field, each already formatted. */
module Harness {
  import opened Text
  import opened Binder
  import opened MockPdo

  /** format_line: a paragraph in a browser, a plain line on the command line. */
  function FormatLine(browser: bool, line: string): string
  {
    if browser then "<p>" + line + "</p>\n" else line + "\n"
  }

  /** The line a formatted line was made from. */
  function UnformatLine(browser: bool, text: string): string
  {
    if browser then
      (if |text| >= 8 then text[3..|text| - 5] else "")
    else
      (if |text| >= 1 then text[..|text| - 1] else "")
  }

  /** Formatting loses nothing: the line can be read back from what was printed. */
  lemma FormatLineRoundTrip(browser: bool, line: string)
    ensures UnformatLine(browser, FormatLine(browser, line)) == line
    ensures FormatLine(browser, line)[|FormatLine(browser, line)| - 1] == '\n'
  {
    var text := FormatLine(browser, line);
    if browser {
      assert text == "<p>" + line + "</p>\n";
      assert text[3..|text| - 5] == line;
    } else {
      assert text[..|text| - 1] == line;
    }
  }

  /** One check_equal call: the test name, the expected query and the actual bound query. */
  datatype Check = Check(name: string, expected: string, actual: string)
  {
    predicate Passed() { expected == actual }
  }

  datatype Ledger = Ledger(passed: seq<string>, failed: seq<string>)

  const EmptyLedger := Ledger([], [])

  /** The effect of one check on the ledger: its name goes to exactly one of the lists. */
  function Record(ledger: Ledger, check: Check): Ledger
  {
    if check.Passed() then ledger.(passed := ledger.passed + [check.name])
    else ledger.(failed := ledger.failed + [check.name])
  }

  /** Recording a check extends exactly one list by its name, and it is the passed list
      exactly when the check matched. */
  lemma RecordFilesOnce(ledger: Ledger, check: Check)
    ensures var r := Record(ledger, check);
            ((r.passed == ledger.passed + [check.name] && r.failed == ledger.failed) ||
             (r.failed == ledger.failed + [check.name] && r.passed == ledger.passed)) &&
            (check.Passed() <==> |r.passed| > |ledger.passed|)
  {
  }

  /** The ledger after a run of checks, recorded one after the other. */
  function Replay(ledger: Ledger, checks: seq<Check>): Ledger
    decreases |checks|
  {
    if checks == [] then ledger else Replay(Record(ledger, checks[0]), checks[1..])
  }

  /** Names of the passing checks, in call order (duplicates kept). */
  function Passes(checks: seq<Check>): seq<string>
  {
    if checks == [] then []
    else (if checks[0].Passed() then [checks[0].name] else []) + Passes(checks[1..])
  }

  /** Names of the failing checks, in call order (duplicates kept). */
  function Failures(checks: seq<Check>): seq<string>
  {
    if checks == [] then []
    else (if checks[0].Passed() then [] else [checks[0].name]) + Failures(checks[1..])
  }

  function Names(checks: seq<Check>): seq<string>
  {
    if checks == [] then [] else [checks[0].name] + Names(checks[1..])
  }

  /** Recording a run of checks appends the passing names to one list and the failing
      names to the other, each in call order. */
  lemma {:induction false} ReplayAppends(ledger: Ledger, checks: seq<Check>)
    decreases |checks|
    ensures Replay(ledger, checks) ==
            Ledger(ledger.passed + Passes(checks), ledger.failed + Failures(checks))
  {
    if checks != [] {
      var c := checks[0];
      ReplayAppends(Record(ledger, c), checks[1..]);
      if c.Passed() {
        assert ledger.passed + [c.name] + Passes(checks[1..]) == ledger.passed + Passes(checks);
        assert ledger.failed + Failures(checks[1..]) == ledger.failed + Failures(checks);
      } else {
        assert ledger.failed + [c.name] + Failures(checks[1..]) == ledger.failed + Failures(checks);
        assert ledger.passed + Passes(checks[1..]) == ledger.passed + Passes(checks);
      }
    }
  }

  /** Every check lands in exactly one list: together the lists hold each name once per call. */
  lemma {:induction false} PassesFailuresPartition(checks: seq<Check>)
    ensures |Passes(checks)| + |Failures(checks)| == |checks|
    ensures multiset(Passes(checks)) + multiset(Failures(checks)) == multiset(Names(checks))
  {
    if checks != [] {
      PassesFailuresPartition(checks[1..]);
    }
  }

  /** A name is among the passes exactly when some call with that name matched. */
  lemma {:induction false} PassesMembership(checks: seq<Check>, name: string)
    ensures name in Passes(checks) <==>
            exists i :: 0 <= i < |checks| && checks[i].name == name && checks[i].Passed()
  {
    if checks != [] {
      PassesMembership(checks[1..], name);
      assert forall i :: 1 <= i < |checks| ==> checks[1..][i - 1] == checks[i];
    }
  }

  /** A name is among the failures exactly when some call with that name did not match. */
  lemma {:induction false} FailuresMembership(checks: seq<Check>, name: string)
    ensures name in Failures(checks) <==>
            exists i :: 0 <= i < |checks| && checks[i].name == name && !checks[i].Passed()
  {
    if checks != [] {
      FailuresMembership(checks[1..], name);
      assert forall i :: 1 <= i < |checks| ==> checks[1..][i - 1] == checks[i];
    }
  }

  /** The unformatted lines report_failure prints. */
  function FailureLines(name: string, expected: string, actual: string): seq<string>
  {
    ["FAIL: " + name, "Expected: " + expected, "Actual: " + actual]
  }

  /** The failure lines give back the test name and both queries, each after its label. */
  lemma FailureLinesReadBack(name: string, expected: string, actual: string)
    ensures var r := FailureLines(name, expected, actual);
            |r| == 3 && |r[0]| == 6 + |name| && |r[1]| == 10 + |expected| && |r[2]| == 8 + |actual| &&
            r[0][6..] == name && r[1][10..] == expected && r[2][8..] == actual
  {
  }

  /** The unformatted lines check_equal prints for one check. */
  function CheckLines(check: Check): seq<string>
  {
    if check.Passed() then ["PASS: " + check.name]
    else FailureLines(check.name, check.expected, check.actual)
  }

  function SummaryLine(passedCount: nat, failedCount: nat): string
  {
    NatToString(passedCount) + " tests passed. " + NatToString(failedCount) + " tests failed."
  }

  /** Rearranges a labelled pair of counts as a count followed by the rest. */
  lemma LabelledCountsSplit(mid: string, end: string, passed: nat, failed: nat)
    ensures NatToString(passed) + mid + NatToString(failed) + end ==
            NatToString(passed) + (mid + (NatToString(failed) + end))
    ensures (mid + (NatToString(failed) + end))[|mid|..] == NatToString(failed) + end
  {
    assert NatToString(passed) + mid + NatToString(failed) + end ==
           NatToString(passed) + (mid + (NatToString(failed) + end));
  }

  /** Two counts rendered between labels that start with a non-digit are determined by
      the text. */
  lemma LabelledCountsInjective(mid: string, end: string,
                                passed1: nat, failed1: nat, passed2: nat, failed2: nat)
    requires mid != [] && !IsDigit(mid[0]) && end != [] && !IsDigit(end[0])
    requires NatToString(passed1) + mid + NatToString(failed1) + end ==
             NatToString(passed2) + mid + NatToString(failed2) + end
    ensures passed1 == passed2 && failed1 == failed2
  {
    LabelledCountsSplit(mid, end, passed1, failed1);
    LabelledCountsSplit(mid, end, passed2, failed2);
    NumberPrefixUnique(passed1, passed2, mid + (NatToString(failed1) + end), mid + (NatToString(failed2) + end));
    NumberPrefixUnique(failed1, failed2, end, end);
  }

  /** The summary line determines both counts. */
  lemma SummaryLineInjective(passed1: nat, failed1: nat, passed2: nat, failed2: nat)
    requires SummaryLine(passed1, failed1) == SummaryLine(passed2, failed2)
    ensures passed1 == passed2 && failed1 == failed2
  {
    LabelledCountsInjective(" tests passed. ", " tests failed.", passed1, failed1, passed2, failed2);
  }

  /** The unformatted lines report prints for a ledger. */
  function ReportLines(ledger: Ledger): seq<string>
  {
    [SummaryLine(|ledger.passed|, |ledger.failed|)] +
    (if |ledger.failed| != 0 then ["Failed tests: " + Join(", ", ledger.failed)] else [])
  }

  function FormatLines(browser: bool, lines: seq<string>): seq<string>
  {
    seq(|lines|, i requires 0 <= i < |lines| => FormatLine(browser, lines[i]))
  }

  lemma FormatLinesAppend(browser: bool, a: seq<string>, b: seq<string>)
    ensures FormatLines(browser, a + b) == FormatLines(browser, a) + FormatLines(browser, b)
  {
  }

  /** Every failed name appears, whole, in the report's second line. */
  lemma ReportNamesFailures(ledger: Ledger, i: nat)
    requires i < |ledger.failed|
    ensures |ReportLines(ledger)| == 2
    ensures exists k: nat :: OccursAt(ledger.failed[i], ReportLines(ledger)[1], k)
  {
    var joined := Join(", ", ledger.failed);
    JoinContains(", ", ledger.failed, i);
    var k: nat :| OccursAt(ledger.failed[i], joined, k);
    var prefix := "Failed tests: ";
    var line := prefix + joined;
    assert ReportLines(ledger)[1] == line;
    assert line[|prefix| + k..|prefix| + k + |ledger.failed[i]|] == joined[k..k + |ledger.failed[i]|];
    assert OccursAt(ledger.failed[i], line, |prefix| + k);
  }

  /** The report after a run of checks on a fresh ledger: the numbers of matching and
      mismatching calls, then, only when there were mismatches, their names in call order. */
  lemma ReportAfterChecks(checks: seq<Check>)
    ensures var report := ReportLines(Replay(EmptyLedger, checks));
            |Passes(checks)| + |Failures(checks)| == |checks| &&
            report[0] == SummaryLine(|Passes(checks)|, |Failures(checks)|) &&
            (Failures(checks) == [] ==> |report| == 1) &&
            (Failures(checks) != [] ==>
               |report| == 2 && report[1] == "Failed tests: " + Join(", ", Failures(checks)))
  {
    ReplayAppends(EmptyLedger, checks);
    assert Replay(EmptyLedger, checks) == Ledger(Passes(checks), Failures(checks));
    PassesFailuresPartition(checks);
  }

  /** Tester. */
  class Tester {
    /** Whether the script runs under a web server (PHP sees an HTTP user agent). */
    const browser: bool
    var passedTests: seq<string>
    var failedTests: seq<string>
    var db: DummyPDO?
    /** Everything echoed so far, one formatted line per element. */
    var output: seq<string>

    constructor (browser: bool)
      ensures this.browser == browser
      ensures passedTests == [] && failedTests == [] && db == null && output == []
    {
      this.browser := browser;
      passedTests, failedTests := [], [];
      db := null;
      output := [];
    }

    function CurrentLedger(): Ledger
      reads this
    {
      Ledger(passedTests, failedTests)
    }

    /** The comparisons of check_equal need a prepared statement whose bound query can be
        formed. */
    predicate CanCheck()
      reads this, db, if db != null then {db.lastQuery} else {}
    {
      db != null && db.lastQuery != null && NoPercent(db.lastQuery.query) &&
      db.LastBoundQuery().Formatted?
    }

    method SetDb(db: DummyPDO)
      modifies this`db
      ensures this.db == db
    {
      this.db := db;
    }

    method ReportPass(testName: string)
      modifies this`passedTests, this`output
      ensures passedTests == old(passedTests) + [testName]
      ensures output == old(output) + [FormatLine(browser, "PASS: " + testName)]
    {
      output := output + [FormatLine(browser, "PASS: " + testName)];
      passedTests := passedTests + [testName];
    }

    method ReportFailure(testName: string, query: string)
      requires CanCheck()
      modifies this`failedTests, this`output
      ensures failedTests == old(failedTests) + [testName]
      ensures output == old(output) + FormatLines(browser,
                FailureLines(testName, query, db.LastBoundQuery().text))
    {
      var fail := FormatLine(browser, "FAIL: " + testName);
      output := output + [fail];
      var expected := FormatLine(browser, "Expected: " + query);
      output := output + [expected];
      var actual := db.GetLastQuery();
      var shown := FormatLine(browser, "Actual: " + actual.text);
      output := output + [shown];
      failedTests := failedTests + [testName];
      assert FormatLines(browser, FailureLines(testName, query, actual.text)) == [fail, expected, shown];
    }

    /** Prints the counts and, only when something failed, the failed names. */
    method Report()
      modifies this`output
      ensures output == old(output) + FormatLines(browser, ReportLines(CurrentLedger()))
    {
      var passedCount := |passedTests|;
      var failedCount := |failedTests|;
      output := output + [FormatLine(browser, SummaryLine(passedCount, failedCount))];
      if failedCount != 0 {
        output := output + [FormatLine(browser, "Failed tests: " + Join(", ", failedTests))];
      }
    }

    /** Records `testName` as passed when `query` equals the bound query of the last
        prepared statement and as failed otherwise, printing the outcome. */
    method CheckEqual(testName: string, query: string)
      requires CanCheck()
      modifies this`passedTests, this`failedTests, this`output
      ensures var check := Check(testName, query, db.LastBoundQuery().text);
              CurrentLedger() == Record(old(CurrentLedger()), check) &&
              output == old(output) + FormatLines(browser, CheckLines(check))
    {
      var lastQuery := db.GetLastQuery();
      if query == lastQuery.text {
        ReportPass(testName);
      } else {
        ReportFailure(testName, query);
      }
    }
  }
}

# Idiorm test doubles: PDO mock and test ledger, in Dafny

Idiorm's test suite does not talk to a database. It uses `DummyPDO` and
`DummyPDOStatement`, two test doubles for PHP's PDO classes, and a small `Tester`
class that records which tests passed and which failed. A test builds a query
through the library, then asks `Tester::check_equal` whether the SQL the library
would have sent (the template with each `?` replaced by its bound value in double
quotes) equals the expected string.

This project models those three classes and proves what they promise:

- `Binder` is the pure part of `get_bound_query`. `str_replace` turns every `?`
  into `%s`, every value is wrapped in quotes, and a `vsprintf` restricted to `%s`
  fills in the values. Its result is proved equal to a direct left-to-right
  substitution (`Substitute`). Binding is proved to fail exactly when there are
  fewer values than placeholders, and surplus values are proved to be ignored.
- `MockPdo` holds the two PDO doubles as classes with the source's fields:
  - `DummyPDOStatement` replaces its parameters on every `Execute`.
  - Its `Fetch` is the counter state machine: four rows, then `false` forever.
  - `GetBoundQuery` builds the quoted values in a loop, as the source does, and is
    proved against `BoundQuery`.
  - `DummyPDO.Prepare` overwrites the last statement.
- `Harness` holds the `Tester` class plus a pure ledger specification (`Record`,
  `Replay`, `Passes`, `Failures`). The specification proves that a run of checks
  files each name in exactly one list, in call order, and that the report shows
  those counts and names.
- `Text` holds counting, `join` and the decimal rendering of counts, with a
  parse-back round trip.
- `Scenarios` holds client methods that drive the classes as a test script
  would. They cover overwriting, repeated `get_bound_query` calls, six fetches,
  re-preparing, and the find-user example: one matching and one mismatching check,
  then the report.

The environment is modelled like this:

- The ambient `$_SERVER['HTTP_USER_AGENT']` test becomes the `browser` flag. It
  is fixed when a `Tester` is constructed.
- `echo` becomes appending to `Tester.output`, one formatted line per element.
- PHP's static properties become the fields of one `Tester` object.
- Bound values are strings.

## Model

| member | source | states |
|---|---|---|
| `Binder.ReplacePlaceholders` | test/test_classes.php:46 | `str_replace("?", "%s", …)` leaves no `?`; on a `%`-free template every `%` of the result starts a `%s`, and there are as many as the template had placeholders |
| `Binder.Quote` | test/test_classes.php:51 | a quoted value is the value between two double quotes, recoverable by dropping the first and last character |
| `Binder.QuoteAllAppend` | test/test_classes.php:48-52 | `QuoteAll`, the quoted-values array the loop builds: quoting a concatenation of value lists quotes each part where it stands, which is the step the loop in `GetBoundQuery` takes and the step `vsprintf` takes when it consumes one value |
| `Binder.Format` | test/test_classes.php:53 | `vsprintf` over a format whose only directive is `%s`: it fails (`TooFewArguments`) exactly when there are fewer arguments than directives; `BoundQueryIsSubstitute` gives the text it produces otherwise |
| `Binder.BoundQuery` | test/test_classes.php:44-54 | the value `get_bound_query` returns: `TooFewArguments` exactly when there are fewer values than placeholders; `BoundQueryIsSubstitute` gives the full result |
| `Binder.BoundQueryIsSubstitute` | test/test_classes.php:44-54 | on a `%`-free template, binding yields `TooFewArguments` exactly when there are fewer values than placeholders, and otherwise the left-to-right substitution of quoted values |
| `Binder.SubstituteAppend` | test/test_classes.php:53 | binding a concatenated template binds the second part with the values the first part did not consume |
| `Binder.SubstituteLiteral` | test/test_classes.php:53 | a template without placeholders is returned unchanged |
| `Binder.NthPlaceholder` | test/test_classes.php:44-54 | the placeholder preceded by i others becomes value i in double quotes, with the text before and after it bound to the values before and after i |
| `Binder.SubstituteIgnoresExtra` | test/test_classes.php:53 | values beyond the placeholder count do not affect the substitution |
| `Binder.BoundQueryIgnoresExtra` | test/test_classes.php:46-53 | the bound query with surplus values equals the bound query with exactly as many values as placeholders |
| `Binder.NoPlaceholderRemains` | test/test_classes.php:44-54 | if the values used contain no `?`, the bound query contains no `?` |
| `Binder.ExactBinding` | test/test_classes.php:44-54 | with exactly k values for k placeholders (values free of `?`), binding succeeds and no character of the result is `?` |
| `Binder.TwoPlaceholders` | test/test_classes.php:44-54 | `p1 ? p2 ?` bound to `[a, b]` is `p1 "a" p2 "b"` |
| `Binder.BindTwoPlaceholders` | test/test_classes.php:44-54 | the same through `str_replace`, quoting and `vsprintf` |
| `Binder.BindingExample` | test/test_classes.php:44-54 | `SELECT * FROM users WHERE name = ? AND age = ?` with `["Fred", "10"]` binds to `… name = "Fred" AND age = "10"` |
| `Text.NatToString` | test/test_classes.php:144 | the interpolated count is a non-empty string of decimal digits with no leading zero |
| `Text.ParseNatToString` | test/test_classes.php:144 | the printed count reads back as the count |
| `Text.NatToStringInjective` | test/test_classes.php:144 | different counts print differently |
| `Text.JoinSnoc` | test/test_classes.php:147 | `Join`, PHP `join`: joining one more failed name appends `", "` and that name |
| `Text.JoinContains` | test/test_classes.php:147 | `Join`: every element of the list occurs, whole, in the joined text |
| `Text.NumberPrefixUnique` | test/test_classes.php:144 | a rendered count followed by text starting with a non-digit determines both the count and that text |
| `MockPdo.FetchStep` | test/test_classes.php:27-34 | a fetch returns the fake row and advances the counter exactly when the counter is below 5; at 5 it returns `false` and the counter stays 5; the counter stays within 1..5 |
| `MockPdo.FetchesBoundary` | test/test_classes.php:17-34 | from counter c, the first 5 − c fetches return the fake row and every later one `false`; a fresh statement (c = 1) gives four rows |
| `MockPdo.DummyPDOStatement.constructor` | test/test_classes.php:15-21 | stores the template, with no parameters and the row counter at 1 |
| `MockPdo.DummyPDOStatement.Execute` | test/test_classes.php:23-25 | the stored parameters become exactly the argument (the empty array when called without one); nothing else changes |
| `MockPdo.DummyPDOStatement.Fetch` | test/test_classes.php:27-34 | result and new counter are `FetchStep` of the old counter; the parameters are untouched |
| `MockPdo.DummyPDOStatement.GetQuery` | test/test_classes.php:36-38 | returns the template; `query` is a constant, so no call changes it |
| `MockPdo.DummyPDOStatement.GetParameters` | test/test_classes.php:40-42 | returns the last stored parameters |
| `MockPdo.DummyPDOStatement.GetBoundQuery` | test/test_classes.php:44-54 | the loop over the parameters builds the quoted values, and the result is `BoundQuery(query, inputParameters)`; no field is modified |
| `MockPdo.DummyPDO.constructor` | test/test_classes.php:66-69 | a new connection has no last statement; the connection string is ignored |
| `MockPdo.DummyPDO.Prepare` | test/test_classes.php:74-77 | returns a fresh statement for the template (no parameters, counter 1) and makes it the last query |
| `MockPdo.DummyPDO.LastBoundQuery` | test/test_classes.php:84 | the bound query of the last prepared statement, which fails exactly when that statement holds fewer parameters than placeholders |
| `MockPdo.DummyPDO.GetLastQuery` | test/test_classes.php:83-85 | the bound query of the statement most recently prepared |
| `Harness.FormatLineRoundTrip` | test/test_classes.php:112-118 | `FormatLine`, PHP `format_line`: a formatted line ends in a newline and the original line can be read back, in both the browser and the command-line form |
| `Harness.RecordFilesOnce` | test/test_classes.php:155-162 | `Record`, the ledger update of one `check_equal`: exactly one list grows, by the test name, and it is the passed list exactly when the check matched |
| `Harness.ReplayAppends` | test/test_classes.php:125-135 | recording a run of checks appends the matching names to the passed list and the others to the failed list, each in call order |
| `Harness.PassesFailuresPartition` | test/test_classes.php:155-162 | every check lands in exactly one list: the two lengths add up to the number of checks, and the two lists together hold each called name once per call |
| `Harness.PassesMembership` | test/test_classes.php:155-162 | a name is in the passed list iff some call with that name matched |
| `Harness.FailuresMembership` | test/test_classes.php:155-162 | a name is in the failed list iff some call with that name did not match |
| `Harness.FailureLinesReadBack` | test/test_classes.php:131-134 | `FailureLines`, the three lines `report_failure` prints: they give back the test name, the expected query and the actual query, each after its label |
| `Harness.SummaryLineInjective` | test/test_classes.php:144 | `SummaryLine`, the first line `report` prints: different pairs of counts give different summary lines |
| `Harness.ReportNamesFailures` | test/test_classes.php:146-148 | `ReportLines`, the lines `report` prints: with a failure there are two lines, and every failed name occurs, whole, in the second |
| `Harness.ReportAfterChecks` | test/test_classes.php:141-149 | `ReportLines` after a run of checks the report's first line gives the numbers of matches and mismatches, and a second line listing the mismatched names in call order appears iff there was a mismatch |
| `Harness.Tester.constructor` | test/test_classes.php:95-97 | both lists and the output are empty and no connection is set |
| `Harness.Tester.SetDb` | test/test_classes.php:103-105 | sets the connection and nothing else |
| `Harness.Tester.ReportPass` | test/test_classes.php:123-126 | appends the name to the passed list and prints `PASS: name` |
| `Harness.Tester.ReportFailure` | test/test_classes.php:131-136 | appends the name to the failed list and prints `FAIL: name`, `Expected: q` and `Actual: <bound query>` |
| `Harness.Tester.Report` | test/test_classes.php:141-149 | prints the summary line and, only when something failed, the failed names joined by `", "`; the lists are not modified |
| `Harness.Tester.CheckEqual` | test/test_classes.php:155-162 | the ledger becomes `Record` of the old ledger and this check (the name goes to `passed` iff the query equals the last bound query, else to `failed`; the other list is unchanged), and the printed lines are those of `ReportPass` or `ReportFailure` |
| `Scenarios.ExecuteOverwrites` | test/test_classes.php:19-42 | after `execute(V1); execute(V2)` the parameters are V2, after `execute()` they are empty, and the template is the constructor's |
| `Scenarios.BoundQueryTwice` | test/test_classes.php:44-54 | two consecutive `get_bound_query` calls return the same result |
| `Scenarios.FetchSixTimes` | test/test_classes.php:27-34 | on a fresh statement, calls 1–4 return the fake row and calls 5 and 6 return `false` |
| `Scenarios.PrepareForgetsEarlier` | test/test_classes.php:74-85 | after a second `prepare`, executing the first statement does not change what the connection reports |
| `Scenarios.SummaryOnePassOneFail` | test/test_classes.php:144 | one pass and one failure give `1 tests passed. 1 tests failed.` |
| `Scenarios.ReportOnePassOneFail` | test/test_classes.php:141-149 | the report for one pass and one failure is the summary line plus `Failed tests: <name>` |
| `Scenarios.ConnectedTester` | test/test_classes.php:19-25 | a fresh tester on a fresh connection whose last statement is the template executed with the values: its bound query is `BoundQuery` of those two |
| `Scenarios.CheckMatchThenMismatch` | test/test_classes.php:123-162 | on a connection that binds to `actual`, a check against `actual` passes and a check against a different string fails, with the matching printed lines |
| `Scenarios.MatchThenMismatch` | test/test_classes.php:123-162 | a matching then a mismatching check, then a report: one name in each list, and the printed lines in order |
| `Scenarios.FindUser` | test/test_classes.php:123-162 | the find-user example, one matching and one mismatching check, then the report: `find user` passes, `find user wrong` fails, and the expected and actual queries appear in the printed failure |

## Left out

- `DummyPDO::setAttribute` and `DummyPDO::lastInsertId` (test/test_classes.php:71-81): a no-op and a constant 0; there is nothing to state about them.
- General `vsprintf` directive parsing: only `%s` is modelled, so templates must contain no `%` (`NoPercent`). A literal `%` would be read as a directive by PHP.
- The too-few-values case: `Format` returns `TooFewArguments`, and `BoundQueryIsSubstitute` proves when that happens. PHP's own behaviour there depends on the version: PHP 7 returns `false` with a warning, PHP 8 throws. For that reason `Tester.CheckEqual` and `Tester.ReportFailure` require (`CanCheck`) that the last statement's bound query can be formed.
- `Harness.Tester.CheckEqual`: compares with exact string equality, not PHP's loose `==` (test/test_classes.php:157), under which two numeric strings compare as numbers.
- Values are strings; PHP's conversion of other scalar types to strings is not modelled.
- `Harness.Tester.CheckEqual`, `Harness.Tester.ReportFailure`: calling `check_equal` or `report_failure` before `set_db` makes PHP call a method on null, because `self::$db` starts out null (test/test_classes.php:97). The precondition `CanCheck` demands `db != null`, so the model excludes that call rather than modelling the failure.
- Calling `get_last_query` before any `prepare` dereferences null in PHP. It is excluded by the precondition `lastQuery != null`.
- The unused local `$last_query` at test/test_classes.php:156 has no effect and is not modelled.
- `$_SERVER['HTTP_USER_AGENT']` is read on every `format_line` call. Here it is the `browser` constant of a `Tester`, assumed fixed for the run.
- `echo` writes to the standard output. Here it appends to `Tester.output`.

Behaviours of the code that the model keeps as written:

- There is no dedicated error for a count mismatch. `vsprintf` decides what happens.
- `execute()` without an argument stores the empty array (test/test_classes.php:23).
- A new statement starts with no parameters (test/test_classes.php:16). So `get_bound_query`
  succeeds on a template without placeholders before any `execute`.
- The failed list stores only test names. The expected and actual strings are
  printed but not stored.

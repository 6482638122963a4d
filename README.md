# Allure suite reshaper — Dafny model

`AllureSuiteParser` reads the data of a generated Allure HTML report. That data is a suite index (`data/suites.json`) and one JSON document per test case (`data/test-cases/<uid>.json`). The parser turns it into a normalised `{"test-suites": [...]}` report:

- The walk over the index is recursive and order-preserving.
- A child with a `children` key is a sub-suite. It is parsed on its own, and its suites are spliced into the same flat list, ahead of the parent's own record.
- Any other child is a test-case reference. It is resolved by `uid` against the case documents; a reference with an empty uid, or with no document, is skipped.
- A suite keeps a running numeric minimum of its direct cases' `start` and a running maximum of their `stop`.
- Suites that resolved no case of their own are dropped.
- A case record maps the document's fields with defaults. Its severity is the first `severity` label, otherwise `"normal"`. Its steps are a recursive, shape-preserving map of the stage's nested steps.

## Layout

- `wrappers.dfy`: `Option` and `Result`.
- `decimal.dfy`: `str(n)` and `int(s)` on natural numbers, with both round trips.
- `documents.dfy`: the decoded inputs (index nodes, case and step documents) and the output records (`Suite`, `Case`, `Step`, `Report`). It also holds the `""`-or-digits rendering of a time field.
- `measures.dfy`: sums and maxima of natural-number lists, used as sizes and depths.
- `severity.dfy`: `_get_severity` as a function, the loop method proved against it, and the first-match lemmas.
- `steps.dfy`: `_parse_steps` as a function, the loop method proved against it, and lemmas on length, count, depth and field defaults.
- `suites.dfy`: the parser as a datatype over the index and the case store.
  - `Open` models the constructor's check.
  - Specification functions model the walk (`SuitesOf`, `SuiteEntries`, `SubSuitesOf`, `DirectCases`, `CaseOf`).
  - The methods `Parse`, `ParseSuites`, `ParseEntry`, `AddCase` and `ParseTestCase` are the imperative code. Each is proved equal to its specification function.
  - Lemmas state the properties of the output.
- `scenarios.dfy`: two small report directories worked through end to end.

The file system is a value. `ReportDir` holds the decoded suite index, which is `None` when `suites.json` does not exist, and a map from uid to decoded case document. The map's key set is the set of existing `test-cases/<uid>.json` files.

A time field is an `Option<nat>`. It is rendered as `""` when absent, or as the decimal digits of the number. `int()` on such a rendering is `ParseDecimal`, and `ParseDecimalString` proves that it gives back the number.

Two points of the code that are easy to misread:

- A child counts as a sub-suite when it has a `children` key at all, even an empty one. The key is tested for presence only (allure_html.py:45, 47).
- A suite's `start`/`stop` come only from its direct cases, never from cases inside its sub-suites (allure_html.py:52-62).

## Model

| member | source | states |
|---|---|---|
| SuiteParser.Open | allure_html.py:6-15 | The parser is created exactly when `suites.json` exists, and it then captures that index and the case documents unchanged; a missing suites file is the error result. |
| SuiteParser.Parser.Parse | allure_html.py:17-26 | The report is the walk over the index's top-level `children` (none when the key is absent); every emitted suite is well formed; the multiset of all reported cases equals the multiset of cases resolved anywhere under the index. |
| SuiteParser.Parser.Output | allure_html.py:17-26 | The report over the index's top-level `children` holds only well-formed suites, and reports every case resolved under the index exactly once. |
| SuiteParser.Parser.ParseSuites | allure_html.py:28-67 | The loop over the entries appends each entry's suites in entry order, giving exactly `SuitesOf(entries)`. |
| SuiteParser.Parser.ParseEntry | allure_html.py:32-65 | The body for one entry walks its children in order, splicing sub-suite results and collecting resolved cases with the running start/stop; the result is exactly `SuiteEntries(entry)`. |
| SuiteParser.Parser.AddCase | allure_html.py:52-62 | A child case reference adds its record to the suite's cases when it resolves, and the running start/stop stay the minimum/maximum bound of the cases so far. |
| SuiteParser.Parser.SuiteEntries | allure_html.py:32-65 | Every suite the walk yields for one node is well formed: non-empty cases, description `""`, status `"passed"`, start/stop the bounds of its cases. |
| SuiteParser.Parser.SubSuitesOf | allure_html.py:45-51 | The suites spliced in from sub-suite children are all well formed. |
| SuiteParser.Parser.SuitesOf | allure_html.py:28-67 | The flat list for a list of entries is all well formed. |
| SuiteParser.Parser.SuitesOfAppend | allure_html.py:32 | The walk over two lists of entries is the walk over the first followed by the walk over the second, so entry order is kept. |
| SuiteParser.Parser.DirectCases | allure_html.py:52-56 | A suite's cases number at most its children, and their times are all `""` or numerals. |
| SuiteParser.Parser.DirectCasesNone | allure_html.py:52-65 | A suite has no cases exactly when every child is a sub-suite or a reference that does not resolve, which is when its own record is dropped. |
| SuiteParser.Parser.DirectCasesAppend | allure_html.py:52-56 | A suite's cases are its resolved direct references in input order: those of a prefix of the children followed by those of the rest. |
| SuiteParser.Parser.SubSuitesOfAppend | allure_html.py:46-51 | Sub-suite results are spliced in child order. |
| SuiteParser.Parser.SubSuiteBlock | allure_html.py:47-51 | The suites of a sub-suite child form one contiguous block, placed after those of earlier children, before those of later children, and before the parent's own record. |
| SuiteParser.Parser.OwnEntryLast | allure_html.py:64-65 | When a node resolves a direct case, its own record is the last suite it yields, carries its name, and holds exactly its direct cases. |
| SuiteParser.Parser.ReferenceYieldsNoSuite | allure_html.py:44-45 | A direct consequence of the definitions: an index entry without a `children` key yields no suite. |
| SuiteParser.Parser.SkippedReferenceIgnored | allure_html.py:54-56 | Inserting a case reference that does not resolve anywhere among a suite's children leaves the suites it yields, their cases and their start/stop, unchanged. |
| SuiteParser.Parser.SkippedContributesNothing | allure_html.py:71-77 | A direct consequence of the definitions: a reference with an empty or missing uid, or one without a document, contributes no case and no sub-suite. |
| SuiteParser.Parser.SubSuitesWithout | allure_html.py:46-51 | A child that yields no suite can be removed from the children without changing the spliced sub-suites. |
| SuiteParser.Parser.DirectCasesWithout | allure_html.py:54-56 | A child that resolves no case can be removed from the children without changing the suite's cases. |
| SuiteParser.Parser.CasesReportedOnce | allure_html.py:32-65 | Every case resolved anywhere under a node appears exactly once among the suites it yields: the multisets are equal. |
| SuiteParser.Parser.ChildCasesReportedOnce | allure_html.py:45-56 | Over a list of children, the cases in the spliced sub-suites plus the direct cases are exactly the cases resolved under those children. |
| SuiteParser.Parser.IndexCasesReportedOnce | allure_html.py:28-67 | Over the whole index, the reported cases are exactly the resolved cases, none lost and none duplicated. |
| SuiteParser.Parser.ParseTestCase | allure_html.py:69-96 | Resolving a reference gives `None` for an empty or missing uid or a missing document, and otherwise the mapped case record. |
| SuiteParser.Parser.CaseOf | allure_html.py:71-77 | A reference yields a case exactly when its uid is non-empty and has a document, and the case is the record of that document. |
| SuiteParser.CaseRecord | allure_html.py:83-94 | The case's name is the document's `fullName`, and its title, description and status are copied; each defaults to `""`. The case's start/stop read back to the document's `time.start`/`time.stop` (absent gives `""`); its severity is the first-match severity of its labels; labels and parameters pass through, defaulting to `[]`; its steps are the parse of `testStage.steps`, one per input step. |
| SuiteParser.Earlier | allure_html.py:59-60 | One update of a suite's start gives the earlier of the current start and the case's start. It is one of the two, `""` only when both are `""`, and numerically no later than either non-empty one. |
| SuiteParser.Later | allure_html.py:61-62 | One update of a suite's stop gives the later of the current stop and the case's stop. It is one of the two, `""` only when both are `""`, and numerically no earlier than either non-empty one. |
| SuiteParser.StartBound | allure_html.py:59-60 | A suite's start is the `Earlier` fold over its cases in order, and is always `""` or a numeral. `StartBoundIsMinimum` shows it is the minimum. |
| SuiteParser.StopBound | allure_html.py:61-62 | A suite's stop is the `Later` fold over its cases in order, and is always `""` or a numeral. `StopBoundIsMaximum` shows it is the maximum. |
| SuiteParser.StartBoundIsMinimum | allure_html.py:39-40 | A suite's `start` is `""` exactly when no direct case has a start; otherwise it is a copy of some case's start, and no case's start is numerically smaller. |
| SuiteParser.StopBoundIsMaximum | allure_html.py:39-40 | A suite's `stop` is `""` exactly when no direct case has a stop; otherwise it is a copy of some case's stop, and no case's stop is numerically larger. |
| SuiteParser.BoundsAppend | allure_html.py:59-62 | A helper that unfolds `StartBound`/`StopBound` at one more case: the bounds move by one `Earlier`/`Later` step. |
| SuiteParser.OwnEntry | allure_html.py:64-65 | A suite's own record is emitted exactly when it has cases, and it is well formed. |
| SuiteParser.AllCasesAppend | allure_html.py:51 | The cases of two concatenated suite lists are the cases of the first followed by those of the second. |
| Severity.GetSeverity | allure_html.py:98-103 | The severity is the value of the first label named `severity`, `"normal"` when that label has no value, and `"normal"` when no such label exists. |
| Severity.SeverityOf | allure_html.py:98-103 | The severity is either `"normal"` or the value of the first severity label. `SeverityOfFirstMatch` and `SeverityOfNoMatch` pin down which. |
| Severity.SeverityOfFirstMatch | allure_html.py:100-102 | The first severity label decides the severity. |
| Severity.SeverityOfNoMatch | allure_html.py:103 | Without a severity label the severity is `"normal"`. |
| Severity.SeverityIgnoresLaterLabels | allure_html.py:100-102 | Labels after a severity label never change the severity. |
| Steps.ParseSteps | allure_html.py:105-121 | One output step per input step, in the same order, each the recursive parse of that input step. |
| Steps.StepOf | allure_html.py:110-118 | A step's name/title/status default to `""`; its start/stop read back to the input times; attachments pass through, defaulting to `[]`; it has as many nested steps as the input, so an empty nested list stays empty. |
| Steps.StepsOf | allure_html.py:105-121 | A list of steps normalises to as many steps, and the total number of steps at every depth is unchanged. |
| Steps.StepDepthPreserved | allure_html.py:117 | Parsing keeps the nesting depth of a step tree. |
| Steps.StepCountPreserved | allure_html.py:117 | Parsing keeps the total number of steps in a step tree. |
| Documents.TimeText | allure_html.py:89-90 | A rendered time field is `""` exactly when the field is absent, and otherwise a decimal numeral. |
| Documents.TimeValueOfText | allure_html.py:89-90 | Reading a rendered time field back gives the original field. |
| Decimal.DecimalString | allure_html.py:89-90 | `str(n)` is a canonical decimal numeral: digits only, with no leading zero. |
| Decimal.ParseDecimal | allure_html.py:59-62 | `int(s)` on a numeral is positive when the numeral has no leading zero. `ParseDecimalString` and `DecimalStringParse` show it inverts `str`. |
| Decimal.ParseDecimalString | allure_html.py:59-62 | `int(str(n)) == n`, so the source's comparisons on rendered times compare the original numbers. |
| Decimal.DecimalStringParse | allure_html.py:59-62 | `str(int(s)) == s` for a canonical numeral, so a rendered time is determined by its value. |
| Decimal.DecimalStringInjective | allure_html.py:89-90 | Different times render to different strings. |
| Scenarios.LoginScenario | allure_html.py:28-96 | For a suite with one timed case and one missing case, the output is one suite timed by the present case, with that case's severity. |
| Scenarios.NestedScenario | allure_html.py:45-51 | For a parent that holds only a sub-suite, the output is the sub-suite's record alone, not nested in the parent. |

## Left out

- File-system access and JSON decoding (`os.path.exists`, `open`, `json.load`) are not modelled. The index and the case documents are decoded values in `ReportDir`.
- The model does not build paths from a uid. A uid is the key of the case map, so a uid such as `../x` that would reach outside `test-cases/` is not modelled.
- Malformed JSON and I/O errors are not modelled. Their exceptions are outside the model.
- JSON `null` values are not modelled: an `Option` stands for a present or absent key. In the source an explicit `null` time renders as the text `"None"`. For a case, `int()` raises only when that text is compared with another non-empty time of the same suite. A suite whose only timed case has a `null` start simply outputs `"None"`, because the empty-start test short-circuits the comparison. Step times are never passed to `int()`, so a `null` step time is output as `"None"`.
- Negative or non-integer time values are not modelled; times are natural numbers.
- Open: models only the constructor's existence check, as an error result. The message text of `FileNotFoundError` is not modelled.
- Parse: the suite index is captured when the parser is opened. The source re-reads `suites.json` inside `parse`, and a file changed in between is not modelled.
- The `testcase_status` argument is stored but never read by the source, so it is not modelled.
- The commented-out `save_to_json` and `__main__` block are not modelled.
- `parse_allure_suite` is a two-line wrapper around `Open` and `Parse` and is not modelled separately.
- The MCP server wrapper `mcp-allure-server.py` is not part of this model. It is transport only: it serialises the report and turns exceptions into message strings.
- A step document without a `steps` key is represented with an empty `steps` list. The source treats both the same way (`step.get('steps', [])`).
- ParseEntry: the body of the `_parse_suites` loop is written as a separate method, and its case branch as `AddCase`. The recursive call on a sub-suite child still passes a one-element list to `ParseSuites`, as the source does.

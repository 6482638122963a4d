/**
 * The Allure suite parser: opens a report directory and reshapes its suite
 * index and test-case documents into a flat list of normalised suites.
 *
 * The report directory is given as values: the decoded `data/suites.json`
 * (absent when the file does not exist) and the decoded documents of
 * `data/test-cases/`, keyed by the `uid` in their file name.
 */
module SuiteParser {
  import opened Wrappers
  import opened Decimal
  import opened Documents
  import opened Measures
  import Severity
  import Steps

  datatype ReportDir = ReportDir(suitesFile: Option<Index>, testCaseFiles: map<string, CaseDoc>)

  datatype OpenError = SuitesFileNotFound

  /** The constructor: it refuses a report directory without `data/suites.json`. */
  function Open(dir: ReportDir): (r: Result<Parser, OpenError>)
    ensures r.Failure? <==> dir.suitesFile.None?
    ensures r.Success? ==> r.value.suites == dir.suitesFile.value && r.value.testCases == dir.testCaseFiles
  {
    match dir.suitesFile
    case None => Failure(SuitesFileNotFound)
    case Some(index) => Success(Parser(index, dir.testCaseFiles))
  }

  // ----- The suite index -----

  predicate IsSuiteNode(n: Node) {
    n.children.Children?
  }

  /** `suite['children']` when the key is present, and no children otherwise. */
  function ChildNodes(n: Node): seq<Node> {
    match n.children
    case NoChildren => []
    case Children(cs) => cs
  }

  /** Number of index entries in `n`, itself included; it bounds the recursion. */
  function Size(n: Node): nat
    decreases n
  {
    1 + match n.children
      case NoChildren => 0
      case Children(cs) => Sum(seq(|cs|, i requires 0 <= i < |cs| => Size(cs[i])))
  }

  function NodesSize(ns: seq<Node>): nat {
    Sum(seq(|ns|, i requires 0 <= i < |ns| => Size(ns[i])))
  }

  lemma SizeOfChildren(n: Node)
    ensures Size(n) == 1 + NodesSize(ChildNodes(n))
  {
    if n.children.Children? {
      var cs := n.children.nodes;
      var ns := ChildNodes(n);
      assert seq(|cs|, i requires 0 <= i < |cs| => Size(cs[i]))
          == seq(|ns|, i requires 0 <= i < |ns| => Size(ns[i]));
    }
  }

  lemma NodesSizeCons(ns: seq<Node>)
    requires ns != []
    ensures NodesSize(ns) == Size(ns[0]) + NodesSize(ns[1..]) && Size(ns[0]) >= 1
  {
    var xs := seq(|ns|, i requires 0 <= i < |ns| => Size(ns[i]));
    var tail := ns[1..];
    assert xs[1..] == seq(|tail|, i requires 0 <= i < |tail| => Size(tail[i]));
  }

  lemma NodeInside(ns: seq<Node>, i: int)
    requires 0 <= i < |ns|
    ensures Size(ns[i]) <= NodesSize(ns)
  {
    SumAtLeastElement(seq(|ns|, j requires 0 <= j < |ns| => Size(ns[j])), i);
  }

  lemma NodesSizeSingle(n: Node)
    ensures NodesSize([n]) == Size(n)
  {
    NodesSizeCons([n]);
    assert [n][1..] == [];
  }

  // ----- Suite timing -----

  /** Every `start` and `stop` of these cases is empty or a decimal number. */
  predicate TimesRendered(cases: seq<Case>) {
    forall k :: 0 <= k < |cases| ==> IsTimeText(cases[k].start) && IsTimeText(cases[k].stop)
  }

  /** One update of a suite's running `start`: a non-empty, numerically smaller `t` replaces `cur`. */
  function Earlier(cur: string, t: string): (r: string)
    requires IsTimeText(cur) && IsTimeText(t)
    ensures IsTimeText(r) && (r == cur || r == t)
    ensures r == "" <==> cur == "" && t == ""
    ensures cur != "" ==> r != "" && ParseDecimal(r) <= ParseDecimal(cur)
    ensures t != "" ==> r != "" && ParseDecimal(r) <= ParseDecimal(t)
  {
    if t != "" && (cur == "" || ParseDecimal(t) < ParseDecimal(cur)) then t else cur
  }

  /** One update of a suite's running `stop`: a non-empty, numerically larger `t` replaces `cur`. */
  function Later(cur: string, t: string): (r: string)
    requires IsTimeText(cur) && IsTimeText(t)
    ensures IsTimeText(r) && (r == cur || r == t)
    ensures r == "" <==> cur == "" && t == ""
    ensures cur != "" ==> r != "" && ParseDecimal(cur) <= ParseDecimal(r)
    ensures t != "" ==> r != "" && ParseDecimal(t) <= ParseDecimal(r)
  {
    if t != "" && (cur == "" || ParseDecimal(t) > ParseDecimal(cur)) then t else cur
  }

  /** A suite's `start` after its cases were added in order, one `Earlier` update per case. */
  function StartBound(cases: seq<Case>): (s: string)
    requires TimesRendered(cases)
    ensures IsTimeText(s)
  {
    if cases == [] then ""
    else
      var prefix := cases[..|cases| - 1];
      assert forall k :: 0 <= k < |prefix| ==> prefix[k] == cases[k];
      Earlier(StartBound(prefix), cases[|cases| - 1].start)
  }

  /** A suite's `stop` after its cases were added in order, one `Later` update per case. */
  function StopBound(cases: seq<Case>): (s: string)
    requires TimesRendered(cases)
    ensures IsTimeText(s)
  {
    if cases == [] then ""
    else
      var prefix := cases[..|cases| - 1];
      assert forall k :: 0 <= k < |prefix| ==> prefix[k] == cases[k];
      Later(StopBound(prefix), cases[|cases| - 1].stop)
  }

  /**
   * The running `start` is the earliest start of the cases: empty exactly
   * when no case has one, otherwise a copy of some case's start that no
   * case's start is numerically below.
   */
  lemma {:induction false} StartBoundIsMinimum(cases: seq<Case>)
    requires TimesRendered(cases)
    ensures var s := StartBound(cases);
      && (s == "" <==> forall k :: 0 <= k < |cases| ==> cases[k].start == "")
      && (s != "" ==> exists k :: 0 <= k < |cases| && cases[k].start == s)
      && (forall k :: 0 <= k < |cases| && cases[k].start != "" ==>
            s != "" && ParseDecimal(s) <= ParseDecimal(cases[k].start))
  {
    if cases != [] {
      var prefix := cases[..|cases| - 1];
      assert forall k :: 0 <= k < |prefix| ==> prefix[k] == cases[k];
      StartBoundIsMinimum(prefix);
    }
  }

  /**
   * The running `stop` is the latest stop of the cases: empty exactly when
   * no case has one, otherwise a copy of some case's stop that no case's
   * stop is numerically above.
   */
  lemma {:induction false} StopBoundIsMaximum(cases: seq<Case>)
    requires TimesRendered(cases)
    ensures var s := StopBound(cases);
      && (s == "" <==> forall k :: 0 <= k < |cases| ==> cases[k].stop == "")
      && (s != "" ==> exists k :: 0 <= k < |cases| && cases[k].stop == s)
      && (forall k :: 0 <= k < |cases| && cases[k].stop != "" ==>
            s != "" && ParseDecimal(cases[k].stop) <= ParseDecimal(s))
  {
    if cases != [] {
      var prefix := cases[..|cases| - 1];
      assert forall k :: 0 <= k < |prefix| ==> prefix[k] == cases[k];
      StopBoundIsMaximum(prefix);
    }
  }

  lemma BoundsAppend(cases: seq<Case>, c: Case)
    requires TimesRendered(cases) && IsTimeText(c.start) && IsTimeText(c.stop)
    ensures TimesRendered(cases + [c])
    ensures StartBound(cases + [c]) == Earlier(StartBound(cases), c.start)
    ensures StopBound(cases + [c]) == Later(StopBound(cases), c.stop)
  {
    assert forall k :: 0 <= k < |cases| ==> (cases + [c])[k] == cases[k];
    assert (cases + [c])[..|cases|] == cases;
  }

  /** What every emitted suite looks like. */
  predicate WellFormed(s: Suite) {
    && s.testCases != []
    && s.description == ""
    && s.status == "passed"
    && TimesRendered(s.testCases)
    && s.start == StartBound(s.testCases)
    && s.stop == StopBound(s.testCases)
  }

  predicate AllWellFormed(ss: seq<Suite>) {
    forall i :: 0 <= i < |ss| ==> WellFormed(ss[i])
  }

  /** The suite record of a suite node, emitted only when it resolved at least one case. */
  function OwnEntry(name: string, cases: seq<Case>): (r: seq<Suite>)
    requires TimesRendered(cases)
    ensures AllWellFormed(r)
    ensures |r| <= 1 && (r == [] <==> cases == [])
  {
    if cases == [] then []
    else [Suite(name, "", "passed", StartBound(cases), StopBound(cases), cases)]
  }

  /** All the test cases of a list of suites, suite by suite. */
  function AllCases(ss: seq<Suite>): seq<Case> {
    if ss == [] then [] else ss[0].testCases + AllCases(ss[1..])
  }

  lemma {:induction false} AllCasesAppend(a: seq<Suite>, b: seq<Suite>)
    ensures AllCases(a + b) == AllCases(a) + AllCases(b)
  {
    if a != [] {
      assert (a + b)[1..] == a[1..] + b;
      AllCasesAppend(a[1..], b);
    } else {
      assert a + b == b;
    }
  }

  // ----- Test-case documents -----

  /** `case_data.get('testStage', {}).get('steps', [])` */
  function StageSteps(doc: CaseDoc): seq<StepDoc> {
    match doc.testStage
    case None => []
    case Some(stage) => stage.steps.GetOr([])
  }

  /** The normalised record of a test-case document. */
  function CaseRecord(doc: CaseDoc): (c: Case)
    ensures c.name == doc.fullName.GetOr("") && c.title == doc.title.GetOr("")
    ensures c.description == doc.description.GetOr("") && c.status == doc.status.GetOr("")
    ensures IsTimeText(c.start) && TimeValue(c.start) == StartOf(doc.time)
    ensures IsTimeText(c.stop) && TimeValue(c.stop) == StopOf(doc.time)
    ensures c.severity == Severity.SeverityOf(c.labels)
    ensures c.labels == doc.labels.GetOr([]) && c.parameters == doc.parameters.GetOr([])
    ensures |c.steps| == |StageSteps(doc)|
    ensures forall i :: 0 <= i < |c.steps| ==> c.steps[i] == Steps.StepOf(StageSteps(doc)[i])
  {
    TimeValueOfText(StartOf(doc.time));
    TimeValueOfText(StopOf(doc.time));
    var labels := doc.labels.GetOr([]);
    Case(doc.fullName.GetOr(""), doc.title.GetOr(""), doc.description.GetOr(""),
         Severity.SeverityOf(labels), doc.status.GetOr(""),
         TimeText(StartOf(doc.time)), TimeText(StopOf(doc.time)),
         labels, doc.parameters.GetOr([]), Steps.StepsOf(StageSteps(doc)))
  }

  /** `case.get('uid', '')`, the key of the case document. */
  function CaseKey(ref: Node): string {
    ref.uid.GetOr("")
  }

  /** The parser of one report directory; its fields are fixed at construction. */
  datatype Parser = Parser(suites: Index, testCases: map<string, CaseDoc>) {

    /** The reference names a case document that exists. */
    predicate Resolves(ref: Node) {
      CaseKey(ref) != "" && CaseKey(ref) in testCases
    }

    /** The test case a reference resolves to; specification of `ParseTestCase`. */
    function CaseOf(ref: Node): (r: Option<Case>)
      ensures r.Some? <==> Resolves(ref)
      ensures r.Some? ==> r.value == CaseRecord(testCases[CaseKey(ref)])
    {
      var key := CaseKey(ref);
      if key == "" || key !in testCases then None
      else Some(CaseRecord(testCases[key]))
    }

    function CaseList(ref: Node): (r: seq<Case>)
      ensures TimesRendered(r)
    {
      match CaseOf(ref)
      case None => []
      case Some(c) => [c]
    }

    /** The cases that the direct case references among `cs` resolve to, in order. */
    function DirectCases(cs: seq<Node>): (r: seq<Case>)
      ensures TimesRendered(r) && |r| <= |cs|
    {
      if cs == [] then []
      else (if IsSuiteNode(cs[0]) then [] else CaseList(cs[0])) + DirectCases(cs[1..])
    }

    /**
     * The suites one index entry yields: everything its sub-suite children
     * yield, in child order, then its own record if it resolved any case.
     */
    function SuiteEntries(n: Node): (r: seq<Suite>)
      ensures AllWellFormed(r)
      decreases Size(n), 0
    {
      SizeOfChildren(n);
      SubSuitesOf(ChildNodes(n)) + OwnEntry(n.name.GetOr(""), DirectCases(ChildNodes(n)))
    }

    /** The suites the sub-suite children among `cs` yield, spliced in order. */
    function SubSuitesOf(cs: seq<Node>): (r: seq<Suite>)
      ensures AllWellFormed(r)
      decreases NodesSize(cs), 1
    {
      if cs == [] then []
      else
        NodesSizeCons(cs);
        (if IsSuiteNode(cs[0]) then SuiteEntries(cs[0]) else []) + SubSuitesOf(cs[1..])
    }

    /** The suites a list of index entries yields; specification of `ParseSuites`. */
    function SuitesOf(ns: seq<Node>): (r: seq<Suite>)
      ensures AllWellFormed(r)
    {
      if ns == [] then [] else SuiteEntries(ns[0]) + SuitesOf(ns[1..])
    }

    /** The parse result; specification of `Parse`. */
    function Output(): (r: Report)
      ensures AllWellFormed(r.testSuites)
      ensures multiset(AllCases(r.testSuites))
           == multiset(IndexCases(match suites.children case NoChildren => [] case Children(cs) => cs))
    {
      var top := match suites.children case NoChildren => [] case Children(cs) => cs;
      IndexCasesReportedOnce(top);
      Report(SuitesOf(top))
    }

    // ----- Splitting the walk -----

    lemma {:induction false} SuitesOfAppend(a: seq<Node>, b: seq<Node>)
      ensures SuitesOf(a + b) == SuitesOf(a) + SuitesOf(b)
    {
      if a != [] {
        assert (a + b)[1..] == a[1..] + b;
        SuitesOfAppend(a[1..], b);
      } else {
        assert a + b == b;
      }
    }

    lemma {:induction false} SubSuitesOfAppend(a: seq<Node>, b: seq<Node>)
      ensures SubSuitesOf(a + b) == SubSuitesOf(a) + SubSuitesOf(b)
    {
      if a != [] {
        assert (a + b)[1..] == a[1..] + b;
        SubSuitesOfAppend(a[1..], b);
      } else {
        assert a + b == b;
      }
    }

    lemma {:induction false} DirectCasesAppend(a: seq<Node>, b: seq<Node>)
      ensures DirectCases(a + b) == DirectCases(a) + DirectCases(b)
    {
      if a != [] {
        assert (a + b)[1..] == a[1..] + b;
        DirectCasesAppend(a[1..], b);
      } else {
        assert a + b == b;
      }
    }

    lemma SuitesOfSingle(n: Node)
      ensures SuitesOf([n]) == SuiteEntries(n)
    {
      assert [n][1..] == [];
    }

    /** Walking one more entry appends the suites that entry yields. */
    lemma EntryStep(entries: seq<Node>, i: int)
      requires 0 <= i < |entries|
      ensures SuitesOf(entries[..i + 1]) == SuitesOf(entries[..i]) + SuiteEntries(entries[i])
    {
      assert entries[..i + 1] == entries[..i] + [entries[i]];
      SuitesOfAppend(entries[..i], [entries[i]]);
      SuitesOfSingle(entries[i]);
    }

    /** One more sub-suite child splices its suites in and adds no case. */
    lemma SubSuiteStep(prefix: seq<Node>, child: Node)
      requires IsSuiteNode(child)
      ensures SubSuitesOf(prefix + [child]) == SubSuitesOf(prefix) + SuiteEntries(child)
      ensures DirectCases(prefix + [child]) == DirectCases(prefix)
    {
      assert [child][1..] == [];
      SubSuitesOfAppend(prefix, [child]);
      DirectCasesAppend(prefix, [child]);
    }

    /** One more case reference adds its case, if it resolves, and no suite. */
    lemma CaseStep(prefix: seq<Node>, child: Node)
      requires !IsSuiteNode(child)
      ensures SubSuitesOf(prefix + [child]) == SubSuitesOf(prefix)
      ensures DirectCases(prefix + [child]) == DirectCases(prefix) + CaseList(child)
    {
      assert [child][1..] == [];
      SubSuitesOfAppend(prefix, [child]);
      DirectCasesAppend(prefix, [child]);
    }

    // ----- Properties of the walk -----

    /**
     * A case reference with an empty or missing `uid`, or whose document does
     * not exist, changes nothing: the suite's cases, timing and sub-suites
     * come out as if the reference were not there.
     */
    lemma SkippedReferenceIgnored(name: Option<string>, uid: Option<string>,
                                  before: seq<Node>, ref: Node, after: seq<Node>)
      requires !IsSuiteNode(ref) && !Resolves(ref)
      ensures SuiteEntries(Node(name, uid, Children(before + [ref] + after)))
           == SuiteEntries(Node(name, uid, Children(before + after)))
    {
      SkippedContributesNothing(ref);
      SubSuitesWithout(before, ref, after);
      DirectCasesWithout(before, ref, after);
    }

    lemma SkippedContributesNothing(ref: Node)
      requires !IsSuiteNode(ref) && !Resolves(ref)
      ensures SubSuitesOf([ref]) == [] && DirectCases([ref]) == []
    {
      assert [ref][1..] == [];
    }

    lemma SubSuitesWithout(before: seq<Node>, ref: Node, after: seq<Node>)
      requires SubSuitesOf([ref]) == []
      ensures SubSuitesOf(before + [ref] + after) == SubSuitesOf(before + after)
    {
      SubSuitesOfAppend(before + [ref], after);
      SubSuitesOfAppend(before, [ref]);
      SubSuitesOfAppend(before, after);
    }

    lemma DirectCasesWithout(before: seq<Node>, ref: Node, after: seq<Node>)
      requires DirectCases([ref]) == []
      ensures DirectCases(before + [ref] + after) == DirectCases(before + after)
    {
      DirectCasesAppend(before + [ref], after);
      DirectCasesAppend(before, [ref]);
      DirectCasesAppend(before, after);
    }

    /** An index entry without a `children` key yields no suite. */
    lemma ReferenceYieldsNoSuite(n: Node)
      requires !IsSuiteNode(n)
      ensures SuiteEntries(n) == []
    {
    }

    /**
     * A suite resolves no direct case exactly when each of its children is a
     * sub-suite or a reference that does not resolve; its record is then dropped.
     */
    lemma {:induction false} DirectCasesNone(cs: seq<Node>)
      ensures DirectCases(cs) == [] <==> forall k :: 0 <= k < |cs| ==> IsSuiteNode(cs[k]) || !Resolves(cs[k])
    {
      if cs != [] {
        DirectCasesNone(cs[1..]);
        assert forall k :: 1 <= k < |cs| ==> cs[k] == cs[1..][k - 1];
      }
    }

    /**
     * Flattening: the suites of a sub-suite child are spliced, as one block
     * in child order, into the list that holds its parent's record, ahead of
     * that record; they are never nested inside it.
     */
    lemma SubSuiteBlock(n: Node, k: int)
      requires 0 <= k < |ChildNodes(n)| && IsSuiteNode(ChildNodes(n)[k])
      ensures var cs := ChildNodes(n);
        SuiteEntries(n) == SubSuitesOf(cs[..k]) + SuiteEntries(cs[k]) + SubSuitesOf(cs[k + 1..])
                           + OwnEntry(n.name.GetOr(""), DirectCases(cs))
    {
      var cs := ChildNodes(n);
      assert cs == cs[..k] + [cs[k]] + cs[k + 1..];
      SubSuiteStep(cs[..k], cs[k]);
      SubSuitesOfAppend(cs[..k] + [cs[k]], cs[k + 1..]);
    }

    /**
     * The record of a suite node comes last among the suites it yields, and
     * holds exactly its direct cases; sub-suite cases never enter it.
     */
    lemma OwnEntryLast(n: Node)
      requires DirectCases(ChildNodes(n)) != []
      ensures var r := SuiteEntries(n);
        && r != []
        && r[|r| - 1].name == n.name.GetOr("")
        && r[|r| - 1].testCases == DirectCases(ChildNodes(n))
    {
    }

    // ----- No case lost, none duplicated -----

    /** The cases resolved under an index entry, in document order. */
    function CasesUnder(n: Node): seq<Case>
      decreases Size(n), 0
    {
      SizeOfChildren(n);
      ChildCases(ChildNodes(n))
    }

    function ChildCases(cs: seq<Node>): seq<Case>
      decreases NodesSize(cs), 1
    {
      if cs == [] then []
      else
        NodesSizeCons(cs);
        (if IsSuiteNode(cs[0]) then CasesUnder(cs[0]) else CaseList(cs[0])) + ChildCases(cs[1..])
    }

    function IndexCases(ns: seq<Node>): seq<Case> {
      if ns == [] then [] else CasesUnder(ns[0]) + IndexCases(ns[1..])
    }

    /** Every case resolved under an entry is reported exactly once by the suites it yields. */
    lemma {:induction false} CasesReportedOnce(n: Node)
      ensures multiset(AllCases(SuiteEntries(n))) == multiset(CasesUnder(n))
      decreases Size(n), 0
    {
      SizeOfChildren(n);
      var cs := ChildNodes(n);
      var own := OwnEntry(n.name.GetOr(""), DirectCases(cs));
      AllCasesAppend(SubSuitesOf(cs), own);
      assert AllCases(own) == DirectCases(cs);
      ChildCasesReportedOnce(cs);
    }

    lemma {:induction false} ChildCasesReportedOnce(cs: seq<Node>)
      ensures multiset(AllCases(SubSuitesOf(cs))) + multiset(DirectCases(cs)) == multiset(ChildCases(cs))
      decreases NodesSize(cs), 1
    {
      if cs != [] {
        NodesSizeCons(cs);
        var c, rest := cs[0], cs[1..];
        ChildCasesReportedOnce(rest);
        if IsSuiteNode(c) {
          CasesReportedOnce(c);
          AllCasesAppend(SuiteEntries(c), SubSuitesOf(rest));
        } else {
          AllCasesAppend([], SubSuitesOf(rest));
        }
      }
    }

    /** Every case resolved anywhere under the index is reported exactly once. */
    lemma {:induction false} IndexCasesReportedOnce(ns: seq<Node>)
      ensures multiset(AllCases(SuitesOf(ns))) == multiset(IndexCases(ns))
    {
      if ns != [] {
        AllCasesAppend(SuiteEntries(ns[0]), SuitesOf(ns[1..]));
        CasesReportedOnce(ns[0]);
        IndexCasesReportedOnce(ns[1..]);
      }
    }

    // ----- The methods -----

    /** `_parse_test_case`: skip an empty uid or a missing document, else build the record. */
    method ParseTestCase(ref: Node) returns (testCase: Option<Case>)
      ensures testCase == CaseOf(ref)
    {
      var uid := CaseKey(ref);
      if uid == "" {
        return None;
      }
      if uid !in testCases {
        return None;
      }
      var doc := testCases[uid];
      var labels := doc.labels.GetOr([]);
      var severity := Severity.GetSeverity(labels);
      var steps := Steps.ParseSteps(StageSteps(doc));
      testCase := Some(Case(doc.fullName.GetOr(""), doc.title.GetOr(""), doc.description.GetOr(""),
                            severity, doc.status.GetOr(""),
                            TimeText(StartOf(doc.time)), TimeText(StopOf(doc.time)),
                            labels, doc.parameters.GetOr([]), steps));
    }

    /**
     * `_parse_suites`: the suites of each entry in turn, appended to one
     * flat list.
     */
    method ParseSuites(entries: seq<Node>) returns (parsed: seq<Suite>)
      ensures parsed == SuitesOf(entries)
      decreases NodesSize(entries), 1
    {
      parsed := [];
      for i := 0 to |entries|
        invariant parsed == SuitesOf(entries[..i])
      {
        NodeInside(entries, i);
        var entrySuites := ParseEntry(entries[i]);
        EntryStep(entries, i);
        parsed := parsed + entrySuites;
      }
      assert entries[..|entries|] == entries;
    }

    /**
     * The body of the `_parse_suites` loop for one entry: walk its children
     * in order (none when it has no `children` key); a child with a
     * `children` key is parsed on its own as a one-element list and its
     * suites are appended at once, any other child is resolved and, when
     * found, added to the entry's cases with the running start/stop
     * updated; the entry's own record comes last, if it has cases.
     */
    method ParseEntry(suite: Node) returns (parsed: seq<Suite>)
      ensures parsed == SuiteEntries(suite)
      decreases Size(suite), 0
    {
      parsed := [];
      var cases: seq<Case> := [];
      var start, stop := "", "";
      if suite.children.Children? {
        var children := suite.children.nodes;
        for j := 0 to |children|
          invariant parsed == SubSuitesOf(children[..j])
          invariant cases == DirectCases(children[..j])
          invariant start == StartBound(cases) && stop == StopBound(cases)
        {
          var child := children[j];
          assert children[..j + 1] == children[..j] + [child];
          if IsSuiteNode(child) {
            SubSuiteStep(children[..j], child);
            ChildSmaller(suite, j);
            var subSuites := ParseSuites([child]);
            SuitesOfSingle(child);
            if subSuites != [] {
              parsed := parsed + subSuites;
            }
          } else {
            CaseStep(children[..j], child);
            cases, start, stop := AddCase(cases, start, stop, child);
          }
        }
        assert children[..|children|] == children;
      }
      if cases != [] {
        parsed := parsed + [Suite(suite.name.GetOr(""), "", "passed", start, stop, cases)];
      }
    }

    /**
     * A case reference met while walking a suite's children: when it
     * resolves, its record joins the suite's cases and the running
     * start/stop take its times if they are earlier/later.
     */
    method AddCase(cases: seq<Case>, start: string, stop: string, child: Node)
      returns (cases': seq<Case>, start': string, stop': string)
      requires TimesRendered(cases) && start == StartBound(cases) && stop == StopBound(cases)
      ensures cases' == cases + CaseList(child)
      ensures TimesRendered(cases') && start' == StartBound(cases') && stop' == StopBound(cases')
    {
      cases', start', stop' := cases, start, stop;
      var testCase := ParseTestCase(child);
      if testCase.Some? {
        var tc := testCase.value;
        BoundsAppend(cases, tc);
        cases' := cases + [tc];
        if tc.start != "" && (start == "" || ParseDecimal(tc.start) < ParseDecimal(start)) {
          start' := tc.start;
        }
        if tc.stop != "" && (stop == "" || ParseDecimal(tc.stop) > ParseDecimal(stop)) {
          stop' := tc.stop;
        }
      }
    }

    /** The recursion on a sub-suite child works on a smaller index. */
    lemma ChildSmaller(suite: Node, j: int)
      requires 0 <= j < |ChildNodes(suite)|
      ensures NodesSize([ChildNodes(suite)[j]]) < Size(suite)
    {
      SizeOfChildren(suite);
      NodeInside(ChildNodes(suite), j);
      NodesSizeSingle(ChildNodes(suite)[j]);
    }

    /** `parse`: walk the top-level `children` of the suite index (none when the key is absent). */
    method Parse() returns (result: Report)
      ensures result == Output()
      ensures AllWellFormed(result.testSuites)
      ensures multiset(AllCases(result.testSuites))
           == multiset(IndexCases(match suites.children case NoChildren => [] case Children(cs) => cs))
    {
      var top := match suites.children case NoChildren => [] case Children(cs) => cs;
      var testSuites := ParseSuites(top);
      IndexCasesReportedOnce(top);
      result := Report(testSuites);
    }
  }
}

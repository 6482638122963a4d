/** Two small report directories worked through the parser end to end. */
module Scenarios {
  import opened Wrappers
  import opened Decimal
  import opened Documents
  import opened SuiteParser

  function CaseRef(uid: string): Node {
    Node(None, Some(uid), NoChildren)
  }

  function TimedCase(fullName: string, start: nat, stop: nat, severity: string): CaseDoc {
    CaseDoc(Some(fullName), None, None, Some("passed"), Some(Time(Some(start), Some(stop))),
            Some([Label(Some("severity"), Some(severity))]), None, None)
  }

  // Suite "Login" refers to case "c1", timed 100 to 200 with severity
  // "critical", and to case "c2", which has no document.

  function LoginSuite(): Node {
    Node(Some("Login"), None, Children([CaseRef("c1"), CaseRef("c2")]))
  }

  function LoginParser(): Parser {
    Parser(Index(Children([LoginSuite()])), map["c1" := TimedCase("Login.valid", 100, 200, "critical")])
  }

  lemma LoginCase()
    ensures var c := LoginParser().CaseOf(CaseRef("c1"));
      c.Some? && c.value.start == "100" && c.value.stop == "200" && c.value.severity == "critical"
  {
    assert DecimalString(100) == "100" && DecimalString(200) == "200";
  }

  /** One suite with the one resolvable case comes out, timed by that case alone. */
  lemma {:induction false} LoginScenario()
    ensures var r := LoginParser().Output().testSuites;
      && |r| == 1 && r[0].name == "Login"
      && r[0].start == "100" && r[0].stop == "200"
      && |r[0].testCases| == 1 && r[0].testCases[0].severity == "critical"
  {
    var p := LoginParser();
    LoginCase();
    var c1 := p.CaseOf(CaseRef("c1")).value;
    assert p.DirectCases([CaseRef("c2")]) == [];
    assert p.DirectCases(ChildNodes(LoginSuite())) == [c1];
    assert p.SubSuitesOf([CaseRef("c2")]) == [];
    assert p.SubSuitesOf(ChildNodes(LoginSuite())) == [];
    assert StartBound([c1]) == "100" && StopBound([c1]) == "200";
    assert p.SuiteEntries(LoginSuite()) == [Suite("Login", "", "passed", "100", "200", [c1])];
    assert p.SuitesOf([LoginSuite()]) == p.SuiteEntries(LoginSuite()) + p.SuitesOf([]);
  }

  // "Parent" holds only the sub-suite "Child", which holds one resolvable case.

  function ChildSuite(): Node {
    Node(Some("Child"), None, Children([CaseRef("c1")]))
  }

  function ParentSuite(): Node {
    Node(Some("Parent"), None, Children([ChildSuite()]))
  }

  function NestedParser(): Parser {
    Parser(Index(Children([ParentSuite()])), map["c1" := TimedCase("Child.case", 5, 9, "minor")])
  }

  /** The output is the single suite "Child", not wrapped in "Parent". */
  lemma {:induction false} NestedScenario()
    ensures var r := NestedParser().Output().testSuites;
      |r| == 1 && r[0].name == "Child" && |r[0].testCases| == 1
  {
    var p := NestedParser();
    var c1 := p.CaseOf(CaseRef("c1")).value;
    assert p.DirectCases([CaseRef("c1")]) == [c1];
    assert p.SubSuitesOf([CaseRef("c1")]) == [];
    assert |p.SuiteEntries(ChildSuite())| == 1;
    assert p.DirectCases([ChildSuite()]) == [];
    assert p.SubSuitesOf([ChildSuite()]) == p.SuiteEntries(ChildSuite()) + p.SubSuitesOf([]);
    assert p.SuiteEntries(ParentSuite()) == p.SuiteEntries(ChildSuite());
    assert p.SuitesOf([ParentSuite()]) == p.SuiteEntries(ParentSuite()) + p.SuitesOf([]);
  }
}

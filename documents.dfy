/**
 * The documents of an Allure report directory, already decoded from JSON,
 * and the normalised records the reshaper builds from them.  A JSON key that
 * may be missing is an `Option`; `None` is "key absent".
 */
module Documents {
  import opened Wrappers
  import opened Decimal

  // ----- Input: data/suites.json -----

  /**
   * An entry of the suite index.  An entry that has a `children` key is a
   * (sub-)suite, whatever that list holds; one without it is a reference to
   * a test case by `uid`.
   */
  datatype Node = Node(name: Option<string>, uid: Option<string>, children: ChildList)

  /** The `children` key of an index entry: absent, or present with a (possibly empty) list. */
  datatype ChildList = NoChildren | Children(nodes: seq<Node>)

  /** The whole suite index: `{"children": [...]}`. */
  datatype Index = Index(children: ChildList)

  // ----- Input: data/test-cases/<uid>.json -----

  datatype Label = Label(name: Option<string>, value: Option<string>)

  /** Passed through to the output unchanged. */
  datatype Parameter = Parameter(name: string, value: string)

  /** Passed through to the output unchanged. */
  datatype Attachment = Attachment(name: string, source: string, kind: string)

  /** The `time` object; epoch milliseconds. */
  datatype Time = Time(start: Option<nat>, stop: Option<nat>)

  datatype StepDoc = StepDoc(
    name: Option<string>,
    title: Option<string>,
    status: Option<string>,
    time: Option<Time>,
    attachments: Option<seq<Attachment>>,
    steps: seq<StepDoc>)  // an absent `steps` key is the empty list

  datatype TestStage = TestStage(steps: Option<seq<StepDoc>>)

  datatype CaseDoc = CaseDoc(
    fullName: Option<string>,
    title: Option<string>,
    description: Option<string>,
    status: Option<string>,
    time: Option<Time>,
    labels: Option<seq<Label>>,
    parameters: Option<seq<Parameter>>,
    testStage: Option<TestStage>)

  // ----- Output -----

  datatype Step = Step(
    name: string,
    title: string,
    status: string,
    start: string,
    stop: string,
    attachments: seq<Attachment>,
    steps: seq<Step>)

  datatype Case = Case(
    name: string,
    title: string,
    description: string,
    severity: string,
    status: string,
    start: string,
    stop: string,
    labels: seq<Label>,
    parameters: seq<Parameter>,
    steps: seq<Step>)

  datatype Suite = Suite(
    name: string,
    description: string,
    status: string,
    start: string,
    stop: string,
    testCases: seq<Case>)

  /** `{"test-suites": [...]}` */
  datatype Report = Report(testSuites: seq<Suite>)

  // ----- Timestamps as text -----

  /** `time.get('start')` of an optional `time` object. */
  function StartOf(time: Option<Time>): Option<nat> {
    match time
    case None => None
    case Some(t) => t.start
  }

  /** `time.get('stop')` of an optional `time` object. */
  function StopOf(time: Option<Time>): Option<nat> {
    match time
    case None => None
    case Some(t) => t.stop
  }

  /** What a `start`/`stop` field of the output may hold: empty, or a number. */
  predicate IsTimeText(s: string) {
    s == "" || IsDecimal(s)
  }

  /** `str(value)` where an absent value defaults to the empty string. */
  function TimeText(v: Option<nat>): (s: string)
    ensures IsTimeText(s)
    ensures s == "" <==> v.None?
  {
    match v
    case None => ""
    case Some(n) => DecimalString(n)
  }

  /** The number a time text stands for, if any: `int(s)` when `s` is non-empty. */
  function TimeValue(s: string): Option<nat>
    requires IsTimeText(s)
  {
    if s == "" then None else Some(ParseDecimal(s))
  }

  /** A time text carries exactly the timestamp it was made from. */
  lemma TimeValueOfText(v: Option<nat>)
    ensures TimeValue(TimeText(v)) == v
  {
    if v.Some? {
      ParseDecimalString(v.value);
    }
  }
}

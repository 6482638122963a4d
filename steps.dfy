/** Nested test steps of a case document and their normalised form. */
module Steps {
  import opened Documents
  import opened Measures

  /**
   * The normalised step: defaults for absent fields, timestamps as text, and
   * the nested steps normalised one for one.  Specification of `ParseSteps`.
   */
  function StepOf(d: StepDoc): (s: Step)
    ensures s.name == d.name.GetOr("") && s.title == d.title.GetOr("") && s.status == d.status.GetOr("")
    ensures IsTimeText(s.start) && TimeValue(s.start) == StartOf(d.time)
    ensures IsTimeText(s.stop) && TimeValue(s.stop) == StopOf(d.time)
    ensures s.attachments == d.attachments.GetOr([])
    ensures |s.steps| == |d.steps|
    decreases d
  {
    TimeValueOfText(StartOf(d.time));
    TimeValueOfText(StopOf(d.time));
    var nested := seq(|d.steps|, i requires 0 <= i < |d.steps| => StepOf(d.steps[i]));
    Step(d.name.GetOr(""), d.title.GetOr(""), d.status.GetOr(""),
         TimeText(StartOf(d.time)), TimeText(StopOf(d.time)),
         d.attachments.GetOr([]), nested)
  }

  /** Number of step documents in `d`, itself included. */
  function DocCount(d: StepDoc): nat
    decreases d
  {
    1 + Sum(seq(|d.steps|, i requires 0 <= i < |d.steps| => DocCount(d.steps[i])))
  }

  function DocsCount(ds: seq<StepDoc>): nat {
    Sum(seq(|ds|, i requires 0 <= i < |ds| => DocCount(ds[i])))
  }

  /** Nesting depth of `d`: 1 for a step without nested steps. */
  function DocDepth(d: StepDoc): nat
    decreases d
  {
    1 + Max(seq(|d.steps|, i requires 0 <= i < |d.steps| => DocDepth(d.steps[i])))
  }

  function StepCount(s: Step): nat
    decreases s
  {
    1 + Sum(seq(|s.steps|, i requires 0 <= i < |s.steps| => StepCount(s.steps[i])))
  }

  function StepDepth(s: Step): nat
    decreases s
  {
    1 + Max(seq(|s.steps|, i requires 0 <= i < |s.steps| => StepDepth(s.steps[i])))
  }

  lemma NestedCount(d: StepDoc)
    ensures DocCount(d) == 1 + DocsCount(d.steps)
  {
    var ds := d.steps;
    assert seq(|d.steps|, i requires 0 <= i < |d.steps| => DocCount(d.steps[i]))
        == seq(|ds|, i requires 0 <= i < |ds| => DocCount(ds[i]));
  }

  lemma DocCountInside(ds: seq<StepDoc>, i: int)
    requires 0 <= i < |ds|
    ensures DocCount(ds[i]) <= DocsCount(ds)
  {
    SumAtLeastElement(seq(|ds|, j requires 0 <= j < |ds| => DocCount(ds[j])), i);
  }


  // ----- Properties of the normalisation -----

  /** Normalisation keeps the nesting depth. */
  lemma {:induction false} StepDepthPreserved(d: StepDoc)
    ensures StepDepth(StepOf(d)) == DocDepth(d)
    decreases d
  {
    var s := StepOf(d);
    var outer := seq(|s.steps|, i requires 0 <= i < |s.steps| => StepDepth(s.steps[i]));
    var inner := seq(|d.steps|, i requires 0 <= i < |d.steps| => DocDepth(d.steps[i]));
    forall i | 0 <= i < |d.steps|
      ensures outer[i] == inner[i]
    {
      StepDepthPreserved(d.steps[i]);
    }
    assert outer == inner;
  }

  /** Normalisation keeps the number of steps at every level: none dropped, none added. */
  lemma {:induction false} StepCountPreserved(d: StepDoc)
    ensures StepCount(StepOf(d)) == DocCount(d)
    decreases d
  {
    var s := StepOf(d);
    var outer := seq(|s.steps|, i requires 0 <= i < |s.steps| => StepCount(s.steps[i]));
    var inner := seq(|d.steps|, i requires 0 <= i < |d.steps| => DocCount(d.steps[i]));
    forall i | 0 <= i < |d.steps|
      ensures outer[i] == inner[i]
    {
      StepCountPreserved(d.steps[i]);
    }
    assert outer == inner;
  }

  /** Number of normalised steps in a list of step trees. */
  function StepsCount(ss: seq<Step>): nat {
    Sum(seq(|ss|, i requires 0 <= i < |ss| => StepCount(ss[i])))
  }

  /**
   * The normalised form of a list of steps: one step per input step, and
   * no step dropped or added at any depth.
   */
  function StepsOf(ds: seq<StepDoc>): (r: seq<Step>)
    ensures |r| == |ds|
    ensures StepsCount(r) == DocsCount(ds)
  {
    var r := seq(|ds|, i requires 0 <= i < |ds| => StepOf(ds[i]));
    ListCountPreserved(ds, r);
    r
  }

  lemma ListCountPreserved(ds: seq<StepDoc>, r: seq<Step>)
    requires |r| == |ds| && forall i :: 0 <= i < |ds| ==> r[i] == StepOf(ds[i])
    ensures StepsCount(r) == DocsCount(ds)
  {
    var outer := seq(|r|, i requires 0 <= i < |r| => StepCount(r[i]));
    var inner := seq(|ds|, i requires 0 <= i < |ds| => DocCount(ds[i]));
    forall i | 0 <= i < |ds|
      ensures outer[i] == inner[i]
    {
      StepCountPreserved(ds[i]);
    }
    assert outer == inner;
  }

  /**
   * `_parse_steps`: one normalised step per input step, in input order, each
   * holding the recursive parse of its own nested steps.
   */
  method ParseSteps(steps: seq<StepDoc>) returns (parsed: seq<Step>)
    ensures |parsed| == |steps|
    ensures forall i :: 0 <= i < |steps| ==> parsed[i] == StepOf(steps[i])
    ensures parsed == StepsOf(steps)
    decreases DocsCount(steps)
  {
    parsed := [];
    for i := 0 to |steps|
      invariant |parsed| == i
      invariant forall j :: 0 <= j < i ==> parsed[j] == StepOf(steps[j])
    {
      var step := steps[i];
      var nested := step.steps;
      NestedCount(step);
      DocCountInside(steps, i);
      var nestedSteps := ParseSteps(nested);
      assert nestedSteps == StepOf(step).steps;
      var info := Step(step.name.GetOr(""), step.title.GetOr(""), step.status.GetOr(""),
                       TimeText(StartOf(step.time)), TimeText(StopOf(step.time)),
                       step.attachments.GetOr([]), nestedSteps);
      parsed := parsed + [info];
    }
  }
}

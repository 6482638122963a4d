/** Severity of a test case, read from its labels. */
module Severity {
  import opened Wrappers
  import opened Documents

  const SeverityName := "severity"
  const DefaultSeverity := "normal"

  predicate IsSeverityLabel(l: Label) {
    l.name == Some(SeverityName)
  }

  /** `k` is the position of the first severity label. */
  predicate FirstSeverityAt(labels: seq<Label>, k: int) {
    && 0 <= k < |labels|
    && IsSeverityLabel(labels[k])
    && forall j :: 0 <= j < k ==> !IsSeverityLabel(labels[j])
  }

  /** The severity the labels declare: the specification of `GetSeverity`. */
  function SeverityOf(labels: seq<Label>): (r: string)
    ensures r == DefaultSeverity || exists k :: FirstSeverityAt(labels, k) && labels[k].value == Some(r)
  {
    if labels == [] then DefaultSeverity
    else if IsSeverityLabel(labels[0]) then labels[0].value.GetOr(DefaultSeverity)
    else SeverityOf(labels[1..])
  }

  /** The first severity label decides, and its missing value reads as "normal". */
  lemma {:induction false} SeverityOfFirstMatch(labels: seq<Label>, k: int)
    requires FirstSeverityAt(labels, k)
    ensures SeverityOf(labels) == labels[k].value.GetOr(DefaultSeverity)
  {
    if k > 0 {
      assert !IsSeverityLabel(labels[0]);
      SeverityOfFirstMatch(labels[1..], k - 1);
    }
  }

  /** Without a severity label the severity is "normal". */
  lemma {:induction false} SeverityOfNoMatch(labels: seq<Label>)
    requires forall j :: 0 <= j < |labels| ==> !IsSeverityLabel(labels[j])
    ensures SeverityOf(labels) == DefaultSeverity
  {
    if labels != [] {
      SeverityOfNoMatch(labels[1..]);
    }
  }

  /** Labels after a severity label never change the severity. */
  lemma {:induction false} SeverityIgnoresLaterLabels(labels: seq<Label>, later: seq<Label>, k: int)
    requires 0 <= k < |labels| && IsSeverityLabel(labels[k])
    ensures SeverityOf(labels + later) == SeverityOf(labels)
  {
    if !IsSeverityLabel(labels[0]) {
      assert (labels + later)[1..] == labels[1..] + later;
      SeverityIgnoresLaterLabels(labels[1..], later, k - 1);
    }
  }

  /** `_get_severity`: scan the labels in order, returning at the first severity label. */
  method GetSeverity(labels: seq<Label>) returns (severity: string)
    ensures severity == SeverityOf(labels)
    ensures forall k :: FirstSeverityAt(labels, k) ==> severity == labels[k].value.GetOr(DefaultSeverity)
    ensures (forall j :: 0 <= j < |labels| ==> !IsSeverityLabel(labels[j])) ==> severity == DefaultSeverity
  {
    for i := 0 to |labels|
      invariant forall j :: 0 <= j < i ==> !IsSeverityLabel(labels[j])
    {
      if IsSeverityLabel(labels[i]) {
        SeverityOfFirstMatch(labels, i);
        return labels[i].value.GetOr(DefaultSeverity);
      }
    }
    SeverityOfNoMatch(labels);
    return DefaultSeverity;
  }
}

/**
 * `AssessmentDeploymentComponent`: the deployments of every assessment in one
 * list, the view of the current assessment's ones, and a single-record editor.
 */
module Deployments {
  import opened Wrappers
  import opened Seqs

  datatype Deployment = Deployment(
    number: int, title: string, deploymentType: string, status: string,
    startDate: string, endDate: string, description: string, assessmentId: int)

  const DeploymentTypes: seq<string> := ["Initial", "Follow-up", "Final", "Other"]
  const DeploymentStatuses: seq<string> := ["Active", "Scheduled", "Completed", "Cancelled"]

  /** The three records the component starts with. */
  const SampleDeployments: seq<Deployment> := [
    Deployment(1, "Planning Phase", "Initial", "Active", "2025-06-01", "2025-06-10",
               "First deployment for assessment.", 8675309),
    Deployment(2, "Execution Phase", "Follow-up", "Scheduled", "2025-07-01", "2025-07-05",
               "Second deployment scheduled.", 8675309),
    Deployment(3, "Wrap-up", "Initial", "Completed", "2025-05-01", "2025-05-10",
               "Deployment for another assessment.", 1234567)
  ]

  /** `filteredDeployments`: the records of assessment `id`, in list order. */
  function FilteredDeployments(ds: seq<Deployment>, id: int): (r: seq<Deployment>)
    ensures SubsequenceOf(r, ds)
    ensures forall i :: 0 <= i < |r| ==> r[i].assessmentId == id
    ensures forall d {:trigger multiset(r)[d]} ::
      multiset(r)[d] == (if d.assessmentId == id then multiset(ds)[d] else 0)
  {
    Filter(ds, (d: Deployment) => d.assessmentId == id)
  }

  /** `Math.max(...numbers) + 1`, or 1 for an empty list. */
  function NextNumber(ds: seq<Deployment>): (n: int)
    ensures forall i :: 0 <= i < |ds| ==> ds[i].number < n
    ensures |ds| == 0 ==> n == 1
    ensures |ds| > 0 ==> exists i :: 0 <= i < |ds| && n == ds[i].number + 1
  {
    if |ds| == 0 then 1
    else if |ds| == 1 then ds[0].number + 1
    else
      var rest := NextNumber(ds[1..]);
      assert forall i :: 1 <= i < |ds| ==> ds[i] == ds[1..][i - 1];
      if ds[0].number + 1 >= rest then ds[0].number + 1 else rest
  }

  /** The record `addDeployment` appends. */
  function NewDeployment(number: int, assessmentId: int): Deployment {
    Deployment(number, "", DeploymentTypes[0], DeploymentStatuses[0], "", "", "", assessmentId)
  }

  /** No two records share a number. */
  predicate DistinctNumbers(ds: seq<Deployment>) {
    forall i, j :: 0 <= i < j < |ds| ==> ds[i].number != ds[j].number
  }

  /** The new record's number is fresh, so distinct numbers stay distinct. */
  lemma AddKeepsNumbersDistinct(ds: seq<Deployment>, id: int)
    requires DistinctNumbers(ds)
    ensures DistinctNumbers(ds + [NewDeployment(NextNumber(ds), id)])
  {
    var n := NextNumber(ds);
    var ds' := ds + [NewDeployment(n, id)];
    forall i, j | 0 <= i < j < |ds'|
      ensures ds'[i].number != ds'[j].number
    {
      if j == |ds| {
        assert ds'[i] == ds[i];
      }
    }
  }

  /**
   * `findIndex` with the predicate of `saveEdit`: the first record of
   * assessment `id` numbered `number`, or -1.
   */
  function FindRecord(ds: seq<Deployment>, id: int, number: int): (g: int)
    ensures -1 <= g < |ds|
    ensures g >= 0 ==> ds[g].assessmentId == id && ds[g].number == number
    ensures forall k :: 0 <= k < |ds| && (g == -1 || k < g) ==> !(ds[k].assessmentId == id && ds[k].number == number)
  {
    if |ds| == 0 then -1
    else if ds[0].assessmentId == id && ds[0].number == number then 0
    else
      var g := FindRecord(ds[1..], id, number);
      assert forall k :: 1 <= k < |ds| ==> ds[k] == ds[1..][k - 1];
      if g == -1 then -1 else g + 1
  }

  /** A record of the filtered view is always found by `saveEdit`'s search. */
  lemma FilteredRecordFound(ds: seq<Deployment>, id: int, index: nat)
    requires index < |FilteredDeployments(ds, id)|
    ensures FindRecord(ds, id, FilteredDeployments(ds, id)[index].number) >= 0
  {
    var f := FilteredDeployments(ds, id);
    var d := f[index];
    assert multiset(f)[d] > 0;
    assert d in multiset(ds);
    var k :| 0 <= k < |ds| && ds[k] == d;
  }

  /** The appended record is the last one of the filtered view after an add. */
  lemma AddedIsLastFiltered(ds: seq<Deployment>, id: int, d: Deployment)
    requires d.assessmentId == id
    ensures var f := FilteredDeployments(ds + [d], id);
      |f| == |FilteredDeployments(ds, id)| + 1 && f[|f| - 1] == d
  {
    var p := (x: Deployment) => x.assessmentId == id;
    FilterAppend(ds, [d], p);
    assert Filter([d], p) == [d] by {
      assert [d][1..] == [];
    }
  }

  class AssessmentDeploymentComponent {
    const assessmentId: int
    var deployments: seq<Deployment>
    var editIndex: Option<int>
    var editDeployment: Option<Deployment>

    /** The component once its `assessmentId` input is bound. */
    constructor (assessmentId: int)
      ensures this.assessmentId == assessmentId
      ensures deployments == SampleDeployments && editIndex == None && editDeployment == None
      ensures DistinctNumbers(deployments)
    {
      this.assessmentId := assessmentId;
      deployments := SampleDeployments;
      editIndex := None;
      editDeployment := None;
    }

    function Filtered(): seq<Deployment>
      reads this
    {
      FilteredDeployments(deployments, assessmentId)
    }

    /** Holds a copy of `deployment` (a value, so later edits do not reach the list). */
    method StartEdit(index: int, deployment: Deployment)
      modifies this
      ensures editIndex == Some(index) && editDeployment == Some(deployment)
      ensures deployments == old(deployments)
    {
      editIndex := Some(index);
      editDeployment := Some(deployment);
    }

    method CancelEdit()
      modifies this
      ensures editIndex == None && editDeployment == None
      ensures deployments == old(deployments)
    {
      editIndex := None;
      editDeployment := None;
    }

    /**
     * `saveEdit(index)`: writes the edited copy over the first record that
     * matches the filtered view's `index`-th record by assessment and number.
     * `threw` is the `TypeError` raised when the view is not empty but has no
     * `index`-th record; the component is then left as it was.
     */
    method SaveEdit(index: int) returns (threw: bool)
      modifies this
      ensures var f := FilteredDeployments(old(deployments), assessmentId);
        threw <==> old(editDeployment).Some? && |f| > 0 && !(0 <= index < |f|)
      ensures threw ==> deployments == old(deployments) && editIndex == old(editIndex)
                        && editDeployment == old(editDeployment)
      ensures !threw ==> editIndex == None && editDeployment == None
      ensures var f := FilteredDeployments(old(deployments), assessmentId);
        !threw && old(editDeployment).Some? && 0 <= index < |f| ==>
          var g := FindRecord(old(deployments), assessmentId, f[index].number);
          0 <= g && deployments == old(deployments)[g := old(editDeployment).value]
      ensures var f := FilteredDeployments(old(deployments), assessmentId);
        !threw && !(old(editDeployment).Some? && 0 <= index < |f|) ==> deployments == old(deployments)
    {
      threw := false;
      if editDeployment.Some? {
        var f := Filtered();
        if |f| > 0 {
          if !(0 <= index < |f|) {
            threw := true;
            return;
          }
          var g := FindRecord(deployments, assessmentId, f[index].number);
          FilteredRecordFound(deployments, assessmentId, index);
          deployments := deployments[g := editDeployment.value];
        }
      }
      CancelEdit();
    }

    /** Appends a fresh `Initial`/`Active` record and opens it for editing. */
    method AddDeployment()
      modifies this
      ensures var added := NewDeployment(NextNumber(old(deployments)), assessmentId);
        deployments == old(deployments) + [added]
        && editDeployment == Some(added)
        && editIndex == Some(|Filtered()| - 1)
        && |Filtered()| > 0 && Filtered()[|Filtered()| - 1] == added
      ensures DistinctNumbers(old(deployments)) ==> DistinctNumbers(deployments)
    {
      var nextNumber := if |deployments| > 0 then NextNumber(deployments) else 1;
      var newDeployment := NewDeployment(nextNumber, assessmentId);
      AddedIsLastFiltered(deployments, assessmentId, newDeployment);
      if DistinctNumbers(deployments) {
        AddKeepsNumbersDistinct(deployments, assessmentId);
      }
      deployments := deployments + [newDeployment];
      editIndex := Some(|Filtered()| - 1);
      editDeployment := Some(newDeployment);
    }
  }
}

/** `AssessmentStateService`: the assessment the user is working on. */
module AssessmentState {
  import opened Wrappers

  datatype AssessmentSummary = AssessmentSummary(id: string, name: string, status: string)

  class AssessmentStateService {
    var id: Option<string>
    var name: string
    var status: string

    /** No assessment: `id` is null, `name` and `status` are empty. */
    predicate Cleared()
      reads this
    {
      id == None && name == "" && status == ""
    }

    constructor ()
      ensures Cleared()
    {
      id, name, status := None, "", "";
    }

    method SetAssessment(summary: AssessmentSummary)
      modifies this
      ensures id == Some(summary.id) && name == summary.name && status == summary.status
    {
      id := Some(summary.id);
      name := summary.name;
      status := summary.status;
    }

    method Clear()
      modifies this
      ensures Cleared()
    {
      id, name, status := None, "", "";
    }
  }

  /**
   * A fresh service receives the summaries in `history`, one after another:
   * it then holds the last one, and a further `setAssessment` with that same
   * summary changes nothing.
   */
  method LastSummaryWins(history: seq<AssessmentSummary>)
    returns (id: Option<string>, name: string, status: string, unchangedByRepeat: bool)
    ensures |history| == 0 ==> id == None && name == "" && status == ""
    ensures |history| > 0 ==>
      var last := history[|history| - 1];
      id == Some(last.id) && name == last.name && status == last.status
    ensures unchangedByRepeat
  {
    var service := new AssessmentStateService();
    var i := 0;
    while i < |history|
      invariant 0 <= i <= |history|
      invariant i == 0 ==> service.Cleared()
      invariant i > 0 ==> service.id == Some(history[i - 1].id) && service.name == history[i - 1].name
                          && service.status == history[i - 1].status
    {
      service.SetAssessment(history[i]);
      i := i + 1;
    }
    id, name, status := service.id, service.name, service.status;
    unchangedByRepeat := true;
    if |history| > 0 {
      service.SetAssessment(history[|history| - 1]);
      unchangedByRepeat := service.id == id && service.name == name && service.status == status;
    }
  }

  /** Whatever summaries a fresh service received, `clear` brings back its initial state. */
  method ClearAfter(history: seq<AssessmentSummary>) returns (id: Option<string>, name: string, status: string)
    ensures id == None && name == "" && status == ""
  {
    var service := new AssessmentStateService();
    for i := 0 to |history| {
      service.SetAssessment(history[i]);
    }
    service.Clear();
    id, name, status := service.id, service.name, service.status;
  }
}

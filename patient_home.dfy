/**
 * The patient's dashboard (src/components/patient/PatientDashboard.tsx): the
 * patient's triage history and appointments, read one after the other, and
 * the one triage entry whose conversation is unfolded.
 */
module PatientHome {
  import opened Types

  /**
   * A list after its read settles: an error empties it, returned rows
   * replace it, and an answer with neither leaves it as it was.
   */
  function ListAfterRead<T>(current: seq<T>, res: Response<seq<T>>): (next: seq<T>)
    ensures res.Failed? ==> next == []
    ensures res.Data? ==> next == res.value
    ensures res.NoData? ==> next == current
  {
    match res
    case Failed(_) => []
    case Data(rows) => rows
    case NoData => current
  }

  /**
   * `toggleTriageExpansion`: clicking the unfolded entry folds it; clicking
   * any other unfolds that one and folds the previous.
   */
  function Toggled(expanded: Option<string>, id: string): (next: Option<string>)
    ensures next.None? <==> expanded == Some(id)
    ensures next.Some? ==> next.value == id
  {
    if expanded == Some(id) then None else Some(id)
  }

  /** Clicking the same entry twice from a folded list unfolds it and folds it back. */
  lemma ToggleTwiceFromFolded(id: string)
    ensures Toggled(Some(id), id) == None && Toggled(Toggled(None, id), id) == None
  {
  }

  /** The dashboard's state hooks; `user` is its property. */
  class PatientDashboard {
    const user: Profile
    var triageHistory: seq<TriageSession>
    var appointments: seq<Appointment>
    var loading: bool
    var expandedTriageId: Option<string>

    constructor (user: Profile)
      ensures this.user == user
      ensures triageHistory == [] && appointments == [] && loading && expandedTriageId == None
    {
      this.user := user;
      triageHistory, appointments, loading, expandedTriageId := [], [], true, None;
    }

    /** Whether the entry with this id shows its conversation. */
    predicate IsExpanded(id: string)
      reads this
    {
      expandedTriageId == Some(id)
    }

    /** At most one entry is unfolded at any time. */
    lemma AtMostOneExpanded(a: string, b: string)
      requires IsExpanded(a) && IsExpanded(b)
      ensures a == b
    {
    }

    method BeginFetch()
      modifies this`loading
      ensures loading
    {
      loading := true;
    }

    /** The triage history read has settled. */
    method ApplyTriageResult(res: Response<seq<TriageSession>>)
      modifies this`triageHistory
      ensures triageHistory == ListAfterRead(old(triageHistory), res)
    {
      if res.Failed? {
        triageHistory := [];
      } else if res.Data? {
        triageHistory := res.value;
      }
    }

    /** The appointments read has settled. */
    method ApplyAppointmentsResult(res: Response<seq<Appointment>>)
      modifies this`appointments
      ensures appointments == ListAfterRead(old(appointments), res)
    {
      if res.Failed? {
        appointments := [];
      } else if res.Data? {
        appointments := res.value;
      }
    }

    /**
     * `fetchData`: both reads are applied in turn, neither one's failure
     * keeps the other from being applied, and loading ends after both.
     */
    method FetchData(triageRes: Response<seq<TriageSession>>, apptRes: Response<seq<Appointment>>)
      modifies this`loading, this`triageHistory, this`appointments
      ensures triageHistory == ListAfterRead(old(triageHistory), triageRes)
      ensures appointments == ListAfterRead(old(appointments), apptRes)
      ensures !loading
    {
      BeginFetch();
      ApplyTriageResult(triageRes);
      ApplyAppointmentsResult(apptRes);
      loading := false;
    }

    /** `toggleTriageExpansion`. */
    method ToggleTriageExpansion(id: string)
      modifies this`expandedTriageId
      ensures expandedTriageId == Toggled(old(expandedTriageId), id)
      ensures IsExpanded(id) <==> !old(IsExpanded(id))
      ensures forall other :: other != id ==> !IsExpanded(other)
    {
      expandedTriageId := if expandedTriageId == Some(id) then None else Some(id);
    }
  }
}

/**
 * The doctor's dashboard (src/components/doctor/DoctorDashboard.tsx): the
 * list of patients with a name search, and the patient chosen for the
 * detail view.
 */
module DoctorHome {
  import opened Types
  import opened Text
  import opened Seqs

  /** The search matches a patient whose lower-cased name contains the lower-cased term. */
  predicate NameMatches(p: Profile, term: string) {
    Includes(ToLower(p.name), ToLower(term))
  }

  /**
   * `filteredPatients`: the patients whose name matches the search, in the
   * order of the fetched list.
   */
  function FilteredPatients(patients: seq<Profile>, term: string): (shown: seq<Profile>)
    ensures IsSublist(shown, patients)
    ensures forall p :: p in shown <==> p in patients && NameMatches(p, term)
    ensures |shown| <= |patients|
  {
    Filter((p: Profile) => NameMatches(p, term), patients)
  }

  /** An empty search shows every patient, in order. */
  lemma EmptySearchShowsAll(patients: seq<Profile>)
    ensures FilteredPatients(patients, "") == patients
  {
    forall i | 0 <= i < |patients| ensures NameMatches(patients[i], "") {
      assert OccursAt(ToLower(patients[i].name), "", 0);
    }
    FilterKeepsAll((p: Profile) => NameMatches(p, ""), patients);
  }

  /** What the dashboard shows: the detail view of one patient, or the list (a spinner while loading). */
  datatype DoctorScreen =
    | PatientDetailScreen(doctor: Profile, patient: Profile)
    | PatientList(shown: seq<Profile>, spinner: bool)

  /** The dashboard's state hooks; `doctor` is its property. */
  class DoctorDashboard {
    const doctor: Profile
    var selectedPatient: Option<Profile>
    var searchTerm: string
    var patients: seq<Profile>
    var loading: bool

    constructor (doctor: Profile)
      ensures this.doctor == doctor
      ensures selectedPatient == None && searchTerm == "" && patients == [] && loading
    {
      this.doctor := doctor;
      selectedPatient, searchTerm, patients, loading := None, "", [], true;
    }

    /**
     * The screen: the selected patient's detail view, otherwise the patients
     * matching the search (whose count the heading shows).
     */
    function CurrentScreen(): (screen: DoctorScreen)
      reads this
      ensures selectedPatient.Some? ==> screen == PatientDetailScreen(doctor, selectedPatient.value)
      ensures selectedPatient.None? ==> screen.PatientList? && screen.spinner == loading
      ensures selectedPatient.None? ==> forall p :: p in screen.shown <==> p in patients && NameMatches(p, searchTerm)
      ensures screen.PatientList? ==> IsSublist(screen.shown, patients) && |screen.shown| <= |patients|
    {
      match selectedPatient
      case Some(p) => PatientDetailScreen(doctor, p)
      case None => PatientList(FilteredPatients(patients, searchTerm), loading)
    }

    /** The start of `fetchPatients`. */
    method BeginFetch()
      modifies this`loading
      ensures loading
    {
      loading := true;
    }

    /**
     * The end of `fetchPatients`: an error empties the list, returned rows
     * replace it, no data leaves it; loading ends in every case.
     */
    method ApplyPatients(res: Response<seq<Profile>>)
      modifies this`patients, this`loading
      ensures res.Failed? ==> patients == []
      ensures res.Data? ==> patients == res.value
      ensures res.NoData? ==> patients == old(patients)
      ensures !loading
    {
      if res.Failed? {
        patients := [];
      } else if res.Data? {
        patients := res.value;
      }
      loading := false;
    }

    method SetSearchTerm(term: string)
      modifies this`searchTerm
      ensures searchTerm == term
    {
      searchTerm := term;
    }

    /** `handleSelectPatient`: the detail view of exactly that patient is shown. */
    method SelectPatient(p: Profile)
      modifies this`selectedPatient
      ensures selectedPatient == Some(p)
      ensures CurrentScreen() == PatientDetailScreen(doctor, p)
    {
      selectedPatient := Some(p);
    }

    /** The detail view's `onBack`: the selection is cleared and the list is shown again. */
    method Back()
      modifies this`selectedPatient
      ensures selectedPatient == None
      ensures CurrentScreen() == PatientList(FilteredPatients(patients, searchTerm), loading)
    {
      selectedPatient := None;
    }
  }
}

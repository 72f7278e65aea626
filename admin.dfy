/**
 * The administrator's dashboard (src/components/admin/AdminDashboard.tsx):
 * counts of patients, doctors and triage sessions, and one management panel
 * per clinical role.
 */
module Admin {
  import opened Types
  import opened Text
  import opened Seqs

  /** The three figures on the stat cards. */
  datatype Stats = Stats(patients: nat, doctors: nat, triages: nat)

  const InitialStats := Stats(0, 0, 0)

  /** `users.filter(u => u.role === role)`. */
  function UsersWithRole(users: seq<Profile>, role: Role): (r: seq<Profile>)
    ensures IsSublist(r, users)
    ensures forall u :: u in r <==> u in users && u.role == role
  {
    Filter((u: Profile) => u.role == role, users)
  }

  /** Every profile has exactly one of the three roles, so the three role lists share out the whole list. */
  lemma {:induction false} RoleCountsPartition(users: seq<Profile>)
    ensures |UsersWithRole(users, Patient)| + |UsersWithRole(users, Doctor)| + |UsersWithRole(users, Admin)| == |users|
  {
    if users != [] {
      RoleCountsPartition(users[1..]);
    }
  }

  /** Administrators are in neither count, so patients and doctors together never exceed the profiles. */
  lemma PatientsAndDoctorsWithinTotal(users: seq<Profile>)
    ensures |UsersWithRole(users, Patient)| + |UsersWithRole(users, Doctor)| <= |users|
  {
    RoleCountsPartition(users);
  }

  /** `triageCount || 0`: the exact count, or zero when it came back null. */
  function TriageTotal(count: Response<nat>): (n: nat)
    requires !count.Failed?
    ensures count.Data? ==> n == count.value
    ensures count.NoData? ==> n == 0
  {
    if count.Data? then count.value else 0
  }

  /** The figures computed from the fetched profiles and the triage count. */
  function StatsOf(profiles: seq<Profile>, count: Response<nat>): (s: Stats)
    requires !count.Failed?
    ensures s.patients == |UsersWithRole(profiles, Patient)|
    ensures s.doctors == |UsersWithRole(profiles, Doctor)|
    ensures s.triages == TriageTotal(count)
    ensures s.patients + s.doctors <= |profiles|
  {
    PatientsAndDoctorsWithinTotal(profiles);
    Stats(|UsersWithRole(profiles, Patient)|, |UsersWithRole(profiles, Doctor)|, TriageTotal(count))
  }

  /** A management panel: its title and the users it lists. */
  datatype Panel = Panel(title: string, users: seq<Profile>)

  const DoctorsTitle := "Manage Doctors"
  const PatientsTitle := "Manage Patients"

  /** The two panels: the doctors, then the patients, each in the order of the user list. */
  function Panels(users: seq<Profile>): (panels: seq<Panel>)
    ensures |panels| == 2
    ensures panels[0].title == DoctorsTitle && panels[1].title == PatientsTitle
    ensures forall u :: u in panels[0].users <==> u in users && u.role == Doctor
    ensures forall u :: u in panels[1].users <==> u in users && u.role == Patient
    ensures IsSublist(panels[0].users, users) && IsSublist(panels[1].users, users)
  {
    [Panel(DoctorsTitle, UsersWithRole(users, Doctor)), Panel(PatientsTitle, UsersWithRole(users, Patient))]
  }

  /** The "Add new" action's label, `title.slice(7, -1)`. */
  function AddNewLabel(title: string): (text: string)
    ensures |title| >= 8 ==> text == title[7..|title| - 1]
    ensures |title| < 9 ==> text == []
  {
    Slice(title, 7, -1)
  }

  /** For a title "Manage " + a plural in -s, the label is the singular. */
  lemma AddNewLabelIsSingular(word: string)
    ensures AddNewLabel("Manage " + word + "s") == word
  {
    var title := "Manage " + word + "s";
    assert title[7..|title| - 1] == word;
  }

  lemma PanelLabels()
    ensures AddNewLabel(DoctorsTitle) == "Doctor"
    ensures AddNewLabel(PatientsTitle) == "Patient"
  {
    AddNewLabelIsSingular("Doctor");
    assert DoctorsTitle == "Manage " + "Doctor" + "s";
    AddNewLabelIsSingular("Patient");
    assert PatientsTitle == "Manage " + "Patient" + "s";
  }

  /** The dashboard's state hooks; `admin` is its property. */
  class AdminDashboard {
    const admin: Profile
    var stats: Stats
    var users: seq<Profile>
    var loading: bool

    constructor (admin: Profile)
      ensures this.admin == admin
      ensures stats == InitialStats && users == [] && loading
    {
      this.admin := admin;
      stats, users, loading := InitialStats, [], true;
    }

    /** The start of `fetchAdminData`. */
    method BeginFetch()
      modifies this`loading
      ensures loading
    {
      loading := true;
    }

    /**
     * The end of `fetchAdminData`, after the profile read and the triage
     * count: if either failed, figures and users stay as they were; with
     * profiles returned, the figures are computed from them and they become
     * the user list. Loading ends in every case.
     */
    method ApplyAdminData(profilesRes: Response<seq<Profile>>, countRes: Response<nat>)
      modifies this`stats, this`users, this`loading
      ensures profilesRes.Data? && !countRes.Failed? ==>
        stats == StatsOf(profilesRes.value, countRes) && users == profilesRes.value
      ensures !(profilesRes.Data? && !countRes.Failed?) ==> stats == old(stats) && users == old(users)
      ensures !loading
    {
      if profilesRes.Failed? || countRes.Failed? {
      } else if profilesRes.Data? {
        var profiles := profilesRes.value;
        stats := Stats(|UsersWithRole(profiles, Patient)|, |UsersWithRole(profiles, Doctor)|, TriageTotal(countRes));
        users := profiles;
      }
      loading := false;
    }

    /** The management panels drawn from the current user list. */
    function CurrentPanels(): (panels: seq<Panel>)
      reads this
      ensures |panels| == 2
      ensures panels[0].title == DoctorsTitle && panels[1].title == PatientsTitle
      ensures forall u :: u in panels[0].users <==> u in users && u.role == Doctor
      ensures forall u :: u in panels[1].users <==> u in users && u.role == Patient
      ensures IsSublist(panels[0].users, users) && IsSublist(panels[1].users, users)
    {
      Panels(users)
    }
  }

  /**
   * After a successful fetch, the patient and doctor figures are the lengths
   * of the patient and doctor panels.
   */
  lemma StatsMatchPanels(profiles: seq<Profile>, count: Response<nat>)
    requires !count.Failed?
    ensures StatsOf(profiles, count).doctors == |Panels(profiles)[0].users|
    ensures StatsOf(profiles, count).patients == |Panels(profiles)[1].users|
  {
  }
}

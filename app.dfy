/**
 * The application shell (src/App.tsx): which profile is signed in, which of
 * the two patient views is current, and which screen is shown for the
 * signed-in role.
 */
module App {
  import opened Types

  /** A signed-in session, reduced to its user's id. */
  datatype Session = Session(userId: string)

  /** The row `handleTriageComplete` asks the backend to insert into `triage_sessions`. */
  datatype TriageInsert = TriageInsert(patientId: string, summary: string, chatHistory: seq<ChatMessage>)

  /** The screens the shell can show in its main area. */
  datatype Screen =
    | LoadingScreen
    | AuthScreen
    | ChatWindow
    | PatientDashboardScreen(user: Profile)
    | DoctorDashboardScreen(doctor: Profile)
    | AdminDashboardScreen(admin: Profile)

  /** `session?.user`. */
  function UserOf(session: Option<Session>): (user: Option<string>)
    ensures user.Some? <==> session.Some?
  {
    match session
    case Some(s) => Some(s.userId)
    case None => None
  }

  /**
   * `fetchUserProfile`: the profile set from the lookup of the user's id. No
   * user, a failed lookup, and a lookup that found no row (the profile may not
   * be provisioned yet) all give no profile; otherwise the first row found.
   * When there is no user the lookup is never made and its answer is ignored.
   */
  function ResolveProfile(user: Option<string>, lookup: Response<seq<Profile>>): (profile: Option<Profile>)
    ensures user.None? ==> profile.None?
    ensures lookup.Failed? ==> profile.None?
    ensures (lookup.NoData? || lookup == Data([])) ==> profile.None?
    ensures user.Some? && lookup.Data? && lookup.value != [] ==> profile == Some(lookup.value[0])
    ensures profile.Some? ==> lookup.Data? && profile.value in lookup.value
  {
    if user.None? then None
    else if lookup.Failed? then None
    else if lookup.Data? && |lookup.value| > 0 then Some(lookup.value[0])
    else None
  }

  /**
   * `renderViewForRole` with `renderPatientView`: the sign-in screen without
   * a session or a profile; for a patient the triage chat in the triage view
   * and the patient dashboard otherwise; the doctor's and the administrator's
   * dashboards for those roles, whatever the view.
   */
  function RenderViewForRole(session: Option<Session>, profile: Option<Profile>, view: AppView): (screen: Screen)
    ensures session.None? || profile.None? ==> screen == AuthScreen
    ensures session.Some? && profile.Some? ==>
      match profile.value.role
      case Patient => screen == if view == Triage then ChatWindow else PatientDashboardScreen(profile.value)
      case Doctor => screen == DoctorDashboardScreen(profile.value)
      case Admin => screen == AdminDashboardScreen(profile.value)
    ensures screen != LoadingScreen
  {
    if session.None? || profile.None? then AuthScreen
    else
      match profile.value.role
      case Patient => if view == Triage then ChatWindow else PatientDashboardScreen(profile.value)
      case Doctor => DoctorDashboardScreen(profile.value)
      case Admin => AdminDashboardScreen(profile.value)
  }

  /** The whole main area: a loading notice until the first profile lookup has settled. */
  function Render(loading: bool, session: Option<Session>, profile: Option<Profile>, view: AppView): (screen: Screen)
    ensures screen == LoadingScreen <==> loading
    ensures !loading ==> screen == RenderViewForRole(session, profile, view)
  {
    if loading then LoadingScreen else RenderViewForRole(session, profile, view)
  }

  /** The footer (drawn once loading is over) carries the medical disclaimer for a patient only. */
  function ShowsDisclaimer(loading: bool, profile: Option<Profile>): (shown: bool)
    ensures shown <==> !loading && profile.Some? && profile.value.role == Patient
  {
    !loading && match profile
      case Some(p) => p.role == Patient
      case None => false
  }

  /**
   * With a session, the disclaimer is shown exactly when one of the two
   * patient screens is: the triage chat or the patient dashboard.
   */
  lemma DisclaimerBesidePatientScreens(loading: bool, session: Option<Session>, profile: Option<Profile>, view: AppView)
    requires session.Some?
    ensures var screen := Render(loading, session, profile, view);
      ShowsDisclaimer(loading, profile) <==> (screen == ChatWindow || screen.PatientDashboardScreen?)
  {
  }

  /** Only a signed-in patient in the triage view sees the triage chat. */
  lemma ChatWindowOnlyForPatientInTriage(loading: bool, session: Option<Session>, profile: Option<Profile>, view: AppView)
    ensures Render(loading, session, profile, view) == ChatWindow <==>
      !loading && session.Some? && profile.Some? && profile.value.role == Patient && view == Triage
  {
  }

  /** The shell's state hooks. */
  class AppState {
    var session: Option<Session>
    var profile: Option<Profile>
    var currentView: AppView
    var loading: bool

    constructor ()
      ensures session == None && profile == None
      ensures currentView == Dashboard && loading
    {
      session, profile := None, None;
      currentView, loading := Dashboard, true;
    }

    /** The current screen. */
    function CurrentScreen(): (screen: Screen)
      reads this
      ensures loading <==> screen == LoadingScreen
      ensures !loading ==> screen == RenderViewForRole(session, profile, currentView)
    {
      Render(loading, session, profile, currentView)
    }

    /**
     * The synchronous part of both session callbacks (the initial
     * `getSession` and every auth-state change): the session is set and
     * `fetchUserProfile` starts. Without a user the profile is cleared at
     * once; with one, the lookup of that user's id is left pending, to be
     * applied by `ApplyProfileLookup`.
     */
    method ReceiveSession(s: Option<Session>) returns (pending: Option<string>)
      modifies this`session, this`profile
      ensures session == s
      ensures pending == UserOf(s)
      ensures profile == if s.None? then None else old(profile)
    {
      session := s;
      pending := UserOf(s);
      if s.None? {
        profile := None;
      }
    }

    /**
     * A pending lookup of `user`'s profile has settled: its answer sets the
     * profile, whatever the session has become in the meantime.
     */
    method ApplyProfileLookup(user: string, lookup: Response<seq<Profile>>)
      modifies this`profile
      ensures profile == ResolveProfile(Some(user), lookup)
    {
      profile := ResolveProfile(Some(user), lookup);
    }

    /** The `finally` of the initial session's profile lookup: loading ends. */
    method EndInitialLoading()
      modifies this`loading
      ensures !loading
    {
      loading := false;
    }

    /**
     * The initial session read, its profile lookup and the end of loading,
     * with nothing else happening meanwhile.
     */
    method OnInitialSession(s: Option<Session>, lookup: Response<seq<Profile>>)
      modifies this`session, this`profile, this`loading
      ensures session == s
      ensures profile == ResolveProfile(UserOf(s), lookup)
      ensures !loading
    {
      OnAuthStateChange(s, lookup);
      EndInitialLoading();
    }

    /**
     * An auth-state change and its profile lookup, with nothing else
     * happening meanwhile; loading is left alone.
     */
    method OnAuthStateChange(s: Option<Session>, lookup: Response<seq<Profile>>)
      modifies this`session, this`profile
      ensures session == s
      ensures profile == ResolveProfile(UserOf(s), lookup)
    {
      var pending := ReceiveSession(s);
      if pending.Some? {
        ApplyProfileLookup(pending.value, lookup);
      }
    }

    /**
     * The synchronous part of `handleTriageComplete`: only a patient's
     * triage is to be written, as a row owned by that patient holding the
     * summary and the chat unchanged. Nothing changes yet.
     */
    method BeginTriageSave(summary: string, chatHistory: seq<ChatMessage>) returns (written: Option<TriageInsert>)
      ensures written.Some? <==> profile.Some? && profile.value.role == Patient
      ensures written.Some? ==> written.value == TriageInsert(profile.value.id, summary, chatHistory)
    {
      written := None;
      if profile.Some? && profile.value.role == Patient {
        written := Some(TriageInsert(profile.value.id, summary, chatHistory));
      }
    }

    /**
     * The triage insert has settled: on success the view returns to the
     * dashboard, whatever it is by now; on an error it stays as it is.
     */
    method CompleteTriageSave(outcome: Outcome)
      modifies this`currentView
      ensures currentView == if outcome.Done? then Dashboard else old(currentView)
    {
      if outcome.Done? {
        currentView := Dashboard;
      }
    }

    /**
     * A whole `handleTriageComplete` with nothing else happening meanwhile:
     * the view returns to the dashboard when a patient's insert succeeds and
     * stays as it was otherwise.
     */
    method HandleTriageComplete(summary: string, chatHistory: seq<ChatMessage>, outcome: Outcome)
      returns (written: Option<TriageInsert>)
      modifies this`currentView
      ensures profile.Some? && profile.value.role == Patient ==>
        written == Some(TriageInsert(profile.value.id, summary, chatHistory))
      ensures !(profile.Some? && profile.value.role == Patient) ==> written == None
      ensures currentView == if written.Some? && outcome.Done? then Dashboard else old(currentView)
    {
      written := BeginTriageSave(summary, chatHistory);
      if written.Some? {
        CompleteTriageSave(outcome);
      }
    }

    /** `handleStartNewTriage`. */
    method HandleStartNewTriage()
      modifies this`currentView
      ensures currentView == Triage
    {
      currentView := Triage;
    }
  }

  /**
   * A sign-out while the initial profile lookup is pending: the lookup still
   * settles afterwards and sets the profile, so the sign-in screen is shown
   * with no session but with a profile, and for a patient profile the
   * disclaimer is drawn beside it.
   */
  method StaleLookupAfterSignOut(userId: string, p: Profile) returns (app: AppState)
    ensures app.session == None && app.profile == Some(p) && !app.loading
    ensures app.CurrentScreen() == AuthScreen
    ensures p.role == Patient ==> ShowsDisclaimer(app.loading, app.profile)
  {
    app := new AppState();
    var pending := app.ReceiveSession(Some(Session(userId)));
    var none := app.ReceiveSession(None);
    app.ApplyProfileLookup(userId, Data([p]));
    app.EndInitialLoading();
  }
}

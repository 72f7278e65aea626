# MediHelp screens, modelled in Dafny

MediHelp is a React front end over a hosted database and identity service. Patients, doctors and administrators each get a dashboard. There is a triage chat, a live chat between a doctor and a patient, appointments and prescriptions. The logic worth modelling lives in the components' state handlers: how backend answers, change-feed events and user actions update each component's state.

Each component is a Dafny `class`. Its fields are the component's state hooks. Its methods are the handlers, and each `modifies` only the hooks that handler sets. Nothing calls the backend. Every backend answer is a parameter of the step that applies it:

- a read's answer is a `Response` (`Data(rows)`, `NoData` for a null `data` with no error, or `Failed(message)`);
- a write's answer is an `Outcome`;
- a change-feed insert is the inserted row.

A handler that awaits a write is split at the `await` into a begin step and a complete step (`BeginSubmit`/`CompleteSubmit`, `BeginSendChatMessage`/`CompleteSendChatMessage`, `BeginSavePrescription`/`CompletePrescriptionSave`, `BeginTriageSave`/`CompleteTriageSave`). So is a session callback and its profile lookup (`ReceiveSession`, `ApplyProfileLookup`, `EndInitialLoading`), and a fetch and its settled answers (`BeginFetch` and the `Apply…`/`SettleFetch` steps). Other events can be applied between the two halves. The whole-handler methods (`HandleAuthAction`, `HandleSendChatMessage`, `HandleSavePrescription`, `HandleTriageComplete`, `OnInitialSession`, `OnAuthStateChange`, `FetchData`) are the case where nothing happens in between.

Modules:

- `Types` (types.dfy): the `Role`, `AppView` and `ChatMessage` types of src/types.ts, and the row shapes of the five tables in database.types.ts.
- `Text` (text.dfy): JavaScript `trim`, `toLowerCase`, `includes` and `slice`.
- `Seqs` (seqs.dfy): `filter`, and the sublist relation it satisfies.
- `PatientDetail` (patient_detail.dfy): the doctor's view of one patient. It covers the three-way fetch, the feed callback, notes, chat sending and prescriptions. `ReplayChat` replays any interleaving of feed inserts and the chat fetch. The lemmas about it say what the chat list ends up holding.
- `App` (app.dfy): profile resolution, the `Triage`/`Dashboard` view state, screen dispatch by role, and the disclaimer.
- `DoctorHome`, `Admin`, `PatientHome`, `Auth`: the doctor, administrator and patient dashboards, and the sign-in/sign-up form.

Behaviours of the code that the lemmas make explicit:

- The live chat list does not deduplicate by id. An accepted feed insert is appended even when its id is already in the list (`RepeatedIdIsAppendedAgain`).
- A settled chat fetch replaces the whole list. Feed inserts that arrived before it are lost, not merged (`FetchDiscardsEarlierMessages`).
- Nothing re-sorts the list.
- No generation token guards the feed callback. The callback checks only that a message belongs to the doctor–patient pair (`AfterFeedInsert`).
- A prescription save puts the returned row in front of the list as it was when the form was submitted. Two saves submitted before the first settles therefore lose the first returned row (`OverlappingSavesLoseTheFirstRow`).
- A profile lookup sets the profile whenever it settles, even after the session it was started for has ended (`StaleLookupAfterSignOut`).
- A failed triage read sets an error and empties that list. It leaves the notes map as it was. The other two lists take their own answers (`SettleFetch`).

## Model

| member | source | states |
|---|---|---|
| `Text.IsWhitespace` | src/components/doctor/PatientDetailView.tsx:123-127 | the characters `trim` removes: the ECMAScript white space (tab, vertical tab, form feed, space, no-break space, byte order mark, the Zs separators) and the four line terminators |
| `Text.IsBlank` | src/components/doctor/PatientDetailView.tsx:123 | a text is blank when all its characters are white space; `Text.Trim` proves this is exactly when `trim()` gives `''` |
| `Text.LeadingBlanks` | src/components/doctor/PatientDetailView.tsx:123-127 | the text starts with exactly that many whitespace characters |
| `Text.TextEnd` | src/components/doctor/PatientDetailView.tsx:123-127 | everything from that position on is whitespace, and the character before it is not |
| `Text.Trim` | src/components/doctor/PatientDetailView.tsx:123-127 | the trimmed text is empty exactly when the input is blank; otherwise it is the piece between the leading and the trailing whitespace, and neither starts nor ends with whitespace |
| `Text.TrimIdempotent` | src/components/doctor/PatientDetailView.tsx:123-127 | trimming an already trimmed text changes nothing, so the sent text is its own trim |
| `Text.ToLower` | src/components/doctor/DoctorDashboard.tsx:38 | lower-casing keeps the length and maps each character on its own |
| `Text.Includes` | src/components/doctor/DoctorDashboard.tsx:38 | `includes` is true exactly when some position of the text starts an occurrence of the term |
| `Text.SliceIndex` | src/components/admin/AdminDashboard.tsx:98 | a `slice` position lands in `0..len`: an index inside the text is kept, one past the end is the length, a negative one counts back from the end, and one before the start is 0 |
| `Text.Slice` | src/components/admin/AdminDashboard.tsx:98 | `slice(start, end)` never gives more than the text; with both positions inside the text it is the piece between them; a negative end drops that many characters from the end; an end not after the start, or a start past the end of the text, gives nothing |
| `Seqs.Filter` | src/components/doctor/DoctorDashboard.tsx:37-39 | a filter keeps exactly the elements that pass the test, as a sublist of the input, so never more of them |
| `Seqs.FilterAppend` | src/components/doctor/DoctorDashboard.tsx:37-39 | filtering a concatenation is concatenating the filtered parts, so the kept elements keep their order |
| `Seqs.FilterKeepsAll` | src/components/doctor/DoctorDashboard.tsx:37-39 | when every element passes the test, the list comes back unchanged |
| `Seqs.SublistBounds` | src/components/doctor/DoctorDashboard.tsx:37-39 | a sublist is no longer than the list it comes from, and all its elements occur in that list |
| `PatientDetail.InPair` | src/components/doctor/PatientDetailView.tsx:102-103 | a message belongs to the conversation when it goes from the doctor to the patient or from the patient to the doctor; `InPairSymmetric` and `AfterFeedInsert` state its use |
| `PatientDetail.InPairSymmetric` | src/components/doctor/PatientDetailView.tsx:102-103 | the pair test is symmetric in the doctor and the patient |
| `PatientDetail.PairMessagesAppend` | src/components/doctor/PatientDetailView.tsx:102-104 | the pair's messages among `a + [m]` are those among `a`, followed by `m` exactly when `m` is in the pair |
| `PatientDetail.RowsOrEmpty` | src/components/doctor/PatientDetailView.tsx:63 | `data` or `[]`: the returned rows, or nothing on an error or null data |
| `PatientDetail.NoteText` | src/components/doctor/PatientDetailView.tsx:66 | `doctor_notes || ''`: the note, or the empty text when it is null; `InitialNotesHoldsLastNote` states where it ends up |
| `PatientDetail.InitialNotes` | src/components/doctor/PatientDetailView.tsx:65-69 | the notes map has exactly one key per triage id |
| `PatientDetail.InitialNotesHoldsLastNote` | src/components/doctor/PatientDetailView.tsx:65-68 | under each id the map holds the `doctor_notes` of the last row with that id, or `''` when that is null |
| `PatientDetail.InitialNotesOfDistinct` | src/components/doctor/PatientDetailView.tsx:65-69 | with unique triage ids, every row's note is found under its own id |
| `PatientDetail.AfterFeedInsert` | src/components/doctor/PatientDetailView.tsx:100-105 | an insert changes the list exactly when the message is in the pair (either direction); the old list stays a prefix and exactly that message is added at the end |
| `PatientDetail.RepeatedIdIsAppendedAgain` | src/components/doctor/PatientDetailView.tsx:104 | with no id check, a pair message whose id is already listed is appended again, leaving two entries with that id |
| `PatientDetail.ChatStep` | src/components/doctor/PatientDetailView.tsx:72-105 | one event on the chat list: a feed insert goes through `AfterFeedInsert`, a settled chat fetch replaces the list with `data || []` |
| `PatientDetail.ReplayChat` | src/components/doctor/PatientDetailView.tsx:72-105 | the chat list after any interleaving of feed inserts and the settled fetch, applied in arrival order; `InsertsAppendPairMessages` and `FetchDiscardsEarlierMessages` state what it holds |
| `PatientDetail.InsertsAppendPairMessages` | src/components/doctor/PatientDetailView.tsx:94-112 | a run of feed inserts keeps the list as a prefix and appends exactly the pair's messages, in arrival order |
| `PatientDetail.FetchDiscardsEarlierMessages` | src/components/doctor/PatientDetailView.tsx:72-78 | after the chat fetch settles, the list is the fetched rows followed by the pair's later inserts; what it held before, including earlier inserts, is discarded |
| `PatientDetail.PatientDetailView.constructor` | src/components/doctor/PatientDetailView.tsx:23-34 | the view starts loading, with empty lists, notes, input and draft, the form hidden and no error |
| `PatientDetail.PatientDetailView.BeginFetch` | src/components/doctor/PatientDetailView.tsx:47-50 | a fetch starts with loading set and all three errors cleared |
| `PatientDetail.PatientDetailView.ApplyTriageResult` | src/components/doctor/PatientDetailView.tsx:58-70 | on error the triage error is set, the list is emptied and the notes are kept; otherwise the list is the rows and the notes map is rebuilt from them |
| `PatientDetail.PatientDetailView.ApplyChatResult` | src/components/doctor/PatientDetailView.tsx:72-78 | the chat list becomes the returned rows (empty on error), whatever it held; the chat error is set only on error |
| `PatientDetail.PatientDetailView.ApplyPrescriptionResult` | src/components/doctor/PatientDetailView.tsx:80-86 | the prescription list becomes the returned rows (empty on error); the error is set only on error |
| `PatientDetail.PatientDetailView.SettleFetch` | src/components/doctor/PatientDetailView.tsx:52-88 | each answer sets only its own list and error, so one source's failure leaves the other two lists as returned; loading ends only after all three are applied |
| `PatientDetail.PatientDetailView.OnFeedInsert` | src/components/doctor/PatientDetailView.tsx:100-105 | the feed callback applies `AfterFeedInsert` for this doctor and patient, and changes nothing else |
| `PatientDetail.PatientDetailView.HandleNoteChange` | src/components/doctor/PatientDetailView.tsx:114 | the typed note replaces the one under that triage id; no other key is added or removed |
| `PatientDetail.PatientDetailView.HandleSaveNote` | src/components/doctor/PatientDetailView.tsx:116-120 | saving writes the displayed note of that triage row, and changes no state whatever the answer |
| `PatientDetail.PatientDetailView.SetChatInput` | src/components/doctor/PatientDetailView.tsx:202 | typing sets the chat input |
| `PatientDetail.PatientDetailView.BeginSendChatMessage` | src/components/doctor/PatientDetailView.tsx:122-128 | a blank input sends nothing; otherwise the message is the trimmed input, from the doctor to the patient, and is non-empty and its own trim |
| `PatientDetail.PatientDetailView.CompleteSendChatMessage` | src/components/doctor/PatientDetailView.tsx:129-131 | on success the input is cleared, including anything typed while the insert was pending; on an error it is kept |
| `PatientDetail.PatientDetailView.HandleSendChatMessage` | src/components/doctor/PatientDetailView.tsx:122-132 | a whole send with nothing typed meanwhile: blank input sends nothing; otherwise the trimmed input goes from the doctor to the patient, the input is cleared only on success, and the message list is never touched |
| `PatientDetail.PatientDetailView.TogglePrescriptionForm` | src/components/doctor/PatientDetailView.tsx:215 | the button flips whether the form is shown |
| `PatientDetail.PatientDetailView.EditPrescriptionDraft` | src/components/doctor/PatientDetailView.tsx:225-233 | editing sets the draft |
| `PatientDetail.PatientDetailView.BeginSavePrescription` | src/components/doctor/PatientDetailView.tsx:134-144 | nothing is written exactly when medication or dosage is empty; otherwise the draft is written for this patient by this doctor |
| `PatientDetail.PatientDetailView.CompletePrescriptionSave` | src/components/doctor/PatientDetailView.tsx:145-152 | a returned row is put in front of the list as it was at submit time, whatever it holds by now, and the form is hidden and emptied; an error or no row changes nothing |
| `PatientDetail.PatientDetailView.HandleSavePrescription` | src/components/doctor/PatientDetailView.tsx:134-153 | a whole save with nothing else happening meanwhile: an empty medication or dosage writes nothing and changes nothing; otherwise the draft is written for this patient and doctor; only when a row comes back is it put first, the form hidden and reset; an error changes nothing |
| `PatientDetail.OverlappingSavesLoseTheFirstRow` | src/components/doctor/PatientDetailView.tsx:145-149 | two saves submitted before the first settles end with only the second returned row: the first one is lost |
| `App.UserOf` | src/App.tsx:49 | the session's user exists exactly when the session does |
| `App.ResolveProfile` | src/App.tsx:21-44 | no user, a lookup error and an empty lookup all give no profile; otherwise the profile is the first returned row |
| `App.RenderViewForRole` | src/App.tsx:119-146 | no session or no profile gives the sign-in screen; a patient gets the triage chat in the triage view and the dashboard otherwise; a doctor and an admin get their dashboards |
| `App.Render` | src/App.tsx:89-95 | the loading notice is shown exactly while loading; afterwards the role's screen is shown |
| `App.ShowsDisclaimer` | src/App.tsx:158 | the disclaimer is in the footer exactly when the profile's role is Patient (the footer is drawn once loading is over) |
| `App.DisclaimerBesidePatientScreens` | src/App.tsx:119-158 | with a session, the disclaimer shows exactly when a patient screen does |
| `App.ChatWindowOnlyForPatientInTriage` | src/App.tsx:119-146 | the triage chat is shown exactly to a signed-in patient in the triage view |
| `App.AppState.constructor` | src/App.tsx:15-18 | the shell starts loading, with no session or profile, in the dashboard view |
| `App.AppState.CurrentScreen` | src/App.tsx:89-154 | the loading notice is shown exactly while loading; after that the screen is the one `RenderViewForRole` gives for the session, profile and view |
| `App.AppState.ReceiveSession` | src/App.tsx:47-56 | a session callback sets the session; without a user it clears the profile at once, with one it leaves the profile and the lookup of that user pending |
| `App.AppState.ApplyProfileLookup` | src/App.tsx:26-43 | a settled lookup sets the profile from its answer, whatever the session has become meanwhile |
| `App.AppState.EndInitialLoading` | src/App.tsx:49 | loading ends once the initial lookup has settled |
| `App.AppState.OnInitialSession` | src/App.tsx:47-50 | the initial session and its lookup with nothing in between: session and resolved profile are set, and loading ends |
| `App.AppState.OnAuthStateChange` | src/App.tsx:53-56 | a later auth change and its lookup with nothing in between: session and profile are set, and loading is left as it was |
| `App.AppState.BeginTriageSave` | src/App.tsx:67-74 | a triage is written exactly when the profile is a patient, as a row owned by that patient with the summary and the chat unchanged |
| `App.AppState.CompleteTriageSave` | src/App.tsx:75-81 | on success the view returns to the dashboard, whatever it is by now; on an error it stays |
| `App.AppState.HandleTriageComplete` | src/App.tsx:67-83 | only a patient's triage is written, owned by that patient with the summary and chat unchanged; success returns to the dashboard; failure leaves the view |
| `App.AppState.HandleStartNewTriage` | src/App.tsx:85-87 | starting a new triage enters the triage view |
| `App.StaleLookupAfterSignOut` | src/App.tsx:20-56 | a sign-out while the initial lookup is pending ends with no session but a profile: the sign-in screen shows, with the disclaimer beside it for a patient profile |
| `DoctorHome.NameMatches` | src/components/doctor/DoctorDashboard.tsx:38 | a patient matches when the lower-cased name includes the lower-cased term; `EmptySearchShowsAll` shows the empty term matches everyone |
| `DoctorHome.FilteredPatients` | src/components/doctor/DoctorDashboard.tsx:37-39 | the shown patients are exactly those whose lower-cased name contains the lower-cased term, as an order-preserving sublist, so never more than were fetched |
| `DoctorHome.EmptySearchShowsAll` | src/components/doctor/DoctorDashboard.tsx:37-39 | an empty search shows every patient, in order |
| `DoctorHome.DoctorDashboard.constructor` | src/components/doctor/DoctorDashboard.tsx:13-16 | the dashboard starts loading with no patients, no selection and no search |
| `DoctorHome.DoctorDashboard.CurrentScreen` | src/components/doctor/DoctorDashboard.tsx:45-71 | a selected patient gets the detail view with this doctor; otherwise the list shows exactly the fetched patients whose name matches the search, in order, with a spinner while loading |
| `DoctorHome.DoctorDashboard.BeginFetch` | src/components/doctor/DoctorDashboard.tsx:20 | a fetch starts loading |
| `DoctorHome.DoctorDashboard.ApplyPatients` | src/components/doctor/DoctorDashboard.tsx:26-32 | an error empties the list, rows replace it, null data leaves it; loading ends in every case |
| `DoctorHome.DoctorDashboard.SetSearchTerm` | src/components/doctor/DoctorDashboard.tsx:64 | typing sets the search term |
| `DoctorHome.DoctorDashboard.SelectPatient` | src/components/doctor/DoctorDashboard.tsx:41-43 | selecting a patient shows the detail view of exactly that patient |
| `DoctorHome.DoctorDashboard.Back` | src/components/doctor/DoctorDashboard.tsx:49 | going back clears the selection and shows the filtered list again |
| `Admin.UsersWithRole` | src/components/admin/AdminDashboard.tsx:35-36 | the role filter keeps exactly the users of that role, in order |
| `Admin.RoleCountsPartition` | src/components/admin/AdminDashboard.tsx:35-36 | the patient, doctor and admin counts add up to the number of profiles |
| `Admin.PatientsAndDoctorsWithinTotal` | src/components/admin/AdminDashboard.tsx:35-36 | patients plus doctors never exceed the profiles, since admins are in neither count |
| `Admin.TriageTotal` | src/components/admin/AdminDashboard.tsx:37 | the triage figure is the count, or 0 when the count is null |
| `Admin.StatsOf` | src/components/admin/AdminDashboard.tsx:34-37 | the figures are the Patient-role count, the Doctor-role count and the triage total, and the first two together never exceed the profiles |
| `Admin.Panels` | src/components/admin/AdminDashboard.tsx:70-79 | the doctor panel lists exactly the Doctor-role users and the patient panel exactly the Patient-role users, each in order |
| `Admin.AddNewLabel` | src/components/admin/AdminDashboard.tsx:98 | the label is the title without its first seven characters and its last one |
| `Admin.AddNewLabelIsSingular` | src/components/admin/AdminDashboard.tsx:98 | for a title "Manage " + w + "s" the label is w |
| `Admin.PanelLabels` | src/components/admin/AdminDashboard.tsx:70-98 | the two panels' labels are "Doctor" and "Patient" |
| `Admin.StatsMatchPanels` | src/components/admin/AdminDashboard.tsx:35-77 | the doctor and patient figures equal the lengths of the doctor and patient panels |
| `Admin.AdminDashboard.constructor` | src/components/admin/AdminDashboard.tsx:19-21 | the dashboard starts loading with zero figures and no users |
| `Admin.AdminDashboard.BeginFetch` | src/components/admin/AdminDashboard.tsx:25 | a fetch starts loading |
| `Admin.AdminDashboard.ApplyAdminData` | src/components/admin/AdminDashboard.tsx:28-41 | if either read failed, figures and users stay as they were; with profiles returned the figures are computed from them and they become the users; loading ends in every case |
| `Admin.AdminDashboard.CurrentPanels` | src/components/admin/AdminDashboard.tsx:70-79 | the doctor panel and then the patient panel, under their titles, each listing exactly the current users of its role, in order |
| `PatientHome.ListAfterRead` | src/components/patient/PatientDashboard.tsx:35-54 | after a read an error empties the list, rows replace it, and null data leaves it as it was |
| `PatientHome.Toggled` | src/components/patient/PatientDashboard.tsx:62-64 | toggling the unfolded entry folds it; toggling any other unfolds that one |
| `PatientHome.ToggleTwiceFromFolded` | src/components/patient/PatientDashboard.tsx:62-64 | toggling an entry twice from a folded list folds it again |
| `PatientHome.PatientDashboard.constructor` | src/components/patient/PatientDashboard.tsx:19-22 | the dashboard starts loading with empty lists and nothing unfolded |
| `PatientHome.PatientDashboard.IsExpanded` | src/components/patient/PatientDashboard.tsx:105-107 | an entry shows its conversation exactly when its id is the unfolded one; `AtMostOneExpanded` states the consequence |
| `PatientHome.PatientDashboard.AtMostOneExpanded` | src/components/patient/PatientDashboard.tsx:105-107 | no two different entries are unfolded at once |
| `PatientHome.PatientDashboard.BeginFetch` | src/components/patient/PatientDashboard.tsx:26 | a fetch starts loading |
| `PatientHome.PatientDashboard.ApplyTriageResult` | src/components/patient/PatientDashboard.tsx:29-40 | the triage list follows `ListAfterRead` and nothing else changes |
| `PatientHome.PatientDashboard.ApplyAppointmentsResult` | src/components/patient/PatientDashboard.tsx:43-54 | the appointment list follows `ListAfterRead` and nothing else changes |
| `PatientHome.PatientDashboard.FetchData` | src/components/patient/PatientDashboard.tsx:25-57 | both reads are applied in turn, each list from its own answer only, and loading ends after both |
| `PatientHome.PatientDashboard.ToggleTriageExpansion` | src/components/patient/PatientDashboard.tsx:62-64 | the clicked entry is unfolded exactly when it was folded, and no other entry is unfolded |
| `Auth.AuthScreen.constructor` | src/components/auth/AuthScreen.tsx:6-13 | the form starts in sign-in mode, role Patient, empty fields, not loading, no error or message |
| `Auth.AuthScreen.EnterCredentials` | src/components/auth/AuthScreen.tsx:83-103 | typing sets email and password |
| `Auth.AuthScreen.EnterFullName` | src/components/auth/AuthScreen.tsx:69-76 | typing sets the full name |
| `Auth.AuthScreen.ChooseRole` | src/components/auth/AuthScreen.tsx:110-112 | the select sets the sign-up role |
| `Auth.AuthScreen.BeginSubmit` | src/components/auth/AuthScreen.tsx:16-42 | a submit sets loading and clears error and message; sign-in is requested with the credentials; sign-up with an empty name reports "Full name is required.", ends loading and calls nothing; otherwise sign-up is requested with the name and role as metadata |
| `Auth.AuthScreen.CompleteSubmit` | src/components/auth/AuthScreen.tsx:22-50 | a provider error is shown with its message; a sign-up that returned a user shows the confirmation message; loading ends |
| `Auth.AuthScreen.HandleAuthAction` | src/components/auth/AuthScreen.tsx:16-51 | over a whole submit, only a sign-up with an empty name makes no call; the error and message end as above; loading is false at the end of every path |
| `Auth.AuthScreen.ToggleView` | src/components/auth/AuthScreen.tsx:137 | switching between sign-in and sign-up flips the mode and clears the error; the message is left as it was |

## Left out

- Backend and identity-provider calls (table reads, counts, inserts, updates, sign-in, sign-up, sign-out, session reads, auth-state and change-feed subscriptions, channel removal) are not modelled. Their answers are parameters, and the rows an operation would write are returned as values.
- `Promise.all`, `async`/`await` ordering and subscription teardown are left out. Each settled answer and each feed event is one atomic step. The model therefore says nothing about a feed callback that fires after its channel was removed.
- Admin.AdminDashboard.ApplyAdminData: the two awaited reads of `fetchAdminData` settle in one step. Nothing else in the dashboard changes the figures or the users, so no event between the two reads is lost.
- PatientDetail.PatientDetailView.HandleSaveNote: the awaited update is one step. Its answer changes no state, so nothing is lost by not splitting it.
- `alert`, `console.error` and `console.warn` are left out. They change no state.
- JSX rendering, CSS, scrolling to the newest message and the tab state of the detail view are left out. So are the header, the logout button and `formatDate`, which formats through the platform's locale-dependent `Date` API.
- `handleManageUser` is left out. It only shows an alert.
- Disclaimer, StatCard, LoadingSpinner, the icon components, ChatWindow and the backend client module are not part of this model. They hold no state logic, or are not part of the modelled components.
- Text.ToLower: lower-cases the ASCII letters only. JavaScript's `toLowerCase` also maps non-ASCII letters, so the name search is modelled for ASCII names.
- `Json`, the Insert/Update row shapes, Relationships, Views and Functions of the schema are left out. `chat_history` is read as a list of chat messages, as the code casts it.
- App.ResolveProfile: a session is reduced to its user id. A session without a user is not modelled, because the identity provider's sessions always carry one.
- The `default` branch of the role switch is unreachable, because a role is always one of the three.

/**
 * The clinician's view of one patient (src/components/doctor/PatientDetailView.tsx):
 * the triage history with editable notes, the live chat between the doctor
 * and the patient, and the prescriptions. Backend answers and change-feed
 * insert events are parameters of the operations that apply them.
 */
module PatientDetail {
  import opened Types
  import opened Text
  import opened Seqs

  const TriageLoadError := "Could not load triage history."
  const ChatLoadError := "Could not load chat messages. The database table might be missing or misconfigured."
  const PrescriptionLoadError := "Could not load prescriptions. The database table might be missing or a column might be incorrect."

  /** The prescription form's three fields. */
  datatype PrescriptionDraft = PrescriptionDraft(medication: string, dosage: string, instructions: string)

  const EmptyDraft := PrescriptionDraft("", "", "")

  /** The row the send handler asks the backend to insert into `live_chat_messages`. */
  datatype MessageInsert = MessageInsert(senderId: string, receiverId: string, messageText: string)

  /** The row the save handler asks the backend to insert into `prescriptions`. */
  datatype PrescriptionInsert = PrescriptionInsert(
    medication: string, dosage: string, instructions: string, patientId: string, doctorId: string)

  /**
   * The update of `triage_sessions` the note handler sends; `None` stands for
   * an undefined note, which leaves `doctor_notes` out of the patch.
   */
  datatype NoteUpdate = NoteUpdate(triageId: string, doctorNotes: Option<string>)

  /** A message of the conversation between the two, in either direction. */
  predicate InPair(m: LiveChatMessage, doctorId: string, patientId: string) {
    || (m.senderId == doctorId && m.receiverId == patientId)
    || (m.senderId == patientId && m.receiverId == doctorId)
  }

  /** The pair is symmetric: swapping the two parties keeps the same messages. */
  lemma InPairSymmetric(m: LiveChatMessage, a: string, b: string)
    ensures InPair(m, a, b) <==> InPair(m, b, a)
  {
  }

  /** The messages of `ms` that belong to the conversation, in order. */
  function PairMessages(ms: seq<LiveChatMessage>, doctorId: string, patientId: string): seq<LiveChatMessage> {
    Filter((m: LiveChatMessage) => InPair(m, doctorId, patientId), ms)
  }

  lemma PairMessagesAppend(a: seq<LiveChatMessage>, m: LiveChatMessage, doctorId: string, patientId: string)
    ensures PairMessages(a + [m], doctorId, patientId)
         == PairMessages(a, doctorId, patientId) + (if InPair(m, doctorId, patientId) then [m] else [])
  {
    FilterAppend((m: LiveChatMessage) => InPair(m, doctorId, patientId), a, [m]);
    assert [m][1..] == [];
  }

  /** `data || []`: the returned rows, or nothing when the call failed or returned no data. */
  function RowsOrEmpty<T>(res: Response<seq<T>>): (rows: seq<T>)
    ensures res.Data? ==> rows == res.value
    ensures !res.Data? ==> rows == []
  {
    if res.Data? then res.value else []
  }

  /** `doctor_notes || ''`. */
  function NoteText(t: TriageSession): string {
    match t.doctorNotes
    case Some(n) => n
    case None => ""
  }

  /** The ids of a triage list. */
  function TriageIds(triages: seq<TriageSession>): set<string> {
    set t | t in triages :: t.id
  }

  lemma TriageIdsOfSnoc(triages: seq<TriageSession>)
    requires triages != []
    ensures TriageIds(triages) == TriageIds(triages[..|triages| - 1]) + {triages[|triages| - 1].id}
  {
    var n := |triages| - 1;
    assert triages == triages[..n] + [triages[n]];
    assert forall t :: t in triages <==> t in triages[..n] || t == triages[n];
  }

  /**
   * The notes map built from the triage list (a `reduce` from an empty
   * record): one key per triage id.
   */
  function InitialNotes(triages: seq<TriageSession>): (notes: map<string, string>)
    ensures notes.Keys == TriageIds(triages)
  {
    if triages == [] then map[]
    else
      var n := |triages| - 1;
      TriageIdsOfSnoc(triages);
      InitialNotes(triages[..n])[triages[n].id := NoteText(triages[n])]
  }

  /**
   * The note stored under a triage id is that of the last row carrying the
   * id, `doctor_notes` or the empty string when it is null.
   */
  lemma {:induction false} InitialNotesHoldsLastNote(triages: seq<TriageSession>, i: nat)
    requires i < |triages|
    requires forall j :: i < j < |triages| ==> triages[j].id != triages[i].id
    ensures triages[i].id in InitialNotes(triages)
    ensures InitialNotes(triages)[triages[i].id] == NoteText(triages[i])
  {
    var n := |triages| - 1;
    var front := triages[..n];
    assert InitialNotes(triages) == InitialNotes(front)[triages[n].id := NoteText(triages[n])];
    if i < n {
      assert front[i] == triages[i];
      assert triages[n].id != triages[i].id;
      forall j | i < j < |front| ensures front[j].id != front[i].id {
        assert front[j] == triages[j];
      }
      InitialNotesHoldsLastNote(front, i);
    }
  }

  /** Triage ids are unique, as the table's primary key makes them. */
  predicate DistinctIds(triages: seq<TriageSession>) {
    forall i, j :: 0 <= i < j < |triages| ==> triages[i].id != triages[j].id
  }

  /** With unique ids every triage row's note is found under its own id. */
  lemma InitialNotesOfDistinct(triages: seq<TriageSession>)
    requires DistinctIds(triages)
    ensures forall t :: t in triages ==> t.id in InitialNotes(triages) && InitialNotes(triages)[t.id] == NoteText(t)
  {
    forall t | t in triages ensures t.id in InitialNotes(triages) && InitialNotes(triages)[t.id] == NoteText(t) {
      var i :| 0 <= i < |triages| && triages[i] == t;
      InitialNotesHoldsLastNote(triages, i);
    }
  }

  /**
   * One feed insert applied to the message list: a message of the pair is
   * appended at the end, any other leaves the list as it was. There is no
   * check for an id already in the list and no re-sorting.
   */
  function AfterFeedInsert(messages: seq<LiveChatMessage>, m: LiveChatMessage, doctorId: string, patientId: string)
    : (r: seq<LiveChatMessage>)
    ensures messages <= r
    ensures r != messages <==> InPair(m, doctorId, patientId)
    ensures |r| == |messages| + (if InPair(m, doctorId, patientId) then 1 else 0)
    ensures InPair(m, doctorId, patientId) ==> r[|messages|] == m
  {
    if InPair(m, doctorId, patientId) then messages + [m] else messages
  }

  /**
   * A message whose id is already in the list is appended again: after the
   * insert two entries carry that id.
   */
  lemma RepeatedIdIsAppendedAgain(messages: seq<LiveChatMessage>, k: nat, m: LiveChatMessage, doctorId: string, patientId: string)
    requires k < |messages| && messages[k].id == m.id
    requires InPair(m, doctorId, patientId)
    ensures var r := AfterFeedInsert(messages, m, doctorId, patientId);
      |r| == |messages| + 1 && r[k].id == r[|r| - 1].id && k != |r| - 1
  {
  }

  /** What reaches the chat list while the view is open: a feed insert or the settled chat fetch. */
  datatype ChatEvent = Inserted(m: LiveChatMessage) | Fetched(res: Response<seq<LiveChatMessage>>)

  /** The chat list after one event. */
  function ChatStep(messages: seq<LiveChatMessage>, e: ChatEvent, doctorId: string, patientId: string): seq<LiveChatMessage> {
    match e
    case Inserted(m) => AfterFeedInsert(messages, m, doctorId, patientId)
    case Fetched(res) => RowsOrEmpty(res)
  }

  /** The chat list after a run of events, applied in order. */
  function ReplayChat(messages: seq<LiveChatMessage>, events: seq<ChatEvent>, doctorId: string, patientId: string)
    : seq<LiveChatMessage>
  {
    if events == [] then messages
    else ChatStep(ReplayChat(messages, events[..|events| - 1], doctorId, patientId), events[|events| - 1], doctorId, patientId)
  }

  /** The messages carried by the insert events of a run. */
  function InsertedMessages(events: seq<ChatEvent>): seq<LiveChatMessage> {
    if events == [] then []
    else
      var n := |events| - 1;
      InsertedMessages(events[..n]) + (if events[n].Inserted? then [events[n].m] else [])
  }

  lemma {:induction false} ReplayChatAppend(messages: seq<LiveChatMessage>, a: seq<ChatEvent>, b: seq<ChatEvent>, doctorId: string, patientId: string)
    ensures ReplayChat(messages, a + b, doctorId, patientId)
         == ReplayChat(ReplayChat(messages, a, doctorId, patientId), b, doctorId, patientId)
    decreases |b|
  {
    if b == [] {
      assert a + b == a;
    } else {
      var n := |b| - 1;
      assert (a + b)[..|a + b| - 1] == a + b[..n];
      ReplayChatAppend(messages, a, b[..n], doctorId, patientId);
    }
  }

  /**
   * Feed inserts alone keep the list as a prefix and append, in arrival
   * order, exactly the inserted messages that belong to the pair.
   */
  lemma {:induction false} InsertsAppendPairMessages(messages: seq<LiveChatMessage>, events: seq<ChatEvent>, doctorId: string, patientId: string)
    requires forall i :: 0 <= i < |events| ==> events[i].Inserted?
    ensures ReplayChat(messages, events, doctorId, patientId)
         == messages + PairMessages(InsertedMessages(events), doctorId, patientId)
  {
    if events == [] {
      assert messages + [] == messages;
    } else {
      var n := |events| - 1;
      var front := events[..n];
      assert forall i :: 0 <= i < |front| ==> front[i] == events[i];
      InsertsAppendPairMessages(messages, front, doctorId, patientId);
      var m := events[n].m;
      assert InsertedMessages(events) == InsertedMessages(front) + [m];
      PairMessagesAppend(InsertedMessages(front), m, doctorId, patientId);
    }
  }

  /**
   * A settled chat fetch replaces the whole list: whatever was in it, and
   * every insert that arrived before it, is gone. Afterwards the list is the
   * fetched rows followed by the pair's later inserts.
   */
  lemma {:induction false} FetchDiscardsEarlierMessages(messages: seq<LiveChatMessage>, events: seq<ChatEvent>, k: nat, doctorId: string, patientId: string)
    requires k < |events| && events[k].Fetched?
    requires forall i :: k < i < |events| ==> events[i].Inserted?
    ensures ReplayChat(messages, events, doctorId, patientId)
         == RowsOrEmpty(events[k].res) + PairMessages(InsertedMessages(events[k + 1..]), doctorId, patientId)
  {
    var upTo, after := events[..k + 1], events[k + 1..];
    assert events == upTo + after;
    ReplayChatAppend(messages, upTo, after, doctorId, patientId);
    assert upTo[..|upTo| - 1] == events[..k];
    InsertsAppendPairMessages(RowsOrEmpty(events[k].res), after, doctorId, patientId);
  }

  /**
   * The state of the detail view: one field per state hook of the component.
   * `doctor` and `patient` are its properties.
   */
  class PatientDetailView {
    const doctor: Profile
    const patient: Profile
    var triageHistory: seq<TriageSession>
    var liveChatMessages: seq<LiveChatMessage>
    var prescriptions: seq<Prescription>
    var loading: bool
    var notes: map<string, string>
    var chatInput: string
    var showPrescriptionForm: bool
    var newPrescription: PrescriptionDraft
    var triageError: Option<string>
    var chatError: Option<string>
    var prescriptionError: Option<string>

    constructor (doctor: Profile, patient: Profile)
      ensures this.doctor == doctor && this.patient == patient
      ensures triageHistory == [] && liveChatMessages == [] && prescriptions == []
      ensures loading && notes == map[] && chatInput == ""
      ensures !showPrescriptionForm && newPrescription == EmptyDraft
      ensures triageError == None && chatError == None && prescriptionError == None
    {
      this.doctor := doctor;
      this.patient := patient;
      triageHistory, liveChatMessages, prescriptions := [], [], [];
      loading, notes, chatInput := true, map[], "";
      showPrescriptionForm, newPrescription := false, EmptyDraft;
      triageError, chatError, prescriptionError := None, None, None;
    }

    /** The start of `fetchAllPatientData`: loading, and no error shown. */
    method BeginFetch()
      modifies this`loading, this`triageError, this`chatError, this`prescriptionError
      ensures loading
      ensures triageError == None && chatError == None && prescriptionError == None
    {
      loading := true;
      triageError := None;
      chatError := None;
      prescriptionError := None;
    }

    /** Applies the triage answer; the notes map is rebuilt only on success. */
    method ApplyTriageResult(res: Response<seq<TriageSession>>)
      modifies this`triageHistory, this`notes, this`triageError
      ensures triageHistory == RowsOrEmpty(res)
      ensures res.Failed? ==> triageError == Some(TriageLoadError) && notes == old(notes)
      ensures !res.Failed? ==> triageError == old(triageError) && notes == InitialNotes(triageHistory)
    {
      if res.Failed? {
        triageError := Some(TriageLoadError);
        triageHistory := [];
      } else {
        var triageData := RowsOrEmpty(res);
        triageHistory := triageData;
        notes := InitialNotes(triageData);
      }
    }

    /** Applies the chat answer: the list becomes the returned rows, whatever it held. */
    method ApplyChatResult(res: Response<seq<LiveChatMessage>>)
      modifies this`liveChatMessages, this`chatError
      ensures liveChatMessages == ChatStep(old(liveChatMessages), Fetched(res), doctor.id, patient.id)
      ensures liveChatMessages == RowsOrEmpty(res)
      ensures chatError == if res.Failed? then Some(ChatLoadError) else old(chatError)
    {
      if res.Failed? {
        chatError := Some(ChatLoadError);
        liveChatMessages := [];
      } else {
        liveChatMessages := RowsOrEmpty(res);
      }
    }

    /** Applies the prescriptions answer. */
    method ApplyPrescriptionResult(res: Response<seq<Prescription>>)
      modifies this`prescriptions, this`prescriptionError
      ensures prescriptions == RowsOrEmpty(res)
      ensures prescriptionError == if res.Failed? then Some(PrescriptionLoadError) else old(prescriptionError)
    {
      if res.Failed? {
        prescriptionError := Some(PrescriptionLoadError);
        prescriptions := [];
      } else {
        prescriptions := RowsOrEmpty(res);
      }
    }

    /**
     * The end of `fetchAllPatientData`, once all three reads have settled:
     * each answer sets only its own list and error, and loading ends after
     * all three are applied.
     */
    method SettleFetch(triageRes: Response<seq<TriageSession>>,
                       chatRes: Response<seq<LiveChatMessage>>,
                       prescriptionRes: Response<seq<Prescription>>)
      modifies this`triageHistory, this`notes, this`triageError, this`liveChatMessages, this`chatError,
               this`prescriptions, this`prescriptionError, this`loading
      ensures triageHistory == RowsOrEmpty(triageRes)
      ensures liveChatMessages == RowsOrEmpty(chatRes)
      ensures prescriptions == RowsOrEmpty(prescriptionRes)
      ensures notes == if triageRes.Failed? then old(notes) else InitialNotes(triageHistory)
      ensures triageError == if triageRes.Failed? then Some(TriageLoadError) else old(triageError)
      ensures chatError == if chatRes.Failed? then Some(ChatLoadError) else old(chatError)
      ensures prescriptionError == if prescriptionRes.Failed? then Some(PrescriptionLoadError) else old(prescriptionError)
      ensures !loading
    {
      ApplyTriageResult(triageRes);
      ApplyChatResult(chatRes);
      ApplyPrescriptionResult(prescriptionRes);
      loading := false;
    }

    /** The change-feed callback for one inserted `live_chat_messages` row. */
    method OnFeedInsert(m: LiveChatMessage)
      modifies this`liveChatMessages
      ensures liveChatMessages == ChatStep(old(liveChatMessages), Inserted(m), doctor.id, patient.id)
      ensures liveChatMessages == AfterFeedInsert(old(liveChatMessages), m, doctor.id, patient.id)
    {
      if (m.senderId == doctor.id && m.receiverId == patient.id) ||
         (m.senderId == patient.id && m.receiverId == doctor.id) {
        liveChatMessages := liveChatMessages + [m];
      }
    }

    /** `handleNoteChange`: the note typed for one triage row. */
    method HandleNoteChange(triageId: string, text: string)
      modifies this`notes
      ensures notes == old(notes)[triageId := text]
      ensures triageId in notes && notes[triageId] == text
      ensures forall id :: id != triageId ==> (id in notes <==> id in old(notes))
    {
      notes := notes[triageId := text];
    }

    /**
     * `handleSaveNote`: writes the displayed note of one triage row. Whatever
     * the backend answers, nothing in the view changes.
     */
    method HandleSaveNote(triageId: string) returns (update: NoteUpdate)
      ensures update.triageId == triageId
      ensures update.doctorNotes == if triageId in notes then Some(notes[triageId]) else None
    {
      update := NoteUpdate(triageId, if triageId in notes then Some(notes[triageId]) else None);
    }

    method SetChatInput(text: string)
      modifies this`chatInput
      ensures chatInput == text
    {
      chatInput := text;
    }

    /**
     * The synchronous part of `handleSendChatMessage`: a blank input sends
     * nothing; otherwise the trimmed input is to be sent from the doctor to
     * the patient. Nothing in the view changes yet.
     */
    method BeginSendChatMessage() returns (sent: Option<MessageInsert>)
      ensures IsBlank(chatInput) ==> sent == None
      ensures !IsBlank(chatInput) ==> sent == Some(MessageInsert(doctor.id, patient.id, Trim(chatInput)))
      ensures sent.Some? ==> sent.value.messageText != [] && sent.value.messageText == Trim(sent.value.messageText)
    {
      var text := Trim(chatInput);
      if text == "" {
        return None;
      }
      sent := Some(MessageInsert(doctor.id, patient.id, text));
      TrimIdempotent(chatInput);
    }

    /**
     * The insert has settled: on success the input is cleared, including
     * anything typed while the insert was pending; on an error it is kept.
     */
    method CompleteSendChatMessage(outcome: Outcome)
      modifies this`chatInput
      ensures chatInput == if outcome.Done? then "" else old(chatInput)
    {
      if outcome.Done? {
        chatInput := "";
      }
    }

    /**
     * A whole send with nothing typed meanwhile. The message list is not
     * touched: the sent message arrives through the feed.
     */
    method HandleSendChatMessage(outcome: Outcome) returns (sent: Option<MessageInsert>)
      modifies this`chatInput
      ensures IsBlank(old(chatInput)) ==> sent == None && chatInput == old(chatInput)
      ensures !IsBlank(old(chatInput)) ==>
        && sent == Some(MessageInsert(doctor.id, patient.id, Trim(old(chatInput))))
        && chatInput == if outcome.Done? then "" else old(chatInput)
      ensures sent.Some? ==> sent.value.messageText != [] && sent.value.messageText == Trim(sent.value.messageText)
    {
      sent := BeginSendChatMessage();
      if sent.Some? {
        CompleteSendChatMessage(outcome);
      }
    }

    method TogglePrescriptionForm()
      modifies this`showPrescriptionForm
      ensures showPrescriptionForm == !old(showPrescriptionForm)
    {
      showPrescriptionForm := !showPrescriptionForm;
    }

    method EditPrescriptionDraft(draft: PrescriptionDraft)
      modifies this`newPrescription
      ensures newPrescription == draft
    {
      newPrescription := draft;
    }

    /**
     * The synchronous part of `handleSavePrescription`: a draft without
     * medication or dosage writes nothing; otherwise the draft is to be
     * inserted for this patient by this doctor. Nothing in the view changes
     * yet, and the form stays open.
     */
    method BeginSavePrescription() returns (written: Option<PrescriptionInsert>)
      ensures newPrescription.medication == "" || newPrescription.dosage == "" <==> written == None
      ensures written.Some? ==> written == Some(PrescriptionInsert(newPrescription.medication, newPrescription.dosage,
                                                                    newPrescription.instructions, patient.id, doctor.id))
    {
      if newPrescription.medication == "" || newPrescription.dosage == "" {
        return None;
      }
      written := Some(PrescriptionInsert(newPrescription.medication, newPrescription.dosage,
                                         newPrescription.instructions, patient.id, doctor.id));
    }

    /**
     * The insert has settled. `listAtSubmit` is the prescription list as the
     * handler saw it when the form was submitted. If a row came back, the
     * list becomes that row followed by `listAtSubmit` (whatever the list
     * holds by now) and the form is hidden and emptied; on an error, or no
     * row back, nothing changes.
     */
    method CompletePrescriptionSave(listAtSubmit: seq<Prescription>, res: Response<seq<Prescription>>)
      modifies this`prescriptions, this`showPrescriptionForm, this`newPrescription
      ensures if res.Data? && |res.value| > 0
              then prescriptions == [res.value[0]] + listAtSubmit
                   && !showPrescriptionForm && newPrescription == EmptyDraft
              else prescriptions == old(prescriptions)
                   && showPrescriptionForm == old(showPrescriptionForm) && newPrescription == old(newPrescription)
    {
      if res.Failed? {
      } else if res.Data? && |res.value| > 0 {
        prescriptions := [res.value[0]] + listAtSubmit;
        showPrescriptionForm := false;
        newPrescription := EmptyDraft;
      }
    }

    /**
     * A whole save with nothing else happening meanwhile: if a row comes
     * back, it is put at the head of the list and the form is hidden and
     * emptied; otherwise nothing changes.
     */
    method HandleSavePrescription(res: Response<seq<Prescription>>) returns (written: Option<PrescriptionInsert>)
      modifies this`prescriptions, this`showPrescriptionForm, this`newPrescription
      ensures var d := old(newPrescription);
        written == if d.medication == "" || d.dosage == "" then None
                   else Some(PrescriptionInsert(d.medication, d.dosage, d.instructions, patient.id, doctor.id))
      ensures if written.Some? && res.Data? && |res.value| > 0
              then prescriptions == [res.value[0]] + old(prescriptions)
                   && !showPrescriptionForm && newPrescription == EmptyDraft
              else prescriptions == old(prescriptions)
                   && showPrescriptionForm == old(showPrescriptionForm) && newPrescription == old(newPrescription)
    {
      var listAtSubmit := prescriptions;
      written := BeginSavePrescription();
      if written.Some? {
        CompletePrescriptionSave(listAtSubmit, res);
      }
    }
  }

  /**
   * Two saves submitted before the first settles: both handlers saw the same
   * list, and each success rebuilds the list from it, so the row the first
   * save returned is gone once the second settles.
   */
  method OverlappingSavesLoseTheFirstRow(doctor: Profile, patient: Profile, draft: PrescriptionDraft,
                                         first: Prescription, second: Prescription)
    returns (view: PatientDetailView)
    requires draft.medication != "" && draft.dosage != ""
    requires first != second
    ensures view.prescriptions == [second]
    ensures first !in view.prescriptions
  {
    view := new PatientDetailView(doctor, patient);
    view.EditPrescriptionDraft(draft);
    var listAtFirst := view.prescriptions;
    var firstWrite := view.BeginSavePrescription();
    var listAtSecond := view.prescriptions;
    var secondWrite := view.BeginSavePrescription();
    view.CompletePrescriptionSave(listAtFirst, Data([first]));
    assert view.prescriptions == [first];
    view.CompletePrescriptionSave(listAtSecond, Data([second]));
  }
}

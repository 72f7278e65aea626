/**
 * Records and enumerations shared by the MediHelp screens: the `Role` and
 * `AppView` enumerations and `ChatMessage` of src/types.ts, the row shapes of
 * the five tables of database.types.ts, and `Response`, which stands for the
 * answer of one call into the hosted backend.
 */
module Types {

  datatype Option<+T> = None | Some(value: T)

  /** `Role` of src/types.ts:15-19; the `role` column of `profiles`. */
  datatype Role = Patient | Doctor | Admin

  /** `AppView` of src/types.ts:10-13. */
  datatype AppView = Triage | Dashboard

  /** The speaker of one turn of an assistant conversation. */
  datatype ChatRole = User | Model

  /** `ChatMessage` of src/types.ts:5-8. */
  datatype ChatMessage = ChatMessage(role: ChatRole, text: string)

  /** A row of `profiles`; `details` is nullable. */
  datatype Profile = Profile(details: Option<string>, id: string, name: string, role: Role)

  /** A row of `triage_sessions`, with `chat_history` read as a list of chat messages. */
  datatype TriageSession = TriageSession(
    chatHistory: seq<ChatMessage>,
    createdAt: string,
    doctorNotes: Option<string>,
    id: string,
    patientId: string,
    summary: string)

  /** A row of `live_chat_messages`. */
  datatype LiveChatMessage = LiveChatMessage(
    createdAt: string,
    id: string,
    messageText: string,
    receiverId: string,
    senderId: string)

  /** A row of `prescriptions`. */
  datatype Prescription = Prescription(
    createdAt: string,
    doctorId: string,
    dosage: string,
    id: string,
    instructions: string,
    medication: string,
    patientId: string)

  datatype AppointmentStatus = Confirmed | Pending | Cancelled

  /** A row of `appointments`. */
  datatype Appointment = Appointment(
    appointmentDate: string,
    doctorId: string,
    id: string,
    patientId: string,
    reason: string,
    status: AppointmentStatus)

  /**
   * What one backend call answered: a value, no error and no value (`data`
   * or `count` is null), or an error with its message.
   */
  datatype Response<+T> = Data(value: T) | NoData | Failed(message: string)

  /** What a write that returns no rows answered: success or an error message. */
  datatype Outcome = Done | Refused(message: string)
}

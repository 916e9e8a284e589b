/** The entities the store-message-content activity reads, writes and returns. */
module Models {
  import opened Wrappers

  type FiscalCode = string
  type ServiceId = string
  type MessageId = string

  /** A channel a citizen can block for one sender service. Only INBOX takes
      part in the admission decision; the others are carried through. */
  datatype Channel = INBOX | EMAIL | WEBHOOK

  /** How the citizen manages per-service preferences. */
  datatype ServicesPreferencesMode = LEGACY | MANUAL | AUTO

  /** The version is a plain integer: LEGACY profiles carry a negative one,
      and the activity passes it on to the preference key without checking. */
  datatype ServicePreferencesSettings = ServicePreferencesSettings(mode: ServicesPreferencesMode, version: int)

  /** The recipient's stored profile. `isInboxEnabled` may be missing, and so
      may the per-service block map. */
  datatype Profile = Profile(
    fiscalCode: FiscalCode,
    isInboxEnabled: Option<bool>,
    isEmailEnabled: Option<bool>,
    blockedInboxOrChannels: Option<map<ServiceId, seq<Channel>>>,
    servicePreferencesSettings: ServicePreferencesSettings)

  /** The citizen's choice for one service at one preferences version. */
  datatype ServicePreference = ServicePreference(isInboxEnabled: bool, isEmailEnabled: bool)

  datatype PaymentData = PaymentData(amount: nat, noticeNumber: string, invalidAfterDueDate: bool, payee: Option<FiscalCode>)

  datatype MessageContent = MessageContent(subject: string, markdown: string, paymentData: Option<PaymentData>)

  /** The message metadata as created, before its content is stored. */
  datatype NewMessageWithoutContent = NewMessageWithoutContent(
    id: MessageId,
    fiscalCode: FiscalCode,
    senderServiceId: ServiceId,
    senderUserId: string,
    isPending: Option<bool>)

  /** The activity's decoded input. */
  datatype CreatedMessageEvent = CreatedMessageEvent(message: NewMessageWithoutContent, content: MessageContent)

  /** The answer of a keyed read: a store failure (with its kind), or the
      record, which may legitimately be absent. */
  datatype Lookup<+T> = LookupError(kind: string) | Retrieved(maybe: Option<T>)

  /** The answer of a write: done, or a store failure. */
  datatype Write = Written | WriteError(detail: string)

  /** The reasons a FAILURE result can carry. PERMANENT_ERROR is declared by
      the result type but no path of the activity produces it. */
  datatype FailureReason = BAD_DATA | MASTER_INBOX_DISABLED | PERMANENT_ERROR | PROFILE_NOT_FOUND | SENDER_BLOCKED

  /** The activity result: the tagged union on `kind`. */
  datatype ActivityResult =
    | Success(blockedInboxOrChannels: seq<Channel>, profile: Profile)
    | Failure(reason: FailureReason)

  /** What the activity does to its caller: return a result, or throw (the
      caller retries on a throw). */
  datatype Outcome = Returned(result: ActivityResult) | Thrown(error: string)

  const PROFILE_FETCH_ERROR := "Error while fetching profile"
  const STORE_CONTENT_ERROR := "Error while storing message content"
  const PENDING_UPDATE_ERROR := "Error while updating message pending status"
}

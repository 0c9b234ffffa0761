/** The records the client exchanges with the email service, the closed set of
    purposes, the notifications it raises and the conversation resource path. */
module Domain {
  import opened JsSemantics

  /** Conversation identifiers are opaque to the client. */
  type Id = string

  const JobApplication := "Job Application"
  const SalesLeadGeneration := "Sales / Lead Generation"
  const Networking := "Networking / Relationship Building"

  predicate KnownPurpose(purpose: string) {
    purpose == JobApplication || purpose == SalesLeadGeneration || purpose == Networking
  }

  /** One element of the list `GET /history/` returns. */
  datatype HistoryEntry = HistoryEntry(id: Id, purpose: string, createdAt: string, generatedEmail: string)

  /** The client's copy of a conversation (`GET /conversation/{id}`). The last two fields
      are absent from the server record; the chat panel adds them after a follow-up. */
  datatype Conversation = Conversation(
    id: Id,
    purpose: string,
    senderName: string,
    senderTitle: string,
    senderCompanyName: string,
    recipientName: Option<string>,
    callToAction: string,
    generatedEmail: string,
    followUpMessages: Option<seq<string>>,
    createdAt: string,
    followUpResponse: Option<string>,
    followUpId: Option<Id>)

  /** The body of a successful `POST /chat-continue/`. */
  datatype FollowUpReply = FollowUpReply(response: string, conversationId: Id)

  /** The multipart body of `POST /chat-continue/`. */
  datatype FollowUpRequest = FollowUpRequest(conversationId: Id, userMessage: string)

  /** A transient notification. */
  datatype Toast = SuccessToast(text: string) | ErrorToast(text: string)

  const ConversationPrefix := "/conversation/"

  /** The path, below the service's base URL, of one conversation. */
  function ConversationPath(id: Id): (path: string)
    ensures ParseConversationPath(path) == Some(id)
  {
    var path := ConversationPrefix + id;
    assert path[..|ConversationPrefix|] == ConversationPrefix;
    assert path[|ConversationPrefix|..] == id;
    path
  }

  /** How the service's `/conversation/{id}` route reads a path: the identifier after the prefix, if any. */
  function ParseConversationPath(path: string): (id: Option<Id>)
    ensures id.Some? ==> |path| >= |ConversationPrefix| && ConversationPrefix + id.value == path
  {
    if |path| >= |ConversationPrefix| && path[..|ConversationPrefix|] == ConversationPrefix
    then
      assert ConversationPrefix + path[|ConversationPrefix|..] == path;
      Some(path[|ConversationPrefix|..])
    else None
  }
}

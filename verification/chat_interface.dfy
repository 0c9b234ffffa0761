/** The conversation dialog (`ChatInterface`): loading one conversation and asking for
    follow-ups. A reply is kept beside the original email rather than replacing it,
    and the copy button prefers the reply. */
module ChatInterface {
  import opened JsSemantics
  import opened Domain

  const LoadFailedError := "Failed to load conversation"
  const LoadError := "Error loading conversation"
  const SendFallback := "Failed to send message"
  const SendError := "Error sending message"

  /** The text the copy button puts on the clipboard: the follow-up reply when there is a
      truthy one, otherwise the original email. */
  function CopyText(c: Conversation): (text: string)
    ensures c.followUpResponse.Some? && Truthy(c.followUpResponse.value) ==> text == c.followUpResponse.value
    ensures !(c.followUpResponse.Some? && Truthy(c.followUpResponse.value)) ==> text == c.generatedEmail
  {
    OrElse(c.followUpResponse, c.generatedEmail)
  }

  /** All of the dialog's state, as one value. */
  datatype DialogState = DialogState(
    conversation: Option<Conversation>,
    userMessage: string,
    isLoading: bool,
    error: string)

  class ChatInterface {
    /** The conversation the dialog was opened for. */
    const conversationId: Id
    var conversation: Option<Conversation>
    var userMessage: string
    var isLoading: bool
    var error: string

    function State(): DialogState
      reads this
    {
      DialogState(conversation, userMessage, isLoading, error)
    }

    /** A follow-up is only in flight from a loaded conversation with a non-blank message. */
    ghost predicate Valid()
      reads this
    {
      isLoading ==> conversation.Some? && !IsBlank(userMessage)
    }

    constructor (conversationId: Id)
      ensures Valid()
      ensures this.conversationId == conversationId
      ensures State() == DialogState(None, "", false, "")
    {
      this.conversationId := conversationId;
      conversation := None;
      userMessage, isLoading, error := "", false, "";
    }

    /** The load effect: nothing without a (truthy) id; otherwise the outcome either stores
        the conversation or sets the matching error. */
    method Load(response: Response<Conversation>)
      requires Valid()
      modifies this
      ensures Valid()
      ensures !Truthy(conversationId) ==> State() == old(State())
      ensures Truthy(conversationId) && response.Ok? ==>
        State() == old(State()).(conversation := Some(response.body))
      ensures Truthy(conversationId) && response.HttpError? ==>
        State() == old(State()).(error := LoadFailedError)
      ensures Truthy(conversationId) && response.Failure? ==>
        State() == old(State()).(error := LoadError)
    {
      if !Truthy(conversationId) {
        return;
      }
      match response {
        case Ok(data) => conversation := Some(data);
        case HttpError(_) => error := LoadFailedError;
        case Failure(_) => error := LoadError;
      }
    }

    /** Typing into the message input, which is disabled while a follow-up is in flight. */
    method EditMessage(text: string)
      requires Valid() && !isLoading
      modifies this
      ensures Valid()
      ensures State() == old(State()).(userMessage := text)
    {
      userMessage := text;
    }

    /** `handleSendMessage` up to the request (the form only exists once a conversation is
        loaded). A blank message sends nothing and changes nothing; otherwise loading starts,
        the error clears, and `request` carries the untrimmed message. */
    method BeginSend() returns (request: Option<FollowUpRequest>)
      requires Valid() && conversation.Some? && !isLoading
      modifies this
      ensures Valid()
      ensures request.None? <==> IsBlank(old(userMessage))
      ensures request.None? ==> State() == old(State())
      ensures request.Some? ==>
        && request.value == FollowUpRequest(conversationId, old(userMessage))
        && State() == old(State()).(isLoading := true, error := "")
    {
      if IsBlank(userMessage) {
        return None;
      }
      isLoading := true;
      error := "";
      request := Some(FollowUpRequest(conversationId, userMessage));
    }

    /** `handleSendMessage` after the request. A reply is stored as the follow-up response
        (with the id the server echoed), the original email and every other field of the
        conversation are kept, and the input clears; an error leaves the conversation alone.
        Loading always ends. */
    method SettleSend(response: Response<FollowUpReply>)
      requires Valid() && isLoading
      modifies this
      ensures Valid() && !isLoading
      ensures response.Ok? ==>
        && conversation.Some?
        && conversation.value.generatedEmail == old(conversation).value.generatedEmail
        && conversation.value.followUpResponse == Some(response.body.response)
        && State() == old(State()).(
             conversation := Some(old(conversation).value.(
               followUpResponse := Some(response.body.response),
               followUpId := Some(response.body.conversationId))),
             userMessage := "",
             isLoading := false)
      ensures response.HttpError? ==>
        State() == old(State()).(error := OrElse(response.detail, SendFallback), isLoading := false)
      ensures response.Failure? ==>
        State() == old(State()).(error := SendError, isLoading := false)
    {
      match response {
        case Ok(data) =>
          conversation := Some(conversation.value.(followUpResponse := Some(data.response),
                                                   followUpId := Some(data.conversationId)));
          userMessage := "";
        case HttpError(detail) =>
          error := OrElse(detail, SendFallback);
        case Failure(_) =>
          error := SendError;
      }
      isLoading := false;
    }
  }

  /** After a truthy reply arrives, the copy button copies the reply, not the original email. */
  method CopyAfterReply(d: ChatInterface, reply: FollowUpReply)
    requires d.Valid() && d.isLoading && Truthy(reply.response)
    modifies d
    ensures d.conversation.Some? && CopyText(d.conversation.value) == reply.response
  {
    d.SettleSend(Ok(reply));
  }
}

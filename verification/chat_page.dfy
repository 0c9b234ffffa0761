/** The conversation detail view (`ChatPage`): loading one conversation, follow-up
    messages that replace the email and extend the message list, deleting the
    conversation, the header's badge and icon, and the streaming reveal of the email. */
module ChatPage {
  import opened JsSemantics
  import opened Domain
  import ChatCard

  const LoadFailedError := "Failed to load conversation"
  const LoadError := "Error loading conversation"
  const SendFallback := "Failed to send message"
  const SendError := "Error sending message"
  const DeletedNotice := "Conversation deleted."
  const DeleteFailedNotice := "Failed to delete conversation."
  const DeleteErrorNotice := "Error deleting conversation."

  /** This view's own copy of the badge table. */
  const CategoryMap: map<string, ChatCard.Category> := map[
    SalesLeadGeneration := ChatCard.Category("Sales", "bg-blue-100 text-blue-800"),
    JobApplication := ChatCard.Category("Job", "bg-green-100 text-green-800"),
    Networking := ChatCard.Category("Networking", "bg-purple-100 text-purple-800")]

  /** `iconMap`: the header icon for each known purpose. */
  const IconMap: map<string, ChatCard.Icon> := map[
    SalesLeadGeneration := ChatCard.Mail,
    JobApplication := ChatCard.Briefcase,
    Networking := ChatCard.Users]

  /** The header badge, looked up in this view's table with the same gray fallback;
      it always agrees with the history card's badge. */
  function HeaderCategory(purpose: string): (c: ChatCard.Category)
    ensures c == ChatCard.CategoryOf(purpose)
    ensures !KnownPurpose(purpose) ==> c == ChatCard.Category(purpose, ChatCard.FallbackColor)
  {
    if purpose in CategoryMap then CategoryMap[purpose]
    else ChatCard.Category(purpose, ChatCard.FallbackColor)
  }

  /** `iconMap[purpose] || Mail`: always the icon the history card's comparison chain picks. */
  function HeaderIcon(purpose: string): (icon: ChatCard.Icon)
    ensures icon == ChatCard.CardIcon(purpose)
    ensures !KnownPurpose(purpose) ==> icon == ChatCard.Mail
  {
    if purpose in IconMap then IconMap[purpose] else ChatCard.Mail
  }

  /** The path this view sends its DELETE to, as the component builds it: the
      identifier directly below the base URL, without the `conversation/` segment. */
  function DeletePathAsWritten(id: Id): (path: string)
    ensures |path| == |id| + 1 && path[1..] == id
  {
    "/" + id
  }

  /** For any identifier that does not itself begin with "conversation/" (so for every
      identifier the service issues), the as-written path misses the conversation route. */
  lemma AsWrittenDeleteMissesRoute(id: Id)
    requires !(|id| >= 13 && id[..13] == "conversation/")
    ensures ParseConversationPath(DeletePathAsWritten(id)) == None
    ensures DeletePathAsWritten(id) != ConversationPath(id)
  {
  }

  /** The path of the DELETE as intended: the same conversation route the history list uses. */
  function DeletePath(id: Id): (path: string)
    ensures ParseConversationPath(path) == Some(id)
  {
    ConversationPath(id)
  }

  /** `prev.follow_up_messages || []`. */
  function FollowUps(c: Conversation): (messages: seq<string>)
    ensures c.followUpMessages.Some? ==> messages == c.followUpMessages.value
    ensures c.followUpMessages.None? ==> messages == []
  {
    if c.followUpMessages.Some? then c.followUpMessages.value else []
  }

  /** The successive values `StreamingText` displays for `text`. When not loading it is the
      full text; while loading it starts empty and each interval tick shows
      `text.slice(0, i + 1)` and advances `i`, the interval stopping once `i` reaches the length. */
  method StreamingFrames(text: string, loading: bool) returns (frames: seq<string>)
    ensures |frames| >= 1 && frames[|frames| - 1] == text
    ensures !loading ==> frames == [text]
    ensures loading ==> frames[0] == "" && |frames| == Max(|text|, 1) + 1
    ensures forall k :: 0 <= k < |frames| ==> frames[k] <= text
    ensures loading ==> forall k :: 1 <= k < |frames| ==> |frames[k]| == Min(k, |text|)
  {
    if !loading {
      return [text];
    }
    frames := [""];
    var i := 0;
    var running := true;
    while running
      invariant 0 <= i <= Max(|text|, 1)
      invariant running ==> i < Max(|text|, 1)
      invariant !running ==> i == Max(|text|, 1)
      invariant |frames| == i + 1 && frames[0] == ""
      invariant forall k :: 1 <= k <= i ==> frames[k] == text[..Min(k, |text|)]
      decreases Max(|text|, 1) - i
    {
      frames := frames + [Slice(text, i + 1)];
      i := i + 1;
      if i >= |text| {
        running := false;
      }
    }
  }

  /** All of the view's state, as one value. */
  datatype PageState = PageState(
    conversation: Option<Conversation>,
    userMessage: string,
    isLoading: bool,
    error: string,
    deleting: bool,
    streaming: bool,
    showDeleteDialog: bool)

  class ChatPage {
    /** The route parameter. */
    const conversationId: Id
    var conversation: Option<Conversation>
    var userMessage: string
    var isLoading: bool
    var error: string
    var deleting: bool
    var streaming: bool
    var showDeleteDialog: bool

    function State(): PageState
      reads this
    {
      PageState(conversation, userMessage, isLoading, error, deleting, streaming, showDeleteDialog)
    }

    /** A follow-up is only in flight from a loaded conversation with a non-blank message,
        which stays in the (disabled) input until the reply arrives. */
    ghost predicate Valid()
      reads this
    {
      isLoading ==> conversation.Some? && !IsBlank(userMessage)
    }

    constructor (conversationId: Id)
      ensures Valid()
      ensures this.conversationId == conversationId
      ensures State() == PageState(None, "", false, "", false, false, false)
    {
      this.conversationId := conversationId;
      conversation := None;
      userMessage, isLoading, error := "", false, "";
      deleting, streaming, showDeleteDialog := false, false, false;
    }

    /** The load effect: nothing without a (truthy) id; otherwise streaming stops and the
        outcome either stores the conversation or sets the matching error. */
    method Load(response: Response<Conversation>)
      requires Valid()
      modifies this
      ensures Valid()
      ensures !Truthy(conversationId) ==> State() == old(State())
      ensures Truthy(conversationId) && response.Ok? ==>
        State() == old(State()).(streaming := false, conversation := Some(response.body))
      ensures Truthy(conversationId) && response.HttpError? ==>
        State() == old(State()).(streaming := false, error := LoadFailedError)
      ensures Truthy(conversationId) && response.Failure? ==>
        State() == old(State()).(streaming := false, error := LoadError)
    {
      if !Truthy(conversationId) {
        return;
      }
      streaming := false;
      match response {
        case Ok(data) => conversation := Some(data);
        case HttpError(_) => error := LoadFailedError;
        case Failure(_) => error := LoadError;
      }
    }

    /** Typing into the message input, which is disabled while a follow-up is in flight. */
    method EditMessage(text: string)
      requires Valid() && !isLoading
      modifies this
      ensures Valid()
      ensures State() == old(State()).(userMessage := text)
    {
      userMessage := text;
    }

    /** `handleSendMessage` up to the request. A blank message sends nothing and changes
        nothing; otherwise loading and streaming start, the error clears, and `request`
        carries the untrimmed message. */
    method BeginSend() returns (request: Option<FollowUpRequest>)
      requires Valid() && conversation.Some? && !isLoading
      modifies this
      ensures Valid()
      ensures request.None? <==> IsBlank(old(userMessage))
      ensures request.None? ==> State() == old(State())
      ensures request.Some? ==>
        && request.value == FollowUpRequest(conversationId, old(userMessage))
        && State() == old(State()).(isLoading := true, streaming := true, error := "")
    {
      if IsBlank(userMessage) {
        return None;
      }
      isLoading := true;
      streaming := true;
      error := "";
      request := Some(FollowUpRequest(conversationId, userMessage));
    }

    /** `handleSendMessage` after the request. A reply replaces the email and appends the
        sent message to the follow-ups, leaving every other field of the conversation as it
        was, and clears the input; an error leaves the conversation alone. Loading always
        ends; streaming is left on (a timer outside this model turns it off). */
    method SettleSend(response: Response<FollowUpReply>)
      requires Valid() && isLoading
      modifies this
      ensures Valid() && !isLoading
      ensures response.Ok? ==>
        && conversation.Some?
        && conversation.value.generatedEmail == response.body.response
        && conversation.value.followUpMessages == Some(FollowUps(old(conversation).value) + [old(userMessage)])
        && State() == old(State()).(
             conversation := Some(old(conversation).value.(
               generatedEmail := response.body.response,
               followUpMessages := Some(FollowUps(old(conversation).value) + [old(userMessage)]))),
             userMessage := "",
             isLoading := false)
      ensures response.HttpError? ==>
        State() == old(State()).(error := OrElse(response.detail, SendFallback), isLoading := false)
      ensures response.Failure? ==>
        State() == old(State()).(error := SendError, isLoading := false)
    {
      match response {
        case Ok(data) =>
          var prev := conversation.value;
          conversation := Some(prev.(generatedEmail := data.response,
                                     followUpMessages := Some(FollowUps(prev) + [userMessage])));
          userMessage := "";
        case HttpError(detail) =>
          error := OrElse(detail, SendFallback);
        case Failure(_) =>
          error := SendError;
      }
      isLoading := false;
    }

    /** `handleDeleteChat`: the delete button opens the confirmation dialog; it is disabled
        (`disabled={deleting}`) while the delete is in flight, and then nothing happens. */
    method RequestDelete()
      requires Valid()
      modifies this
      ensures Valid()
      ensures old(deleting) ==> State() == old(State())
      ensures !old(deleting) ==> State() == old(State()).(showDeleteDialog := true)
    {
      if deleting {
        return;
      }
      showDeleteDialog := true;
    }

    /** The dialog's `onOpenChange`. */
    method SetDeleteDialog(open: bool)
      requires Valid()
      modifies this
      ensures Valid()
      ensures State() == old(State()).(showDeleteDialog := open)
    {
      showDeleteDialog := open;
    }

    /** `confirmDelete` up to the request: the view is marked deleting and `path` is the
        DELETE request's path, the conversation route for this view's id. */
    method ConfirmDelete() returns (path: string)
      requires Valid()
      modifies this
      ensures Valid()
      ensures State() == old(State()).(deleting := true)
      ensures ParseConversationPath(path) == Some(conversationId)
    {
      deleting := true;
      path := DeletePath(conversationId);
    }

    /** A click on the dialog's Delete action. While deleting, the action is disabled
        (`disabled={deleting}`) and the click does nothing. Otherwise `confirmDelete` runs and the
        action, a dialog close control, then calls `onOpenChange(false)`, so the dialog closes as
        the request starts. */
    method ClickConfirmDelete() returns (path: Option<string>)
      requires Valid()
      modifies this
      ensures Valid()
      ensures path.Some? <==> !old(deleting)
      ensures old(deleting) ==> State() == old(State())
      ensures path.Some? ==>
        && State() == old(State()).(deleting := true, showDeleteDialog := false)
        && ParseConversationPath(path.value) == Some(conversationId)
    {
      if deleting {
        return None;
      }
      var p := ConfirmDelete();
      SetDeleteDialog(false);
      path := Some(p);
    }

    /** `confirmDelete` after the request: deleting ends and the dialog closes whatever
        happened; only an OK response navigates home. */
    method SettleDelete(response: Response<()>) returns (navigateHome: bool, toast: Toast)
      requires Valid()
      modifies this
      ensures Valid()
      ensures State() == old(State()).(deleting := false, showDeleteDialog := false)
      ensures navigateHome <==> response.Ok?
      ensures toast == match response
        case Ok(_) => SuccessToast(DeletedNotice)
        case HttpError(_) => ErrorToast(DeleteFailedNotice)
        case Failure(_) => ErrorToast(DeleteErrorNotice)
    {
      navigateHome := response.Ok?;
      toast := match response
        case Ok(_) => SuccessToast(DeletedNotice)
        case HttpError(_) => ErrorToast(DeleteFailedNotice)
        case Failure(_) => ErrorToast(DeleteErrorNotice);
      deleting := false;
      showDeleteDialog := false;
    }
  }
}

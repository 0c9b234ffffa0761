/** The compose view's controller (`Home`): the generation flow, the history list
    and the two-phase delete of a history entry. Each asynchronous handler is split
    at its `await`: a Begin/Confirm method for the state set before the request and
    a Settle method that applies the request's outcome. */
module App {
  import opened JsSemantics
  import opened Domain

  const GeneratingStatus := "Generating email..."
  const SuccessStatus := "Email generated successfully!"
  const GenerateFallback := "Failed to generate email from server."
  const DeletedNotice := "Conversation deleted."
  const DeleteFailedNotice := "Failed to delete conversation."
  const DeleteErrorNotice := "Error deleting conversation."

  /** The message shown when generation fails: the thrown error's message behind "Error: ". */
  function GenerationError(message: string): (text: string)
    ensures |text| > |message| && text[|text| - |message|..] == message
  {
    "Error: " + message
  }

  /** All of Home's state, as one value. */
  datatype HomeState = HomeState(
    status: string,
    error: string,
    generatedEmail: string,
    history: seq<HistoryEntry>,
    showNewChatButton: bool,
    deletingId: Option<Id>,
    pendingDeleteId: Option<Id>)

  class Home {
    var status: string
    var error: string
    var generatedEmail: string
    /** The shared history list; only ever replaced by a list the server returned. */
    var history: seq<HistoryEntry>
    var showNewChatButton: bool
    var deletingId: Option<Id>
    var pendingDeleteId: Option<Id>

    function State(): HomeState
      reads this
    {
      HomeState(status, error, generatedEmail, history, showNewChatButton, deletingId, pendingDeleteId)
    }

    /** The generation flow is in exactly one of Idle, Generating, Succeeded or Failed,
        and an entry is only ever marked deleting under a truthy id. */
    ghost predicate Valid()
      reads this
    {
      && (status == GeneratingStatus ==> error == "" && generatedEmail == "" && !showNewChatButton)
      && (status == SuccessStatus ==> error == "" && showNewChatButton)
      && (Truthy(error) ==> status == "")
      && (deletingId.Some? ==> Truthy(deletingId.value))
    }

    constructor ()
      ensures Valid()
      ensures State() == HomeState("", "", "", [], false, None, None)
    {
      status, error, generatedEmail := "", "", "";
      history := [];
      showNewChatButton := false;
      deletingId, pendingDeleteId := None, None;
    }

    /** The history fetch on mount: an OK response replaces the list; anything else is only logged. */
    method LoadHistory(response: Response<seq<HistoryEntry>>)
      requires Valid()
      modifies this
      ensures Valid()
      ensures State() == if response.Ok? then old(State()).(history := response.body) else old(State())
    {
      if response.Ok? {
        history := response.body;
      }
    }

    /** `handleSubmit` up to the request: generating, with every previous output cleared. */
    method BeginGenerate()
      requires Valid()
      modifies this
      ensures Valid()
      ensures State() == old(State()).(status := GeneratingStatus, error := "", generatedEmail := "",
                                       showNewChatButton := false)
    {
      status := GeneratingStatus;
      error := "";
      generatedEmail := "";
      showNewChatButton := false;
    }

    /** `handleSubmit` after the request: `refetch` is the outcome of the history refresh,
        which is only issued after a successful generation. */
    method SettleGenerate(response: Response<string>, refetch: Response<seq<HistoryEntry>>)
      requires Valid() && status == GeneratingStatus
      modifies this
      ensures Valid()
      ensures response.Ok? && refetch.Ok? ==>
        State() == old(State()).(generatedEmail := response.body, status := SuccessStatus,
                                 showNewChatButton := true, history := refetch.body)
      ensures response.Ok? && refetch.HttpError? ==>
        State() == old(State()).(generatedEmail := response.body, status := SuccessStatus,
                                 showNewChatButton := true)
      ensures response.Ok? && refetch.Failure? ==>
        State() == old(State()).(generatedEmail := response.body, showNewChatButton := true,
                                 error := GenerationError(refetch.message), status := "")
      ensures response.HttpError? ==>
        State() == old(State()).(error := GenerationError(OrElse(response.detail, GenerateFallback)),
                                 status := "")
      ensures response.Failure? ==>
        State() == old(State()).(error := GenerationError(response.message), status := "")
    {
      match response {
        case Ok(email) =>
          generatedEmail := email;
          status := SuccessStatus;
          showNewChatButton := true;
          match refetch {
            case Ok(list) => history := list;
            case HttpError(_) =>
            case Failure(message) =>
              error := GenerationError(message);
              status := "";
          }
        case HttpError(detail) =>
          error := GenerationError(OrElse(detail, GenerateFallback));
          status := "";
        case Failure(message) =>
          error := GenerationError(message);
          status := "";
      }
    }

    /** `open={!!pendingDeleteId}`: the confirmation dialog is showing. */
    function DeleteDialogOpen(): (open: bool)
      reads this
      ensures open ==> pendingDeleteId.Some?
    {
      pendingDeleteId.Some? && Truthy(pendingDeleteId.value)
    }

    /** `handleDeleteHistoryItem`: the id awaiting confirmation; a later request replaces an earlier one. */
    method RequestDelete(id: Id)
      requires Valid()
      modifies this
      ensures Valid()
      ensures State() == old(State()).(pendingDeleteId := Some(id))
      ensures DeleteDialogOpen() <==> Truthy(id)
    {
      pendingDeleteId := Some(id);
    }

    /** The dialog's `onOpenChange(false)`: the pending id is dropped. The Cancel button is
        disabled while a delete is in flight, but Escape still reaches this. */
    method CloseDeleteDialog()
      requires Valid()
      modifies this
      ensures Valid()
      ensures State() == old(State()).(pendingDeleteId := None)
      ensures !DeleteDialogOpen()
    {
      pendingDeleteId := None;
    }

    /** `confirmDelete` up to the request. Without a (truthy) pending id nothing happens;
        otherwise that id is marked deleting and `path` is the DELETE request's path. */
    method ConfirmDelete() returns (path: Option<string>)
      requires Valid()
      modifies this
      ensures Valid()
      ensures path.Some? <==> old(DeleteDialogOpen())
      ensures path.None? ==> State() == old(State())
      ensures path.Some? ==>
        && State() == old(State()).(deletingId := old(pendingDeleteId))
        && ParseConversationPath(path.value) == Some(old(pendingDeleteId).value)
    {
      if pendingDeleteId.None? || !Truthy(pendingDeleteId.value) {
        return None;
      }
      deletingId := pendingDeleteId;
      path := Some(ConversationPath(pendingDeleteId.value));
    }

    /** A click on the dialog's Delete action. While a delete is in flight the action is
        disabled (`disabled={deletingId !== null}`) and the click does nothing. Otherwise the
        action runs `confirmDelete` and then, as a dialog close control, `onOpenChange(false)`,
        so the dialog closes as the request starts. */
    method ClickConfirmDelete() returns (path: Option<string>)
      requires Valid()
      modifies this
      ensures Valid()
      ensures path.Some? <==> old(DeleteDialogOpen()) && old(deletingId).None?
      ensures old(deletingId).Some? ==> path.None? && State() == old(State())
      ensures old(deletingId).None? ==> !DeleteDialogOpen() && pendingDeleteId.None?
      ensures old(deletingId).None? && path.None? ==> State() == old(State()).(pendingDeleteId := None)
      ensures path.Some? ==>
        && deletingId == old(pendingDeleteId)
        && State() == old(State()).(deletingId := old(pendingDeleteId), pendingDeleteId := None)
        && ParseConversationPath(path.value) == Some(old(pendingDeleteId).value)
    {
      if deletingId.Some? {
        return None;
      }
      path := ConfirmDelete();
      CloseDeleteDialog();
    }

    /** `confirmDelete` after the request: `refetch` is the history refresh issued only after
        an OK delete. Both markers are cleared whatever happened; the list changes only
        when the refresh returned a list. */
    method SettleDelete(response: Response<()>, refetch: Response<seq<HistoryEntry>>) returns (toast: Toast)
      requires Valid() && deletingId.Some?
      modifies this
      ensures Valid()
      ensures deletingId.None? && pendingDeleteId.None? && !DeleteDialogOpen()
      ensures response.Ok? && refetch.Ok? ==>
        State() == old(State()).(history := refetch.body, deletingId := None, pendingDeleteId := None)
      ensures !(response.Ok? && refetch.Ok?) ==>
        State() == old(State()).(deletingId := None, pendingDeleteId := None)
      ensures response.Ok? && !refetch.Failure? ==> toast == SuccessToast(DeletedNotice)
      ensures response.Ok? && refetch.Failure? ==> toast == ErrorToast(DeleteErrorNotice)
      ensures response.HttpError? ==> toast == ErrorToast(DeleteFailedNotice)
      ensures response.Failure? ==> toast == ErrorToast(DeleteErrorNotice)
    {
      match response {
        case Ok(_) =>
          match refetch {
            case Ok(list) =>
              history := list;
              toast := SuccessToast(DeletedNotice);
            case HttpError(_) =>
              toast := SuccessToast(DeletedNotice);
            case Failure(_) =>
              toast := ErrorToast(DeleteErrorNotice);
          }
        case HttpError(_) =>
          toast := ErrorToast(DeleteFailedNotice);
        case Failure(_) =>
          toast := ErrorToast(DeleteErrorNotice);
      }
      deletingId := None;
      pendingDeleteId := None;
    }

    /** `handleNewChat`: the generated email, status, error and button are reset together. */
    method NewChat()
      requires Valid()
      modifies this
      ensures Valid()
      ensures State() == old(State()).(generatedEmail := "", status := "", error := "",
                                       showNewChatButton := false)
    {
      generatedEmail := "";
      status := "";
      error := "";
      showNewChatButton := false;
    }

    /** The `deleting` flag of each rendered card: set only on cards showing the id being
        deleted, so all flagged cards show the same entry id. */
    function DeletingFlags(): (flags: seq<bool>)
      reads this
      ensures |flags| == |history|
      ensures forall i :: 0 <= i < |flags| ==> (flags[i] <==> deletingId == Some(history[i].id))
      ensures forall i, j :: 0 <= i < |flags| && 0 <= j < |flags| && flags[i] && flags[j] ==>
        history[i].id == history[j].id
      ensures deletingId.None? ==> forall i :: 0 <= i < |flags| ==> !flags[i]
    {
      seq(|history|, i requires 0 <= i < |history| reads this => deletingId == Some(history[i].id))
    }
  }

  /** Delete requested for `x`, then for `y`, then confirmed, then the delete in flight settles.
      With nothing in flight, the request goes to `y`'s path and only `y` is marked deleting
      (no queuing). With a delete already in flight, the disabled action sends nothing, and the
      earlier delete's settlement also dismisses the dialog reopened for `y`. Either way both
      markers end cleared, and the list changes only to a list the server returned. */
  method SecondRequestReplacesPending(h: Home, x: Id, y: Id, response: Response<()>,
                                      refetch: Response<seq<HistoryEntry>>)
    returns (path: Option<string>, inFlight: Option<Id>)
    requires h.Valid() && Truthy(y)
    modifies h
    ensures old(h.deletingId).None? ==> path == Some(ConversationPath(y)) && inFlight == Some(y)
    ensures old(h.deletingId).Some? ==> path.None? && inFlight == old(h.deletingId)
    ensures h.Valid() && h.deletingId.None? && h.pendingDeleteId.None?
    ensures h.history == if response.Ok? && refetch.Ok? then refetch.body else old(h.history)
  {
    h.RequestDelete(x);
    h.RequestDelete(y);
    path := h.ClickConfirmDelete();
    inFlight := h.deletingId;
    var toast := h.SettleDelete(response, refetch);
  }
}

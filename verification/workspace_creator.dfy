/**
 * The form that creates a workspace: nothing is sent without a name, a
 * created workspace clears the name and is opened, and an error caused by
 * the workspace limit is shown as a fixed sentence.
 */
module WorkspaceCreator {
  import opened Wrappers
  import Text

  /** The server's exception name for a user at the workspace limit. */
  const LimitException := "WorkspaceLimitReachedException"

  /**
   * The sentence shown instead of a workspace-limit error. It is written
   * as two literals only so that the verifier can see, piece by piece,
   * that it holds no `W` (see ErrorMessageIdempotent).
   */
  const LimitMessage := "You have reached the workspace limit " + "and so cannot create one now."

  /** The message shown for a server error message. */
  function ErrorMessage(message: string): (r: string)
    ensures Text.Contains(message, LimitException) ==> r == LimitMessage
    ensures !Text.Contains(message, LimitException) ==> r == message
  {
    if Text.Contains(message, LimitException) then LimitMessage else message
  }

  /** Rewriting a shown message again leaves it as it is. */
  lemma ErrorMessageIdempotent(message: string)
    ensures ErrorMessage(ErrorMessage(message)) == ErrorMessage(message)
  {
    if Text.Contains(message, LimitException) {
      assert LimitException[0] !in LimitMessage;
      Text.ContainsNeedsFirst(LimitMessage, LimitException);
    }
  }

  /** The create request. */
  datatype NewWorkspace = NewWorkspace(name: string, description: string)

  /** A route the component navigates to: `/topo/<id>/<slug>`. */
  datatype TopoRoute = TopoRoute(id: int, slug: string)

  class WorkspaceCreatorComponent {
    var name: string
    var description: string
    /** The messages of the errors received, oldest first. */
    var errors: seq<string>
    /** The routes navigated to, oldest first. */
    var navigated: seq<TopoRoute>

    constructor ()
      ensures name == "" && description == "" && errors == [] && navigated == []
    {
      name := "";
      description := "";
      errors := [];
      navigated := [];
    }

    /** Sends a create request only when a name is given. */
    method Clicked() returns (request: Option<NewWorkspace>)
      ensures request.Some? <==> name != ""
      ensures request.Some? ==> request.value == NewWorkspace(name, description)
    {
      if name != "" {
        request := Some(NewWorkspace(name, description));
      } else {
        request := None;
      }
    }

    /** The workspace was created: open it and clear the name. */
    method Created(id: int, slug: string)
      modifies this`name, this`navigated
      ensures name == "" && navigated == old(navigated) + [TopoRoute(id, slug)]
    {
      navigated := navigated + [TopoRoute(id, slug)];
      name := "";
    }

    /**
     * The request failed. When the error body carries a message, that
     * message, rewritten when it is the limit error, is appended. A failure
     * whose body has no message (`None`: a network error or an empty reply)
     * makes the handler throw before anything is appended.
     */
    method Failed(message: Option<string>)
      modifies this`errors
      ensures message.Some? ==> errors == old(errors) + [ErrorMessage(message.value)]
      ensures message.None? ==> errors == old(errors)
    {
      if message.Some? {
        var shown := message.value;
        if Text.Contains(shown, LimitException) {
          shown := LimitMessage;
        }
        errors := errors + [shown];
      }
    }
  }
}

/**
 * The workspace settings panel: saving the form, removing a member once
 * the server acknowledges it, and creating an invitation whose url is
 * copied to the clipboard. The workspace is held as a value that the
 * handlers reassign.
 */
module WorkspaceSettings {
  import opened Models
  import Text
  import JsArray

  /** The path segment between the host and the share code of an invitation url. */
  const InvitePath := "/invite-gs/"

  /** The invitation url for a share code. */
  function ShareUrl(hostUrl: string, shareCode: string): (r: string)
    ensures |r| == |hostUrl| + |InvitePath| + |shareCode|
    ensures r[..|hostUrl|] == hostUrl
    ensures r[|hostUrl|..|hostUrl| + |InvitePath|] == InvitePath
    ensures r[|hostUrl| + |InvitePath|..] == shareCode
  {
    hostUrl + InvitePath + shareCode
  }

  /** The share code is what follows the url's last `/`, when the code has none. */
  lemma ShareCodeReadBack(hostUrl: string, shareCode: string)
    requires '/' !in shareCode
    ensures Text.LastPiece(ShareUrl(hostUrl, shareCode), '/') == shareCode
  {
    var a := hostUrl + "/invite-gs";
    assert ShareUrl(hostUrl, shareCode) == a + ['/'] + shareCode;
    Text.LastPieceAfter(a, shareCode, '/');
  }

  /** The position of the first worker with id `id`, or -1. */
  function WorkerIndex(workers: seq<Worker>, id: int): (i: int)
    ensures -1 <= i < |workers|
    ensures i == -1 <==> forall k :: 0 <= k < |workers| ==> workers[k].id != id
    ensures 0 <= i ==> workers[i].id == id && forall k :: 0 <= k < i ==> workers[k].id != id
  {
    JsArray.FindIndex(workers, (w: Worker) => w.id, id)
  }

  /** The workers after removing the first with id `id`, if any. */
  function RemoveWorker(workers: seq<Worker>, id: int): (r: seq<Worker>)
    ensures |r| == |workers| <==> forall k :: 0 <= k < |workers| ==> workers[k].id != id
    ensures |r| == |workers| || |r| == |workers| - 1
    ensures multiset(r) <= multiset(workers)
  {
    var i := WorkerIndex(workers, id);
    if i > -1 then
      assert workers == workers[..i] + [workers[i]] + workers[i + 1..];
      JsArray.SpliceOne(workers, i)
    else workers
  }

  /** With no worker of that id, removal changes nothing. */
  lemma RemoveWorkerNoMatch(workers: seq<Worker>, id: int)
    requires forall k :: 0 <= k < |workers| ==> workers[k].id != id
    ensures RemoveWorker(workers, id) == workers
  {
  }

  /** Removal drops exactly the first worker with that id; the rest keep their order. */
  lemma RemoveWorkerFirstMatch(workers: seq<Worker>, id: int, i: nat)
    requires i < |workers| && workers[i].id == id
    requires forall k :: 0 <= k < i ==> workers[k].id != id
    ensures RemoveWorker(workers, id) == workers[..i] + workers[i + 1..]
    ensures multiset(RemoveWorker(workers, id)) == multiset(workers) - multiset{workers[i]}
  {
    var j := WorkerIndex(workers, id);
    assert j == i;
    var r := JsArray.SpliceOne(workers, i);
    assert RemoveWorker(workers, id) == r;
    assert r == workers[..i] + workers[i + 1..];
    assert multiset(workers) == multiset(r) + multiset{workers[i]} by {
      assert workers == workers[..i] + [workers[i]] + workers[i + 1..];
    }
  }

  /** The panel's form: whether its values are valid and whether they were edited. */
  datatype Form = Form(valid: bool, dirty: bool)

  class WorkspaceSettingsComponent {
    var workspace: Workspace
    const hostUrl: string
    var inviteUrl: string
    var form: Form
    /** Every text handed to the clipboard service, oldest first. */
    var copied: seq<string>

    constructor (workspace: Workspace, hostUrl: string, form: Form)
      ensures this.workspace == workspace && this.hostUrl == hostUrl && this.form == form
      ensures inviteUrl == "" && copied == []
    {
      this.workspace := workspace;
      this.hostUrl := hostUrl;
      this.form := form;
      inviteUrl := "";
      copied := [];
    }

    /** Sends the form only when it is valid. */
    method Update() returns (sent: bool)
      ensures sent <==> form.valid
    {
      sent := form.valid;
    }

    /** A saved form is reset to its own values: it is no longer dirty. */
    method UpdateSucceeded()
      modifies this`form
      ensures form == old(form).(dirty := false)
    {
      form := form.(dirty := false);
    }

    /** Asks the server to remove the worker shown on a chip; returns the chip's value. */
    method RemoveMember(chipValue: int) returns (request: int)
      ensures request == chipValue
    {
      request := chipValue;
    }

    /** The server removed the worker: drop the first with that id from the list. */
    method RemoveMemberAcknowledged(chipValue: int)
      modifies this`workspace
      ensures workspace == old(workspace).(workers := RemoveWorker(old(workspace.workers), chipValue))
    {
      var i := WorkerIndex(workspace.workers, chipValue);
      if i > -1 {
        workspace := workspace.(workers := JsArray.SpliceOne(workspace.workers, i));
      }
    }

    /** The invitation url of the workspace's current share code. */
    function CurrentShareUrl(): (r: string)
      reads this
      ensures hostUrl <= r && |r| > |hostUrl|
      ensures '/' !in workspace.shareCode ==> Text.LastPiece(r, '/') == workspace.shareCode
    {
      var url := ShareUrl(hostUrl, workspace.shareCode);
      assert '/' !in workspace.shareCode ==> Text.LastPiece(url, '/') == workspace.shareCode by {
        if '/' !in workspace.shareCode {
          ShareCodeReadBack(hostUrl, workspace.shareCode);
        }
      }
      url
    }

    /** Asks for a new invitation; returns the workspace id. */
    method NewInvitation() returns (request: int)
      ensures request == workspace.id
    {
      request := workspace.id;
    }

    /** The new share code: stored, turned into the invite url and copied. */
    method InvitationCreated(shareCode: string)
      modifies this`workspace, this`inviteUrl, this`copied
      ensures workspace == old(workspace).(shareCode := shareCode)
      ensures inviteUrl == ShareUrl(hostUrl, shareCode)
      ensures copied == old(copied) + [inviteUrl]
    {
      workspace := workspace.(shareCode := shareCode);
      inviteUrl := CurrentShareUrl();
      copied := copied + [inviteUrl];
    }

    /** Five seconds later the invite url is hidden again. */
    method InviteTimerFired()
      modifies this`inviteUrl
      ensures inviteUrl == ""
    {
      inviteUrl := "";
    }
  }
}

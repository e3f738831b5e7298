/**
 * The VM console's connection state machine. Every state string arrives
 * through `ChangeState`: strings starting with `clip:` carry clipboard text,
 * all others become the displayed state with its button icon. Server
 * replies to the ticket and start requests are method parameters; the
 * WMKS console library, the drawer, the five-second shadow timer and the
 * mouse hotspot are not modelled.
 */
module Console {
  import opened Wrappers
  import opened Models
  import Text
  import DataSources
  import MockConsole

  /** The prefix of a state string that carries clipboard text. */
  const ClipPrefix := "clip:"

  /** The icon of the state button for a state. */
  function StateIcon(state: string): (r: string)
    ensures state == "stopped" ==> r == "power_settings_new"
    ensures state == "disconnected" ==> r == "refresh"
    ensures state == "forbidden" ==> r == "block"
    ensures state == "failed" ==> r == "close"
    ensures r == "" <==> state !in {"stopped", "disconnected", "forbidden", "failed"}
  {
    match state
    case "stopped" => "power_settings_new"
    case "disconnected" => "refresh"
    case "forbidden" => "block"
    case "failed" => "close"
    case _ => ""
  }

  /** A non-empty icon names its state: the four icons are distinct. */
  lemma IconIdentifiesState(a: string, b: string)
    requires StateIcon(a) != "" && StateIcon(a) == StateIcon(b)
    ensures a == b
  {
  }

  /** A state string whose fifth character is not `:` carries no clipboard text. */
  lemma NotClip(s: string)
    requires |s| > 4 && s[4] != ':'
    ensures !(ClipPrefix <= s)
  {
    assert ClipPrefix[4] == ':';
  }

  /** Whether a console url selects the mock console: it contains `mock`. */
  function IsMockUrl(url: string): (r: bool)
    ensures r <==> exists i :: Text.OccursAt(url, "mock", i)
    ensures r ==> |url| >= 4
  {
    Text.Contains(url, "mock")
  }

  /** The console service in use: none yet, the mock, or the WMKS library. */
  datatype ConsoleKind = NoConsole | MockKind | WmksKind

  /** What the state button does. */
  datatype ButtonAction = StartVm | ReloadConsole

  class ConsoleComponent {
    var info: ConsoleSummary
    var state: string
    var shadowstate: string
    var stateIcon: string
    var cliptext: string
    /** Every text handed to the clipboard service, oldest first. */
    var copied: seq<string>
    var console: ConsoleKind
    var isoSource: DataSources.IsoDataSource?
    var netSource: DataSources.VmNetDataSource?
    /** The component's own mock service (it is a component-level provider). */
    const mock: MockConsole.MockConsoleService

    /** The displayed state, its shadow and its icon all show `s`. */
    ghost predicate Shows(s: string)
      reads this
    {
      state == s && shadowstate == s && stateIcon == StateIcon(s)
    }

    /** `id` is the console's VM id, from the input or the route. */
    constructor (id: string)
      ensures info == ConsoleSummary(id, "", "", "", false)
      ensures state == "loading" && shadowstate == "loading" && stateIcon == ""
      ensures cliptext == "" && copied == []
      ensures console == NoConsole && isoSource == null && netSource == null
      ensures fresh(mock) && mock.counter == 0 && !mock.stateChangedSet
    {
      info := ConsoleSummary(id, "", "", "", false);
      state := "loading";
      shadowstate := "loading";
      stateIcon := "";
      cliptext := "";
      copied := [];
      console := NoConsole;
      isoSource := null;
      netSource := null;
      mock := new MockConsole.MockConsoleService();
    }

    /** A state report, or clipboard text behind the `clip:` prefix. */
    method ChangeState(s: string)
      modifies this`state, this`shadowstate, this`stateIcon, this`cliptext, this`copied
      ensures ClipPrefix <= s ==>
        cliptext == s[|ClipPrefix|..] && copied == old(copied) + [cliptext]
        && state == old(state) && shadowstate == old(shadowstate) && stateIcon == old(stateIcon)
      ensures !(ClipPrefix <= s) ==>
        Shows(s) && cliptext == old(cliptext) && copied == old(copied)
    {
      if ClipPrefix <= s {
        cliptext := s[|ClipPrefix|..];
        copied := copied + [cliptext];
        return;
      }
      state := s;
      shadowstate := s;
      stateIcon := StateIcon(s);
    }

    /** The state button: start a stopped VM, otherwise reload the console. */
    method StateButtonClicked() returns (action: ButtonAction, request: string)
      modifies this`state, this`shadowstate, this`stateIcon, this`cliptext, this`copied
      ensures action == (if old(state) == "stopped" then StartVm else ReloadConsole)
      ensures action == StartVm ==> Shows("starting")
      ensures action == ReloadConsole ==> Shows("loading")
      ensures request == info.id
      ensures cliptext == old(cliptext) && copied == old(copied)
    {
      if state == "stopped" {
        action := StartVm;
        request := Start();
      } else {
        action := ReloadConsole;
        request := Reload();
      }
    }

    /** Shows `loading` and returns the VM id whose ticket it requests. */
    method Reload() returns (request: string)
      modifies this`state, this`shadowstate, this`stateIcon, this`cliptext, this`copied
      ensures Shows("loading") && request == info.id
      ensures cliptext == old(cliptext) && copied == old(copied)
    {
      NotClip("loading");
      ChangeState("loading");
      request := info.id;
    }

    /** Shows `starting` and returns the VM id it asks to start. */
    method Start() returns (request: string)
      modifies this`state, this`shadowstate, this`stateIcon, this`cliptext, this`copied
      ensures Shows("starting") && request == info.id
      ensures cliptext == old(cliptext) && copied == old(copied)
    {
      NotClip("starting");
      ChangeState("starting");
      request := info.id;
    }

    /** A successful start reloads the console. */
    method StartReplied() returns (request: string)
      modifies this`state, this`shadowstate, this`stateIcon, this`cliptext, this`copied
      ensures Shows("loading") && request == info.id
      ensures cliptext == old(cliptext) && copied == old(copied)
    {
      request := Reload();
    }

    /**
     * The reply to the ticket request (`None` for a request error). A
     * running VM is connected: the mock reports its state at once, while
     * the WMKS console reports later and the state is left as it was.
     */
    method TicketReceived(reply: Option<ConsoleSummary>)
      modifies this, mock
      ensures cliptext == old(cliptext) && copied == old(copied)
      ensures mock.stateChangedSet == old(mock.stateChangedSet)
      ensures reply.None? ==>
        Shows("failed") && info == old(info) && console == old(console)
        && isoSource == old(isoSource) && netSource == old(netSource)
        && mock.counter == old(mock.counter)
      ensures reply.Some? ==>
        info == reply.value
        && console == (if IsMockUrl(reply.value.url) then MockKind else WmksKind)
      ensures reply.Some? && reply.value.isolationId == old(info.isolationId) ==>
        isoSource == old(isoSource) && netSource == old(netSource)
      ensures reply.Some? && reply.value.isolationId != old(info.isolationId) ==>
        isoSource != null && fresh(isoSource) && isoSource.topoId == reply.value.isolationId
        && isoSource.cache == None
        && netSource != null && fresh(netSource) && netSource.topoId == reply.value.isolationId
        && netSource.cache == None
      ensures reply.Some? && reply.value.id == "" ==>
        Shows("failed") && mock.counter == old(mock.counter)
      ensures reply.Some? && reply.value.id != "" && !reply.value.isRunning ==>
        Shows("stopped") && mock.counter == old(mock.counter)
      ensures reply.Some? && reply.value.id != "" && reply.value.isRunning && IsMockUrl(reply.value.url) ==>
        Shows(MockConsole.ReportedState(old(mock.counter))) && mock.counter == old(mock.counter) + 1
      ensures reply.Some? && reply.value.id != "" && reply.value.isRunning && !IsMockUrl(reply.value.url) ==>
        state == old(state) && shadowstate == old(shadowstate) && stateIcon == old(stateIcon)
        && mock.counter == old(mock.counter)
    {
      if reply.None? {
        NotClip("failed");
        ChangeState("failed");
        return;
      }
      var ticket := reply.value;
      if ticket.isolationId != info.isolationId {
        isoSource := new DataSources.IsoDataSource(ticket.isolationId);
        netSource := new DataSources.VmNetDataSource(ticket.isolationId);
      }
      info := ticket;
      console := if IsMock() then MockKind else WmksKind;
      ShowTicketOutcome();
    }

    /** The state a freshly accepted ticket leads to, connecting a running VM. */
    method ShowTicketOutcome()
      modifies this`state, this`shadowstate, this`stateIcon, this`cliptext, this`copied, mock
      ensures cliptext == old(cliptext) && copied == old(copied)
      ensures mock.stateChangedSet == old(mock.stateChangedSet)
      ensures info.id == "" ==> Shows("failed") && mock.counter == old(mock.counter)
      ensures info.id != "" && !info.isRunning ==> Shows("stopped") && mock.counter == old(mock.counter)
      ensures info.id != "" && info.isRunning && console == MockKind ==>
        Shows(MockConsole.ReportedState(old(mock.counter))) && mock.counter == old(mock.counter) + 1
      ensures info.id != "" && info.isRunning && console != MockKind ==>
        state == old(state) && shadowstate == old(shadowstate) && stateIcon == old(stateIcon)
        && mock.counter == old(mock.counter)
    {
      if info.id != "" {
        if info.isRunning {
          if console == MockKind {
            var reports := mock.Connect(info.url, false);
            var reported := reports[0];
            assert reported == "forbidden" || reported == "failed" || reported == "connected";
            NotClip(reported);
            ChangeState(reported);
          }
        } else {
          NotClip("stopped");
          ChangeState("stopped");
        }
      } else {
        NotClip("failed");
        ChangeState("failed");
      }
    }

    /** Whether the console is connected. */
    function IsConnected(): (r: bool)
      reads this
      ensures r <==> state == "connected"
      ensures r ==> StateIcon(state) == ""
    {
      state == "connected"
    }

    /** Whether the current ticket's url selects the mock console. */
    function IsMock(): (r: bool)
      reads this
      ensures r <==> exists i :: Text.OccursAt(info.url, "mock", i)
    {
      IsMockUrl(info.url)
    }
  }
}

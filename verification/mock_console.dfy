/**
 * The stand-in console service used when a console url names a mock. It
 * reports one connection state per `connect`, cycling through forbidden,
 * failed and connected. The report is returned instead of being pushed to
 * a callback; the `disconnected` report it schedules 60 seconds after a
 * successful connect is a timer and is not modelled.
 */
module MockConsole {
  import opened Wrappers

  /** The state reported by the connect made when the counter is `counter`. */
  function ReportedState(counter: nat): (r: string)
    ensures counter % 3 == 0 ==> r == "forbidden"
    ensures counter % 3 == 1 ==> r == "failed"
    ensures counter % 3 == 2 ==> r == "connected"
  {
    if counter % 3 == 2 then "connected"
    else if counter % 3 == 1 then "failed"
    else "forbidden"
  }

  /** The reports of the first `n` connects of a fresh service, in order. */
  function ReportsFromFresh(n: nat): (r: seq<string>)
    ensures |r| == n
    ensures forall k :: 0 <= k < n ==> r[k] == ReportedState(k)
  {
    if n == 0 then [] else ReportsFromFresh(n - 1) + [ReportedState(n - 1)]
  }

  /** A fresh service cycles forbidden, failed, connected with period 3. */
  lemma {:induction false} CycleFromFresh(n: nat)
    ensures ReportsFromFresh(3) == ["forbidden", "failed", "connected"]
    ensures forall k :: 0 <= k < n ==> ReportsFromFresh(n)[k] == ReportsFromFresh(3)[k % 3]
  {
    var three := ReportsFromFresh(3);
    assert three == ["forbidden", "failed", "connected"];
    forall k | 0 <= k < n
      ensures ReportsFromFresh(n)[k] == three[k % 3]
    {
      assert ReportsFromFresh(n)[k] == ReportedState(k);
    }
  }

  class MockConsoleService {
    var counter: nat
    /** Whether a state callback has been stored. */
    var stateChangedSet: bool

    constructor ()
      ensures counter == 0 && !stateChangedSet
    {
      counter := 0;
      stateChangedSet := false;
    }

    /**
     * Connects and returns the states reported to the callback.
     * `callbackIsFunction` says whether the callback passed is the
     * `Function` constructor itself, the only case in which it is stored.
     */
    method Connect(url: string, callbackIsFunction: bool) returns (reports: seq<string>)
      modifies this
      ensures reports == [ReportedState(old(counter))]
      ensures counter == old(counter) + 1
      ensures stateChangedSet == (old(stateChangedSet) || callbackIsFunction)
    {
      if callbackIsFunction {
        stateChangedSet := true;
      }
      reports := [];
      if counter % 3 == 2 {
        reports := reports + ["connected"];
      }
      if counter % 3 == 1 {
        reports := reports + ["failed"];
      }
      if counter % 3 == 0 {
        reports := reports + ["forbidden"];
      }
      counter := counter + 1;
    }

    /**
     * Reports `disconnected` through the stored callback; with none
     * stored the call fails (`None`).
     */
    method Disconnect() returns (report: Option<string>)
      ensures report.Some? <==> stateChangedSet
      ensures report.Some? ==> report.value == "disconnected"
    {
      if stateChangedSet {
        report := Some("disconnected");
      } else {
        report := None;
      }
    }

    /** The remaining console operations do nothing. */
    method SendCad()
    {
    }

    method Refresh()
    {
    }

    method ToggleScale()
    {
    }

    method Fullscreen()
    {
    }

    method ShowKeyboard()
    {
    }

    method ShowExtKeypad()
    {
    }

    method ShowTrackpad()
    {
    }

    method Copy()
    {
    }

    method Paste()
    {
    }

    method Dispose()
    {
    }
  }
}

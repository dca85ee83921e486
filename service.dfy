/**
 * The new-printer notification service object, `NewPrinterNotification`
 * (applet.py:46-177). Its state is the readiness counter it owns, the
 * searching icon of the job viewer, the readiness timeouts it has armed in
 * the event loop, and the process-wide job viewer it creates lazily.
 * Calls are delivered one at a time by the event loop, so each method runs
 * to completion before the next one starts.
 */
module Service {
  import opened Wrappers
  import Readiness
  import opened Dispatch
  import opened Notifications

  /** The job viewer; only the flag the service constructs it with is kept. */
  datatype Viewer = JobViewer(suppressIconHide: bool)

  /** A printer as listed by the spooler; only the attribute NewPrinter reads. */
  datatype Printer = Printer(makeAndModel: string)

  /** A notification handed to the viewer with `notify_new_printer`. */
  datatype Shown = Shown(printer: string, notification: Notification)

  /** How a NewPrinter call ends. */
  datatype Decision =
    | UnknownPrinter           // the printer is not in the spooler's list (KeyError)
    | PpdUnavailable           // fetching the printer's PPD failed (IPPError)
    | Notify(notification: Notification)

  /**
   * What NewPrinter does with its inputs (applet.py:91-142). The spooler's
   * printer list and PPD fetch, the missing-package query on the fetched PPD
   * and the make/model split are given as inputs. The two lookups are the
   * only ways to abort; otherwise the notification is the template chosen
   * for the printer's missing packages and status.
   */
  function DecideNewPrinter(
    status: int, name: string, printers: map<string, Printer>, ppd: Option<string>,
    missingPackages: string -> seq<string>, makeModelSplit: string -> (string, string))
    : (d: Decision)
    ensures d.UnknownPrinter? <==> name !in printers
    ensures d.PpdUnavailable? <==> name in printers && ppd.None?
    ensures d.Notify? <==> name in printers && ppd.Some?
    ensures d.Notify? ==>
      var split := makeModelSplit(printers[name].makeAndModel);
      d.notification
        == ChooseNotification(status, name, DriverName(split.0, split.1), missingPackages(ppd.value))
  {
    if name !in printers then UnknownPrinter
    else if ppd.None? then PpdUnavailable
    else
      var (make, model) := makeModelSplit(printers[name].makeAndModel);
      Notify(ChooseNotification(status, name, DriverName(make, model), missingPackages(ppd.value)))
  }

  class NewPrinterNotification {
    var gettingReady: nat
    var iconShown: bool
    var pendingTimeouts: nat
    /** The global `viewer`, None until first needed. */
    var viewer: Option<Viewer>
    /** Whether the startup wait-for-jobs loop has been told to quit. */
    var waitLoopQuit: bool
    ghost var iconCalls: seq<Readiness.IconCall>
    ghost var viewersCreated: nat
    /** Every notification handed to the viewer, in order. */
    ghost var shown: seq<Shown>

    /** The debouncer part of the state, as the value Readiness reasons about. */
    ghost function Debouncer(): Readiness.State
      reads this
    {
      Readiness.State(gettingReady, iconShown, pendingTimeouts, iconCalls)
    }

    /**
     * The debouncer invariant holds, an armed timeout always finds a viewer
     * to hide the icon on, and the viewer has been constructed at most once.
     */
    ghost predicate Valid()
      reads this
    {
      && Readiness.Inv(Debouncer())
      && (pendingTimeouts > 0 ==> viewer.Some?)
      && viewersCreated == (if viewer.Some? then 1 else 0)
    }

    /** `__init__` (applet.py:52-56), without the bus registration. */
    constructor ()
      ensures Valid() && Debouncer() == Readiness.Initial
      ensures viewer.None? && !waitLoopQuit && shown == []
    {
      gettingReady, iconShown, pendingTimeouts := 0, false, 0;
      viewer, waitLoopQuit := None, false;
      iconCalls, viewersCreated, shown := [], 0, [];
    }

    /**
     * `wake_up` (applet.py:58-67): get-or-create the viewer. Only when there is
     * none yet does it stop the wait-for-jobs loop and construct one.
     */
    method WakeUp()
      requires Valid()
      modifies this`viewer, this`waitLoopQuit, this`viewersCreated
      ensures Valid() && viewer.Some?
      ensures old(viewer).Some? ==> viewer == old(viewer) && waitLoopQuit == old(waitLoopQuit)
      ensures old(viewer).None? ==> viewer == Some(JobViewer(true)) && waitLoopQuit
      ensures viewersCreated == 1
    {
      if viewer.None? {
        waitLoopQuit := true;
        viewer := Some(JobViewer(true));
        viewersCreated := viewersCreated + 1;
      }
    }

    /**
     * `GetReady` (applet.py:69-76): make sure the viewer exists, show the
     * searching icon if no search was outstanding, count the search and arm
     * one single-shot readiness timeout.
     */
    method GetReady()
      requires Valid()
      modifies this
      ensures Valid() && viewer.Some?
      ensures old(viewer).Some? ==> viewer == old(viewer) && waitLoopQuit == old(waitLoopQuit)
      ensures old(viewer).None? ==> viewer == Some(JobViewer(true)) && waitLoopQuit
      ensures Debouncer() == Readiness.GetReady(old(Debouncer()))
      ensures shown == old(shown)
    {
      WakeUp();
      if gettingReady == 0 {
        iconShown := true;
        iconCalls := iconCalls + [Readiness.ShowSearching];
      }
      gettingReady := gettingReady + 1;
      pendingTimeouts := pendingTimeouts + 1;
    }

    /**
     * `timeout_ready` (applet.py:78-85): one search is over. Returns False, so
     * that when it runs as a timeout the event loop does not run it again.
     */
    method TimeoutReady() returns (again: bool)
      requires Valid() && viewer.Some?
      modifies this`gettingReady, this`iconShown, this`iconCalls
      ensures Valid()
      ensures Debouncer() == Readiness.TimeoutReady(old(Debouncer()))
      ensures !again
    {
      if gettingReady > 0 {
        gettingReady := gettingReady - 1;
      }
      if gettingReady == 0 {
        iconShown := false;
        iconCalls := iconCalls + [Readiness.HideSearching];
      }
      again := false;
    }

    /**
     * The event loop fires one armed readiness timeout: it runs
     * `timeout_ready`, and removes the timeout since that returned False.
     */
    method FireTimeout()
      requires Valid() && pendingTimeouts > 0
      modifies this`gettingReady, this`iconShown, this`iconCalls, this`pendingTimeouts
      ensures Valid()
      ensures Debouncer() == Readiness.FireTimeout(old(Debouncer()))
    {
      var again := TimeoutReady();
      if !again {
        pendingTimeouts := pendingTimeouts - 1;
      }
    }

    /**
     * `NewPrinter` (applet.py:87-147). The viewer is made to exist first. An
     * unknown printer or a failed PPD fetch returns at once, leaving the
     * readiness state alone; otherwise exactly one notification is handed to
     * the viewer and `timeout_ready` runs exactly once.
     */
    method NewPrinter(
      status: int, name: string, mfg: string, mdl: string, des: string, cmd: string,
      printers: map<string, Printer>, ppd: Option<string>,
      missingPackages: string -> seq<string>, makeModelSplit: string -> (string, string))
      requires Valid()
      modifies this
      ensures Valid() && viewer.Some?
      ensures old(viewer).Some? ==> viewer == old(viewer) && waitLoopQuit == old(waitLoopQuit)
      ensures old(viewer).None? ==> viewer == Some(JobViewer(true)) && waitLoopQuit
      ensures pendingTimeouts == old(pendingTimeouts)
      ensures
        var d := DecideNewPrinter(status, name, printers, ppd, missingPackages, makeModelSplit);
        if d.Notify? then
          && shown == old(shown) + [Shown(name, d.notification)]
          && Debouncer() == Readiness.TimeoutReady(old(Debouncer()))
        else
          && shown == old(shown)
          && Debouncer() == old(Debouncer())
    {
      WakeUp();
      if name !in printers {
        return;
      }
      var printer := printers[name];
      if ppd.None? {
        return;
      }
      var missingPkgs := missingPackages(ppd.value);
      var (make, model) := makeModelSplit(printer.makeAndModel);
      var n := ChooseNotification(status, name, DriverName(make, model), missingPkgs);
      shown := shown + [Shown(name, n)];
      var _ := TimeoutReady();
    }
  }

  /**
   * Two overlapping searches, then their two timeouts: the icon is shown once,
   * stays on after the first timeout and goes off with the second.
   */
  method OverlappingSearches() {
    var svc := new NewPrinterNotification();
    svc.GetReady();
    svc.GetReady();
    assert svc.iconShown && svc.iconCalls == [Readiness.ShowSearching];
    svc.FireTimeout();
    assert svc.iconShown && svc.gettingReady == 1;
    svc.FireTimeout();
    assert !svc.iconShown && svc.gettingReady == 0 && svc.pendingTimeouts == 0;
    assert svc.iconCalls == [Readiness.ShowSearching, Readiness.HideSearching];
  }
}

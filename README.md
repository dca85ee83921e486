# New-printer notification service of the printer applet

This project models the core of `applet.py` from system-config-printer's
print-status applet. That core is the `NewPrinterNotification` D-Bus service
object. The print spooler calls it in two ways:

- `GetReady` says that a printer is being set up. The service shows a
  "searching" status icon on the job viewer and arms a 60-second readiness
  timeout.
- `NewPrinter` says that a printer was added. The service looks the printer
  up, fetches its PPD, chooses one of three notifications (install a driver,
  configure the printer, find a driver) and resets the searching icon.

Each notification action launches an external tool in a child process. The
job viewer is created lazily, at most once.

Files:

- `wrappers.dfy`: the `Option` type.
- `readiness.dfy` (module `Readiness`): the readiness debouncer as a value.
  It holds the `getting_ready` counter, the icon, the number of armed
  timeouts and the log of show/hide calls on the icon. It has the step
  functions for `GetReady`, `timeout_ready` and a fired timeout, and runs of
  arbitrary event sequences. Its lemmas cover the invariant, bursts, draining
  and the scenarios.
- `dispatch.dfy` (module `Dispatch`): the notification actions, the argument
  vector each one execs, and a parser that reads the action back from an
  argument vector.
- `notifications.dfy` (module `Notifications`): the template choice, the
  ", "-joined package list, titles, urgencies, action ids and expiry.
- `service.dfy` (module `Service`): the class `NewPrinterNotification`. Its
  fields are `gettingReady`, `iconShown`, `pendingTimeouts`, `viewer` and
  `waitLoopQuit`, plus three ghost fields: `iconCalls` (the log of icon
  calls), `viewersCreated` (how many viewers were built) and `shown` (the log
  of shown notifications). `Valid()` keeps `viewersCreated` at one exactly
  when a viewer exists. Each
  method that changes the debouncer is proved against the step functions of
  `Readiness`. `DecideNewPrinter` is
  the pure decision of `NewPrinter`.

The spooler, the PPD fetch, the missing-package query and the make/model
split are foreign calls. They become inputs of `NewPrinter`:

- a map from printer name to printer;
- an optional PPD, which is `None` when the fetch fails;
- two functions.

The event loop is abstracted to "one call at a time". An armed timeout is
counted in `pendingTimeouts` and fires through `FireTimeout`.

The model follows the code as written. In particular:

- An unknown printer or a failed PPD fetch returns from `NewPrinter` before
  `timeout_ready` runs (applet.py:95, applet.py:100). On those paths the
  readiness counter is left unchanged. It is not decremented.
- A successful `NewPrinter` calls `timeout_ready` directly (applet.py:147).
  The timeout armed by the matching `GetReady` still fires later. Both
  run `timeout_ready`, and each decrements the counter while it is positive.
  - `Readiness.NotifyAndTimeoutBothCount` shows the consequence. With two
    searches outstanding, the icon is hidden while a timeout is still armed.
  - The invariant `gettingReady <= pendingTimeouts` still holds. So the icon
    always clears once every armed timeout has fired (`Readiness.DrainClears`).

## Model

| member | source | states |
|---|---|---|
| `Readiness.GetReady` | applet.py:70-76 | the counter and the armed timeouts each grow by exactly one; a show call is made exactly when the counter was 0; the debouncer invariant is kept and the icon is on afterwards |
| `Readiness.TimeoutReady` | applet.py:78-85 | the counter drops by one when positive and otherwise stays 0, never negative; a hide call is made and the icon is off exactly when the counter is 0 afterwards (also when it already was 0); armed timeouts untouched; invariant kept |
| `Readiness.FireTimeout` | applet.py:76-85 | a fired timeout is consumed and not re-armed (the callback returns False); the invariant is kept |
| `Readiness.Step` | applet.py:70-147 | an event is refused exactly when it is a timeout with none armed; every enabled event keeps the invariant |
| `Readiness.RunPreservesInv` | applet.py:70-147 | the invariant (icon shown iff counter > 0, counter <= armed timeouts) holds after any interleaving of GetReady calls, fired timeouts and successful NewPrinter calls |
| `Readiness.GetReadyBurst` | applet.py:72-76 | n GetReady calls raise counter and armed timeouts by n and show the icon once if the counter was 0, not at all if a search was outstanding |
| `Readiness.DrainClears` | applet.py:78-85 | from any state with the invariant, once all armed timeouts fire the counter is 0, the icon is hidden and the last icon call is a hide |
| `Readiness.BurstThenDrain` | applet.py:52-85 | from construction, n GetReady calls then their n timeouts return to counter 0, icon hidden, with exactly one show and one hide call |
| `Readiness.ReachableDrains` | applet.py:52-147 | every state reachable from construction returns to counter 0 and icon hidden once its armed timeouts fire |
| `Readiness.NotifyAndTimeoutBothCount` | applet.py:70-147 | two GetReady calls, one successful NewPrinter and one timeout leave counter 0 and the icon hidden with one timeout still armed |
| `Dispatch.RunConfigTool` | applet.py:149-156 | the child execs the configuration tool with argv = tool path followed by the given arguments |
| `Dispatch.InstallDriverExec` | applet.py:167-174 | the child execs the package installer with argv = installer path followed by the missing packages in order |
| `Dispatch.Launch` | applet.py:161-174 | every action's argv starts with the program it execs, and the action is recovered from its argv by `ParseCommand` |
| `Dispatch.ParseThenLaunch` | applet.py:161-174 | every argv that reads as an action is exactly the argv that action launches (the other half of the round trip) |
| `Dispatch.LaunchInjective` | applet.py:161-174 | distinct actions launch distinct argument vectors |
| `Notifications.JoinPackages` | applet.py:123 | the `reduce` join is as long as all names plus two characters per separator, and ends with the last package |
| `Notifications.JoinAppend` | applet.py:123 | joining a concatenation puts exactly one ", " between the joins of its parts |
| `Notifications.JoinIsRightFold` | applet.py:123 | the left fold computed by `reduce` equals the right-fold reference join |
| `Notifications.DriverName` | applet.py:116 | the driver string is exactly the make, one space, then the model |
| `Notifications.BaseTitle` | applet.py:117-120 | the title is "Printer added" iff status < 2, otherwise "Missing printer driver" |
| `Notifications.ChooseNotification` | applet.py:117-144 | install action iff packages are missing (carrying them, titled "Install printer driver", text with the joined list); configure iff none missing and status 0, with the ready-for-printing text; find-driver iff none missing and status not 0, with the printer icon and the text naming the driver; normal urgency only for configure; titles by status otherwise; action id and caption per action; never expires |
| `Notifications.ActionLaunches` | applet.py:122-177 | the chosen notification's action launches the installer on the missing packages, or the configuration tool with `--configure-printer` / `--choose-driver` and the printer name |
| `Service.DecideNewPrinter` | applet.py:88-142 | aborts as unknown printer iff the name is not listed, as PPD unavailable iff listed but the fetch failed, and otherwise notifies with the template chosen from status, name, "make model" and the PPD's missing packages |
| `Service.NewPrinterNotification.constructor` | applet.py:52-56 | a new service has counter 0, icon hidden, no timeouts, no viewer |
| `Service.NewPrinterNotification.WakeUp` | applet.py:58-67 | get-or-create: a viewer exists afterwards; an existing one is kept untouched; otherwise the wait loop is told to quit and one viewer (with icon hiding suppressed) is built; never more than one is built |
| `Service.NewPrinterNotification.GetReady` | applet.py:69-76 | get-or-create of the viewer as in `WakeUp` (the wait-loop flag changes only when a `JobViewer(true)` is built), then the new debouncer state is `Readiness.GetReady` of the old one; invariant kept |
| `Service.NewPrinterNotification.TimeoutReady` | applet.py:78-85 | the new debouncer state is `Readiness.TimeoutReady` of the old one; returns False |
| `Service.NewPrinterNotification.FireTimeout` | applet.py:76-85 | the new debouncer state is `Readiness.FireTimeout` of the old one |
| `Service.NewPrinterNotification.NewPrinter` | applet.py:87-147 | get-or-create of the viewer as in `WakeUp`, on every path; on an abort nothing is shown and the debouncer is unchanged; otherwise exactly the decided notification is handed to the viewer and `timeout_ready` runs exactly once |

## Left out

- D-Bus: the bus name, object path and method decorations (applet.py:43-56, 69, 87) are not modelled. Neither are exceptions other than the two lookups' `KeyError` and `IPPError`, which would propagate to the D-Bus caller.
- CUPS: `cups.Connection`, `getPrinters`, `getPPD`, `cups.PPD` and `os.unlink` of the fetched PPD are not modelled. Their outcomes are inputs of `NewPrinter`, and the temporary file's deletion is not tracked.
- `cupshelpers.missingPackagesAndExecutables` and `ppds.ppdMakeModelSplit` are not part of this model. They are function inputs. The unused `missing_exes` is not computed.
- The job viewer is reduced to the icon flag, the icon call log and the log of notifications passed to `notify_new_printer`. `jobviewer.JobViewer` is not part of this model.
- Timers: the 60-second delay of the readiness timeout is a constant only. Armed timeouts are counted, and wall-clock order is not modelled.
- `wake_up` also creates a new `gobject.MainLoop` for `runloop`. That is not modelled. Only the quit of the wait loop is recorded.
- `os.fork`, `os.execvp`, `os.execv`, `sys.exit` in the child and the fork-error message are process control and are not modelled. Only the program and argv each action execs are kept.
- `run_config_tool` inserts the tool path into its caller's list in place. Both callers pass a fresh list literal, so the model builds the same vector as a value.
- The wait-for-jobs gate (`WaitForJobs`, `any_jobs`, applet.py:256-295) is startup event-loop orchestration around a CUPS query and is not modelled. Its signal receiver is `check_for_jobs` itself, so the 200 ms debounce in `handle_dbus_signal` is never registered.
- Command-line parsing, help/version output, bus connection and exit codes, and the startup creation of the viewer (applet.py:179-245, 297-308) are process bootstrap and are not modelled.
- Translation with `_()` is not modelled. Message strings are the untranslated English originals.

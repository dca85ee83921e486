/**
 * The notification NewPrinter shows for a newly added printer
 * (applet.py:116-144): one of three templates, chosen from the list of
 * missing driver packages and the status code the spooler reported.
 * Message strings are the untranslated English originals.
 */
module Notifications {
  import opened Dispatch

  /** Status codes of NewPrinter (applet.py:47-50). */
  const StatusSuccess: int := 0
  const StatusModelMismatch: int := 1
  const StatusGenericDriver: int := 2
  const StatusNoDriver: int := 3

  const TitlePrinterAdded: string := "Printer added"
  const TitleMissingDriver: string := "Missing printer driver"
  const TitleInstallDriver: string := "Install printer driver"

  /** The icon passed to the find-driver notification. */
  const PrinterIcon: string := "printer"

  datatype Urgency = Normal | Critical

  /** The one action a notification offers: its id, its caption and what it runs. */
  datatype Action = Action(id: string, caption: string, command: Command)

  /**
   * A desktop notification as built by NewPrinter. `expiresNever` records the
   * timeout set with `set_timeout`, which NewPrinter always sets to never.
   */
  datatype Notification = Notification(
    title: string,
    text: string,
    icon: Wrappers.Option<string>,
    urgency: Urgency,
    action: Action,
    expiresNever: bool
  )

  /** The sum of the lengths of the names. */
  function TotalLength(names: seq<string>): nat
    decreases |names|
  {
    if names == [] then 0 else TotalLength(names[..|names| - 1]) + |names[|names| - 1]|
  }

  /**
   * The package list as NewPrinter writes it: `reduce` over the non-empty list
   * with `x + ", " + y`, a left fold. Each name is kept and separated from
   * the next by exactly ", ".
   */
  function JoinPackages(pkgs: seq<string>): (r: string)
    requires |pkgs| > 0
    ensures |r| == TotalLength(pkgs) + 2 * (|pkgs| - 1)
    ensures r[|r| - |pkgs[|pkgs| - 1]|..] == pkgs[|pkgs| - 1]
    decreases |pkgs|
  {
    if |pkgs| == 1 then pkgs[0]
    else JoinPackages(pkgs[..|pkgs| - 1]) + ", " + pkgs[|pkgs| - 1]
  }

  /** An independent reference definition of the join, as a right fold. */
  function JoinRight(pkgs: seq<string>): string
    requires |pkgs| > 0
    decreases |pkgs|
  {
    if |pkgs| == 1 then pkgs[0] else pkgs[0] + ", " + JoinRight(pkgs[1..])
  }

  /** Joining two non-empty lists puts one separator between their joins. */
  lemma {:induction false} JoinAppend(a: seq<string>, b: seq<string>)
    requires |a| > 0 && |b| > 0
    ensures JoinPackages(a + b) == JoinPackages(a) + ", " + JoinPackages(b)
    decreases |b|
  {
    var ab := a + b;
    if |b| > 1 {
      var b', last := b[..|b| - 1], b[|b| - 1];
      assert ab[..|ab| - 1] == a + b';
      assert ab[|ab| - 1] == last;
      calc {
        JoinPackages(ab);
        JoinPackages(a + b') + ", " + last;
        { JoinAppend(a, b'); }
        JoinPackages(a) + ", " + JoinPackages(b') + ", " + last;
        JoinPackages(a) + ", " + (JoinPackages(b') + ", " + last);
      }
    } else {
      assert ab[..|ab| - 1] == a;
    }
  }

  /** The left fold that `reduce` computes equals the right-fold reference. */
  lemma {:induction false} JoinIsRightFold(pkgs: seq<string>)
    requires |pkgs| > 0
    ensures JoinPackages(pkgs) == JoinRight(pkgs)
    decreases |pkgs|
  {
    if |pkgs| > 1 {
      assert pkgs == [pkgs[0]] + pkgs[1..];
      JoinAppend([pkgs[0]], pkgs[1..]);
      JoinIsRightFold(pkgs[1..]);
    }
  }

  /** `driver = make + " " + model` (applet.py:116). */
  function DriverName(make: string, model: string): (r: string)
    ensures |r| == |make| + |model| + 1 && r[..|make|] == make && r[|make|] == ' ' && r[|make| + 1..] == model
  {
    make + " " + model
  }

  /** Title set before the template overrides it (applet.py:117-120). */
  function BaseTitle(status: int): (r: string)
    ensures r == TitlePrinterAdded <==> status < StatusGenericDriver
    ensures r == TitleMissingDriver <==> status >= StatusGenericDriver
  {
    if status < StatusGenericDriver then TitlePrinterAdded else TitleMissingDriver
  }

  function InstallText(name: string, pkgs: string): string {
    "`" + name + "' requires driver installation: " + pkgs + "."
  }

  function ReadyText(name: string): string {
    "`" + name + "' is ready for printing."
  }

  function AddedWithDriverText(name: string, driver: string): string {
    "`" + name + "' has been added, using the `" + driver + "' driver."
  }

  /** The id under which each kind of action is added to the notification. */
  function ActionId(c: Command): string {
    match c
    case InstallDriver(_) => "install-driver"
    case Configure(_) => "configure"
    case FindDriver(_) => "find-driver"
  }

  function ActionLabel(c: Command): string {
    match c
    case InstallDriver(_) => "Install"
    case Configure(_) => "Configure"
    case FindDriver(_) => "Find driver"
  }

  function MakeAction(c: Command): Action {
    Action(ActionId(c), ActionLabel(c), c)
  }

  /**
   * The template choice (applet.py:117-144). Missing packages take precedence
   * over the status code; among the rest, only status 0 is a plain success.
   * Every notification is critical except the plain success, and none expires.
   */
  function ChooseNotification(status: int, name: string, driver: string, missingPkgs: seq<string>)
    : (n: Notification)
    ensures n.action.command.InstallDriver? <==> |missingPkgs| > 0
    ensures n.action.command.Configure? <==> |missingPkgs| == 0 && status == StatusSuccess
    ensures n.action.command.FindDriver? <==> |missingPkgs| == 0 && status != StatusSuccess
    ensures n.action.command.InstallDriver? ==> n.action.command.packages == missingPkgs
    ensures !n.action.command.InstallDriver? ==> n.action.command.printer == name
    ensures n.action.id == ActionId(n.action.command) && n.action.caption == ActionLabel(n.action.command)
    ensures n.urgency == Normal <==> n.action.command.Configure?
    ensures n.title == TitleInstallDriver <==> |missingPkgs| > 0
    ensures n.title == TitlePrinterAdded <==> |missingPkgs| == 0 && status < StatusGenericDriver
    ensures n.title == TitleMissingDriver <==> |missingPkgs| == 0 && status >= StatusGenericDriver
    ensures |missingPkgs| > 0 ==> n.text == InstallText(name, JoinPackages(missingPkgs))
    ensures |missingPkgs| == 0 && status == StatusSuccess ==> n.text == ReadyText(name)
    ensures |missingPkgs| == 0 && status != StatusSuccess ==> n.text == AddedWithDriverText(name, driver)
    ensures n.icon == if n.action.command.FindDriver? then Wrappers.Some(PrinterIcon) else Wrappers.None
    ensures n.expiresNever
  {
    var title := BaseTitle(status);
    if |missingPkgs| > 0 then
      var pkgs := JoinPackages(missingPkgs);
      Notification(TitleInstallDriver, InstallText(name, pkgs), Wrappers.None, Critical,
                   MakeAction(InstallDriver(missingPkgs)), true)
    else if status == StatusSuccess then
      Notification(title, ReadyText(name), Wrappers.None, Normal, MakeAction(Configure(name)), true)
    else
      Notification(title, AddedWithDriverText(name, driver), Wrappers.Some(PrinterIcon), Critical,
                   MakeAction(FindDriver(name)), true)
  }

  /**
   * The notification's action launches the tool for exactly the data the
   * notification was built from: the configuration tool on the printer, or
   * the installer on the missing packages in their order.
   */
  lemma ActionLaunches(status: int, name: string, driver: string, missingPkgs: seq<string>)
    ensures var e := Launch(ChooseNotification(status, name, driver, missingPkgs).action.command);
      if |missingPkgs| > 0 then e.argv == [InstallTool] + missingPkgs
      else if status == StatusSuccess then e.argv == [ConfigTool, ConfigureFlag, name]
      else e.argv == [ConfigTool, ChooseDriverFlag, name]
  {
  }
}

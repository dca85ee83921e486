/**
 * The actions a new-printer notification offers, and the argument vector of
 * the child process each one launches (applet.py:149-177). Forking and
 * exec'ing are not modelled; what is kept is the program and the argv it is
 * exec'd with.
 */
module Dispatch {
  import opened Wrappers

  /** The printer configuration tool run by `run_config_tool`. */
  const ConfigTool: string := "/usr/bin/system-config-printer"
  /** The package installer run by `install_driver`. */
  const InstallTool: string := "/usr/bin/system-install-packages"

  const ConfigureFlag: string := "--configure-printer"
  const ChooseDriverFlag: string := "--choose-driver"

  /** A notification action together with the data its callback captured. */
  datatype Command =
    | Configure(printer: string)        // `configure`
    | FindDriver(printer: string)       // `find_driver`
    | InstallDriver(packages: seq<string>) // `install_driver`

  /** The program a child process is replaced by, and its argument vector. */
  datatype Exec = Exec(path: string, argv: seq<string>)

  /**
   * `run_config_tool`: the configuration tool's path is put in front of the
   * given arguments, and the child exec's that path with the result.
   */
  function RunConfigTool(args: seq<string>): (e: Exec)
    ensures e.path == ConfigTool
    ensures |e.argv| == |args| + 1 && e.argv[0] == e.path && e.argv[1..] == args
  {
    Exec(ConfigTool, [ConfigTool] + args)
  }

  /** `install_driver`: the installer followed by the missing packages, in order. */
  function InstallDriverExec(packages: seq<string>): (e: Exec)
    ensures e.path == InstallTool
    ensures |e.argv| == |packages| + 1 && e.argv[0] == e.path && e.argv[1..] == packages
  {
    Exec(InstallTool, [InstallTool] + packages)
  }

  /**
   * The action dispatcher: what the child process of each notification action
   * runs. The argv always names the program it runs in position zero, and the
   * command can be read back from the argv.
   */
  function Launch(c: Command): (e: Exec)
    ensures e.argv != [] && e.argv[0] == e.path
    ensures ParseCommand(e.argv) == Some(c)
  {
    match c
    case Configure(name) => RunConfigTool([ConfigureFlag, name])
    case FindDriver(name) => RunConfigTool([ChooseDriverFlag, name])
    case InstallDriver(pkgs) => InstallDriverExec(pkgs)
  }

  /** Which action, if any, an argument vector launches. */
  function ParseCommand(argv: seq<string>): Option<Command>
  {
    if |argv| == 3 && argv[0] == ConfigTool && argv[1] == ConfigureFlag then
      Some(Configure(argv[2]))
    else if |argv| == 3 && argv[0] == ConfigTool && argv[1] == ChooseDriverFlag then
      Some(FindDriver(argv[2]))
    else if |argv| >= 1 && argv[0] == InstallTool then
      Some(InstallDriver(argv[1..]))
    else
      None
  }

  /**
   * The other direction of the round trip: every argv that reads as an action
   * is exactly the argv that action launches. Together with Launch's ensures,
   * Launch is a bijection between actions and well-formed argvs.
   */
  lemma ParseThenLaunch(argv: seq<string>)
    requires ParseCommand(argv).Some?
    ensures Launch(ParseCommand(argv).value).argv == argv
  {
  }

  /** Different actions launch different argument vectors. */
  lemma LaunchInjective(c: Command, d: Command)
    requires Launch(c).argv == Launch(d).argv
    ensures c == d
  {
  }
}

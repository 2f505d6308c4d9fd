/**
  What a command shows of itself, and the start and exit lines the execution
  group formats for a realized pid. The command is the test double
  `CommandMock`: its display arguments fall back to `command mock` when none
  are configured.
 */
module Messages {
  import opened Decimal
  import opened Text

  /** The configuration a command is built from: the executable and its arguments. */
  datatype CommandConfig = CommandConfig(application: string, arguments: seq<string>)

  /** What the test double's `getArguments` returns when no argument is configured. */
  const DefaultArguments: seq<string> := ["command", "mock"]

  /** The process-state text of a zero `os.ProcessState`, which the test double's command carries. */
  const ZeroStateStatus: string := "exit status 0"

  /** `CommandMock.getArguments`: the configured arguments, or the default pair when there are none. */
  function GetArguments(config: CommandConfig): seq<string>
  {
    if |config.arguments| > 0 then config.arguments else DefaultArguments
  }

  lemma GetArgumentsChoice(config: CommandConfig)
    ensures |GetArguments(config)| >= 1
    ensures GetArguments(config) == config.arguments <==> |config.arguments| > 0
    ensures |config.arguments| == 0 ==> GetArguments(config) == DefaultArguments
  {
  }

  /** `[<application>]`. */
  function AppTag(config: CommandConfig): string
  {
    "[" + config.application + "]"
  }

  /** `[<application>] [<arguments>]`, the display form of a command. */
  function DisplayForm(config: CommandConfig): string
  {
    AppTag(config) + " " + FormatList(GetArguments(config))
  }

  /** `pid:<n>`. */
  function PidTag(pid: int): string
  {
    "pid:" + IntToDecimal(pid)
  }

  /** The line logged when a command's process starts. */
  function StartMessage(config: CommandConfig, pid: int): string
  {
    DisplayForm(config) + " " + PidTag(pid) + " started"
  }

  /** The line logged when a command's process exits with the given terminal status text. */
  function ExitMessage(config: CommandConfig, pid: int, status: string): string
  {
    DisplayForm(config) + " " + PidTag(pid) + " exited: " + status
  }

  lemma DisplayParts(config: CommandConfig)
    ensures Contains(DisplayForm(config), AppTag(config))
    ensures Contains(DisplayForm(config), FormatList(GetArguments(config)))
  {
    ContainsSelf(AppTag(config));
    ContainsLeft(AppTag(config), " ", AppTag(config));
    ContainsLeft(AppTag(config) + " ", FormatList(GetArguments(config)), AppTag(config));
    ContainsSelf(FormatList(GetArguments(config)));
    ContainsRight(AppTag(config) + " ", FormatList(GetArguments(config)), FormatList(GetArguments(config)));
  }

  /** What a start line shows: the application, the display arguments, both together, and the pid. */
  lemma StartMessageShows(config: CommandConfig, pid: int)
    ensures Contains(StartMessage(config, pid), AppTag(config))
    ensures Contains(StartMessage(config, pid), FormatList(GetArguments(config)))
    ensures Contains(StartMessage(config, pid), DisplayForm(config))
    ensures Contains(StartMessage(config, pid), PidTag(pid))
    ensures StartMessage(config, pid)[0] == '['
  {
    var d, t := DisplayForm(config), PidTag(pid);
    var m := StartMessage(config, pid);
    ContainsSelf(d);
    ContainsLeft(d, " ", d);
    ContainsLeft(d + " ", t, d);
    ContainsLeft(d + " " + t, " started", d);
    ContainsMiddle(d + " ", t, " started");
    DisplayParts(config);
    ContainsTransitive(m, d, AppTag(config));
    ContainsTransitive(m, d, FormatList(GetArguments(config)));
  }

  /** What an exit line shows: the application, the display arguments, the pid and the terminal status. */
  lemma ExitMessageShows(config: CommandConfig, pid: int, status: string)
    ensures Contains(ExitMessage(config, pid, status), AppTag(config))
    ensures Contains(ExitMessage(config, pid, status), FormatList(GetArguments(config)))
    ensures Contains(ExitMessage(config, pid, status), DisplayForm(config))
    ensures Contains(ExitMessage(config, pid, status), PidTag(pid))
    ensures Contains(ExitMessage(config, pid, status), status)
    ensures ExitMessage(config, pid, status)[0] == '['
  {
    var d, t := DisplayForm(config), PidTag(pid);
    var m := ExitMessage(config, pid, status);
    var head := d + " " + t + " exited: ";
    ContainsSelf(d);
    ContainsLeft(d, " ", d);
    ContainsLeft(d + " ", t, d);
    ContainsLeft(d + " " + t, " exited: ", d);
    ContainsLeft(head, status, d);
    ContainsMiddle(d + " ", t, " exited: ");
    ContainsLeft(head, status, t);
    ContainsSelf(status);
    ContainsRight(head, status, status);
    DisplayParts(config);
    ContainsTransitive(m, d, AppTag(config));
    ContainsTransitive(m, d, FormatList(GetArguments(config)));
  }

  /** Two start lines of one command are equal exactly when their pids are. */
  lemma StartMessageInjective(config: CommandConfig, p: int, q: int)
    ensures StartMessage(config, p) == StartMessage(config, q) <==> p == q
  {
    if StartMessage(config, p) == StartMessage(config, q) {
      MiddleUnique(DisplayForm(config) + " ", PidTag(p), PidTag(q), " started");
      PrefixCancel("pid:", IntToDecimal(p), IntToDecimal(q));
      IntToDecimalInjective(p, q);
    }
  }

  /** Two exit lines of one command with one status are equal exactly when their pids are. */
  lemma ExitMessageInjective(config: CommandConfig, p: int, q: int, status: string)
    ensures ExitMessage(config, p, status) == ExitMessage(config, q, status) <==> p == q
  {
    if ExitMessage(config, p, status) == ExitMessage(config, q, status) {
      var d := DisplayForm(config);
      SuffixCancel(d + " " + PidTag(p) + " exited: ", d + " " + PidTag(q) + " exited: ", status);
      MiddleUnique(d + " ", PidTag(p), PidTag(q), " exited: ");
      PrefixCancel("pid:", IntToDecimal(p), IntToDecimal(q));
      IntToDecimalInjective(p, q);
    }
  }

  /** The display arguments of a command can be read back from its display form when no argument holds a space. */
  lemma DisplayArgumentsRoundTrip(config: CommandConfig)
    requires forall i :: 0 <= i < |config.arguments| ==> NoSpace(config.arguments[i])
    ensures ParseList(FormatList(GetArguments(config))) == GetArguments(config)
  {
    FormatListRoundTrip(GetArguments(config));
  }
}

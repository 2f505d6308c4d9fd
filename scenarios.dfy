/**
  The execution group test suite as scenarios. Each test function becomes a
  method that starts from the group `SetupTest` builds, makes the test's
  calls on it and returns the values the test asserts on; its postconditions
  are the test's assertions. Where a test fixes one pid for the registry or
  the callbacks, the method takes any pid. The lemmas in between are helpers.
 */
module ExecutionGroupTests {
  import opened Text
  import opened Messages
  import opened PidRegistry
  import opened ExecutionGroups

  /** Three test doubles running `echo 1`, `echo 2` and `echo 3`, in that order. */
  predicate EchoCommands(cs: seq<CommandMock>) {
    |cs| == 3 &&
    cs[0].config == CommandConfig("echo", ["1"]) &&
    cs[1].config == CommandConfig("echo", ["2"]) &&
    cs[2].config == CommandConfig("echo", ["3"])
  }

  /**
    `SetupTest`: a group over three test doubles running `echo 1`, `echo 2`
    and `echo 3`, with an empty registry, a zero counter and an empty log.
   */
  method SetupTest() returns (group: ExecutionGroup)
    ensures fresh(group) && group.Valid()
    ensures EchoCommands(group.commands)
    ensures fresh(group.commands[0]) && fresh(group.commands[1]) && fresh(group.commands[2])
    ensures group.pids == [] && group.outstanding == 0 && group.log == []
  {
    var c1 := new CommandMock("echo", ["1"]);
    var c2 := new CommandMock("echo", ["2"]);
    var c3 := new CommandMock("echo", ["3"]);
    group := new ExecutionGroup([c1, c2, c3]);
  }

  /** Helper: the pid the message tests use renders as `pid:65535`. */
  lemma Pid65535Tag()
    ensures PidTag(65535) == "pid:65535"
  {
  }

  /** `Test_getExitMessage`: the group's exit line for a test double with no arguments shows the pid and the zero process state's status. */
  method ExitMessageOfMock() returns (exitMessage: string)
    ensures Contains(exitMessage, "pid:65535")
    ensures Contains(exitMessage, "exit status 0")
  {
    var group := SetupTest();
    var testCommand := new CommandMock("test", []);
    exitMessage := group.GetExitMessage(testCommand, 65535);
    ExitMessageShows(testCommand.config, 65535, ZeroStateStatus);
    Pid65535Tag();
  }

  /** `Test_getStartMessage`: the group's start line for a test double with no arguments shows the pid and the default arguments. */
  method StartMessageOfMock() returns (startMessage: string)
    ensures Contains(startMessage, "pid:65535")
    ensures Contains(startMessage, "[command mock]")
  {
    var group := SetupTest();
    var testCommand := new CommandMock("test", []);
    startMessage := group.GetStartMessage(testCommand, 65535);
    StartMessageShows(testCommand.config, 65535);
    Pid65535Tag();
    DefaultArgumentsDisplay();
    assert GetArguments(testCommand.config) == DefaultArguments;
  }

  /** Helper: the `%v` text of the default arguments is `[command mock]`. */
  lemma DefaultArgumentsDisplay()
    ensures FormatList(DefaultArguments) == "[command mock]"
  {
  }

  /** `Test_addPid`: with the registry reset to empty, one add gives length 1 and adding the same pid again keeps length 1. */
  method AddPidTwice(pid: int) returns (first: nat, second: nat)
    ensures first == 1 && second == 1
  {
    var group := SetupTest();
    group.pids := [];
    group.AddPid(pid);
    first := |group.pids|;
    group.AddPid(pid);
    second := |group.pids|;
  }

  /** `Test_removePid`: with the registry reset to empty, adding a pid gives length 1 and removing it gives length 0. */
  method AddThenRemovePid(pid: int) returns (afterAdd: nat, afterRemove: nat)
    ensures afterAdd == 1 && afterRemove == 0
  {
    var group := SetupTest();
    group.pids := [];
    group.AddPid(pid);
    afterAdd := |group.pids|;
    group.RemovePid(pid);
    afterRemove := |group.pids|;
  }

  /**
    `Test_provisionCommand`: after provisioning both callbacks are set; the
    start callback registers the pid and returns a line showing it; with the
    counter raised by one, the exit callback deregisters it, brings the
    counter back down and returns a line showing it.
   */
  method ProvisionAndFire(pid: int)
    returns (startSet: bool, exitSet: bool, startMsg: string, registered: bool,
             exitMsg: string, stillRegistered: bool, outstandingAfter: nat)
    ensures startSet && exitSet
    ensures Contains(startMsg, PidTag(pid)) && registered
    ensures Contains(exitMsg, PidTag(pid)) && !stillRegistered
    ensures outstandingAfter == 0
  {
    var group := SetupTest();
    var testCommand := new CommandMock("test", []);
    startSet, exitSet, startMsg, registered, exitMsg, stillRegistered, outstandingAfter :=
      ProvisionAndFireOn(group, testCommand, pid);
  }

  /** Helper: the calls of `Test_provisionCommand` on a group with an empty registry and a zero counter. */
  method ProvisionAndFireOn(group: ExecutionGroup, command: CommandMock, pid: int)
    returns (startSet: bool, exitSet: bool, startMsg: string, registered: bool,
             exitMsg: string, stillRegistered: bool, outstandingAfter: nat)
    requires group.Valid() && group.pids == [] && group.outstanding == 0
    modifies group, command
    ensures startSet && exitSet
    ensures Contains(startMsg, PidTag(pid)) && registered
    ensures Contains(exitMsg, PidTag(pid)) && !stillRegistered
    ensures outstandingAfter == 0
  {
    group.ProvisionCommand(command);
    startSet, exitSet := command.startHook != null, command.exitHook != null;
    startMsg := command.OnStart(pid);
    StartMessageShows(command.config, pid);
    registered := pid in group.pids;
    group.outstanding := group.outstanding + 1;
    exitMsg := command.OnExit(pid);
    ExitMessageShows(command.config, pid, ZeroStateStatus);
    RemovedSpec([pid], pid);
    stillRegistered := pid in group.pids;
    outstandingAfter := group.outstanding;
  }

  /**
    `TestRun`: running `echo 1`, `echo 2` and `echo 3` logs the opening line,
    the three display forms and the closing line, and leaves no pid
    registered, whatever pids the processes get.
   */
  method RunEchoGroup(p1: int, p2: int, p3: int) returns (logs: string, remaining: seq<int>)
    ensures Contains(logs, "starting execution group")
    ensures Contains(logs, "[echo] [1]")
    ensures Contains(logs, "[echo] [2]")
    ensures Contains(logs, "[echo] [3]")
    ensures Contains(logs, "terminated execution group")
    ensures remaining == []
  {
    var group := SetupTest();
    var ps := [p1, p2, p3];
    group.Run(ps);
    var log := group.log;
    assert log == RunLog(group.commands, ps);
    EchoRunShows(log, group.commands, ps);
    logs := LogText(log);
    remaining := group.pids;
    RemovedAllEmpty(ps);
  }

  /** Helper: what the log text of a run of `echo 1`, `echo 2`, `echo 3` contains. */
  lemma EchoRunShows(log: seq<LogLine>, cs: seq<CommandMock>, ps: seq<int>)
    requires EchoCommands(cs) && |ps| == 3 && log == RunLog(cs, ps)
    ensures Contains(LogText(log), "starting execution group")
    ensures Contains(LogText(log), "[echo] [1]")
    ensures Contains(LogText(log), "[echo] [2]")
    ensures Contains(LogText(log), "[echo] [3]")
    ensures Contains(LogText(log), "terminated execution group")
  {
    RunLogShape(cs, ps);
    ContainsSelf(StartingGroup);
    LineInLogText(log, 0, StartingGroup);
    ContainsSelf(TerminatedGroup);
    LineInLogText(log, 7, TerminatedGroup);
    EchoLine(log, cs, ps, 0, "1");
    assert "[echo] [" + "1" + "]" == "[echo] [1]";
    EchoLine(log, cs, ps, 1, "2");
    assert "[echo] [" + "2" + "]" == "[echo] [2]";
    EchoLine(log, cs, ps, 2, "3");
    assert "[echo] [" + "3" + "]" == "[echo] [3]";
  }

  /** Helper: the display form of an `echo` of one argument. */
  lemma EchoDisplay(arg: string)
    ensures DisplayForm(CommandConfig("echo", [arg])) == "[echo] [" + arg + "]"
  {
  }

  /** Helper: the start line of command i, an `echo` of one argument, puts `[echo] [<argument>]` into the log text. */
  lemma EchoLine(log: seq<LogLine>, cs: seq<CommandMock>, ps: seq<int>, i: nat, arg: string)
    requires |cs| == |ps| && i < |cs| && log == RunLog(cs, ps)
    requires cs[i].config == CommandConfig("echo", [arg])
    ensures Contains(LogText(log), "[echo] [" + arg + "]")
  {
    RunLogShape(cs, ps);
    var config, k := cs[i].config, 2 * i + 1;
    assert log[k] == ProcessStarted(config, ps[i]);
    StartLineShows(log[k]);
    LineInLogText(log, k, DisplayForm(config));
    EchoDisplay(arg);
  }

  /** Helper: a start line shows its command's display form. */
  lemma StartLineShows(line: LogLine)
    requires line.ProcessStarted?
    ensures Contains(LineText(line), DisplayForm(line.config))
  {
    StartMessageShows(line.config, line.pid);
  }
}

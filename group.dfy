/**
  The execution group and the command test double it drives, sequentially:
  the group's pid slice, its outstanding-process counter (the wait group's
  count) and its log are fields that the methods update in place, and a
  command's two callback slots hold the group they were provisioned by.
 */
module ExecutionGroups {
  import opened Text
  import opened Messages
  import opened PidRegistry

  const StartingGroup: string := "starting execution group"
  const TerminatedGroup: string := "terminated execution group"

  /** One structured log call: the group's two boundary lines and a process's start and exit lines. */
  datatype LogLine =
    | GroupStarting
    | ProcessStarted(config: CommandConfig, pid: int)
    | ProcessExited(config: CommandConfig, pid: int, status: string)
    | GroupTerminated

  /** The message text of a log call. */
  function LineText(line: LogLine): string
  {
    match line
    case GroupStarting => StartingGroup
    case ProcessStarted(config, pid) => StartMessage(config, pid)
    case ProcessExited(config, pid, status) => ExitMessage(config, pid, status)
    case GroupTerminated => TerminatedGroup
  }

  /**
    The test double `CommandMock`: a configuration that never changes and the
    two callback slots `onStart` and `onExit`. A slot holds the group whose
    closure was installed in it, or null while it is nil.
   */
  class CommandMock {
    const config: CommandConfig
    var startHook: ExecutionGroup?
    var exitHook: ExecutionGroup?

    constructor (application: string, arguments: seq<string>)
      ensures config == CommandConfig(application, arguments)
      ensures startHook == null && exitHook == null
    {
      config := CommandConfig(application, arguments);
      startHook := null;
      exitHook := null;
    }

    /** Calls the installed `onStart` callback with the realized pid. */
    method OnStart(pid: int) returns (msg: string)
      requires startHook != null && startHook.Valid()
      modifies startHook`pids
      ensures startHook.Valid()
      ensures startHook.pids == Added(old(startHook.pids), pid)
      ensures msg == StartMessage(config, pid)
    {
      msg := startHook.Start(this, pid);
    }

    /** Calls the installed `onExit` callback with the pid of the process that exited. */
    method OnExit(pid: int) returns (msg: string)
      requires exitHook != null && exitHook.Valid() && exitHook.outstanding > 0
      modifies exitHook`pids, exitHook`outstanding
      ensures exitHook.Valid()
      ensures exitHook.pids == Removed(old(exitHook.pids), pid)
      ensures exitHook.outstanding == old(exitHook.outstanding) - 1
      ensures msg == ExitMessage(config, pid, ZeroStateStatus)
    {
      msg := exitHook.Exit(this, pid);
    }

    /**
      The status text of the process the test double's `getCommand` hands
      out: a zero `os.ProcessState`, which prints as `exit status 0`.
     */
    function ProcessStateText(): string
    {
      ZeroStateStatus
    }
  }

  /** The start and exit lines of each command in turn, each command run to its exit before the next starts. */
  function ProcessLines(cs: seq<CommandMock>, ps: seq<int>): seq<LogLine>
    requires |cs| == |ps|
  {
    if |cs| == 0 then []
    else
      var n := |cs| - 1;
      ProcessLines(cs[..n], ps[..n]) + [ProcessStarted(cs[n].config, ps[n]), ProcessExited(cs[n].config, ps[n], ZeroStateStatus)]
  }

  /** Everything `Run` logs when command i gets pid ps[i]. */
  function RunLog(cs: seq<CommandMock>, ps: seq<int>): seq<LogLine>
    requires |cs| == |ps|
  {
    [GroupStarting] + ProcessLines(cs, ps) + [GroupTerminated]
  }

  class ExecutionGroup {
    const commands: seq<CommandMock>
    var pids: seq<int>
    var outstanding: nat
    var log: seq<LogLine>

    /** Both callback slots of every command in `cs` hold this group. */
    ghost predicate ProvisionedAll(cs: seq<CommandMock>)
      reads cs
    {
      forall k :: 0 <= k < |cs| ==> cs[k].startHook == this && cs[k].exitHook == this
    }

    /** The registry keeps set semantics. */
    ghost predicate Valid()
      reads this
    {
      NoDup(pids)
    }

    constructor (commands: seq<CommandMock>)
      ensures this.commands == commands
      ensures pids == [] && outstanding == 0 && log == []
      ensures Valid()
    {
      this.commands := commands;
      pids := [];
      outstanding := 0;
      log := [];
    }

    /** `getStartMessage`: the start line of `c` running as `pid`. */
    function GetStartMessage(c: CommandMock, pid: int): string
    {
      StartMessage(c.config, pid)
    }

    /** `getExitMessage`: the exit line of `c` as `pid`, with the status text of the process `c` hands out. */
    function GetExitMessage(c: CommandMock, pid: int): string
    {
      ExitMessage(c.config, pid, c.ProcessStateText())
    }

    /** `addPid`: registers `pid` unless it is already registered. */
    method AddPid(pid: int)
      requires Valid()
      modifies this`pids
      ensures Valid()
      ensures pids == Added(old(pids), pid)
    {
      AddedSpec(pids, pid);
      var found, _ := Find(pids, pid);
      if !found {
        pids := pids + [pid];
      }
    }

    /** `removePid`: deregisters `pid`; nothing happens when it is not registered. */
    method RemovePid(pid: int)
      requires Valid()
      modifies this`pids
      ensures Valid()
      ensures pids == Removed(old(pids), pid)
    {
      RemovedNoDup(pids, pid);
      var found, i := Find(pids, pid);
      if found {
        RemovedAt(pids, pid, i);
        pids := pids[..i] + pids[i + 1..];
      } else {
        RemovedSpec(pids, pid);
      }
    }

    /** `provisionCommand`: installs this group's start and exit callbacks on `c`. */
    method ProvisionCommand(c: CommandMock)
      modifies c
      ensures c.startHook == this && c.exitHook == this
    {
      c.startHook := this;
      c.exitHook := this;
    }

    /** The body of the `onStart` callback: register the pid and return the start line. */
    method Start(c: CommandMock, pid: int) returns (msg: string)
      requires Valid()
      modifies this`pids
      ensures Valid()
      ensures pids == Added(old(pids), pid)
      ensures msg == StartMessage(c.config, pid)
    {
      AddPid(pid);
      msg := GetStartMessage(c, pid);
    }

    /** The body of the `onExit` callback: deregister the pid, count one process down and return the exit line. */
    method Exit(c: CommandMock, pid: int) returns (msg: string)
      requires Valid() && outstanding > 0
      modifies this`pids, this`outstanding
      ensures Valid()
      ensures pids == Removed(old(pids), pid)
      ensures outstanding == old(outstanding) - 1
      ensures msg == ExitMessage(c.config, pid, ZeroStateStatus)
    {
      RemovePid(pid);
      outstanding := outstanding - 1;
      msg := GetExitMessage(c, pid);
    }

    /**
      One command's turn in `Run`: provision it, count it as outstanding,
      start it with the pid the operating system gave it, log the start line,
      let it exit and log the exit line.
     */
    method RunCommand(c: CommandMock, pid: int)
      requires Valid()
      modifies this`pids, this`outstanding, this`log, c
      ensures Valid()
      ensures c.startHook == this && c.exitHook == this
      ensures pids == Removed(old(pids), pid)
      ensures outstanding == old(outstanding)
      ensures log == old(log) + [ProcessStarted(c.config, pid), ProcessExited(c.config, pid, ZeroStateStatus)]
    {
      ghost var before := pids;
      ProvisionCommand(c);
      outstanding := outstanding + 1;
      var started := c.OnStart(pid);
      log := log + [ProcessStarted(c.config, pid)];
      assert LineText(log[|log| - 1]) == started;
      var exited := c.OnExit(pid);
      log := log + [ProcessExited(c.config, pid, ZeroStateStatus)];
      assert LineText(log[|log| - 1]) == exited;
      AddedThenRemoved(before, pid);
    }

    /**
      `Run`, sequentially: log the opening line, give each command its turn
      in launch order with the pid the operating system gives it (pidOf[i]),
      and log the closing line once every command has exited. Afterwards
      every pid it saw is deregistered, the counter is back where it was and
      every command is provisioned by this group.
     */
    method Run(pidOf: seq<int>)
      requires Valid() && |pidOf| == |commands|
      modifies this, commands
      ensures Valid()
      ensures pids == RemovedAll(old(pids), pidOf)
      ensures outstanding == old(outstanding)
      ensures log == old(log) + RunLog(commands, pidOf)
      ensures ProvisionedAll(commands)
    {
      log := log + [GroupStarting];
      var i := 0;
      while i < |commands|
        invariant 0 <= i <= |commands|
        invariant Valid()
        invariant pids == RemovedAll(old(pids), pidOf[..i])
        invariant outstanding == old(outstanding)
        invariant log == old(log) + [GroupStarting] + ProcessLines(commands[..i], pidOf[..i])
        invariant ProvisionedAll(commands[..i])
      {
        RunCommand(commands[i], pidOf[i]);
        assert ProvisionedAll(commands[..i + 1]);
        assert pidOf[..i + 1][..i] == pidOf[..i];
        ProcessLinesSnoc(commands, pidOf, i);
        i := i + 1;
      }
      assert pidOf[..i] == pidOf;
      assert commands[..i] == commands;
      log := log + [GroupTerminated];
    }
  }

  lemma ProcessLinesSnoc(cs: seq<CommandMock>, ps: seq<int>, i: nat)
    requires |cs| == |ps| && i < |cs|
    ensures ProcessLines(cs[..i + 1], ps[..i + 1]) ==
      ProcessLines(cs[..i], ps[..i]) + [ProcessStarted(cs[i].config, ps[i]), ProcessExited(cs[i].config, ps[i], ZeroStateStatus)]
  {
    assert cs[..i + 1][..i] == cs[..i];
    assert ps[..i + 1][..i] == ps[..i];
  }

  lemma {:induction false} ProcessLinesAt(cs: seq<CommandMock>, ps: seq<int>)
    requires |cs| == |ps|
    ensures |ProcessLines(cs, ps)| == 2 * |cs|
    ensures forall i :: 0 <= i < |cs| ==>
      ProcessLines(cs, ps)[2 * i] == ProcessStarted(cs[i].config, ps[i]) &&
      ProcessLines(cs, ps)[2 * i + 1] == ProcessExited(cs[i].config, ps[i], ZeroStateStatus)
    decreases |cs|
  {
    if |cs| > 0 {
      var n := |cs| - 1;
      ProcessLinesAt(cs[..n], ps[..n]);
      forall i | 0 <= i < n
        ensures cs[..n][i] == cs[i] && ps[..n][i] == ps[i]
      {
      }
    }
  }

  /**
    The shape of a run's log: the group's opening line first, then for each
    command in launch order its start line followed by its exit line, and the
    closing line last, strictly after every exit line.
   */
  lemma RunLogShape(cs: seq<CommandMock>, ps: seq<int>)
    requires |cs| == |ps|
    ensures |RunLog(cs, ps)| == 2 * |cs| + 2
    ensures RunLog(cs, ps)[0] == GroupStarting
    ensures RunLog(cs, ps)[2 * |cs| + 1] == GroupTerminated
    ensures forall i :: 0 <= i < |cs| ==>
      RunLog(cs, ps)[2 * i + 1] == ProcessStarted(cs[i].config, ps[i]) &&
      RunLog(cs, ps)[2 * i + 2] == ProcessExited(cs[i].config, ps[i], ZeroStateStatus)
  {
    ProcessLinesAt(cs, ps);
  }

  /** The opening and closing texts of a run's log occur exactly once each, at its two ends. */
  lemma RunLogBoundariesUnique(cs: seq<CommandMock>, ps: seq<int>)
    requires |cs| == |ps|
    ensures forall k :: 0 <= k < |RunLog(cs, ps)| ==>
      (LineText(RunLog(cs, ps)[k]) == StartingGroup <==> k == 0) &&
      (LineText(RunLog(cs, ps)[k]) == TerminatedGroup <==> k == 2 * |cs| + 1)
  {
    RunLogShape(cs, ps);
    var log := RunLog(cs, ps);
    forall k | 0 < k < 2 * |cs| + 1
      ensures LineText(log[k]) != StartingGroup && LineText(log[k]) != TerminatedGroup
    {
      var i := (k - 1) / 2;
      if k % 2 == 1 {
        assert log[k] == ProcessStarted(cs[i].config, ps[i]);
        StartMessageShows(cs[i].config, ps[i]);
      } else {
        assert log[k] == ProcessExited(cs[i].config, ps[i], ZeroStateStatus);
        ExitMessageShows(cs[i].config, ps[i], ZeroStateStatus);
      }
    }
  }

  /** The messages of a sequence of log calls. */
  function Texts(lines: seq<LogLine>): seq<string>
  {
    seq(|lines|, k requires 0 <= k < |lines| => LineText(lines[k]))
  }

  /** The text a log sink accumulates: each message followed by a newline. */
  function LogText(lines: seq<LogLine>): string
  {
    Lines(Texts(lines))
  }

  /** What any logged message contains, the accumulated log text contains. */
  lemma LineInLogText(lines: seq<LogLine>, k: nat, t: string)
    requires k < |lines| && Contains(LineText(lines[k]), t)
    ensures Contains(LogText(lines), t)
  {
    LineInLines(Texts(lines), k, t);
  }
}

# Execution group: a sequential model

The program launches a fixed set of external commands together and waits
until all of them have exited. Its core is the **execution group**. The group
holds the commands, a registry of the process ids (pids) that are currently
running, and a wait-group counter of processes that have not exited yet. Before
launch it installs two callbacks on each command ("provisioning"):

- `onStart(pid)` registers the pid and returns a start line.
- `onExit(pid)` deregisters the pid, counts one process down and returns an
  exit line that also carries the process's terminal status text.

The group logs `starting execution group` before the launch and
`terminated execution group` after every process has exited.

This model is written against the group's test suite,
`app/executiongroup_test.go`. That file fixes the behaviour of `addPid`,
`removePid`, `provisionCommand`, `getStartMessage`, `getExitMessage` and
`Run`, and it defines the test double `CommandMock`. The group's own source
file, `app/executiongroup.go`, is not part of this model. Where the tests leave
something open, this model makes a choice and says so below.

Files and modules:

- `decimal.dfy` (`Decimal`): decimal rendering of an `int`, as Go's `%v` prints
  a pid, and its parser partner.
- `text.dfy` (`Text`): substring containment, which is what `assert.Contains`
  checks. Also how `%v` prints a `[]string` (`[a b]`), and splitting that text
  back into a list.
- `messages.dfy` (`Messages`): the command configuration and the test double's
  `getArguments`. Also the display form `[<app>] [<args>]`, the pid tag
  `pid:<n>`, and the start and exit lines.
- `registry.dfy` (`PidRegistry`): the pid slice with set semantics, written as
  functions (`Added`, `Removed`, `RemovedAll`), with the lemmas about them. It
  also holds `Find`, a linear search for a pid. In this model `addPid` and
  `removePid` look pids up with `Find`. This is a modelling choice, because
  the Go code that does the lookup is not part of this model.
- `group.dfy` (`ExecutionGroups`): two classes.
  - `CommandMock` has a constant configuration and the two callback slots. A
    slot holds the group that provisioned it, or null while it is nil.
  - `ExecutionGroup` has the commands, `pids`, `outstanding` (the wait group's
    count) and `log` as fields. `addPid`, `removePid`, `provisionCommand`, the
    two callback bodies and a sequential `Run` are methods that update them in
    place. `getStartMessage` and `getExitMessage` are functions of the group.
- `scenarios.dfy` (`ExecutionGroupTests`): the test functions as methods.
  Each one starts from the group `SetupTest` builds (three `echo` test
  doubles), makes the test's calls and returns the values the test asserts
  on. The postconditions are the test's assertions.
  - Where a test fixes a single pid for the registry or the callbacks, the
    method takes any pid instead.
  - The lemmas in the module are helpers for these proofs.

Modelling choices:

- The start line is `[<app>] [<args>] pid:<n> started`. The exit line is
  `[<app>] [<args>] pid:<n> exited: <status>`. The tests pin down only the
  embedded pieces: `[<app>]`, the `%v` argument list, `pid:<n>` and the status
  text. The connecting words are this model's own.
- The test double's process is a zero `os.ProcessState`, whose text is
  `exit status 0`. This is `ZeroStateStatus`. `CommandMock.ProcessStateText`
  (the test double's `getCommand`) gives it, and `getExitMessage` and
  `onExit` report it. For any other status, `ExitMessage` takes the text as a
  parameter.
- `Run` is sequential. For each command in launch order it does the
  following: provision the command, raise the counter, start the process with
  the pid the operating system gives it, log the returned start line, let the
  process exit, and log the returned exit line. The operating-system pids are
  the parameter `pidOf`.
- The log is a sequence of structured log calls (`LogLine`). `LineText` gives
  a call's message, and `LogText` gives the text a sink accumulates (each
  message followed by a newline). This is what the test's `logs.String()` is
  searched in.

## Model

| member | source | states |
|---|---|---|
| `Messages.GetArgumentsChoice` | app/executiongroup_test.go:24-30 | the display arguments are never empty; they are the configured arguments exactly when at least one is configured, and `["command","mock"]` when none is |
| `Messages.DisplayArgumentsRoundTrip` | app/executiongroup_test.go:24-30 | the `%v` rendering of a command's display arguments reads back to those arguments when none contains a space |
| `Text.FormatListRoundTrip` | app/executiongroup_test.go:110-112 | `%v` of a non-empty list of space-free strings, `[a b]`, reads back to the same list |
| `Text.JoinSplitRoundTrip` | app/executiongroup_test.go:110-112 | joining space-free words with single spaces and cutting at the spaces gives the words back |
| `Decimal.NatToDecimal` | app/executiongroup_test.go:100-103 | the digits `%v` prints for a natural number: at least one, all decimal digits, and no leading zero unless the number is 0 |
| `Decimal.NatToDecimalRoundTrip` | app/executiongroup_test.go:100-103 | the decimal digits of a natural number have that number as their value |
| `Decimal.IntToDecimalRoundTrip` | app/executiongroup_test.go:100-103 | the `%v` text of a pid, sign included, parses back to the pid |
| `Decimal.IntToDecimalInjective` | app/executiongroup_test.go:100-103 | two pids print the same exactly when they are equal |
| `Messages.StartMessageShows` | app/executiongroup_test.go:107-113 | a start line contains `[<app>]`, the `%v` display arguments, `[<app>] [<args>]` and `pid:<n>`, and begins with `[`; `ExecutionGroups.ExecutionGroup.GetStartMessage` (`getStartMessage`) is the start line of the command's configuration, so this holds for what it returns |
| `Messages.ExitMessageShows` | app/executiongroup_test.go:99-105 | an exit line contains `[<app>]`, the display arguments, `[<app>] [<args>]`, `pid:<n>` and the terminal status text, and begins with `[`; `ExecutionGroups.ExecutionGroup.GetExitMessage` (`getExitMessage`) is the exit line of the command's configuration with the status `ExecutionGroups.CommandMock.ProcessStateText` gives (the test double's `getCommand`, lines 32-36: `exit status 0`), so this holds for what it returns |
| `Messages.StartMessageInjective` | app/executiongroup_test.go:107-111 | with this model's own connecting words (` started`), two start lines of one command are equal exactly when their pids are; the tests fix only the embedded pieces, so this holds for the model's wording, not for every wording the tests allow |
| `Messages.ExitMessageInjective` | app/executiongroup_test.go:99-103 | with this model's own connecting words (` exited: `), two exit lines of one command with one status are equal exactly when their pids are; as for start lines, this is a property of the model's wording |
| `PidRegistry.Find` | app/executiongroup_test.go:80-87 | the search finds the pid exactly when it is in the slice, at its first position |
| `PidRegistry.AddedSpec` | app/executiongroup_test.go:80-87 | adding keeps the slice duplicate-free, holds exactly the old pids plus the new one, and grows by one exactly when the pid was new |
| `PidRegistry.AddedIdempotent` | app/executiongroup_test.go:80-87 | adding twice is adding once; from empty, one add gives length 1 and a second add keeps it at 1 |
| `PidRegistry.RemovedSpec` | app/executiongroup_test.go:133-140 | after removal the slice holds exactly the old pids other than the removed one, is no longer, and is unchanged when the pid was absent |
| `PidRegistry.RemovedNoDup` | app/executiongroup_test.go:133-140 | on a duplicate-free slice removal keeps it duplicate-free and shrinks it by exactly one when the pid was present |
| `PidRegistry.RemovedAt` | app/executiongroup_test.go:138-139 | removing a pid found at position i of a duplicate-free slice cuts out position i |
| `PidRegistry.AddedThenRemoved` | app/executiongroup_test.go:133-140 | remove after add of the same pid is remove alone; on a slice without the pid it restores the slice |
| `PidRegistry.AddRemoveEmpty` | app/executiongroup_test.go:133-140 | from an empty registry add gives length 1 and the following remove gives the empty registry |
| `PidRegistry.RemovedAllSpec` | app/executiongroup_test.go:71-72 | after removing a list of pids exactly the old pids outside the list remain, without duplicates |
| `PidRegistry.RemovedAllEmpty` | app/executiongroup_test.go:71-72 | a registry that starts empty ends empty once all its pids are removed: no stale pids |
| `ExecutionGroups.CommandMock.constructor` | app/executiongroup_test.go:38-43 | a fresh test double has the given application and arguments and both callback slots nil |
| `ExecutionGroups.CommandMock.OnStart` | app/executiongroup_test.go:122-124 | calling the installed start callback registers the pid with set semantics and returns the start line |
| `ExecutionGroups.CommandMock.OnExit` | app/executiongroup_test.go:126-129 | calling the installed exit callback deregisters the pid, lowers the counter by one and returns the exit line with the zero process state's status |
| `ExecutionGroups.ExecutionGroup.constructor` | app/executiongroup_test.go:58-64 | a group built from a command list has that list, an empty registry, a zero counter and an empty log |
| `ExecutionGroups.ExecutionGroup.AddPid` | app/executiongroup_test.go:80-87 | the registry becomes `Added(old, pid)` and stays duplicate-free |
| `ExecutionGroups.ExecutionGroup.RemovePid` | app/executiongroup_test.go:133-140 | the registry becomes `Removed(old, pid)` and stays duplicate-free |
| `ExecutionGroups.ExecutionGroup.ProvisionCommand` | app/executiongroup_test.go:118-120 | both callback slots of the command are installed, holding this group |
| `ExecutionGroups.ExecutionGroup.Start` | app/executiongroup_test.go:122-124 | the start callback body: registers the pid and returns the start line |
| `ExecutionGroups.ExecutionGroup.Exit` | app/executiongroup_test.go:126-129 | the exit callback body: deregisters the pid, lowers the counter by one, returns the exit line |
| `ExecutionGroups.ExecutionGroup.RunCommand` | app/executiongroup_test.go:71-78 | one command's turn: provisioned, counter back where it was, the pid deregistered, the start and exit lines logged in that order |
| `ExecutionGroups.ExecutionGroup.Run` | app/executiongroup_test.go:71-78 | the log grows by `RunLog`, every pid seen is deregistered, the counter returns to its old value and every command is provisioned by this group |
| `ExecutionGroups.ProcessLinesAt` | app/executiongroup_test.go:71-78 | command i's start line and exit line sit at positions 2i and 2i+1 of the per-process lines |
| `ExecutionGroups.RunLogShape` | app/executiongroup_test.go:71-78 | a run's log is the opening line, then each command's start and exit lines in launch order, then the closing line after every exit line |
| `ExecutionGroups.RunLogBoundariesUnique` | app/executiongroup_test.go:73-77 | exactly one log call of a run has the message `starting execution group`, and it is the first; exactly one has the message `terminated execution group`, and it is the last |
| `ExecutionGroups.LineInLogText` | app/executiongroup_test.go:73-77 | whatever a logged message contains, the accumulated log text contains |
| `ExecutionGroupTests.Pid65535Tag` | app/executiongroup_test.go:100-103 | the pid tag of 65535 is `pid:65535` |
| `ExecutionGroupTests.SetupTest` | app/executiongroup_test.go:58-69 | the set-up group is fresh, holds three fresh test doubles for `echo 1`, `echo 2` and `echo 3` in that order, and has an empty registry, a zero counter and an empty log |
| `ExecutionGroupTests.ExitMessageOfMock` | app/executiongroup_test.go:99-105 | on the set-up group, `getExitMessage` of a fresh test double for `test` with no arguments and pid 65535 contains `pid:65535` and `exit status 0`; the status comes from the test double's process state |
| `ExecutionGroupTests.StartMessageOfMock` | app/executiongroup_test.go:107-113 | on the set-up group, `getStartMessage` of a fresh test double for `test` with no arguments and pid 65535 contains `pid:65535` and `[command mock]` |
| `ExecutionGroupTests.AddPidTwice` | app/executiongroup_test.go:80-87 | on the set-up group with its registry reset to empty, the length is 1 after one add and still 1 after adding the same pid again |
| `ExecutionGroupTests.AddThenRemovePid` | app/executiongroup_test.go:133-140 | on the set-up group with its registry reset to empty, the length is 1 after an add and 0 after removing that pid |
| `ExecutionGroupTests.ProvisionAndFire` | app/executiongroup_test.go:115-131 | on the set-up group and a fresh test double for `test`, after provisioning both slots are set; onStart returns a line with `pid:<p>` and registers p; with the counter raised, onExit returns a line with `pid:<p>`, deregisters p and brings the counter back to 0 |
| `ExecutionGroupTests.ProvisionAndFireOn` | app/executiongroup_test.go:117-130 | the calls of the provisioning test on any group with an empty registry and a zero counter give the asserted results |
| `ExecutionGroupTests.RunEchoGroup` | app/executiongroup_test.go:71-78 | running echo 1, 2, 3 with any pids gives log text containing the opening line, `[echo] [1]`, `[echo] [2]`, `[echo] [3]` and the closing line, and leaves the registry empty |
| `ExecutionGroupTests.EchoRunShows` | app/executiongroup_test.go:73-77 | the log text of the echo run contains the five asserted substrings |
| `ExecutionGroupTests.EchoLine` | app/executiongroup_test.go:74-76 | the start line of an `echo` of one argument puts `[echo] [<argument>]` into the log text |

## Left out

- `assertCommandIsValid` (app/executiongroup_test.go:89-97) is not modelled. It resolves an executable in the host environment and ends the process fatally when that fails. Both are outside a model that runs nothing.
- Launching processes through `exec.Cmd` is not modelled (app/executiongroup_test.go:32-36). The pids the operating system would assign are `Run`'s parameter `pidOf`. The terminal status is an opaque text: for the test double it is the constant `exit status 0`, the text of a zero `os.ProcessState`.
- Concurrency is not modelled: one goroutine per command, the mutex around `pids`, and the blocking `WaitGroup.Wait`. `Run` runs each command from start to exit before the next one starts. Interleaved starts and exits in other orders are therefore not covered.
- Run, RunLogShape and RunLogBoundariesUnique: the closing line comes after every exit line only because this `Run` is sequential. In the program, `onExit` lowers the wait-group counter inside the callback, and the exit line it returns is logged only after the callback returns. `Run` logs `terminated execution group` as soon as the counter reaches zero. So the last exit line can be logged after the closing line, or after `Run` has returned. The model does not capture that ordering.
- Only the wait group's counter arithmetic is kept. `OnExit` and `Exit` require the counter to be positive, because Go's wait group panics when its counter goes negative.
- The logger is reduced to its messages: its configuration (name, format, level), its structured encoding and its `bytes.Buffer` sink are left out. In Go the start and exit lines are logged by the command's logger. Here `Run` appends them to the group's log.
- The production `Command` type (its own `getArguments`, `getCommand` and `run`) is not part of this model. Only the test double `CommandMock` is.
- `app/executiongroup.go` is not part of this model, so the exact message wording is this model's choice. Only the pieces the tests assert are fixed.
- Pids are unbounded integers: Go's 64-bit `int` range is not modelled.

# A verified model of a Windows service manager's core

The system is a small systemd-like service manager for Windows. Its core
keeps three pieces of state and one request handler:

- the **configuration registry** (`src/config.rs`): a map from unit name to
  the parsed TOML unit file. `load` rebuilds it from the `configs` directory
  beside the executable, `get` looks one unit up and `for_each` visits all of
  them;
- the **process supervisor** (`src/process.rs`): a map from unit name to the
  child process launched for it. `spawn` launches a unit's program with its
  arguments, environment and log files, `check` asks whether the child still
  runs, `stop` kills and reaps it, and `get`/`get_mut` hand one child to a
  closure;
- the **request dispatcher** (`src/server.rs`): `handle_pipe` answers one
  request read from the named pipe, `server_init` loads the registry and
  auto-starts every `Startup` unit, and `run`/`stop` drive the worker-thread
  handle and the stop flag.

Modules follow the source files:

- `common.dfy` (module `Common`): Option, Result, the opaque error payloads,
  Windows path joining and decimal rendering.
- `config.dfy` (module `Config`): the unit-file datatypes, the `load` loop as
  the method `Registry.Load` proved against the specification function
  `Loaded`, and lemmas about `Loaded`.
- `process.dfy` (module `Process`): the supervisor as the class `Supervisor`
  holding a `map<string, Child>`. Every method is tied to a specification
  function (`SpawnFailure`/`Launched`, `CheckOutcome`, `StopOutcome`).
- `server.dfy` (module `Server`): request decoding, the response texts,
  `HandlePipe`, `ServerInit` and the `Run`/`Stop` state machine.

The operating system is passed in as parameters:

- `SpawnOutcomes` says whether the poll of the old child fails, where the
  executable's directory is (or why it cannot be found), which log files
  cannot be created, and whether `CreateProcess` fails.
- `Config.ConfigDir` is the result of listing the `configs` directory. Each
  entry is one of: failed to read, not a regular file, or a file whose read
  succeeded or failed.
- TOML and JSON decoding are function-typed parameters (`Config.Parser`,
  `Server.Decoder`), so every property holds for every decoder.
- A child that exits on its own is the environment event
  `Supervisor.ChildExits`. It is not an operation of the source.

Behaviour of the code worth knowing (the model follows it):

- `spawn` refuses only when `check` succeeds (`src/process.rs:38`). A unit
  whose child has exited, or whose poll fails, is silently replaced.
  `Process.ExitedIsReplaced` states this.
- `load` empties the registry before it lists the directory
  (`src/config.rs:83`). A failed reload therefore leaves only the configs
  inserted before the failure: nothing when the directory cannot be found,
  otherwise a prefix.
- `server_init` is never called anywhere in the repository. It is modelled
  as written.
- The stop flag is never lowered. After `stop`, a later `run` records a new
  worker whose loop exits at once (`Server.StopThenRun`).

## Model

| member | source | states |
|---|---|---|
| Config.Classify | src/config.rs:94-105 | an entry that cannot be read fails with `Io`; a non-file is skipped; an unreadable file fails with `Io`, an unparsable one with `Toml`; only a parsed file is inserted, under its own unit name |
| Config.Registry.Load | src/config.rs:80-110 | the loop leaves the registry equal to `Loaded(dir, parse)` and returns `LoadResult(dir, parse)`, keeping every key equal to its config's unit name |
| Config.LoadedKeys | src/config.rs:93-100 | when no entry fails, a name is a key of the loaded registry iff some file entry parses to a config with that unit name |
| Config.LastFileWins | src/config.rs:100 | when several files declare the same unit name, the registry holds the config of the last of them in directory order |
| Config.FailureIsFinal | src/config.rs:93-107 | once an entry has failed, later entries change neither the inserted configs nor the reported error |
| Config.FailureKeepsPrefix | src/config.rs:83-104 | when entry i is the first failure, `load` returns that error and the registry holds exactly what the entries before i inserted |
| Config.NonFilesAreSkipped | src/config.rs:97 | removing a non-file entry from the listing changes neither the registry nor the result |
| Config.LoadedKeysAreNames | src/config.rs:83-100 | after any `load`, every key is the unit name of its config; when the directory cannot be listed the registry is empty |
| Config.Registry.Get | src/config.rs:114-120 | the closure's result is returned iff the name is a key, and it is the closure applied to that name's config |
| Config.Registry.ForEach | src/config.rs:124-132 | each config of the registry is visited exactly once, and nothing else is visited |
| Process.Debug | src/process.rs:12-18 | the `{:?}` rendering of an error: it begins with `I` exactly for an OS error, and the exit code of `ProcessExited` can be read back from its digits |
| Process.ExitCode | src/process.rs:106 | a missing exit code becomes 1; otherwise the signed code is reinterpreted as `u32` modulo 2^32 |
| Process.CheckOutcome | src/process.rs:102-117 | an unknown name gives `ProcessNotFound`; a failed poll gives `IoError`; a running child gives `Ok`; an exited one gives `ProcessExited` with its wrapped code |
| Process.Supervisor.Check | src/process.rs:102-117 | returns `CheckOutcome` of the table and leaves the table unchanged |
| Process.Launched | src/process.rs:42-70 | the launched child is running, runs the service's program, and writes to the service's log paths or else to `<exe dir>\log\<name>-stdout.log` and `-stderr.log` |
| Process.DefaultLogsDistinct | src/process.rs:58-70 | the default stdout and stderr log paths of units are all distinct path strings, even across different units |
| Process.SpawnFailure | src/process.rs:37-75 | `spawn` fails with `ProcessAlreadyRunning` iff `check` succeeds; any other failure is an `IoError`; it succeeds iff the executable's directory is found, both log files can be created and the launch succeeds |
| Process.Supervisor.Spawn | src/process.rs:37-75 | on failure returns `SpawnFailure` and leaves the table unchanged; on success replaces the name's entry with `Launched` and changes nothing else |
| Process.SpawnFailureIsLocal | src/process.rs:38-72 | whether `spawn` fails depends only on the name's own entry |
| Process.RespawnRefused | src/process.rs:38-72 | after a successful spawn, spawning the same name again with a working poll gives `ProcessAlreadyRunning` |
| Process.ExitedIsReplaced | src/process.rs:38-72 | an entry whose child has exited does not block `spawn` |
| Process.Supervisor.Get | src/process.rs:78-88 | returns the closure applied to the name's child, or `ProcessNotFound`, and changes nothing |
| Process.Supervisor.GetMut | src/process.rs:90-100 | for a tracked name, replaces its child with the closure's updated child and returns the closure's result; otherwise `ProcessNotFound` with the table unchanged |
| Process.StopOutcome | src/process.rs:121-131 | an unknown name gives `ProcessNotFound`; a failing kill or wait gives `IoError`; otherwise `Ok` |
| Process.Supervisor.Stop | src/process.rs:121-131 | removes the name from the table whatever the outcome, and returns `StopOutcome` |
| Process.StoppedIsNotFound | src/process.rs:102-131 | once `stop` has removed a name, `check` on it gives `ProcessNotFound` |
| Process.SpawnTwiceThenStop | src/process.rs:37-131 | spawn, spawn again, stop, check: the first spawn succeeds, the second is refused, and afterwards the name is gone |
| Process.SpawnExitThenCheck | src/process.rs:102-117 | a spawned unit whose child then exits with code 3 stays in the table, and `check` reports `ProcessExited(3)` |
| Server.Liveness | src/server.rs:124-129 | the status line says `Running` iff `check` succeeds, else the error's `{:?}` |
| Server.Decode | src/server.rs:85-157 | a failed, empty or over-long read is answered with the read-failure text, and nothing else is; a decoding error is answered with the parse-failure text; a decoded command line without a subcommand is answered with the no-command text; a command is performed exactly when the decoded command line carries one |
| Server.RepliesTellOutcome | src/server.rs:101-144 | the success texts of start, stop and reload differ from their failure texts |
| Server.Server.HandlePipe | src/server.rs:83-158 | per decoded request: the response text and the new registry and process table. Start spawns the unit's service or reports it missing. Status reports description, type and liveness. Stop removes the unit. Reload rebuilds the registry |
| Server.StartupNamesOfVisits | src/server.rs:172-185 | visiting every config once and picking the `Startup` ones yields each `Startup` unit name exactly once |
| Server.Server.StartEach | src/server.rs:172-185 | the visitor spawns exactly the `Startup` units in visiting order, each with its own service and OS outcomes |
| Server.Server.ServerInit | src/server.rs:161-186 | the registry is `Loaded` even when `load` fails, and every `Startup` unit of what was loaded is spawned exactly once |
| Server.Server.Run | src/server.rs:34-80 | a worker is recorded afterwards; an existing worker is kept and no second one is started |
| Server.Server.Stop | src/server.rs:24-32 | the stop flag is raised and the worker handle is taken, so the server no longer serves |
| Server.StopThenRun | src/server.rs:21-39 | after `stop`, `run` records a worker again, but it does not serve because the flag stays raised |

## Left out

- `src/main.rs` (command-line parsing, the Windows service control handler, installation), `src/client.rs` (the client side of the pipe) and `src/pipe.rs` (unused helpers) are not part of this model.
- The named-pipe transport, meaning the create/connect/write/flush/disconnect loop of the worker in `run`, is Win32 I/O. A request is modelled as the outcome of one `ReadFile`, and the response as the returned text.
- Server.Server.Stop: does not model the wake-up request `stop` sends to its own pipe, nor the blocking join; it records only the flag and the taken handle.
- Concurrency is not modelled: the mutexes and read/write lock, the worker thread, and the race between `check` and the insertion in `spawn`. Every operation is modelled as atomic.
- `Config.Debug` and `Process.Debug` treat the `{:?}` rendering of `io::Error`, `toml::de::Error` and `serde_json::Error` as opaque strings. The `Display` implementations (`src/process.rs:27-36`, `src/config.rs:58-66`) are not modelled, since the dispatcher uses only `{:?}`.
- TOML and JSON decoding and the serde flattening of unknown keys are left out. The decoders are parameters, and the unknown keys are kept as opaque `TomlValue` text.
- Logging (`log::info!`, `log::error!`, `println!`) is not modelled: it changes no state the core reads.
- Process.Supervisor.Spawn does not model that the log files it has already created are left behind, and truncated, when a later step fails: the stdout log when the stderr log or the launch fails, and both logs when the launch fails. Nor does it model that a replaced child is dropped without being waited for.
- Process.Supervisor.Stop does not model that a child whose `kill` fails is dropped while it may still run.
- `current_exe()` and `parent()` are one outcome (`exeDir`), because both failures become the same `IoError` path. `Path::join` is modelled as concatenation with one `\`.
- Process.DefaultLogsDistinct: file identity is modelled as equality of path strings. Windows case folding (units `Web` and `web` share one file), `..` segments, unit names that are absolute paths (which `Path::join` lets replace the log directory), and the trailing separator of a drive-root executable directory are not modelled. So the lemma proves distinct path strings, not distinct files.
- Server.Server.Serving: when `CreateNamedPipeW` fails, the worker's loop ends while its handle stays recorded, so a later `run` starts no new worker. This is not modelled: `Serving` says only that a worker is recorded and the flag is down.
- Server.Server.HandlePipe: for `Start` the source runs `spawn` inside the `config::get` closure while it holds the read lock. The model reads the service first and then spawns, which is the same under the sequential model.
- The contents of a `Child` are reduced to its command and whether it still runs. The OS process and its exit status are reduced to `Exited(Option<i32>)`.

/** The process supervisor: the table from service name to launched child
    (src/process.rs). The operating system is not modelled; every fallible
    OS call a method makes is given to it as an outcome. */
module Process {
  import opened Common
  import Config

  /** Rust's `i32` (what `ExitStatus::code` returns) and `u32` (what `Error` stores). */
  newtype i32 = x: int | -0x8000_0000 <= x < 0x8000_0000
  newtype u32 = x: int | 0 <= x < 0x1_0000_0000

  datatype Error =
    | ProcessNotFound
    | ProcessAlreadyRunning
    | ProcessExited(code: u32)
    | IoError(cause: OsError)

  /** The derived `{:?}` rendering of an error. */
  function Debug(e: Error): (s: string)
    ensures |s| > 0 && (s[0] == 'I' <==> e.IoError?)
    ensures e.ProcessExited? ==> |s| > 15 && DecimalValue(s[14..|s| - 1]) == e.code as int
  {
    match e
    case ProcessNotFound => "ProcessNotFound"
    case ProcessAlreadyRunning => "ProcessAlreadyRunning"
    case ProcessExited(code) =>
      var digits := Decimal(code as nat);
      assert ("ProcessExited(" + digits + ")")[14..15 + |digits| - 1] == digits;
      "ProcessExited(" + digits + ")"
    case IoError(cause) => "IoError(" + cause.debug + ")"
  }

  /** What the OS reports about a launched child: still running, or exited
      with an exit code (`None` where the platform reports none). */
  datatype ProcState = Running | Exited(code: Option<i32>)

  /** What the `Command` builder was set up to launch. */
  datatype Command = Command(
    program: string,
    args: seq<string>,
    envs: map<string, string>,
    stdout: string,
    stderr: string)

  /** A `Child` handle: the command it came from and the process's state. */
  datatype Child = Child(command: Command, state: ProcState)

  type Table = map<string, Child>

  /** The outcomes of the OS calls one `spawn` makes, in the order it makes
      them: `try_wait` inside `check`, locating the executable's directory,
      creating a log file (a function of its path), launching the command. */
  datatype SpawnOutcomes = SpawnOutcomes(
    poll: Option<OsError>,
    exeDir: Result<string, OsError>,
    create: string -> Option<OsError>,
    launch: Option<OsError>)

  /** `status.code().unwrap_or(1) as u32`: a missing code reads as 1 and a
      negative one wraps around modulo 2^32. */
  function ExitCode(code: Option<i32>): (r: u32)
    ensures code.None? ==> r == 1
    ensures (r as int - code.GetOr(1) as int) % 0x1_0000_0000 == 0
  {
    var c := code.GetOr(1) as int;
    if c < 0 then (c + 0x1_0000_0000) as u32 else c as u32
  }

  /** The `try_wait` poll that `check` runs on a tracked child. */
  function TryWait(c: Child, poll: Option<OsError>): Result<(), Error> {
    match poll
    case Some(cause) => Err(IoError(cause))
    case None =>
      match c.state
      case Running => Ok(())
      case Exited(code) => Err(ProcessExited(ExitCode(code)))
  }

  /** `check` succeeds: the name is tracked, the poll works, the child runs. */
  predicate Alive(t: Table, name: string, poll: Option<OsError>) {
    name in t && poll.None? && t[name].state.Running?
  }

  /** What `check(name)` returns on table `t`. */
  function CheckOutcome(t: Table, name: string, poll: Option<OsError>): (r: Result<(), Error>)
    ensures r == Err(ProcessNotFound) <==> name !in t
    ensures r.Ok? <==> Alive(t, name, poll)
    ensures name in t && poll.Some? ==> r == Err(IoError(poll.value))
    ensures name in t && poll.None? && t[name].state.Exited? ==> r == Err(ProcessExited(ExitCode(t[name].state.code)))
  {
    if name in t then TryWait(t[name], poll) else Err(ProcessNotFound)
  }

  /** `<exe dir>/log/<name><suffix>`, with suffix `-stdout.log` or `-stderr.log`. */
  function DefaultLog(exeDir: string, name: string, suffix: string): string {
    Join(Join(exeDir, "log"), name + suffix)
  }

  function StdoutTarget(name: string, service: Config.Service, exeDir: string): string {
    match service.stdoutPath
    case Some(p) => p
    case None => DefaultLog(exeDir, name, "-stdout.log")
  }

  function StderrTarget(name: string, service: Config.Service, exeDir: string): string {
    match service.stderrPath
    case Some(p) => p
    case None => DefaultLog(exeDir, name, "-stderr.log")
  }

  /** The child a successful `spawn` records. */
  function Launched(name: string, service: Config.Service, exeDir: string): (c: Child)
    ensures c.state == Running && c.command.program == service.path
    ensures c.command.stdout == StdoutTarget(name, service, exeDir)
    ensures c.command.stderr == StderrTarget(name, service, exeDir)
  {
    Child(Command(service.path, service.args.GetOr([]), service.env.GetOr(map[]),
                  StdoutTarget(name, service, exeDir), StderrTarget(name, service, exeDir)),
          Running)
  }

  /** Why `spawn` fails, or `None` when it succeeds. */
  function SpawnFailure(t: Table, name: string, service: Config.Service, os: SpawnOutcomes): (f: Option<Error>)
    ensures f == Some(ProcessAlreadyRunning) <==> Alive(t, name, os.poll)
    ensures f.Some? && !Alive(t, name, os.poll) ==> f.value.IoError?
    ensures f.None? <==>
      && !Alive(t, name, os.poll)
      && os.exeDir.Ok?
      && os.create(StdoutTarget(name, service, os.exeDir.value)).None?
      && os.create(StderrTarget(name, service, os.exeDir.value)).None?
      && os.launch.None?
  {
    if CheckOutcome(t, name, os.poll).Ok? then Some(ProcessAlreadyRunning)
    else if os.exeDir.Err? then Some(IoError(os.exeDir.error))
    else if os.create(StdoutTarget(name, service, os.exeDir.value)).Some? then
      Some(IoError(os.create(StdoutTarget(name, service, os.exeDir.value)).value))
    else if os.create(StderrTarget(name, service, os.exeDir.value)).Some? then
      Some(IoError(os.create(StderrTarget(name, service, os.exeDir.value)).value))
    else if os.launch.Some? then Some(IoError(os.launch.value))
    else None
  }

  /** What `stop(name)` returns on table `t`: the kill outcome, then the wait outcome. */
  function StopOutcome(t: Table, name: string, kill: Option<OsError>, wait: Option<OsError>): (r: Result<(), Error>)
    ensures r == Err(ProcessNotFound) <==> name !in t
    ensures name in t ==> (r.Ok? <==> kill.None? && wait.None?)
    ensures name in t && kill.Some? ==> r == Err(IoError(kill.value))
    ensures r.Err? && name in t ==> r.error.IoError?
  {
    if name !in t then Err(ProcessNotFound)
    else if kill.Some? then Err(IoError(kill.value))
    else if wait.Some? then Err(IoError(wait.value))
    else Ok(())
  }

  /** `m` and `m'` agree at key `k`. */
  predicate Same(m: Table, m': Table, k: string) {
    (k in m <==> k in m') && (k in m ==> m[k] == m'[k])
  }

  /** What `spawn(name, service)` leaves at `name`, starting from `t`. */
  predicate SpawnEffect(t: Table, t': Table, name: string, service: Config.Service, os: SpawnOutcomes) {
    if SpawnFailure(t, name, service, os).None? then
      name in t' && t'[name] == Launched(name, service, os.exeDir.value)
    else Same(t, t', name)
  }

  /** Whether `spawn` succeeds depends on the table only through the entry
      for the name being spawned. */
  lemma SpawnFailureIsLocal(t: Table, t': Table, name: string, service: Config.Service, os: SpawnOutcomes)
    requires Same(t, t', name)
    ensures SpawnFailure(t, name, service, os) == SpawnFailure(t', name, service, os)
  {
  }

  /** Default log paths never collide as strings: stdout and stderr differ,
      and two names share a default path only if they are the same name. */
  lemma DefaultLogsDistinct(exeDir: string, a: string, b: string)
    ensures DefaultLog(exeDir, a, "-stdout.log") != DefaultLog(exeDir, b, "-stderr.log")
    ensures DefaultLog(exeDir, a, "-stdout.log") == DefaultLog(exeDir, b, "-stdout.log") ==> a == b
    ensures DefaultLog(exeDir, a, "-stderr.log") == DefaultLog(exeDir, b, "-stderr.log") ==> a == b
  {
    var dir := Join(exeDir, "log");
    LeafOfJoin(dir, a + "-stdout.log", b + "-stderr.log");
    LeafOfJoin(dir, a + "-stdout.log", b + "-stdout.log");
    LeafOfJoin(dir, a + "-stderr.log", b + "-stderr.log");
    StreamsDiffer(a, b);
    SuffixCancels(a, b, "-stdout.log");
    SuffixCancels(a, b, "-stderr.log");
  }

  lemma LeafOfJoin(dir: string, x: string, y: string)
    ensures Join(dir, x) == Join(dir, y) ==> x == y
  {
  }

  lemma SuffixCancels(a: string, b: string, suffix: string)
    ensures a + suffix == b + suffix ==> a == b
  {
    if a + suffix == b + suffix {
      assert |a| == |b|;
      assert a == (a + suffix)[..|a|];
      assert b == (b + suffix)[..|b|];
    }
  }

  lemma StreamsDiffer(a: string, b: string)
    ensures a + "-stdout.log" != b + "-stderr.log"
  {
    var x, y := a + "-stdout.log", b + "-stderr.log";
    assert x[|a| + 4] == 'o';
    assert y[|b| + 4] == 'e';
    if |a| == |b| {
      assert x[|a| + 4] != y[|a| + 4];
    }
  }

  /** A second `spawn` of a name that the first one launched is refused
      while the child runs and its poll works. */
  lemma RespawnRefused(t: Table, name: string, service: Config.Service, os: SpawnOutcomes,
                       service': Config.Service, os': SpawnOutcomes)
    requires SpawnFailure(t, name, service, os).None? && os'.poll.None?
    ensures SpawnFailure(t[name := Launched(name, service, os.exeDir.value)], name, service', os')
            == Some(ProcessAlreadyRunning)
  {
  }

  /** An entry whose child has exited does not block `spawn`. */
  lemma ExitedIsReplaced(t: Table, name: string, service: Config.Service, os: SpawnOutcomes)
    requires name in t && t[name].state.Exited?
    requires os.exeDir.Ok? && os.launch.None?
    requires os.create(StdoutTarget(name, service, os.exeDir.value)).None?
    requires os.create(StderrTarget(name, service, os.exeDir.value)).None?
    ensures SpawnFailure(t, name, service, os).None?
  {
  }

  /** Once `stop` has removed a name, `check` on it finds nothing. */
  lemma StoppedIsNotFound(t: Table, name: string, poll: Option<OsError>)
    ensures CheckOutcome(t - {name}, name, poll) == Err(ProcessNotFound)
  {
  }

  /** The supervisor (`PROCESS_MAP`). */
  class Supervisor {
    var procs: Table

    constructor ()
      ensures procs == map[]
    {
      procs := map[];
    }

    /** `spawn`: refuse a live entry, build the command, create both log
        files, launch; the table changes only at the very last step. */
    method Spawn(name: string, service: Config.Service, os: SpawnOutcomes) returns (r: Result<(), Error>)
      modifies this
      ensures r.Ok? <==> SpawnFailure(old(procs), name, service, os).None?
      ensures r.Err? ==> r.error == SpawnFailure(old(procs), name, service, os).value && procs == old(procs)
      ensures r.Ok? ==> procs == old(procs)[name := Launched(name, service, os.exeDir.value)]
    {
      var alive := Check(name, os.poll);
      if alive.Ok? {
        return Err(ProcessAlreadyRunning);
      }
      var args := match service.args case Some(a) => a case None => [];
      var envs := match service.env case Some(e) => e case None => map[];
      if os.exeDir.Err? {
        return Err(IoError(os.exeDir.error));
      }
      var logPath := Join(os.exeDir.value, "log");
      var stdout := match service.stdoutPath case Some(p) => p case None => Join(logPath, name + "-stdout.log");
      assert stdout == StdoutTarget(name, service, os.exeDir.value);
      if os.create(stdout).Some? {
        return Err(IoError(os.create(stdout).value));
      }
      var stderr := match service.stderrPath case Some(p) => p case None => Join(logPath, name + "-stderr.log");
      assert stderr == StderrTarget(name, service, os.exeDir.value);
      if os.create(stderr).Some? {
        return Err(IoError(os.create(stderr).value));
      }
      if os.launch.Some? {
        return Err(IoError(os.launch.value));
      }
      procs := procs[name := Child(Command(service.path, args, envs, stdout, stderr), Running)];
      r := Ok(());
    }

    /** `get(name, f)`: read-only projection of the tracked child. */
    method Get<R>(name: string, f: Child -> R) returns (r: Result<R, Error>)
      ensures name in procs ==> r == Ok(f(procs[name]))
      ensures name !in procs ==> r == Err(ProcessNotFound)
    {
      if name in procs {
        r := Ok(f(procs[name]));
      } else {
        r := Err(ProcessNotFound);
      }
    }

    /** `get_mut(name, f)`: `f` may update the tracked child in place. */
    method GetMut<R>(name: string, f: Child -> (Child, R)) returns (r: Result<R, Error>)
      modifies this
      ensures name in old(procs) ==> r == Ok(f(old(procs)[name]).1) && procs == old(procs)[name := f(old(procs)[name]).0]
      ensures name !in old(procs) ==> r == Err(ProcessNotFound) && procs == old(procs)
    {
      if name in procs {
        var (child, result) := f(procs[name]);
        procs := procs[name := child];
        r := Ok(result);
      } else {
        r := Err(ProcessNotFound);
      }
    }

    /** `check`: poll the tracked child through `get_mut`; the entry stays,
        whatever the poll finds. */
    method Check(name: string, poll: Option<OsError>) returns (r: Result<(), Error>)
      modifies this
      ensures procs == old(procs)
      ensures r == CheckOutcome(old(procs), name, poll)
    {
      var polled := GetMut(name, (c: Child) => (c, TryWait(c, poll)));
      r := match polled case Ok(inner) => inner case Err(e) => Err(e);
    }

    /** `stop`: remove the entry first, then kill and wait; a failing kill
        or wait is reported but the entry is gone. */
    method Stop(name: string, kill: Option<OsError>, wait: Option<OsError>) returns (r: Result<(), Error>)
      modifies this
      ensures procs == old(procs) - {name}
      ensures r == StopOutcome(old(procs), name, kill, wait)
    {
      if name !in procs {
        return Err(ProcessNotFound);
      }
      procs := procs - {name};
      if kill.Some? {
        return Err(IoError(kill.value));
      }
      if wait.Some? {
        return Err(IoError(wait.value));
      }
      r := Ok(());
    }

    /** Not an operation of the supervisor: the child under `name` ends on its
        own, which the next `check` observes. */
    method ChildExits(name: string, code: Option<i32>)
      modifies this
      ensures name in old(procs) && old(procs)[name].state.Running? ==>
        procs == old(procs)[name := old(procs)[name].(state := Exited(code))]
      ensures !(name in old(procs) && old(procs)[name].state.Running?) ==> procs == old(procs)
    {
      if name in procs && procs[name].state.Running? {
        procs := procs[name := procs[name].(state := Exited(code))];
      }
    }
  }

  /** A client of the supervisor: spawning a name twice with no `stop` in
      between refuses the second spawn, and after `stop` the name is gone. */
  method SpawnTwiceThenStop(s: Supervisor, name: string, service: Config.Service, os: SpawnOutcomes,
                            kill: Option<OsError>, wait: Option<OsError>, poll: Option<OsError>)
    returns (first: Result<(), Error>, second: Result<(), Error>, stopped: Result<(), Error>, after: Result<(), Error>)
    requires name !in s.procs && os.poll.None? && SpawnFailure(s.procs, name, service, os).None?
    modifies s
    ensures first.Ok? && second == Err(ProcessAlreadyRunning)
    ensures stopped == StopOutcome(old(s.procs)[name := Launched(name, service, os.exeDir.value)], name, kill, wait)
    ensures after == Err(ProcessNotFound) && name !in s.procs
  {
    first := s.Spawn(name, service, os);
    RespawnRefused(old(s.procs), name, service, os, service, os);
    second := s.Spawn(name, service, os);
    stopped := s.Stop(name, kill, wait);
    after := s.Check(name, poll);
  }

  /** A client of the supervisor: a unit that was spawned and then exited on
      its own with code 3 is reported by `check` as `ProcessExited(3)`. */
  method SpawnExitThenCheck(s: Supervisor, name: string, service: Config.Service, os: SpawnOutcomes)
    returns (first: Result<(), Error>, status: Result<(), Error>)
    requires SpawnFailure(s.procs, name, service, os).None?
    modifies s
    ensures first.Ok? && status == Err(ProcessExited(3))
    ensures name in s.procs && s.procs[name].state == Exited(Some(3))
  {
    first := s.Spawn(name, service, os);
    s.ChildExits(name, Some(3));
    status := s.Check(name, None);
  }
}

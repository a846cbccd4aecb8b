/** The server side of the control channel (src/server.rs): dispatching one
    decoded request against the registry and the supervisor, the boot-time
    auto-start of units, and the worker-handle / stop-flag state machine.
    The named-pipe transport is not modelled: a request arrives as the bytes
    a client wrote, and the response is the text written back. */
module Server {
  import opened Common
  import Config
  import Process

  /** The subcommands that reach the control channel. */
  datatype Command = Start(name: string) | Stop(name: string) | Status(name: string) | ReloadConfig

  /** The decoded command line a client sends; dispatch reads only `command`. */
  datatype Cli = Cli(
    command: Option<Command>,
    install: bool,
    uninstall: bool,
    start: bool,
    stop: bool,
    runAsService: bool,
    runAsUser: bool)

  /** `serde_json::from_str::<Cli>` on the received bytes, left abstract. */
  type Decoder = seq<bv8> -> Result<Cli, SyntaxError>

  /** The size of the buffer `ReadFile` reads into. */
  const BufferSize: nat := 1024

  /** What one `ReadFile` on the connected pipe meets: a failure of the
      call, or the message the client wrote. */
  datatype ReadOutcome = ReadFailed | Message(bytes: seq<bv8>)

  /** The read succeeds and delivers data: a message-mode read of a message
      longer than the buffer fails, and an empty one delivers nothing. */
  predicate Received(read: ReadOutcome) {
    read.Message? && 0 < |read.bytes| <= BufferSize
  }

  /** The OS outcomes one request may meet, depending on its command. */
  datatype Outcomes = Outcomes(
    spawn: Process.SpawnOutcomes,
    poll: Option<OsError>,
    kill: Option<OsError>,
    wait: Option<OsError>,
    configDir: Config.ConfigDir,
    parse: Config.Parser)

  // The response texts.

  const ReadFailure := "Failed to read from pipe or no data received."
  const NoCommand := "No command provided."
  const Reloaded := "Configuration reloaded successfully."

  function ParseFailed(e: SyntaxError): string { "Failed to parse command: " + e.debug }
  function Started(name: string): string { "Service `" + name + "` started successfully." }
  function StartFailed(name: string, e: Process.Error): string {
    "Failed to start service `" + name + "`: " + Process.Debug(e)
  }
  function CannotFind(name: string): string { "Cannot Find Service `" + name + "`" }
  function NoConfig(name: string): string { "Failed to get config for service `" + name + "`" }
  function Stopped(name: string): string { "Service `" + name + "` stopped successfully." }
  function StopFailed(name: string, e: Process.Error): string {
    "Failed to stop service `" + name + "`: " + Process.Debug(e)
  }
  function ReloadFailed(e: Config.Error): string { "Error reloading configuration: " + Config.Debug(e) }

  /** The value of the `Status` line: `Running` exactly when `check` succeeds. */
  function Liveness(check: Result<(), Process.Error>): (s: string)
    ensures s == "Running" <==> check.Ok?
    ensures check.Err? ==> s == Process.Debug(check.error)
  {
    match check
    case Ok(_) => "Running"
    case Err(e) => Process.Debug(e)
  }

  /** The three-line status report: name and description, type, liveness.
      The labels are `{:<7}`-padded. */
  function StatusReport(name: string, cfg: Config.Config, check: Result<(), Process.Error>): string {
    name + " - " + cfg.unit.description.GetOr("Not provided") + "\n"
    + "Type   :" + Config.StyleDebug(cfg.service.style) + " \n"
    + "Status :" + Liveness(check) + " \n"
  }

  /** The outcome of receiving and decoding one request: a fixed reply, or a
      command to perform. */
  datatype Request = Reply(text: string) | Perform(cmd: Command)

  function Decode(read: ReadOutcome, decode: Decoder): (d: Request)
    ensures !Received(read) <==> d == Reply(ReadFailure)
    ensures d.Perform? ==> decode(read.bytes).Ok? && decode(read.bytes).value.command == Some(d.cmd)
    ensures Received(read) && decode(read.bytes).Err? ==> d == Reply(ParseFailed(decode(read.bytes).error))
    ensures Received(read) && decode(read.bytes).Ok? ==>
      d == match decode(read.bytes).value.command
           case None => Reply(NoCommand)
           case Some(c) => Perform(c)
  {
    if !Received(read) then Reply(ReadFailure)
    else match decode(read.bytes)
      case Err(e) =>
        assert ParseFailed(e)[10] != ReadFailure[10];
        Reply(ParseFailed(e))
      case Ok(cli) =>
        match cli.command
        case None => assert |NoCommand| != |ReadFailure|; Reply(NoCommand)
        case Some(cmd) => Perform(cmd)
  }

  /** The texts a client receives tell it which way its command went. */
  lemma RepliesTellOutcome(name: string, e: Process.Error, name': string, e': Config.Error)
    ensures Started(name) != StartFailed(name', e) && Started(name) != CannotFind(name')
    ensures StartFailed(name, e) != CannotFind(name')
    ensures Stopped(name) != StopFailed(name', e)
    ensures Reloaded != ReloadFailed(e')
  {
    assert Started(name)[0] == 'S' && Stopped(name)[0] == 'S';
    assert StartFailed(name', e)[0] == 'F' && StopFailed(name', e)[0] == 'F';
    assert CannotFind(name')[0] == 'C';
    assert Reloaded[0] == 'C' && ReloadFailed(e')[0] == 'E';
  }

  /** The names of the `Startup` units among `vs`, in order. */
  function StartupNames(vs: seq<Config.Config>): seq<string>
    decreases |vs|
  {
    if vs == [] then []
    else
      var last := vs[|vs| - 1];
      StartupNames(vs[..|vs| - 1]) + (if last.service.style == Config.Startup then [last.unit.name] else [])
  }

  lemma {:induction false} StartupNamesFrom(vs: seq<Config.Config>, k: string)
    ensures k in StartupNames(vs) ==>
      exists j :: 0 <= j < |vs| && vs[j].unit.name == k && vs[j].service.style == Config.Startup
    decreases |vs|
  {
    if vs != [] && k in StartupNames(vs) {
      var n := |vs| - 1;
      if k in StartupNames(vs[..n]) {
        StartupNamesFrom(vs[..n], k);
        var j :| 0 <= j < n && vs[..n][j].unit.name == k && vs[..n][j].service.style == Config.Startup;
        assert vs[j] == vs[..n][j];
      } else {
        assert vs[n].unit.name == k && vs[n].service.style == Config.Startup;
      }
    }
  }

  lemma {:induction false} StartupNamesHas(vs: seq<Config.Config>, j: nat)
    requires j < |vs| && vs[j].service.style == Config.Startup
    ensures vs[j].unit.name in StartupNames(vs)
    decreases |vs|
  {
    var n := |vs| - 1;
    if j < n {
      assert vs[..n][j] == vs[j];
      StartupNamesHas(vs[..n], j);
    }
  }

  lemma {:induction false} StartupNamesDistinct(vs: seq<Config.Config>)
    requires forall i, j :: 0 <= i < j < |vs| ==> vs[i].unit.name != vs[j].unit.name
    ensures forall i, j :: 0 <= i < j < |StartupNames(vs)| ==> StartupNames(vs)[i] != StartupNames(vs)[j]
    decreases |vs|
  {
    if vs != [] {
      var n := |vs| - 1;
      var init := StartupNames(vs[..n]);
      forall i, j | 0 <= i < j < |vs[..n]| ensures vs[..n][i].unit.name != vs[..n][j].unit.name {
        assert vs[..n][i] == vs[i] && vs[..n][j] == vs[j];
      }
      StartupNamesDistinct(vs[..n]);
      StartupNamesFrom(vs[..n], vs[n].unit.name);
    }
  }

  /** Over a visit of every config exactly once, the `Startup` names are
      exactly the registry's `Startup` units, each once. */
  lemma StartupNamesOfVisits(visits: seq<Config.Config>, configs: map<string, Config.Config>)
    requires Config.KeysAreNames(configs)
    requires forall k :: k in configs ==> configs[k] in visits
    requires forall i :: 0 <= i < |visits| ==> visits[i].unit.name in configs && configs[visits[i].unit.name] == visits[i]
    requires forall i, j :: 0 <= i < j < |visits| ==> visits[i] != visits[j]
    ensures forall k :: k in StartupNames(visits) <==> k in configs && configs[k].service.style == Config.Startup
    ensures forall i, j :: 0 <= i < j < |StartupNames(visits)| ==> StartupNames(visits)[i] != StartupNames(visits)[j]
  {
    StartupNamesDistinct(visits);
    forall k | k in StartupNames(visits) ensures k in configs && configs[k].service.style == Config.Startup {
      StartupNamesFrom(visits, k);
      var j :| 0 <= j < |visits| && visits[j].unit.name == k && visits[j].service.style == Config.Startup;
      assert configs[visits[j].unit.name] == visits[j];
    }
    forall k | k in configs && configs[k].service.style == Config.Startup ensures k in StartupNames(visits) {
      var j :| 0 <= j < |visits| && visits[j] == configs[k];
      assert visits[j].unit.name == k;
      StartupNamesHas(visits, j);
    }
  }

  /** Starting from table `t0`, table `t` is what spawning each of `names`
      (once, with the unit's service section) produces; every other key is
      untouched. */
  ghost predicate Launches(t0: Process.Table, t: Process.Table, names: seq<string>,
                           configs: map<string, Config.Config>, outcomes: string -> Process.SpawnOutcomes)
  {
    && (forall k :: k !in names ==> Process.Same(t0, t, k))
    && (forall k :: k in names ==> k in configs && Process.SpawnEffect(t0, t, k, configs[k].service, outcomes(k)))
  }

  lemma LaunchesStep(t0: Process.Table, t: Process.Table, t': Process.Table, names: seq<string>,
                     configs: map<string, Config.Config>, outcomes: string -> Process.SpawnOutcomes, name: string)
    requires Launches(t0, t, names, configs, outcomes)
    requires name !in names && name in configs
    requires var service := configs[name].service;
      var f := Process.SpawnFailure(t, name, service, outcomes(name));
      t' == if f.None? then t[name := Process.Launched(name, service, outcomes(name).exeDir.value)] else t
    ensures Launches(t0, t', names + [name], configs, outcomes)
  {
  }

  /** The thread handle `run` records in `WORKER_THREAD`. */
  datatype JoinHandle = JoinHandle

  class Server {
    const registry: Config.Registry
    const supervisor: Process.Supervisor
    /** `WORKER_THREAD`. */
    var worker: Option<JoinHandle>
    /** `STOP_TOKEN`. */
    var stopToken: bool
    /** How many worker threads `run` has started. */
    ghost var started: nat

    /** A worker is recorded and the stop flag is down, so its loop goes on
        to the next request (unless creating the pipe instance failed, which
        ends the loop while the handle stays recorded). */
    predicate Serving()
      reads this
    {
      worker.Some? && !stopToken
    }

    constructor (registry: Config.Registry, supervisor: Process.Supervisor)
      ensures this.registry == registry && this.supervisor == supervisor
      ensures worker.None? && !stopToken && started == 0
    {
      this.registry := registry;
      this.supervisor := supervisor;
      worker := None;
      stopToken := false;
      started := 0;
    }

    /** `handle_pipe`: answer one request received on the pipe. */
    method HandlePipe(read: ReadOutcome, decode: Decoder, os: Outcomes) returns (response: string)
      requires registry.Valid()
      modifies registry, supervisor
      ensures registry.Valid()
      ensures var d := Decode(read, decode);
        d.Reply? ==>
          && response == d.text
          && registry.configs == old(registry.configs)
          && supervisor.procs == old(supervisor.procs)
      ensures var d := Decode(read, decode);
        d.Perform? && d.cmd.Start? && d.cmd.name !in old(registry.configs) ==>
          && response == CannotFind(d.cmd.name)
          && registry.configs == old(registry.configs)
          && supervisor.procs == old(supervisor.procs)
      ensures var d := Decode(read, decode);
        d.Perform? && d.cmd.Start? && d.cmd.name in old(registry.configs) ==>
          var name := d.cmd.name;
          var service := old(registry.configs)[name].service;
          var f := Process.SpawnFailure(old(supervisor.procs), name, service, os.spawn);
          && registry.configs == old(registry.configs)
          && (f.None? ==>
                && response == Started(name)
                && supervisor.procs == old(supervisor.procs)[name := Process.Launched(name, service, os.spawn.exeDir.value)])
          && (f.Some? ==> response == StartFailed(name, f.value) && supervisor.procs == old(supervisor.procs))
      ensures var d := Decode(read, decode);
        d.Perform? && d.cmd.Status? ==>
          var name := d.cmd.name;
          && (name !in old(registry.configs) ==> response == NoConfig(name))
          && (name in old(registry.configs) ==>
                response == StatusReport(name, old(registry.configs)[name],
                                         Process.CheckOutcome(old(supervisor.procs), name, os.poll)))
          && registry.configs == old(registry.configs)
          && supervisor.procs == old(supervisor.procs)
      ensures var d := Decode(read, decode);
        d.Perform? && d.cmd.Stop? ==>
          var name := d.cmd.name;
          var r := Process.StopOutcome(old(supervisor.procs), name, os.kill, os.wait);
          && response == (if r.Ok? then Stopped(name) else StopFailed(name, r.error))
          && registry.configs == old(registry.configs)
          && supervisor.procs == old(supervisor.procs) - {name}
      ensures var d := Decode(read, decode);
        d.Perform? && d.cmd.ReloadConfig? ==>
          var r := Config.LoadResult(os.configDir, os.parse);
          && response == (if r.Ok? then Reloaded else ReloadFailed(r.error))
          && registry.configs == Config.Loaded(os.configDir, os.parse)
          && supervisor.procs == old(supervisor.procs)
    {
      match Decode(read, decode) {
        case Reply(text) =>
          response := text;
        case Perform(Start(name)) =>
          var service := registry.Get(name, (c: Config.Config) => c.service);
          match service {
            case None =>
              response := CannotFind(name);
            case Some(s) =>
              var r := supervisor.Spawn(name, s, os.spawn);
              response := if r.Ok? then Started(name) else StartFailed(name, r.error);
          }
        case Perform(Status(name)) =>
          var cfg := registry.Get(name, (c: Config.Config) => c);
          match cfg {
            case None =>
              response := NoConfig(name);
            case Some(c) =>
              var check := supervisor.Check(name, os.poll);
              response := StatusReport(name, c, check);
          }
        case Perform(Stop(name)) =>
          var r := supervisor.Stop(name, os.kill, os.wait);
          response := if r.Ok? then Stopped(name) else StopFailed(name, r.error);
        case Perform(ReloadConfig) =>
          var r := registry.Load(os.configDir, os.parse);
          response := if r.Ok? then Reloaded else ReloadFailed(r.error);
      }
    }

    /** `server_init`: load the registry (a failure is only logged), then
        spawn every unit of style `Startup`, in the registry's iteration
        order. Returns what `load` returned and the names spawned. */
    method ServerInit(dir: Config.ConfigDir, parse: Config.Parser, outcomes: string -> Process.SpawnOutcomes)
      returns (loaded: Result<(), Config.Error>, attempted: seq<string>)
      modifies registry, supervisor
      ensures registry.Valid()
      ensures registry.configs == Config.Loaded(dir, parse) && loaded == Config.LoadResult(dir, parse)
      ensures forall k :: k in attempted <==> k in registry.configs && registry.configs[k].service.style == Config.Startup
      ensures forall i, j :: 0 <= i < j < |attempted| ==> attempted[i] != attempted[j]
      ensures Launches(old(supervisor.procs), supervisor.procs, attempted, registry.configs, outcomes)
    {
      loaded := registry.Load(dir, parse);
      var visits := registry.ForEach();
      attempted := StartEach(visits, outcomes);
      StartupNamesOfVisits(visits, registry.configs);
    }

    /** The visitor `server_init` hands to `for_each`, applied to each visited
        config in turn: spawn it under its unit name if its style is `Startup`. */
    method StartEach(visits: seq<Config.Config>, outcomes: string -> Process.SpawnOutcomes)
      returns (attempted: seq<string>)
      requires forall i :: 0 <= i < |visits| ==>
        visits[i].unit.name in registry.configs && registry.configs[visits[i].unit.name] == visits[i]
      requires forall i, j :: 0 <= i < j < |visits| ==> visits[i].unit.name != visits[j].unit.name
      modifies supervisor
      ensures attempted == StartupNames(visits)
      ensures Launches(old(supervisor.procs), supervisor.procs, attempted, registry.configs, outcomes)
    {
      attempted := [];
      var i := 0;
      while i < |visits|
        invariant 0 <= i <= |visits|
        invariant attempted == StartupNames(visits[..i])
        invariant Launches(old(supervisor.procs), supervisor.procs, attempted, registry.configs, outcomes)
      {
        var cfg := visits[i];
        assert visits[..i + 1] == visits[..i] + [cfg];
        if cfg.service.style == Config.Startup {
          var name := cfg.unit.name;
          assert name !in attempted by {
            StartupNamesFrom(visits[..i], name);
            forall j | 0 <= j < i ensures visits[..i][j].unit.name != name {
              assert visits[..i][j] == visits[j];
            }
          }
          ghost var before := supervisor.procs;
          var _ := supervisor.Spawn(name, cfg.service, outcomes(name));
          LaunchesStep(old(supervisor.procs), before, supervisor.procs, attempted, registry.configs, outcomes, name);
          attempted := attempted + [name];
        }
        i := i + 1;
      }
      assert visits[..i] == visits;
    }

    /** `run`: start a worker only when none is recorded. */
    method Run()
      modifies this
      ensures worker.Some? && stopToken == old(stopToken)
      ensures old(worker).Some? ==> worker == old(worker) && started == old(started)
      ensures old(worker).None? ==> started == old(started) + 1
      ensures Serving() <==> !stopToken
    {
      if worker.None? {
        worker := Some(JoinHandle);
        started := started + 1;
      }
    }

    /** `stop`: raise the stop flag, then take and join the recorded worker.
        The flag is never lowered again. */
    method Stop()
      modifies this
      ensures stopToken && worker.None? && started == old(started)
      ensures !Serving()
    {
      stopToken := true;
      worker := None;
    }
  }

  /** After `stop`, a later `run` records a worker again, but it does not
      serve: its loop sees the stop flag at once. */
  method StopThenRun(server: Server)
    modifies server
    ensures server.worker.Some? && !server.Serving()
  {
    server.Stop();
    server.Run();
  }
}

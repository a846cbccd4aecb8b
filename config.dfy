/** The service registry: unit definitions loaded from the `configs` directory
    beside the executable, keyed by unit name (src/config.rs). */
module Config {
  import opened Common

  /** A field of a unit file that the logic does not interpret, kept as written. */
  datatype TomlValue = TomlValue(text: string)

  /** The `[unit]` section. */
  datatype Unit = Unit(name: string, description: Option<string>, other: map<string, TomlValue>)

  datatype ServiceType = Simple | Startup

  /** The `[service]` section: what to launch and where its output goes. */
  datatype Service = Service(
    style: ServiceType,
    path: string,
    args: Option<seq<string>>,
    env: Option<map<string, string>>,
    stdoutPath: Option<string>,
    stderrPath: Option<string>,
    other: map<string, TomlValue>)

  /** One parsed unit file. */
  datatype Config = Config(unit: Unit, service: Service, other: map<string, TomlValue>)

  /** The derived `{:?}` rendering of a service type. */
  function StyleDebug(style: ServiceType): string {
    match style
    case Simple => "Simple"
    case Startup => "Startup"
  }

  datatype Error = Io(ioCause: OsError) | Toml(tomlCause: SyntaxError)

  /** The derived `{:?}` rendering of an error. */
  function Debug(e: Error): string {
    match e
    case Io(c) => "Io(" + c.debug + ")"
    case Toml(c) => "Toml(" + c.debug + ")"
  }

  /** What iterating the config directory yields for one entry: an I/O error
      from the iterator, something that is not a regular file, or a file and
      the outcome of reading it as text. */
  datatype Entry =
    | EntryFailed(cause: OsError)
    | NotAFile
    | File(contents: Result<string, OsError>)

  /** The whole directory: the listing, or the error from locating the
      executable's directory or opening `configs` under it. */
  type ConfigDir = Result<seq<Entry>, OsError>

  /** `toml::from_str::<Config>`, left abstract: any text may fail to parse. */
  type Parser = string -> Result<Config, SyntaxError>

  /** What one entry does to the registry being rebuilt. */
  datatype Step = Skip | Insert(cfg: Config) | Fail(err: Error)

  function Classify(e: Entry, parse: Parser): (s: Step)
    ensures s.Skip? <==> e.NotAFile?
    ensures s.Fail? && s.err.Toml? ==> e.File? && e.contents.Ok?
    ensures s.Insert? ==> e.File? && e.contents.Ok? && parse(e.contents.value) == Ok(s.cfg)
    ensures e.EntryFailed? ==> s == Fail(Io(e.cause))
    ensures e.File? && e.contents.Err? ==> s == Fail(Io(e.contents.error))
    ensures e.File? && e.contents.Ok? && parse(e.contents.value).Ok? ==> s == Insert(parse(e.contents.value).value)
    ensures e.File? && e.contents.Ok? && parse(e.contents.value).Err? ==>
      s == Fail(Toml(parse(e.contents.value).error))
  {
    match e
    case EntryFailed(c) => Fail(Io(c))
    case NotAFile => Skip
    case File(Err(c)) => Fail(Io(c))
    case File(Ok(text)) =>
      match parse(text)
      case Err(p) => Fail(Toml(p))
      case Ok(cfg) => Insert(cfg)
  }

  /** The configs inserted, in directory order, before the first failing entry. */
  function Inserted(es: seq<Entry>, parse: Parser): seq<Config>
    decreases |es|
  {
    if es == [] then []
    else match Classify(es[0], parse)
      case Skip => Inserted(es[1..], parse)
      case Insert(c) => [c] + Inserted(es[1..], parse)
      case Fail(_) => []
  }

  /** The error of the first failing entry, if any. */
  function FirstError(es: seq<Entry>, parse: Parser): Option<Error>
    decreases |es|
  {
    if es == [] then None
    else match Classify(es[0], parse)
      case Fail(err) => Some(err)
      case _ => FirstError(es[1..], parse)
  }

  /** The map that inserting `cs` one by one into an empty map produces. */
  function Build(cs: seq<Config>): map<string, Config>
    decreases |cs|
  {
    if cs == [] then map[]
    else Build(cs[..|cs| - 1])[cs[|cs| - 1].unit.name := cs[|cs| - 1]]
  }

  /** The registry's contents after `load`: the registry is cleared first, so
      nothing of the previous contents survives, whatever the outcome. */
  function Loaded(dir: ConfigDir, parse: Parser): map<string, Config> {
    match dir
    case Err(_) => map[]
    case Ok(es) => Build(Inserted(es, parse))
  }

  /** What `load` returns. */
  function LoadResult(dir: ConfigDir, parse: Parser): Result<(), Error> {
    match dir
    case Err(c) => Err(Io(c))
    case Ok(es) =>
      match FirstError(es, parse)
      case None => Ok(())
      case Some(err) => Err(err)
  }

  /** Entry `j` is a file that parses into a unit named `k`. */
  predicate Names(es: seq<Entry>, parse: Parser, j: int, k: string) {
    0 <= j < |es| && Classify(es[j], parse).Insert? && Classify(es[j], parse).cfg.unit.name == k
  }

  /** Every key of a registry names the unit stored under it. */
  predicate KeysAreNames(m: map<string, Config>) {
    forall k :: k in m ==> m[k].unit.name == k
  }

  lemma {:induction false} BuildKeysAreNames(cs: seq<Config>)
    ensures KeysAreNames(Build(cs))
    decreases |cs|
  {
    if cs != [] {
      BuildKeysAreNames(cs[..|cs| - 1]);
    }
  }

  /** Appending one entry to a prefix with no failure. */
  lemma {:induction false} InsertedSnoc(es: seq<Entry>, e: Entry, parse: Parser)
    requires FirstError(es, parse) == None
    ensures Classify(e, parse).Skip? ==>
      Inserted(es + [e], parse) == Inserted(es, parse) && FirstError(es + [e], parse) == None
    ensures Classify(e, parse).Insert? ==>
      Inserted(es + [e], parse) == Inserted(es, parse) + [Classify(e, parse).cfg] && FirstError(es + [e], parse) == None
    ensures Classify(e, parse).Fail? ==>
      Inserted(es + [e], parse) == Inserted(es, parse) && FirstError(es + [e], parse) == Some(Classify(e, parse).err)
    decreases |es|
  {
    if es == [] {
      assert [e][1..] == [];
    } else {
      assert (es + [e])[0] == es[0];
      assert (es + [e])[1..] == es[1..] + [e];
      InsertedSnoc(es[1..], e, parse);
    }
  }

  /** Entries after the first failure are never looked at. */
  lemma {:induction false} FailureIsFinal(es: seq<Entry>, rest: seq<Entry>, parse: Parser)
    requires FirstError(es, parse).Some?
    ensures Inserted(es + rest, parse) == Inserted(es, parse)
    ensures FirstError(es + rest, parse) == FirstError(es, parse)
    decreases |es|
  {
    assert (es + rest)[0] == es[0];
    if !Classify(es[0], parse).Fail? {
      assert (es + rest)[1..] == es[1..] + rest;
      FailureIsFinal(es[1..], rest, parse);
    }
  }

  /** On a directory with no failing entry, the registry holds a key exactly
      when some file parses into a unit of that name. */
  lemma {:induction false} LoadedKeys(es: seq<Entry>, parse: Parser)
    requires FirstError(es, parse) == None
    ensures forall k :: k in Build(Inserted(es, parse)) <==> exists j :: Names(es, parse, j, k)
    decreases |es|
  {
    if es != [] {
      var n := |es| - 1;
      var init, e := es[..n], es[n];
      assert es == init + [e];
      FailureFree(init, [e], parse);
      LoadedKeys(init, parse);
      InsertedSnoc(init, e, parse);
      var m0 := Build(Inserted(init, parse));
      if Classify(e, parse).Insert? {
        BuildSnoc(Inserted(init, parse), Classify(e, parse).cfg);
      }
      forall k ensures k in Build(Inserted(es, parse)) <==> exists j :: Names(es, parse, j, k) {
        if Classify(e, parse).Insert? && Classify(e, parse).cfg.unit.name == k {
          assert Names(es, parse, n, k);
        }
        if k in m0 {
          var j :| Names(init, parse, j, k);
          assert es[j] == init[j];
          assert Names(es, parse, j, k);
        }
        if exists j :: Names(es, parse, j, k) {
          var j :| Names(es, parse, j, k);
          if j < n {
            assert es[j] == init[j];
            assert Names(init, parse, j, k);
          }
        }
      }
    }
  }

  /** On a directory with no failing entry, the config stored under a name is
      the one from the LAST file, in directory order, that parses into a unit
      of that name. */
  lemma {:induction false} LastFileWins(es: seq<Entry>, parse: Parser, j: nat)
    requires FirstError(es, parse) == None
    requires j < |es| && Classify(es[j], parse).Insert?
    requires forall j' :: j < j' < |es| ==> !Names(es, parse, j', Classify(es[j], parse).cfg.unit.name)
    ensures Classify(es[j], parse).cfg.unit.name in Build(Inserted(es, parse))
    ensures Build(Inserted(es, parse))[Classify(es[j], parse).cfg.unit.name] == Classify(es[j], parse).cfg
    decreases |es|
  {
    var n := |es| - 1;
    var init, e := es[..n], es[n];
    assert es == init + [e];
    FailureFree(init, [e], parse);
    InsertedSnoc(init, e, parse);
    if j < n {
      var k := Classify(es[j], parse).cfg.unit.name;
      assert es[j] == init[j];
      forall j' | j < j' < |init| ensures !Names(init, parse, j', k) {
        assert es[j'] == init[j'];
        assert !Names(es, parse, j', k);
      }
      LastFileWins(init, parse, j);
      assert !Names(es, parse, n, k);
    }
  }

  lemma BuildSnoc(cs: seq<Config>, c: Config)
    ensures Build(cs + [c]) == Build(cs)[c.unit.name := c]
  {
  }

  /** A prefix of a failure-free listing is failure-free. */
  lemma {:induction false} FailureFree(es: seq<Entry>, rest: seq<Entry>, parse: Parser)
    requires FirstError(es + rest, parse) == None
    ensures FirstError(es, parse) == None
    decreases |es|
  {
    if es != [] {
      assert (es + rest)[0] == es[0];
      assert (es + rest)[1..] == es[1..] + rest;
      FailureFree(es[1..], rest, parse);
    }
  }

  /** When entry `i` is the first failing one, `load` returns its error and the
      registry holds exactly what the entries before it produce: the truncated
      last-file-wins map of the prefix, not the previous contents. */
  lemma {:induction false} FailureKeepsPrefix(es: seq<Entry>, parse: Parser, i: nat)
    requires i < |es| && Classify(es[i], parse).Fail?
    requires forall j :: 0 <= j < i ==> !Classify(es[j], parse).Fail?
    ensures FirstError(es, parse) == Some(Classify(es[i], parse).err)
    ensures Inserted(es, parse) == Inserted(es[..i], parse)
    ensures FirstError(es[..i], parse) == None
    decreases i
  {
    if i == 0 {
      assert es[..0] == [];
    } else {
      assert es[1..][..i - 1] == es[1..i];
      assert es[..i] == [es[0]] + es[1..i];
      assert ([es[0]] + es[1..i])[1..] == es[1..i];
      FailureKeepsPrefix(es[1..], parse, i - 1);
    }
  }

  /** A non-file entry contributes nothing: dropping it changes neither the
      outcome nor the registry. */
  lemma {:induction false} NonFilesAreSkipped(es: seq<Entry>, parse: Parser, i: nat)
    requires i < |es| && es[i].NotAFile?
    ensures Inserted(es[..i] + es[i + 1..], parse) == Inserted(es, parse)
    ensures FirstError(es[..i] + es[i + 1..], parse) == FirstError(es, parse)
    decreases i
  {
    if i == 0 {
      assert es[..0] + es[1..] == es[1..];
    } else {
      var rest := es[1..];
      assert es[..i] + es[i + 1..] == [es[0]] + (rest[..i - 1] + rest[i..]);
      assert ([es[0]] + (rest[..i - 1] + rest[i..]))[1..] == rest[..i - 1] + rest[i..];
      NonFilesAreSkipped(rest, parse, i - 1);
    }
  }

  /** After any `load` every key names the unit stored under it, and a key is
      present only if some entry parsed into a unit of that name. */
  lemma LoadedKeysAreNames(dir: ConfigDir, parse: Parser)
    ensures KeysAreNames(Loaded(dir, parse))
    ensures dir.Err? ==> Loaded(dir, parse) == map[]
  {
    if dir.Ok? {
      BuildKeysAreNames(Inserted(dir.value, parse));
    }
  }

  /** One iteration of the `load` loop, on the prefix `es[..i]` read so far. */
  lemma LoadStep(es: seq<Entry>, i: nat, parse: Parser)
    requires i < |es| && FirstError(es[..i], parse) == None
    ensures Classify(es[i], parse).Skip? ==>
      FirstError(es[..i + 1], parse) == None && Inserted(es[..i + 1], parse) == Inserted(es[..i], parse)
    ensures Classify(es[i], parse).Insert? ==>
      var c := Classify(es[i], parse).cfg;
      FirstError(es[..i + 1], parse) == None
      && Build(Inserted(es[..i + 1], parse)) == Build(Inserted(es[..i], parse))[c.unit.name := c]
    ensures Classify(es[i], parse).Fail? ==>
      Inserted(es, parse) == Inserted(es[..i], parse) && FirstError(es, parse) == Some(Classify(es[i], parse).err)
  {
    assert es[..i + 1] == es[..i] + [es[i]];
    InsertedSnoc(es[..i], es[i], parse);
    if Classify(es[i], parse).Insert? {
      BuildSnoc(Inserted(es[..i], parse), Classify(es[i], parse).cfg);
    }
    if Classify(es[i], parse).Fail? {
      assert es == es[..i + 1] + es[i + 1..];
      FailureIsFinal(es[..i + 1], es[i + 1..], parse);
    }
  }

  /** The registry (`CONFIG_MAP`). */
  class Registry {
    var configs: map<string, Config>

    ghost predicate Valid()
      reads this
    {
      KeysAreNames(configs)
    }

    constructor ()
      ensures Valid() && configs == map[]
    {
      configs := map[];
    }

    /** `load`: clear, then insert directory entries one by one, returning at
        the first error. */
    method Load(dir: ConfigDir, parse: Parser) returns (r: Result<(), Error>)
      modifies this
      ensures Valid()
      ensures configs == Loaded(dir, parse)
      ensures r == LoadResult(dir, parse)
    {
      configs := map[];
      if dir.Err? {
        return Err(Io(dir.error));
      }
      var es := dir.value;
      var i := 0;
      while i < |es|
        invariant 0 <= i <= |es|
        invariant FirstError(es[..i], parse) == None
        invariant configs == Build(Inserted(es[..i], parse))
        decreases |es| - i
      {
        LoadStep(es, i, parse);
        match Classify(es[i], parse) {
          case Skip =>
          case Insert(cfg) =>
            configs := configs[cfg.unit.name := cfg];
          case Fail(err) =>
            LoadedKeysAreNames(dir, parse);
            return Err(err);
        }
        i := i + 1;
      }
      assert es[..i] == es;
      LoadedKeysAreNames(dir, parse);
      r := Ok(());
    }

    /** `get(name, f)`: the projection of the stored config, if any. */
    function Get<R>(name: string, f: Config -> R): (r: Option<R>)
      reads this
      ensures r.Some? <==> name in configs
      ensures r.Some? ==> r.value == f(configs[name])
    {
      if name in configs then Some(f(configs[name])) else None
    }

    /** `for_each(f)`: the configs in the (unspecified) order the visitor is
        called on them; every stored config exactly once. */
    method ForEach() returns (visits: seq<Config>)
      requires Valid()
      ensures |visits| == |configs|
      ensures forall k :: k in configs ==> configs[k] in visits
      ensures forall i :: 0 <= i < |visits| ==> visits[i].unit.name in configs && configs[visits[i].unit.name] == visits[i]
      ensures forall i, j :: 0 <= i < j < |visits| ==> visits[i] != visits[j]
    {
      visits := [];
      var pending := configs.Keys;
      while pending != {}
        invariant pending <= configs.Keys
        invariant |visits| + |pending| == |configs|
        invariant forall k :: k in configs.Keys - pending ==> configs[k] in visits
        invariant forall i :: 0 <= i < |visits| ==>
          visits[i].unit.name in configs.Keys - pending && configs[visits[i].unit.name] == visits[i]
        invariant forall i, j :: 0 <= i < j < |visits| ==> visits[i].unit.name != visits[j].unit.name
        decreases |pending|
      {
        var k :| k in pending;
        visits := visits + [configs[k]];
        pending := pending - {k};
      }
    }
  }
}

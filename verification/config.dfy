/** Layered application configuration: a default layer overlaid by one
    environment layer. A field of the overlay replaces the base field only
    when it is "set": a non-zero port, a non-empty string. A field the YAML
    layer leaves out deserialises to its default (port 0, empty string), so
    "not set" and "left out" coincide. */
module ConfigMerge {
  import opened Results

  /** The port is a `u16` in the source. */
  type Port = p: nat | p < 0x1_0000

  datatype ServerConfig = ServerConfig(port: Port)

  datatype DatabaseConfig = DatabaseConfig(
    host: string,
    dbname: string,
    user: string,
    password: string)

  datatype Config = Config(server: ServerConfig, database: DatabaseConfig)

  /** The error type of `merge`. No merge in the source ever produces one. */
  datatype MergeError = MergeError(message: string)

  /** Why loading a layer failed: reading or parsing the fixture at `path`
      (both outside this model), or merging it. The default layer is compiled
      into the program, so for it only a parse failure can occur. */
  datatype LoadError =
    | ReadFailed(path: string)
    | ParseFailed(path: string)
    | MergeFailed(cause: MergeError)

  /** `load` either returns a configuration, returns an error, or panics. */
  datatype LoadOutcome =
    | Loaded(config: Config)
    | Failed(error: LoadError)
    | Panicked(message: string)

  // The derived `Default` values: port 0 and empty strings.

  const DefaultServer: ServerConfig := ServerConfig(0)

  const DefaultDatabase: DatabaseConfig := DatabaseConfig("", "", "", "")

  const DefaultConfig: Config := Config(DefaultServer, DefaultDatabase)

  // The fixture paths `load` and `load_default` read.

  const DefaultPath: string := "../fixtures/default.yml"

  const ProdPath: string := "fixtures/prod.yml"

  const DevPath: string := "fixtures/dev.yml"

  predicate PortIsSet(p: Port) {
    p != 0
  }

  predicate TextIsSet(s: string) {
    s != ""
  }

  /** One string field of the overlay laid over the same field of the base. */
  function OverlayText(base: string, incoming: string): string {
    if TextIsSet(incoming) then incoming else base
  }

  /** `ServerConfig::merge`. */
  function MergeServer(base: ServerConfig, overlay: ServerConfig): (r: Result<ServerConfig, MergeError>)
    ensures r.Ok?
    ensures PortIsSet(overlay.port) ==> r.value.port == overlay.port
    ensures !PortIsSet(overlay.port) ==> r.value.port == base.port
  {
    if PortIsSet(overlay.port) then Ok(ServerConfig(overlay.port)) else Ok(base)
  }

  /** `DatabaseConfig::merge`: each of the four strings is replaced exactly
      when the incoming one is non-empty. */
  function MergeDatabase(base: DatabaseConfig, overlay: DatabaseConfig): (r: Result<DatabaseConfig, MergeError>)
    ensures r.Ok?
    ensures TextIsSet(overlay.host) ==> r.value.host == overlay.host
    ensures !TextIsSet(overlay.host) ==> r.value.host == base.host
    ensures TextIsSet(overlay.dbname) ==> r.value.dbname == overlay.dbname
    ensures !TextIsSet(overlay.dbname) ==> r.value.dbname == base.dbname
    ensures TextIsSet(overlay.user) ==> r.value.user == overlay.user
    ensures !TextIsSet(overlay.user) ==> r.value.user == base.user
    ensures TextIsSet(overlay.password) ==> r.value.password == overlay.password
    ensures !TextIsSet(overlay.password) ==> r.value.password == base.password
  {
    Ok(DatabaseConfig(
      OverlayText(base.host, overlay.host),
      OverlayText(base.dbname, overlay.dbname),
      OverlayText(base.user, overlay.user),
      OverlayText(base.password, overlay.password)))
  }

  /** `Config::merge`: the server section merges from the server section, the
      database section from the database section, and an error of either
      would propagate (none occurs). */
  function Merge(base: Config, overlay: Config): (r: Result<Config, MergeError>)
    ensures r.Ok?
    ensures r.value.server == MergeServer(base.server, overlay.server).value
    ensures r.value.database == MergeDatabase(base.database, overlay.database).value
  {
    match MergeServer(base.server, overlay.server)
    case Err(e) => Err(e)
    case Ok(server) =>
      match MergeDatabase(base.database, overlay.database)
      case Err(e) => Err(e)
      case Ok(database) => Ok(Config(server, database))
  }

  /** The outcome of merging a fixture that was read and parsed into `parsed`
      over `base`. */
  function ApplyLayer(base: Config, parsed: Result<Config, LoadError>): LoadOutcome {
    match parsed
    case Err(e) => Failed(e)
    case Ok(layer) =>
      match Merge(base, layer)
      case Err(e) => Failed(MergeFailed(e))
      case Ok(merged) => Loaded(merged)
  }

  /** `Config::load`. `fixture(path)` stands for reading and parsing the YAML
      file at `path` (for the compiled-in default layer, only parsing). The defaults are loaded before the environment is looked
      at; then "prod" and "dev" each overlay their own file and any other
      environment panics. */
  function Load(env: string, fixture: string -> Result<Config, LoadError>): (r: LoadOutcome)
    ensures fixture(DefaultPath).Err? ==> r == Failed(fixture(DefaultPath).error)
    ensures r.Panicked? <==> fixture(DefaultPath).Ok? && env != "prod" && env != "dev"
    ensures r.Loaded? <==>
              && fixture(DefaultPath).Ok?
              && ((env == "prod" && fixture(ProdPath).Ok?) || (env == "dev" && fixture(DevPath).Ok?))
    ensures r.Loaded? && env == "prod" ==>
              r.config == Merge(fixture(DefaultPath).value, fixture(ProdPath).value).value
    ensures r.Loaded? && env == "dev" ==>
              r.config == Merge(fixture(DefaultPath).value, fixture(DevPath).value).value
    ensures fixture(DefaultPath).Ok? && env == "prod" && fixture(ProdPath).Err? ==>
              r == Failed(fixture(ProdPath).error)
    ensures fixture(DefaultPath).Ok? && env == "dev" && fixture(DevPath).Err? ==>
              r == Failed(fixture(DevPath).error)
  {
    match fixture(DefaultPath)
    case Err(e) => Failed(e)
    case Ok(base) =>
      if env == "prod" then ApplyLayer(base, fixture(ProdPath))
      else if env == "dev" then ApplyLayer(base, fixture(DevPath))
      else Panicked("Unknown environment")
  }

  /** The four string fields of a database section, by name. */
  datatype DatabaseField = Host | DbName | User | Password

  function FieldOf(d: DatabaseConfig, f: DatabaseField): string {
    match f
    case Host => d.host
    case DbName => d.dbname
    case User => d.user
    case Password => d.password
  }

  /** Field by field, the merged database section holds the overlay's value
      when it is set and the base's value otherwise. */
  lemma MergeDatabaseFieldwise(base: DatabaseConfig, overlay: DatabaseConfig, f: DatabaseField)
    ensures FieldOf(MergeDatabase(base, overlay).value, f) == OverlayText(FieldOf(base, f), FieldOf(overlay, f))
  {
  }

  /** Nothing else changes: a merged field depends only on the same field of
      the base and of the overlay, never on another field. */
  lemma MergeDatabaseFieldsIndependent(
    base1: DatabaseConfig, overlay1: DatabaseConfig,
    base2: DatabaseConfig, overlay2: DatabaseConfig,
    f: DatabaseField)
    requires FieldOf(base1, f) == FieldOf(base2, f)
    requires FieldOf(overlay1, f) == FieldOf(overlay2, f)
    ensures FieldOf(MergeDatabase(base1, overlay1).value, f) == FieldOf(MergeDatabase(base2, overlay2).value, f)
  {
    MergeDatabaseFieldwise(base1, overlay1, f);
    MergeDatabaseFieldwise(base2, overlay2, f);
  }

  /** An all-default overlay leaves the base unchanged. */
  lemma MergeDefaultOverlayIsIdentity(base: Config)
    ensures Merge(base, DefaultConfig) == Ok(base)
  {
  }

  /** Merging an overlay onto the all-default base yields the overlay. */
  lemma MergeOntoDefaultYieldsOverlay(overlay: Config)
    ensures Merge(DefaultConfig, overlay) == Ok(overlay)
  {
  }

  /** Merging the same overlay a second time changes nothing. */
  lemma MergeIdempotent(base: Config, overlay: Config)
    ensures Merge(Merge(base, overlay).value, overlay) == Merge(base, overlay)
  {
  }

  /** Layering is associative: overlaying `b` then `c` onto `a` equals
      overlaying onto `a` the single layer obtained by overlaying `c` onto `b`. */
  lemma MergeAssociative(a: Config, b: Config, c: Config)
    ensures Merge(Merge(a, b).value, c) == Merge(a, Merge(b, c).value)
  {
  }

  /** Loading "prod" reads only the default and prod fixtures: what the dev
      fixture holds does not matter, and vice versa. */
  lemma LoadReadsOnlyItsOwnLayer(env: string, f: string -> Result<Config, LoadError>, g: string -> Result<Config, LoadError>)
    requires f(DefaultPath) == g(DefaultPath)
    requires env == "prod" ==> f(ProdPath) == g(ProdPath)
    requires env == "dev" ==> f(DevPath) == g(DevPath)
    ensures Load(env, f) == Load(env, g)
  {
  }

  /** An environment layer that sets nothing loads the defaults unchanged. */
  lemma LoadEmptyLayerKeepsDefaults(env: string, fixture: string -> Result<Config, LoadError>)
    requires env == "prod" || env == "dev"
    requires fixture(DefaultPath).Ok?
    requires fixture(if env == "prod" then ProdPath else DevPath) == Ok(DefaultConfig)
    ensures Load(env, fixture) == Loaded(fixture(DefaultPath).value)
  {
  }
}

/**
 * The options accepted by `init` and the defaults it fills in for every
 * option the embedding application leaves out.
 */
module Config {
  import opened Wrappers

  /** The `database` option; `None` is a property the caller left undefined. */
  datatype DatabaseOptions = DatabaseOptions(
    databaseType: Option<string>,
    server: Option<string>,
    name: Option<string>,
    password: Option<string>,
    port: Option<int>,
    username: Option<string>)

  /** The argument of `init`. */
  datatype InitOptions = InitOptions(interval: Option<int>, database: Option<DatabaseOptions>)

  /** What `init` hands on to the database initializer. */
  datatype Settings = Settings(
    server: string,
    name: string,
    password: string,
    port: int,
    username: string,
    databaseType: string,
    interval: int)

  const DefaultInterval := 1000
  const DefaultDatabaseType := "influx"
  const DefaultServer := "127.0.0.1"
  const DefaultName := "myMultilogDb"
  const DefaultPassword := ""
  const DefaultPort := 3000
  const DefaultUsername := ""

  /** The `database` option as destructured: an absent object stands for `{}`. */
  function DatabaseOrEmpty(options: InitOptions): (d: DatabaseOptions)
    ensures options.database.Some? ==> d == options.database.value
    ensures options.database.None? ==> d == DatabaseOptions(None, None, None, None, None, None)
  {
    options.database.GetOr(DatabaseOptions(None, None, None, None, None, None))
  }

  /** The settings `init` resolves: each supplied option kept, each absent one defaulted. */
  function Init(options: InitOptions): (s: Settings)
    ensures options.interval.Some? ==> s.interval == options.interval.value
    ensures options.interval.None? ==> s.interval == DefaultInterval
    ensures var d := DatabaseOrEmpty(options);
      && (d.databaseType.Some? ==> s.databaseType == d.databaseType.value)
      && (d.databaseType.None? ==> s.databaseType == DefaultDatabaseType)
      && (d.server.Some? ==> s.server == d.server.value)
      && (d.server.None? ==> s.server == DefaultServer)
      && (d.name.Some? ==> s.name == d.name.value)
      && (d.name.None? ==> s.name == DefaultName)
      && (d.password.Some? ==> s.password == d.password.value)
      && (d.password.None? ==> s.password == DefaultPassword)
      && (d.port.Some? ==> s.port == d.port.value)
      && (d.port.None? ==> s.port == DefaultPort)
      && (d.username.Some? ==> s.username == d.username.value)
      && (d.username.None? ==> s.username == DefaultUsername)
  {
    var d := DatabaseOrEmpty(options);
    Settings(
      d.server.GetOr(DefaultServer),
      d.name.GetOr(DefaultName),
      d.password.GetOr(DefaultPassword),
      d.port.GetOr(DefaultPort),
      d.username.GetOr(DefaultUsername),
      d.databaseType.GetOr(DefaultDatabaseType),
      options.interval.GetOr(DefaultInterval))
  }

  /** `init({})` connects with every default. */
  lemma InitWithNoOptions()
    ensures Init(InitOptions(None, None))
         == Settings(DefaultServer, DefaultName, DefaultPassword, DefaultPort, DefaultUsername,
                     DefaultDatabaseType, DefaultInterval)
  {
  }
}

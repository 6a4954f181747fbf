/**
 * The binding resolver of the Nuxeo staging plugin (`NuxeoDatabaseSupport`):
 * picks the PostgreSQL service bound to the application, if any, and turns its
 * credentials into the database part of the Nuxeo configuration.
 *
 * The source's two fatal paths become values: `puts ...; exit 1` when a
 * binding has no credentials, and `raise` for a label no branch handles.
 */
module DatabaseSupport {
  import opened Values
  import opened Seqs

  /** A bound service as the staging framework hands it over: `{:label, :credentials}`. */
  datatype Binding = Binding(serviceLabel: Option<string>, credentials: Option<Hash>)

  /** How resolution can end without a configuration. */
  datatype Failure =
    | MissingCredentials(binding: Binding)   // `puts` the binding, then `exit 1`
    | UnknownDatabase(binding: Binding)      // `raise "Unable to configure unknown database: ..."`
    | UndefinedMethod(receiver: string, name: string)  // Ruby's NoMethodError
  {
    /** `exit 1` stops staging with a status of its own; the others are raised exceptions. */
    predicate IsExit() { MissingCredentials? }

    function ExitStatus(): int
      requires IsExit()
    {
      1
    }
  }

  datatype Result<+T> = Ok(value: T) | Err(failure: Failure)

  const PostgresqlPrefix := "postgresql"

  /** The intended reading of `/^postgresql/`: the label begins with "postgresql". */
  predicate IsPostgresqlLabel(name: string)
  {
    PostgresqlPrefix <= name
  }

  /**
   * `/^postgresql/` as Ruby evaluates it: `^` matches at the start of the
   * string and after every '\n', so any line of the label may begin with "postgresql".
   */
  predicate MatchesLineAnchored(name: string)
  {
    exists i :: 0 <= i <= |name| && (i == 0 || name[i - 1] == '\n') && PostgresqlPrefix <= name[i..]
  }

  /** `known_database?`: the binding has a label and it names a PostgreSQL service. */
  predicate KnownDatabase(b: Binding)
  {
    b.serviceLabel.Some? && IsPostgresqlLabel(b.serviceLabel.value)
  }

  /** `bound_databases`: the bound services that are known databases, in order. */
  function BoundDatabases(services: seq<Binding>): seq<Binding>
  {
    Filter(services, KnownDatabase)
  }

  /** `empty_config`: Nuxeo's embedded default storage, used when no database is bound. */
  function EmptyConfig(): Hash
  {
    map["template" := Str("default"),
        "host" := Str("localhost"), "port" := Int(-1),
        "username" := Str("sa"), "password" := Str(""),
        "database" := Str("sys")]
  }

  /** The five database keys of a configuration, renamed from the credentials' keys. */
  ghost predicate CarriesCredentials(config: Hash, creds: Hash)
  {
    && Fetch(config, "host") == Fetch(creds, "hostname")
    && Fetch(config, "port") == Fetch(creds, "port")
    && Fetch(config, "username") == Fetch(creds, "user")
    && Fetch(config, "password") == Fetch(creds, "password")
    && Fetch(config, "database") == Fetch(creds, "name")
  }

  /** `credentials_from`: the binding's credentials under Nuxeo's names, or the `exit 1` path. */
  function CredentialsFrom(b: Binding): (r: Result<Hash>)
    ensures r.Err? <==> b.credentials.None?
    ensures r.Err? ==> r.failure == MissingCredentials(b) && r.failure.ExitStatus() == 1
    ensures r.Ok? ==> r.value.Keys == {"host", "port", "username", "password", "database"}
    ensures r.Ok? ==> CarriesCredentials(r.value, b.credentials.value)
  {
    match b.credentials
    case None => Err(MissingCredentials(b))
    case Some(creds) =>
      Ok(map["host" := Fetch(creds, "hostname"), "port" := Fetch(creds, "port"),
             "username" := Fetch(creds, "user"), "password" := Fetch(creds, "password"),
             "database" := Fetch(creds, "name")])
  }

  /** `database_config_for`: the configuration for one binding. */
  function DatabaseConfigFor(b: Binding): (r: Result<Hash>)
    ensures !(b.serviceLabel.Some? && IsPostgresqlLabel(b.serviceLabel.value)) ==> r == Err(UnknownDatabase(b))
    ensures KnownDatabase(b) && b.credentials.None? ==> r == Err(MissingCredentials(b))
    ensures KnownDatabase(b) && b.credentials.Some? ==>
      && r.Ok?
      && r.value.Keys == {"template", "host", "port", "username", "password", "database"}
      && Fetch(r.value, "template") == Str("postgresql")
      && CarriesCredentials(r.value, b.credentials.value)
  {
    if b.serviceLabel.Some? && IsPostgresqlLabel(b.serviceLabel.value) then
      match CredentialsFrom(b)
      case Err(f) => Err(f)
      case Ok(creds) => Ok(map["template" := Str("postgresql")] + creds)
    else
      Err(UnknownDatabase(b))
  }

  /**
   * `database_config`, as evidently intended: the default configuration when no
   * database is bound, otherwise the configuration of the first bound database.
   * A success always names one of the two templates Nuxeo knows and never sets
   * `jvm_mem`; the only failure is the missing-credentials exit, so the `raise`
   * of `database_config_for` cannot be reached from here.
   */
  function DatabaseConfig(services: seq<Binding>): (r: Result<Hash>)
    ensures r.Ok? ==> Fetch(r.value, "template") in {Str("default"), Str("postgresql")}
    ensures r.Ok? ==> "jvm_mem" !in r.value
    ensures r.Err? ==> r.failure.MissingCredentials? && r.failure.ExitStatus() == 1
  {
    var bindings := BoundDatabases(services);
    if |bindings| == 0 then Ok(EmptyConfig())
    else
      assert bindings[0] in bindings;
      DatabaseConfigFor(bindings[0])
  }

  /**
   * `database_config` as written: with a database bound it passes `binding`,
   * which names Ruby's `Kernel#binding` rather than `bindings.first`, and the
   * `binding[:label]` that follows fails because a `Binding` object has no `[]`.
   */
  function DatabaseConfigAsWritten(services: seq<Binding>): Result<Hash>
  {
    var bindings := BoundDatabases(services);
    if |bindings| == 0 then Ok(EmptyConfig()) else Err(UndefinedMethod("Binding", "[]"))
  }

  // ---------------------------------------------------------------------
  // Properties of the resolver

  /** `bound_databases` keeps exactly the known databases, each as often as bound, in their order. */
  lemma BoundDatabasesSelectsKnown(services: seq<Binding>)
    ensures IsSubsequence(BoundDatabases(services), services)
    ensures forall b :: b in BoundDatabases(services) ==> KnownDatabase(b)
    ensures forall b :: KnownDatabase(b) ==> multiset(BoundDatabases(services))[b] == multiset(services)[b]
    ensures forall b :: !KnownDatabase(b) ==> b !in BoundDatabases(services)
  {
    FilterIsSubsequence(services, KnownDatabase);
    forall b | KnownDatabase(b)
      ensures multiset(BoundDatabases(services))[b] == multiset(services)[b]
    {
      FilterCounts(services, KnownDatabase, b);
    }
  }

  /** The default configuration comes back exactly when no bound service is a known database. */
  lemma DefaultIffNoKnownDatabase(services: seq<Binding>)
    ensures DatabaseConfig(services) == Ok(EmptyConfig()) <==>
            forall b :: b in services ==> !KnownDatabase(b)
  {
    var bindings := BoundDatabases(services);
    if forall b :: b in services ==> !KnownDatabase(b) {
      FilterDropsAll(services, KnownDatabase);
    } else {
      var b :| b in services && KnownDatabase(b);
      FilterCounts(services, KnownDatabase, b);
      assert b in multiset(bindings);
      assert |bindings| > 0;
      assert KnownDatabase(bindings[0]) by { assert bindings[0] in bindings; }
      if bindings[0].credentials.Some? {
        assert Fetch(EmptyConfig(), "template") == Str("default");
      }
    }
  }

  /** The default configuration is the embedded store with its fixed account. */
  lemma EmptyConfigContents()
    ensures Fetch(EmptyConfig(), "template") == Str("default")
    ensures Fetch(EmptyConfig(), "host") == Str("localhost")
    ensures Fetch(EmptyConfig(), "port") == Int(-1)
    ensures Fetch(EmptyConfig(), "username") == Str("sa")
    ensures Fetch(EmptyConfig(), "password") == Str("")
    ensures Fetch(EmptyConfig(), "database") == Str("sys")
    ensures "jvm_mem" !in EmptyConfig()
  {
  }

  /** With databases bound, the first of them alone decides the outcome. */
  lemma FirstKnownDatabaseDecides(services: seq<Binding>, i: nat)
    requires i < |services| && KnownDatabase(services[i])
    requires forall j :: 0 <= j < i ==> !KnownDatabase(services[j])
    ensures services[i].credentials.None? ==>
      DatabaseConfig(services) == Err(MissingCredentials(services[i]))
    ensures services[i].credentials.Some? ==>
      && DatabaseConfig(services).Ok?
      && Fetch(DatabaseConfig(services).value, "template") == Str("postgresql")
      && CarriesCredentials(DatabaseConfig(services).value, services[i].credentials.value)
  {
    FilterHead(services, KnownDatabase, i);
  }

  // ---------------------------------------------------------------------
  // Findings: the resolver as written

  /** With no database bound, the code as written and the intended code agree. */
  lemma AsWrittenAgreesWithoutDatabase(services: seq<Binding>)
    requires forall b :: b in services ==> !KnownDatabase(b)
    ensures DatabaseConfigAsWritten(services) == DatabaseConfig(services) == Ok(EmptyConfig())
  {
    DefaultIffNoKnownDatabase(services);
  }

  /** With any database bound, the code as written fails where the intended code does not. */
  lemma AsWrittenFailsWithDatabase(services: seq<Binding>, i: nat)
    requires i < |services| && KnownDatabase(services[i])
    ensures DatabaseConfigAsWritten(services) == Err(UndefinedMethod("Binding", "[]"))
    ensures DatabaseConfig(services) != DatabaseConfigAsWritten(services)
  {
    FilterCounts(services, KnownDatabase, services[i]);
    assert services[i] in multiset(BoundDatabases(services));
  }

  /** The example binding of a PostgreSQL 9.1 service. */
  function ExampleCredentials(): Hash
  {
    map["hostname" := Str("h"), "port" := Int(5432), "user" := Str("u"),
        "password" := Str("p"), "name" := Str("d")]
  }

  /** The PostgreSQL 9.1 example: intended, it configures the database; as written, staging stops. */
  lemma PostgresqlExample()
    ensures DatabaseConfig([Binding(Some("postgresql-9.1"), Some(ExampleCredentials()))]) ==
      Ok(map["template" := Str("postgresql"), "host" := Str("h"), "port" := Int(5432),
             "username" := Str("u"), "password" := Str("p"), "database" := Str("d")])
    ensures DatabaseConfigAsWritten([Binding(Some("postgresql-9.1"), Some(ExampleCredentials()))]).Err?
  {
    var b := Binding(Some("postgresql-9.1"), Some(ExampleCredentials()));
    assert KnownDatabase(b);
    assert BoundDatabases([b]) == [b];
    var expected := map["template" := Str("postgresql"), "host" := Str("h"), "port" := Int(5432),
                        "username" := Str("u"), "password" := Str("p"), "database" := Str("d")];
    var got := DatabaseConfigFor(b).value;
    assert got.Keys == expected.Keys;
    assert Fetch(ExampleCredentials(), "hostname") == Str("h");
    assert Fetch(ExampleCredentials(), "port") == Int(5432);
    assert Fetch(ExampleCredentials(), "user") == Str("u");
    assert Fetch(ExampleCredentials(), "password") == Str("p");
    assert Fetch(ExampleCredentials(), "name") == Str("d");
    assert forall k :: k in got ==> got[k] == expected[k];
    assert got == expected;
    assert DatabaseConfig([b]) == DatabaseConfigFor(b);
  }

  /** A label that begins with "postgresql" matches the regular expression as Ruby reads it too. */
  lemma PrefixMatchesLineAnchored(name: string)
    requires IsPostgresqlLabel(name)
    ensures MatchesLineAnchored(name)
  {
    assert name[0..] == name;
  }

  /** On a one-line label the two readings agree. */
  lemma LineAnchoredOnOneLine(name: string)
    requires forall k :: 0 <= k < |name| ==> name[k] != '\n'
    ensures MatchesLineAnchored(name) <==> IsPostgresqlLabel(name)
  {
    if MatchesLineAnchored(name) {
      var i :| 0 <= i <= |name| && (i == 0 || name[i - 1] == '\n') && PostgresqlPrefix <= name[i..];
      assert i == 0;
      assert name[0..] == name;
    } else if IsPostgresqlLabel(name) {
      PrefixMatchesLineAnchored(name);
    }
  }

  /** A MySQL label whose second line reads "postgresql" passes Ruby's `/^postgresql/` but is not a PostgreSQL label. */
  lemma LineAnchoredAcceptsSecondLine()
    ensures MatchesLineAnchored("mysql-5.1\npostgresql")
    ensures !IsPostgresqlLabel("mysql-5.1\npostgresql")
  {
    var name := "mysql-5.1\npostgresql";
    assert name[10..] == PostgresqlPrefix;
    assert name[9] == '\n';
    assert name[0] != PostgresqlPrefix[0];
  }
}

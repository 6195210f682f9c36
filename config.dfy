/** The configuration loader: every setting is read from the process
    environment with a default, the numeric and boolean ones are parsed in a
    fixed order, and the first one that does not parse ends the load. The
    environment is given as a map from variable name to value. */
module Config {
  import opened Models
  import StrConv

  /** `getEnv`: the variable's value when it is set, even to "", and the
      default only when it is not set at all. */
  function GetEnv(env: map<string, string>, key: string, default: string): (v: string)
    ensures key in env ==> v == env[key]
    ensures key !in env ==> v == default
  {
    if key in env then env[key] else default
  }

  /** Setting `key` parsed with `Atoi`, its default applied. */
  function IntSetting(env: map<string, string>, key: string, default: string): StrConv.Parsed
  {
    StrConv.Atoi(GetEnv(env, key, default))
  }

  /** `LogToFile` parsed with `ParseBool`, its default applied. */
  function LogToFileSetting(env: map<string, string>): Option<bool>
  {
    StrConv.ParseBool(GetEnv(env, "LogToFile", "false"))
  }

  /** The number of bytes of the UTF-8 encoding: what Go's `len` measures. */
  function Utf8Len(s: string): (n: nat)
    ensures n >= |s|
  {
    if s == [] then 0
    else
      var c := s[0] as int;
      var w := if c < 0x80 then 1 else if c < 0x800 then 2 else if c < 0x10000 then 3 else 4;
      w + Utf8Len(s[1..])
  }

  /** A text of at most one byte is empty or one ASCII character. */
  lemma ShortText(s: string)
    ensures Utf8Len(s) <= 1 <==> s == [] || (|s| == 1 && s[0] as int < 0x80)
  {
    if s != [] {
      assert Utf8Len(s) >= 1 + |s[1..]|;
    }
  }

  /** The SwaggerBasePath rule: a value longer than one byte gets a leading
      "/" when it has none and loses one trailing "/"; a shorter one (such
      as the default "/") is not stored at all. */
  function NormalizedBasePath(p: string): (r: Option<string>)
    ensures r.None? <==> Utf8Len(p) <= 1
    ensures r.Some? ==> |r.value| >= 1 && r.value[0] == '/'
    ensures r.Some? ==>
      var q := if |p| > 0 && p[0] == '/' then p else "/" + p;
      (q[|q| - 1] == '/' ==> r.value + "/" == q) && (q[|q| - 1] != '/' ==> r.value == q)
  {
    if Utf8Len(p) <= 1 then None
    else
      ShortText(p);
      var q := if |p| > 0 && p[0] == '/' then p else "/" + p;
      assert |q| >= 2;
      if q[|q| - 1] == '/' then
        assert q[..|q| - 1] + "/" == q;
        Some(q[..|q| - 1])
      else Some(q)
  }

  /** The sections of the configuration, as `ConfigFile` groups them. */
  datatype ServerSection = ServerSection(host: string, port: int, ginReleaseMode: string)

  datatype DatabaseSection = DatabaseSection(
    host: string, port: int, user: string, password: string, name: string, sslMode: string, prefix: string)

  datatype AppSection = AppSection(
    jSecret: string,
    tkTime: string,
    swaggerBasePath: string,
    tokenPrefBackoffice: string,
    tokenPref3rdParty: string,
    logToFile: bool,
    maxFileSize: int,
    logLevel: string,
    maxLogFiles: int)

  datatype AdminUserSection = AdminUserSection(username: string, password: string)

  /** Why a load stopped, in the order the settings are parsed. */
  datatype LoadError =
    | InvalidServerPort    // "invalid server port"
    | InvalidDatabasePort  // "invalid database port"
    | InvalidLogToFile     // "invalid value for LogToFile"
    | InvalidFileSize      // "invalid file size"
    | InvalidMaxLogFiles   // "invalid CARPARK ID"

  /** How many of the five parsed settings parse, counted from the first:
      the load gets past exactly that many. */
  function ParsedStages(env: map<string, string>): (n: nat)
    ensures n <= 5
    ensures n >= 1 <==> !IntSetting(env, "SERVER_PORT", "8080").Failed()
    ensures n >= 2 <==> n >= 1 && !IntSetting(env, "DB_PORT", "5432").Failed()
    ensures n >= 3 <==> n >= 2 && LogToFileSetting(env).Some?
    ensures n >= 4 <==> n >= 3 && !IntSetting(env, "MaxFileSize", "50").Failed()
    ensures n == 5 <==> n >= 4 && !IntSetting(env, "MaxLogFiles", "10").Failed()
  {
    if IntSetting(env, "SERVER_PORT", "8080").Failed() then 0
    else if IntSetting(env, "DB_PORT", "5432").Failed() then 1
    else if LogToFileSetting(env).None? then 2
    else if IntSetting(env, "MaxFileSize", "50").Failed() then 3
    else if IntSetting(env, "MaxLogFiles", "10").Failed() then 4
    else 5
  }

  /** The error of the parse that failed first, if any. */
  function FirstFailure(n: nat): (e: Option<LoadError>)
    requires n <= 5
    ensures e.None? <==> n == 5
  {
    if n == 5 then None else Some([InvalidServerPort, InvalidDatabasePort, InvalidLogToFile, InvalidFileSize, InvalidMaxLogFiles][n])
  }

  /** A default written in decimal parses to its number when the variable is
      not set. */
  lemma DefaultParses(key: string, default: string, n: nat)
    requires n <= StrConv.MaxInt64 && default == StrConv.Decimal(n)
    ensures IntSetting(map[], key, default) == StrConv.Number(n)
  {
    StrConv.AtoiDecimal(n);
  }

  /** With no variable set, the server port defaults to 8080. */
  lemma EmptyEnvironmentServerPort()
    ensures IntSetting(map[], "SERVER_PORT", "8080") == StrConv.Number(8080)
  {
    assert StrConv.Decimal(8080) == "8080";
    DefaultParses("SERVER_PORT", "8080", 8080);
  }

  /** With no variable set, the database port defaults to 5432. */
  lemma EmptyEnvironmentDatabasePort()
    ensures IntSetting(map[], "DB_PORT", "5432") == StrConv.Number(5432)
  {
    assert StrConv.Decimal(5432) == "5432";
    DefaultParses("DB_PORT", "5432", 5432);
  }

  /** With no variable set, the log file defaults parse to 50 and 10. */
  lemma EmptyEnvironmentLogFiles()
    ensures IntSetting(map[], "MaxFileSize", "50") == StrConv.Number(50)
    ensures IntSetting(map[], "MaxLogFiles", "10") == StrConv.Number(10)
  {
    assert StrConv.Decimal(50) == "50";
    DefaultParses("MaxFileSize", "50", 50);
    assert StrConv.Decimal(10) == "10";
    DefaultParses("MaxLogFiles", "10", 10);
  }

  /** With no variable set, every default parses and gives the values `Load`
      falls back to, and the base path keeps its default. */
  lemma EmptyEnvironment()
    ensures ParsedStages(map[]) == 5
    ensures IntSetting(map[], "SERVER_PORT", "8080") == StrConv.Number(8080)
    ensures IntSetting(map[], "DB_PORT", "5432") == StrConv.Number(5432)
    ensures IntSetting(map[], "MaxFileSize", "50") == StrConv.Number(50)
    ensures IntSetting(map[], "MaxLogFiles", "10") == StrConv.Number(10)
    ensures LogToFileSetting(map[]) == Some(false)
    ensures NormalizedBasePath(GetEnv(map[], "SwaggerBasePath", "/")).None?
  {
    EmptyEnvironmentServerPort();
    EmptyEnvironmentDatabasePort();
    EmptyEnvironmentLogFiles();
  }

  /** `ConfigFile`, the receiver `Load` fills in field by field. */
  class ConfigFile {
    var server: ServerSection
    var database: DatabaseSection
    var app: AppSection
    var adminUser: AdminUserSection

    /** The zero value of the struct. */
    constructor ()
      ensures server == ServerSection("", 0, "")
      ensures database == DatabaseSection("", 0, "", "", "", "", "")
      ensures app == AppSection("", "", "", "", "", false, 0, "", 0)
      ensures adminUser == AdminUserSection("", "")
    {
      server := ServerSection("", 0, "");
      database := DatabaseSection("", 0, "", "", "", "", "");
      app := AppSection("", "", "", "", "", false, 0, "", 0);
      adminUser := AdminUserSection("", "");
    }

    /** `Load`: assigns the settings in order. A parsed setting is assigned
        the value the parser returns even when it fails (0 or the bound
        passed for `Atoi`, false for `ParseBool`), and the load then stops:
        no later setting is assigned. */
    method Load(env: map<string, string>) returns (err: Option<LoadError>)
      modifies this
      ensures err == FirstFailure(ParsedStages(env))
      ensures
        var n := ParsedStages(env);
        server == ServerSection(
          GetEnv(env, "SERVER_HOST", "127.0.0.1"),
          IntSetting(env, "SERVER_PORT", "8080").Value(),
          if n >= 1 then GetEnv(env, "GIN_RELEASE_MODE", "false") else old(server).ginReleaseMode)
      ensures ParsedStages(env) == 0 ==> database == old(database)
      ensures ParsedStages(env) == 1 ==>
        database == old(database).(host := GetEnv(env, "DB_HOST", "127.0.0.1"),
                                   port := IntSetting(env, "DB_PORT", "5432").Value())
      ensures ParsedStages(env) >= 2 ==>
        database == DatabaseSection(
          GetEnv(env, "DB_HOST", "127.0.0.1"),
          IntSetting(env, "DB_PORT", "5432").Value(),
          GetEnv(env, "DB_USER", "root"),
          GetEnv(env, "DB_PASSWORD", "password"),
          GetEnv(env, "DB_NAME", "fyc"),
          GetEnv(env, "SSLMode", "disable"),
          GetEnv(env, "Prefix", "fyc"))
      ensures
        var n := ParsedStages(env);
        var base := NormalizedBasePath(GetEnv(env, "SwaggerBasePath", "/"));
        app == if n <= 1 then old(app) else AppSection(
          GetEnv(env, "JWT_Secret", "0"),
          GetEnv(env, "ExpireTokenTime", "1"),
          if n == 5 && base.Some? then base.value else old(app).swaggerBasePath,
          GetEnv(env, "TokenPrefBackoffice", "false"),
          GetEnv(env, "TokenPref3rdParty", "false"),
          LogToFileSetting(env) == Some(true),
          if n >= 3 then IntSetting(env, "MaxFileSize", "50").Value() else old(app).maxFileSize,
          if n >= 4 then GetEnv(env, "LogLevel", "debug") else old(app).logLevel,
          if n >= 4 then IntSetting(env, "MaxLogFiles", "10").Value() else old(app).maxLogFiles)
      ensures
        adminUser == if ParsedStages(env) == 5
          then AdminUserSection(GetEnv(env, "USERNAME", "admin"), GetEnv(env, "PASSWORD", "admin"))
          else old(adminUser)
    {
      var failed := LoadServer(env);
      if failed {
        return Some(InvalidServerPort);
      }
      failed := LoadDatabase(env);
      if failed {
        return Some(InvalidDatabasePort);
      }
      err := LoadApp(env);
      if err.Some? {
        return err;
      }
      LoadAdminUserAndBasePath(env);
      return None;
    }

    /** The server settings; true when the port does not parse. */
    method LoadServer(env: map<string, string>) returns (failed: bool)
      modifies this
      ensures failed == IntSetting(env, "SERVER_PORT", "8080").Failed()
      ensures server == ServerSection(
        GetEnv(env, "SERVER_HOST", "127.0.0.1"),
        IntSetting(env, "SERVER_PORT", "8080").Value(),
        if failed then old(server).ginReleaseMode else GetEnv(env, "GIN_RELEASE_MODE", "false"))
      ensures database == old(database) && app == old(app) && adminUser == old(adminUser)
    {
      server := server.(host := GetEnv(env, "SERVER_HOST", "127.0.0.1"));
      var port := IntSetting(env, "SERVER_PORT", "8080");
      server := server.(port := port.Value());
      if port.Failed() {
        return true;
      }
      server := server.(ginReleaseMode := GetEnv(env, "GIN_RELEASE_MODE", "false"));
      return false;
    }

    /** The database settings; true when the port does not parse. */
    method LoadDatabase(env: map<string, string>) returns (failed: bool)
      modifies this
      ensures failed == IntSetting(env, "DB_PORT", "5432").Failed()
      ensures failed ==> database == old(database).(host := GetEnv(env, "DB_HOST", "127.0.0.1"),
                                                    port := IntSetting(env, "DB_PORT", "5432").Value())
      ensures !failed ==> database == DatabaseSection(
        GetEnv(env, "DB_HOST", "127.0.0.1"),
        IntSetting(env, "DB_PORT", "5432").Value(),
        GetEnv(env, "DB_USER", "root"),
        GetEnv(env, "DB_PASSWORD", "password"),
        GetEnv(env, "DB_NAME", "fyc"),
        GetEnv(env, "SSLMode", "disable"),
        GetEnv(env, "Prefix", "fyc"))
      ensures server == old(server) && app == old(app) && adminUser == old(adminUser)
    {
      database := database.(host := GetEnv(env, "DB_HOST", "127.0.0.1"));
      var port := IntSetting(env, "DB_PORT", "5432");
      database := database.(port := port.Value());
      if port.Failed() {
        return true;
      }
      database := database.(user := GetEnv(env, "DB_USER", "root"));
      database := database.(password := GetEnv(env, "DB_PASSWORD", "password"));
      database := database.(name := GetEnv(env, "DB_NAME", "fyc"));
      database := database.(sslMode := GetEnv(env, "SSLMode", "disable"));
      database := database.(prefix := GetEnv(env, "Prefix", "fyc"));
      return false;
    }

    /** The application settings up to `MaxLogFiles`, with their three parses. */
    method LoadApp(env: map<string, string>) returns (err: Option<LoadError>)
      modifies this
      ensures err == (if LogToFileSetting(env).None? then Some(InvalidLogToFile)
                      else if IntSetting(env, "MaxFileSize", "50").Failed() then Some(InvalidFileSize)
                      else if IntSetting(env, "MaxLogFiles", "10").Failed() then Some(InvalidMaxLogFiles)
                      else None)
      ensures
        var reachedSize := LogToFileSetting(env).Some?;
        var reachedLevel := reachedSize && !IntSetting(env, "MaxFileSize", "50").Failed();
        app == old(app).(
          jSecret := GetEnv(env, "JWT_Secret", "0"),
          tkTime := GetEnv(env, "ExpireTokenTime", "1"),
          tokenPrefBackoffice := GetEnv(env, "TokenPrefBackoffice", "false"),
          tokenPref3rdParty := GetEnv(env, "TokenPref3rdParty", "false"),
          logToFile := LogToFileSetting(env) == Some(true),
          maxFileSize := if reachedSize then IntSetting(env, "MaxFileSize", "50").Value() else old(app).maxFileSize,
          logLevel := if reachedLevel then GetEnv(env, "LogLevel", "debug") else old(app).logLevel,
          maxLogFiles := if reachedLevel then IntSetting(env, "MaxLogFiles", "10").Value() else old(app).maxLogFiles)
      ensures server == old(server) && database == old(database) && adminUser == old(adminUser)
    {
      app := app.(jSecret := GetEnv(env, "JWT_Secret", "0"));
      app := app.(tkTime := GetEnv(env, "ExpireTokenTime", "1"));
      app := app.(tokenPrefBackoffice := GetEnv(env, "TokenPrefBackoffice", "false"));
      app := app.(tokenPref3rdParty := GetEnv(env, "TokenPref3rdParty", "false"));
      var logToFile := LogToFileSetting(env);
      app := app.(logToFile := logToFile == Some(true));
      if logToFile.None? {
        return Some(InvalidLogToFile);
      }
      var maxFileSize := IntSetting(env, "MaxFileSize", "50");
      app := app.(maxFileSize := maxFileSize.Value());
      if maxFileSize.Failed() {
        return Some(InvalidFileSize);
      }
      app := app.(logLevel := GetEnv(env, "LogLevel", "debug"));
      var maxLogFiles := IntSetting(env, "MaxLogFiles", "10");
      app := app.(maxLogFiles := maxLogFiles.Value());
      if maxLogFiles.Failed() {
        return Some(InvalidMaxLogFiles);
      }
      return None;
    }

    /** The administrator account and, when long enough, the Swagger base path. */
    method LoadAdminUserAndBasePath(env: map<string, string>)
      modifies this
      ensures adminUser == AdminUserSection(GetEnv(env, "USERNAME", "admin"), GetEnv(env, "PASSWORD", "admin"))
      ensures
        var base := NormalizedBasePath(GetEnv(env, "SwaggerBasePath", "/"));
        app == old(app).(swaggerBasePath := if base.Some? then base.value else old(app).swaggerBasePath)
      ensures server == old(server) && database == old(database)
    {
      adminUser := adminUser.(username := GetEnv(env, "USERNAME", "admin"));
      adminUser := adminUser.(password := GetEnv(env, "PASSWORD", "admin"));
      var basePath := NormalizedBasePath(GetEnv(env, "SwaggerBasePath", "/"));
      if basePath.Some? {
        app := app.(swaggerBasePath := basePath.value);
      }
    }
  }
}

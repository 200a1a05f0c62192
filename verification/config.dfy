/**
 * DatabaseConfig of config.py: the connection settings, resolved from
 * three sources in rising priority (built-in defaults, the 'database'
 * section of an ini file, environment variables) and then coerced from
 * strings to integers and booleans where the setting calls for one.
 * The file system, the parsed ini file and the environment are parameters.
 */
module Config {
  import opened Wrappers

  /** A setting's value: the dictionary mixes strings, integers and booleans. */
  datatype Value = Str(s: string) | Int(i: int) | Bool(b: bool)

  /** The nine settings, the keys of `DEFAULT_CONFIG`. */
  datatype Setting = Host | Port | User | Password | Database | Charset | UsePure | Autocommit | PoolSize

  /** The settings in the order of `DEFAULT_CONFIG`. */
  const Settings: seq<Setting> := [Host, Port, User, Password, Database, Charset, UsePure, Autocommit, PoolSize]

  /** A setting's key in the dictionary and in the ini file. */
  function Name(k: Setting): string {
    match k
    case Host => "host"
    case Port => "port"
    case User => "user"
    case Password => "password"
    case Database => "database"
    case Charset => "charset"
    case UsePure => "use_pure"
    case Autocommit => "autocommit"
    case PoolSize => "pool_size"
  }

  /** `DEFAULT_CONFIG[k]`. */
  function Default(k: Setting): Value {
    match k
    case Host => Str("localhost")
    case Port => Int(3306)
    case User => Str("aniworld")
    case Password => Str("password")
    case Database => Str("aniworld_db")
    case Charset => Str("utf8mb4")
    case UsePure => Bool(true)
    case Autocommit => Bool(false)
    case PoolSize => Int(5)
  }

  /**
   * The configuration dictionary. Its keys are always exactly the nine
   * settings (every loop only reassigns existing keys), so it is a record
   * read and written by setting.
   */
  datatype ConfigValues = ConfigValues(host: Value, port: Value, user: Value, password: Value, database: Value,
                                       charset: Value, usePure: Value, autocommit: Value, poolSize: Value)
  {
    /** `config[Name(k)]`. */
    function Get(k: Setting): Value {
      match k
      case Host => host
      case Port => port
      case User => user
      case Password => password
      case Database => database
      case Charset => charset
      case UsePure => usePure
      case Autocommit => autocommit
      case PoolSize => poolSize
    }

    /** `config[Name(k)] = v`: that setting changes and no other. */
    function Set(k: Setting, v: Value): (c: ConfigValues)
      ensures c.Get(k) == v && forall k' :: k' != k ==> c.Get(k') == Get(k')
    {
      match k
      case Host => this.(host := v)
      case Port => this.(port := v)
      case User => this.(user := v)
      case Password => this.(password := v)
      case Database => this.(database := v)
      case Charset => this.(charset := v)
      case UsePure => this.(usePure := v)
      case Autocommit => this.(autocommit := v)
      case PoolSize => this.(poolSize := v)
    }
  }

  /** `DEFAULT_CONFIG`. */
  function Defaults(): (c: ConfigValues)
    ensures forall k :: c.Get(k) == Default(k)
  {
    ConfigValues(Default(Host), Default(Port), Default(User), Default(Password), Default(Database),
                 Default(Charset), Default(UsePure), Default(Autocommit), Default(PoolSize))
  }

  /** `ENV_MAPPING`: the environment variable a setting is read from, if any. */
  function EnvVar(k: Setting): Option<string> {
    match k
    case Host => Some("DB_HOST")
    case Port => Some("DB_PORT")
    case User => Some("DB_USER")
    case Password => Some("DB_PASSWORD")
    case Database => Some("DB_DATABASE")
    case _ => None
  }

  /** The keys of `ENV_MAPPING`, in their order. */
  const EnvSettings: seq<Setting> := [Host, Port, User, Password, Database]

  /** `CONFIG_SECTION`. */
  const ConfigSection := "database"

  /** The settings `_convert_types` turns into booleans, in their order, and the words it knows. */
  const BoolSettings: seq<Setting> := [Autocommit, UsePure]
  const TrueWords: seq<string> := ["true", "1", "yes", "y"]
  const FalseWords: seq<string> := ["false", "0", "no", "n"]

  /** The text `get_sanitized_config` shows instead of the password. */
  const Mask := "******"

  // ---------------------------------------------------------------------
  // int(str)
  // ---------------------------------------------------------------------

  predicate IsDigit(c: char) {
    '0' <= c <= '9'
  }

  /** The characters `int()` strips: the ASCII ones `str.isspace` accepts. */
  predicate IsSpace(c: char) {
    c == ' ' || '\t' <= c <= '\r' || '\U{1C}' <= c <= '\U{1F}'
  }

  function StripLeft(s: string): (r: string)
    ensures |r| <= |s| && r == s[|s| - |r|..]
    ensures r == [] || !IsSpace(r[0])
  {
    if |s| > 0 && IsSpace(s[0]) then StripLeft(s[1..]) else s
  }

  function StripRight(s: string): (r: string)
    ensures |r| <= |s| && r == s[..|r|]
    ensures r == [] || !IsSpace(r[|r| - 1])
  {
    if |s| > 0 && IsSpace(s[|s| - 1]) then StripRight(s[..|s| - 1]) else s
  }

  /** Digits with single underscores between them, as `int()` accepts them after the sign. */
  predicate WellGrouped(d: string) {
    && |d| > 0 && IsDigit(d[0]) && IsDigit(d[|d| - 1])
    && (forall i :: 0 <= i < |d| ==> IsDigit(d[i]) || d[i] == '_')
    && (forall i :: 0 <= i < |d| - 1 && d[i] == '_' ==> d[i + 1] != '_')
  }

  /** The number the digits of `d` spell, underscores skipped. */
  function DigitsValue(d: string): (n: int)
    requires forall i :: 0 <= i < |d| ==> IsDigit(d[i]) || d[i] == '_'
  {
    if d == [] then 0
    else if d[|d| - 1] == '_' then DigitsValue(d[..|d| - 1])
    else DigitsValue(d[..|d| - 1]) * 10 + (d[|d| - 1] as int - '0' as int)
  }

  /**
   * `int(s)` for a string in base 10: surrounding white space is stripped,
   * one sign may lead, and the rest must be well-grouped digits; anything
   * else is the ValueError, here None.
   */
  function IntLiteral(s: string): Option<int> {
    var t := StripLeft(StripRight(s));
    if |t| > 0 && (t[0] == '+' || t[0] == '-') then
      if WellGrouped(t[1..]) then
        var n := DigitsValue(t[1..]);
        Some(if t[0] == '-' then -n else n)
      else None
    else if WellGrouped(t) then Some(DigitsValue(t))
    else None
  }

  /** `str(n)`: the decimal digits of `n`, with a leading '-' when negative. */
  function Decimal(n: int): (r: string)
    ensures |r| > 0
  {
    if n < 0 then "-" + Digits(-n) else Digits(n)
  }

  function Digits(n: nat): (r: string)
    ensures |r| > 0
  {
    if n < 10 then [('0' as int + n) as char] else Digits(n / 10) + [('0' as int + n % 10) as char]
  }

  /** The digits of `n` are well grouped and spell `n`. */
  lemma {:induction false} DigitsSpell(n: nat)
    ensures WellGrouped(Digits(n)) && DigitsValue(Digits(n)) == n
  {
    var d := Digits(n);
    if n >= 10 {
      DigitsSpell(n / 10);
      assert d[..|d| - 1] == Digits(n / 10);
      assert d[0] == Digits(n / 10)[0];
    }
  }

  /** A string that neither starts nor ends with white space is left alone by the stripping. */
  lemma StripNothing(s: string)
    requires |s| > 0 && !IsSpace(s[0]) && !IsSpace(s[|s| - 1])
    ensures StripLeft(StripRight(s)) == s
  {
  }

  /** Round trip: `int(str(n)) == n` for every integer. */
  lemma DecimalRoundTrip(n: int)
    ensures IntLiteral(Decimal(n)) == Some(n)
  {
    var s := Decimal(n);
    var m: nat := if n < 0 then -n else n;
    var d := Digits(m);
    DigitsSpell(m);
    assert IsDigit(d[0]) && IsDigit(d[|d| - 1]);
    if n < 0 {
      assert s == "-" + d;
      assert s[1..] == d && s[0] == '-' && s[|s| - 1] == d[|d| - 1];
    } else {
      assert s == d;
    }
    StripNothing(s);
  }

  // ---------------------------------------------------------------------
  // The three sources
  // ---------------------------------------------------------------------

  /** Where a loop reads strings from: the file's 'database' section, or the environment. */
  datatype Source = File(section: map<string, string>) | Env(env: map<string, string>)

  /** The string a source holds for a setting: the section's key, or the mapped variable. */
  function Lookup(src: Source, k: Setting): Option<string> {
    match src
    case File(section) => if Name(k) in section then Some(section[Name(k)]) else None
    case Env(env) =>
      match EnvVar(k)
      case Some(v) => if v in env then Some(env[v]) else None
      case None => None
  }

  /**
   * `for key in keys: if <src has key>: config[key] = <src's string>`, the
   * shape of both the file loop and the environment loop.
   */
  function Override(c: ConfigValues, keys: seq<Setting>, src: Source): ConfigValues {
    if keys == [] then c
    else
      var r := Override(c, keys[..|keys| - 1], src);
      var k := keys[|keys| - 1];
      match Lookup(src, k)
      case Some(v) => r.Set(k, Str(v))
      case None => r
  }

  /** After the loop, a listed setting the source holds has the source's string; every other one is kept. */
  lemma {:induction false} OverrideAt(c: ConfigValues, keys: seq<Setting>, src: Source, k: Setting)
    ensures Override(c, keys, src).Get(k) == if k in keys && Lookup(src, k).Some? then Str(Lookup(src, k).value) else c.Get(k)
  {
    if keys != [] {
      var init := keys[..|keys| - 1];
      OverrideAt(c, init, src, k);
      assert keys == init + [keys[|keys| - 1]];
      assert k in keys <==> k in init || k == keys[|keys| - 1];
    }
  }

  /** `_load_from_config_file` with the parsed file: only the 'database' section counts. */
  function FileApplied(c: ConfigValues, sections: map<string, map<string, string>>): ConfigValues {
    if ConfigSection in sections then Override(c, Settings, File(sections[ConfigSection])) else c
  }

  /** `_load_from_environment`. */
  function EnvApplied(c: ConfigValues, env: map<string, string>): ConfigValues {
    Override(c, EnvSettings, Env(env))
  }

  // ---------------------------------------------------------------------
  // Type conversion
  // ---------------------------------------------------------------------

  /** A string parsed to an integer, or `fallback` when it does not parse; other values unchanged. */
  function IntOr(v: Value, fallback: Value): Value {
    if v.Str? then
      match IntLiteral(v.s)
      case Some(n) => Int(n)
      case None => fallback
    else v
  }

  /** A string naming a truth value, in any case, becomes that boolean; other values unchanged. */
  function BoolOf(v: Value): Value {
    if v.Str? && Lower(v.s) in TrueWords then Bool(true)
    else if v.Str? && Lower(v.s) in FalseWords then Bool(false)
    else v
  }

  /** `for key in keys: <convert config[key] to a boolean>`. */
  function ConvertBools(c: ConfigValues, keys: seq<Setting>): ConfigValues {
    if keys == [] then c
    else
      var r := ConvertBools(c, keys[..|keys| - 1]);
      var k := keys[|keys| - 1];
      r.Set(k, BoolOf(r.Get(k)))
  }

  /** The first half of `_convert_types`: port and pool size parsed, falling back to their defaults. */
  function IntsConverted(c: ConfigValues): ConfigValues {
    c.Set(Port, IntOr(c.Get(Port), Default(Port))).Set(PoolSize, IntOr(c.Get(PoolSize), Default(PoolSize)))
  }

  /** `_convert_types`: the two integers, then the two booleans. */
  function Converted(c: ConfigValues): ConfigValues {
    ConvertBools(IntsConverted(c), BoolSettings)
  }

  /** What `_convert_types` does to the value of one setting. */
  function ConvertValue(k: Setting, v: Value): Value {
    match k
    case Port => IntOr(v, Default(Port))
    case PoolSize => IntOr(v, Default(PoolSize))
    case UsePure => BoolOf(v)
    case Autocommit => BoolOf(v)
    case _ => v
  }

  // ---------------------------------------------------------------------
  // Resolution
  // ---------------------------------------------------------------------

  /** The configuration the constructor leaves, from the parsed file's sections and the environment. */
  function Resolved(sections: map<string, map<string, string>>, env: map<string, string>): ConfigValues {
    Converted(EnvApplied(FileApplied(Defaults(), sections), env))
  }

  /** A setting's value before conversion: the environment's, else the file's, else the default. */
  function RawValue(sections: map<string, map<string, string>>, env: map<string, string>, k: Setting): Value {
    var fromFile := if ConfigSection in sections then Lookup(File(sections[ConfigSection]), k) else None;
    match Lookup(Env(env), k)
    case Some(v) => Str(v)
    case None => if fromFile.Some? then Str(fromFile.value) else Default(k)
  }

  /**
   * Precedence: every setting of the resolved configuration has the
   * environment's string if its variable is mapped and set, else the
   * file's, else the default, converted to the setting's type.
   */
  lemma ResolvedPerKey(sections: map<string, map<string, string>>, env: map<string, string>, k: Setting)
    ensures Resolved(sections, env).Get(k) == ConvertValue(k, RawValue(sections, env, k))
  {
    RawPerKey(sections, env, k);
    ConvertedPerKey(EnvApplied(FileApplied(Defaults(), sections), env), k);
  }

  /** Before conversion, each setting holds its RawValue. */
  lemma RawPerKey(sections: map<string, map<string, string>>, env: map<string, string>, k: Setting)
    ensures EnvApplied(FileApplied(Defaults(), sections), env).Get(k) == RawValue(sections, env, k)
  {
    var c0 := FileApplied(Defaults(), sections);
    if ConfigSection in sections {
      OverrideAt(Defaults(), Settings, File(sections[ConfigSection]), k);
    }
    OverrideAt(c0, EnvSettings, Env(env), k);
    assert Lookup(Env(env), k).Some? ==> k in EnvSettings;
  }

  /** `_convert_types` converts each setting on its own, as ConvertValue says. */
  lemma ConvertedPerKey(c: ConfigValues, k: Setting)
    ensures Converted(c).Get(k) == ConvertValue(k, c.Get(k))
  {
    var c2 := IntsConverted(c);
    assert BoolSettings[..1] == [Autocommit] && BoolSettings[..2] == BoolSettings;
    assert ConvertBools(c2, BoolSettings[..1]) == c2.Set(Autocommit, BoolOf(c2.Get(Autocommit)));
  }

  /**
   * The resolved settings have their types: port and pool size are
   * integers, autocommit and use_pure are booleans unless their string
   * names no truth value, and the other five are strings.
   */
  lemma ResolvedTypes(sections: map<string, map<string, string>>, env: map<string, string>, k: Setting)
    ensures var v := Resolved(sections, env).Get(k);
      match k
      case Port => v.Int?
      case PoolSize => v.Int?
      case UsePure => v.Bool? || (v.Str? && Lower(v.s) !in TrueWords && Lower(v.s) !in FalseWords)
      case Autocommit => v.Bool? || (v.Str? && Lower(v.s) !in TrueWords && Lower(v.s) !in FalseWords)
      case _ => v.Str?
  {
    ResolvedPerKey(sections, env, k);
  }

  /** Charset, use_pure, autocommit and pool size are the same whatever the environment holds. */
  lemma EnvCannotSet(sections: map<string, map<string, string>>, env: map<string, string>, k: Setting)
    requires k !in EnvSettings
    ensures Resolved(sections, env).Get(k) == Resolved(sections, map[]).Get(k)
  {
    ResolvedPerKey(sections, env, k);
    ResolvedPerKey(sections, map[], k);
  }

  // ---------------------------------------------------------------------
  // Locating the file
  // ---------------------------------------------------------------------

  /** The places searched when no file is named, the home directory's one as pathlib spells it. */
  function CandidatePaths(homeConfig: string): seq<string> {
    ["config.ini", "src/aniworld/config.ini", homeConfig]
  }

  /** The first of `paths` that exists. */
  function FirstExisting(paths: seq<string>, existing: set<string>): (r: Option<string>)
    ensures r.Some? ==> r.value in existing
    ensures r.Some? ==> exists i :: 0 <= i < |paths| && paths[i] == r.value && forall j :: 0 <= j < i ==> paths[j] !in existing
    ensures r.None? ==> forall i :: 0 <= i < |paths| ==> paths[i] !in existing
  {
    if paths == [] then None
    else if paths[0] in existing then Some(paths[0])
    else
      var r := FirstExisting(paths[1..], existing);
      if r.Some? then
        var i :| 0 <= i < |paths[1..]| && paths[1..][i] == r.value && forall j :: 0 <= j < i ==> paths[1..][j] !in existing;
        assert paths[i + 1] == r.value;
        r
      else r
  }

  /** The search loop of the constructor: the first candidate that exists, or None. */
  method FindConfigFile(homeConfig: string, existing: set<string>) returns (found: Option<string>)
    ensures found == FirstExisting(CandidatePaths(homeConfig), existing)
  {
    var paths := CandidatePaths(homeConfig);
    found := None;
    var i := 0;
    while i < |paths|
      invariant 0 <= i <= |paths|
      invariant FirstExisting(paths, existing) == FirstExisting(paths[i..], existing)
    {
      if paths[i] in existing {
        found := Some(paths[i]);
        break;
      }
      assert paths[i..][1..] == paths[i + 1..];
      i := i + 1;
    }
  }

  /**
   * The sections the constructor loads: from the named file, or when none
   * is named from the first candidate that exists; nothing when the name
   * is empty, the file does not exist, or it does not parse (`files` holds
   * the files that parse, as configparser reads them).
   */
  function LoadedSections(configFile: Option<string>, homeConfig: string, existing: set<string>,
                          files: map<string, map<string, map<string, string>>>): map<string, map<string, string>> {
    var file := if configFile.None? then FirstExisting(CandidatePaths(homeConfig), existing) else configFile;
    if TruthyStr(file) && file.value in existing && file.value in files then files[file.value] else map[]
  }

  /** `int(value)` for a string, with `fallback` when it raises ValueError; any other value is kept. */
  method IntSetting(v: Value, fallback: Value) returns (r: Value)
    ensures r == IntOr(v, fallback)
  {
    r := v;
    if v.Str? {
      var n := IntLiteral(v.s);
      r := if n.Some? then Int(n.value) else fallback;
    }
  }

  /** `value.lower() in (...)` for a string: the boolean it names, else the value as it was. */
  method BoolSetting(v: Value) returns (r: Value)
    ensures r == BoolOf(v)
  {
    r := v;
    if v.Str? {
      var low := Lower(v.s);
      if low in TrueWords {
        r := Bool(true);
      } else if low in FalseWords {
        r := Bool(false);
      }
    }
  }

  class DatabaseConfig {
    var config: ConfigValues

    /**
     * `__init__`: the defaults, then the file, then the environment, then
     * the type conversion.
     */
    constructor(configFile: Option<string>, homeConfig: string, existing: set<string>,
                files: map<string, map<string, map<string, string>>>, env: map<string, string>)
      ensures config == Resolved(LoadedSections(configFile, homeConfig, existing, files), env)
    {
      config := Defaults();
      new;
      var file := configFile;
      if file.None? {
        file := FindConfigFile(homeConfig, existing);
      }
      if TruthyStr(file) && file.value in existing {
        LoadFromConfigFile(if file.value in files then files[file.value] else map[]);
      }
      LoadFromEnvironment(env);
      ConvertTypes();
    }

    /** `_load_from_config_file`: each setting the 'database' section names takes the file's string. */
    method LoadFromConfigFile(sections: map<string, map<string, string>>)
      modifies this
      ensures config == FileApplied(old(config), sections)
    {
      if ConfigSection in sections {
        var section := sections[ConfigSection];
        var i := 0;
        while i < |Settings|
          invariant 0 <= i <= |Settings|
          invariant config == Override(old(config), Settings[..i], File(section))
        {
          var key := Settings[i];
          assert Settings[..i + 1][..i] == Settings[..i];
          if Name(key) in section {
            config := config.Set(key, Str(section[Name(key)]));
          }
          i := i + 1;
        }
        assert Settings[..i] == Settings;
      }
    }

    /** `_load_from_environment`: each mapped setting whose variable is set takes the variable's string. */
    method LoadFromEnvironment(env: map<string, string>)
      modifies this
      ensures config == EnvApplied(old(config), env)
    {
      var i := 0;
      while i < |EnvSettings|
        invariant 0 <= i <= |EnvSettings|
        invariant config == Override(old(config), EnvSettings[..i], Env(env))
      {
        var key := EnvSettings[i];
        var envVar := EnvVar(key).value;
        assert EnvSettings[..i + 1][..i] == EnvSettings[..i];
        if envVar in env {
          config := config.Set(key, Str(env[envVar]));
        }
        i := i + 1;
      }
      assert EnvSettings[..i] == EnvSettings;
    }

    /** `_convert_types`. */
    method ConvertTypes()
      modifies this
      ensures config == Converted(old(config))
    {
      ConvertInts();
      ConvertBoolSettings();
    }

    /** The integer half of `_convert_types`. */
    method ConvertInts()
      modifies this
      ensures config == IntsConverted(old(config))
    {
      var port := IntSetting(config.Get(Port), Default(Port));
      config := config.Set(Port, port);
      var poolSize := IntSetting(config.Get(PoolSize), Default(PoolSize));
      config := config.Set(PoolSize, poolSize);
    }

    /** The boolean half of `_convert_types`: autocommit, then use_pure. */
    method ConvertBoolSettings()
      modifies this
      ensures config == ConvertBools(old(config), BoolSettings)
    {
      var i := 0;
      while i < |BoolSettings|
        invariant 0 <= i <= |BoolSettings|
        invariant config == ConvertBools(old(config), BoolSettings[..i])
      {
        var key := BoolSettings[i];
        assert BoolSettings[..i + 1][..i] == BoolSettings[..i];
        var b := BoolSetting(config.Get(key));
        config := config.Set(key, b);
        i := i + 1;
      }
      assert BoolSettings[..i] == BoolSettings;
    }

    /** `get_config`: the settings, as a value the caller cannot change them through. */
    method GetConfig() returns (c: ConfigValues)
      ensures c == config
    {
      c := config;
    }

    /** `get_sanitized_config`: the settings with the password masked and nothing else changed; the stored ones are untouched. */
    method GetSanitizedConfig() returns (c: ConfigValues)
      ensures c.Get(Password) == Str(Mask)
      ensures forall k :: k != Password ==> c.Get(k) == config.Get(k)
    {
      c := config;
      c := c.Set(Password, Str(Mask));
    }

    /** `get_connection_params`: exactly the nine settings, with the stored values. */
    method GetConnectionParams() returns (p: ConfigValues)
      ensures forall k :: p.Get(k) == config.Get(k)
    {
      p := ConfigValues(config.Get(Host), config.Get(Port), config.Get(User), config.Get(Password), config.Get(Database),
                  config.Get(Charset), config.Get(UsePure), config.Get(Autocommit), config.Get(PoolSize));
    }
  }

  /** The module-level `_config_instance` behind `get_config`. */
  class ConfigHolder {
    var instance: DatabaseConfig?

    constructor()
      ensures instance == null
    {
      instance := null;
    }

    /** `get_config`: builds the configuration on the first call only; later calls ignore their arguments. */
    method GetConfig(configFile: Option<string>, homeConfig: string, existing: set<string>,
                     files: map<string, map<string, map<string, string>>>, env: map<string, string>)
      returns (cfg: DatabaseConfig)
      modifies this
      ensures old(instance) != null ==> cfg == old(instance) && instance == old(instance)
      ensures old(instance) == null ==>
                fresh(cfg) && instance == cfg
                && cfg.config == Resolved(LoadedSections(configFile, homeConfig, existing, files), env)
    {
      if instance == null {
        instance := new DatabaseConfig(configFile, homeConfig, existing, files, env);
      }
      cfg := instance;
    }
  }
}

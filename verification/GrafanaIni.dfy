/** From the configuration part of a Grafana resource to the section map of its INI file: the append helpers, a
    representative part of the sections, and what the printed text says about the configuration. */
module GrafanaIni {
  import opened Wrappers
  import opened Seqs
  import opened IniText
  import opened Ordering

  datatype Paths = Paths(tempDataLifetime: string)

  datatype RemoteCache = RemoteCache(kind: string, connStr: string)

  datatype AuthAnonymous = AuthAnonymous(enabled: Option<bool>, orgName: string, orgRole: string)

  datatype LogFrontend = LogFrontend(
    enabled: Option<bool>, sentryDsn: string, customEndpoint: string,
    logEndpointBurstLimit: Option<int>, logEndpointRequestsPerSecondLimit: Option<int>, sampleRate: string)

  datatype Dashboards = Dashboards(versionsToKeep: Option<int>, defaultHomeDashboardPath: string)

  datatype Config = Config(
    paths: Option<Paths>, remoteCache: Option<RemoteCache>, authAnonymous: Option<AuthAnonymous>,
    logFrontend: Option<LogFrontend>, dashboards: Option<Dashboards>)

  /** Parsing a decimal fraction and printing it again; no value for a text that is none. */
  type FloatFormat = string -> Option<string>

  const DATA_PATH := "/var/lib/grafana"
  const LOGS_PATH := "/var/log/grafana"
  const PLUGINS_PATH := "/var/lib/grafana/plugins"
  const PROVISIONING_PATH := "/etc/grafana/provisioning/"

  // ----- values as text -----

  function Digit(n: nat): char
    requires n < 10
  {
    "0123456789"[n]
  }

  function Digits(n: nat): string {
    if n < 10 then [Digit(n)] else Digits(n / 10) + [Digit(n % 10)]
  }

  function Decimal(n: int): string {
    if n < 0 then "-" + Digits(-n) else Digits(n)
  }

  function Boolean(b: bool): string {
    if b then "true" else "false"
  }

  // ----- the append helpers -----

  function AppendStr(list: seq<string>, key: string, value: string): seq<string> {
    if value != "" then list + [key + " = " + value] else list
  }

  function AppendInt(list: seq<string>, key: string, value: Option<int>): seq<string> {
    if value.Some? then list + [key + " = " + Decimal(value.value)] else list
  }

  function AppendBool(list: seq<string>, key: string, value: Option<bool>): seq<string> {
    if value.Some? then list + [key + " = " + Boolean(value.value)] else list
  }

  function AppendFloat(list: seq<string>, key: string, value: string, format: FloatFormat): seq<string> {
    if value != "" then
      match format(value)
      case None => list
      case Some(f) => list + [key + " = " + f]
    else list
  }

  // ----- the fields of a section -----

  /** A field of a section, with its text if it is set. */
  datatype Field = Field(key: string, text: Option<string>)

  function Str(key: string, value: string): (f: Field)
    ensures f.key == key
  {
    Field(key, if value != "" then Some(value) else None)
  }

  function Int(key: string, value: Option<int>): (f: Field)
    ensures f.key == key
  {
    Field(key, if value.Some? then Some(Decimal(value.value)) else None)
  }

  function Bool(key: string, value: Option<bool>): (f: Field)
    ensures f.key == key
  {
    Field(key, if value.Some? then Some(Boolean(value.value)) else None)
  }

  function Float(key: string, value: string, format: FloatFormat): (f: Field)
    ensures f.key == key
  {
    Field(key, if value != "" then format(value) else None)
  }

  function Line(f: Field): seq<string> {
    if f.text.Some? then [f.key + " = " + f.text.value] else []
  }

  function Lines(fields: seq<Field>): seq<string> {
    if fields == [] then [] else Lines(fields[..|fields| - 1]) + Line(fields[|fields| - 1])
  }

  datatype Section = PathsSection | RemoteCacheSection | AuthAnonymousSection | LogFrontendSection | DashboardsSection

  function Name(s: Section): string {
    match s
    case PathsSection => "paths"
    case RemoteCacheSection => "remote_cache"
    case AuthAnonymousSection => "auth.anonymous"
    case LogFrontendSection => "log.frontend"
    case DashboardsSection => "dashboards"
  }

  /** The paths are always printed; the other sections when they are set, even with no field set. */
  predicate IsSet(c: Config, s: Section) {
    match s
    case PathsSection => true
    case RemoteCacheSection => c.remoteCache.Some?
    case AuthAnonymousSection => c.authAnonymous.Some?
    case LogFrontendSection => c.logFrontend.Some?
    case DashboardsSection => c.dashboards.Some?
  }

  function Fields(c: Config, s: Section, format: FloatFormat): seq<Field>
    requires IsSet(c, s)
  {
    match s
    case PathsSection =>
      [Field("data", Some(DATA_PATH)), Field("logs", Some(LOGS_PATH)), Field("plugins", Some(PLUGINS_PATH)),
       Field("provisioning", Some(PROVISIONING_PATH)),
       Field("temp_data_lifetime", if c.paths.Some? then Some(c.paths.value.tempDataLifetime) else None)]
    case RemoteCacheSection =>
      var r := c.remoteCache.value;
      [Str("type", r.kind), Str("connstr", r.connStr)]
    case AuthAnonymousSection =>
      var a := c.authAnonymous.value;
      [Bool("enabled", a.enabled), Str("org_name", a.orgName), Str("org_role", a.orgRole)]
    case LogFrontendSection =>
      var l := c.logFrontend.value;
      [Bool("enabled", l.enabled), Str("sentry_dsn", l.sentryDsn), Str("custom_endpoint", l.customEndpoint),
       Int("log_endpoint_burst_limit", l.logEndpointBurstLimit),
       Int("log_endpoint_requests_per_second_limit", l.logEndpointRequestsPerSecondLimit),
       Float("sample_rate", l.sampleRate, format)]
    case DashboardsSection =>
      var d := c.dashboards.value;
      [Int("versions_to_keep", d.versionsToKeep), Str("default_home_dashboard_path", d.defaultHomeDashboardPath)]
  }

  /** The map holds the lines of exactly the sections that are printed. */
  ghost predicate Describes(m: Sections, c: Config, format: FloatFormat) {
    && (forall s :: IsSet(c, s) ==> Name(s) in m && m[Name(s)] == Lines(Fields(c, s, format)))
    && (forall k :: k in m ==> exists s :: IsSet(c, s) && Name(s) == k)
  }

  // ----- building the section map -----

  lemma Adds(done: seq<Field>, f: Field)
    ensures Lines(done + [f]) == Lines(done) + Line(f)
  {
  }

  lemma AddsStr(done: seq<Field>, key: string, v: string)
    ensures AppendStr(Lines(done), key, v) == Lines(done + [Str(key, v)])
  {
  }

  lemma AddsInt(done: seq<Field>, key: string, v: Option<int>)
    ensures AppendInt(Lines(done), key, v) == Lines(done + [Int(key, v)])
  {
  }

  lemma AddsBool(done: seq<Field>, key: string, v: Option<bool>)
    ensures AppendBool(Lines(done), key, v) == Lines(done + [Bool(key, v)])
  {
  }

  lemma AddsFloat(done: seq<Field>, key: string, v: string, format: FloatFormat)
    ensures AppendFloat(Lines(done), key, v, format) == Lines(done + [Float(key, v, format)])
  {
  }

  lemma NoLines()
    ensures Lines([]) == []
  {
  }

  method CfgPaths(c: Config, format: FloatFormat) returns (items: seq<string>)
    ensures items == Lines(Fields(c, PathsSection, format))
  {
    hide Lines;
    ghost var done: seq<Field> := [];
    NoLines();
    items := [];
    Adds(done, Field("data", Some(DATA_PATH)));
    items, done := items + ["data" + " = " + DATA_PATH], done + [Field("data", Some(DATA_PATH))];
    Adds(done, Field("logs", Some(LOGS_PATH)));
    items, done := items + ["logs" + " = " + LOGS_PATH], done + [Field("logs", Some(LOGS_PATH))];
    Adds(done, Field("plugins", Some(PLUGINS_PATH)));
    items, done := items + ["plugins" + " = " + PLUGINS_PATH], done + [Field("plugins", Some(PLUGINS_PATH))];
    Adds(done, Field("provisioning", Some(PROVISIONING_PATH)));
    items, done := items + ["provisioning" + " = " + PROVISIONING_PATH], done + [Field("provisioning", Some(PROVISIONING_PATH))];
    ghost var lifetime := Field("temp_data_lifetime", if c.paths.Some? then Some(c.paths.value.tempDataLifetime) else None);
    Adds(done, lifetime);
    if c.paths.Some? {
      items := items + ["temp_data_lifetime" + " = " + c.paths.value.tempDataLifetime];
    }
    done := done + [lifetime];
    assert done == Fields(c, PathsSection, format);
  }

  method CfgRemoteCache(c: Config, format: FloatFormat) returns (items: seq<string>)
    requires c.remoteCache.Some?
    ensures items == Lines(Fields(c, RemoteCacheSection, format))
  {
    hide Lines, AppendStr, AppendInt, AppendBool, AppendFloat, Str, Int, Bool, Float;
    var r := c.remoteCache.value;
    ghost var done: seq<Field> := [];
    NoLines();
    items := [];
    AddsStr(done, "type", r.kind);
    items, done := AppendStr(items, "type", r.kind), done + [Str("type", r.kind)];
    AddsStr(done, "connstr", r.connStr);
    items, done := AppendStr(items, "connstr", r.connStr), done + [Str("connstr", r.connStr)];
    assert done == Fields(c, RemoteCacheSection, format);
  }

  method CfgAuthAnonymous(c: Config, format: FloatFormat) returns (items: seq<string>)
    requires c.authAnonymous.Some?
    ensures items == Lines(Fields(c, AuthAnonymousSection, format))
  {
    hide Lines, AppendStr, AppendInt, AppendBool, AppendFloat, Str, Int, Bool, Float;
    var a := c.authAnonymous.value;
    ghost var done: seq<Field> := [];
    NoLines();
    items := [];
    AddsBool(done, "enabled", a.enabled);
    items, done := AppendBool(items, "enabled", a.enabled), done + [Bool("enabled", a.enabled)];
    AddsStr(done, "org_name", a.orgName);
    items, done := AppendStr(items, "org_name", a.orgName), done + [Str("org_name", a.orgName)];
    AddsStr(done, "org_role", a.orgRole);
    items, done := AppendStr(items, "org_role", a.orgRole), done + [Str("org_role", a.orgRole)];
    assert done == Fields(c, AuthAnonymousSection, format);
  }

  method CfgLogFrontend(c: Config, format: FloatFormat) returns (items: seq<string>)
    requires c.logFrontend.Some?
    ensures items == Lines(Fields(c, LogFrontendSection, format))
  {
    hide Lines, AppendStr, AppendInt, AppendBool, AppendFloat, Str, Int, Bool, Float;
    var l := c.logFrontend.value;
    ghost var done: seq<Field> := [];
    NoLines();
    items := [];
    AddsBool(done, "enabled", l.enabled);
    items, done := AppendBool(items, "enabled", l.enabled), done + [Bool("enabled", l.enabled)];
    AddsStr(done, "sentry_dsn", l.sentryDsn);
    items, done := AppendStr(items, "sentry_dsn", l.sentryDsn), done + [Str("sentry_dsn", l.sentryDsn)];
    AddsStr(done, "custom_endpoint", l.customEndpoint);
    items, done := AppendStr(items, "custom_endpoint", l.customEndpoint), done + [Str("custom_endpoint", l.customEndpoint)];
    AddsInt(done, "log_endpoint_burst_limit", l.logEndpointBurstLimit);
    items, done := AppendInt(items, "log_endpoint_burst_limit", l.logEndpointBurstLimit), done + [Int("log_endpoint_burst_limit", l.logEndpointBurstLimit)];
    AddsInt(done, "log_endpoint_requests_per_second_limit", l.logEndpointRequestsPerSecondLimit);
    items, done := AppendInt(items, "log_endpoint_requests_per_second_limit", l.logEndpointRequestsPerSecondLimit), done + [Int("log_endpoint_requests_per_second_limit", l.logEndpointRequestsPerSecondLimit)];
    AddsFloat(done, "sample_rate", l.sampleRate, format);
    items, done := AppendFloat(items, "sample_rate", l.sampleRate, format), done + [Float("sample_rate", l.sampleRate, format)];
    assert done == Fields(c, LogFrontendSection, format);
  }

  method CfgDashboards(c: Config, format: FloatFormat) returns (items: seq<string>)
    requires c.dashboards.Some?
    ensures items == Lines(Fields(c, DashboardsSection, format))
  {
    hide Lines, AppendStr, AppendInt, AppendBool, AppendFloat, Str, Int, Bool, Float;
    var d := c.dashboards.value;
    ghost var done: seq<Field> := [];
    NoLines();
    items := [];
    AddsInt(done, "versions_to_keep", d.versionsToKeep);
    items, done := AppendInt(items, "versions_to_keep", d.versionsToKeep), done + [Int("versions_to_keep", d.versionsToKeep)];
    AddsStr(done, "default_home_dashboard_path", d.defaultHomeDashboardPath);
    items, done := AppendStr(items, "default_home_dashboard_path", d.defaultHomeDashboardPath), done + [Str("default_home_dashboard_path", d.defaultHomeDashboardPath)];
    assert done == Fields(c, DashboardsSection, format);
  }

  lemma NameIsInjective(a: Section, b: Section)
    ensures Name(a) == Name(b) <==> a == b
  {
  }

  /** The map so far holds the lines of exactly the sections in `done`. */
  ghost predicate Holds(m: Sections, done: set<Section>, c: Config, format: FloatFormat) {
    && (forall s :: s in done ==> IsSet(c, s) && Name(s) in m && m[Name(s)] == Lines(Fields(c, s, format)))
    && (forall k :: k in m ==> exists s :: s in done && Name(s) == k)
  }

  lemma HoldsOneMore(m: Sections, done: set<Section>, c: Config, format: FloatFormat, s: Section)
    requires Holds(m, done, c, format) && IsSet(c, s)
    ensures Holds(m[Name(s) := Lines(Fields(c, s, format))], done + {s}, c, format)
  {
    hide Lines, Fields, Name;
    var m' := m[Name(s) := Lines(Fields(c, s, format))];
    forall t | t in done + {s}
      ensures IsSet(c, t) && Name(t) in m' && m'[Name(t)] == Lines(Fields(c, t, format))
    {
      NameIsInjective(s, t);
    }
    forall k | k in m'
      ensures exists t :: t in done + {s} && Name(t) == k
    {
      if k in m {
        var t :| t in done && Name(t) == k;
        assert t in done + {s};
      } else {
        assert s in done + {s};
      }
    }
  }

  method ParseConfig(c: Config, format: FloatFormat) returns (config: Sections)
    ensures Describes(config, c, format)
  {
    hide Lines, Fields, Holds, Name;
    ghost var done: set<Section> := {};
    NothingHeld(c, format);
    config := map[];
    var items := CfgPaths(c, format);
    HoldsOneMore(config, done, c, format, PathsSection);
    config, done := config[Name(PathsSection) := items], done + {PathsSection};
    if c.remoteCache.Some? {
      items := CfgRemoteCache(c, format);
      HoldsOneMore(config, done, c, format, RemoteCacheSection);
      config, done := config[Name(RemoteCacheSection) := items], done + {RemoteCacheSection};
    }
    if c.authAnonymous.Some? {
      items := CfgAuthAnonymous(c, format);
      HoldsOneMore(config, done, c, format, AuthAnonymousSection);
      config, done := config[Name(AuthAnonymousSection) := items], done + {AuthAnonymousSection};
    }
    if c.logFrontend.Some? {
      items := CfgLogFrontend(c, format);
      HoldsOneMore(config, done, c, format, LogFrontendSection);
      config, done := config[Name(LogFrontendSection) := items], done + {LogFrontendSection};
    }
    if c.dashboards.Some? {
      items := CfgDashboards(c, format);
      HoldsOneMore(config, done, c, format, DashboardsSection);
      config, done := config[Name(DashboardsSection) := items], done + {DashboardsSection};
    }
    forall s | IsSet(c, s)
      ensures s in done
    {
      match s {
        case PathsSection =>
        case RemoteCacheSection =>
        case AuthAnonymousSection =>
        case LogFrontendSection =>
        case DashboardsSection =>
      }
    }
    AllHeld(config, done, c, format);
  }

  lemma NothingHeld(c: Config, format: FloatFormat)
    ensures Holds(map[], {}, c, format)
  {
  }

  lemma AllHeld(m: Sections, done: set<Section>, c: Config, format: FloatFormat)
    requires Holds(m, done, c, format) && forall s :: IsSet(c, s) ==> s in done
    ensures Describes(m, c, format)
  {
  }

  // ----- what the text says about the configuration -----

  /** A key is one word. */
  predicate Word(key: string) {
    '\n' !in key && ' ' !in key
  }

  ghost predicate OneLineField(f: Field) {
    Word(f.key) && (f.text.Some? ==> OneLine(f.text.value))
  }

  /** No value that is printed contains a line break. */
  ghost predicate Unbroken(c: Config, format: FloatFormat) {
    && (c.paths.Some? ==> OneLine(c.paths.value.tempDataLifetime))
    && (c.remoteCache.Some? ==> OneLine(c.remoteCache.value.kind) && OneLine(c.remoteCache.value.connStr))
    && (c.authAnonymous.Some? ==> OneLine(c.authAnonymous.value.orgName) && OneLine(c.authAnonymous.value.orgRole))
    && (c.logFrontend.Some? ==>
          var l := c.logFrontend.value;
          && OneLine(l.sentryDsn) && OneLine(l.customEndpoint)
          && (l.sampleRate != "" && format(l.sampleRate).Some? ==> OneLine(format(l.sampleRate).value)))
    && (c.dashboards.Some? ==> OneLine(c.dashboards.value.defaultHomeDashboardPath))
  }

  lemma {:induction false} DigitsAreOneLine(n: nat)
    ensures OneLine(Digits(n)) && Digits(n) != ""
    ensures forall i :: 0 <= i < |Digits(n)| ==> '0' <= Digits(n)[i] <= '9'
  {
    if n >= 10 {
      DigitsAreOneLine(n / 10);
    }
  }

  lemma DecimalIsOneLine(n: int)
    ensures OneLine(Decimal(n))
  {
    DigitsAreOneLine(if n < 0 then -n else n);
  }

  lemma TextsAreOneLine(key: string)
    requires Word(key)
    ensures forall v :: OneLine(v) ==> OneLineField(Str(key, v))
    ensures forall v :: OneLineField(Int(key, v))
    ensures forall v :: OneLineField(Bool(key, v))
  {
    hide Decimal;
    forall n ensures OneLine(Decimal(n)) {
      DecimalIsOneLine(n);
    }
  }

  lemma PathKeys()
    ensures Word("data") && Word("logs") && Word("plugins") && Word("provisioning") && Word("temp_data_lifetime")
  {
  }

  lemma PathTexts()
    ensures OneLine(DATA_PATH) && OneLine(LOGS_PATH) && OneLine(PLUGINS_PATH) && OneLine(PROVISIONING_PATH)
  {
  }

  lemma PathsAreOneLine(c: Config, format: FloatFormat)
    requires Unbroken(c, format)
    ensures forall f :: f in Fields(c, PathsSection, format) ==> OneLineField(f)
  {
    PathKeys();
    PathTexts();
    hide Word, OneLine;
  }

  lemma RemoteCacheKeys()
    ensures Word("type")
    ensures Word("connstr")
  {
  }

  lemma RemoteCacheIsOneLine(c: Config, format: FloatFormat)
    requires Unbroken(c, format) && c.remoteCache.Some?
    ensures forall f :: f in Fields(c, RemoteCacheSection, format) ==> OneLineField(f)
  {
    RemoteCacheKeys();
    hide Word, OneLine, Str, Int, Bool;
    TextsAreOneLine("type");
    TextsAreOneLine("connstr");
  }

  lemma AuthAnonymousKeys()
    ensures Word("enabled")
    ensures Word("org_name")
    ensures Word("org_role")
  {
  }

  lemma AuthAnonymousIsOneLine(c: Config, format: FloatFormat)
    requires Unbroken(c, format) && c.authAnonymous.Some?
    ensures forall f :: f in Fields(c, AuthAnonymousSection, format) ==> OneLineField(f)
  {
    AuthAnonymousKeys();
    hide Word, OneLine, Str, Int, Bool;
    TextsAreOneLine("enabled");
    TextsAreOneLine("org_name");
    TextsAreOneLine("org_role");
  }

  lemma LogFrontendKeys()
    ensures Word("enabled")
    ensures Word("sentry_dsn")
    ensures Word("custom_endpoint")
    ensures Word("log_endpoint_burst_limit")
    ensures Word("log_endpoint_requests_per_second_limit")
    ensures Word("sample_rate")
  {
    LongestKey();
    LongKey();
    hide Word;
    ShortKeys();
  }

  lemma LongestKey()
    ensures Word("log_endpoint_requests_per_second_limit")
  {
  }

  lemma LongKey()
    ensures Word("log_endpoint_burst_limit")
  {
  }

  lemma ShortKeys()
    ensures Word("enabled") && Word("sentry_dsn") && Word("custom_endpoint") && Word("sample_rate")
  {
  }

  lemma LogFrontendIsOneLine(c: Config, format: FloatFormat)
    requires Unbroken(c, format) && c.logFrontend.Some?
    ensures forall f :: f in Fields(c, LogFrontendSection, format) ==> OneLineField(f)
  {
    LogFrontendKeys();
    hide Word, OneLine, Str, Int, Bool;
    TextsAreOneLine("enabled");
    TextsAreOneLine("sentry_dsn");
    TextsAreOneLine("custom_endpoint");
    TextsAreOneLine("log_endpoint_burst_limit");
    TextsAreOneLine("log_endpoint_requests_per_second_limit");
    TextsAreOneLine("sample_rate");
  }

  lemma DashboardsKeys()
    ensures Word("versions_to_keep")
    ensures Word("default_home_dashboard_path")
  {
  }

  lemma DashboardsAreOneLine(c: Config, format: FloatFormat)
    requires Unbroken(c, format) && c.dashboards.Some?
    ensures forall f :: f in Fields(c, DashboardsSection, format) ==> OneLineField(f)
  {
    DashboardsKeys();
    hide Word, OneLine, Str, Int, Bool;
    TextsAreOneLine("versions_to_keep");
    TextsAreOneLine("default_home_dashboard_path");
  }

  lemma FieldsAreOneLine(c: Config, s: Section, format: FloatFormat)
    requires Unbroken(c, format) && IsSet(c, s)
    ensures forall f :: f in Fields(c, s, format) ==> OneLineField(f)
  {
    hide Fields, OneLineField, Unbroken;
    match s
    case PathsSection => PathsAreOneLine(c, format);
    case RemoteCacheSection => RemoteCacheIsOneLine(c, format);
    case AuthAnonymousSection => AuthAnonymousIsOneLine(c, format);
    case LogFrontendSection => LogFrontendIsOneLine(c, format);
    case DashboardsSection => DashboardsAreOneLine(c, format);
  }

  lemma {:induction false} LinesArePrintable(fields: seq<Field>)
    requires forall f :: f in fields ==> OneLineField(f)
    ensures forall l :: l in Lines(fields) ==> OneLine(l) && l != ""
  {
    if fields != [] {
      assert fields[|fields| - 1] in fields;
      LinesArePrintable(fields[..|fields| - 1]);
    }
  }

  lemma NameIsOneLine(s: Section)
    ensures OneLine(Name(s))
  {
  }

  lemma DescribedIsPrintable(m: Sections, c: Config, format: FloatFormat)
    requires Describes(m, c, format) && Unbroken(c, format)
    ensures Printable(m)
  {
    hide Fields, Lines, OneLineField, Unbroken, Name;
    forall k | k in m
      ensures OneLine(k) && forall l :: l in m[k] ==> OneLine(l) && l != ""
    {
      var s :| IsSet(c, s) && Name(s) == k;
      NameIsOneLine(s);
      FieldsAreOneLine(c, s, format);
      LinesArePrintable(Fields(c, s, format));
    }
  }

  lemma {:induction false} LinesShowTexts(fields: seq<Field>, f: Field)
    requires f in fields && f.text.Some? && forall l :: l in Lines(fields) ==> OneLine(l)
    ensures OneLine(f.text.value)
  {
    LineComesFromField(fields, f.key + " = " + f.text.value);
    var line := f.key + " = " + f.text.value;
    assert OneLine(line);
    assert line[|f.key| + 3..] == f.text.value;
  }

  ghost predicate TextsFit(fields: seq<Field>) {
    forall i :: 0 <= i < |fields| && fields[i].text.Some? ==> OneLine(fields[i].text.value)
  }

  lemma SectionTexts(m: Sections, c: Config, format: FloatFormat, s: Section)
    requires Describes(m, c, format) && Printable(m) && IsSet(c, s)
    ensures TextsFit(Fields(c, s, format))
  {
    hide Lines, Fields, Name;
    var fields := Fields(c, s, format);
    forall i | 0 <= i < |fields| && fields[i].text.Some?
      ensures OneLine(fields[i].text.value)
    {
      assert m[Name(s)] == Lines(fields);
      LinesShowTexts(fields, fields[i]);
    }
  }

  lemma StrFits(fields: seq<Field>, i: nat, key: string, v: string)
    requires TextsFit(fields) && i < |fields| && fields[i] == Str(key, v)
    ensures OneLine(v)
  {
  }

  lemma PathsFit(c: Config, format: FloatFormat)
    requires c.paths.Some? && TextsFit(Fields(c, PathsSection, format))
    ensures OneLine(c.paths.value.tempDataLifetime)
  {
    assert Fields(c, PathsSection, format)[4].text == Some(c.paths.value.tempDataLifetime);
  }

  lemma RemoteCacheFits(c: Config, format: FloatFormat)
    requires c.remoteCache.Some? && TextsFit(Fields(c, RemoteCacheSection, format))
    ensures OneLine(c.remoteCache.value.kind) && OneLine(c.remoteCache.value.connStr)
  {
    hide TextsFit, OneLine, Str;
    StrFits(Fields(c, RemoteCacheSection, format), 0, "type", c.remoteCache.value.kind);
    StrFits(Fields(c, RemoteCacheSection, format), 1, "connstr", c.remoteCache.value.connStr);
  }

  lemma AuthAnonymousFits(c: Config, format: FloatFormat)
    requires c.authAnonymous.Some? && TextsFit(Fields(c, AuthAnonymousSection, format))
    ensures OneLine(c.authAnonymous.value.orgName) && OneLine(c.authAnonymous.value.orgRole)
  {
    hide TextsFit, OneLine, Str, Bool;
    StrFits(Fields(c, AuthAnonymousSection, format), 1, "org_name", c.authAnonymous.value.orgName);
    StrFits(Fields(c, AuthAnonymousSection, format), 2, "org_role", c.authAnonymous.value.orgRole);
  }

  lemma LogFrontendFits(c: Config, format: FloatFormat)
    requires c.logFrontend.Some? && TextsFit(Fields(c, LogFrontendSection, format))
    ensures OneLine(c.logFrontend.value.sentryDsn) && OneLine(c.logFrontend.value.customEndpoint)
    ensures RateText(c, format).Some? ==> OneLine(RateText(c, format).value)
  {
    var f := Fields(c, LogFrontendSection, format);
    assert f[5].text == RateText(c, format);
    assert f[5].text.Some? ==> OneLine(f[5].text.value);
    hide TextsFit, OneLine, Str, Bool, Int, Float, RateText;
    StrFits(f, 1, "sentry_dsn", c.logFrontend.value.sentryDsn);
    StrFits(f, 2, "custom_endpoint", c.logFrontend.value.customEndpoint);
  }

  lemma DashboardsFit(c: Config, format: FloatFormat)
    requires c.dashboards.Some? && TextsFit(Fields(c, DashboardsSection, format))
    ensures OneLine(c.dashboards.value.defaultHomeDashboardPath)
  {
    hide TextsFit, OneLine, Str, Int;
    StrFits(Fields(c, DashboardsSection, format), 1, "default_home_dashboard_path", c.dashboards.value.defaultHomeDashboardPath);
  }

  lemma PrintableIsUnbroken(m: Sections, c: Config, format: FloatFormat)
    requires Describes(m, c, format) && Printable(m)
    ensures Unbroken(c, format)
  {
    hide Fields, Describes, Printable, TextsFit, OneLine;
    SectionTexts(m, c, format, PathsSection);
    if c.paths.Some? {
      PathsFit(c, format);
    }
    if c.remoteCache.Some? {
      SectionTexts(m, c, format, RemoteCacheSection);
      RemoteCacheFits(c, format);
    }
    if c.authAnonymous.Some? {
      SectionTexts(m, c, format, AuthAnonymousSection);
      AuthAnonymousFits(c, format);
    }
    if c.logFrontend.Some? {
      SectionTexts(m, c, format, LogFrontendSection);
      LogFrontendFits(c, format);
    }
    if c.dashboards.Some? {
      SectionTexts(m, c, format, DashboardsSection);
      DashboardsFit(c, format);
    }
  }

  /** Parsing the printed configuration gives back its sections with their sorted lines if and only if no printed
      value contains a line break. */
  lemma ConfigRoundTrip(m: Sections, c: Config, format: FloatFormat)
    requires Describes(m, c, format)
    ensures Parse(Printed(m)) == Some(WithSortedLines(m)) <==> Unbroken(c, format)
  {
    hide Parse, Printed, Describes, Printable, Unbroken;
    RoundTrip(m);
    if Unbroken(c, format) {
      DescribedIsPrintable(m, c, format);
    }
    if Printable(m) {
      PrintableIsUnbroken(m, c, format);
    }
  }

  /** What it then gives back: every section that is set, and no other. */
  lemma ParsedSections(m: Sections, c: Config, format: FloatFormat)
    requires Describes(m, c, format) && Unbroken(c, format)
    ensures Parse(Printed(m)).Some?
    ensures forall s :: Name(s) in Parse(Printed(m)).value <==> IsSet(c, s)
    ensures forall s :: IsSet(c, s) ==> Parse(Printed(m)).value[Name(s)] == Sort(Lines(Fields(c, s, format)))
  {
    hide Parse, Printed, Lines, Fields, Sort;
    ConfigRoundTrip(m, c, format);
    forall s
      ensures Name(s) in m <==> IsSet(c, s)
    {
      if Name(s) in m {
        var t :| IsSet(c, t) && Name(t) == Name(s);
        NameIsInjective(s, t);
      }
    }
  }

  // ----- the text determines the configuration -----

  /** A line splits in one way into a key of one word and a text. */
  lemma KeyAndText(a: Field, b: Field)
    requires Word(a.key) && Word(b.key) && a.text.Some? && b.text.Some?
    requires a.key + " = " + a.text.value == b.key + " = " + b.text.value
    ensures a == b
  {
    var line := a.key + " = " + a.text.value;
    var i, j := |a.key|, |b.key|;
    assert line[i] == ' ' && line[j] == ' ';
    assert forall k :: 0 <= k < i ==> line[k] == a.key[k];
    assert forall k :: 0 <= k < j ==> line[k] == b.key[k];
    assert i == j;
    assert a.key == line[..i] && b.key == line[..j];
    assert a.text.value == line[i + 3..] && b.text.value == line[j + 3..];
  }

  lemma {:induction false} LineComesFromField(fields: seq<Field>, l: string)
    ensures l in Lines(fields) <==> exists f :: f in fields && f.text.Some? && l == f.key + " = " + f.text.value
  {
    if fields != [] {
      var rest, last := fields[..|fields| - 1], fields[|fields| - 1];
      assert fields == rest + [last];
      LineComesFromField(rest, l);
    }
  }

  ghost predicate DistinctKeys(f: seq<Field>) {
    forall i, j :: 0 <= i < j < |f| ==> f[i].key != f[j].key
  }

  ghost predicate SameKeys(f: seq<Field>, g: seq<Field>) {
    |f| == |g| && forall i :: 0 <= i < |f| ==> f[i].key == g[i].key
  }

  /** A set field of one list is, with its text, a field of any list with the same keys and the same lines. */
  lemma SetFieldIsShared(f: seq<Field>, g: seq<Field>, i: nat)
    requires SameKeys(f, g) && DistinctKeys(f) && i < |f| && f[i].text.Some?
    requires (forall x :: x in f ==> Word(x.key)) && (forall x :: x in g ==> Word(x.key))
    requires Permutation(Lines(f), Lines(g))
    ensures f[i] == g[i]
  {
    var line := f[i].key + " = " + f[i].text.value;
    PermutationKeepsMembers(Lines(f), Lines(g));
    hide Lines;
    assert f[i] in f;
    LineComesFromField(f, line);
    LineComesFromField(g, line);
    var x :| x in g && x.text.Some? && line == x.key + " = " + x.text.value;
    KeyAndText(f[i], x);
    var j :| 0 <= j < |g| && g[j] == x;
    assert f[j].key == f[i].key;
    assert i < j || j < i || i == j;
  }

  lemma SameLinesSameFields(f: seq<Field>, g: seq<Field>)
    requires SameKeys(f, g) && DistinctKeys(f)
    requires (forall x :: x in f ==> Word(x.key)) && (forall x :: x in g ==> Word(x.key))
    requires Permutation(Lines(f), Lines(g))
    ensures f == g
  {
    hide Lines, Word;
    forall i | 0 <= i < |f|
      ensures f[i] == g[i]
    {
      if f[i].text.Some? {
        SetFieldIsShared(f, g, i);
      } else if g[i].text.Some? {
        SetFieldIsShared(g, f, i);
      }
    }
  }

  lemma SectionsHaveSameKeys(a: Config, b: Config, s: Section, format: FloatFormat)
    requires IsSet(a, s) && IsSet(b, s)
    ensures SameKeys(Fields(a, s, format), Fields(b, s, format))
  {
  }

  lemma KeysAreDistinct(c: Config, s: Section, format: FloatFormat)
    requires IsSet(c, s)
    ensures DistinctKeys(Fields(c, s, format))
  {
  }

  lemma {:induction false} DigitsAreInjective(a: nat, b: nat)
    requires Digits(a) == Digits(b)
    ensures a == b
  {
    if a >= 10 || b >= 10 {
      DigitsAreOneLine(a / 10);
      DigitsAreOneLine(b / 10);
      assert a >= 10 && b >= 10;
      var x, y := Digits(a / 10), Digits(b / 10);
      assert x == Digits(a)[..|Digits(a)| - 1] && y == Digits(b)[..|Digits(b)| - 1];
      assert Digit(a % 10) == Digits(a)[|Digits(a)| - 1] == Digit(b % 10);
      DigitsAreInjective(a / 10, b / 10);
    }
  }

  lemma DecimalIsInjective(a: int, b: int)
    requires Decimal(a) == Decimal(b)
    ensures a == b
  {
    var x, y := if a < 0 then -a else a, if b < 0 then -b else b;
    DigitsAreOneLine(x);
    DigitsAreOneLine(y);
    assert (a < 0) == (Decimal(a)[0] == '-') && (b < 0) == (Decimal(b)[0] == '-');
    assert a < 0 ==> Decimal(a)[1..] == Digits(x) && Decimal(b)[1..] == Digits(y);
    DigitsAreInjective(x, y);
  }

  ghost predicate SameFields(a: Config, b: Config, format: FloatFormat) {
    forall s :: (IsSet(a, s) <==> IsSet(b, s)) && (IsSet(a, s) ==> Fields(a, s, format) == Fields(b, s, format))
  }

  /** The printed texts agree exactly when the same sections are set and every field has the same text. */
  lemma TextDeterminesFields(m: Sections, a: Config, n: Sections, b: Config, format: FloatFormat)
    requires Describes(m, a, format) && Unbroken(a, format)
    requires Describes(n, b, format) && Unbroken(b, format)
    ensures Printed(m) == Printed(n) <==> SameFields(a, b, format)
  {
    hide Printed, Lines, Fields, IsSet, Name, Unbroken;
    DescribedIsPrintable(m, a, format);
    DescribedIsPrintable(n, b, format);
    PrintedIsCanonical(m, n);
    if SameFields(a, b, format) {
      SameFieldsSameSections(m, a, n, b, format);
    }
    if SameSections(m, n) {
      forall s
        ensures IsSet(a, s) <==> IsSet(b, s)
        ensures IsSet(a, s) ==> Fields(a, s, format) == Fields(b, s, format)
      {
        SectionIsShared(m, a, n, b, format, s);
      }
    }
  }

  lemma SameFieldsSameSections(m: Sections, a: Config, n: Sections, b: Config, format: FloatFormat)
    requires Describes(m, a, format) && Describes(n, b, format) && SameFields(a, b, format)
    ensures SameSections(m, n)
  {
  }

  lemma DescribedSection(m: Sections, c: Config, format: FloatFormat, s: Section)
    requires Describes(m, c, format)
    ensures Name(s) in m <==> IsSet(c, s)
  {
  }

  lemma SectionIsShared(m: Sections, a: Config, n: Sections, b: Config, format: FloatFormat, s: Section)
    requires Describes(m, a, format) && Unbroken(a, format)
    requires Describes(n, b, format) && Unbroken(b, format)
    requires SameSections(m, n)
    ensures IsSet(a, s) <==> IsSet(b, s)
    ensures IsSet(a, s) ==> Fields(a, s, format) == Fields(b, s, format)
  {
    hide Lines, Fields, IsSet, Name, Unbroken, Word;
    DescribedSection(m, a, format, s);
    DescribedSection(n, b, format, s);
    if IsSet(a, s) {
      FieldsAreOneLine(a, s, format);
      FieldsAreOneLine(b, s, format);
      SectionsHaveSameKeys(a, b, s, format);
      KeysAreDistinct(a, s, format);
      assert m[Name(s)] == Lines(Fields(a, s, format)) && n[Name(s)] == Lines(Fields(b, s, format));
      SameLinesSameFields(Fields(a, s, format), Fields(b, s, format));
    }
  }

  // ----- the settings behind the fields -----

  /** The sample rate is printed in a normalised form; everything else as it is. */
  function RateText(c: Config, format: FloatFormat): Option<string> {
    if c.logFrontend.Some? && c.logFrontend.value.sampleRate != "" then format(c.logFrontend.value.sampleRate) else None
  }

  function WithoutRate(c: Config): Config {
    if c.logFrontend.Some? then c.(logFrontend := Some(c.logFrontend.value.(sampleRate := ""))) else c
  }

  ghost predicate SameSettings(a: Config, b: Config, format: FloatFormat) {
    WithoutRate(a) == WithoutRate(b) && RateText(a, format) == RateText(b, format)
  }

  lemma FieldTextsAreInjective()
    ensures forall key, v, w :: Str(key, v) == Str(key, w) ==> v == w
    ensures forall key, v, w :: Int(key, v) == Int(key, w) ==> v == w
    ensures forall key, v, w :: Bool(key, v) == Bool(key, w) ==> v == w
  {
    hide Decimal;
    forall key: string, v: Option<int>, w: Option<int> | Int(key, v) == Int(key, w)
      ensures v == w
    {
      if v.Some? {
        DecimalIsInjective(v.value, w.value);
      }
    }
    assert Boolean(true)[0] == 't' && Boolean(false)[0] == 'f';
  }

  ghost predicate SameSection(a: Config, b: Config, s: Section, format: FloatFormat) {
    (IsSet(a, s) <==> IsSet(b, s)) && (IsSet(a, s) ==> Fields(a, s, format) == Fields(b, s, format))
  }

  lemma SamePaths(a: Config, b: Config, format: FloatFormat)
    requires SameSection(a, b, PathsSection, format)
    ensures a.paths == b.paths
  {
  }

  lemma SameRemoteCache(a: Config, b: Config, format: FloatFormat)
    requires SameSection(a, b, RemoteCacheSection, format)
    ensures a.remoteCache == b.remoteCache
  {
  }

  lemma SameAuthAnonymous(a: Config, b: Config, format: FloatFormat)
    requires SameSection(a, b, AuthAnonymousSection, format)
    ensures a.authAnonymous == b.authAnonymous
  {
  }

  lemma SameDashboards(a: Config, b: Config, format: FloatFormat)
    requires SameSection(a, b, DashboardsSection, format)
    ensures a.dashboards == b.dashboards
  {
    FieldTextsAreInjective();
    hide Str, Int, Bool;
    if a.dashboards.Some? {
      var f, g := Fields(a, DashboardsSection, format), Fields(b, DashboardsSection, format);
      assert f[0] == g[0] && f[1] == g[1];
    }
  }

  lemma SameLogFrontend(a: Config, b: Config, format: FloatFormat)
    requires SameSection(a, b, LogFrontendSection, format)
    ensures WithoutRate(a).logFrontend == WithoutRate(b).logFrontend && RateText(a, format) == RateText(b, format)
  {
    FieldTextsAreInjective();
    hide Str, Int, Bool;
    if a.logFrontend.Some? {
      var f, g := Fields(a, LogFrontendSection, format), Fields(b, LogFrontendSection, format);
      assert f[0] == g[0] && f[1] == g[1] && f[2] == g[2] && f[3] == g[3] && f[4] == g[4] && f[5] == g[5];
    }
  }

  lemma SameFieldsSameSettings(a: Config, b: Config, format: FloatFormat)
    requires SameFields(a, b, format)
    ensures SameSettings(a, b, format)
  {
    assert forall s :: SameSection(a, b, s, format);
    hide SameSection, SameFields, RateText;
    SamePaths(a, b, format);
    SameRemoteCache(a, b, format);
    SameAuthAnonymous(a, b, format);
    SameLogFrontend(a, b, format);
    SameDashboards(a, b, format);
  }

  lemma SameSettingsSameFields(a: Config, b: Config, format: FloatFormat)
    requires SameSettings(a, b, format)
    ensures SameFields(a, b, format)
  {
  }

  /** The printed text, and with it the hash that restarts Grafana, agrees for two configurations exactly when every
      setting does, the sample rate up to the form in which it is printed. */
  lemma TextDeterminesSettings(m: Sections, a: Config, n: Sections, b: Config, format: FloatFormat)
    requires Describes(m, a, format) && Unbroken(a, format)
    requires Describes(n, b, format) && Unbroken(b, format)
    ensures Printed(m) == Printed(n) <==> SameSettings(a, b, format)
  {
    hide Printed, SameSettings, SameFields, Describes, Unbroken;
    TextDeterminesFields(m, a, n, b, format);
    if SameFields(a, b, format) {
      SameFieldsSameSettings(a, b, format);
    }
    if SameSettings(a, b, format) {
      SameSettingsSameFields(a, b, format);
    }
  }

  // ----- what a reader of the text finds -----

  /** The number that a decimal text stands for. */
  function ReadDigits(s: string): int {
    if s == "" then 0 else 10 * ReadDigits(s[..|s| - 1]) + (s[|s| - 1] as int - '0' as int)
  }

  function ReadDecimal(s: string): int {
    if s != "" && s[0] == '-' then -ReadDigits(s[1..]) else ReadDigits(s)
  }

  lemma {:induction false} DigitsReadBack(n: nat)
    ensures ReadDigits(Digits(n)) == n
  {
    if n < 10 {
      DigitReadsBack(n);
      assert Digits(n)[..0] == "";
    } else {
      DigitReadsBack(n % 10);
      DigitsReadBack(n / 10);
      assert Digits(n)[..|Digits(n)| - 1] == Digits(n / 10);
    }
  }

  lemma DigitReadsBack(n: nat)
    requires n < 10
    ensures Digit(n) as int - '0' as int == n
  {
  }

  lemma DecimalReadsBack(n: int)
    ensures ReadDecimal(Decimal(n)) == n
  {
    DigitsReadBack(if n < 0 then -n else n);
    DigitsAreOneLine(if n < 0 then -n else n);
    assert n < 0 ==> Decimal(n)[1..] == Digits(-n);
  }

  /** There is the line that sets the key to this value, and no other one that sets it. */
  ghost predicate Shows(lines: seq<string>, key: string, value: Option<string>) {
    forall v :: (key + " = " + v) in lines <==> value == Some(v)
  }

  ghost predicate ShowsText(lines: seq<string>, key: string, value: string) {
    Shows(lines, key, if value != "" then Some(value) else None)
  }

  ghost predicate ShowsBool(lines: seq<string>, key: string, value: Option<bool>) {
    && ((key + " = true") in lines <==> value == Some(true))
    && ((key + " = false") in lines <==> value == Some(false))
  }

  ghost predicate ShowsInt(lines: seq<string>, key: string, value: Option<int>) {
    && (forall v :: (key + " = " + v) in lines ==> value == Some(ReadDecimal(v)))
    && (value.Some? ==> exists v :: (key + " = " + v) in lines && ReadDecimal(v) == value.value)
  }

  /** The sections of the text, with every setting on a line of its own under its documented key. */
  ghost predicate ShowsSettings(m: Sections, c: Config, format: FloatFormat) {
    && "paths" in m && ShowsPaths(m["paths"], c)
    && ("remote_cache" in m <==> c.remoteCache.Some?)
    && (c.remoteCache.Some? ==> ShowsRemoteCache(m["remote_cache"], c.remoteCache.value))
    && ("auth.anonymous" in m <==> c.authAnonymous.Some?)
    && (c.authAnonymous.Some? ==> ShowsAuthAnonymous(m["auth.anonymous"], c.authAnonymous.value))
    && ("log.frontend" in m <==> c.logFrontend.Some?)
    && (c.logFrontend.Some? ==> ShowsLogFrontend(m["log.frontend"], c.logFrontend.value, format))
    && ("dashboards" in m <==> c.dashboards.Some?)
    && (c.dashboards.Some? ==> ShowsDashboards(m["dashboards"], c.dashboards.value))
  }

  ghost predicate ShowsPaths(l: seq<string>, c: Config) {
    && |l| <= 5
    && Shows(l, "data", Some("/var/lib/grafana"))
    && Shows(l, "logs", Some("/var/log/grafana"))
    && Shows(l, "plugins", Some("/var/lib/grafana/plugins"))
    && Shows(l, "provisioning", Some("/etc/grafana/provisioning/"))
    && Shows(l, "temp_data_lifetime", if c.paths.Some? then Some(c.paths.value.tempDataLifetime) else None)
  }

  ghost predicate ShowsRemoteCache(l: seq<string>, r: RemoteCache) {
    |l| <= 2 && ShowsText(l, "type", r.kind) && ShowsText(l, "connstr", r.connStr)
  }

  ghost predicate ShowsAuthAnonymous(l: seq<string>, a: AuthAnonymous) {
    |l| <= 3 && ShowsBool(l, "enabled", a.enabled) && ShowsText(l, "org_name", a.orgName) && ShowsText(l, "org_role", a.orgRole)
  }

  ghost predicate ShowsLogFrontend(l: seq<string>, f: LogFrontend, format: FloatFormat) {
    && |l| <= 6
    && ShowsBool(l, "enabled", f.enabled)
    && ShowsText(l, "sentry_dsn", f.sentryDsn)
    && ShowsText(l, "custom_endpoint", f.customEndpoint)
    && ShowsInt(l, "log_endpoint_burst_limit", f.logEndpointBurstLimit)
    && ShowsInt(l, "log_endpoint_requests_per_second_limit", f.logEndpointRequestsPerSecondLimit)
    && Shows(l, "sample_rate", if f.sampleRate == "" then None else format(f.sampleRate))
  }

  ghost predicate ShowsDashboards(l: seq<string>, d: Dashboards) {
    |l| <= 2 && ShowsInt(l, "versions_to_keep", d.versionsToKeep) && ShowsText(l, "default_home_dashboard_path", d.defaultHomeDashboardPath)
  }

  lemma {:induction false} FewLines(fields: seq<Field>)
    ensures |Lines(fields)| <= |fields|
  {
    if fields != [] {
      FewLines(fields[..|fields| - 1]);
    }
  }

  lemma FieldShown(lines: seq<string>, fields: seq<Field>, i: nat)
    requires i < |fields| && DistinctKeys(fields) && (forall f :: f in fields ==> Word(f.key)) && Permutation(lines, Lines(fields))
    ensures Shows(lines, fields[i].key, fields[i].text)
  {
    var f := fields[i];
    PermutationKeepsMembers(lines, Lines(fields));
    hide Lines, Word;
    assert f in fields;
    forall v
      ensures (f.key + " = " + v) in lines <==> f.text == Some(v)
    {
      var line := f.key + " = " + v;
      LineComesFromField(fields, line);
      if line in lines {
        var g :| g in fields && g.text.Some? && line == g.key + " = " + g.text.value;
        KeyAndText(Field(f.key, Some(v)), g);
        var j :| 0 <= j < |fields| && fields[j] == g;
        assert i < j || j < i || i == j;
      }
    }
  }

  lemma ShownInt(lines: seq<string>, key: string, value: Option<int>)
    requires Shows(lines, key, Int(key, value).text)
    ensures ShowsInt(lines, key, value)
  {
    if value.Some? {
      DecimalReadsBack(value.value);
    }
    hide Decimal, ReadDecimal;
    if value.Some? {
      assert (key + " = " + Decimal(value.value)) in lines;
    }
  }

  lemma ShownBool(lines: seq<string>, key: string, value: Option<bool>)
    requires Shows(lines, key, Bool(key, value).text)
    ensures ShowsBool(lines, key, value)
  {
    assert key + " = true" == key + " = " + "true" && key + " = false" == key + " = " + "false";
    assert "true"[0] != "false"[0];
  }

  /** The fields of a section as the parsed text shows them. */
  ghost predicate ShowsFields(lines: seq<string>, fields: seq<Field>) {
    |lines| <= |fields| && forall i :: 0 <= i < |fields| ==> Shows(lines, fields[i].key, fields[i].text)
  }

  lemma SectionShown(m: Sections, c: Config, format: FloatFormat, s: Section)
    requires Describes(m, c, format) && Unbroken(c, format) && IsSet(c, s)
    ensures Parse(Printed(m)).Some? && Name(s) in Parse(Printed(m)).value
    ensures ShowsFields(Parse(Printed(m)).value[Name(s)], Fields(c, s, format))
  {
    hide Parse, Printed, Lines, Fields, Sort, Unbroken, Word;
    var fields := Fields(c, s, format);
    ParsedSections(m, c, format);
    var lines := Parse(Printed(m)).value[Name(s)];
    SortSorts(Lines(fields));
    FewLines(fields);
    FieldsAreOneLine(c, s, format);
    KeysAreDistinct(c, s, format);
    PermutationKeepsMembers(lines, Lines(fields));
    forall i | 0 <= i < |fields|
      ensures Shows(lines, fields[i].key, fields[i].text)
    {
      FieldShown(lines, fields, i);
    }
  }

  lemma PathsShown(l: seq<string>, c: Config, format: FloatFormat)
    requires ShowsFields(l, Fields(c, PathsSection, format))
    ensures ShowsPaths(l, c)
  {
    hide Shows;
    var f := Fields(c, PathsSection, format);
    assert Shows(l, f[0].key, f[0].text) && Shows(l, f[1].key, f[1].text) && Shows(l, f[2].key, f[2].text)
        && Shows(l, f[3].key, f[3].text) && Shows(l, f[4].key, f[4].text);
  }

  lemma RemoteCacheShown(l: seq<string>, c: Config, format: FloatFormat)
    requires c.remoteCache.Some? && ShowsFields(l, Fields(c, RemoteCacheSection, format))
    ensures ShowsRemoteCache(l, c.remoteCache.value)
  {
    hide Shows;
    var f := Fields(c, RemoteCacheSection, format);
    assert Shows(l, f[0].key, f[0].text) && Shows(l, f[1].key, f[1].text);
  }

  lemma AuthAnonymousShown(l: seq<string>, c: Config, format: FloatFormat)
    requires c.authAnonymous.Some? && ShowsFields(l, Fields(c, AuthAnonymousSection, format))
    ensures ShowsAuthAnonymous(l, c.authAnonymous.value)
  {
    hide Shows, ShowsBool;
    var f := Fields(c, AuthAnonymousSection, format);
    assert Shows(l, f[0].key, f[0].text) && Shows(l, f[1].key, f[1].text) && Shows(l, f[2].key, f[2].text);
    ShownBool(l, "enabled", c.authAnonymous.value.enabled);
  }

  lemma LogFrontendShown(l: seq<string>, c: Config, format: FloatFormat)
    requires c.logFrontend.Some? && ShowsFields(l, Fields(c, LogFrontendSection, format))
    ensures ShowsLogFrontend(l, c.logFrontend.value, format)
  {
    hide Shows, ShowsBool, ShowsInt, Decimal;
    var f, s := Fields(c, LogFrontendSection, format), c.logFrontend.value;
    assert Shows(l, f[0].key, f[0].text) && Shows(l, f[1].key, f[1].text) && Shows(l, f[2].key, f[2].text)
        && Shows(l, f[3].key, f[3].text) && Shows(l, f[4].key, f[4].text) && Shows(l, f[5].key, f[5].text);
    ShownBool(l, "enabled", s.enabled);
    ShownInt(l, "log_endpoint_burst_limit", s.logEndpointBurstLimit);
    ShownInt(l, "log_endpoint_requests_per_second_limit", s.logEndpointRequestsPerSecondLimit);
  }

  lemma DashboardsShown(l: seq<string>, c: Config, format: FloatFormat)
    requires c.dashboards.Some? && ShowsFields(l, Fields(c, DashboardsSection, format))
    ensures ShowsDashboards(l, c.dashboards.value)
  {
    hide Shows, ShowsInt, Decimal;
    var f := Fields(c, DashboardsSection, format);
    assert Shows(l, f[0].key, f[0].text) && Shows(l, f[1].key, f[1].text);
    ShownInt(l, "versions_to_keep", c.dashboards.value.versionsToKeep);
  }

  lemma SectionNames()
    ensures Name(PathsSection) == "paths" && Name(RemoteCacheSection) == "remote_cache"
    ensures Name(AuthAnonymousSection) == "auth.anonymous" && Name(LogFrontendSection) == "log.frontend"
    ensures Name(DashboardsSection) == "dashboards"
  {
  }

  /** A reader of the printed text finds every setting as it is: the fixed paths, switches as `true` or `false`, numbers
      that read back as they are, non-empty texts verbatim, and nothing else. */
  lemma TextShowsSettings(m: Sections, c: Config, format: FloatFormat)
    requires Describes(m, c, format) && Unbroken(c, format)
    ensures Parse(Printed(m)).Some? && ShowsSettings(Parse(Printed(m)).value, c, format)
  {
    hide Parse, Printed, Fields, Lines, Sort, Describes, Unbroken, ShowsFields, Name;
    hide ShowsPaths, ShowsRemoteCache, ShowsAuthAnonymous, ShowsLogFrontend, ShowsDashboards;
    ParsedSections(m, c, format);
    SectionNames();
    var text := Parse(Printed(m)).value;
    SectionShown(m, c, format, PathsSection);
    PathsShown(text["paths"], c, format);
    if c.remoteCache.Some? {
      SectionShown(m, c, format, RemoteCacheSection);
      RemoteCacheShown(text["remote_cache"], c, format);
    }
    if c.authAnonymous.Some? {
      SectionShown(m, c, format, AuthAnonymousSection);
      AuthAnonymousShown(text["auth.anonymous"], c, format);
    }
    if c.logFrontend.Some? {
      SectionShown(m, c, format, LogFrontendSection);
      LogFrontendShown(text["log.frontend"], c, format);
    }
    if c.dashboards.Some? {
      SectionShown(m, c, format, DashboardsSection);
      DashboardsShown(text["dashboards"], c, format);
    }
    assert IsSet(c, RemoteCacheSection) <==> c.remoteCache.Some?;
    assert IsSet(c, AuthAnonymousSection) <==> c.authAnonymous.Some?;
    assert IsSet(c, LogFrontendSection) <==> c.logFrontend.Some?;
    assert IsSet(c, DashboardsSection) <==> c.dashboards.Some?;
    assert "remote_cache" in text <==> IsSet(c, RemoteCacheSection);
    assert "auth.anonymous" in text <==> IsSet(c, AuthAnonymousSection);
    assert "log.frontend" in text <==> IsSet(c, LogFrontendSection);
    assert "dashboards" in text <==> IsSet(c, DashboardsSection);
  }

  // ----- what a line break does -----

  /** An anonymous organisation with a role, and one whose name smuggles in the line of that role. */
  function Honest(c: Config, org: string, role: string): Config {
    c.(authAnonymous := Some(AuthAnonymous(None, org, role)))
  }

  function Smuggled(c: Config, org: string, role: string): Config {
    c.(authAnonymous := Some(AuthAnonymous(None, org + "\n" + ("org_role" + " = " + role), "")))
  }

  /** The two are different settings that print alike, so the text does not determine the settings. */
  lemma SmuggledPrintsAlike(m: Sections, n: Sections, c: Config, org: string, role: string, format: FloatFormat)
    requires org != "" && role != ""
    requires Describes(m, Honest(c, org, role), format) && Describes(n, Smuggled(c, org, role), format)
    ensures Printed(m) == Printed(n) && !SameSettings(Honest(c, org, role), Smuggled(c, org, role), format)
    ensures !Unbroken(Smuggled(c, org, role), format)
  {
    hide Honest, Smuggled, Fields, Lines, Name, IsSet, Printed, Describes, SameSettings, Unbroken, PrintsAlike;
    SmuggledDiffers(c, org, role, format);
    SmuggledSections(c, org, role, format);
    AlikeSectionsPrintAlike(m, Honest(c, org, role), n, Smuggled(c, org, role), format);
  }

  lemma SmuggledDiffers(c: Config, org: string, role: string, format: FloatFormat)
    ensures !SameSettings(Honest(c, org, role), Smuggled(c, org, role), format) && !Unbroken(Smuggled(c, org, role), format)
  {
    var a, b := Honest(c, org, role), Smuggled(c, org, role);
    assert b.authAnonymous.value.orgName[|org|] == '\n';
    assert WithoutRate(a).authAnonymous == a.authAnonymous && WithoutRate(b).authAnonymous == b.authAnonymous;
    assert |a.authAnonymous.value.orgName| < |b.authAnonymous.value.orgName|;
  }

  lemma SmuggledSections(c: Config, org: string, role: string, format: FloatFormat)
    requires org != "" && role != ""
    ensures forall s :: IsSet(Honest(c, org, role), s) <==> IsSet(Smuggled(c, org, role), s)
    ensures forall s :: IsSet(Honest(c, org, role), s) ==>
      PrintsAlike(s, Fields(Honest(c, org, role), s, format), Fields(Smuggled(c, org, role), s, format))
  {
    forall s
      ensures IsSet(Honest(c, org, role), s) <==> IsSet(Smuggled(c, org, role), s)
      ensures IsSet(Honest(c, org, role), s) ==>
        PrintsAlike(s, Fields(Honest(c, org, role), s, format), Fields(Smuggled(c, org, role), s, format))
    {
      OtherSections(c, org, role, format, s);
      SmuggledSection(c, org, role, format);
      hide Honest, Smuggled, Fields, IsSet;
    }
  }

  ghost predicate PrintsAlike(s: Section, f: seq<Field>, g: seq<Field>) {
    Text(SectionLines(Name(s), Lines(f))) == Text(SectionLines(Name(s), Lines(g)))
  }

  lemma SmuggledSection(c: Config, org: string, role: string, format: FloatFormat)
    requires org != "" && role != ""
    ensures PrintsAlike(AuthAnonymousSection,
      Fields(Honest(c, org, role), AuthAnonymousSection, format), Fields(Smuggled(c, org, role), AuthAnonymousSection, format))
  {
    hide Fields, Lines, Name, Text, SectionLines, AtMost;
    NameBeforeRole(org, role);
    SmuggledLines(c, org, role, format);
    LineBreakIsAmbiguous(Name(AuthAnonymousSection), "org_name" + " = " + org, "org_role" + " = " + role);
  }

  lemma AlikeSectionsPrintAlike(m: Sections, a: Config, n: Sections, b: Config, format: FloatFormat)
    requires Describes(m, a, format) && Describes(n, b, format)
    requires forall s :: (IsSet(a, s) <==> IsSet(b, s)) && (IsSet(a, s) ==> PrintsAlike(s, Fields(a, s, format), Fields(b, s, format)))
    ensures Printed(m) == Printed(n)
  {
    hide Lines, Fields, Name, Text, SectionLines, Printed, IsSet;
    forall k | k in m
      ensures k in n && Text(SectionLines(k, m[k])) == Text(SectionLines(k, n[k]))
    {
      var s :| IsSet(a, s) && Name(s) == k;
      assert IsSet(b, s) && PrintsAlike(s, Fields(a, s, format), Fields(b, s, format));
    }
    forall k | k in n
      ensures k in m
    {
      var s :| IsSet(b, s) && Name(s) == k;
      assert IsSet(a, s);
    }
    assert m.Keys == n.Keys;
    SectionsPrintAlike(m, n);
  }

  lemma OtherSections(c: Config, org: string, role: string, format: FloatFormat, s: Section)
    ensures IsSet(Honest(c, org, role), s) <==> IsSet(Smuggled(c, org, role), s)
    ensures s != AuthAnonymousSection && IsSet(Honest(c, org, role), s) ==>
      Fields(Honest(c, org, role), s, format) == Fields(Smuggled(c, org, role), s, format)
  {
  }

  lemma SmuggledLines(c: Config, org: string, role: string, format: FloatFormat)
    requires org != "" && role != ""
    ensures
      var x, y := "org_name" + " = " + org, "org_role" + " = " + role;
      && Lines(Fields(Honest(c, org, role), AuthAnonymousSection, format)) == [x, y]
      && Lines(Fields(Smuggled(c, org, role), AuthAnonymousSection, format)) == [x + "\n" + y]
  {
    var x, y := "org_name" + " = " + org, "org_role" + " = " + role;
    var name := org + "\n" + y;
    assert "org_name" + " = " + name == x + "\n" + y;
    var f, g := Fields(Honest(c, org, role), AuthAnonymousSection, format), Fields(Smuggled(c, org, role), AuthAnonymousSection, format);
    var unset := Field("enabled", None);
    assert f == [] + [unset] + [Field("org_name", Some(org))] + [Field("org_role", Some(role))];
    assert g == [] + [unset] + [Field("org_name", Some(name))] + [Field("org_role", None)];
    hide Fields, Lines;
    NoLines();
    Adds([], unset);
    Adds([] + [unset], Field("org_name", Some(org)));
    Adds([] + [unset] + [Field("org_name", Some(org))], Field("org_role", Some(role)));
    Adds([] + [unset], Field("org_name", Some(name)));
    Adds([] + [unset] + [Field("org_name", Some(name))], Field("org_role", None));
  }

  lemma NameBeforeRole(org: string, role: string)
    ensures AtMost("org_name" + " = " + org, "org_role" + " = " + role)
  {
    var x, y := "org_name" + " = " + org, "org_role" + " = " + role;
    StringOrder(x, y);
    assert ComesFirstAt(x, y, 4);
  }
}

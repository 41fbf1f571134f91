/**
  Configuration loading (config/config.go).

  The source keeps its settings in a viper instance keyed by dotted strings
  ("server.api.port"). Here a key is a section constructor of `Key` applied to
  a leaf of that section (`Api(ApiPort)`), so the 44 keys are distinct by
  construction; `KeyPath` gives the dotted string the source uses. A setting's
  value is a `Value`, tagged with its kind. Durations are Go's
  `time.Duration`: a signed count of nanoseconds.

  `LoadConfig` registers the defaults on a fresh `Viper`, lays the config
  file's settings over them and decodes the result into `Config` with
  `Unmarshal`, which succeeds exactly when every setting has the kind of its
  field.
*/
module Config {
  import opened Wrappers

  type Duration = int

  const Second: Duration := 1_000_000_000
  const Minute: Duration := 60 * Second
  const Hour: Duration := 60 * Minute

  // ---------------------------------------------------------------------
  // The configuration records
  // ---------------------------------------------------------------------

  datatype UserConfig = UserConfig(uid: int, gid: int)

  datatype GeneralConfig = GeneralConfig(env: string, tz: string)

  datatype LoggerConfig = LoggerConfig(level: string)

  datatype APIConfig = APIConfig(
    host: string,
    port: int,
    rateLimit: int,
    readTimeout: Duration,
    writeTimeout: Duration,
    idleTimeout: Duration,
    maxBodySize: int)

  datatype CORSConfig = CORSConfig(
    allowedOrigins: seq<string>,
    allowedMethods: seq<string>,
    allowedHeaders: seq<string>,
    exposedHeaders: seq<string>,
    allowCredentials: bool)

  datatype ServerConfig = ServerConfig(api: APIConfig, cors: CORSConfig)

  datatype DBConfig = DBConfig(
    driver: string,
    host: string,
    port: int,
    user: string,
    password: string,
    name: string,
    sslMode: string,
    maxOpenConns: int,
    maxIdleConns: int,
    connMaxLifetime: Duration,
    connMaxIdleTime: Duration,
    queryTimeout: Duration,
    execTimeout: Duration)

  datatype GooseConfig = GooseConfig(driver: string, migrationDir: string, dbString: string)

  datatype RabbitMQConfig = RabbitMQConfig(
    host: string,
    port: int,
    user: string,
    password: string,
    vhost: string)

  datatype RedisConfig = RedisConfig(
    host: string,
    port: int,
    password: string,
    db: int,
    readTimeout: Duration,
    writeTimeout: Duration)

  datatype Config = Config(
    user: UserConfig,
    general: GeneralConfig,
    logger: LoggerConfig,
    server: ServerConfig,
    db: DBConfig,
    goose: GooseConfig,
    rabbitMQ: RabbitMQConfig,
    redis: RedisConfig)

  // ---------------------------------------------------------------------
  // Keys and values of the settings table
  // ---------------------------------------------------------------------

  /** Settings are addressed by dotted paths: a section, then a leaf within it. */
  datatype Key = User(UserKey) | General(GeneralKey) | Log(LoggerKey) | Api(ApiKey) | Cors(CorsKey) | Db(DbKey) | Goose(GooseKey) | RabbitMQ(RabbitKey) | Redis(RedisKey)

  datatype UserKey = HostUid | HostGid
  datatype GeneralKey = Env | Tz
  datatype LoggerKey = Level
  datatype ApiKey = ApiHost | ApiPort | RateLimit | ReadTimeout | WriteTimeout | IdleTimeout | MaxBodySize
  datatype CorsKey = AllowedOrigins | AllowedMethods | AllowedHeaders | ExposedHeaders | AllowCredentials
  datatype DbKey = DbDriver | DbHost | DbPort | DbUser | DbPassword | DbName | SslMode | MaxOpenConns | MaxIdleConns | ConnMaxLifetime | ConnMaxIdleTime | QueryTimeout | ExecTimeout
  datatype GooseKey = GooseDriver | MigrationDir | DbString
  datatype RabbitKey = RabbitHost | RabbitPort | RabbitUser | RabbitPassword | VHost
  datatype RedisKey = RedisHost | RedisPort | RedisPassword | RedisDb | RedisReadTimeout | RedisWriteTimeout

  /** The dotted viper key, as passed to `SetDefault`. */
  function KeyPath(k: Key): string {
    match k
    case User(leaf) => "user." + UserKeyName(leaf)
    case General(leaf) => "general." + GeneralKeyName(leaf)
    case Log(leaf) => "logger." + LoggerKeyName(leaf)
    case Api(leaf) => "server.api." + ApiKeyName(leaf)
    case Cors(leaf) => "server.cors." + CorsKeyName(leaf)
    case Db(leaf) => "db." + DbKeyName(leaf)
    case Goose(leaf) => "goose." + GooseKeyName(leaf)
    case RabbitMQ(leaf) => "rabbitmq." + RabbitKeyName(leaf)
    case Redis(leaf) => "redis." + RedisKeyName(leaf)
  }

  function UserKeyName(leaf: UserKey): string {
    match leaf
    case HostUid => "host_uid"
    case HostGid => "host_gid"
  }

  function GeneralKeyName(leaf: GeneralKey): string {
    match leaf
    case Env => "env"
    case Tz => "tz"
  }

  function LoggerKeyName(leaf: LoggerKey): string {
    match leaf
    case Level => "level"
  }

  function ApiKeyName(leaf: ApiKey): string {
    match leaf
    case ApiHost => "host"
    case ApiPort => "port"
    case RateLimit => "rate_limit"
    case ReadTimeout => "read_timeout"
    case WriteTimeout => "write_timeout"
    case IdleTimeout => "idle_timeout"
    case MaxBodySize => "maxbodysize"
  }

  function CorsKeyName(leaf: CorsKey): string {
    match leaf
    case AllowedOrigins => "allowedorigins"
    case AllowedMethods => "allowedmethods"
    case AllowedHeaders => "allowedheaders"
    case ExposedHeaders => "exposedheaders"
    case AllowCredentials => "allowcredentials"
  }

  function DbKeyName(leaf: DbKey): string {
    match leaf
    case DbDriver => "driver"
    case DbHost => "host"
    case DbPort => "port"
    case DbUser => "user"
    case DbPassword => "password"
    case DbName => "name"
    case SslMode => "ssl_mode"
    case MaxOpenConns => "maxopenconns"
    case MaxIdleConns => "maxidleconns"
    case ConnMaxLifetime => "connmaxlifetime"
    case ConnMaxIdleTime => "connmaxidletime"
    case QueryTimeout => "querytimeout"
    case ExecTimeout => "exectimeout"
  }

  function GooseKeyName(leaf: GooseKey): string {
    match leaf
    case GooseDriver => "driver"
    case MigrationDir => "migration_dir"
    case DbString => "dbstring"
  }

  function RabbitKeyName(leaf: RabbitKey): string {
    match leaf
    case RabbitHost => "host"
    case RabbitPort => "port"
    case RabbitUser => "user"
    case RabbitPassword => "password"
    case VHost => "vhost"
  }

  function RedisKeyName(leaf: RedisKey): string {
    match leaf
    case RedisHost => "host"
    case RedisPort => "port"
    case RedisPassword => "password"
    case RedisDb => "db"
    case RedisReadTimeout => "readtimeout"
    case RedisWriteTimeout => "writetimeout"
  }

  function ParseUserKeyName(name: string): Option<UserKey> {
    match name
    case "host_uid" => Some(HostUid)
    case "host_gid" => Some(HostGid)
    case _ => None
  }

  lemma UserKeyNameRoundTrip(leaf: UserKey)
    ensures ParseUserKeyName(UserKeyName(leaf)) == Some(leaf)
  {
  }

  function ParseGeneralKeyName(name: string): Option<GeneralKey> {
    match name
    case "env" => Some(Env)
    case "tz" => Some(Tz)
    case _ => None
  }

  lemma GeneralKeyNameRoundTrip(leaf: GeneralKey)
    ensures ParseGeneralKeyName(GeneralKeyName(leaf)) == Some(leaf)
  {
  }

  function ParseLoggerKeyName(name: string): Option<LoggerKey> {
    match name
    case "level" => Some(Level)
    case _ => None
  }

  lemma LoggerKeyNameRoundTrip(leaf: LoggerKey)
    ensures ParseLoggerKeyName(LoggerKeyName(leaf)) == Some(leaf)
  {
  }

  function ParseApiKeyName(name: string): Option<ApiKey> {
    match name
    case "host" => Some(ApiHost)
    case "port" => Some(ApiPort)
    case "rate_limit" => Some(RateLimit)
    case "read_timeout" => Some(ReadTimeout)
    case "write_timeout" => Some(WriteTimeout)
    case "idle_timeout" => Some(IdleTimeout)
    case "maxbodysize" => Some(MaxBodySize)
    case _ => None
  }

  lemma ApiKeyNameRoundTrip(leaf: ApiKey)
    ensures ParseApiKeyName(ApiKeyName(leaf)) == Some(leaf)
  {
  }

  function ParseCorsKeyName(name: string): Option<CorsKey> {
    match name
    case "allowedorigins" => Some(AllowedOrigins)
    case "allowedmethods" => Some(AllowedMethods)
    case "allowedheaders" => Some(AllowedHeaders)
    case "exposedheaders" => Some(ExposedHeaders)
    case "allowcredentials" => Some(AllowCredentials)
    case _ => None
  }

  lemma CorsKeyNameRoundTrip(leaf: CorsKey)
    ensures ParseCorsKeyName(CorsKeyName(leaf)) == Some(leaf)
  {
  }

  function ParseDbKeyName(name: string): Option<DbKey> {
    match name
    case "driver" => Some(DbDriver)
    case "host" => Some(DbHost)
    case "port" => Some(DbPort)
    case "user" => Some(DbUser)
    case "password" => Some(DbPassword)
    case "name" => Some(DbName)
    case "ssl_mode" => Some(SslMode)
    case "maxopenconns" => Some(MaxOpenConns)
    case "maxidleconns" => Some(MaxIdleConns)
    case "connmaxlifetime" => Some(ConnMaxLifetime)
    case "connmaxidletime" => Some(ConnMaxIdleTime)
    case "querytimeout" => Some(QueryTimeout)
    case "exectimeout" => Some(ExecTimeout)
    case _ => None
  }

  lemma DbKeyNameRoundTrip(leaf: DbKey)
    ensures ParseDbKeyName(DbKeyName(leaf)) == Some(leaf)
  {
  }

  function ParseGooseKeyName(name: string): Option<GooseKey> {
    match name
    case "driver" => Some(GooseDriver)
    case "migration_dir" => Some(MigrationDir)
    case "dbstring" => Some(DbString)
    case _ => None
  }

  lemma GooseKeyNameRoundTrip(leaf: GooseKey)
    ensures ParseGooseKeyName(GooseKeyName(leaf)) == Some(leaf)
  {
  }

  function ParseRabbitKeyName(name: string): Option<RabbitKey> {
    match name
    case "host" => Some(RabbitHost)
    case "port" => Some(RabbitPort)
    case "user" => Some(RabbitUser)
    case "password" => Some(RabbitPassword)
    case "vhost" => Some(VHost)
    case _ => None
  }

  lemma RabbitKeyNameRoundTrip(leaf: RabbitKey)
    ensures ParseRabbitKeyName(RabbitKeyName(leaf)) == Some(leaf)
  {
  }

  function ParseRedisKeyName(name: string): Option<RedisKey> {
    match name
    case "host" => Some(RedisHost)
    case "port" => Some(RedisPort)
    case "password" => Some(RedisPassword)
    case "db" => Some(RedisDb)
    case "readtimeout" => Some(RedisReadTimeout)
    case "writetimeout" => Some(RedisWriteTimeout)
    case _ => None
  }

  lemma RedisKeyNameRoundTrip(leaf: RedisKey)
    ensures ParseRedisKeyName(RedisKeyName(leaf)) == Some(leaf)
  {
  }

  predicate HasPrefix(path: string, prefix: string) {
    |prefix| <= |path| && path[..|prefix|] == prefix
  }

  /** Viper's lookup of a dotted key: the setting it names, if it names one. */
  function ParseKeyPath(path: string): Option<Key> {
    if HasPrefix(path, "user.") then
      match ParseUserKeyName(path[5..]) case Some(leaf) => Some(User(leaf)) case None => None
    else if HasPrefix(path, "general.") then
      match ParseGeneralKeyName(path[8..]) case Some(leaf) => Some(General(leaf)) case None => None
    else if HasPrefix(path, "logger.") then
      match ParseLoggerKeyName(path[7..]) case Some(leaf) => Some(Log(leaf)) case None => None
    else if HasPrefix(path, "server.api.") then
      match ParseApiKeyName(path[11..]) case Some(leaf) => Some(Api(leaf)) case None => None
    else if HasPrefix(path, "server.cors.") then
      match ParseCorsKeyName(path[12..]) case Some(leaf) => Some(Cors(leaf)) case None => None
    else if HasPrefix(path, "db.") then
      match ParseDbKeyName(path[3..]) case Some(leaf) => Some(Db(leaf)) case None => None
    else if HasPrefix(path, "goose.") then
      match ParseGooseKeyName(path[6..]) case Some(leaf) => Some(Goose(leaf)) case None => None
    else if HasPrefix(path, "rabbitmq.") then
      match ParseRabbitKeyName(path[9..]) case Some(leaf) => Some(RabbitMQ(leaf)) case None => None
    else if HasPrefix(path, "redis.") then
      match ParseRedisKeyName(path[6..]) case Some(leaf) => Some(Redis(leaf)) case None => None
    else None
  }

  lemma UserPathRoundTrip(leaf: UserKey)
    ensures ParseKeyPath(KeyPath(User(leaf))) == Some(User(leaf))
  {
    var path := KeyPath(User(leaf));
    assert path[..5] == "user." && path[5..] == UserKeyName(leaf);
    UserKeyNameRoundTrip(leaf);
  }

  lemma GeneralPathRoundTrip(leaf: GeneralKey)
    ensures ParseKeyPath(KeyPath(General(leaf))) == Some(General(leaf))
  {
    var path := KeyPath(General(leaf));
    assert path[..8] == "general." && path[8..] == GeneralKeyName(leaf);
    assert path[0] == 'g';
    assert !HasPrefix(path, "user.");
    GeneralKeyNameRoundTrip(leaf);
  }

  lemma LogPathRoundTrip(leaf: LoggerKey)
    ensures ParseKeyPath(KeyPath(Log(leaf))) == Some(Log(leaf))
  {
    var path := KeyPath(Log(leaf));
    assert path[..7] == "logger." && path[7..] == LoggerKeyName(leaf);
    assert path[0] == 'l';
    assert !HasPrefix(path, "user.");
    assert !HasPrefix(path, "general.");
    LoggerKeyNameRoundTrip(leaf);
  }

  lemma ApiPathRoundTrip(leaf: ApiKey)
    ensures ParseKeyPath(KeyPath(Api(leaf))) == Some(Api(leaf))
  {
    var path := KeyPath(Api(leaf));
    assert path[..11] == "server.api." && path[11..] == ApiKeyName(leaf);
    assert path[0] == 's';
    assert !HasPrefix(path, "user.");
    assert !HasPrefix(path, "general.");
    assert !HasPrefix(path, "logger.");
    ApiKeyNameRoundTrip(leaf);
  }

  lemma CorsPathRoundTrip(leaf: CorsKey)
    ensures ParseKeyPath(KeyPath(Cors(leaf))) == Some(Cors(leaf))
  {
    var path := KeyPath(Cors(leaf));
    assert path[..12] == "server.cors." && path[12..] == CorsKeyName(leaf);
    assert path[0] == 's' && path[7] == 'c';
    assert !HasPrefix(path, "user.");
    assert !HasPrefix(path, "general.");
    assert !HasPrefix(path, "logger.");
    assert !HasPrefix(path, "server.api.");
    CorsKeyNameRoundTrip(leaf);
  }

  lemma DbPathRoundTrip(leaf: DbKey)
    ensures ParseKeyPath(KeyPath(Db(leaf))) == Some(Db(leaf))
  {
    var path := KeyPath(Db(leaf));
    assert path[..3] == "db." && path[3..] == DbKeyName(leaf);
    assert path[0] == 'd';
    assert !HasPrefix(path, "user.");
    assert !HasPrefix(path, "general.");
    assert !HasPrefix(path, "logger.");
    assert !HasPrefix(path, "server.api.");
    assert !HasPrefix(path, "server.cors.");
    DbKeyNameRoundTrip(leaf);
  }

  lemma GoosePathRoundTrip(leaf: GooseKey)
    ensures ParseKeyPath(KeyPath(Goose(leaf))) == Some(Goose(leaf))
  {
    var path := KeyPath(Goose(leaf));
    assert path[..6] == "goose." && path[6..] == GooseKeyName(leaf);
    assert path[0] == 'g' && path[1] == 'o';
    assert !HasPrefix(path, "user.");
    assert !HasPrefix(path, "general.");
    assert !HasPrefix(path, "logger.");
    assert !HasPrefix(path, "server.api.");
    assert !HasPrefix(path, "server.cors.");
    assert !HasPrefix(path, "db.");
    GooseKeyNameRoundTrip(leaf);
  }

  lemma RabbitMQPathRoundTrip(leaf: RabbitKey)
    ensures ParseKeyPath(KeyPath(RabbitMQ(leaf))) == Some(RabbitMQ(leaf))
  {
    var path := KeyPath(RabbitMQ(leaf));
    assert path[..9] == "rabbitmq." && path[9..] == RabbitKeyName(leaf);
    assert path[0] == 'r';
    assert !HasPrefix(path, "user.");
    assert !HasPrefix(path, "general.");
    assert !HasPrefix(path, "logger.");
    assert !HasPrefix(path, "server.api.");
    assert !HasPrefix(path, "server.cors.");
    assert !HasPrefix(path, "db.");
    assert !HasPrefix(path, "goose.");
    RabbitKeyNameRoundTrip(leaf);
  }

  lemma RedisPathRoundTrip(leaf: RedisKey)
    ensures ParseKeyPath(KeyPath(Redis(leaf))) == Some(Redis(leaf))
  {
    var path := KeyPath(Redis(leaf));
    assert path[..6] == "redis." && path[6..] == RedisKeyName(leaf);
    assert path[0] == 'r' && path[1] == 'e';
    assert !HasPrefix(path, "user.");
    assert !HasPrefix(path, "general.");
    assert !HasPrefix(path, "logger.");
    assert !HasPrefix(path, "server.api.");
    assert !HasPrefix(path, "server.cors.");
    assert !HasPrefix(path, "db.");
    assert !HasPrefix(path, "goose.");
    assert !HasPrefix(path, "rabbitmq.");
    RedisKeyNameRoundTrip(leaf);
  }

  /** Every dotted key names its own setting back. */
  lemma KeyPathRoundTrip(k: Key)
    ensures ParseKeyPath(KeyPath(k)) == Some(k)
  {
    match k
    case User(leaf) => UserPathRoundTrip(leaf);
    case General(leaf) => GeneralPathRoundTrip(leaf);
    case Log(leaf) => LogPathRoundTrip(leaf);
    case Api(leaf) => ApiPathRoundTrip(leaf);
    case Cors(leaf) => CorsPathRoundTrip(leaf);
    case Db(leaf) => DbPathRoundTrip(leaf);
    case Goose(leaf) => GoosePathRoundTrip(leaf);
    case RabbitMQ(leaf) => RabbitMQPathRoundTrip(leaf);
    case Redis(leaf) => RedisPathRoundTrip(leaf);
  }

  /** Distinct settings have distinct dotted keys, so no `SetDefault` call can overwrite another's key. */
  lemma KeyPathInjective(a: Key, b: Key)
    ensures KeyPath(a) == KeyPath(b) <==> a == b
  {
    KeyPathRoundTrip(a);
    KeyPathRoundTrip(b);
  }

  datatype Kind = IntKind | StringKind | BoolKind | ListKind | DurationKind

  datatype Value =
    | IntValue(i: int)
    | StringValue(s: string)
    | BoolValue(b: bool)
    | ListValue(items: seq<string>)
    | DurationValue(d: Duration)

  function KindOf(v: Value): Kind {
    match v
    case IntValue(_) => IntKind
    case StringValue(_) => StringKind
    case BoolValue(_) => BoolKind
    case ListValue(_) => ListKind
    case DurationValue(_) => DurationKind
  }

  /** The value a Go struct field holds when nothing is decoded into it. */
  function ZeroValue(kind: Kind): (v: Value)
    ensures KindOf(v) == kind
  {
    match kind
    case IntKind => IntValue(0)
    case StringKind => StringValue("")
    case BoolKind => BoolValue(false)
    case ListKind => ListValue([])
    case DurationKind => DurationValue(0)
  }

  /** The Go type of the struct field a key is decoded into. */
  function KeyKind(k: Key): Kind {
    match k
    case User(_) => IntKind
    case General(_) => StringKind
    case Log(_) => StringKind
    case Api(leaf) => (
      match leaf
      case ApiHost => StringKind
      case ApiPort | RateLimit | MaxBodySize => IntKind
      case ReadTimeout | WriteTimeout | IdleTimeout => DurationKind)
    case Cors(leaf) => (
      match leaf
      case AllowedOrigins | AllowedMethods | AllowedHeaders | ExposedHeaders => ListKind
      case AllowCredentials => BoolKind)
    case Db(leaf) => (
      match leaf
      case DbDriver | DbHost | DbUser | DbPassword | DbName | SslMode => StringKind
      case DbPort | MaxOpenConns | MaxIdleConns => IntKind
      case ConnMaxLifetime | ConnMaxIdleTime | QueryTimeout | ExecTimeout => DurationKind)
    case Goose(_) => StringKind
    case RabbitMQ(leaf) => (
      match leaf
      case RabbitHost | RabbitUser | RabbitPassword | VHost => StringKind
      case RabbitPort => IntKind)
    case Redis(leaf) => (
      match leaf
      case RedisHost | RedisPassword => StringKind
      case RedisPort | RedisDb => IntKind
      case RedisReadTimeout | RedisWriteTimeout => DurationKind)
  }

  function UserField(c: UserConfig, leaf: UserKey): Value {
    match leaf
    case HostUid => IntValue(c.uid)
    case HostGid => IntValue(c.gid)
  }

  function GeneralField(c: GeneralConfig, leaf: GeneralKey): Value {
    match leaf
    case Env => StringValue(c.env)
    case Tz => StringValue(c.tz)
  }

  function LogField(c: LoggerConfig, leaf: LoggerKey): Value {
    match leaf
    case Level => StringValue(c.level)
  }

  function ApiField(c: APIConfig, leaf: ApiKey): Value {
    match leaf
    case ApiHost => StringValue(c.host)
    case ApiPort => IntValue(c.port)
    case RateLimit => IntValue(c.rateLimit)
    case ReadTimeout => DurationValue(c.readTimeout)
    case WriteTimeout => DurationValue(c.writeTimeout)
    case IdleTimeout => DurationValue(c.idleTimeout)
    case MaxBodySize => IntValue(c.maxBodySize)
  }

  function CorsField(c: CORSConfig, leaf: CorsKey): Value {
    match leaf
    case AllowedOrigins => ListValue(c.allowedOrigins)
    case AllowedMethods => ListValue(c.allowedMethods)
    case AllowedHeaders => ListValue(c.allowedHeaders)
    case ExposedHeaders => ListValue(c.exposedHeaders)
    case AllowCredentials => BoolValue(c.allowCredentials)
  }

  function DbField(c: DBConfig, leaf: DbKey): Value {
    match leaf
    case DbDriver => StringValue(c.driver)
    case DbHost => StringValue(c.host)
    case DbPort => IntValue(c.port)
    case DbUser => StringValue(c.user)
    case DbPassword => StringValue(c.password)
    case DbName => StringValue(c.name)
    case SslMode => StringValue(c.sslMode)
    case MaxOpenConns => IntValue(c.maxOpenConns)
    case MaxIdleConns => IntValue(c.maxIdleConns)
    case ConnMaxLifetime => DurationValue(c.connMaxLifetime)
    case ConnMaxIdleTime => DurationValue(c.connMaxIdleTime)
    case QueryTimeout => DurationValue(c.queryTimeout)
    case ExecTimeout => DurationValue(c.execTimeout)
  }

  function GooseField(c: GooseConfig, leaf: GooseKey): Value {
    match leaf
    case GooseDriver => StringValue(c.driver)
    case MigrationDir => StringValue(c.migrationDir)
    case DbString => StringValue(c.dbString)
  }

  function RabbitMQField(c: RabbitMQConfig, leaf: RabbitKey): Value {
    match leaf
    case RabbitHost => StringValue(c.host)
    case RabbitPort => IntValue(c.port)
    case RabbitUser => StringValue(c.user)
    case RabbitPassword => StringValue(c.password)
    case VHost => StringValue(c.vhost)
  }

  function RedisField(c: RedisConfig, leaf: RedisKey): Value {
    match leaf
    case RedisHost => StringValue(c.host)
    case RedisPort => IntValue(c.port)
    case RedisPassword => StringValue(c.password)
    case RedisDb => IntValue(c.db)
    case RedisReadTimeout => DurationValue(c.readTimeout)
    case RedisWriteTimeout => DurationValue(c.writeTimeout)
  }

  /** The field of `c` that key `k` names, as a setting value. */
  function Field(c: Config, k: Key): Value {
    match k
    case User(leaf) => UserField(c.user, leaf)
    case General(leaf) => GeneralField(c.general, leaf)
    case Log(leaf) => LogField(c.logger, leaf)
    case Api(leaf) => ApiField(c.server.api, leaf)
    case Cors(leaf) => CorsField(c.server.cors, leaf)
    case Db(leaf) => DbField(c.db, leaf)
    case Goose(leaf) => GooseField(c.goose, leaf)
    case RabbitMQ(leaf) => RabbitMQField(c.rabbitMQ, leaf)
    case Redis(leaf) => RedisField(c.redis, leaf)
  }

  // ---------------------------------------------------------------------
  // The default table
  // ---------------------------------------------------------------------

  /*
    The settings table the 44 `SetDefault` calls of `LoadConfig` build, in the
    source's order, written as one stage per section: each stage adds the
    section's calls to the previous one.
  */
  const DefaultsThroughUser: map<Key, Value> := map[]
    [User(HostUid) := IntValue(1000)]
    [User(HostGid) := IntValue(1000)]

  const DefaultsThroughGeneral: map<Key, Value> := DefaultsThroughUser
    [General(Env) := StringValue("development")]
    [General(Tz) := StringValue("UTC")]

  const DefaultsThroughLog: map<Key, Value> := DefaultsThroughGeneral
    [Log(Level) := StringValue("info")]

  const DefaultsThroughApi: map<Key, Value> := DefaultsThroughLog
    [Api(ApiHost) := StringValue("0.0.0.0")]
    [Api(ApiPort) := IntValue(8080)]
    [Api(RateLimit) := IntValue(100)]
    [Api(ReadTimeout) := DurationValue(5 * Second)]
    [Api(WriteTimeout) := DurationValue(10 * Second)]
    [Api(IdleTimeout) := DurationValue(120 * Second)]
    [Api(MaxBodySize) := IntValue(1048576)]

  const DefaultsThroughCors: map<Key, Value> := DefaultsThroughApi
    [Cors(AllowedOrigins) := ListValue(["*"])]
    [Cors(AllowedMethods) := ListValue(["GET", "POST"])]
    [Cors(AllowedHeaders) := ListValue(["Content-Type", "Authorization"])]
    [Cors(ExposedHeaders) := ListValue([])]
    [Cors(AllowCredentials) := BoolValue(true)]

  const DefaultsThroughDb: map<Key, Value> := DefaultsThroughCors
    [Db(DbDriver) := StringValue("postgres")]
    [Db(DbHost) := StringValue("localhost")]
    [Db(DbPort) := IntValue(5432)]
    [Db(DbUser) := StringValue("user")]
    [Db(DbPassword) := StringValue("password")]
    [Db(DbName) := StringValue("app")]
    [Db(SslMode) := StringValue("disable")]
    [Db(MaxOpenConns) := IntValue(10)]
    [Db(MaxIdleConns) := IntValue(5)]
    [Db(ConnMaxLifetime) := DurationValue(1 * Hour)]
    [Db(ConnMaxIdleTime) := DurationValue(10 * Minute)]
    [Db(QueryTimeout) := DurationValue(5 * Second)]
    [Db(ExecTimeout) := DurationValue(3 * Second)]

  const DefaultsThroughGoose: map<Key, Value> := DefaultsThroughDb
    [Goose(GooseDriver) := StringValue("postgres")]
    [Goose(MigrationDir) := StringValue("./db/migrations")]
    [Goose(DbString) := StringValue("")]

  const DefaultsThroughRabbitMQ: map<Key, Value> := DefaultsThroughGoose
    [RabbitMQ(RabbitHost) := StringValue("localhost")]
    [RabbitMQ(RabbitPort) := IntValue(5672)]
    [RabbitMQ(RabbitUser) := StringValue("guest")]
    [RabbitMQ(RabbitPassword) := StringValue("guest")]
    [RabbitMQ(VHost) := StringValue("/")]

  const DefaultsThroughRedis: map<Key, Value> := DefaultsThroughRabbitMQ
    [Redis(RedisHost) := StringValue("localhost")]
    [Redis(RedisPort) := IntValue(6379)]
    [Redis(RedisPassword) := StringValue("")]
    [Redis(RedisDb) := IntValue(0)]
    [Redis(RedisReadTimeout) := DurationValue(3 * Second)]
    [Redis(RedisWriteTimeout) := DurationValue(3 * Second)]

  /** The settings table the `SetDefault` calls of `LoadConfig` build. */
  const DefaultTable: map<Key, Value> := DefaultsThroughRedis

  /** The configuration the default table decodes to. */
  const DefaultConfig: Config := Config(
    UserConfig(1000, 1000),
    GeneralConfig("development", "UTC"),
    LoggerConfig("info"),
    ServerConfig(
      APIConfig("0.0.0.0", 8080, 100, 5 * Second, 10 * Second, 120 * Second, 1048576),
      CORSConfig(["*"], ["GET", "POST"], ["Content-Type", "Authorization"], [], true)),
    DBConfig("postgres", "localhost", 5432, "user", "password", "app", "disable", 10, 5, 1 * Hour, 10 * Minute, 5 * Second, 3 * Second),
    GooseConfig("postgres", "./db/migrations", ""),
    RabbitMQConfig("localhost", 5672, "guest", "guest", "/"),
    RedisConfig("localhost", 6379, "", 0, 3 * Second, 3 * Second))

  // ---------------------------------------------------------------------
  // Decoding the settings into a Config (viper's Unmarshal)
  // ---------------------------------------------------------------------

  datatype ConfigError =
    | ReadError(reason: string)    // ReadInConfig failed for a reason other than a missing file
    | UnmarshalError(key: Key)     // the setting under `key` cannot be decoded into its field

  /** The setting under `k`, if present, has the kind of the field it is decoded into. */
  predicate Decodable(s: map<Key, Value>, k: Key) {
    k in s ==> KindOf(s[k]) == KeyKind(k)
  }

  ghost predicate WellKinded(s: map<Key, Value>) {
    forall k: Key :: Decodable(s, k)
  }

  /** What the field for `k` holds after decoding: the setting, or the zero value when absent. */
  function Lookup(s: map<Key, Value>, k: Key): (v: Value)
    ensures Decodable(s, k) ==> KindOf(v) == KeyKind(k)
  {
    if k in s then s[k] else ZeroValue(KeyKind(k))
  }

  /** The first key of `keys` whose setting does not fit its field, if any. */
  function FirstUndecodable(s: map<Key, Value>, keys: seq<Key>): (r: Option<Key>)
    ensures r.None? <==> forall i | 0 <= i < |keys| :: Decodable(s, keys[i])
    ensures r.Some? ==> exists i | 0 <= i < |keys| ::
      keys[i] == r.value && !Decodable(s, keys[i]) && forall j | 0 <= j < i :: Decodable(s, keys[j])
  {
    if keys == [] then None
    else if !Decodable(s, keys[0]) then Some(keys[0])
    else
      var rest := FirstUndecodable(s, keys[1..]);
      assert forall i | 1 <= i < |keys| :: keys[i] == keys[1..][i - 1];
      rest
  }

  const UserOrder: seq<Key> := [User(HostUid), User(HostGid)]
  const GeneralOrder: seq<Key> := [General(Env), General(Tz)]
  const LogOrder: seq<Key> := [Log(Level)]
  const ApiOrder: seq<Key> := [Api(ApiHost), Api(ApiPort), Api(RateLimit), Api(ReadTimeout), Api(WriteTimeout), Api(IdleTimeout), Api(MaxBodySize)]
  const CorsOrder: seq<Key> := [Cors(AllowedOrigins), Cors(AllowedMethods), Cors(AllowedHeaders), Cors(ExposedHeaders), Cors(AllowCredentials)]
  const DbOrder: seq<Key> := [Db(DbDriver), Db(DbHost), Db(DbPort), Db(DbUser), Db(DbPassword), Db(DbName), Db(SslMode), Db(MaxOpenConns), Db(MaxIdleConns), Db(ConnMaxLifetime), Db(ConnMaxIdleTime), Db(QueryTimeout), Db(ExecTimeout)]
  const GooseOrder: seq<Key> := [Goose(GooseDriver), Goose(MigrationDir), Goose(DbString)]
  const RabbitMQOrder: seq<Key> := [RabbitMQ(RabbitHost), RabbitMQ(RabbitPort), RabbitMQ(RabbitUser), RabbitMQ(RabbitPassword), RabbitMQ(VHost)]
  const RedisOrder: seq<Key> := [Redis(RedisHost), Redis(RedisPort), Redis(RedisPassword), Redis(RedisDb), Redis(RedisReadTimeout), Redis(RedisWriteTimeout)]

  /** The keys in the order of the fields of `Config`, the order decoding visits them. */
  const FieldOrder: seq<Key> :=
    UserOrder + GeneralOrder + LogOrder + ApiOrder + CorsOrder +
    DbOrder + GooseOrder + RabbitMQOrder + RedisOrder

  function UserIndex(leaf: UserKey): (j: nat)
    ensures j < |UserOrder| && UserOrder[j] == User(leaf)
  {
    match leaf
    case HostUid => 0
    case HostGid => 1
  }

  function GeneralIndex(leaf: GeneralKey): (j: nat)
    ensures j < |GeneralOrder| && GeneralOrder[j] == General(leaf)
  {
    match leaf
    case Env => 0
    case Tz => 1
  }

  function LogIndex(leaf: LoggerKey): (j: nat)
    ensures j < |LogOrder| && LogOrder[j] == Log(leaf)
  {
    match leaf
    case Level => 0
  }

  function ApiIndex(leaf: ApiKey): (j: nat)
    ensures j < |ApiOrder| && ApiOrder[j] == Api(leaf)
  {
    match leaf
    case ApiHost => 0
    case ApiPort => 1
    case RateLimit => 2
    case ReadTimeout => 3
    case WriteTimeout => 4
    case IdleTimeout => 5
    case MaxBodySize => 6
  }

  function CorsIndex(leaf: CorsKey): (j: nat)
    ensures j < |CorsOrder| && CorsOrder[j] == Cors(leaf)
  {
    match leaf
    case AllowedOrigins => 0
    case AllowedMethods => 1
    case AllowedHeaders => 2
    case ExposedHeaders => 3
    case AllowCredentials => 4
  }

  function DbIndex(leaf: DbKey): (j: nat)
    ensures j < |DbOrder| && DbOrder[j] == Db(leaf)
  {
    match leaf
    case DbDriver => 0
    case DbHost => 1
    case DbPort => 2
    case DbUser => 3
    case DbPassword => 4
    case DbName => 5
    case SslMode => 6
    case MaxOpenConns => 7
    case MaxIdleConns => 8
    case ConnMaxLifetime => 9
    case ConnMaxIdleTime => 10
    case QueryTimeout => 11
    case ExecTimeout => 12
  }

  function GooseIndex(leaf: GooseKey): (j: nat)
    ensures j < |GooseOrder| && GooseOrder[j] == Goose(leaf)
  {
    match leaf
    case GooseDriver => 0
    case MigrationDir => 1
    case DbString => 2
  }

  function RabbitMQIndex(leaf: RabbitKey): (j: nat)
    ensures j < |RabbitMQOrder| && RabbitMQOrder[j] == RabbitMQ(leaf)
  {
    match leaf
    case RabbitHost => 0
    case RabbitPort => 1
    case RabbitUser => 2
    case RabbitPassword => 3
    case VHost => 4
  }

  function RedisIndex(leaf: RedisKey): (j: nat)
    ensures j < |RedisOrder| && RedisOrder[j] == Redis(leaf)
  {
    match leaf
    case RedisHost => 0
    case RedisPort => 1
    case RedisPassword => 2
    case RedisDb => 3
    case RedisReadTimeout => 4
    case RedisWriteTimeout => 5
  }

  /** The position of each key in `FieldOrder`. */
  function KeyIndex(k: Key): (i: nat)
    ensures i < |FieldOrder|
  {
    match k
    case User(leaf) => 0 + UserIndex(leaf)
    case General(leaf) => 2 + GeneralIndex(leaf)
    case Log(leaf) => 4 + LogIndex(leaf)
    case Api(leaf) => 5 + ApiIndex(leaf)
    case Cors(leaf) => 12 + CorsIndex(leaf)
    case Db(leaf) => 17 + DbIndex(leaf)
    case Goose(leaf) => 30 + GooseIndex(leaf)
    case RabbitMQ(leaf) => 33 + RabbitMQIndex(leaf)
    case Redis(leaf) => 38 + RedisIndex(leaf)
  }

  lemma UserInFieldOrder(leaf: UserKey)
    ensures FieldOrder[KeyIndex(User(leaf))] == User(leaf)
  {
    assert FieldOrder[0 + UserIndex(leaf)] == UserOrder[UserIndex(leaf)];
  }

  lemma GeneralInFieldOrder(leaf: GeneralKey)
    ensures FieldOrder[KeyIndex(General(leaf))] == General(leaf)
  {
    assert FieldOrder[2 + GeneralIndex(leaf)] == GeneralOrder[GeneralIndex(leaf)];
  }

  lemma LogInFieldOrder(leaf: LoggerKey)
    ensures FieldOrder[KeyIndex(Log(leaf))] == Log(leaf)
  {
    assert FieldOrder[4 + LogIndex(leaf)] == LogOrder[LogIndex(leaf)];
  }

  lemma ApiInFieldOrder(leaf: ApiKey)
    ensures FieldOrder[KeyIndex(Api(leaf))] == Api(leaf)
  {
    assert FieldOrder[5 + ApiIndex(leaf)] == ApiOrder[ApiIndex(leaf)];
  }

  lemma CorsInFieldOrder(leaf: CorsKey)
    ensures FieldOrder[KeyIndex(Cors(leaf))] == Cors(leaf)
  {
    assert FieldOrder[12 + CorsIndex(leaf)] == CorsOrder[CorsIndex(leaf)];
  }

  lemma DbInFieldOrder(leaf: DbKey)
    ensures FieldOrder[KeyIndex(Db(leaf))] == Db(leaf)
  {
    assert FieldOrder[17 + DbIndex(leaf)] == DbOrder[DbIndex(leaf)];
  }

  lemma GooseInFieldOrder(leaf: GooseKey)
    ensures FieldOrder[KeyIndex(Goose(leaf))] == Goose(leaf)
  {
    assert FieldOrder[30 + GooseIndex(leaf)] == GooseOrder[GooseIndex(leaf)];
  }

  lemma RabbitMQInFieldOrder(leaf: RabbitKey)
    ensures FieldOrder[KeyIndex(RabbitMQ(leaf))] == RabbitMQ(leaf)
  {
    assert FieldOrder[33 + RabbitMQIndex(leaf)] == RabbitMQOrder[RabbitMQIndex(leaf)];
  }

  lemma RedisInFieldOrder(leaf: RedisKey)
    ensures FieldOrder[KeyIndex(Redis(leaf))] == Redis(leaf)
  {
    assert FieldOrder[38 + RedisIndex(leaf)] == RedisOrder[RedisIndex(leaf)];
  }

  lemma FieldOrderCovers(k: Key)
    ensures FieldOrder[KeyIndex(k)] == k
  {
    match k
    case User(leaf) => UserInFieldOrder(leaf);
    case General(leaf) => GeneralInFieldOrder(leaf);
    case Log(leaf) => LogInFieldOrder(leaf);
    case Api(leaf) => ApiInFieldOrder(leaf);
    case Cors(leaf) => CorsInFieldOrder(leaf);
    case Db(leaf) => DbInFieldOrder(leaf);
    case Goose(leaf) => GooseInFieldOrder(leaf);
    case RabbitMQ(leaf) => RabbitMQInFieldOrder(leaf);
    case Redis(leaf) => RedisInFieldOrder(leaf);
  }

  lemma UserOrderIndexOf(j: int)
    requires 0 <= j < 2
    ensures KeyIndex(UserOrder[j]) == 0 + j
  {
    if j == 0 {
      assert UserOrder[0] == User(HostUid);
    } else {
      assert UserOrder[1] == User(HostGid);
    }
  }

  lemma UserKeyIndexOf(i: int)
    requires 0 <= i < 2
    ensures KeyIndex(FieldOrder[i]) == i
  {
    assert FieldOrder[i] == UserOrder[i - 0];
    UserOrderIndexOf(i - 0);
  }

  lemma GeneralOrderIndexOf(j: int)
    requires 0 <= j < 2
    ensures KeyIndex(GeneralOrder[j]) == 2 + j
  {
    if j == 0 {
      assert GeneralOrder[0] == General(Env);
    } else {
      assert GeneralOrder[1] == General(Tz);
    }
  }

  lemma GeneralKeyIndexOf(i: int)
    requires 2 <= i < 4
    ensures KeyIndex(FieldOrder[i]) == i
  {
    assert FieldOrder[i] == GeneralOrder[i - 2];
    GeneralOrderIndexOf(i - 2);
  }

  lemma LogOrderIndexOf(j: int)
    requires 0 <= j < 1
    ensures KeyIndex(LogOrder[j]) == 4 + j
  {
    assert LogOrder[0] == Log(Level);
  }

  lemma LogKeyIndexOf(i: int)
    requires 4 <= i < 5
    ensures KeyIndex(FieldOrder[i]) == i
  {
    assert FieldOrder[i] == LogOrder[i - 4];
    LogOrderIndexOf(i - 4);
  }

  lemma ApiOrderIndexOf(j: int)
    requires 0 <= j < 7
    ensures KeyIndex(ApiOrder[j]) == 5 + j
  {
    if j == 0 {
      assert ApiOrder[0] == Api(ApiHost);
    } else if j == 1 {
      assert ApiOrder[1] == Api(ApiPort);
    } else if j == 2 {
      assert ApiOrder[2] == Api(RateLimit);
    } else if j == 3 {
      assert ApiOrder[3] == Api(ReadTimeout);
    } else if j == 4 {
      assert ApiOrder[4] == Api(WriteTimeout);
    } else if j == 5 {
      assert ApiOrder[5] == Api(IdleTimeout);
    } else {
      assert ApiOrder[6] == Api(MaxBodySize);
    }
  }

  lemma ApiKeyIndexOf(i: int)
    requires 5 <= i < 12
    ensures KeyIndex(FieldOrder[i]) == i
  {
    assert FieldOrder[i] == ApiOrder[i - 5];
    ApiOrderIndexOf(i - 5);
  }

  lemma CorsOrderIndexOf(j: int)
    requires 0 <= j < 5
    ensures KeyIndex(CorsOrder[j]) == 12 + j
  {
    if j == 0 {
      assert CorsOrder[0] == Cors(AllowedOrigins);
    } else if j == 1 {
      assert CorsOrder[1] == Cors(AllowedMethods);
    } else if j == 2 {
      assert CorsOrder[2] == Cors(AllowedHeaders);
    } else if j == 3 {
      assert CorsOrder[3] == Cors(ExposedHeaders);
    } else {
      assert CorsOrder[4] == Cors(AllowCredentials);
    }
  }

  lemma CorsKeyIndexOf(i: int)
    requires 12 <= i < 17
    ensures KeyIndex(FieldOrder[i]) == i
  {
    assert FieldOrder[i] == CorsOrder[i - 12];
    CorsOrderIndexOf(i - 12);
  }

  lemma DbOrderIndexOf(j: int)
    requires 0 <= j < 13
    ensures KeyIndex(DbOrder[j]) == 17 + j
  {
    if j == 0 {
      assert DbOrder[0] == Db(DbDriver);
    } else if j == 1 {
      assert DbOrder[1] == Db(DbHost);
    } else if j == 2 {
      assert DbOrder[2] == Db(DbPort);
    } else if j == 3 {
      assert DbOrder[3] == Db(DbUser);
    } else if j == 4 {
      assert DbOrder[4] == Db(DbPassword);
    } else if j == 5 {
      assert DbOrder[5] == Db(DbName);
    } else if j == 6 {
      assert DbOrder[6] == Db(SslMode);
    } else if j == 7 {
      assert DbOrder[7] == Db(MaxOpenConns);
    } else if j == 8 {
      assert DbOrder[8] == Db(MaxIdleConns);
    } else if j == 9 {
      assert DbOrder[9] == Db(ConnMaxLifetime);
    } else if j == 10 {
      assert DbOrder[10] == Db(ConnMaxIdleTime);
    } else if j == 11 {
      assert DbOrder[11] == Db(QueryTimeout);
    } else {
      assert DbOrder[12] == Db(ExecTimeout);
    }
  }

  lemma DbKeyIndexOf(i: int)
    requires 17 <= i < 30
    ensures KeyIndex(FieldOrder[i]) == i
  {
    assert FieldOrder[i] == DbOrder[i - 17];
    DbOrderIndexOf(i - 17);
  }

  lemma GooseOrderIndexOf(j: int)
    requires 0 <= j < 3
    ensures KeyIndex(GooseOrder[j]) == 30 + j
  {
    if j == 0 {
      assert GooseOrder[0] == Goose(GooseDriver);
    } else if j == 1 {
      assert GooseOrder[1] == Goose(MigrationDir);
    } else {
      assert GooseOrder[2] == Goose(DbString);
    }
  }

  lemma GooseKeyIndexOf(i: int)
    requires 30 <= i < 33
    ensures KeyIndex(FieldOrder[i]) == i
  {
    assert FieldOrder[i] == GooseOrder[i - 30];
    GooseOrderIndexOf(i - 30);
  }

  lemma RabbitMQOrderIndexOf(j: int)
    requires 0 <= j < 5
    ensures KeyIndex(RabbitMQOrder[j]) == 33 + j
  {
    if j == 0 {
      assert RabbitMQOrder[0] == RabbitMQ(RabbitHost);
    } else if j == 1 {
      assert RabbitMQOrder[1] == RabbitMQ(RabbitPort);
    } else if j == 2 {
      assert RabbitMQOrder[2] == RabbitMQ(RabbitUser);
    } else if j == 3 {
      assert RabbitMQOrder[3] == RabbitMQ(RabbitPassword);
    } else {
      assert RabbitMQOrder[4] == RabbitMQ(VHost);
    }
  }

  lemma RabbitMQKeyIndexOf(i: int)
    requires 33 <= i < 38
    ensures KeyIndex(FieldOrder[i]) == i
  {
    assert FieldOrder[i] == RabbitMQOrder[i - 33];
    RabbitMQOrderIndexOf(i - 33);
  }

  lemma RedisOrderIndexOf(j: int)
    requires 0 <= j < 6
    ensures KeyIndex(RedisOrder[j]) == 38 + j
  {
    if j == 0 {
      assert RedisOrder[0] == Redis(RedisHost);
    } else if j == 1 {
      assert RedisOrder[1] == Redis(RedisPort);
    } else if j == 2 {
      assert RedisOrder[2] == Redis(RedisPassword);
    } else if j == 3 {
      assert RedisOrder[3] == Redis(RedisDb);
    } else if j == 4 {
      assert RedisOrder[4] == Redis(RedisReadTimeout);
    } else {
      assert RedisOrder[5] == Redis(RedisWriteTimeout);
    }
  }

  lemma RedisKeyIndexOf(i: int)
    requires 38 <= i < 44
    ensures KeyIndex(FieldOrder[i]) == i
  {
    assert FieldOrder[i] == RedisOrder[i - 38];
    RedisOrderIndexOf(i - 38);
  }

  lemma KeyIndexOf(i: int)
    requires 0 <= i < |FieldOrder|
    ensures KeyIndex(FieldOrder[i]) == i
  {
    if i < 2 {
      UserKeyIndexOf(i);
    } else if i < 4 {
      GeneralKeyIndexOf(i);
    } else if i < 5 {
      LogKeyIndexOf(i);
    } else if i < 12 {
      ApiKeyIndexOf(i);
    } else if i < 17 {
      CorsKeyIndexOf(i);
    } else if i < 30 {
      DbKeyIndexOf(i);
    } else if i < 33 {
      GooseKeyIndexOf(i);
    } else if i < 38 {
      RabbitMQKeyIndexOf(i);
    } else {
      RedisKeyIndexOf(i);
    }
  }

  /** No key appears twice in `FieldOrder`. */
  lemma FieldOrderDistinct()
    ensures forall i, j | 0 <= i < j < |FieldOrder| :: FieldOrder[i] != FieldOrder[j]
  {
    forall i, j | 0 <= i < j < |FieldOrder| ensures FieldOrder[i] != FieldOrder[j] {
      KeyIndexOf(i);
      KeyIndexOf(j);
    }
  }

  function IntAt(s: map<Key, Value>, k: Key): (x: int)
    requires KeyKind(k) == IntKind && Decodable(s, k)
    ensures Lookup(s, k) == IntValue(x)
  {
    Lookup(s, k).i
  }

  function StringAt(s: map<Key, Value>, k: Key): (x: string)
    requires KeyKind(k) == StringKind && Decodable(s, k)
    ensures Lookup(s, k) == StringValue(x)
  {
    Lookup(s, k).s
  }

  function BoolAt(s: map<Key, Value>, k: Key): (x: bool)
    requires KeyKind(k) == BoolKind && Decodable(s, k)
    ensures Lookup(s, k) == BoolValue(x)
  {
    Lookup(s, k).b
  }

  function ListAt(s: map<Key, Value>, k: Key): (x: seq<string>)
    requires KeyKind(k) == ListKind && Decodable(s, k)
    ensures Lookup(s, k) == ListValue(x)
  {
    Lookup(s, k).items
  }

  function DurationAt(s: map<Key, Value>, k: Key): (x: Duration)
    requires KeyKind(k) == DurationKind && Decodable(s, k)
    ensures Lookup(s, k) == DurationValue(x)
  {
    Lookup(s, k).d
  }

  function BuildUser(s: map<Key, Value>): UserConfig
    requires WellKinded(s)
  {
    UserConfig(IntAt(s, User(HostUid)), IntAt(s, User(HostGid)))
  }

  lemma BuildUserFields(s: map<Key, Value>)
    requires WellKinded(s)
    ensures forall leaf: UserKey :: UserField(BuildUser(s), leaf) == Lookup(s, User(leaf))
  {
    forall leaf: UserKey ensures UserField(BuildUser(s), leaf) == Lookup(s, User(leaf)) {
      match leaf
      case HostUid =>
      case HostGid =>
    }
  }

  function BuildGeneral(s: map<Key, Value>): GeneralConfig
    requires WellKinded(s)
  {
    GeneralConfig(StringAt(s, General(Env)), StringAt(s, General(Tz)))
  }

  lemma BuildGeneralFields(s: map<Key, Value>)
    requires WellKinded(s)
    ensures forall leaf: GeneralKey :: GeneralField(BuildGeneral(s), leaf) == Lookup(s, General(leaf))
  {
    forall leaf: GeneralKey ensures GeneralField(BuildGeneral(s), leaf) == Lookup(s, General(leaf)) {
      match leaf
      case Env =>
      case Tz =>
    }
  }

  function BuildLog(s: map<Key, Value>): LoggerConfig
    requires WellKinded(s)
  {
    LoggerConfig(StringAt(s, Log(Level)))
  }

  lemma BuildLogFields(s: map<Key, Value>)
    requires WellKinded(s)
    ensures forall leaf: LoggerKey :: LogField(BuildLog(s), leaf) == Lookup(s, Log(leaf))
  {
    forall leaf: LoggerKey ensures LogField(BuildLog(s), leaf) == Lookup(s, Log(leaf)) {
      match leaf
      case Level =>
    }
  }

  function BuildApi(s: map<Key, Value>): APIConfig
    requires WellKinded(s)
  {
    APIConfig(StringAt(s, Api(ApiHost)), IntAt(s, Api(ApiPort)), IntAt(s, Api(RateLimit)), DurationAt(s, Api(ReadTimeout)), DurationAt(s, Api(WriteTimeout)), DurationAt(s, Api(IdleTimeout)), IntAt(s, Api(MaxBodySize)))
  }

  lemma BuildApiFields(s: map<Key, Value>)
    requires WellKinded(s)
    ensures forall leaf: ApiKey :: ApiField(BuildApi(s), leaf) == Lookup(s, Api(leaf))
  {
    forall leaf: ApiKey ensures ApiField(BuildApi(s), leaf) == Lookup(s, Api(leaf)) {
      match leaf
      case ApiHost =>
      case ApiPort =>
      case RateLimit =>
      case ReadTimeout =>
      case WriteTimeout =>
      case IdleTimeout =>
      case MaxBodySize =>
    }
  }

  function BuildCors(s: map<Key, Value>): CORSConfig
    requires WellKinded(s)
  {
    CORSConfig(ListAt(s, Cors(AllowedOrigins)), ListAt(s, Cors(AllowedMethods)), ListAt(s, Cors(AllowedHeaders)), ListAt(s, Cors(ExposedHeaders)), BoolAt(s, Cors(AllowCredentials)))
  }

  lemma BuildCorsFields(s: map<Key, Value>)
    requires WellKinded(s)
    ensures forall leaf: CorsKey :: CorsField(BuildCors(s), leaf) == Lookup(s, Cors(leaf))
  {
    forall leaf: CorsKey ensures CorsField(BuildCors(s), leaf) == Lookup(s, Cors(leaf)) {
      match leaf
      case AllowedOrigins =>
      case AllowedMethods =>
      case AllowedHeaders =>
      case ExposedHeaders =>
      case AllowCredentials =>
    }
  }

  function BuildDb(s: map<Key, Value>): DBConfig
    requires WellKinded(s)
  {
    DBConfig(StringAt(s, Db(DbDriver)), StringAt(s, Db(DbHost)), IntAt(s, Db(DbPort)), StringAt(s, Db(DbUser)), StringAt(s, Db(DbPassword)), StringAt(s, Db(DbName)), StringAt(s, Db(SslMode)), IntAt(s, Db(MaxOpenConns)), IntAt(s, Db(MaxIdleConns)), DurationAt(s, Db(ConnMaxLifetime)), DurationAt(s, Db(ConnMaxIdleTime)), DurationAt(s, Db(QueryTimeout)), DurationAt(s, Db(ExecTimeout)))
  }

  lemma BuildDbFields(s: map<Key, Value>)
    requires WellKinded(s)
    ensures forall leaf: DbKey :: DbField(BuildDb(s), leaf) == Lookup(s, Db(leaf))
  {
    forall leaf: DbKey ensures DbField(BuildDb(s), leaf) == Lookup(s, Db(leaf)) {
      match leaf
      case DbDriver =>
      case DbHost =>
      case DbPort =>
      case DbUser =>
      case DbPassword =>
      case DbName =>
      case SslMode =>
      case MaxOpenConns =>
      case MaxIdleConns =>
      case ConnMaxLifetime =>
      case ConnMaxIdleTime =>
      case QueryTimeout =>
      case ExecTimeout =>
    }
  }

  function BuildGoose(s: map<Key, Value>): GooseConfig
    requires WellKinded(s)
  {
    GooseConfig(StringAt(s, Goose(GooseDriver)), StringAt(s, Goose(MigrationDir)), StringAt(s, Goose(DbString)))
  }

  lemma BuildGooseFields(s: map<Key, Value>)
    requires WellKinded(s)
    ensures forall leaf: GooseKey :: GooseField(BuildGoose(s), leaf) == Lookup(s, Goose(leaf))
  {
    forall leaf: GooseKey ensures GooseField(BuildGoose(s), leaf) == Lookup(s, Goose(leaf)) {
      match leaf
      case GooseDriver =>
      case MigrationDir =>
      case DbString =>
    }
  }

  function BuildRabbitMQ(s: map<Key, Value>): RabbitMQConfig
    requires WellKinded(s)
  {
    RabbitMQConfig(StringAt(s, RabbitMQ(RabbitHost)), IntAt(s, RabbitMQ(RabbitPort)), StringAt(s, RabbitMQ(RabbitUser)), StringAt(s, RabbitMQ(RabbitPassword)), StringAt(s, RabbitMQ(VHost)))
  }

  lemma BuildRabbitMQFields(s: map<Key, Value>)
    requires WellKinded(s)
    ensures forall leaf: RabbitKey :: RabbitMQField(BuildRabbitMQ(s), leaf) == Lookup(s, RabbitMQ(leaf))
  {
    forall leaf: RabbitKey ensures RabbitMQField(BuildRabbitMQ(s), leaf) == Lookup(s, RabbitMQ(leaf)) {
      match leaf
      case RabbitHost =>
      case RabbitPort =>
      case RabbitUser =>
      case RabbitPassword =>
      case VHost =>
    }
  }

  function BuildRedis(s: map<Key, Value>): RedisConfig
    requires WellKinded(s)
  {
    RedisConfig(StringAt(s, Redis(RedisHost)), IntAt(s, Redis(RedisPort)), StringAt(s, Redis(RedisPassword)), IntAt(s, Redis(RedisDb)), DurationAt(s, Redis(RedisReadTimeout)), DurationAt(s, Redis(RedisWriteTimeout)))
  }

  lemma BuildRedisFields(s: map<Key, Value>)
    requires WellKinded(s)
    ensures forall leaf: RedisKey :: RedisField(BuildRedis(s), leaf) == Lookup(s, Redis(leaf))
  {
    forall leaf: RedisKey ensures RedisField(BuildRedis(s), leaf) == Lookup(s, Redis(leaf)) {
      match leaf
      case RedisHost =>
      case RedisPort =>
      case RedisPassword =>
      case RedisDb =>
      case RedisReadTimeout =>
      case RedisWriteTimeout =>
    }
  }

  /** The configuration whose every field holds the setting of its key. */
  function Build(s: map<Key, Value>): Config
    requires WellKinded(s)
  {
    Config(BuildUser(s), BuildGeneral(s), BuildLog(s), ServerConfig(BuildApi(s), BuildCors(s)),
           BuildDb(s), BuildGoose(s), BuildRabbitMQ(s), BuildRedis(s))
  }

  lemma BuildField(s: map<Key, Value>, k: Key)
    requires WellKinded(s)
    ensures Field(Build(s), k) == Lookup(s, k)
  {
    match k
    case User(leaf) => BuildUserFields(s);
    case General(leaf) => BuildGeneralFields(s);
    case Log(leaf) => BuildLogFields(s);
    case Api(leaf) => BuildApiFields(s);
    case Cors(leaf) => BuildCorsFields(s);
    case Db(leaf) => BuildDbFields(s);
    case Goose(leaf) => BuildGooseFields(s);
    case RabbitMQ(leaf) => BuildRabbitMQFields(s);
    case Redis(leaf) => BuildRedisFields(s);
  }

  lemma BuildFields(s: map<Key, Value>)
    requires WellKinded(s)
    ensures forall k: Key :: Field(Build(s), k) == Lookup(s, k)
  {
    forall k: Key ensures Field(Build(s), k) == Lookup(s, k) {
      BuildField(s, k);
    }
  }

  lemma UserFieldsDetermine(a: UserConfig, b: UserConfig)
    requires forall leaf: UserKey :: UserField(a, leaf) == UserField(b, leaf)
    ensures a == b
  {
    assert UserField(a, HostUid) == UserField(b, HostUid);
    assert UserField(a, HostGid) == UserField(b, HostGid);
  }

  lemma GeneralFieldsDetermine(a: GeneralConfig, b: GeneralConfig)
    requires forall leaf: GeneralKey :: GeneralField(a, leaf) == GeneralField(b, leaf)
    ensures a == b
  {
    assert GeneralField(a, Env) == GeneralField(b, Env);
    assert GeneralField(a, Tz) == GeneralField(b, Tz);
  }

  lemma LogFieldsDetermine(a: LoggerConfig, b: LoggerConfig)
    requires forall leaf: LoggerKey :: LogField(a, leaf) == LogField(b, leaf)
    ensures a == b
  {
    assert LogField(a, Level) == LogField(b, Level);
  }

  lemma ApiFieldsDetermine(a: APIConfig, b: APIConfig)
    requires forall leaf: ApiKey :: ApiField(a, leaf) == ApiField(b, leaf)
    ensures a == b
  {
    assert ApiField(a, ApiHost) == ApiField(b, ApiHost);
    assert ApiField(a, ApiPort) == ApiField(b, ApiPort);
    assert ApiField(a, RateLimit) == ApiField(b, RateLimit);
    assert ApiField(a, ReadTimeout) == ApiField(b, ReadTimeout);
    assert ApiField(a, WriteTimeout) == ApiField(b, WriteTimeout);
    assert ApiField(a, IdleTimeout) == ApiField(b, IdleTimeout);
    assert ApiField(a, MaxBodySize) == ApiField(b, MaxBodySize);
  }

  lemma CorsFieldsDetermine(a: CORSConfig, b: CORSConfig)
    requires forall leaf: CorsKey :: CorsField(a, leaf) == CorsField(b, leaf)
    ensures a == b
  {
    assert CorsField(a, AllowedOrigins) == CorsField(b, AllowedOrigins);
    assert CorsField(a, AllowedMethods) == CorsField(b, AllowedMethods);
    assert CorsField(a, AllowedHeaders) == CorsField(b, AllowedHeaders);
    assert CorsField(a, ExposedHeaders) == CorsField(b, ExposedHeaders);
    assert CorsField(a, AllowCredentials) == CorsField(b, AllowCredentials);
  }

  lemma DbFieldsDetermine(a: DBConfig, b: DBConfig)
    requires forall leaf: DbKey :: DbField(a, leaf) == DbField(b, leaf)
    ensures a == b
  {
    assert DbField(a, DbDriver) == DbField(b, DbDriver);
    assert DbField(a, DbHost) == DbField(b, DbHost);
    assert DbField(a, DbPort) == DbField(b, DbPort);
    assert DbField(a, DbUser) == DbField(b, DbUser);
    assert DbField(a, DbPassword) == DbField(b, DbPassword);
    assert DbField(a, DbName) == DbField(b, DbName);
    assert DbField(a, SslMode) == DbField(b, SslMode);
    assert DbField(a, MaxOpenConns) == DbField(b, MaxOpenConns);
    assert DbField(a, MaxIdleConns) == DbField(b, MaxIdleConns);
    assert DbField(a, ConnMaxLifetime) == DbField(b, ConnMaxLifetime);
    assert DbField(a, ConnMaxIdleTime) == DbField(b, ConnMaxIdleTime);
    assert DbField(a, QueryTimeout) == DbField(b, QueryTimeout);
    assert DbField(a, ExecTimeout) == DbField(b, ExecTimeout);
  }

  lemma GooseFieldsDetermine(a: GooseConfig, b: GooseConfig)
    requires forall leaf: GooseKey :: GooseField(a, leaf) == GooseField(b, leaf)
    ensures a == b
  {
    assert GooseField(a, GooseDriver) == GooseField(b, GooseDriver);
    assert GooseField(a, MigrationDir) == GooseField(b, MigrationDir);
    assert GooseField(a, DbString) == GooseField(b, DbString);
  }

  lemma RabbitMQFieldsDetermine(a: RabbitMQConfig, b: RabbitMQConfig)
    requires forall leaf: RabbitKey :: RabbitMQField(a, leaf) == RabbitMQField(b, leaf)
    ensures a == b
  {
    assert RabbitMQField(a, RabbitHost) == RabbitMQField(b, RabbitHost);
    assert RabbitMQField(a, RabbitPort) == RabbitMQField(b, RabbitPort);
    assert RabbitMQField(a, RabbitUser) == RabbitMQField(b, RabbitUser);
    assert RabbitMQField(a, RabbitPassword) == RabbitMQField(b, RabbitPassword);
    assert RabbitMQField(a, VHost) == RabbitMQField(b, VHost);
  }

  lemma RedisFieldsDetermine(a: RedisConfig, b: RedisConfig)
    requires forall leaf: RedisKey :: RedisField(a, leaf) == RedisField(b, leaf)
    ensures a == b
  {
    assert RedisField(a, RedisHost) == RedisField(b, RedisHost);
    assert RedisField(a, RedisPort) == RedisField(b, RedisPort);
    assert RedisField(a, RedisPassword) == RedisField(b, RedisPassword);
    assert RedisField(a, RedisDb) == RedisField(b, RedisDb);
    assert RedisField(a, RedisReadTimeout) == RedisField(b, RedisReadTimeout);
    assert RedisField(a, RedisWriteTimeout) == RedisField(b, RedisWriteTimeout);
  }

  /** A configuration is determined by the values of its fields. */
  lemma FieldsDetermine(a: Config, b: Config)
    requires forall k: Key :: Field(a, k) == Field(b, k)
    ensures a == b
  {
    forall leaf: UserKey ensures UserField(a.user, leaf) == UserField(b.user, leaf) {
      assert Field(a, User(leaf)) == Field(b, User(leaf));
    }
    UserFieldsDetermine(a.user, b.user);
    forall leaf: GeneralKey ensures GeneralField(a.general, leaf) == GeneralField(b.general, leaf) {
      assert Field(a, General(leaf)) == Field(b, General(leaf));
    }
    GeneralFieldsDetermine(a.general, b.general);
    forall leaf: LoggerKey ensures LogField(a.logger, leaf) == LogField(b.logger, leaf) {
      assert Field(a, Log(leaf)) == Field(b, Log(leaf));
    }
    LogFieldsDetermine(a.logger, b.logger);
    forall leaf: ApiKey ensures ApiField(a.server.api, leaf) == ApiField(b.server.api, leaf) {
      assert Field(a, Api(leaf)) == Field(b, Api(leaf));
    }
    ApiFieldsDetermine(a.server.api, b.server.api);
    forall leaf: CorsKey ensures CorsField(a.server.cors, leaf) == CorsField(b.server.cors, leaf) {
      assert Field(a, Cors(leaf)) == Field(b, Cors(leaf));
    }
    CorsFieldsDetermine(a.server.cors, b.server.cors);
    forall leaf: DbKey ensures DbField(a.db, leaf) == DbField(b.db, leaf) {
      assert Field(a, Db(leaf)) == Field(b, Db(leaf));
    }
    DbFieldsDetermine(a.db, b.db);
    forall leaf: GooseKey ensures GooseField(a.goose, leaf) == GooseField(b.goose, leaf) {
      assert Field(a, Goose(leaf)) == Field(b, Goose(leaf));
    }
    GooseFieldsDetermine(a.goose, b.goose);
    forall leaf: RabbitKey ensures RabbitMQField(a.rabbitMQ, leaf) == RabbitMQField(b.rabbitMQ, leaf) {
      assert Field(a, RabbitMQ(leaf)) == Field(b, RabbitMQ(leaf));
    }
    RabbitMQFieldsDetermine(a.rabbitMQ, b.rabbitMQ);
    forall leaf: RedisKey ensures RedisField(a.redis, leaf) == RedisField(b.redis, leaf) {
      assert Field(a, Redis(leaf)) == Field(b, Redis(leaf));
    }
    RedisFieldsDetermine(a.redis, b.redis);
  }

  lemma FieldKind(c: Config, k: Key)
    ensures KindOf(Field(c, k)) == KeyKind(k)
  {
    match k
    case User(leaf) => {
      match leaf
      case HostUid =>
      case HostGid =>
    }
    case General(leaf) => {
      match leaf
      case Env =>
      case Tz =>
    }
    case Log(leaf) => {
      match leaf
      case Level =>
    }
    case Api(leaf) => {
      match leaf
      case ApiHost =>
      case ApiPort =>
      case RateLimit =>
      case ReadTimeout =>
      case WriteTimeout =>
      case IdleTimeout =>
      case MaxBodySize =>
    }
    case Cors(leaf) => {
      match leaf
      case AllowedOrigins =>
      case AllowedMethods =>
      case AllowedHeaders =>
      case ExposedHeaders =>
      case AllowCredentials =>
    }
    case Db(leaf) => {
      match leaf
      case DbDriver =>
      case DbHost =>
      case DbPort =>
      case DbUser =>
      case DbPassword =>
      case DbName =>
      case SslMode =>
      case MaxOpenConns =>
      case MaxIdleConns =>
      case ConnMaxLifetime =>
      case ConnMaxIdleTime =>
      case QueryTimeout =>
      case ExecTimeout =>
    }
    case Goose(leaf) => {
      match leaf
      case GooseDriver =>
      case MigrationDir =>
      case DbString =>
    }
    case RabbitMQ(leaf) => {
      match leaf
      case RabbitHost =>
      case RabbitPort =>
      case RabbitUser =>
      case RabbitPassword =>
      case VHost =>
    }
    case Redis(leaf) => {
      match leaf
      case RedisHost =>
      case RedisPort =>
      case RedisPassword =>
      case RedisDb =>
      case RedisReadTimeout =>
      case RedisWriteTimeout =>
    }
  }

  lemma UserStageKeys()
    ensures forall k: Key | k in DefaultsThroughUser :: k.User?
  {
  }

  lemma UserStageEntry(leaf: UserKey)
    ensures User(leaf) in DefaultsThroughUser && DefaultsThroughUser[User(leaf)] == UserField(DefaultConfig.user, leaf)
  {
    match leaf
    case HostUid =>
    case HostGid =>
  }

  /** The `general` calls leave every other key as it was. */
  lemma GeneralStageFrame()
    ensures forall k: Key | !k.General? :: (k in DefaultsThroughGeneral <==> k in DefaultsThroughUser) && (k in DefaultsThroughUser ==> DefaultsThroughGeneral[k] == DefaultsThroughUser[k])
  {
  }

  lemma GeneralStageEntry(leaf: GeneralKey)
    ensures General(leaf) in DefaultsThroughGeneral && DefaultsThroughGeneral[General(leaf)] == GeneralField(DefaultConfig.general, leaf)
  {
    match leaf
    case Env =>
    case Tz =>
  }

  /** The `logger` calls leave every other key as it was. */
  lemma LogStageFrame()
    ensures forall k: Key | !k.Log? :: (k in DefaultsThroughLog <==> k in DefaultsThroughGeneral) && (k in DefaultsThroughGeneral ==> DefaultsThroughLog[k] == DefaultsThroughGeneral[k])
  {
  }

  lemma LogStageEntry(leaf: LoggerKey)
    ensures Log(leaf) in DefaultsThroughLog && DefaultsThroughLog[Log(leaf)] == LogField(DefaultConfig.logger, leaf)
  {
    match leaf
    case Level =>
  }

  /** The `server.api` calls leave every other key as it was. */
  lemma ApiStageFrame()
    ensures forall k: Key | !k.Api? :: (k in DefaultsThroughApi <==> k in DefaultsThroughLog) && (k in DefaultsThroughLog ==> DefaultsThroughApi[k] == DefaultsThroughLog[k])
  {
  }

  lemma ApiStageEntry(leaf: ApiKey)
    ensures Api(leaf) in DefaultsThroughApi && DefaultsThroughApi[Api(leaf)] == ApiField(DefaultConfig.server.api, leaf)
  {
    match leaf
    case ApiHost =>
    case ApiPort =>
    case RateLimit =>
    case ReadTimeout =>
    case WriteTimeout =>
    case IdleTimeout =>
    case MaxBodySize =>
  }

  /** The `server.cors` calls leave every other key as it was. */
  lemma CorsStageFrame()
    ensures forall k: Key | !k.Cors? :: (k in DefaultsThroughCors <==> k in DefaultsThroughApi) && (k in DefaultsThroughApi ==> DefaultsThroughCors[k] == DefaultsThroughApi[k])
  {
  }

  lemma CorsStageEntry(leaf: CorsKey)
    ensures Cors(leaf) in DefaultsThroughCors && DefaultsThroughCors[Cors(leaf)] == CorsField(DefaultConfig.server.cors, leaf)
  {
    match leaf
    case AllowedOrigins =>
    case AllowedMethods =>
    case AllowedHeaders =>
    case ExposedHeaders =>
    case AllowCredentials =>
  }

  /** The `db` calls leave every other key as it was. */
  lemma DbStageFrame()
    ensures forall k: Key | !k.Db? :: (k in DefaultsThroughDb <==> k in DefaultsThroughCors) && (k in DefaultsThroughCors ==> DefaultsThroughDb[k] == DefaultsThroughCors[k])
  {
  }

  lemma DbStageEntry(leaf: DbKey)
    ensures Db(leaf) in DefaultsThroughDb && DefaultsThroughDb[Db(leaf)] == DbField(DefaultConfig.db, leaf)
  {
    match leaf
    case DbDriver =>
    case DbHost =>
    case DbPort =>
    case DbUser =>
    case DbPassword =>
    case DbName =>
    case SslMode =>
    case MaxOpenConns =>
    case MaxIdleConns =>
    case ConnMaxLifetime =>
    case ConnMaxIdleTime =>
    case QueryTimeout =>
    case ExecTimeout =>
  }

  /** The `goose` calls leave every other key as it was. */
  lemma GooseStageFrame()
    ensures forall k: Key | !k.Goose? :: (k in DefaultsThroughGoose <==> k in DefaultsThroughDb) && (k in DefaultsThroughDb ==> DefaultsThroughGoose[k] == DefaultsThroughDb[k])
  {
  }

  lemma GooseStageEntry(leaf: GooseKey)
    ensures Goose(leaf) in DefaultsThroughGoose && DefaultsThroughGoose[Goose(leaf)] == GooseField(DefaultConfig.goose, leaf)
  {
    match leaf
    case GooseDriver =>
    case MigrationDir =>
    case DbString =>
  }

  /** The `rabbitmq` calls leave every other key as it was. */
  lemma RabbitMQStageFrame()
    ensures forall k: Key | !k.RabbitMQ? :: (k in DefaultsThroughRabbitMQ <==> k in DefaultsThroughGoose) && (k in DefaultsThroughGoose ==> DefaultsThroughRabbitMQ[k] == DefaultsThroughGoose[k])
  {
  }

  lemma RabbitMQStageEntry(leaf: RabbitKey)
    ensures RabbitMQ(leaf) in DefaultsThroughRabbitMQ && DefaultsThroughRabbitMQ[RabbitMQ(leaf)] == RabbitMQField(DefaultConfig.rabbitMQ, leaf)
  {
    match leaf
    case RabbitHost =>
    case RabbitPort =>
    case RabbitUser =>
    case RabbitPassword =>
    case VHost =>
  }

  /** The `redis` calls leave every other key as it was. */
  lemma RedisStageFrame()
    ensures forall k: Key | !k.Redis? :: (k in DefaultsThroughRedis <==> k in DefaultsThroughRabbitMQ) && (k in DefaultsThroughRabbitMQ ==> DefaultsThroughRedis[k] == DefaultsThroughRabbitMQ[k])
  {
  }

  lemma RedisStageEntry(leaf: RedisKey)
    ensures Redis(leaf) in DefaultsThroughRedis && DefaultsThroughRedis[Redis(leaf)] == RedisField(DefaultConfig.redis, leaf)
  {
    match leaf
    case RedisHost =>
    case RedisPort =>
    case RedisPassword =>
    case RedisDb =>
    case RedisReadTimeout =>
    case RedisWriteTimeout =>
  }

  lemma UserInDefaultTable(leaf: UserKey)
    ensures User(leaf) in DefaultTable && DefaultTable[User(leaf)] == UserField(DefaultConfig.user, leaf)
  {
    UserStageEntry(leaf);
    GeneralStageFrame();
    LogStageFrame();
    ApiStageFrame();
    CorsStageFrame();
    DbStageFrame();
    GooseStageFrame();
    RabbitMQStageFrame();
    RedisStageFrame();
  }

  lemma GeneralInDefaultTable(leaf: GeneralKey)
    ensures General(leaf) in DefaultTable && DefaultTable[General(leaf)] == GeneralField(DefaultConfig.general, leaf)
  {
    GeneralStageEntry(leaf);
    LogStageFrame();
    ApiStageFrame();
    CorsStageFrame();
    DbStageFrame();
    GooseStageFrame();
    RabbitMQStageFrame();
    RedisStageFrame();
  }

  lemma LogInDefaultTable(leaf: LoggerKey)
    ensures Log(leaf) in DefaultTable && DefaultTable[Log(leaf)] == LogField(DefaultConfig.logger, leaf)
  {
    LogStageEntry(leaf);
    ApiStageFrame();
    CorsStageFrame();
    DbStageFrame();
    GooseStageFrame();
    RabbitMQStageFrame();
    RedisStageFrame();
  }

  lemma ApiInDefaultTable(leaf: ApiKey)
    ensures Api(leaf) in DefaultTable && DefaultTable[Api(leaf)] == ApiField(DefaultConfig.server.api, leaf)
  {
    ApiStageEntry(leaf);
    CorsStageFrame();
    DbStageFrame();
    GooseStageFrame();
    RabbitMQStageFrame();
    RedisStageFrame();
  }

  lemma CorsInDefaultTable(leaf: CorsKey)
    ensures Cors(leaf) in DefaultTable && DefaultTable[Cors(leaf)] == CorsField(DefaultConfig.server.cors, leaf)
  {
    CorsStageEntry(leaf);
    DbStageFrame();
    GooseStageFrame();
    RabbitMQStageFrame();
    RedisStageFrame();
  }

  lemma DbInDefaultTable(leaf: DbKey)
    ensures Db(leaf) in DefaultTable && DefaultTable[Db(leaf)] == DbField(DefaultConfig.db, leaf)
  {
    DbStageEntry(leaf);
    GooseStageFrame();
    RabbitMQStageFrame();
    RedisStageFrame();
  }

  lemma GooseInDefaultTable(leaf: GooseKey)
    ensures Goose(leaf) in DefaultTable && DefaultTable[Goose(leaf)] == GooseField(DefaultConfig.goose, leaf)
  {
    GooseStageEntry(leaf);
    RabbitMQStageFrame();
    RedisStageFrame();
  }

  lemma RabbitMQInDefaultTable(leaf: RabbitKey)
    ensures RabbitMQ(leaf) in DefaultTable && DefaultTable[RabbitMQ(leaf)] == RabbitMQField(DefaultConfig.rabbitMQ, leaf)
  {
    RabbitMQStageEntry(leaf);
    RedisStageFrame();
  }

  lemma RedisInDefaultTable(leaf: RedisKey)
    ensures Redis(leaf) in DefaultTable && DefaultTable[Redis(leaf)] == RedisField(DefaultConfig.redis, leaf)
  {
    RedisStageEntry(leaf);
  }

  /** Every key has a default, and it is that key's field of `DefaultConfig`. */
  lemma DefaultTableEntry(k: Key)
    ensures k in DefaultTable && DefaultTable[k] == Field(DefaultConfig, k)
  {
    match k
    case User(leaf) => UserInDefaultTable(leaf);
    case General(leaf) => GeneralInDefaultTable(leaf);
    case Log(leaf) => LogInDefaultTable(leaf);
    case Api(leaf) => ApiInDefaultTable(leaf);
    case Cors(leaf) => CorsInDefaultTable(leaf);
    case Db(leaf) => DbInDefaultTable(leaf);
    case Goose(leaf) => GooseInDefaultTable(leaf);
    case RabbitMQ(leaf) => RabbitMQInDefaultTable(leaf);
    case Redis(leaf) => RedisInDefaultTable(leaf);
  }

  /**
    viper's Unmarshal: decoding visits the fields in the order of the struct
    and fails on the first setting whose kind does not fit its field. It
    succeeds exactly when every setting fits its field; a successful decode
    puts every setting into its field and leaves the field of an absent key at
    its zero value.
  */
  function Unmarshal(s: map<Key, Value>): (r: Result<Config, ConfigError>)
    ensures r.Success? <==> WellKinded(s)
    ensures r.Success? ==> forall k: Key :: Field(r.value, k) == Lookup(s, k)
    ensures r.Failure? ==> r.error.UnmarshalError? && !Decodable(s, r.error.key)
  {
    match FirstUndecodable(s, FieldOrder)
    case Some(k) => Failure(UnmarshalError(k))
    case None =>
      assert WellKinded(s) by {
        forall k: Key ensures Decodable(s, k) {
          FieldOrderCovers(k);
        }
      }
      BuildFields(s);
      Success(Build(s))
  }

  /** The settings table of a configuration: every key, holding its field. */
  function Table(c: Config): (s: map<Key, Value>)
    ensures forall k: Key :: k in s && s[k] == Field(c, k)
  {
    var s := map k | k in FieldOrder :: Field(c, k);
    assert forall k: Key :: k in s by {
      forall k: Key ensures k in s {
        FieldOrderCovers(k);
      }
    }
    s
  }

  /** Decoding the settings table of a configuration gives that configuration back. */
  lemma UnmarshalTable(c: Config)
    ensures Unmarshal(Table(c)) == Success(c)
  {
    var s := Table(c);
    forall k: Key ensures Decodable(s, k) {
      FieldKind(c, k);
    }
    var r := Unmarshal(s);
    FieldsDetermine(r.value, c);
  }

  /** The default table is the settings table of `DefaultConfig`. */
  lemma DefaultTableIsTable()
    ensures DefaultTable == Table(DefaultConfig)
  {
    forall k: Key ensures k in DefaultTable && DefaultTable[k] == Table(DefaultConfig)[k] {
      DefaultTableEntry(k);
    }
  }

  /**
    With neither a config file nor environment overrides, decoding the default
    table yields `DefaultConfig`; in particular these API defaults.
  */
  lemma DefaultApiSettings()
    ensures var r := Unmarshal(DefaultTable);
      && r.Success?
      && r.value.server.api.host == "0.0.0.0"
      && r.value.server.api.port == 8080
      && r.value.server.api.rateLimit == 100
      && r.value.server.api.readTimeout == 5 * Second
      && r.value.server.api.writeTimeout == 10 * Second
      && r.value.server.api.idleTimeout == 120 * Second
      && r.value.server.api.maxBodySize == 1048576
  {
    DefaultTableIsTable();
    UnmarshalTable(DefaultConfig);
  }

  lemma DefaultCorsSettings()
    ensures var r := Unmarshal(DefaultTable);
      && r.Success?
      && r.value.server.cors.allowedOrigins == ["*"]
      && r.value.server.cors.allowedMethods == ["GET", "POST"]
      && r.value.server.cors.allowedHeaders == ["Content-Type", "Authorization"]
      && r.value.server.cors.exposedHeaders == []
      && r.value.server.cors.allowCredentials
  {
    DefaultTableIsTable();
    UnmarshalTable(DefaultConfig);
  }

  /** The default pool keeps at most as many idle connections as it may open. */
  lemma DefaultDbPoolSettings()
    ensures var r := Unmarshal(DefaultTable);
      && r.Success?
      && r.value.db.maxOpenConns == 10
      && r.value.db.maxIdleConns == 5
      && r.value.db.maxIdleConns <= r.value.db.maxOpenConns
      && r.value.db.connMaxLifetime == 1 * Hour
      && r.value.db.connMaxIdleTime == 10 * Minute
      && r.value.db.queryTimeout == 5 * Second
      && r.value.db.execTimeout == 3 * Second
  {
    DefaultTableIsTable();
    UnmarshalTable(DefaultConfig);
  }

  lemma DefaultLoggerLevel()
    ensures var r := Unmarshal(DefaultTable);
      r.Success? && r.value.logger.level == "info"
  {
    DefaultTableIsTable();
    UnmarshalTable(DefaultConfig);
  }

  // ---------------------------------------------------------------------
  // Order of the SetDefault calls
  // ---------------------------------------------------------------------

  datatype Setting = Setting(key: Key, value: Value)

  /** The default table after `SetDefault` is called with each setting in turn. */
  function ApplyDefaults(m: map<Key, Value>, calls: seq<Setting>): (r: map<Key, Value>)
    decreases |calls|
    ensures r.Keys == m.Keys + set i | 0 <= i < |calls| :: calls[i].key
  {
    if calls == [] then m
    else ApplyDefaults(m[calls[0].key := calls[0].value], calls[1..])
  }

  ghost predicate DistinctKeys(calls: seq<Setting>) {
    forall i, j | 0 <= i < j < |calls| :: calls[i].key != calls[j].key
  }

  /**
    When no key is set twice, each call's key ends up with that call's value
    and every other key keeps the value it had.
  */
  lemma {:induction false} ApplyDistinct(m: map<Key, Value>, calls: seq<Setting>)
    requires DistinctKeys(calls)
    decreases |calls|
    ensures forall i | 0 <= i < |calls| ::
      calls[i].key in ApplyDefaults(m, calls) && ApplyDefaults(m, calls)[calls[i].key] == calls[i].value
    ensures forall k | (forall i | 0 <= i < |calls| :: calls[i].key != k) ::
      (k in ApplyDefaults(m, calls) <==> k in m) && (k in m ==> ApplyDefaults(m, calls)[k] == m[k])
  {
    if calls != [] {
      var m' := m[calls[0].key := calls[0].value];
      var rest := calls[1..];
      assert DistinctKeys(rest) by {
        forall i, j | 0 <= i < j < |rest| ensures rest[i].key != rest[j].key {
          assert rest[i] == calls[i + 1] && rest[j] == calls[j + 1];
        }
      }
      ApplyDistinct(m', rest);
      forall i | 0 <= i < |calls|
        ensures calls[i].key in ApplyDefaults(m, calls) && ApplyDefaults(m, calls)[calls[i].key] == calls[i].value
      {
        if i > 0 {
          assert rest[i - 1] == calls[i];
        } else {
          forall j | 0 <= j < |rest| ensures rest[j].key != calls[0].key {
            assert rest[j] == calls[j + 1];
          }
        }
      }
      forall k | (forall i | 0 <= i < |calls| :: calls[i].key != k)
        ensures (k in ApplyDefaults(m, calls) <==> k in m) && (k in m ==> ApplyDefaults(m, calls)[k] == m[k])
      {
        assert calls[0].key != k;
        forall j | 0 <= j < |rest| ensures rest[j].key != k {
          assert rest[j] == calls[j + 1];
        }
      }
    }
  }

  /**
    When every key is set exactly once, the order of the `SetDefault` calls
    does not matter: calling it with the entries of `table` in any order, each
    key once, overlays `table` on the starting defaults.
  */
  lemma AnyOrderGivesTable(m: map<Key, Value>, calls: seq<Setting>, table: map<Key, Value>)
    requires DistinctKeys(calls)
    requires forall i | 0 <= i < |calls| :: calls[i].key in table && calls[i].value == table[calls[i].key]
    requires forall k | k in table :: exists i | 0 <= i < |calls| :: calls[i].key == k
    ensures ApplyDefaults(m, calls) == m + table
  {
    ApplyDistinct(m, calls);
    var a := ApplyDefaults(m, calls);
    var b := m + table;
    forall k ensures (k in a <==> k in b) && (k in a ==> a[k] == b[k]) {
      if k in table {
        var i :| 0 <= i < |calls| && calls[i].key == k;
      }
    }
    assert a == b;
  }

  /** In a list of calls that sets no key twice, no call occurs twice. */
  lemma {:induction false} DistinctCountsOnce(calls: seq<Setting>, x: Setting)
    requires DistinctKeys(calls)
    decreases |calls|
    ensures multiset(calls)[x] <= 1
  {
    if calls != [] {
      var rest := calls[1..];
      assert calls == [calls[0]] + rest;
      assert DistinctKeys(rest) by {
        forall i, j | 0 <= i < j < |rest| ensures rest[i].key != rest[j].key {
          assert rest[i] == calls[i + 1] && rest[j] == calls[j + 1];
        }
      }
      DistinctCountsOnce(rest, x);
      forall j | 0 <= j < |rest| ensures rest[j] != calls[0] {
        assert rest[j] == calls[j + 1];
      }
    }
  }

  /** A call that occurs at most once is different from every later call. */
  lemma OnceMeansNoRepeat(calls: seq<Setting>, i: int, j: int)
    requires 0 <= i < j < |calls|
    requires multiset(calls)[calls[i]] <= 1
    ensures calls[i] != calls[j]
  {
    assert calls == calls[..j] + [calls[j]] + calls[j + 1..];
    assert calls[..j][i] == calls[i];
  }

  /** Reordering calls that set no key twice gives calls that set no key twice. */
  lemma PermutationKeepsDistinct(calls: seq<Setting>, reordered: seq<Setting>)
    requires DistinctKeys(calls)
    requires multiset(calls) == multiset(reordered)
    ensures DistinctKeys(reordered)
  {
    forall i, j | 0 <= i < j < |reordered| ensures reordered[i].key != reordered[j].key {
      assert reordered[i] in multiset(calls) && reordered[j] in multiset(calls);
      var a :| 0 <= a < |calls| && calls[a] == reordered[i];
      var b :| 0 <= b < |calls| && calls[b] == reordered[j];
      DistinctCountsOnce(calls, reordered[i]);
      OnceMeansNoRepeat(reordered, i, j);
    }
  }

  /** Two orders of the same calls, no key set twice, give the same defaults. */
  lemma OrderIrrelevant(m: map<Key, Value>, calls: seq<Setting>, reordered: seq<Setting>)
    requires DistinctKeys(calls)
    requires multiset(calls) == multiset(reordered)
    ensures ApplyDefaults(m, calls) == ApplyDefaults(m, reordered)
  {
    PermutationKeepsDistinct(calls, reordered);
    var table := ApplyDefaults(map[], calls);
    ApplyDistinct(map[], calls);
    forall k | k in table ensures exists i | 0 <= i < |calls| :: calls[i].key == k {
    }
    forall i | 0 <= i < |reordered|
      ensures reordered[i].key in table && reordered[i].value == table[reordered[i].key]
    {
      assert reordered[i] in multiset(calls);
      var j :| 0 <= j < |calls| && calls[j] == reordered[i];
    }
    forall k | k in table ensures exists i | 0 <= i < |reordered| :: reordered[i].key == k {
      var j :| 0 <= j < |calls| && calls[j].key == k;
      assert calls[j] in multiset(reordered);
      var i :| 0 <= i < |reordered| && reordered[i] == calls[j];
    }
    AnyOrderGivesTable(m, calls, table);
    AnyOrderGivesTable(m, reordered, table);
  }

  /**
    The 44 `SetDefault` calls of `LoadConfig` in the order the source makes
    them, which is the order of the fields, each with its key's default.
  */
  const DefaultCalls: seq<Setting> :=
    seq(|FieldOrder|, i requires 0 <= i < |FieldOrder| => Setting(FieldOrder[i], Field(DefaultConfig, FieldOrder[i])))

  /** `LoadConfig` sets no key twice. */
  lemma DefaultCallsDistinct()
    ensures DistinctKeys(DefaultCalls)
  {
    FieldOrderDistinct();
  }

  /** Each call sets its key to that key's entry of the default table, and every key is set. */
  lemma DefaultCallsCoverTable()
    ensures forall i | 0 <= i < |DefaultCalls| ::
      DefaultCalls[i].key in DefaultTable && DefaultCalls[i].value == DefaultTable[DefaultCalls[i].key]
    ensures forall k | k in DefaultTable :: exists i | 0 <= i < |DefaultCalls| :: DefaultCalls[i].key == k
  {
    forall i | 0 <= i < |DefaultCalls|
      ensures DefaultCalls[i].key in DefaultTable && DefaultCalls[i].value == DefaultTable[DefaultCalls[i].key]
    {
      DefaultTableEntry(FieldOrder[i]);
    }
    forall k | k in DefaultTable ensures exists i | 0 <= i < |DefaultCalls| :: DefaultCalls[i].key == k {
      FieldOrderCovers(k);
      assert DefaultCalls[KeyIndex(k)].key == k;
    }
  }

  /** Made in the source's order, the calls build the default table. */
  lemma DefaultCallsBuildTable()
    ensures ApplyDefaults(map[], DefaultCalls) == DefaultTable
  {
    DefaultCallsDistinct();
    DefaultCallsCoverTable();
    AnyOrderGivesTable(map[], DefaultCalls, DefaultTable);
    OverlayNothing(DefaultTable);
  }

  /** The same calls made in any other order build the same default table. */
  lemma DefaultsInAnyOrder(reordered: seq<Setting>)
    requires multiset(reordered) == multiset(DefaultCalls)
    ensures ApplyDefaults(map[], reordered) == DefaultTable
  {
    DefaultCallsDistinct();
    OrderIrrelevant(map[], DefaultCalls, reordered);
    DefaultCallsBuildTable();
  }

  // ---------------------------------------------------------------------
  // The viper instance and LoadConfig
  // ---------------------------------------------------------------------

  /** The two layers of a viper instance this model keeps: defaults, and values read from the config file. */
  class Viper {
    var defaults: map<Key, Value>
    var config: map<Key, Value>

    constructor ()
      ensures defaults == map[] && config == map[]
    {
      defaults := map[];
      config := map[];
    }

    method SetDefault(key: Key, value: Value)
      modifies this
      ensures defaults == old(defaults)[key := value]
      ensures unchanged(this`config)
    {
      defaults := defaults[key := value];
    }

    /** The effect of a successful ReadInConfig: the file's values replace the config layer. */
    method SetConfigValues(values: map<Key, Value>)
      modifies this
      ensures config == values
      ensures unchanged(this`defaults)
    {
      config := values;
    }

    /** The effective settings: a value from the config file wins over the default. */
    function AllSettings(): (s: map<Key, Value>)
      reads this
      ensures s.Keys == defaults.Keys + config.Keys
      ensures forall k | k in config :: s[k] == config[k]
      ensures forall k | k in defaults && k !in config :: s[k] == defaults[k]
    {
      defaults + config
    }
  }

  /** What ReadInConfig reports. */
  datatype ReadOutcome =
    | ConfigFileFound(values: map<Key, Value>)
    | ConfigFileNotFound
    | ReadFailed(reason: string)

  /**
    Decoding the defaults with a config file's settings laid over them: where
    it succeeds, a key the file sets holds the file's value and every other
    key keeps its default.
  */
  lemma FileOverridesDefaults(values: map<Key, Value>)
    ensures var r := Unmarshal(DefaultTable + values);
      r.Success? ==> forall k: Key ::
        Field(r.value, k) == if k in values then values[k] else Field(DefaultConfig, k)
  {
    forall k: Key ensures k in DefaultTable && DefaultTable[k] == Field(DefaultConfig, k) {
      DefaultTableEntry(k);
    }
  }

  /**
    A config file can only break decoding by giving a key a value of the wrong
    kind: a file whose every value fits its key decodes.
  */
  lemma WellKindedFileDecodes(values: map<Key, Value>)
    requires forall k | k in values :: KindOf(values[k]) == KeyKind(k)
    ensures Unmarshal(DefaultTable + values).Success?
  {
    forall k: Key ensures Decodable(DefaultTable + values, k) {
      DefaultTableEntry(k);
      FieldKind(DefaultConfig, k);
    }
  }

  /** Overlaying no settings changes nothing. */
  lemma OverlayNothing(m: map<Key, Value>)
    ensures m + map[] == m && map[] + m == m
  {
  }

  /** The `SetDefault` calls for the `user` keys, the first ones made on the fresh instance. */
  method SetUserDefaults(v: Viper)
    requires v.defaults == map[]
    modifies v
    ensures v.defaults == DefaultsThroughUser
    ensures unchanged(v`config)
  {
    v.SetDefault(User(HostUid), IntValue(1000));
    v.SetDefault(User(HostGid), IntValue(1000));
  }

  /** The `SetDefault` calls for the `general` keys, made after those of the sections before. */
  method SetGeneralDefaults(v: Viper)
    requires v.defaults == DefaultsThroughUser
    modifies v
    ensures v.defaults == DefaultsThroughGeneral
    ensures unchanged(v`config)
  {
    v.SetDefault(General(Env), StringValue("development"));
    v.SetDefault(General(Tz), StringValue("UTC"));
  }

  /** The `SetDefault` calls for the `logger` keys, made after those of the sections before. */
  method SetLogDefaults(v: Viper)
    requires v.defaults == DefaultsThroughGeneral
    modifies v
    ensures v.defaults == DefaultsThroughLog
    ensures unchanged(v`config)
  {
    v.SetDefault(Log(Level), StringValue("info"));
  }

  /** The `SetDefault` calls for the `server.api` keys, made after those of the sections before. */
  method SetApiDefaults(v: Viper)
    requires v.defaults == DefaultsThroughLog
    modifies v
    ensures v.defaults == DefaultsThroughApi
    ensures unchanged(v`config)
  {
    v.SetDefault(Api(ApiHost), StringValue("0.0.0.0"));
    v.SetDefault(Api(ApiPort), IntValue(8080));
    v.SetDefault(Api(RateLimit), IntValue(100));
    v.SetDefault(Api(ReadTimeout), DurationValue(5 * Second));
    v.SetDefault(Api(WriteTimeout), DurationValue(10 * Second));
    v.SetDefault(Api(IdleTimeout), DurationValue(120 * Second));
    v.SetDefault(Api(MaxBodySize), IntValue(1048576));
  }

  /** The `SetDefault` calls for the `server.cors` keys, made after those of the sections before. */
  method SetCorsDefaults(v: Viper)
    requires v.defaults == DefaultsThroughApi
    modifies v
    ensures v.defaults == DefaultsThroughCors
    ensures unchanged(v`config)
  {
    v.SetDefault(Cors(AllowedOrigins), ListValue(["*"]));
    v.SetDefault(Cors(AllowedMethods), ListValue(["GET", "POST"]));
    v.SetDefault(Cors(AllowedHeaders), ListValue(["Content-Type", "Authorization"]));
    v.SetDefault(Cors(ExposedHeaders), ListValue([]));
    v.SetDefault(Cors(AllowCredentials), BoolValue(true));
  }

  /** The `SetDefault` calls for the `db` keys, made after those of the sections before. */
  method SetDbDefaults(v: Viper)
    requires v.defaults == DefaultsThroughCors
    modifies v
    ensures v.defaults == DefaultsThroughDb
    ensures unchanged(v`config)
  {
    v.SetDefault(Db(DbDriver), StringValue("postgres"));
    v.SetDefault(Db(DbHost), StringValue("localhost"));
    v.SetDefault(Db(DbPort), IntValue(5432));
    v.SetDefault(Db(DbUser), StringValue("user"));
    v.SetDefault(Db(DbPassword), StringValue("password"));
    v.SetDefault(Db(DbName), StringValue("app"));
    v.SetDefault(Db(SslMode), StringValue("disable"));
    v.SetDefault(Db(MaxOpenConns), IntValue(10));
    v.SetDefault(Db(MaxIdleConns), IntValue(5));
    v.SetDefault(Db(ConnMaxLifetime), DurationValue(1 * Hour));
    v.SetDefault(Db(ConnMaxIdleTime), DurationValue(10 * Minute));
    v.SetDefault(Db(QueryTimeout), DurationValue(5 * Second));
    v.SetDefault(Db(ExecTimeout), DurationValue(3 * Second));
  }

  /** The `SetDefault` calls for the `goose` keys, made after those of the sections before. */
  method SetGooseDefaults(v: Viper)
    requires v.defaults == DefaultsThroughDb
    modifies v
    ensures v.defaults == DefaultsThroughGoose
    ensures unchanged(v`config)
  {
    v.SetDefault(Goose(GooseDriver), StringValue("postgres"));
    v.SetDefault(Goose(MigrationDir), StringValue("./db/migrations"));
    v.SetDefault(Goose(DbString), StringValue(""));
  }

  /** The `SetDefault` calls for the `rabbitmq` keys, made after those of the sections before. */
  method SetRabbitMQDefaults(v: Viper)
    requires v.defaults == DefaultsThroughGoose
    modifies v
    ensures v.defaults == DefaultsThroughRabbitMQ
    ensures unchanged(v`config)
  {
    v.SetDefault(RabbitMQ(RabbitHost), StringValue("localhost"));
    v.SetDefault(RabbitMQ(RabbitPort), IntValue(5672));
    v.SetDefault(RabbitMQ(RabbitUser), StringValue("guest"));
    v.SetDefault(RabbitMQ(RabbitPassword), StringValue("guest"));
    v.SetDefault(RabbitMQ(VHost), StringValue("/"));
  }

  /** The `SetDefault` calls for the `redis` keys, made after those of the sections before. */
  method SetRedisDefaults(v: Viper)
    requires v.defaults == DefaultsThroughRabbitMQ
    modifies v
    ensures v.defaults == DefaultsThroughRedis
    ensures unchanged(v`config)
  {
    v.SetDefault(Redis(RedisHost), StringValue("localhost"));
    v.SetDefault(Redis(RedisPort), IntValue(6379));
    v.SetDefault(Redis(RedisPassword), StringValue(""));
    v.SetDefault(Redis(RedisDb), IntValue(0));
    v.SetDefault(Redis(RedisReadTimeout), DurationValue(3 * Second));
    v.SetDefault(Redis(RedisWriteTimeout), DurationValue(3 * Second));
  }

  /** `viper.New()` followed by the 44 `SetDefault` calls of `LoadConfig`, in the source's order. */
  method NewDefaultViper() returns (v: Viper)
    ensures fresh(v)
    ensures v.defaults == DefaultTable && v.config == map[]
  {
    v := new Viper();
    SetUserDefaults(v);
    SetGeneralDefaults(v);
    SetLogDefaults(v);
    SetApiDefaults(v);
    SetCorsDefaults(v);
    SetDbDefaults(v);
    SetGooseDefaults(v);
    SetRabbitMQDefaults(v);
    SetRedisDefaults(v);
  }

  /**
    LoadConfig: register the defaults, read the config file, decode. A missing
    file is tolerated and loading goes on with the defaults alone; any other
    read failure is returned as it is, with no configuration; a decoding
    failure is returned with no configuration; otherwise the decoded
    configuration is returned.
  */
  method LoadConfig(read: ReadOutcome) returns (r: Result<Config, ConfigError>)
    ensures read.ReadFailed? ==> r == Failure(ReadError(read.reason))
    ensures read.ConfigFileNotFound? ==> r == Success(DefaultConfig)
    ensures read.ConfigFileFound? ==> r == Unmarshal(DefaultTable + read.values)
    ensures read.ConfigFileFound? && r.Success? ==> forall k: Key ::
      Field(r.value, k) == if k in read.values then read.values[k] else Field(DefaultConfig, k)
    ensures r.Failure? ==> read.ReadFailed? || (read.ConfigFileFound? && r.error.UnmarshalError?)
  {
    var v := NewDefaultViper();
    match read {
      case ReadFailed(reason) =>
        return Failure(ReadError(reason));
      case ConfigFileNotFound =>
      case ConfigFileFound(values) =>
        v.SetConfigValues(values);
    }
    var settings := v.AllSettings();
    r := Unmarshal(settings);
    match read {
      case ConfigFileNotFound =>
        OverlayNothing(DefaultTable);
        DefaultTableIsTable();
        UnmarshalTable(DefaultConfig);
      case ConfigFileFound(values) =>
        FileOverridesDefaults(values);
    }
  }

}
/** The configuration wizard's printer: the lines of the file for a configuration, and the method that grows
    them as one string. */
module Wizard {
  import opened Basics
  import opened Toml
  import opened TomlDocument

  // ---------- the configuration ----------

  datatype DeploymentMode = LocalDev | SingleNode | MultiNode | Custom

  datatype DatabaseConfig = NoDatabase | Sqlite(path: string) | Postgres(url: string)

  datatype CacheConfig = NoCache | Memory | Redis(url: string)

  datatype ProviderType = OpenAi | Anthropic | Bedrock | Vertex | AzureOpenAi | OpenRouter | Ollama

  datatype ProviderConfig = ProviderConfig(
    kind: ProviderType, name: string, apiKey: Option<string>, baseUrl: Option<string>,
    region: Option<string>, projectId: Option<string>)

  datatype OidcConfig = OidcConfig(issuer: string, clientId: string, clientSecret: string, redirectUri: string)

  datatype AuthModeConfig = NoAuth | ApiKey(prefix: string) | Idp(oidc: OidcConfig)

  datatype RateLimitConfig = RateLimitConfig(requests: Option<nat>, tokens: Option<nat>, concurrent: Option<nat>)

  /** Budgets are decimals; only the text they print as matters here. */
  datatype BudgetConfig = BudgetConfig(monthly: Option<string>, daily: Option<string>)

  datatype WizardConfig = WizardConfig(
    database: DatabaseConfig, cache: CacheConfig, providers: seq<ProviderConfig>, auth: AuthModeConfig,
    rates: RateLimitConfig, budget: BudgetConfig)

  function ConfigType(kind: ProviderType): string {
    match kind
    case OpenAi => "open_ai"
    case OpenRouter => "open_ai"
    case Ollama => "open_ai"
    case Anthropic => "anthropic"
    case Bedrock => "bedrock"
    case Vertex => "vertex"
    case AzureOpenAi => "azure_open_ai"
  }

  /** The configuration type of each kind of provider: three kinds speak the OpenAI protocol. */
  lemma ConfigTypes()
    ensures ConfigType(OpenAi) == ConfigType(OpenRouter) == ConfigType(Ollama) == "open_ai"
    ensures ConfigType(Anthropic) == "anthropic" && ConfigType(Bedrock) == "bedrock" && ConfigType(Vertex) == "vertex"
    ensures ConfigType(AzureOpenAi) == "azure_open_ai"
  {
  }

  // ---------- escaping ----------

  /** `str::replace` with a single character as its pattern. */
  function ReplaceChar(s: string, c: char, to: string): string {
    if s == [] then [] else (if s[0] == c then to else [s[0]]) + ReplaceChar(s[1..], c, to)
  }

  function EscapeTomlString(s: string): string {
    ReplaceChar(ReplaceChar(s, '\\', "\\\\"), '"', "\\\"")
  }

  lemma {:induction false} ReplaceConcat(a: string, b: string, c: char, to: string)
    ensures ReplaceChar(a + b, c, to) == ReplaceChar(a, c, to) + ReplaceChar(b, c, to)
  {
    if a == [] {
      assert a + b == b;
    } else {
      assert (a + b)[0] == a[0] && (a + b)[1..] == a[1..] + b;
      ReplaceConcat(a[1..], b, c, to);
    }
  }

  /** The two passes, in this order, escape each character once. */
  lemma {:induction false} EscapeOnce(s: string)
    ensures EscapeTomlString(s) == Escape(s)
  {
    if s != [] {
      var head := if s[0] == '\\' then "\\\\" else [s[0]];
      ReplaceConcat(head, ReplaceChar(s[1..], '\\', "\\\\"), '"', "\\\"");
      EscapeOnce(s[1..]);
      assert ReplaceChar(head, '"', "\\\"") == EscapeChar(s[0]) by {
        assert head[1..] == (if s[0] == '\\' then "\\" else "");
        assert "\\"[1..] == "";
      }
    }
  }

  // ---------- what is printed ----------

  // Each function below gives the lines of one part of the file, followed by the lines `rest`.

  type Script = List<Line>

  function Text(key: string, s: string): Line { Entry(key, Str(s)) }

  function OptText(key: string, o: Option<string>, rest: Script): Script {
    if o.Some? then Cons(Text(key, o.value), rest) else rest
  }

  function OptRaw(key: string, o: Option<string>, rest: Script): Script {
    if o.Some? then Cons(Raw(key, o.value), rest) else rest
  }

  function OptInt(key: string, o: Option<nat>, rest: Script): Script {
    if o.Some? then Cons(Entry(key, Int(o.value)), rest) else rest
  }

  function ModeName(mode: DeploymentMode): string {
    match mode
    case LocalDev => "local development"
    case SingleNode => "single-node production"
    case MultiNode => "multi-node production"
    case Custom => "custom"
  }

  function Preamble(mode: DeploymentMode, rest: Script): Script {
    Cons(Note("Hadrian AI Gateway Configuration"),
    Cons(Note("Generated by wizard - " + ModeName(mode) + " mode"),
    Cons(Gap, rest)))
  }

  function Loopback(mode: DeploymentMode, rest: Script): Script {
    if mode.LocalDev? then
      Cons(Note("Allow providers on localhost (e.g. Ollama)"), Cons(Entry("allow_loopback_urls", Bool(true)), rest))
    else rest
  }

  const ORIGINS := Strs(["http://localhost:8080", "http://127.0.0.1:8080"])

  function Cors(rest: Script): Script {
    Cons(Table(["server", "cors"]),
    Cons(Entry("enabled", Bool(true)),
    Cons(Entry("allowed_origins", ORIGINS),
    Cons(Entry("allow_credentials", Bool(true)),
    Cons(Gap, rest)))))
  }

  function Server(mode: DeploymentMode, rest: Script): Script {
    Cons(Table(["server"]),
    Cons(Text("host", "0.0.0.0"),
    Cons(Entry("port", Int(8080)),
    Loopback(mode, Cons(Gap, Cors(rest))))))
  }

  function Database(database: DatabaseConfig, rest: Script): Script {
    Cons(Table(["database"]),
    match database
    case NoDatabase => Cons(Text("type", "none"), Cons(Gap, rest))
    case Sqlite(path) => Cons(Text("type", "sqlite"), Cons(Text("path", path), Cons(Gap, rest)))
    case Postgres(url) => Cons(Text("type", "postgres"), Cons(Text("url", url), Cons(Gap, rest))))
  }

  function Cache(cache: CacheConfig, rest: Script): Script {
    Cons(Table(["cache"]),
    match cache
    case NoCache => Cons(Text("type", "none"), Cons(Gap, rest))
    case Memory => Cons(Text("type", "memory"), Cons(Gap, rest))
    case Redis(url) => Cons(Text("type", "redis"), Cons(Text("url", url), Cons(Gap, rest))))
  }

  function Ui(rest: Script): Script {
    Cons(Table(["ui"]), Cons(Entry("enabled", Bool(true)), Cons(Gap, rest)))
  }

  // Three notes are longer than the literals the verifier takes apart letter by letter, so each is written
  // as two halves.
  const SSO_NOTE := "Note: Per-org SSO is " + "configured via the admin API."
  const SECRET_NOTE := "Sessions are signed with this " + "256-bit secret. Override via the"
  const REPLICA_NOTE := "SESSION_SECRET env var in " + "multi-replica setups so every node"

  /** The identity provider's settings are printed as comments only. */
  function OidcNotes(oidc: OidcConfig, rest: Script): Script {
    Cons(Note(SSO_NOTE),
    Cons(Note("The OIDC settings below are for reference."),
    Cons(Note("issuer = " + Quote(oidc.issuer)),
    Cons(Note("client_id = " + Quote(oidc.clientId)),
    Cons(Note("client_secret = " + Quote(oidc.clientSecret)),
    Cons(Note("redirect_uri = " + Quote(oidc.redirectUri)),
    Cons(Gap, rest)))))))
  }

  function Session(secret: string, rest: Script): Script {
    Cons(Table(["auth", "session"]),
    Cons(Note(SECRET_NOTE),
    Cons(Note(REPLICA_NOTE),
    Cons(Note("accepts the others' cookies."),
    Cons(Raw("secret", secret),
    Cons(Gap, rest))))))
  }

  function Auth(auth: AuthModeConfig, secret: string, rest: Script): Script {
    Cons(Table(["auth", "mode"]),
    match auth
    case NoAuth => Cons(Text("type", "none"), Cons(Gap, rest))
    case ApiKey(prefix) =>
      Cons(Text("type", "api_key"), Cons(Gap,
      Cons(Table(["auth", "api_key"]), Cons(Text("key_prefix", prefix), Cons(Gap, rest)))))
    case Idp(oidc) => Cons(Text("type", "idp"), Cons(Gap, OidcNotes(oidc, Session(secret, rest)))))
  }

  predicate HasRates(rates: RateLimitConfig) {
    rates.requests.Some? || rates.tokens.Some? || rates.concurrent.Some?
  }

  predicate HasBudget(budget: BudgetConfig) { budget.monthly.Some? || budget.daily.Some? }

  function Rates(rates: RateLimitConfig, rest: Script): Script {
    if HasRates(rates) then
      Cons(Table(["limits", "rate_limits"]),
      OptInt("requests_per_minute", rates.requests,
      OptInt("tokens_per_minute", rates.tokens,
      OptInt("concurrent_requests", rates.concurrent,
      Cons(Gap, rest)))))
    else rest
  }

  function Budgets(budget: BudgetConfig, rest: Script): Script {
    if HasBudget(budget) then
      Cons(Table(["limits", "budgets"]),
      OptRaw("monthly_budget_usd", budget.monthly,
      OptRaw("daily_budget_usd", budget.daily,
      Cons(Gap, rest))))
    else rest
  }

  function Provider(p: ProviderConfig, rest: Script): Script {
    Cons(Table(["providers", p.name]),
    Cons(Text("type", ConfigType(p.kind)),
    OptText("api_key", p.apiKey,
    OptText("base_url", p.baseUrl,
    OptRaw("region", p.region,
    OptRaw("project_id", p.projectId,
    Cons(Gap, rest)))))))
  }

  function ProviderTables(providers: seq<ProviderConfig>): Script {
    if providers == [] then Nil else Provider(providers[0], ProviderTables(providers[1..]))
  }

  function Providers(providers: seq<ProviderConfig>): Script {
    if providers == [] then Nil
    else
      Cons(Table(["providers"]),
      Cons(Raw("default_provider", providers[0].name),
      Cons(Gap, ProviderTables(providers))))
  }

  /** Everything printed, in order. */
  function Whole(mode: DeploymentMode, cfg: WizardConfig, secret: string): Script {
    Preamble(mode, Server(mode, Database(cfg.database, Cache(cfg.cache, Ui(Auth(cfg.auth, secret,
      Rates(cfg.rates, Budgets(cfg.budget, Providers(cfg.providers)))))))))
  }

  /** The wizard's own way to write a string gives the line of the script. */
  lemma TextShown(key: string, s: string)
    ensures key + " = \"" + EscapeTomlString(s) + "\"\n" == Show(Text(key, s)) + "\n"
  {
    EscapeOnce(s);
    var escaped := Escape(s);
    assert key + " = " + ("\"" + escaped + "\"") + "\n" == key + " = \"" + escaped + "\"\n";
  }

  lemma Appended(a: string, b: string, c: string)
    ensures a + b + c == a + (b + c)
  {
  }

  // ---------- the printer ----------

  /** The growing `String`; `todo` is what is still to be pushed to reach the text `goal`. */
  class Output {
    var config: string
    ghost var todo: Script
    ghost var goal: string

    ghost predicate Valid()
      reads this
    {
      config + PrintAll(todo) == goal
    }

    constructor (ghost script: Script)
      ensures Valid() && todo == script && goal == PrintAll(script) && config == ""
    {
      config, todo, goal := "", script, PrintAll(script);
    }

    /** Pushes one line; it must be the next one of the script. */
    method Push(line: Line)
      requires Valid() && todo.Cons? && todo.head == line
      modifies this
      ensures Valid() && todo == old(todo.tail) && goal == old(goal)
      ensures config == old(config) + Show(line) + "\n"
    {
      config := config + Show(line) + "\n";
      todo := todo.tail;
      assert config + PrintAll(todo) == old(config) + (Show(line) + "\n" + PrintAll(todo));
    }

    /** Pushes a key with a quoted string, escaped as the wizard does it. */
    method PushText(key: string, s: string)
      requires Valid() && todo.Cons? && todo.head == Text(key, s)
      modifies this
      ensures Valid() && todo == old(todo.tail) && goal == old(goal)
      ensures config == old(config) + (key + " = \"" + EscapeTomlString(s) + "\"\n")
    {
      var line := key + " = \"" + EscapeTomlString(s) + "\"\n";
      TextShown(key, s);
      config := config + line;
      todo := todo.tail;
      Appended(old(config), line, PrintAll(todo));
    }

    method PushServer(mode: DeploymentMode, ghost rest: Script)
      requires Valid() && todo == Server(mode, rest)
      modifies this
      ensures Valid() && todo == rest && goal == old(goal)
    {
      Push(Table(["server"]));
      PushText("host", "0.0.0.0");
      Push(Entry("port", Int(8080)));
      if mode.LocalDev? {
        Push(Note("Allow providers on localhost (e.g. Ollama)"));
        Push(Entry("allow_loopback_urls", Bool(true)));
      }
      Push(Gap);
      Push(Table(["server", "cors"]));
      Push(Entry("enabled", Bool(true)));
      Push(Entry("allowed_origins", ORIGINS));
      Push(Entry("allow_credentials", Bool(true)));
      Push(Gap);
    }

    method PushDatabase(database: DatabaseConfig, ghost rest: Script)
      requires Valid() && todo == Database(database, rest)
      modifies this
      ensures Valid() && todo == rest && goal == old(goal)
    {
      Push(Table(["database"]));
      match database {
        case NoDatabase =>
          PushText("type", "none");
        case Sqlite(path) =>
          PushText("type", "sqlite");
          PushText("path", path);
        case Postgres(url) =>
          PushText("type", "postgres");
          PushText("url", url);
      }
      Push(Gap);
    }

    method PushCache(cache: CacheConfig, ghost rest: Script)
      requires Valid() && todo == Cache(cache, rest)
      modifies this
      ensures Valid() && todo == rest && goal == old(goal)
    {
      Push(Table(["cache"]));
      match cache {
        case NoCache =>
          PushText("type", "none");
        case Memory =>
          PushText("type", "memory");
        case Redis(url) =>
          PushText("type", "redis");
          PushText("url", url);
      }
      Push(Gap);
    }

    method PushOidc(oidc: OidcConfig, ghost rest: Script)
      requires Valid() && todo == OidcNotes(oidc, rest)
      modifies this
      ensures Valid() && todo == rest && goal == old(goal)
    {
      EscapeOnce(oidc.issuer);
      EscapeOnce(oidc.clientId);
      EscapeOnce(oidc.clientSecret);
      EscapeOnce(oidc.redirectUri);
      Push(Note(SSO_NOTE));
      Push(Note("The OIDC settings below are for reference."));
      Push(Note("issuer = " + ("\"" + EscapeTomlString(oidc.issuer) + "\"")));
      Push(Note("client_id = " + ("\"" + EscapeTomlString(oidc.clientId) + "\"")));
      Push(Note("client_secret = " + ("\"" + EscapeTomlString(oidc.clientSecret) + "\"")));
      Push(Note("redirect_uri = " + ("\"" + EscapeTomlString(oidc.redirectUri) + "\"")));
      Push(Gap);
    }

    method PushSession(secret: string, ghost rest: Script)
      requires Valid() && todo == Session(secret, rest)
      modifies this
      ensures Valid() && todo == rest && goal == old(goal)
    {
      Push(Table(["auth", "session"]));
      Push(Note(SECRET_NOTE));
      Push(Note(REPLICA_NOTE));
      Push(Note("accepts the others' cookies."));
      Push(Raw("secret", secret));
      Push(Gap);
    }

    method PushPrefix(prefix: string, ghost rest: Script)
      requires Valid() && todo == Cons(Table(["auth", "api_key"]), Cons(Text("key_prefix", prefix), Cons(Gap, rest)))
      modifies this
      ensures Valid() && todo == rest && goal == old(goal)
    {
      Push(Table(["auth", "api_key"]));
      PushText("key_prefix", prefix);
      Push(Gap);
    }

    method PushAuth(auth: AuthModeConfig, secret: string, ghost rest: Script)
      requires Valid() && todo == Auth(auth, secret, rest)
      modifies this
      ensures Valid() && todo == rest && goal == old(goal)
    {
      Push(Table(["auth", "mode"]));
      match auth {
        case NoAuth =>
          PushText("type", "none");
          Push(Gap);
        case ApiKey(prefix) =>
          PushText("type", "api_key");
          Push(Gap);
          PushPrefix(prefix, rest);
        case Idp(oidc) =>
          PushText("type", "idp");
          Push(Gap);
          PushOidc(oidc, Session(secret, rest));
          PushSession(secret, rest);
      }
    }

    method PushRates(rates: RateLimitConfig, ghost rest: Script)
      requires Valid() && todo == Rates(rates, rest)
      modifies this
      ensures Valid() && todo == rest && goal == old(goal)
    {
      if rates.requests.Some? || rates.tokens.Some? || rates.concurrent.Some? {
        Push(Table(["limits", "rate_limits"]));
        if rates.requests.Some? { Push(Entry("requests_per_minute", Int(rates.requests.value))); }
        if rates.tokens.Some? { Push(Entry("tokens_per_minute", Int(rates.tokens.value))); }
        if rates.concurrent.Some? { Push(Entry("concurrent_requests", Int(rates.concurrent.value))); }
        Push(Gap);
      }
    }

    method PushBudgets(budget: BudgetConfig, ghost rest: Script)
      requires Valid() && todo == Budgets(budget, rest)
      modifies this
      ensures Valid() && todo == rest && goal == old(goal)
    {
      if budget.monthly.Some? || budget.daily.Some? {
        Push(Table(["limits", "budgets"]));
        if budget.monthly.Some? { Push(Raw("monthly_budget_usd", budget.monthly.value)); }
        if budget.daily.Some? { Push(Raw("daily_budget_usd", budget.daily.value)); }
        Push(Gap);
      }
    }

    method PushProvider(p: ProviderConfig, ghost rest: Script)
      requires Valid() && todo == Provider(p, rest)
      modifies this
      ensures Valid() && todo == rest && goal == old(goal)
    {
      Push(Table(["providers", p.name]));
      PushText("type", ConfigType(p.kind));
      if p.apiKey.Some? { PushText("api_key", p.apiKey.value); }
      if p.baseUrl.Some? { PushText("base_url", p.baseUrl.value); }
      if p.region.Some? { Push(Raw("region", p.region.value)); }
      if p.projectId.Some? { Push(Raw("project_id", p.projectId.value)); }
      Push(Gap);
    }

    method PushProviders(providers: seq<ProviderConfig>)
      requires Valid() && todo == Providers(providers)
      modifies this
      ensures Valid() && todo == Nil && goal == old(goal)
    {
      if providers != [] {
        Push(Table(["providers"]));
        Push(Raw("default_provider", providers[0].name));
        Push(Gap);
        for i := 0 to |providers|
          invariant Valid() && goal == old(goal)
          invariant todo == ProviderTables(providers[i..])
        {
          assert providers[i..][0] == providers[i] && providers[i..][1..] == providers[i + 1..];
          PushProvider(providers[i], ProviderTables(providers[i + 1..]));
        }
      }
    }
  }

  /** Prints the configuration; `secret` is the freshly generated session secret. */
  method GenerateConfig(mode: DeploymentMode, cfg: WizardConfig, secret: string) returns (config: string)
    ensures config == PrintAll(Whole(mode, cfg, secret))
  {
    ghost var providers := Providers(cfg.providers);
    ghost var budgets := Budgets(cfg.budget, providers);
    ghost var limits := Rates(cfg.rates, budgets);
    ghost var auth := Auth(cfg.auth, secret, limits);
    ghost var cache := Cache(cfg.cache, Ui(auth));
    ghost var database := Database(cfg.database, cache);
    var out := new Output(Whole(mode, cfg, secret));
    out.Push(Note("Hadrian AI Gateway Configuration"));
    out.Push(Note("Generated by wizard - " + ModeName(mode) + " mode"));
    out.Push(Gap);
    out.PushServer(mode, database);
    out.PushDatabase(cfg.database, cache);
    out.PushCache(cfg.cache, Ui(auth));
    out.Push(Table(["ui"]));
    out.Push(Entry("enabled", Bool(true)));
    out.Push(Gap);
    out.PushAuth(cfg.auth, secret, limits);
    out.PushRates(cfg.rates, budgets);
    out.PushBudgets(cfg.budget, providers);
    out.PushProviders(cfg.providers);
    config := out.config;
    assert config + "" == config;
  }
}

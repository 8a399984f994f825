/** Reading a printed configuration as TOML. */
module WizardTheorems {
  import opened Basics
  import opened Toml
  import opened TomlDocument
  import opened Wizard

  // ---------- the tables that are written ----------

  type Entries = List<Pair>

  function OptStr(key: string, o: Option<string>, rest: Entries): Entries {
    if o.Some? then Cons(Pair(key, Str(o.value)), rest) else rest
  }

  function OptNum(key: string, o: Option<nat>, rest: Entries): Entries {
    if o.Some? then Cons(Pair(key, Int(o.value)), rest) else rest
  }

  function LoopbackEntries(mode: DeploymentMode): Entries {
    if mode.LocalDev? then Cons(Pair("allow_loopback_urls", Bool(true)), Nil) else Nil
  }

  function ServerEntries(mode: DeploymentMode): Entries {
    Cons(Pair("host", Str("0.0.0.0")), Cons(Pair("port", Int(8080)), LoopbackEntries(mode)))
  }

  function CorsEntries(): Entries {
    var origins := Strs(["http://localhost:8080", "http://127.0.0.1:8080"]);
    Cons(Pair("enabled", Bool(true)), Cons(Pair("allowed_origins", origins),
      Cons(Pair("allow_credentials", Bool(true)), Nil)))
  }

  function DatabaseEntries(database: DatabaseConfig): Entries {
    match database
    case NoDatabase => Cons(Pair("type", Str("none")), Nil)
    case Sqlite(path) => Cons(Pair("type", Str("sqlite")), Cons(Pair("path", Str(path)), Nil))
    case Postgres(url) => Cons(Pair("type", Str("postgres")), Cons(Pair("url", Str(url)), Nil))
  }

  function CacheEntries(cache: CacheConfig): Entries {
    match cache
    case NoCache => Cons(Pair("type", Str("none")), Nil)
    case Memory => Cons(Pair("type", Str("memory")), Nil)
    case Redis(url) => Cons(Pair("type", Str("redis")), Cons(Pair("url", Str(url)), Nil))
  }

  function AuthType(auth: AuthModeConfig): string {
    match auth case NoAuth => "none" case ApiKey(_) => "api_key" case Idp(_) => "idp"
  }

  function AuthSections(auth: AuthModeConfig, secret: string): seq<Section> {
    [Section(["auth", "mode"], Cons(Pair("type", Str(AuthType(auth))), Nil))] +
    match auth
    case NoAuth => []
    case ApiKey(prefix) => [Section(["auth", "api_key"], Cons(Pair("key_prefix", Str(prefix)), Nil))]
    case Idp(_) => [Section(["auth", "session"], Cons(Pair("secret", Str(secret)), Nil))]
  }

  function RateEntries(rates: RateLimitConfig): Entries {
    OptNum("requests_per_minute", rates.requests,
    OptNum("tokens_per_minute", rates.tokens,
    OptNum("concurrent_requests", rates.concurrent, Nil)))
  }

  function BudgetEntries(budget: BudgetConfig): Entries {
    OptStr("monthly_budget_usd", budget.monthly, OptStr("daily_budget_usd", budget.daily, Nil))
  }

  function RateSections(rates: RateLimitConfig): seq<Section> {
    if HasRates(rates) then [Section(["limits", "rate_limits"], RateEntries(rates))] else []
  }

  function BudgetSections(budget: BudgetConfig): seq<Section> {
    if HasBudget(budget) then [Section(["limits", "budgets"], BudgetEntries(budget))] else []
  }

  function ProviderEntries(p: ProviderConfig): Entries {
    Cons(Pair("type", Str(ConfigType(p.kind))),
    OptStr("api_key", p.apiKey,
    OptStr("base_url", p.baseUrl,
    OptStr("region", p.region,
    OptStr("project_id", p.projectId, Nil)))))
  }

  function ProviderSection(p: ProviderConfig): Section { Section(["providers", p.name], ProviderEntries(p)) }

  function ProviderRows(providers: seq<ProviderConfig>): seq<Section> {
    seq(|providers|, i requires 0 <= i < |providers| => ProviderSection(providers[i]))
  }

  function ProviderSections(providers: seq<ProviderConfig>): seq<Section> {
    if providers == [] then []
    else [Section(["providers"], Cons(Pair("default_provider", Str(providers[0].name)), Nil))] + ProviderRows(providers)
  }

  function Blocks(mode: DeploymentMode, cfg: WizardConfig, secret: string): seq<Block> {
    [Block("server", [Section(["server"], ServerEntries(mode)), Section(["server", "cors"], CorsEntries())]),
     Block("database", [Section(["database"], DatabaseEntries(cfg.database))]),
     Block("cache", [Section(["cache"], CacheEntries(cfg.cache))]),
     Block("ui", [Section(["ui"], Cons(Pair("enabled", Bool(true)), Nil))]),
     Block("auth", AuthSections(cfg.auth, secret)),
     Block("limits", RateSections(cfg.rates) + BudgetSections(cfg.budget)),
     Block("providers", ProviderSections(cfg.providers))]
  }

  function Document(mode: DeploymentMode, cfg: WizardConfig, secret: string): seq<Section> {
    [ROOT] + Join(Blocks(mode, cfg, secret))
  }

  // ---------- which configurations are read back ----------

  predicate OptQuotable(o: Option<string>) { o.Some? ==> Quotable(o.value) }

  predicate OptSimple(o: Option<string>) { o.Some? ==> Simple(o.value) }

  /** The settings of the identity provider do not break the comments they are printed in. */
  predicate OneLineNotes(auth: AuthModeConfig) {
    auth.Idp? ==>
      var o := auth.oidc;
      OneLine(o.issuer) && OneLine(o.clientId) && OneLine(o.clientSecret) && OneLine(o.redirectUri)
  }

  predicate BareNames(providers: seq<ProviderConfig>) {
    forall i :: 0 <= i < |providers| ==> BareKey(providers[i].name)
  }

  // What is printed with escaping has no control characters.

  predicate DatabaseTexts(database: DatabaseConfig) {
    match database case NoDatabase => true case Sqlite(path) => Quotable(path) case Postgres(url) => Quotable(url)
  }

  predicate CacheTexts(cache: CacheConfig) { cache.Redis? ==> Quotable(cache.url) }

  predicate OidcTexts(o: OidcConfig) {
    Quotable(o.issuer) && Quotable(o.clientId) && Quotable(o.clientSecret) && Quotable(o.redirectUri)
  }

  predicate AuthTexts(auth: AuthModeConfig) {
    match auth case NoAuth => true case ApiKey(prefix) => Quotable(prefix) case Idp(oidc) => OidcTexts(oidc)
  }

  predicate ProviderTexts(p: ProviderConfig) { OptQuotable(p.apiKey) && OptQuotable(p.baseUrl) }

  predicate ProvidersTexts(providers: seq<ProviderConfig>) {
    forall i :: 0 <= i < |providers| ==> ProviderTexts(providers[i])
  }

  predicate GoodTexts(cfg: WizardConfig) {
    DatabaseTexts(cfg.database) && CacheTexts(cfg.cache) && AuthTexts(cfg.auth) && ProvidersTexts(cfg.providers)
  }

  // What is printed without escaping needs none.

  predicate AuthRaws(auth: AuthModeConfig, secret: string) { auth.Idp? ==> Simple(secret) }

  predicate BudgetRaws(budget: BudgetConfig) { OptSimple(budget.monthly) && OptSimple(budget.daily) }

  predicate ProviderRaws(p: ProviderConfig) { OptSimple(p.region) && OptSimple(p.projectId) }

  predicate ProvidersRaws(providers: seq<ProviderConfig>) {
    forall i :: 0 <= i < |providers| ==> ProviderRaws(providers[i])
  }

  predicate GoodRaws(cfg: WizardConfig, secret: string) {
    AuthRaws(cfg.auth, secret) && BudgetRaws(cfg.budget) && ProvidersRaws(cfg.providers)
  }

  // ---------- the lines write these tables ----------

  /** What the printed lines are read as. */
  function Reads(lines: Script): Option<List<Item>> { ReadAll(PrintAll(lines)) }

  function AfterEntries(entries: Entries, got: Option<List<Item>>): Option<List<Item>> {
    match got case Some(items) => Some(Assigns(entries, items)) case None => None
  }

  function AfterTables(doc: seq<Section>, got: Option<List<Item>>): Option<List<Item>> {
    match got case Some(items) => Some(Flatten(doc, items)) case None => None
  }

  /** The tables with raw strings. */
  predicate HasRaws(path: seq<string>) {
    path == ["auth", "session"] || path == ["limits", "budgets"] || (|path| == 2 && path[0] == "providers")
  }

  /** The lines assign `entries` and then say `got`, if their escaped `texts` and their `raws` are in order; a bad
      text makes them unreadable, and so does a bad raw string, unless it is read as another string. */
  predicate Writes(lines: Script, entries: Entries, got: Option<List<Item>>, texts: bool, raws: bool) {
    var r := Reads(lines);
    && (raws ==> r == if texts then AfterEntries(entries, got) else None)
    && (!raws ==> r.None? || Strays(entries, r.value))
  }

  /** The same for lines that write tables. */
  ghost predicate WritesTables(lines: Script, doc: seq<Section>, got: Option<List<Item>>, texts: bool, raws: bool) {
    var r := Reads(lines);
    && (raws ==> r == if texts then AfterTables(doc, got) else None)
    && (!raws ==> r.None? || StraysIn(HasRaws, doc, r.value))
  }

  lemma SkipLine(line: Line, lines: Script, entries: Entries, got: Option<List<Item>>, texts: bool, raws: bool)
    requires Writes(lines, entries, got, texts, raws) && Meaning(line).Skip? && PrintableLine(line)
    ensures Writes(Cons(line, lines), entries, got, texts, raws)
  {
    PrintedLine(line, PrintAll(lines));
  }

  lemma CommentLine(text: string, lines: Script, entries: Entries, got: Option<List<Item>>, texts: bool, raws: bool)
    requires Writes(lines, entries, got, texts, raws) && OneLine(text)
    ensures Writes(Cons(Note(text), lines), entries, got, texts && Quotable(text), raws)
  {
    NoteLine(text, PrintAll(lines));
  }

  lemma PairLine(p: Pair, lines: Script, entries: Entries, got: Option<List<Item>>, texts: bool, raws: bool)
    requires Writes(lines, entries, got, texts, raws) && Plain(p)
    ensures Writes(Cons(PairText(p), lines), Cons(p, entries), got, texts, raws)
  {
    PrintedLine(PairText(p), PrintAll(lines));
  }

  lemma TextLine(key: string, s: string, lines: Script, entries: Entries, got: Option<List<Item>>, texts: bool,
    raws: bool)
    requires Writes(lines, entries, got, texts, raws) && BareKey(key)
    ensures Writes(Cons(Text(key, s), lines), Cons(Pair(key, Str(s)), entries), got, texts && Quotable(s), raws)
  {
    if Quotable(s) {
      PairLine(Pair(key, Str(s)), lines, entries, got, texts, raws);
    } else {
      EntryRefused(key, s, PrintAll(lines));
    }
  }

  lemma RawLine(key: string, s: string, lines: Script, entries: Entries, got: Option<List<Item>>, texts: bool,
    raws: bool)
    requires Writes(lines, entries, got, texts, raws) && BareKey(key)
    ensures Writes(Cons(Raw(key, s), lines), Cons(Pair(key, Str(s)), entries), got, texts, raws && Simple(s))
  {
    if Simple(s) {
      PrintedLine(Raw(key, s), PrintAll(lines));
    } else {
      RawStrays(key, s, PrintAll(lines));
    }
  }

  lemma OptTextLine(key: string, o: Option<string>, lines: Script, entries: Entries, got: Option<List<Item>>,
    texts: bool, raws: bool)
    requires Writes(lines, entries, got, texts, raws) && BareKey(key)
    ensures Writes(OptText(key, o, lines), OptStr(key, o, entries), got, texts && OptQuotable(o), raws)
  {
    if o.Some? { TextLine(key, o.value, lines, entries, got, texts, raws); }
  }

  lemma OptRawLine(key: string, o: Option<string>, lines: Script, entries: Entries, got: Option<List<Item>>,
    texts: bool, raws: bool)
    requires Writes(lines, entries, got, texts, raws) && BareKey(key)
    ensures Writes(OptRaw(key, o, lines), OptStr(key, o, entries), got, texts, raws && OptSimple(o))
  {
    if o.Some? { RawLine(key, o.value, lines, entries, got, texts, raws); }
  }

  lemma OptIntLine(key: string, o: Option<nat>, lines: Script, entries: Entries, got: Option<List<Item>>)
    requires Writes(lines, entries, got, true, true) && BareKey(key)
    ensures Writes(OptInt(key, o, lines), OptNum(key, o, entries), got, true, true)
  {
    if o.Some? { PairLine(Pair(key, Int(o.value)), lines, entries, got, true, true); }
  }

  lemma TableLine(path: seq<string>, lines: Script, entries: Entries, got: Option<List<Item>>, texts: bool, raws: bool)
    requires Writes(lines, entries, got, texts, raws) && PrintableLine(Table(path)) && (raws || HasRaws(path))
    ensures WritesTables(Cons(Table(path), lines), [Section(path, entries)], got, texts, raws)
  {
    PrintedLine(Table(path), PrintAll(lines));
    var doc := [Section(path, entries)];
    assert doc[1..] == [] && doc[..0] == [];
    if got.Some? { assert Flatten(doc[1..], got.value) == got.value; }
    var r := Reads(Cons(Table(path), lines));
    if !raws && r.Some? {
      assert r.value == Flatten(doc[..0], Cons(Header(doc[0].path), r.value.tail));
    }
  }

  /** One group of tables after another. */
  lemma ThenTables(lines: Script, a: seq<Section>, rest: Script, b: seq<Section>, got: Option<List<Item>>,
    texts: bool, raws: bool, laterTexts: bool, laterRaws: bool)
    requires WritesTables(lines, a, Reads(rest), texts, raws) && WritesTables(rest, b, got, laterTexts, laterRaws)
    ensures WritesTables(lines, a + b, got, texts && laterTexts, raws && laterRaws)
  {
    var r, later := Reads(lines), Reads(rest);
    if got.Some? { FlattenConcat(a, b, got.value); }
    if raws && !laterRaws && r.Some? {
      StraysLater(HasRaws, a, b, later.value);
    } else if !raws && r.Some? {
      StraysEarlier(HasRaws, a, b, r.value);
    }
  }

  /** A blank line and whatever follows. */
  lemma GapLine(rest: Script)
    ensures Writes(Cons(Gap, rest), Nil, Reads(rest), true, true)
  {
    PrintedLine(Gap, PrintAll(rest));
  }

  predicate Plain(p: Pair) { BareKey(p.key) && Printable(p.value) }

  /** How a pair is printed. */
  function PairText(p: Pair): Line { Entry(p.key, p.value) }

  lemma ThreePairs(path: seq<string>, p: Pair, q: Pair, r: Pair, rest: Script)
    requires PrintableLine(Table(path)) && Plain(p) && Plain(q) && Plain(r)
    ensures WritesTables(Cons(Table(path), Cons(PairText(p), Cons(PairText(q), Cons(PairText(r), Cons(Gap, rest))))),
      [Section(path, Cons(p, Cons(q, Cons(r, Nil))))], Reads(rest), true, true)
  {
    var got := Reads(rest);
    GapLine(rest);
    var l3 := Cons(PairText(r), Cons(Gap, rest));
    PairLine(r, l3.tail, Nil, got, true, true);
    TwoPairs(path, p, q, l3, Cons(r, Nil), got);
  }

  lemma TwoPairs(path: seq<string>, p: Pair, q: Pair, lines: Script, entries: Entries, got: Option<List<Item>>)
    requires Writes(lines, entries, got, true, true) && PrintableLine(Table(path)) && Plain(p) && Plain(q)
    ensures WritesTables(Cons(Table(path), Cons(PairText(p), Cons(PairText(q), lines))),
      [Section(path, Cons(p, Cons(q, entries)))], got, true, true)
  {
    PairLine(q, lines, entries, got, true, true);
    PairLine(p, Cons(PairText(q), lines), Cons(q, entries), got, true, true);
    TableLine(path, Cons(PairText(p), Cons(PairText(q), lines)), Cons(p, Cons(q, entries)), got, true, true);
  }

  lemma ServerKeys()
    ensures BareKey("server") && BareKey("host") && BareKey("port") && BareKey("allow_loopback_urls")
      && Quotable("0.0.0.0")
  {
  }

  lemma CorsKeys()
    ensures BareKey("server") && BareKey("cors") && BareKey("enabled")
    ensures BareKey("allowed_origins") && BareKey("allow_credentials")
  {
  }

  lemma OriginsPrintable()
    ensures Printable(ORIGINS)
  {
    assert Quotable("http://localhost:8080");
    assert Quotable("http://127.0.0.1:8080");
  }

  lemma CorsWrites(rest: Script)
    ensures WritesTables(Cors(rest), [Section(["server", "cors"], CorsEntries())], Reads(rest), true, true)
  {
    CorsKeys();
    OriginsPrintable();
    ThreePairs(["server", "cors"], Pair("enabled", Bool(true)), Pair("allowed_origins", ORIGINS),
      Pair("allow_credentials", Bool(true)), rest);
  }

  lemma LoopbackNote()
    ensures Quotable("Allow providers on localhost (e.g. Ollama)")
  {
  }

  lemma LoopbackWrites(mode: DeploymentMode, rest: Script)
    ensures Writes(Loopback(mode, Cons(Gap, rest)), LoopbackEntries(mode), Reads(rest), true, true)
  {
    GapLine(rest);
    if mode.LocalDev? {
      var lines := Loopback(mode, Cons(Gap, rest));
      LoopbackNote();
      ServerKeys();
      PairLine(LoopbackEntries(mode).head, Cons(Gap, rest), Nil, Reads(rest), true, true);
      SkipLine(lines.head, lines.tail, LoopbackEntries(mode), Reads(rest), true, true);
    }
  }

  lemma ServerWrites(mode: DeploymentMode, rest: Script)
    ensures WritesTables(Server(mode, rest),
      [Section(["server"], ServerEntries(mode)), Section(["server", "cors"], CorsEntries())], Reads(rest), true, true)
  {
    CorsWrites(rest);
    LoopbackWrites(mode, Cors(rest));
    ServerKeys();
    var cors := Section(["server", "cors"], CorsEntries());
    PairsThenTable(["server"], Pair("host", Str("0.0.0.0")), Pair("port", Int(8080)),
      Loopback(mode, Cons(Gap, Cors(rest))),
      LoopbackEntries(mode), Cors(rest), cors, Reads(rest));
  }

  lemma PairsThenTable(path: seq<string>, p: Pair, q: Pair, lines: Script, entries: Entries, rest: Script,
    last: Section,
    got: Option<List<Item>>)
    requires Writes(lines, entries, Reads(rest), true, true) && PrintableLine(Table(path)) && Plain(p) && Plain(q)
    requires WritesTables(rest, [last], got, true, true)
    ensures WritesTables(Cons(Table(path), Cons(PairText(p), Cons(PairText(q), lines))),
      [Section(path, Cons(p, Cons(q, entries))), last], got, true, true)
  {
    var first := Section(path, Cons(p, Cons(q, entries)));
    TwoPairs(path, p, q, lines, entries, Reads(rest));
    ThenTables(Cons(Table(path), Cons(PairText(p), Cons(PairText(q), lines))), [first], rest, [last], got,
      true, true, true, true);
    assert [first] + [last] == [first, last];
  }

  /** A table with a fixed `type`. */
  lemma TypeWrites(top: string, kind: string, lines: Script, entries: Entries, got: Option<List<Item>>, texts: bool)
    requires Writes(lines, entries, got, texts, true) && BareKey(top) && BareKey("type") && Quotable(kind)
    ensures WritesTables(Cons(Table([top]), Cons(Text("type", kind), lines)),
      [Section([top], Cons(Pair("type", Str(kind)), entries))], got, texts, true)
  {
    var p := Pair("type", Str(kind));
    PairLine(p, lines, entries, got, texts, true);
    TableLine([top], Cons(PairText(p), lines), Cons(p, entries), got, texts, true);
  }

  /** The same with one more string. */
  lemma TypeAndMore(top: string, kind: string, key: string, s: string, rest: Script)
    requires BareKey(top) && BareKey("type") && Quotable(kind) && BareKey(key)
    ensures WritesTables(Cons(Table([top]), Cons(Text("type", kind), Cons(Text(key, s), Cons(Gap, rest)))),
      [Section([top], Cons(Pair("type", Str(kind)), Cons(Pair(key, Str(s)), Nil)))], Reads(rest), Quotable(s), true)
  {
    GapLine(rest);
    TextLine(key, s, Cons(Gap, rest), Nil, Reads(rest), true, true);
    TypeWrites(top, kind, Cons(Text(key, s), Cons(Gap, rest)), Cons(Pair(key, Str(s)), Nil), Reads(rest), Quotable(s));
  }

  lemma StorageKeys()
    ensures BareKey("database") && BareKey("cache") && BareKey("type") && BareKey("path") && BareKey("url")
    ensures Quotable("none") && Quotable("sqlite") && Quotable("postgres") && Quotable("memory") && Quotable("redis")
  {
  }

  lemma DatabaseWrites(database: DatabaseConfig, rest: Script)
    ensures WritesTables(Database(database, rest), [Section(["database"], DatabaseEntries(database))], Reads(rest),
      DatabaseTexts(database), true)
  {
    StorageKeys();
    GapLine(rest);
    match database
    case NoDatabase => TypeWrites("database", "none", Cons(Gap, rest), Nil, Reads(rest), true);
    case Sqlite(path) => TypeAndMore("database", "sqlite", "path", path, rest);
    case Postgres(url) => TypeAndMore("database", "postgres", "url", url, rest);
  }

  lemma CacheWrites(cache: CacheConfig, rest: Script)
    ensures WritesTables(Cache(cache, rest), [Section(["cache"], CacheEntries(cache))], Reads(rest), CacheTexts(cache),
      true)
  {
    StorageKeys();
    GapLine(rest);
    match cache
    case NoCache => TypeWrites("cache", "none", Cons(Gap, rest), Nil, Reads(rest), true);
    case Memory => TypeWrites("cache", "memory", Cons(Gap, rest), Nil, Reads(rest), true);
    case Redis(url) => TypeAndMore("cache", "redis", "url", url, rest);
  }

  lemma UiWrites(rest: Script)
    ensures WritesTables(Ui(rest), [Section(["ui"], Cons(Pair("enabled", Bool(true)), Nil))], Reads(rest), true, true)
  {
    var p := Pair("enabled", Bool(true));
    GapLine(rest);
    PairLine(p, Cons(Gap, rest), Nil, Reads(rest), true, true);
    TableLine(["ui"], Cons(PairText(p), Cons(Gap, rest)), Cons(p, Nil), Reads(rest), true, true);
  }

  lemma SsoNoteQuotable()
    ensures Quotable(SSO_NOTE)
  {
    QuotableConcat("Note: Per-org SSO is ", "configured via the admin API.");
  }

  lemma SecretNoteQuotable()
    ensures Quotable(SECRET_NOTE)
  {
    QuotableConcat("Sessions are signed with this ", "256-bit secret. Override via the");
  }

  lemma ReplicaNoteQuotable()
    ensures Quotable(REPLICA_NOTE)
  {
    QuotableConcat("SESSION_SECRET env var in ", "multi-replica setups so every node");
  }

  lemma SettingQuotable(key: string, s: string)
    requires Quotable(key) && OneLine(s)
    ensures OneLine(key + Quote(s)) && (Quotable(key + Quote(s)) <==> Quotable(s))
  {
    EscapeOneLine(s);
    QuoteQuotable(s);
    QuotableConcat(key, Quote(s));
  }

  lemma TwoNotes(a: string, b: string, lines: Script, entries: Entries, got: Option<List<Item>>, texts: bool,
    raws: bool)
    requires Writes(lines, entries, got, texts, raws) && OneLine(a) && OneLine(b)
    ensures Writes(Cons(Note(a), Cons(Note(b), lines)), entries, got, texts && Quotable(a) && Quotable(b), raws)
  {
    CommentLine(b, lines, entries, got, texts, raws);
    CommentLine(a, Cons(Note(b), lines), entries, got, texts && Quotable(b), raws);
  }

  lemma SixNotes(a: string, b: string, c: string, d: string, e: string, f: string, rest: Script)
    requires Quotable(a) && Quotable(b) && OneLine(c) && OneLine(d) && OneLine(e) && OneLine(f)
    ensures Writes(Cons(Note(a), Cons(Note(b), Cons(Note(c),
      Cons(Note(d), Cons(Note(e), Cons(Note(f), Cons(Gap, rest))))))),
      Nil, Reads(rest), Quotable(c) && Quotable(d) && Quotable(e) && Quotable(f), true)
  {
    var got := Reads(rest);
    GapLine(rest);
    var ef := Cons(Note(e), Cons(Note(f), Cons(Gap, rest)));
    TwoNotes(e, f, Cons(Gap, rest), Nil, got, true, true);
    var cd := Cons(Note(c), Cons(Note(d), ef));
    TwoNotes(c, d, ef, Nil, got, Quotable(e) && Quotable(f), true);
    TwoNotes(a, b, cd, Nil, got, Quotable(c) && Quotable(d) && Quotable(e) && Quotable(f), true);
  }

  lemma SettingNames()
    ensures Quotable("issuer = ") && Quotable("client_id = ") && Quotable("client_secret = ")
      && Quotable("redirect_uri = ")
    ensures Quotable("The OIDC settings below are for reference.")
  {
  }

  /** The comments about the identity provider say nothing, or make the file unreadable. */
  lemma OidcWrites(o: OidcConfig, rest: Script)
    requires OneLineNotes(Idp(o))
    ensures Writes(OidcNotes(o, rest), Nil, Reads(rest), OidcTexts(o), true)
  {
    SsoNoteQuotable();
    SettingNames();
    SettingQuotable("issuer = ", o.issuer);
    SettingQuotable("client_id = ", o.clientId);
    SettingQuotable("client_secret = ", o.clientSecret);
    SettingQuotable("redirect_uri = ", o.redirectUri);
    SixNotes(SSO_NOTE, "The OIDC settings below are for reference.", "issuer = " + Quote(o.issuer),
      "client_id = " + Quote(o.clientId), "client_secret = " + Quote(o.clientSecret),
      "redirect_uri = " + Quote(o.redirectUri), rest);
  }

  lemma SessionKeys()
    ensures BareKey("auth") && BareKey("session") && BareKey("secret") && Quotable("accepts the others' cookies.")
  {
  }

  /** A raw string after three comments. */
  lemma RawAfterNotes(path: seq<string>, a: string, b: string, c: string, key: string, s: string, rest: Script)
    requires HasRaws(path) && PrintableLine(Table(path)) && BareKey(key) && Quotable(a) && Quotable(b) && Quotable(c)
    ensures WritesTables(
      Cons(Table(path), Cons(Note(a), Cons(Note(b), Cons(Note(c), Cons(Raw(key, s), Cons(Gap, rest)))))),
      [Section(path, Cons(Pair(key, Str(s)), Nil))], Reads(rest), true, Simple(s))
  {
    var got, e := Reads(rest), Cons(Pair(key, Str(s)), Nil);
    GapLine(rest);
    var lines := Cons(Raw(key, s), Cons(Gap, rest));
    RawLine(key, s, Cons(Gap, rest), Nil, got, true, true);
    CommentLine(c, lines, e, got, true, Simple(s));
    TwoNotes(a, b, Cons(Note(c), lines), e, got, true, Simple(s));
    TableLine(path, Cons(Note(a), Cons(Note(b), Cons(Note(c), lines))), e, got, true, Simple(s));
  }

  lemma SessionWrites(secret: string, rest: Script)
    ensures WritesTables(Session(secret, rest), [Section(["auth", "session"], Cons(Pair("secret", Str(secret)), Nil))],
      Reads(rest), true, Simple(secret))
  {
    SessionKeys();
    SecretNoteQuotable();
    ReplicaNoteQuotable();
    RawAfterNotes(["auth", "session"], SECRET_NOTE, REPLICA_NOTE, "accepts the others' cookies.", "secret", secret,
      rest);
  }

  lemma AuthKeys(auth: AuthModeConfig)
    ensures BareKey("auth") && BareKey("mode") && BareKey("type") && BareKey("api_key") && BareKey("key_prefix")
    ensures Quotable(AuthType(auth))
  {
  }

  /** A table with one string, perhaps followed by comments. */
  lemma StringWrites(path: seq<string>, key: string, s: string, lines: Script, got: Option<List<Item>>, texts: bool)
    requires Writes(lines, Nil, got, texts, true) && PrintableLine(Table(path)) && BareKey(key)
    ensures WritesTables(Cons(Table(path), Cons(Text(key, s), Cons(Gap, lines))),
      [Section(path, Cons(Pair(key, Str(s)), Nil))], got, texts && Quotable(s), true)
  {
    SkipLine(Gap, lines, Nil, got, texts, true);
    TextLine(key, s, Cons(Gap, lines), Nil, got, texts, true);
    TableLine(path, Cons(Text(key, s), Cons(Gap, lines)), Cons(Pair(key, Str(s)), Nil), got, texts
      && Quotable(s), true);
  }

  lemma NothingFirst(lines: Script)
    ensures Writes(lines, Nil, Reads(lines), true, true)
  {
  }

  lemma AuthWrites(auth: AuthModeConfig, secret: string, rest: Script)
    requires OneLineNotes(auth)
    ensures WritesTables(Auth(auth, secret, rest), AuthSections(auth, secret), Reads(rest), AuthTexts(auth),
      AuthRaws(auth, secret))
  {
    var got, kind := Reads(rest), AuthType(auth);
    var mode := Section(["auth", "mode"], Cons(Pair("type", Str(kind)), Nil));
    AuthKeys(auth);
    NothingFirst(rest);
    match auth {
      case NoAuth =>
        StringWrites(["auth", "mode"], "type", kind, rest, got, true);
        assert AuthSections(auth, secret) == [mode];
      case ApiKey(prefix) =>
        var keys := [Section(["auth", "api_key"], Cons(Pair("key_prefix", Str(prefix)), Nil))];
        var lines := Cons(Table(["auth", "api_key"]), Cons(Text("key_prefix", prefix), Cons(Gap, rest)));
        StringWrites(["auth", "api_key"], "key_prefix", prefix, rest, got, true);
        NothingFirst(lines);
        StringWrites(["auth", "mode"], "type", kind, lines, Reads(lines), true);
        ThenTables(Auth(auth, secret, rest), [mode], lines, keys, got, true, true, Quotable(prefix), true);
      case Idp(o) =>
        var session := [Section(["auth", "session"], Cons(Pair("secret", Str(secret)), Nil))];
        var lines := Session(secret, rest);
        SessionWrites(secret, rest);
        OidcWrites(o, lines);
        StringWrites(["auth", "mode"], "type", kind, OidcNotes(o, lines), Reads(lines), OidcTexts(o));
        ThenTables(Auth(auth, secret, rest), [mode], lines, session, got, OidcTexts(o), true, true, Simple(secret));
    }
  }

  lemma LimitKeys()
    ensures BareKey("limits") && BareKey("rate_limits") && BareKey("requests_per_minute")
      && BareKey("tokens_per_minute")
    ensures BareKey("concurrent_requests")
  {
  }

  lemma IntsWrite(ka: string, a: Option<nat>, kb: string, b: Option<nat>, kc: string, c: Option<nat>, rest: Script)
    requires BareKey(ka) && BareKey(kb) && BareKey(kc)
    ensures Writes(OptInt(ka, a, OptInt(kb, b, OptInt(kc, c, Cons(Gap, rest)))),
      OptNum(ka, a, OptNum(kb, b, OptNum(kc, c, Nil))), Reads(rest), true, true)
  {
    var got := Reads(rest);
    GapLine(rest);
    OptIntLine(kc, c, Cons(Gap, rest), Nil, got);
    OptIntLine(kb, b, OptInt(kc, c, Cons(Gap, rest)), OptNum(kc, c, Nil), got);
    OptIntLine(ka, a, OptInt(kb, b, OptInt(kc, c, Cons(Gap, rest))), OptNum(kb, b, OptNum(kc, c, Nil)), got);
  }

  /** No table at all. */
  lemma NoTables(lines: Script)
    ensures WritesTables(lines, [], Reads(lines), true, true)
  {
  }

  lemma RatesWrites(rates: RateLimitConfig, rest: Script)
    ensures WritesTables(Rates(rates, rest), RateSections(rates), Reads(rest), true, true)
  {
    if HasRates(rates) {
      LimitKeys();
      IntsWrite("requests_per_minute", rates.requests, "tokens_per_minute", rates.tokens,
        "concurrent_requests", rates.concurrent, rest);
      TableLine(["limits", "rate_limits"], Rates(rates, rest).tail, RateEntries(rates), Reads(rest), true, true);
    } else {
      NoTables(rest);
    }
  }

  lemma RawsWrite(path: seq<string>, ka: string, a: Option<string>, kb: string, b: Option<string>, rest: Script)
    requires HasRaws(path) && PrintableLine(Table(path)) && BareKey(ka) && BareKey(kb)
    ensures WritesTables(Cons(Table(path), OptRaw(ka, a, OptRaw(kb, b, Cons(Gap, rest)))),
      [Section(path, OptStr(ka, a, OptStr(kb, b, Nil)))], Reads(rest), true, OptSimple(a) && OptSimple(b))
  {
    var got := Reads(rest);
    GapLine(rest);
    var l2, e2 := OptRaw(kb, b, Cons(Gap, rest)), OptStr(kb, b, Nil);
    OptRawLine(kb, b, Cons(Gap, rest), Nil, got, true, true);
    OptRawLine(ka, a, l2, e2, got, true, OptSimple(b));
    TableLine(path, OptRaw(ka, a, l2), OptStr(ka, a, e2), got, true, OptSimple(a) && OptSimple(b));
  }

  lemma BudgetKeys()
    ensures BareKey("limits") && BareKey("budgets") && BareKey("monthly_budget_usd") && BareKey("daily_budget_usd")
  {
  }

  lemma BudgetsWrites(budget: BudgetConfig, rest: Script)
    ensures WritesTables(Budgets(budget, rest), BudgetSections(budget), Reads(rest), true, BudgetRaws(budget))
  {
    if HasBudget(budget) {
      BudgetKeys();
      RawsWrite(["limits", "budgets"], "monthly_budget_usd", budget.monthly, "daily_budget_usd", budget.daily, rest);
    } else {
      NoTables(rest);
    }
  }

  lemma ProviderKeys(kind: ProviderType)
    ensures BareKey("providers") && BareKey("type") && BareKey("api_key") && BareKey("base_url")
    ensures BareKey("region") && BareKey("project_id") && Quotable(ConfigType(kind))
  {
  }

  /** One pair, two escaped options and two raw ones, whatever their keys. */
  lemma OptionsWrite(path: seq<string>, p: Pair, ka: string, a: Option<string>, kb: string, b: Option<string>,
    kc: string, c: Option<string>, kd: string, d: Option<string>, rest: Script)
    requires HasRaws(path) && PrintableLine(Table(path)) && Plain(p)
    requires BareKey(ka) && BareKey(kb) && BareKey(kc) && BareKey(kd)
    ensures WritesTables(
      Cons(Table(path), Cons(PairText(p), OptText(ka, a, OptText(kb, b,
        OptRaw(kc, c, OptRaw(kd, d, Cons(Gap, rest))))))),
      [Section(path, Cons(p, OptStr(ka, a, OptStr(kb, b, OptStr(kc, c, OptStr(kd, d, Nil))))))], Reads(rest),
      OptQuotable(a) && OptQuotable(b), OptSimple(c) && OptSimple(d))
  {
    var got, raws := Reads(rest), OptSimple(c) && OptSimple(d);
    GapLine(rest);
    var l4, e4 := OptRaw(kd, d, Cons(Gap, rest)), OptStr(kd, d, Nil);
    OptRawLine(kd, d, Cons(Gap, rest), Nil, got, true, true);
    var l3, e3 := OptRaw(kc, c, l4), OptStr(kc, c, e4);
    OptRawLine(kc, c, l4, e4, got, true, OptSimple(d));
    var l2, e2 := OptText(kb, b, l3), OptStr(kb, b, e3);
    OptTextLine(kb, b, l3, e3, got, true, raws);
    var l1, e1 := OptText(ka, a, l2), OptStr(ka, a, e2);
    OptTextLine(ka, a, l2, e2, got, OptQuotable(b), raws);
    var texts := OptQuotable(a) && OptQuotable(b);
    PairLine(p, l1, e1, got, texts, raws);
    TableLine(path, Cons(PairText(p), l1), Cons(p, e1), got, texts, raws);
  }

  lemma ProviderWrites(p: ProviderConfig, rest: Script)
    requires BareKey(p.name)
    ensures WritesTables(Provider(p, rest), [ProviderSection(p)], Reads(rest), ProviderTexts(p), ProviderRaws(p))
  {
    ProviderKeys(p.kind);
    OptionsWrite(["providers", p.name], Pair("type", Str(ConfigType(p.kind))), "api_key", p.apiKey, "base_url",
      p.baseUrl,
      "region", p.region, "project_id", p.projectId, rest);
  }

  /** What holds of all providers holds of the first and of the others. */
  lemma FirstAndOthers(providers: seq<ProviderConfig>)
    requires providers != []
    ensures ProvidersTexts(providers) <==> ProviderTexts(providers[0]) && ProvidersTexts(providers[1..])
    ensures ProvidersRaws(providers) <==> ProviderRaws(providers[0]) && ProvidersRaws(providers[1..])
  {
    assert forall i :: 0 <= i < |providers[1..]| ==> providers[1..][i] == providers[i + 1];
    assert forall i :: 1 <= i < |providers| ==> providers[i] == providers[1..][i - 1];
  }

  lemma {:induction false} ProviderTablesWrite(providers: seq<ProviderConfig>)
    requires BareNames(providers)
    ensures WritesTables(ProviderTables(providers), ProviderRows(providers), Some(Nil),
      ProvidersTexts(providers), ProvidersRaws(providers))
  {
    if providers != [] {
      var first, others := providers[0], providers[1..];
      ProviderTablesWrite(others);
      ProviderWrites(first, ProviderTables(others));
      FirstAndOthers(providers);
      assert ProviderRows(providers) == [ProviderSection(first)] + ProviderRows(others);
      ThenTables(ProviderTables(providers), [ProviderSection(first)], ProviderTables(others), ProviderRows(others),
        Some(Nil),
        ProviderTexts(first), ProviderRaws(first), ProvidersTexts(others), ProvidersRaws(others));
    } else {
      NoTables(Nil);
    }
  }

  lemma BareSimple(s: string)
    requires BareKey(s)
    ensures Simple(s)
  {
    assert forall i :: 0 <= i < |s| ==> IsBare(s[i]) && !IsControl(s[i]) && s[i] != '\\' && s[i] != '"';
  }

  lemma DefaultKeys()
    ensures BareKey("providers") && BareKey("default_provider")
  {
  }

  lemma ProvidersWrite(providers: seq<ProviderConfig>)
    requires BareNames(providers)
    ensures WritesTables(Providers(providers), ProviderSections(providers), Some(Nil),
      ProvidersTexts(providers), ProvidersRaws(providers))
  {
    if providers != [] {
      var first, rows := providers[0].name, ProviderRows(providers);
      var e := Cons(Pair("default_provider", Str(first)), Nil);
      var lines := ProviderTables(providers);
      BareSimple(first);
      DefaultKeys();
      ProviderTablesWrite(providers);
      GapLine(lines);
      RawLine("default_provider", first, Cons(Gap, lines), Nil, Reads(lines), true, true);
      TableLine(["providers"], Providers(providers).tail, e, Reads(lines), true, true);
      ThenTables(Providers(providers), [Section(["providers"], e)], lines, rows, Some(Nil),
        true, true, ProvidersTexts(providers), ProvidersRaws(providers));
    } else {
      NoTables(Nil);
    }
  }

  lemma PreambleNote(mode: DeploymentMode)
    ensures Quotable("Generated by wizard - " + ModeName(mode) + " mode")
  {
    QuotableConcat("Generated by wizard - ", ModeName(mode));
    QuotableConcat("Generated by wizard - " + ModeName(mode), " mode");
  }

  lemma NotesOnly(a: string, b: string, rest: Script)
    requires Quotable(a) && Quotable(b)
    ensures Reads(Cons(Note(a), Cons(Note(b), Cons(Gap, rest)))) == Reads(rest)
  {
    GapLine(rest);
    TwoNotes(a, b, Cons(Gap, rest), Nil, Reads(rest), true, true);
  }

  lemma PreambleReads(mode: DeploymentMode, rest: Script)
    ensures Reads(Preamble(mode, rest)) == Reads(rest)
  {
    PreambleNote(mode);
    assert Quotable("Hadrian AI Gateway Configuration");
    NotesOnly("Hadrian AI Gateway Configuration", "Generated by wizard - " + ModeName(mode) + " mode", rest);
  }

  lemma JoinStep(blocks: seq<Block>, lines: Script, rest: Script, texts: bool, raws: bool, laterTexts: bool,
    laterRaws: bool)
    requires blocks != [] && WritesTables(lines, blocks[0].sections, Reads(rest), texts, raws)
    requires WritesTables(rest, Join(blocks[1..]), Some(Nil), laterTexts, laterRaws)
    ensures WritesTables(lines, Join(blocks), Some(Nil), texts && laterTexts, raws && laterRaws)
  {
    ThenTables(lines, blocks[0].sections, rest, Join(blocks[1..]), Some(Nil), texts, raws, laterTexts, laterRaws);
  }

  lemma LimitsWrite(cfg: WizardConfig, rest: Script)
    ensures WritesTables(Rates(cfg.rates, Budgets(cfg.budget, rest)),
      RateSections(cfg.rates) + BudgetSections(cfg.budget),
      Reads(rest), true, BudgetRaws(cfg.budget))
  {
    var budgets := Budgets(cfg.budget, rest);
    BudgetsWrites(cfg.budget, rest);
    RatesWrites(cfg.rates, budgets);
    ThenTables(Rates(cfg.rates, budgets), RateSections(cfg.rates), budgets, BudgetSections(cfg.budget), Reads(rest),
      true, true, true, BudgetRaws(cfg.budget));
  }

  /** From the authentication tables to the end of the file. */
  lemma EndWrites(mode: DeploymentMode, cfg: WizardConfig, secret: string)
    requires BareNames(cfg.providers) && OneLineNotes(cfg.auth)
    ensures WritesTables(Auth(cfg.auth, secret, Rates(cfg.rates, Budgets(cfg.budget, Providers(cfg.providers)))),
      Join(Blocks(mode, cfg, secret)[4..]), Some(Nil),
      AuthTexts(cfg.auth) && ProvidersTexts(cfg.providers), GoodRaws(cfg, secret))
  {
    var b := Blocks(mode, cfg, secret);
    var texts, raws := ProvidersTexts(cfg.providers), ProvidersRaws(cfg.providers);
    var providers := Providers(cfg.providers);
    ProvidersWrite(cfg.providers);
    assert b[6..][1..] == [];
    assert Join(b[6..]) == ProviderSections(cfg.providers) by {
      assert ProviderSections(cfg.providers) + [] == ProviderSections(cfg.providers);
    }
    LimitsWrite(cfg, providers);
    assert b[5..][1..] == b[6..];
    var limits := Rates(cfg.rates, Budgets(cfg.budget, providers));
    JoinStep(b[5..], limits, providers, true, BudgetRaws(cfg.budget), texts, raws);
    AuthWrites(cfg.auth, secret, limits);
    assert b[4..][1..] == b[5..];
    JoinStep(b[4..], Auth(cfg.auth, secret, limits), limits, AuthTexts(cfg.auth), AuthRaws(cfg.auth, secret),
      texts, BudgetRaws(cfg.budget) && raws);
  }

  /** From the database on. */
  lemma MiddleWrites(mode: DeploymentMode, cfg: WizardConfig, secret: string)
    requires BareNames(cfg.providers) && OneLineNotes(cfg.auth)
    ensures WritesTables(Database(cfg.database, Cache(cfg.cache, Ui(Auth(cfg.auth, secret,
      Rates(cfg.rates, Budgets(cfg.budget, Providers(cfg.providers))))))), Join(Blocks(mode, cfg, secret)[1..]),
        Some(Nil),
      GoodTexts(cfg), GoodRaws(cfg, secret))
  {
    var b := Blocks(mode, cfg, secret);
    var auth := Auth(cfg.auth, secret, Rates(cfg.rates, Budgets(cfg.budget, Providers(cfg.providers))));
    var texts, raws := AuthTexts(cfg.auth) && ProvidersTexts(cfg.providers), GoodRaws(cfg, secret);
    EndWrites(mode, cfg, secret);
    UiWrites(auth);
    assert b[3..][1..] == b[4..];
    JoinStep(b[3..], Ui(auth), auth, true, true, texts, raws);
    var cache := Cache(cfg.cache, Ui(auth));
    CacheWrites(cfg.cache, Ui(auth));
    assert b[2..][1..] == b[3..];
    JoinStep(b[2..], cache, Ui(auth), CacheTexts(cfg.cache), true, texts, raws);
    DatabaseWrites(cfg.database, cache);
    assert b[1..][1..] == b[2..];
    JoinStep(b[1..], Database(cfg.database, cache), cache, DatabaseTexts(cfg.database), true,
      CacheTexts(cfg.cache) && texts, raws);
  }

  /** The printed lines write exactly the tables of `Document` if all texts and raw strings are in order; a bad text
      makes the file unreadable, and a bad raw string makes it unreadable or is read as another string. */
  lemma WholeWrites(mode: DeploymentMode, cfg: WizardConfig, secret: string)
    requires BareNames(cfg.providers) && OneLineNotes(cfg.auth)
    ensures WritesTables(Whole(mode, cfg, secret), Join(Blocks(mode, cfg, secret)), Some(Nil), GoodTexts(cfg),
      GoodRaws(cfg, secret))
  {
    var database := Database(cfg.database, Cache(cfg.cache, Ui(Auth(cfg.auth, secret,
      Rates(cfg.rates, Budgets(cfg.budget, Providers(cfg.providers)))))));
    MiddleWrites(mode, cfg, secret);
    ServerWrites(mode, database);
    JoinStep(Blocks(mode, cfg, secret), Server(mode, database), database, true, true, GoodTexts(cfg),
      GoodRaws(cfg, secret));
    PreambleReads(mode, Server(mode, database));
  }
}

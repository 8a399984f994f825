/** What a reader of the file learns, and that it is what the wizard was told. */
module WizardRoundTrip {
  import opened Basics
  import opened Toml
  import opened TomlDocument
  import opened Wizard
  import opened WizardTheorems

  // ---------- the reader's view ----------

  datatype AuthView = OpenAccess | Keys(prefix: string) | SingleSignOn(secret: string)

  datatype ProviderView = ProviderView(
    name: string, kind: string, apiKey: Option<string>, baseUrl: Option<string>,
    region: Option<string>, projectId: Option<string>)

  datatype View = View(
    database: Option<DatabaseConfig>, cache: Option<CacheConfig>, auth: Option<AuthView>,
    rates: RateLimitConfig, budget: BudgetConfig, default: Option<string>, providers: seq<ProviderView>)

  function GetStr(entries: Entries, key: string): Option<string> {
    match Get(entries, key) case Some(Str(s)) => Some(s) case _ => None
  }

  function GetInt(entries: Entries, key: string): Option<nat> {
    match Get(entries, key) case Some(Int(n)) => Some(n) case _ => None
  }

  function ViewDatabase(entries: Entries): Option<DatabaseConfig> {
    var kind := GetStr(entries, "type");
    if kind == Some("none") then Some(NoDatabase)
    else if kind == Some("sqlite") && GetStr(entries, "path").Some? then Some(Sqlite(GetStr(entries, "path").value))
    else if kind == Some("postgres") && GetStr(entries, "url").Some? then Some(Postgres(GetStr(entries, "url").value))
    else None
  }

  function ViewCache(entries: Entries): Option<CacheConfig> {
    var kind := GetStr(entries, "type");
    if kind == Some("none") then Some(NoCache)
    else if kind == Some("memory") then Some(Memory)
    else if kind == Some("redis") && GetStr(entries, "url").Some? then Some(Redis(GetStr(entries, "url").value))
    else None
  }

  function ViewAuth(mode: Entries, keys: Entries, session: Entries): Option<AuthView> {
    var kind := GetStr(mode, "type");
    if kind == Some("none") then Some(OpenAccess)
    else if kind == Some("api_key") && GetStr(keys, "key_prefix").Some? then
      Some(Keys(GetStr(keys, "key_prefix").value))
    else if kind == Some("idp") && GetStr(session, "secret").Some? then
      Some(SingleSignOn(GetStr(session, "secret").value))
    else None
  }

  function ViewRates(entries: Entries): RateLimitConfig {
    RateLimitConfig(GetInt(entries, "requests_per_minute"), GetInt(entries, "tokens_per_minute"),
      GetInt(entries, "concurrent_requests"))
  }

  function ViewBudget(entries: Entries): BudgetConfig {
    BudgetConfig(GetStr(entries, "monthly_budget_usd"), GetStr(entries, "daily_budget_usd"))
  }

  function ViewProvider(section: Section): ProviderView
    requires |section.path| == 2
  {
    var es := section.entries;
    ProviderView(section.path[1], (match GetStr(es, "type") case Some(kind) => kind case None => ""),
      GetStr(es, "api_key"), GetStr(es, "base_url"), GetStr(es, "region"), GetStr(es, "project_id"))
  }

  /** The tables directly below `[providers]`, in the order of the file. */
  function ViewProviders(doc: seq<Section>): seq<ProviderView> {
    if doc == [] then []
    else if |doc[0].path| == 2 && doc[0].path[0] == "providers" then [ViewProvider(doc[0])] + ViewProviders(doc[1..])
    else ViewProviders(doc[1..])
  }

  function Interpret(doc: seq<Section>): View {
    View(ViewDatabase(Find(doc, ["database"])),
         ViewCache(Find(doc, ["cache"])),
         ViewAuth(Find(doc, ["auth", "mode"]), Find(doc, ["auth", "api_key"]), Find(doc, ["auth", "session"])),
         ViewRates(Find(doc, ["limits", "rate_limits"])),
         ViewBudget(Find(doc, ["limits", "budgets"])),
         GetStr(Find(doc, ["providers"]), "default_provider"),
         ViewProviders(doc))
  }

  // ---------- the wizard's own view ----------

  function AuthOf(auth: AuthModeConfig, secret: string): AuthView {
    match auth case NoAuth => OpenAccess case ApiKey(prefix) => Keys(prefix) case Idp(_) => SingleSignOn(secret)
  }

  function ProviderOf(p: ProviderConfig): ProviderView {
    ProviderView(p.name, ConfigType(p.kind), p.apiKey, p.baseUrl, p.region, p.projectId)
  }

  function ViewOf(cfg: WizardConfig, secret: string): View {
    View(Some(cfg.database), Some(cfg.cache), Some(AuthOf(cfg.auth, secret)), cfg.rates, cfg.budget,
         if cfg.providers == [] then None else Some(cfg.providers[0].name),
         seq(|cfg.providers|, i requires 0 <= i < |cfg.providers| => ProviderOf(cfg.providers[i])))
  }

  // ---------- entries ----------

  lemma GetOptStr(key: string, o: Option<string>, rest: Entries, k: string)
    ensures Get(OptStr(key, o, rest), k) == (if key == k && o.Some? then Some(Str(o.value)) else Get(rest, k))
  {
  }

  lemma GetOptNum(key: string, o: Option<nat>, rest: Entries, k: string)
    ensures Get(OptNum(key, o, rest), k) == (if key == k && o.Some? then Some(Int(o.value)) else Get(rest, k))
  {
  }

  /** A first string and four optional ones under different keys. */
  lemma GetFive(p: Pair, ka: string, a: Option<string>, kb: string, b: Option<string>, kc: string, c: Option<string>,
    kd: string, d: Option<string>)
    requires p.value.Str? && p.key != ka && p.key != kb && p.key != kc && p.key != kd
    requires ka != kb && ka != kc && ka != kd && kb != kc && kb != kd && kc != kd
    ensures var es := Cons(p, OptStr(ka, a, OptStr(kb, b, OptStr(kc, c, OptStr(kd, d, Nil)))));
      && DistinctKeys(es) && GetStr(es, p.key) == Some(p.value.s)
      && GetStr(es, ka) == a && GetStr(es, kb) == b && GetStr(es, kc) == c && GetStr(es, kd) == d
  {
    var e4 := OptStr(kd, d, Nil);
    var e3 := OptStr(kc, c, e4);
    var e2 := OptStr(kb, b, e3);
    var e1 := OptStr(ka, a, e2);
    var keys := [ka, kb, kc, kd, p.key];
    forall i | 0 <= i < 5
      ensures var k := keys[i]; Get(e1, k) == (if ka == k && a.Some? then Some(Str(a.value)) else Get(e2, k))
      ensures var k := keys[i]; Get(e2, k) == (if kb == k && b.Some? then Some(Str(b.value)) else Get(e3, k))
      ensures var k := keys[i]; Get(e3, k) == (if kc == k && c.Some? then Some(Str(c.value)) else Get(e4, k))
      ensures var k := keys[i]; Get(e4, k) == (if kd == k && d.Some? then Some(Str(d.value)) else None)
    {
      GetOptStr(ka, a, e2, keys[i]);
      GetOptStr(kb, b, e3, keys[i]);
      GetOptStr(kc, c, e4, keys[i]);
      GetOptStr(kd, d, Nil, keys[i]);
    }
    assert keys[0] == ka && keys[1] == kb && keys[2] == kc && keys[3] == kd && keys[4] == p.key;
    assert DistinctKeys(e4) && DistinctKeys(e3) && DistinctKeys(e2) && DistinctKeys(e1);
  }

  lemma GetThree(ka: string, a: Option<nat>, kb: string, b: Option<nat>, kc: string, c: Option<nat>)
    requires ka != kb && ka != kc && kb != kc
    ensures var es := OptNum(ka, a, OptNum(kb, b, OptNum(kc, c, Nil)));
      DistinctKeys(es) && GetInt(es, ka) == a && GetInt(es, kb) == b && GetInt(es, kc) == c
  {
    var e3 := OptNum(kc, c, Nil);
    var e2 := OptNum(kb, b, e3);
    var keys := [ka, kb, kc];
    forall i | 0 <= i < 3
      ensures var k := keys[i]; Get(OptNum(ka, a, e2), k) == (if ka == k && a.Some? then Some(Int(a.value))
        else Get(e2, k))
      ensures var k := keys[i]; Get(e2, k) == (if kb == k && b.Some? then Some(Int(b.value)) else Get(e3, k))
      ensures var k := keys[i]; Get(e3, k) == (if kc == k && c.Some? then Some(Int(c.value)) else None)
    {
      GetOptNum(ka, a, e2, keys[i]);
      GetOptNum(kb, b, e3, keys[i]);
      GetOptNum(kc, c, Nil, keys[i]);
    }
    assert keys[0] == ka && keys[1] == kb && keys[2] == kc;
    assert DistinctKeys(e3) && DistinctKeys(e2);
  }

  lemma ProviderRead(p: ProviderConfig)
    ensures DistinctKeys(ProviderEntries(p)) && ViewProvider(ProviderSection(p)) == ProviderOf(p)
  {
    GetFive(Pair("type", Str(ConfigType(p.kind))), "api_key", p.apiKey, "base_url", p.baseUrl, "region", p.region,
      "project_id", p.projectId);
  }

  lemma RatesRead(rates: RateLimitConfig)
    ensures DistinctKeys(RateEntries(rates)) && ViewRates(RateEntries(rates)) == rates
    ensures !HasRates(rates) ==> ViewRates(Nil) == rates
  {
    assert "requests_per_minute"[0] == 'r' && "concurrent_requests"[0] == 'c';
    GetThree("requests_per_minute", rates.requests, "tokens_per_minute", rates.tokens, "concurrent_requests",
      rates.concurrent);
  }

  lemma BudgetRead(budget: BudgetConfig)
    ensures DistinctKeys(BudgetEntries(budget)) && ViewBudget(BudgetEntries(budget)) == budget
    ensures !HasBudget(budget) ==> ViewBudget(Nil) == budget
  {
    GetOptStr("monthly_budget_usd", budget.monthly, OptStr("daily_budget_usd", budget.daily, Nil), "daily_budget_usd");
    GetOptStr("daily_budget_usd", budget.daily, Nil, "daily_budget_usd");
    GetOptStr("daily_budget_usd", budget.daily, Nil, "monthly_budget_usd");
  }

  lemma GetTwo(p: Pair, q: Pair)
    requires p.key != q.key && p.value.Str? && q.value.Str?
    ensures var es := Cons(p, Cons(q, Nil));
      DistinctKeys(es) && GetStr(es, p.key) == Some(p.value.s) && GetStr(es, q.key) == Some(q.value.s)
  {
    assert Get(Cons(q, Nil), p.key) == None;
    assert Get(Cons(q, Nil), q.key) == Some(q.value);
  }

  lemma DatabaseRead(database: DatabaseConfig)
    ensures DistinctKeys(DatabaseEntries(database)) && ViewDatabase(DatabaseEntries(database)) == Some(database)
  {
    match database
    case NoDatabase =>
    case Sqlite(path) =>
      assert "type"[0] == 't' && "path"[0] == 'p';
      GetTwo(Pair("type", Str("sqlite")), Pair("path", Str(path)));
    case Postgres(url) =>
      GetTwo(Pair("type", Str("postgres")), Pair("url", Str(url)));
  }

  lemma CacheRead(cache: CacheConfig)
    ensures DistinctKeys(CacheEntries(cache)) && ViewCache(CacheEntries(cache)) == Some(cache)
  {
    match cache
    case NoCache =>
    case Memory =>
    case Redis(url) =>
      GetTwo(Pair("type", Str("redis")), Pair("url", Str(url)));
  }

  // ---------- tables ----------

  lemma FindOnly(s: Section, path: seq<string>)
    ensures Find([s], path) == (if s.path == path then s.entries else Nil)
  {
    assert [s][1..] == [];
  }

  lemma FindTwo(s: Section, t: Section, path: seq<string>)
    ensures Find([s, t], path) == (if s.path == path then s.entries else if t.path == path then t.entries else Nil)
  {
    assert [s, t][1..] == [t];
    FindOnly(t, path);
  }

  /** Pairs of table names that are easily confused. */
  lemma Names()
    ensures "server" != "limits" && "api_key" != "session" && "mode" != "api_key"
    ensures "mode" != "session" && "rate_limits" != "budgets"
  {
    assert "server"[0] == 's' && "limits"[0] == 'l' && "api_key"[0] == 'a' && "session"[0] == 's';
  }

  lemma AuthRead(auth: AuthModeConfig, secret: string)
    ensures var doc := AuthSections(auth, secret);
      ViewAuth(Find(doc, ["auth", "mode"]), Find(doc, ["auth", "api_key"]), Find(doc, ["auth", "session"]))
        == Some(AuthOf(auth, secret))
  {
    var doc := AuthSections(auth, secret);
    Names();
    assert ["auth", "mode"][1] == "mode" && ["auth", "api_key"][1] == "api_key" && ["auth", "session"][1] == "session";
    if auth.NoAuth? {
      assert doc == [doc[0]];
      FindOnly(doc[0], ["auth", "mode"]);
    } else {
      assert doc == [doc[0], doc[1]];
      FindTwo(doc[0], doc[1], ["auth", "mode"]);
      FindTwo(doc[0], doc[1], ["auth", "api_key"]);
      FindTwo(doc[0], doc[1], ["auth", "session"]);
    }
  }

  lemma LimitsRead(rates: RateLimitConfig, budget: BudgetConfig)
    ensures var doc := RateSections(rates) + BudgetSections(budget);
      ViewRates(Find(doc, ["limits", "rate_limits"])) == rates && ViewBudget(Find(doc, ["limits", "budgets"])) == budget
  {
    var a, b := RateSections(rates), BudgetSections(budget);
    Names();
    assert ["limits", "rate_limits"][1] == "rate_limits" && ["limits", "budgets"][1] == "budgets";
    RatesRead(rates);
    BudgetRead(budget);
    FindStays(a, b, ["limits", "rate_limits"]);
    FindSkips(a, b, ["limits", "budgets"]);
    if HasRates(rates) { FindOnly(a[0], ["limits", "rate_limits"]); }
    if HasBudget(budget) { FindOnly(b[0], ["limits", "budgets"]); }
  }

  lemma {:induction false} ViewProvidersConcat(a: seq<Section>, b: seq<Section>)
    ensures ViewProviders(a + b) == ViewProviders(a) + ViewProviders(b)
  {
    if a == [] {
      assert a + b == b;
    } else {
      assert (a + b)[0] == a[0] && (a + b)[1..] == a[1..] + b;
      ViewProvidersConcat(a[1..], b);
    }
  }

  lemma {:induction false} NoProviders(doc: seq<Section>)
    requires forall i :: 0 <= i < |doc| ==> doc[i].path == [] || doc[i].path[0] != "providers"
    ensures ViewProviders(doc) == []
  {
    if doc != [] { NoProviders(doc[1..]); }
  }

  lemma {:induction false} RowsRead(providers: seq<ProviderConfig>)
    ensures ViewProviders(ProviderRows(providers))
         == seq(|providers|, i requires 0 <= i < |providers| => ProviderOf(providers[i]))
  {
    var rows := ProviderRows(providers);
    if providers != [] {
      ProviderRead(providers[0]);
      assert rows[1..] == ProviderRows(providers[1..]);
      RowsRead(providers[1..]);
    }
  }

  lemma ProvidersRead(providers: seq<ProviderConfig>)
    ensures var doc := ProviderSections(providers);
      && ViewProviders(doc) == seq(|providers|, i requires 0 <= i < |providers| => ProviderOf(providers[i]))
      && GetStr(Find(doc, ["providers"]), "default_provider")
        == (if providers == [] then None else Some(providers[0].name))
  {
    if providers != [] {
      var head := Section(["providers"], Cons(Pair("default_provider", Str(providers[0].name)), Nil));
      RowsRead(providers);
      ViewProvidersConcat([head], ProviderRows(providers));
      assert [head][1..] == [];
      assert Find([head] + ProviderRows(providers), ["providers"]) == head.entries;
    }
  }

  // ---------- validity of the document ----------

  /** The names a document can be made from: all different, and none that is already a key of `[providers]`. */
  predicate GoodNames(providers: seq<ProviderConfig>) {
    && (forall i, j :: 0 <= i < j < |providers| ==> providers[i].name != providers[j].name)
    && (forall i :: 0 <= i < |providers| ==> providers[i].name != "default_provider")
  }

  lemma OneValid(s: Section)
    requires DistinctKeys(s.entries)
    ensures WellFormed([s])
  {
  }

  lemma TwoValid(s: Section, t: Section)
    requires DistinctKeys(s.entries) && DistinctKeys(t.entries) && Apart(s, t)
    ensures WellFormed([s, t])
  {
    OneValid(s);
    OneValid(t);
    assert [s, t] == [s] + [t];
    JoinWellFormed([s], [t]);
  }

  lemma HostPort()
    ensures "host" != "port" && "cors" != "host" && "cors" != "port"
  {
    assert "host"[0] == 'h' && "port"[0] == 'p' && "cors"[0] == 'c';
  }

  lemma ServerValid(mode: DeploymentMode)
    ensures WellFormed([Section(["server"], ServerEntries(mode)), Section(["server", "cors"], CorsEntries())])
  {
    var s, t := Section(["server"], ServerEntries(mode)), Section(["server", "cors"], CorsEntries());
    HostPort();
    var loop := LoopbackEntries(mode);
    var port := Cons(Pair("port", Int(8080)), loop);
    assert Get(loop, "port") == None && Get(loop, "host") == None && Get(loop, "cors") == None;
    assert Get(port, "host") == None && Get(port, "cors") == None;
    assert DistinctKeys(port);
    var c3 := Cons(Pair("allow_credentials", Bool(true)), Nil);
    var c2 := Cons(Pair("allowed_origins", ORIGINS), c3);
    assert Get(c3, "allowed_origins") == None && Get(c3, "enabled") == None && Get(c2, "enabled") == None;
    assert DistinctKeys(c2);
    assert !Clash(s, t) by { assert t.path[1] == "cors"; }
    TwoValid(s, t);
  }

  lemma AuthValid(auth: AuthModeConfig, secret: string)
    ensures WellFormed(AuthSections(auth, secret))
  {
    var doc := AuthSections(auth, secret);
    Names();
    if auth.NoAuth? {
      assert doc == [doc[0]];
      OneValid(doc[0]);
    } else {
      assert doc == [doc[0], doc[1]];
      assert doc[0].path[1] == "mode" && doc[1].path[1] == AuthSections(auth, secret)[1].path[1];
      TwoValid(doc[0], doc[1]);
    }
  }

  lemma LimitsValid(rates: RateLimitConfig, budget: BudgetConfig)
    ensures WellFormed(RateSections(rates) + BudgetSections(budget))
  {
    Names();
    RatesRead(rates);
    BudgetRead(budget);
    var a, b := RateSections(rates), BudgetSections(budget);
    assert ["limits", "rate_limits"][1] == "rate_limits" && ["limits", "budgets"][1] == "budgets";
    JoinWellFormed(a, b);
  }

  lemma RowsValid(providers: seq<ProviderConfig>)
    ensures WellFormed(ProviderRows(providers))
       <==> forall i, j :: 0 <= i < j < |providers| ==> providers[i].name != providers[j].name
  {
    var rows := ProviderRows(providers);
    forall i | 0 <= i < |rows| ensures DistinctKeys(rows[i].entries) { ProviderRead(providers[i]); }
    forall i | 0 <= i < |rows| ensures rows[i].path == ["providers", providers[i].name]
      && rows[i].path[1] == providers[i].name {}
  }

  lemma HeadClash(first: string, p: ProviderConfig)
    ensures var head := Section(["providers"], Cons(Pair("default_provider", Str(first)), Nil));
      && ProviderSection(p).path != head.path && !Clash(ProviderSection(p), head)
      && (Clash(head, ProviderSection(p)) <==> p.name == "default_provider")
  {
    var head := Section(["providers"], Cons(Pair("default_provider", Str(first)), Nil));
    var path := ProviderSection(p).path;
    assert path[..1] == ["providers"] && path[1] == p.name;
    assert head.path < path;
    assert Get(head.entries, p.name).Some? <==> p.name == "default_provider";
  }

  /** The provider tables are valid exactly when the names are good. */
  lemma ProvidersValid(providers: seq<ProviderConfig>)
    ensures WellFormed(ProviderSections(providers)) <==> GoodNames(providers)
  {
    if providers != [] {
      var head := Section(["providers"], Cons(Pair("default_provider", Str(providers[0].name)), Nil));
      var rows := ProviderRows(providers);
      var doc := ProviderSections(providers);
      forall i | 0 <= i < |rows|
        ensures doc[i + 1] == rows[i] && rows[i].path != head.path && !Clash(rows[i], head)
        ensures Clash(head, rows[i]) <==> providers[i].name == "default_provider"
      {
        HeadClash(providers[0].name, providers[i]);
      }
      if WellFormed(doc) {
        PartWellFormed(doc, 1, |doc|);
        assert doc[1..|doc|] == rows;
        RowsValid(providers);
        forall i | 0 <= i < |providers| ensures providers[i].name != "default_provider" {
          assert !Clash(doc[0], doc[i + 1]);
        }
      }
      if GoodNames(providers) {
        RowsValid(providers);
        OneValid(head);
        JoinWellFormed([head], rows);
      }
    }
  }

  lemma BlocksUnder(mode: DeploymentMode, cfg: WizardConfig, secret: string)
    ensures var b := Blocks(mode, cfg, secret);
      forall i :: 0 <= i < |b| ==> Under(b[i].sections, b[i].top)
  {
    var b := Blocks(mode, cfg, secret);
    RowsUnder(cfg.providers);
    assert Under(b[0].sections, "server") && Under(b[1].sections, "database") && Under(b[2].sections, "cache");
    assert Under(b[3].sections, "ui") && Under(b[4].sections, "auth") && Under(b[5].sections, "limits");
  }

  lemma RowsUnder(providers: seq<ProviderConfig>)
    ensures Under(ProviderSections(providers), "providers")
  {
  }

  lemma TopsDiffer(mode: DeploymentMode, cfg: WizardConfig, secret: string)
    ensures Tidy(Blocks(mode, cfg, secret))
  {
    var b := Blocks(mode, cfg, secret);
    Names();
    assert b[0].top == "server" && b[1].top == "database" && b[2].top == "cache" && b[3].top == "ui";
    assert b[4].top == "auth" && b[5].top == "limits" && b[6].top == "providers";
    BlocksUnder(mode, cfg, secret);
  }

  lemma FixedBlocksValid(mode: DeploymentMode, cfg: WizardConfig, secret: string)
    ensures forall i :: 0 <= i < 6 ==> WellFormed(Blocks(mode, cfg, secret)[i].sections)
  {
    ServerValid(mode);
    DatabaseRead(cfg.database);
    OneValid(Section(["database"], DatabaseEntries(cfg.database)));
    CacheRead(cfg.cache);
    OneValid(Section(["cache"], CacheEntries(cfg.cache)));
    OneValid(Section(["ui"], Cons(Pair("enabled", Bool(true)), Nil)));
    AuthValid(cfg.auth, secret);
    LimitsValid(cfg.rates, cfg.budget);
  }

  lemma DocumentValid(mode: DeploymentMode, cfg: WizardConfig, secret: string)
    ensures WellFormed(Document(mode, cfg, secret)) <==> GoodNames(cfg.providers)
  {
    var b := Blocks(mode, cfg, secret);
    TopsDiffer(mode, cfg, secret);
    JoinAll(b);
    RootApart(b);
    JoinWellFormed([ROOT], Join(b));
    OneValid(ROOT);
    FixedBlocksValid(mode, cfg, secret);
    ProvidersValid(cfg.providers);
    assert b[6].sections == ProviderSections(cfg.providers);
  }

  lemma RootApart(blocks: seq<Block>)
    requires Tidy(blocks)
    ensures AllApart([ROOT], Join(blocks))
    ensures forall k :: 0 <= k < |Join(blocks)| ==> Join(blocks)[k].path != []
  {
    forall k | 0 <= k < |Join(blocks)| ensures Join(blocks)[k].path != [] {
      var i := JoinMember(blocks, k);
    }
  }

  // ---------- the round trip ----------

  lemma FindInDocument(mode: DeploymentMode, cfg: WizardConfig, secret: string, i: nat, path: seq<string>)
    requires i < 7 && path != [] && path[0] == Blocks(mode, cfg, secret)[i].top
    ensures Find(Document(mode, cfg, secret), path) == Find(Blocks(mode, cfg, secret)[i].sections, path)
  {
    TopsDiffer(mode, cfg, secret);
    FindSkips([ROOT], Join(Blocks(mode, cfg, secret)), path);
    FindInBlock(Blocks(mode, cfg, secret), i, path);
  }

  lemma {:induction false} LastBlockProviders(blocks: seq<Block>)
    requires Tidy(blocks) && blocks != [] && blocks[|blocks| - 1].top == "providers"
    ensures ViewProviders(Join(blocks)) == ViewProviders(blocks[|blocks| - 1].sections)
  {
    ViewProvidersConcat(blocks[0].sections, Join(blocks[1..]));
    if |blocks| == 1 {
      assert Join(blocks[1..]) == [];
    } else {
      NoProviders(blocks[0].sections);
      LastBlockProviders(blocks[1..]);
    }
  }

  lemma StorageMeaning(mode: DeploymentMode, cfg: WizardConfig, secret: string)
    ensures var doc := Document(mode, cfg, secret);
      ViewDatabase(Find(doc, ["database"])) == Some(cfg.database) && ViewCache(Find(doc, ["cache"])) == Some(cfg.cache)
  {
    FindInDocument(mode, cfg, secret, 1, ["database"]);
    FindOnly(Section(["database"], DatabaseEntries(cfg.database)), ["database"]);
    DatabaseRead(cfg.database);
    FindInDocument(mode, cfg, secret, 2, ["cache"]);
    FindOnly(Section(["cache"], CacheEntries(cfg.cache)), ["cache"]);
    CacheRead(cfg.cache);
  }

  lemma AuthMeaning(mode: DeploymentMode, cfg: WizardConfig, secret: string)
    ensures var doc := Document(mode, cfg, secret);
      ViewAuth(Find(doc, ["auth", "mode"]), Find(doc, ["auth", "api_key"]), Find(doc, ["auth", "session"]))
        == Some(AuthOf(cfg.auth, secret))
  {
    FindInDocument(mode, cfg, secret, 4, ["auth", "mode"]);
    FindInDocument(mode, cfg, secret, 4, ["auth", "api_key"]);
    FindInDocument(mode, cfg, secret, 4, ["auth", "session"]);
    AuthRead(cfg.auth, secret);
  }

  lemma LimitsMeaning(mode: DeploymentMode, cfg: WizardConfig, secret: string)
    ensures var doc := Document(mode, cfg, secret);
      ViewRates(Find(doc, ["limits", "rate_limits"])) == cfg.rates
        && ViewBudget(Find(doc, ["limits", "budgets"])) == cfg.budget
  {
    FindInDocument(mode, cfg, secret, 5, ["limits", "rate_limits"]);
    FindInDocument(mode, cfg, secret, 5, ["limits", "budgets"]);
    LimitsRead(cfg.rates, cfg.budget);
  }

  lemma ProvidersMeaning(mode: DeploymentMode, cfg: WizardConfig, secret: string)
    ensures var doc := Document(mode, cfg, secret);
      && ViewProviders(doc) == ViewOf(cfg, secret).providers
      && GetStr(Find(doc, ["providers"]), "default_provider") == ViewOf(cfg, secret).default
  {
    var b := Blocks(mode, cfg, secret);
    FindInDocument(mode, cfg, secret, 6, ["providers"]);
    ProvidersRead(cfg.providers);
    TopsDiffer(mode, cfg, secret);
    LastBlockProviders(b);
    ViewProvidersConcat([ROOT], Join(b));
    assert ViewProviders([ROOT]) == [] by { assert [ROOT][1..] == []; }
  }

  /** The document holds what the wizard was told. */
  lemma DocumentMeaning(mode: DeploymentMode, cfg: WizardConfig, secret: string)
    ensures Interpret(Document(mode, cfg, secret)) == ViewOf(cfg, secret)
  {
    StorageMeaning(mode, cfg, secret);
    AuthMeaning(mode, cfg, secret);
    LimitsMeaning(mode, cfg, secret);
    ProvidersMeaning(mode, cfg, secret);
  }

  // ---------- raw strings that go astray ----------

  /** The tables with raw strings: the session, the budgets and the providers. */
  predicate RawTable(cfg: WizardConfig, secret: string, s: Section) {
    || (cfg.auth.Idp? && s == Section(["auth", "session"], Cons(Pair("secret", Str(secret)), Nil)))
    || s == Section(["limits", "budgets"], BudgetEntries(cfg.budget))
    || s in ProviderRows(cfg.providers)
  }

  lemma AuthRawTable(cfg: WizardConfig, secret: string, s: Section)
    requires s in AuthSections(cfg.auth, secret) && HasRaws(s.path)
    ensures RawTable(cfg, secret, s)
  {
    Names();
    assert s.path[0] == "auth" && "auth"[0] == 'a' && "limits"[0] == 'l' && "providers"[0] == 'p';
    assert ["auth", "mode"][1] == "mode" && ["auth", "api_key"][1] == "api_key" && ["auth", "session"][1] == "session";
  }

  lemma LimitsRawTable(cfg: WizardConfig, secret: string, s: Section)
    requires s in RateSections(cfg.rates) + BudgetSections(cfg.budget) && HasRaws(s.path)
    ensures RawTable(cfg, secret, s)
  {
    Names();
    assert s.path[0] == "limits" && "auth"[0] == 'a' && "limits"[0] == 'l' && "providers"[0] == 'p';
    assert ["limits", "rate_limits"][1] == "rate_limits" && ["limits", "budgets"][1] == "budgets";
  }

  lemma FindRawTable(mode: DeploymentMode, cfg: WizardConfig, secret: string, j: nat)
    requires j < |Join(Blocks(mode, cfg, secret))| && HasRaws(Join(Blocks(mode, cfg, secret))[j].path)
    ensures RawTable(cfg, secret, Join(Blocks(mode, cfg, secret))[j])
  {
    var b := Blocks(mode, cfg, secret);
    var s := Join(b)[j];
    var i := JoinMember(b, j);
    TopsDiffer(mode, cfg, secret);
    assert s.path[0] == b[i].top && "auth" == b[4].top && "limits" == b[5].top && "providers" == b[6].top;
    if i == 4 {
      AuthRawTable(cfg, secret, s);
    } else if i == 5 {
      LimitsRawTable(cfg, secret, s);
    }
  }

  /** Only the keys of a table can be looked up in it. */
  lemma OptKeys(key: string, o: Option<string>, rest: Entries, k: string)
    requires Get(OptStr(key, o, rest), k).Some?
    ensures k == key || Get(rest, k).Some?
  {
  }

  lemma {:induction false} FindFirst(a: seq<Section>, s: Section, b: seq<Section>)
    requires WellFormed(a + [s] + b) || forall i :: 0 <= i < |a| ==> a[i].path != s.path
    ensures Find(a + [s] + b, s.path) == s.entries
  {
    forall i | 0 <= i < |a| ensures a[i].path != s.path {
      if WellFormed(a + [s] + b) {
        assert (a + [s] + b)[i] == a[i] && (a + [s] + b)[|a|] == s;
      }
    }
    assert a + [s] + b == a + ([s] + b);
    FindSkips(a, [s] + b, s.path);
    assert ([s] + b)[0] == s;
  }

  /** `now` has another string than `was` under some key of `was`. */
  ghost predicate Differs(was: Entries, now: Entries) {
    exists k :: GetStr(was, k).Some? && GetStr(now, k).Some? && GetStr(was, k) != GetStr(now, k)
  }

  lemma SessionDiffers(secret: string, now: Entries)
    requires Differs(Cons(Pair("secret", Str(secret)), Nil), now)
    ensures GetStr(now, "secret").Some? && GetStr(now, "secret") != Some(secret)
  {
    var was := Cons(Pair("secret", Str(secret)), Nil);
    var k :| GetStr(was, k).Some? && GetStr(now, k).Some? && GetStr(was, k) != GetStr(now, k);
    OptKeys("secret", Some(secret), Nil, k);
  }

  lemma BudgetDiffers(budget: BudgetConfig, now: Entries)
    requires Differs(BudgetEntries(budget), now)
    ensures ViewBudget(now) != budget
  {
    var was := BudgetEntries(budget);
    var k :| GetStr(was, k).Some? && GetStr(now, k).Some? && GetStr(was, k) != GetStr(now, k);
    BudgetRead(budget);
    OptKeys("monthly_budget_usd", budget.monthly, OptStr("daily_budget_usd", budget.daily, Nil), k);
    if k != "monthly_budget_usd" { OptKeys("daily_budget_usd", budget.daily, Nil, k); }
  }

  lemma FiveKeys(p: Pair, ka: string, a: Option<string>, kb: string, b: Option<string>, kc: string, c: Option<string>,
    kd: string, d: Option<string>, k: string)
    requires Get(Cons(p, OptStr(ka, a, OptStr(kb, b, OptStr(kc, c, OptStr(kd, d, Nil))))), k).Some?
    ensures k == p.key || k == ka || k == kb || k == kc || k == kd
  {
    var e4 := OptStr(kd, d, Nil);
    var e3 := OptStr(kc, c, e4);
    var e2 := OptStr(kb, b, e3);
    if k != p.key {
      OptKeys(ka, a, e2, k);
      if k != ka { OptKeys(kb, b, e3, k); }
      if k != ka && k != kb { OptKeys(kc, c, e4, k); }
      if k != ka && k != kb && k != kc { OptKeys(kd, d, Nil, k); }
    }
  }

  lemma ProviderDiffers(p: ProviderConfig, now: Entries)
    requires Differs(ProviderEntries(p), now)
    ensures ViewProvider(Section(["providers", p.name], now)) != ProviderOf(p)
  {
    var was := ProviderEntries(p);
    var k :| GetStr(was, k).Some? && GetStr(now, k).Some? && GetStr(was, k) != GetStr(now, k);
    ProviderRead(p);
    FiveKeys(Pair("type", Str(ConfigType(p.kind))), "api_key", p.apiKey, "base_url", p.baseUrl, "region", p.region,
      "project_id", p.projectId, k);
  }

  lemma DistinctRawTable(cfg: WizardConfig, secret: string, s: Section)
    requires RawTable(cfg, secret, s)
    ensures DistinctKeys(s.entries)
  {
    BudgetRead(cfg.budget);
    if s in ProviderRows(cfg.providers) {
      var i :| 0 <= i < |cfg.providers| && s == ProviderSection(cfg.providers[i]);
      ProviderRead(cfg.providers[i]);
    }
  }

  /** A document in which such a table says something else does not say what the wizard was told. */
  lemma TableSeen(cfg: WizardConfig, secret: string, before: seq<Section>, s: Section, after: seq<Section>,
    now: Entries, more: seq<Section>)
    requires Interpret(before + [s] + after) == ViewOf(cfg, secret)
    requires RawTable(cfg, secret, s) && Differs(s.entries, now)
    requires WellFormed(before + [Section(s.path, now)] + more)
    ensures Interpret(before + [Section(s.path, now)] + more) != ViewOf(cfg, secret)
  {
    FindFirst(before, Section(s.path, now), more);
    if s in ProviderRows(cfg.providers) {
      var i :| 0 <= i < |cfg.providers| && s == ProviderSection(cfg.providers[i]);
      ProviderDiffers(cfg.providers[i], now);
      ProviderRead(cfg.providers[i]);
      RowSeen(before, s, Section(s.path, now), after, more);
    } else if s == Section(["limits", "budgets"], BudgetEntries(cfg.budget)) {
      BudgetDiffers(cfg.budget, now);
    } else {
      SessionDiffers(secret, now);
    }
  }

  /** Provider tables after the same tables have the same place. */
  lemma RowSeen(before: seq<Section>, s: Section, t: Section, a: seq<Section>, b: seq<Section>)
    requires s.path == t.path && |s.path| == 2 && s.path[0] == "providers" && ViewProvider(s) != ViewProvider(t)
    ensures ViewProviders(before + [s] + a) != ViewProviders(before + [t] + b)
  {
    ViewProvidersConcat(before + [s], a);
    ViewProvidersConcat(before, [s]);
    ViewProvidersConcat(before + [t], b);
    ViewProvidersConcat(before, [t]);
    assert [s][1..] == [] && [t][1..] == [];
    var n := |ViewProviders(before)|;
    assert ViewProviders(before + [s] + a)[n] == ViewProvider(s);
    assert ViewProviders(before + [t] + b)[n] == ViewProvider(t);
  }

  /** Items that go astray in a table with raw strings are not read as what the wizard was told. */
  lemma StraysAway(cfg: WizardConfig, secret: string, seen: seq<string> -> bool, all: seq<Section>, items: List<Item>)
    requires Interpret([ROOT] + all) == ViewOf(cfg, secret)
    requires forall j :: 0 <= j < |all| && seen(all[j].path) ==> RawTable(cfg, secret, all[j])
    requires StraysIn(seen, all, items) && WellFormed(Gather([], items))
    ensures Interpret(Gather([], items)) != ViewOf(cfg, secret)
  {
    var j, rest :| 0 <= j < |all| && seen(all[j].path) && Strays(all[j].entries, rest)
      && items == Flatten(all[..j], Cons(Header(all[j].path), rest));
    StraysAt(cfg, secret, all, j, rest);
  }

  lemma StraysAt(cfg: WizardConfig, secret: string, all: seq<Section>, j: nat, rest: List<Item>)
    requires Interpret([ROOT] + all) == ViewOf(cfg, secret)
    requires j < |all| && RawTable(cfg, secret, all[j]) && Strays(all[j].entries, rest)
    requires WellFormed(Gather([], Flatten(all[..j], Cons(Header(all[j].path), rest))))
    ensures Interpret(Gather([], Flatten(all[..j], Cons(Header(all[j].path), rest)))) != ViewOf(cfg, secret)
  {
    var more := GatherUntil(all, j, rest);
    StraysDiffer(cfg, secret, all[j], rest);
    assert [ROOT] + all == [ROOT] + all[..j] + [all[j]] + all[j + 1..];
    TableSeen(cfg, secret, [ROOT] + all[..j], all[j], all[j + 1..], Leading(rest), more);
  }

  lemma StraysDiffer(cfg: WizardConfig, secret: string, s: Section, rest: List<Item>)
    requires RawTable(cfg, secret, s) && Strays(s.entries, rest)
    ensures Differs(s.entries, Leading(rest))
  {
    DistinctRawTable(cfg, secret, s);
    var k := StraysSeen(s.entries, rest);
    assert GetStr(s.entries, k) != GetStr(Leading(rest), k);
  }

  lemma StrayFile(mode: DeploymentMode, cfg: WizardConfig, secret: string, items: List<Item>)
    requires StraysIn(HasRaws, Join(Blocks(mode, cfg, secret)), items) && WellFormed(Gather([], items))
    ensures Interpret(Gather([], items)) != ViewOf(cfg, secret)
  {
    var all := Join(Blocks(mode, cfg, secret));
    forall j | 0 <= j < |all| && HasRaws(all[j].path) ensures RawTable(cfg, secret, all[j]) {
      FindRawTable(mode, cfg, secret, j);
    }
    DocumentMeaning(mode, cfg, secret);
    StraysAway(cfg, secret, HasRaws, all, items);
  }

  // ---------- names ----------

  lemma {:induction false} ViewsBare(doc: seq<Section>)
    requires forall i :: 0 <= i < |doc| ==> BarePath(doc[i].path)
    ensures forall i :: 0 <= i < |ViewProviders(doc)| ==> BareKey(ViewProviders(doc)[i].name)
  {
    if doc != [] { ViewsBare(doc[1..]); }
  }

  /** Names that are no bare keys are never given back. */
  lemma NamesReadBare(text: string, cfg: WizardConfig, secret: string)
    requires ReadDocument(text).Some? && Interpret(ReadDocument(text).value) == ViewOf(cfg, secret)
    ensures BareNames(cfg.providers)
  {
    AllBare(text);
    GatherBare([], ReadAll(text).value);
    ViewsBare(ReadDocument(text).value);
    var views := ViewOf(cfg, secret).providers;
    forall i | 0 <= i < |cfg.providers| ensures BareKey(cfg.providers[i].name) {
      assert views[i].name == cfg.providers[i].name;
    }
  }

  // ---------- the result ----------

  /** Reading `text` gives back the configuration. */
  predicate GivenBack(text: string, cfg: WizardConfig, secret: string) {
    ReadDocument(text).Some? && Interpret(ReadDocument(text).value) == ViewOf(cfg, secret)
  }

  /** Nothing escaped has a control character, nothing raw needs escaping, and the names are different bare keys other
      than `default_provider`. */
  predicate Recoverable(cfg: WizardConfig, secret: string) {
    GoodTexts(cfg) && GoodRaws(cfg, secret) && BareNames(cfg.providers) && GoodNames(cfg.providers)
  }

  /** Reading the printed file gives back what the wizard was told exactly when it is recoverable. With bare names and
      raw strings that need no escaping, the file is refused in all other cases. */
  lemma RoundTrip(mode: DeploymentMode, cfg: WizardConfig, secret: string)
    requires OneLineNotes(cfg.auth)
    ensures var text := PrintAll(Whole(mode, cfg, secret));
      && (GivenBack(text, cfg, secret) <==> Recoverable(cfg, secret))
      && (BareNames(cfg.providers) && GoodRaws(cfg, secret) && !Recoverable(cfg, secret) ==> ReadDocument(text).None?)
  {
    var text, all := PrintAll(Whole(mode, cfg, secret)), Join(Blocks(mode, cfg, secret));
    if BareNames(cfg.providers) {
      WholeWrites(mode, cfg, secret);
      if !GoodRaws(cfg, secret) {
        if ReadDocument(text).Some? { StrayFile(mode, cfg, secret, ReadAll(text).value); }
      } else if GoodTexts(cfg) {
        DocumentReads(text, all);
        DocumentValid(mode, cfg, secret);
        DocumentMeaning(mode, cfg, secret);
      }
    } else if GivenBack(text, cfg, secret) {
      NamesReadBare(text, cfg, secret);
    }
  }

  /** What a user runs: print, then read. */
  method GenerateThenRead(mode: DeploymentMode, cfg: WizardConfig, secret: string) returns (config: string)
    requires OneLineNotes(cfg.auth)
    ensures GivenBack(config, cfg, secret) <==> Recoverable(cfg, secret)
    ensures BareNames(cfg.providers) && GoodRaws(cfg, secret) && !Recoverable(cfg, secret) ==>
      ReadDocument(config).None?
  {
    config := GenerateConfig(mode, cfg, secret);
    RoundTrip(mode, cfg, secret);
  }
}

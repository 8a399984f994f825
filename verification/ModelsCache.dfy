/** The static models cache: every refresh keeps the last good answer of each configured
    provider. */
module ModelsCache {
  import opened Basics

  /** What one provider answered in a round; `None` is a failed fetch. */
  datatype Fetch<R> = Fetch(provider: string, response: Option<R>)

  /** The cache after the results of a round are inserted. */
  function Insert<R>(cache: map<string, R>, results: seq<Fetch<R>>): map<string, R>
    decreases |results|
  {
    if results == [] then cache
    else
      var f := results[|results| - 1];
      var before := Insert(cache, results[..|results| - 1]);
      if f.response.Some? then before[f.provider := f.response.value] else before
  }

  function Retain<R>(cache: map<string, R>, configured: set<string>): map<string, R> {
    map p | p in cache && p in configured :: cache[p]
  }

  class Cache<R> {
    const configured: set<string>
    var models: map<string, R>

    constructor (configured: set<string>)
      ensures this.configured == configured && models == map[]
    {
      this.configured := configured;
      this.models := map[];
    }

    /** `warm_static_models_cache`, once all providers have answered. */
    method Warm(results: seq<Fetch<R>>)
      modifies this
      ensures models == Insert(Retain(old(models), configured), results)
    {
      models := map p | p in models && p in configured :: models[p];
      var i := 0;
      while i < |results|
        invariant 0 <= i <= |results|
        invariant models == Insert(Retain(old(models), configured), results[..i])
      {
        assert results[..i + 1][..i] == results[..i];
        if results[i].response.Some? {
          models := models[results[i].provider := results[i].response.value];
        }
        i := i + 1;
      }
      assert results[..i] == results;
    }

    /** Any sequence of committed refresh rounds. */
    method WarmAll(rounds: seq<seq<Fetch<R>>>)
      requires forall i :: 0 <= i < |rounds| ==> ForConfigured(configured, rounds[i])
      modifies this
      ensures LastGood(configured, old(models), rounds, models)
    {
      RoundsMeaning(configured, models, rounds);
      var i := 0;
      while i < |rounds|
        invariant 0 <= i <= |rounds|
        invariant models == Rounds(old(models), configured, rounds[..i])
      {
        assert rounds[..i + 1][..i] == rounds[..i];
        Warm(rounds[i]);
        i := i + 1;
      }
      assert rounds[..i] == rounds;
    }
  }

  /** A round asks the configured providers only. */
  ghost predicate ForConfigured<R>(configured: set<string>, results: seq<Fetch<R>>) {
    forall i :: 0 <= i < |results| ==> results[i].provider in configured
  }

  function Rounds<R>(cache: map<string, R>, configured: set<string>, rounds: seq<seq<Fetch<R>>>): map<string, R>
    decreases |rounds|
  {
    if rounds == [] then cache
    else Insert(Retain(Rounds(cache, configured, rounds[..|rounds| - 1]), configured), rounds[|rounds| - 1])
  }

  /** The last successful answer of a provider in one round. */
  function Latest<R>(results: seq<Fetch<R>>, p: string): Option<R>
    decreases |results|
  {
    if results == [] then None
    else
      var f := results[|results| - 1];
      if f.provider == p && f.response.Some? then f.response else Latest(results[..|results| - 1], p)
  }

  /** The last successful answer of a provider over all rounds. */
  function LatestRound<R>(rounds: seq<seq<Fetch<R>>>, p: string): Option<R>
    decreases |rounds|
  {
    if rounds == [] then None
    else
      var last := Latest(rounds[|rounds| - 1], p);
      if last.Some? then last else LatestRound(rounds[..|rounds| - 1], p)
  }

  /** A provider's entry is its answer from the latest round in which its fetch succeeded;
      without any, an entry from before survives as long as the provider is configured. */
  ghost predicate LastGood<R>(configured: set<string>, before: map<string, R>, rounds: seq<seq<Fetch<R>>>,
    after: map<string, R>) {
    forall p ::
      if LatestRound(rounds, p).Some? then p in after && after[p] == LatestRound(rounds, p).value
      else (p in after <==> p in before && (rounds == [] || p in configured)) && (p in after ==> after[p] == before[p])
  }

  lemma {:induction false} InsertMeaning<R>(cache: map<string, R>, results: seq<Fetch<R>>, p: string)
    ensures var after := Insert(cache, results);
            if Latest(results, p).Some? then p in after && after[p] == Latest(results, p).value
            else (p in after <==> p in cache) && (p in after ==> after[p] == cache[p])
    decreases |results|
  {
    if results != [] { InsertMeaning(cache, results[..|results| - 1], p); }
  }

  lemma {:induction false} LatestConfigured<R>(configured: set<string>, rounds: seq<seq<Fetch<R>>>, p: string)
    requires forall i :: 0 <= i < |rounds| ==> ForConfigured(configured, rounds[i])
    ensures LatestRound(rounds, p).Some? ==> p in configured
    decreases |rounds|
  {
    if rounds != [] {
      LatestOne(configured, rounds[|rounds| - 1], p);
      LatestConfigured(configured, rounds[..|rounds| - 1], p);
    }
  }

  lemma {:induction false} LatestOne<R>(configured: set<string>, results: seq<Fetch<R>>, p: string)
    requires ForConfigured(configured, results)
    ensures Latest(results, p).Some? ==> p in configured
    decreases |results|
  {
    if results != [] { LatestOne(configured, results[..|results| - 1], p); }
  }

  /** The rounds keep exactly the last good answers. */
  lemma {:induction false} RoundsMeaning<R>(configured: set<string>, cache: map<string, R>, rounds: seq<seq<Fetch<R>>>)
    requires forall i :: 0 <= i < |rounds| ==> ForConfigured(configured, rounds[i])
    ensures LastGood(configured, cache, rounds, Rounds(cache, configured, rounds))
    decreases |rounds|
  {
    if rounds != [] {
      var init, last := rounds[..|rounds| - 1], rounds[|rounds| - 1];
      RoundsMeaning(configured, cache, init);
      var mid := Rounds(cache, configured, init);
      var after := Rounds(cache, configured, rounds);
      forall p ensures
          if LatestRound(rounds, p).Some? then p in after && after[p] == LatestRound(rounds, p).value
          else (p in after <==> p in cache && p in configured) && (p in after ==> after[p] == cache[p])
      {
        InsertMeaning(Retain(mid, configured), last, p);
        LatestConfigured(configured, init, p);
      }
    }
  }

  /** Starting empty, the cache holds exactly the configured providers that ever answered. */
  lemma FromEmpty<R>(configured: set<string>, rounds: seq<seq<Fetch<R>>>, p: string)
    requires forall i :: 0 <= i < |rounds| ==> ForConfigured(configured, rounds[i])
    ensures var after := Rounds(map[], configured, rounds);
            && (p in after <==> LatestRound(rounds, p).Some?)
            && (p in after ==> p in configured && after[p] == LatestRound(rounds, p).value)
  {
    RoundsMeaning(configured, map[], rounds);
    LatestConfigured(configured, rounds, p);
  }
}

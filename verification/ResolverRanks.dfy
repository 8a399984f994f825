/** Which specifications have a ranking: exactly those without a cycle of references through an `allOf`,
    and a strict one exactly those without any cycle. */
module ResolverRanks {
  import opened Basics
  import opened JsonValues
  import opened SchemaShape
  import opened ResolverMeaning

  function Zero(all: set<string>): Ranking { map r | r in all :: 0 }

  /** Every reference of `all` denotes nothing or a sound schema whose references are again in `all`. */
  ghost predicate Closed(spec: Json, all: set<string>) {
    forall r {:trigger Target(spec, r)} :: r in all && Target(spec, r).Some? ==>
      Target(spec, r).value.Object? && Sound(Zero(all), Target(spec, r).value)
  }

  /** `Sum` of the enclosing `allOf`s, and with `strict` one more for every reference followed. */
  function Weight(strict: bool, ks: seq<nat>): nat { Sum(ks) + (if strict then |ks| else 0) }

  ghost predicate IsCycle(spec: Json, refs: seq<string>, ks: seq<nat>) {
    Chain(spec, refs, ks) && refs[|ks|] == refs[0]
  }

  /** No cycle passes through an `allOf`; with `strict`, there is no cycle at all. */
  ghost predicate NoHeavyCycle(spec: Json, all: set<string>, strict: bool) {
    forall refs, ks :: IsCycle(spec, refs, ks) && refs[0] in all ==> Weight(strict, ks) == 0
  }

  // ---------- soundness only looks at which references there are ----------

  lemma {:induction false} SameKeysSound(r1: Ranking, r2: Ranking, j: Json)
    requires r1.Keys == r2.Keys && Sound(r1, j)
    ensures Sound(r2, j)
    decreases j, 0
  {
    if j.Object? { SameKeysFields(r1, r2, j.fields); }
  }

  lemma {:induction false} SameKeysFields(r1: Ranking, r2: Ranking, fs: Fields)
    requires r1.Keys == r2.Keys && FieldsSound(r1, fs)
    ensures FieldsSound(r2, fs)
    decreases fs, 0
  {
    if fs.Field? {
      SameKeysKey(r1, r2, fs.key, fs.value);
      SameKeysFields(r1, r2, fs.rest);
    }
  }

  lemma {:induction false} SameKeysKey(r1: Ranking, r2: Ranking, k: string, v: Json)
    requires r1.Keys == r2.Keys && KeySound(r1, k, v)
    ensures KeySound(r2, k, v)
    decreases v, 1
  {
    if k == "$ref" {
      assert v.s in r1.Keys;
    } else if k == "allOf" || k == "oneOf" || k == "anyOf" {
      SameKeysList(r1, r2, v.items);
    } else if k == "properties" {
      SameKeysValues(r1, r2, v.fields);
    } else if k == "items" || k == "additionalProperties" {
      SameKeysSound(r1, r2, v);
    }
  }

  lemma {:induction false} SameKeysList(r1: Ranking, r2: Ranking, l: List)
    requires r1.Keys == r2.Keys && ListSound(r1, l)
    ensures ListSound(r2, l)
    decreases l, 0
  {
    if l.Cons? {
      SameKeysSound(r1, r2, l.head);
      SameKeysList(r1, r2, l.tail);
    }
  }

  lemma {:induction false} SameKeysValues(r1: Ranking, r2: Ranking, fs: Fields)
    requires r1.Keys == r2.Keys && ValuesSound(r1, fs)
    ensures ValuesSound(r2, fs)
    decreases fs, 0
  {
    if fs.Field? {
      SameKeysSound(r1, r2, fs.value);
      SameKeysValues(r1, r2, fs.rest);
    }
  }

  // ---------- where the level of a schema comes from ----------

  /** Where a level comes from: a reference met under some `allOf`s, or the nesting of `allOf`s alone. */
  datatype Origin = Nesting | Met(ref: string, k: nat)

  lemma {:induction false} LevelFrom(rank: Ranking, zero: Ranking, j: Json) returns (o: Origin)
    requires Sound(rank, j)
    ensures match o
      case Nesting => Level(rank, j) <= Level(zero, j)
      case Met(ref, k) => Meets(j, ref, k) && ref in rank && Level(rank, j) == rank[ref] + k
    decreases j, 0
  {
    o := Nesting;
    if j.Object? { o := FieldsLevelFrom(rank, zero, j.fields); }
  }

  lemma {:induction false} FieldsLevelFrom(rank: Ranking, zero: Ranking, fs: Fields) returns (o: Origin)
    requires FieldsSound(rank, fs)
    ensures match o
      case Nesting => FieldsLevel(rank, fs) <= FieldsLevel(zero, fs)
      case Met(ref, k) => FieldsMeet(fs, ref, k) && ref in rank && FieldsLevel(rank, fs) == rank[ref] + k
    decreases fs, 0
  {
    o := Nesting;
    if fs.Field? {
      if KeyLevel(rank, fs.key, fs.value) >= FieldsLevel(rank, fs.rest) {
        o := KeyLevelFrom(rank, zero, fs.key, fs.value);
      } else {
        o := FieldsLevelFrom(rank, zero, fs.rest);
      }
    }
  }

  lemma {:induction false} KeyLevelFrom(rank: Ranking, zero: Ranking, key: string, v: Json) returns (o: Origin)
    requires KeySound(rank, key, v)
    ensures match o
      case Nesting => KeyLevel(rank, key, v) <= KeyLevel(zero, key, v)
      case Met(ref, k) => KeyMeets(key, v, ref, k) && ref in rank && KeyLevel(rank, key, v) == rank[ref] + k
    decreases v, 1
  {
    o := Nesting;
    if key == "$ref" {
      o := Met(v.s, 0);
    } else if key == "allOf" {
      o := ListLevelFrom(rank, zero, v.items);
      if o.Met? { o := Met(o.ref, o.k + 1); }
    } else if key == "oneOf" || key == "anyOf" {
      o := ListLevelFrom(rank, zero, v.items);
    } else if key == "properties" {
      o := ValuesLevelFrom(rank, zero, v.fields);
    } else if key == "items" || key == "additionalProperties" {
      o := LevelFrom(rank, zero, v);
    }
  }

  lemma {:induction false} ListLevelFrom(rank: Ranking, zero: Ranking, l: List) returns (o: Origin)
    requires ListSound(rank, l)
    ensures match o
      case Nesting => ListLevel(rank, l) <= ListLevel(zero, l)
      case Met(ref, k) => ListMeets(l, ref, k) && ref in rank && ListLevel(rank, l) == rank[ref] + k
    decreases l, 0
  {
    o := Nesting;
    if l.Cons? {
      if Level(rank, l.head) >= ListLevel(rank, l.tail) {
        o := LevelFrom(rank, zero, l.head);
      } else {
        o := ListLevelFrom(rank, zero, l.tail);
      }
    }
  }

  lemma {:induction false} ValuesLevelFrom(rank: Ranking, zero: Ranking, fs: Fields) returns (o: Origin)
    requires ValuesSound(rank, fs)
    ensures match o
      case Nesting => ValuesLevel(rank, fs) <= ValuesLevel(zero, fs)
      case Met(ref, k) => ValuesMeet(fs, ref, k) && ref in rank && ValuesLevel(rank, fs) == rank[ref] + k
    decreases fs, 0
  {
    o := Nesting;
    if fs.Field? {
      if Level(rank, fs.value) >= ValuesLevel(rank, fs.rest) {
        o := LevelFrom(rank, zero, fs.value);
      } else {
        o := ValuesLevelFrom(rank, zero, fs.rest);
      }
    }
  }

  // ---------- long chains repeat a reference ----------

  function Elements<T>(s: seq<T>): set<T> { set x | x in s }

  lemma {:induction false} DistinctSize<T>(s: seq<T>)
    requires Distinct(s)
    ensures |Elements(s)| == |s|
  {
    if s != [] {
      var n := |s| - 1;
      assert s == s[..n] + [s[n]];
      DistinctSize(s[..n]);
      assert Elements(s) == Elements(s[..n]) + {s[n]};
    }
  }

  lemma SubsetSize<T>(a: set<T>, b: set<T>)
    requires a <= b
    ensures |a| <= |b|
  {
    assert b == a + (b - a);
  }

  lemma Repeats(s: seq<string>, all: set<string>) returns (i: nat, j: nat)
    requires |s| > |all| && forall i :: 0 <= i < |s| ==> s[i] in all
    ensures i < j < |s| && s[i] == s[j]
  {
    if Distinct(s) {
      DistinctSize(s);
      SubsetSize(Elements(s), all);
      assert false;
    }
    i, j :| 0 <= i < j < |s| && s[i] == s[j];
  }

  // ---------- chains and their weight ----------

  lemma {:induction false} SumConcat(a: seq<nat>, b: seq<nat>)
    ensures Sum(a + b) == Sum(a) + Sum(b)
  {
    if a == [] {
      assert a + b == b;
    } else {
      assert (a + b)[0] == a[0] && (a + b)[1..] == a[1..] + b;
      SumConcat(a[1..], b);
    }
  }

  lemma {:induction false} SumBound(ks: seq<nat>, d: nat)
    requires forall i :: 0 <= i < |ks| ==> ks[i] <= d
    ensures Sum(ks) <= |ks| * d
  {
    if ks != [] {
      SumBound(ks[1..], d);
      assert |ks| * d == |ks[1..]| * d + d;
    }
  }

  /** Where a link of a chain leads. */
  lemma LinkInside(spec: Json, all: set<string>, refs: seq<string>, ks: seq<nat>, i: nat)
    requires Closed(spec, all) && Chain(spec, refs, ks) && i < |ks| && refs[i] in all
    ensures refs[i + 1] in all && ks[i] <= Level(Zero(all), Target(spec, refs[i]).value)
  {
    assert Target(spec, refs[i]).Some? && Meets(Target(spec, refs[i]).value, refs[i + 1], ks[i]);
    MeetsLevel(Zero(all), Target(spec, refs[i]).value, refs[i + 1], ks[i]);
  }

  lemma {:induction false} ChainInside(spec: Json, all: set<string>, refs: seq<string>, ks: seq<nat>, i: nat)
    requires Closed(spec, all) && Chain(spec, refs, ks) && refs[0] in all && i < |refs|
    ensures refs[i] in all
  {
    if i > 0 {
      ChainInside(spec, all, refs, ks, i - 1);
      LinkInside(spec, all, refs, ks, i - 1);
    }
  }

  lemma SubChain(spec: Json, refs: seq<string>, ks: seq<nat>, i: nat, j: nat)
    requires Chain(spec, refs, ks) && i <= j <= |ks|
    ensures Chain(spec, refs[i..j + 1], ks[i..j])
  {
    var rs, qs := refs[i..j + 1], ks[i..j];
    forall n | 0 <= n < |qs| ensures Target(spec, rs[n]).Some? && Meets(Target(spec, rs[n]).value, rs[n + 1], qs[n]) {
      assert rs[n] == refs[i + n] && rs[n + 1] == refs[i + n + 1] && qs[n] == ks[i + n];
    }
  }

  lemma JoinChains(spec: Json, a: seq<string>, ka: seq<nat>, b: seq<string>, kb: seq<nat>)
    requires Chain(spec, a, ka) && Chain(spec, b, kb) && a[|ka|] == b[0]
    ensures Chain(spec, a + b[1..], ka + kb) && (a + b[1..])[|ka| + |kb|] == b[|kb|]
  {
    var rs, qs := a + b[1..], ka + kb;
    forall n | 0 <= n < |qs| ensures Target(spec, rs[n]).Some? && Meets(Target(spec, rs[n]).value, rs[n + 1], qs[n]) {
      if n < |ka| {
        assert rs[n] == a[n] && rs[n + 1] == a[n + 1] && qs[n] == ka[n];
      } else {
        assert rs[n] == b[n - |ka|] && rs[n + 1] == b[n - |ka| + 1] && qs[n] == kb[n - |ka|];
      }
    }
  }

  /** What the last reference of a chain adds. */
  function EndValue(spec: Json, all: set<string>, strict: bool, r: string): nat {
    if Target(spec, r).None? then 0 else Level(Zero(all), Target(spec, r).value) + (if strict then 1 else 0)
  }

  /** Some chain from `r` has the value `m`. */
  ghost predicate Reaches(spec: Json, all: set<string>, strict: bool, r: string, m: nat) {
    exists refs, ks :: Chain(spec, refs, ks) && refs[0] == r
      && m == Weight(strict, ks) + EndValue(spec, all, strict, refs[|ks|])
  }

  /** A bound on how deep the schemas nest `allOf`s. */
  ghost predicate NestsBelow(spec: Json, all: set<string>, within: set<string>, d: nat) {
    forall r {:trigger Target(spec, r)} :: r in within && Target(spec, r).Some? ==>
      Level(Zero(all), Target(spec, r).value) <= d
  }

  lemma {:induction false} NestingBound(spec: Json, all: set<string>, within: set<string>) returns (d: nat)
    ensures NestsBelow(spec, all, within, d)
  {
    if within == {} {
      d := 0;
    } else {
      var r :| r in within;
      var rest := NestingBound(spec, all, within - {r});
      d := if Target(spec, r).Some? then Max(rest, Level(Zero(all), Target(spec, r).value)) else rest;
    }
  }

  /** The weight of a chain is that of its parts. */
  lemma WeightParts(strict: bool, ks: seq<nat>, i: nat, j: nat)
    requires i <= j <= |ks|
    ensures Weight(strict, ks) == Weight(strict, ks[..i] + ks[j..]) + Weight(strict, ks[i..j])
  {
    SumConcat(ks[..i], ks[i..j]);
    SumConcat(ks[..j], ks[j..]);
    SumConcat(ks[..i], ks[j..]);
    assert ks[..i] + ks[i..j] == ks[..j] && ks[..j] + ks[j..] == ks;
  }

  /** Cutting a cycle out of a chain leaves its weight as it was. */
  lemma CutCycle(spec: Json, all: set<string>, strict: bool, refs: seq<string>, ks: seq<nat>, i: nat, j: nat)
    requires Closed(spec, all) && NoHeavyCycle(spec, all, strict)
    requires Chain(spec, refs, ks) && refs[0] in all && i < j <= |ks| && refs[i] == refs[j]
    ensures var rs, qs := refs[..i + 1] + refs[j + 1..], ks[..i] + ks[j..];
      Chain(spec, rs, qs) && rs[0] == refs[0] && rs[|qs|] == refs[|ks|] && Weight(strict, qs) == Weight(strict, ks)
  {
    ChainInside(spec, all, refs, ks, i);
    SubChain(spec, refs, ks, i, j);
    assert IsCycle(spec, refs[i..j + 1], ks[i..j]);
    SubChain(spec, refs, ks, 0, i);
    SubChain(spec, refs, ks, j, |ks|);
    assert refs[0..i + 1] == refs[..i + 1] && ks[0..i] == ks[..i];
    assert refs[j..|ks| + 1][1..] == refs[j + 1..] && ks[j..|ks|] == ks[j..];
    JoinChains(spec, refs[..i + 1], ks[..i], refs[j..|ks| + 1], ks[j..]);
    WeightParts(strict, ks, i, j);
  }

  /** Without heavy cycles the weights of all chains are bounded. */
  lemma {:induction false} ChainBound(spec: Json, all: set<string>, strict: bool, refs: seq<string>, ks: seq<nat>,
    d: nat)
    requires Closed(spec, all) && NoHeavyCycle(spec, all, strict) && NestsBelow(spec, all, all, d)
    requires Chain(spec, refs, ks) && refs[0] in all
    ensures Weight(strict, ks) <= |all| * (d + 1)
    decreases |ks|
  {
    forall i | 0 <= i < |refs| ensures refs[i] in all { ChainInside(spec, all, refs, ks, i); }
    if |refs| > |all| {
      var i, j := Repeats(refs, all);
      CutCycle(spec, all, strict, refs, ks, i, j);
      ChainBound(spec, all, strict, refs[..i + 1] + refs[j + 1..], ks[..i] + ks[j..], d);
    } else {
      forall i | 0 <= i < |ks| ensures ks[i] <= d { LinkInside(spec, all, refs, ks, i); }
      SumBound(ks, d);
      ProductBound(|ks|, |all|, d);
    }
  }

  lemma ProductBound(a: nat, b: nat, d: nat)
    requires a <= b
    ensures a * d + a <= b * (d + 1)
  {
    assert b * (d + 1) == a * (d + 1) + (b - a) * (d + 1);
  }

  // ---------- the ranking ----------

  /** The largest value up to `b` that a chain from `r` has. */
  ghost function Top(spec: Json, all: set<string>, strict: bool, r: string, b: nat): (m: nat)
    ensures forall n: nat :: n <= b && Reaches(spec, all, strict, r, n) ==> n <= m && Reaches(spec, all, strict, r, m)
  {
    if b == 0 || Reaches(spec, all, strict, r, b) then b else Top(spec, all, strict, r, b - 1)
  }

  lemma OwnValue(spec: Json, all: set<string>, strict: bool, r: string)
    ensures Reaches(spec, all, strict, r, EndValue(spec, all, strict, r))
  {
    assert Chain(spec, [r], []);
  }

  /** A chain may start one reference earlier. */
  lemma ReachesEarlier(spec: Json, all: set<string>, strict: bool, r: string, ref: string, k: nat, m: nat)
    requires Target(spec, r).Some? && Meets(Target(spec, r).value, ref, k) && Reaches(spec, all, strict, ref, m)
    ensures Reaches(spec, all, strict, r, m + k + if strict then 1 else 0)
  {
    var refs, ks :| Chain(spec, refs, ks) && refs[0] == ref && m == Weight(strict, ks)
      + EndValue(spec, all, strict, refs[|ks|]);
    assert Chain(spec, [r, ref], [k]);
    JoinChains(spec, [r, ref], [k], refs, ks);
    assert ([k] + ks)[1..] == ks;
    assert Weight(strict, [k] + ks) == k + Weight(strict, ks) + if strict then 1 else 0;
    assert ([r, ref] + refs[1..])[0] == r;
  }

  lemma ReachesBound(spec: Json, all: set<string>, strict: bool, r: string, m: nat, d: nat)
    requires Closed(spec, all) && NoHeavyCycle(spec, all, strict) && NestsBelow(spec, all, all, d)
    requires r in all && Reaches(spec, all, strict, r, m)
    ensures m <= |all| * (d + 1) + d + 1
  {
    var refs, ks :| Chain(spec, refs, ks) && refs[0] == r && m == Weight(strict, ks)
      + EndValue(spec, all, strict, refs[|ks|]);
    ChainBound(spec, all, strict, refs, ks, d);
    ChainInside(spec, all, refs, ks, |ks|);
  }

  ghost predicate Fits(spec: Json, rank: Ranking, strict: bool, r: string)
    requires r in rank
  {
    Target(spec, r).Some? ==>
      var raw := Target(spec, r).value;
      raw.Object? && Sound(rank, raw) && Level(rank, raw) + (if strict then 1 else 0) <= rank[r]
  }

  lemma FitsRanks(spec: Json, rank: Ranking, strict: bool)
    requires forall r :: r in rank ==> Fits(spec, rank, strict, r)
    ensures Stratified(spec, rank) && (strict ==> Acyclic(spec, rank))
  {
    forall r | r in rank && Target(spec, r).Some?
      ensures Target(spec, r).value.Object? && Sound(rank, Target(spec, r).value)
      ensures Level(rank, Target(spec, r).value) + (if strict then 1 else 0) <= rank[r]
    {
      assert Fits(spec, rank, strict, r);
    }
  }

  /** Every closed set of references without a heavy cycle has a ranking. */
  lemma RankExists(spec: Json, all: set<string>, strict: bool) returns (rank: Ranking)
    requires Closed(spec, all) && NoHeavyCycle(spec, all, strict)
    ensures rank.Keys == all && Stratified(spec, rank) && (strict ==> Acyclic(spec, rank))
  {
    var d := NestingBound(spec, all, all);
    rank := map r | r in all :: Top(spec, all, strict, r, |all| * (d + 1) + d + 1);
    forall r | r in rank ensures Fits(spec, rank, strict, r) {
      if Target(spec, r).Some? { RankFits(spec, all, strict, d, rank, r); }
    }
    FitsRanks(spec, rank, strict);
  }

  lemma RankFits(spec: Json, all: set<string>, strict: bool, d: nat, rank: Ranking, r: string)
    requires Closed(spec, all) && NoHeavyCycle(spec, all, strict) && NestsBelow(spec, all, all, d)
    requires rank == map r | r in all :: Top(spec, all, strict, r, |all| * (d + 1) + d + 1)
    requires r in all && Target(spec, r).Some?
    ensures Fits(spec, rank, strict, r)
  {
    var raw := Target(spec, r).value;
    var step := if strict then 1 else 0;
    SameKeysSound(Zero(all), rank, raw);
    var o := LevelFrom(rank, Zero(all), raw);
    var m: nat;
    if o.Met? {
      OwnValue(spec, all, strict, o.ref);
      ReachesBound(spec, all, strict, o.ref, EndValue(spec, all, strict, o.ref), d);
      ReachesEarlier(spec, all, strict, r, o.ref, o.k, rank[o.ref]);
      m := rank[o.ref] + o.k + step;
    } else {
      OwnValue(spec, all, strict, r);
      m := EndValue(spec, all, strict, r);
    }
    assert Reaches(spec, all, strict, r, m);
    ReachesBound(spec, all, strict, r, m, d);
  }

  lemma ClosedByRank(spec: Json, rank: Ranking)
    requires Stratified(spec, rank)
    ensures Closed(spec, rank.Keys)
  {
    forall r | r in rank.Keys && Target(spec, r).Some? ensures Sound(Zero(rank.Keys), Target(spec, r).value) {
      SameKeysSound(rank, Zero(rank.Keys), Target(spec, r).value);
    }
  }

  /** The specifications on which resolution is proved to terminate are exactly the closed ones without a
      cycle through an `allOf`. */
  lemma StratifiedExactly(spec: Json, all: set<string>)
    ensures (exists rank: Ranking :: rank.Keys == all && Stratified(spec, rank)) <==>
      Closed(spec, all) && NoHeavyCycle(spec, all, false)
  {
    if Closed(spec, all) && NoHeavyCycle(spec, all, false) {
      var rank := RankExists(spec, all, false);
    }
    if rank: Ranking :| rank.Keys == all && Stratified(spec, rank) {
      ClosedByRank(spec, rank);
      forall refs, ks | IsCycle(spec, refs, ks) && refs[0] in all ensures Weight(false, ks) == 0 {
        if Sum(ks) > 0 { AllOfCycleNotStratified(spec, rank, refs, ks); }
      }
    }
  }

  /** The specifications with a strict ranking are exactly the closed ones whose references form no cycle. */
  lemma AcyclicExactly(spec: Json, all: set<string>)
    ensures (exists rank: Ranking :: rank.Keys == all && Acyclic(spec, rank)) <==>
      Closed(spec, all) && NoHeavyCycle(spec, all, true)
  {
    if Closed(spec, all) && NoHeavyCycle(spec, all, true) {
      var rank := RankExists(spec, all, true);
    }
    if rank: Ranking :| rank.Keys == all && Acyclic(spec, rank) {
      ClosedByRank(spec, rank);
      forall refs, ks | IsCycle(spec, refs, ks) && refs[0] in all ensures Weight(true, ks) == 0 {
        if ks != [] { CycleNotAcyclic(spec, rank, refs, ks); }
      }
    }
  }
}

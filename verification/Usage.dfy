/** Adding up the token usage of the turns of one response. */
module Usage {
  import opened Basics

  datatype CostDetails = CostDetails(upstream: Option<real>, input: real, output: real)

  datatype ResponsesUsage = ResponsesUsage(
    input: int, cached: int, output: int, reasoning: int, total: int,
    cost: Option<real>, byok: Option<bool>, details: Option<CostDetails>)

  const BOUND := 0x8000_0000_0000_0000

  predicate IsI64(n: int) { -BOUND <= n < BOUND }

  /** Two's complement wrap-around to 64 bits. */
  function Wrap(n: int): (r: int)
    ensures IsI64(r)
    decreases if n < 0 then -2 * n else 2 * n + 1
  {
    if n < -BOUND then Wrap(n + 2 * BOUND) else if n >= BOUND then Wrap(n - 2 * BOUND) else n
  }

  predicate Valid(u: ResponsesUsage) {
    IsI64(u.input) && IsI64(u.cached) && IsI64(u.output) && IsI64(u.reasoning) && IsI64(u.total)
  }

  // ---------- what one call of accumulate means ----------

  /** Present values add up; a missing one leaves the other. */
  function PlusOption(a: Option<real>, b: Option<real>): Option<real> {
    if a.None? then b else if b.None? then a else Some(a.value + b.value)
  }

  function PlusDetails(a: Option<CostDetails>, b: Option<CostDetails>): Option<CostDetails> {
    if b.None? then a
    else if a.None? then b
    else Some(CostDetails(PlusOption(a.value.upstream, b.value.upstream), a.value.input + b.value.input,
      a.value.output + b.value.output))
  }

  function Plus(a: ResponsesUsage, b: ResponsesUsage): ResponsesUsage {
    ResponsesUsage(
      Wrap(a.input + b.input), Wrap(a.cached + b.cached), Wrap(a.output + b.output), Wrap(a.reasoning + b.reasoning),
      Wrap(a.total + b.total), PlusOption(a.cost, b.cost), if b.byok == Some(true) then b.byok else a.byok,
      PlusDetails(a.details, b.details))
  }

  class Accumulator {
    var input: int
    var cached: int
    var output: int
    var reasoning: int
    var total: int
    var cost: Option<real>
    var byok: Option<bool>
    var details: Option<CostDetails>

    function Value(): ResponsesUsage
      reads this
    {
      ResponsesUsage(input, cached, output, reasoning, total, cost, byok, details)
    }

    constructor (u: ResponsesUsage)
      ensures Value() == u
    {
      input, cached, output, reasoning, total := u.input, u.cached, u.output, u.reasoning, u.total;
      cost, byok, details := u.cost, u.byok, u.details;
    }

    /** Folds one turn into the running total. */
    method Accumulate(other: ResponsesUsage)
      modifies this
      ensures Value() == Plus(old(Value()), other)
    {
      input := Wrap(input + other.input);
      output := Wrap(output + other.output);
      total := Wrap(total + other.total);
      cached := Wrap(cached + other.cached);
      reasoning := Wrap(reasoning + other.reasoning);
      match (cost, other.cost) {
        case (Some(a), Some(b)) => cost := Some(a + b);
        case (None, Some(b)) => cost := Some(b);
        case _ =>
      }
      if other.byok == Some(true) {
        byok := Some(true);
      }
      if other.details.Some? {
        var add := other.details.value;
        var target := if details.Some? then details.value else CostDetails(None, 0.0, 0.0);
        target := target.(input := target.input + add.input);
        target := target.(output := target.output + add.output);
        match (target.upstream, add.upstream) {
          case (Some(a), Some(b)) => target := target.(upstream := Some(a + b));
          case (None, Some(b)) => target := target.(upstream := Some(b));
          case _ =>
        }
        details := Some(target);
      }
    }

    /** Folds a whole list of turns, one after the other. */
    method AccumulateAll(turns: seq<ResponsesUsage>)
      modifies this
      ensures Value() == Fold(old(Value()), turns)
    {
      for i := 0 to |turns|
        invariant Value() == Fold(old(Value()), turns[..i])
      {
        assert turns[..i + 1][..i] == turns[..i];
        Accumulate(turns[i]);
      }
      assert turns[..|turns|] == turns;
    }
  }

  function Fold(start: ResponsesUsage, turns: seq<ResponsesUsage>): ResponsesUsage {
    if turns == [] then start else Plus(Fold(start, turns[..|turns| - 1]), turns[|turns| - 1])
  }

  // ---------- every bracketing gives the same ----------

  lemma WrapShift(n: int)
    ensures Wrap(n + 2 * BOUND) == Wrap(n)
  {
  }

  lemma {:induction false} WrapOnce(a: int, b: int)
    ensures Wrap(Wrap(a) + b) == Wrap(a + b)
    decreases if a < 0 then -2 * a else 2 * a + 1
  {
    if a < -BOUND {
      WrapOnce(a + 2 * BOUND, b);
      WrapShift(a + b);
    } else if a >= BOUND {
      WrapOnce(a - 2 * BOUND, b);
      WrapShift(a - 2 * BOUND + b);
    }
  }

  lemma WrapAssoc(a: int, b: int, c: int)
    ensures Wrap(Wrap(a + b) + c) == Wrap(a + Wrap(b + c))
  {
    WrapOnce(a + b, c);
    WrapOnce(b + c, a);
  }

  lemma CountersAssoc(a: ResponsesUsage, b: ResponsesUsage, c: ResponsesUsage)
    ensures var l, r := Plus(Plus(a, b), c), Plus(a, Plus(b, c));
      l.input == r.input && l.cached == r.cached && l.output == r.output && l.reasoning == r.reasoning
        && l.total == r.total
  {
    WrapAssoc(a.input, b.input, c.input);
    WrapAssoc(a.cached, b.cached, c.cached);
    WrapAssoc(a.output, b.output, c.output);
    WrapAssoc(a.reasoning, b.reasoning, c.reasoning);
    WrapAssoc(a.total, b.total, c.total);
  }

  lemma OptionAssoc(a: Option<real>, b: Option<real>, c: Option<real>)
    ensures PlusOption(PlusOption(a, b), c) == PlusOption(a, PlusOption(b, c))
  {
  }

  lemma DetailsAssoc(a: Option<CostDetails>, b: Option<CostDetails>, c: Option<CostDetails>)
    ensures PlusDetails(PlusDetails(a, b), c) == PlusDetails(a, PlusDetails(b, c))
  {
    if a.Some? && b.Some? && c.Some? { OptionAssoc(a.value.upstream, b.value.upstream, c.value.upstream); }
  }

  lemma PlusAssoc(a: ResponsesUsage, b: ResponsesUsage, c: ResponsesUsage)
    ensures Plus(Plus(a, b), c) == Plus(a, Plus(b, c))
  {
    CountersAssoc(a, b, c);
    OptionAssoc(a.cost, b.cost, c.cost);
    DetailsAssoc(a.details, b.details, c.details);
  }

  /** A way of bracketing a list of turns. */
  datatype Turns = One(u: ResponsesUsage) | Both(left: Turns, right: Turns)

  function Total(t: Turns): ResponsesUsage {
    match t case One(u) => u case Both(left, right) => Plus(Total(left), Total(right))
  }

  function Leaves(t: Turns): seq<ResponsesUsage> {
    match t case One(u) => [u] case Both(left, right) => Leaves(left) + Leaves(right)
  }

  lemma {:induction false} FoldTotal(start: ResponsesUsage, t: Turns)
    ensures Fold(start, Leaves(t)) == Plus(start, Total(t))
    decreases t
  {
    match t
    case One(u) =>
      assert [u][..0] == [];
      assert Fold(start, [u]) == Plus(Fold(start, [u][..0]), u);
    case Both(left, right) =>
      FoldConcat(start, Leaves(left), Leaves(right));
      FoldTotal(start, left);
      FoldTotal(Plus(start, Total(left)), right);
      PlusAssoc(start, Total(left), Total(right));
  }

  lemma {:induction false} FoldConcat(start: ResponsesUsage, a: seq<ResponsesUsage>, b: seq<ResponsesUsage>)
    ensures Fold(start, a + b) == Fold(Fold(start, a), b)
    decreases |b|
  {
    if b == [] {
      assert a + b == a;
    } else {
      var ab := a + b;
      assert ab[..|ab| - 1] == a + b[..|b| - 1] && ab[|ab| - 1] == b[|b| - 1];
      FoldConcat(start, a, b[..|b| - 1]);
    }
  }

  lemma {:induction false} LeavesSome(t: Turns)
    ensures Leaves(t) != []
  {
    if t.Both? { LeavesSome(t.left); }
  }

  /** Every bracketing of a list of turns gives what accumulating them in order gives. */
  lemma {:induction false} Bracketing(t: Turns)
    ensures Leaves(t) != [] && Total(t) == Fold(Leaves(t)[0], Leaves(t)[1..])
  {
    LeavesSome(t);
    match t
    case One(u) =>
    case Both(left, right) =>
      Bracketing(left);
      var a, b := Leaves(left), Leaves(right);
      assert (a + b)[0] == a[0] && (a + b)[1..] == a[1..] + b;
      FoldConcat(a[0], a[1..], b);
      FoldTotal(Total(left), right);
  }

  // ---------- and every order of the later turns ----------

  /** Two turns may be exchanged after any start. */
  lemma PlusSwap(start: ResponsesUsage, x: ResponsesUsage, y: ResponsesUsage)
    ensures Plus(Plus(start, x), y) == Plus(Plus(start, y), x)
  {
    PlusAssoc(start, x, y);
    PlusAssoc(start, y, x);
    assert Plus(x, y) == Plus(y, x).(byok := Plus(x, y).byok);
  }

  /** The turn at `i` may as well come last. */
  lemma {:induction false} MoveLast(start: ResponsesUsage, turns: seq<ResponsesUsage>, i: nat)
    requires i < |turns|
    ensures Fold(start, turns) == Plus(Fold(start, turns[..i] + turns[i + 1..]), turns[i])
    decreases |turns|
  {
    var n := |turns| - 1;
    var init, last, x := turns[..n], turns[n], turns[i];
    var others := turns[..i] + turns[i + 1..];
    if i == n {
      assert others == init;
    } else {
      MoveLast(start, init, i);
      var without := init[..i] + init[i + 1..];
      assert init[i] == x;
      assert others == without + [last];
      assert others[..|others| - 1] == without;
      PlusSwap(Fold(start, without), x, last);
    }
  }

  /** Any reordering of the turns after the first gives exactly the same total. */
  lemma {:induction false} SameStart(start: ResponsesUsage, a: seq<ResponsesUsage>, b: seq<ResponsesUsage>)
    requires multiset(a) == multiset(b)
    ensures Fold(start, a) == Fold(start, b)
    decreases |a|
  {
    assert |a| == |multiset(a)| == |multiset(b)| == |b|;
    if a != [] {
      var n := |a| - 1;
      var init, x := a[..n], a[n];
      assert a == init + [x];
      assert x in multiset(b);
      var i :| 0 <= i < |b| && b[i] == x;
      RemoveOne(b, i);
      assert multiset(init) == multiset(a) - multiset{x};
      SameStart(start, init, b[..i] + b[i + 1..]);
      MoveLast(start, b, i);
    }
  }

  lemma RemoveOne(s: seq<ResponsesUsage>, i: nat)
    requires i < |s|
    ensures multiset(s[..i] + s[i + 1..]) == multiset(s) - multiset{s[i]}
  {
    assert s == s[..i] + [s[i]] + s[i + 1..];
  }

  // ---------- orders that change the first turn ----------

  /** A usage with a BYOK mark that is true or missing. */
  function Normal(u: ResponsesUsage): ResponsesUsage { u.(byok := if u.byok == Some(true) then u.byok else None) }

  lemma NormalPlus(a: ResponsesUsage, b: ResponsesUsage)
    ensures Normal(Plus(a, b)) == Plus(Normal(a), Normal(b))
    ensures Normal(Plus(a, b)) == Normal(Plus(b, a))
  {
  }

  lemma {:induction false} NormalFold(x: ResponsesUsage, y: ResponsesUsage, turns: seq<ResponsesUsage>)
    requires Normal(x) == Normal(y)
    ensures Normal(Fold(x, turns)) == Normal(Fold(y, turns))
    decreases |turns|
  {
    if turns != [] {
      var n := |turns| - 1;
      NormalFold(x, y, turns[..n]);
      NormalPlus(Fold(x, turns[..n]), turns[n]);
      NormalPlus(Fold(y, turns[..n]), turns[n]);
    }
  }

  /** The first of the later turns may as well be the second. */
  lemma FoldFrom(x: ResponsesUsage, a: seq<ResponsesUsage>, i: nat)
    requires i < |a|
    ensures Fold(x, a) == Fold(Plus(x, a[i]), a[..i] + a[i + 1..])
  {
    var rest := a[..i] + a[i + 1..];
    RemoveOne(a, i);
    assert multiset([a[i]] + rest) == multiset(a);
    SameStart(x, a, [a[i]] + rest);
    FoldConcat(x, [a[i]], rest);
    assert [a[i]][..0] == [];
    assert Fold(x, [a[i]]) == Plus(Fold(x, [a[i]][..0]), a[i]);
  }

  predicate Marked(u: ResponsesUsage) { u.byok == Some(true) }

  /** Some turn was made with the user's own key. */
  ghost predicate AnyMarked(x: ResponsesUsage, a: seq<ResponsesUsage>) {
    Marked(x) || exists i :: 0 <= i < |a| && Marked(a[i])
  }

  lemma {:induction false} FoldMark(x: ResponsesUsage, a: seq<ResponsesUsage>)
    ensures Fold(x, a).byok == if AnyMarked(x, a) then Some(true) else x.byok
    decreases |a|
  {
    if a != [] {
      var n := |a| - 1;
      FoldMark(x, a[..n]);
      if Marked(a[n]) { assert AnyMarked(x, a); }
      if AnyMarked(x, a[..n]) && !Marked(x) {
        var i :| 0 <= i < |a[..n]| && Marked(a[..n][i]);
        assert Marked(a[i]);
      }
      if AnyMarked(x, a) && !Marked(x) && !Marked(a[n]) {
        var i :| 0 <= i < |a| && Marked(a[i]);
        assert Marked(a[..n][i]);
      }
    }
  }

  /** Two orders that exchange their first turns. */
  lemma SwapStarts(x: ResponsesUsage, a: seq<ResponsesUsage>, i: nat, y: ResponsesUsage, b: seq<ResponsesUsage>, j: nat)
    requires i < |a| && a[i] == y && j < |b| && b[j] == x
    requires multiset(a[..i] + a[i + 1..]) == multiset(b[..j] + b[j + 1..])
    ensures Normal(Fold(x, a)) == Normal(Fold(y, b))
  {
    var restA, restB := a[..i] + a[i + 1..], b[..j] + b[j + 1..];
    FoldFrom(x, a, i);
    FoldFrom(y, b, j);
    SameStart(Plus(y, x), restA, restB);
    NormalPlus(x, y);
    NormalFold(Plus(x, y), Plus(y, x), restA);
  }

  lemma Without(x: ResponsesUsage, y: ResponsesUsage, a: multiset<ResponsesUsage>, b: multiset<ResponsesUsage>)
    requires multiset{x} + a == multiset{y} + b && x != y
    ensures y in a && x in b && a - multiset{y} == b - multiset{x}
  {
    assert (multiset{x} + a)[y] == (multiset{y} + b)[y] && (multiset{x} + a)[x] == (multiset{y} + b)[x];
    forall u ensures (a - multiset{y})[u] == (b - multiset{x})[u] {
      assert (multiset{x} + a)[u] == (multiset{y} + b)[u];
    }
  }

  /** Any order of all turns, the first included, gives the same total except for a BYOK mark that is missing
      instead of false. */
  lemma AnyOrder(x: ResponsesUsage, a: seq<ResponsesUsage>, y: ResponsesUsage, b: seq<ResponsesUsage>)
    requires multiset{x} + multiset(a) == multiset{y} + multiset(b)
    ensures Normal(Fold(x, a)) == Normal(Fold(y, b))
  {
    if x == y {
      assert multiset(a) == multiset{x} + multiset(a) - multiset{x};
      assert multiset(b) == multiset{y} + multiset(b) - multiset{y};
      SameStart(x, a, b);
    } else {
      Without(x, y, multiset(a), multiset(b));
      var i :| 0 <= i < |a| && a[i] == y;
      var j :| 0 <= j < |b| && b[j] == x;
      RemoveOne(a, i);
      RemoveOne(b, j);
      SwapStarts(x, a, i, y, b, j);
    }
  }

  /** The totals of two orders are equal exactly when some turn carries the mark, or both orders start with
      the same mark. */
  lemma AnyOrderExact(x: ResponsesUsage, a: seq<ResponsesUsage>, y: ResponsesUsage, b: seq<ResponsesUsage>)
    requires multiset{x} + multiset(a) == multiset{y} + multiset(b)
    ensures Fold(x, a) == Fold(y, b) <==> AnyMarked(x, a) || x.byok == y.byok
  {
    AnyOrder(x, a, y, b);
    FoldMark(x, a);
    FoldMark(y, b);
    if AnyMarked(x, a) { SameMarks(x, a, y, b); }
    if AnyMarked(y, b) { SameMarks(y, b, x, a); }
    var u, v := Fold(x, a), Fold(y, b);
    assert u == Normal(u).(byok := u.byok) && v == Normal(v).(byok := v.byok);
  }

  lemma SameMarks(x: ResponsesUsage, a: seq<ResponsesUsage>, y: ResponsesUsage, b: seq<ResponsesUsage>)
    requires multiset{x} + multiset(a) == multiset{y} + multiset(b) && AnyMarked(x, a)
    ensures AnyMarked(y, b)
  {
    var m := if Marked(x) then x else var i :| 0 <= i < |a| && Marked(a[i]); a[i];
    assert m in multiset{x} + multiset(a);
    assert m in multiset{y} + multiset(b);
    if m != y {
      assert m in multiset(b);
      var j :| 0 <= j < |b| && b[j] == m;
      assert Marked(b[j]);
    }
  }

  /** The exception is real: the first turn decides between a missing and a false mark. */
  lemma OrderSeen(u: ResponsesUsage)
    ensures var missing, no := u.(byok := None), u.(byok := Some(false));
      Fold(missing, [no]) != Fold(no, [missing])
  {
    var missing, no := u.(byok := None), u.(byok := Some(false));
    assert multiset{missing} + multiset([no]) == multiset{no} + multiset([missing]);
    AnyOrderExact(missing, [no], no, [missing]);
    assert !AnyMarked(missing, [no]);
  }

  // ---------- what the total is ----------

  function Sum(turns: seq<ResponsesUsage>, of: ResponsesUsage -> real): real {
    if turns == [] then 0.0 else of(turns[0]) + Sum(turns[1..], of)
  }

  lemma {:induction false} SumLast(turns: seq<ResponsesUsage>, last: ResponsesUsage, of: ResponsesUsage -> real)
    ensures Sum(turns + [last], of) == Sum(turns, of) + of(last)
  {
    if turns == [] {
      assert turns + [last] == [last] && [last][1..] == [];
    } else {
      assert (turns + [last])[0] == turns[0] && (turns + [last])[1..] == turns[1..] + [last];
      SumLast(turns[1..], last, of);
    }
  }

  function Present(o: Option<real>): real { if o.Some? then o.value else 0.0 }

  function CostOf(u: ResponsesUsage): real { Present(u.cost) }

  function UpstreamOf(u: ResponsesUsage): real { if u.details.Some? then Present(u.details.value.upstream) else 0.0 }

  function InputCostOf(u: ResponsesUsage): real { if u.details.Some? then u.details.value.input else 0.0 }

  function OutputCostOf(u: ResponsesUsage): real { if u.details.Some? then u.details.value.output else 0.0 }

  predicate HasUpstream(u: ResponsesUsage) { u.details.Some? && u.details.value.upstream.Some? }

  /** All turns, with the total started from the first. */
  function AllTurns(start: ResponsesUsage, turns: seq<ResponsesUsage>): seq<ResponsesUsage> { [start] + turns }

  lemma AllLast(start: ResponsesUsage, turns: seq<ResponsesUsage>, of: ResponsesUsage -> real)
    requires turns != []
    ensures Sum(AllTurns(start, turns), of)
         == Sum(AllTurns(start, turns[..|turns| - 1]), of) + of(turns[|turns| - 1])
  {
    var n := |turns| - 1;
    assert [start] + turns == [start] + turns[..n] + [turns[n]];
    SumLast([start] + turns[..n], turns[n], of);
  }

  lemma AllOne(start: ResponsesUsage, of: ResponsesUsage -> real)
    ensures Sum(AllTurns(start, []), of) == of(start)
  {
    assert AllTurns(start, []) == [start] && [start][1..] == [];
  }

  /** The cost of a response is the sum of the costs of its turns, and missing exactly when none of them has one. */
  lemma {:induction false} CostIsSum(start: ResponsesUsage, turns: seq<ResponsesUsage>)
    ensures var r, all := Fold(start, turns), AllTurns(start, turns);
      && (r.cost.None? <==> forall i :: 0 <= i < |all| ==> all[i].cost.None?)
      && (r.cost.Some? ==> r.cost.value == Sum(all, CostOf))
    decreases |turns|
  {
    var all := AllTurns(start, turns);
    if turns == [] {
      AllOne(start, CostOf);
      assert all[0] == start;
    } else {
      var n := |turns| - 1;
      var before := AllTurns(start, turns[..n]);
      CostIsSum(start, turns[..n]);
      AllLast(start, turns, CostOf);
      assert all == before + [turns[n]];
      assert all[|all| - 1] == turns[n] && forall i :: 0 <= i < |before| ==> all[i] == before[i];
      if forall i :: 0 <= i < |before| ==> before[i].cost.None? { NothingToSum(before, CostOf); }
    }
  }

  lemma {:induction false} NothingToSum(turns: seq<ResponsesUsage>, of: ResponsesUsage -> real)
    requires forall i :: 0 <= i < |turns| ==> of(turns[i]) == 0.0
    ensures Sum(turns, of) == 0.0
  {
    if turns != [] {
      assert forall i :: 0 <= i < |turns[1..]| ==> turns[1..][i] == turns[i + 1];
      NothingToSum(turns[1..], of);
    }
  }

  /** The cost details add up over the turns that have them. */
  lemma {:induction false} DetailsAreSums(start: ResponsesUsage, turns: seq<ResponsesUsage>)
    ensures var r, all := Fold(start, turns), AllTurns(start, turns);
      && (r.details.None? <==> forall i :: 0 <= i < |all| ==> all[i].details.None?)
      && InputCostOf(r) == Sum(all, InputCostOf) && OutputCostOf(r) == Sum(all, OutputCostOf)
    decreases |turns|
  {
    var all := AllTurns(start, turns);
    if turns == [] {
      AllOne(start, InputCostOf);
      AllOne(start, OutputCostOf);
      assert all[0] == start;
    } else {
      var n := |turns| - 1;
      var before := AllTurns(start, turns[..n]);
      DetailsAreSums(start, turns[..n]);
      AllLast(start, turns, InputCostOf);
      AllLast(start, turns, OutputCostOf);
      assert all == before + [turns[n]];
      assert all[|all| - 1] == turns[n] && forall i :: 0 <= i < |before| ==> all[i] == before[i];
    }
  }

  /** So does the upstream cost; it is missing exactly when no turn has one. */
  lemma {:induction false} UpstreamIsSum(start: ResponsesUsage, turns: seq<ResponsesUsage>)
    ensures var r, all := Fold(start, turns), AllTurns(start, turns);
      && (!HasUpstream(r) <==> forall i :: 0 <= i < |all| ==> !HasUpstream(all[i]))
      && UpstreamOf(r) == Sum(all, UpstreamOf)
    decreases |turns|
  {
    var all := AllTurns(start, turns);
    if turns == [] {
      AllOne(start, UpstreamOf);
      assert all[0] == start;
    } else {
      var n := |turns| - 1;
      var before := AllTurns(start, turns[..n]);
      UpstreamIsSum(start, turns[..n]);
      AllLast(start, turns, UpstreamOf);
      assert all == before + [turns[n]];
      assert all[|all| - 1] == turns[n] && forall i :: 0 <= i < |before| ==> all[i] == before[i];
    }
  }

  function Count(turns: seq<ResponsesUsage>, of: ResponsesUsage -> int): int {
    if turns == [] then 0 else of(turns[0]) + Count(turns[1..], of)
  }

  lemma {:induction false} CountLast(turns: seq<ResponsesUsage>, last: ResponsesUsage, of: ResponsesUsage -> int)
    ensures Count(turns + [last], of) == Count(turns, of) + of(last)
  {
    if turns == [] {
      assert turns + [last] == [last] && [last][1..] == [];
    } else {
      assert (turns + [last])[0] == turns[0] && (turns + [last])[1..] == turns[1..] + [last];
      CountLast(turns[1..], last, of);
    }
  }

  /** A counter of the running total that wraps around in every step has the wrapped sum. */
  lemma {:induction false} WrappedCount(start: ResponsesUsage, turns: seq<ResponsesUsage>, of: ResponsesUsage -> int)
    requires IsI64(of(start))
    requires forall a, b :: of(Plus(a, b)) == Wrap(of(a) + of(b))
    ensures of(Fold(start, turns)) == Wrap(of(start) + Count(turns, of))
    decreases |turns|
  {
    if turns != [] {
      var n := |turns| - 1;
      assert turns == turns[..n] + [turns[n]];
      WrappedCount(start, turns[..n], of);
      CountLast(turns[..n], turns[n], of);
      WrapOnce(of(start) + Count(turns[..n], of), of(turns[n]));
    }
  }

  function InputOf(u: ResponsesUsage): int { u.input }

  function CachedOf(u: ResponsesUsage): int { u.cached }

  function OutputOf(u: ResponsesUsage): int { u.output }

  function ReasoningOf(u: ResponsesUsage): int { u.reasoning }

  function TotalOf(u: ResponsesUsage): int { u.total }

  /** Every counter of a response is the sum over its turns, wrapped to 64 bits. */
  lemma CountersAreSums(start: ResponsesUsage, turns: seq<ResponsesUsage>)
    requires Valid(start)
    ensures var r := Fold(start, turns);
      && r.input == Wrap(start.input + Count(turns, InputOf))
      && r.cached == Wrap(start.cached + Count(turns, CachedOf))
      && r.output == Wrap(start.output + Count(turns, OutputOf))
      && r.reasoning == Wrap(start.reasoning + Count(turns, ReasoningOf))
      && r.total == Wrap(start.total + Count(turns, TotalOf))
  {
    TokenSums(start, turns);
    PartSums(start, turns);
  }

  lemma TokenSums(start: ResponsesUsage, turns: seq<ResponsesUsage>)
    requires Valid(start)
    ensures var r := Fold(start, turns);
      && r.input == Wrap(start.input + Count(turns, InputOf)) && r.output == Wrap(start.output + Count(turns, OutputOf))
      && r.total == Wrap(start.total + Count(turns, TotalOf))
  {
    WrappedCount(start, turns, InputOf);
    WrappedCount(start, turns, OutputOf);
    WrappedCount(start, turns, TotalOf);
  }

  lemma PartSums(start: ResponsesUsage, turns: seq<ResponsesUsage>)
    requires Valid(start)
    ensures var r := Fold(start, turns);
      && r.cached == Wrap(start.cached + Count(turns, CachedOf))
      && r.reasoning == Wrap(start.reasoning + Count(turns, ReasoningOf))
  {
    WrappedCount(start, turns, CachedOf);
    WrappedCount(start, turns, ReasoningOf);
  }

  // ---------- no overflow on the way ----------

  /** Addition without a limit. */
  function PlusExact(a: ResponsesUsage, b: ResponsesUsage): ResponsesUsage {
    Plus(a, b).(input := a.input + b.input, cached := a.cached + b.cached, output := a.output + b.output,
                reasoning := a.reasoning + b.reasoning, total := a.total + b.total)
  }

  function FoldExact(start: ResponsesUsage, turns: seq<ResponsesUsage>): ResponsesUsage {
    if turns == [] then start else PlusExact(FoldExact(start, turns[..|turns| - 1]), turns[|turns| - 1])
  }

  predicate NonNegative(u: ResponsesUsage) {
    0 <= u.input && 0 <= u.cached && 0 <= u.output && 0 <= u.reasoning && 0 <= u.total
  }

  predicate AllNonNegative(turns: seq<ResponsesUsage>) { forall i :: 0 <= i < |turns| ==> NonNegative(turns[i]) }

  lemma {:induction false} ExactNonNegative(start: ResponsesUsage, turns: seq<ResponsesUsage>)
    requires NonNegative(start) && AllNonNegative(turns)
    ensures NonNegative(FoldExact(start, turns))
    decreases |turns|
  {
    if turns != [] {
      assert NonNegative(turns[|turns| - 1]);
      ExactNonNegative(start, turns[..|turns| - 1]);
    }
  }

  /** If the grand totals of non-negative counters fit 64 bits, no addition on the way overflows: after every
      turn the running total is the exact sum. */
  lemma {:induction false} NeverOverflows(start: ResponsesUsage, turns: seq<ResponsesUsage>, i: nat)
    requires NonNegative(start) && AllNonNegative(turns) && i <= |turns|
    requires Valid(FoldExact(start, turns))
    ensures Valid(FoldExact(start, turns[..i])) && Fold(start, turns[..i]) == FoldExact(start, turns[..i])
    decreases |turns|
  {
    if turns == [] {
      assert turns[..i] == [];
    } else {
      var n := |turns| - 1;
      var init, last := turns[..n], turns[n];
      assert NonNegative(last);
      ExactNonNegative(start, init);
      NeverOverflows(start, init, n);
      assert init[..n] == init;
      if i <= n {
        NeverOverflows(start, init, i);
        assert init[..i] == turns[..i];
      } else {
        assert turns[..i] == turns;
      }
    }
  }

  /** Counters as providers report them: parts within their whole, and a total that is the sum. */
  predicate Coherent(u: ResponsesUsage) {
    0 <= u.cached <= u.input && 0 <= u.reasoning <= u.output && u.total == u.input + u.output
  }

  /** Accumulating coherent turns keeps the running total coherent. */
  lemma {:induction false} CoherentKept(start: ResponsesUsage, turns: seq<ResponsesUsage>)
    requires Coherent(start) && (forall i :: 0 <= i < |turns| ==> Coherent(turns[i]))
    requires Valid(FoldExact(start, turns))
    ensures Coherent(Fold(start, turns))
  {
    assert AllNonNegative(turns);
    NeverOverflows(start, turns, |turns|);
    assert turns[..|turns|] == turns;
    ExactCoherent(start, turns);
  }

  lemma {:induction false} ExactCoherent(start: ResponsesUsage, turns: seq<ResponsesUsage>)
    requires Coherent(start) && (forall i :: 0 <= i < |turns| ==> Coherent(turns[i]))
    ensures Coherent(FoldExact(start, turns))
    decreases |turns|
  {
    if turns != [] {
      var init := turns[..|turns| - 1];
      assert forall i :: 0 <= i < |init| ==> init[i] == turns[i];
      assert Coherent(turns[|turns| - 1]);
      ExactCoherent(start, init);
    }
  }
}

/** Usage sinks: the database sink with its dead-letter fallback, and fan-out to several
    sinks. */
module UsageSink {
  import opened Basics

  datatype SinkResult = Ok(written: nat) | Err(error: SinkError)

  datatype SinkError = Database | Otlp | NotConfigured

  // ---------- database sink ----------

  /** What becomes of one entry of a failed batch: it does not serialise, the dead-letter
      queue refuses it, or it is queued. */
  datatype Fate = Unserialisable | Refused | Queued

  /** The outside world during one write: whether the all-or-nothing insert succeeds and how many rows it then says
      it added (rows already there are left out of that count), and otherwise the fate of the entry at each index. */
  datatype World = World(insertOk: bool, inserted: nat, fate: nat -> Fate)

  /** Where the entries of a batch go. */
  datatype Split<E> = Split(stored: seq<E>, dead: seq<E>, lost: seq<E>)

  /** The entries from index `i` on whose fate is to be queued, or not to be. */
  function Sift<E>(world: World, entries: seq<E>, i: nat, queued: bool): seq<E>
    decreases |entries| - i
  {
    if i >= |entries| then []
    else (if world.fate(i).Queued? == queued then [entries[i]] else []) + Sift(world, entries, i + 1, queued)
  }

  function Divide<E>(hasDlq: bool, world: World, entries: seq<E>): Split<E> {
    if world.insertOk then Split(entries, [], [])
    else if hasDlq then Split([], Sift(world, entries, 0, true), Sift(world, entries, 0, false))
    else Split([], [], entries)
  }

  lemma {:induction false} SiftConserves<E>(world: World, entries: seq<E>, i: nat)
    requires i <= |entries|
    ensures multiset(entries[i..]) == multiset(Sift(world, entries, i, true)) + multiset(Sift(world, entries, i, false))
    decreases |entries| - i
  {
    if i < |entries| {
      SiftConserves(world, entries, i + 1);
      assert entries[i..] == [entries[i]] + entries[i + 1..];
      var queued, other := Sift(world, entries, i + 1, true), Sift(world, entries, i + 1, false);
      if world.fate(i).Queued? {
        assert Sift(world, entries, i, true) == [entries[i]] + queued && Sift(world, entries, i, false) == other;
      } else {
        assert Sift(world, entries, i, false) == [entries[i]] + other && Sift(world, entries, i, true) == queued;
      }
    }
  }

  /** Every entry of a batch is stored, dead-lettered or lost, exactly once. */
  lemma SplitConserves<E>(hasDlq: bool, world: World, entries: seq<E>)
    ensures var s := Divide(hasDlq, world, entries);
            multiset(entries) == multiset(s.stored) + multiset(s.dead) + multiset(s.lost)
  {
    SiftConserves(world, entries, 0);
    assert entries[0..] == entries;
  }

  /** A batch that is inserted is stored whole. Of any other nothing is stored, and each further entry is dead-lettered
      if there is a queue that takes it, and otherwise lost. */
  lemma {:induction false} DivideLast<E>(hasDlq: bool, world: World, entries: seq<E>, last: E)
    ensures world.insertOk ==> Divide(hasDlq, world, entries) == Split(entries, [], [])
    ensures var s, t := Divide(hasDlq, world, entries), Divide(hasDlq, world, entries + [last]);
      !world.insertOk ==>
        if hasDlq && world.fate(|entries|).Queued? then t == Split([], s.dead + [last], s.lost)
        else t == Split([], s.dead, s.lost + [last])
  {
    SiftLast(world, entries, last, 0, true);
    SiftLast(world, entries, last, 0, false);
  }

  lemma {:induction false} SiftLast<E>(world: World, entries: seq<E>, last: E, i: nat, queued: bool)
    requires i <= |entries|
    ensures Sift(world, entries + [last], i, queued)
         == Sift(world, entries, i, queued) + if world.fate(|entries|).Queued? == queued then [last] else []
    decreases |entries| - i
  {
    var all := entries + [last];
    if i < |entries| {
      SiftLast(world, entries, last, i + 1, queued);
      assert all[i] == entries[i];
    } else {
      assert all[i] == last && Sift(world, all, i + 1, queued) == [];
    }
  }

  /** The world does no harm to a batch of `n` entries. */
  ghost predicate Kind(hasDlq: bool, world: World, n: nat) {
    world.insertOk || (hasDlq && forall i :: 0 <= i < n ==> world.fate(i).Queued?)
  }

  lemma {:induction false} SiftNothing<E>(world: World, entries: seq<E>, i: nat)
    requires i <= |entries|
    ensures Sift(world, entries, i, false) == [] <==> forall k :: i <= k < |entries| ==> world.fate(k).Queued?
    decreases |entries| - i
  {
    if i < |entries| { SiftNothing(world, entries, i + 1); }
  }

  /** Nothing of a non-empty batch is lost exactly when the insert succeeds, or a
      dead-letter queue takes every entry. */
  lemma NothingLost<E>(hasDlq: bool, world: World, entries: seq<E>)
    ensures Divide(hasDlq, world, entries).lost == [] <==> entries == [] || Kind(hasDlq, world, |entries|)
  {
    SiftNothing(world, entries, 0);
  }

  class DatabaseSink<E> {
    const hasDlq: bool
    var stored: seq<E>
    var deadLettered: seq<E>
    ghost var lost: seq<E>

    constructor (hasDlq: bool)
      ensures this.hasDlq == hasDlq && stored == [] && deadLettered == [] && lost == []
    {
      this.hasDlq := hasDlq;
      this.stored := [];
      this.deadLettered := [];
      this.lost := [];
    }

    method WriteBatch(entries: seq<E>, world: World) returns (r: SinkResult)
      modifies this
      ensures var s := Divide(hasDlq, world, entries);
              && stored == old(stored) + s.stored
              && deadLettered == old(deadLettered) + s.dead
              && lost == old(lost) + s.lost
      ensures r == if entries == [] then Ok(0) else if world.insertOk then Ok(world.inserted) else Err(Database)
    {
      if entries == [] {
        return Ok(0);
      }
      if world.insertOk {
        stored := stored + entries;
        return Ok(world.inserted);
      }
      if hasDlq {
        var i := 0;
        while i < |entries|
          invariant 0 <= i <= |entries| && stored == old(stored)
          invariant deadLettered + Sift(world, entries, i, true) == old(deadLettered) + Sift(world, entries, 0, true)
          invariant lost + Sift(world, entries, i, false) == old(lost) + Sift(world, entries, 0, false)
        {
          if world.fate(i).Queued? {
            deadLettered := deadLettered + [entries[i]];
          } else {
            lost := lost + [entries[i]];
          }
          i := i + 1;
        }
      } else {
        lost := lost + entries;
      }
      r := Err(Database);
    }
  }

  // ---------- fan-out ----------

  /** A tree of sinks; a leaf carries what its backend answers to the batch. */
  datatype Sink = Leaf(id: nat, answer: SinkResult) | Composite(sinks: Sinks)

  datatype Sinks = Done | More(first: Sink, rest: Sinks)

  /** The leaves that are written, in order, and the result. */
  datatype Outcome = Outcome(log: seq<nat>, result: SinkResult)

  /** The accumulators of `CompositeSink::write_batch`. */
  datatype Tally = Tally(log: seq<nat>, maxWritten: nat, lastError: SinkError)

  function Record(t: Tally, o: Outcome): Tally {
    match o.result
    case Ok(n) => Tally(t.log + o.log, Max(t.maxWritten, n), t.lastError)
    case Err(e) => Tally(t.log + o.log, t.maxWritten, e)
  }

  /** Writing a non-empty batch. */
  function Write(s: Sink): Outcome
    decreases s, 1
  {
    match s
    case Leaf(id, answer) => Outcome([id], answer)
    case Composite(sinks) => Finish(WriteAll(Tally([], 0, NotConfigured), sinks))
  }

  function WriteAll(t: Tally, sinks: Sinks): Tally
    decreases sinks, 0
  {
    match sinks
    case Done => t
    case More(first, rest) => WriteAll(Record(t, Write(first)), rest)
  }

  function Finish(t: Tally): Outcome {
    Outcome(t.log, if t.maxWritten > 0 then Ok(t.maxWritten) else Err(t.lastError))
  }

  /** `write_batch` of a composite sink, with its two accumulators. */
  method WriteComposite(sinks: Sinks, empty: bool) returns (o: Outcome)
    ensures o == if empty then Outcome([], Ok(0)) else Write(Composite(sinks))
    decreases sinks
  {
    if empty {
      return Outcome([], Ok(0));
    }
    var t := Tally([], 0, NotConfigured);
    var rest := sinks;
    while rest.More?
      invariant rest == sinks || (sinks decreases to rest)
      invariant WriteAll(t, rest) == WriteAll(Tally([], 0, NotConfigured), sinks)
      decreases rest
    {
      var written: Outcome;
      match rest.first {
        case Leaf(id, answer) => written := Outcome([id], answer);
        case Composite(inner) => written := WriteComposite(inner, false);
      }
      t := Record(t, written);
      rest := rest.rest;
    }
    o := Finish(t);
  }

  // ---------- flattening ----------

  function Append(a: Sinks, b: Sinks): Sinks {
    match a case Done => b case More(first, rest) => More(first, Append(rest, b))
  }

  function Leaves(s: Sink): Sinks
    decreases s, 1
  {
    match s case Leaf(_, _) => More(s, Done) case Composite(sinks) => LeavesOf(sinks)
  }

  function LeavesOf(sinks: Sinks): Sinks
    decreases sinks, 0
  {
    match sinks case Done => Done case More(first, rest) => Append(Leaves(first), LeavesOf(rest))
  }

  /** The ids of the leaves from left to right. */
  function Ids(s: Sink): seq<nat>
    decreases s, 1
  {
    match s case Leaf(id, _) => [id] case Composite(sinks) => IdsOf(sinks)
  }

  function IdsOf(sinks: Sinks): seq<nat>
    decreases sinks, 0
  {
    match sinks case Done => [] case More(first, rest) => Ids(first) + IdsOf(rest)
  }

  /** The largest count any leaf reports, errors counting as nothing. */
  function Best(s: Sink): nat
    decreases s, 1
  {
    match s case Leaf(_, answer) => if answer.Ok? then answer.written else 0 case Composite(sinks) => BestOf(sinks)
  }

  function BestOf(sinks: Sinks): nat
    decreases sinks, 0
  {
    match sinks case Done => 0 case More(first, rest) => Max(Best(first), BestOf(rest))
  }

  function Count(o: Outcome): nat { if o.result.Ok? then o.result.written else 0 }

  /** Some leaf of the tree gives this answer. */
  predicate Answers(s: Sink, answer: SinkResult)
    decreases s, 0
  {
    match s case Leaf(_, a) => a == answer case Composite(sinks) => SomeAnswers(sinks, answer)
  }

  predicate SomeAnswers(sinks: Sinks, answer: SinkResult)
    decreases sinks, 0
  {
    sinks.More? && (Answers(sinks.first, answer) || SomeAnswers(sinks.rest, answer))
  }

  /** The best count is the largest that some leaf reports, and zero if none reports any. */
  lemma {:induction false} BestIsLargest(s: Sink, n: nat)
    ensures Answers(s, Ok(n)) ==> n <= Best(s)
    ensures Best(s) > 0 ==> Answers(s, Ok(Best(s)))
    decreases s, 0
  {
    if s.Composite? { BestOfIsLargest(s.sinks, n); }
  }

  lemma {:induction false} BestOfIsLargest(sinks: Sinks, n: nat)
    ensures SomeAnswers(sinks, Ok(n)) ==> n <= BestOf(sinks)
    ensures BestOf(sinks) > 0 ==> SomeAnswers(sinks, Ok(BestOf(sinks)))
    decreases sinks, 0
  {
    if sinks.More? {
      BestIsLargest(sinks.first, n);
      BestOfIsLargest(sinks.rest, n);
    }
  }

  /** A sink tree writes each leaf exactly once, from left to right, and reports the best
      count of its leaves. */
  lemma {:induction false} WriteMeaning(s: Sink)
    ensures Write(s).log == Ids(s) && Count(Write(s)) == Best(s)
    ensures s.Composite? ==> (Write(s).result.Ok? <==> Best(s) > 0)
    decreases s, 1
  {
    match s
    case Leaf(_, _) =>
    case Composite(sinks) => WriteAllMeaning(Tally([], 0, NotConfigured), sinks);
  }

  lemma {:induction false} WriteAllMeaning(t: Tally, sinks: Sinks)
    ensures WriteAll(t, sinks).log == t.log + IdsOf(sinks)
    ensures WriteAll(t, sinks).maxWritten == Max(t.maxWritten, BestOf(sinks))
    decreases sinks, 0
  {
    match sinks
    case Done =>
    case More(first, rest) =>
      WriteMeaning(first);
      WriteAllMeaning(Record(t, Write(first)), rest);
  }

  lemma {:induction false} AppendMeaning(a: Sinks, b: Sinks)
    ensures IdsOf(Append(a, b)) == IdsOf(a) + IdsOf(b)
    ensures BestOf(Append(a, b)) == Max(BestOf(a), BestOf(b))
  {
    if a.More? { AppendMeaning(a.rest, b); }
  }

  lemma {:induction false} LeavesMeaning(s: Sink)
    ensures IdsOf(Leaves(s)) == Ids(s) && BestOf(Leaves(s)) == Best(s)
    decreases s, 1
  {
    match s
    case Leaf(_, _) =>
      assert IdsOf(More(s, Done)) == Ids(s) + IdsOf(Done) && BestOf(More(s, Done)) == Max(Best(s), BestOf(Done));
    case Composite(sinks) => LeavesOfMeaning(sinks);
  }

  lemma {:induction false} LeavesOfMeaning(sinks: Sinks)
    ensures IdsOf(LeavesOf(sinks)) == IdsOf(sinks) && BestOf(LeavesOf(sinks)) == BestOf(sinks)
    decreases sinks, 0
  {
    match sinks
    case Done =>
    case More(first, rest) =>
      LeavesMeaning(first);
      LeavesOfMeaning(rest);
      AppendMeaning(Leaves(first), LeavesOf(rest));
  }

  /** Nesting composites changes neither what is written, nor success, nor the count: the
      tree behaves like the flat composite of its leaves. */
  lemma Flattening(sinks: Sinks)
    ensures var nested, flat := Write(Composite(sinks)), Write(Composite(LeavesOf(sinks)));
            && nested.log == flat.log == IdsOf(sinks)
            && (nested.result.Ok? <==> flat.result.Ok?)
            && (nested.result.Ok? ==> nested.result == flat.result)
  {
    WriteMeaning(Composite(sinks));
    WriteMeaning(Composite(LeavesOf(sinks)));
    LeavesOfMeaning(sinks);
  }

  // ---------- which error is reported ----------

  /** Some leaf answers with an error. */
  predicate Fails(s: Sink)
    decreases s, 1
  {
    match s case Leaf(_, answer) => answer.Err? case Composite(sinks) => SomeFails(sinks)
  }

  predicate SomeFails(sinks: Sinks)
    decreases sinks, 0
  {
    sinks.More? && (Fails(sinks.first) || SomeFails(sinks.rest))
  }

  /** The error of the last leaf that answers with one. */
  function LastFailure(sinks: Sinks, otherwise: SinkError): SinkError
    decreases sinks, 0
  {
    match sinks
    case Done => otherwise
    case More(first, rest) => LastFailure(rest, LastFailureOf(first, otherwise))
  }

  function LastFailureOf(s: Sink, otherwise: SinkError): SinkError
    decreases s, 1
  {
    match s
    case Leaf(_, Err(e)) => e
    case Leaf(_, Ok(_)) => otherwise
    case Composite(sinks) => LastFailure(sinks, otherwise)
  }

  /** Some sink of the list itself reports an error, when nothing is written. */
  predicate Reports(sinks: Sinks) {
    sinks.More? && (sinks.first.Composite? || Fails(sinks.first) || Reports(sinks.rest))
  }

  /** The last report comes, perhaps through further composites, from one without a failing leaf. */
  predicate EndsSilent(sinks: Sinks)
    decreases sinks, 0
  {
    match sinks
    case Done => false
    case More(first, rest) =>
      if Reports(rest) then EndsSilent(rest)
      else match first
        case Leaf(_, _) => false
        case Composite(inner) => !SomeFails(inner) || EndsSilent(inner)
  }

  function LastReport(sinks: Sinks, otherwise: SinkError): SinkError {
    if EndsSilent(sinks) then NotConfigured else LastFailure(sinks, otherwise)
  }

  lemma {:induction false} NoFailure(sinks: Sinks, otherwise: SinkError)
    requires !SomeFails(sinks)
    ensures LastFailure(sinks, otherwise) == otherwise
    decreases sinks, 0
  {
    if sinks.More? {
      if sinks.first.Composite? { NoFailure(sinks.first.sinks, otherwise); }
      NoFailure(sinks.rest, otherwise);
    }
  }

  lemma {:induction false} SameFailure(sinks: Sinks, a: SinkError, b: SinkError)
    requires SomeFails(sinks)
    ensures LastFailure(sinks, a) == LastFailure(sinks, b)
    decreases sinks, 0
  {
    var a1, b1 := LastFailureOf(sinks.first, a), LastFailureOf(sinks.first, b);
    if SomeFails(sinks.rest) {
      SameFailure(sinks.rest, a1, b1);
    } else {
      NoFailure(sinks.rest, a1);
      NoFailure(sinks.rest, b1);
      if sinks.first.Composite? { SameFailure(sinks.first.sinks, a, b); }
    }
  }

  lemma {:induction false} SilentReports(sinks: Sinks)
    ensures EndsSilent(sinks) ==> Reports(sinks)
    ensures SomeFails(sinks) ==> Reports(sinks)
    decreases sinks
  {
    if sinks.More? { SilentReports(sinks.rest); }
  }

  lemma {:induction false} QuietLeaves(sinks: Sinks)
    requires !Reports(sinks)
    ensures !SomeFails(sinks) && !EndsSilent(sinks)
  {
    SilentReports(sinks);
  }

  lemma OneReport(s: Sink, otherwise: SinkError)
    ensures EndsSilent(More(s, Done)) <==> s.Composite? && (!SomeFails(s.sinks) || EndsSilent(s.sinks))
    ensures LastFailure(More(s, Done), otherwise) == LastFailureOf(s, otherwise)
  {
    assert !Reports(Done) && LastFailure(Done, LastFailureOf(s, otherwise)) == LastFailureOf(s, otherwise);
  }

  /** What one sink leaves as the error, when it writes nothing. */
  lemma {:induction false} WriteError(t: Tally, s: Sink)
    requires Best(s) == 0
    ensures Record(t, Write(s)).lastError == LastReport(More(s, Done), t.lastError)
    decreases s, 1
  {
    OneReport(s, t.lastError);
    if s.Composite? {
      WriteMeaning(s);
      WriteAllError(Tally([], 0, NotConfigured), s.sinks);
      WriteAllMeaning(Tally([], 0, NotConfigured), s.sinks);
      if SomeFails(s.sinks) {
        SameFailure(s.sinks, NotConfigured, t.lastError);
      } else {
        NoFailure(s.sinks, NotConfigured);
      }
    }
  }

  /** The error left by the loop over sinks of which none writes anything. */
  lemma {:induction false} WriteAllError(t: Tally, sinks: Sinks)
    requires BestOf(sinks) == 0
    ensures WriteAll(t, sinks).lastError == LastReport(sinks, t.lastError)
    decreases sinks, 0
  {
    if sinks.More? {
      var rest := sinks.rest;
      var next := Record(t, Write(sinks.first));
      WriteError(t, sinks.first);
      WriteAllError(next, rest);
      OneReport(sinks.first, t.lastError);
      if !Reports(rest) {
        QuietLeaves(rest);
        NoFailure(rest, next.lastError);
        NoFailure(rest, LastFailureOf(sinks.first, t.lastError));
      } else if SomeFails(rest) {
        SameFailure(rest, next.lastError, LastFailureOf(sinks.first, t.lastError));
      } else {
        NoFailureSilent(rest);
      }
    }
  }

  /** Reports without a failing leaf end silently. */
  lemma {:induction false} NoFailureSilent(sinks: Sinks)
    requires Reports(sinks) && !SomeFails(sinks)
    ensures EndsSilent(sinks)
  {
    if Reports(sinks.rest) { NoFailureSilent(sinks.rest); }
  }

  lemma {:induction false} FlatNeverSilent(sinks: Sinks)
    ensures !EndsSilent(LeavesOf(sinks)) && (Reports(LeavesOf(sinks)) <==> SomeFails(sinks))
    decreases sinks, 0
  {
    if sinks.More? {
      FlatNeverSilent(sinks.rest);
      if sinks.first.Composite? { FlatNeverSilent(sinks.first.sinks); }
      AppendSilent(Leaves(sinks.first), LeavesOf(sinks.rest));
    }
  }

  lemma {:induction false} AppendSilent(a: Sinks, b: Sinks)
    requires !EndsSilent(a) && !EndsSilent(b)
    ensures Reports(Append(a, b)) <==> Reports(a) || Reports(b)
    ensures !EndsSilent(Append(a, b))
    decreases a
  {
    if a.More? {
      assert !EndsSilent(a.rest) by { SilentReports(a.rest); }
      AppendSilent(a.rest, b);
    }
  }

  lemma {:induction false} AppendFailure(a: Sinks, b: Sinks, otherwise: SinkError)
    ensures LastFailure(Append(a, b), otherwise) == LastFailure(b, LastFailure(a, otherwise))
    decreases a
  {
    if a.More? { AppendFailure(a.rest, b, LastFailureOf(a.first, otherwise)); }
  }

  lemma {:induction false} FlatFailure(sinks: Sinks, otherwise: SinkError)
    ensures LastFailure(LeavesOf(sinks), otherwise) == LastFailure(sinks, otherwise)
    decreases sinks, 0
  {
    if sinks.More? {
      AppendFailure(Leaves(sinks.first), LeavesOf(sinks.rest), otherwise);
      if sinks.first.Composite? { FlatFailure(sinks.first.sinks, otherwise); }
      assert LastFailure(Leaves(sinks.first), otherwise) == LastFailureOf(sinks.first, otherwise);
      FlatFailure(sinks.rest, LastFailureOf(sinks.first, otherwise));
    }
  }

  /** The tree and its flat form agree entirely exactly when something is written, or the last report of the tree
      comes from a failing leaf, or the last failing leaf reports what a silent composite would. */
  lemma FlatteningExactly(sinks: Sinks)
    ensures Write(Composite(sinks)) == Write(Composite(LeavesOf(sinks)))
       <==> BestOf(sinks) > 0 || !EndsSilent(sinks) || LastFailure(sinks, NotConfigured) == NotConfigured
  {
    Flattening(sinks);
    LeavesOfMeaning(sinks);
    var start := Tally([], 0, NotConfigured);
    WriteAllMeaning(start, sinks);
    WriteAllMeaning(start, LeavesOf(sinks));
    if BestOf(sinks) == 0 {
      WriteAllError(start, sinks);
      WriteAllError(start, LeavesOf(sinks));
      FlatNeverSilent(sinks);
      FlatFailure(sinks, NotConfigured);
    }
  }

  /** The error itself may differ: an empty inner composite adds an error of its own. */
  lemma FlatteningErrorDiffers()
    ensures var sinks := More(Leaf(0, Err(Database)), More(Composite(Done), Done));
            && Write(Composite(sinks)).result == Err(NotConfigured)
            && Write(Composite(LeavesOf(sinks))).result == Err(Database)
  {
    var failing := Leaf(0, Err(Database));
    var sinks := More(failing, More(Composite(Done), Done));
    var start := Tally([], 0, NotConfigured);
    assert Write(Composite(Done)) == Outcome([], Err(NotConfigured));
    assert Record(start, Write(failing)) == Tally([0], 0, Database);
    assert WriteAll(Tally([0], 0, Database), More(Composite(Done), Done)) == Tally([0], 0, NotConfigured);
    assert LeavesOf(More(Composite(Done), Done)) == Done;
    assert LeavesOf(sinks) == More(failing, Done);
    assert WriteAll(start, More(failing, Done)) == Tally([0], 0, Database);
  }
}

/** The usage log buffer: any number of producers pushing to a bounded channel, and one
    worker that drains, flushes, checks for shutdown and drains a last time. */
module UsageBuffer {
  import opened UsageSink

  /** The capacity that `new` chooses for the channel. */
  function Capacity(maxPending: nat): nat { if maxPending > 0 then maxPending else 1_000_000 }

  datatype Config = Config(maxSize: nat, maxPending: nat, hasBus: bool, hasDlq: bool)

  /** Where the worker's loop stands. */
  datatype Pc = Draining | Flushing | Checking | Sleeping | FinalDraining | FinalFlushing | Exited

  /** What was recorded when a drain of the loop ended. */
  datatype Mark = Mark(backlog: nat, accepted: nat, attempts: nat)

  datatype State<E> = State(
    config: Config,
    channel: seq<E>, batch: seq<E>, pc: Pc, shutdown: bool, dropped: nat,
    // history
    attempts: nat, accepted: seq<E>,  // pushes tried, and the entries the channel took
    flushed: seq<E>,                  // the entries handed to the sink, in order
    published: seq<E>,                // the entries published on the event bus
    stored: seq<E>, dead: seq<E>, lost: seq<E>,
    marks: seq<Mark>,
    requestedAt: nat,                 // entries accepted before the first shutdown request
    sealedAt: nat                     // entries accepted before the final drain saw an empty channel
  )

  /** One atomic step of a producer, of whoever shuts down, or of the worker. */
  datatype Action<E> = Push(entry: E) | RequestShutdown | Work(world: World)

  function Init<E>(config: Config): State<E> {
    State(config, [], [], Draining, false, 0, 0, [], [], [], [], [], [], [Mark(0, 0, 0)], 0, 0)
  }

  function PushStep<E>(s: State<E>, e: E): State<E> {
    if |s.channel| < Capacity(s.config.maxPending)
    then s.(channel := s.channel + [e], attempts := s.attempts + 1, accepted := s.accepted + [e])
    else s.(dropped := s.dropped + 1, attempts := s.attempts + 1)
  }

  function ShutdownStep<E>(s: State<E>): State<E> {
    s.(shutdown := true, requestedAt := if s.shutdown then s.requestedAt else |s.accepted|)
  }

  /** `try_recv` moving one entry into the batch. */
  function Receive<E>(s: State<E>): State<E>
    requires s.channel != []
  {
    s.(channel := s.channel[1..], batch := s.batch + [s.channel[0]])
  }

  /** `flush_batch`: publish, write, clear. */
  function Flush<E>(s: State<E>, world: World): State<E> {
    var split := Divide(s.config.hasDlq, world, s.batch);
    s.(batch := [],
       flushed := s.flushed + s.batch,
       published := if s.config.hasBus then s.published + s.batch else s.published,
       stored := s.stored + split.stored, dead := s.dead + split.dead, lost := s.lost + split.lost)
  }

  function WorkStep<E>(s: State<E>, world: World): State<E> {
    match s.pc
    case Draining =>
      if |s.batch| < s.config.maxSize && s.channel != [] then Receive(s)
      else s.(pc := if s.batch != [] then Flushing else Checking,
              marks := s.marks + [Mark(|s.channel|, |s.accepted|, s.attempts)])
    case Flushing => Flush(s, world).(pc := Checking)
    case Checking => s.(pc := if s.shutdown then FinalDraining else Sleeping)
    case Sleeping => s.(pc := Draining)
    case FinalDraining =>
      if s.channel != [] then Receive(s)
      else s.(pc := if s.batch != [] then FinalFlushing else Exited, sealedAt := |s.accepted|)
    case FinalFlushing => Flush(s, world).(pc := Exited)
    case Exited => s
  }

  function Step<E>(s: State<E>, a: Action<E>): State<E> {
    match a
    case Push(e) => PushStep(s, e)
    case RequestShutdown => ShutdownStep(s)
    case Work(world) => WorkStep(s, world)
  }

  function Run<E>(s: State<E>, actions: seq<Action<E>>): State<E>
    decreases |actions|
  {
    if actions == [] then s else Run(Step(s, actions[0]), actions[1..])
  }

  lemma {:induction false} RunConcat<E>(s: State<E>, a: seq<Action<E>>, b: seq<Action<E>>)
    ensures Run(s, a + b) == Run(Run(s, a), b)
    decreases |a|
  {
    if a == [] {
      assert a + b == b;
    } else {
      assert (a + b)[0] == a[0] && (a + b)[1..] == a[1..] + b;
      RunConcat(Step(s, a[0]), a[1..], b);
    }
  }

  // ---------- the invariant ----------

  /** Nothing disappears and nothing is reordered. */
  ghost predicate Conserved<E>(s: State<E>) {
    && s.accepted == s.flushed + s.batch + s.channel
    && s.attempts == |s.accepted| + s.dropped
    && |s.channel| <= Capacity(s.config.maxPending)
    && s.published == (if s.config.hasBus then s.flushed else [])
    && multiset(s.flushed) == multiset(s.stored) + multiset(s.dead) + multiset(s.lost)
  }

  /** What the program counter says about the batch and the flags. */
  ghost predicate Located<E>(s: State<E>) {
    && (s.pc in {Draining, Flushing} ==> |s.batch| <= s.config.maxSize)
    && (s.pc in {Flushing, FinalFlushing} ==> s.batch != [])
    && (s.pc in {Checking, Sleeping, Exited} ==> s.batch == [])
    && (s.pc in {FinalDraining, FinalFlushing, Exited} ==> s.shutdown)
    && (s.shutdown ==> s.requestedAt <= |s.accepted|)
    && (s.pc in {FinalFlushing, Exited} ==>
          s.requestedAt <= s.sealedAt <= |s.accepted| && s.flushed + s.batch == s.accepted[..s.sealedAt])
  }

  function Clip(n: int): nat { if n < 0 then 0 else n }

  /** The backlog left by consecutive drains. */
  ghost predicate BacklogLaw(maxSize: nat, marks: seq<Mark>) {
    forall i :: 0 < i < |marks| ==>
      marks[i].backlog == Clip(marks[i - 1].backlog + (marks[i].accepted - marks[i - 1].accepted) - maxSize)
  }

  /** Between drains the channel holds the old backlog and what came in since. */
  ghost predicate Marked<E>(s: State<E>) {
    && |s.marks| > 0
    && BacklogLaw(s.config.maxSize, s.marks)
    && var m := s.marks[|s.marks| - 1];
       var inFlight := m.backlog + (|s.accepted| - m.accepted);
       && m.accepted <= |s.accepted| && m.attempts <= s.attempts
       && m.attempts - m.accepted <= s.attempts - |s.accepted|
       && (s.pc == Draining ==> |s.batch| + |s.channel| == inFlight)
       && (s.pc in {Flushing, Checking, Sleeping} ==> |s.channel| == inFlight)
       && |s.channel| <= inFlight
  }

  ghost predicate Inv<E>(s: State<E>) {
    Conserved(s) && Located(s) && Marked(s)
  }

  lemma InitInv<E>(config: Config)
    ensures Inv(Init<E>(config))
  {
  }

  lemma PushInv<E>(s: State<E>, e: E)
    requires Inv(s)
    ensures Inv(PushStep(s, e))
  {
    PushConserved(s, e);
    PushLocated(s, e);
    PushMarked(s, e);
  }

  lemma PushConserved<E>(s: State<E>, e: E)
    requires Conserved(s)
    ensures Conserved(PushStep(s, e))
  {
  }

  lemma PushLocated<E>(s: State<E>, e: E)
    requires Located(s)
    ensures Located(PushStep(s, e))
  {
    var t := PushStep(s, e);
    assert s.pc in {FinalFlushing, Exited} ==> t.accepted[..s.sealedAt] == s.accepted[..s.sealedAt];
  }

  lemma PushMarked<E>(s: State<E>, e: E)
    requires Marked(s)
    ensures Marked(PushStep(s, e))
  {
  }

  lemma ReceiveConserved<E>(s: State<E>)
    requires Conserved(s) && s.channel != []
    ensures Conserved(Receive(s))
  {
    assert s.channel == [s.channel[0]] + s.channel[1..];
  }

  lemma FlushConserved<E>(s: State<E>, world: World)
    requires Conserved(s)
    ensures Conserved(Flush(s, world))
  {
    SplitConserves(s.config.hasDlq, world, s.batch);
  }

  /** The law for the period that this drain closes. */
  lemma DrainEnds<E>(s: State<E>, world: World)
    requires Marked(s) && s.pc == Draining && |s.batch| <= s.config.maxSize
    requires !(|s.batch| < s.config.maxSize && s.channel != [])
    ensures Marked(WorkStep(s, world))
  {
    var t := WorkStep(s, world);
    var n := |s.marks|;
    forall i | 0 < i < |t.marks|
      ensures t.marks[i].backlog == Clip(t.marks[i - 1].backlog
        + (t.marks[i].accepted - t.marks[i - 1].accepted) - s.config.maxSize)
    {
      if i < n { assert t.marks[i] == s.marks[i] && t.marks[i - 1] == s.marks[i - 1]; }
    }
  }

  lemma WorkConserved<E>(s: State<E>, world: World)
    requires Conserved(s)
    ensures Conserved(WorkStep(s, world))
  {
    match s.pc
    case Draining => if s.channel != [] { ReceiveConserved(s); }
    case FinalDraining => if s.channel != [] { ReceiveConserved(s); }
    case Flushing => FlushConserved(s, world);
    case FinalFlushing => FlushConserved(s, world);
    case _ =>
  }

  lemma WorkLocated<E>(s: State<E>, world: World)
    requires Conserved(s) && Located(s)
    ensures Located(WorkStep(s, world))
  {
    match s.pc
    case FinalDraining =>
      if s.channel == [] { assert s.flushed + s.batch == s.accepted == s.accepted[..|s.accepted|]; }
    case FinalFlushing =>
      assert Flush(s, world).flushed + [] == s.flushed + s.batch;
    case _ =>
  }

  lemma WorkMarked<E>(s: State<E>, world: World)
    requires Located(s) && Marked(s)
    ensures Marked(WorkStep(s, world))
  {
    if s.pc == Draining && !(|s.batch| < s.config.maxSize && s.channel != []) { DrainEnds(s, world); }
  }

  lemma WorkInv<E>(s: State<E>, world: World)
    requires Inv(s)
    ensures Inv(WorkStep(s, world))
  {
    WorkConserved(s, world);
    WorkLocated(s, world);
    WorkMarked(s, world);
  }

  lemma StepInv<E>(s: State<E>, a: Action<E>)
    requires Inv(s)
    ensures Inv(Step(s, a))
  {
    match a
    case Push(e) => PushInv(s, e);
    case RequestShutdown =>
    case Work(world) => WorkInv(s, world);
  }

  lemma {:induction false} RunInv<E>(s: State<E>, actions: seq<Action<E>>)
    requires Inv(s)
    ensures Inv(Run(s, actions))
    decreases |actions|
  {
    if actions != [] {
      StepInv(s, actions[0]);
      RunInv(Step(s, actions[0]), actions[1..]);
    }
  }

  // ---------- safety over whole runs ----------

  /** In every interleaving, what was accepted is what was flushed, then the batch, then the
      channel; every attempt was accepted or counted as dropped; the channel keeps within its
      capacity; and the bus saw exactly what was flushed. */
  lemma Conservation<E>(config: Config, actions: seq<Action<E>>)
    ensures var s := Run(Init(config), actions);
            && s.accepted == s.flushed + s.batch + s.channel
            && s.attempts == |s.accepted| + s.dropped
            && |s.channel| <= (if config.maxPending > 0 then config.maxPending else 1_000_000)
            && s.published == if config.hasBus then s.flushed else []
  {
    InitInv<E>(config);
    RunInv(Init(config), actions);
    ConfigKept(Init(config), actions);
  }

  lemma {:induction false} ConfigKept<E>(s: State<E>, actions: seq<Action<E>>)
    ensures Run(s, actions).config == s.config
    decreases |actions|
  {
    if actions != [] { ConfigKept(Step(s, actions[0]), actions[1..]); }
  }

  /** Every accepted entry is stored, dead-lettered, lost or still on its way. */
  lemma Accounting<E>(config: Config, actions: seq<Action<E>>)
    ensures var s := Run(Init(config), actions);
            multiset(s.accepted) == multiset(s.stored) + multiset(s.dead) + multiset(s.lost)
              + multiset(s.batch + s.channel)
  {
    InitInv<E>(config);
    RunInv(Init(config), actions);
    var s := Run(Init(config), actions);
    assert s.accepted == s.flushed + (s.batch + s.channel);
  }

  /** An entry is dropped exactly when it is pushed to a full channel. */
  lemma DroppedOnlyWhenFull<E>(s: State<E>, a: Action<E>)
    requires Inv(s)
    ensures Step(s, a).dropped > s.dropped <==>
      a.Push? && |s.channel| == if s.config.maxPending > 0 then s.config.maxPending else 1_000_000
    ensures Step(s, a).dropped <= s.dropped + 1
  {
  }

  /** The world does no harm to any batch that this worker step may flush. */
  ghost predicate Harmless<E>(s: State<E>, a: Action<E>) {
    a.Work? && s.pc in {Flushing, FinalFlushing} ==> Kind(s.config.hasDlq, a.world, |s.batch|)
  }

  ghost predicate AllHarmless<E>(s: State<E>, actions: seq<Action<E>>)
    decreases |actions|
  {
    actions != [] ==> Harmless(s, actions[0]) && AllHarmless(Step(s, actions[0]), actions[1..])
  }

  lemma StepLoss<E>(s: State<E>, a: Action<E>)
    requires Located(s)
    ensures s.lost <= Step(s, a).lost
    ensures Step(s, a).lost == s.lost <==> Harmless(s, a)
  {
    if a.Work? && s.pc in {Flushing, FinalFlushing} {
      NothingLost(s.config.hasDlq, a.world, s.batch);
      assert Step(s, a).lost == s.lost + Divide(s.config.hasDlq, a.world, s.batch).lost;
    }
  }

  /** A run loses nothing exactly when every flush succeeds or its entries all reach a
      dead-letter queue. */
  lemma {:induction false} LossExact<E>(s: State<E>, actions: seq<Action<E>>)
    requires Inv(s)
    ensures s.lost <= Run(s, actions).lost
    ensures Run(s, actions).lost == s.lost <==> AllHarmless(s, actions)
    decreases |actions|
  {
    if actions != [] {
      StepLoss(s, actions[0]);
      StepInv(s, actions[0]);
      LossExact(Step(s, actions[0]), actions[1..]);
    }
  }

  // ---------- shutdown ----------

  /** `s` before `t` in some run. */
  ghost predicate Grows<E>(s: State<E>, t: State<E>) {
    s.accepted <= t.accepted && (s.shutdown ==> t.shutdown && t.requestedAt == s.requestedAt)
  }

  lemma {:induction false} RunGrows<E>(s: State<E>, actions: seq<Action<E>>)
    ensures Grows(s, Run(s, actions))
    decreases |actions|
  {
    if actions != [] { RunGrows(Step(s, actions[0]), actions[1..]); }
  }

  /** When the worker has exited, the sink has got everything accepted before `shutdown()`
      was first called, each entry once and in order. */
  lemma ShutdownComplete<E>(config: Config, before: seq<Action<E>>, after: seq<Action<E>>)
    requires !Run(Init(config), before).shutdown
    requires Run(Init(config), before + [RequestShutdown] + after).pc == Exited
    ensures Run(Init(config), before).accepted <= Run(Init(config), before + [RequestShutdown] + after).flushed
  {
    var s0 := Init<E>(config);
    RunConcat(s0, before, [RequestShutdown]);
    RunConcat(s0, before + [RequestShutdown], after);
    var s1 := Run(s0, before);
    var s2 := Run(s1, [RequestShutdown]);
    assert s2 == Step(s1, RequestShutdown);
    var s3 := Run(s2, after);
    RunGrows(s2, after);
    InitInv<E>(config);
    RunInv(s0, before + [RequestShutdown] + after);
    assert s3.flushed == s3.accepted[..s3.sealedAt];
  }

  /** More precisely: the sink has got exactly what had been accepted when the final drain
      saw an empty channel; what came later stays in the channel. */
  lemma FinalDrainSeals<E>(config: Config, before: seq<Action<E>>, world: World, after: seq<Action<E>>)
    requires var s := Run(Init(config), before); s.pc == FinalDraining && s.channel == []
    requires Run(Init(config), before + [Work(world)] + after).pc == Exited
    ensures var s, t := Run(Init(config), before), Run(Init(config), before + [Work(world)] + after);
            t.flushed == s.accepted && t.accepted == s.accepted + t.channel
  {
    var s0 := Init<E>(config);
    RunConcat(s0, before, [Work(world)]);
    RunConcat(s0, before + [Work(world)], after);
    var s := Run(s0, before);
    assert Run(s, [Work(world)]) == Step(s, Work(world));
    InitInv<E>(config);
    RunInv(s0, before);
    SealedFrom(s, world, after);
  }

  lemma SealedFrom<E>(s: State<E>, world: World, after: seq<Action<E>>)
    requires Inv(s) && s.pc == FinalDraining && s.channel == []
    requires Run(Step(s, Work(world)), after).pc == Exited
    ensures var t := Run(Step(s, Work(world)), after);
      t.flushed == s.accepted && t.accepted == s.accepted + t.channel
  {
    var s1 := Step(s, Work(world));
    assert s1.accepted == s.accepted && s1.sealedAt == |s.accepted|;
    StepInv(s, Work(world));
    SealKept(s1, after);
    RunInv(s1, after);
    RunGrows(s1, after);
    var t := Run(s1, after);
    assert t.accepted[..|s.accepted|] == s.accepted;
  }

  lemma {:induction false} SealKept<E>(s: State<E>, actions: seq<Action<E>>)
    requires s.pc in {FinalFlushing, Exited}
    ensures Run(s, actions).sealedAt == s.sealedAt
    decreases |actions|
  {
    if actions != [] { SealKept(Step(s, actions[0]), actions[1..]); }
  }

  /** The worker steps still needed after a shutdown request, when pushes have stopped. */
  function FinalWork(channel: nat, batch: nat): nat { channel + 1 + (if channel + batch > 0 then 1 else 0) }

  function Taken(channel: nat, batch: nat, maxSize: nat): nat {
    if batch >= maxSize then 0 else if channel <= maxSize - batch then channel else maxSize - batch
  }

  function DrainWork(channel: nat, batch: nat, maxSize: nat): nat {
    var k := Taken(channel, batch, maxSize);
    k + 1 + (if batch + k > 0 then 1 else 0) + 1 + FinalWork(channel - k, 0)
  }

  function WorkLeft<E>(s: State<E>): nat {
    match s.pc
    case Draining => DrainWork(|s.channel|, |s.batch|, s.config.maxSize)
    case Flushing => 2 + FinalWork(|s.channel|, 0)
    case Checking => 1 + FinalWork(|s.channel|, 0)
    case Sleeping => 1 + DrainWork(|s.channel|, 0, s.config.maxSize)
    case FinalDraining => FinalWork(|s.channel|, |s.batch|)
    case FinalFlushing => 1
    case Exited => 0
  }

  lemma WorkLeftDecreases<E>(s: State<E>, world: World)
    requires Inv(s) && s.shutdown && s.pc != Exited
    ensures WorkLeft(WorkStep(s, world)) == WorkLeft(s) - 1
  {
  }

  /** Each worker step keeps the shutdown request and leaves one step less. */
  lemma OneStepLess<E>(s: State<E>, a: Action<E>)
    requires Inv(s) && s.shutdown && s.pc != Exited && a.Work?
    ensures Inv(Step(s, a)) && Step(s, a).shutdown && WorkLeft(Step(s, a)) == WorkLeft(s) - 1
  {
    WorkLeftDecreases(s, a.world);
    StepInv(s, a);
  }

  lemma NothingLeft<E>(s: State<E>)
    ensures WorkLeft(s) == 0 <==> s.pc == Exited
  {
  }

  /** After a shutdown request and the last push the worker exits, after exactly
      `WorkLeft` steps, whatever the sink answers. */
  lemma {:induction false} WorkerExits<E>(s: State<E>, works: seq<Action<E>>)
    requires Inv(s) && s.shutdown && |works| == WorkLeft(s)
    requires forall i :: 0 <= i < |works| ==> works[i].Work?
    ensures Run(s, works).pc == Exited
    decreases |works|
  {
    NothingLeft(s);
    if works != [] {
      OneStepLess(s, works[0]);
      WorkerExits(Step(s, works[0]), works[1..]);
    }
  }

  /** And not one step earlier. */
  lemma {:induction false} WorkerNotBefore<E>(s: State<E>, works: seq<Action<E>>)
    requires Inv(s) && s.shutdown && |works| < WorkLeft(s)
    requires forall i :: 0 <= i < |works| ==> works[i].Work?
    ensures Run(s, works).pc != Exited
    decreases |works|
  {
    NothingLeft(s);
    if works != [] {
      OneStepLess(s, works[0]);
      WorkerNotBefore(Step(s, works[0]), works[1..]);
    }
  }

  // ---------- backlog ----------

  /** With `r` the backlog after a drain and `a` the entries accepted until the next one
      ends, the next backlog is `max(0, r + a - max_size)`; the channel starts empty. */
  lemma Backlog<E>(config: Config, actions: seq<Action<E>>)
    ensures var s := Run(Init(config), actions);
            |s.marks| > 0 && s.marks[0] == Mark(0, 0, 0) && BacklogLaw(config.maxSize, s.marks)
  {
    InitInv<E>(config);
    RunInv(Init(config), actions);
    ConfigKept(Init(config), actions);
    MarksGrow(Init(config), actions);
  }

  lemma {:induction false} MarksGrow<E>(s: State<E>, actions: seq<Action<E>>)
    ensures s.marks <= Run(s, actions).marks
    decreases |actions|
  {
    if actions != [] { MarksGrow(Step(s, actions[0]), actions[1..]); }
  }

  /** At most `maxSize` pushes were attempted in every period, the current one included. */
  ghost predicate Paced<E>(s: State<E>)
    requires |s.marks| > 0
  {
    && (forall i :: 0 < i < |s.marks| ==> s.marks[i].attempts - s.marks[i - 1].attempts <= s.config.maxSize)
    && s.attempts - s.marks[|s.marks| - 1].attempts <= s.config.maxSize
  }

  /** As long as the producers keep pace, nothing was dropped and no drain left a backlog. */
  ghost predicate Smooth<E>(s: State<E>)
    requires |s.marks| > 0
  {
    s.dropped == 0 && s.marks[|s.marks| - 1].backlog == 0
  }

  lemma WorkSmooth<E>(s: State<E>, world: World)
    requires Inv(s) && Paced(s) && Smooth(s) && s.config.maxSize <= Capacity(s.config.maxPending)
    ensures Smooth(WorkStep(s, world))
  {
    if s.pc == Draining && !(|s.batch| < s.config.maxSize && s.channel != []) {
      WorkMarked(s, world);
      var t := WorkStep(s, world);
      assert t.marks[|t.marks| - 1] == Mark(|s.channel|, |s.accepted|, s.attempts);
      assert t.marks[|t.marks| - 2] == s.marks[|s.marks| - 1];
    }
  }

  lemma PushSmooth<E>(s: State<E>, entry: E)
    requires Inv(s) && Smooth(s) && s.config.maxSize <= Capacity(s.config.maxPending)
    requires Paced(PushStep(s, entry))
    ensures Smooth(PushStep(s, entry))
  {
  }

  lemma StepSmooth<E>(s: State<E>, a: Action<E>)
    requires Inv(s) && Paced(s) && Smooth(s) && s.config.maxSize <= Capacity(s.config.maxPending)
    requires Paced(Step(s, a))
    ensures Smooth(Step(s, a))
  {
    match a
    case Push(entry) => PushSmooth(s, entry);
    case Work(world) => WorkSmooth(s, world);
    case RequestShutdown =>
  }

  /** A step adds at most one mark, which records the attempts so far. */
  lemma StepMarks<E>(s: State<E>, a: Action<E>)
    ensures var t := Step(s, a);
      && t.config == s.config && s.marks <= t.marks && |t.marks| <= |s.marks| + 1 && s.attempts <= t.attempts
      && (|t.marks| > |s.marks| ==> t.marks[|s.marks|].attempts == s.attempts)
  {
  }

  lemma PacedBefore<E>(s: State<E>, a: Action<E>)
    requires |s.marks| > 0 && |Step(s, a).marks| > 0 && Paced(Step(s, a))
    ensures Paced(s)
  {
    var t := Step(s, a);
    StepMarks(s, a);
    forall i | 0 < i < |s.marks| ensures s.marks[i].attempts - s.marks[i - 1].attempts <= s.config.maxSize {
      assert t.marks[i] == s.marks[i] && t.marks[i - 1] == s.marks[i - 1];
    }
    if |t.marks| > |s.marks| {
      assert t.marks[|t.marks| - 1].attempts - t.marks[|t.marks| - 2].attempts <= s.config.maxSize;
    }
  }

  lemma {:induction false} RunSmooth<E>(s: State<E>, actions: seq<Action<E>>)
    requires Inv(s) && Paced(s) && Smooth(s) && s.config.maxSize <= Capacity(s.config.maxPending)
    requires |Run(s, actions).marks| > 0 && Paced(Run(s, actions))
    ensures Smooth(Run(s, actions))
    decreases |actions|
  {
    if actions != [] {
      var t := Step(s, actions[0]);
      StepInv(s, actions[0]);
      PacedThroughout(t, actions[1..]);
      StepSmooth(s, actions[0]);
      ConfigKept(s, [actions[0]]);
      RunSmooth(t, actions[1..]);
    }
  }

  lemma {:induction false} PacedThroughout<E>(s: State<E>, actions: seq<Action<E>>)
    requires Inv(s) && |Run(s, actions).marks| > 0 && Paced(Run(s, actions))
    ensures Paced(s)
    decreases |actions|
  {
    if actions != [] {
      StepInv(s, actions[0]);
      PacedThroughout(Step(s, actions[0]), actions[1..]);
      PacedBefore(s, actions[0]);
    }
  }

  /** If every period sees at most `max_size` pushes and a batch fits the channel, no run
      ever drops an entry. */
  lemma PacedNeverDrops<E>(config: Config, actions: seq<Action<E>>)
    requires config.maxSize <= Capacity(config.maxPending)
    requires |Run(Init(config), actions).marks| > 0 && Paced(Run(Init(config), actions))
    ensures Run(Init(config), actions).dropped == 0
  {
    InitInv<E>(config);
    PacedThroughout(Init(config), actions);
    RunSmooth(Init(config), actions);
  }
}

/** `UsageLogBuffer` as the object it is: the channel, the drop counter and the shutdown
    flag. Between any two steps of the worker others may push or ask for a shutdown; each
    method is proved to perform steps of the protocol in module UsageBuffer. */
module UsageWorker {
  import opened UsageSink
  import opened UsageBuffer

  // ---------- schedules ----------

  /** What others do right before the worker's step number `i`, and what the sink meets in it. */
  datatype Schedule<E> = Schedule(others: seq<seq<Action<E>>>, worlds: nat -> World)

  function Turn<E>(sched: Schedule<E>, i: nat): seq<Action<E>> {
    if i < |sched.others| then sched.others[i] else []
  }

  /** Others never take the worker's steps. */
  ghost predicate Quiet<E>(sched: Schedule<E>) {
    forall i, j :: 0 <= i < |sched.others| && 0 <= j < |sched.others[i]| ==> !sched.others[i][j].Work?
  }

  /** Somebody asks for a shutdown. */
  ghost predicate Stops<E>(sched: Schedule<E>) {
    exists i :: 0 <= i < |sched.others| && RequestShutdown in sched.others[i]
  }

  /** The first `n` steps of the worker, each after the turn of the others. */
  function Interleave<E>(sched: Schedule<E>, n: nat): seq<Action<E>> {
    if n == 0 then [] else Interleave(sched, n - 1) + Turn(sched, n - 1) + [Work(sched.worlds(n - 1))]
  }

  lemma {:induction false} TurnTaken<E>(sched: Schedule<E>, n: nat, i: nat, a: Action<E>)
    requires i < n && a in Turn(sched, i)
    ensures a in Interleave(sched, n)
  {
    if i < n - 1 { TurnTaken(sched, n - 1, i, a); }
  }

  /** Every run of the protocol follows some schedule, up to what others do after the worker's last step. */
  lemma {:induction false} EveryRun<E>(actions: seq<Action<E>>) returns (sched: Schedule<E>, n: nat)
    ensures Quiet(sched) && |sched.others| == n + 1 && actions == Interleave(sched, n) + Turn(sched, n)
    decreases |actions|
  {
    if actions == [] {
      sched, n := Schedule([[]], _ => World(true, 0, _ => Queued)), 0;
    } else {
      var init, last := actions[..|actions| - 1], actions[|actions| - 1];
      assert actions == init + [last];
      var s, m := EveryRun(init);
      if last.Work? {
        sched, n := OneMoreStep(s, m, last.world);
      } else {
        sched := OneMoreAction(s, m, last);
        n := m;
      }
    }
  }

  lemma OneMoreStep<E>(s: Schedule<E>, m: nat, world: World) returns (sched: Schedule<E>, n: nat)
    requires Quiet(s) && |s.others| == m + 1
    ensures Quiet(sched) && n == m + 1 && |sched.others| == n + 1
    ensures Interleave(sched, n) + Turn(sched, n) == Interleave(s, m) + Turn(s, m) + [Work(world)]
  {
    var worlds := (i: nat) => if i == m then world else s.worlds(i);
    sched, n := Schedule(s.others + [[]], worlds), m + 1;
    SameStart(s, sched, m);
  }

  lemma OneMoreAction<E>(s: Schedule<E>, m: nat, a: Action<E>) returns (sched: Schedule<E>)
    requires Quiet(s) && |s.others| == m + 1 && !a.Work?
    ensures Quiet(sched) && |sched.others| == m + 1
    ensures Interleave(sched, m) + Turn(sched, m) == Interleave(s, m) + Turn(s, m) + [a]
  {
    sched := Schedule(s.others[m := s.others[m] + [a]], s.worlds);
    SameStart(s, sched, m);
  }

  lemma {:induction false} SameStart<E>(s: Schedule<E>, t: Schedule<E>, n: nat)
    requires forall i :: 0 <= i < n ==> Turn(s, i) == Turn(t, i) && s.worlds(i) == t.worlds(i)
    ensures Interleave(s, n) == Interleave(t, n)
  {
    if n > 0 { SameStart(s, t, n - 1); }
  }

  lemma RunSnoc<E>(s: State<E>, actions: seq<Action<E>>, a: Action<E>)
    ensures Run(s, actions + [a]) == Step(Run(s, actions), a)
  {
    RunConcat(s, actions, [a]);
    assert Run(Run(s, actions), [a]) == Step(Run(s, actions), a);
  }

  lemma {:induction false} RequestHeard<E>(s: State<E>, actions: seq<Action<E>>)
    requires s.shutdown || RequestShutdown in actions
    ensures Run(s, actions).shutdown
    decreases |actions|
  {
    if actions != [] { RequestHeard(Step(s, actions[0]), actions[1..]); }
  }

  /** Everything but what others can change. */
  ghost predicate SameWork<E>(s: State<E>, t: State<E>) {
    && t.pc == s.pc && t.batch == s.batch && t.flushed == s.flushed && t.published == s.published
    && t.stored == s.stored && t.dead == s.dead && t.lost == s.lost && t.marks == s.marks && t.sealedAt == s.sealedAt
    && (s.shutdown ==> t.shutdown)
  }

  // ---------- the object ----------

  class UsageLogBuffer<E> {
    const config: Config
    var channel: seq<E>
    var droppedCount: nat
    var shutdown: bool
    var published: seq<E>  // what the event bus has been given
    ghost var trace: seq<Action<E>>
    ghost var model: State<E>

    constructor (config: Config)
      ensures this.config == config && channel == [] && droppedCount == 0 && !shutdown && published == []
      ensures trace == [] && model == Init(config) && Valid()
    {
      this.config := config;
      this.channel := [];
      this.droppedCount := 0;
      this.shutdown := false;
      this.published := [];
      this.trace := [];
      this.model := Init(config);
    }

    /** The fields are those of the protocol's state after the steps taken so far. */
    ghost predicate Valid()
      reads this
    {
      && model == Run(Init(config), trace)
      && model.config == config && model.channel == channel && model.dropped == droppedCount
      && model.shutdown == shutdown && model.published == published
    }

    method PushEntry(entry: E)
      requires Valid()
      modifies this
      ensures Valid() && model == Step(old(model), Push(entry)) && trace == old(trace) + [Push(entry)]
      ensures if old(|channel|) < Capacity(config.maxPending)
              then channel == old(channel) + [entry] && droppedCount == old(droppedCount)
              else channel == old(channel) && droppedCount == old(droppedCount) + 1
    {
      if |channel| < Capacity(config.maxPending) {
        channel := channel + [entry];
      } else {
        droppedCount := droppedCount + 1;
      }
      RunSnoc(Init(config), trace, Push(entry));
      model, trace := PushStep(model, entry), trace + [Push(entry)];
    }

    method Shutdown()
      requires Valid()
      modifies this
      ensures Valid() && shutdown && model == Step(old(model), RequestShutdown)
        && trace == old(trace) + [RequestShutdown]
    {
      shutdown := true;
      RunSnoc(Init(config), trace, RequestShutdown);
      model, trace := ShutdownStep(model), trace + [RequestShutdown];
    }

    /** The worker has taken `k` steps of the schedule. */
    ghost predicate At(sched: Schedule<E>, k: nat)
      reads this
    {
      Valid() && Quiet(sched) && trace == Interleave(sched, k)
    }

    /** The others have taken their turn, and the worker's next step is number `k`. */
    ghost predicate Before(sched: Schedule<E>, k: nat)
      reads this
    {
      Valid() && Quiet(sched) && trace == Interleave(sched, k) + Turn(sched, k)
    }

    /** The others take their turn. */
    method Interfere(sched: Schedule<E>, k: nat)
      requires At(sched, k)
      modifies this
      ensures Before(sched, k) && SameWork(old(model), model)
      ensures k >= |sched.others| ==> channel == old(channel)
    {
      var turn := Turn(sched, k);
      for i := 0 to |turn|
        invariant Valid() && trace == old(trace) + turn[..i] && SameWork(old(model), model)
        invariant i == 0 ==> channel == old(channel)
      {
        if turn[i].Push? {
          PushEntry(turn[i].entry);
        } else {
          Shutdown();
        }
        assert turn[..i + 1] == turn[..i] + [turn[i]];
      }
      assert turn[..|turn|] == turn;
    }

    /** `try_recv` on a channel that is not empty. */
    method Take(sched: Schedule<E>, k: nat) returns (entry: E)
      requires Before(sched, k) && channel != []
      requires (model.pc == Draining && |model.batch| < config.maxSize) || model.pc == FinalDraining
      modifies this
      ensures At(sched, k + 1) && model == Receive(old(model))
      ensures entry == old(channel[0]) && channel == old(channel[1..])
    {
      entry := channel[0];
      channel := channel[1..];
      RunSnoc(Init(config), trace, Work(sched.worlds(k)));
      model, trace := WorkStep(model, sched.worlds(k)), trace + [Work(sched.worlds(k))];
    }

    /** A step of the worker that moves no entry. */
    ghost method Move(sched: Schedule<E>, k: nat)
      requires Before(sched, k)
      requires var t := WorkStep(model, sched.worlds(k)); t.channel == channel && t.published == published
      modifies this`model, this`trace
      ensures At(sched, k + 1) && model == WorkStep(old(model), sched.worlds(k))
    {
      RunSnoc(Init(config), trace, Work(sched.worlds(k)));
      model, trace := WorkStep(model, sched.worlds(k)), trace + [Work(sched.worlds(k))];
    }

    /** Takes entries from the channel until the batch is full or the channel empty. */
    method DrainEntries(batch: seq<E>, sched: Schedule<E>, k: nat) returns (full: seq<E>, next: nat)
      requires At(sched, k) && model.pc == Draining && model.batch == batch
      modifies this
      ensures At(sched, next) && k < next && full == model.batch
      ensures model.pc == (if full != [] then Flushing else Checking)
      ensures |full| >= config.maxSize || channel == []
      ensures SameWork(old(model).(pc := model.pc, batch := full, marks := model.marks), model)
      ensures |model.marks| == old(|model.marks|) + 1
    {
      full, next := batch, k;
      Interfere(sched, next);
      while |full| < config.maxSize && channel != []
        invariant Before(sched, next) && k <= next
        invariant full == model.batch && SameWork(old(model).(batch := full), model)
        decreases config.maxSize - |full|
      {
        var entry := Take(sched, next);
        full, next := full + [entry], next + 1;
        Interfere(sched, next);
      }
      Move(sched, next);
      next := next + 1;
    }

    /** Takes every remaining entry. */
    method DrainAll(batch: seq<E>, sched: Schedule<E>, k: nat) returns (full: seq<E>, next: nat)
      requires At(sched, k) && model.pc == FinalDraining && model.batch == batch
      modifies this
      ensures At(sched, next) && k < next && full == model.batch
      ensures model.pc == (if full != [] then FinalFlushing else Exited)
      ensures channel == [] && model.sealedAt == |model.accepted|
      ensures SameWork(old(model).(pc := model.pc, batch := full, sealedAt := model.sealedAt), model)
    {
      full, next := batch, k;
      Interfere(sched, next);
      while channel != []
        invariant Before(sched, next) && k <= next
        invariant full == model.batch && SameWork(old(model).(batch := full), model)
        decreases Clip(|sched.others| - next), |channel|
      {
        var entry := Take(sched, next);
        full, next := full + [entry], next + 1;
        Interfere(sched, next);
      }
      Move(sched, next);
      next := next + 1;
    }

    /** The sink holds what the protocol says it holds. */
    ghost predicate Attached(sink: DatabaseSink<E>)
      reads this, sink
    {
      && sink.hasDlq == config.hasDlq
      && sink.stored == model.stored && sink.deadLettered == model.dead && sink.lost == model.lost
    }

    /** Publishes the batch, writes it to the sink and clears it, whatever the sink answers. */
    method FlushBatch(sink: DatabaseSink<E>, batch: seq<E>, world: World) returns (cleared: seq<E>)
      requires Valid() && Attached(sink) && model.pc in {Flushing, FinalFlushing} && model.batch == batch
      modifies this, sink
      ensures Valid() && Attached(sink) && cleared == []
      ensures model == WorkStep(old(model), world) && trace == old(trace) + [Work(world)]
      ensures channel == old(channel) && shutdown == old(shutdown)
      ensures published == if config.hasBus then old(published) + batch else old(published)
    {
      if config.hasBus {
        var i := 0;
        while i < |batch|
          invariant 0 <= i <= |batch| && published == old(published) + batch[..i]
          invariant model == old(model) && trace == old(trace) && channel == old(channel) && shutdown == old(shutdown)
          invariant droppedCount == old(droppedCount)
          invariant sink.stored == old(sink.stored) && sink.deadLettered == old(sink.deadLettered)
            && sink.lost == old(sink.lost)
        {
          published := published + [batch[i]];
          i := i + 1;
        }
        assert batch[..i] == batch;
      }
      var _ := sink.WriteBatch(batch, world);
      RunSnoc(Init(config), trace, Work(world));
      model, trace := WorkStep(model, world), trace + [Work(world)];
      cleared := [];
    }

    /** A flush, after the turn of the others. */
    method FlushNext(sink: DatabaseSink<E>, batch: seq<E>, sched: Schedule<E>, k: nat)
      requires At(sched, k) && Attached(sink) && model.pc in {Flushing, FinalFlushing} && model.batch == batch
      modifies this, sink
      ensures At(sched, k + 1) && Attached(sink)
      ensures model.pc == (if old(model.pc) == Flushing then Checking else Exited) && (old(shutdown) ==> shutdown)
    {
      Interfere(sched, k);
      var cleared := FlushBatch(sink, batch, sched.worlds(k));
    }

    /** The first half of a round: drain up to a batch, and flush it. */
    method DrainAndFlush(sink: DatabaseSink<E>, sched: Schedule<E>, k: nat) returns (next: nat)
      requires At(sched, k) && Attached(sink) && model.pc == Draining && model.batch == []
      modifies this, sink
      ensures At(sched, next) && Attached(sink) && k < next
      ensures model.pc == Checking && (old(shutdown) ==> shutdown)
    {
      var batch;
      batch, next := DrainEntries([], sched, k);
      if batch != [] {
        FlushNext(sink, batch, sched, next);
        next := next + 1;
      }
    }

    /** The last drain and flush before the worker exits. */
    method FinalDrainAndFlush(sink: DatabaseSink<E>, sched: Schedule<E>, k: nat) returns (next: nat)
      requires At(sched, k) && Attached(sink) && model.pc == FinalDraining && model.batch == []
      modifies this, sink
      ensures At(sched, next) && Attached(sink) && k < next && model.pc == Exited
    {
      var batch;
      batch, next := DrainAll([], sched, k);
      if batch != [] {
        FlushNext(sink, batch, sched, next);
        next := next + 1;
      }
    }

    /** Loads the shutdown flag. */
    method CheckShutdown(sched: Schedule<E>, k: nat) returns (exit: bool)
      requires At(sched, k) && model.pc == Checking
      modifies this
      ensures At(sched, k + 1) && (old(shutdown) ==> exit) && model.batch == []
      ensures SameWork(old(model).(pc := if exit then FinalDraining else Sleeping), model)
    {
      AtRest(config, trace);
      Interfere(sched, k);
      exit := shutdown;
      Move(sched, k);
    }

    /** One round of the worker's loop up to the sleep; `exit` when it leaves the loop. */
    method Round(sink: DatabaseSink<E>, sched: Schedule<E>, k: nat) returns (exit: bool, next: nat)
      requires At(sched, k) && Attached(sink) && model.pc == Draining && model.batch == []
      modifies this, sink
      ensures At(sched, next) && Attached(sink) && k < next
      ensures model.pc == if exit then Exited else Sleeping
      ensures old(shutdown) ==> exit
    {
      next := DrainAndFlush(sink, sched, k);
      exit := CheckShutdown(sched, next);
      next := next + 1;
      if exit {
        next := FinalDrainAndFlush(sink, sched, next);
      }
    }

    /** The sleep between two rounds. */
    method Sleep(sched: Schedule<E>, k: nat)
      requires At(sched, k) && model.pc == Sleeping
      modifies this
      ensures At(sched, k + 1) && SameWork(old(model).(pc := Draining), model)
    {
      Interfere(sched, k);
      Move(sched, k);
    }

    /** The whole life of the worker, whatever others do meanwhile, as long as somebody asks for a shutdown: it exits,
        and then everything that was accepted before the request has been handed to the sink and published, once and in
        order, and each entry is stored, dead-lettered or lost. */
    method StartWorker(sink: DatabaseSink<E>, sched: Schedule<E>) returns (steps: nat)
      requires At(sched, 0) && Attached(sink) && Stops(sched)
      modifies this, sink
      ensures At(sched, steps) && Attached(sink) && model.pc == Exited
      ensures model.requestedAt <= model.sealedAt <= |model.accepted|
        && model.flushed == model.accepted[..model.sealedAt]
      ensures model.accepted == model.flushed + channel && model.attempts == |model.accepted| + droppedCount
      ensures published == if config.hasBus then model.flushed else []
      ensures multiset(model.flushed) == multiset(sink.stored) + multiset(sink.deadLettered) + multiset(sink.lost)
    {
      steps := 0;
      var exit := false;
      while !exit
        invariant At(sched, steps) && Attached(sink)
        invariant if exit then model.pc == Exited else model.pc == Draining && model.batch == []
        decreases if exit then 0 else 1 + Clip(|sched.others| - steps)
      {
        if steps >= |sched.others| { Requested(sched, steps, Init(config)); }
        exit, steps := Round(sink, sched, steps);
        if !exit {
          AtRest(config, trace);
          Sleep(sched, steps);
          steps := steps + 1;
        }
      }
      InitInv<E>(config);
      RunInv(Init(config), trace);
    }
  }

  /** When all turns are over, the request has been heard. */
  lemma Requested<E>(sched: Schedule<E>, n: nat, s: State<E>)
    requires Stops(sched) && n >= |sched.others|
    ensures Run(s, Interleave(sched, n)).shutdown
  {
    var i :| 0 <= i < |sched.others| && RequestShutdown in sched.others[i];
    TurnTaken(sched, n, i, RequestShutdown);
    RequestHeard(s, Interleave(sched, n));
  }

  /** Between two rounds the batch is empty. */
  lemma AtRest<E>(config: Config, actions: seq<Action<E>>)
    ensures var s := Run(Init(config), actions); s.pc in {Checking, Sleeping} ==> s.batch == []
  {
    InitInv<E>(config);
    RunInv(Init(config), actions);
  }
}

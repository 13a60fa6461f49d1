/**
 * ExecuteProduceConsume under every interleaving of its threads.
 *
 * Each thread is a program counter; every lock section, every produce()
 * call, every hand-off to the executor and every inline task run is one
 * atomic step of one thread. The executor is the multiset of runnables
 * handed to it and not yet started. `owed` records that an execute() or
 * dispatch() call has arrived since the last produce() call: a strategy
 * that comes to rest while a call is owed has lost a wake-up.
 */
module EpcInterleavings {
  import opened Collaborators
  import opened Epc

  /** Where a thread stands in the strategy's code. */
  datatype Pc =
    | AtExecute                     // in execute(), before its lock section
    | AtDispatch                    // in dispatch(), before its lock section
    | Spawning                      // dispatch() is handing _runExecute to the executor
    | AtRun                         // in run() (a started successor), before its lock section
    | Polling                       // holds _producing, about to call produce()
    | Produced(answer: Option<Task>)  // produce() returned, before the lock section
    | Dispatching(task: Task)       // handing the successor to the executor, then runs `task`
    | Running(task: Task)           // about to run `task` inline
    | AfterRun                      // task run, before the lock section that may produce again
    | Done                          // returned
    | Failed                        // left with IllegalStateException

  /** The two entry points of the strategy. */
  datatype Entry = ExecuteCall | DispatchCall

  datatype Event =
    | Call(entry: Entry)   // an outside thread calls execute() or dispatch()
    | Start(job: Job)      // the executor starts one runnable it holds
    | Advance(thread: nat) // a thread takes its next atomic step

  datatype Sys = Sys(
    flags: Flags,
    threads: seq<Pc>,
    executor: multiset<Job>,
    producer: Producer,
    ran: seq<Task>,
    owed: bool)

  function Init(script: seq<Option<Task>>): Sys
  {
    Sys(Initial, [], multiset{}, FreshProducer(script), [], false)
  }

  /** The program counter a thread moves to on the decision of a lock section. */
  function Resume(next: Next, answer: Option<Task>): Pc
  {
    match next
    case Poll => Polling
    case Leave => Done
    case Fail => Failed
    case Spawn => Spawning
    case Consume(dispatch) =>
      if answer.None? then Done
      else if dispatch then Dispatching(answer.value) else Running(answer.value)
  }

  /** The next atomic step of thread t. */
  function AdvanceThread(s: Sys, t: nat): Sys
    requires t < |s.threads|
  {
    var ts := s.threads;
    match ts[t]
    case AtExecute =>
      var r := ExecuteSection(s.flags);
      s.(flags := r.flags, threads := ts[t := Resume(r.next, None)])
    case AtDispatch =>
      var r := DispatchSection(s.flags);
      s.(flags := r.flags, threads := ts[t := Resume(r.next, None)])
    case Spawning =>
      s.(executor := s.executor + multiset{RunExecute}, threads := ts[t := Done])
    case AtRun =>
      var r := RunSection(s.flags);
      s.(flags := r.flags, threads := ts[t := Resume(r.next, None)])
    case Polling =>
      var answer := Produce(s.producer);
      s.(producer := answer.1, threads := ts[t := Produced(answer.0)], owed := false)
    case Produced(answer) =>
      var r := ProducedSection(s.flags, answer);
      s.(flags := r.flags, threads := ts[t := Resume(r.next, answer)])
    case Dispatching(task) =>
      s.(executor := s.executor + multiset{Successor}, threads := ts[t := Running(task)])
    case Running(task) =>
      s.(ran := s.ran + [task], threads := ts[t := AfterRun])
    case AfterRun =>
      var r := RanSection(s.flags);
      s.(flags := r.flags, threads := ts[t := Resume(r.next, None)])
    case Done => s
    case Failed => s
  }

  function Step(s: Sys, e: Event): Sys
  {
    match e
    case Call(ExecuteCall) => s.(threads := s.threads + [AtExecute], owed := true)
    case Call(DispatchCall) => s.(threads := s.threads + [AtDispatch], owed := true)
    case Start(job) =>
      if job in s.executor then
        s.(executor := s.executor - multiset{job},
           threads := s.threads + [if job == RunExecute then AtExecute else AtRun])
      else s
    case Advance(t) => if t < |s.threads| then AdvanceThread(s, t) else s
  }

  /**
   * The step table of the strategy, one atomic step of thread t at a time.
   * Only that thread's counter moves, and each effect happens at one program
   * point only (line numbers of ExecuteProduceConsume.java):
   *  - the flags change only in the lock sections of execute() (70-89),
   *    dispatch() (101-107), run() (118-125), after produce() (148-179) and
   *    after the task has run (198-204);
   *  - a thread goes on to produce() only holding _producing (79, 123, 160,
   *    203), and produce() is its own step (142);
   *  - execute() throws exactly when idle and producing (75-76); dispatch()
   *    never produces and hands _runExecute over in a step of its own
   *    (108-109);
   *  - after a task the successor is handed over, in a step of its own,
   *    exactly when _pending was clear (172-176, 182-188), and the task runs
   *    after that (193);
   *  - after the run the thread produces again exactly when nobody produces
   *    and the strategy is not idle (201-203).
   */
  lemma AdvanceThreadEffects(s: Sys, t: nat)
    requires t < |s.threads|
    ensures var r := AdvanceThread(s, t); var pc := s.threads[t];
      && |r.threads| == |s.threads| && r.threads == s.threads[t := r.threads[t]]
      && (r.flags != s.flags ==> pc == AtExecute || pc == AtDispatch || pc == AtRun || pc.Produced? || pc == AfterRun)
      && (r.threads[t] == Polling && pc != Polling ==> r.flags.producing)
      && (r.producer != s.producer ==> pc == Polling)
      && (pc == AtExecute ==> (r.threads[t] == Failed <==> s.flags.idle && s.flags.producing))
      && (pc == AtDispatch ==> (r.threads[t] == Spawning <==> s.flags.idle) && (r.threads[t] == Spawning || r.threads[t] == Done))
      && (r.executor != s.executor ==>
            || (pc == Spawning && r.executor == s.executor + multiset{RunExecute} && r.threads[t] == Done)
            || (pc.Dispatching? && r.executor == s.executor + multiset{Successor} && r.threads[t] == Running(pc.task)))
      && (pc.Produced? && pc.answer.Some? ==>
            r.threads[t] == (if s.flags.pending then Running(pc.answer.value) else Dispatching(pc.answer.value)))
      && (r.ran != s.ran ==> pc.Running? && r.ran == s.ran + [pc.task] && r.threads[t] == AfterRun)
      && (pc == AfterRun ==> (r.threads[t] == Polling <==> !s.flags.producing && !s.flags.idle) && (r.threads[t] == Polling || r.threads[t] == Done))
      && (pc == Done || pc == Failed ==> r == s)
  {
  }

  /**
   * What one event does to the threads, the executor and `owed`: only an
   * outside call makes a call owed; a runnable leaves the executor only as a
   * new thread entering execute() (_runExecute) or run() (the successor).
   */
  lemma StepEffects(s: Sys, e: Event)
    ensures var r := Step(s, e);
      && (!e.Advance? ==> |s.threads| <= |r.threads| <= |s.threads| + 1 && r.threads[..|s.threads|] == s.threads)
      && (e.Advance? ==> |r.threads| == |s.threads|)
      && (e.Start? && e.job in s.executor ==>
            r.executor == s.executor - multiset{e.job} && r.threads[|s.threads|] == (if e.job == RunExecute then AtExecute else AtRun))
      && (|r.threads| > |s.threads| && e.Call? ==> r.threads[|s.threads|] == (if e.entry == ExecuteCall then AtExecute else AtDispatch))
      && (e.Call? ==> r.owed && |r.threads| == |s.threads| + 1)
      && (r.owed && !s.owed ==> e.Call?)
  {
    if e.Advance? && e.thread < |s.threads| {
      AdvanceThreadEffects(s, e.thread);
    }
  }

  /** The state after the events `es`, in order. */
  function Run(s: Sys, es: seq<Event>): Sys
    decreases |es|
  {
    if es == [] then s else Run(Step(s, es[0]), es[1..])
  }

  /**
   * What the invariant counts over the threads: how many are about to call
   * produce() holding _producing, how many have just returned from it, how many stand for the successor that _pending
   * announces, how many are between producing a task and the lock section
   * after running it, how many execute() or dispatch() calls have not yet
   * taken effect, and how many threads failed.
   */
  datatype Tally = Tally(polling: nat, produced: nat, successors: nat, afterTask: nat, signals: nat, failed: nat)

  function Plus(a: Tally, b: Tally): Tally
  {
    Tally(a.polling + b.polling, a.produced + b.produced, a.successors + b.successors,
          a.afterTask + b.afterTask, a.signals + b.signals, a.failed + b.failed)
  }

  const Zero: Tally := Tally(0, 0, 0, 0, 0, 0)

  /** What one thread contributes to the tally. */
  function Of(pc: Pc): Tally
  {
    match pc
    case AtExecute => Zero.(signals := 1)
    case AtDispatch => Zero.(signals := 1)
    case Spawning => Zero.(signals := 1)
    case AtRun => Zero.(successors := 1)
    case Polling => Zero.(polling := 1)
    case Produced(_) => Zero.(produced := 1)
    case Dispatching(_) => Zero.(successors := 1, afterTask := 1)
    case Running(_) => Zero.(afterTask := 1)
    case AfterRun => Zero.(afterTask := 1)
    case Done => Zero
    case Failed => Zero.(failed := 1)
  }

  function Sum(ts: seq<Pc>): Tally
  {
    if ts == [] then Zero else Plus(Sum(ts[..|ts| - 1]), Of(ts[|ts| - 1]))
  }

  lemma SumAppend(ts: seq<Pc>, x: Pc)
    ensures Sum(ts + [x]) == Plus(Sum(ts), Of(x))
  {
    assert (ts + [x])[..|ts|] == ts;
  }

  /** Replacing one thread's program counter trades its contribution for the new one's. */
  lemma {:induction false} SumUpdate(ts: seq<Pc>, t: nat, x: Pc)
    requires t < |ts|
    ensures Plus(Sum(ts[t := x]), Of(ts[t])) == Plus(Sum(ts), Of(x))
  {
    var n := |ts| - 1;
    var us := ts[t := x];
    assert Sum(us) == Plus(Sum(us[..n]), Of(us[n]));
    assert Sum(ts) == Plus(Sum(ts[..n]), Of(ts[n]));
    if t == n {
      assert us[..n] == ts[..n];
    } else {
      assert us[..n] == ts[..n][t := x];
      SumUpdate(ts[..n], t, x);
    }
  }

  /** The task a thread holds between producing it and running it. */
  function Holds(pc: Pc): multiset<Task>
  {
    match pc
    case Produced(Some(task)) => multiset{task}
    case Dispatching(task) => multiset{task}
    case Running(task) => multiset{task}
    case _ => multiset{}
  }

  /** The tasks the threads `ts` hold. */
  function Held(ts: seq<Pc>): multiset<Task>
  {
    if ts == [] then multiset{} else Held(ts[..|ts| - 1]) + Holds(ts[|ts| - 1])
  }

  lemma HeldAppend(ts: seq<Pc>, x: Pc)
    ensures Held(ts + [x]) == Held(ts) + Holds(x)
  {
    assert (ts + [x])[..|ts|] == ts;
  }

  lemma {:induction false} HeldUpdate(ts: seq<Pc>, t: nat, x: Pc)
    requires t < |ts|
    ensures Holds(ts[t]) <= Held(ts)
    ensures Held(ts[t := x]) == Held(ts) - Holds(ts[t]) + Holds(x)
  {
    var n := |ts| - 1;
    var us := ts[t := x];
    if t == n {
      assert us[..n] == ts[..n];
    } else {
      assert us[..n] == ts[..n][t := x] && us[n] == ts[n] && ts[..n][t] == ts[t];
      HeldUpdate(ts[..n], t, x);
      ReplaceThenAdd(Held(ts[..n]), Holds(ts[t]), Holds(x), Holds(ts[n]));
    }
  }

  /** Replacing `b` by `c` in `a` and adding `d` is adding `d` first. */
  lemma ReplaceThenAdd(a: multiset<Task>, b: multiset<Task>, c: multiset<Task>, d: multiset<Task>)
    requires b <= a
    ensures b <= a + d && a - b + c + d == a + d - b + c
  {
  }

  /** Handing a held task back leaves the held tasks as they were. */
  lemma SwapBack(held: multiset<Task>, x: multiset<Task>)
    requires x <= held
    ensures held - x + x == held
  {
  }

  /** The invariant, given the tally `k` of the threads and the tasks `held` they hold. */
  ghost predicate Invariant(s: Sys, k: Tally, held: multiset<Task>)
  {
    var f := s.flags;
    var witnesses := s.executor[RunExecute] + k.signals;
    && Consistent(f)
    // _producing is held by exactly the one thread in production, if any
    && k.polling + k.produced == (if f.producing then 1 else 0)
    // _pending announces exactly one successor, queued or running its lock section
    && s.executor[Successor] + k.successors == (if f.pending then 1 else 0)
    // a busy strategy has a thread that will produce again or make it idle
    && (!f.idle ==> k.polling + k.produced + k.afterTask > 0)
    // an owed call is recorded in the flags or still on its way
    && (s.owed ==> !f.idle || witnesses > 0)
    && (s.owed && k.produced > 0 ==> f.execute || witnesses > 0)
    && k.failed == 0
    // every task produced so far has run or is held by exactly one thread
    && multiset(s.ran) + held == Yielded(s.producer.polled)
  }

  ghost predicate Inv(s: Sys)
  {
    Invariant(s, Sum(s.threads), Held(s.threads))
  }

  lemma InitInv(script: seq<Option<Task>>)
    ensures Inv(Init(script))
  {
  }

  lemma ExecuteStep(s: Sys, t: nat, k: Tally, k': Tally, held: multiset<Task>, held': multiset<Task>)
    requires t < |s.threads| && s.threads[t] == AtExecute
    requires Invariant(s, k, held) && Plus(k', Of(s.threads[t])) == Plus(k, Of(AdvanceThread(s, t).threads[t]))
    requires Holds(s.threads[t]) <= held && held' == held - Holds(s.threads[t]) + Holds(AdvanceThread(s, t).threads[t])
    ensures Invariant(AdvanceThread(s, t), k', held')
  {
  }

  lemma DispatchStep(s: Sys, t: nat, k: Tally, k': Tally, held: multiset<Task>, held': multiset<Task>)
    requires t < |s.threads| && s.threads[t] == AtDispatch
    requires Invariant(s, k, held) && Plus(k', Of(s.threads[t])) == Plus(k, Of(AdvanceThread(s, t).threads[t]))
    requires Holds(s.threads[t]) <= held && held' == held - Holds(s.threads[t]) + Holds(AdvanceThread(s, t).threads[t])
    ensures Invariant(AdvanceThread(s, t), k', held')
  {
  }

  lemma SpawnStep(s: Sys, t: nat, k: Tally, k': Tally, held: multiset<Task>, held': multiset<Task>)
    requires t < |s.threads| && s.threads[t] == Spawning
    requires Invariant(s, k, held) && Plus(k', Of(s.threads[t])) == Plus(k, Of(AdvanceThread(s, t).threads[t]))
    requires Holds(s.threads[t]) <= held && held' == held - Holds(s.threads[t]) + Holds(AdvanceThread(s, t).threads[t])
    ensures Invariant(AdvanceThread(s, t), k', held')
  {
    var executor := s.executor + multiset{RunExecute};
    assert AdvanceThread(s, t) == s.(executor := executor, threads := s.threads[t := Done]);
    assert executor[RunExecute] == s.executor[RunExecute] + 1 && executor[Successor] == s.executor[Successor];
    assert k' == k.(signals := k.signals - 1);
  }

  lemma RunStep(s: Sys, t: nat, k: Tally, k': Tally, held: multiset<Task>, held': multiset<Task>)
    requires t < |s.threads| && s.threads[t] == AtRun
    requires Invariant(s, k, held) && Plus(k', Of(s.threads[t])) == Plus(k, Of(AdvanceThread(s, t).threads[t]))
    requires Holds(s.threads[t]) <= held && held' == held - Holds(s.threads[t]) + Holds(AdvanceThread(s, t).threads[t])
    ensures Invariant(AdvanceThread(s, t), k', held')
  {
  }

  lemma PollStep(s: Sys, t: nat, k: Tally, k': Tally, held: multiset<Task>, held': multiset<Task>)
    requires t < |s.threads| && s.threads[t] == Polling
    requires Invariant(s, k, held) && Plus(k', Of(s.threads[t])) == Plus(k, Of(AdvanceThread(s, t).threads[t]))
    requires Holds(s.threads[t]) <= held && held' == held - Holds(s.threads[t]) + Holds(AdvanceThread(s, t).threads[t])
    ensures Invariant(AdvanceThread(s, t), k', held')
  {
    YieldedAppend(s.producer.polled, NextAnswer(s.producer));
  }

  lemma ProducedNoneStep(s: Sys, t: nat, k: Tally, k': Tally, held: multiset<Task>, held': multiset<Task>)
    requires t < |s.threads| && s.threads[t] == Produced(None)
    requires Invariant(s, k, held) && Plus(k', Of(s.threads[t])) == Plus(k, Of(AdvanceThread(s, t).threads[t]))
    requires Holds(s.threads[t]) <= held && held' == held - Holds(s.threads[t]) + Holds(AdvanceThread(s, t).threads[t])
    ensures Invariant(AdvanceThread(s, t), k', held')
  {
  }

  lemma ProducedTaskStep(s: Sys, t: nat, k: Tally, k': Tally, held: multiset<Task>, held': multiset<Task>)
    requires t < |s.threads| && s.threads[t].Produced? && s.threads[t].answer.Some?
    requires Invariant(s, k, held) && Plus(k', Of(s.threads[t])) == Plus(k, Of(AdvanceThread(s, t).threads[t]))
    requires Holds(s.threads[t]) <= held && held' == held - Holds(s.threads[t]) + Holds(AdvanceThread(s, t).threads[t])
    ensures Invariant(AdvanceThread(s, t), k', held')
  {
    var task := s.threads[t].answer.value;
    var pc := if s.flags.pending then Running(task) else Dispatching(task);
    var s' := AdvanceThread(s, t);
    ProducedTaskAdvance(s, t);
    assert s'.threads[t] == pc;
    assert Holds(pc) == Holds(s.threads[t]) == multiset{task};
    SwapBack(held, multiset{task});
    assert held' == held;
    assert Of(s.threads[t]) == Zero.(produced := 1);
    assert Of(pc) == Zero.(successors := if s.flags.pending then 0 else 1, afterTask := 1);
    assert k' == k.(produced := k.produced - 1, afterTask := k.afterTask + 1,
                    successors := k.successors + (if s.flags.pending then 0 else 1));
    ProducedTaskFlags(s, s', k, k', held, held');
  }

  /** The step after a produced task, field by field. */
  lemma ProducedTaskAdvance(s: Sys, t: nat)
    requires t < |s.threads| && s.threads[t].Produced? && s.threads[t].answer.Some?
    ensures var task := s.threads[t].answer.value;
      AdvanceThread(s, t) == s.(flags := s.flags.(producing := false, execute := false, pending := true),
                                threads := s.threads[t := if s.flags.pending then Running(task) else Dispatching(task)])
  {
  }

  /** The flags and tally after the lock section that follows a produced task. */
  lemma ProducedTaskFlags(s: Sys, s': Sys, k: Tally, k': Tally, held: multiset<Task>, held': multiset<Task>)
    requires Invariant(s, k, held) && k.produced > 0 && held' == held
    requires s'.flags == s.flags.(producing := false, execute := false, pending := true)
    requires s'.executor == s.executor && s'.producer == s.producer && s'.ran == s.ran && s'.owed == s.owed
    requires k' == k.(produced := k.produced - 1, afterTask := k.afterTask + 1,
                      successors := k.successors + (if s.flags.pending then 0 else 1))
    ensures Invariant(s', k', held')
  {
  }

  lemma DispatchingStep(s: Sys, t: nat, k: Tally, k': Tally, held: multiset<Task>, held': multiset<Task>)
    requires t < |s.threads| && s.threads[t].Dispatching?
    requires Invariant(s, k, held) && Plus(k', Of(s.threads[t])) == Plus(k, Of(AdvanceThread(s, t).threads[t]))
    requires Holds(s.threads[t]) <= held && held' == held - Holds(s.threads[t]) + Holds(AdvanceThread(s, t).threads[t])
    ensures Invariant(AdvanceThread(s, t), k', held')
  {
  }

  lemma RunningStep(s: Sys, t: nat, k: Tally, k': Tally, held: multiset<Task>, held': multiset<Task>)
    requires t < |s.threads| && s.threads[t].Running?
    requires Invariant(s, k, held) && Plus(k', Of(s.threads[t])) == Plus(k, Of(AdvanceThread(s, t).threads[t]))
    requires Holds(s.threads[t]) <= held && held' == held - Holds(s.threads[t]) + Holds(AdvanceThread(s, t).threads[t])
    ensures Invariant(AdvanceThread(s, t), k', held')
  {
    var task := s.threads[t].task;
    assert AdvanceThread(s, t) == s.(ran := s.ran + [task], threads := s.threads[t := AfterRun]);
    assert multiset(s.ran + [task]) == multiset(s.ran) + multiset{task};
    assert held' == held - multiset{task};
    assert k' == k;
  }

  lemma AfterRunStep(s: Sys, t: nat, k: Tally, k': Tally, held: multiset<Task>, held': multiset<Task>)
    requires t < |s.threads| && s.threads[t] == AfterRun
    requires Invariant(s, k, held) && Plus(k', Of(s.threads[t])) == Plus(k, Of(AdvanceThread(s, t).threads[t]))
    requires Holds(s.threads[t]) <= held && held' == held - Holds(s.threads[t]) + Holds(AdvanceThread(s, t).threads[t])
    ensures Invariant(AdvanceThread(s, t), k', held')
  {
  }

  /** Every atomic step of every thread keeps the invariant, stated over any tally. */
  lemma ThreadStep(s: Sys, t: nat, k: Tally, k': Tally, h: multiset<Task>, h': multiset<Task>)
    requires t < |s.threads|
    requires Invariant(s, k, h) && Plus(k', Of(s.threads[t])) == Plus(k, Of(AdvanceThread(s, t).threads[t]))
    requires Holds(s.threads[t]) <= h && h' == h - Holds(s.threads[t]) + Holds(AdvanceThread(s, t).threads[t])
    ensures Invariant(AdvanceThread(s, t), k', h')
  {
    match s.threads[t]
    case AtExecute => ExecuteStep(s, t, k, k', h, h');
    case AtDispatch => DispatchStep(s, t, k, k', h, h');
    case Spawning => SpawnStep(s, t, k, k', h, h');
    case AtRun => RunStep(s, t, k, k', h, h');
    case Polling => PollStep(s, t, k, k', h, h');
    case Produced(None) => ProducedNoneStep(s, t, k, k', h, h');
    case Produced(Some(_)) => ProducedTaskStep(s, t, k, k', h, h');
    case Dispatching(_) => DispatchingStep(s, t, k, k', h, h');
    case Running(_) => RunningStep(s, t, k, k', h, h');
    case AfterRun => AfterRunStep(s, t, k, k', h, h');
    case Done =>
    case Failed =>
  }

  /** A step of thread t changes no other thread's program counter. */
  lemma AdvanceFrame(s: Sys, t: nat)
    requires t < |s.threads|
    ensures AdvanceThread(s, t).threads == s.threads[t := AdvanceThread(s, t).threads[t]]
  {
  }

  /** Every atomic step of every thread keeps the invariant. */
  lemma AdvanceKeepsInv(s: Sys, t: nat)
    requires Inv(s) && t < |s.threads|
    ensures Inv(AdvanceThread(s, t))
  {
    var s' := AdvanceThread(s, t);
    AdvanceFrame(s, t);
    SumUpdate(s.threads, t, s'.threads[t]);
    HeldUpdate(s.threads, t, s'.threads[t]);
    ThreadStep(s, t, Sum(s.threads), Sum(s'.threads), Held(s.threads), Held(s'.threads));
  }

  /** An outside call adds a thread that is on its way to signal the strategy. */
  lemma CallStep(s: Sys, entry: Entry, k: Tally, k': Tally, h: multiset<Task>)
    requires Invariant(s, k, h) && k' == Plus(k, Of(if entry == ExecuteCall then AtExecute else AtDispatch))
    ensures Invariant(Step(s, Call(entry)), k', h)
  {
  }

  /** The executor starting a runnable moves it from its queue to a new thread. */
  lemma StartStep(s: Sys, job: Job, k: Tally, k': Tally, h: multiset<Task>)
    requires job in s.executor
    requires Invariant(s, k, h) && k' == Plus(k, Of(if job == RunExecute then AtExecute else AtRun))
    ensures Invariant(Step(s, Start(job)), k', h)
  {
  }

  lemma CallKeepsInv(s: Sys, entry: Entry)
    requires Inv(s)
    ensures Inv(Step(s, Call(entry)))
  {
    var s' := Step(s, Call(entry));
    var x := if entry == ExecuteCall then AtExecute else AtDispatch;
    assert s'.threads == s.threads + [x];
    SumAppend(s.threads, x);
    HeldAppend(s.threads, x);
    CallStep(s, entry, Sum(s.threads), Sum(s'.threads), Held(s.threads));
  }

  lemma StartKeepsInv(s: Sys, job: Job)
    requires Inv(s) && job in s.executor
    ensures Inv(Step(s, Start(job)))
  {
    var s' := Step(s, Start(job));
    var x := if job == RunExecute then AtExecute else AtRun;
    assert s'.threads == s.threads + [x];
    SumAppend(s.threads, x);
    HeldAppend(s.threads, x);
    StartStep(s, job, Sum(s.threads), Sum(s'.threads), Held(s.threads));
  }

  /** Every event keeps the invariant. */
  lemma StepKeepsInv(s: Sys, e: Event)
    requires Inv(s)
    ensures Inv(Step(s, e))
  {
    match e
    case Call(entry) => CallKeepsInv(s, entry);
    case Start(job) =>
      if job in s.executor {
        StartKeepsInv(s, job);
      }
    case Advance(t) =>
      if t < |s.threads| {
        AdvanceKeepsInv(s, t);
      }
  }

  lemma {:induction false} RunKeepsInv(s: Sys, es: seq<Event>)
    requires Inv(s)
    ensures Inv(Run(s, es))
    decreases |es|
  {
    if es != [] {
      StepKeepsInv(s, es[0]);
      RunKeepsInv(Step(s, es[0]), es[1..]);
    }
  }

  /** Holds _producing: about to call produce(), or just returned from it. */
  predicate InProduction(pc: Pc) { pc.Polling? || pc.Produced? }

  /** Two threads contribute at least what each contributes alone. */
  lemma SumTwo(ts: seq<Pc>, i: nat, j: nat)
    requires i < j < |ts|
    ensures Sum(ts).polling + Sum(ts).produced >= Of(ts[i]).polling + Of(ts[i]).produced + Of(ts[j]).polling + Of(ts[j]).produced
    ensures Sum(ts).failed >= Of(ts[i]).failed
  {
    SumUpdate(ts, i, Done);
    SumUpdate(ts[i := Done], j, Done);
  }

  /** Threads that have all returned or failed contribute nothing but their failures. */
  lemma {:induction false} SumAtRest(ts: seq<Pc>)
    requires forall i :: 0 <= i < |ts| ==> ts[i] == Done || ts[i] == Failed
    ensures Sum(ts) == Zero.(failed := Sum(ts).failed) && Held(ts) == multiset{}
  {
    if ts != [] {
      SumAtRest(ts[..|ts| - 1]);
    }
  }

  /**
   * Under every interleaving, an idle strategy has nobody producing, and
   * at most one thread holds production: no two threads are ever between
   * claiming _producing and the lock section after produce() at once.
   */
  lemma SingleProducer(script: seq<Option<Task>>, es: seq<Event>, i: nat, j: nat)
    requires var s := Run(Init(script), es); i < j < |s.threads|
    ensures var s := Run(Init(script), es);
      && (s.flags.idle ==> !s.flags.producing)
      && !(InProduction(s.threads[i]) && InProduction(s.threads[j]))
  {
    InitInv(script);
    RunKeepsInv(Init(script), es);
    var s := Run(Init(script), es);
    SumTwo(s.threads, i, j);
  }

  /** Under every interleaving, the IllegalStateException of execute() is never thrown. */
  lemma NeverFails(script: seq<Option<Task>>, es: seq<Event>, i: nat)
    requires i < |Run(Init(script), es).threads|
    ensures Run(Init(script), es).threads[i] != Failed
  {
    InitInv(script);
    RunKeepsInv(Init(script), es);
    var s := Run(Init(script), es);
    SumUpdate(s.threads, i, Done);
  }

  /**
   * Under every interleaving, at most one dispatched successor is
   * outstanding, and one is outstanding exactly when _pending is set: the
   * successors queued in the executor, plus the started ones before their
   * lock section, plus the threads about to hand one to the executor.
   */
  lemma OneSuccessor(script: seq<Option<Task>>, es: seq<Event>)
    ensures var s := Run(Init(script), es);
      s.executor[Successor] + Sum(s.threads).successors == (if s.flags.pending then 1 else 0)
  {
    InitInv(script);
    RunKeepsInv(Init(script), es);
  }

  /** No thread is inside the strategy and the executor holds none of its runnables. */
  predicate Quiescent(s: Sys)
  {
    && s.executor == multiset{}
    && forall i :: 0 <= i < |s.threads| ==> s.threads[i] == Done || s.threads[i] == Failed
  }

  /**
   * When every thread has left the strategy and the executor holds none of
   * its runnables, the strategy is idle with every flag clear, every
   * produced task has run (each exactly as often as it was produced), and
   * no execute() or dispatch() call arrived after the last produce(): no
   * wake-up is lost.
   */
  lemma QuiescentIsClean(script: seq<Option<Task>>, es: seq<Event>)
    requires Quiescent(Run(Init(script), es))
    ensures var s := Run(Init(script), es);
      && s.flags == Initial
      && !s.owed
      && multiset(s.ran) == Yielded(s.producer.polled)
  {
    InitInv(script);
    RunKeepsInv(Init(script), es);
    AtRestIsClean(Run(Init(script), es));
  }

  lemma AtRestIsClean(s: Sys)
    requires Inv(s) && Quiescent(s)
    ensures s.flags == Initial && !s.owed && multiset(s.ran) == Yielded(s.producer.polled)
  {
    SumAtRest(s.threads);
    CleanTally(s, Sum(s.threads), Held(s.threads));
  }

  lemma CleanTally(s: Sys, k: Tally, h: multiset<Task>)
    requires Invariant(s, k, h) && s.executor == multiset{}
    requires k == Zero.(failed := k.failed) && h == multiset{}
    ensures s.flags == Initial && !s.owed && multiset(s.ran) == Yielded(s.producer.polled)
  {
  }
}

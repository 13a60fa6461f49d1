/**
 * The benchmark's two-flag EatWhatYouKill under every interleaving of its
 * threads.
 *
 * Every successful or failed compare-and-set of _producing, every volatile
 * read or write of _threadPending or _producing, every produce() and
 * onAllScheduled() call, every hand-off to the executor and every inline
 * task run is one atomic step of one thread; the read of _threadPending and
 * the write that follows it are two steps. The executor holds `queued`
 * copies of the strategy, each of whose run() enters it afresh.
 */
module BenchEwykInterleavings {
  import opened Collaborators

  /** Where a thread stands in run(). */
  datatype Pc =
    | Entering                          // about to clear _threadPending
    | Claiming                          // about to compare-and-set _producing
    | Polling                           // won _producing, about to call produce()
    | Produced(answer: Option<Task>)    // produce() returned; for a task, _threadPending not yet read
    | Notifying                         // released _producing after null, about to call onAllScheduled()
    | Announcing(task: Task)            // read _threadPending false, about to set it
    | Releasing(task: Task, execute: bool)  // about to release _producing
    | Submitting(task: Task)            // about to hand a successor to the executor
    | Running(task: Task)               // about to run `task` inline
    | Done

  datatype Event =
    | Call                 // an outside thread calls run()
    | Start                // the executor starts one queued copy of the strategy
    | Advance(thread: nat) // a thread takes its next atomic step

  /**
   * `sent` counts the successors run() has handed to the executor; `owed`
   * records that an outside thread called run() since the last produce() call.
   */
  datatype Sys = Sys(
    producing: bool,
    threadPending: bool,
    threads: seq<Pc>,
    queued: nat,
    producer: Producer,
    ran: seq<Task>,
    sent: nat,
    owed: bool)

  function Init(script: seq<Option<Task>>): Sys
  {
    Sys(false, false, [], 0, FreshProducer(script), [], 0, false)
  }

  function AdvanceThread(s: Sys, t: nat): Sys
    requires t < |s.threads|
  {
    var ts := s.threads;
    match ts[t]
    case Entering =>
      s.(threadPending := false, threads := ts[t := Claiming])
    case Claiming =>
      if s.producing then s.(threads := ts[t := Done])
      else s.(producing := true, threads := ts[t := Polling])
    case Polling =>
      var answer := Produce(s.producer);
      s.(producer := answer.1, threads := ts[t := Produced(answer.0)], owed := false)
    case Produced(None) =>
      s.(producing := false, threads := ts[t := Notifying])
    case Produced(Some(task)) =>
      s.(threads := ts[t := if s.threadPending then Releasing(task, false) else Announcing(task)])
    case Notifying =>
      s.(producer := OnAllScheduled(s.producer), threads := ts[t := Done])
    case Announcing(task) =>
      s.(threadPending := true, threads := ts[t := Releasing(task, true)])
    case Releasing(task, execute) =>
      s.(producing := false, threads := ts[t := if execute then Submitting(task) else Running(task)])
    case Submitting(task) =>
      s.(queued := s.queued + 1, sent := s.sent + 1, threads := ts[t := Running(task)])
    case Running(task) =>
      s.(ran := s.ran + [task], threads := ts[t := Claiming])
    case Done => s
  }

  function Step(s: Sys, e: Event): Sys
  {
    match e
    case Call => s.(threads := s.threads + [Entering], owed := true)
    case Start =>
      if s.queued > 0 then s.(queued := s.queued - 1, threads := s.threads + [Entering]) else s
    case Advance(t) => if t < |s.threads| then AdvanceThread(s, t) else s
  }

  /**
   * The step table of run(), one atomic step of thread t at a time. Only
   * that thread's counter moves, and each shared effect happens at one
   * program point only (line numbers of benchmark/ExecutionStrategy.java):
   *  - _threadPending is cleared on entry (108), and set only by a thread
   *    that holds a task and read it false, in a step of its own (126-129);
   *  - _producing is set only by a compare-and-set that finds it false
   *    (112); a thread that finds it set leaves (113-114). It is released
   *    after a null answer (120) or after a task, before the hand-off (132);
   *  - produce() is called only by the winner (117), and onAllScheduled()
   *    only after the release that follows a null answer (121-122);
   *  - the strategy reaches the executor only after _producing is released
   *    (134-135), and the task runs inline after that (137); the loop goes
   *    back to the compare-and-set (109-112).
   */
  lemma AdvanceThreadEffects(s: Sys, t: nat)
    requires t < |s.threads|
    ensures var r := AdvanceThread(s, t);
      && |r.threads| == |s.threads| && r.threads == s.threads[t := r.threads[t]]
      && (s.threads[t] == Claiming ==> (r.threads[t] == Polling <==> !s.producing) && (r.threads[t] == Polling || r.threads[t] == Done))
      && (r.producing && !s.producing ==> s.threads[t] == Claiming)
      && (s.producing && !r.producing ==> s.threads[t] == Produced(None) || s.threads[t].Releasing?)
      && (s.threads[t] == Produced(None) ==> r.threads[t] == Notifying && !r.producing)
      && (r.producer != s.producer ==> s.threads[t] == Polling || s.threads[t] == Notifying)
      && (s.threads[t] == Notifying ==> r.producer.completions == s.producer.completions + 1 && r.threads[t] == Done)
      && (r.threadPending && !s.threadPending ==> s.threads[t].Announcing?)
      && (!r.threadPending && s.threadPending ==> s.threads[t] == Entering)
      && (s.threads[t].Produced? && s.threads[t].answer.Some? ==> (r.threads[t].Announcing? <==> !s.threadPending))
      && (s.threads[t].Announcing? ==> r.threads[t] == Releasing(s.threads[t].task, true))
      && (s.threads[t].Releasing? ==> r.threads[t] == (if s.threads[t].execute then Submitting(s.threads[t].task) else Running(s.threads[t].task)))
      && (r.queued != s.queued ==> r.queued == s.queued + 1 && s.threads[t].Submitting? && r.threads[t] == Running(s.threads[t].task))
      && (r.ran != s.ran ==> s.threads[t].Running? && r.ran == s.ran + [s.threads[t].task] && r.threads[t] == Claiming)
  {
  }

  /**
   * What one event does to the threads, the executor and `owed`: only an
   * outside call makes a call owed; every new thread enters at the top of
   * run(), and a queued copy of the strategy leaves the executor only as
   * such a thread.
   */
  lemma StepEffects(s: Sys, e: Event)
    ensures var r := Step(s, e);
      && (!e.Advance? ==> |s.threads| <= |r.threads| <= |s.threads| + 1 && r.threads[..|s.threads|] == s.threads)
      && (e.Advance? ==> |r.threads| == |s.threads|)
      && (|r.threads| > |s.threads| ==> r.threads[|s.threads|] == Entering)
      && (r.queued < s.queued ==> e == Start && r.queued == s.queued - 1 && |r.threads| == |s.threads| + 1)
      && (e.Call? ==> r.owed && |r.threads| == |s.threads| + 1)
      && (r.owed && !s.owed ==> e.Call?)
  {
    if e.Advance? && e.thread < |s.threads| {
      AdvanceThreadEffects(s, e.thread);
    }
  }

  /** The state after the events `es`, in order. */
  function Run(s: Sys, es: seq<Event>): Sys
  {
    if es == [] then s else Step(Run(s, es[..|es| - 1]), es[|es| - 1])
  }

  /** Between winning _producing and releasing it. */
  predicate InProduction(pc: Pc)
  {
    pc.Polling? || pc.Produced? || pc.Announcing? || pc.Releasing?
  }

  /** Holds a produced task and has not yet handed the successor it announced to the executor. */
  predicate Unsent(pc: Pc)
  {
    || (pc.Produced? && pc.answer.Some?)
    || pc.Announcing?
    || (pc.Releasing? && pc.execute)
    || pc.Submitting?
  }

  /**
   * The number of threads in production, holding an unsent task, and
   * between a null answer and their onAllScheduled() call.
   */
  datatype Tally = Tally(production: nat, unsent: nat, notifying: nat)

  function Of(pc: Pc): Tally
  {
    Tally(if InProduction(pc) then 1 else 0,
          if Unsent(pc) then 1 else 0,
          if (pc.Produced? && pc.answer.None?) || pc.Notifying? then 1 else 0)
  }

  function Plus(a: Tally, b: Tally): Tally
  {
    Tally(a.production + b.production, a.unsent + b.unsent, a.notifying + b.notifying)
  }

  function Sum(ts: seq<Pc>): Tally
  {
    if ts == [] then Tally(0, 0, 0) else Plus(Sum(ts[..|ts| - 1]), Of(ts[|ts| - 1]))
  }

  lemma SumAppend(ts: seq<Pc>, x: Pc)
    ensures Sum(ts + [x]) == Plus(Sum(ts), Of(x))
  {
    assert (ts + [x])[..|ts|] == ts;
  }

  lemma {:induction false} SumUpdate(ts: seq<Pc>, t: nat, x: Pc)
    requires t < |ts|
    ensures Plus(Sum(ts[t := x]), Of(ts[t])) == Plus(Sum(ts), Of(x))
  {
    var n := |ts| - 1;
    var us := ts[t := x];
    assert Sum(us) == Plus(Sum(us[..n]), Of(us[n]));
    assert Sum(ts) == Plus(Sum(ts[..n]), Of(ts[n]));
    if t == n {
      assert us[..n] == ts[..n];
    } else {
      assert us[..n] == ts[..n][t := x];
      SumUpdate(ts[..n], t, x);
    }
  }

  /** The task a thread holds between producing it and running it. */
  function Holds(pc: Pc): multiset<Task>
  {
    match pc
    case Produced(Some(task)) => multiset{task}
    case Announcing(task) => multiset{task}
    case Releasing(task, _) => multiset{task}
    case Submitting(task) => multiset{task}
    case Running(task) => multiset{task}
    case _ => multiset{}
  }

  function Held(ts: seq<Pc>): multiset<Task>
  {
    if ts == [] then multiset{} else Held(ts[..|ts| - 1]) + Holds(ts[|ts| - 1])
  }

  lemma HeldAppend(ts: seq<Pc>, x: Pc)
    ensures Held(ts + [x]) == Held(ts) + Holds(x)
  {
    assert (ts + [x])[..|ts|] == ts;
  }

  lemma {:induction false} HeldUpdate(ts: seq<Pc>, t: nat, x: Pc)
    requires t < |ts|
    ensures Holds(ts[t]) <= Held(ts)
    ensures Held(ts[t := x]) == Held(ts) - Holds(ts[t]) + Holds(x)
  {
    var n := |ts| - 1;
    var us := ts[t := x];
    if t == n {
      assert us[..n] == ts[..n];
    } else {
      assert us[..n] == ts[..n][t := x];
      HeldUpdate(ts[..n], t, x);
    }
  }

  /** The invariant, given the tally `k` of the threads and the tasks `held` they hold. */
  ghost predicate Invariant(s: Sys, k: Tally, held: multiset<Task>)
  {
    var p := s.producer;
    // _producing is set exactly while one thread is between winning and releasing it
    && k.production == (if s.producing then 1 else 0)
    // every successor was handed over for a distinct produced task
    && s.sent + k.unsent <= |Yielded(p.polled)|
    // every task produced so far has run or is held by exactly one thread
    && multiset(s.ran) + held == Yielded(p.polled)
    // every null answer is signalled by exactly one onAllScheduled() call, made or to come
    && p.completions + k.notifying == Nulls(p.polled)
  }

  ghost predicate Inv(s: Sys)
  {
    Invariant(s, Sum(s.threads), Held(s.threads))
  }

  lemma InitInv(script: seq<Option<Task>>)
    ensures Inv(Init(script))
  {
  }

  lemma EnterStep(s: Sys, t: nat, k: Tally, k': Tally, h: multiset<Task>, h': multiset<Task>)
    requires t < |s.threads| && s.threads[t] == Entering
    requires Invariant(s, k, h) && Plus(k', Of(s.threads[t])) == Plus(k, Of(AdvanceThread(s, t).threads[t]))
    requires Holds(s.threads[t]) <= h && h' == h - Holds(s.threads[t]) + Holds(AdvanceThread(s, t).threads[t])
    ensures Invariant(AdvanceThread(s, t), k', h')
  {
  }

  lemma ClaimStep(s: Sys, t: nat, k: Tally, k': Tally, h: multiset<Task>, h': multiset<Task>)
    requires t < |s.threads| && s.threads[t] == Claiming
    requires Invariant(s, k, h) && Plus(k', Of(s.threads[t])) == Plus(k, Of(AdvanceThread(s, t).threads[t]))
    requires Holds(s.threads[t]) <= h && h' == h - Holds(s.threads[t]) + Holds(AdvanceThread(s, t).threads[t])
    ensures Invariant(AdvanceThread(s, t), k', h')
  {
  }

  lemma PollStep(s: Sys, t: nat, k: Tally, k': Tally, h: multiset<Task>, h': multiset<Task>)
    requires t < |s.threads| && s.threads[t] == Polling
    requires Invariant(s, k, h) && Plus(k', Of(s.threads[t])) == Plus(k, Of(AdvanceThread(s, t).threads[t]))
    requires Holds(s.threads[t]) <= h && h' == h - Holds(s.threads[t]) + Holds(AdvanceThread(s, t).threads[t])
    ensures Invariant(AdvanceThread(s, t), k', h')
  {
    YieldedAppend(s.producer.polled, NextAnswer(s.producer));
    NullsAppend(s.producer.polled, NextAnswer(s.producer));
  }

  lemma NullStep(s: Sys, t: nat, k: Tally, k': Tally, h: multiset<Task>, h': multiset<Task>)
    requires t < |s.threads| && s.threads[t] == Produced(None)
    requires Invariant(s, k, h) && Plus(k', Of(s.threads[t])) == Plus(k, Of(AdvanceThread(s, t).threads[t]))
    requires Holds(s.threads[t]) <= h && h' == h - Holds(s.threads[t]) + Holds(AdvanceThread(s, t).threads[t])
    ensures Invariant(AdvanceThread(s, t), k', h')
  {
  }

  lemma NotifyStep(s: Sys, t: nat, k: Tally, k': Tally, h: multiset<Task>, h': multiset<Task>)
    requires t < |s.threads| && s.threads[t] == Notifying
    requires Invariant(s, k, h) && Plus(k', Of(s.threads[t])) == Plus(k, Of(AdvanceThread(s, t).threads[t]))
    requires Holds(s.threads[t]) <= h && h' == h - Holds(s.threads[t]) + Holds(AdvanceThread(s, t).threads[t])
    ensures Invariant(AdvanceThread(s, t), k', h')
  {
  }

  lemma ProducedStep(s: Sys, t: nat, k: Tally, k': Tally, h: multiset<Task>, h': multiset<Task>)
    requires t < |s.threads| && s.threads[t].Produced? && s.threads[t].answer.Some?
    requires Invariant(s, k, h) && Plus(k', Of(s.threads[t])) == Plus(k, Of(AdvanceThread(s, t).threads[t]))
    requires Holds(s.threads[t]) <= h && h' == h - Holds(s.threads[t]) + Holds(AdvanceThread(s, t).threads[t])
    ensures Invariant(AdvanceThread(s, t), k', h')
  {
    assert h' == h;
  }

  lemma AnnounceStep(s: Sys, t: nat, k: Tally, k': Tally, h: multiset<Task>, h': multiset<Task>)
    requires t < |s.threads| && s.threads[t].Announcing?
    requires Invariant(s, k, h) && Plus(k', Of(s.threads[t])) == Plus(k, Of(AdvanceThread(s, t).threads[t]))
    requires Holds(s.threads[t]) <= h && h' == h - Holds(s.threads[t]) + Holds(AdvanceThread(s, t).threads[t])
    ensures Invariant(AdvanceThread(s, t), k', h')
  {
    assert h' == h;
  }

  lemma ReleaseStep(s: Sys, t: nat, k: Tally, k': Tally, h: multiset<Task>, h': multiset<Task>)
    requires t < |s.threads| && s.threads[t].Releasing?
    requires Invariant(s, k, h) && Plus(k', Of(s.threads[t])) == Plus(k, Of(AdvanceThread(s, t).threads[t]))
    requires Holds(s.threads[t]) <= h && h' == h - Holds(s.threads[t]) + Holds(AdvanceThread(s, t).threads[t])
    ensures Invariant(AdvanceThread(s, t), k', h')
  {
    assert h' == h;
  }

  lemma SubmitStep(s: Sys, t: nat, k: Tally, k': Tally, h: multiset<Task>, h': multiset<Task>)
    requires t < |s.threads| && s.threads[t].Submitting?
    requires Invariant(s, k, h) && Plus(k', Of(s.threads[t])) == Plus(k, Of(AdvanceThread(s, t).threads[t]))
    requires Holds(s.threads[t]) <= h && h' == h - Holds(s.threads[t]) + Holds(AdvanceThread(s, t).threads[t])
    ensures Invariant(AdvanceThread(s, t), k', h')
  {
    var s' := AdvanceThread(s, t);
    assert s'.producer == s.producer && s'.ran == s.ran && s'.sent == s.sent + 1;
    assert k'.unsent + 1 == k.unsent;
    assert h' == h;
  }

  lemma RunningStep(s: Sys, t: nat, k: Tally, k': Tally, h: multiset<Task>, h': multiset<Task>)
    requires t < |s.threads| && s.threads[t].Running?
    requires Invariant(s, k, h) && Plus(k', Of(s.threads[t])) == Plus(k, Of(AdvanceThread(s, t).threads[t]))
    requires Holds(s.threads[t]) <= h && h' == h - Holds(s.threads[t]) + Holds(AdvanceThread(s, t).threads[t])
    ensures Invariant(AdvanceThread(s, t), k', h')
  {
    assert multiset(AdvanceThread(s, t).ran) == multiset(s.ran) + multiset{s.threads[t].task};
  }

  /** Every atomic step of every thread keeps the invariant, stated over any tally. */
  lemma ThreadStep(s: Sys, t: nat, k: Tally, k': Tally, h: multiset<Task>, h': multiset<Task>)
    requires t < |s.threads|
    requires Invariant(s, k, h) && Plus(k', Of(s.threads[t])) == Plus(k, Of(AdvanceThread(s, t).threads[t]))
    requires Holds(s.threads[t]) <= h && h' == h - Holds(s.threads[t]) + Holds(AdvanceThread(s, t).threads[t])
    ensures Invariant(AdvanceThread(s, t), k', h')
  {
    match s.threads[t]
    case Entering => EnterStep(s, t, k, k', h, h');
    case Claiming => ClaimStep(s, t, k, k', h, h');
    case Polling => PollStep(s, t, k, k', h, h');
    case Produced(None) => NullStep(s, t, k, k', h, h');
    case Produced(Some(_)) => ProducedStep(s, t, k, k', h, h');
    case Notifying => NotifyStep(s, t, k, k', h, h');
    case Announcing(_) => AnnounceStep(s, t, k, k', h, h');
    case Releasing(_, _) => ReleaseStep(s, t, k, k', h, h');
    case Submitting(_) => SubmitStep(s, t, k, k', h, h');
    case Running(_) => RunningStep(s, t, k, k', h, h');
    case Done =>
  }

  lemma AdvanceFrame(s: Sys, t: nat)
    requires t < |s.threads|
    ensures AdvanceThread(s, t).threads == s.threads[t := AdvanceThread(s, t).threads[t]]
  {
  }

  lemma AdvanceKeepsInv(s: Sys, t: nat)
    requires Inv(s) && t < |s.threads|
    ensures Inv(AdvanceThread(s, t))
  {
    var s' := AdvanceThread(s, t);
    AdvanceFrame(s, t);
    SumUpdate(s.threads, t, s'.threads[t]);
    HeldUpdate(s.threads, t, s'.threads[t]);
    ThreadStep(s, t, Sum(s.threads), Sum(s'.threads), Held(s.threads), Held(s'.threads));
  }

  lemma JoinStep(s: Sys, s': Sys, k: Tally, k': Tally, h: multiset<Task>)
    requires Invariant(s, k, h) && k' == Plus(k, Of(Entering))
    requires s' == s.(threads := s'.threads, queued := s'.queued, owed := s'.owed)
    ensures Invariant(s', k', h)
  {
  }

  /** A thread entering run(), from outside or started by the executor, keeps the invariant. */
  lemma JoinKeepsInv(s: Sys, s': Sys)
    requires Inv(s)
    requires s' == s.(threads := s.threads + [Entering], queued := s'.queued, owed := s'.owed)
    ensures Inv(s')
  {
    SumAppend(s.threads, Entering);
    HeldAppend(s.threads, Entering);
    JoinStep(s, s', Sum(s.threads), Sum(s'.threads), Held(s.threads));
  }

  lemma StepKeepsInv(s: Sys, e: Event)
    requires Inv(s)
    ensures Inv(Step(s, e))
  {
    match e
    case Call => JoinKeepsInv(s, Step(s, e));
    case Start =>
      if s.queued > 0 {
        JoinKeepsInv(s, Step(s, e));
      }
    case Advance(t) =>
      if t < |s.threads| {
        AdvanceKeepsInv(s, t);
      }
  }

  lemma {:induction false} RunKeepsInv(s: Sys, es: seq<Event>)
    requires Inv(s)
    ensures Inv(Run(s, es))
  {
    if es != [] {
      RunKeepsInv(s, es[..|es| - 1]);
      StepKeepsInv(Run(s, es[..|es| - 1]), es[|es| - 1]);
    }
  }

  lemma SumTwo(ts: seq<Pc>, i: nat, j: nat)
    requires i < j < |ts|
    ensures Sum(ts).production >= Of(ts[i]).production + Of(ts[j]).production
  {
    SumUpdate(ts, i, Done);
    SumUpdate(ts[i := Done], j, Done);
  }

  /**
   * Under every interleaving, only the thread that won the compare-and-set
   * of _producing calls produce(): no two threads are ever between winning
   * _producing and releasing it at once, and while one is, _producing is set.
   */
  lemma SingleProducer(script: seq<Option<Task>>, es: seq<Event>, i: nat, j: nat)
    requires var s := Run(Init(script), es); i < j < |s.threads|
    ensures var s := Run(Init(script), es);
      && !(InProduction(s.threads[i]) && InProduction(s.threads[j]))
      && (InProduction(s.threads[i]) ==> s.producing)
  {
    InitInv(script);
    RunKeepsInv(Init(script), es);
    SumTwo(Run(Init(script), es).threads, i, j);
  }

  /**
   * Under every interleaving, run() hands at most one successor to the
   * executor per produced task, every produced task has run or is held by
   * exactly one thread, and onAllScheduled() has been called at most once
   * per null answer.
   */
  lemma SuccessorPerTask(script: seq<Option<Task>>, es: seq<Event>)
    ensures var s := Run(Init(script), es);
      && s.sent <= |Yielded(s.producer.polled)|
      && multiset(s.ran) <= Yielded(s.producer.polled)
      && s.producer.completions <= Nulls(s.producer.polled)
  {
    InitInv(script);
    RunKeepsInv(Init(script), es);
  }

  /** No thread is inside the strategy and the executor holds no copy of it. */
  predicate Quiescent(s: Sys)
  {
    s.queued == 0 && forall i :: 0 <= i < |s.threads| ==> s.threads[i] == Done
  }

  lemma {:induction false} SumAtRest(ts: seq<Pc>)
    requires forall i :: 0 <= i < |ts| ==> !InProduction(ts[i]) && !Unsent(ts[i]) && !ts[i].Produced? && !ts[i].Notifying?
    ensures Sum(ts) == Tally(0, 0, 0)
  {
    if ts != [] {
      SumAtRest(ts[..|ts| - 1]);
    }
  }

  lemma {:induction false} HeldAtRest(ts: seq<Pc>)
    requires forall i :: 0 <= i < |ts| ==> ts[i] == Done
    ensures Held(ts) == multiset{}
  {
    if ts != [] {
      HeldAtRest(ts[..|ts| - 1]);
    }
  }

  /**
   * Once every thread has left, _producing is clear, every produced task
   * has run, and onAllScheduled() has been called exactly once per null
   * answer.
   */
  lemma QuiescentIsSettled(script: seq<Option<Task>>, es: seq<Event>)
    requires Quiescent(Run(Init(script), es))
    ensures var s := Run(Init(script), es);
      && !s.producing
      && multiset(s.ran) == Yielded(s.producer.polled)
      && s.producer.completions == Nulls(s.producer.polled)
  {
    InitInv(script);
    RunKeepsInv(Init(script), es);
    var s := Run(Init(script), es);
    forall i | 0 <= i < |s.threads|
      ensures !InProduction(s.threads[i]) && !Unsent(s.threads[i]) && !s.threads[i].Produced? && !s.threads[i].Notifying?
    {
    }
    SumAtRest(s.threads);
    HeldAtRest(s.threads);
    SettledTally(s, Sum(s.threads), Held(s.threads));
  }

  lemma SettledTally(s: Sys, k: Tally, h: multiset<Task>)
    requires Invariant(s, k, h) && k == Tally(0, 0, 0) && h == multiset{}
    ensures !s.producing
    ensures multiset(s.ran) == Yielded(s.producer.polled)
    ensures s.producer.completions == Nulls(s.producer.polled)
  {
  }

  /** A run passes through the states `ss` when each is one step from the one before. */
  lemma {:induction false} Trace(s0: Sys, es: seq<Event>, ss: seq<Sys>)
    requires |ss| == |es| + 1 && ss[0] == s0
    requires forall i :: 0 <= i < |es| ==> ss[i + 1] == Step(ss[i], es[i])
    ensures Run(s0, es) == ss[|es|]
  {
    if es != [] {
      var n := |es| - 1;
      Trace(s0, es[..n], ss[..n + 1]);
    }
  }

  /**
   * A run() that arrives while another thread produces loses its
   * compare-and-set and leaves; if produce() had already answered null, the
   * producer signals onAllScheduled() and leaves too. The strategy then
   * comes to rest with the arrival unanswered although the producer has a
   * task to give.
   */
  lemma CallLostWhileProducing()
    ensures var s := Run(Init([None, Some(1)]),
                         [Call, Advance(0), Advance(0), Advance(0),
                          Call, Advance(1), Advance(1), Advance(0), Advance(0)]);
      && Quiescent(s)
      && s.owed
      && NextAnswer(s.producer) == Some(1)
      && s.producer.completions == 1
  {
    var es := [Call, Advance(0), Advance(0), Advance(0),
               Call, Advance(1), Advance(1), Advance(0), Advance(0)];
    var s0 := Init([None, Some(1)]);
    var s1 := Step(s0, es[0]);
    var s2 := Step(s1, es[1]);
    var s3 := Step(s2, es[2]);
    var s4 := Step(s3, es[3]);
    assert s4.threads == [Produced(None)] && s4.producing;
    var s5 := Step(s4, es[4]);
    var s6 := Step(s5, es[5]);
    var s7 := Step(s6, es[6]);
    assert s7.threads == [Produced(None), Done] && s7.owed;
    var s8 := Step(s7, es[7]);
    var s9 := Step(s8, es[8]);
    assert s9.threads == [Done, Done];
    Trace(s0, es, [s0, s1, s2, s3, s4, s5, s6, s7, s8, s9]);
  }
}

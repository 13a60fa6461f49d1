/**
 * The benchmark's EatWhatYouKillSM under every interleaving of its threads,
 * with the null-answer transition as written and fused.
 *
 * Every successful compare-and-set of _state (or the read that sends the
 * thread away), the separate write of PENDING, every produce() and
 * onAllScheduled() call, every hand-off to the executor and every inline
 * task run is one atomic step of one thread. The executor holds `queued`
 * copies of the strategy, each of whose run() arrives afresh.
 */
module BenchEwykSmInterleavings {
  import opened Collaborators
  import opened BenchEwykSm

  /** Where a thread stands in run(). */
  datatype Pc =
    | Arriving                          // about to read _state on arrival
    | Polling                           // holds production, about to call produce()
    | Produced(answer: Option<Task>)    // produce() returned, _state not yet updated
    | MarkingPending                    // moved REPRODUCING to IDLE, about to write PENDING
    | Notifying                         // about to call onAllScheduled()
    | Submitting(task: Task)            // moved PRODUCING to PENDING, about to hand a successor to the executor
    | Running(task: Task)               // about to run `task` inline
    | Ran                               // ran its task, about to read _state again
    | Done
    | Failed                            // threw IllegalStateException

  datatype Event =
    | Call                 // an outside thread calls run()
    | Start                // the executor starts one queued copy of the strategy
    | Advance(thread: nat) // a thread takes its next atomic step

  /**
   * `sent` counts the successors run() has handed to the executor; `owed`
   * records that an outside thread called run() since the last produce() call.
   */
  datatype Sys = Sys(
    state: State,
    threads: seq<Pc>,
    queued: nat,
    producer: Producer,
    ran: seq<Task>,
    sent: nat,
    owed: bool)

  function Init(script: seq<Option<Task>>): Sys
  {
    Sys(Idle, [], 0, FreshProducer(script), [], 0, false)
  }

  function AdvanceThread(v: Variant, s: Sys, t: nat): Sys
    requires t < |s.threads|
  {
    var ts := s.threads;
    match ts[t]
    case Arriving =>
      var m := Arrive(s.state);
      s.(state := m.state, threads := ts[t := if m.next == Poll then Polling else Done])
    case Polling =>
      var answer := Produce(s.producer);
      s.(producer := answer.1, threads := ts[t := Produced(answer.0)], owed := false)
    case Produced(None) =>
      var m := AfterNull(s.state, v);
      s.(state := m.state,
         threads := ts[t := if m.next == Notify then Notifying else if m.next == MarkPending then MarkingPending else Failed])
    case Produced(Some(task)) =>
      var m := AfterTask(s.state);
      s.(state := m.state,
         threads := ts[t := if m.next == Submit then Submitting(task) else if m.next == Consume then Running(task) else Failed])
    case MarkingPending =>
      s.(state := Pending, threads := ts[t := Notifying])
    case Notifying =>
      s.(producer := OnAllScheduled(s.producer), threads := ts[t := Done])
    case Submitting(task) =>
      s.(queued := s.queued + 1, sent := s.sent + 1, threads := ts[t := Running(task)])
    case Running(task) =>
      s.(ran := s.ran + [task], threads := ts[t := Ran])
    case Ran =>
      var m := AfterRun(s.state);
      s.(state := m.state, threads := ts[t := if m.next == Poll then Polling else Done])
    case Done => s
    case Failed => s
  }

  function Step(v: Variant, s: Sys, e: Event): Sys
  {
    match e
    case Call => s.(threads := s.threads + [Arriving], owed := true)
    case Start =>
      if s.queued > 0 then s.(queued := s.queued - 1, threads := s.threads + [Arriving]) else s
    case Advance(t) => if t < |s.threads| then AdvanceThread(v, s, t) else s
  }

  /**
   * The step table of run(), one atomic step of thread t at a time. Only
   * that thread's counter moves, and each effect happens at one program
   * point only (line numbers of benchmark/ExecutionStrategy.java):
   *  - arrival (160-179): from IDLE or PENDING the thread goes on to
   *    produce, from any other state it leaves;
   *  - produce() is called only by a thread that won production (184);
   *  - after a null answer (188-205): IDLE and PENDING throw; as written,
   *    REPRODUCING moves to IDLE and PENDING is written by a step of its own
   *    (198-200); onAllScheduled() follows in a step of its own (206);
   *  - after a task (210-227): IDLE and PENDING throw; from PRODUCING the
   *    strategy is handed to the executor (218) before the task runs (229),
   *    from REPRODUCING the task runs with no hand-off;
   *  - after the run (231-244): only from PENDING does the same thread
   *    produce again; otherwise it leaves.
   */
  lemma AdvanceThreadEffects(v: Variant, s: Sys, t: nat)
    requires t < |s.threads|
    ensures var r := AdvanceThread(v, s, t); var pc := s.threads[t];
      && |r.threads| == |s.threads| && r.threads == s.threads[t := r.threads[t]]
      && (r.state != s.state ==> pc == Arriving || pc.Produced? || pc == MarkingPending || pc == Ran)
      && (pc == Arriving ==> (r.threads[t] == Polling <==> s.state == Idle || s.state == Pending) && (r.threads[t] == Polling || r.threads[t] == Done))
      && (r.producer.polled != s.producer.polled ==> pc == Polling)
      && (r.producer.completions != s.producer.completions ==> pc == Notifying && r.threads[t] == Done)
      && (pc == Produced(None) ==> (r.threads[t] == Failed <==> s.state == Idle || s.state == Pending))
      && (pc == Produced(None) ==> (r.threads[t] == MarkingPending <==> v == AsWritten && s.state == Reproducing))
      && (pc == MarkingPending ==> r.state == Pending && r.threads[t] == Notifying)
      && (pc.Produced? && pc.answer.Some? ==> (r.threads[t] == Submitting(pc.answer.value) <==> s.state == Producing))
      && (pc.Produced? && pc.answer.Some? ==> (r.threads[t] == Running(pc.answer.value) <==> s.state == Reproducing))
      && (pc.Produced? && pc.answer.Some? ==> (r.threads[t] == Failed <==> s.state == Idle || s.state == Pending))
      && (r.queued != s.queued ==> r.queued == s.queued + 1 && pc.Submitting? && r.threads[t] == Running(pc.task))
      && (r.ran != s.ran ==> pc.Running? && r.ran == s.ran + [pc.task] && r.threads[t] == Ran)
      && (pc == Ran ==> (r.threads[t] == Polling <==> s.state == Pending) && (r.threads[t] == Polling || r.threads[t] == Done))
      && (pc == Done || pc == Failed ==> r == s)
  {
  }

  /**
   * What one event does to the threads, the executor and `owed`: only an
   * outside call makes a call owed; every new thread arrives at the top of
   * run(), and a queued copy of the strategy leaves the executor only as
   * such a thread.
   */
  lemma StepEffects(v: Variant, s: Sys, e: Event)
    ensures var r := Step(v, s, e);
      && (!e.Advance? ==> |s.threads| <= |r.threads| <= |s.threads| + 1 && r.threads[..|s.threads|] == s.threads)
      && (e.Advance? ==> |r.threads| == |s.threads|)
      && (|r.threads| > |s.threads| ==> r.threads[|s.threads|] == Arriving)
      && (r.queued < s.queued ==> e == Start && r.queued == s.queued - 1 && |r.threads| == |s.threads| + 1)
      && (e.Call? ==> r.owed && |r.threads| == |s.threads| + 1)
      && (r.owed && !s.owed ==> e.Call?)
  {
    if e.Advance? && e.thread < |s.threads| {
      AdvanceThreadEffects(v, s, e.thread);
    }
  }

  /** The state after the events `es`, in order. */
  function Run(v: Variant, s: Sys, es: seq<Event>): Sys
  {
    if es == [] then s else Step(v, Run(v, s, es[..|es| - 1]), es[|es| - 1])
  }

  /** Between winning production and giving it up by a compare-and-set. */
  predicate InProduction(pc: Pc)
  {
    pc.Polling? || pc.Produced?
  }

  /** The _state values in which some thread is meant to be producing. */
  predicate Busy(st: State)
  {
    st == Producing || st == Reproducing
  }

  /** Holds a produced task and may still hand a successor to the executor for it. */
  predicate Unsent(pc: Pc)
  {
    (pc.Produced? && pc.answer.Some?) || pc.Submitting?
  }

  /** Has had a null answer and not yet called onAllScheduled() for it. */
  predicate Unsignalled(pc: Pc)
  {
    (pc.Produced? && pc.answer.None?) || pc.MarkingPending? || pc.Notifying?
  }

  /**
   * The number of threads in production, holding an unsent task, owing an
   * onAllScheduled() call, about to write PENDING, and failed.
   */
  datatype Tally = Tally(production: nat, unsent: nat, unsignalled: nat, marking: nat, failed: nat)

  function Of(pc: Pc): Tally
  {
    Tally(if InProduction(pc) then 1 else 0,
          if Unsent(pc) then 1 else 0,
          if Unsignalled(pc) then 1 else 0,
          if pc.MarkingPending? then 1 else 0,
          if pc.Failed? then 1 else 0)
  }

  function Plus(a: Tally, b: Tally): Tally
  {
    Tally(a.production + b.production, a.unsent + b.unsent, a.unsignalled + b.unsignalled,
          a.marking + b.marking, a.failed + b.failed)
  }

  function Sum(ts: seq<Pc>): Tally
  {
    if ts == [] then Tally(0, 0, 0, 0, 0) else Plus(Sum(ts[..|ts| - 1]), Of(ts[|ts| - 1]))
  }

  lemma SumAppend(ts: seq<Pc>, x: Pc)
    ensures Sum(ts + [x]) == Plus(Sum(ts), Of(x))
  {
    assert (ts + [x])[..|ts|] == ts;
  }

  /** Adding the same tally `e` on both sides keeps a trade `a + c == b + d`. */
  lemma PlusSwap(a: Tally, b: Tally, c: Tally, d: Tally, e: Tally)
    requires Plus(a, c) == Plus(b, d)
    ensures Plus(Plus(a, e), c) == Plus(Plus(b, e), d)
  {
  }

  lemma {:induction false} SumUpdate(ts: seq<Pc>, t: nat, x: Pc)
    requires t < |ts|
    ensures Plus(Sum(ts[t := x]), Of(ts[t])) == Plus(Sum(ts), Of(x))
  {
    var n := |ts| - 1;
    var us := ts[t := x];
    assert Sum(us) == Plus(Sum(us[..n]), Of(us[n]));
    assert Sum(ts) == Plus(Sum(ts[..n]), Of(ts[n]));
    if t == n {
      assert us[..n] == ts[..n];
    } else {
      assert us[..n] == ts[..n][t := x];
      assert us[n] == ts[n];
      SumUpdate(ts[..n], t, x);
      PlusSwap(Sum(us[..n]), Sum(ts[..n]), Of(ts[t]), Of(x), Of(ts[n]));
    }
  }

  /** The task a thread holds between producing it and running it. */
  function Holds(pc: Pc): multiset<Task>
  {
    match pc
    case Produced(Some(task)) => multiset{task}
    case Submitting(task) => multiset{task}
    case Running(task) => multiset{task}
    case _ => multiset{}
  }

  function Held(ts: seq<Pc>): multiset<Task>
  {
    if ts == [] then multiset{} else Held(ts[..|ts| - 1]) + Holds(ts[|ts| - 1])
  }

  lemma HeldAppend(ts: seq<Pc>, x: Pc)
    ensures Held(ts + [x]) == Held(ts) + Holds(x)
  {
    assert (ts + [x])[..|ts|] == ts;
  }

  lemma {:induction false} HeldUpdate(ts: seq<Pc>, t: nat, x: Pc)
    requires t < |ts|
    ensures Holds(ts[t]) <= Held(ts)
    ensures Held(ts[t := x]) == Held(ts) - Holds(ts[t]) + Holds(x)
  {
    var n := |ts| - 1;
    var us := ts[t := x];
    if t == n {
      assert us[..n] == ts[..n];
    } else {
      assert us[..n] == ts[..n][t := x];
      HeldUpdate(ts[..n], t, x);
    }
  }

  /**
   * The invariant, given the tally `k` of the threads and the tasks `held`
   * they hold. With either variant, successors and tasks are never
   * invented; with the fused transition production is exclusive and
   * nothing is lost.
   */
  ghost predicate Invariant(v: Variant, s: Sys, k: Tally, held: multiset<Task>)
  {
    var p := s.producer;
    // every successor was handed over for a distinct produced task
    && s.sent + k.unsent <= |Yielded(p.polled)|
    && multiset(s.ran) + held <= Yielded(p.polled)
    && p.completions + k.unsignalled <= Nulls(p.polled)
    && (v == Fused ==>
      // exactly one thread produces while _state says so, and none otherwise
      && k.production == (if Busy(s.state) then 1 else 0)
      && k.marking == 0
      && k.failed == 0
      // every task produced so far has run or is held by exactly one thread
      && multiset(s.ran) + held == Yielded(p.polled)
      // every null answer is signalled by exactly one onAllScheduled() call, made or to come
      && p.completions + k.unsignalled == Nulls(p.polled))
  }

  ghost predicate Inv(v: Variant, s: Sys)
  {
    Invariant(v, s, Sum(s.threads), Held(s.threads))
  }

  lemma InitInv(v: Variant, script: seq<Option<Task>>)
    ensures Inv(v, Init(script))
  {
  }

  lemma ArriveStep(v: Variant, s: Sys, t: nat, k: Tally, k': Tally, h: multiset<Task>, h': multiset<Task>)
    requires t < |s.threads| && s.threads[t] == Arriving
    requires Invariant(v, s, k, h) && Plus(k', Of(s.threads[t])) == Plus(k, Of(AdvanceThread(v, s, t).threads[t]))
    requires Holds(s.threads[t]) <= h && h' == h - Holds(s.threads[t]) + Holds(AdvanceThread(v, s, t).threads[t])
    ensures Invariant(v, AdvanceThread(v, s, t), k', h')
  {
  }

  lemma PollStep(v: Variant, s: Sys, t: nat, k: Tally, k': Tally, h: multiset<Task>, h': multiset<Task>)
    requires t < |s.threads| && s.threads[t] == Polling
    requires Invariant(v, s, k, h) && Plus(k', Of(s.threads[t])) == Plus(k, Of(AdvanceThread(v, s, t).threads[t]))
    requires Holds(s.threads[t]) <= h && h' == h - Holds(s.threads[t]) + Holds(AdvanceThread(v, s, t).threads[t])
    ensures Invariant(v, AdvanceThread(v, s, t), k', h')
  {
    YieldedAppend(s.producer.polled, NextAnswer(s.producer));
    NullsAppend(s.producer.polled, NextAnswer(s.producer));
  }

  lemma NullStep(v: Variant, s: Sys, t: nat, k: Tally, k': Tally, h: multiset<Task>, h': multiset<Task>)
    requires t < |s.threads| && s.threads[t] == Produced(None)
    requires Invariant(v, s, k, h) && Plus(k', Of(s.threads[t])) == Plus(k, Of(AdvanceThread(v, s, t).threads[t]))
    requires Holds(s.threads[t]) <= h && h' == h - Holds(s.threads[t]) + Holds(AdvanceThread(v, s, t).threads[t])
    ensures Invariant(v, AdvanceThread(v, s, t), k', h')
  {
  }

  lemma TaskStep(v: Variant, s: Sys, t: nat, k: Tally, k': Tally, h: multiset<Task>, h': multiset<Task>)
    requires t < |s.threads| && s.threads[t].Produced? && s.threads[t].answer.Some?
    requires Invariant(v, s, k, h) && Plus(k', Of(s.threads[t])) == Plus(k, Of(AdvanceThread(v, s, t).threads[t]))
    requires Holds(s.threads[t]) <= h && h' == h - Holds(s.threads[t]) + Holds(AdvanceThread(v, s, t).threads[t])
    ensures Invariant(v, AdvanceThread(v, s, t), k', h')
  {
    match s.state
    case Producing => SubmitTaskStep(v, s, t, k, k', h, h');
    case Reproducing => ConsumeTaskStep(v, s, t, k, k', h, h');
    case Idle => FailTaskStep(v, s, t, k, k', h, h');
    case Pending => FailTaskStep(v, s, t, k, k', h, h');
  }

  lemma SubmitTaskStep(v: Variant, s: Sys, t: nat, k: Tally, k': Tally, h: multiset<Task>, h': multiset<Task>)
    requires t < |s.threads| && s.threads[t].Produced? && s.threads[t].answer.Some? && s.state == Producing
    requires Invariant(v, s, k, h) && Plus(k', Of(s.threads[t])) == Plus(k, Of(AdvanceThread(v, s, t).threads[t]))
    requires Holds(s.threads[t]) <= h && h' == h - Holds(s.threads[t]) + Holds(AdvanceThread(v, s, t).threads[t])
    ensures Invariant(v, AdvanceThread(v, s, t), k', h')
  {
    var s' := AdvanceThread(v, s, t);
    assert s'.threads[t] == Submitting(s.threads[t].answer.value) && s'.state == Pending;
    assert h' == h;
  }

  lemma ConsumeTaskStep(v: Variant, s: Sys, t: nat, k: Tally, k': Tally, h: multiset<Task>, h': multiset<Task>)
    requires t < |s.threads| && s.threads[t].Produced? && s.threads[t].answer.Some? && s.state == Reproducing
    requires Invariant(v, s, k, h) && Plus(k', Of(s.threads[t])) == Plus(k, Of(AdvanceThread(v, s, t).threads[t]))
    requires Holds(s.threads[t]) <= h && h' == h - Holds(s.threads[t]) + Holds(AdvanceThread(v, s, t).threads[t])
    ensures Invariant(v, AdvanceThread(v, s, t), k', h')
  {
    var s' := AdvanceThread(v, s, t);
    assert s'.threads[t] == Running(s.threads[t].answer.value) && s'.state == Pending;
    assert h' == h;
  }

  lemma FailTaskStep(v: Variant, s: Sys, t: nat, k: Tally, k': Tally, h: multiset<Task>, h': multiset<Task>)
    requires t < |s.threads| && s.threads[t].Produced? && s.threads[t].answer.Some? && !Busy(s.state)
    requires Invariant(v, s, k, h) && Plus(k', Of(s.threads[t])) == Plus(k, Of(AdvanceThread(v, s, t).threads[t]))
    requires Holds(s.threads[t]) <= h && h' == h - Holds(s.threads[t]) + Holds(AdvanceThread(v, s, t).threads[t])
    ensures Invariant(v, AdvanceThread(v, s, t), k', h')
  {
    if v == Fused {
      assert false;
    }
  }

  lemma MarkStep(v: Variant, s: Sys, t: nat, k: Tally, k': Tally, h: multiset<Task>, h': multiset<Task>)
    requires t < |s.threads| && s.threads[t] == MarkingPending
    requires Invariant(v, s, k, h) && Plus(k', Of(s.threads[t])) == Plus(k, Of(AdvanceThread(v, s, t).threads[t]))
    requires Holds(s.threads[t]) <= h && h' == h - Holds(s.threads[t]) + Holds(AdvanceThread(v, s, t).threads[t])
    ensures Invariant(v, AdvanceThread(v, s, t), k', h')
  {
  }

  lemma NotifyStep(v: Variant, s: Sys, t: nat, k: Tally, k': Tally, h: multiset<Task>, h': multiset<Task>)
    requires t < |s.threads| && s.threads[t] == Notifying
    requires Invariant(v, s, k, h) && Plus(k', Of(s.threads[t])) == Plus(k, Of(AdvanceThread(v, s, t).threads[t]))
    requires Holds(s.threads[t]) <= h && h' == h - Holds(s.threads[t]) + Holds(AdvanceThread(v, s, t).threads[t])
    ensures Invariant(v, AdvanceThread(v, s, t), k', h')
  {
  }

  lemma SubmitStep(v: Variant, s: Sys, t: nat, k: Tally, k': Tally, h: multiset<Task>, h': multiset<Task>)
    requires t < |s.threads| && s.threads[t].Submitting?
    requires Invariant(v, s, k, h) && Plus(k', Of(s.threads[t])) == Plus(k, Of(AdvanceThread(v, s, t).threads[t]))
    requires Holds(s.threads[t]) <= h && h' == h - Holds(s.threads[t]) + Holds(AdvanceThread(v, s, t).threads[t])
    ensures Invariant(v, AdvanceThread(v, s, t), k', h')
  {
    var s' := AdvanceThread(v, s, t);
    assert s'.producer == s.producer && s'.ran == s.ran && s'.sent == s.sent + 1 && s'.state == s.state;
    assert k'.unsent + 1 == k.unsent;
    assert h' == h;
  }

  lemma RunningStep(v: Variant, s: Sys, t: nat, k: Tally, k': Tally, h: multiset<Task>, h': multiset<Task>)
    requires t < |s.threads| && s.threads[t].Running?
    requires Invariant(v, s, k, h) && Plus(k', Of(s.threads[t])) == Plus(k, Of(AdvanceThread(v, s, t).threads[t]))
    requires Holds(s.threads[t]) <= h && h' == h - Holds(s.threads[t]) + Holds(AdvanceThread(v, s, t).threads[t])
    ensures Invariant(v, AdvanceThread(v, s, t), k', h')
  {
    assert multiset(AdvanceThread(v, s, t).ran) == multiset(s.ran) + multiset{s.threads[t].task};
  }

  lemma RanStep(v: Variant, s: Sys, t: nat, k: Tally, k': Tally, h: multiset<Task>, h': multiset<Task>)
    requires t < |s.threads| && s.threads[t] == Ran
    requires Invariant(v, s, k, h) && Plus(k', Of(s.threads[t])) == Plus(k, Of(AdvanceThread(v, s, t).threads[t]))
    requires Holds(s.threads[t]) <= h && h' == h - Holds(s.threads[t]) + Holds(AdvanceThread(v, s, t).threads[t])
    ensures Invariant(v, AdvanceThread(v, s, t), k', h')
  {
  }

  /** Every atomic step of every thread keeps the invariant, stated over any tally. */
  lemma ThreadStep(v: Variant, s: Sys, t: nat, k: Tally, k': Tally, h: multiset<Task>, h': multiset<Task>)
    requires t < |s.threads|
    requires Invariant(v, s, k, h) && Plus(k', Of(s.threads[t])) == Plus(k, Of(AdvanceThread(v, s, t).threads[t]))
    requires Holds(s.threads[t]) <= h && h' == h - Holds(s.threads[t]) + Holds(AdvanceThread(v, s, t).threads[t])
    ensures Invariant(v, AdvanceThread(v, s, t), k', h')
  {
    match s.threads[t]
    case Arriving => ArriveStep(v, s, t, k, k', h, h');
    case Polling => PollStep(v, s, t, k, k', h, h');
    case Produced(None) => NullStep(v, s, t, k, k', h, h');
    case Produced(Some(_)) => TaskStep(v, s, t, k, k', h, h');
    case MarkingPending => MarkStep(v, s, t, k, k', h, h');
    case Notifying => NotifyStep(v, s, t, k, k', h, h');
    case Submitting(_) => SubmitStep(v, s, t, k, k', h, h');
    case Running(_) => RunningStep(v, s, t, k, k', h, h');
    case Ran => RanStep(v, s, t, k, k', h, h');
    case Done =>
    case Failed =>
  }

  lemma AdvanceFrame(v: Variant, s: Sys, t: nat)
    requires t < |s.threads|
    ensures AdvanceThread(v, s, t).threads == s.threads[t := AdvanceThread(v, s, t).threads[t]]
  {
  }

  lemma AdvanceKeepsInv(v: Variant, s: Sys, t: nat)
    requires Inv(v, s) && t < |s.threads|
    ensures Inv(v, AdvanceThread(v, s, t))
  {
    var s' := AdvanceThread(v, s, t);
    AdvanceFrame(v, s, t);
    SumUpdate(s.threads, t, s'.threads[t]);
    HeldUpdate(s.threads, t, s'.threads[t]);
    ThreadStep(v, s, t, Sum(s.threads), Sum(s'.threads), Held(s.threads), Held(s'.threads));
  }

  lemma JoinStep(v: Variant, s: Sys, s': Sys, k: Tally, k': Tally, h: multiset<Task>)
    requires Invariant(v, s, k, h) && k' == Plus(k, Of(Arriving))
    requires s' == s.(threads := s'.threads, queued := s'.queued, owed := s'.owed)
    ensures Invariant(v, s', k', h)
  {
  }

  /** A thread arriving at run(), from outside or started by the executor, keeps the invariant. */
  lemma JoinKeepsInv(v: Variant, s: Sys, s': Sys)
    requires Inv(v, s)
    requires s' == s.(threads := s.threads + [Arriving], queued := s'.queued, owed := s'.owed)
    ensures Inv(v, s')
  {
    SumAppend(s.threads, Arriving);
    HeldAppend(s.threads, Arriving);
    JoinStep(v, s, s', Sum(s.threads), Sum(s'.threads), Held(s.threads));
  }

  lemma StepKeepsInv(v: Variant, s: Sys, e: Event)
    requires Inv(v, s)
    ensures Inv(v, Step(v, s, e))
  {
    match e
    case Call => JoinKeepsInv(v, s, Step(v, s, e));
    case Start =>
      if s.queued > 0 {
        JoinKeepsInv(v, s, Step(v, s, e));
      }
    case Advance(t) =>
      if t < |s.threads| {
        AdvanceKeepsInv(v, s, t);
      }
  }

  lemma {:induction false} RunKeepsInv(v: Variant, s: Sys, es: seq<Event>)
    requires Inv(v, s)
    ensures Inv(v, Run(v, s, es))
  {
    if es != [] {
      RunKeepsInv(v, s, es[..|es| - 1]);
      StepKeepsInv(v, Run(v, s, es[..|es| - 1]), es[|es| - 1]);
    }
  }

  lemma SumTwo(ts: seq<Pc>, i: nat, j: nat)
    requires i < j < |ts|
    ensures Sum(ts).production >= Of(ts[i]).production + Of(ts[j]).production
  {
    SumUpdate(ts, i, Done);
    SumUpdate(ts[i := Done], j, Done);
  }

  lemma SumOne(ts: seq<Pc>, i: nat)
    requires i < |ts|
    ensures Sum(ts).marking >= Of(ts[i]).marking && Sum(ts).failed >= Of(ts[i]).failed
  {
    SumUpdate(ts, i, Done);
  }

  /**
   * With the fused transition, under every interleaving only one thread at
   * a time calls produce() or acts on its answer, and one does exactly
   * while _state is PRODUCING or REPRODUCING.
   */
  lemma SingleProducer(script: seq<Option<Task>>, es: seq<Event>, i: nat, j: nat)
    requires var s := Run(Fused, Init(script), es); i < j < |s.threads|
    ensures var s := Run(Fused, Init(script), es);
      && !(InProduction(s.threads[i]) && InProduction(s.threads[j]))
      && (InProduction(s.threads[i]) ==> Busy(s.state))
      && (!Busy(s.state) ==> !InProduction(s.threads[i]) && !InProduction(s.threads[j]))
  {
    InitInv(Fused, script);
    RunKeepsInv(Fused, Init(script), es);
    SumTwo(Run(Fused, Init(script), es).threads, i, j);
  }

  /** With the fused transition no thread ever throws IllegalStateException. */
  lemma NeverFails(script: seq<Option<Task>>, es: seq<Event>, i: nat)
    requires i < |Run(Fused, Init(script), es).threads|
    ensures !Run(Fused, Init(script), es).threads[i].Failed?
  {
    InitInv(Fused, script);
    RunKeepsInv(Fused, Init(script), es);
    SumOne(Run(Fused, Init(script), es).threads, i);
  }

  /**
   * With either variant, run() hands at most one successor to the executor
   * per produced task, runs only produced tasks, each as often as it was
   * produced, and calls onAllScheduled() at most once per null answer.
   */
  lemma SuccessorPerTask(v: Variant, script: seq<Option<Task>>, es: seq<Event>)
    ensures var s := Run(v, Init(script), es);
      && s.sent <= |Yielded(s.producer.polled)|
      && multiset(s.ran) <= Yielded(s.producer.polled)
      && s.producer.completions <= Nulls(s.producer.polled)
  {
    InitInv(v, script);
    RunKeepsInv(v, Init(script), es);
  }

  /** No thread is inside the strategy and the executor holds no copy of it. */
  predicate Quiescent(s: Sys)
  {
    s.queued == 0 && forall i :: 0 <= i < |s.threads| ==> s.threads[i] == Done
  }

  lemma {:induction false} SumAtRest(ts: seq<Pc>)
    requires forall pc :: pc in ts ==> pc == Done
    ensures Sum(ts) == Tally(0, 0, 0, 0, 0)
  {
    if ts == [] {
      return;
    }
    var n := |ts| - 1;
    var last := ts[n];
    assert last in ts;
    assert last == Done;
    var front := ts[..n];
    assert forall pc :: pc in front ==> pc in ts;
    SumAtRest(front);
    assert Sum(ts) == Plus(Sum(front), Of(last));
  }

  lemma {:induction false} HeldAtRest(ts: seq<Pc>)
    requires forall i :: 0 <= i < |ts| ==> ts[i] == Done
    ensures Held(ts) == multiset{}
  {
    if ts != [] {
      HeldAtRest(ts[..|ts| - 1]);
    }
  }

  lemma SettledTally(s: Sys, k: Tally, h: multiset<Task>)
    requires Invariant(Fused, s, k, h) && k == Tally(0, 0, 0, 0, 0) && h == multiset{}
    ensures !Busy(s.state)
    ensures multiset(s.ran) == Yielded(s.producer.polled)
    ensures s.producer.completions == Nulls(s.producer.polled)
  {
  }

  /**
   * With the fused transition, once every thread has left, _state is IDLE
   * or PENDING, every produced task has run, and onAllScheduled() has been
   * called exactly once per null answer.
   */
  lemma QuiescentIsSettled(script: seq<Option<Task>>, es: seq<Event>)
    requires Quiescent(Run(Fused, Init(script), es))
    ensures var s := Run(Fused, Init(script), es);
      && (s.state == Idle || s.state == Pending)
      && multiset(s.ran) == Yielded(s.producer.polled)
      && s.producer.completions == Nulls(s.producer.polled)
  {
    InitInv(Fused, script);
    RunKeepsInv(Fused, Init(script), es);
    AtRestIsSettled(Run(Fused, Init(script), es));
  }

  lemma AtRestIsSettled(s: Sys)
    requires Inv(Fused, s) && Quiescent(s)
    ensures !Busy(s.state)
    ensures multiset(s.ran) == Yielded(s.producer.polled)
    ensures s.producer.completions == Nulls(s.producer.polled)
  {
    SumAtRest(s.threads);
    HeldAtRest(s.threads);
    SettledTally(s, Sum(s.threads), Held(s.threads));
  }

  /** A run passes through the states `ss` when each is one step from the one before. */
  lemma {:induction false} Trace(v: Variant, s0: Sys, es: seq<Event>, ss: seq<Sys>)
    requires |ss| == |es| + 1 && ss[0] == s0
    requires forall i :: 0 <= i < |es| ==> ss[i + 1] == Step(v, ss[i], es[i])
    ensures Run(v, s0, es) == ss[|es|]
  {
    if es != [] {
      var n := |es| - 1;
      Trace(v, s0, es[..n], ss[..n + 1]);
    }
  }

  /** Running `a` and then `b` is running `a + b`. */
  lemma {:induction false} RunAppend(v: Variant, s: Sys, a: seq<Event>, b: seq<Event>)
    ensures Run(v, s, a + b) == Run(v, Run(v, s, a), b)
  {
    if b != [] {
      var n := |b| - 1;
      assert (a + b)[..|a + b| - 1] == a + b[..n];
      RunAppend(v, s, a, b[..n]);
    } else {
      assert a + b == a;
    }
  }

  /** The producer's answers in the as-written counterexample. */
  const OverlapScript: seq<Option<Task>> := [Some(1), None, Some(2), Some(3)]

  /**
   * Thread 0 produces task 1 (PRODUCING to PENDING, one successor queued),
   * runs it, produces again (PENDING to REPRODUCING) and gets null, moving
   * REPRODUCING to IDLE.
   */
  const OverlapPrefix: seq<Event> :=
    [Call, Advance(0), Advance(0), Advance(0), Advance(0), Advance(0), Advance(0), Advance(0), Advance(0)]

  /**
   * Before thread 0 writes PENDING an outside call wins production in
   * IDLE; the PENDING write then lets the queued successor win it again.
   */
  const OverlapSuffix: seq<Event> := [Call, Advance(1), Advance(0), Start, Advance(2)]

  const OverlapEvents: seq<Event> := OverlapPrefix + OverlapSuffix

  lemma OverlapPrefixTrace()
    ensures Run(AsWritten, Init(OverlapScript), OverlapPrefix)
         == Sys(Idle, [MarkingPending], 1, Producer(OverlapScript, [Some(1), None], 0), [1], 1, false)
  {
    var v := AsWritten;
    var es := OverlapPrefix;
    var s0 := Init(OverlapScript);
    var s1 := Step(v, s0, es[0]);
    var s2 := Step(v, s1, es[1]);
    var s3 := Step(v, s2, es[2]);
    var s4 := Step(v, s3, es[3]);
    assert s4.threads == [Submitting(1)] && s4.state == Pending;
    var s5 := Step(v, s4, es[4]);
    var s6 := Step(v, s5, es[5]);
    assert s6.threads == [Ran] && s6.ran == [1] && s6.queued == 1;
    var s7 := Step(v, s6, es[6]);
    var s8 := Step(v, s7, es[7]);
    assert s8.threads == [Produced(None)] && s8.state == Reproducing;
    var s9 := Step(v, s8, es[8]);
    assert s9.threads == [MarkingPending] && s9.state == Idle;
    Trace(v, s0, es, [s0, s1, s2, s3, s4, s5, s6, s7, s8, s9]);
  }

  lemma OverlapTrace()
    ensures Run(AsWritten, Init(OverlapScript), OverlapEvents)
         == Sys(Producing, [Notifying, Polling, Polling], 0, Producer(OverlapScript, [Some(1), None], 0), [1], 1, true)
  {
    var v := AsWritten;
    var es := OverlapSuffix;
    var s0 := Run(v, Init(OverlapScript), OverlapPrefix);
    OverlapPrefixTrace();
    RunAppend(v, Init(OverlapScript), OverlapPrefix, es);
    var s1 := Step(v, s0, es[0]);
    var s2 := Step(v, s1, es[1]);
    assert s2.threads == [MarkingPending, Polling] && s2.state == Producing;
    var s3 := Step(v, s2, es[2]);
    assert s3.state == Pending;
    var s4 := Step(v, s3, es[3]);
    var s5 := Step(v, s4, es[4]);
    assert s5.threads == [Notifying, Polling, Polling];
    Trace(v, s0, es, [s0, s1, s2, s3, s4, s5]);
  }

  /**
   * As written, the window between moving REPRODUCING to IDLE and writing
   * PENDING lets two threads hold production and call produce() at once.
   */
  lemma TwoProducers()
    ensures var s := Run(AsWritten, Init(OverlapScript), OverlapEvents);
      && |s.threads| == 3
      && InProduction(s.threads[1]) && InProduction(s.threads[2])
      && s.threads[1] == Polling && s.threads[2] == Polling
  {
    OverlapTrace();
  }

  /** The events that continue the run of TwoProducers: each producer polls, then each acts on its task. */
  const ClashEvents: seq<Event> := [Advance(1), Advance(2), Advance(1), Advance(2)]

  lemma ClashTrace()
    ensures Run(AsWritten, Init(OverlapScript), OverlapEvents + ClashEvents)
         == Sys(Pending, [Notifying, Submitting(2), Failed], 0, Producer(OverlapScript, OverlapScript, 0), [1], 1, false)
  {
    var v := AsWritten;
    var es := ClashEvents;
    var s0 := Run(v, Init(OverlapScript), OverlapEvents);
    OverlapTrace();
    RunAppend(v, Init(OverlapScript), OverlapEvents, es);
    var s1 := Step(v, s0, es[0]);
    var s2 := Step(v, s1, es[1]);
    assert s2.threads == [Notifying, Produced(Some(2)), Produced(Some(3))];
    assert s2.producer.polled == [Some(1), None, Some(2), Some(3)];
    var s3 := Step(v, s2, es[2]);
    var s4 := Step(v, s3, es[3]);
    assert s4.threads == [Notifying, Submitting(2), Failed];
    Trace(v, s0, es, [s0, s1, s2, s3, s4]);
  }

  /**
   * Continuing the run of TwoProducers, both producers get a task; the
   * first moves PRODUCING to PENDING, the second then finds PENDING and
   * throws IllegalStateException, and its task is neither run nor held by
   * any thread.
   */
  lemma ProducerFails()
    ensures var s := Run(AsWritten, Init(OverlapScript), OverlapEvents + ClashEvents);
      && |s.threads| == 3
      && s.threads[2] == Failed
      && 3 in Yielded(s.producer.polled)
      && 3 !in s.ran
      && 3 !in Held(s.threads)
  {
    ClashTrace();
    ClashHeld();
    ClashYielded();
  }

  lemma ClashHeld()
    ensures Held([Notifying, Submitting(2), Failed]) == multiset{2}
  {
    HeldAppend([], Notifying);
    assert [] + [Notifying] == [Notifying];
    HeldAppend([Notifying], Submitting(2));
    assert [Notifying] + [Submitting(2)] == [Notifying, Submitting(2)];
    HeldAppend([Notifying, Submitting(2)], Failed);
    assert [Notifying, Submitting(2)] + [Failed] == [Notifying, Submitting(2), Failed];
  }

  lemma ClashYielded()
    ensures 3 in Yielded(OverlapScript)
  {
    YieldedAppend(OverlapScript[..3], Some(3));
    assert OverlapScript[..3] + [Some(3)] == OverlapScript;
  }

  /**
   * With either variant, a run() that arrives while another thread produces
   * finds PRODUCING and leaves; if produce() had already answered null, the
   * producer moves to IDLE, signals onAllScheduled() and leaves too. The
   * strategy then comes to rest with the arrival unanswered although the
   * producer has a task to give.
   */
  lemma CallLostWhileProducing(v: Variant)
    ensures var s := Run(v, Init([None, Some(1)]),
                         [Call, Advance(0), Advance(0), Call, Advance(1), Advance(0), Advance(0)]);
      && Quiescent(s)
      && s.state == Idle
      && s.owed
      && NextAnswer(s.producer) == Some(1)
  {
    var es := [Call, Advance(0), Advance(0), Call, Advance(1), Advance(0), Advance(0)];
    var s0 := Init([None, Some(1)]);
    var s1 := Step(v, s0, es[0]);
    var s2 := Step(v, s1, es[1]);
    var s3 := Step(v, s2, es[2]);
    assert s3.threads == [Produced(None)] && s3.state == Producing;
    var s4 := Step(v, s3, es[3]);
    var s5 := Step(v, s4, es[4]);
    assert s5.threads == [Produced(None), Done] && s5.owed;
    var s6 := Step(v, s5, es[5]);
    var s7 := Step(v, s6, es[6]);
    assert s7.threads == [Done, Done];
    Trace(v, s0, es, [s0, s1, s2, s3, s4, s5, s6, s7]);
  }
}

/**
 * The util EatWhatYouKill under every interleaving of its threads.
 *
 * Every successful or failed compare-and-set of _producing, every volatile
 * read or write of _threadPending, every produce() call, every hand-off to
 * the executor and every inline task run is one atomic step of one thread;
 * the read of _threadPending and the write that follows it are two steps.
 * The executor holds `queued` copies of the strategy itself, each of whose
 * run() is execute().
 */
module UtilEwykInterleavings {
  import opened Collaborators

  /** Where a thread stands in execute() or dispatch(). */
  datatype Pc =
    | Entering                      // about to clear _threadPending
    | Claiming                      // about to compare-and-set _producing
    | Polling                       // won _producing, about to call produce()
    | Produced(answer: Option<Task>)  // produce() returned, _threadPending not yet read
    | Announcing(task: Task)        // read _threadPending false, about to set it
    | Submitting(task: Task)        // about to hand a successor to the executor
    | Releasing(task: Task)         // about to release _producing (the finally block)
    | Running(task: Task)           // about to run `task` inline
    | Dispatching                   // in dispatch(), about to hand the strategy to the executor
    | Done

  datatype Entry = ExecuteCall | DispatchCall

  datatype Event =
    | Call(entry: Entry)   // an outside thread calls execute() or dispatch()
    | Start                // the executor starts one queued copy of the strategy
    | Advance(thread: nat) // a thread takes its next atomic step

  /**
   * `sent` counts the successors execute() has handed to the executor;
   * `owed` records that an execute() or dispatch() call arrived since the
   * last produce() call.
   */
  datatype Sys = Sys(
    producing: bool,
    threadPending: bool,
    threads: seq<Pc>,
    queued: nat,
    producer: Producer,
    ran: seq<Task>,
    sent: nat,
    owed: bool)

  function Init(script: seq<Option<Task>>): Sys
  {
    Sys(false, false, [], 0, FreshProducer(script), [], 0, false)
  }

  function AdvanceThread(s: Sys, t: nat): Sys
    requires t < |s.threads|
  {
    var ts := s.threads;
    match ts[t]
    case Entering =>
      s.(threadPending := false, threads := ts[t := Claiming])
    case Claiming =>
      if s.producing then s.(threads := ts[t := Done])
      else s.(producing := true, threads := ts[t := Polling])
    case Polling =>
      var answer := Produce(s.producer);
      s.(producer := answer.1, threads := ts[t := Produced(answer.0)], owed := false)
    case Produced(None) =>
      // the null break leaves through the finally block
      s.(producing := false, threads := ts[t := Done])
    case Produced(Some(task)) =>
      s.(threads := ts[t := if s.threadPending then Releasing(task) else Announcing(task)])
    case Announcing(task) =>
      s.(threadPending := true, threads := ts[t := Submitting(task)])
    case Submitting(task) =>
      s.(queued := s.queued + 1, sent := s.sent + 1, threads := ts[t := Releasing(task)])
    case Releasing(task) =>
      s.(producing := false, threads := ts[t := Running(task)])
    case Running(task) =>
      s.(ran := s.ran + [task], threads := ts[t := Claiming])
    case Dispatching =>
      s.(queued := s.queued + 1, threads := ts[t := Done])
    case Done => s
  }

  function Step(s: Sys, e: Event): Sys
  {
    match e
    case Call(ExecuteCall) => s.(threads := s.threads + [Entering], owed := true)
    case Call(DispatchCall) => s.(threads := s.threads + [Dispatching], owed := true)
    case Start => if s.queued > 0 then s.(queued := s.queued - 1, threads := s.threads + [Entering]) else s
    case Advance(t) => if t < |s.threads| then AdvanceThread(s, t) else s
  }

  /**
   * The step table of execute(), one atomic step of thread t at a time.
   * Only that thread's counter moves, and each shared effect happens at one
   * program point only (line numbers of EatWhatYouKill.java):
   *  - _threadPending is cleared on entry (46), and set only by a thread that
   *    holds a task and read it false, in a step of its own (64-67);
   *  - _producing is set only by a compare-and-set that finds it false (50);
   *    a thread that finds it set leaves (51). It is released only in the
   *    finally block, at the null break (60-61) or after the hand-off (73);
   *  - produce() is called only by the winner (57);
   *  - the strategy reaches the executor only by the hand-off (68), after
   *    _threadPending was set and before _producing is released, or by
   *    dispatch() (85);
   *  - the task runs inline after the release (77), and the loop goes back
   *    to the compare-and-set (47-50).
   */
  lemma AdvanceThreadEffects(s: Sys, t: nat)
    requires t < |s.threads|
    ensures var r := AdvanceThread(s, t);
      && |r.threads| == |s.threads| && r.threads == s.threads[t := r.threads[t]]
      && (s.threads[t] == Claiming ==> (r.threads[t] == Polling <==> !s.producing) && (r.threads[t] == Polling || r.threads[t] == Done))
      && (r.producing && !s.producing ==> s.threads[t] == Claiming)
      && (s.producing && !r.producing ==> s.threads[t] == Produced(None) || s.threads[t].Releasing?)
      && (s.threads[t] == Produced(None) ==> r.threads[t] == Done && !r.producing)
      && (r.producer != s.producer ==> s.threads[t] == Polling)
      && (r.threadPending && !s.threadPending ==> s.threads[t].Announcing?)
      && (!r.threadPending && s.threadPending ==> s.threads[t] == Entering)
      && (s.threads[t].Produced? && s.threads[t].answer.Some? ==> (r.threads[t].Announcing? <==> !s.threadPending))
      && (s.threads[t].Announcing? ==> r.threads[t] == Submitting(s.threads[t].task))
      && (r.queued != s.queued ==> r.queued == s.queued + 1 && (s.threads[t].Submitting? || s.threads[t] == Dispatching))
      && (s.threads[t].Submitting? ==> r.threads[t] == Releasing(s.threads[t].task))
      && (s.threads[t].Releasing? ==> r.threads[t] == Running(s.threads[t].task))
      && (r.ran != s.ran ==> s.threads[t].Running? && r.ran == s.ran + [s.threads[t].task] && r.threads[t] == Claiming)
  {
  }

  /**
   * What one event does to the threads, the executor and `owed`: only an
   * outside call makes a call owed; a new thread enters at the top of
   * execute() (or of dispatch()); a queued copy of the strategy leaves the
   * executor only as such a thread (run() is execute(), lines 88-92).
   */
  lemma StepEffects(s: Sys, e: Event)
    ensures var r := Step(s, e);
      && (!e.Advance? ==> |s.threads| <= |r.threads| <= |s.threads| + 1 && r.threads[..|s.threads|] == s.threads)
      && (e.Advance? ==> |r.threads| == |s.threads|)
      && (|r.threads| > |s.threads| ==> r.threads[|s.threads|] == (if e == Call(DispatchCall) then Dispatching else Entering))
      && (r.queued < s.queued ==> e == Start && r.queued == s.queued - 1 && |r.threads| == |s.threads| + 1)
      && (e.Call? ==> r.owed && |r.threads| == |s.threads| + 1)
      && (r.owed && !s.owed ==> e.Call?)
  {
    if e.Advance? && e.thread < |s.threads| {
      AdvanceThreadEffects(s, e.thread);
    }
  }

  /** The state after the events `es`, in order. */
  function Run(s: Sys, es: seq<Event>): Sys
  {
    if es == [] then s else Step(Run(s, es[..|es| - 1]), es[|es| - 1])
  }

  /** Between winning _producing and releasing it. */
  predicate InProduction(pc: Pc)
  {
    pc.Polling? || pc.Produced? || pc.Announcing? || pc.Submitting? || pc.Releasing?
  }

  /** Holds a produced task and has not yet handed a successor for it to the executor. */
  predicate Unsent(pc: Pc)
  {
    (pc.Produced? && pc.answer.Some?) || pc.Announcing? || pc.Submitting?
  }

  /** The number of threads in production and the number holding an unsent task. */
  datatype Tally = Tally(production: nat, unsent: nat)

  function Of(pc: Pc): Tally
  {
    Tally(if InProduction(pc) then 1 else 0, if Unsent(pc) then 1 else 0)
  }

  function Plus(a: Tally, b: Tally): Tally
  {
    Tally(a.production + b.production, a.unsent + b.unsent)
  }

  function Sum(ts: seq<Pc>): Tally
  {
    if ts == [] then Tally(0, 0) else Plus(Sum(ts[..|ts| - 1]), Of(ts[|ts| - 1]))
  }

  lemma SumAppend(ts: seq<Pc>, x: Pc)
    ensures Sum(ts + [x]) == Plus(Sum(ts), Of(x))
  {
    assert (ts + [x])[..|ts|] == ts;
  }

  lemma {:induction false} SumUpdate(ts: seq<Pc>, t: nat, x: Pc)
    requires t < |ts|
    ensures Plus(Sum(ts[t := x]), Of(ts[t])) == Plus(Sum(ts), Of(x))
  {
    var n := |ts| - 1;
    var us := ts[t := x];
    assert Sum(us) == Plus(Sum(us[..n]), Of(us[n]));
    assert Sum(ts) == Plus(Sum(ts[..n]), Of(ts[n]));
    if t == n {
      assert us[..n] == ts[..n];
    } else {
      assert us[..n] == ts[..n][t := x];
      SumUpdate(ts[..n], t, x);
    }
  }

  /** The task a thread holds between producing it and running it. */
  function Holds(pc: Pc): multiset<Task>
  {
    match pc
    case Produced(Some(task)) => multiset{task}
    case Announcing(task) => multiset{task}
    case Submitting(task) => multiset{task}
    case Releasing(task) => multiset{task}
    case Running(task) => multiset{task}
    case _ => multiset{}
  }

  function Held(ts: seq<Pc>): multiset<Task>
  {
    if ts == [] then multiset{} else Held(ts[..|ts| - 1]) + Holds(ts[|ts| - 1])
  }

  lemma HeldAppend(ts: seq<Pc>, x: Pc)
    ensures Held(ts + [x]) == Held(ts) + Holds(x)
  {
    assert (ts + [x])[..|ts|] == ts;
  }

  lemma {:induction false} HeldUpdate(ts: seq<Pc>, t: nat, x: Pc)
    requires t < |ts|
    ensures Holds(ts[t]) <= Held(ts)
    ensures Held(ts[t := x]) == Held(ts) - Holds(ts[t]) + Holds(x)
  {
    var n := |ts| - 1;
    var us := ts[t := x];
    if t == n {
      assert us[..n] == ts[..n];
    } else {
      assert us[..n] == ts[..n][t := x];
      HeldUpdate(ts[..n], t, x);
    }
  }

  /** The invariant, given the tally `k` of the threads and the tasks `held` they hold. */
  ghost predicate Invariant(s: Sys, k: Tally, held: multiset<Task>)
  {
    // _producing is set exactly while one thread is between winning and releasing it
    && k.production == (if s.producing then 1 else 0)
    // every successor was handed over for a distinct produced task
    && s.sent + k.unsent <= |Yielded(s.producer.polled)|
    // every task produced so far has run or is held by exactly one thread
    && multiset(s.ran) + held == Yielded(s.producer.polled)
  }

  ghost predicate Inv(s: Sys)
  {
    Invariant(s, Sum(s.threads), Held(s.threads))
  }

  lemma InitInv(script: seq<Option<Task>>)
    ensures Inv(Init(script))
  {
  }

  lemma EnterStep(s: Sys, t: nat, k: Tally, k': Tally, h: multiset<Task>, h': multiset<Task>)
    requires t < |s.threads| && s.threads[t] == Entering
    requires Invariant(s, k, h) && Plus(k', Of(s.threads[t])) == Plus(k, Of(AdvanceThread(s, t).threads[t]))
    requires Holds(s.threads[t]) <= h && h' == h - Holds(s.threads[t]) + Holds(AdvanceThread(s, t).threads[t])
    ensures Invariant(AdvanceThread(s, t), k', h')
  {
  }

  lemma ClaimStep(s: Sys, t: nat, k: Tally, k': Tally, h: multiset<Task>, h': multiset<Task>)
    requires t < |s.threads| && s.threads[t] == Claiming
    requires Invariant(s, k, h) && Plus(k', Of(s.threads[t])) == Plus(k, Of(AdvanceThread(s, t).threads[t]))
    requires Holds(s.threads[t]) <= h && h' == h - Holds(s.threads[t]) + Holds(AdvanceThread(s, t).threads[t])
    ensures Invariant(AdvanceThread(s, t), k', h')
  {
  }

  lemma PollStep(s: Sys, t: nat, k: Tally, k': Tally, h: multiset<Task>, h': multiset<Task>)
    requires t < |s.threads| && s.threads[t] == Polling
    requires Invariant(s, k, h) && Plus(k', Of(s.threads[t])) == Plus(k, Of(AdvanceThread(s, t).threads[t]))
    requires Holds(s.threads[t]) <= h && h' == h - Holds(s.threads[t]) + Holds(AdvanceThread(s, t).threads[t])
    ensures Invariant(AdvanceThread(s, t), k', h')
  {
    YieldedAppend(s.producer.polled, NextAnswer(s.producer));
  }

  lemma NullStep(s: Sys, t: nat, k: Tally, k': Tally, h: multiset<Task>, h': multiset<Task>)
    requires t < |s.threads| && s.threads[t] == Produced(None)
    requires Invariant(s, k, h) && Plus(k', Of(s.threads[t])) == Plus(k, Of(AdvanceThread(s, t).threads[t]))
    requires Holds(s.threads[t]) <= h && h' == h - Holds(s.threads[t]) + Holds(AdvanceThread(s, t).threads[t])
    ensures Invariant(AdvanceThread(s, t), k', h')
  {
  }

  lemma ProducedStep(s: Sys, t: nat, k: Tally, k': Tally, h: multiset<Task>, h': multiset<Task>)
    requires t < |s.threads| && s.threads[t].Produced? && s.threads[t].answer.Some?
    requires Invariant(s, k, h) && Plus(k', Of(s.threads[t])) == Plus(k, Of(AdvanceThread(s, t).threads[t]))
    requires Holds(s.threads[t]) <= h && h' == h - Holds(s.threads[t]) + Holds(AdvanceThread(s, t).threads[t])
    ensures Invariant(AdvanceThread(s, t), k', h')
  {
    var task := s.threads[t].answer.value;
    var pc := if s.threadPending then Releasing(task) else Announcing(task);
    assert AdvanceThread(s, t) == s.(threads := s.threads[t := pc]);
    assert Holds(pc) == Holds(s.threads[t]);
    assert h' == h;
  }

  lemma AnnounceStep(s: Sys, t: nat, k: Tally, k': Tally, h: multiset<Task>, h': multiset<Task>)
    requires t < |s.threads| && s.threads[t].Announcing?
    requires Invariant(s, k, h) && Plus(k', Of(s.threads[t])) == Plus(k, Of(AdvanceThread(s, t).threads[t]))
    requires Holds(s.threads[t]) <= h && h' == h - Holds(s.threads[t]) + Holds(AdvanceThread(s, t).threads[t])
    ensures Invariant(AdvanceThread(s, t), k', h')
  {
    assert h' == h;
  }

  lemma SubmitStep(s: Sys, t: nat, k: Tally, k': Tally, h: multiset<Task>, h': multiset<Task>)
    requires t < |s.threads| && s.threads[t].Submitting?
    requires Invariant(s, k, h) && Plus(k', Of(s.threads[t])) == Plus(k, Of(AdvanceThread(s, t).threads[t]))
    requires Holds(s.threads[t]) <= h && h' == h - Holds(s.threads[t]) + Holds(AdvanceThread(s, t).threads[t])
    ensures Invariant(AdvanceThread(s, t), k', h')
  {
    var s' := AdvanceThread(s, t);
    assert s'.producer == s.producer && s'.ran == s.ran && s'.sent == s.sent + 1;
    assert k'.unsent + 1 == k.unsent;
    assert h' == h;
  }

  lemma ReleaseStep(s: Sys, t: nat, k: Tally, k': Tally, h: multiset<Task>, h': multiset<Task>)
    requires t < |s.threads| && s.threads[t].Releasing?
    requires Invariant(s, k, h) && Plus(k', Of(s.threads[t])) == Plus(k, Of(AdvanceThread(s, t).threads[t]))
    requires Holds(s.threads[t]) <= h && h' == h - Holds(s.threads[t]) + Holds(AdvanceThread(s, t).threads[t])
    ensures Invariant(AdvanceThread(s, t), k', h')
  {
    assert h' == h;
  }

  lemma RunningStep(s: Sys, t: nat, k: Tally, k': Tally, h: multiset<Task>, h': multiset<Task>)
    requires t < |s.threads| && s.threads[t].Running?
    requires Invariant(s, k, h) && Plus(k', Of(s.threads[t])) == Plus(k, Of(AdvanceThread(s, t).threads[t]))
    requires Holds(s.threads[t]) <= h && h' == h - Holds(s.threads[t]) + Holds(AdvanceThread(s, t).threads[t])
    ensures Invariant(AdvanceThread(s, t), k', h')
  {
    assert multiset(AdvanceThread(s, t).ran) == multiset(s.ran) + multiset{s.threads[t].task};
  }

  lemma DispatchStep(s: Sys, t: nat, k: Tally, k': Tally, h: multiset<Task>, h': multiset<Task>)
    requires t < |s.threads| && s.threads[t] == Dispatching
    requires Invariant(s, k, h) && Plus(k', Of(s.threads[t])) == Plus(k, Of(AdvanceThread(s, t).threads[t]))
    requires Holds(s.threads[t]) <= h && h' == h - Holds(s.threads[t]) + Holds(AdvanceThread(s, t).threads[t])
    ensures Invariant(AdvanceThread(s, t), k', h')
  {
  }

  /** Every atomic step of every thread keeps the invariant, stated over any tally. */
  lemma ThreadStep(s: Sys, t: nat, k: Tally, k': Tally, h: multiset<Task>, h': multiset<Task>)
    requires t < |s.threads|
    requires Invariant(s, k, h) && Plus(k', Of(s.threads[t])) == Plus(k, Of(AdvanceThread(s, t).threads[t]))
    requires Holds(s.threads[t]) <= h && h' == h - Holds(s.threads[t]) + Holds(AdvanceThread(s, t).threads[t])
    ensures Invariant(AdvanceThread(s, t), k', h')
  {
    match s.threads[t]
    case Entering => EnterStep(s, t, k, k', h, h');
    case Claiming => ClaimStep(s, t, k, k', h, h');
    case Polling => PollStep(s, t, k, k', h, h');
    case Produced(None) => NullStep(s, t, k, k', h, h');
    case Produced(Some(_)) => ProducedStep(s, t, k, k', h, h');
    case Announcing(_) => AnnounceStep(s, t, k, k', h, h');
    case Submitting(_) => SubmitStep(s, t, k, k', h, h');
    case Releasing(_) => ReleaseStep(s, t, k, k', h, h');
    case Running(_) => RunningStep(s, t, k, k', h, h');
    case Dispatching => DispatchStep(s, t, k, k', h, h');
    case Done =>
  }

  lemma AdvanceFrame(s: Sys, t: nat)
    requires t < |s.threads|
    ensures AdvanceThread(s, t).threads == s.threads[t := AdvanceThread(s, t).threads[t]]
  {
  }

  lemma AdvanceKeepsInv(s: Sys, t: nat)
    requires Inv(s) && t < |s.threads|
    ensures Inv(AdvanceThread(s, t))
  {
    var s' := AdvanceThread(s, t);
    AdvanceFrame(s, t);
    SumUpdate(s.threads, t, s'.threads[t]);
    HeldUpdate(s.threads, t, s'.threads[t]);
    ThreadStep(s, t, Sum(s.threads), Sum(s'.threads), Held(s.threads), Held(s'.threads));
  }

  lemma JoinStep(s: Sys, s': Sys, x: Pc, k: Tally, k': Tally, h: multiset<Task>)
    requires Invariant(s, k, h) && k' == Plus(k, Of(x)) && Of(x) == Tally(0, 0) && Holds(x) == multiset{}
    requires s' == s.(threads := s'.threads, queued := s'.queued, owed := s'.owed)
    ensures Invariant(s', k', h)
  {
  }

  /** A new thread, arriving from outside or started by the executor, keeps the invariant. */
  lemma JoinKeepsInv(s: Sys, x: Pc, s': Sys)
    requires Inv(s) && (x == Entering || x == Dispatching)
    requires s' == s.(threads := s.threads + [x], queued := s'.queued, owed := s'.owed)
    ensures Inv(s')
  {
    SumAppend(s.threads, x);
    HeldAppend(s.threads, x);
    JoinStep(s, s', x, Sum(s.threads), Sum(s'.threads), Held(s.threads));
  }

  lemma StepKeepsInv(s: Sys, e: Event)
    requires Inv(s)
    ensures Inv(Step(s, e))
  {
    if e.Advance? {
      if e.thread < |s.threads| {
        AdvanceKeepsInv(s, e.thread);
      }
    } else if e.Call? {
      JoinKeepsInv(s, if e.entry == ExecuteCall then Entering else Dispatching, Step(s, e));
    } else if s.queued > 0 {
      JoinKeepsInv(s, Entering, Step(s, e));
    }
  }

  lemma {:induction false} RunKeepsInv(s: Sys, es: seq<Event>)
    requires Inv(s)
    ensures Inv(Run(s, es))
  {
    if es != [] {
      RunKeepsInv(s, es[..|es| - 1]);
      StepKeepsInv(Run(s, es[..|es| - 1]), es[|es| - 1]);
    }
  }

  lemma SumTwo(ts: seq<Pc>, i: nat, j: nat)
    requires i < j < |ts|
    ensures Sum(ts).production >= Of(ts[i]).production + Of(ts[j]).production
  {
    SumUpdate(ts, i, Done);
    SumUpdate(ts[i := Done], j, Done);
  }

  /**
   * Under every interleaving, only the thread that won the compare-and-set
   * of _producing calls produce(): no two threads are ever between winning
   * _producing and releasing it at once, and while one is, _producing is set.
   */
  lemma SingleProducer(script: seq<Option<Task>>, es: seq<Event>, i: nat, j: nat)
    requires var s := Run(Init(script), es); i < j < |s.threads|
    ensures var s := Run(Init(script), es);
      && !(InProduction(s.threads[i]) && InProduction(s.threads[j]))
      && (InProduction(s.threads[i]) ==> s.producing)
  {
    InitInv(script);
    RunKeepsInv(Init(script), es);
    SumTwo(Run(Init(script), es).threads, i, j);
  }

  /**
   * Under every interleaving, execute() hands at most one successor to the
   * executor per produced task, and every produced task has run or is held
   * by exactly one thread.
   */
  lemma SuccessorPerTask(script: seq<Option<Task>>, es: seq<Event>)
    ensures var s := Run(Init(script), es);
      && s.sent <= |Yielded(s.producer.polled)|
      && multiset(s.ran) <= Yielded(s.producer.polled)
  {
    InitInv(script);
    RunKeepsInv(Init(script), es);
  }

  /** A run passes through the states `ss` when each is one step from the one before. */
  lemma {:induction false} Trace(s0: Sys, es: seq<Event>, ss: seq<Sys>)
    requires |ss| == |es| + 1 && ss[0] == s0
    requires forall i :: 0 <= i < |es| ==> ss[i + 1] == Step(ss[i], es[i])
    ensures Run(s0, es) == ss[|es|]
  {
    if es != [] {
      var n := |es| - 1;
      Trace(s0, es[..n], ss[..n + 1]);
    }
  }

  /** No thread is inside the strategy and the executor holds no copy of it. */
  predicate Quiescent(s: Sys)
  {
    s.queued == 0 && forall i :: 0 <= i < |s.threads| ==> s.threads[i] == Done
  }

  lemma {:induction false} SumAtRest(ts: seq<Pc>)
    requires forall pc :: pc in ts ==> pc == Done
    ensures Sum(ts) == Tally(0, 0)
  {
    if ts == [] {
      return;
    }
    var n := |ts| - 1;
    var last := ts[n];
    assert last in ts;
    assert last == Done;
    var front := ts[..n];
    assert forall pc :: pc in front ==> pc in ts;
    SumAtRest(front);
    assert Sum(ts) == Plus(Sum(front), Of(last));
  }

  lemma {:induction false} HeldAtRest(ts: seq<Pc>)
    requires forall i :: 0 <= i < |ts| ==> ts[i] == Done
    ensures Held(ts) == multiset{}
  {
    if ts != [] {
      HeldAtRest(ts[..|ts| - 1]);
    }
  }

  lemma SettledTally(s: Sys, k: Tally, h: multiset<Task>)
    requires Invariant(s, k, h) && k == Tally(0, 0) && h == multiset{}
    ensures !s.producing
    ensures multiset(s.ran) == Yielded(s.producer.polled)
  {
  }

  lemma AtRestIsSettled(s: Sys)
    requires Inv(s) && Quiescent(s)
    ensures !s.producing
    ensures multiset(s.ran) == Yielded(s.producer.polled)
  {
    SumAtRest(s.threads);
    HeldAtRest(s.threads);
    SettledTally(s, Sum(s.threads), Held(s.threads));
  }

  /**
   * Once every thread has left, _producing is clear, released on every
   * exit including the null break, and every produced task has run
   * exactly once.
   */
  lemma QuiescentIsSettled(script: seq<Option<Task>>, es: seq<Event>)
    requires Quiescent(Run(Init(script), es))
    ensures var s := Run(Init(script), es);
      && !s.producing
      && multiset(s.ran) == Yielded(s.producer.polled)
  {
    InitInv(script);
    RunKeepsInv(Init(script), es);
    AtRestIsSettled(Run(Init(script), es));
  }

  /**
   * An execute() call that arrives while another thread produces loses its
   * compare-and-set and leaves; if produce() had already answered null, the
   * producer leaves too. The strategy then comes to rest with the call
   * unanswered although the producer has a task to give.
   */
  lemma CallLostWhileProducing()
    ensures var s := Run(Init([None, Some(1)]),
                         [Call(ExecuteCall), Advance(0), Advance(0), Advance(0),
                          Call(ExecuteCall), Advance(1), Advance(1), Advance(0)]);
      && Quiescent(s)
      && s.owed
      && NextAnswer(s.producer) == Some(1)
  {
    var es := [Call(ExecuteCall), Advance(0), Advance(0), Advance(0),
               Call(ExecuteCall), Advance(1), Advance(1), Advance(0)];
    var s0 := Init([None, Some(1)]);
    var s1 := Step(s0, es[0]);
    var s2 := Step(s1, es[1]);
    var s3 := Step(s2, es[2]);
    var s4 := Step(s3, es[3]);
    assert s4.threads == [Produced(None)] && s4.producing;
    var s5 := Step(s4, es[4]);
    var s6 := Step(s5, es[5]);
    var s7 := Step(s6, es[6]);
    assert s7.threads == [Produced(None), Done] && s7.owed;
    var s8 := Step(s7, es[7]);
    assert s8.threads == [Done, Done];
    Trace(s0, es, [s0, s1, s2, s3, s4, s5, s6, s7, s8]);
  }

  /**
   * _threadPending is only a hint: an execute() call clears it while the
   * successor it announces is still queued, so the next producer hands a
   * second successor to the executor and two are queued at once.
   */
  lemma TwoSuccessorsQueued()
    ensures var s := Run(Init([Some(1), Some(2)]),
                         [Call(ExecuteCall), Advance(0), Advance(0), Advance(0), Advance(0), Advance(0),
                          Advance(0), Advance(0), Call(ExecuteCall), Advance(1), Advance(1), Advance(1),
                          Advance(1), Advance(1), Advance(1)]);
      s.queued == 2 && s.sent == 2
  {
    var es := [Call(ExecuteCall), Advance(0), Advance(0), Advance(0), Advance(0), Advance(0),
               Advance(0), Advance(0), Call(ExecuteCall), Advance(1), Advance(1), Advance(1),
               Advance(1), Advance(1), Advance(1)];
    var s0 := Init([Some(1), Some(2)]);
    var s1 := Step(s0, es[0]);
    var s2 := Step(s1, es[1]);
    var s3 := Step(s2, es[2]);
    var s4 := Step(s3, es[3]);
    assert s4.threads == [Produced(Some(1))];
    var s5 := Step(s4, es[4]);
    var s6 := Step(s5, es[5]);
    var s7 := Step(s6, es[6]);
    var s8 := Step(s7, es[7]);
    assert s8.threads == [Running(1)] && s8.queued == 1 && s8.threadPending && !s8.producing;
    var s9 := Step(s8, es[8]);
    var s10 := Step(s9, es[9]);
    assert !s10.threadPending;
    var s11 := Step(s10, es[10]);
    var s12 := Step(s11, es[11]);
    assert s12.threads == [Running(1), Produced(Some(2))];
    var s13 := Step(s12, es[12]);
    var s14 := Step(s13, es[13]);
    var s15 := Step(s14, es[14]);
    assert s15.queued == 2;
    Trace(s0, es, [s0, s1, s2, s3, s4, s5, s6, s7, s8, s9, s10, s11, s12, s13, s14, s15]);
  }
}

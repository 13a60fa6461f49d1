/**
 * ExecuteProduceConsume: the lock-based "eat what you kill" strategy.
 *
 * Four booleans, read and written only inside spin-lock sections, decide
 * which thread calls produce(), when a successor run() is handed to the
 * executor and when the strategy goes idle. This module holds the four
 * flags, one function per lock section (the transition it makes and the
 * decision it hands back to the calling thread), and the strategy object
 * whose methods perform those sections and the production loop.
 * EpcInterleavings puts the sections together under every interleaving of
 * threads.
 */
module Epc {
  import opened Collaborators

  /** _idle, _execute, _producing and _pending. */
  datatype Flags = Flags(idle: bool, execute: bool, producing: bool, pending: bool)

  /** A new strategy is idle and nothing else is set. */
  const Initial: Flags := Flags(true, false, false, false)

  /** The two runnables the strategy hands to the executor. */
  datatype Job =
    | RunExecute   // _runExecute, whose run() calls execute()
    | Successor    // the strategy itself, whose run() continues production

  /**
   * The flags of a strategy at rest: an idle strategy has nobody producing
   * (execute() throws otherwise) and no pending request to produce again.
   */
  predicate Consistent(f: Flags)
  {
    f.idle ==> !f.producing && !f.execute
  }

  /** What the calling thread does once it has left a lock section. */
  datatype Next =
    | Poll                     // call produce(): this thread holds _producing
    | Leave                    // return from the strategy
    | Fail                     // throw IllegalStateException
    | Spawn                    // dispatch(): hand _runExecute to the executor
    | Consume(dispatch: bool)  // run the task just produced, after handing a successor to the executor when dispatch

  /** The flags a lock section leaves and the decision it hands back. */
  datatype Section = Section(flags: Flags, next: Next)

  /**
   * The lock section of execute(). An idle strategy makes the caller the
   * producer; idle and producing at once is an error; a strategy that is not
   * idle is only asked, through _execute, to produce once more before it goes
   * idle.
   */
  function ExecuteSection(f: Flags): (r: Section)
    ensures r.next == Poll <==> f.idle && !f.producing
    ensures r.next == Fail <==> f.idle && f.producing
    ensures r.next == Poll ==> r.flags == f.(idle := false, producing := true)
    ensures r.next == Fail ==> r.flags == f
    ensures !f.idle ==> r == Section(f.(execute := true), Leave)
    ensures Consistent(f) ==> Consistent(r.flags) && r.next != Fail
  {
    if f.idle then
      if f.producing then Section(f, Fail)
      else Section(f.(producing := true, idle := false), Poll)
    else
      Section(f.(execute := true), Leave)
  }

  /**
   * The lock section of dispatch(). It never makes the caller produce: an
   * idle strategy hands _runExecute to the executor, any other is asked
   * through _execute to produce again.
   */
  function DispatchSection(f: Flags): (r: Section)
    ensures r.next == Spawn || r.next == Leave
    ensures r.next == Spawn <==> f.idle
    ensures f.idle ==> r.flags == f
    ensures !f.idle ==> r.flags == f.(execute := true)
    ensures Consistent(f) ==> Consistent(r.flags)
  {
    if f.idle then Section(f, Spawn) else Section(f.(execute := true), Leave)
  }

  /**
   * The lock section of run(), the successor handed to the executor. It
   * always clears _pending, and claims production only when the strategy is
   * busy and nobody is producing.
   */
  function RunSection(f: Flags): (r: Section)
    ensures !r.flags.pending
    ensures r.next == Poll || r.next == Leave
    ensures r.next == Poll <==> !f.idle && !f.producing
    ensures r.flags == f.(pending := false, producing := f.producing || r.next == Poll)
    ensures Consistent(f) ==> Consistent(r.flags)
  {
    var g := f.(pending := false);
    if !g.idle && !g.producing then Section(g.(producing := true), Poll) else Section(g, Leave)
  }

  /**
   * The lock section after produce() returned `task`. Production is
   * released. With no task, a pending request (_execute) makes the same
   * thread produce again; otherwise the strategy goes idle. With a task,
   * _execute is cleared and a successor is dispatched exactly when none is
   * pending yet, which makes one pending.
   */
  function ProducedSection(f: Flags, task: Option<Task>): (r: Section)
    ensures task.None? && f.execute ==> r == Section(f.(idle := false, producing := true, execute := false), Poll)
    ensures task.None? && !f.execute ==> r == Section(f.(idle := true, producing := false), Leave)
    ensures task.Some? ==> r == Section(f.(producing := false, execute := false, pending := true), Consume(!f.pending))
    ensures Consistent(r.flags)
  {
    var g := f.(producing := false);
    match task
    case None =>
      if g.execute then Section(g.(idle := false, producing := true, execute := false), Poll)
      else Section(g.(idle := true), Leave)
    case Some(_) =>
      Section(g.(pending := true, execute := false), Consume(!g.pending))
  }

  /**
   * The lock section after the thread has run its task: it produces again
   * only when nobody is producing and the strategy is not idle, and then
   * claims _producing, which is therefore only ever set from false.
   */
  function RanSection(f: Flags): (r: Section)
    ensures r.next == Poll || r.next == Leave
    ensures r.next == Poll <==> !f.producing && !f.idle
    ensures r.next == Poll ==> r.flags == f.(producing := true)
    ensures r.next == Leave ==> r.flags == f
    ensures Consistent(f) ==> Consistent(r.flags)
  {
    if f.producing || f.idle then Section(f, Leave) else Section(f.(producing := true), Poll)
  }

  /**
   * The production cycle of a thread that holds _producing and has nobody
   * interleaving with it: a pending request (_execute) makes it poll again
   * after a first None; otherwise it drains the producer up to its next None.
   */
  function SoloCycle(p: Producer, execute: bool): (seq<Task>, Producer)
  {
    Drain(if execute && NextAnswer(p).None? then Produce(p).1 else p)
  }

  /**
   * The strategy object. Each Lock method is one spin-lock section; the
   * other methods are the strategy's operations as run by one thread with
   * no other thread interleaving (what they do under interleaving is
   * EpcInterleavings). A task run inline is recorded in `ran`; runnables
   * handed to the executor are returned in `dispatched`.
   */
  class ExecuteProduceConsume {
    var idle: bool
    var execute: bool
    var producing: bool
    var pending: bool

    function State(): Flags
      reads this
    {
      Flags(idle, execute, producing, pending)
    }

    constructor ()
      ensures State() == Initial
    {
      idle := true;
      execute := false;
      producing := false;
      pending := false;
    }

    method LockExecute() returns (next: Next)
      modifies this
      ensures Section(State(), next) == ExecuteSection(old(State()))
    {
      if idle {
        if producing {
          return Fail;
        }
        producing := true;
        idle := false;
        next := Poll;
      } else {
        execute := true;
        next := Leave;
      }
    }

    method LockDispatch() returns (next: Next)
      modifies this
      ensures Section(State(), next) == DispatchSection(old(State()))
    {
      if idle {
        next := Spawn;
      } else {
        execute := true;
        next := Leave;
      }
    }

    method LockRun() returns (next: Next)
      modifies this
      ensures Section(State(), next) == RunSection(old(State()))
    {
      pending := false;
      next := Leave;
      if !idle && !producing {
        producing := true;
        next := Poll;
      }
    }

    method LockProduced(task: Option<Task>) returns (next: Next)
      modifies this
      ensures Section(State(), next) == ProducedSection(old(State()), task)
    {
      producing := false;
      if task.None? {
        if execute {
          idle := false;
          producing := true;
          execute := false;
          return Poll;
        }
        idle := true;
        return Leave;
      }
      var dispatch := false;
      if !pending {
        dispatch := true;
        pending := true;
      }
      execute := false;
      next := Consume(dispatch);
    }

    method LockRan() returns (next: Next)
      modifies this
      ensures Section(State(), next) == RanSection(old(State()))
    {
      if producing || idle {
        return Leave;
      }
      producing := true;
      next := Poll;
    }

    /** isIdle(). */
    method IsIdle() returns (r: bool)
      ensures r == idle
    {
      r := idle;
    }

    /**
     * produceAndRun(), entered by the thread that holds _producing: poll,
     * run each task inline after dispatching at most one successor, and
     * produce again until a None leaves the strategy idle.
     */
    method ProduceAndRun(p: Producer) returns (ran: seq<Task>, dispatched: multiset<Job>, q: Producer)
      requires producing && !idle
      modifies this
      ensures (ran, q) == SoloCycle(p, old(execute))
      ensures State() == Flags(true, false, false, old(pending) || ran != [])
      ensures dispatched == if !old(pending) && ran != [] then multiset{Successor} else multiset{}
    {
      ghost var start := if execute && NextAnswer(p).None? then Produce(p).1 else p;
      ghost var wasPending := pending;
      var cur := p;
      ran, dispatched := [], multiset{};
      while true
        invariant producing && !idle
        invariant execute ==> cur == p && ran == [] && start == (if NextAnswer(p).None? then Produce(p).1 else p)
        invariant !execute ==> ran + Drain(cur).0 == Drain(start).0 && Drain(cur).1 == Drain(start).1
        invariant pending == (wasPending || ran != [])
        invariant dispatched == if !wasPending && ran != [] then multiset{Successor} else multiset{}
        decreases if |cur.polled| < |cur.script| then |cur.script| - |cur.polled| else 0, if execute then 1 else 0
      {
        var answer := Produce(cur);
        var task := answer.0;
        ghost var before := cur;
        cur := answer.1;
        var next := LockProduced(task);
        if next.Consume? {
          if next.dispatch {
            dispatched := dispatched + multiset{Successor};
          }
          assert Drain(before).0 == [task.value] + Drain(cur).0;
          assert ran + [task.value] + Drain(cur).0 == ran + ([task.value] + Drain(cur).0);
          ran := ran + [task.value];
          next := LockRan();
          if next == Leave {
            // Only another thread can be producing or have made the strategy idle here.
            assert false;
          }
        } else if next != Poll {
          // None with no pending request: the strategy is idle.
          assert Drain(before) == ([], cur);
          assert ran + [] == ran;
          q := cur;
          return;
        }
      }
    }

    /** execute(). */
    method Execute(p: Producer) returns (failed: bool, ran: seq<Task>, dispatched: multiset<Job>, q: Producer)
      modifies this
      ensures failed <==> old(idle && producing)
      ensures old(idle && producing) ==> State() == old(State()) && ran == [] && dispatched == multiset{} && q == p
      ensures !old(idle) ==> State() == old(State()).(execute := true) && ran == [] && dispatched == multiset{} && q == p
      ensures old(idle && !producing) ==>
        && (ran, q) == SoloCycle(p, old(execute))
        && State() == Flags(true, false, false, old(pending) || ran != [])
        && dispatched == if !old(pending) && ran != [] then multiset{Successor} else multiset{}
    {
      ran, dispatched, q := [], multiset{}, p;
      var next := LockExecute();
      failed := next == Fail;
      if next == Poll {
        ran, dispatched, q := ProduceAndRun(p);
      }
    }

    /** dispatch(): the caller never produces nor runs a task. */
    method Dispatch() returns (dispatched: multiset<Job>)
      modifies this
      ensures old(idle) ==> dispatched == multiset{RunExecute} && State() == old(State())
      ensures !old(idle) ==> dispatched == multiset{} && State() == old(State()).(execute := true)
    {
      dispatched := multiset{};
      var next := LockDispatch();
      if next == Spawn {
        dispatched := multiset{RunExecute};
      }
    }

    /** run(), as executed by the successor the strategy handed to the executor. */
    method Run(p: Producer) returns (ran: seq<Task>, dispatched: multiset<Job>, q: Producer)
      modifies this
      ensures old(idle || producing) ==>
        State() == old(State()).(pending := false) && ran == [] && dispatched == multiset{} && q == p
      ensures old(!idle && !producing) ==>
        && (ran, q) == SoloCycle(p, old(execute))
        && State() == Flags(true, false, false, ran != [])
        && dispatched == if ran != [] then multiset{Successor} else multiset{}
    {
      ran, dispatched, q := [], multiset{}, p;
      var next := LockRun();
      if next == Poll {
        ran, dispatched, q := ProduceAndRun(p);
      }
    }
  }
}

/**
 * The benchmark's EatWhatYouKillSM: the same strategy as the two-flag one,
 * coded as a four-value state machine held in an atomic reference and
 * changed only by compare-and-set retry loops. Each loop is modelled by
 * the iteration whose compare-and-set succeeds: a function from the state
 * it read to the state it writes and the decision it hands to the thread.
 *
 * After a null answer in REPRODUCING the code moves to IDLE by
 * compare-and-set and only then writes PENDING, as a separate step. The
 * model keeps both that code (AsWritten) and the single compare-and-set
 * from REPRODUCING to PENDING it evidently stands for (Fused);
 * BenchEwykSmInterleavings shows what the separate write allows.
 */
module BenchEwykSm {
  import opened Collaborators

  datatype State = Idle | Producing | Pending | Reproducing

  /** The null-answer transition as written (two writes) or as a single compare-and-set. */
  datatype Variant = AsWritten | Fused

  /** What the thread does once its compare-and-set has succeeded. */
  datatype Next =
    | Poll         // call produce()
    | Leave        // return
    | Fail         // throw IllegalStateException
    | Notify       // call onAllScheduled(), then return
    | MarkPending  // write PENDING, then call onAllScheduled() and return
    | Submit       // hand the strategy to the executor, then run the task
    | Consume      // run the task

  datatype Move = Move(state: State, next: Next)

  /**
   * The arrival loop: IDLE or PENDING becomes PRODUCING and the thread
   * produces; REPRODUCING becomes PRODUCING and the thread leaves, since
   * another thread produces; PRODUCING is left as it is.
   */
  function Arrive(st: State): (m: Move)
    ensures m.next == Poll <==> st == Idle || st == Pending
    ensures m.next == Poll || m.next == Leave
    ensures m.state == Producing
  {
    if st == Idle || st == Pending then Move(Producing, Poll) else Move(Producing, Leave)
  }

  /**
   * The loop after a null answer: PRODUCING becomes IDLE; REPRODUCING
   * becomes IDLE and PENDING is written next (as written), or becomes
   * PENDING at once (fused); any other state is an error and is left as it
   * is.
   */
  function AfterNull(st: State, v: Variant): (m: Move)
    ensures m.next == Fail <==> st == Idle || st == Pending
    ensures m.next == Fail ==> m.state == st
    ensures st == Producing ==> m == Move(Idle, Notify)
    ensures st == Reproducing ==> m == (if v == AsWritten then Move(Idle, MarkPending) else Move(Pending, Notify))
  {
    match st
    case Producing => Move(Idle, Notify)
    case Reproducing => if v == AsWritten then Move(Idle, MarkPending) else Move(Pending, Notify)
    case _ => Move(st, Fail)
  }

  /**
   * The loop after a task: PRODUCING becomes PENDING and exactly one
   * successor is handed to the executor; REPRODUCING becomes PENDING with
   * none; any other state is an error and is left as it is.
   */
  function AfterTask(st: State): (m: Move)
    ensures m.next == Fail <==> st == Idle || st == Pending
    ensures m.next == Fail ==> m.state == st
    ensures m.next != Fail ==> m.state == Pending
    ensures m.next == Submit <==> st == Producing
  {
    match st
    case Producing => Move(Pending, Submit)
    case Reproducing => Move(Pending, Consume)
    case _ => Move(st, Fail)
  }

  /**
   * The loop after running the task: PENDING becomes REPRODUCING and the
   * same thread produces again; in any other state it returns and the
   * state is left as it is.
   */
  function AfterRun(st: State): (m: Move)
    ensures m.next == Poll <==> st == Pending
    ensures m.next == Poll || m.next == Leave
    ensures m.state == if st == Pending then Reproducing else st
  {
    if st == Pending then Move(Reproducing, Poll) else Move(st, Leave)
  }

  /**
   * The strategy object: `state` is _state. The methods perform one
   * compare-and-set loop each; Run is run() on one thread with no other
   * thread interleaving, the successors it hands to the executor counted in
   * `dispatched` and not started.
   */
  class EatWhatYouKillSM {
    var state: State

    constructor ()
      ensures state == Idle
    {
      state := Idle;
    }

    method CasArrive() returns (next: Next)
      modifies this
      ensures Move(state, next) == Arrive(old(state))
    {
      match state
      case Idle =>
        state := Producing;
        next := Poll;
      case Pending =>
        state := Producing;
        next := Poll;
      case Reproducing =>
        state := Producing;
        next := Leave;
      case Producing =>
        next := Leave;
    }

    method CasAfterNull(v: Variant) returns (next: Next)
      modifies this
      ensures Move(state, next) == AfterNull(old(state), v)
    {
      match state
      case Producing =>
        state := Idle;
        next := Notify;
      case Reproducing =>
        if v == AsWritten {
          state := Idle;
          next := MarkPending;
        } else {
          state := Pending;
          next := Notify;
        }
      case Idle =>
        next := Fail;
      case Pending =>
        next := Fail;
    }

    method CasAfterTask() returns (next: Next)
      modifies this
      ensures Move(state, next) == AfterTask(old(state))
    {
      match state
      case Producing =>
        state := Pending;
        next := Submit;
      case Reproducing =>
        state := Pending;
        next := Consume;
      case Idle =>
        next := Fail;
      case Pending =>
        next := Fail;
    }

    method CasAfterRun() returns (next: Next)
      modifies this
      ensures Move(state, next) == AfterRun(old(state))
    {
      next := Leave;
      if state == Pending {
        state := Reproducing;
        next := Poll;
      }
    }

    /**
     * run(). From IDLE or PENDING the thread drains the producer up to its
     * next null, running every task itself and handing one successor to the
     * executor for the first, calls onAllScheduled() once and leaves the
     * strategy IDLE if nothing was produced, PENDING otherwise (with either
     * variant). From REPRODUCING it only moves the state to PRODUCING; from
     * PRODUCING it does nothing.
     */
    method Run(p: Producer, v: Variant) returns (ran: seq<Task>, dispatched: nat, q: Producer)
      modifies this
      ensures old(state) == Producing || old(state) == Reproducing ==>
        ran == [] && dispatched == 0 && q == p && state == Producing
      ensures old(state) == Idle || old(state) == Pending ==>
        && ran == Drain(p).0
        && q == OnAllScheduled(Drain(p).1)
        && state == (if ran == [] then Idle else Pending)
        && dispatched == (if ran != [] then 1 else 0)
    {
      ran, dispatched, q := [], 0, p;
      var next := CasArrive();
      if next == Leave {
        return;
      }
      while true
        invariant state == (if ran == [] then Producing else Reproducing)
        invariant ran + Drain(q).0 == Drain(p).0 && Drain(q).1 == Drain(p).1
        invariant dispatched == (if ran != [] then 1 else 0)
        decreases |q.script| - |q.polled|
      {
        var answer := Produce(q);
        var task := answer.0;
        ghost var before := q;
        q := answer.1;
        if task.None? {
          next := CasAfterNull(v);
          if next == MarkPending {
            state := Pending;
          }
          assert Drain(before) == ([], q);
          assert ran + [] == ran;
          q := OnAllScheduled(q);
          return;
        }
        next := CasAfterTask();
        if next == Submit {
          dispatched := dispatched + 1;
        }
        assert Drain(before).0 == [task.value] + Drain(q).0;
        assert ran + [task.value] + Drain(q).0 == ran + ([task.value] + Drain(q).0);
        ran := ran + [task.value];
        next := CasAfterRun();
        if next == Leave {
          // Only another thread can have moved the state away from PENDING.
          assert false;
        }
      }
    }
  }
}

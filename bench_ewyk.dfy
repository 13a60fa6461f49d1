/**
 * The benchmark's two-flag EatWhatYouKill strategy: an atomic _producing
 * flag, claimed by compare-and-set, and a volatile _threadPending hint. It
 * differs from the util one in what it does on a null task (it releases
 * _producing and signals onAllScheduled()) and in handing the successor to
 * the executor after releasing _producing. BenchEwykInterleavings puts its
 * steps together under every interleaving of threads.
 */
module BenchEwyk {
  import opened Collaborators

  /**
   * The strategy object. Run is the strategy's run() on one thread with no
   * other thread interleaving; the successors it hands to the executor are
   * counted in `dispatched` and not started.
   */
  class EatWhatYouKill {
    var producing: bool
    var threadPending: bool

    constructor ()
      ensures !producing && !threadPending
    {
      producing := false;
      threadPending := false;
    }

    /** _producing.compareAndSet(false, true). */
    method ClaimProducing() returns (won: bool)
      modifies this
      ensures won <==> !old(producing)
      ensures producing && threadPending == old(threadPending)
    {
      won := !producing;
      producing := true;
    }

    /**
     * run(): clear _threadPending, then win the compare-and-set of
     * _producing or leave without signalling; the winner produces until
     * null, then releases _producing and calls onAllScheduled() once. For
     * each task it announces a successor unless one is announced, releases
     * _producing, hands the announced successor to the executor and runs
     * the task itself.
     */
    method Run(p: Producer) returns (ran: seq<Task>, dispatched: nat, q: Producer)
      modifies this
      ensures old(producing) ==> ran == [] && dispatched == 0 && q == p && producing && !threadPending
      ensures !old(producing) ==>
        && ran == Drain(p).0
        && q == OnAllScheduled(Drain(p).1)
        && !producing
        && threadPending == (ran != [])
        && dispatched == (if ran != [] then 1 else 0)
    {
      ghost var wasProducing := producing;
      threadPending := false;
      ran, dispatched, q := [], 0, p;
      while true
        invariant wasProducing ==> ran == [] && dispatched == 0 && q == p && producing && !threadPending
        invariant !wasProducing ==>
          && !producing
          && ran + Drain(q).0 == Drain(p).0 && Drain(q).1 == Drain(p).1
          && threadPending == (ran != [])
          && dispatched == (if ran != [] then 1 else 0)
        decreases |q.script| - |q.polled|
      {
        var won := ClaimProducing();
        if !won {
          break;
        }
        var answer := Produce(q);
        var task := answer.0;
        ghost var before := q;
        q := answer.1;
        if task.None? {
          producing := false;
          assert Drain(before) == ([], q);
          assert ran + [] == ran;
          q := OnAllScheduled(q);
          return;
        }
        var execute := false;
        if !threadPending {
          execute := true;
          threadPending := true;
        }
        producing := false;
        if execute {
          dispatched := dispatched + 1;
        }
        assert Drain(before).0 == [task.value] + Drain(q).0;
        assert ran + [task.value] + Drain(q).0 == ran + ([task.value] + Drain(q).0);
        ran := ran + [task.value];
      }
    }
  }
}

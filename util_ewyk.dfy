/**
 * The simplified EatWhatYouKill strategy of the util package: an atomic
 * _producing flag, claimed by compare-and-set, and a volatile
 * _threadPending hint that a successor has been handed to the executor.
 * UtilEwykInterleavings puts its steps together under every interleaving
 * of threads.
 */
module UtilEwyk {
  import opened Collaborators

  /**
   * The strategy object. Its methods run on one thread with no other
   * thread interleaving; the successors execute() hands to the executor
   * are counted in `dispatched` and not started.
   */
  class EatWhatYouKill {
    var producing: bool
    var threadPending: bool

    constructor ()
      ensures !producing && !threadPending
    {
      producing := false;
      threadPending := false;
    }

    /** _producing.compareAndSet(false, true). */
    method ClaimProducing() returns (won: bool)
      modifies this
      ensures won <==> !old(producing)
      ensures producing && threadPending == old(threadPending)
    {
      won := !producing;
      producing := true;
    }

    /**
     * execute(): clear _threadPending, then win the compare-and-set of
     * _producing or leave; the winner produces, hands one successor to the
     * executor unless one is already announced, releases _producing and
     * runs the task itself, until produce() answers null.
     */
    method Execute(p: Producer) returns (ran: seq<Task>, dispatched: nat, q: Producer)
      modifies this
      ensures old(producing) ==> ran == [] && dispatched == 0 && q == p && producing && !threadPending
      ensures !old(producing) ==>
        && (ran, q) == Drain(p)
        && !producing
        && threadPending == (ran != [])
        && dispatched == (if ran != [] then 1 else 0)
    {
      ghost var wasProducing := producing;
      threadPending := false;
      ran, dispatched, q := [], 0, p;
      while true
        invariant wasProducing ==> ran == [] && dispatched == 0 && q == p && producing && !threadPending
        invariant !wasProducing ==>
          && !producing
          && ran + Drain(q).0 == Drain(p).0 && Drain(q).1 == Drain(p).1
          && threadPending == (ran != [])
          && dispatched == (if ran != [] then 1 else 0)
        decreases |q.script| - |q.polled|
      {
        var won := ClaimProducing();
        if !won {
          break;
        }
        var answer := Produce(q);
        var task := answer.0;
        ghost var before := q;
        q := answer.1;
        if task.None? {
          producing := false;
          assert Drain(before) == ([], q);
          assert ran + [] == ran;
          return;
        }
        if !threadPending {
          threadPending := true;
          dispatched := dispatched + 1;
        }
        producing := false;
        assert Drain(before).0 == [task.value] + Drain(q).0;
        assert ran + [task.value] + Drain(q).0 == ran + ([task.value] + Drain(q).0);
        ran := ran + [task.value];
      }
    }

    /** dispatch(): hand the strategy itself to the executor; the caller runs nothing. */
    method Dispatch() returns (dispatched: nat)
      ensures dispatched == 1
    {
      dispatched := 1;
    }

    /** run(), which is execute(). */
    method Run(p: Producer) returns (ran: seq<Task>, dispatched: nat, q: Producer)
      modifies this
      ensures old(producing) ==> ran == [] && dispatched == 0 && q == p && producing && !threadPending
      ensures !old(producing) ==>
        && (ran, q) == Drain(p)
        && !producing
        && threadPending == (ran != [])
        && dispatched == (if ran != [] then 1 else 0)
    {
      ran, dispatched, q := Execute(p);
    }
  }
}

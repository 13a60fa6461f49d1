/**
 * The benchmark's Iterative strategy: one thread calls produce() until it
 * answers null and hands every task to the executor, then signals
 * onAllScheduled().
 */
module BenchIterative {
  import opened Collaborators

  /**
   * Iterative.run(). `submitted` is what the executor received, in order;
   * `q` is the producer afterwards. The executor only queues the tasks, so
   * it is modelled by the sequence it receives. The executor receives every
   * task the producer yields from its current position, in production order,
   * up to the first null, which is itself consumed; onAllScheduled() is
   * called exactly once.
   */
  method Run(p: Producer) returns (submitted: seq<Task>, q: Producer)
    ensures submitted == Drain(p).0 && q == OnAllScheduled(Drain(p).1)
    ensures forall i :: 0 <= i < |submitted| ==>
      |p.polled| + i < |p.script| && p.script[|p.polled| + i] == Some(submitted[i])
    ensures |p.polled| + |submitted| < |p.script| ==> p.script[|p.polled| + |submitted|] == None
    ensures q.polled == p.polled + Answers(submitted) + [None]
    ensures q.script == p.script && q.completions == p.completions + 1
  {
    var cur := p;
    submitted := [];
    while true
      invariant submitted + Drain(cur).0 == Drain(p).0
      invariant Drain(cur).1 == Drain(p).1
      decreases |cur.script| - |cur.polled|
    {
      var answer := Produce(cur);
      var task := answer.0;
      ghost var before := cur;
      cur := answer.1;
      if task.None? {
        break;
      }
      assert Drain(before).0 == [task.value] + Drain(cur).0;
      assert submitted + [task.value] + Drain(cur).0 == submitted + ([task.value] + Drain(cur).0);
      submitted := submitted + [task.value];
    }
    q := OnAllScheduled(cur);
    DrainAnswers(p);
    DrainFollowsScript(p);
  }
}

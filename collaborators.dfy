/**
 * The two collaborators every execution strategy is bound to, reduced to
 * the values the strategies observe:
 *  - the Producer, whose produce() yields the next task or null (None), and
 *    whose onAllScheduled() the benchmark strategies call when production
 *    completes;
 *  - tasks, which are opaque to the strategies and are identified here by a
 *    number.
 */
module Collaborators {

  /** A produced task. Its body is not modelled: running it is an event. */
  type Task = nat

  datatype Option<T> = None | Some(value: T)

  /**
   * A producer that answers its script in order and answers None once the
   * script is used up (a connection that yields N requests and then null).
   * `polled` is every answer given so far, in order; `completions` counts
   * the calls of onAllScheduled().
   */
  datatype Producer = Producer(script: seq<Option<Task>>, polled: seq<Option<Task>>, completions: nat)

  function FreshProducer(script: seq<Option<Task>>): Producer
  {
    Producer(script, [], 0)
  }

  /** The answer the next produce() call gives. */
  function NextAnswer(p: Producer): Option<Task>
  {
    if |p.polled| < |p.script| then p.script[|p.polled|] else None
  }

  /** produce(): the answer and the producer after giving it. */
  function Produce(p: Producer): (Option<Task>, Producer)
  {
    (NextAnswer(p), p.(polled := p.polled + [NextAnswer(p)]))
  }

  /** onAllScheduled(). */
  function OnAllScheduled(p: Producer): Producer
  {
    p.(completions := p.completions + 1)
  }

  /** The answers that stand for the tasks `ts`, in order. */
  function Answers(ts: seq<Task>): (r: seq<Option<Task>>)
    ensures |r| == |ts|
  {
    if ts == [] then [] else [Some(ts[0])] + Answers(ts[1..])
  }

  /** Every task handed out by the answers `polled`. */
  function Yielded(polled: seq<Option<Task>>): multiset<Task>
  {
    if polled == [] then multiset{}
    else Yielded(polled[..|polled| - 1])
         + (match polled[|polled| - 1] case Some(t) => multiset{t} case None => multiset{})
  }

  lemma YieldedAppend(polled: seq<Option<Task>>, a: Option<Task>)
    ensures Yielded(polled + [a]) == Yielded(polled) + (match a case Some(t) => multiset{t} case None => multiset{})
  {
    assert (polled + [a])[..|polled|] == polled;
  }

  /** The number of null answers among `polled`. */
  function Nulls(polled: seq<Option<Task>>): nat
  {
    if polled == [] then 0 else Nulls(polled[..|polled| - 1]) + (if polled[|polled| - 1].None? then 1 else 0)
  }

  lemma NullsAppend(polled: seq<Option<Task>>, a: Option<Task>)
    ensures Nulls(polled + [a]) == Nulls(polled) + (if a.None? then 1 else 0)
  {
    assert (polled + [a])[..|polled|] == polled;
  }

  /**
   * One production cycle asked of a producer with nobody else polling it:
   * produce() until it answers None. The result is the tasks obtained, in
   * order, and the producer after it has answered that None.
   */
  function Drain(p: Producer): (Drained: (seq<Task>, Producer))
    decreases |p.script| - |p.polled|
  {
    var q := Produce(p).1;
    if NextAnswer(p).None? then ([], q)
    else var rest := Drain(q); ([NextAnswer(p).value] + rest.0, rest.1)
  }

  /**
   * After a production cycle the producer has answered exactly the drained
   * tasks and then one None, and nothing else about it has changed.
   */
  lemma {:induction false} DrainAnswers(p: Producer)
    ensures Drain(p).1.script == p.script && Drain(p).1.completions == p.completions
    ensures Drain(p).1.polled == p.polled + Answers(Drain(p).0) + [None]
    decreases |p.script| - |p.polled|
  {
    var q := Produce(p).1;
    if NextAnswer(p).Some? {
      var t := NextAnswer(p).value;
      DrainAnswers(q);
      var ts := Drain(q).0;
      assert Drain(p) == ([t] + ts, Drain(q).1);
      assert Answers([t] + ts) == [Some(t)] + Answers(ts) by {
        assert ([t] + ts)[1..] == ts;
      }
      assert q.polled == p.polled + [Some(t)];
      var rest := Answers(ts);
      assert p.polled + ([Some(t)] + rest) + [None] == (p.polled + [Some(t)]) + rest + [None];
    }
  }

  /**
   * What a production cycle yields: the tasks the script holds from the
   * current position on, in order, up to the first None; the cycle stops at
   * that None, or at the end of the script, after which None is answered.
   */
  lemma {:induction false} DrainFollowsScript(p: Producer)
    ensures Drain(p).0 != [] ==> |p.polled| + |Drain(p).0| <= |p.script|
    ensures forall i :: 0 <= i < |Drain(p).0| ==> p.script[|p.polled| + i] == Some(Drain(p).0[i])
    ensures |p.polled| + |Drain(p).0| < |p.script| ==> p.script[|p.polled| + |Drain(p).0|] == None
    decreases |p.script| - |p.polled|
  {
    var q := Produce(p).1;
    if NextAnswer(p).Some? {
      var t := NextAnswer(p).value;
      DrainFollowsScript(q);
      var ts := Drain(q).0;
      assert Drain(p).0 == [t] + ts;
      assert |q.polled| == |p.polled| + 1;
      forall i | 0 <= i < |[t] + ts|
        ensures p.script[|p.polled| + i] == Some(([t] + ts)[i])
      {
        if i > 0 {
          assert p.script[|q.polled| + (i - 1)] == Some(ts[i - 1]);
        }
      }
    }
  }
}

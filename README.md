# Eat-what-you-kill execution strategies, modelled in Dafny

Jetty's execution strategies decide which thread calls `Producer.produce()`.
The thread that produced a task runs it itself, on a hot cache. Before it
does, it hands at most one successor to the `Executor` so that production
goes on without it. Every strategy is a small state machine over a few shared
flags. This project models four encodings of that machine, plus the
`Iterative` baseline:

- `ExecuteProduceConsume`: four booleans (`_idle`, `_execute`, `_producing`,
  `_pending`) changed only inside spin-lock sections.
- The util `EatWhatYouKill`: an atomic `_producing` flag claimed by
  compare-and-set, and a volatile `_threadPending` hint.
- The benchmark `EatWhatYouKill`: the same two flags. It releases
  `_producing` and calls `onAllScheduled()` when production ends.
- The benchmark `EatWhatYouKillSM`: an atomic four-value state (IDLE,
  PRODUCING, PENDING, REPRODUCING) changed by compare-and-set retry loops.
- The benchmark `Iterative`: produce until null, hand every task to the
  executor, then call `onAllScheduled()`.

The four coordinating strategies are each modelled twice; `Iterative`,
which has no shared state, is modelled once, by a method.

1. **As a class with the source's fields, run by one thread** (modules
   `Epc`, `UtilEwyk`, `BenchEwyk`, `BenchEwykSm`; `BenchIterative` has the
   method `Run` only).
   - For `ExecuteProduceConsume` and `EatWhatYouKillSM`, every lock section
     or compare-and-set loop is a method, proved against a pure function
     that states the transition it makes and the decision it hands back to
     the thread.
   - For the two two-flag strategies, `ClaimProducing` is the
     compare-and-set of `_producing` and states its effect directly. The
     reads and writes of `_threadPending` and the release of `_producing`
     are statements inside `Execute` / `Run`.
   - The operations with loops (`ProduceAndRun`, `Execute`, `Run`, and
     `Iterative`'s `Run`) are proved against `Collaborators.Drain`, the
     production cycle of a producer that nobody else polls.
   - The producer is a scripted value (module `Collaborators`). It answers
     its script in order, then null forever.
   - Runnables handed to the executor are returned, not started.

2. **As a transition system over every interleaving of threads** (modules
   `EpcInterleavings`, `UtilEwykInterleavings`, `BenchEwykInterleavings`,
   `BenchEwykSmInterleavings`).
   - A system state holds:
     - the strategy's fields;
     - one program counter per thread;
     - the runnables queued in the executor;
     - the producer;
     - the tasks run so far;
     - the number of successors handed over;
     - `owed`, which records that an outside call arrived since the last
       `produce()`.
   - An event is one of three things:
     - an outside call enters the strategy;
     - the executor starts one queued runnable;
     - one thread takes one atomic step.
   - What counts as one atomic step:
     - each lock section;
     - each compare-and-set (a failed one is the read that sends the thread
       away);
     - each plain volatile read or write;
     - each `produce()` or `onAllScheduled()` call;
     - each hand-off to the executor;
     - each inline task run.
   - Separate writes in the source are separate steps. Two cases matter:
     - the read and the write of `_threadPending`;
     - the IDLE and PENDING writes of `EatWhatYouKillSM`.
   - `Run(s, es)` is the state after any event sequence `es`.
   - Each module's `AdvanceThreadEffects` and `StepEffects` lemmas state
     its step table: which program point writes which field, and in what
     order. Their rows below cite the Java lines for each step.
   - Each interleaving module keeps its own program counters, tallies and
     trace lemmas. The helpers look alike, but each is over that module's
     `Pc` and `Sys` types. Sharing them would need higher-order folds,
     which cost more than the resource limit allows.
   - The invariants are proved for every `es` by induction over the events.

What the proofs establish:

- **`ExecuteProduceConsume`, for every interleaving:**
  - `_idle` implies `!_producing`.
  - At most one thread is between `produce()` and the lock section that
    follows it.
  - `execute()` never throws.
  - `_pending` announces exactly one successor: about to be handed to the
    executor, queued, or in its run() section.
  - At rest, the flags are back to their initial values, every produced task
    has run, and no outside call is left unanswered: this strategy loses no
    wake-up.
- **The util and benchmark two-flag strategies:**
  - Only the winner of `_producing` produces.
  - At most one successor is handed over per produced task.
  - Tasks are never lost or duplicated.
  - A concrete interleaving shows the lost wake-up: a call that arrives while
    another thread produces leaves, the producer then goes idle, and the
    strategy rests with a task still to give.
  - For the util version, a second interleaving shows two successors queued
    at once.
  - These traces show behaviour the source accepts, not bugs it claims to
    avoid. The two-flag strategies only try to keep one producer and at
    most one successor per task. A call that finds another thread producing
    is meant to leave (EatWhatYouKill.java:49-51), and `_threadPending` is
    only a hint. `ExecuteProduceConsume` is the design that does not lose
    the call: `EpcInterleavings.QuiescentIsClean`.
- **`EatWhatYouKillSM`:**
  - As written, two threads can produce at once.
  - In that situation one of them throws `IllegalStateException` and its
    task is lost.
  - With the IDLE/PENDING pair fused into one compare-and-set, it has a single
    producer and never throws. At rest every produced task has run and
    `onAllScheduled()` has answered every null exactly once.

## Model

| member | source | states |
|---|---|---|
| Collaborators.DrainAnswers | src/main/java/org/eclipse/jetty/benchmark/ExecutionStrategy.java:33-45 | A production cycle (produce until null) leaves the producer having answered exactly the drained tasks and then one null, with script and onAllScheduled count unchanged |
| Collaborators.DrainFollowsScript | src/main/java/org/eclipse/jetty/util/thread/ExecutionStrategy.java:59-72 | The drained tasks are the producer's next answers in order, and the cycle stops at the first null answer |
| BenchIterative.Run | src/main/java/org/eclipse/jetty/benchmark/ExecutionStrategy.java:67-88 | Every task produced before the first null goes to the executor, in production order; the null is consumed; onAllScheduled() is called exactly once |
| Epc.ExecuteSection | src/main/java/org/eclipse/jetty/util/thread/strategy/ExecuteProduceConsume.java:70-89 | Idle and not producing: the caller produces, clearing idle and setting producing. Idle and producing: an error, nothing changes. Not idle: only `_execute` is set. Consistent flags stay consistent and never fail |
| Epc.DispatchSection | src/main/java/org/eclipse/jetty/util/thread/strategy/ExecuteProduceConsume.java:100-109 | Never makes the caller produce. It hands _runExecute to the executor exactly when idle, with the flags unchanged; otherwise it only sets `_execute` |
| Epc.RunSection | src/main/java/org/eclipse/jetty/util/thread/strategy/ExecuteProduceConsume.java:117-128 | Always clears `_pending`, and claims `_producing` exactly when not idle and nobody is producing |
| Epc.ProducedSection | src/main/java/org/eclipse/jetty/util/thread/strategy/ExecuteProduceConsume.java:148-179 | Null with `_execute`: produce again, `_execute` cleared, not idle. Null without `_execute`: go idle and leave. Task: `_producing` and `_execute` cleared, `_pending` set, a successor dispatched exactly when `_pending` was false. The result is always consistent |
| Epc.RanSection | src/main/java/org/eclipse/jetty/util/thread/strategy/ExecuteProduceConsume.java:198-204 | Resumes production exactly when not producing and not idle, and then sets `_producing` from false; otherwise nothing changes |
| Epc.ExecuteProduceConsume.constructor | src/main/java/org/eclipse/jetty/util/thread/strategy/ExecuteProduceConsume.java:53-62 | A new strategy is idle with the other three flags clear |
| Epc.ExecuteProduceConsume.LockExecute | src/main/java/org/eclipse/jetty/util/thread/strategy/ExecuteProduceConsume.java:70-89 | The lock section of execute() makes exactly the transition of ExecuteSection |
| Epc.ExecuteProduceConsume.LockDispatch | src/main/java/org/eclipse/jetty/util/thread/strategy/ExecuteProduceConsume.java:101-107 | The lock section of dispatch() makes exactly the transition of DispatchSection |
| Epc.ExecuteProduceConsume.LockRun | src/main/java/org/eclipse/jetty/util/thread/strategy/ExecuteProduceConsume.java:118-125 | The lock section of run() makes exactly the transition of RunSection |
| Epc.ExecuteProduceConsume.LockProduced | src/main/java/org/eclipse/jetty/util/thread/strategy/ExecuteProduceConsume.java:148-179 | The lock section after produce() makes exactly the transition of ProducedSection |
| Epc.ExecuteProduceConsume.LockRan | src/main/java/org/eclipse/jetty/util/thread/strategy/ExecuteProduceConsume.java:198-204 | The lock section after a task has run makes exactly the transition of RanSection |
| Epc.ExecuteProduceConsume.IsIdle | src/main/java/org/eclipse/jetty/util/thread/strategy/ExecuteProduceConsume.java:211-217 | Answers `_idle` and changes nothing |
| Epc.ExecuteProduceConsume.ProduceAndRun | src/main/java/org/eclipse/jetty/util/thread/strategy/ExecuteProduceConsume.java:131-209 | The producing thread runs every task up to the next null inline. A pending `_execute` makes it poll once more after a first null. It dispatches one successor for the first task only when none was pending, and leaves the strategy idle, with `_pending` recording any dispatch |
| Epc.ExecuteProduceConsume.Execute | src/main/java/org/eclipse/jetty/util/thread/strategy/ExecuteProduceConsume.java:64-93 | Throws exactly when idle and producing, changing nothing. When busy, only sets `_execute`. When idle, produces and runs as ProduceAndRun |
| Epc.ExecuteProduceConsume.Dispatch | src/main/java/org/eclipse/jetty/util/thread/strategy/ExecuteProduceConsume.java:95-110 | When idle, hands _runExecute to the executor and changes no flag; otherwise only sets `_execute`; never runs a task |
| Epc.ExecuteProduceConsume.Run | src/main/java/org/eclipse/jetty/util/thread/strategy/ExecuteProduceConsume.java:112-129 | Clears `_pending`. If idle or someone is producing, nothing else happens. Otherwise it produces and runs as ProduceAndRun |
| EpcInterleavings.AdvanceThreadEffects | src/main/java/org/eclipse/jetty/util/thread/strategy/ExecuteProduceConsume.java:64-209 | One step moves only its own thread. Flags change only in the lock sections (70-89, 101-107, 118-125, 148-179, 198-204). A thread reaches produce() (142) only holding `_producing` (79, 123, 160, 203). execute() fails exactly when idle and producing (75-76). dispatch() hands `_runExecute` over in its own step when idle (103-109). After a task, the successor goes to the executor in its own step exactly when `_pending` was clear (172-176, 182-188), and only then does the task run (193). After the run, the thread produces again exactly when nobody produces and the strategy is not idle (201-203) |
| EpcInterleavings.StepEffects | src/main/java/org/eclipse/jetty/util/thread/strategy/ExecuteProduceConsume.java:95-129 | An outside call adds one thread at the top of execute() or dispatch() and is owed. A runnable leaves the executor only as a new thread, entering execute() for `_runExecute` or run() for the successor (112-129). Nothing else makes a call owed |
| EpcInterleavings.RunKeepsInv | src/main/java/org/eclipse/jetty/util/thread/strategy/ExecuteProduceConsume.java:64-209 | Every step of every thread keeps the invariant: consistent flags, `_producing` held by exactly the one producing thread, `_pending` matching one successor, owed calls recorded, no failure, no task lost or duplicated |
| EpcInterleavings.SingleProducer | src/main/java/org/eclipse/jetty/util/thread/strategy/ExecuteProduceConsume.java:73-81 | Under every interleaving, `_idle` implies `!_producing`, and no two threads are in production at once |
| EpcInterleavings.NeverFails | src/main/java/org/eclipse/jetty/util/thread/strategy/ExecuteProduceConsume.java:75-76 | Under every interleaving, no thread ever throws IllegalStateException in execute() |
| EpcInterleavings.OneSuccessor | src/main/java/org/eclipse/jetty/util/thread/strategy/ExecuteProduceConsume.java:172-176 | Under every interleaving, the successors about to be handed to the executor, queued, or in their run() section number one exactly while `_pending` is set, and zero otherwise |
| EpcInterleavings.QuiescentIsClean | src/main/java/org/eclipse/jetty/util/thread/strategy/ExecuteProduceConsume.java:154-167 | Once every thread has left and the executor is empty, the flags are initial, no outside call is owed, and every produced task has run exactly once |
| UtilEwyk.EatWhatYouKill.constructor | src/main/java/org/eclipse/jetty/util/thread/strategy/EatWhatYouKill.java:34-41 | A new strategy has both flags clear |
| UtilEwyk.EatWhatYouKill.ClaimProducing | src/main/java/org/eclipse/jetty/util/thread/strategy/EatWhatYouKill.java:50-51 | The compare-and-set succeeds exactly when `_producing` was false, and leaves it set |
| UtilEwyk.EatWhatYouKill.Execute | src/main/java/org/eclipse/jetty/util/thread/strategy/EatWhatYouKill.java:43-80 | If another thread produces, only `_threadPending` is cleared. Otherwise every task up to the next null runs inline, one successor goes to the executor for the first task, `_producing` ends released, and `_threadPending` ends set exactly when a successor was dispatched |
| UtilEwyk.EatWhatYouKill.Dispatch | src/main/java/org/eclipse/jetty/util/thread/strategy/EatWhatYouKill.java:82-86 | dispatch() hands exactly one runnable, the strategy itself, to the executor and runs no task on the caller |
| UtilEwyk.EatWhatYouKill.Run | src/main/java/org/eclipse/jetty/util/thread/strategy/EatWhatYouKill.java:88-92 | run() behaves exactly as execute() |
| UtilEwykInterleavings.AdvanceThreadEffects | src/main/java/org/eclipse/jetty/util/thread/strategy/EatWhatYouKill.java:43-80 | One step moves only its own thread. `_threadPending` is cleared on entry (46), and set only by a thread that holds a task and read it false, in a step of its own (64-67). `_producing` is set only by a compare-and-set that finds it false, and a thread that finds it set leaves (50-51). produce() is called only by the winner (57). `_producing` is released only at the null break or after the hand-off (60-61, 71-74), so the hand-off (68) comes before the release. The task runs after the release (77), and the thread then loops back to the compare-and-set |
| UtilEwykInterleavings.StepEffects | src/main/java/org/eclipse/jetty/util/thread/strategy/EatWhatYouKill.java:82-92 | An outside call adds one thread at the top of execute() or dispatch() and is owed. A queued copy of the strategy leaves the executor only as a new thread entering execute(), since run() is execute() (88-92) |
| UtilEwykInterleavings.RunKeepsInv | src/main/java/org/eclipse/jetty/util/thread/strategy/EatWhatYouKill.java:43-80 | Every step keeps the invariant: `_producing` set exactly while one thread holds it, successors bounded by produced tasks, and no task lost or duplicated |
| UtilEwykInterleavings.SingleProducer | src/main/java/org/eclipse/jetty/util/thread/strategy/EatWhatYouKill.java:50-57 | Under every interleaving, only the compare-and-set winner produces: no two threads hold production, and one that does sees `_producing` set |
| UtilEwykInterleavings.SuccessorPerTask | src/main/java/org/eclipse/jetty/util/thread/strategy/EatWhatYouKill.java:63-69 | Under every interleaving, at most one successor is dispatched per produced task, and only produced tasks run |
| UtilEwykInterleavings.QuiescentIsSettled | src/main/java/org/eclipse/jetty/util/thread/strategy/EatWhatYouKill.java:71-74 | At rest, `_producing` is clear (released on every exit, the null break included) and every produced task has run exactly once |
| UtilEwykInterleavings.CallLostWhileProducing | src/main/java/org/eclipse/jetty/util/thread/strategy/EatWhatYouKill.java:49-51 | An execute() that arrives while the producer holds a null answer leaves; the strategy rests with the call owed and a task still to give |
| UtilEwykInterleavings.TwoSuccessorsQueued | src/main/java/org/eclipse/jetty/util/thread/strategy/EatWhatYouKill.java:46 | A call that clears `_threadPending` while a successor is queued lets a second successor be queued beside it |
| BenchEwyk.EatWhatYouKill.constructor | src/main/java/org/eclipse/jetty/benchmark/ExecutionStrategy.java:98-104 | A new strategy has both flags clear |
| BenchEwyk.EatWhatYouKill.ClaimProducing | src/main/java/org/eclipse/jetty/benchmark/ExecutionStrategy.java:112-114 | The compare-and-set succeeds exactly when `_producing` was false, and leaves it set |
| BenchEwyk.EatWhatYouKill.Run | src/main/java/org/eclipse/jetty/benchmark/ExecutionStrategy.java:106-139 | If another thread produces, only `_threadPending` is cleared. Otherwise every task up to the next null runs inline, one successor is dispatched for the first task, `_producing` ends released, and onAllScheduled() is called once |
| BenchEwykInterleavings.AdvanceThreadEffects | src/main/java/org/eclipse/jetty/benchmark/ExecutionStrategy.java:106-139 | One step moves only its own thread. `_threadPending` is cleared on entry (108), and set only by a thread that holds a task and read it false, in a step of its own (126-129). `_producing` is set only by a compare-and-set that finds it false, and a thread that finds it set leaves (112-114). produce() is called only by the winner (117). A null answer releases `_producing` (120), and then onAllScheduled() is called in its own step (121). After a task, `_producing` is released (132) before the hand-off (134-135), which comes before the inline run (137). The thread then loops back to the compare-and-set |
| BenchEwykInterleavings.StepEffects | src/main/java/org/eclipse/jetty/benchmark/ExecutionStrategy.java:106-109 | An outside run() adds one thread at its top and is owed. A queued copy of the strategy leaves the executor only as a new thread at the top of run() |
| BenchEwykInterleavings.RunKeepsInv | src/main/java/org/eclipse/jetty/benchmark/ExecutionStrategy.java:106-139 | Every step keeps the invariant: `_producing` set exactly while one thread holds it, successors bounded by produced tasks, no task lost or duplicated, one onAllScheduled() per null answer made or to come |
| BenchEwykInterleavings.SingleProducer | src/main/java/org/eclipse/jetty/benchmark/ExecutionStrategy.java:112-117 | Under every interleaving, only the compare-and-set winner produces, and `_producing` is set while it does |
| BenchEwykInterleavings.SuccessorPerTask | src/main/java/org/eclipse/jetty/benchmark/ExecutionStrategy.java:125-135 | Under every interleaving, at most one successor per produced task, only produced tasks run, and at most one onAllScheduled() per null answer |
| BenchEwykInterleavings.QuiescentIsSettled | src/main/java/org/eclipse/jetty/benchmark/ExecutionStrategy.java:118-123 | At rest, `_producing` is clear, every produced task has run exactly once, and onAllScheduled() has been called exactly once per null answer |
| BenchEwykInterleavings.CallLostWhileProducing | src/main/java/org/eclipse/jetty/benchmark/ExecutionStrategy.java:112-114 | A run() that arrives while the producer holds a null answer leaves; the strategy rests with the call owed and a task still to give |
| BenchEwykSm.Arrive | src/main/java/org/eclipse/jetty/benchmark/ExecutionStrategy.java:160-179 | IDLE or PENDING becomes PRODUCING and the thread produces (and only then). REPRODUCING becomes PRODUCING and the thread leaves. PRODUCING stays and the thread leaves |
| BenchEwykSm.AfterNull | src/main/java/org/eclipse/jetty/benchmark/ExecutionStrategy.java:188-205 | PRODUCING becomes IDLE. REPRODUCING becomes IDLE with PENDING still to write (as written) or PENDING at once (fused). Exactly IDLE and PENDING throw, leaving the state |
| BenchEwykSm.AfterTask | src/main/java/org/eclipse/jetty/benchmark/ExecutionStrategy.java:210-227 | PRODUCING or REPRODUCING becomes PENDING, and a successor is dispatched exactly from PRODUCING. Exactly IDLE and PENDING throw, leaving the state |
| BenchEwykSm.AfterRun | src/main/java/org/eclipse/jetty/benchmark/ExecutionStrategy.java:231-244 | PENDING becomes REPRODUCING and the same thread produces again (and only then); any other state is left and the thread returns |
| BenchEwykSm.EatWhatYouKillSM.constructor | src/main/java/org/eclipse/jetty/benchmark/ExecutionStrategy.java:149-150 | A new strategy is IDLE |
| BenchEwykSm.EatWhatYouKillSM.CasArrive | src/main/java/org/eclipse/jetty/benchmark/ExecutionStrategy.java:160-179 | The arrival loop makes exactly the transition of Arrive |
| BenchEwykSm.EatWhatYouKillSM.CasAfterNull | src/main/java/org/eclipse/jetty/benchmark/ExecutionStrategy.java:188-205 | The loop after a null answer makes exactly the transition of AfterNull |
| BenchEwykSm.EatWhatYouKillSM.CasAfterTask | src/main/java/org/eclipse/jetty/benchmark/ExecutionStrategy.java:210-227 | The loop after a task makes exactly the transition of AfterTask |
| BenchEwykSm.EatWhatYouKillSM.CasAfterRun | src/main/java/org/eclipse/jetty/benchmark/ExecutionStrategy.java:231-244 | The loop after the task has run makes exactly the transition of AfterRun |
| BenchEwykSm.EatWhatYouKillSM.Run | src/main/java/org/eclipse/jetty/benchmark/ExecutionStrategy.java:157-246 | From IDLE or PENDING, every task up to the next null runs inline, one successor is dispatched for the first, onAllScheduled() is called once, and the state ends IDLE if nothing was produced, PENDING otherwise. From REPRODUCING the state only becomes PRODUCING; from PRODUCING nothing changes |
| BenchEwykSmInterleavings.AdvanceThreadEffects | src/main/java/org/eclipse/jetty/benchmark/ExecutionStrategy.java:157-246 | One step moves only its own thread, and the state changes only at arrival, after an answer, at the separate PENDING write and after the run. Arrival goes on to produce exactly from IDLE or PENDING (160-179). produce() is its own step (184). After a null, IDLE and PENDING throw (202-203). As written, REPRODUCING moves to IDLE and PENDING is written in its own step (197-200), and onAllScheduled() follows in its own step (206). After a task, IDLE and PENDING throw (224-225). From PRODUCING the strategy is handed over (218) before the run (229); from REPRODUCING the task runs with no hand-off (220-223). After the run, the thread produces again exactly from PENDING (231-244) |
| BenchEwykSmInterleavings.StepEffects | src/main/java/org/eclipse/jetty/benchmark/ExecutionStrategy.java:157-162 | An outside run() adds one thread at its arrival loop and is owed. A queued copy of the strategy leaves the executor only as a new thread at that loop |
| BenchEwykSmInterleavings.RunKeepsInv | src/main/java/org/eclipse/jetty/benchmark/ExecutionStrategy.java:157-246 | Every step keeps the invariant. In both variants, successors, runs and onAllScheduled() calls are bounded by what was produced. Fused, one thread produces exactly while the state is PRODUCING or REPRODUCING, none fails, and nothing is lost |
| BenchEwykSmInterleavings.SingleProducer | src/main/java/org/eclipse/jetty/benchmark/ExecutionStrategy.java:160-179 | Fused, under every interleaving, no two threads produce at once, and one produces only while the state is PRODUCING or REPRODUCING |
| BenchEwykSmInterleavings.NeverFails | src/main/java/org/eclipse/jetty/benchmark/ExecutionStrategy.java:186-227 | Fused, under every interleaving, no thread throws IllegalStateException, neither after a null answer (202-203) nor after a task (224-225) |
| BenchEwykSmInterleavings.SuccessorPerTask | src/main/java/org/eclipse/jetty/benchmark/ExecutionStrategy.java:210-227 | In both variants, under every interleaving, at most one successor per produced task, only produced tasks run, and at most one onAllScheduled() per null answer |
| BenchEwykSmInterleavings.QuiescentIsSettled | src/main/java/org/eclipse/jetty/benchmark/ExecutionStrategy.java:186-207 | Fused, at rest, the state is IDLE or PENDING, every produced task has run exactly once, and onAllScheduled() has answered every null exactly once |
| BenchEwykSmInterleavings.TwoProducers | src/main/java/org/eclipse/jetty/benchmark/ExecutionStrategy.java:197-200 | As written, a concrete interleaving has two threads holding production and calling produce() at once |
| BenchEwykSmInterleavings.ProducerFails | src/main/java/org/eclipse/jetty/benchmark/ExecutionStrategy.java:221-225 | Continuing that interleaving, the second producer throws IllegalStateException, and its task is produced but neither run nor held by any thread |
| BenchEwykSmInterleavings.CallLostWhileProducing | src/main/java/org/eclipse/jetty/benchmark/ExecutionStrategy.java:176-177 | In both variants, a run() that arrives in PRODUCING leaves; after the producer's null the strategy rests IDLE with the call owed and a task still to give |

## Left out

- The Java memory model: every step is atomic and sequentially consistent. A volatile or atomic access is one step; no reordering is modelled.
- Task bodies: running a task is one event that records it.
- The executor and its thread pool: a queue (a multiset or a count) of runnables, started one at a time by an event.
- `SpinLock` internals, logging and `toString()`.
- Failed iterations of the compare-and-set retry loops: they read the state again and change nothing, so they are the stuttering steps of the model.
- `produce()` and `task.run()` throwing. The util `execute()`'s finally block is modelled only on the paths without an exception: after a task, and at the null break.
- The selector-style external resumption that the `Producer` documentation asks implementations to arrange after a null is not part of this model. The `owed` flag records instead that such a call arrived.
- `ExecutionStrategy.Factory`, the benchmark drivers (`EWYKBenchmark`, `LockBenchmark`), `TestServer` and `TestConnection`. Only the idea of a producer that yields its tasks and then null is kept.
- Outside threads calling `ExecuteProduceConsume.run()` directly: in the interleaving model, `run()` is entered only by the successor the strategy dispatched. `Epc.ExecuteProduceConsume.Run` covers a direct call by one thread.
- Epc.ExecuteProduceConsume.Execute, Dispatch, Run and ProduceAndRun: these describe one thread with nobody interleaving. What they do under interleaving is stated by the EpcInterleavings lemmas, which are built from the same section functions.
- UtilEwyk.EatWhatYouKill.Execute, BenchEwyk.EatWhatYouKill.Run and BenchEwykSm.EatWhatYouKillSM.Run: these likewise describe one thread. Their interleaving modules restate each atomic step as a function.
- UtilEwyk.EatWhatYouKill.Dispatch: its contract only says that one runnable goes to the executor and that the caller runs nothing, because the executor is not modelled beyond that count.
- BenchEwykSmInterleavings.SingleProducer, NeverFails and QuiescentIsSettled: these are proved only for the fused transition, since TwoProducers and ProducerFails refute them as written.

## Findings

| source | as written | input that shows it | evidently intended | confidence | as-written member | corrected member |
|---|---|---|---|---|---|---|
| src/main/java/org/eclipse/jetty/benchmark/ExecutionStrategy.java:197-200 | After a null answer in REPRODUCING, the thread moves the state to IDLE by compare-and-set and only then writes PENDING as a separate step | Script `[1, null, 2, 3]`. Thread 0 produces task 1, queues a successor, runs the task and then gets null, moving REPRODUCING to IDLE. An outside `run()` wins IDLE. Thread 0 writes PENDING, and the queued successor wins PENDING. Two threads now produce at once; when both get tasks, the second finds PENDING, throws IllegalStateException and loses its task | A single compare-and-set from REPRODUCING to PENDING, so that no arrival sees IDLE in between | not executed | BenchEwykSmInterleavings.TwoProducers | BenchEwykSmInterleavings.SingleProducer |

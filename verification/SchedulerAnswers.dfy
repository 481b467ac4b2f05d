/**
  Every accepted request is answered: in a run in which workers keep moving, a caller
  that waits for its outcome is woken for good, and returns when it looks. And once
  nothing more is submitted, the scheduler comes to rest and lets those through that
  wait for idle.
 */
module SchedulerAnswers {
  import opened Sequences
  import opened ApplyResults
  import opened Scheduler

  ghost predicate Awake(s: State, t: ThreadId) {
    t in s.waiters && (s.waiters[t].pc == Checking || s.waiters[t].pc.Returned?)
  }

  lemma WaiterStays(s: State, step: Step, t: ThreadId)
    requires Enabled(s, step) && t in s.waiters
    ensures t in Do(s, step).waiters && Do(s, step).waiters[t].id == s.waiters[t].id
  {
    if step.SubmitFinish? || step.WorkerNext? {
      NotifiedStays(s, step, t);
    } else if step.WaitArrive? || step.WaitCheck? || step.WaitSleep? {
      LookingStays(s, step, t);
    }
  }

  lemma NotifiedStays(s: State, step: Step, t: ThreadId)
    requires Enabled(s, step) && t in s.waiters && (step.SubmitFinish? || step.WorkerNext?)
    ensures t in Do(s, step).waiters && Do(s, step).waiters[t].id == s.waiters[t].id
  {
    assert Do(s, step).waiters == NotifyWaiters(s.waiters);
  }

  lemma LookingStays(s: State, step: Step, t: ThreadId)
    requires Enabled(s, step) && t in s.waiters && (step.WaitArrive? || step.WaitCheck? || step.WaitSleep?)
    ensures t in Do(s, step).waiters && Do(s, step).waiters[t].id == s.waiters[t].id
  {
  }

  lemma {:induction false} WaiterKept(states: seq<State>, steps: seq<Step>, i: nat, k: nat, t: ThreadId)
    requires Run(states, steps) && i <= k < |states| && t in states[i].waiters
    ensures t in states[k].waiters && states[k].waiters[t].id == states[i].waiters[t].id
    decreases k
  {
    if i < k {
      WaiterKept(states, steps, i, k - 1, t);
      assert StepAt(states, steps, k - 1);
      WaiterStays(states[k - 1], steps[k - 1], t);
    }
  }

  // ---- Rest -----------------------------------------------------------------------------------

  /** No worker is left, and no submission holds the lock. */
  predicate AtRest(s: State) {
    s.workers == map[] && !s.lock.HeldBySubmit?
  }

  /** At rest the scheduler is idle, every request is finished, and nobody sleeps. */
  lemma RestIsIdle(states: seq<State>, steps: seq<Step>, k: nat)
    requires Run(states, steps) && k < |states| && AtRest(states[k])
    ensures !Busy(states[k]) && !NotifyOwed(states[k])
    ensures forall t :: t in states[k].submitters ==> !states[k].submitters[t].asleep
    ensures forall id :: !Unfinished(states[k], id)
  {
    RunInv(states, steps, k);
    forall id
      ensures !Live(states[k], id)
    {
      assert forall w: ThreadId :: !Unrecorded(states[k], w, id);
    }
  }

  // ---- Waiting for an outcome -------------------------------------------------------------------

  /** Nobody goes to sleep on a finished request. */
  lemma AwakeStays(s: State, step: Step, t: ThreadId)
    requires Enabled(s, step) && Awake(s, t) && !Unfinished(s, s.waiters[t].id)
    requires s.lock.HeldByWait? ==> s.lock.waiter in s.waiters && s.waiters[s.lock.waiter].pc == GoingToSleep
    ensures Awake(Do(s, step), t)
  {
  }

  lemma StillAwake(states: seq<State>, steps: seq<Step>, k: nat, t: ThreadId)
    requires Run(states, steps) && k < |steps| && Awake(states[k], t) && !Unfinished(states[k], states[k].waiters[t].id)
    ensures Awake(states[k + 1], t)
  {
    RunInv(states, steps, k);
    assert StepAt(states, steps, k);
    AwakeStays(states[k], steps[k], t);
  }

  lemma IsNotified(states: seq<State>, steps: seq<Step>, k: nat, t: ThreadId)
    requires Run(states, steps) && k < |steps| && NotifyOwed(states[k]) && t in states[k].waiters
    ensures if IsWorkerStep(steps[k]) then Awake(states[k + 1], t) else NotifyOwed(states[k + 1])
  {
    RunInv(states, steps, k);
    assert StepAt(states, steps, k);
    NotifyIsGiven(states[k], steps[k], t);
  }

  /** The worker that owes a notify gives it with its next step; until then the debt stays. */
  lemma NotifyIsGiven(s: State, step: Step, t: ThreadId)
    requires SlotsInv(s) && WakeInv(s) && Enabled(s, step) && NotifyOwed(s) && t in s.waiters
    ensures if IsWorkerStep(step) then Awake(Do(s, step), t) else NotifyOwed(Do(s, step))
  {
    var w :| w in s.workers && s.workers[w].Notifying?;
    if IsWorkerStep(step) {
      assert step == WorkerNext(w);
    } else {
      assert w in Do(s, step).workers && Do(s, step).workers[w] == s.workers[w];
    }
  }

  /** A caller sleeps on only while its request is unfinished, or for the one worker step that owes it a notify. */
  lemma {:induction false} SleepsNoLonger(states: seq<State>, steps: seq<Step>, i: nat, k: nat, t: ThreadId)
    requires Run(states, steps) && i <= k < |states| && t in states[i].waiters && Unfinished(states[i], states[i].waiters[t].id)
    ensures t in states[k].waiters
    ensures || Unfinished(states[k], states[i].waiters[t].id) || Awake(states[k], t)
            || (NotifyOwed(states[k]) && WorkerSteps(steps[i..k]) <= 9)
    decreases k
  {
    WaiterKept(states, steps, i, k, t);
    var id := states[i].waiters[t].id;
    if i < k && !Unfinished(states[k], id) && !Awake(states[k], t) {
      WaiterKept(states, steps, i, k - 1, t);
      SleepsNoLonger(states, steps, i, k - 1, t);
      WorkerStepsSplit(steps, i, k);
      if Unfinished(states[k - 1], id) {
        WorkersFinish(states, steps, i, k - 1, id);
        SleeperIsOwed(states, steps, k, t);
      } else if Awake(states[k - 1], t) {
        StillAwake(states, steps, k - 1, t);
      } else {
        IsNotified(states, steps, k - 1, t);
      }
    }
  }

  lemma SleeperIsOwed(states: seq<State>, steps: seq<Step>, k: nat, t: ThreadId)
    requires Run(states, steps) && k < |states| && t in states[k].waiters
    requires !Unfinished(states[k], states[k].waiters[t].id) && !Awake(states[k], t)
    ensures NotifyOwed(states[k])
  {
    RunInv(states, steps, k);
  }

  /**
    Ten worker steps after a caller began to wait for an unfinished request, or once no
    work is left, however other threads interleave: the request is finished and the
    caller awake for good; the next time it looks, it returns, with the final outcome if a
    record is kept.
  */
  lemma AcceptedWaitReturns(states: seq<State>, steps: seq<Step>, i: nat, j: nat, l: nat, t: ThreadId)
    requires Run(states, steps) && i <= j <= l < |steps| && t in states[i].waiters
    requires Unfinished(states[i], states[i].waiters[t].id) && (WorkerSteps(steps[i..j]) >= 10 || AtRest(states[j]))
    ensures !Unfinished(states[j], states[i].waiters[t].id) && Awake(states[j], t) && Awake(states[l], t)
    ensures states[l].lock.Free? && states[l].waiters[t].pc == Checking ==> Enabled(states[l], WaitCheck(t))
    ensures steps[l] == WaitCheck(t) ==>
              t in states[l + 1].waiters &&
              var w := states[l + 1].waiters[t];
              && w.pc.Returned? && (w.pc.record.None? <==> w.id !in states[l].table)
              && (w.pc.record.Some? && w.id in states[l].history.outcome ==> w.pc.record.value.status == states[l].history.outcome[w.id])
  {
    var id := states[i].waiters[t].id;
    if AtRest(states[j]) {
      RestIsIdle(states, steps, j);
    } else if Unfinished(states[j], id) {
      WorkersFinish(states, steps, i, j, id);
    }
    SleepsNoLonger(states, steps, i, j, t);
    FinishedForGood(states, steps, i, j, l, id);
    AwakeForGood(states, steps, i, j, l, t);
    assert StepAt(states, steps, l);
    WaiterKept(states, steps, i, l, t);
    if steps[l] == WaitCheck(t) {
      WaitReturns(states, steps, l);
      WaiterStays(states[l], steps[l], t);
    }
  }

  lemma {:induction false} AwakeForGood(states: seq<State>, steps: seq<Step>, i: nat, j: nat, l: nat, t: ThreadId)
    requires Run(states, steps) && i <= j <= l < |states| && t in states[i].waiters
    requires Unfinished(states[i], states[i].waiters[t].id) && !Unfinished(states[j], states[i].waiters[t].id) && Awake(states[j], t)
    ensures Awake(states[l], t)
    decreases l
  {
    if j < l {
      AwakeForGood(states, steps, i, j, l - 1, t);
      FinishedForGood(states, steps, i, j, l - 1, states[i].waiters[t].id);
      WaiterKept(states, steps, i, l - 1, t);
      StillAwake(states, steps, l - 1, t);
    }
  }

  // ---- Waiting for idle ---------------------------------------------------------------------------

  /** No job is submitted by the steps from `i` to `k`. */
  ghost predicate NoneSubmitted(states: seq<State>, steps: seq<Step>, i: nat, k: nat)
    requires Run(states, steps) && i <= k <= |steps|
  {
    forall j {:trigger StepAt(states, steps, j)} :: i <= j < k ==> StepAt(states, steps, j) && Created(states[j], steps[j]).None?
  }

  /** How many more worker steps there can be while nothing is submitted. */
  ghost function WorkLeft(s: State): nat {
    Phase(s) + (if s.pending.Some? then 4 else 0) + (if s.lock.HeldBySubmit? then 4 else 0)
  }

  lemma WorkShrinks(s: State, step: Step)
    requires Inv(s) && Enabled(s, step) && Created(s, step).None?
    ensures WorkLeft(Do(s, step)) <= WorkLeft(s) - if IsWorkerStep(step) then 1 else 0
  {
    if IsWorkerStep(step) {
      WorkerWorks(s, step);
    } else if step.SubmitFinish? {
      FinishMovesWork(s, step);
    } else {
      OthersLeaveWork(s, step);
    }
  }

  lemma SamePhase(s: State, t: State)
    requires SlotsInv(s) && SlotsInv(t) && s.workers == t.workers
    ensures Phase(s) == Phase(t)
  {
    if w :| w in s.workers {
      PhaseIs(s, w);
      PhaseIs(t, w);
    }
  }

  lemma OthersLeaveWork(s: State, step: Step)
    requires SlotsInv(s) && Enabled(s, step) && Created(s, step).None? && !IsWorkerStep(step) && !step.SubmitFinish?
    ensures WorkLeft(Do(s, step)) <= WorkLeft(s)
  {
    SlotsKept(s, step);
    SamePhase(s, Do(s, step));
  }

  lemma WorkerWorks(s: State, step: Step)
    requires SlotsInv(s) && Enabled(s, step) && IsWorkerStep(step)
    ensures WorkLeft(Do(s, step)) < WorkLeft(s)
  {
    var t := Do(s, step);
    SlotsKept(s, step);
    PhaseIs(s, step.worker);
    if step.worker in t.workers {
      PhaseIs(t, step.worker);
    } else {
      assert Phase(t) == 0;
    }
  }

  lemma FinishMovesWork(s: State, step: Step)
    requires SlotsInv(s) && Enabled(s, step) && step.SubmitFinish?
    ensures WorkLeft(Do(s, step)) <= WorkLeft(s)
  {
    var t := Do(s, step);
    SlotsKept(s, step);
    if s.running.None? && step.threadStarts {
      PhaseIs(t, step.worker);
      assert Phase(s) == 0;
    } else {
      SamePhase(s, t);
    }
  }

  lemma WorkBound(s: State)
    requires Inv(s)
    ensures WorkLeft(s) <= 12 && (WorkLeft(s) == 0 <==> AtRest(s))
  {
    if w :| w in s.workers {
      PhaseIs(s, w);
    } else {
      assert s.workers == map[];
    }
  }

  lemma {:induction false} WorkersComeToRest(states: seq<State>, steps: seq<Step>, i: nat, k: nat)
    requires Run(states, steps) && i <= k < |states| && NoneSubmitted(states, steps, i, k)
    ensures WorkerSteps(steps[i..k]) + WorkLeft(states[k]) <= WorkLeft(states[i])
    decreases k
  {
    if i < k {
      WorkersComeToRest(states, steps, i, k - 1);
      assert StepAt(states, steps, k - 1);
      RunInv(states, steps, k - 1);
      WorkShrinks(states[k - 1], steps[k - 1]);
      WorkerStepsSplit(steps, i, k);
    }
  }

  /** Until it is at rest, a worker can move, or the thread that holds the lock can release it. */
  lemma WorkGoesOn(states: seq<State>, steps: seq<Step>, k: nat)
    requires Run(states, steps) && k < |states| && !AtRest(states[k])
    ensures exists step :: Enabled(states[k], step) && (IsWorkerStep(step) || Releases(states[k], step))
  {
    RunInv(states, steps, k);
    SomeoneMoves(states[k]);
  }

  /**
    While nothing more is submitted there are at most twelve worker steps, one of them or
    the release of the lock is possible until the scheduler is at rest, and it stays at
    rest. From then on nobody sleeps, and a caller that waited for idle does not wait at
    its next look: it is accepted if its record can be written.
  */
  lemma IdleWaitersGetThrough(states: seq<State>, steps: seq<Step>, i: nat, k: nat, l: nat, t: ThreadId)
    requires Run(states, steps) && i <= k <= l < |steps| && NoneSubmitted(states, steps, i, l)
    ensures WorkerSteps(steps[i..l]) <= 12
    ensures !AtRest(states[l]) ==> exists step :: Enabled(states[l], step) && (IsWorkerStep(step) || Releases(states[l], step))
    ensures AtRest(states[k]) ==>
              && AtRest(states[l]) && !Busy(states[l])
              && (forall u :: u in states[l].submitters ==> !states[l].submitters[u].asleep)
    ensures AtRest(states[k]) && steps[l].SubmitCheck? && steps[l].thread == t ==>
              && t !in states[l + 1].submitters
              && (states[l + 1].lock.HeldBySubmit? <==> steps[l].written && steps[l].id !in states[l].table)
  {
    RunInv(states, steps, i);
    WorkBound(states[i]);
    WorkersComeToRest(states, steps, i, l);
    if !AtRest(states[l]) {
      WorkGoesOn(states, steps, l);
    }
    if AtRest(states[k]) {
      RestLasts(states, steps, k, l);
      RestIsIdle(states, steps, l);
      if steps[l].SubmitCheck? {
        assert StepAt(states, steps, l);
        ChecksAtRest(states[l], steps[l]);
      }
    }
  }

  lemma RestLasts(states: seq<State>, steps: seq<Step>, k: nat, l: nat)
    requires Run(states, steps) && k <= l < |states| && NoneSubmitted(states, steps, k, l) && AtRest(states[k])
    ensures AtRest(states[l])
  {
    RunInv(states, steps, k);
    RunInv(states, steps, l);
    WorkBound(states[k]);
    WorkBound(states[l]);
    WorkersComeToRest(states, steps, k, l);
  }

  lemma ChecksAtRest(s: State, step: Step)
    requires !Busy(s) && Enabled(s, step) && step.SubmitCheck?
    ensures step.thread !in Do(s, step).submitters
    ensures Do(s, step).lock.HeldBySubmit? <==> step.written && step.id !in s.table
  {
  }
}

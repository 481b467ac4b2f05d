/**
  When the newest apply is not the last one begun: exactly when a plain reconcile was
  submitted while it was pending, or no thread could be started for it. A run for each
  is at the end.
 */
module SchedulerOvertaking {
  import opened Sequences
  import opened ApplyResults
  import opened Scheduler

  /** Step `i` submits a plain reconcile while `job` is pending. */
  ghost predicate Overtakes(states: seq<State>, steps: seq<Step>, i: nat, job: Job)
    requires i < |steps| < |states|
  {
    && steps[i].SubmitCheck? && states[i].pending == Some(job)
    && states[i + 1].lock.HeldBySubmit? && states[i + 1].lock.job.kind == Reconcile && !states[i + 1].lock.job.waitForIdle
  }

  /** Step `j` puts the submitted job in the place of the pending `job`. */
  ghost predicate Replaces(states: seq<State>, steps: seq<Step>, j: nat, job: Job)
    requires j < |steps| < |states|
  {
    steps[j].SubmitFinish? && states[j].lock.HeldBySubmit? && states[j].running.Some? && states[j].pending == Some(job)
  }

  /** Step `i` finds no worker for the submitted `job`, and cannot start one. */
  ghost predicate Refuses(states: seq<State>, steps: seq<Step>, i: nat, job: Job)
    requires i < |steps| < |states|
  {
    steps[i].SubmitFinish? && !steps[i].threadStarts && states[i].running.None? && states[i].lock == HeldBySubmit(job)
  }

  // ---- Refusals ------------------------------------------------------------------------------

  lemma RejectedByRefusal(s: State, step: Step, id: RequestId)
    requires Enabled(s, step)
    ensures id in Do(s, step).history.rejected <==>
            id in s.history.rejected
            || (step.SubmitFinish? && !step.threadStarts && s.running.None? && s.lock.job.id == id)
  {
  }

  /** A rejected job was refused a thread. */
  lemma {:induction false} WasRefused(states: seq<State>, steps: seq<Step>, k: nat, job: Job) returns (i: nat)
    requires Run(states, steps) && k < |states| && job.id in states[k].history.rejected && job in states[k].history.submitted
    ensures i < k && Refuses(states, steps, i, job)
  {
    var s, step := states[k - 1], steps[k - 1];
    assert StepAt(states, steps, k - 1);
    RunInv(states, steps, k - 1);
    RejectedByRefusal(s, step, job.id);
    if job.id in s.history.rejected {
      FinishedWasSubmitted(s, step, job);
      i := WasRefused(states, steps, k - 1, job);
    } else {
      HeldIs(s, job, Do(s, step).history);
      i := k - 1;
    }
  }

  lemma HeldIs(s: State, job: Job, later: History)
    requires Inv(s) && s.lock.HeldBySubmit? && s.lock.job.id == job.id && job in later.submitted
    requires later.submitted == s.history.submitted
    ensures s.lock.job == job
  {
    var i :| 0 <= i < |later.submitted| && later.submitted[i] == job;
  }

  lemma {:induction false} RefusedForGood(states: seq<State>, steps: seq<Step>, i: nat, k: nat, job: Job)
    requires Run(states, steps) && i < k < |states| && Refuses(states, steps, i, job)
    ensures job.id in states[k].history.rejected
    decreases k
  {
    assert StepAt(states, steps, k - 1);
    RejectedByRefusal(states[k - 1], steps[k - 1], job.id);
    if i < k - 1 {
      RefusedForGood(states, steps, i, k - 1, job);
    }
  }

  // ---- From the replacement back to the submission ----------------------------------------

  lemma SupersededByReplacing(s: State, step: Step, id: RequestId)
    requires Enabled(s, step) && id in Do(s, step).history.supersededBy && id !in s.history.supersededBy
    ensures step.SubmitFinish? && s.running.Some? && s.pending.Some? && s.pending.value.id == id
    ensures Do(s, step).history.supersededBy[id] == s.lock.job
  {
  }

  lemma SupersededStays(s: State, step: Step, id: RequestId)
    requires Enabled(s, step) && id in s.history.supersededBy && !(step.SubmitFinish? && s.pending.Some? && s.pending.value.id == id)
    ensures id in Do(s, step).history.supersededBy && Do(s, step).history.supersededBy[id] == s.history.supersededBy[id]
  {
  }

  /** A superseded job was replaced while it was pending. */
  lemma {:induction false} WasReplaced(states: seq<State>, steps: seq<Step>, k: nat, job: Job) returns (j: nat)
    requires Run(states, steps) && k < |states| && job.id in states[k].history.supersededBy && job in states[k].history.submitted
    ensures j < k && Replaces(states, steps, j, job) && states[j].lock.job == states[k].history.supersededBy[job.id]
  {
    var s, step := states[k - 1], steps[k - 1];
    assert StepAt(states, steps, k - 1);
    RunInv(states, steps, k - 1);
    if job.id !in s.history.supersededBy {
      SupersededByReplacing(s, step, job.id);
      PendingIs(s, job, states[k].history);
      j := k - 1;
    } else {
      OutcomeOfSuperseded(s, job.id);
      SupersededStays(s, step, job.id);
      FinishedWasSubmitted(s, step, job);
      j := WasReplaced(states, steps, k - 1, job);
    }
  }

  lemma PendingIs(s: State, job: Job, later: History)
    requires Inv(s) && s.pending.Some? && s.pending.value.id == job.id && job in later.submitted
    requires later.submitted == s.history.submitted
    ensures s.pending == Some(job)
  {
    assert IsSubmitted(s.history.submitted, s.pending.value);
    var i :| 0 <= i < |later.submitted| && later.submitted[i] == job;
  }

  lemma OutcomeOfSuperseded(s: State, id: RequestId)
    requires Inv(s) && id in s.history.supersededBy
    ensures s.pending.Some? ==> s.pending.value.id != id
  {
    assert id in s.history.outcome && !Live(s, id);
  }

  /** No step submits a job that already has its outcome. */
  lemma FinishedWasSubmitted(s: State, step: Step, job: Job)
    requires Inv(s) && Enabled(s, step) && job in Do(s, step).history.submitted && job.id in s.history.outcome
    ensures job in s.history.submitted
  {
    HistoryChange(s, step);
    assert s.history.outcome.Keys <= IdsOf(s.history.submitted);
  }

  /** The lock of a submission was taken by its check, with the slots as they still are. */
  lemma {:induction false} LockWasTaken(states: seq<State>, steps: seq<Step>, j: nat) returns (i: nat)
    requires Run(states, steps) && j < |states| && states[j].lock.HeldBySubmit?
    ensures i < j && steps[i].SubmitCheck? && states[i + 1].lock == states[j].lock && states[i].pending == states[j].pending
  {
    if j == 0 {
      assert false;
    }
    assert StepAt(states, steps, j - 1);
    LockHeld(states[j - 1], steps[j - 1]);
    if steps[j - 1].SubmitCheck? {
      i := j - 1;
    } else {
      i := LockWasTaken(states, steps, j - 1);
    }
  }

  lemma LockHeld(s: State, step: Step)
    requires Enabled(s, step) && Do(s, step).lock.HeldBySubmit?
    ensures Do(s, step).pending == s.pending
    ensures step.SubmitCheck? || Do(s, step).lock == s.lock
  {
  }

  // ---- From the submission on to the replacement --------------------------------------------

  lemma {:induction false} LockIsReleased(states: seq<State>, steps: seq<Step>, i: nat, k: nat, job: Job) returns (j: nat)
    requires Run(states, steps) && i < k < |states| && states[i].lock.HeldBySubmit? && states[k].lock.Free?
    requires states[i].pending == Some(job)
    ensures i <= j < k && Replaces(states, steps, j, job)
    decreases k - i
  {
    assert StepAt(states, steps, i);
    if steps[i].SubmitFinish? {
      RunningBehindPending(states, steps, i);
      j := i;
    } else {
      LockStays(states[i], steps[i]);
      j := LockIsReleased(states, steps, i + 1, k, job);
    }
  }

  lemma RunningBehindPending(states: seq<State>, steps: seq<Step>, i: nat)
    requires Run(states, steps) && i < |states| && states[i].pending.Some?
    ensures states[i].running.Some?
  {
    RunInv(states, steps, i);
  }

  lemma LockStays(s: State, step: Step)
    requires Enabled(s, step) && s.lock.HeldBySubmit? && !step.SubmitFinish?
    ensures Do(s, step).lock == s.lock && Do(s, step).pending == s.pending
  {
  }

  lemma {:induction false} ReplacedIsSuperseded(states: seq<State>, steps: seq<Step>, j: nat, k: nat, job: Job)
    requires Run(states, steps) && j < k < |states| && Replaces(states, steps, j, job)
    ensures job.id in states[k].history.supersededBy
  {
    RunInv(states, steps, k);
    assert StepAt(states, steps, j);
    OutcomePersists(states, steps, j + 1, k, job.id);
  }

  lemma OvertakenIsSuperseded(states: seq<State>, steps: seq<Step>, i: nat, k: nat, job: Job)
    requires Run(states, steps) && i < k < |states| && Overtakes(states, steps, i, job) && states[k].lock.Free?
    ensures job.id in states[k].history.supersededBy
  {
    assert StepAt(states, steps, i);
    LockHeld(states[i], steps[i]);
    var j := LockIsReleased(states, steps, i + 1, k, job);
    ReplacedIsSuperseded(states, steps, j, k, job);
  }

  lemma WasOvertaken(states: seq<State>, steps: seq<Step>, k: nat, job: Job)
    requires Run(states, steps) && k < |states| && job in states[k].history.submitted
    requires job.id in states[k].history.supersededBy && states[k].history.supersededBy[job.id].kind == Reconcile
    ensures exists i :: 0 <= i < k && Overtakes(states, steps, i, job)
  {
    RunInv(states, steps, k);
    var j := WasReplaced(states, steps, k, job);
    var i := LockWasTaken(states, steps, j);
    assert !states[k].history.supersededBy[job.id].waitForIdle;
    assert Overtakes(states, steps, i, job);
  }

  // ---- The exact condition --------------------------------------------------------------------

  /**
    At idle, the last apply begun differs from the newest one submitted if and only if a
    plain reconcile was submitted while that newest apply was pending, or that newest
    apply was refused a thread.
   */
  lemma LastAppliedDiffersIff(states: seq<State>, steps: seq<Step>, k: nat, newest: Job)
    requires Run(states, steps) && k < |states| && !Busy(states[k]) && states[k].lock.Free?
    requires states[k].history.newestApply == Some(newest)
    ensures states[k].history.lastApplyRun != Some(newest) <==>
            exists i :: 0 <= i < k && (Overtakes(states, steps, i, newest) || Refuses(states, steps, i, newest))
  {
    RunInv(states, steps, k);
    LastAppliedIsNewest(states, steps, k);
    assert newest in states[k].history.submitted;
    if newest.id in states[k].history.supersededBy {
      WasOvertaken(states, steps, k, newest);
    } else if newest.id in states[k].history.rejected {
      var i := WasRefused(states, steps, k, newest);
    }
    if i :| 0 <= i < k && Overtakes(states, steps, i, newest) {
      OvertakenIsSuperseded(states, steps, i, k, newest);
    } else if i :| 0 <= i < k && Refuses(states, steps, i, newest) {
      RefusedForGood(states, steps, i, k, newest);
    }
  }

  // ---- A run in which it happens ----------------------------------------------------------------

  ghost predicate Reachable(s: State) {
    exists states, steps :: Run(states, steps) && states[|steps|] == s
  }

  lemma ReachOn(s: State, step: Step, t: State)
    requires Reachable(s) && Enabled(s, step) && t == Do(s, step)
    ensures Reachable(t)
  {
    var states, steps :| Run(states, steps) && states[|steps|] == s;
    var longer, more := states + [t], steps + [step];
    forall i | 0 <= i < |more|
      ensures StepAt(longer, more, i)
    {
      assert i < |steps| ==> StepAt(states, steps, i);
    }
    assert Run(longer, more) && longer[|more|] == t;
  }

  /** No caller is about, the lock is free, and only these ids have been used. */
  ghost predicate Quiet(s: State, used: set<RequestId>) {
    && Reachable(s) && s.lock.Free? && s.submitters == map[] && s.history.rejected == {}
    && s.table.Keys <= used && IdsOf(s.history.submitted) <= used
  }

  /** One submission that does not wait: it runs, or it pends, in the place of what pended. */
  lemma Submits(s: State, used: set<RequestId>, id: RequestId, kind: Kind, worker: ThreadId) returns (t: State, job: Job)
    requires Quiet(s, used) && id !in used && worker !in s.workers
    ensures Quiet(t, used + {id}) && job.id == id && job.kind == kind
    ensures if s.running.None? then t.running == Some(job) && t.pending == s.pending && t.workers == s.workers[worker := Starting(job)]
            else t.running == s.running && t.pending == Some(job) && t.workers == s.workers
    ensures t.history.newestApply == (if kind == Apply then Some(job) else s.history.newestApply)
    ensures t.history.lastApplyRun == s.history.lastApplyRun
  {
    var submission := Submission(kind, 0, false, false);
    var arrived := Do(s, Arrive(0, submission));
    ReachOn(s, Arrive(0, submission), arrived);
    assert forall j :: j in s.history.submitted ==> j.id in IdsOf(s.history.submitted);
    var held := Do(arrived, SubmitCheck(0, id, 0, true));
    ReachOn(arrived, SubmitCheck(0, id, 0, true), held);
    job := held.lock.job;
    assert held.history.submitted == s.history.submitted + [job];
    assert held.submitters == map[];
    t := Finishes(held, used + {id}, worker);
  }

  lemma Finishes(s: State, used: set<RequestId>, worker: ThreadId) returns (t: State)
    requires Reachable(s) && s.lock.HeldBySubmit? && s.submitters == map[] && s.history.rejected == {}
    requires s.table.Keys <= used && IdsOf(s.history.submitted) <= used && worker !in s.workers
    ensures Quiet(t, used) && t.history.newestApply == s.history.newestApply && t.history.lastApplyRun == s.history.lastApplyRun
    ensures if s.running.None? then t.running == Some(s.lock.job) && t.pending == s.pending && t.workers == s.workers[worker := Starting(s.lock.job)]
            else t.running == s.running && t.pending == Some(s.lock.job) && t.workers == s.workers
  {
    var step := SubmitFinish(worker, true, 0);
    t := Do(s, step);
    ReachOn(s, step, t);
    assert t.submitters == map[];
  }

  /** A worker runs its job to the end and takes the pending one, if there is one. */
  lemma Works(s: State, used: set<RequestId>, worker: ThreadId, job: Job) returns (t: State)
    requires Quiet(s, used) && s.workers == map[worker := Starting(job)]
    ensures Quiet(t, used) && t.running == s.pending && t.pending == None
    ensures t.workers == if s.pending.Some? then map[worker := Starting(s.pending.value)] else map[]
    ensures t.history.newestApply == s.history.newestApply
    ensures t.history.lastApplyRun == if job.kind == Apply then Some(job) else s.history.lastApplyRun
  {
    var running := Do(s, WorkerBegin(worker, 0));
    ReachOn(s, WorkerBegin(worker, 0), running);
    var ended := Do(running, WorkerEnd(worker, Succeeded));
    ReachOn(running, WorkerEnd(worker, Succeeded), ended);
    t := Records(ended, used, worker, job);
  }

  lemma Records(s: State, used: set<RequestId>, worker: ThreadId, job: Job) returns (t: State)
    requires Quiet(s, used) && s.workers == map[worker := Ended(job, Succeeded)]
    ensures Quiet(t, used) && t.running == s.pending && t.pending == None
    ensures t.workers == if s.pending.Some? then map[worker := Starting(s.pending.value)] else map[]
    ensures t.history.newestApply == s.history.newestApply && t.history.lastApplyRun == s.history.lastApplyRun
  {
    var recorded := Do(s, WorkerRecord(worker, true, 0));
    ReachOn(s, WorkerRecord(worker, true, 0), recorded);
    assert recorded.workers == map[worker := Notifying(job)];
    t := Do(recorded, WorkerNext(worker));
    ReachOn(recorded, WorkerNext(worker), t);
    assert t.submitters == map[];
  }

  /**
    Two applies and a plain reconcile, submitted while the first apply runs: the second
    apply never runs, and the first one is the last begun when the device is idle again.
   */
  lemma NewestApplyMayNeverRun() returns (states: seq<State>, steps: seq<Step>)
    ensures Run(states, steps)
    ensures var s := states[|steps|];
            !Busy(s) && s.lock.Free? && s.history.rejected == {} && s.history.newestApply.Some? && s.history.lastApplyRun != s.history.newestApply
  {
    var h := History([], [], {}, map[], map[], None, None);
    var start := State(32, map[], None, None, map[], Free, map[], map[], h);
    var none: seq<Step> := [];
    assert Run([start], none) && [start][|none|] == start;
    var one, first := Submits(start, {}, 1, Apply, 0);
    var two, second := Submits(one, {1}, 2, Apply, 1);
    var three, plain := Submits(two, {1, 2}, 3, Reconcile, 1);
    var four := Works(three, {1, 2, 3}, 0, first);
    var five := Works(four, {1, 2, 3}, 0, plain);
    states, steps :| Run(states, steps) && states[|steps|] == five;
  }

  /** An apply for which no thread starts: it is the newest one, and the device is idle with no apply ever begun. */
  lemma NewestApplyMayBeRefused() returns (states: seq<State>, steps: seq<Step>)
    ensures Run(states, steps)
    ensures var s := states[|steps|];
            !Busy(s) && s.lock.Free? && s.history.supersededBy == map[] && s.history.newestApply.Some? && s.history.lastApplyRun == None
  {
    var h := History([], [], {}, map[], map[], None, None);
    var start := State(32, map[], None, None, map[], Free, map[], map[], h);
    var none: seq<Step> := [];
    assert Run([start], none) && [start][|none|] == start;
    var arrived := Do(start, Arrive(0, Submission(Apply, 0, false, false)));
    ReachOn(start, Arrive(0, Submission(Apply, 0, false, false)), arrived);
    var held := Do(arrived, SubmitCheck(0, 1, 0, true));
    ReachOn(arrived, SubmitCheck(0, 1, 0, true), held);
    var refused := Do(held, SubmitFinish(0, false, 0));
    ReachOn(held, SubmitFinish(0, false, 0), refused);
    states, steps :| Run(states, steps) && states[|steps|] == refused;
  }
}

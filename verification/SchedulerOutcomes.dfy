/**
  What the records of the scheduler say, in terms of the steps of a run: the status with
  which a body ended, the running and queued ones while they last, and the jobs in the
  order of their steps.
 */
module SchedulerOutcomes {
  import opened Sequences
  import opened ApplyResults
  import opened Scheduler
  import opened SchedulerOvertaking

  // ---- What a step does to the slots and to one record -------------------------------------

  /** An accepted submission carries what was asked for, and its record is queued. */
  lemma AcceptedAsAsked(s: State, step: Step)
    requires Enabled(s, step) && step.SubmitCheck? && Do(s, step).lock.HeldBySubmit?
    ensures var job, asked, t := Do(s, step).lock.job, s.submitters[step.thread], Do(s, step);
            && job == Job(step.id, |s.history.submitted|, asked.kind, asked.payload, asked.waitForIdle)
            && t.history.submitted == s.history.submitted + [job]
            && step.id !in s.table && t.table == s.table[step.id := Record(asked.kind, Queued, false, step.now, step.now)]
            && (asked.waitForIdle ==> s.running.None? && s.pending.None?)
  {
  }

  /** It runs when nothing does and a thread starts; else it pends. */
  lemma SubmittedTakesSlot(s: State, step: Step)
    requires Enabled(s, step) && step.SubmitFinish?
    ensures var job, t := s.lock.job, Do(s, step);
            if s.running.Some? then t.running == s.running && t.pending == Some(job) && t.workers == s.workers
            else if step.threadStarts then
              t.running == Some(job) && t.pending == s.pending && t.workers == s.workers[step.worker := Starting(job)]
            else t.running == None && t.pending == s.pending && t.workers == s.workers
  {
  }

  lemma PendingRunsNext(s: State, step: Step)
    requires Enabled(s, step) && step.WorkerNext?
    ensures var t := Do(s, step);
            && t.running == s.pending && t.pending == None && t.table == s.table
            && t.workers == if s.pending.Some? then s.workers[step.worker := Starting(s.pending.value)] else s.workers - {step.worker}
  {
  }

  /** A record that a step changes has the status and flag of that step; the kind and the creation time stay. */
  ghost predicate ShowsOnly(was: Table, now: Table, id: RequestId, status: Status, applied: bool, at: int) {
    && id in was
    && (id in now ==> now[id] == Record(was[id].kind, status, applied, was[id].createdAt, at))
    && (forall other :: other in now && other != id ==> other in was && now[other] == was[other])
  }

  lemma BeginShows(s: State, step: Step)
    requires Inv(s) && Enabled(s, step) && step.WorkerBegin?
    ensures ShowsOnly(s.table, Do(s, step).table, s.workers[step.worker].job.id, Running, false, step.now)
    ensures Do(s, step).workers == s.workers[step.worker := InBody(s.workers[step.worker].job)]
  {
    var job := s.workers[step.worker].job;
    assert Unrecorded(s, step.worker, job.id);
    UpdateKeeps(s.table, s.limit, job.id, Running, false, step.now, Do(s, step).table);
  }

  lemma RecordShows(s: State, step: Step)
    requires Inv(s) && Enabled(s, step) && step.WorkerRecord?
    ensures var w := s.workers[step.worker];
            && ShowsOnly(s.table, Do(s, step).table, w.job.id, w.status, step.applied, step.now)
            && Do(s, step).history.outcome == s.history.outcome[w.job.id := w.status]
            && Do(s, step).workers == s.workers[step.worker := Notifying(w.job)]
  {
    var w := s.workers[step.worker];
    assert Unrecorded(s, step.worker, w.job.id);
    UpdateKeeps(s.table, s.limit, w.job.id, w.status, step.applied, step.now, Do(s, step).table);
  }

  lemma SupersedeShows(s: State, step: Step)
    requires Inv(s) && Enabled(s, step) && step.SubmitFinish? && s.running.Some? && s.pending.Some?
    ensures ShowsOnly(s.table, Do(s, step).table, s.pending.value.id, Superseded, false, step.now)
    ensures Do(s, step).history.outcome == s.history.outcome[s.pending.value.id := Superseded]
  {
    assert Live(s, s.pending.value.id);
    UpdateKeeps(s.table, s.limit, s.pending.value.id, Superseded, false, step.now, Do(s, step).table);
  }

  lemma RefusalShows(s: State, step: Step)
    requires Inv(s) && Enabled(s, step) && step.SubmitFinish? && s.running.None? && !step.threadStarts
    ensures ShowsOnly(s.table, Do(s, step).table, s.lock.job.id, Failed, false, step.now)
    ensures Do(s, step).history.outcome == s.history.outcome[s.lock.job.id := Failed]
  {
    assert Live(s, s.lock.job.id);
    UpdateKeeps(s.table, s.limit, s.lock.job.id, Failed, false, step.now, Do(s, step).table);
  }

  /** No step changes the record of a request that has its outcome. */
  lemma FinishedRecordStays(s: State, step: Step, id: RequestId)
    requires Inv(s) && Enabled(s, step) && id in s.history.outcome && id in Do(s, step).table
    ensures id in s.table && Do(s, step).table[id] == s.table[id]
  {
    FinishedIsNotNew(s, step, id);
    TableChange(s, step);
    if id in s.table {
      FinishedStaysTerminal(s, id);
    }
    KeptByTable(s, step, Do(s, step), id);
  }

  lemma KeptByTable(s: State, step: Step, t: State, id: RequestId)
    requires Enabled(s, step) && t == Do(s, step) && TableChanges(s, step) && id in t.table
    requires Created(s, step) != Some(id) && (id in s.table ==> s.table[id].status.Terminal())
    ensures id in s.table && t.table[id] == s.table[id]
  {
  }

  lemma FinishedIsNotNew(s: State, step: Step, id: RequestId)
    requires Inv(s) && Enabled(s, step) && id in s.history.outcome
    ensures Created(s, step) != Some(id)
  {
    HistoryChange(s, step);
    var job :| job in s.history.submitted && job.id == id;
  }

  lemma FinishedStaysTerminal(s: State, id: RequestId)
    requires Inv(s) && id in s.history.outcome && id in s.table
    ensures s.table[id].status.Terminal()
  {
  }

  // ---- The record of a body -----------------------------------------------------------------

  /** Worker `w` begins the body of `job` with step `b` and ends it with step `e`. */
  ghost predicate RunsBody(states: seq<State>, steps: seq<Step>, w: ThreadId, job: Job, b: nat, e: nat)
    requires |steps| < |states|
  {
    && b < e < |steps|
    && steps[b].WorkerBegin? && steps[b].worker == w && w in states[b].workers && states[b].workers[w] == Starting(job)
    && steps[e].WorkerEnd? && steps[e].worker == w && w in states[e].workers && states[e].workers[w] == InBody(job)
  }

  /** Step `r` records the end of that body. */
  ghost predicate RecordsBody(states: seq<State>, steps: seq<Step>, w: ThreadId, job: Job, e: nat, r: nat)
    requires |steps| < |states|
  {
    e < r < |steps| && steps[r].WorkerRecord? && steps[r].worker == w && w in states[r].workers && states[r].workers[w].job == job
  }

  lemma WorkerMoves(s: State, step: Step, w: ThreadId)
    requires Enabled(s, step) && w in Do(s, step).workers
    requires Do(s, step).workers[w].InBody? || Do(s, step).workers[w].Ended?
    ensures w in s.workers && s.workers[w].job == Do(s, step).workers[w].job
    ensures || s.workers[w] == Do(s, step).workers[w]
            || (step.WorkerBegin? && step.worker == w && s.workers[w].Starting? && Do(s, step).workers[w].InBody?)
            || (step.WorkerEnd? && step.worker == w && s.workers[w].InBody? && Do(s, step).workers[w].Ended?
                && Do(s, step).workers[w].status == step.status)
  {
  }

  lemma {:induction false} BodyWasBegun(states: seq<State>, steps: seq<Step>, k: nat, w: ThreadId) returns (b: nat)
    requires Run(states, steps) && k < |states| && w in states[k].workers && states[k].workers[w].InBody?
    ensures b < k && steps[b].WorkerBegin? && steps[b].worker == w
    ensures w in states[b].workers && states[b].workers[w] == Starting(states[k].workers[w].job)
  {
    if k == 0 {
      assert false;
    }
    assert StepAt(states, steps, k - 1);
    WorkerMoves(states[k - 1], steps[k - 1], w);
    if states[k - 1].workers[w].InBody? {
      b := BodyWasBegun(states, steps, k - 1, w);
    } else {
      b := k - 1;
    }
  }

  lemma {:induction false} BodyWasEnded(states: seq<State>, steps: seq<Step>, k: nat, w: ThreadId) returns (b: nat, e: nat)
    requires Run(states, steps) && k < |states| && w in states[k].workers && states[k].workers[w].Ended?
    ensures e < k && RunsBody(states, steps, w, states[k].workers[w].job, b, e) && steps[e].status == states[k].workers[w].status
  {
    if k == 0 {
      assert false;
    }
    assert StepAt(states, steps, k - 1);
    WorkerMoves(states[k - 1], steps[k - 1], w);
    if states[k - 1].workers[w].Ended? {
      b, e := BodyWasEnded(states, steps, k - 1, w);
    } else {
      b := BodyWasBegun(states, steps, k - 1, w);
      e := k - 1;
    }
  }

  /** Only a step that records a body finishes a request that was neither superseded nor refused. */
  lemma FinishedByRecord(s: State, step: Step, id: RequestId)
    requires Inv(s) && Enabled(s, step) && id !in s.history.outcome && id in Do(s, step).history.outcome
    requires id !in Do(s, step).history.supersededBy && id !in Do(s, step).history.rejected
    ensures step.WorkerRecord? && s.workers[step.worker].job.id == id
  {
    HistoryChange(s, step);
    RejectedByRefusal(s, step, id);
    if step.SubmitFinish? && s.running.Some? && s.pending.Some? {
      ReplacedIsNoted(s, step);
    }
  }

  lemma ReplacedIsNoted(s: State, step: Step)
    requires Enabled(s, step) && step.SubmitFinish? && s.running.Some? && s.pending.Some?
    ensures s.pending.value.id in Do(s, step).history.supersededBy
  {
  }

  lemma EndsStay(s: State, step: Step, id: RequestId)
    requires Inv(s) && Enabled(s, step) && id in s.history.outcome
    requires id !in Do(s, step).history.supersededBy && id !in Do(s, step).history.rejected
    ensures id !in s.history.supersededBy && id !in s.history.rejected
  {
    OutcomeStays(s, step, id);
    InvKept(s, step);
    RejectedByRefusal(s, step, id);
  }

  /**
    A finished request that was neither superseded nor refused has the status with which
    the body of its own worker ended, and while its record is kept it shows that status,
    and the flag with which that worker recorded it.
   */
  lemma {:induction false} BodiesAreRecorded(states: seq<State>, steps: seq<Step>, k: nat, job: Job)
    returns (w: ThreadId, b: nat, e: nat, r: nat)
    requires Run(states, steps) && k < |states| && job in states[k].history.submitted && job.id in states[k].history.outcome
    requires job.id !in states[k].history.supersededBy && job.id !in states[k].history.rejected
    ensures r < k && RunsBody(states, steps, w, job, b, e) && RecordsBody(states, steps, w, job, e, r)
    ensures states[k].history.outcome[job.id] == steps[e].status
    ensures job.id in states[k].table ==>
              states[k].table[job.id].status == steps[e].status && states[k].table[job.id].applied == steps[r].applied
              && states[k].table[job.id].updatedAt == steps[r].now
  {
    if job.id in states[k - 1].history.outcome {
      EndedStays(states, steps, k - 1, job);
      w, b, e, r := BodiesAreRecorded(states, steps, k - 1, job);
    } else {
      w, b, e, r := JustRecorded(states, steps, k - 1, job);
    }
  }

  lemma EndedStays(states: seq<State>, steps: seq<Step>, k: nat, job: Job)
    requires Run(states, steps) && k < |steps| && job in states[k + 1].history.submitted && job.id in states[k].history.outcome
    requires job.id !in states[k + 1].history.supersededBy && job.id !in states[k + 1].history.rejected
    ensures job in states[k].history.submitted && job.id !in states[k].history.supersededBy && job.id !in states[k].history.rejected
    ensures job.id in states[k + 1].history.outcome && states[k + 1].history.outcome[job.id] == states[k].history.outcome[job.id]
    ensures job.id in states[k + 1].table ==> job.id in states[k].table && states[k + 1].table[job.id] == states[k].table[job.id]
  {
    var s, step := states[k], steps[k];
    assert StepAt(states, steps, k);
    RunInv(states, steps, k);
    FinishedWasSubmitted(s, step, job);
    EndsStay(s, step, job.id);
    OutcomeStays(s, step, job.id);
    if job.id in states[k + 1].table {
      FinishedRecordStays(s, step, job.id);
    }
  }

  lemma JustRecorded(states: seq<State>, steps: seq<Step>, r: nat, job: Job) returns (w: ThreadId, b: nat, e: nat, at: nat)
    requires Run(states, steps) && r < |steps| && job in states[r + 1].history.submitted
    requires job.id !in states[r].history.outcome && job.id in states[r + 1].history.outcome
    requires job.id !in states[r + 1].history.supersededBy && job.id !in states[r + 1].history.rejected
    ensures at == r && RunsBody(states, steps, w, job, b, e) && RecordsBody(states, steps, w, job, e, r)
    ensures states[r + 1].history.outcome[job.id] == steps[e].status
    ensures job.id in states[r + 1].table ==>
              states[r + 1].table[job.id].status == steps[e].status && states[r + 1].table[job.id].applied == steps[r].applied
              && states[r + 1].table[job.id].updatedAt == steps[r].now
  {
    var s, step := states[r], steps[r];
    assert StepAt(states, steps, r);
    RunInv(states, steps, r);
    FinishedByRecord(s, step, job.id);
    w, at := step.worker, r;
    HistoryChange(s, step);
    WorkersJobIs(s, w, job);
    b, e := BodyWasEnded(states, steps, r, w);
    RecordShows(s, step);
  }

  lemma WorkersJobIs(s: State, w: ThreadId, job: Job)
    requires Inv(s) && w in s.workers && s.workers[w].job.id == job.id && job in s.history.submitted
    ensures s.workers[w].job == job
  {
    var i :| 0 <= i < |s.history.submitted| && s.history.submitted[i] == job;
    assert IsSubmitted(s.history.submitted, s.running.value);
  }

  lemma SameEnd(s: State, step: Step, id: RequestId)
    requires Inv(s) && Enabled(s, step) && id in s.history.outcome
    ensures id in Do(s, step).history.supersededBy <==> id in s.history.supersededBy
    ensures id in Do(s, step).history.rejected <==> id in s.history.rejected
  {
    OutcomeStays(s, step, id);
    InvKept(s, step);
    RejectedByRefusal(s, step, id);
    assert !Live(s, id);
  }

  lemma NoEndYet(h: History, id: RequestId)
    requires HistoryInv(h) && id !in h.outcome
    ensures id !in h.supersededBy && id !in h.rejected
  {
  }

  /** A replaced or refused request says so, and was never applied. */
  lemma {:induction false} OthersAreRecorded(states: seq<State>, steps: seq<Step>, k: nat, id: RequestId)
    requires Run(states, steps) && k < |states| && id in states[k].table
    requires id in states[k].history.supersededBy || id in states[k].history.rejected
    ensures !states[k].table[id].applied
    ensures states[k].table[id].status == if id in states[k].history.supersededBy then Superseded else Failed
  {
    if k > 0 && id in states[k - 1].history.outcome {
      OtherStays(states, steps, k - 1, id);
      OthersAreRecorded(states, steps, k - 1, id);
    } else {
      OtherJustEnded(states, steps, k, id);
    }
  }

  lemma OtherStays(states: seq<State>, steps: seq<Step>, k: nat, id: RequestId)
    requires Run(states, steps) && k < |steps| && id in states[k].history.outcome && id in states[k + 1].table
    ensures id in states[k].table && states[k + 1].table[id] == states[k].table[id]
    ensures id in states[k + 1].history.supersededBy <==> id in states[k].history.supersededBy
    ensures id in states[k + 1].history.rejected <==> id in states[k].history.rejected
  {
    assert StepAt(states, steps, k);
    RunInv(states, steps, k);
    FinishedRecordStays(states[k], steps[k], id);
    SameEnd(states[k], steps[k], id);
  }

  lemma OtherJustEnded(states: seq<State>, steps: seq<Step>, k: nat, id: RequestId)
    requires Run(states, steps) && k < |states| && id in states[k].table && (k > 0 ==> id !in states[k - 1].history.outcome)
    requires id in states[k].history.supersededBy || id in states[k].history.rejected
    ensures !states[k].table[id].applied
    ensures states[k].table[id].status == if id in states[k].history.supersededBy then Superseded else Failed
  {
    if k > 0 {
      assert StepAt(states, steps, k - 1);
      RunInv(states, steps, k - 1);
      FinishedWithoutBody(states[k - 1], steps[k - 1], id);
    }
  }

  lemma FinishedWithoutBody(s: State, step: Step, id: RequestId)
    requires Inv(s) && Enabled(s, step) && id !in s.history.outcome && id in Do(s, step).table
    requires id in Do(s, step).history.supersededBy || id in Do(s, step).history.rejected
    ensures !Do(s, step).table[id].applied
    ensures Do(s, step).table[id].status == if id in Do(s, step).history.supersededBy then Superseded else Failed
  {
    NoEndYet(s.history, id);
    RejectedByRefusal(s, step, id);
    if id in Do(s, step).history.supersededBy {
      SupersededByReplacing(s, step, id);
      SupersedeShows(s, step);
    } else {
      RefusalShows(s, step);
    }
  }

  // ---- Records that are not final -------------------------------------------------------------

  ghost predicate ShowsLive(t: Table, job: Job, status: Status) {
    job.id in t && t[job.id].kind == job.kind && t[job.id].status == status && !t[job.id].applied
  }

  /** Queued until a worker begins, running until it records the end. */
  ghost predicate LiveShown(s: State) {
    && (s.lock.HeldBySubmit? ==> ShowsLive(s.table, s.lock.job, Queued))
    && (s.pending.Some? ==> ShowsLive(s.table, s.pending.value, Queued))
    && (forall w :: w in s.workers && s.workers[w].Starting? ==> ShowsLive(s.table, s.workers[w].job, Queued))
    && (forall w :: w in s.workers && (s.workers[w].InBody? || s.workers[w].Ended?) ==> ShowsLive(s.table, s.workers[w].job, Running))
  }

  /** A live record that a step does not name stays as it is. */
  lemma OtherLiveStays(s: State, step: Step, id: RequestId)
    requires Inv(s) && Enabled(s, step) && Unfinished(s, id) && Unfinished(Do(s, step), id)
    requires step.WorkerBegin? ==> s.workers[step.worker].job.id != id
    ensures Do(s, step).table[id] == s.table[id]
  {
    if step.WorkerBegin? {
      BeginShows(s, step);
    } else if step.WorkerRecord? {
      RecordShows(s, step);
    } else if step.SubmitFinish? && s.running.Some? && s.pending.Some? {
      SupersedeShows(s, step);
    } else if step.SubmitFinish? && s.running.None? && !step.threadStarts {
      RefusalShows(s, step);
    } else {
      QuietStepKeeps(s, step, id);
    }
  }

  /** The other steps write at most a new record. */
  lemma QuietStepKeeps(s: State, step: Step, id: RequestId)
    requires Enabled(s, step) && id in s.table && !step.WorkerBegin? && !step.WorkerRecord?
    requires step.SubmitFinish? ==> if s.running.Some? then s.pending.None? else step.threadStarts
    ensures id in Do(s, step).table && Do(s, step).table[id] == s.table[id]
  {
  }

  lemma LiveShownStays(s: State, step: Step, job: Job, status: Status)
    requires Inv(s) && Enabled(s, step) && ShowsLive(s.table, job, status) && !status.Terminal()
    requires Live(Do(s, step), job.id) && (step.WorkerBegin? ==> s.workers[step.worker].job.id != job.id)
    ensures ShowsLive(Do(s, step).table, job, status)
  {
    RecordsKept(s, step);
    OtherLiveStays(s, step, job.id);
  }

  lemma LiveShownByBegin(s: State, step: Step)
    requires Inv(s) && LiveShown(s) && Enabled(s, step) && step.WorkerBegin?
    ensures LiveShown(Do(s, step))
  {
    var t, job := Do(s, step), s.workers[step.worker].job;
    assert Unrecorded(s, step.worker, job.id) && Unrecorded(t, step.worker, job.id);
    LiveJobsDiffer(s);
    BeginShows(s, step);
    RecordsKept(s, step);
    if t.lock.HeldBySubmit? {
      LiveShownStays(s, step, t.lock.job, Queued);
    }
    if t.pending.Some? {
      LiveShownStays(s, step, t.pending.value, Queued);
    }
    forall w | w in t.workers
      ensures w == step.worker
    {
    }
    assert ShowsLive(t.table, job, Running);
  }

  lemma PendingShown(s: State, step: Step)
    requires Inv(s) && LiveShown(s) && Enabled(s, step) && !step.WorkerBegin? && Do(s, step).pending.Some?
    ensures ShowsLive(Do(s, step).table, Do(s, step).pending.value, Queued)
  {
    PendingWas(s, step);
    assert Live(Do(s, step), Do(s, step).pending.value.id);
    LiveShownStays(s, step, Do(s, step).pending.value, Queued);
  }

  lemma PendingWas(s: State, step: Step)
    requires Enabled(s, step) && Do(s, step).pending.Some?
    ensures s.pending == Do(s, step).pending || (s.lock.HeldBySubmit? && s.lock.job == Do(s, step).pending.value)
  {
  }

  lemma LockShown(s: State, step: Step)
    requires Inv(s) && LiveShown(s) && Enabled(s, step) && !step.WorkerBegin?
    requires s.lock.HeldBySubmit? && Do(s, step).lock == s.lock
    ensures ShowsLive(Do(s, step).table, s.lock.job, Queued)
  {
    assert Live(Do(s, step), s.lock.job.id);
    LiveShownStays(s, step, s.lock.job, Queued);
  }

  /** Where a job that is not yet recorded was before the step. */
  lemma WorkerWas(s: State, step: Step, w: ThreadId)
    requires SlotsInv(s) && Enabled(s, step) && !step.WorkerBegin? && w in Do(s, step).workers && !Do(s, step).workers[w].Notifying?
    ensures var now := Do(s, step).workers[w];
            || (now.Starting? && s.lock.HeldBySubmit? && s.lock.job == now.job)
            || (now.Starting? && s.pending == Some(now.job))
            || (w in s.workers && s.workers[w].job == now.job && !s.workers[w].Notifying? && (s.workers[w].Starting? <==> now.Starting?))
  {
  }

  lemma WorkerShown(s: State, step: Step, w: ThreadId)
    requires Inv(s) && LiveShown(s) && Enabled(s, step) && !step.WorkerBegin? && w in Do(s, step).workers && !Do(s, step).workers[w].Notifying?
    ensures ShowsLive(Do(s, step).table, Do(s, step).workers[w].job, if Do(s, step).workers[w].Starting? then Queued else Running)
  {
    var now := Do(s, step).workers[w];
    WorkerWas(s, step, w);
    assert Unrecorded(Do(s, step), w, now.job.id);
    LiveShownStays(s, step, now.job, if now.Starting? then Queued else Running);
  }

  lemma WorkersShown(s: State, step: Step, t: State)
    requires Inv(s) && LiveShown(s) && Enabled(s, step) && !step.WorkerBegin? && t == Do(s, step)
    ensures forall w :: w in t.workers && !t.workers[w].Notifying? ==>
              ShowsLive(t.table, t.workers[w].job, if t.workers[w].Starting? then Queued else Running)
  {
    forall w | w in t.workers && !t.workers[w].Notifying?
      ensures ShowsLive(t.table, t.workers[w].job, if t.workers[w].Starting? then Queued else Running)
    {
      WorkerShown(s, step, w);
    }
  }

  lemma LockShownStays(s: State, step: Step, t: State)
    requires Inv(s) && LiveShown(s) && Enabled(s, step) && !step.WorkerBegin? && Created(s, step).None? && t == Do(s, step)
    ensures t.lock.HeldBySubmit? ==> ShowsLive(t.table, t.lock.job, Queued)
  {
    if t.lock.HeldBySubmit? {
      LockHeld(s, step);
      LockShown(s, step);
    }
  }

  lemma PendingShownStays(s: State, step: Step, t: State)
    requires Inv(s) && LiveShown(s) && Enabled(s, step) && !step.WorkerBegin? && t == Do(s, step)
    ensures t.pending.Some? ==> ShowsLive(t.table, t.pending.value, Queued)
  {
    if t.pending.Some? {
      PendingShown(s, step);
    }
  }

  lemma LiveShownByOthers(s: State, step: Step, t: State)
    requires Inv(s) && LiveShown(s) && Enabled(s, step) && !step.WorkerBegin? && Created(s, step).None? && t == Do(s, step)
    ensures LiveShown(t)
  {
    LockShownStays(s, step, t);
    PendingShownStays(s, step, t);
    WorkersShown(s, step, t);
    AllShown(t);
  }

  lemma AllShown(t: State)
    requires t.lock.HeldBySubmit? ==> ShowsLive(t.table, t.lock.job, Queued)
    requires t.pending.Some? ==> ShowsLive(t.table, t.pending.value, Queued)
    requires forall w :: w in t.workers && !t.workers[w].Notifying? ==>
               ShowsLive(t.table, t.workers[w].job, if t.workers[w].Starting? then Queued else Running)
    ensures LiveShown(t)
  {
  }

  lemma LiveShownBySubmit(s: State, step: Step)
    requires Inv(s) && LiveShown(s) && Enabled(s, step) && Created(s, step).Some?
    ensures LiveShown(Do(s, step))
  {
    AcceptedAsAsked(s, step);
  }

  lemma LiveShownKept(s: State, step: Step)
    requires Inv(s) && LiveShown(s) && Enabled(s, step)
    ensures LiveShown(Do(s, step))
  {
    if step.WorkerBegin? {
      LiveShownByBegin(s, step);
    } else if Created(s, step).Some? {
      LiveShownBySubmit(s, step);
    } else {
      LiveShownByOthers(s, step, Do(s, step));
    }
  }

  /** At every moment an accepted job shows `queued` until its body begins, and `running` until its end is recorded. */
  lemma {:induction false} LiveRecordsShow(states: seq<State>, steps: seq<Step>, k: nat)
    requires Run(states, steps) && k < |states|
    ensures LiveShown(states[k])
  {
    if k > 0 {
      LiveRecordsShow(states, steps, k - 1);
      assert StepAt(states, steps, k - 1);
      RunInv(states, steps, k - 1);
      LiveShownKept(states[k - 1], steps[k - 1]);
    }
  }

  // ---- The history is that of the steps ---------------------------------------------------------

  /** The jobs whose bodies the first `k` steps begin, in order. */
  ghost function BegunJobs(states: seq<State>, steps: seq<Step>, k: nat): seq<Job>
    requires k <= |steps| < |states|
  {
    if k == 0 then []
    else BegunJobs(states, steps, k - 1)
         + if steps[k - 1].WorkerBegin? && steps[k - 1].worker in states[k - 1].workers
           then [states[k - 1].workers[steps[k - 1].worker].job] else []
  }

  /** The jobs that the first `k` steps accept, in order. */
  ghost function AcceptedJobs(states: seq<State>, steps: seq<Step>, k: nat): seq<Job>
    requires k <= |steps| < |states|
  {
    if k == 0 then []
    else AcceptedJobs(states, steps, k - 1)
         + if steps[k - 1].SubmitCheck? && states[k].lock.HeldBySubmit? then [states[k].lock.job] else []
  }

  ghost function LastApply(jobs: seq<Job>): Option<Job> {
    if jobs == [] then None
    else if jobs[|jobs| - 1].kind == Apply then Some(jobs[|jobs| - 1])
    else LastApply(jobs[..|jobs| - 1])
  }

  lemma HistoryMoves(s: State, step: Step)
    requires Enabled(s, step)
    ensures var h, now := s.history, Do(s, step).history;
            if step.WorkerBegin? then
              var job := s.workers[step.worker].job;
              && now.submitted == h.submitted && now.newestApply == h.newestApply && now.started == h.started + [job]
              && now.lastApplyRun == if job.kind == Apply then Some(job) else h.lastApplyRun
            else if step.SubmitCheck? && Do(s, step).lock.HeldBySubmit? then
              var job := Do(s, step).lock.job;
              && now.submitted == h.submitted + [job] && now.started == h.started && now.lastApplyRun == h.lastApplyRun
              && now.newestApply == if job.kind == Apply then Some(job) else h.newestApply
            else
              && now.submitted == h.submitted && now.newestApply == h.newestApply
              && now.started == h.started && now.lastApplyRun == h.lastApplyRun
  {
  }

  /** What the history says was submitted, and begun, is what the steps submitted, and began, in their order. */
  lemma {:induction false} HistoryIsOfSteps(states: seq<State>, steps: seq<Step>, k: nat)
    requires Run(states, steps) && k < |states|
    ensures states[k].history.started == BegunJobs(states, steps, k)
    ensures states[k].history.submitted == AcceptedJobs(states, steps, k)
    ensures states[k].history.lastApplyRun == LastApply(BegunJobs(states, steps, k))
    ensures states[k].history.newestApply == LastApply(AcceptedJobs(states, steps, k))
  {
    if k > 0 {
      HistoryIsOfSteps(states, steps, k - 1);
      assert StepAt(states, steps, k - 1);
      HistoryMoves(states[k - 1], steps[k - 1]);
      LastApplyGrows(BegunJobs(states, steps, k - 1), BegunJobs(states, steps, k));
      LastApplyGrows(AcceptedJobs(states, steps, k - 1), AcceptedJobs(states, steps, k));
    }
  }

  lemma LastApplyGrows(jobs: seq<Job>, more: seq<Job>)
    requires |more| == |jobs| + 1 ==> more[..|jobs|] == jobs
    requires more == jobs || |more| == |jobs| + 1
    ensures LastApply(more) == if |more| == |jobs| then LastApply(jobs)
                               else if more[|jobs|].kind == Apply then Some(more[|jobs|]) else LastApply(jobs)
  {
  }

  // ---- What a caller is told -----------------------------------------------------------------------

  /** A caller that looks is told the record as it stands, or that there is none. */
  lemma LookTells(s: State, step: Step)
    requires Enabled(s, step) && step.WaitCheck?
    ensures var id, pc := s.waiters[step.thread].id, Do(s, step).waiters[step.thread].pc;
            pc == if id !in s.table then Returned(None)
                  else if s.table[id].status in {Queued, Running} then GoingToSleep
                  else Returned(Some(s.table[id]))
  {
  }

  /**
    So a caller that is told the record of a job with a body is told how that body ended,
    and the flag that its worker recorded.
   */
  lemma AnswerIsOfTheBody(states: seq<State>, steps: seq<Step>, l: nat, job: Job) returns (w: ThreadId, b: nat, e: nat, r: nat)
    requires Run(states, steps) && l < |steps| && steps[l].WaitCheck? && steps[l].thread in states[l].waiters
    requires states[l].waiters[steps[l].thread].id == job.id && job in states[l].history.submitted
    requires job.id in states[l].history.outcome && job.id !in states[l].history.supersededBy && job.id !in states[l].history.rejected
    ensures RunsBody(states, steps, w, job, b, e) && RecordsBody(states, steps, w, job, e, r)
    ensures steps[l].thread in states[l + 1].waiters
    ensures var pc := states[l + 1].waiters[steps[l].thread].pc;
            && pc.Returned?
            && (pc.record.Some? ==> pc.record.value.status == steps[e].status && pc.record.value.applied == steps[r].applied)
  {
    w, b, e, r := BodiesAreRecorded(states, steps, l, job);
    assert StepAt(states, steps, l);
    LookTells(states[l], steps[l]);
    RunInv(states, steps, l);
  }
}

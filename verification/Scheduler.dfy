/**
  The apply-job scheduler as a step relation: one running slot, one replaceable
  pending slot, a condition lock, worker threads and waiting callers. Updates of
  the result table by a worker happen outside the lock, as in the program.
 */
module Scheduler {
  import opened Sequences
  import opened ApplyResults

  /** `ticket` is the job's place in submission order; `payload` names the desired state of an apply. */
  datatype Job = Job(id: RequestId, ticket: nat, kind: Kind, payload: int, waitForIdle: bool)

  type ThreadId = nat

  /** Where a worker is with its job: before marking it running, in the body, before recording, before notifying. */
  datatype Worker = Starting(job: Job) | InBody(job: Job) | Ended(job: Job, status: Status) | Notifying(job: Job)

  datatype Lock = Free | HeldBySubmit(job: Job) | HeldByWait(waiter: ThreadId)

  datatype WaiterPc = Checking | GoingToSleep | Sleeping | Returned(record: Option<Record>)

  datatype Waiter = Waiter(id: RequestId, pc: WaiterPc)

  datatype Submission = Submission(kind: Kind, payload: int, waitForIdle: bool, asleep: bool)

  /** What happened since boot. */
  datatype History = History(submitted: seq<Job>, started: seq<Job>, rejected: set<RequestId>,
                             supersededBy: map<RequestId, Job>, outcome: map<RequestId, Status>,
                             newestApply: Option<Job>, lastApplyRun: Option<Job>)

  datatype State = State(limit: nat, table: Table, running: Option<Job>, pending: Option<Job>,
                         workers: map<ThreadId, Worker>, lock: Lock, waiters: map<ThreadId, Waiter>,
                         submitters: map<ThreadId, Submission>, history: History)

  datatype Step =
    | Arrive(thread: ThreadId, submission: Submission)
    | SubmitCheck(thread: ThreadId, id: RequestId, now: int, written: bool)
    | SubmitFinish(worker: ThreadId, threadStarts: bool, now: int)
    | WorkerBegin(worker: ThreadId, now: int)
    | WorkerEnd(worker: ThreadId, status: Status)
    | WorkerRecord(worker: ThreadId, applied: bool, now: int)
    | WorkerNext(worker: ThreadId)
    | WaitArrive(thread: ThreadId, id: RequestId)
    | WaitCheck(thread: ThreadId)
    | WaitSleep(thread: ThreadId)

  predicate Busy(s: State) {
    s.running.Some? || s.pending.Some?
  }

  predicate Enabled(s: State, step: Step) {
    match step
    case Arrive(thread, submission) => thread !in s.submitters && !submission.asleep
    case SubmitCheck(thread, id, _, _) =>
      && s.lock.Free? && thread in s.submitters && !s.submitters[thread].asleep
      && forall j :: j in s.history.submitted ==> j.id != id   // uuid4 never repeats
    case SubmitFinish(worker, _, _) => s.lock.HeldBySubmit? && worker !in s.workers
    case WorkerBegin(worker, _) => worker in s.workers && s.workers[worker].Starting?
    case WorkerEnd(worker, status) =>
      worker in s.workers && s.workers[worker].InBody? && status in {Succeeded, SucceededWithWarnings, Failed}
    case WorkerRecord(worker, _, _) => worker in s.workers && s.workers[worker].Ended?
    case WorkerNext(worker) => s.lock.Free? && worker in s.workers && s.workers[worker].Notifying?
    case WaitArrive(thread, _) => thread !in s.waiters
    case WaitCheck(thread) => s.lock.Free? && thread in s.waiters && s.waiters[thread].pc == Checking
    case WaitSleep(thread) => s.lock == HeldByWait(thread) && thread in s.waiters
  }

  function NotifyWaiters(waiters: map<ThreadId, Waiter>): map<ThreadId, Waiter> {
    map w | w in waiters :: if waiters[w].pc == Sleeping then waiters[w].(pc := Checking) else waiters[w]
  }

  function NotifySubmitters(submitters: map<ThreadId, Submission>): map<ThreadId, Submission> {
    map t | t in submitters :: submitters[t].(asleep := false)
  }

  function NotifyAll(s: State): State {
    s.(waiters := NotifyWaiters(s.waiters), submitters := NotifySubmitters(s.submitters))
  }

  /** Finishes a request for good. */
  function Finish(s: State, id: RequestId, status: Status, applied: bool, now: int): State {
    s.(table := AfterUpdate(s.table, s.limit, id, status, applied, now),
       history := s.history.(outcome := s.history.outcome[id := status]))
  }

  function Submitted(h: History, job: Job): History {
    h.(submitted := h.submitted + [job], newestApply := if job.kind == Apply then Some(job) else h.newestApply)
  }

  function DoSubmitCheck(s: State, thread: ThreadId, id: RequestId, now: int, written: bool): State
    requires Enabled(s, SubmitCheck(thread, id, now, written))
  {
    var submission := s.submitters[thread];
    if submission.waitForIdle && Busy(s) then
      s.(submitters := s.submitters[thread := submission.(asleep := true)])
    else
      var gone := s.(submitters := s.submitters - {thread});
      if id in s.table || !written then gone
      else
        var job := Job(id, |s.history.submitted|, submission.kind, submission.payload, submission.waitForIdle);
        gone.(table := AfterCreate(s.table, id, submission.kind, now, written), lock := HeldBySubmit(job),
              history := Submitted(s.history, job))
  }

  function DoSubmitFinish(s: State, worker: ThreadId, threadStarts: bool, now: int): State
    requires Enabled(s, SubmitFinish(worker, threadStarts, now))
  {
    var job := s.lock.job;
    var free := s.(lock := Free);
    if s.running.None? then
      if threadStarts then
        NotifyAll(free.(running := Some(job), workers := s.workers[worker := Starting(job)]))
      else
        var failed := Finish(free, job.id, Failed, false, now);
        NotifyAll(failed.(history := failed.history.(rejected := failed.history.rejected + {job.id})))
    else
      var replaced :=
        if s.pending.None? then free
        else
          var finished := Finish(free, s.pending.value.id, Superseded, false, now);
          finished.(history := finished.history.(
            supersededBy := finished.history.supersededBy[s.pending.value.id := job]));
      NotifyAll(replaced.(pending := Some(job)))
  }

  function Do(s: State, step: Step): State
    requires Enabled(s, step)
  {
    match step
    case Arrive(thread, submission) => s.(submitters := s.submitters[thread := submission])
    case SubmitCheck(thread, id, now, written) => DoSubmitCheck(s, thread, id, now, written)
    case SubmitFinish(worker, threadStarts, now) => DoSubmitFinish(s, worker, threadStarts, now)
    case WorkerBegin(worker, now) =>
      var job := s.workers[worker].job;
      s.(table := AfterUpdate(s.table, s.limit, job.id, Running, false, now),
         workers := s.workers[worker := InBody(job)],
         history := s.history.(started := s.history.started + [job],
                               lastApplyRun := if job.kind == Apply then Some(job) else s.history.lastApplyRun))
    case WorkerEnd(worker, status) =>
      s.(workers := s.workers[worker := Ended(s.workers[worker].job, status)])
    case WorkerRecord(worker, applied, now) =>
      var w := s.workers[worker];
      Finish(s, w.job.id, w.status, applied, now).(workers := s.workers[worker := Notifying(w.job)])
    case WorkerNext(worker) =>
      var woken := NotifyAll(s);
      (match s.pending
       case None => woken.(running := None, workers := s.workers - {worker})
       case Some(job) => woken.(running := Some(job), pending := None, workers := s.workers[worker := Starting(job)]))
    case WaitArrive(thread, id) => s.(waiters := s.waiters[thread := Waiter(id, Checking)])
    case WaitCheck(thread) =>
      var w := s.waiters[thread];
      if w.id !in s.table then s.(waiters := s.waiters[thread := w.(pc := Returned(None))])
      else if s.table[w.id].status.Terminal() then
        s.(waiters := s.waiters[thread := w.(pc := Returned(Some(s.table[w.id])))])
      else s.(waiters := s.waiters[thread := w.(pc := GoingToSleep)], lock := HeldByWait(thread))
    case WaitSleep(thread) =>
      s.(waiters := s.waiters[thread := s.waiters[thread].(pc := Sleeping)], lock := Free)
  }

  // ---- Invariants ---------------------------------------------------------------

  /** At most one worker, and it has the running job; a job pends only behind a running one. */
  ghost predicate SlotsInv(s: State) {
    && (forall w :: w in s.workers ==> s.running == Some(s.workers[w].job))
    && (forall v, w :: v in s.workers && w in s.workers ==> v == w)
    && (s.running.Some? ==> exists w :: w in s.workers)
    && (s.pending.Some? ==> s.running.Some?)
    && (s.lock.HeldBySubmit? && s.lock.job.waitForIdle ==> !Busy(s))
    && (forall t :: t in s.submitters && s.submitters[t].asleep ==> s.submitters[t].waitForIdle && Busy(s))
  }

  ghost predicate Unrecorded(s: State, w: ThreadId, id: RequestId) {
    w in s.workers && s.workers[w].job.id == id && !s.workers[w].Notifying?
  }

  /** The requests the scheduler still owes an outcome. */
  ghost predicate Live(s: State, id: RequestId) {
    || (s.lock.HeldBySubmit? && s.lock.job.id == id)
    || (s.pending.Some? && s.pending.value.id == id)
    || (exists w :: Unrecorded(s, w, id))
  }

  ghost predicate RecordsInv(s: State) {
    RecordsAreLive(s) && EndsAreFinal(s)
  }

  /** The unfinished records are those of the live requests. */
  ghost predicate RecordsAreLive(s: State) {
    && (forall id :: id in s.table && !s.table[id].status.Terminal() ==> Live(s, id))
    && (forall id :: Live(s, id) ==> id in s.table && !s.table[id].status.Terminal())
  }

  ghost predicate EndsAreFinal(s: State) {
    forall w :: w in s.workers && s.workers[w].Ended? ==> s.workers[w].status.Terminal() && s.workers[w].status != Superseded
  }

  ghost predicate IsSubmitted(submitted: seq<Job>, job: Job) {
    job.ticket < |submitted| && submitted[job.ticket] == job
  }

  ghost predicate Numbered(submitted: seq<Job>) {
    && (forall i :: 0 <= i < |submitted| ==> submitted[i].ticket == i)
    && (forall i, j :: 0 <= i < j < |submitted| ==> submitted[i].id != submitted[j].id)
  }

  ghost predicate TicketsInv(s: State) {
    var h := s.history;
    && Numbered(h.submitted)
    && (s.running.Some? ==> IsSubmitted(h.submitted, s.running.value))
    && (s.pending.Some? ==> IsSubmitted(h.submitted, s.pending.value))
    && (s.lock.HeldBySubmit? ==> h.submitted != [] && s.lock.job == h.submitted[|h.submitted| - 1])
    && (s.pending.Some? && s.running.Some? ==> s.running.value.ticket < s.pending.value.ticket)
    && (s.running.Some? && s.lock.HeldBySubmit? ==> s.running.value.ticket < s.lock.job.ticket)
    && (s.pending.Some? && s.lock.HeldBySubmit? ==> s.pending.value.ticket < s.lock.job.ticket)
  }

  ghost predicate InOrder(submitted: seq<Job>, started: seq<Job>) {
    && (forall i :: 0 <= i < |started| ==> IsSubmitted(submitted, started[i]))
    && (forall i, j :: 0 <= i < j < |started| ==> started[i].ticket < started[j].ticket)
  }

  ghost predicate AllBefore(started: seq<Job>, job: Job) {
    forall i :: 0 <= i < |started| ==> started[i].ticket < job.ticket
  }

  /** Bodies have run in submission order, and the live jobs come after them. */
  ghost predicate StartedInv(s: State) {
    var h := s.history;
    && InOrder(h.submitted, h.started)
    && (s.lock.HeldBySubmit? ==> AllBefore(h.started, s.lock.job))
    && (s.pending.Some? ==> AllBefore(h.started, s.pending.value))
    && (forall w :: w in s.workers && s.workers[w].Starting? ==> AllBefore(h.started, s.workers[w].job))
    && (forall w :: w in s.workers && !s.workers[w].Starting? ==> h.started != [] && h.started[|h.started| - 1] == s.workers[w].job)
  }

  ghost function IdsOf(jobs: seq<Job>): set<RequestId> {
    set j | j in jobs :: j.id
  }

  /** The bookkeeping of outcomes: who ended how, and that exactly the rest ran. */
  ghost predicate HistoryInv(h: History) {
    && h.outcome.Keys <= IdsOf(h.submitted)
    && (forall id :: id in h.outcome ==> h.outcome[id].Terminal())
    && (forall id :: id in h.supersededBy <==> id in h.outcome && h.outcome[id] == Superseded)
    && (forall id :: id in h.rejected ==> id in h.outcome && h.outcome[id] == Failed)
    && (forall j :: j in h.started ==> j.id !in h.supersededBy && j.id !in h.rejected)
    && (forall j :: j in h.submitted && j.id in h.outcome && j.id !in h.supersededBy && j.id !in h.rejected ==> j in h.started)
  }

  /** Every submitted request is live or has its outcome, which its record shows while it is kept. */
  ghost predicate LedgerInv(s: State) {
    var h := s.history;
    && (forall id :: id in h.outcome && id in s.table ==> s.table[id].status == h.outcome[id])
    && (forall id :: id in h.outcome ==> !Live(s, id))
    && (forall j :: j in h.submitted ==> j.id in h.outcome || Live(s, j.id))
  }

  /** Only a later submission supersedes, and never one that waited for idle. */
  ghost predicate SupersededInv(h: History) {
    forall j :: j in h.submitted && j.id in h.supersededBy ==>
      && IsSubmitted(h.submitted, h.supersededBy[j.id])
      && j.ticket < h.supersededBy[j.id].ticket
      && !h.supersededBy[j.id].waitForIdle
  }

  ghost predicate ApplyInv(h: History) {
    && (h.newestApply.Some? ==> IsSubmitted(h.submitted, h.newestApply.value) && h.newestApply.value.kind == Apply)
    && (forall j :: j in h.submitted && j.kind == Apply ==> h.newestApply.Some? && j.ticket <= h.newestApply.value.ticket)
    && (h.lastApplyRun.Some? ==> h.lastApplyRun.value in h.started && h.lastApplyRun.value.kind == Apply)
    && (forall j :: j in h.started && j.kind == Apply ==> h.lastApplyRun.Some? && j.ticket <= h.lastApplyRun.value.ticket)
  }

  ghost predicate NotifyOwed(s: State) {
    exists w :: w in s.workers && s.workers[w].Notifying?
  }

  ghost predicate Unfinished(s: State, id: RequestId) {
    id in s.table && !s.table[id].status.Terminal()
  }

  /** No lost wake-up: whoever sleeps on a finished or pruned record is still owed a notify. */
  ghost predicate WakeInv(s: State) {
    && (forall t :: t in s.waiters && (s.waiters[t].pc == Sleeping || s.waiters[t].pc == GoingToSleep)
          ==> Unfinished(s, s.waiters[t].id) || NotifyOwed(s))
    && (forall t :: t in s.waiters && s.waiters[t].pc == GoingToSleep ==> s.lock == HeldByWait(t))
    && (s.lock.HeldByWait? ==> s.lock.waiter in s.waiters && s.waiters[s.lock.waiter].pc == GoingToSleep)
  }

  ghost predicate Inv(s: State) {
    && SlotsInv(s) && RecordsInv(s) && TicketsInv(s) && StartedInv(s)
    && HistoryInv(s.history) && LedgerInv(s) && SupersededInv(s.history) && ApplyInv(s.history) && WakeInv(s)
  }

  /** No thread has done anything yet. */
  ghost predicate Untouched(s: State) {
    && s.workers == map[] && s.lock == Free && s.waiters == map[] && s.submitters == map[]
    && s.history == History([], [], {}, map[], map[], None, None)
  }

  /** A boot: the table holds what recovery left, and nothing has been submitted. */
  ghost predicate Initial(s: State) {
    && (forall id :: id in s.table ==> s.table[id].status.Terminal())
    && s.running == None && s.pending == None
    && Untouched(s)
  }

  lemma InitialInv(s: State)
    requires Initial(s)
    ensures Inv(s)
  {
  }

  /** A live record survives any update; a finished one may only expire. */
  lemma UpdateKeeps(t: Table, limit: nat, id: RequestId, status: Status, applied: bool, now: int, after: Table)
    requires id in t && after == AfterUpdate(t, limit, id, status, applied, now)
    ensures after.Keys <= t.Keys
    ensures forall o :: o in after && o != id ==> after[o] == t[o]
    ensures forall o :: o in t && o != id && !t[o].status.Terminal() ==> o in after
    ensures id in after ==> after[id] == Changed(t[id], status, applied, now)
    ensures !status.Terminal() ==> id in after
  {
    PruneMeaning(t[id := Changed(t[id], status, applied, now)], limit);
  }

  lemma SlotsKept(s: State, step: Step)
    requires SlotsInv(s) && Enabled(s, step)
    ensures SlotsInv(Do(s, step))
  {
    if step.SubmitFinish? {
      SlotsKeptByFinish(s, step);
    } else if step.WorkerBegin? || step.WorkerEnd? || step.WorkerRecord? || step.WorkerNext? {
      SlotsKeptByWorker(s, step);
    }
  }

  lemma SlotsKeptByFinish(s: State, step: Step)
    requires SlotsInv(s) && Enabled(s, step) && step.SubmitFinish?
    ensures SlotsInv(Do(s, step))
  {
    assert step.worker in Do(s, step).workers || s.running.Some? || Do(s, step).running.None?;
  }

  lemma SlotsKeptByWorker(s: State, step: Step)
    requires SlotsInv(s) && Enabled(s, step) && (step.WorkerBegin? || step.WorkerEnd? || step.WorkerRecord? || step.WorkerNext?)
    ensures SlotsInv(Do(s, step))
  {
    assert step.worker in Do(s, step).workers || s.pending.None?;
  }

  /** The request a step creates, if any. */
  ghost function Created(s: State, step: Step): Option<RequestId>
    requires Enabled(s, step)
  {
    if step.SubmitCheck? && Do(s, step).lock.HeldBySubmit? then Some(step.id) else None
  }

  /** The request a step finishes, if any. */
  ghost function Concluded(s: State, step: Step): Option<RequestId>
    requires Enabled(s, step)
  {
    if step.WorkerRecord? then Some(s.workers[step.worker].job.id)
    else if step.SubmitFinish? && s.running.None? && !step.threadStarts then Some(s.lock.job.id)
    else if step.SubmitFinish? && s.running.Some? && s.pending.Some? then Some(s.pending.value.id)
    else None
  }

  lemma LiveJobsDiffer(s: State)
    requires SlotsInv(s) && TicketsInv(s)
    ensures s.pending.Some? ==> s.pending.value.id != s.running.value.id
    ensures s.lock.HeldBySubmit? && s.running.Some? ==> s.lock.job.id != s.running.value.id
    ensures s.lock.HeldBySubmit? && s.pending.Some? ==> s.lock.job.id != s.pending.value.id
  {
  }

  ghost predicate LiveChanges(s: State, step: Step)
    requires Enabled(s, step)
  {
    forall id: RequestId :: Live(Do(s, step), id) <==>
      (Live(s, id) || Created(s, step) == Some(id)) && Concluded(s, step) != Some(id)
  }

  lemma LiveChangeSubmitFinish(s: State, step: Step)
    requires SlotsInv(s) && TicketsInv(s) && Enabled(s, step) && step.SubmitFinish?
    ensures LiveChanges(s, step)
  {
    var t := Do(s, step);
    LiveJobsDiffer(s);
    forall id: RequestId
      ensures Live(t, id) <==> Live(s, id) && Concluded(s, step) != Some(id)
    {
      assert forall w: ThreadId :: w in s.workers ==> (Unrecorded(s, w, id) <==> Unrecorded(t, w, id));
      assert s.running.None? && step.threadStarts ==> Unrecorded(t, step.worker, s.lock.job.id);
    }
  }

  lemma LiveChangeWorker(s: State, step: Step)
    requires SlotsInv(s) && TicketsInv(s) && Enabled(s, step) && (step.WorkerRecord? || step.WorkerNext?)
    ensures LiveChanges(s, step)
  {
    var t := Do(s, step);
    LiveJobsDiffer(s);
    forall id: RequestId
      ensures Live(t, id) <==> Live(s, id) && Concluded(s, step) != Some(id)
    {
      if step.WorkerRecord? {
        assert Unrecorded(s, step.worker, s.running.value.id);
        assert forall w: ThreadId :: !Unrecorded(t, w, id);
      } else {
        assert forall w: ThreadId :: !Unrecorded(s, w, id);
        assert s.pending.Some? ==> Unrecorded(t, step.worker, s.pending.value.id);
      }
    }
  }

  /** The set of live requests changes by exactly the created and the concluded one. */
  lemma LiveChange(s: State, step: Step)
    requires SlotsInv(s) && TicketsInv(s) && Enabled(s, step)
    ensures LiveChanges(s, step)
  {
    if step.SubmitFinish? {
      LiveChangeSubmitFinish(s, step);
    } else if step.WorkerRecord? || step.WorkerNext? {
      LiveChangeWorker(s, step);
    } else {
      var t := Do(s, step);
      forall id: RequestId
        ensures Live(t, id) <==> Live(s, id) || Created(s, step) == Some(id)
      {
        assert forall w: ThreadId :: Unrecorded(s, w, id) <==> Unrecorded(t, w, id);
      }
    }
  }

  /** What a step may do to the table: at most one record is created or changed; others only expire once finished. */
  ghost predicate TableChanges(s: State, step: Step)
    requires Enabled(s, step)
  {
    var t, concluded, created := Do(s, step), Concluded(s, step), Created(s, step);
    && (forall id :: id in t.table ==> id in s.table || created == Some(id))
    && (forall id :: id in s.table && !s.table[id].status.Terminal() ==>
          concluded == Some(id) || (id in t.table && !t.table[id].status.Terminal()))
    && (forall id :: id in t.table && id in s.table && s.table[id].status.Terminal() ==> t.table[id] == s.table[id])
    && (created.Some? ==> created.value !in s.table && Unfinished(t, created.value))
    && (concluded.Some? && concluded.value in t.table ==>
          && t.table[concluded.value].status.Terminal() && concluded.value in t.history.outcome
          && t.table[concluded.value].status == t.history.outcome[concluded.value])
  }

  lemma TableChange(s: State, step: Step)
    requires SlotsInv(s) && RecordsInv(s) && Enabled(s, step)
    ensures TableChanges(s, step)
  {
    if step.SubmitFinish? {
      TableChangeByFinish(s, step);
    } else if step.WorkerBegin? || step.WorkerRecord? {
      TableChangeByWorker(s, step);
    }
  }

  lemma TableChangeByFinish(s: State, step: Step)
    requires SlotsInv(s) && RecordsInv(s) && Enabled(s, step) && step.SubmitFinish?
    ensures TableChanges(s, step)
  {
    assert Live(s, s.lock.job.id);
    if s.running.None? && !step.threadStarts {
      UpdateKeeps(s.table, s.limit, s.lock.job.id, Failed, false, step.now, Do(s, step).table);
    } else if s.running.Some? && s.pending.Some? {
      assert Live(s, s.pending.value.id);
      UpdateKeeps(s.table, s.limit, s.pending.value.id, Superseded, false, step.now, Do(s, step).table);
    }
  }

  lemma TableChangeByWorker(s: State, step: Step)
    requires SlotsInv(s) && RecordsInv(s) && Enabled(s, step) && (step.WorkerBegin? || step.WorkerRecord?)
    ensures TableChanges(s, step)
  {
    var w := s.workers[step.worker];
    assert Unrecorded(s, step.worker, w.job.id);
    if step.WorkerBegin? {
      UpdateKeeps(s.table, s.limit, w.job.id, Running, false, step.now, Do(s, step).table);
    } else {
      UpdateKeeps(s.table, s.limit, w.job.id, w.status, step.applied, step.now, Do(s, step).table);
    }
  }

  lemma RecordsKept(s: State, step: Step)
    requires SlotsInv(s) && TicketsInv(s) && RecordsInv(s) && Enabled(s, step)
    ensures RecordsInv(Do(s, step))
  {
    LiveChange(s, step);
    TableChange(s, step);
    LiveRecordsKept(s, step, Do(s, step));
    EndsKept(s, step);
  }

  lemma LiveRecordsKept(s: State, step: Step, t: State)
    requires Enabled(s, step) && t == Do(s, step) && RecordsAreLive(s) && LiveChanges(s, step) && TableChanges(s, step)
    ensures RecordsAreLive(t)
  {
  }

  lemma EndsKept(s: State, step: Step)
    requires Enabled(s, step) && EndsAreFinal(s)
    ensures EndsAreFinal(Do(s, step))
  {
  }

  lemma SubmittedGrows(submitted: seq<Job>, job: Job)
    requires Numbered(submitted) && job.ticket == |submitted| && forall j :: j in submitted ==> j.id != job.id
    ensures Numbered(submitted + [job]) && IsSubmitted(submitted + [job], job)
    ensures forall j :: IsSubmitted(submitted, j) ==> IsSubmitted(submitted + [job], j)
  {
  }

  lemma TicketsKept(s: State, step: Step)
    requires SlotsInv(s) && TicketsInv(s) && Enabled(s, step)
    ensures TicketsInv(Do(s, step))
  {
    if step.SubmitCheck? {
      TicketsKeptBySubmit(s, step);
    } else if step.SubmitFinish? || step.WorkerNext? {
      TicketsKeptBySlots(s, step);
    }
  }

  lemma TicketsKeptBySubmit(s: State, step: Step)
    requires SlotsInv(s) && TicketsInv(s) && Enabled(s, step) && step.SubmitCheck?
    ensures TicketsInv(Do(s, step))
  {
    var submission := s.submitters[step.thread];
    SubmittedGrows(s.history.submitted,
                   Job(step.id, |s.history.submitted|, submission.kind, submission.payload, submission.waitForIdle));
  }

  lemma TicketsKeptBySlots(s: State, step: Step)
    requires SlotsInv(s) && TicketsInv(s) && Enabled(s, step) && (step.SubmitFinish? || step.WorkerNext?)
    ensures TicketsInv(Do(s, step))
  {
  }

  lemma StartedKept(s: State, step: Step)
    requires SlotsInv(s) && TicketsInv(s) && StartedInv(s) && Enabled(s, step)
    ensures StartedInv(Do(s, step))
  {
    if step.SubmitCheck? {
      StartedKeptBySubmit(s, step);
    } else if step.WorkerBegin? {
      StartedKeptByBegin(s, step);
    } else if step.SubmitFinish? || step.WorkerNext? {
      StartedKeptBySlots(s, step);
    } else if step.WorkerEnd? || step.WorkerRecord? {
      StartedKeptByWorker(s, step);
    } else {
      StartedUntouched(s, step);
    }
  }

  lemma StartedKeptByWorker(s: State, step: Step)
    requires StartedInv(s) && Enabled(s, step) && (step.WorkerEnd? || step.WorkerRecord?)
    ensures StartedInv(Do(s, step))
  {
  }

  /** Steps that neither submit nor work. */
  lemma StartedUntouched(s: State, step: Step)
    requires StartedInv(s) && Enabled(s, step)
    requires step.Arrive? || step.WaitArrive? || step.WaitCheck? || step.WaitSleep?
    ensures StartedInv(Do(s, step))
  {
    StartedSame(s, Do(s, step));
  }

  lemma StartedSame(s: State, t: State)
    requires StartedInv(s) && t.history == s.history && t.pending == s.pending && t.workers == s.workers
    requires t.lock.HeldBySubmit? ==> t.lock == s.lock
    ensures StartedInv(t)
  {
  }

  lemma StartedKeptBySubmit(s: State, step: Step)
    requires SlotsInv(s) && TicketsInv(s) && StartedInv(s) && Enabled(s, step) && step.SubmitCheck?
    ensures StartedInv(Do(s, step))
  {
    var submission := s.submitters[step.thread];
    var job := Job(step.id, |s.history.submitted|, submission.kind, submission.payload, submission.waitForIdle);
    SubmittedGrows(s.history.submitted, job);
    assert AllBefore(s.history.started, job);
  }

  lemma StartedKeptByBegin(s: State, step: Step)
    requires SlotsInv(s) && TicketsInv(s) && StartedInv(s) && Enabled(s, step) && step.WorkerBegin?
    ensures StartedInv(Do(s, step))
  {
    var job := s.workers[step.worker].job;
    assert s.running == Some(job);
    assert InOrder(s.history.submitted, s.history.started + [job]);
  }

  lemma StartedKeptBySlots(s: State, step: Step)
    requires SlotsInv(s) && TicketsInv(s) && StartedInv(s) && Enabled(s, step) && (step.SubmitFinish? || step.WorkerNext?)
    ensures StartedInv(Do(s, step))
  {
    if step.SubmitFinish? {
      StartedKeptByFinish(s, step);
    } else {
      StartedKeptByNext(s, step);
    }
  }

  lemma StartedKeptByFinish(s: State, step: Step)
    requires SlotsInv(s) && TicketsInv(s) && StartedInv(s) && Enabled(s, step) && step.SubmitFinish?
    ensures StartedInv(Do(s, step))
  {
    var t := Do(s, step);
    assert t.history.started == s.history.started && t.history.submitted == s.history.submitted;
    forall w | w in t.workers && !t.workers[w].Starting?
      ensures w in s.workers && t.workers[w] == s.workers[w]
    {
    }
  }

  lemma StartedKeptByNext(s: State, step: Step)
    requires SlotsInv(s) && TicketsInv(s) && StartedInv(s) && Enabled(s, step) && step.WorkerNext?
    ensures StartedInv(Do(s, step))
  {
    var t := Do(s, step);
    assert t.history.started == s.history.started && t.history.submitted == s.history.submitted;
    assert forall w :: w in t.workers ==> w == step.worker;
  }

  lemma ConcludedIsLive(s: State, step: Step)
    requires SlotsInv(s) && TicketsInv(s) && Enabled(s, step)
    ensures Concluded(s, step).Some? ==> Live(s, Concluded(s, step).value)
  {
    if step.WorkerRecord? {
      assert Unrecorded(s, step.worker, s.workers[step.worker].job.id);
    }
  }

  lemma NotStarted(submitted: seq<Job>, started: seq<Job>, job: Job)
    requires Numbered(submitted) && InOrder(submitted, started)
    requires IsSubmitted(submitted, job) && AllBefore(started, job)
    ensures forall j :: j in started ==> j.id != job.id
  {
    forall j | j in started
      ensures j.id != job.id
    {
      var i :| 0 <= i < |started| && started[i] == j;
      assert submitted[j.ticket].id != submitted[job.ticket].id;
    }
  }

  /** How each kind of step changes the history. */
  lemma HistoryChange(s: State, step: Step)
    requires SlotsInv(s) && Enabled(s, step)
    ensures Created(s, step).None? ==> Do(s, step).history.submitted == s.history.submitted
    ensures Created(s, step).Some? ==>
      && s.lock.Free?
      && Do(s, step).lock.HeldBySubmit? && Do(s, step).lock.job.id == step.id
      && Do(s, step).lock.job.ticket == |s.history.submitted|
      && (forall j :: j in s.history.submitted ==> j.id != step.id)
      && Do(s, step).history == Submitted(s.history, Do(s, step).lock.job)
    ensures Concluded(s, step).None? ==> Do(s, step).history.outcome == s.history.outcome
    ensures Concluded(s, step).Some? ==>
      && Concluded(s, step).value in Do(s, step).history.outcome
      && Do(s, step).history.outcome == s.history.outcome[
           Concluded(s, step).value := Do(s, step).history.outcome[Concluded(s, step).value]]
  {
  }

  lemma LedgerKept(s: State, step: Step)
    requires SlotsInv(s) && TicketsInv(s) && RecordsInv(s) && HistoryInv(s.history) && LedgerInv(s) && Enabled(s, step)
    ensures LedgerInv(Do(s, step))
  {
    OutcomesMatch(s, step);
    OutcomesAreNotLive(s, step);
    SubmittedAreAccounted(s, step);
  }

  lemma OutcomesMatch(s: State, step: Step)
    requires SlotsInv(s) && TicketsInv(s) && RecordsInv(s) && HistoryInv(s.history) && LedgerInv(s) && Enabled(s, step)
    ensures forall id :: id in Do(s, step).history.outcome && id in Do(s, step).table ==>
              Do(s, step).table[id].status == Do(s, step).history.outcome[id]
  {
    TableChange(s, step);
    ConcludedIsLive(s, step);
    HistoryChange(s, step);
  }

  lemma OutcomesAreNotLive(s: State, step: Step)
    requires SlotsInv(s) && TicketsInv(s) && HistoryInv(s.history) && LedgerInv(s) && Enabled(s, step)
    ensures forall id :: id in Do(s, step).history.outcome ==> !Live(Do(s, step), id)
  {
    LiveChange(s, step);
    ConcludedIsLive(s, step);
    HistoryChange(s, step);
  }

  lemma SubmittedAreAccounted(s: State, step: Step)
    requires SlotsInv(s) && TicketsInv(s) && LedgerInv(s) && Enabled(s, step)
    ensures forall j :: j in Do(s, step).history.submitted ==>
              j.id in Do(s, step).history.outcome || Live(Do(s, step), j.id)
  {
    LiveChange(s, step);
    HistoryChange(s, step);
  }

  /** A request leaves the live set: it ran, or it was superseded or rejected and had not run. */
  lemma HistoryConcludes(h: History, after: History, job: Job, status: Status)
    requires HistoryInv(h) && Numbered(h.submitted) && InOrder(h.submitted, h.started)
    requires IsSubmitted(h.submitted, job) && job.id !in h.outcome && status.Terminal()
    requires after.submitted == h.submitted && after.started == h.started && after.outcome == h.outcome[job.id := status]
    requires after.supersededBy.Keys == h.supersededBy.Keys + if status == Superseded then {job.id} else {}
    requires after.rejected == h.rejected || (after.rejected == h.rejected + {job.id} && status == Failed)
    requires if status == Superseded || job.id in after.rejected then AllBefore(h.started, job) else job in h.started
    ensures HistoryInv(after)
  {
    if status == Superseded || job.id in after.rejected {
      NotStarted(h.submitted, h.started, job);
    }
    forall j | j in h.submitted && j.id == job.id
      ensures j == job
    {
    }
  }

  lemma HistoryKept(s: State, step: Step)
    requires SlotsInv(s) && TicketsInv(s) && RecordsInv(s) && StartedInv(s)
    requires HistoryInv(s.history) && LedgerInv(s) && Enabled(s, step)
    ensures HistoryInv(Do(s, step).history)
  {
    if step.SubmitCheck? {
      HistoryChange(s, step);
      if Created(s, step).Some? {
        HistorySubmits(s.history, Do(s, step).lock.job);
      }
    } else if step.SubmitFinish? || step.WorkerRecord? {
      HistoryKeptByConcluding(s, step);
    } else if step.WorkerBegin? {
      var job := s.workers[step.worker].job;
      assert Unrecorded(s, step.worker, job.id);
      HistoryStarts(s.history, Do(s, step).history, job);
    }
  }

  lemma HistoryKeptByConcluding(s: State, step: Step)
    requires SlotsInv(s) && TicketsInv(s) && RecordsInv(s) && StartedInv(s) && (step.SubmitFinish? || step.WorkerRecord?)
    requires HistoryInv(s.history) && LedgerInv(s) && Enabled(s, step)
    ensures HistoryInv(Do(s, step).history)
  {
    if step.WorkerRecord? {
      HistoryKeptByRecord(s, step);
    } else {
      HistoryKeptByFinish(s, step);
    }
  }

  lemma HistoryKeptByRecord(s: State, step: Step)
    requires SlotsInv(s) && TicketsInv(s) && RecordsInv(s) && StartedInv(s) && step.WorkerRecord?
    requires HistoryInv(s.history) && LedgerInv(s) && Enabled(s, step)
    ensures HistoryInv(Do(s, step).history)
  {
    ConcludedIsLive(s, step);
    var w := s.workers[step.worker];
    HistoryConcludes(s.history, Do(s, step).history, w.job, w.status);
  }

  lemma HistoryKeptByFinish(s: State, step: Step)
    requires SlotsInv(s) && TicketsInv(s) && RecordsInv(s) && StartedInv(s) && step.SubmitFinish?
    requires HistoryInv(s.history) && LedgerInv(s) && Enabled(s, step)
    ensures HistoryInv(Do(s, step).history)
  {
    var h, after := s.history, Do(s, step).history;
    ConcludedIsLive(s, step);
    if s.running.None? && !step.threadStarts {
      HistoryConcludes(h, after, s.lock.job, Failed);
    } else if s.running.Some? && s.pending.Some? {
      HistoryConcludes(h, after, s.pending.value, Superseded);
    }
  }

  lemma HistorySubmits(h: History, job: Job)
    requires HistoryInv(h) && forall j :: j in h.submitted ==> j.id != job.id
    ensures HistoryInv(Submitted(h, job))
  {
    var after := Submitted(h, job);
    assert job.id !in h.outcome;
    assert forall j :: j in after.submitted <==> j in h.submitted || j == job;
  }

  lemma HistoryStarts(h: History, after: History, job: Job)
    requires HistoryInv(h) && job.id !in h.outcome
    requires after.submitted == h.submitted && after.started == h.started + [job] && after.outcome == h.outcome
    requires after.supersededBy == h.supersededBy && after.rejected == h.rejected
    ensures HistoryInv(after)
  {
  }

  lemma SupersededKept(s: State, step: Step)
    requires SlotsInv(s) && TicketsInv(s) && HistoryInv(s.history) && SupersededInv(s.history) && Enabled(s, step)
    ensures SupersededInv(Do(s, step).history)
  {
    var t := Do(s, step);
    HistoryChange(s, step);
    if Created(s, step).Some? {
      SubmittedGrows(s.history.submitted, t.lock.job);
      assert step.id !in s.history.outcome;
      SupersededSubmits(s.history, t.lock.job);
    } else if step.SubmitFinish? {
      SupersededKeptByFinish(s, step);
    }
  }

  lemma SupersededSubmits(h: History, job: Job)
    requires SupersededInv(h) && HistoryInv(h) && job.id !in h.outcome
    requires forall j :: IsSubmitted(h.submitted, j) ==> IsSubmitted(h.submitted + [job], j)
    ensures SupersededInv(Submitted(h, job))
  {
    assert forall j :: j in (h.submitted + [job]) <==> j in h.submitted || j == job;
  }

  lemma SupersededKeptByFinish(s: State, step: Step)
    requires SlotsInv(s) && TicketsInv(s) && SupersededInv(s.history) && Enabled(s, step) && step.SubmitFinish?
    ensures SupersededInv(Do(s, step).history)
  {
    var h := s.history;
    if s.running.Some? && s.pending.Some? {
      assert Do(s, step).history.supersededBy == h.supersededBy[s.pending.value.id := s.lock.job];
      assert forall j :: j in h.submitted && j.id == s.pending.value.id ==> j == s.pending.value;
    }
  }

  lemma ApplyKept(s: State, step: Step)
    requires SlotsInv(s) && TicketsInv(s) && StartedInv(s) && ApplyInv(s.history) && Enabled(s, step)
    ensures ApplyInv(Do(s, step).history)
  {
    if Created(s, step).Some? {
      ApplyKeptBySubmit(s, step);
    } else if step.WorkerBegin? {
      ApplyKeptByBegin(s, step);
    } else {
      HistoryChange(s, step);
    }
  }

  lemma ApplyKeptBySubmit(s: State, step: Step)
    requires SlotsInv(s) && TicketsInv(s) && ApplyInv(s.history) && Enabled(s, step) && Created(s, step).Some?
    ensures ApplyInv(Do(s, step).history)
  {
    HistoryChange(s, step);
    SubmittedGrows(s.history.submitted, Do(s, step).lock.job);
    ApplySubmits(s.history, Do(s, step).lock.job);
  }

  lemma ApplyKeptByBegin(s: State, step: Step)
    requires SlotsInv(s) && StartedInv(s) && ApplyInv(s.history) && Enabled(s, step) && step.WorkerBegin?
    ensures ApplyInv(Do(s, step).history)
  {
    assert AllBefore(s.history.started, s.workers[step.worker].job);
  }

  lemma ApplySubmits(h: History, job: Job)
    requires ApplyInv(h) && Numbered(h.submitted) && job.ticket == |h.submitted|
    requires Numbered(h.submitted + [job])
    ensures ApplyInv(Submitted(h, job))
  {
    assert forall j :: j in (h.submitted + [job]) <==> j in h.submitted || j == job;
  }

  lemma WakeKept(s: State, step: Step)
    requires SlotsInv(s) && RecordsInv(s) && WakeInv(s) && Enabled(s, step)
    ensures WakeInv(Do(s, step))
  {
    if step.WaitArrive? || step.WaitCheck? || step.WaitSleep? {
      WakeKeptByWaiter(s, step);
    } else if step.SubmitFinish? || step.WorkerNext? {
      WakeKeptByNotify(s, step);
    } else {
      WakeKeptByRecords(s, step);
    }
  }

  lemma WakeKeptByWaiter(s: State, step: Step)
    requires WakeInv(s) && Enabled(s, step) && (step.WaitArrive? || step.WaitCheck? || step.WaitSleep?)
    ensures WakeInv(Do(s, step))
  {
    var t := Do(s, step);
    assert t.table == s.table && t.workers == s.workers;
    assert NotifyOwed(s) ==> NotifyOwed(t);
  }

  /** After a notify nobody sleeps. */
  lemma WakeKeptByNotify(s: State, step: Step)
    requires WakeInv(s) && Enabled(s, step) && (step.SubmitFinish? || step.WorkerNext?)
    ensures WakeInv(Do(s, step))
    ensures forall t :: t in Do(s, step).waiters ==> Do(s, step).waiters[t].pc != Sleeping
  {
    var t := Do(s, step);
    assert t.waiters == NotifyWaiters(s.waiters);
  }

  /** Steps that neither notify nor move a waiter. */
  lemma WakeKeptByRecords(s: State, step: Step)
    requires SlotsInv(s) && RecordsInv(s) && WakeInv(s) && Enabled(s, step)
    requires step.Arrive? || step.SubmitCheck? || step.WorkerBegin? || step.WorkerEnd? || step.WorkerRecord?
    ensures WakeInv(Do(s, step))
  {
    var t := Do(s, step);
    TableChange(s, step);
    assert t.waiters == s.waiters;
    if step.WorkerRecord? {
      assert t.workers[step.worker].Notifying?;
      assert NotifyOwed(t);
    } else {
      assert forall id :: Unfinished(s, id) ==> Unfinished(t, id);
      assert NotifyOwed(s) ==> NotifyOwed(t);
    }
  }

  /** Every step keeps every invariant. */
  lemma InvKept(s: State, step: Step)
    requires Inv(s) && Enabled(s, step)
    ensures Inv(Do(s, step))
  {
    SlotsKept(s, step);
    RecordsKept(s, step);
    TicketsKept(s, step);
    StartedKept(s, step);
    HistoryKept(s, step);
    LedgerKept(s, step);
    SupersededKept(s, step);
    ApplyKept(s, step);
    WakeKept(s, step);
  }

  // ---- Whole runs ---------------------------------------------------------------

  /** A run since boot: every step is enabled and takes one state to the next. */
  ghost predicate Run(states: seq<State>, steps: seq<Step>) {
    && |states| == |steps| + 1
    && Initial(states[0])
    && forall i :: 0 <= i < |steps| ==> StepAt(states, steps, i)
  }

  ghost predicate StepAt(states: seq<State>, steps: seq<Step>, i: nat)
    requires i < |steps| < |states|
  {
    Enabled(states[i], steps[i]) && states[i + 1] == Do(states[i], steps[i])
  }

  lemma {:induction false} RunInv(states: seq<State>, steps: seq<Step>, k: nat)
    requires Run(states, steps) && k < |states|
    ensures Inv(states[k])
  {
    if k == 0 {
      InitialInv(states[0]);
    } else {
      RunInv(states, steps, k - 1);
      assert StepAt(states, steps, k - 1);
      InvKept(states[k - 1], steps[k - 1]);
    }
  }

  /**
    In every interleaving: at most one job body runs; the unfinished records
    are exactly those of the job being submitted, the pending job and the
    running job that has not recorded its end.
   */
  lemma OneBodyAndLiveRecords(states: seq<State>, steps: seq<Step>, k: nat)
    requires Run(states, steps) && k < |states|
    ensures forall v, w :: v in states[k].workers && w in states[k].workers && states[k].workers[v].InBody? && states[k].workers[w].InBody?
              ==> v == w
    ensures forall id :: Unfinished(states[k], id) <==> Live(states[k], id)
  {
    RunInv(states, steps, k);
  }

  /**
    Bodies run in submission order. A request ends superseded exactly when a
    later one, which did not wait for idle, replaced it; then it never ran. A
    finished request that was neither superseded nor refused a thread did run,
    and the newest submission is never superseded.
   */
  lemma SubmissionOrder(states: seq<State>, steps: seq<Step>, k: nat)
    requires Run(states, steps) && k < |states|
    ensures var h := states[k].history;
      && InOrder(h.submitted, h.started)
      && (forall j :: j in h.started ==> j.id !in h.outcome || h.outcome[j.id] != Superseded)
      && (forall j :: j in h.submitted && j.id in h.outcome && j.id !in h.rejected
            ==> (j !in h.started <==> h.outcome[j.id] == Superseded))
      && (forall j :: j in h.submitted && j.id in h.outcome && h.outcome[j.id] == Superseded ==>
            && j.id in h.supersededBy && IsSubmitted(h.submitted, h.supersededBy[j.id])
            && j.ticket < h.supersededBy[j.id].ticket && !h.supersededBy[j.id].waitForIdle)
      && (h.submitted != [] ==> h.submitted[|h.submitted| - 1].id !in h.supersededBy)
  {
    RunInv(states, steps, k);
    var h := states[k].history;
    if h.submitted != [] {
      var newest := h.submitted[|h.submitted| - 1];
      assert newest in h.submitted;
    }
  }

  /** An outcome never changes, and the record shows it for as long as it is kept. */
  lemma OutcomeIsFinal(states: seq<State>, steps: seq<Step>, i: nat, k: nat, id: RequestId)
    requires Run(states, steps) && i <= k < |states|
    requires id in states[i].history.outcome
    ensures id in states[k].history.outcome && states[k].history.outcome[id] == states[i].history.outcome[id]
    ensures id in states[k].table ==> states[k].table[id].status == states[i].history.outcome[id]
    ensures !Unfinished(states[k], id)
  {
    OutcomePersists(states, steps, i, k, id);
    RunInv(states, steps, k);
  }

  lemma {:induction false} OutcomePersists(states: seq<State>, steps: seq<Step>, i: nat, k: nat, id: RequestId)
    requires Run(states, steps) && i <= k < |states|
    requires id in states[i].history.outcome
    ensures id in states[k].history.outcome && states[k].history.outcome[id] == states[i].history.outcome[id]
    decreases k - i
  {
    if i < k {
      OutcomePersists(states, steps, i, k - 1, id);
      RunInv(states, steps, k - 1);
      assert StepAt(states, steps, k - 1);
      OutcomeStays(states[k - 1], steps[k - 1], id);
    }
  }

  lemma OutcomeStays(s: State, step: Step, id: RequestId)
    requires SlotsInv(s) && TicketsInv(s) && LedgerInv(s) && Enabled(s, step) && id in s.history.outcome
    ensures id in Do(s, step).history.outcome && Do(s, step).history.outcome[id] == s.history.outcome[id]
  {
    HistoryChange(s, step);
    ConcludedIsLive(s, step);
  }

  /**
    At idle, the last desired state an apply started with is the newest
    submitted one exactly when that apply was neither superseded nor refused a
    thread; and only a plain reconcile can have superseded it.
   */
  lemma LastAppliedIsNewest(states: seq<State>, steps: seq<Step>, k: nat)
    requires Run(states, steps) && k < |states|
    requires !Busy(states[k]) && states[k].lock.Free?
    requires states[k].history.newestApply.Some?
    ensures var h := states[k].history; var newest := h.newestApply.value;
      && (h.lastApplyRun == Some(newest) <==> newest.id !in h.supersededBy && newest.id !in h.rejected)
      && (newest.id in h.supersededBy ==> h.supersededBy[newest.id].kind == Reconcile)
  {
    RunInv(states, steps, k);
    var s := states[k];
    var newest := s.history.newestApply.value;
    assert newest in s.history.submitted;
    assert !Live(s, newest.id) by {
      assert forall w: ThreadId :: !Unrecorded(s, w, newest.id);
    }
    if newest.id in s.history.rejected {
      assert newest !in s.history.started;
    } else if newest.id !in s.history.supersededBy {
      assert newest in s.history.started;
      var last := s.history.lastApplyRun.value;
      assert last in s.history.submitted by {
        var i :| 0 <= i < |s.history.started| && s.history.started[i] == last;
      }
      assert last.ticket == newest.ticket;
      var i :| 0 <= i < |s.history.started| && s.history.started[i] == last;
    } else {
      var later := s.history.supersededBy[newest.id];
      assert later in s.history.submitted;
    }
  }

  // ---- Wake-ups ---------------------------------------------------------------------

  /** A caller asleep on a finished or pruned record is still owed a notify, by the worker that is about to give it. */
  lemma NoLostWakeUp(states: seq<State>, steps: seq<Step>, k: nat, t: ThreadId)
    requires Run(states, steps) && k < |states|
    requires t in states[k].waiters && states[k].waiters[t].pc == Sleeping && !Unfinished(states[k], states[k].waiters[t].id)
    ensures exists w :: w in states[k].workers && states[k].workers[w].Notifying?
  {
    RunInv(states, steps, k);
  }

  /** A submission asleep until idle still has a worker before it, which notifies when it takes its next job or none. */
  lemma IdleWaitersAreOwedANotify(states: seq<State>, steps: seq<Step>, k: nat, t: ThreadId)
    requires Run(states, steps) && k < |states|
    requires t in states[k].submitters && states[k].submitters[t].asleep
    ensures states[k].submitters[t].waitForIdle && exists w :: w in states[k].workers
  {
    RunInv(states, steps, k);
  }

  predicate IsWorkerStep(step: Step) {
    step.WorkerBegin? || step.WorkerEnd? || step.WorkerRecord? || step.WorkerNext?
  }

  function PhaseOf(w: Worker): nat {
    match w
    case Starting(_) => 4
    case InBody(_) => 3
    case Ended(_, _) => 2
    case Notifying(_) => 1
  }

  ghost function Phase(s: State): nat {
    if exists w :: w in s.workers then
      var w :| w in s.workers;
      PhaseOf(s.workers[w])
    else 0
  }

  /** How many more worker steps until the request is finished. */
  ghost function WorkerStepsLeft(s: State, id: RequestId): nat {
    if exists w :: Unrecorded(s, w, id) then (if Phase(s) > 0 then Phase(s) - 1 else 0)
    else if s.pending.Some? && s.pending.value.id == id then 3 + Phase(s)
    else 4 + Phase(s)
  }

  lemma PhaseIs(s: State, w: ThreadId)
    requires SlotsInv(s) && w in s.workers
    ensures Phase(s) == PhaseOf(s.workers[w])
  {
  }

  /** Other threads never push an unfinished request back, and each worker step brings it closer. */
  lemma WorkersAdvance(s: State, step: Step, id: RequestId)
    requires Inv(s) && Enabled(s, step) && Unfinished(s, id) && Unfinished(Do(s, step), id)
    ensures WorkerStepsLeft(s, id) <= 8
    ensures WorkerStepsLeft(Do(s, step), id) <= WorkerStepsLeft(s, id) - if IsWorkerStep(step) then 1 else 0
  {
    assert Live(s, id) && Live(Do(s, step), id) by {
      RecordsKept(s, step);
    }
    if IsWorkerStep(step) {
      WorkerAdvances(s, step, id);
    } else {
      OthersDoNotDelay(s, step, id);
    }
  }

  lemma WorkerAdvances(s: State, step: Step, id: RequestId)
    requires SlotsInv(s) && TicketsInv(s) && Enabled(s, step) && IsWorkerStep(step)
    requires Live(s, id) && Live(Do(s, step), id)
    ensures WorkerStepsLeft(Do(s, step), id) < WorkerStepsLeft(s, id)
  {
    var t := Do(s, step);
    SlotsKept(s, step);
    LiveJobsDiffer(s);
    PhaseIs(s, step.worker);
    if step.worker in t.workers {
      PhaseIs(t, step.worker);
      assert Unrecorded(t, step.worker, id) || forall w: ThreadId :: !Unrecorded(t, w, id);
    }
    assert Unrecorded(s, step.worker, id) || forall w: ThreadId :: !Unrecorded(s, w, id);
  }

  lemma OthersDoNotDelay(s: State, step: Step, id: RequestId)
    requires SlotsInv(s) && TicketsInv(s) && Enabled(s, step) && !IsWorkerStep(step)
    requires Live(s, id) && Live(Do(s, step), id)
    ensures WorkerStepsLeft(Do(s, step), id) <= WorkerStepsLeft(s, id)
  {
    var t := Do(s, step);
    SlotsKept(s, step);
    LiveJobsDiffer(s);
    if step.SubmitFinish? && s.running.None? && step.threadStarts {
      PhaseIs(t, step.worker);
      assert Unrecorded(t, step.worker, id);
    } else {
      assert t.workers == s.workers;
      assert forall w: ThreadId :: Unrecorded(s, w, id) <==> Unrecorded(t, w, id);
    }
  }

  function WorkerSteps(steps: seq<Step>): nat {
    if steps == [] then 0
    else WorkerSteps(steps[..|steps| - 1]) + if IsWorkerStep(steps[|steps| - 1]) then 1 else 0
  }

  lemma {:induction false} SubmissionsStay(states: seq<State>, steps: seq<Step>, i: nat, k: nat)
    requires Run(states, steps) && i <= k < |states|
    ensures IdsOf(states[i].history.submitted) <= IdsOf(states[k].history.submitted)
    decreases k - i
  {
    if i < k {
      SubmissionsStay(states, steps, i, k - 1);
      RunInv(states, steps, k - 1);
      assert StepAt(states, steps, k - 1);
      HistoryChange(states[k - 1], steps[k - 1]);
    }
  }

  lemma LiveIsSubmitted(s: State, id: RequestId)
    requires Inv(s) && Live(s, id)
    ensures id in IdsOf(s.history.submitted)
  {
    var job: Job;
    if s.lock.HeldBySubmit? && s.lock.job.id == id {
      job := s.lock.job;
    } else if s.pending.Some? && s.pending.value.id == id {
      job := s.pending.value;
    } else {
      job := s.running.value;
    }
    assert job in s.history.submitted && job.id == id;
  }

  /** A submitted request that has been finished is never unfinished again. */
  lemma FinishedForGood(states: seq<State>, steps: seq<Step>, i: nat, k: nat, m: nat, id: RequestId)
    requires Run(states, steps) && i <= k <= m < |states|
    requires Unfinished(states[i], id) && !Unfinished(states[k], id)
    ensures !Unfinished(states[m], id)
  {
    RunInv(states, steps, i);
    RunInv(states, steps, k);
    RunInv(states, steps, m);
    LiveIsSubmitted(states[i], id);
    SubmissionsStay(states, steps, i, k);
    var j :| j in states[k].history.submitted && j.id == id;
    OutcomeIsFinal(states, steps, k, m, id);
  }

  /** However the other threads interleave, nine worker steps after any moment finish every request unfinished then. */
  lemma {:induction false} WorkersFinish(states: seq<State>, steps: seq<Step>, i: nat, k: nat, id: RequestId)
    requires Run(states, steps) && i <= k < |states|
    requires Unfinished(states[i], id) && Unfinished(states[k], id)
    ensures WorkerSteps(steps[i..k]) + WorkerStepsLeft(states[k], id) <= 8
    decreases k
  {
    if k == i {
      RunInv(states, steps, i);
      UnfinishedBound(states[i], id);
    } else {
      if !Unfinished(states[k - 1], id) {
        FinishedForGood(states, steps, i, k - 1, k, id);
      }
      WorkersFinish(states, steps, i, k - 1, id);
      OneMoreStep(states, steps, i, k, id);
    }
  }

  lemma OneMoreStep(states: seq<State>, steps: seq<Step>, i: nat, k: nat, id: RequestId)
    requires Run(states, steps) && i < k < |states|
    requires Unfinished(states[k - 1], id) && Unfinished(states[k], id)
    ensures WorkerSteps(steps[i..k]) + WorkerStepsLeft(states[k], id)
         <= WorkerSteps(steps[i..k - 1]) + WorkerStepsLeft(states[k - 1], id)
  {
    assert StepAt(states, steps, k - 1);
    RunInv(states, steps, k - 1);
    WorkersAdvance(states[k - 1], steps[k - 1], id);
    WorkerStepsSplit(steps, i, k);
  }

  lemma WorkerStepsSplit(steps: seq<Step>, i: nat, k: nat)
    requires i < k <= |steps|
    ensures WorkerSteps(steps[i..k]) == WorkerSteps(steps[i..k - 1]) + if IsWorkerStep(steps[k - 1]) then 1 else 0
  {
    assert steps[i..k][..k - 1 - i] == steps[i..k - 1];
    assert steps[i..k][k - 1 - i] == steps[k - 1];
  }

  lemma UnfinishedBound(s: State, id: RequestId)
    requires SlotsInv(s) && RecordsInv(s) && Unfinished(s, id)
    ensures WorkerStepsLeft(s, id) <= 8
  {
    assert Live(s, id);
  }

  /** Once its record is finished or pruned, a caller that looks returns at once, with the final outcome if one is kept. */
  lemma WaitReturns(states: seq<State>, steps: seq<Step>, k: nat)
    requires Run(states, steps) && k < |steps| && steps[k].WaitCheck? && StepAt(states, steps, k)
    requires !Unfinished(states[k], states[k].waiters[steps[k].thread].id)
    ensures var w := states[k + 1].waiters[steps[k].thread];
      && w.pc.Returned?
      && (w.pc.record.None? <==> w.id !in states[k].table)
      && (w.pc.record.Some? && w.id in states[k].history.outcome ==> w.pc.record.value.status == states[k].history.outcome[w.id])
  {
    RunInv(states, steps, k);
  }

  predicate Releases(s: State, step: Step) {
    (s.lock.HeldBySubmit? && step.SubmitFinish?) || (s.lock.HeldByWait? && step == WaitSleep(s.lock.waiter))
  }

  /** While anyone sleeps, a worker can move, or the thread that holds the lock can release it. */
  lemma SleepersAreServed(states: seq<State>, steps: seq<Step>, k: nat, t: ThreadId)
    requires Run(states, steps) && k < |states|
    requires t in states[k].waiters && states[k].waiters[t].pc == Sleeping
    ensures exists step :: Enabled(states[k], step) && (IsWorkerStep(step) || Releases(states[k], step))
  {
    RunInv(states, steps, k);
    var s := states[k];
    if !s.lock.HeldBySubmit? {
      assert s.workers != map[] by {
        if Unfinished(s, s.waiters[t].id) {
          assert Live(s, s.waiters[t].id);
        }
      }
    }
    SomeoneMoves(s);
  }

  lemma SomeoneMoves(s: State)
    requires WakeInv(s) && (s.workers != map[] || s.lock.HeldBySubmit?)
    ensures exists step :: Enabled(s, step) && (IsWorkerStep(step) || Releases(s, step))
  {
    if s.lock.HeldBySubmit? {
      var thread := FreshThread(s.workers.Keys);
      assert Enabled(s, SubmitFinish(thread, true, 0));
      assert Releases(s, SubmitFinish(thread, true, 0));
    } else if s.lock.HeldByWait? {
      assert Enabled(s, WaitSleep(s.lock.waiter)) && Releases(s, WaitSleep(s.lock.waiter));
    } else {
      var w :| w in s.workers;
      var step := match s.workers[w]
        case Starting(_) => WorkerBegin(w, 0)
        case InBody(_) => WorkerEnd(w, Succeeded)
        case Ended(_, _) => WorkerRecord(w, true, 0)
        case Notifying(_) => WorkerNext(w);
      assert Enabled(s, step) && IsWorkerStep(step);
    }
  }

  lemma {:induction false} FreshThread(used: set<ThreadId>) returns (t: ThreadId)
    ensures t !in used
  {
    if exists u :: u in used {
      var bound := UpperBound(used);
      t := bound + 1;
    } else {
      t := 0;
    }
  }

  lemma {:induction false} UpperBound(used: set<ThreadId>) returns (bound: nat)
    ensures forall u :: u in used ==> u <= bound
    decreases used
  {
    if used == {} {
      bound := 0;
    } else {
      var u :| u in used;
      var rest := UpperBound(used - {u});
      assert forall v :: v in used ==> v == u || v in used - {u};
      bound := if u > rest then u else rest;
    }
  }
}

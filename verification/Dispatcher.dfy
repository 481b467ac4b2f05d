/**
  The data plane's own slots over the result store, in the program's form:
  each critical section refines the scheduler step of the same name.
 */
module Dispatching {
  import opened Sequences
  import opened ApplyResults
  import opened Scheduler

  class Dispatcher {
    const store: ApplyResultStore
    var running: Option<Job>
    var pending: Option<Job>

    /** `s` agrees with the slots and the table kept here. */
    ghost predicate Shows(s: State)
      reads this, store
    {
      s.limit == store.limit && s.table == store.results && s.running == running && s.pending == pending
    }

    /** A restart: load what the disk holds and fail what was interrupted. */
    constructor (limit: nat, disk: Table, readable: set<RequestId>, now: RequestId -> int, files: RequestId -> Files)
      ensures fresh(store) && running == None && pending == None
      ensures forall id :: id in store.results ==> store.results[id].status.Terminal()
      ensures Recovered(map id | id in disk && id in readable :: disk[id], store.results)
      ensures forall s :: Shows(s) && Untouched(s) ==> Initial(s)
    {
      store := new ApplyResultStore(limit, disk, readable);
      running, pending := None, None;
      new;
      store.FailInterrupted(now, files);
    }

    /** The locked part of a submission up to its record: sleep while not idle, or create the record. */
    method Check(submission: Submission, id: RequestId, ticket: nat, now: int, files: Files)
      returns (asleep: bool, job: Option<Job>)
      modifies store
      ensures asleep <==> submission.waitForIdle && (running.Some? || pending.Some?)
      ensures job.Some? <==> !asleep && id !in old(store.results) && files.written
      ensures job.Some? ==> job.value == Job(id, ticket, submission.kind, submission.payload, submission.waitForIdle)
      ensures store.results == if job.Some? then old(store.results)[id := ApplyResults.Record(submission.kind, Queued, false, now, now)]
                               else old(store.results)
      ensures forall s, t :: old(Shows(s)) && Enabled(s, SubmitCheck(t, id, now, files.written))
                             && s.submitters[t] == submission && |s.history.submitted| == ticket
                ==> var after := Do(s, SubmitCheck(t, id, now, files.written));
                    && Shows(after) && (asleep <==> t in after.submitters)
                    && after.lock == if job.Some? then HeldBySubmit(job.value) else Free
    {
      asleep, job := submission.waitForIdle && (running.Some? || pending.Some?), None;
      if !asleep {
        var created := store.Create(id, submission.kind, now, files);
        if created {
          job := Some(Job(id, ticket, submission.kind, submission.payload, submission.waitForIdle));
        }
      }
    }

    /** The locked part of a submission once its record exists. */
    method Enqueue(job: Job, threadStarts: bool, now: int, files: Files) returns (accepted: bool)
      modifies this, store
      ensures accepted <==> old(running).Some? || threadStarts
      ensures if old(running).Some? then running == old(running) && pending == Some(job)
              else running == (if threadStarts then Some(job) else None) && pending == old(pending)
      ensures store.results.Keys <= old(store.results).Keys
      ensures forall id :: id in store.results && store.results[id] != old(store.results)[id] ==>
                if old(running).Some? then old(pending).Some? && id == old(pending).value.id && store.results[id].status == Superseded
                else !threadStarts && id == job.id && store.results[id].status == Failed
      ensures old(running).Some? && old(pending).Some? && old(pending).value.id in store.results ==>
                store.results[old(pending).value.id].status == Superseded
      ensures !accepted && job.id in store.results ==> store.results[job.id].status == Failed
      ensures forall s, w :: old(Shows(s)) && s.lock == HeldBySubmit(job) && w !in s.workers
                ==> Shows(Do(s, SubmitFinish(w, threadStarts, now)))
    {
      accepted := true;
      if running.None? {
        running := Some(job);
        if !threadStarts {
          running := None;
          var written := store.Update(job.id, Failed, false, now, files);
          accepted := false;
        }
      } else {
        if pending.Some? {
          var written := store.Update(pending.value.id, Superseded, false, now, files);
        }
        pending := Some(job);
      }
    }

    /** A worker marks its job running. */
    method Begin(job: Job, now: int, files: Files)
      modifies store
      ensures store.results.Keys == old(store.results).Keys
      ensures job.id in store.results ==> store.results[job.id].status == Running && !store.results[job.id].applied
      ensures forall id :: id in store.results && id != job.id ==> store.results[id] == old(store.results)[id]
      ensures forall s, w :: old(Shows(s)) && w in s.workers && s.workers[w] == Starting(job)
                ==> Shows(Do(s, WorkerBegin(w, now)))
    {
      var written := store.Update(job.id, Running, false, now, files);
    }

    /** A worker records how its job ended. */
    method Record(job: Job, status: Status, applied: bool, now: int, files: Files)
      modifies store
      ensures job.id in store.results ==> store.results[job.id].status == status && store.results[job.id].applied == applied
      ensures forall id :: id in store.results && id != job.id ==> id in old(store.results) && store.results[id] == old(store.results)[id]
      ensures forall s, w :: old(Shows(s)) && w in s.workers && s.workers[w] == Ended(job, status)
                ==> Shows(Do(s, WorkerRecord(w, applied, now)))
    {
      var written := store.Update(job.id, status, applied, now, files);
    }

    /** The end of a body: it raised, or it returned, with warnings or without. */
    method Conclude(job: Job, raised: bool, ok: bool, warnings: bool, activeState: bool, now: int, files: Files)
      returns (status: Status)
      modifies store
      ensures status == Failed <==> raised || !ok
      ensures status == SucceededWithWarnings <==> !raised && ok && warnings
      ensures status == Succeeded <==> !raised && ok && !warnings
      ensures job.id in store.results ==>
                && store.results[job.id].status == status
                && (store.results[job.id].applied <==> job.kind == Apply || activeState)
      ensures forall s, w :: old(Shows(s)) && w in s.workers && s.workers[w] == InBody(job)
                ==> && Enabled(s, WorkerEnd(w, status))
                    && Shows(Do(Do(s, WorkerEnd(w, status)), WorkerRecord(w, job.kind == Apply || activeState, now)))
    {
      status := if raised || !ok then Failed else if warnings then SucceededWithWarnings else Succeeded;
      Record(job, status, job.kind == Apply || activeState, now, files);
    }

    /** The worker's locked part: take the pending job, or leave the slots empty. */
    method TakeNext() returns (next: Option<Job>)
      modifies this
      ensures next == old(pending) && running == old(pending) && pending == None
      ensures forall s, w :: old(Shows(s)) && s.lock.Free? && w in s.workers && s.workers[w].Notifying?
                ==> Shows(Do(s, WorkerNext(w)))
    {
      next := pending;
      if pending.None? {
        running := None;
      } else {
        running := pending;
        pending := None;
      }
    }
  }
}

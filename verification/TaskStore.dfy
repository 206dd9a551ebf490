/**
 * One task's persisted record, public event log, worker jobs and workspace files, as the repositories
 * and the event service present them (backend/app/repositories/task_repo.py, event_repo.py,
 * worker_job_repo.py). Writes replace the whole record; events are only appended.
 */
module TaskStore {
  import opened Options
  import opened RouterSchema
  import opened WorkerResults

  datatype JobStatus = JobRunning | JobCompleted | JobPartial | JobError | JobTimeout | JobCancelled

  datatype JobRecord = JobRecord(input: WorkerInput, status: JobStatus, result: Option<WorkerResult>)

  predicate HasJob(jobs: seq<JobRecord>, id: nat) {
    exists k | 0 <= k < |jobs| :: jobs[k].input.jobId == id
  }

  /** What the file system does with one write. */
  datatype DiskFate = Lands | Refused

  /** One write of the task record, and how many events the public log held at that moment. */
  datatype Write = Write(task: TaskState, at: nat)

  /** The value of a store at one moment. */
  datatype Snapshot = Snapshot(
    task: TaskState, events: seq<Event>, jobs: seq<JobRecord>, files: map<string, string>,
    writes: seq<Write>, completions: seq<nat>)

  class Store {
    var task: TaskState
    var events: seq<Event>
    var jobs: seq<JobRecord>
    var files: map<string, string>
    /** Every task record written so far, oldest first; with the events this is one interleaved history. */
    ghost var writes: seq<Write>
    /** The job ids passed to CompleteJob so far. */
    ghost var completions: seq<nat>

    ghost function Now(): Snapshot
      reads this
    {
      Snapshot(task, events, jobs, files, writes, completions)
    }

    constructor (task: TaskState)
      ensures Now() == Snapshot(task, [], [], map[], [], [])
    {
      this.task, events, jobs, files, writes, completions := task, [], [], map[], [], [];
    }

    method Update(t: TaskState)
      modifies this`task, this`writes
      ensures Now() == old(Now()).(task := t, writes := old(writes) + [Write(t, |events|)])
    {
      task := t;
      writes := writes + [Write(t, |events|)];
    }

    method Append(e: Event)
      modifies this`events
      ensures Now() == old(Now()).(events := old(events) + [e])
    {
      events := events + [e];
    }

    /** Refused when the id is already taken. */
    method CreateJob(input: WorkerInput) returns (created: bool)
      modifies this`jobs
      ensures created <==> !HasJob(old(jobs), input.jobId)
      ensures Now() == old(Now()).(jobs := if created then old(jobs) + [JobRecord(input, JobRunning, None)]
              else old(jobs))
    {
      created := !HasJob(jobs, input.jobId);
      if created {
        jobs := jobs + [JobRecord(input, JobRunning, None)];
      }
    }

    /** Stores the result of the most recent job with this id. */
    method CompleteJob(id: nat, result: WorkerResult, status: JobStatus)
      requires HasJob(jobs, id)
      modifies this`jobs, this`completions
      ensures exists k :: 0 <= k < |old(jobs)| && old(jobs)[k].input.jobId == id
                && (forall j :: k < j < |old(jobs)| ==> old(jobs)[j].input.jobId != id)
                && Now() == old(Now()).(
                     jobs := old(jobs)[k := old(jobs)[k].(status := status, result := Some(result))],
                     completions := old(completions) + [id])
    {
      var k := |jobs| - 1;
      while jobs[k].input.jobId != id
        invariant 0 <= k < |jobs|
        invariant forall j :: k < j < |jobs| ==> jobs[j].input.jobId != id
        invariant exists j :: 0 <= j <= k && jobs[j].input.jobId == id
        decreases k
      {
        k := k - 1;
      }
      jobs := jobs[k := jobs[k].(status := status, result := Some(result))];
      completions := completions + [id];
    }

    method PutFile(path: string, content: string)
      modifies this`files
      ensures Now() == old(Now()).(files := old(files)[path := content])
    {
      files := files[path := content];
    }
  }
}

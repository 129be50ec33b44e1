/** The single-flight background-job table of web/app/services/jobs.py.
    Every `with _JOB_LOCK:` block is one atomic method of `JobTable`; the
    worker thread itself is the `Outcome` its target produced, handed to
    `RunJob`. */
module Jobs {
  import opened Common
  import opened Text

  datatype JobState = Idle | Running | Done | Error | Busy
  {
    /** The `state` string the source stores. */
    function Name(): string
    {
      match this
      case Idle => "idle"
      case Running => "running"
      case Done => "done"
      case Error => "error"
      case Busy => "busy"
    }
  }

  /** The job a busy answer points at (`active_job_key`, `active_job_type`,
      `active_label`). */
  datatype ActiveJob = ActiveJob(jobKey: string, jobType: string, jobLabel: string)

  /** A job dictionary. `result` is the count the target returned; the
      timestamps are not modelled. */
  datatype Job = Job(
    jobKey: string,
    jobType: string,
    jobLabel: string,
    state: JobState,
    message: string,
    result: Option<int>,
    error: Option<string>,
    active: Option<ActiveJob>)

  /** What the worker's target did: returned a count, or raised with the
      given exception text. */
  datatype Outcome = Returned(value: int) | Raised(text: string)

  /** The entry `start_job` stores for a newly admitted job. */
  function NewRunningJob(jobKey: string, jobType: string, jobLabel: string): (j: Job)
    ensures j.state == Running && j.jobKey == jobKey && j.jobType == jobType && j.jobLabel == jobLabel
    ensures j.message == jobLabel + " update running."
    ensures j.result == None && j.error == None && j.active == None
  {
    Job(jobKey, jobType, jobLabel, Running, jobLabel + " update running.", None, None, None)
  }

  /** The answer `start_job` gives while another job is running; nothing is
      stored for it. */
  function BusyJob(jobKey: string, jobType: string, jobLabel: string, running: Job): (j: Job)
    ensures j.state == Busy && j.jobKey == jobKey && j.jobType == jobType && j.jobLabel == jobLabel
    ensures j.message == running.jobLabel + " update already running."
    ensures j.active == Some(ActiveJob(running.jobKey, running.jobType, running.jobLabel))
  {
    Job(jobKey, jobType, jobLabel, Busy, running.jobLabel + " update already running.", None, None,
        Some(ActiveJob(running.jobKey, running.jobType, running.jobLabel)))
  }

  /** The answer `get_job_status` gives for a key with no entry. */
  function IdleJob(jobKey: string, jobType: string, jobLabel: string): (j: Job)
    ensures j.state == Idle && j.message == [] && j.jobKey == jobKey
  {
    Job(jobKey, jobType, jobLabel, Idle, "", None, None, None)
  }

  /** The message of a failed job: the stripped exception text, or
      `Update failed.` when nothing is left of it. */
  function FailureMessage(text: string): (m: string)
    ensures m != []
    ensures Strip(text) != [] ==> m == Strip(text)
    ensures Strip(text) == [] ==> m == "Update failed."
  {
    if Strip(text) != [] then Strip(text) else "Update failed."
  }

  /** The message of a finished job: the count when it is non-zero. */
  function DoneMessage(jobLabel: string, result: int): (m: string)
    ensures result != 0 ==> m == jobLabel + " updated: " + IntToString(result) + " points."
    ensures result == 0 ==> m == jobLabel + " completed."
  {
    if result != 0 then jobLabel + " updated: " + IntToString(result) + " points."
    else jobLabel + " completed."
  }

  /** The fields `_run_job` updates in a stored entry. */
  function Finish(job: Job, outcome: Outcome): (j: Job)
    ensures j.jobKey == job.jobKey && j.jobType == job.jobType && j.jobLabel == job.jobLabel
    ensures j.active == job.active
    ensures outcome.Raised? ==> j.state == Error && j.message != []
                                && j.message == FailureMessage(outcome.text)
                                && j.error == Some(j.message) && j.result == job.result
    ensures outcome.Returned? ==> j.state == Done && j.result == Some(outcome.value)
                                  && j.message == DoneMessage(job.jobLabel, outcome.value)
                                  && j.error == job.error
  {
    match outcome
    case Raised(text) =>
      var msg := FailureMessage(text);
      job.(state := Error, message := msg, error := Some(msg))
    case Returned(value) =>
      job.(state := Done, result := Some(value), message := DoneMessage(job.jobLabel, value))
  }

  /** No two entries are running. */
  ghost predicate AtMostOneRunning(jobs: map<string, Job>)
  {
    forall k1, k2 ::
      (k1 in jobs && k2 in jobs && jobs[k1].state == Running && jobs[k2].state == Running) ==> k1 == k2
  }

  /** The table behind `_JOBS`. */
  class JobTable {
    var jobs: map<string, Job>

    /** Every entry is filed under its own key, only stored states appear,
        and at most one entry is running. */
    ghost predicate Valid()
      reads this
    {
      (forall k :: k in jobs ==> jobs[k].jobKey == k
                                 && (jobs[k].state == Running || jobs[k].state == Done
                                     || jobs[k].state == Error))
      && AtMostOneRunning(jobs)
    }

    constructor()
      ensures Valid() && jobs == map[]
    {
      jobs := map[];
    }

    /** `_find_running_job`: scans the entries for a running one. */
    method FindRunningJob() returns (r: Option<Job>)
      ensures r.Some? ==> r.value.jobKey in jobs && jobs[r.value.jobKey] == r.value
                          && r.value.state == Running
      ensures r.None? ==> forall k :: k in jobs ==> jobs[k].state != Running
      requires Valid()
    {
      var remaining := jobs.Keys;
      while remaining != {}
        invariant remaining <= jobs.Keys
        invariant forall k :: k in jobs && k !in remaining ==> jobs[k].state != Running
        decreases remaining
      {
        var k :| k in remaining;
        if jobs[k].state == Running {
          return Some(jobs[k]);
        }
        remaining := remaining - {k};
      }
      return None;
    }

    /** `start_job`. While a job under another key runs the answer is busy
        and nothing changes; a key that is already running answers with its
        entry and starts no worker; otherwise the key gets a fresh running
        entry and a worker is started (`spawned`). */
    method StartJob(jobKey: string, jobType: string, jobLabel: string) returns (job: Job, spawned: bool)
      requires Valid()
      modifies this
      ensures Valid()
      ensures (exists k :: k in old(jobs) && k != jobKey && old(jobs)[k].state == Running) ==>
                job.state == Busy && job.jobKey == jobKey && !spawned && jobs == old(jobs)
                && job.active.Some? && job.active.value.jobKey in old(jobs)
                && job == BusyJob(jobKey, jobType, jobLabel, old(jobs)[job.active.value.jobKey])
                && old(jobs)[job.active.value.jobKey].state == Running
      ensures jobKey in old(jobs) && old(jobs)[jobKey].state == Running ==>
                job == old(jobs)[jobKey] && !spawned && jobs == old(jobs)
      ensures (forall k :: k in old(jobs) ==> old(jobs)[k].state != Running) ==>
                job == NewRunningJob(jobKey, jobType, jobLabel) && spawned
                && jobs == old(jobs)[jobKey := job]
      ensures spawned ==> job.state == Running && jobs == old(jobs)[jobKey := job]
      ensures !spawned ==> jobs == old(jobs)
    {
      var running := FindRunningJob();
      if running.Some? && running.value.jobKey != jobKey {
        job := BusyJob(jobKey, jobType, jobLabel, running.value);
        spawned := false;
        return;
      }
      if jobKey in jobs && jobs[jobKey].state == Running {
        job := jobs[jobKey];
        spawned := false;
        return;
      }
      job := NewRunningJob(jobKey, jobType, jobLabel);
      jobs := jobs[jobKey := job];
      spawned := true;
    }

    /** The locked block of `_run_job`: a missing entry is left alone,
        otherwise the entry records the outcome. */
    method RunJob(jobKey: string, outcome: Outcome)
      requires Valid()
      modifies this
      ensures Valid()
      ensures jobKey !in old(jobs) ==> jobs == old(jobs)
      ensures jobKey in old(jobs) ==> jobs == old(jobs)[jobKey := Finish(old(jobs)[jobKey], outcome)]
      ensures jobs.Keys == old(jobs).Keys
    {
      if jobKey !in jobs {
        return;
      }
      jobs := jobs[jobKey := Finish(jobs[jobKey], outcome)];
    }

    /** `get_job_status`: the stored entry, or an idle answer. */
    method GetJobStatus(jobKey: string, jobType: string, jobLabel: string) returns (job: Job)
      ensures jobKey !in jobs ==> job == IdleJob(jobKey, jobType, jobLabel)
      ensures jobKey in jobs ==> job == jobs[jobKey]
    {
      if jobKey !in jobs {
        return IdleJob(jobKey, jobType, jobLabel);
      }
      return jobs[jobKey];
    }
  }

  /** Two jobs started one after the other under different keys: the
      second is refused as busy until the first has finished, and then it
      is admitted. */
  method SingleFlightScenario() returns (second: Job, third: Job)
    ensures second.state == Busy && second.active == Some(ActiveJob("lstm:1", "lstm", "LSTM"))
    ensures third.state == Running && third.jobKey == "gru:1"
  {
    var table := new JobTable();
    var first, spawned1 := table.StartJob("lstm:1", "lstm", "LSTM");
    assert first == NewRunningJob("lstm:1", "lstm", "LSTM");
    assert table.jobs == map["lstm:1" := first];
    assert "lstm:1" != "gru:1" by { assert "lstm:1"[0] != "gru:1"[0]; }
    assert "lstm:1" in table.jobs && table.jobs["lstm:1"].state == Running;
    var spawned2;
    second, spawned2 := table.StartJob("gru:1", "gru", "GRU");
    assert table.jobs == map["lstm:1" := first];
    assert second == BusyJob("gru:1", "gru", "GRU", first);
    table.RunJob("lstm:1", Returned(30));
    var finished := Finish(first, Returned(30));
    assert finished.state == Done;
    assert table.jobs == map["lstm:1" := finished];
    assert forall k :: k in table.jobs ==> table.jobs[k].state != Running;
    var spawned3;
    third, spawned3 := table.StartJob("gru:1", "gru", "GRU");
  }
}

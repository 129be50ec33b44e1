/** The helpers of the chart routes in web/app/routes/charts.py: job keys,
    form-integer parsing, how a job answer becomes an HTTP status or a
    flash message, and the guard that refuses a recalculation whose
    configured horizon is not positive. */
module Charts {
  import opened Common
  import opened Text
  import opened Jobs

  /** `JOB_LABELS`. */
  const JobLabels: map<string, string> := map["prophet" := "Prophet", "lstm" := "LSTM", "gru" := "GRU"]

  /** `_job_key`: `<job_type>:<crypto_id>`. */
  function JobKey(jobType: string, cryptoId: int): (k: string)
    ensures |k| > |jobType| && k[..|jobType|] == jobType && k[|jobType|] == ':'
  {
    jobType + ":" + IntToString(cryptoId)
  }

  /** Job keys of colon-free job types identify the job type and the asset:
      two routes never share a table entry by accident. */
  lemma JobKeyInjective(t1: string, c1: int, t2: string, c2: int)
    requires ':' !in t1 && ':' !in t2
    requires JobKey(t1, c1) == JobKey(t2, c2)
    ensures t1 == t2 && c1 == c2
  {
    var k := JobKey(t1, c1);
    assert k[..|t1|] == t1 && k[|t1|] == ':';
    assert k[..|t2|] == t2 && k[|t2|] == ':';
    CutAtFirst(k, ':', |t1|);
    CutAtFirst(k, ':', |t2|);
    assert t1 == t2;
    assert IntToString(c1) == k[|t1| + 1..] == IntToString(c2);
    IntToStringInjective(c1, c2);
  }

  /** `_parse_int`: the default for a missing or empty value, a value
      `int()` rejects, or a value outside `allowed` (when given); the parsed
      integer otherwise. */
  function ParseIntArg(value: Option<string>, default: int, allowed: Option<set<int>>): (r: int)
    ensures value.None? || value == Some("") ==> r == default
    ensures value.Some? && ParseInt(value.value).None? ==> r == default
    ensures value.Some? && ParseInt(value.value).Some?
            && (allowed.None? || ParseInt(value.value).value in allowed.value)
            ==> r == ParseInt(value.value).value
    ensures value.Some? && ParseInt(value.value).Some?
            && allowed.Some? && ParseInt(value.value).value !in allowed.value
            ==> r == default
    ensures allowed.Some? && default in allowed.value ==> r in allowed.value
  {
    if value.None? || value.value == "" then default
    else
      match ParseInt(value.value)
      case None => default
      case Some(parsed) =>
        if allowed.Some? && parsed !in allowed.value then default else parsed
  }

  /** A layer count written by the form is read back as itself, and
      anything else falls back to 1. */
  lemma ParseIntArgLayers(n: int)
    ensures ParseIntArg(Some(IntToString(n)), 1, Some({1, 2, 3})) == (if n in {1, 2, 3} then n else 1)
  {
    ParseIntToString(n);
  }

  /** The HTTP status of a JSON job answer: 202 while running, else 200. */
  function JobStatusCode(job: Job): (code: int)
    ensures code == 202 <==> job.state == Running
    ensures code == 200 || code == 202
  {
    if job.state == Running then 202 else 200
  }

  /** The flash category of a job answer. */
  function FlashCategory(job: Job): (category: string)
    ensures job.state == Done ==> category == "success"
    ensures job.state == Error ==> category == "error"
    ensures job.state == Busy ==> category == "warning"
    ensures job.state == Running || job.state == Idle ==> category == "info"
  {
    match job.state
    case Done => "success"
    case Error => "error"
    case Busy => "warning"
    case _ => "info"
  }

  /** The flashed text: the job's message, or `Update queued.` when empty. */
  function FlashMessage(job: Job): (m: string)
    ensures m != []
    ensures job.message != [] ==> m == job.message
  {
    if job.message == [] then "Update queued." else job.message
  }

  /** The answer a recalculation route gives when its horizon is off. */
  function DisabledJob(jobType: string, cryptoId: int): (j: Job)
    requires jobType in JobLabels
    ensures j.state == Error && j.jobKey == JobKey(jobType, cryptoId)
    ensures j.message == JobLabels[jobType] + " forecast disabled"
  {
    Job(JobKey(jobType, cryptoId), jobType, JobLabels[jobType], Error,
        JobLabels[jobType] + " forecast disabled", None, None, None)
  }

  /** The job-admission part of `recalculate_prophet`, `recalculate_lstm`
      and `recalculate_gru`: a horizon that is not positive answers with an
      error and never reaches `start_job`; otherwise `start_job` answers
      busy while another job runs, returns the asset's running job when it
      is already running, and starts it when nothing runs. */
  method Recalculate(table: JobTable, jobType: string, cryptoId: int, horizonDays: int)
    returns (job: Job)
    requires jobType in JobLabels && table.Valid()
    modifies table
    ensures table.Valid()
    ensures horizonDays <= 0 ==> job == DisabledJob(jobType, cryptoId) && table.jobs == old(table.jobs)
    ensures horizonDays > 0 ==>
              job.jobKey == JobKey(jobType, cryptoId)
              && (table.jobs == old(table.jobs)
                  || table.jobs == old(table.jobs)[JobKey(jobType, cryptoId) := job])
    ensures horizonDays > 0
            && (exists k :: k in old(table.jobs) && k != JobKey(jobType, cryptoId) && old(table.jobs)[k].state == Running)
            ==> job.state == Busy && table.jobs == old(table.jobs)
                && job.active.Some? && job.active.value.jobKey in old(table.jobs)
                && old(table.jobs)[job.active.value.jobKey].state == Running
                && job == BusyJob(JobKey(jobType, cryptoId), jobType, JobLabels[jobType],
                                  old(table.jobs)[job.active.value.jobKey])
    ensures horizonDays > 0 && JobKey(jobType, cryptoId) in old(table.jobs)
            && old(table.jobs)[JobKey(jobType, cryptoId)].state == Running
            ==> job == old(table.jobs)[JobKey(jobType, cryptoId)] && table.jobs == old(table.jobs)
    ensures horizonDays > 0 && (forall k :: k in old(table.jobs) ==> old(table.jobs)[k].state != Running)
            ==> job == NewRunningJob(JobKey(jobType, cryptoId), jobType, JobLabels[jobType])
                && table.jobs == old(table.jobs)[JobKey(jobType, cryptoId) := job]
  {
    if horizonDays <= 0 {
      return DisabledJob(jobType, cryptoId);
    }
    var key := JobKey(jobType, cryptoId);
    var spawned;
    job, spawned := table.StartJob(key, jobType, JobLabels[jobType]);
  }

  /** `job_status`: an unknown job type is a 404 (`None`); otherwise the
      status of the asset's job of that type. */
  method JobStatusRoute(table: JobTable, jobType: string, cryptoId: int) returns (r: Option<Job>)
    ensures jobType !in JobLabels ==> r.None?
    ensures jobType in JobLabels && JobKey(jobType, cryptoId) in table.jobs ==>
              r == Some(table.jobs[JobKey(jobType, cryptoId)])
    ensures jobType in JobLabels && JobKey(jobType, cryptoId) !in table.jobs ==>
              r == Some(IdleJob(JobKey(jobType, cryptoId), jobType, JobLabels[jobType]))
  {
    if jobType !in JobLabels {
      return None;
    }
    var job := table.GetJobStatus(JobKey(jobType, cryptoId), jobType, JobLabels[jobType]);
    return Some(job);
  }
}

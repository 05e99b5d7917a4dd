/**
 Using a Pod: upload, remote commands, artifact download and the mandatory
 deletion at the end of every run.
 */
module JobRun {
  import opened Prelude
  import opened Protocol
  import opened Lifecycle

  /** What the work on a selected Pod keeps. */
  predicate Working(c: Cloud, job: Job, l: Ledger, pod: nat, endpoint: nat, endsAt: int) {
    && Legal(job, c.trace) && l == Replay(job, c.trace)
    && l.live == Some(pod) && l.failedDeletes == 0 && !l.closing && Ready(l, endpoint) && l.fetch.Untried?
    && InTime(c, endsAt, 100)
  }

  /** Either nothing has gone wrong, or the cause that ended the job is on record. */
  predicate OnRecord(c: Cloud, m: Ledger, ok: bool, endsAt: int) {
    if ok then m.stop.None? else Stopped(c, m, endsAt)
  }

  /** How far an upload has got. */
  function UploadAfter(steps: nat): Progress {
    if steps == 0 then NotStarted else if steps < UPLOAD_STEPS then Uploading(steps) else Complete
  }

  /** One step of the upload; the first is local work, the others are remote calls under the deadline. */
  method DoUploadStep(a: Cloud, job: Job, pod: nat, endpoint: nat, step: nat, endsAt: int) returns (c: Cloud, ok: bool)
    requires Working(a, job, Replay(job, a.trace), pod, endpoint, endsAt) && step < UPLOAD_STEPS
    requires Replay(job, a.trace).upload == UploadAfter(step) && Replay(job, a.trace).stop.None?
    ensures Working(c, job, Replay(job, c.trace), pod, endpoint, endsAt)
    ensures Lasts(a, c, [0, 60_000, 900_000, 300_000][step])
    ensures var l, m := Replay(job, a.trace), Replay(job, c.trace);
            && m == l.(upload := m.upload, target := m.target, stop := m.stop) && OnRecord(c, m, ok, endsAt)
            && (m.target == l.target || m.target == Some(Target(Some(pod), endpoint)))
            && (if ok then m.upload == UploadAfter(step + 1) && m.target == Some(Target(Some(pod), endpoint))
                else !m.upload.Complete?)
  {
    var caps := [0, 60_000, 900_000, 300_000];
    if step == 0 {
      c := Call(a, 0);
    } else {
      c, ok := Bounded(a, job, UploadCall(step), endsAt, Some(caps[step]));
      if !ok { return; }
    }
    ok := *;
    c := Record(job, c, UploadStep(endpoint, step, ok));
  }

  /** `upload_repo`: a local archive, a directory, a copy and an unpacking; the first failure ends the job. */
  method UploadRepo(a: Cloud, job: Job, pod: nat, endpoint: nat, endsAt: int) returns (c: Cloud, ok: bool)
    requires Working(a, job, Replay(job, a.trace), pod, endpoint, endsAt)
    requires Replay(job, a.trace).upload.NotStarted? && Replay(job, a.trace).stop.None?
    ensures Working(c, job, Replay(job, c.trace), pod, endpoint, endsAt) && Lasts(a, c, 1_260_000)
    ensures var l, m := Replay(job, a.trace), Replay(job, c.trace);
            && m == l.(upload := m.upload, target := m.target, stop := m.stop) && OnRecord(c, m, ok, endsAt)
            && (m.upload.Complete? <==> ok) && (ok ==> m.target == Some(Target(Some(pod), endpoint)))
  {
    c := a;
    ghost var l := Replay(job, a.trace);
    for step := 0 to UPLOAD_STEPS
      invariant Working(c, job, Replay(job, c.trace), pod, endpoint, endsAt)
      invariant Lasts(a, c, [0, 0, 60_000, 960_000, 1_260_000][step])
      invariant var m := Replay(job, c.trace);
                && m == l.(upload := UploadAfter(step), target := m.target)
                && (step > 0 ==> m.target == Some(Target(Some(pod), endpoint)))
    {
      c, ok := DoUploadStep(c, job, pod, endpoint, step, endsAt);
      if !ok { return; }
    }
    ok := true;
  }

  /** The Pod selected for the GPU id asked for last. */
  predicate IsSelection(job: Job, l: Ledger, r: Round) {
    && r.Selected? && 0 < l.creates <= |job.candidates| + |job.candidates| && r.gpuId == Slot(job, l.creates - 1)
    && l.check == Checked(Accepted(r.assignment))
  }

  /** One remote command with the exports of the selected Pod. */
  method RunScript(a: Cloud, job: Job, r: Round, number: nat, endsAt: int) returns (c: Cloud, ok: bool)
    requires var l := Replay(job, a.trace);
             && IsSelection(job, l, r) && Working(a, job, l, r.pod, r.endpoint, endsAt) && l.stop.None?
             && l.upload.Complete? && l.commands == number && number < job.commands
    ensures Legal(job, c.trace) && InTime(c, endsAt, 100) && a.clock <= c.clock
    ensures ok ==> Replay(job, c.trace) == Replay(job, a.trace).(commands := number + 1)
    ensures !ok ==> Halts(Replay(job, a.trace), c, job, endsAt)
  {
    c, ok := Bounded(a, job, CommandCall(number), endsAt, None);
    if !ok { return; }
    var succeeded: bool := *;
    c := NoteCommand(c, job, r, number, succeeded, endsAt);
    ok := succeeded;
  }

  method NoteCommand(a: Cloud, job: Job, r: Round, number: nat, ok: bool, endsAt: int) returns (c: Cloud)
    requires var l := Replay(job, a.trace);
             && IsSelection(job, l, r) && Legal(job, a.trace) && l.live.Some? && !l.closing && Ready(l, r.endpoint)
             && l.fetch.Untried? && l.stop.None? && l.upload.Complete? && l.commands == number < job.commands
    ensures c == a.(trace := c.trace) && Legal(job, c.trace)
    ensures if ok then Replay(job, c.trace) == Replay(job, a.trace).(commands := number + 1)
            else Halts(Replay(job, a.trace), c, job, endsAt)
  {
    c := Record(job, a, Command(r.endpoint, number, ExpectedExports(job, r.gpuId, r.assignment), ok));
  }

  /** The commands in order; the first failure ends the job. */
  method RunCommands(a: Cloud, job: Job, r: Round, endsAt: int) returns (c: Cloud, ok: bool)
    requires var l := Replay(job, a.trace);
             && IsSelection(job, l, r) && Working(a, job, l, r.pod, r.endpoint, endsAt) && l.stop.None?
             && l.upload.Complete? && l.commands == 0
    ensures Working(c, job, Replay(job, c.trace), r.pod, r.endpoint, endsAt) && a.clock <= c.clock
    ensures var l, m := Replay(job, a.trace), Replay(job, c.trace);
            && m == l.(commands := m.commands, stop := m.stop) && OnRecord(c, m, ok, endsAt)
            && if ok then m.commands == job.commands else m.commands < job.commands
  {
    c := a;
    ghost var l := Replay(job, a.trace);
    for i := 0 to job.commands
      invariant Working(c, job, Replay(job, c.trace), r.pod, r.endpoint, endsAt) && a.clock <= c.clock
      invariant Replay(job, c.trace) == l.(commands := i)
    {
      c, ok := RunScript(c, job, r, i, endsAt);
      if !ok { return; }
    }
    ok := true;
  }

  /** A call of the download; without time left for it, that is recorded instead and ends the download. */
  method BoundedFetch(a: Cloud, job: Job, call: CallKind, endsAt: int, cap: nat) returns (c: Cloud, ok: bool)
    requires Legal(job, a.trace) && Due(job, Replay(job, a.trace), call) && cap >= 100
    requires call.PackCall? || call.CopyCall?
    ensures ok <==> a.clock < endsAt
    ensures ok ==> InTime(c, endsAt, 100) && Later(a, c, Timeout(endsAt, a.clock, Some(cap)).value)
    ensures !ok ==> c == a.(trace := a.trace + [NoTime(call, a.clock)]) && Legal(job, c.trace)
    ensures !ok ==> Replay(job, c.trace) == Step(job, Replay(job, a.trace), NoTime(call, a.clock))
    ensures Lasts(a, c, cap)
  {
    var timeout := Timeout(endsAt, a.clock, Some(cap));
    ok := timeout.Some?;
    if ok {
      c := Call(a, timeout.value);
    } else {
      c := Record(job, a, NoTime(call, a.clock));
    }
  }

  /** The download has ended one way or the other, with time up when it says so. */
  predicate FetchEnded(c: Cloud, fetch: Fetch, endsAt: int) {
    && (fetch.Fetched? || fetch.MissingArtifact? || fetch.FetchFailed?)
    && (fetch.FetchFailed? ==> Stamped(c, fetch.cause, endsAt))
  }

  /** How the packing went, as the Pod answers. */
  method NotePacking(a: Cloud, job: Job, endpoint: nat) returns (c: Cloud, fetch: Fetch)
    requires Legal(job, a.trace) && MayFetch(job, Replay(job, a.trace)) && Ready(Replay(job, a.trace), endpoint)
    ensures c == a.(trace := c.trace) && Legal(job, c.trace)
    ensures Replay(job, c.trace) == Replay(job, a.trace).(fetch := fetch)
    ensures fetch in {Packed, MissingArtifact, FetchFailed(Pack(endpoint, PackBroken))}
  {
    var packing: Packing := *;
    c := Record(job, a, Pack(endpoint, packing));
    fetch := match packing
      case PackedUp => Packed
      case ItemMissing => MissingArtifact
      case PackBroken => FetchFailed(Pack(endpoint, PackBroken));
  }

  /** Pack the artifacts on the Pod. */
  method PackArtifacts(a: Cloud, job: Job, endpoint: nat, endsAt: int) returns (c: Cloud, fetch: Fetch)
    requires Legal(job, a.trace) && InTime(a, endsAt, 100)
    requires MayFetch(job, Replay(job, a.trace)) && Ready(Replay(job, a.trace), endpoint)
    ensures Legal(job, c.trace) && InTime(c, endsAt, 100) && Lasts(a, c, 600_000)
    ensures Replay(job, c.trace) == Replay(job, a.trace).(fetch := fetch)
    ensures fetch.Packed? || (!fetch.Fetched? && FetchEnded(c, fetch, endsAt))
  {
    var ok: bool;
    c, ok := BoundedFetch(a, job, PackCall, endsAt, 600_000);
    if !ok { return c, FetchFailed(NoTime(PackCall, a.clock)); }
    c, fetch := NotePacking(c, job, endpoint);
  }

  /** Copy the archive of them and unpack it. */
  method CopyArtifacts(a: Cloud, job: Job, endpoint: nat, endsAt: int) returns (c: Cloud, failure: Option<Event>)
    requires Legal(job, a.trace) && InTime(a, endsAt, 100)
    requires Due(job, Replay(job, a.trace), CopyCall) && Ready(Replay(job, a.trace), endpoint)
    ensures Legal(job, c.trace) && InTime(c, endsAt, 100) && Lasts(a, c, 900_000)
    ensures Replay(job, c.trace) == Replay(job, a.trace).(fetch := Tidying(failure))
    ensures failure.Some? ==> Stamped(c, failure.value, endsAt)
  {
    var ok: bool;
    c, ok := BoundedFetch(a, job, CopyCall, endsAt, 900_000);
    if !ok { return c, Some(NoTime(CopyCall, a.clock)); }
    c, failure := NoteCopy(c, job, endpoint);
  }

  /** How the copy went. */
  method NoteCopy(a: Cloud, job: Job, endpoint: nat) returns (c: Cloud, failure: Option<Event>)
    requires Legal(job, a.trace) && Due(job, Replay(job, a.trace), CopyCall) && Ready(Replay(job, a.trace), endpoint)
    ensures c == a.(trace := c.trace) && Legal(job, c.trace)
    ensures Replay(job, c.trace) == Replay(job, a.trace).(fetch := Tidying(failure))
    ensures failure in {None, Some(Copy(endpoint, false))}
  {
    var ok: bool := *;
    c := Record(job, a, Copy(endpoint, ok));
    failure := if ok then None else Some(Copy(endpoint, false));
  }

  /** Remove the remote archive, in up to 30 s and at least one; nobody asks whether that worked. */
  method RemoveArchive(a: Cloud, job: Job, endpoint: nat, failure: Option<Event>, endsAt: int) returns (c: Cloud)
    requires Legal(job, a.trace) && InTime(a, endsAt, 100)
    requires Replay(job, a.trace).fetch == Tidying(failure) && Ready(Replay(job, a.trace), endpoint)
    ensures Legal(job, c.trace) && InTime(c, endsAt, 1_100) && Lasts(a, c, 30_000)
    ensures Replay(job, c.trace)
            == Replay(job, a.trace).(fetch := if failure.None? then Fetched else FetchFailed(failure.value))
  {
    c := Call(a, Min(30_000, Max(1_000, SecondsLeft(endsAt, a.clock))));
    c := Record(job, c, Remove(endpoint));
  }

  /** `download_artifacts`: pack, copy, and remove the remote archive whatever happened to the copy. */
  method DownloadArtifacts(a: Cloud, job: Job, pod: nat, endpoint: nat, endsAt: int) returns (c: Cloud, fetch: Fetch)
    requires Working(a, job, Replay(job, a.trace), pod, endpoint, endsAt) && MayFetch(job, Replay(job, a.trace))
    ensures Legal(job, c.trace) && InTime(c, endsAt, 1_100) && Lasts(a, c, 1_530_000)
    ensures Replay(job, c.trace) == Replay(job, a.trace).(fetch := fetch) && FetchEnded(c, fetch, endsAt)
  {
    c, fetch := PackArtifacts(a, job, endpoint, endsAt);
    if !fetch.Packed? { return; }
    var failure;
    c, failure := CopyArtifacts(c, job, endpoint, endsAt);
    c := RemoveArchive(c, job, endpoint, failure, endsAt);
    fetch := if failure.None? then Fetched else FetchFailed(failure.value);
  }

  datatype Outcome =
    | Result(pod: nat, endpoint: nat, gpuId: Option<string>)
    | JobError(job: bool, artifact: bool, cleanup: bool)

  /** How far the work got. */
  predicate WorkDone(c: Cloud, job: Job, m: Ledger, r: Round, ok: bool, endsAt: int) {
    && IsSelection(job, m, r) && OnRecord(c, m, ok, endsAt)
    && (m.upload.Complete? ==> m.target == Some(Target(Some(r.pod), r.endpoint)))
    && (if ok then m.upload.Complete? && m.commands == job.commands else m.commands < job.commands)
  }

  /** Upload and commands; false is the job's error. */
  method Work(a: Cloud, job: Job, r: Round, endsAt: int) returns (c: Cloud, uploaded: bool, ok: bool)
    requires job.Valid() && r.Selected? && Working(a, job, Replay(job, a.trace), r.pod, r.endpoint, endsAt)
    requires var l := Replay(job, a.trace);
             IsSelection(job, l, r) && l.upload.NotStarted? && l.commands == 0 && l.stop.None?
    ensures Working(c, job, Replay(job, c.trace), r.pod, r.endpoint, endsAt)
    ensures WorkDone(c, job, Replay(job, c.trace), r, ok, endsAt)
    ensures uploaded <==> Replay(job, c.trace).upload.Complete?
  {
    c, uploaded := UploadRepo(a, job, r.pod, r.endpoint, endsAt);
    if !uploaded { return c, false, false; }
    c, ok := RunCommands(c, job, r, endsAt);
  }

  /** The longest a run can outlast its hard timeout if no call and no local work is late. */
  const OVERRUN := CLEANUP + CLEANUP + 100
  const OVERRUN_AFTER_UPLOAD := CLEANUP + 1_100

  /** What every run leaves behind. */
  ghost predicate Settled(c: Cloud, job: Job, m: Ledger, outcome: Outcome, endsAt: int) {
    && Legal(job, c.trace) && m == Replay(job, c.trace)
    && (m.live.Some? <==> outcome.JobError? && outcome.cleanup) && (m.live.Some? ==> m.failedDeletes >= 3)
    && InTime(c, endsAt, OVERRUN)
    && (!m.upload.NotStarted? ==> InTime(c, endsAt, OVERRUN_AFTER_UPLOAD))
    && (m.stop.Some? ==> Stopped(c, m, endsAt))
    && (m.commands < job.commands <==> m.stop.Some? || Spent(job, m))
    && (m.fetch.Untried? <==> !(m.upload.Complete? && job.artifacts))
    && (m.fetch.Skipped? ==> endsAt - 1_000 <= m.fetch.at <= c.clock)
    && (m.fetch.Untried? || m.fetch.Skipped? || FetchEnded(c, m.fetch, endsAt))
    && (outcome.JobError? ==>
          && (outcome.job || outcome.artifact || outcome.cleanup)
          && (outcome.job <==> m.stop.Some? || Spent(job, m))
          && (outcome.artifact <==> m.fetch.FetchFailed? || (m.fetch.MissingArtifact? && !outcome.job)))
    && (outcome.Result? ==>
          && m.stop.None? && m.upload.Complete? && m.commands == job.commands
          && m.target == Some(Target(Some(outcome.pod), outcome.endpoint))
          && 0 < m.creates <= |job.candidates| + |job.candidates|
          && outcome.gpuId == (if job.request.gpu then Some(Slot(job, m.creates - 1)) else None)
          && (m.fetch.Fetched? || m.fetch.Skipped? || !job.artifacts))
  }

  /** Whether the API lets the run in. */
  method CheckAuth(a: Cloud, job: Job, endsAt: int) returns (c: Cloud, ok: bool)
    requires job.Valid() && a.trace == [] && InTime(a, endsAt, 0)
    ensures Legal(job, c.trace) && InTime(c, endsAt, 100) && Lasts(a, c, 30_000)
    ensures if ok then Authorized(c, job) else Halts(START, c, job, endsAt)
  {
    // The clients are set up before the first call, in their own time.
    var ready := Call(a, 0);
    c, ok := Bounded(ready, job, AuthCall, endsAt, Some(30_000));
    if !ok { return; }
    ok := *;
    c := Record(job, c, Auth(ok));
  }

  /**
   `run_job`. For every behaviour of API, SSH and clock the trace follows the
   protocol, the Pod is deleted or its deletion failed at least three times and
   is reported, requested artifacts are downloaded unless at most a second was
   left when that was decided, and the run ends in time. A job error has a cause
   on record, and a run without one returns its result.
   */
  method RunJob(a: Cloud, job: Job) returns (c: Cloud, outcome: Outcome)
    requires job.Valid() && a.trace == [] && a.late == 0
    ensures Settled(c, job, Replay(job, c.trace), outcome, a.clock + job.hardMs)
  {
    var endsAt := a.clock + job.hardMs;
    var ok: bool;
    c, ok := CheckAuth(a, job, endsAt);
    if !ok { return c, JobError(true, false, false); }
    var r: Round;
    if job.request.gpu {
      c, r := PlaceGpu(c, job, endsAt);
    } else {
      c, r := PlaceCpu(c, job, endsAt);
    }
    if !r.Selected? {
      c, outcome := GiveUp(c, job, r, endsAt);
      return;
    }
    var uploaded: bool;
    c, uploaded, ok := Work(c, job, r, endsAt);
    c, outcome := Conclude(c, job, r, uploaded, ok, endsAt);
  }

  /** No Pod was selected: delete the one that is left, if any. */
  method GiveUp(a: Cloud, job: Job, r: Round, endsAt: int) returns (c: Cloud, outcome: Outcome)
    requires job.Valid() && !r.Selected? && AfterRound(a, job, Replay(job, a.trace), r, endsAt)
    requires r.Exhausted? ==> Spent(job, Replay(job, a.trace))
    ensures Settled(c, job, Replay(job, c.trace), outcome, endsAt)
  {
    c, outcome := a, JobError(true, false, false);
    if r.Failed? && r.remaining.Some? {
      var deleted: bool;
      c, deleted := TerminateStrictly(a, job, r.remaining.value);
      outcome := JobError(true, false, !deleted);
    }
  }

  /** Download what was asked for, unless nothing was uploaded or at most a second is left. */
  method FetchArtifacts(a: Cloud, job: Job, r: Round, uploaded: bool, endsAt: int) returns (c: Cloud, fetch: Fetch)
    requires r.Selected? && Working(a, job, Replay(job, a.trace), r.pod, r.endpoint, endsAt)
    requires var l := Replay(job, a.trace);
             (uploaded <==> l.upload.Complete?) && (l.stop.Some? || l.commands == job.commands)
    ensures Legal(job, c.trace) && InTime(c, endsAt, 1_100) && a.clock <= c.clock
    ensures Replay(job, c.trace) == Replay(job, a.trace).(fetch := fetch)
    ensures fetch.Untried? <==> !(uploaded && job.artifacts)
    ensures fetch.Skipped? ==> endsAt - 1_000 <= fetch.at == a.clock
    ensures uploaded && job.artifacts && a.clock >= endsAt - 1_000 ==> fetch.Skipped?
    ensures fetch.Untried? || fetch.Skipped? || FetchEnded(c, fetch, endsAt)
  {
    c, fetch := a, Untried;
    if uploaded && job.artifacts {
      if SecondsLeft(endsAt, a.clock) > 1_000 {
        c, fetch := DownloadArtifacts(a, job, r.pod, r.endpoint, endsAt);
      } else {
        fetch := Skipped(a.clock);
        c := Record(job, a, Skip(a.clock));
      }
    }
  }

  /** Download, delete, report. */
  method Conclude(a: Cloud, job: Job, r: Round, uploaded: bool, worked: bool, endsAt: int)
    returns (c: Cloud, outcome: Outcome)
    requires job.Valid() && r.Selected?
    requires Working(a, job, Replay(job, a.trace), r.pod, r.endpoint, endsAt)
    requires WorkDone(a, job, Replay(job, a.trace), r, worked, endsAt)
    requires uploaded <==> Replay(job, a.trace).upload.Complete?
    ensures Settled(c, job, Replay(job, c.trace), outcome, endsAt)
  {
    var fetch;
    c, fetch := FetchArtifacts(a, job, r, uploaded, endsAt);
    var deleted: bool;
    c, deleted := TerminateStrictly(c, job, r.pod);
    // A debug artifact the failed job never wrote does not hide the job's own error.
    var artifact := fetch.FetchFailed? || (fetch.MissingArtifact? && worked);
    if !worked || artifact || !deleted { return c, JobError(!worked, artifact, !deleted); }
    outcome := Result(r.pod, r.endpoint, if job.request.gpu then Some(r.gpuId) else None);
  }
}

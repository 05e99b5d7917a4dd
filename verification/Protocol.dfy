/**
 The life of a Pod as a protocol: what the orchestrator asks for, how it judges
 what it got, and which API call may follow which.
 */
module Protocol {
  import opened Prelude

  // ---- What was asked for and what was placed ----

  datatype Assignment = Assignment(cpus: nat, bytes: nat)

  datatype Request = Request(gpu: bool, buildWorkload: bool, minimumCpus: nat, minimumGb: nat, minimumDisk: nat)
  {
    predicate Builds() { !gpu || buildWorkload }
  }

  /** The Pod details read back from the API; None where a number is missing or malformed. */
  datatype Details = Details(
    imageMatches: bool, flavorMatches: bool, gpuIds: seq<string>,
    cpus: Option<int>, memoryGb: Option<real>, disk: Option<int>, volume: Option<int>)

  datatype Verdict = Accepted(assignment: Option<Assignment>) | Misplaced | Refused

  /** Decimal gigabytes as whole bytes. */
  function MemoryBytes(gb: Option<real>): (bytes: Option<nat>)
    ensures bytes.Some? ==> gb.Some? && bytes.value > 0 && bytes.value as real == gb.value * 1_000_000_000.0
  {
    if gb.None? || gb.value <= 0.0 then None
    else
      var scaled := gb.value * 1_000_000_000.0;
      if scaled.Floor as real == scaled then Some(scaled.Floor) else None
  }

  predicate AtLeast(value: Option<int>, minimum: nat) {
    value.Some? && value.value >= minimum
  }

  /** CPU, memory, disk and volume of a build Pod. */
  predicate Sized(r: Request, d: Details) {
    && AtLeast(d.cpus, r.minimumCpus)
    && MemoryBytes(d.memoryGb).Some? && d.memoryGb.value >= r.minimumGb as real
    && AtLeast(d.disk, r.minimumDisk) && d.volume == Some(0)
  }

  predicate ExactGpu(ids: seq<string>, gpuId: string) {
    ids != [] && forall g :: g in ids ==> g == gpuId
  }

  /** `verify_pod_assignment`: Misplaced is the retryable placement error, Refused any other. */
  function Judge(r: Request, gpuId: string, d: Details): (v: Verdict)
    ensures v.Accepted? ==> (v.assignment.Some? <==> r.Builds())
    ensures v.Misplaced? <==> r.gpu && d.imageMatches && !v.Accepted?
  {
    if !d.imageMatches then Refused
    else if r.gpu && !ExactGpu(d.gpuIds, gpuId) then Misplaced
    else if r.gpu && !r.buildWorkload then Accepted(None)
    else if r.gpu && !Sized(r, d) then Misplaced
    else if !r.gpu && (!d.flavorMatches || !Sized(r, d)) then Refused
    else Accepted(Some(Assignment(d.cpus.value, MemoryBytes(d.memoryGb).value)))
  }

  // ---- The trace and the protocol it has to follow ----

  /** A job: `candidates` are the ordered GPU ids, one of "" for a CPU Pod. */
  datatype Job = Job(
    request: Request, candidates: seq<string>, commands: nat, artifacts: bool,
    hardMs: nat, graceMs: nat, pollMs: int)
  {
    predicate Valid() {
      && candidates != [] && (!request.gpu ==> |candidates| == 1)
      && commands > 0 && hardMs > 0 && graceMs >= 60_000
    }

    function Attempts(): nat { if request.gpu then |candidates| + |candidates| else 1 }
  }

  datatype CreateOutcome = NoCapacity | CreateFailed | Created(pod: nat)

  /** What the orchestrator exports to a remote command. */
  datatype Exports = Exports(assignment: Option<Assignment>, gpuId: Option<string>)

  /** The calls of a run, by the step that makes them. */
  datatype CallKind =
    | AuthCall | CreateCall | StatusCall | ProbeCall | DetailsCall | PollSleep | Backoff
    | UploadCall(step: nat) | CommandCall(number: nat) | PackCall | CopyCall

  datatype Packing = PackedUp | ItemMissing | PackBroken

  datatype Event =
    | Auth(ok: bool)
    | Create(gpuId: string, outcome: CreateOutcome)
    | Status(pod: nat, terminal: bool)
    | Probe(pod: nat, endpoint: nat, ready: bool)
    | Verify(pod: nat, details: Details, verdict: Verdict)
    | UploadStep(endpoint: nat, step: nat, ok: bool)
    | Command(endpoint: nat, number: nat, exports: Exports, ok: bool)
    | Pack(endpoint: nat, packing: Packing)
    | Copy(endpoint: nat, ok: bool)
    | Remove(endpoint: nat)                // the attempt to remove the remote archive, whatever came of it
    | Skip(at: int)                        // no download was tried, decided at this time
    | Lost(call: CallKind)                 // a status, probe or details call that raised instead of answering
    | NoTime(call: CallKind, at: int)      // a call that was not made: at this time none was left for it
    | Delete(pod: nat, ok: bool)

  /** The download: not come to, left out for want of time, under way, to be tidied up after, done, or failed. */
  datatype Fetch =
    | Untried | Skipped(at: int) | Packed | Tidying(failure: Option<Event>)
    | Fetched | MissingArtifact | FetchFailed(cause: Event)

  datatype Check = Unchecked | Checked(verdict: Verdict)

  /** The local archive, the remote directory, the copy, the unpacking. */
  const UPLOAD_STEPS := 4

  datatype Progress = NotStarted | Uploading(done: nat) | Complete

  datatype Target = Target(pod: Option<nat>, endpoint: nat)

  /** What ended the job: an event, or a misplaced Pod that did not go away. */
  datatype Cause = Ended(event: Event) | Undeletable

  /** What is known after a trace. */
  datatype Ledger = Ledger(
    authorized: bool,
    live: Option<nat>,          // the Pod that was returned and not confirmed deleted
    failedDeletes: nat,         // how often its deletion failed
    endpoint: Option<nat>,      // where its SSH service answered a probe
    check: Check,
    creates: nat,
    firstRound: nat,            // capacity failures among the first round of creates
    upload: Progress,
    target: Option<Target>,     // where the upload went
    commands: nat,              // commands that succeeded
    fetch: Fetch,               // how the download ended
    stop: Option<Cause>,
    closing: bool)              // a Pod is deleted that was not misplaced, or did not go away

  const START := Ledger(false, None, 0, None, Unchecked, 0, 0, NotStarted, None, 0, Untried, None, false)

  predicate IsMisplaced(l: Ledger) { l.check == Checked(Misplaced) }

  function Halt(l: Ledger, e: Event): Ledger { l.(stop := Some(Ended(e))) }

  function Step(job: Job, l: Ledger, e: Event): Ledger {
    match e
    case Auth(ok) => if ok then l.(authorized := true) else Halt(l, e)
    case Create(_, outcome) =>
      var counted := l.(creates := l.creates + 1);
      (match outcome
       case NoCapacity =>
         counted.(firstRound := if l.creates < |job.candidates| then l.firstRound + 1 else l.firstRound)
       case CreateFailed => Halt(counted, e)
       case Created(pod) =>
         counted.(live := Some(pod), failedDeletes := 0, endpoint := None, check := Unchecked))
    case Status(_, terminal) => if terminal then Halt(l, e) else l
    case Probe(_, endpoint, ready) => if ready then l.(endpoint := Some(endpoint)) else l
    case Verify(_, _, verdict) =>
      var checked := l.(check := Checked(verdict));
      if verdict.Refused? then Halt(checked, e) else checked
    case UploadStep(endpoint, step, ok) =>
      var begun := l.(upload := AfterStep(step, ok), target := Some(Target(l.live, endpoint)));
      if ok then begun else Halt(begun, e)
    case Command(_, _, _, ok) => if ok then l.(commands := l.commands + 1) else Halt(l, e)
    case Pack(_, packing) =>
      l.(fetch :=
           if packing.PackedUp? then Packed else if packing.ItemMissing? then MissingArtifact else FetchFailed(e))
    case Copy(_, ok) => l.(fetch := Tidying(if ok then None else Some(e)))
    case Remove(_) =>
      if !l.fetch.Tidying? then l
      else l.(fetch := if l.fetch.failure.None? then Fetched else FetchFailed(l.fetch.failure.value))
    case Skip(at) => l.(fetch := Skipped(at))
    case Lost(_) => Halt(l, e)
    case NoTime(call, _) =>
      if call.PackCall? then l.(fetch := FetchFailed(e))
      else if call.CopyCall? then l.(fetch := Tidying(Some(e)))
      else Halt(l, e)
    case Delete(_, ok) => if ok then Deleted(l) else DeleteFailed(l)
  }

  function AfterStep(step: nat, ok: bool): Progress {
    if !ok then Uploading(step) else if step + 1 < UPLOAD_STEPS then Uploading(step + 1) else Complete
  }

  function Deleted(l: Ledger): Ledger {
    l.(live := None, failedDeletes := 0, endpoint := None, check := Unchecked, closing := l.closing || !IsMisplaced(l))
  }

  function DeleteFailed(l: Ledger): Ledger {
    l.(failedDeletes := l.failedDeletes + 1, closing := l.closing || !IsMisplaced(l) || l.failedDeletes >= 2,
       stop := if l.stop.None? && IsMisplaced(l) && l.failedDeletes >= 2 then Some(Undeletable) else l.stop)
  }

  /** The GPU id of the k-th create: the candidates in order, then once more. */
  function Slot(job: Job, k: nat): string
    requires k < |job.candidates| + |job.candidates|
  {
    if k < |job.candidates| then job.candidates[k] else job.candidates[k - |job.candidates|]
  }

  predicate MayCreate(job: Job, l: Ledger) {
    && l.authorized && l.stop.None? && l.live.None? && !l.closing && l.upload.NotStarted?
    && l.creates < job.Attempts() <= |job.candidates| + |job.candidates|
    && (l.creates >= |job.candidates| ==> l.firstRound == |job.candidates|)
  }

  /** A download may be tried: after all commands or after what ended them. */
  predicate MayFetch(job: Job, l: Ledger) {
    && l.fetch.Untried? && l.live.Some? && l.endpoint.Some? && Ready(l, l.endpoint.value)
    && l.upload.Complete? && !l.closing && job.artifacts
    && (l.stop.Some? || l.commands == job.commands)
  }

  /** Which call the run may be about to make. */
  predicate Due(job: Job, l: Ledger, call: CallKind) {
    match call
    case AuthCall => l.stop.None? && !l.authorized
    case CreateCall => MayCreate(job, l)
    case Backoff => MayCreate(job, l) && l.creates == |job.candidates|
    case StatusCall | ProbeCall | PollSleep =>
      l.stop.None? && l.live.Some? && l.failedDeletes == 0 && l.check.Unchecked? && l.endpoint.None?
    case DetailsCall =>
      && l.stop.None? && l.live.Some? && l.failedDeletes == 0 && l.check.Unchecked? && l.endpoint.Some?
      && 0 < l.creates <= |job.candidates| + |job.candidates|
    case UploadCall(step) =>
      && l.stop.None? && l.live.Some? && l.endpoint.Some? && Ready(l, l.endpoint.value) && !l.closing
      && l.upload == (if step == 0 then NotStarted else Uploading(step)) && step < UPLOAD_STEPS
    case CommandCall(number) =>
      && l.stop.None? && l.live.Some? && l.endpoint.Some? && Ready(l, l.endpoint.value) && !l.closing
      && l.upload.Complete? && l.fetch.Untried? && number == l.commands < job.commands
      && 0 < l.creates <= |job.candidates| + |job.candidates|
    case PackCall => MayFetch(job, l)
    case CopyCall => l.fetch.Packed? && l.live.Some? && l.endpoint.Some? && Ready(l, l.endpoint.value)
  }

  function ExpectedExports(job: Job, gpuId: string, assignment: Option<Assignment>): Exports {
    Exports(assignment, if job.request.gpu then Some(gpuId) else None)
  }

  /** The rules of the protocol. */
  predicate Allowed(job: Job, l: Ledger, e: Event) {
    match e
    case Auth(_) => Due(job, l, AuthCall)
    case Create(gpuId, outcome) =>
      MayCreate(job, l) && gpuId == Slot(job, l.creates) && (outcome.NoCapacity? ==> job.request.gpu)
    case Status(pod, _) => Due(job, l, StatusCall) && l.live == Some(pod)
    case Probe(pod, _, _) => Due(job, l, ProbeCall) && l.live == Some(pod)
    case Verify(pod, details, verdict) =>
      && Due(job, l, DetailsCall) && l.live == Some(pod)
      && verdict == Judge(job.request, Slot(job, l.creates - 1), details)
    case UploadStep(endpoint, step, _) => Due(job, l, UploadCall(step)) && Ready(l, endpoint)
    case Command(endpoint, number, exports, _) =>
      && Due(job, l, CommandCall(number)) && Ready(l, endpoint)
      && exports == ExpectedExports(job, Slot(job, l.creates - 1), l.check.verdict.assignment)
    case Pack(endpoint, _) => Due(job, l, PackCall) && Ready(l, endpoint)
    case Copy(endpoint, _) => Due(job, l, CopyCall) && Ready(l, endpoint)
    case Remove(endpoint) => l.fetch.Tidying? && Ready(l, endpoint)
    case Skip(_) => MayFetch(job, l)
    case Lost(call) => Due(job, l, call) && (call.StatusCall? || call.ProbeCall? || call.DetailsCall?)
    case NoTime(call, _) => Due(job, l, call)
    case Delete(pod, _) => l.live == Some(pod)
  }

  /** The live Pod was verified and answers at this endpoint. */
  predicate Ready(l: Ledger, endpoint: nat) {
    l.live.Some? && l.endpoint == Some(endpoint) && l.check.Checked? && l.check.verdict.Accepted?
  }

  function Replay(job: Job, trace: seq<Event>): Ledger {
    if trace == [] then START else Step(job, Replay(job, trace[..|trace| - 1]), trace[|trace| - 1])
  }

  /** One more event makes one more step. */
  lemma OneMoreEvent(job: Job, trace: seq<Event>, e: Event)
    requires Legal(job, trace) && Allowed(job, Replay(job, trace), e)
    ensures Legal(job, trace + [e]) && Replay(job, trace + [e]) == Step(job, Replay(job, trace), e)
    ensures Statuses(trace + [e]) == Statuses(trace) + if e.Status? then 1 else 0
  {
    assert (trace + [e])[..|trace|] == trace;
  }

  /** How often a Pod's status was answered. */
  function Statuses(trace: seq<Event>): nat {
    if trace == [] then 0 else Statuses(trace[..|trace| - 1]) + if trace[|trace| - 1].Status? then 1 else 0
  }

  predicate Legal(job: Job, trace: seq<Event>) {
    || trace == []
    || (&& Legal(job, trace[..|trace| - 1])
        && Allowed(job, Replay(job, trace[..|trace| - 1]), trace[|trace| - 1]))
  }
}

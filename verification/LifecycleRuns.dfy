/**
 What the protocol of a Pod's life means for the API calls of every run, in
 terms of the trace alone.
 */
module LifecycleRuns {
  import opened Prelude
  import opened Protocol
  import opened Lifecycle
  import opened JobRun

  predicate Creates(e: Event) { e.Create? && e.outcome.Created? }

  /** Every event was allowed by what preceded it. */
  lemma {:induction false} AllowedAt(job: Job, trace: seq<Event>, i: nat)
    requires Legal(job, trace) && i < |trace|
    ensures Legal(job, trace[..i]) && Allowed(job, Replay(job, trace[..i]), trace[i])
    decreases |trace|
  {
    var front := trace[..|trace| - 1];
    if i < |front| {
      AllowedAt(job, front, i);
      assert front[..i] == trace[..i];
    }
  }

  /** A live Pod stays live until it is deleted, and no other is created meanwhile. */
  lemma LiveStays(job: Job, l: Ledger, e: Event)
    requires Allowed(job, l, e)
    ensures l.live.Some? ==> !e.Create?
    ensures l.live.Some? && e != Delete(l.live.value, true) ==> Step(job, l, e).live == l.live
  {
  }

  /** The Pod returned at the j-th event was deleted later on. */
  ghost predicate DeletedAfter(trace: seq<Event>, j: nat, pod: nat) {
    exists k :: j < k < |trace| && trace[k] == Delete(pod, true)
  }

  lemma DeletedStays(front: seq<Event>, e: Event, j: nat, pod: nat)
    requires DeletedAfter(front, j, pod) || (j < |front| && e == Delete(pod, true))
    ensures DeletedAfter(front + [e], j, pod)
  {
    var trace := front + [e];
    if DeletedAfter(front, j, pod) {
      var k :| j < k < |front| && front[k] == Delete(pod, true);
      assert trace[k] == Delete(pod, true);
    } else {
      assert trace[|front|] == Delete(pod, true);
    }
  }

  /** A Pod that was returned is either deleted later on, or live with no create since. */
  lemma {:induction false} DeletedOrLive(job: Job, trace: seq<Event>, j: nat)
    requires Legal(job, trace) && j < |trace| && Creates(trace[j])
    ensures || DeletedAfter(trace, j, trace[j].outcome.pod)
            || (&& Replay(job, trace).live == Some(trace[j].outcome.pod)
                && forall k :: j < k < |trace| ==> !trace[k].Create?)
  {
    var front, e, pod := trace[..|trace| - 1], trace[|trace| - 1], trace[j].outcome.pod;
    if j < |front| {
      assert front + [e] == trace;
      DeletedOrLive(job, front, j);
      if DeletedAfter(front, j, pod) || e == Delete(pod, true) {
        DeletedStays(front, e, j, pod);
      } else {
        LiveStays(job, Replay(job, front), e);
      }
    }
  }

  /**
   At every create each Pod returned earlier has been confirmed deleted in
   between, so no more than one known Pod is ever live.
   */
  lemma EarlierPodsAreDeleted(job: Job, trace: seq<Event>, j: nat, i: nat)
    requires Legal(job, trace) && j < i < |trace| && Creates(trace[j]) && trace[i].Create?
    ensures exists k :: j < k < i && trace[k] == Delete(trace[j].outcome.pod, true)
  {
    AllowedAt(job, trace, i);
    var before := trace[..i];
    DeletedOrLive(job, before, j);
    var k :| j < k < |before| && before[k] == Delete(trace[j].outcome.pod, true);
    assert trace[k] == before[k];
  }

  /** Nothing was created or deleted from the j-th event on. */
  ghost predicate Undisturbed(trace: seq<Event>, j: nat) {
    forall i :: j < i < |trace| ==> !trace[i].Create? && !(trace[i].Delete? && trace[i].ok)
  }

  /** How the live Pod came to be in the state the ledger says it is in. */
  ghost predicate Origin(job: Job, trace: seq<Event>, l: Ledger, created: nat, probed: nat, verified: nat) {
    && created < |trace| && l.live.Some? && 0 < l.creates <= |job.candidates| + |job.candidates|
    && trace[created] == Create(Slot(job, l.creates - 1), Created(l.live.value))
    && Undisturbed(trace, created)
    && (l.endpoint.Some? ==> created < probed < |trace| && trace[probed] == Probe(l.live.value, l.endpoint.value, true))
    && (l.check.Checked? ==>
          && l.endpoint.Some? && probed < verified < |trace|
          && trace[verified].Verify? && trace[verified].pod == l.live.value
          && trace[verified].verdict == l.check.verdict
          && l.check.verdict == Judge(job.request, Slot(job, l.creates - 1), trace[verified].details))
  }

  /** One more event that neither creates nor deletes keeps the origin, extended by what it adds. */
  lemma OriginStays(job: Job, front: seq<Event>, l: Ledger, e: Event, created: nat, probed: nat, verified: nat)
    requires Origin(job, front, l, created, probed, verified)
    requires Allowed(job, l, e) && Step(job, l, e).live.Some?
    ensures Origin(job, front + [e], Step(job, l, e), created,
                   if e.Probe? && e.ready then |front| else probed, if e.Verify? then |front| else verified)
  {
    var trace := front + [e];
    assert trace[|front|] == e && forall k :: 0 <= k < |front| ==> trace[k] == front[k];
    OriginFields(job, l, e);
  }

  /** What an event of a live Pod's life may change of what the origin is about. */
  lemma OriginFields(job: Job, l: Ledger, e: Event)
    requires Allowed(job, l, e) && l.live.Some? && Step(job, l, e).live.Some?
    ensures var m := Step(job, l, e);
            && m.live == l.live && m.creates == l.creates && !e.Create? && !(e.Delete? && e.ok)
            && m.endpoint == (if e.Probe? && e.ready then Some(e.endpoint) else l.endpoint)
            && m.check == (if e.Verify? then Checked(e.verdict) else l.check)
            && (e.Probe? ==> Some(e.pod) == l.live && l.check.Unchecked?)
            && (e.Verify? ==> Some(e.pod) == l.live && l.endpoint.Some?)
  {
  }

  lemma OriginStarts(job: Job, front: seq<Event>, l: Ledger, e: Event)
    requires Allowed(job, l, e) && Creates(e)
    ensures Origin(job, front + [e], Step(job, l, e), |front|, 0, 0)
  {
  }

  lemma LiveBefore(job: Job, l: Ledger, e: Event)
    requires Allowed(job, l, e) && Step(job, l, e).live.Some? && !Creates(e)
    ensures l.live.Some?
  {
  }

  lemma {:induction false} LiveHasOrigin(job: Job, trace: seq<Event>) returns (created: nat, probed: nat, verified: nat)
    requires Legal(job, trace) && Replay(job, trace).live.Some?
    ensures Origin(job, trace, Replay(job, trace), created, probed, verified)
  {
    var front, e := trace[..|trace| - 1], trace[|trace| - 1];
    var l := Replay(job, front);
    assert front + [e] == trace;
    if Creates(e) {
      OriginStarts(job, front, l, e);
      created, probed, verified := |front|, 0, 0;
    } else {
      LiveBefore(job, l, e);
      created, probed, verified := LiveHasOrigin(job, front);
      OriginStays(job, front, l, e, created, probed, verified);
      probed := if e.Probe? && e.ready then |front| else probed;
      verified := if e.Verify? then |front| else verified;
    }
  }

  /** The calls that work on a Pod. */
  predicate Works(e: Event) {
    e.UploadStep? || e.Command? || e.Pack? || e.Copy? || e.Remove?
  }

  /**
   Source and commands only reach the Pod that was created for the GPU id asked
   for last, answered at that endpoint, and then passed verification; commands
   carry the CPU and memory that verification read back.
   */
  lemma WorkReachesTheVerifiedPod(job: Job, trace: seq<Event>, i: nat)
    returns (created: nat, probed: nat, verified: nat)
    requires Legal(job, trace) && i < |trace| && Works(trace[i])
    ensures created < probed < verified < i && Creates(trace[created])
    ensures var pod, gpuId := trace[created].outcome.pod, trace[created].gpuId;
            && trace[probed] == Probe(pod, trace[i].endpoint, true)
            && trace[verified].Verify? && trace[verified].pod == pod
            && trace[verified].verdict == Judge(job.request, gpuId, trace[verified].details)
            && trace[verified].verdict.Accepted?
            && Undisturbed(trace[..i], created)
            && (trace[i].Command? ==>
                  && trace[i].exports.assignment == trace[verified].verdict.assignment
                  && trace[i].exports.gpuId == (if job.request.gpu then Some(gpuId) else None))
  {
    AllowedAt(job, trace, i);
    var before := trace[..i];
    created, probed, verified := LiveHasOrigin(job, before);
    assert trace[created] == before[created] && trace[probed] == before[probed] && trace[verified] == before[verified];
  }

  lemma UploadStays(job: Job, l: Ledger, e: Event)
    requires e.UploadStep? || !l.upload.NotStarted?
    ensures !Step(job, l, e).upload.NotStarted?
  {
  }

  lemma {:induction false} UploadIsRemembered(job: Job, trace: seq<Event>, j: nat)
    requires j < |trace| && trace[j].UploadStep?
    ensures !Replay(job, trace).upload.NotStarted?
  {
    var front := trace[..|trace| - 1];
    if j < |front| { UploadIsRemembered(job, front, j); }
    UploadStays(job, Replay(job, front), trace[|front|]);
  }

  /** Once an upload has been started no Pod is created any more. */
  lemma NoCreateAfterUpload(job: Job, trace: seq<Event>, j: nat, i: nat)
    requires Legal(job, trace) && j < i < |trace| && trace[j].UploadStep?
    ensures !trace[i].Create?
  {
    AllowedAt(job, trace, i);
    UploadIsRemembered(job, trace[..i], j);
  }

  /** The create calls of a trace, in order. */
  function CreateCalls(trace: seq<Event>): (calls: seq<Event>)
    ensures forall k :: 0 <= k < |calls| ==> calls[k].Create?
  {
    if trace == [] then []
    else
      var last := trace[|trace| - 1];
      var before := CreateCalls(trace[..|trace| - 1]);
      if last.Create? then before + [last] else before
  }

  /** What the counters of a ledger say about the create calls before it. */
  predicate Counted(job: Job, l: Ledger, calls: seq<Event>)
    requires forall k :: 0 <= k < |calls| ==> calls[k].Create?
  {
    var n := |job.candidates|;
    && |calls| == l.creates && l.firstRound <= Min(l.creates, n) && (l.creates <= job.Attempts() || l.creates == 0)
    && (l.firstRound == Min(l.creates, n)
        <==> forall k :: 0 <= k < |calls| && k < n ==> calls[k].outcome.NoCapacity?)
    && (l.stop.None? ==> forall k :: 0 <= k < |calls| ==> !calls[k].outcome.CreateFailed?)
  }

  lemma CountedStays(job: Job, l: Ledger, calls: seq<Event>, e: Event)
    requires forall k :: 0 <= k < |calls| ==> calls[k].Create?
    requires Counted(job, l, calls) && Allowed(job, l, e) && e.Create?
    ensures Counted(job, Step(job, l, e), calls + [e])
  {
    var now := calls + [e];
    assert now[|calls|] == e && forall k :: 0 <= k < |calls| ==> now[k] == calls[k];
  }

  lemma OnlyCreatesCount(job: Job, l: Ledger, e: Event)
    requires Allowed(job, l, e) && !e.Create?
    ensures var m := Step(job, l, e);
            m.creates == l.creates && m.firstRound == l.firstRound && (m.stop.None? ==> l.stop.None?)
  {
  }

  lemma {:induction false} CreatesAreCounted(job: Job, trace: seq<Event>)
    requires Legal(job, trace)
    ensures Counted(job, Replay(job, trace), CreateCalls(trace))
  {
    if trace != [] {
      var front, e := trace[..|trace| - 1], trace[|trace| - 1];
      CreatesAreCounted(job, front);
      if e.Create? {
        CountedStays(job, Replay(job, front), CreateCalls(front), e);
      } else {
        OnlyCreatesCount(job, Replay(job, front), e);
      }
    }
  }

  /**
   The GPU ids of the create calls are a prefix of the candidates taken twice;
   the second copy is reached only if every create of the first was a capacity
   failure, and any other failure of a create ends the sequence.
   */
  lemma {:induction false} CreatesFollowTheCandidates(job: Job, trace: seq<Event>)
    requires Legal(job, trace)
    ensures var calls, n := CreateCalls(trace), |job.candidates|;
            && |calls| <= job.Attempts() && |calls| <= n + n
            && (forall k :: 0 <= k < |calls| ==> calls[k].gpuId == (job.candidates + job.candidates)[k])
            && (|calls| > n ==> forall k :: 0 <= k < n ==> calls[k].outcome.NoCapacity?)
            && (forall k :: 0 <= k < |calls| - 1 ==> !calls[k].outcome.CreateFailed?)
  {
    if trace != [] {
      var front, last := trace[..|trace| - 1], trace[|trace| - 1];
      CreatesFollowTheCandidates(job, front);
      CreatesAreCounted(job, front);
      if last.Create? {
        var calls := CreateCalls(front);
        var k := |calls|;
        assert CreateCalls(trace) == calls + [last];
        assert last.gpuId == Slot(job, k) == (job.candidates + job.candidates)[k];
      }
    }
  }

  /** The commands that were run, in order. */
  function CommandCalls(trace: seq<Event>): seq<Event> {
    if trace == [] then []
    else
      var last := trace[|trace| - 1];
      var before := CommandCalls(trace[..|trace| - 1]);
      if last.Command? && last.ok then before + [last] else before
  }

  lemma CommandStep(job: Job, l: Ledger, e: Event)
    requires Allowed(job, l, e)
    ensures Step(job, l, e).commands == l.commands + if e.Command? && e.ok then 1 else 0
    ensures e.Command? ==> e.number == l.commands
  {
  }

  /** A run that returns a result ran every command, successfully and in order, on the Pod it returns. */
  lemma {:induction false} CommandsRunInOrder(job: Job, trace: seq<Event>)
    requires Legal(job, trace)
    ensures var calls := CommandCalls(trace);
            && |calls| == Replay(job, trace).commands
            && forall k :: 0 <= k < |calls| ==> calls[k].Command? && calls[k].ok && calls[k].number == k
  {
    if trace != [] {
      CommandsRunInOrder(job, trace[..|trace| - 1]);
      CommandStep(job, Replay(job, trace[..|trace| - 1]), trace[|trace| - 1]);
    }
  }

  /** How often the deletion of the live Pod was tried without success. */
  function FailedDeletes(trace: seq<Event>, pod: nat): nat {
    if trace == [] then 0
    else
      var last := trace[|trace| - 1];
      if Creates(last) then 0
      else FailedDeletes(trace[..|trace| - 1], pod) + if last == Delete(pod, false) then 1 else 0
  }

  lemma FailedDeletesStep(job: Job, l: Ledger, e: Event)
    requires Allowed(job, l, e) && Step(job, l, e).live.Some? && !Creates(e)
    ensures l.live == Step(job, l, e).live
    ensures Step(job, l, e).failedDeletes == l.failedDeletes + if e == Delete(l.live.value, false) then 1 else 0
  {
  }

  lemma {:induction false} FailedDeletesAreCounted(job: Job, trace: seq<Event>)
    requires Legal(job, trace) && Replay(job, trace).live.Some?
    ensures FailedDeletes(trace, Replay(job, trace).live.value) == Replay(job, trace).failedDeletes
  {
    var front, last := trace[..|trace| - 1], trace[|trace| - 1];
    if !Creates(last) {
      FailedDeletesStep(job, Replay(job, front), last);
      FailedDeletesAreCounted(job, front);
    }
  }

  /** On every exit each Pod ever returned is deleted, or is the last one, tried three times and reported. */
  lemma EveryPodIsAccountedFor(job: Job, c: Cloud, outcome: Outcome, endsAt: int, j: nat)
    requires Settled(c, job, Replay(job, c.trace), outcome, endsAt)
    requires j < |c.trace| && Creates(c.trace[j])
    ensures var pod := c.trace[j].outcome.pod;
            || (exists k :: j < k < |c.trace| && c.trace[k] == Delete(pod, true))
            || (outcome.JobError? && outcome.cleanup && FailedDeletes(c.trace, pod) >= 3)
  {
    DeletedOrLive(job, c.trace, j);
    if Replay(job, c.trace).live.Some? { FailedDeletesAreCounted(job, c.trace); }
  }

  /** The platform's own deadline: hard timeout and grace from the time of its computation, cut to whole seconds. */
  function PlatformDeadline(job: Job, computedAt: int): int {
    (computedAt + job.hardMs + job.graceMs) / 1000 * 1000
  }

  /** A grace that covers two cleanup passes, the roundings and all lateness lets cleanup come first. */
  lemma CleanupPrecedesThePlatform(job: Job, c: Cloud, outcome: Outcome, start: int, computedAt: int)
    requires Settled(c, job, Replay(job, c.trace), outcome, start + job.hardMs) && start <= computedAt
    requires job.graceMs >= OVERRUN + 999 + c.late
    ensures c.clock < PlatformDeadline(job, computedAt)
  {
  }

  // ---- A run that ends as late as a run can ----

  /**
   What happens between two moments of a run, by the lines of
   tools/runpod_job.py that do it: `Ask` is a call with `deadline.timeout(cap)`
   (check_auth at 1227, create at 1291, status at 957, probe at 965, details at
   1038), `PollPause` the sleep of wait_for_ssh at 971, `Note` what those calls
   answered, `TryDelete` and `RetryPause` the call and the sleep of
   _terminate_strictly at 1144 and 1155, which run_job enters for a rejected Pod
   at 1335 and once more on its way out at 1451.
   */
  datatype Move =
    | Ask(cap: nat)
    | PollPause
    | Note(e: Event)
    | TryDelete(pod: nat, ok: bool)
    | RetryPause

  /** One or two deletes of a pass have failed, of the first pass or of the second. */
  predicate MidPass(l: Ledger) { 1 <= l.failedDeletes <= 2 || 4 <= l.failedDeletes <= 5 }

  /** The moves of `wait_for_ssh`, `_terminate_strictly` and the calls around them, none of them late. */
  predicate Moves(job: Job, endsAt: int, a: Cloud, m: Move, c: Cloud) {
    match m
    case Ask(cap) =>
      && cap >= 100 && Timeout(endsAt, a.clock, Some(cap)).Some?
      && Later(a, c, Timeout(endsAt, a.clock, Some(cap)).value) && c.late == a.late
    case PollPause =>
      && Replay(job, a.trace).live.Some? && Timeout(endsAt, a.clock, None).Some?
      && c == a.(clock := a.clock + Min(PollGap(job), Timeout(endsAt, a.clock, None).value))
    case Note(e) =>
      && !e.Delete? && Allowed(job, Replay(job, a.trace), e) && Dated(e, a.clock) && Stamped(a, e, endsAt)
      && c == a.(trace := a.trace + [e])
    case TryDelete(pod, ok) =>
      && Allowed(job, Replay(job, a.trace), Delete(pod, ok))
      && a.clock <= c.clock <= a.clock + 20_000 && c == a.(clock := c.clock, trace := a.trace + [Delete(pod, ok)])
    case RetryPause => MidPass(Replay(job, a.trace)) && c == a.(clock := a.clock + 2_000)
  }

  /** The clouds a run passed through, latest last. */
  datatype Path = Begin(at: Cloud) | Then(before: Path, move: Move, at: Cloud)

  ghost predicate IsPath(job: Job, endsAt: int, p: Path) {
    p.Then? ==>
      && IsPath(job, endsAt, p.before) && Legal(job, p.before.at.trace)
      && Moves(job, endsAt, p.before.at, p.move, p.at)
  }

  ghost predicate StartsAt(p: Path, a: Cloud) {
    if p.Begin? then p.at == a else StartsAt(p.before, a)
  }

  /** A path that goes on from where another one is. */
  ghost predicate Reaches(job: Job, endsAt: int, a: Cloud, p: Path) {
    IsPath(job, endsAt, p) && StartsAt(p, a) && Legal(job, p.at.trace)
  }

  /** Where a path has got to. */
  ghost predicate Stands(job: Job, endsAt: int, a: Cloud, p: Path, clock: int, l: Ledger) {
    Reaches(job, endsAt, a, p) && p.at.clock == clock && p.at.late == 0 && Replay(job, p.at.trace) == l
  }

  /** A call under the deadline that takes its time. */
  lemma Asked(job: Job, endsAt: int, a: Cloud, p: Path, cap: nat, took: nat, clock: int, l: Ledger) returns (q: Path)
    requires Stands(job, endsAt, a, p, clock, l) && cap >= 100
    requires Timeout(endsAt, clock, Some(cap)).Some? && took <= Timeout(endsAt, clock, Some(cap)).value
    ensures Stands(job, endsAt, a, q, clock + took, l)
  {
    q := Then(p, Ask(cap), p.at.(clock := clock + took));
  }

  lemma PausedForPoll(job: Job, endsAt: int, a: Cloud, p: Path, clock: int, l: Ledger) returns (q: Path)
    requires Stands(job, endsAt, a, p, clock, l) && l.live.Some? && clock < endsAt
    ensures Stands(job, endsAt, a, q, clock + Min(PollGap(job), endsAt - clock), l)
  {
    q := Then(p, PollPause, p.at.(clock := clock + Min(PollGap(job), endsAt - clock)));
  }

  lemma PausedForRetry(job: Job, endsAt: int, a: Cloud, p: Path, clock: int, l: Ledger) returns (q: Path)
    requires Stands(job, endsAt, a, p, clock, l) && MidPass(l)
    ensures Stands(job, endsAt, a, q, clock + 2_000, l)
  {
    q := Then(p, RetryPause, p.at.(clock := clock + 2_000));
  }

  lemma Noted(job: Job, endsAt: int, a: Cloud, p: Path, e: Event, clock: int, l: Ledger) returns (q: Path)
    requires Stands(job, endsAt, a, p, clock, l) && !e.Delete? && !e.Skip? && !e.NoTime? && Allowed(job, l, e)
    ensures Stands(job, endsAt, a, q, clock, Step(job, l, e))
  {
    q := Then(p, Note(e), p.at.(trace := p.at.trace + [e]));
    OneMoreEvent(job, p.at.trace, e);
  }

  /** A failed attempt to delete that takes all of its twenty seconds. */
  lemma SlowDelete(job: Job, endsAt: int, a: Cloud, p: Path, pod: nat, clock: int, l: Ledger) returns (q: Path)
    requires Stands(job, endsAt, a, p, clock, l) && l.live == Some(pod)
    ensures Stands(job, endsAt, a, q, clock + 20_000, DeleteFailed(l))
  {
    var c := p.at.(clock := clock + 20_000, trace := p.at.trace + [Delete(pod, false)]);
    q := Then(p, TryDelete(pod, false), c);
    OneMoreEvent(job, p.at.trace, Delete(pod, false));
  }

  /** What one more failed delete leaves of the ledger. */
  predicate OneMore(l: Ledger, m: Ledger) {
    m == DeleteFailed(l)
  }

  lemma NextDelete(l: Ledger, m: Ledger)
    requires OneMore(l, m)
    ensures m.live == l.live && m.failedDeletes == l.failedDeletes + 1
  {
  }

  /** One with its pause. */
  lemma SlowRetry(job: Job, endsAt: int, a: Cloud, p: Path, pod: nat, clock: int, l: Ledger, m: Ledger)
    returns (q: Path)
    requires Stands(job, endsAt, a, p, clock, l) && l.live == Some(pod) && OneMore(l, m) && MidPass(m)
    ensures Stands(job, endsAt, a, q, clock + 22_000, m) && m.live == Some(pod)
  {
    q := SlowDelete(job, endsAt, a, p, pod, clock, l);
    q := PausedForRetry(job, endsAt, a, q, clock + 20_000, m);
  }

  /** Two of them. */
  lemma SlowRetries(
    job: Job, endsAt: int, a: Cloud, p: Path, pod: nat, clock: int, l: Ledger, l1: Ledger, l2: Ledger)
    returns (q: Path)
    requires Stands(job, endsAt, a, p, clock, l) && l.live == Some(pod)
    requires l.failedDeletes == 0 || l.failedDeletes == 3
    requires OneMore(l, l1) && OneMore(l1, l2)
    ensures Stands(job, endsAt, a, q, clock + 44_000, l2) && l2.live == Some(pod)
  {
    NextDelete(l, l1);
    NextDelete(l1, l2);
    q := SlowRetry(job, endsAt, a, p, pod, clock, l, l1);
    q := SlowRetry(job, endsAt, a, q, pod, clock + 22_000, l1, l2);
  }

  /** A whole pass of three. */
  lemma SlowPass(
    job: Job, endsAt: int, a: Cloud, p: Path, pod: nat, clock: int, l: Ledger, l1: Ledger, l2: Ledger)
    returns (q: Path)
    requires Stands(job, endsAt, a, p, clock, l) && l.live == Some(pod)
    requires l.failedDeletes == 0 || l.failedDeletes == 3
    requires OneMore(l, l1) && OneMore(l1, l2)
    ensures Stands(job, endsAt, a, q, clock + CLEANUP, DeleteFailed(l2))
  {
    q := SlowRetries(job, endsAt, a, p, pod, clock, l, l1, l2);
    q := SlowDelete(job, endsAt, a, q, pod, clock + 44_000, l2);
  }

  /** A build on one GPU type, polled only once more before the deadline of ten minutes. */
  function SlowJob(graceMs: nat): Job {
    Job(Request(true, true, 4, 32, 80), ["gpu"], 1, false, 600_000, graceMs, 599_999)
  }

  /** A Pod is created at once. */
  lemma PromptCreate(graceMs: nat, start: int) returns (p: Path, l: Ledger)
    ensures var job := SlowJob(graceMs);
            && Stands(job, start + job.hardMs, Cloud(start, 0, []), p, start, l)
            && l == START.(authorized := true, creates := 1, live := Some(0))
  {
    var job := SlowJob(graceMs);
    var endsAt := start + job.hardMs;
    var a := Cloud(start, 0, []);
    p, l := Begin(a), START;
    p := Asked(job, endsAt, a, p, 30_000, 0, start, l);
    p := Noted(job, endsAt, a, p, Auth(true), start, l);
    l := l.(authorized := true);
    p := Asked(job, endsAt, a, p, 120_000, 0, start, l);
    p := Noted(job, endsAt, a, p, Create("gpu", Created(0)), start, l);
    l := l.(creates := 1, live := Some(0));
  }

  /** It has no address yet, until one moment before the deadline. */
  lemma LatePoll(graceMs: nat, start: int) returns (p: Path, l: Ledger)
    ensures var job := SlowJob(graceMs); var endsAt := start + job.hardMs;
            && Stands(job, endsAt, Cloud(start, 0, []), p, endsAt - 1, l)
            && l == START.(authorized := true, creates := 1, live := Some(0))
  {
    var job := SlowJob(graceMs);
    var endsAt := start + job.hardMs;
    var a := Cloud(start, 0, []);
    p, l := PromptCreate(graceMs, start);
    p := Asked(job, endsAt, a, p, 30_000, 0, start, l);
    p := Noted(job, endsAt, a, p, Status(0, false), start, l);
    p := PausedForPoll(job, endsAt, a, p, start, l);
  }

  /** Then it answers. */
  lemma LateAnswer(graceMs: nat, start: int) returns (p: Path, l: Ledger)
    ensures var job := SlowJob(graceMs); var endsAt := start + job.hardMs;
            && Stands(job, endsAt, Cloud(start, 0, []), p, endsAt - 1, l)
            && l == START.(authorized := true, creates := 1, live := Some(0), endpoint := Some(22))
  {
    var job := SlowJob(graceMs);
    var endsAt := start + job.hardMs;
    var a := Cloud(start, 0, []);
    p, l := LatePoll(graceMs, start);
    p := Asked(job, endsAt, a, p, 30_000, 0, endsAt - 1, l);
    p := Noted(job, endsAt, a, p, Status(0, false), endsAt - 1, l);
    p := Asked(job, endsAt, a, p, 15_000, 0, endsAt - 1, l);
    p := Noted(job, endsAt, a, p, Probe(0, 22, true), endsAt - 1, l);
    l := l.(endpoint := Some(22));
  }

  /** And its details, which take all the time a call may still take, show no GPU. */
  lemma LatePlacement(graceMs: nat, start: int) returns (p: Path, l: Ledger)
    ensures var job := SlowJob(graceMs); var endsAt := start + job.hardMs;
            && Stands(job, endsAt, Cloud(start, 0, []), p, endsAt + 99, l)
            && l == START.(authorized := true, creates := 1, live := Some(0), endpoint := Some(22),
                           check := Checked(Misplaced))
  {
    var job := SlowJob(graceMs);
    var endsAt := start + job.hardMs;
    var a := Cloud(start, 0, []);
    p, l := LateAnswer(graceMs, start);
    p := Asked(job, endsAt, a, p, 30_000, 100, endsAt - 1, l);
    var nowhere := Details(true, true, [], None, None, None, None);
    p := Noted(job, endsAt, a, p, Verify(0, nowhere, Misplaced), endsAt + 99, l);
    l := l.(check := Checked(Misplaced));
  }

  /**
   The latest run: nothing is late, and still the last failed delete of the
   second cleanup pass ends 128.099 s after the hard timeout.
   */
  lemma LatestRun(graceMs: nat, start: int) returns (p: Path)
    ensures var job := SlowJob(graceMs); var endsAt := start + job.hardMs;
            && Reaches(job, endsAt, Cloud(start, 0, []), p)
            && p.at.clock == endsAt + OVERRUN - 1 && p.at.late == 0
            && Settled(p.at, job, Replay(job, p.at.trace), JobError(true, false, true), endsAt)
  {
    var job := SlowJob(graceMs);
    var a := Cloud(start, 0, []);
    var endsAt := start + job.hardMs;
    var l;
    p, l := LatePlacement(graceMs, start);
    var l1 := DeleteFailed(l);
    var l2 := DeleteFailed(l1);
    var l3 := DeleteFailed(l2);
    var l4 := DeleteFailed(l3);
    var l5 := DeleteFailed(l4);
    p := SlowPass(job, endsAt, a, p, 0, endsAt + 99, l, l1, l2);
    p := SlowPass(job, endsAt, a, p, 0, endsAt + 99 + CLEANUP, l3, l4, l5);
    l := DeleteFailed(l5);
    LateButSettled(job, p.at, l, endsAt);
  }

  lemma LateButSettled(job: Job, c: Cloud, l: Ledger, endsAt: int)
    requires Legal(job, c.trace) && l == Replay(job, c.trace) && InTime(c, endsAt, OVERRUN)
    requires l.live.Some? && l.failedDeletes >= 3 && l.upload.NotStarted?
             && l.commands < job.commands && l.fetch.Untried? && l.stop == Some(Undeletable)
    ensures Settled(c, job, l, JobError(true, false, true), endsAt)
  {
  }

  /** In every run in which nothing is late, cleanup ends before the platform would delete the Pod itself. */
  ghost predicate CleanupComesFirst(graceMs: nat) {
    forall job: Job, c: Cloud, outcome, endsAt, computedAt ::
      && job.Valid() && job.graceMs == graceMs && c.late == 0 && endsAt - job.hardMs <= computedAt
      && Settled(c, job, Replay(job, c.trace), outcome, endsAt) ==>
        c.clock < PlatformDeadline(job, computedAt)
  }

  /** Some run, made of the placement's own moves and with nothing late, is still deleting when the platform would. */
  ghost predicate SomeRunIsLate(graceMs: nat) {
    exists start: int, p: Path :: RunsLate(graceMs, start, p)
  }

  ghost predicate RunsLate(graceMs: nat, start: int, p: Path) {
    var job := SlowJob(graceMs);
    var endsAt := start + job.hardMs;
    && Reaches(job, endsAt, Cloud(start, 0, []), p)
    && Settled(p.at, job, Replay(job, p.at.trace), JobError(true, false, true), endsAt)
    && p.at.late == 0 && p.at.clock >= PlatformDeadline(job, start)
  }

  /**
   The grace that guarantees it, to the millisecond: two passes, 100 ms of
   rounding up and a second of rounding down. With any less, a run gets there late.
   */
  lemma GraceThreshold(graceMs: nat)
    requires graceMs >= 60_000
    ensures CleanupComesFirst(graceMs) <==> graceMs >= OVERRUN + 999
    ensures SomeRunIsLate(graceMs) <==> graceMs < OVERRUN + 999
  {
    if graceMs >= OVERRUN + 999 {
      forall job: Job, c: Cloud, outcome, endsAt, computedAt |
        && job.Valid() && job.graceMs == graceMs && c.late == 0 && endsAt - job.hardMs <= computedAt
        && Settled(c, job, Replay(job, c.trace), outcome, endsAt)
        ensures c.clock < PlatformDeadline(job, computedAt)
      {
        CleanupPrecedesThePlatform(job, c, outcome, endsAt - job.hardMs, computedAt);
      }
      forall start: int, p: Path ensures !RunsLate(graceMs, start, p) {
        LateAgainst(graceMs, start, p);
      }
    } else {
      var start, p := LateRun(graceMs);
      LateAgainst(graceMs, start, p);
    }
  }

  /** A late run is one that cleanup does not come first in. */
  lemma LateAgainst(graceMs: nat, start: int, p: Path)
    requires graceMs >= 60_000
    ensures RunsLate(graceMs, start, p) ==> !CleanupComesFirst(graceMs)
  {
    var job := SlowJob(graceMs);
    assert job.Valid() && job.graceMs == graceMs;
    if RunsLate(graceMs, start, p) {
      var c, endsAt := p.at, start + job.hardMs;
      assert Settled(c, job, Replay(job, c.trace), JobError(true, false, true), endsAt);
      assert c.clock >= PlatformDeadline(job, start);
    }
  }

  lemma RoundedDown(t: int)
    requires t % 1000 == 999
    ensures t / 1000 * 1000 == t - 999
  {
  }

  /** From this start the deadline loses almost a second by the rounding, and the latest run passes it. */
  function UnluckyStart(graceMs: nat): int {
    999 - graceMs % 1000
  }

  lemma PassesTheDeadline(graceMs: nat)
    requires graceMs < OVERRUN + 999
    ensures var start := UnluckyStart(graceMs); var job := SlowJob(graceMs);
            start + job.hardMs + OVERRUN - 1 >= PlatformDeadline(job, start)
  {
    RoundedDown(UnluckyStart(graceMs) + 600_000 + graceMs);
  }

  lemma LateRun(graceMs: nat) returns (start: int, p: Path)
    requires 60_000 <= graceMs < OVERRUN + 999
    ensures RunsLate(graceMs, start, p)
  {
    start := UnluckyStart(graceMs);
    p := LatestRun(graceMs, start);
    PassesTheDeadline(graceMs);
  }

  /** Grace is configured in whole seconds: 130 of them are needed, where 60 are accepted. */
  lemma GraceInSeconds(seconds: nat)
    requires seconds >= 60
    ensures CleanupComesFirst(1000 * seconds) <==> seconds >= 130
  {
    GraceThreshold(1000 * seconds);
  }
}

/**
 Why a run fails: a job error is reported exactly if the trace holds a cause for
 it, and a run in which every call does well returns its result.
 */
module RunCauses {
  import opened Prelude
  import opened Protocol
  import opened Lifecycle
  import opened JobRun
  import opened LifecycleRuns

  // ---- Causes, in terms of the trace alone ----

  /** The answers, and the missing answers, that end a job by themselves. */
  predicate Fatal(e: Event) {
    match e
    case Auth(ok) => !ok
    case Create(_, outcome) => outcome.CreateFailed?
    case Status(_, terminal) => terminal
    case Verify(_, _, verdict) => verdict.Refused?
    case UploadStep(_, _, ok) => !ok
    case Command(_, _, _, ok) => !ok
    case Lost(_) => true
    case NoTime(call, _) => !call.PackCall? && !call.CopyCall?
    case _ => false
  }

  ghost predicate SomethingFatal(trace: seq<Event>) {
    exists i :: 0 <= i < |trace| && Fatal(trace[i])
  }

  predicate FoundMisplaced(trace: seq<Event>, v: nat) {
    v < |trace| && trace[v].Verify? && trace[v].verdict.Misplaced?
  }

  predicate NoCreateIn(trace: seq<Event>, lo: nat, hi: nat) {
    forall i :: lo < i < hi && i < |trace| ==> !trace[i].Create?
  }

  /** The last Pod was misplaced, and three attempts to delete it failed. */
  ghost predicate MisplacedForGood(trace: seq<Event>, v: nat) {
    && FoundMisplaced(trace, v) && NoCreateIn(trace, v, |trace|)
    && FailedDeletes(trace, trace[v].pod) >= 3
  }

  /** A Pod that was created, found misplaced and deleted. */
  predicate Rejected(trace: seq<Event>, j: nat, v: nat, k: nat) {
    && j < v < k < |trace| && Creates(trace[j]) && NoCreateIn(trace, j, k)
    && FoundMisplaced(trace, v) && trace[v].pod == trace[j].outcome.pod
    && trace[k] == Delete(trace[j].outcome.pod, true)
  }

  ghost predicate WasRejected(trace: seq<Event>, j: nat) {
    exists v: nat, k: nat :: Rejected(trace, j, v, k)
  }

  /** Every GPU that may be asked for was full or gave a Pod that was rejected. */
  ghost predicate UsedUp(job: Job, trace: seq<Event>) {
    var calls, n := CreateCalls(trace), |job.candidates|;
    && job.request.gpu
    && (|| |calls| == job.Attempts()
        || (|calls| == n && exists k :: 0 <= k < n && !calls[k].outcome.NoCapacity?))
    && forall j :: 0 <= j < |trace| && trace[j].Create? ==> trace[j].outcome.NoCapacity? || WasRejected(trace, j)
  }

  ghost predicate HasCause(job: Job, trace: seq<Event>) {
    SomethingFatal(trace) || (exists v: nat :: MisplacedForGood(trace, v)) || UsedUp(job, trace)
  }

  // ---- From the ledger to the trace ----

  /** The event a ledger names as the end of the job is on record and fatal. */
  lemma {:induction false} EndIsOnRecord(job: Job, trace: seq<Event>)
    requires Legal(job, trace) && Replay(job, trace).stop.Some? && Replay(job, trace).stop.value.Ended?
    ensures Fatal(Replay(job, trace).stop.value.event) && Replay(job, trace).stop.value.event in trace
  {
    var front, e := trace[..|trace| - 1], trace[|trace| - 1];
    var l := Replay(job, front);
    if l.stop.Some? {
      StopStays(job, l, e);
      EndIsOnRecord(job, front);
    } else {
      StopStarts(job, l, e);
    }
  }

  /** The first cause stays the cause. */
  lemma StopStays(job: Job, l: Ledger, e: Event)
    requires Allowed(job, l, e) && l.stop.Some?
    ensures Step(job, l, e).stop == l.stop && !e.Create? && !e.Verify? && !Fatal(e)
  {
  }

  lemma FatalNeedsNoEnd(job: Job, l: Ledger, e: Event)
    requires Allowed(job, l, e) && Fatal(e)
    ensures l.stop.None?
  {
  }

  lemma StopStarts(job: Job, l: Ledger, e: Event)
    requires Allowed(job, l, e) && l.stop.None?
    ensures Step(job, l, e).stop == Some(Ended(e)) <==> Fatal(e)
    ensures Step(job, l, e).stop == Some(Undeletable) <==> e.Delete? && !e.ok && IsMisplaced(l) && l.failedDeletes >= 2
    ensures Step(job, l, e).stop.Some? ==> Step(job, l, e).stop.value in {Ended(e), Undeletable}
  {
  }

  lemma {:induction false} FatalEnds(job: Job, trace: seq<Event>, i: nat)
    requires Legal(job, trace) && i < |trace| && Fatal(trace[i])
    ensures Replay(job, trace).stop == Some(Ended(trace[i]))
  {
    var front, e := trace[..|trace| - 1], trace[|trace| - 1];
    var l := Replay(job, front);
    if i < |front| {
      FatalEnds(job, front, i);
      StopStays(job, l, e);
    } else {
      FatalNeedsNoEnd(job, l, e);
      StopStarts(job, l, e);
    }
  }

  /** The origin of the live Pod when it was found misplaced. */
  lemma MisplacedOrigin(job: Job, trace: seq<Event>) returns (created: nat, verified: nat)
    requires Legal(job, trace) && Replay(job, trace).live.Some? && IsMisplaced(Replay(job, trace))
    ensures created < verified && FoundMisplaced(trace, verified)
    ensures trace[verified].pod == Replay(job, trace).live.value
    ensures Creates(trace[created]) && trace[created].outcome.pod == Replay(job, trace).live.value
    ensures NoCreateIn(trace, created, |trace|)
  {
    var probed;
    created, probed, verified := LiveHasOrigin(job, trace);
  }

  lemma {:induction false} UndeletableIsOnRecord(job: Job, trace: seq<Event>) returns (v: nat)
    requires Legal(job, trace) && Replay(job, trace).stop == Some(Undeletable)
    ensures MisplacedForGood(trace, v)
  {
    var front, e := trace[..|trace| - 1], trace[|trace| - 1];
    var l := Replay(job, front);
    if l.stop.Some? {
      StopStays(job, l, e);
      v := UndeletableIsOnRecord(job, front);
    } else {
      StopStarts(job, l, e);
      var created;
      created, v := MisplacedOrigin(job, front);
      FailedDeletesAreCounted(job, front);
    }
  }

  lemma RejectedStays(front: seq<Event>, e: Event, j: nat)
    requires WasRejected(front, j)
    ensures WasRejected(front + [e], j)
  {
    var v: nat, k: nat :| Rejected(front, j, v, k);
    var trace := front + [e];
    assert forall i :: 0 <= i < |front| ==> trace[i] == front[i];
    assert Rejected(trace, j, v, k);
  }

  lemma NowRejected(job: Job, front: seq<Event>, j: nat)
    requires Legal(job, front) && j < |front| && Creates(front[j]) && NoCreateIn(front, j, |front|)
    requires Replay(job, front).live == Some(front[j].outcome.pod) && IsMisplaced(Replay(job, front))
    ensures WasRejected(front + [Delete(front[j].outcome.pod, true)], j)
  {
    var created, v := MisplacedOrigin(job, front);
    assert created == j;
    var trace := front + [Delete(front[j].outcome.pod, true)];
    assert forall i :: 0 <= i < |front| ==> trace[i] == front[i];
    assert Rejected(trace, j, v, |front|);
  }

  /** A Pod that is live, with no create since it was returned. */
  predicate StillLive(job: Job, trace: seq<Event>, j: nat)
    requires j < |trace| && Creates(trace[j])
  {
    Replay(job, trace).live == Some(trace[j].outcome.pod) && NoCreateIn(trace, j, |trace|)
  }

  lemma StillLiveStays(job: Job, front: seq<Event>, e: Event, j: nat)
    requires j < |front| && Creates(front[j]) && StillLive(job, front, j)
    requires Allowed(job, Replay(job, front), e) && e != Delete(front[j].outcome.pod, true)
    ensures StillLive(job, front + [e], j)
  {
    var trace := front + [e];
    assert trace[..|trace| - 1] == front;
    LiveStays(job, Replay(job, front), e);
  }

  /** A Pod that was created is live, or was rejected, as long as no Pod was deleted for another reason. */
  lemma {:induction false} LiveOrRejected(job: Job, trace: seq<Event>, j: nat)
    requires Legal(job, trace) && !Replay(job, trace).closing && j < |trace| && Creates(trace[j])
    ensures WasRejected(trace, j) || StillLive(job, trace, j)
  {
    var front, e := trace[..|trace| - 1], trace[|trace| - 1];
    if j < |front| {
      assert front + [e] == trace;
      ClosingStays(job, Replay(job, front), e);
      LiveOrRejected(job, front, j);
      if WasRejected(front, j) {
        RejectedStays(front, e, j);
      } else if e == Delete(trace[j].outcome.pod, true) {
        NowRejected(job, front, j);
      } else {
        StillLiveStays(job, front, e, j);
      }
    }
  }

  lemma ClosingStays(job: Job, l: Ledger, e: Event)
    requires Allowed(job, l, e) && !Step(job, l, e).closing
    ensures !l.closing && (e.Delete? && e.ok ==> IsMisplaced(l))
  {
  }

  /** A create that failed for another reason than capacity has ended the job. */
  lemma SpentIsUsedUp(job: Job, trace: seq<Event>)
    requires Legal(job, trace) && Spent(job, Replay(job, trace))
    ensures UsedUp(job, trace)
  {
    CreatesAreCounted(job, trace);
    forall j | 0 <= j < |trace| && trace[j].Create?
      ensures trace[j].outcome.NoCapacity? || WasRejected(trace, j)
    {
      if trace[j].outcome.CreateFailed? { FatalEnds(job, trace, j); }
      if Creates(trace[j]) { LiveOrRejected(job, trace, j); }
    }
  }

  // ---- From the trace to the ledger ----

  /** From a misplaced Pod on, with no create since: deletes are counted until the third failure ends the job. */
  predicate Leaving(l: Ledger, pod: nat, failed: nat) {
    || l.stop.Some?
    || (failed <= 2 && l.live.None?)
    || (failed <= 2 && l.live == Some(pod) && IsMisplaced(l) && l.failedDeletes == failed)
  }

  lemma LeavingStays(job: Job, l: Ledger, e: Event, pod: nat, failed: nat)
    requires Allowed(job, l, e) && !e.Create? && Leaving(l, pod, failed)
    ensures Leaving(Step(job, l, e), pod, failed + if e == Delete(pod, false) then 1 else 0)
  {
  }

  lemma LeavingStarts(job: Job, trace: seq<Event>)
    requires Legal(job, trace) && trace != [] && FoundMisplaced(trace, |trace| - 1)
    ensures Leaving(Replay(job, trace), trace[|trace| - 1].pod, FailedDeletes(trace, trace[|trace| - 1].pod))
  {
    FailedDeletesAreCounted(job, trace);
  }

  lemma {:induction false} LeavesOrStops(job: Job, trace: seq<Event>, v: nat)
    requires Legal(job, trace) && FoundMisplaced(trace, v) && NoCreateIn(trace, v, |trace|)
    ensures Leaving(Replay(job, trace), trace[v].pod, FailedDeletes(trace, trace[v].pod))
  {
    var front, e := trace[..|trace| - 1], trace[|trace| - 1];
    if v < |front| {
      LeavesOrStops(job, front, v);
      LeavingStays(job, Replay(job, front), e, trace[v].pod, FailedDeletes(front, trace[v].pod));
    } else {
      LeavingStarts(job, trace);
    }
  }

  /** Once judged, a Pod is not judged again unless one is created. */
  lemma {:induction false} JudgedOnce(job: Job, trace: seq<Event>, v: nat)
    requires Legal(job, trace) && v < |trace| && trace[v].Verify? && NoCreateIn(trace, v, |trace|)
    ensures Replay(job, trace).check.Checked? || Replay(job, trace).live.None?
  {
    var front, e := trace[..|trace| - 1], trace[|trace| - 1];
    if v < |front| {
      JudgedOnce(job, front, v);
      CheckedStays(job, Replay(job, front), e);
    }
  }

  lemma CheckedStays(job: Job, l: Ledger, e: Event)
    requires Allowed(job, l, e) && !e.Create? && (l.check.Checked? || l.live.None?)
    ensures Step(job, l, e).check.Checked? || Step(job, l, e).live.None?
  {
  }

  lemma NotJudgedTwice(job: Job, trace: seq<Event>, v: nat, w: nat)
    requires Legal(job, trace) && v < w < |trace| && trace[v].Verify? && trace[w].Verify?
    ensures !NoCreateIn(trace, v, w)
  {
    AllowedAt(job, trace, w);
    if NoCreateIn(trace, v, w) { JudgedOnce(job, trace[..w], v); }
  }

  lemma {:induction false} SuccessIsOnRecord(trace: seq<Event>) returns (i: nat)
    requires CommandCalls(trace) != []
    ensures i < |trace| && trace[i].Command?
  {
    var front, e := trace[..|trace| - 1], trace[|trace| - 1];
    if e.Command? { return |front|; }
    i := SuccessIsOnRecord(front);
  }

  /** A command that ran rules out that every Pod was rejected. */
  lemma WorkIsNotUsedUp(job: Job, trace: seq<Event>)
    requires Legal(job, trace) && Replay(job, trace).commands > 0
    ensures !UsedUp(job, trace)
  {
    CommandsRunInOrder(job, trace);
    var i := SuccessIsOnRecord(trace);
    var created, probed, verified := WorkReachesTheVerifiedPod(job, trace, i);
    if UsedUp(job, trace) {
      assert WasRejected(trace, created);
      var v: nat, k: nat :| Rejected(trace, created, v, k);
      if v < verified { NotJudgedTwice(job, trace, v, verified); }
      if verified < v { NotJudgedTwice(job, trace, verified, v); }
    }
  }

  // ---- The theorems ----

  /** A run reports a job error exactly if the trace holds a cause for it. */
  lemma JobErrorsHaveCauses(job: Job, c: Cloud, outcome: Outcome, endsAt: int)
    requires job.Valid() && Settled(c, job, Replay(job, c.trace), outcome, endsAt)
    ensures outcome.JobError? && outcome.job <==> HasCause(job, c.trace)
  {
    var m := Replay(job, c.trace);
    if m.stop.Some? {
      if m.stop.value.Ended? {
        EndIsOnRecord(job, c.trace);
      } else {
        var v := UndeletableIsOnRecord(job, c.trace);
      }
    } else if Spent(job, m) {
      SpentIsUsedUp(job, c.trace);
    } else {
      NoCauseWithoutEnd(job, c.trace);
    }
  }

  /** A trace whose commands all ran holds no cause. */
  lemma NoCauseWithoutEnd(job: Job, trace: seq<Event>)
    requires Legal(job, trace) && Replay(job, trace).stop.None? && Replay(job, trace).commands > 0
    ensures !HasCause(job, trace)
  {
    if i :| 0 <= i < |trace| && Fatal(trace[i]) { FatalEnds(job, trace, i); }
    if v: nat :| MisplacedForGood(trace, v) { LeavesOrStops(job, trace, v); }
    WorkIsNotUsedUp(job, trace);
  }

  // ---- The download ----

  /** What an event says about the download. */
  datatype Word = Silent | SaysSkipped | SaysPacked | SaysMissing | SaysFailed | SaysCopied | SaysRemoved

  function WordOf(e: Event): Word {
    match e
    case Skip(_) => SaysSkipped
    case Pack(_, packing) =>
      if packing.PackedUp? then SaysPacked else if packing.ItemMissing? then SaysMissing else SaysFailed
    case Copy(_, ok) => if ok then SaysCopied else SaysFailed
    case Remove(_) => SaysRemoved
    case NoTime(call, _) => if call.PackCall? || call.CopyCall? then SaysFailed else Silent
    case _ => Silent
  }

  ghost predicate Says(trace: seq<Event>, w: Word) {
    exists i :: 0 <= i < |trace| && WordOf(trace[i]) == w
  }

  lemma SaysMore(front: seq<Event>, e: Event, w: Word)
    ensures Says(front + [e], w) <==> Says(front, w) || WordOf(e) == w
  {
    var trace := front + [e];
    assert trace[|front|] == e;
    if i :| 0 <= i < |front| && WordOf(front[i]) == w { assert WordOf(trace[i]) == w; }
    if i :| 0 <= i < |trace| && WordOf(trace[i]) == w { if i < |front| { assert WordOf(front[i]) == w; } }
  }

  /** The ledger's account of the download is what the calls of the download answered. */
  ghost predicate ToldBy(fetch: Fetch, trace: seq<Event>) {
    && (fetch.Skipped? <==> Says(trace, SaysSkipped))
    && (fetch.MissingArtifact? <==> Says(trace, SaysMissing))
    && (fetch.FetchFailed? || (fetch.Tidying? && fetch.failure.Some?) <==> Says(trace, SaysFailed))
    && (fetch.Fetched? || fetch == Tidying(None) <==> Says(trace, SaysCopied))
    && (fetch.Fetched? || fetch.Packed? || fetch.Tidying? ==> Says(trace, SaysPacked))
    && (fetch.Untried? || fetch.Skipped? || fetch.MissingArtifact? ==> !Says(trace, SaysPacked))
    && (Says(trace, SaysRemoved) <==> Says(trace, SaysPacked) && !fetch.Packed? && !fetch.Tidying?)
  }

  /** Fetched means packed and copied, missing that an item was not there, failed that a call did or had no time. */
  lemma {:induction false} FetchIsOnRecord(job: Job, trace: seq<Event>)
    requires Legal(job, trace)
    ensures ToldBy(Replay(job, trace).fetch, trace)
  {
    if trace != [] {
      var front, e := trace[..|trace| - 1], trace[|trace| - 1];
      assert front + [e] == trace;
      FetchIsOnRecord(job, front);
      SaysMore(front, e, SaysSkipped);
      SaysMore(front, e, SaysMissing);
      SaysMore(front, e, SaysFailed);
      SaysMore(front, e, SaysCopied);
      SaysMore(front, e, SaysPacked);
      SaysMore(front, e, SaysRemoved);
      FetchStep(job, Replay(job, front), e);
    }
  }

  lemma FetchStep(job: Job, l: Ledger, e: Event)
    requires Allowed(job, l, e)
    ensures var f := Step(job, l, e).fetch;
            match WordOf(e)
            case Silent => f == l.fetch
            case SaysSkipped => l.fetch.Untried? && f.Skipped?
            case SaysPacked => l.fetch.Untried? && f.Packed?
            case SaysMissing => l.fetch.Untried? && f.MissingArtifact?
            case SaysFailed => (l.fetch.Untried? && f == FetchFailed(e)) || (l.fetch.Packed? && f == Tidying(Some(e)))
            case SaysCopied => l.fetch.Packed? && f == Tidying(None)
            case SaysRemoved =>
              && l.fetch.Tidying?
              && f == (if l.fetch.failure.None? then Fetched else FetchFailed(l.fetch.failure.value))
  {
  }

  /** The remote archive is removed exactly if it was packed, whatever happened to the copy. */
  lemma ArchiveIsRemoved(job: Job, c: Cloud, outcome: Outcome, endsAt: int)
    requires Settled(c, job, Replay(job, c.trace), outcome, endsAt)
    ensures Says(c.trace, SaysRemoved) <==> Says(c.trace, SaysPacked)
  {
    FetchIsOnRecord(job, c.trace);
  }

  lemma {:induction false} FailureIsTheCause(job: Job, trace: seq<Event>, i: nat)
    requires Legal(job, trace) && i < |trace| && WordOf(trace[i]) == SaysFailed
    ensures Replay(job, trace).fetch in {FetchFailed(trace[i]), Tidying(Some(trace[i]))}
  {
    var front, e := trace[..|trace| - 1], trace[|trace| - 1];
    FetchStep(job, Replay(job, front), e);
    if i < |front| { FailureIsTheCause(job, front, i); }
  }

  /** Whenever a run says that no time was left for a call, its hard timeout had passed. */
  lemma TimeWasUp(job: Job, c: Cloud, outcome: Outcome, endsAt: int, i: nat)
    requires Settled(c, job, Replay(job, c.trace), outcome, endsAt) && i < |c.trace| && c.trace[i].NoTime?
    ensures endsAt <= c.trace[i].at <= c.clock
  {
    if Fatal(c.trace[i]) {
      FatalEnds(job, c.trace, i);
    } else {
      FailureIsTheCause(job, c.trace, i);
    }
  }

  // ---- A run in which everything goes well ----

  /** An answer that is no reason to complain. */
  predicate Fine(e: Event) {
    && !Fatal(e) && WordOf(e) != SaysMissing && WordOf(e) != SaysFailed
    && (e.Create? ==> e.outcome.Created?) && (e.Verify? ==> e.verdict.Accepted?) && (e.Delete? ==> e.ok)
  }

  lemma {:induction false} NoFailedDelete(trace: seq<Event>, pod: nat)
    requires forall e :: e in trace ==> Fine(e)
    ensures FailedDeletes(trace, pod) == 0
  {
    if trace != [] {
      assert Fine(trace[|trace| - 1]);
      NoFailedDelete(trace[..|trace| - 1], pod);
    }
  }

  /** If every answer of a run is fine, the run returns its result. */
  lemma FineRunsSucceed(job: Job, c: Cloud, outcome: Outcome, endsAt: int)
    requires job.Valid() && Settled(c, job, Replay(job, c.trace), outcome, endsAt)
    requires forall e :: e in c.trace ==> Fine(e)
    ensures outcome.Result?
  {
    JobErrorsHaveCauses(job, c, outcome, endsAt);
    FetchIsOnRecord(job, c.trace);
    if Replay(job, c.trace).live.Some? {
      FailedDeletesAreCounted(job, c.trace);
      NoFailedDelete(c.trace, Replay(job, c.trace).live.value);
    }
    FineIsNotUsedUp(job, c.trace);
    FineIsNotMisplaced(c.trace);
    FineComplainsOfNothing(c.trace);
  }

  lemma FineComplainsOfNothing(trace: seq<Event>)
    requires forall e :: e in trace ==> Fine(e)
    ensures !SomethingFatal(trace) && !Says(trace, SaysMissing) && !Says(trace, SaysFailed)
  {
    forall i | 0 <= i < |trace|
      ensures !Fatal(trace[i]) && WordOf(trace[i]) != SaysMissing && WordOf(trace[i]) != SaysFailed
    {
      assert Fine(trace[i]);
    }
  }

  lemma FineIsNotMisplaced(trace: seq<Event>)
    requires forall e :: e in trace ==> Fine(e)
    ensures forall v: nat :: !MisplacedForGood(trace, v)
  {
    forall v: nat | MisplacedForGood(trace, v) ensures false {
      NoFailedDelete(trace, trace[v].pod);
    }
  }

  lemma FineIsNotRejected(trace: seq<Event>, j: nat)
    requires forall e :: e in trace ==> Fine(e)
    ensures !WasRejected(trace, j)
  {
    forall i | 0 <= i < |trace| ensures Fine(trace[i]) { assert trace[i] in trace; }
  }

  lemma FineIsNotUsedUp(job: Job, trace: seq<Event>)
    requires job.Valid() && forall e :: e in trace ==> Fine(e)
    ensures !UsedUp(job, trace)
  {
    if UsedUp(job, trace) {
      var j := CreateIsOnRecord(trace);
      assert trace[j] in trace;
      FineIsNotRejected(trace, j);
    }
  }

  lemma {:induction false} CreateIsOnRecord(trace: seq<Event>) returns (i: nat)
    requires CreateCalls(trace) != []
    ensures i < |trace| && trace[i].Create?
  {
    var front, e := trace[..|trace| - 1], trace[|trace| - 1];
    if e.Create? { return |front|; }
    i := CreateIsOnRecord(front);
  }
}

/**
 Getting a Pod: ordered GPU fallback, waiting, verification and mandatory
 deletion. The Runpod API, SSH and the clock may do anything; every API call is
 an event of a trace. Times are milliseconds of the monotonic clock.
 */
module Lifecycle {
  import opened Prelude
  import opened Protocol

  // ---- The clock and the API ----

  /** `late` is how much longer calls and local work took than the calls were given. */
  datatype Cloud = Cloud(clock: int, late: nat, trace: seq<Event>)

  predicate Later(a: Cloud, c: Cloud, atMost: int) {
    && c.trace == a.trace && a.clock <= c.clock && a.late <= c.late
    && c.clock <= a.clock + atMost + (c.late - a.late)
  }

  /** A call with a timeout, or local work with none. */
  method Call(a: Cloud, timeout: nat) returns (c: Cloud)
    ensures Later(a, c, timeout)
  {
    var took :| 0 <= took <= timeout;
    var lag :| lag >= 0;
    c := a.(clock := a.clock + took + lag, late := a.late + lag);
  }

  method Sleep(a: Cloud, wait: nat) returns (c: Cloud)
    ensures Later(a, c, wait) && a.clock + wait <= c.clock
  {
    var lag :| lag >= 0;
    c := a.(clock := a.clock + wait + lag, late := a.late + lag);
  }

  /** An event with a time in it happens at that time. */
  predicate Dated(e: Event, clock: int) {
    e.Skip? || e.NoTime? ==> e.at == clock
  }

  method Record(job: Job, a: Cloud, e: Event) returns (c: Cloud)
    requires Legal(job, a.trace) && Allowed(job, Replay(job, a.trace), e) && Dated(e, a.clock)
    ensures c == a.(trace := a.trace + [e])
    ensures Legal(job, c.trace) && Replay(job, c.trace) == Step(job, Replay(job, a.trace), e)
    ensures Statuses(c.trace) == Statuses(a.trace) + if e.Status? then 1 else 0
  {
    c := a.(trace := a.trace + [e]);
    OneMoreEvent(job, a.trace, e);
  }

  function SecondsLeft(endsAt: int, clock: int): nat {
    Max(0, endsAt - clock)
  }

  /** `Deadline.timeout`: None when the deadline has passed. */
  function Timeout(endsAt: int, clock: int, cap: Option<nat>): (t: Option<nat>)
    ensures t.None? <==> clock >= endsAt
    ensures t.Some? && cap.None? ==> clock + t.value == endsAt
    ensures t.Some? && cap.Some? && cap.value >= 100 ==>
              100 <= t.value <= cap.value && (t.value == cap.value || t.value == 100 || clock + t.value == endsAt)
  {
    var remaining := SecondsLeft(endsAt, clock);
    if remaining <= 0 then None
    else Some(if cap.Some? then Max(100, Min(remaining, cap.value)) else remaining)
  }

  /** A timeout outlives the deadline by less than 100 ms, and exactly when less than 100 ms were left. */
  lemma TimeoutOverrun(endsAt: int, clock: int, cap: Option<nat>)
    requires Timeout(endsAt, clock, cap).Some? && (cap.Some? ==> cap.value >= 100)
    ensures clock + Timeout(endsAt, clock, cap).value < endsAt + 100
    ensures clock + Timeout(endsAt, clock, cap).value > endsAt <==> cap.Some? && endsAt - clock < 100
  {
  }

  /** The deadline is exceeded by less than `slack` beyond what came late. */
  predicate InTime(c: Cloud, endsAt: int, slack: int) {
    c.clock < endsAt + slack + c.late
  }

  /** Everything took no longer than so much, beyond what came late. */
  predicate Lasts(a: Cloud, c: Cloud, atMost: int) {
    a.late <= c.late && a.clock <= c.clock <= a.clock + atMost + (c.late - a.late)
  }

  /** Time was up when an event says that it was. */
  predicate Stamped(c: Cloud, e: Event, endsAt: int) {
    e.NoTime? ==> endsAt <= e.at <= c.clock
  }

  /** The job has ended for a cause on record, and nothing else has changed. */
  ghost predicate Halts(l: Ledger, c: Cloud, job: Job, endsAt: int) {
    var m := Replay(job, c.trace);
    m == l.(stop := m.stop) && Stopped(c, m, endsAt)
  }

  predicate Stopped(c: Cloud, m: Ledger, endsAt: int) {
    m.stop.Some? && (m.stop.value.Ended? ==> Stamped(c, m.stop.value.event, endsAt))
  }

  /** The events that end the job and say nothing else. */
  predicate EndsJob(e: Event) {
    match e
    case Auth(ok) => !ok
    case Status(_, terminal) => terminal
    case Command(_, _, _, ok) => !ok
    case Lost(_) => true
    case NoTime(call, _) => !call.PackCall? && !call.CopyCall?
    case _ => false
  }

  /** Record such an event. */
  method HaltWith(job: Job, a: Cloud, e: Event, endsAt: int) returns (c: Cloud)
    requires Legal(job, a.trace) && Allowed(job, Replay(job, a.trace), e) && Dated(e, a.clock) && Stamped(a, e, endsAt)
    requires EndsJob(e)
    ensures c == a.(trace := a.trace + [e]) && Legal(job, c.trace)
    ensures Halts(Replay(job, a.trace), c, job, endsAt) && Replay(job, c.trace).stop == Some(Ended(e))
    ensures Statuses(c.trace) == Statuses(a.trace) + if e.Status? then 1 else 0
  {
    c := Record(job, a, e);
  }

  /** A call under the deadline; without time left for it, that is recorded instead and ends the job. */
  method Bounded(a: Cloud, job: Job, call: CallKind, endsAt: int, cap: Option<nat>) returns (c: Cloud, ok: bool)
    requires Legal(job, a.trace) && Due(job, Replay(job, a.trace), call) && (cap.Some? ==> cap.value >= 100)
    requires !call.PackCall? && !call.CopyCall?
    ensures ok <==> a.clock < endsAt
    ensures ok ==> InTime(c, endsAt, 100) && Later(a, c, Timeout(endsAt, a.clock, cap).value)
    ensures !ok ==> c == a.(trace := a.trace + [NoTime(call, a.clock)]) && Legal(job, c.trace)
    ensures !ok ==> Halts(Replay(job, a.trace), c, job, endsAt)
    ensures Statuses(c.trace) == Statuses(a.trace) && (cap.Some? ==> Lasts(a, c, cap.value))
  {
    var timeout := Timeout(endsAt, a.clock, cap);
    ok := timeout.Some?;
    if ok {
      c := Call(a, timeout.value);
    } else {
      c := HaltWith(job, a, NoTime(call, a.clock), endsAt);
    }
  }

  /** A call that raised instead of answering. */
  method Lose(a: Cloud, job: Job, call: CallKind, endsAt: int) returns (c: Cloud)
    requires Legal(job, a.trace) && Due(job, Replay(job, a.trace), call)
    requires call.StatusCall? || call.ProbeCall? || call.DetailsCall?
    ensures c == a.(trace := a.trace + [Lost(call)]) && Legal(job, c.trace)
    ensures Halts(Replay(job, a.trace), c, job, endsAt)
    ensures Statuses(c.trace) == Statuses(a.trace)
  {
    c := HaltWith(job, a, Lost(call), endsAt);
  }

  /** A Pod that is being waited for. */
  predicate Waiting(job: Job, l: Ledger, pod: nat) {
    l.live == Some(pod) && l.failedDeletes == 0 && l.check.Unchecked? && l.endpoint.None? && l.stop.None?
  }

  datatype Poll = Again | GaveUp | Found(endpoint: nat)

  /** The last two events: a non-terminal status and a successful probe. */
  predicate JustAnswered(trace: seq<Event>, pod: nat, endpoint: nat) {
    && |trace| >= 2
    && trace[|trace| - 2] == Status(pod, false) && trace[|trace| - 1] == Probe(pod, endpoint, true)
  }

  method NoteStatus(a: Cloud, job: Job, pod: nat, terminal: bool, endsAt: int) returns (c: Cloud)
    requires Legal(job, a.trace) && Waiting(job, Replay(job, a.trace), pod)
    ensures c == a.(trace := a.trace + [Status(pod, terminal)]) && Legal(job, c.trace)
    ensures if terminal then Halts(Replay(job, a.trace), c, job, endsAt)
            else Replay(job, c.trace) == Replay(job, a.trace)
    ensures Statuses(c.trace) == Statuses(a.trace) + 1
  {
    if terminal {
      c := HaltWith(job, a, Status(pod, true), endsAt);
    } else {
      c := Record(job, a, Status(pod, false));
    }
  }

  /** The Pod's status and, once it has one, its address; None when it is of no use to go on. */
  method AskStatus(a: Cloud, job: Job, pod: nat, endsAt: int) returns (c: Cloud, address: Option<Option<nat>>)
    requires Legal(job, a.trace) && InTime(a, endsAt, 100) && Waiting(job, Replay(job, a.trace), pod)
    ensures Legal(job, c.trace) && InTime(c, endsAt, 100) && a.clock <= c.clock
    ensures address.Some? ==> Replay(job, c.trace) == Replay(job, a.trace) && c.trace == a.trace + [Status(pod, false)]
    ensures address.None? ==> Halts(Replay(job, a.trace), c, job, endsAt)
    ensures Statuses(a.trace) <= Statuses(c.trace) <= Statuses(a.trace) + 1
    ensures address.Some? ==> Statuses(c.trace) == Statuses(a.trace) + 1
    ensures Lasts(a, c, 30_000)
    ensures a.clock >= endsAt ==> address.None? && Statuses(c.trace) == Statuses(a.trace)
  {
    address := None;
    var polled: bool;
    c, polled := Bounded(a, job, StatusCall, endsAt, Some(30_000));
    if !polled { return; }
    var answered: bool, terminal: bool := *, *;
    if !answered {
      c := Lose(c, job, StatusCall, endsAt);
      return;
    }
    c := NoteStatus(c, job, pod, terminal, endsAt);
    if terminal { return; }
    var found: bool := *;
    var id :| id >= 0;
    address := Some(if found then Some(id) else None);
  }

  method NoteProbe(a: Cloud, job: Job, pod: nat, address: nat, ready: bool) returns (c: Cloud)
    requires Legal(job, a.trace) && Waiting(job, Replay(job, a.trace), pod)
    ensures c == a.(trace := a.trace + [Probe(pod, address, ready)]) && Legal(job, c.trace)
    ensures Replay(job, c.trace)
            == if ready then Replay(job, a.trace).(endpoint := Some(address)) else Replay(job, a.trace)
    ensures Statuses(c.trace) == Statuses(a.trace)
  {
    c := Record(job, a, Probe(pod, address, ready));
  }

  /** Does the Pod answer at its address? None when the probe could not be made. */
  method ProbeAddress(a: Cloud, job: Job, pod: nat, address: nat, endsAt: int) returns (c: Cloud, ready: Option<bool>)
    requires Legal(job, a.trace) && InTime(a, endsAt, 100) && Waiting(job, Replay(job, a.trace), pod)
    ensures Legal(job, c.trace) && InTime(c, endsAt, 100) && a.clock <= c.clock
    ensures ready.None? ==> Halts(Replay(job, a.trace), c, job, endsAt)
    ensures ready.Some? ==> c.trace == a.trace + [Probe(pod, address, ready.value)]
    ensures ready == Some(true) ==> Replay(job, c.trace) == Replay(job, a.trace).(endpoint := Some(address))
    ensures ready == Some(false) ==> Replay(job, c.trace) == Replay(job, a.trace)
    ensures Statuses(c.trace) == Statuses(a.trace) && Lasts(a, c, 15_000)
  {
    ready := None;
    var ok: bool;
    c, ok := Bounded(a, job, ProbeCall, endsAt, Some(15_000));
    if !ok { return; }
    var completed: bool, answer: bool := *, *;
    if !completed {
      c := Lose(c, job, ProbeCall, endsAt);
      return;
    }
    c := NoteProbe(c, job, pod, address, answer);
    ready := Some(answer);
  }

  /** One poll; it gives up in a terminal status, on any error and without time left. */
  method PollOnce(a: Cloud, job: Job, pod: nat, endsAt: int) returns (c: Cloud, poll: Poll)
    requires Legal(job, a.trace) && InTime(a, endsAt, 100) && Waiting(job, Replay(job, a.trace), pod)
    ensures Legal(job, c.trace) && InTime(c, endsAt, 100) && a.clock <= c.clock
    ensures poll.Again? ==> Replay(job, c.trace) == Replay(job, a.trace)
    ensures poll.GaveUp? ==> Halts(Replay(job, a.trace), c, job, endsAt)
    ensures poll.Found? ==> Replay(job, c.trace) == Replay(job, a.trace).(endpoint := Some(poll.endpoint))
                            && JustAnswered(c.trace, pod, poll.endpoint)
    ensures Statuses(a.trace) <= Statuses(c.trace) <= Statuses(a.trace) + 1
    ensures !poll.GaveUp? ==> Statuses(c.trace) == Statuses(a.trace) + 1
    ensures Lasts(a, c, 45_000)
    ensures a.clock >= endsAt ==> poll.GaveUp? && Statuses(c.trace) == Statuses(a.trace)
  {
    var address;
    c, address := AskStatus(a, job, pod, endsAt);
    if address.None? { return c, GaveUp; }
    if address.value.None? { return c, Again; }
    var ready;
    c, ready := ProbeAddress(c, job, pod, address.value.value, endsAt);
    if ready.None? { return c, GaveUp; }
    poll := if ready.value then Found(address.value.value) else Again;
  }

  /** The least pause between two polls. */
  function PollGap(job: Job): (ms: nat)
    ensures ms >= 100 && ms >= job.pollMs && (ms > 100 ==> ms == job.pollMs)
  {
    Max(100, job.pollMs)
  }

  /** The pauses between so many polls. */
  function Pauses(gap: nat, polls: nat): nat {
    if polls <= 1 then 0 else Pauses(gap, polls - 1) + gap
  }

  lemma {:induction false} PausesAreProduct(gap: nat, polls: nat)
    requires polls > 0
    ensures Pauses(gap, polls) == gap * (polls - 1)
  {
    if polls > 1 {
      PausesAreProduct(gap, polls - 1);
    }
  }

  /** So many polls fit a span of time: a pause lies between any two of them. */
  predicate Spaced(gap: nat, polls: nat, span: int) {
    polls > 0 ==> Pauses(gap, polls) <= span
  }

  /** So does the pause that follows the last of them. */
  predicate Paused(gap: nat, polls: nat, span: int) {
    polls > 0 ==> Pauses(gap, polls) + gap <= span
  }

  /** Polls so far are spaced within what has elapsed and what was available, and another may follow. */
  predicate OnSchedule(gap: nat, polls: nat, elapsed: int, available: int) {
    && Spaced(gap, polls, elapsed) && Spaced(gap, polls, available - 1)
    && (elapsed < available ==> Paused(gap, polls, elapsed))
  }

  lemma OneMorePoll(gap: nat, polls: nat, before: int, after: int, available: int)
    requires OnSchedule(gap, polls, before, available) && 0 <= before <= after && before < available
    ensures Spaced(gap, polls + 1, after) && Spaced(gap, polls + 1, available - 1)
    ensures before + gap <= after || available <= after ==> OnSchedule(gap, polls + 1, after, available)
  {
  }

  lemma NoMorePolls(gap: nat, polls: nat, before: int, after: int, available: int)
    requires OnSchedule(gap, polls, before, available) && before <= after
    ensures Spaced(gap, polls, after) && Spaced(gap, polls, available - 1)
  {
  }

  /** One poll and, when there is a reason to poll again, the pause before the next. */
  method PollAndPause(a: Cloud, job: Job, pod: nat, endsAt: int) returns (c: Cloud, poll: Poll)
    requires Legal(job, a.trace) && InTime(a, endsAt, 100) && Waiting(job, Replay(job, a.trace), pod)
    ensures Legal(job, c.trace) && InTime(c, endsAt, 100) && a.clock <= c.clock
    ensures poll.Again? ==> Replay(job, c.trace) == Replay(job, a.trace) && Statuses(c.trace) == Statuses(a.trace) + 1
                            && a.clock < endsAt && (c.clock >= a.clock + PollGap(job) || c.clock >= endsAt)
    ensures poll.GaveUp? ==> Halts(Replay(job, a.trace), c, job, endsAt)
    ensures poll.Found? ==> Replay(job, c.trace) == Replay(job, a.trace).(endpoint := Some(poll.endpoint))
                            && JustAnswered(c.trace, pod, poll.endpoint)
    ensures Statuses(a.trace) <= Statuses(c.trace) <= Statuses(a.trace) + 1
    ensures Statuses(c.trace) > Statuses(a.trace) ==> a.clock < endsAt
  {
    c, poll := PollOnce(a, job, pod, endsAt);
    if !poll.Again? { return; }
    var left := Timeout(endsAt, c.clock, None);
    if left.None? {
      c := HaltWith(job, c, NoTime(PollSleep, c.clock), endsAt);
      return c, GaveUp;
    }
    c := Sleep(c, Min(PollGap(job), left.value));
  }

  /**
   `wait_for_ssh`: an endpoint is returned only right after its Pod, in a
   non-terminal status, answered there; the statuses it asked for are spaced, so
   their number is bounded by the time they took and by the time there was.
   */
  method WaitForSsh(a: Cloud, job: Job, pod: nat, endsAt: int)
    returns (c: Cloud, endpoint: Option<nat>, ghost polls: nat)
    requires Legal(job, a.trace) && InTime(a, endsAt, 100) && Waiting(job, Replay(job, a.trace), pod)
    ensures Legal(job, c.trace) && InTime(c, endsAt, 100) && a.clock <= c.clock
    ensures endpoint.Some? ==> Replay(job, c.trace) == Replay(job, a.trace).(endpoint := endpoint)
                               && JustAnswered(c.trace, pod, endpoint.value)
    ensures endpoint.None? ==> Halts(Replay(job, a.trace), c, job, endsAt)
    ensures polls == Statuses(c.trace) - Statuses(a.trace)
    ensures Spaced(PollGap(job), polls, c.clock - a.clock) && Spaced(PollGap(job), polls, endsAt - a.clock - 1)
  {
    c, endpoint, polls := a, None, 0;
    ghost var gap := PollGap(job);
    while true
      invariant Legal(job, c.trace) && InTime(c, endsAt, 100) && a.clock <= c.clock
      invariant Replay(job, c.trace) == Replay(job, a.trace) && polls == Statuses(c.trace) - Statuses(a.trace)
      invariant OnSchedule(gap, polls, c.clock - a.clock, endsAt - a.clock)
      decreases endsAt - c.clock
    {
      var b := c;
      var poll;
      c, poll := PollAndPause(b, job, pod, endsAt);
      if Statuses(c.trace) > Statuses(b.trace) {
        OneMorePoll(gap, polls, b.clock - a.clock, c.clock - a.clock, endsAt - a.clock);
        polls := polls + 1;
      } else {
        NoMorePolls(gap, polls, b.clock - a.clock, c.clock - a.clock, endsAt - a.clock);
      }
      if poll.GaveUp? { return; }
      if poll.Found? { endpoint := Some(poll.endpoint); return; }
    }
  }

  const CLEANUP := 64_000

  /** After a number of failed deletes. */
  function FailedTimes(l: Ledger, k: nat): Ledger {
    if k == 0 then l
    else
      l.(failedDeletes := l.failedDeletes + k,
         closing := l.closing || !IsMisplaced(l) || l.failedDeletes + k >= 3,
         stop := if l.stop.None? && IsMisplaced(l) && l.failedDeletes + k >= 3 then Some(Undeletable) else l.stop)
  }

  lemma FailedOnceMore(l: Ledger, k: nat)
    requires k < 3 && (l.failedDeletes == 0 || (l.closing && l.stop.Some?))
    ensures DeleteFailed(FailedTimes(l, k)) == FailedTimes(l, k + 1) && Deleted(FailedTimes(l, k)) == Deleted(l)
  {
  }

  /** `_terminate_strictly`: three attempts of 20 s, 2 s apart. */
  method TerminateStrictly(a: Cloud, job: Job, pod: nat) returns (c: Cloud, deleted: bool)
    requires Legal(job, a.trace) && Replay(job, a.trace).live == Some(pod)
    requires var l := Replay(job, a.trace); l.failedDeletes == 0 || (l.closing && l.stop.Some?)
    ensures Legal(job, c.trace)
    ensures a.late <= c.late && a.clock <= c.clock <= a.clock + CLEANUP + (c.late - a.late)
    ensures deleted ==> Replay(job, c.trace) == Deleted(Replay(job, a.trace))
    ensures !deleted ==> Replay(job, c.trace) == FailedTimes(Replay(job, a.trace), 3) && c.clock >= a.clock + 4_000
  {
    c, deleted := a, false;
    ghost var l := Replay(job, a.trace);
    for attempt := 0 to 3
      invariant Legal(job, c.trace) && a.late <= c.late
      invariant a.clock <= c.clock <= a.clock + 22_000 * attempt + (c.late - a.late)
      invariant c.clock >= a.clock + 2_000 * Min(attempt, 2)
      invariant attempt == 3 ==> c.clock <= a.clock + CLEANUP + (c.late - a.late)
      invariant Replay(job, c.trace) == FailedTimes(l, attempt)
    {
      c := Call(c, 20_000);
      var ok: bool := *;
      c := Record(job, c, Delete(pod, ok));
      FailedOnceMore(l, attempt);
      if ok { return c, true; }
      if attempt < 2 { c := Sleep(c, 2_000); }
    }
  }

  /** How one placement attempt ended. */
  datatype Placement =
    | Full                                            // no capacity for this GPU
    | Absent                                          // no Pod: the create failed or there was no time for it
    | Stuck(pod: nat)                                 // a Pod that never became usable
    | Elsewhere(pod: nat)                             // a Pod that was misplaced
    | Placed(pod: nat, endpoint: nat, assignment: Option<Assignment>)

  /** The ledger after one attempt. */
  predicate AfterAttempt(job: Job, l: Ledger, m: Ledger, p: Placement) {
    && m.upload == l.upload && m.closing == l.closing && m.commands == l.commands && m.authorized == l.authorized
    && m.fetch == l.fetch
    && (if p.Full? || p.Absent? then m.live.None? else m.live == Some(p.pod) && m.failedDeletes == 0)
    && (m.stop.None? <==> !p.Absent? && !p.Stuck?) && m.creates <= l.creates + 1
    && (!p.Absent? && !p.Stuck? ==> m.creates == l.creates + 1)
    && (p.Full? ==> m.firstRound == if l.creates < |job.candidates| then l.firstRound + 1 else l.firstRound)
    && (p.Stuck? ==> !IsMisplaced(m))
    && (p.Elsewhere? ==> IsMisplaced(m) && m.firstRound == l.firstRound)
    && (p.Placed? ==> m.endpoint == Some(p.endpoint) && m.check == Checked(Accepted(p.assignment)))
  }

  /** Ask for a Pod; None with `full` when there is no capacity for this GPU. */
  method CreatePod(a: Cloud, job: Job, endsAt: int) returns (c: Cloud, pod: Option<nat>, full: bool)
    requires job.Valid() && Legal(job, a.trace) && MayCreate(job, Replay(job, a.trace))
    ensures Legal(job, c.trace) && (full ==> job.request.gpu && pod.None?) && a.clock <= c.clock
    ensures if a.clock >= endsAt then c.clock == a.clock && c.late == a.late && pod.None? && !full
            else InTime(c, endsAt, 100)
    ensures Lasts(a, c, 120_000)
    ensures var l, m := Replay(job, a.trace), Replay(job, c.trace);
            if pod.Some? then m == Step(job, l, Create("", Created(pod.value)))
            else if full then m == Step(job, l, Create("", CreateOutcome.NoCapacity))
            else m == l.(stop := m.stop, creates := m.creates) && m.creates <= l.creates + 1 && Stopped(c, m, endsAt)
  {
    pod, full := None, false;
    var gpuId := Slot(job, Replay(job, a.trace).creates);
    var ok: bool;
    c, ok := Bounded(a, job, CreateCall, endsAt, Some(120_000));
    if !ok { return; }
    var created: bool;
    created, full := *, *;
    full := full && !created && job.request.gpu;
    var id :| id >= 0;
    var outcome := if created then Created(id) else if full then CreateOutcome.NoCapacity else CreateFailed;
    c := Record(job, c, Create(gpuId, outcome));
    pod := if created then Some(id) else None;
  }

  /** The Pod may be judged for the GPU id asked for last. */
  predicate Judgeable(job: Job, l: Ledger, pod: nat, gpuId: string) {
    l.live == Some(pod) && Due(job, l, DetailsCall) && gpuId == Slot(job, l.creates - 1)
  }

  /** What a verdict leaves behind: a refusal ends the job. */
  ghost predicate Judged(a: Cloud, c: Cloud, job: Job, verdict: Verdict, endsAt: int) {
    var m := Replay(job, a.trace).(check := Checked(verdict));
    && (if verdict.Refused? then Halts(m, c, job, endsAt) else Replay(job, c.trace) == m)
    && (verdict.Accepted? ==> (verdict.assignment.Some? <==> job.request.Builds()))
    && (verdict.Misplaced? ==> job.request.gpu)
  }

  /** The details the API reports are judged, and the verdict is put on record with them. */
  method NoteVerdict(a: Cloud, job: Job, pod: nat, gpuId: string, endsAt: int) returns (c: Cloud, verdict: Verdict)
    requires Legal(job, a.trace) && Judgeable(job, Replay(job, a.trace), pod, gpuId)
    ensures c == a.(trace := c.trace) && Legal(job, c.trace)
    ensures Judged(a, c, job, verdict, endsAt)
  {
    var details: Details := *;
    verdict := Judge(job.request, gpuId, details);
    c := Record(job, a, Verify(pod, details, verdict));
  }

  /** Read the assignment of a reachable Pod back and judge it; None when it could not be read. */
  method VerifyAssignment(a: Cloud, job: Job, pod: nat, gpuId: string, endsAt: int)
    returns (c: Cloud, verdict: Option<Verdict>)
    requires Legal(job, a.trace) && InTime(a, endsAt, 100)
    requires Judgeable(job, Replay(job, a.trace), pod, gpuId)
    ensures Legal(job, c.trace) && InTime(c, endsAt, 100) && Lasts(a, c, 30_000)
    ensures verdict.Some? ==> Judged(a, c, job, verdict.value, endsAt)
    ensures verdict.None? ==> Halts(Replay(job, a.trace), c, job, endsAt)
  {
    verdict := None;
    var ok: bool;
    c, ok := Bounded(a, job, DetailsCall, endsAt, Some(30_000));
    if !ok { return; }
    var answered: bool := *;
    if !answered {
      c := Lose(c, job, DetailsCall, endsAt);
      return;
    }
    var v;
    c, v := NoteVerdict(c, job, pod, gpuId, endsAt);
    verdict := Some(v);
  }

  /** Create a Pod, wait for it and verify it. */
  method TryPlacement(a: Cloud, job: Job, endsAt: int) returns (c: Cloud, p: Placement)
    requires job.Valid() && Legal(job, a.trace) && MayCreate(job, Replay(job, a.trace))
    ensures Legal(job, c.trace) && AfterAttempt(job, Replay(job, a.trace), Replay(job, c.trace), p)
    ensures a.clock <= c.clock
    ensures InTime(c, endsAt, 100) || (p.Absent? && c.clock == a.clock && c.late == a.late)
    ensures p.Absent? || p.Stuck? ==> Stopped(c, Replay(job, c.trace), endsAt)
    ensures p.Full? || p.Elsewhere? ==> job.request.gpu
    ensures p.Placed? ==> (p.assignment.Some? <==> job.request.Builds())
  {
    var gpuId := Slot(job, Replay(job, a.trace).creates);
    var id, full;
    c, id, full := CreatePod(a, job, endsAt);
    if id.None? { return c, if full then Full else Absent; }
    var pod := id.value;
    var endpoint;
    ghost var polls;
    c, endpoint, polls := WaitForSsh(c, job, pod, endsAt);
    if endpoint.None? { return c, Stuck(pod); }
    var verdict;
    c, verdict := VerifyAssignment(c, job, pod, gpuId, endsAt);
    if verdict.None? { return c, Stuck(pod); }
    match verdict.value
    case Accepted(assignment) => p := Placed(pod, endpoint.value, assignment);
    case Misplaced => p := Elsewhere(pod);
    case Refused => p := Stuck(pod);
  }

  /** How a round over the candidates ended. */
  datatype Round =
    | Selected(pod: nat, endpoint: nat, assignment: Option<Assignment>, gpuId: string)
    | Exhausted(onlyCapacity: bool)
    | Failed(remaining: Option<nat>)

  /** No fitting GPU is left to try: every candidate was tried, and tried again if only capacity was missing. */
  predicate Spent(job: Job, m: Ledger) {
    && job.request.gpu && m.stop.None? && m.live.None? && !m.closing && m.upload.NotStarted?
    && (|| m.creates == job.Attempts()
        || (m.creates == |job.candidates| && m.firstRound < |job.candidates|))
  }

  /** Where each way of ending leaves the protocol and the clock. */
  predicate AfterRound(c: Cloud, job: Job, m: Ledger, r: Round, endsAt: int) {
    && Legal(job, c.trace) && m == Replay(job, c.trace)
    && m.upload.NotStarted? && m.commands == 0 && m.fetch.Untried?
    && (match r
        case Selected(pod, endpoint, assignment, gpuId) =>
          && m.stop.None? && m.live == Some(pod) && m.failedDeletes == 0 && !m.closing && Ready(m, endpoint)
          && m.check.verdict.assignment == assignment && (assignment.Some? <==> job.request.Builds())
          && 0 < m.creates <= |job.candidates| + |job.candidates| && gpuId == Slot(job, m.creates - 1)
          && InTime(c, endsAt, 100)
        case Exhausted(onlyCapacity) =>
          && m.stop.None? && m.live.None? && !m.closing && InTime(c, endsAt, CLEANUP + 100)
          && (|| m.creates == job.Attempts()
              || (m.creates == |job.candidates| && (m.firstRound < |job.candidates| <==> !onlyCapacity)))
        case Failed(remaining) =>
          && m.live == remaining && InTime(c, endsAt, CLEANUP + 100)
          && (remaining.Some? ==> m.failedDeletes == 0 || m.closing)
          && Stopped(c, m, endsAt))
  }

  /** What holds between two attempts. */
  predicate BetweenAttempts(a: Cloud, job: Job, l: Ledger, endsAt: int) {
    && Legal(job, a.trace) && l == Replay(job, a.trace)
    && l.authorized && l.stop.None? && l.live.None? && !l.closing && l.upload.NotStarted?
    && l.commands == 0 && l.fetch.Untried?
    && InTime(a, endsAt, CLEANUP + 100)
  }

  /** One candidate: None when the next one may be tried, after a misplaced Pod only once it is deleted. */
  method TryCandidate(a: Cloud, job: Job, endsAt: int) returns (c: Cloud, r: Option<Round>, full: bool)
    requires job.Valid() && job.request.gpu && BetweenAttempts(a, job, Replay(job, a.trace), endsAt)
    requires MayCreate(job, Replay(job, a.trace))
    ensures a.clock <= c.clock
    ensures r.Some? ==> AfterRound(c, job, Replay(job, c.trace), r.value, endsAt) && !r.value.Exhausted?
    ensures r.None? ==> BetweenAttempts(c, job, Replay(job, c.trace), endsAt)
                        && Replay(job, c.trace).creates == Replay(job, a.trace).creates + 1
    ensures Replay(job, c.trace).creates <= Replay(job, a.trace).creates + 1
    ensures r.None? ==> Replay(job, c.trace).firstRound == Replay(job, a.trace).firstRound
                        + if full && Replay(job, a.trace).creates < |job.candidates| then 1 else 0
  {
    full := false;
    var gpuId := Slot(job, Replay(job, a.trace).creates);
    var p;
    c, p := TryPlacement(a, job, endsAt);
    match p
    case Full => return c, None, true;
    case Absent => r := Some(Failed(None));
    case Stuck(pod) => r := Some(Failed(Some(pod)));
    case Placed(pod, endpoint, assignment) => r := Some(Selected(pod, endpoint, assignment, gpuId));
    case Elsewhere(pod) =>
      var deleted: bool;
      c, deleted := TerminateStrictly(c, job, pod);
      r := if deleted then None else Some(Failed(Some(pod)));
  }

  /** One pass over the ordered candidates. */
  method TryRound(a: Cloud, job: Job, second: bool, endsAt: int) returns (c: Cloud, r: Round)
    requires job.Valid() && job.request.gpu && BetweenAttempts(a, job, Replay(job, a.trace), endsAt)
    requires Replay(job, a.trace).creates == (if second then |job.candidates| else 0)
    requires Replay(job, a.trace).firstRound == (if second then |job.candidates| else 0)
    ensures AfterRound(c, job, Replay(job, c.trace), r, endsAt) && a.clock <= c.clock
    ensures second || Replay(job, c.trace).creates <= |job.candidates|
    ensures r.Exhausted? ==> BetweenAttempts(c, job, Replay(job, c.trace), endsAt)
    ensures r.Exhausted? ==> Replay(job, c.trace).creates == |job.candidates| + if second then |job.candidates| else 0
    ensures r == Exhausted(true) && !second ==> Replay(job, c.trace).firstRound == |job.candidates|
  {
    c := a;
    var onlyCapacity := true;
    ghost var base := if second then |job.candidates| else 0;
    for i := 0 to |job.candidates|
      invariant BetweenAttempts(c, job, Replay(job, c.trace), endsAt) && a.clock <= c.clock
      invariant Replay(job, c.trace).creates == base + i
      invariant second ==> Replay(job, c.trace).firstRound == |job.candidates|
      invariant !second ==> (onlyCapacity <==> Replay(job, c.trace).firstRound == i)
                            && Replay(job, c.trace).firstRound <= i
    {
      var found, full;
      c, found, full := TryCandidate(c, job, endsAt);
      if found.Some? { return c, found.value; }
      if !full { onlyCapacity := false; }
    }
    r := Exhausted(onlyCapacity);
  }

  /** Two ordered rounds; the second only when the first met nothing but missing capacity. */
  method PlaceGpu(a: Cloud, job: Job, endsAt: int) returns (c: Cloud, r: Round)
    requires job.Valid() && job.request.gpu && Authorized(a, job) && InTime(a, endsAt, 100)
    ensures AfterRound(c, job, Replay(job, c.trace), r, endsAt)
    ensures r.Exhausted? ==> Spent(job, Replay(job, c.trace))
    ensures Replay(job, c.trace).creates > |job.candidates| ==> c.clock >= Min(a.clock + 5_000, endsAt)
  {
    c, r := TryRound(a, job, false, endsAt);
    if r != Exhausted(true) { return; }
    var backoff := Timeout(endsAt, c.clock, Some(5_000));
    if backoff.None? {
      c := HaltWith(job, c, NoTime(Backoff, c.clock), endsAt);
      return c, Failed(None);
    }
    c := Sleep(c, backoff.value);
    c, r := TryRound(c, job, true, endsAt);
  }

  /** The API let the run in, and nothing else happened. */
  predicate Authorized(a: Cloud, job: Job) {
    Legal(job, a.trace) && Replay(job, a.trace) == START.(authorized := true)
  }

  method PlaceCpu(a: Cloud, job: Job, endsAt: int) returns (c: Cloud, r: Round)
    requires job.Valid() && !job.request.gpu && Authorized(a, job) && InTime(a, endsAt, 100)
    ensures AfterRound(c, job, Replay(job, c.trace), r, endsAt) && !r.Exhausted?
  {
    var p;
    c, p := TryPlacement(a, job, endsAt);
    match p
    case Absent => r := Failed(None);
    case Stuck(pod) => r := Failed(Some(pod));
    case Placed(pod, endpoint, assignment) => r := Selected(pod, endpoint, assignment, job.candidates[0]);
  }
}

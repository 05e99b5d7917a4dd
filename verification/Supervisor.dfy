/**
 The process-group supervisor, as a state machine over an operating system that
 is free to do anything between two calls: the child may exit, descendants may
 linger, signals may arrive, /proc may change and time may pass.
 Times are nanoseconds of the monotonic clock.
 */
module Supervisor {
  import opened Prelude
  import opened ProcScan
  import opened Names

  const MS := 1_000_000
  const INITIAL_NAP := 10_000_000
  const HELPER_NAP := 50_000_000
  const KILL_WAIT := 2_000_000_000
  const INITIAL_WAIT := 2_000_000_000
  const MONITOR_FAILURE := 70

  datatype Settings = Settings(intervalMs: int, checkpointMs: int, graceSeconds: int)
  {
    predicate Allowed() {
      50 <= intervalMs <= 1000 && 1000 <= checkpointMs <= 60000 && 1 <= graceSeconds <= 60
    }

    function Interval(): int { intervalMs * 1_000_000 }

    function Grace(): int { graceSeconds * 1_000_000_000 }
  }

  datatype MonitorError =
    | ExitedUnsampled
    | LeaderUnobservable
    | DescendantsOutlived
    | GroupVanished
    | GroupRemained
    | TooFewSamples
    | LeaderUnseen
    | NoCompiler

  /** The JSON evidence; the fields that never vary are constants of the schema. */
  datatype Evidence = Evidence(
    buildExit: Option<int>,
    childReturn: Option<int>,
    checkpointMs: int,
    commandSha: string,
    complete: bool,
    coversOtherProcesses: bool,
    durationMs: Option<int>,
    endBytes: Option<int>,
    finishedNs: Option<int>,
    forcedKill: bool,
    forwardedSignal: Option<int>,
    includesFileCache: bool,
    leaderObserved: bool,
    leaderPid: int,
    maximumProcesses: int,
    peakMethod: PeakMethod,
    monitorError: Option<MonitorError>,
    compilerObserved: bool,
    compilers: seq<string>,
    peakBytes: int,
    groupId: int,
    sampleCount: int,
    intervalMs: int,
    schemaVersion: int,
    scope: Scope,
    sharedPagesDoubleCounted: bool,
    source: Source,
    startBytes: Option<int>,
    startedNs: int,
    graceSeconds: int,
    wholePodEnforced: bool)

  const SCHEMA_VERSION := 2

  datatype SignalResult = Delivered | NoSuchGroup | Refused

  datatype Signal = Relay(signum: int) | Term | Kill

  datatype Turn = Again | Stop | Fail

  datatype Attempt = Finished | Threw | Unfinished

  datatype Outcome =
    | Rejected               // ValueError on the arguments, before anything starts
    | SpawnFailed            // the command could not be started
    | Raised                 // an exception left the supervisor
    | StillRunning           // the run was observed for its allotted iterations only
    | Returned(status: int)

  function ShellStatus(returncode: int): int {
    if returncode >= 0 then returncode else 128 - returncode
  }

  /** A status as a shell reports it: the code itself, or 128 more than the number of the signal. */
  predicate ReportsExit(status: Option<int>, returncode: int) {
    && status.Some?
    && (returncode >= 0 ==> status.value == returncode)
    && (returncode < 0 ==> status.value - 128 == -returncode)
  }

  /** A scan is a sample when it found resident memory. */
  predicate IsSample(scan: Scan) {
    scan.processes > 0 && scan.rssBytes > 0
  }

  /** The samples among all scans, oldest first. */
  function Samples(scans: seq<Scan>): (samples: seq<Scan>)
    ensures forall k :: 0 <= k < |samples| ==> IsSample(samples[k])
  {
    if scans == [] then []
    else
      var last := scans[|scans| - 1];
      var before := Samples(scans[..|scans| - 1]);
      if IsSample(last) then before + [last] else before
  }

  ghost predicate IsPeak(peak: int, samples: seq<Scan>) {
    && (forall k :: 0 <= k < |samples| ==> samples[k].rssBytes <= peak)
    && (samples == [] ==> peak == 0)
    && (samples != [] ==> exists k :: 0 <= k < |samples| && samples[k].rssBytes == peak)
  }

  ghost predicate IsWidest(width: int, samples: seq<Scan>) {
    && (forall k :: 0 <= k < |samples| ==> samples[k].processes <= width)
    && (samples == [] ==> width == 0)
    && (samples != [] ==> exists k :: 0 <= k < |samples| && samples[k].processes == width)
  }

  ghost predicate LeaderIn(samples: seq<Scan>) {
    exists k :: 0 <= k < |samples| && samples[k].leaderSeen
  }

  function CompilersIn(samples: seq<Scan>): set<string> {
    set k, x | 0 <= k < |samples| && x in samples[k].compilers :: x
  }

  /** The counters `sample` keeps up to date. */
  datatype Counters = Counters(
    sampleCount: int,
    startBytes: Option<int>,
    endBytes: Option<int>,
    peakBytes: int,
    maximumProcesses: int,
    leaderObserved: bool,
    compilers: set<string>)

  const NO_SAMPLES := Counters(0, None, None, 0, 0, false, {})

  /** The counters say exactly what the samples were. */
  ghost predicate Tally(c: Counters, samples: seq<Scan>) {
    && c.sampleCount == |samples|
    && c.startBytes == (if samples == [] then None else Some(samples[0].rssBytes))
    && c.endBytes == (if samples == [] then None else Some(samples[|samples| - 1].rssBytes))
    && IsPeak(c.peakBytes, samples)
    && IsWidest(c.maximumProcesses, samples)
    && (c.leaderObserved <==> LeaderIn(samples))
    && c.compilers == CompilersIn(samples)
  }

  /** One more sample, as `sample` records it. */
  function Record(c: Counters, s: Scan): Counters {
    Counters(
      c.sampleCount + 1,
      if c.startBytes.None? then Some(s.rssBytes) else c.startBytes,
      Some(s.rssBytes),
      Max(c.peakBytes, s.rssBytes),
      Max(c.maximumProcesses, s.processes),
      c.leaderObserved || s.leaderSeen,
      c.compilers + s.compilers)
  }

  /** Recording keeps first, last, peak, width, leader and compilers true of all samples. */
  lemma RecordTallies(c: Counters, samples: seq<Scan>, s: Scan)
    requires Tally(c, samples) && IsSample(s)
    ensures Tally(Record(c, s), samples + [s])
  {
    var now := samples + [s];
    var n := |samples|;
    assert now[n] == s;
    assert forall k :: 0 <= k < n ==> now[k] == samples[k];
    if samples != [] {
      var k :| 0 <= k < n && samples[k].rssBytes == c.peakBytes;
      assert now[k].rssBytes == c.peakBytes;
      var j :| 0 <= j < n && samples[j].processes == c.maximumProcesses;
      assert now[j].processes == c.maximumProcesses;
    }
    if LeaderIn(samples) {
      var k :| 0 <= k < n && samples[k].leaderSeen;
      assert now[k].leaderSeen;
    }
    forall x | x in CompilersIn(samples) ensures x in CompilersIn(now) {
      var k :| 0 <= k < n && x in samples[k].compilers;
      assert x in now[k].compilers;
    }
    forall x | x in s.compilers ensures x in CompilersIn(now) {
      assert x in now[n].compilers;
    }
  }

  /** Every scan reports plain compiler names only. */
  predicate Plain(scans: seq<Scan>) {
    scans == [] || (Plain(scans[..|scans| - 1]) && CompilerNames(scans[|scans| - 1].compilers))
  }

  /** The counters after a series of scans. */
  function CountScans(scans: seq<Scan>): Counters {
    if scans == [] then NO_SAMPLES
    else
      var last := scans[|scans| - 1];
      var before := CountScans(scans[..|scans| - 1]);
      if IsSample(last) then Record(before, last) else before
  }

  /** The counters mean what they say about the samples, whatever was scanned. */
  lemma {:induction false} CountScansTallies(scans: seq<Scan>)
    ensures Tally(CountScans(scans), Samples(scans))
  {
    if scans != [] {
      var last := scans[|scans| - 1];
      CountScansTallies(scans[..|scans| - 1]);
      if IsSample(last) {
        RecordTallies(CountScans(scans[..|scans| - 1]), Samples(scans[..|scans| - 1]), last);
      }
    }
  }

  function CountersOf(e: Evidence): Counters {
    Counters(e.sampleCount, e.startBytes, e.endBytes, e.peakBytes, e.maximumProcesses, e.leaderObserved,
             set x | x in e.compilers)
  }

  /** The evidence repeats the counters, with the compilers as a sorted list. */
  ghost predicate Counts(e: Evidence, c: Counters) {
    CountersOf(e) == c && Ascending(e.compilers) && (e.compilerObserved <==> c.compilers != {})
  }

  /** What the operating system was seen to do, as far as an error can be blamed on it. */
  datatype Sightings = Sightings(returncode: int, lastScan: Option<Scan>, orphans: bool)

  /** Every monitor error is the report of something that happened. */
  predicate Justified(error: MonitorError, c: Counters, seen: Sightings) {
    match error
    case ExitedUnsampled => seen.returncode == 0 && c.sampleCount == 0
    case LeaderUnobservable => c.sampleCount == 0
    case DescendantsOutlived => seen.orphans
    case GroupVanished => seen.lastScan.Some? && !IsSample(seen.lastScan.value)
    case GroupRemained => false
    case TooFewSamples => seen.returncode == 0 && c.sampleCount < 2
    case LeaderUnseen => seen.returncode == 0 && !c.leaderObserved
    case NoCompiler => seen.returncode == 0 && c.compilers == {}
  }

  /** The fields that describe how the run was supervised rather than what it found. */
  ghost predicate Labelled(e: Evidence, settings: Settings, sha: string) {
    && e.intervalMs == settings.intervalMs
    && e.checkpointMs == settings.checkpointMs
    && e.graceSeconds == settings.graceSeconds
    && e.commandSha == sha
    && e.leaderPid == e.groupId > 0
    && e.startedNs > 0
    && e.peakMethod == ProcGroupRssSum && e.scope == BuildProcessGroup && e.source == ProcStatm
    && e.schemaVersion == SCHEMA_VERSION
    && !e.coversOtherProcesses && !e.includesFileCache && !e.wholePodEnforced
    && e.sharedPagesDoubleCounted
  }

  /** The time the naps between that many samples take: every sample but the last is followed by one. */
  function Pace(samples: int, interval: int): (ns: int)
    ensures interval >= 0 ==> ns >= 0
  {
    if samples <= 1 then 0 else Pace(samples - 1, interval) + interval
  }

  /** What every final evidence file of a returning run says, and why. */
  ghost predicate Final(e: Evidence, settings: Settings, sha: string, c: Counters, seen: Sightings) {
    && Labelled(e, settings, sha)
    && Counts(e, c)
    && e.childReturn == Some(seen.returncode)
    && ReportsExit(e.buildExit, seen.returncode)
    && (e.complete <==> e.monitorError.None?)
    && (e.complete ==> && e.finishedNs.Some?
                       && e.finishedNs.value >= e.startedNs + Pace(c.sampleCount, settings.Interval())
                       && e.durationMs == Some((e.finishedNs.value - e.startedNs) / MS))
    && (!e.complete ==> e.finishedNs.None? && e.durationMs.None?)
    && (e.monitorError.Some? ==> Justified(e.monitorError.value, c, seen))
    && (e.monitorError.None? && seen.returncode == 0 ==> c.sampleCount >= 2 && c.leaderObserved && c.compilers != {})
    && (seen.returncode == 0 ==>
          && (c.sampleCount < 2 <==> e.monitorError == Some(TooFewSamples))
          && (c.sampleCount >= 2 && !c.leaderObserved <==> e.monitorError == Some(LeaderUnseen))
          && (c.sampleCount >= 2 && c.leaderObserved && c.compilers == {} <==> e.monitorError == Some(NoCompiler)))
    && (e.forcedKill ==> e.forwardedSignal.Some? || e.monitorError.Some?)
    && (e.complete && e.forwardedSignal.None? ==> !seen.orphans)
  }

  /** The waits around SIGKILL: for the leader, then for its descendants. */
  const KILL_BOUND := 4_050_000_000

  function TerminateBound(settings: Settings): int {
    settings.Grace() + HELPER_NAP + KILL_BOUND
  }

  /**
   The longest a returning run keeps waiting of its own accord once a signal has
   arrived: one nap to notice it, the forwarded grace and one more nap (or the
   rest of the first wait), then a second grace and the waits around SIGKILL.
   */
  function ReturnBound(settings: Settings): int {
    settings.Interval() + LoopBound(settings) + TerminateBound(settings)
  }

  function LoopBound(settings: Settings): int {
    Max(2_010_000_000, settings.Grace() + settings.Interval())
  }

  /** The same for a run that ends in an exception, whose handler terminates once more. */
  function RaiseBound(settings: Settings): int {
    ReturnBound(settings) + TerminateBound(settings)
  }

  /** Everything outside the supervisor that the model follows. */
  datatype World = World(
    clock: int,                 // monotonic nanoseconds
    slept: int,                 // how much of it the supervisor asked to wait
    requested: Option<int>,     // the handler's record of the first signal
    sleptAtArrival: int,        // slept when that signal arrived
    reaped: Option<int>,        // the leader's return code once it has exited
    gone: bool,                 // the group has no member left
    orphans: bool,              // the group was seen alive after its leader was reaped
    refused: bool,              // the kernel refused a killpg
    relays: nat,                // how often a requested signal was forwarded to the group
    relayed: Option<int>,       // the last one forwarded
    terms: nat,                 // SIGTERMs the supervisor sent of its own accord
    kills: nat)                 // SIGKILLs it sent
  {
    predicate Valid() {
      && clock > 0
      && (requested.Some? ==> sleptAtArrival <= slept)
    }
  }

  /**
   What may have happened between two moments if the supervisor asked to wait
   `wait` in between: at least that much time passed, signals may have arrived,
   a return code once polled stayed, and a group once gone stayed gone.
   */
  predicate Elapsed(a: World, b: World, wait: int) {
    && b.Valid()
    && b.slept == a.slept + wait
    && b.clock >= a.clock + wait
    && (a.requested.Some? ==> b.requested == a.requested && b.sleptAtArrival == a.sleptAtArrival)
    && (a.requested.None? && b.requested.Some? ==> a.slept <= b.sleptAtArrival <= b.slept)
    && (a.reaped.Some? ==> b.reaped == a.reaped)
    && (a.gone ==> b.gone)
    && (a.orphans ==> b.orphans)
  }

  /** The supervisor sent that many signals of its own accord and relayed none. */
  predicate Enforced(a: World, b: World, terms: nat, kills: nat) {
    b.terms == a.terms + terms && b.kills == a.kills + kills && b.relays == a.relays && b.relayed == a.relayed
  }

  /** What a world shows of the things a monitor error can be blamed on. */
  function Seen(w: World, scans: seq<Scan>): Sightings {
    Sightings(
      if w.reaped.Some? then w.reaped.value else 1,
      if scans == [] then None else Some(scans[|scans| - 1]),
      w.orphans)
  }

  /** Nothing was sent, refused or newly seen. */
  predicate Quiet(a: World, b: World) {
    Enforced(a, b, 0, 0) && b.orphans == a.orphans && b.refused == a.refused
  }

  /** The record of one killpg call. */
  function Signalled(w: World, signal: Signal): World {
    match signal
    case Relay(signum) => w.(relays := w.relays + 1, relayed := Some(signum))
    case Term => w.(terms := w.terms + 1)
    case Kill => w.(kills := w.kills + 1)
  }

  /** The signal handler: only the first request is recorded. */
  method RequestShutdown(a: World, signum: int) returns (w: World)
    requires a.Valid()
    ensures Elapsed(a, w, 0) && Quiet(a, w)
    ensures w.requested == if a.requested.None? then Some(signum) else a.requested
  {
    w := if a.requested.None? then a.(requested := Some(signum), sleptAtArrival := a.slept) else a;
  }

  /** Time passes, and any number of signals arrive on the way. */
  method Sleep(a: World, wait: nat) returns (w: World)
    requires a.Valid()
    ensures Elapsed(a, w, wait) && Quiet(a, w)
  {
    var late :| late >= 0;
    var before :| 0 <= before <= wait;
    w := a.(clock := a.clock + before, slept := a.slept + before);
    var count :| count >= 0;
    while count > 0
      invariant Elapsed(a, w, before) && Quiet(a, w)
    {
      var signum: int := *;
      w := RequestShutdown(w, signum);
      count := count - 1;
    }
    w := w.(clock := w.clock + (wait - before) + late, slept := w.slept + (wait - before));
    var code: int := *;
    var exited: bool := *;
    var vanished: bool := *;
    if exited && w.reaped.None? { w := w.(reaped := Some(code)); }
    if vanished { w := w.(gone := true); }
  }

  /** Start the command as the leader of a new session; its pid names its group. */
  method Spawn(a: World) returns (w: World, pid: Option<int>)
    requires a.Valid()
    ensures Elapsed(a, w, 0) && Quiet(a, w)
    ensures pid.Some? ==> pid.value > 0
  {
    w := Sleep(a, 0);
    var started: bool := *;
    var id :| id > 0;
    pid := if started then Some(id) else None;
  }

  method Now(a: World) returns (w: World, t: int)
    requires a.Valid()
    ensures Elapsed(a, w, 0) && Quiet(a, w) && t == w.clock
  {
    w := Sleep(a, 0);
    t := w.clock;
  }

  method Poll(a: World) returns (w: World, returncode: Option<int>)
    requires a.Valid()
    ensures Elapsed(a, w, 0) && Quiet(a, w) && returncode == w.reaped
  {
    w := Sleep(a, 0);
    returncode := w.reaped;
  }

  /** `child.wait(timeout)`: None stands for TimeoutExpired. */
  method Wait(a: World, timeout: nat) returns (w: World, returncode: Option<int>)
    requires a.Valid()
    ensures 0 <= w.slept - a.slept <= timeout
    ensures Elapsed(a, w, w.slept - a.slept) && Quiet(a, w) && returncode == w.reaped
    ensures returncode.None? ==> w.slept == a.slept + timeout
  {
    var waited :| 0 <= waited <= timeout;
    w := Sleep(a, waited);
    if w.reaped.None? { w := Sleep(w, timeout - waited); }
    returncode := w.reaped;
  }

  method GroupExists(a: World) returns (w: World, alive: bool)
    requires a.Valid()
    ensures Elapsed(a, w, 0) && Enforced(a, w, 0, 0) && w.refused == a.refused
    ensures alive == !w.gone && w.orphans == (a.orphans || (alive && w.reaped.Some?))
  {
    w := Sleep(a, 0);
    alive := !w.gone;
    w := w.(orphans := w.orphans || (alive && w.reaped.Some?));
  }

  /** `killpg` with a requested signal, SIGTERM or SIGKILL. */
  method SignalGroup(a: World, signal: Signal) returns (w: World, result: SignalResult)
    requires a.Valid()
    ensures Elapsed(a, w, 0) && Enforced(Signalled(a, signal), w, 0, 0) && w.orphans == a.orphans
    ensures (result.NoSuchGroup? <==> w.gone) && w.refused == (a.refused || result.Refused?)
  {
    w := Sleep(a, 0);
    var denied: bool := *;
    result := if w.gone then NoSuchGroup else if denied then Refused else Delivered;
    w := Signalled(w, signal).(refused := w.refused || result.Refused?);
  }

  /** One enumeration of /proc; None when it cannot be listed. */
  method ScanGroup(a: World, group: int, leader: int, pageSize: nat) returns (w: World, scan: Option<Scan>)
    requires a.Valid()
    ensures Elapsed(a, w, 0) && Quiet(a, w)
    ensures scan.Some? ==> CompilerNames(scan.value.compilers)
  {
    w := Sleep(a, 0);
    var entries: seq<ProcEntry> := *;
    var readable: bool := *;
    scan := None;
    if readable {
      var found := CollectDetails(entries, group, leader, pageSize);
      scan := Some(found);
    }
  }

  /** Atomic replacement of the evidence file; a failure leaves the old file. */
  method WriteEvidence(a: World, file: Option<Evidence>, e: Evidence)
    returns (w: World, file': Option<Evidence>, ok: bool)
    requires a.Valid()
    ensures Elapsed(a, w, 0) && Quiet(a, w)
    ensures file' == if ok then Some(e) else file
  {
    w := Sleep(a, 0);
    ok := *;
    file' := if ok then Some(e) else file;
  }

  /** The descendants are given one more bounded wait after SIGKILL. */
  method AwaitGroupEnd(a: World) returns (w: World, alive: bool)
    requires a.Valid()
    ensures 0 <= w.slept - a.slept <= KILL_WAIT + HELPER_NAP && Elapsed(a, w, w.slept - a.slept)
    ensures Enforced(a, w, 0, 0) && alive == !w.gone
    ensures alive ==> a.clock + KILL_WAIT <= w.clock
  {
    var now: int;
    w, now := Now(a);
    var killDeadline := now + KILL_WAIT;
    w, alive := GroupExists(w);
    now := w.clock;
    while alive && now < killDeadline
      invariant Elapsed(a, w, w.slept - a.slept) && Enforced(a, w, 0, 0)
      invariant now == w.clock && (alive || w.gone)
      invariant 0 <= w.slept - a.slept <= KILL_WAIT + HELPER_NAP
      invariant w.slept - a.slept <= now - (killDeadline - KILL_WAIT)
      decreases killDeadline - now
    {
      w := Sleep(w, HELPER_NAP);
      w, alive := GroupExists(w);
      now := w.clock;
    }
    w, alive := GroupExists(w);
  }

  /** SIGKILL the group and insist that leader and descendants are gone; None when it raises. */
  method KillGroupBounded(a: World) returns (w: World, ended: Option<int>)
    requires a.Valid()
    ensures 0 <= w.slept - a.slept <= KILL_BOUND && Elapsed(a, w, w.slept - a.slept)
    ensures Enforced(a, w, 0, 1)
    ensures ended.Some? ==> w.gone && w.reaped == ended
    ensures ended.None? ==> w.refused || ((w.reaped.None? || !w.gone) && a.clock + KILL_WAIT <= w.clock)
  {
    var sent: SignalResult;
    w, sent := SignalGroup(a, Kill);
    if sent.Refused? { return w, None; }
    var code: Option<int>;
    w, code := Poll(w);
    if code.None? {
      w, code := Wait(w, KILL_WAIT);
      if code.None? { return w, None; }
    }
    var alive: bool;
    w, alive := AwaitGroupEnd(w);
    if alive { return w, None; }
    return w, code;
  }

  /** The return code of a group that ended within the grace; None once the grace is over. */
  method AwaitGrace(a: World, grace: nat) returns (w: World, ended: Option<int>)
    requires a.Valid()
    ensures 0 <= w.slept - a.slept <= grace + HELPER_NAP && Elapsed(a, w, w.slept - a.slept)
    ensures Enforced(a, w, 0, 0) && w.refused == a.refused
    ensures if ended.Some? then w.gone && w.reaped == ended else a.clock + grace <= w.clock
  {
    var now: int;
    w, now := Now(a);
    var deadline := now + grace;
    ghost var w1 := w;
    w, now := Now(w);
    while now < deadline
      invariant Elapsed(w1, w, w.slept - w1.slept) && Enforced(w1, w, 0, 0) && w.refused == a.refused
      invariant now <= w.clock && 0 <= w.slept - w1.slept <= now - w1.clock
      invariant w.slept - w1.slept <= grace + HELPER_NAP
      decreases deadline - now
    {
      var code: Option<int>;
      w, code := Poll(w);
      if code.Some? {
        var alive: bool;
        w, alive := GroupExists(w);
        if !alive { return w, code; }
      }
      w := Sleep(w, HELPER_NAP);
      w, now := Now(w);
    }
    ended := None;
  }

  /** SIGTERM, then SIGKILL once the grace is over; None when it raises. */
  method TerminateGroupBounded(a: World, grace: nat) returns (w: World, ended: Option<(int, bool)>)
    requires a.Valid()
    ensures 0 <= w.slept - a.slept <= grace + HELPER_NAP + KILL_BOUND && Elapsed(a, w, w.slept - a.slept)
    ensures ended.Some? ==>
              w.gone && w.reaped == Some(ended.value.0) && Enforced(a, w, 1, if ended.value.1 then 1 else 0)
    ensures ended.None? ==> Enforced(a, w, 1, 1) || (Enforced(a, w, 1, 0) && w.refused)
    ensures w.kills > a.kills ==> a.clock + grace <= w.clock
  {
    var sent: SignalResult;
    w, sent := SignalGroup(a, Term);
    if sent.Refused? { return w, None; }
    var code: Option<int>;
    w, code := AwaitGrace(w, grace);
    if code.Some? { return w, Some((code.value, false)); }
    var killed: Option<int>;
    w, killed := KillGroupBounded(w);
    ended := if killed.Some? then Some((killed.value, true)) else None;
  }

  /** What is fixed once the child has been started. */
  datatype Job = Job(settings: Settings, sha: string, pageSize: nat, leaderPid: int, startedNs: int)
  {
    predicate Valid() { settings.Allowed() && leaderPid > 0 && startedNs > 0 }
  }

  /** The variables the supervisor's loops and its `sample` closure update. */
  datatype Run = Run(
    w: World,
    scans: seq<Scan>,                  // every pass over /proc, oldest first
    counters: Counters,
    forwarded: Option<int>,
    terminationDeadline: Option<int>,
    sleptAtForward: int,               // slept and clock when the grace began
    clockAtForward: int,
    returncode: Option<int>,
    forcedKill: bool)

  /** What is kept from the spawn of the child to the end of the run. */
  predicate Steady(r: Run, s: Settings) {
    && r.w.Valid()
    && r.counters == CountScans(r.scans) && Plain(r.scans)
    && r.w.relayed == r.forwarded && r.w.relays == (if r.forwarded.None? then 0 else 1)
    && (r.forwarded.Some? ==>
          && r.w.requested == r.forwarded
          && r.w.sleptAtArrival <= r.sleptAtForward <= r.w.sleptAtArrival + s.Interval()
          && 0 <= r.w.slept - r.sleptAtForward <= r.w.clock - r.clockAtForward)
  }

  /** A forwarded signal has set the grace deadline. */
  predicate Armed(r: Run, s: Settings) {
    if r.forwarded.None? then r.terminationDeadline.None?
    else r.terminationDeadline == Some(r.clockAtForward + s.graceSeconds * 1_000_000_000)
  }

  /** No signal has been pending, unforwarded, for more than `wait` of waiting. */
  predicate Prompt(r: Run, wait: int) {
    r.forwarded.None? && r.w.requested.Some? ==> r.w.slept - r.w.sleptAtArrival <= wait
  }

  /** All waiting since the first signal arrived is at most `wait`. */
  predicate Within(w: World, wait: int) {
    w.requested.Some? ==> w.slept - w.sleptAtArrival <= wait
  }

  /** What both polling loops keep. */
  predicate Looping(r: Run, s: Settings) {
    && Steady(r, s) && Armed(r, s) && Prompt(r, s.Interval())
    && (r.forwarded.Some? ==> r.w.slept - r.sleptAtForward <= LoopBound(s))
    && r.w.terms == 0 && r.w.kills == 0 && !r.forcedKill
    && (r.returncode.Some? ==> r.w.reaped == r.returncode)
    && (r.forwarded.None? ==> !r.w.orphans)
  }

  /** Time has passed for a nap after every sample but, at most, the first. */
  predicate Paced(r: Run, job: Job) {
    job.startedNs + Pace(r.counters.sampleCount, job.settings.Interval()) <= r.w.clock
  }

  /** Take one sample; None when the enumeration of /proc raised. */
  method Sample(a: Run, job: Job) returns (r: Run, sampled: Option<bool>)
    requires a.w.Valid() && a.counters == CountScans(a.scans) && Plain(a.scans)
    ensures Elapsed(a.w, r.w, 0) && Quiet(a.w, r.w)
    ensures r == a.(w := r.w, scans := r.scans, counters := CountScans(r.scans)) && Plain(r.scans)
    ensures sampled != Some(true) ==> r.counters == a.counters
    ensures sampled == Some(true) ==> r.counters.sampleCount == a.counters.sampleCount + 1
    ensures sampled.None? ==> r.scans == a.scans
    ensures sampled.Some? ==> && r.scans != [] && r.scans[..|r.scans| - 1] == a.scans
                              && sampled.value == IsSample(r.scans[|r.scans| - 1])
  {
    var w, scan := ScanGroup(a.w, job.leaderPid, job.leaderPid, job.pageSize);
    r := a.(w := w);
    if scan.None? { return r, None; }
    var s := scan.value;
    r := r.(scans := a.scans + [s]);
    assert r.scans[..|r.scans| - 1] == a.scans;
    if s.processes <= 0 || s.rssBytes <= 0 { return r, Some(false); }
    r := r.(counters := Record(a.counters, s));
    return r, Some(true);
  }

  /** Relay the first requested signal to the group, once; false when the kernel refused. */
  method ForwardPending(a: Run, job: Job) returns (r: Run, ok: bool)
    requires job.Valid() && Steady(a, job.settings) && Armed(a, job.settings) && Prompt(a, job.settings.Interval())
    ensures Steady(r, job.settings) && Elapsed(a.w, r.w, 0) && Prompt(r, 0)
    ensures if ok then Armed(r, job.settings) else r.w.refused
    ensures a.forwarded.Some? ==> r == a
    ensures a.forwarded.None? && r.forwarded.Some? ==> r.sleptAtForward == r.w.slept
    ensures r.w.terms == a.w.terms && r.w.kills == a.w.kills && r.w.orphans == a.w.orphans
    ensures r.scans == a.scans && r.counters == a.counters
    ensures r.returncode == a.returncode && r.forcedKill == a.forcedKill
  {
    r, ok := a, true;
    if a.w.requested.Some? && a.forwarded.None? {
      var w, sent := SignalGroup(a.w, Relay(a.w.requested.value));
      var now: int;
      w, now := Now(w);
      r := r.(w := w, forwarded := a.w.requested, sleptAtForward := w.slept, clockAtForward := w.clock);
      if sent.Refused? { return r, false; }
      r := r.(terminationDeadline := Some(now + job.settings.Grace()));
    }
  }

  /** The sampling half of a turn of the first loop. */
  method BindSample(a: Run, job: Job, initialDeadline: int) returns (r: Run, turn: Turn, error: Option<MonitorError>)
    requires a.w.Valid() && a.counters == CountScans(a.scans) && Plain(a.scans)
    requires a.counters.sampleCount == 0 && a.returncode.None?
    ensures Elapsed(a.w, r.w, 0) && Quiet(a.w, r.w)
    ensures r == a.(w := r.w, scans := r.scans, counters := CountScans(r.scans), returncode := r.returncode)
    ensures Plain(r.scans)
    ensures r.returncode.Some? ==> r.w.reaped == r.returncode
    ensures turn.Again? ==> r.counters.sampleCount == 0 && r.returncode.None? && r.w.clock < initialDeadline
    ensures error.Some? ==> turn.Stop? && r.counters.sampleCount == 0
                            && (|| error.value.LeaderUnobservable?
                                || (error.value.ExitedUnsampled? && r.returncode == Some(0)))
    ensures turn.Stop? && r.counters.sampleCount == 0 ==>
              && (error == Some(ExitedUnsampled) <==> r.returncode == Some(0))
              && (error == Some(LeaderUnobservable) <==> r.returncode.None?)
    ensures error == Some(LeaderUnobservable) ==> r.w.clock >= initialDeadline
    ensures r.counters.sampleCount <= 1
  {
    var sampled: Option<bool>;
    r, sampled := Sample(a, job);
    if sampled.None? { return r, Fail, None; }
    if sampled.value { return r, Stop, None; }
    var w, code := Poll(r.w);
    r := r.(w := w, returncode := code);
    if code.Some? {
      return r, Stop, if code.value == 0 then Some(ExitedUnsampled) else None;
    }
    var now: int;
    w, now := Now(w);
    r := r.(w := w);
    if now >= initialDeadline { return r, Stop, Some(LeaderUnobservable); }
    return r, Again, None;
  }

  /** One turn of the first loop, up to its nap. */
  method BindOnce(a: Run, job: Job, initialDeadline: int) returns (r: Run, turn: Turn, error: Option<MonitorError>)
    requires job.Valid() && Looping(a, job.settings) && a.counters.sampleCount == 0 && a.returncode.None?
    ensures Elapsed(a.w, r.w, 0) && Steady(r, job.settings) && Prompt(r, 0) && r.w.terms == 0 && r.w.kills == 0
    ensures !turn.Fail? ==> Looping(r, job.settings)
    ensures turn.Again? ==> r.counters.sampleCount == 0 && r.returncode.None? && r.w.clock < initialDeadline
    ensures error.Some? ==> turn.Stop? && r.counters.sampleCount == 0
                            && (|| error.value.LeaderUnobservable?
                                || (error.value.ExitedUnsampled? && r.returncode == Some(0)))
    ensures a.forwarded.Some? ==> r.forwarded == a.forwarded && r.sleptAtForward == a.sleptAtForward
    ensures a.forwarded.None? && r.forwarded.Some? ==> r.sleptAtForward == r.w.slept
    ensures !turn.Fail? ==> r.counters.sampleCount <= 1
  {
    var ok: bool;
    r, ok := ForwardPending(a, job);
    if !ok { return r, Fail, None; }
    r, turn, error := BindSample(r, job, initialDeadline);
  }

  /** A nap of the first loop keeps what it started with, as long as the first wait is not over. */
  lemma NapKeepsBinding(r: Run, w: World, s: Settings)
    requires Looping(r, s) && Prompt(r, 0) && s.Allowed()
    requires r.forwarded.Some? ==> r.w.slept - r.sleptAtForward <= INITIAL_WAIT
    requires Elapsed(r.w, w, INITIAL_NAP) && Quiet(r.w, w)
    ensures Looping(r.(w := w), s)
  {
  }

  /** The first loop: bind the group to its leader before any evidence is written. */
  method Bind(a: Run, job: Job) returns (r: Run, ok: bool, error: Option<MonitorError>)
    requires job.Valid() && Looping(a, job.settings)
    requires a.forwarded.None? && a.counters.sampleCount == 0 && a.returncode.None?
    ensures a.w.slept <= r.w.slept && Elapsed(a.w, r.w, r.w.slept - a.w.slept)
    ensures Steady(r, job.settings) && r.w.terms == 0 && r.w.kills == 0
    ensures if ok then Looping(r, job.settings) else Within(r.w, job.settings.Interval() + LoopBound(job.settings))
    ensures error.Some? ==> ok && r.counters.sampleCount == 0
                            && (|| error.value.LeaderUnobservable?
                                || (error.value.ExitedUnsampled? && r.returncode == Some(0)))
    ensures ok ==> r.counters.sampleCount <= 1
  {
    var w, now := Now(a.w);
    r, ok, error := a.(w := w), true, None;
    var initialDeadline := now + INITIAL_WAIT;
    ghost var w0 := w;
    var turn := Again;
    while true
      invariant Looping(r, job.settings) && r.returncode.None? && r.counters.sampleCount == 0
      invariant 0 <= r.w.slept - w0.slept <= INITIAL_WAIT + INITIAL_NAP && Elapsed(w0, r.w, r.w.slept - w0.slept)
      invariant r.forwarded.Some? ==> r.sleptAtForward >= w0.slept
      decreases initialDeadline - r.w.clock
    {
      r, turn, error := BindOnce(r, job, initialDeadline);
      if turn != Again { break; }
      w := Sleep(r.w, INITIAL_NAP);
      NapKeepsBinding(r, w, job.settings);
      r := r.(w := w);
    }
    ok := turn != Fail;
  }

  /** How the sampling loop may end without raising. */
  predicate Ended(r: Run, error: Option<MonitorError>) {
    && (error.None? ==> r.w.gone && r.returncode.Some?)
    && (error == Some(GroupVanished) ==> r.returncode.None? || !r.w.gone)
    && (r.returncode.Some? ==> r.w.reaped == r.returncode)
    && r.w.kills == (if r.forcedKill then 1 else 0)
    && (r.forcedKill ==> r.forwarded.Some?)
    && (error.Some? ==> !r.forcedKill && Justified(error.value, r.counters, Seen(r.w, r.scans)))
    && (error.None? && r.forwarded.None? ==> !r.w.orphans)
  }

  /** SIGKILL once the grace after a forwarded signal is over; `done` when that ended the group. */
  method KillIfDue(a: Run) returns (r: Run, ok: bool, done: bool)
    requires a.w.Valid() && a.w.kills == 0 && !a.forcedKill
    ensures 0 <= r.w.slept - a.w.slept <= KILL_BOUND && Elapsed(a.w, r.w, r.w.slept - a.w.slept)
    ensures r == a.(w := r.w, returncode := r.returncode, forcedKill := done)
    ensures r.w.terms == a.w.terms && r.w.relays == a.w.relays && r.w.relayed == a.w.relayed
    ensures ok && !done ==> r.returncode == a.returncode && Quiet(a.w, r.w) && r.w.slept == a.w.slept
                            && (a.terminationDeadline.Some? ==> r.w.clock < a.terminationDeadline.value)
    ensures done ==> ok && r.w.gone && r.returncode.Some? && r.w.reaped == r.returncode
    ensures done || !ok ==> r.w.kills == 1 && a.terminationDeadline.Some? && a.terminationDeadline.value <= r.w.clock
  {
    r, ok, done := a, true, false;
    if a.terminationDeadline.Some? {
      var w, now := Now(a.w);
      if now >= a.terminationDeadline.value {
        var killed: Option<int>;
        w, killed := KillGroupBounded(w);
        r := r.(w := w);
        if killed.None? { return r, false, false; }
        return r.(returncode := killed, forcedKill := true), true, true;
      }
      r := r.(w := w);
    }
  }

  /** Has the leader exited, and if so what has become of its group? */
  method CheckLeader(a: Run) returns (r: Run, turn: Turn, error: Option<MonitorError>)
    requires a.w.Valid() && a.w.kills == 0 && !a.forcedKill && (a.forwarded.Some? <==> a.terminationDeadline.Some?)
    requires a.forwarded.None? ==> !a.w.orphans
    ensures Elapsed(a.w, r.w, 0) && Enforced(a.w, r.w, 0, 0) && r == a.(w := r.w, returncode := r.w.reaped)
    ensures !turn.Fail? && (turn.Stop? ==> Ended(r, error))
    ensures turn.Again? ==> error.None? && (r.forwarded.None? ==> r.returncode.None? && !r.w.orphans)
  {
    var w, code := Poll(a.w);
    r := a.(w := w, returncode := code);
    if code.Some? {
      var alive: bool;
      w, alive := GroupExists(w);
      r := r.(w := w);
      if !alive { return r, Stop, None; }
      if r.terminationDeadline.None? { return r, Stop, Some(DescendantsOutlived); }
    }
    return r, Again, None;
  }

  /** A turn of the sampling loop once signals have been relayed: leader, grace, sample. */
  method MonitorForwarded(a: Run, job: Job) returns (r: Run, turn: Turn, error: Option<MonitorError>)
    requires a.w.Valid() && a.counters == CountScans(a.scans) && Plain(a.scans)
    requires a.w.kills == 0 && !a.forcedKill && (a.forwarded.Some? <==> a.terminationDeadline.Some?)
    requires a.forwarded.None? ==> !a.w.orphans
    ensures 0 <= r.w.slept - a.w.slept <= KILL_BOUND && Elapsed(a.w, r.w, r.w.slept - a.w.slept)
    ensures r == a.(w := r.w, scans := r.scans, counters := CountScans(r.scans), returncode := r.returncode,
                   forcedKill := r.forcedKill)
    ensures Plain(r.scans) && r.w.terms == a.w.terms && r.w.relays == a.w.relays && r.w.relayed == a.w.relayed
    ensures turn.Again? ==> && r.w.kills == 0 && !r.forcedKill && r.w.slept == a.w.slept
                            && (r.returncode.Some? ==> r.w.reaped == r.returncode)
                            && (a.terminationDeadline.Some? ==> a.w.clock < a.terminationDeadline.value)
    ensures turn.Again? ==> |r.scans| == |a.scans| + 1 && (r.forwarded.None? ==> r.returncode.None? && !r.w.orphans)
    ensures turn.Stop? ==> Ended(r, error)
    ensures turn.Stop? && !r.forcedKill ==> r.w.slept == a.w.slept
    ensures !turn.Stop? ==> error.None?
    ensures r.w.slept > a.w.slept ==> a.terminationDeadline.Some?
    ensures turn.Again? ==> r.counters.sampleCount == a.counters.sampleCount + 1
    ensures turn.Stop? ==> r.counters == a.counters
  {
    var ok, done: bool;
    r, turn, error := CheckLeader(a);
    if turn == Stop { return; }
    r, ok, done := KillIfDue(r);
    if !ok { return r, Fail, None; }
    if done { return r, Stop, None; }
    r, turn, error := SampleOnce(r, job);
  }

  /** One turn of the sampling loop, up to its checkpoint and nap. */
  method MonitorOnce(a: Run, job: Job) returns (r: Run, turn: Turn, error: Option<MonitorError>)
    requires job.Valid() && Looping(a, job.settings)
    ensures 0 <= r.w.slept - a.w.slept <= KILL_BOUND && Elapsed(a.w, r.w, r.w.slept - a.w.slept)
    ensures Steady(r, job.settings) && r.w.terms == 0
    ensures turn.Again? ==> Looping(r, job.settings) && Prompt(r, 0) && r.w.slept == a.w.slept
                            && (r.forwarded.Some? ==> r.w.slept - r.sleptAtForward < job.settings.Grace())
    ensures turn.Again? ==> |r.scans| == |a.scans| + 1 && (r.returncode.Some? ==> r.forwarded.Some?)
    ensures turn.Stop? ==> Ended(r, error) && (!r.forcedKill ==> r.w.slept == a.w.slept)
    ensures !turn.Stop? ==> error.None?
    ensures r.w.slept > a.w.slept ==> r.forwarded.Some?
    ensures a.forwarded.Some? ==> r.forwarded == a.forwarded && r.sleptAtForward == a.sleptAtForward
                                  && r.clockAtForward == a.clockAtForward
    ensures a.forwarded.Some? && turn.Again? ==> a.w.clock < a.terminationDeadline.value
    ensures a.forwarded.None? && r.forwarded.Some? ==> r.sleptAtForward == a.w.slept
    ensures Prompt(r, 0)
    ensures turn.Again? ==> r.counters.sampleCount == a.counters.sampleCount + 1
    ensures turn.Stop? ==> r.counters == a.counters
  {
    var ok: bool;
    r, ok := ForwardPending(a, job);
    if !ok { return r, Fail, None; }
    r, turn, error := MonitorForwarded(r, job);
  }

  /** The sampling half of a turn. */
  method SampleOnce(a: Run, job: Job) returns (r: Run, turn: Turn, error: Option<MonitorError>)
    requires a.w.Valid() && a.counters == CountScans(a.scans) && Plain(a.scans)
    requires a.w.kills == 0 && !a.forcedKill && (a.returncode.Some? ==> a.w.reaped == a.returncode)
    requires a.forwarded.None? ==> !a.w.orphans
    ensures Elapsed(a.w, r.w, 0) && Enforced(a.w, r.w, 0, 0)
    ensures r == a.(w := r.w, scans := r.scans, counters := CountScans(r.scans), returncode := r.returncode)
    ensures Plain(r.scans)
    ensures turn.Again? ==> r.returncode == a.returncode && |r.scans| == |a.scans| + 1 && r.w.orphans == a.w.orphans
    ensures turn.Stop? ==> Ended(r, error) && (error.Some? <==> r.returncode.None? || !r.w.gone)
    ensures !turn.Stop? ==> error.None?
    ensures turn.Again? ==> r.counters.sampleCount == a.counters.sampleCount + 1
    ensures turn.Stop? ==> r.counters == a.counters
  {
    var sampled: Option<bool>;
    r, sampled := Sample(a, job);
    if sampled.None? { return r, Fail, None; }
    if sampled.value { return r, Again, None; }
    var w, code := Poll(r.w);
    r := r.(w := w, returncode := code);
    if code.Some? {
      var alive: bool;
      w, alive := GroupExists(w);
      r := r.(w := w);
      if !alive { return r, Stop, None; }
    }
    return r, Stop, Some(GroupVanished);
  }

  /** No complete evidence was written since the file was `before`. */
  predicate Provisional(before: Option<Evidence>, file: Option<Evidence>) {
    file == before || (file.Some? && !file.value.complete)
  }

  /** The evidence repeats the outcome of a run and how long it took. */
  predicate Reports(e: Evidence, r: Run, job: Job, error: Option<MonitorError>, complete: bool, now: int) {
    && e.complete == complete && e.monitorError == error && e.childReturn == r.returncode
    && e.buildExit == (if r.returncode.Some? then Some(ShellStatus(r.returncode.value)) else None)
    && e.forcedKill == r.forcedKill && e.forwardedSignal == r.forwarded
    && e.leaderPid == job.leaderPid && e.startedNs == job.startedNs
    && (complete ==> e.finishedNs.Some? && r.w.clock <= e.finishedNs.value <= now
                     && e.durationMs == Some((e.finishedNs.value - e.startedNs) / MS))
    && (!complete ==> e.finishedNs.None? && e.durationMs.None?)
  }

  /** The payload written to the evidence file. */
  method Payload(r: Run, job: Job, error: Option<MonitorError>, complete: bool) returns (w: World, e: Evidence)
    requires job.Valid() && r.w.Valid() && job.startedNs <= r.w.clock
    ensures Elapsed(r.w, w, 0) && Quiet(r.w, w)
    ensures Labelled(e, job.settings, job.sha) && Counts(e, r.counters)
    ensures Reports(e, r, job, error, complete, w.clock)
  {
    w := r.w;
    var finished: Option<int> := None;
    if complete {
      var now: int;
      w, now := Now(w);
      finished := Some(now);
    }
    var names := SortNames(r.counters.compilers);
    assert names != [] <==> r.counters.compilers != {} by {
      if names != [] { assert names[0] in names; }
    }
    assert (set x | x in names) == r.counters.compilers;
    e := Evidence(
      if r.returncode.Some? then Some(ShellStatus(r.returncode.value)) else None,
      r.returncode, job.settings.checkpointMs, job.sha, complete, false,
      if finished.Some? then Some((finished.value - job.startedNs) / MS) else None,
      r.counters.endBytes, finished, r.forcedKill, r.forwarded, false, r.counters.leaderObserved, job.leaderPid,
      r.counters.maximumProcesses, ProcGroupRssSum, error, r.counters.compilers != {}, names, r.counters.peakBytes,
      job.leaderPid, r.counters.sampleCount, job.settings.intervalMs, SCHEMA_VERSION, BuildProcessGroup, true,
      ProcStatm,
      r.counters.startBytes, job.startedNs, job.settings.graceSeconds, false);
    assert CountersOf(e) == r.counters;
  }

  /** A provisional payload is written whenever the checkpoint time has come. */
  method Checkpoint(a: Run, job: Job, before: Option<Evidence>, due: int)
    returns (r: Run, file: Option<Evidence>, next: int, ok: bool)
    requires job.Valid() && a.w.Valid() && job.startedNs <= a.w.clock
    ensures Elapsed(a.w, r.w, 0) && Quiet(a.w, r.w) && r == a.(w := r.w)
    ensures a.w.clock < due ==> ok && r == a && file == before && next == due
    ensures a.w.clock >= due ==> next == a.w.clock + job.settings.checkpointMs * 1_000_000
    ensures a.w.clock >= due && ok ==>
              file.Some? && Counts(file.value, a.counters) && Labelled(file.value, job.settings, job.sha)
    ensures Provisional(before, file)
  {
    r, file, next, ok := a, before, due, true;
    if a.w.clock >= due {
      var w, e := Payload(a, job, None, false);
      w, file, ok := WriteEvidence(w, before, e);
      r := a.(w := w);
      next := a.w.clock + job.settings.checkpointMs * 1_000_000;
    }
  }

  /** A turn that found nothing to do leaves room for one nap. */
  lemma NapKeepsLooping(r: Run, w: World, s: Settings)
    requires Looping(r, s) && Prompt(r, 0) && s.Allowed()
    requires r.forwarded.Some? ==> r.w.slept - r.sleptAtForward < s.Grace()
    requires Elapsed(r.w, w, s.Interval()) && Quiet(r.w, w)
    ensures Looping(r.(w := w), s)
  {
  }

  /** The end of a turn: a checkpoint when it is due, then a nap. */
  method Pause(a: Run, job: Job, before: Option<Evidence>, due: int)
    returns (r: Run, file: Option<Evidence>, next: int, ok: bool)
    requires job.Valid() && Looping(a, job.settings) && Prompt(a, 0) && job.startedNs <= a.w.clock
    requires a.forwarded.Some? ==> a.w.slept - a.sleptAtForward < job.settings.Grace()
    ensures a.w.slept <= r.w.slept && Elapsed(a.w, r.w, r.w.slept - a.w.slept) && r == a.(w := r.w)
    ensures r.w.terms == 0 && Provisional(before, file) && Steady(r, job.settings)
    ensures ok ==> Looping(r, job.settings) && a.w.clock + job.settings.Interval() <= r.w.clock
    ensures ok && a.w.clock >= due ==> file.Some? && Counts(file.value, a.counters)
    ensures if a.w.clock >= due then next == a.w.clock + job.settings.checkpointMs * 1_000_000
            else next == due && file == before
    ensures !ok ==> r.w.slept == a.w.slept
  {
    r, file, next, ok := Checkpoint(a, job, before, due);
    if !ok { return; }
    var w := Sleep(r.w, job.settings.Interval());
    NapKeepsLooping(r, w, job.settings);
    r := r.(w := w);
  }

  /** All the waiting a run may have done when its sampling loop is over. */
  function StopBound(s: Settings, killed: bool): int {
    s.Interval() + LoopBound(s) + if killed then KILL_BOUND else 0
  }

  /** One whole turn of the sampling loop. */
  method MonitorTurn(a: Run, job: Job, before: Option<Evidence>, due: int)
    returns (r: Run, file: Option<Evidence>, next: int, turn: Turn, error: Option<MonitorError>)
    requires job.Valid() && Looping(a, job.settings) && Paced(a, job) && job.startedNs <= a.w.clock
    ensures a.w.slept <= r.w.slept && Elapsed(a.w, r.w, r.w.slept - a.w.slept)
    ensures Steady(r, job.settings) && r.w.terms == 0 && Provisional(before, file)
    ensures turn.Again? ==> && Looping(r, job.settings) && error.None?
                            && a.w.clock < r.w.clock && |r.scans| == |a.scans| + 1
                            && (r.returncode.Some? ==> r.forwarded.Some?)
    ensures turn.Again? && a.forwarded.Some? ==>
      r.forwarded == a.forwarded && r.clockAtForward == a.clockAtForward && a.w.clock < a.terminationDeadline.value
    ensures turn.Again? && a.w.clock >= due ==> file.Some? && Counts(file.value, r.counters) && next > due
    ensures turn.Stop? ==> Ended(r, error) && Within(r.w, StopBound(job.settings, r.forcedKill))
    ensures turn.Fail? ==> error.None? && Within(r.w, StopBound(job.settings, true))
    ensures !turn.Fail? ==> Paced(r, job)
  {
    file, next := before, due;
    r, turn, error := MonitorOnce(a, job);
    if turn != Again { return; }
    var ok: bool;
    r, file, next, ok := Pause(r, job, before, due);
    if !ok { turn := Fail; }
  }

  /**
   The sampling loop. `patience` bounds the turns taken while no signal has been
   forwarded; a run cut short by it is Unfinished, and never one that forwarded.
   */
  method Monitor(a: Run, job: Job, before: Option<Evidence>, firstDue: int, patience: nat)
    returns (r: Run, file: Option<Evidence>, attempt: Attempt, error: Option<MonitorError>)
    requires job.Valid() && Looping(a, job.settings) && Paced(a, job) && job.startedNs <= a.w.clock
    ensures a.w.clock <= r.w.clock && Steady(r, job.settings) && r.w.terms == 0 && Provisional(before, file)
    ensures attempt.Finished? ==> Ended(r, error) && Paced(r, job) && Within(r.w, StopBound(job.settings, r.forcedKill))
    ensures attempt.Threw? ==> error.None? && Within(r.w, StopBound(job.settings, true))
    ensures attempt.Unfinished? ==> r.forwarded.None? && |r.scans| >= |a.scans| + patience
  {
    r, file, error := a, before, None;
    var left := patience;
    var due := firstDue;
    while left > 0 || r.forwarded.Some?
      invariant Looping(r, job.settings) && Paced(r, job) && Provisional(before, file) && a.w.clock <= r.w.clock
      invariant |r.scans| >= |a.scans| + patience - left
      decreases left, if r.forwarded.Some? then r.clockAtForward + job.settings.Grace() - r.w.clock else 0
    {
      if r.forwarded.None? { left := left - 1; }
      var turn: Turn;
      r, file, due, turn, error := MonitorTurn(r, job, file, due);
      if turn == Fail { return r, file, Threw, error; }
      if turn == Stop { return r, file, Finished, error; }
    }
    return r, file, Unfinished, None;
  }

  /** The leader has not been reaped, or its group outlived it. */
  method StillAlive(a: World) returns (w: World, alive: bool)
    requires a.Valid()
    ensures Elapsed(a, w, 0) && Enforced(a, w, 0, 0) && w.refused == a.refused
    ensures alive == (w.reaped.None? || !w.gone)
  {
    var code: Option<int>;
    w, code := Poll(a);
    alive := code.None?;
    if !alive { w, alive := GroupExists(w); }
  }

  /** Insist on the end of the group once a monitor error is known, and on a return code in any case. */
  method EndGroup(a: Run, job: Job, error: Option<MonitorError>) returns (r: Run, ok: bool)
    requires job.Valid() && a.w.Valid() && a.w.terms == 0 && Ended(a, error)
    ensures Elapsed(a.w, r.w, r.w.slept - a.w.slept)
    ensures 0 <= r.w.slept - a.w.slept <= if a.forcedKill then 0 else TerminateBound(job.settings)
    ensures r == a.(w := r.w, returncode := r.returncode, forcedKill := r.forcedKill)
    ensures r.w.relays == a.w.relays && r.w.relayed == a.w.relayed
    ensures ok ==> r.w.gone && r.returncode.Some? && r.w.reaped == r.returncode
    ensures ok ==> r.w.kills == (if r.forcedKill then 1 else 0) && (r.forcedKill ==> r.forwarded.Some? || error.Some?)
    ensures !ok ==> error.Some? && (r.w.refused || r.w.kills > 0)
    ensures ok && error.None? && a.forwarded.None? ==> !r.w.orphans
  {
    r := a;
    var needed := false;
    if error.Some? {
      var w;
      w, needed := StillAlive(r.w);
      r := r.(w := w);
    }
    if needed {
      var w, ended := TerminateGroupBounded(r.w, job.settings.Grace());
      r := r.(w := w);
      if ended.None? { return r, false; }
      r := r.(returncode := Some(ended.value.0), forcedKill := ended.value.1);
    } else if r.returncode.None? {
      var w, code := Wait(r.w, KILL_WAIT);
      r := r.(w := w, returncode := code);
    }
    var w, alive := GroupExists(r.w);
    r := r.(w := w);
    // The source repeats the termination here for a group that is still alive; no run gets there.
    if alive { assert false; }
    return r, true;
  }

  /** A monitor error stays justified while the world moves on. */
  lemma JustifiedStays(error: MonitorError, c: Counters, scans: seq<Scan>, a: World, b: World, wait: int)
    requires Justified(error, c, Seen(a, scans)) && Elapsed(a, b, wait)
    ensures Justified(error, c, Seen(b, scans))
  {
  }

  /** What a command that returned zero must have shown, or the error that replaces any other. */
  function ZeroExitError(c: Counters): Option<MonitorError> {
    if c.sampleCount < 2 then Some(TooFewSamples)
    else if !c.leaderObserved then Some(LeaderUnseen)
    else if c.compilers == {} then Some(NoCompiler)
    else None
  }

  /** Judge a finished run and write the final evidence. */
  method Conclude(a: Run, job: Job, error: Option<MonitorError>, before: Option<Evidence>)
    returns (w: World, file: Option<Evidence>, ok: bool, verdict: Option<MonitorError>)
    requires job.Valid() && a.w.Valid() && job.startedNs <= a.w.clock && Paced(a, job)
    requires a.returncode.Some? && a.w.reaped == a.returncode
    requires a.forcedKill ==> a.forwarded.Some? || error.Some?
    requires error.None? && a.forwarded.None? ==> !a.w.orphans
    requires error.Some? ==> Justified(error.value, a.counters, Seen(a.w, a.scans))
    ensures Elapsed(a.w, w, 0) && Quiet(a.w, w)
    ensures !ok ==> file == before
    ensures ok ==> file.Some? && file.value.monitorError == verdict
                   && Final(file.value, job.settings, job.sha, a.counters, Seen(w, a.scans))
                   && file.value.leaderPid == job.leaderPid && file.value.forwardedSignal == a.forwarded
                   && file.value.forcedKill == a.forcedKill
    ensures verdict ==
            if a.returncode == Some(0) && ZeroExitError(a.counters).Some? then ZeroExitError(a.counters) else error
  {
    verdict := error;
    if a.returncode == Some(0) && ZeroExitError(a.counters).Some? { verdict := ZeroExitError(a.counters); }
    var e: Evidence;
    w, e := Payload(a, job, verdict, verdict.None?);
    ghost var w1 := w;
    w, file, ok := WriteEvidence(w, before, e);
    if verdict.Some? {
      assert Justified(verdict.value, a.counters, Seen(a.w, a.scans));
      JustifiedStays(verdict.value, a.counters, a.scans, a.w, w, 0);
    }
  }

  /** The world of a supervisor that has just installed its handlers. */
  predicate Fresh(w: World) {
    w.Valid() && w.requested.None? && w.reaped.None? && !w.gone && !w.orphans && !w.refused && Unsent(w)
  }

  predicate Unsent(w: World) {
    w.relays == 0 && w.relayed.None? && w.terms == 0 && w.kills == 0
  }

  /** Only the first requested signal is forwarded to the group, and at most once. */
  predicate RelaysFirstOnce(w: World) {
    && w.relays <= 1 && (w.relays == 1 ==> w.relayed.Some? && w.relayed == w.requested)
    && (w.relays == 0 ==> w.relayed.None?)
  }

  /** The provisional evidence written before the sampling loop. */
  method FirstEvidence(a: Run, job: Job, error: Option<MonitorError>, before: Option<Evidence>)
    returns (r: Run, file: Option<Evidence>, ok: bool)
    requires job.Valid() && a.w.Valid() && job.startedNs <= a.w.clock
    ensures Elapsed(a.w, r.w, 0) && Quiet(a.w, r.w) && r == a.(w := r.w)
    ensures Provisional(before, file)
    ensures ok ==> && file.Some? && !file.value.complete && file.value.monitorError == error
                   && Counts(file.value, a.counters) && Labelled(file.value, job.settings, job.sha)
  {
    var w, e := Payload(a, job, error, false);
    w, file, ok := WriteEvidence(w, before, e);
    r := a.(w := w);
  }

  /** A run that ended on its own: no process left, and final evidence of what was seen. */
  ghost predicate Concluded(r: Run, file: Option<Evidence>, job: Job) {
    && r.w.gone && r.w.reaped.Some? && file.Some?
    && Final(file.value, job.settings, job.sha, CountScans(r.scans), Seen(r.w, r.scans))
    && Plain(r.scans) && file.value.forwardedSignal == r.w.relayed && (file.value.forcedKill <==> r.w.kills > 0)
  }

  /** What follows once the group is bound to its leader, or could not be. */
  method AttendBound(a: Run, job: Job, failure: Option<MonitorError>, before: Option<Evidence>, due: int, patience: nat)
    returns (r: Run, file: Option<Evidence>, attempt: Attempt)
    requires job.Valid() && Looping(a, job.settings) && Paced(a, job) && job.startedNs <= a.w.clock
    requires failure.Some? ==>
               Ended(a, failure) && failure != Some(GroupVanished) && Within(a.w, StopBound(job.settings, false))
    ensures r.w.Valid() && RelaysFirstOnce(r.w)
    ensures !attempt.Finished? ==> Provisional(before, file)
    ensures attempt.Unfinished? ==> r.w.relays == 0 && |r.scans| >= patience
    ensures !attempt.Unfinished? ==> Within(r.w, ReturnBound(job.settings))
    ensures attempt.Finished? ==> Concluded(r, file, job)
  {
    var ok: bool;
    var error := failure;
    r, file, ok := FirstEvidence(a, job, error, before);
    if !ok { return r, file, Threw; }
    if error.None? {
      r, file, attempt, error := Monitor(r, job, file, due, patience);
      if attempt != Finished { return; }
    }
    r, file, ok := Finish(r, job, error, file);
    attempt := if ok then Finished else Threw;
  }

  /** The supervised part of a run: everything the source guards with its exception handler. */
  method Attend(a: World, job: Job, before: Option<Evidence>, patience: nat)
    returns (r: Run, file: Option<Evidence>, attempt: Attempt)
    requires job.Valid() && a.Valid() && Unsent(a) && !a.orphans && job.startedNs <= a.clock
    requires a.requested.Some? ==> a.slept == a.sleptAtArrival
    ensures r.w.Valid() && RelaysFirstOnce(r.w)
    ensures !attempt.Finished? ==> Provisional(before, file)
    ensures attempt.Unfinished? ==> r.w.relays == 0 && |r.scans| >= patience
    ensures !attempt.Unfinished? ==> Within(r.w, ReturnBound(job.settings))
    ensures attempt.Finished? ==> Concluded(r, file, job)
  {
    var w, now := Now(a);
    var due := now + job.settings.checkpointMs * 1_000_000;
    r := Run(w, [], NO_SAMPLES, None, None, 0, 0, None, false);
    file := before;
    var ok: bool;
    var error: Option<MonitorError>;
    r, ok, error := Bind(r, job);
    if !ok { return r, file, Threw; }
    r, file, attempt := AttendBound(r, job, error, before, due, patience);
  }

  /** The end of the guarded part: no live group, a return code, final evidence. */
  method Finish(a: Run, job: Job, error: Option<MonitorError>, before: Option<Evidence>)
    returns (r: Run, file: Option<Evidence>, ok: bool)
    requires job.Valid() && Steady(a, job.settings) && a.w.terms == 0 && Ended(a, error)
    requires job.startedNs <= a.w.clock && Paced(a, job)
    requires Within(a.w, StopBound(job.settings, a.forcedKill))
    ensures r.w.Valid() && RelaysFirstOnce(r.w) && Within(r.w, ReturnBound(job.settings))
    ensures !ok ==> file == before
    ensures ok ==> Concluded(r, file, job)
  {
    file := before;
    r, ok := EndGroup(a, job, error);
    if !ok { return; }
    if error.Some? {
      JustifiedStays(error.value, a.counters, a.scans, a.w, r.w, r.w.slept - a.w.slept);
    }
    var w, verdict;
    w, file, ok, verdict := Conclude(r, job, error, before);
    r := r.(w := w);
  }

  /**
   Run a command in its own session, sample its process group and report. The
   promises hold for every behaviour of the world, every command and settings.
   */
  method Supervise(a: World, settings: Settings, sha: string, pageSize: nat, command: seq<string>,
                   before: Option<Evidence>, patience: nat)
    returns (w: World, file: Option<Evidence>, scans: seq<Scan>, outcome: Outcome)
    requires Fresh(a)
    ensures outcome.Rejected? <==> command == [] || !settings.Allowed()
    ensures outcome.Rejected? || outcome.SpawnFailed? ==> Enforced(a, w, 0, 0) && file == before
    ensures w.Valid() && RelaysFirstOnce(w)
    // A run that returns leaves no process behind and says exactly what it saw.
    ensures outcome.Returned? ==>
      && w.gone && w.reaped.Some? && file.Some?
      && Final(file.value, settings, sha, CountScans(scans), Seen(w, scans))
      && Plain(scans) && file.value.forwardedSignal == w.relayed
      && (file.value.forcedKill <==> w.kills > 0)
      && (outcome.status == 0 <==> file.value.complete && w.reaped == Some(0))
      && (file.value.complete && w.reaped.value >= 0 ==> outcome.status == w.reaped.value)
      && (file.value.complete && w.reaped.value < 0 ==> outcome.status - 128 == -w.reaped.value)
      && (!file.value.complete ==> outcome.status == 70)
    // No other run leaves complete evidence, and none gives up before SIGKILL unless the kernel refused it.
    ensures !outcome.Returned? ==> Provisional(before, file)
    ensures outcome.Raised? ==> (w.gone && w.reaped.Some?) || w.kills > 0 || w.refused
    // Once a signal arrived the run waits no longer than its bound before it ends.
    ensures outcome.Returned? ==> Within(w, ReturnBound(settings))
    ensures outcome.Raised? ==> Within(w, RaiseBound(settings))
    // A run that is given up on was sampled that often without ending, and never asked to end.
    ensures outcome.StillRunning? ==> w.relays == 0 && |scans| >= patience
  {
    w, file, scans := a, before, [];
    if command == [] || !settings.Allowed() { return w, file, scans, Rejected; }
    var started: int;
    w, started := Now(w);
    var pid: Option<int>;
    w, pid := Spawn(w);
    if pid.None? { return w, file, scans, SpawnFailed; }
    var job := Job(settings, sha, pageSize, pid.value, started);
    var r, attempt;
    r, file, attempt := Attend(w, job, before, patience);
    w, scans := r.w, r.scans;
    match attempt
    case Unfinished =>
      outcome := StillRunning;
    case Threw =>
      w := HandleException(w, settings);
      outcome := Raised;
    case Finished =>
      outcome := Returned(if file.value.monitorError.Some? then MONITOR_FAILURE else ShellStatus(w.reaped.value));
  }

  /** The exception handler: terminate whatever may still be alive, then re-raise. */
  method HandleException(a: World, settings: Settings) returns (w: World)
    requires a.Valid() && settings.Allowed()
    ensures 0 <= w.slept - a.slept <= TerminateBound(settings) && Elapsed(a, w, w.slept - a.slept)
    ensures w.relays == a.relays && w.relayed == a.relayed && w.kills >= a.kills
    ensures (w.gone && w.reaped.Some?) || w.kills > 0 || w.refused
  {
    var needed: bool;
    w, needed := StillAlive(a);
    if needed {
      var ended: Option<(int, bool)>;
      w, ended := TerminateGroupBounded(w, settings.Grace());
    }
  }
}

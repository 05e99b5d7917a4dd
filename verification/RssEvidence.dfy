/**
 What the build script and the promotion validator demand of process-group RSS
 evidence, and what the evidence the supervisor produces needs to pass them.
 */
module RssEvidence {
  import opened Prelude
  import opened ProcScan
  import opened Names
  import opened Supervisor

  /** The settings build-wheel.sh runs the supervisor with. */
  const BUILD_SETTINGS := Settings(100, 5000, 10)

  predicate Positive(value: Option<int>) {
    value.Some? && value.value > 0
  }

  predicate Distinct(names: seq<string>) {
    forall i, j :: 0 <= i < j < |names| ==> names[i] != names[j]
  }

  /** The check of build-wheel.sh on the final file of the supervisor. */
  predicate ShellAccepts(e: Evidence, capacity: int, reserve: int) {
    && e.buildExit == Some(0) && e.childReturn == Some(0)
    && e.checkpointMs == 5000 && e.complete && !e.coversOtherProcesses
    && !e.forcedKill && e.forwardedSignal.None? && !e.includesFileCache && e.leaderObserved
    && e.peakMethod == ProcGroupRssSum && e.monitorError.None? && e.compilerObserved
    && e.intervalMs == 100 && e.schemaVersion == 2
    && e.scope == BuildProcessGroup && e.sharedPagesDoubleCounted && e.source == ProcStatm
    && e.graceSeconds == 10 && !e.wholePodEnforced
    && Positive(e.durationMs) && Positive(e.endBytes) && Positive(e.finishedNs) && Positive(e.startBytes)
    && e.leaderPid > 0 && e.maximumProcesses > 0 && e.peakBytes > 0 && e.groupId > 0
    && e.sampleCount > 0 && e.startedNs > 0
    && e.sampleCount >= 2 && e.maximumProcesses >= 2
    && e.leaderPid == e.groupId
    && e.finishedNs.value > e.startedNs
    && e.durationMs.value == (e.finishedNs.value - e.startedNs) / MS
    && IsHexDigest(e.commandSha)
    && e.compilers != [] && (forall x :: x in e.compilers ==> x != "") && Distinct(e.compilers)
    && e.peakBytes >= Max(e.startBytes.value, e.endBytes.value)
    && e.peakBytes + reserve <= capacity
  }

  /** The memory_peak object of process-group RSS build evidence. */
  datatype RssPeak = RssPeak(
    available: bool, buildExit: Option<int>, childReturn: Option<int>, checkpointMs: int, commandSha: string,
    complete: bool, coversOtherProcesses: bool, durationMs: Option<int>, endBytes: Option<int>,
    finishedNs: Option<int>, forcedKill: bool, forwardedSignal: Option<int>, includesFileCache: bool,
    kernelEnforced: bool, leaderObserved: bool, leaderPid: int, maximumProcesses: int, peakMethod: PeakMethod,
    mode: PeakMode, monitorError: Option<MonitorError>, compilerObserved: bool, compilers: seq<string>,
    peakBytes: int, groupId: int, sampleCount: int, intervalMs: int, peakPlusReserveWithinAssignment: bool,
    scope: Scope, sharedPagesDoubleCounted: bool, source: Source, startBytes: Option<int>, startedNs: int,
    graceSeconds: int, wholePodEnforced: bool)

  /** How build-wheel.sh copies the sample into the build evidence. */
  function CopyRss(e: Evidence, capacity: int, reserve: int): RssPeak {
    RssPeak(
      true, e.buildExit, e.childReturn, e.checkpointMs, e.commandSha,
      e.complete, e.coversOtherProcesses, e.durationMs, e.endBytes,
      e.finishedNs, e.forcedKill, e.forwardedSignal, e.includesFileCache,
      false, e.leaderObserved, e.leaderPid, e.maximumProcesses, e.peakMethod,
      ProcessGroupRssMode, e.monitorError, e.compilerObserved, e.compilers,
      e.peakBytes, e.groupId, e.sampleCount, e.intervalMs, e.peakBytes + reserve <= capacity,
      e.scope, e.sharedPagesDoubleCounted, e.source, e.startBytes, e.startedNs,
      e.graceSeconds, e.wholePodEnforced)
  }

  /** `_compiler_executable_name`: a plain file name that names a compiler. */
  predicate CompilerName(x: string) {
    x != "" && '/' !in x && x != "." && IsCompiler(x)
  }

  /** The RSS branch of the promotion validator. */
  predicate ValidatorAccepts(p: RssPeak, capacity: int, reserve: int) {
    && p.available && p.buildExit == Some(0) && p.childReturn == Some(0) && p.complete
    && !p.coversOtherProcesses && !p.forcedKill && p.forwardedSignal.None? && !p.includesFileCache
    && !p.kernelEnforced && p.leaderObserved && p.peakMethod == ProcGroupRssSum
    && p.mode == ProcessGroupRssMode && p.monitorError.None? && p.compilerObserved
    && p.peakPlusReserveWithinAssignment && p.scope == BuildProcessGroup
    && p.sharedPagesDoubleCounted && p.source == ProcStatm && !p.wholePodEnforced
    && p.intervalMs == 100 && p.checkpointMs == 5000 && p.graceSeconds == 10
    && IsHexDigest(p.commandSha)
    && Positive(p.startBytes) && Positive(p.endBytes) && p.peakBytes > 0
    && p.peakBytes >= Max(p.startBytes.value, p.endBytes.value)
    && p.sampleCount >= 2 && p.maximumProcesses >= 2
    && p.groupId > 0 && p.leaderPid > 0 && p.groupId == p.leaderPid
    && p.compilers != [] && (forall x :: x in p.compilers ==> CompilerName(x)) && Ascending(p.compilers)
    && p.startedNs > 0 && Positive(p.finishedNs) && p.finishedNs.value > p.startedNs
    && Positive(p.durationMs) && p.durationMs.value == (p.finishedNs.value - p.startedNs) / MS
    && p.peakBytes + reserve <= capacity
  }

  /**
   What the consumers ask of a successful run: complete evidence of a zero exit
   with no signal forwarded, two processes at once, and room for the reserve
   above the peak. They also ask for a whole millisecond, which every such run takes.
   */
  predicate Promotable(e: Evidence, capacity: int, reserve: int) {
    && e.complete && e.childReturn == Some(0) && e.forwardedSignal.None?
    && e.maximumProcesses >= 2
    && e.peakBytes + reserve <= capacity
  }

  lemma {:induction false} PaceIsProduct(samples: int, interval: int)
    requires samples >= 1
    ensures Pace(samples, interval) == (samples - 1) * interval
  {
    if samples > 1 {
      PaceIsProduct(samples - 1, interval);
      assert (samples - 1) * interval == (samples - 2) * interval + interval;
    }
  }

  lemma WholeMilliseconds(ns: int, naps: int, intervalMs: int)
    requires ns >= naps * (intervalMs * MS)
    ensures ns / MS >= naps * intervalMs
  {
    assert naps * (intervalMs * MS) == (naps * intervalMs) * MS;
  }

  /**
   How long complete evidence says a run took: one interval for every sample but
   the first. A zero exit has two samples, so it never takes less than an
   interval; only a command that failed can be complete in less.
   */
  lemma RunsTakeTime(e: Evidence, settings: Settings, sha: string, c: Counters, seen: Sightings)
    requires Final(e, settings, sha, c, seen) && settings.Allowed() && e.complete
    ensures c.sampleCount >= 1 ==> e.durationMs.value >= (c.sampleCount - 1) * settings.intervalMs
    ensures e.durationMs.value < settings.intervalMs ==> c.sampleCount <= 1 && seen.returncode != 0
  {
    if c.sampleCount >= 1 {
      PaceIsProduct(c.sampleCount, settings.Interval());
      WholeMilliseconds(e.finishedNs.value - e.startedNs, c.sampleCount - 1, settings.intervalMs);
      if c.sampleCount >= 2 { AtLeastOne(c.sampleCount - 1, settings.intervalMs); }
    }
  }

  lemma AtLeastOne(naps: int, intervalMs: int)
    requires naps >= 1 && intervalMs >= 0
    ensures naps * intervalMs >= intervalMs
  {
  }

  lemma PositiveSamples(e: Evidence, scans: seq<Scan>)
    requires Counts(e, CountScans(scans)) && e.sampleCount > 0
    ensures Positive(e.startBytes) && Positive(e.endBytes) && e.peakBytes > 0 && e.maximumProcesses > 0
    ensures e.peakBytes >= Max(e.startBytes.value, e.endBytes.value)
  {
    var samples := Samples(scans);
    CountScansTallies(scans);
    assert Tally(CountScans(scans), samples);
    assert IsSample(samples[0]) && IsSample(samples[|samples| - 1]);
  }

  lemma {:induction false} PlainCompilers(scans: seq<Scan>)
    requires Plain(scans)
    ensures CompilerNames(CountScans(scans).compilers)
  {
    if scans != [] { PlainCompilers(scans[..|scans| - 1]); }
  }

  lemma DotIsNoCompiler()
    ensures !IsCompiler(".")
  {
    var l := Lower(".");
    assert l == ".";
    assert !Contains(l[1..], "nvcc") && !Contains(l[1..], "ptxas") && !Contains(l[1..], "g++");
  }

  /** A complete zero exit without a forwarded signal was never killed. */
  lemma CompletedRunWasNotKilled(e: Evidence, settings: Settings, sha: string, c: Counters, seen: Sightings)
    requires Final(e, settings, sha, c, seen)
    requires e.complete && e.forwardedSignal.None?
    ensures !e.forcedKill
  {
  }

  /**
   For every run of the supervisor under the build's settings, the shell accepts
   the evidence exactly when it is promotable, and so does the validator after
   the fields were copied.
   */
  lemma ProducerMeetsConsumers(
    e: Evidence, sha: string, scans: seq<Scan>, seen: Sightings, capacity: int, reserve: int)
    requires Final(e, BUILD_SETTINGS, sha, CountScans(scans), seen) && Plain(scans) && IsHexDigest(sha)
    ensures ShellAccepts(e, capacity, reserve) <==> Promotable(e, capacity, reserve)
    ensures ValidatorAccepts(CopyRss(e, capacity, reserve), capacity, reserve) <==> Promotable(e, capacity, reserve)
  {
    if Promotable(e, capacity, reserve) {
      PositiveSamples(e, scans);
      PlainCompilers(scans);
      DotIsNoCompiler();
      var c := CountScans(scans);
      assert forall x :: x in e.compilers ==> x in CountersOf(e).compilers;
      assert e.compilers != [] by {
        var x :| x in c.compilers;
        assert x in CountersOf(e).compilers;
      }
      RunsTakeTime(e, BUILD_SETTINGS, sha, c, seen);
    }
  }

  /** The two consumers never disagree about evidence of the supervisor, whatever its settings were. */
  lemma ShellImpliesValidator(
    e: Evidence, settings: Settings, sha: string, scans: seq<Scan>, seen: Sightings, capacity: int, reserve: int)
    requires Final(e, settings, sha, CountScans(scans), seen) && Plain(scans)
    requires ShellAccepts(e, capacity, reserve)
    ensures ValidatorAccepts(CopyRss(e, capacity, reserve), capacity, reserve)
  {
    assert settings == BUILD_SETTINGS;
    ProducerMeetsConsumers(e, sha, scans, seen, capacity, reserve);
  }

  /** The evidence of a command that is its own compiler and lasts one interval, two samples long. */
  function LoneCompiler(sha: string, name: string): Evidence {
    Evidence(
      Some(0), Some(0), 5000, sha, true, false, Some(100), Some(1), Some(100 * MS + 1), false, None, false, true, 1, 1,
      ProcGroupRssSum, None, true, [name], 1, 1, 2, 100, SCHEMA_VERSION, BuildProcessGroup, true, ProcStatm,
      Some(1), 1, 10,
      false)
  }

  /**
   Complete evidence of a zero exit is not enough: a single process that is
   leader and compiler at once leaves some that both consumers refuse.
   */
  lemma CompleteIsNotPromotable(sha: string, name: string, capacity: int, reserve: int)
    requires CompilerName(name)
    ensures exists scans: seq<Scan>, seen ::
              Final(LoneCompiler(sha, name), BUILD_SETTINGS, sha, CountScans(scans), seen) && Plain(scans)
    ensures !ShellAccepts(LoneCompiler(sha, name), capacity, reserve)
    ensures !ValidatorAccepts(CopyRss(LoneCompiler(sha, name), capacity, reserve), capacity, reserve)
  {
    var scan := Scan(1, 1, true, {name});
    var scans := [scan, scan];
    assert scans[..1] == [scan] && [scan][..0] == [];
    assert CountScans([scan]) == Record(NO_SAMPLES, scan);
    var c := CountScans(scans);
    var e := LoneCompiler(sha, name);
    assert c == Record(Record(NO_SAMPLES, scan), scan);
    assert (set x | x in e.compilers) == {name} == c.compilers;
    assert Counts(e, c);
    PaceIsProduct(2, BUILD_SETTINGS.Interval());
    var seen := Sightings(0, None, false);
    assert Final(e, BUILD_SETTINGS, sha, c, seen);
    assert Plain([]) && CompilerNames(scan.compilers);
    assert Plain([scan][..0]) && Plain([scan]);
    assert Plain(scans[..1]) && scans[1] == scan && Plain(scans);
  }
}

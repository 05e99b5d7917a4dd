/**
 The build script's resource preflight, its choice of parallelism, the build
 evidence it assembles and the promotion validator that judges it.
 */
module Promotion {
  import opened Prelude
  import opened Limits
  import opened Resolver
  import S = Supervisor
  import R = RssEvidence
  import P = ProcScan
  import N = Names

  /** The resource part of the build matrix. */
  datatype Matrix = Matrix(minimumCpus: nat, minimumGib: nat, recommendedGib: nat)
  {
    predicate Valid() { minimumCpus > 0 && 0 < minimumGib <= recommendedGib }

    function MinimumBytes(): nat { minimumGib * GIB }

    function RecommendedBytes(): nat { recommendedGib * GIB }
  }

  /** ALLOW_LOW_RESOURCES=1 and ALLOW_UNSAFE_PARALLELISM=1. */
  datatype Overrides = Overrides(lowResources: bool, unsafeParallelism: bool)

  datatype Failure =
    | CapacityInvalid | CapacityBelowMinimum | NoAssignment
    | AssignmentInconsistent | CgroupInconsistent | CgroupAboveAssignment | NoCapacityEvidence
    | TooFewCpus
    | RssNeedsUnavailableAccounting | RssBelowRecommended | RssNotSingleJob
    | RssWithLowResources | RssWithUnsafeParallelism
    | PeakInconsistent | NoPeakEvidence | PeakNotEligible | PeakWithoutCgroup
    | DiskTooSmall

  /** The capacity fields name one consistent bound. */
  predicate CapacityConsistent(s: Snapshot) {
    var m := s.memory;
    match m.capacitySource
    case RunpodAssignment => m.verified == Some(m.capacity) && !m.hard
    case CgroupDir(v, _) =>
      && s.version == Some(v) && m.hard && m.limited && m.limitBytes == m.capacity
      && (m.verified.Some? ==> m.capacity <= m.verified.value)
    case _ => false
  }

  /** Accounting that is genuinely unavailable under an exact assignment. */
  predicate RssConsistent(m: Memory) {
    && m.capacitySource.RunpodAssignment? && m.verified == Some(m.capacity) && !m.hard
    && m.usageCurrent.None? && m.usageSource.NoSource? && m.scope.ScopeUnavailable?
    && !m.peakEligible && !m.trustworthy
  }

  method CapacityFailures(s: Snapshot, matrix: Matrix) returns (failures: seq<Failure>)
    ensures failures == [] <==>
              && 0 < s.memory.capacity && matrix.MinimumBytes() <= s.memory.capacity
              && s.memory.verified.Some? && s.memory.verified.value > 0 && CapacityConsistent(s)
  {
    failures := [];
    var m := s.memory;
    if m.capacity <= 0 {
      failures := failures + [CapacityInvalid];
    } else if m.capacity < matrix.MinimumBytes() {
      failures := failures + [CapacityBelowMinimum];
    }
    var assignedPositive := m.verified.Some? && m.verified.value > 0;
    if !assignedPositive { failures := failures + [NoAssignment]; }
    var cgroupCapacity := s.version.Some? && m.capacitySource.CgroupDir? && m.capacitySource.version == s.version.value;
    if m.capacitySource.RunpodAssignment? {
      if !assignedPositive || m.verified.value != m.capacity || m.hard {
        failures := failures + [AssignmentInconsistent];
      }
    } else if cgroupCapacity {
      if !m.hard || !m.limited || m.limitBytes != m.capacity { failures := failures + [CgroupInconsistent]; }
      if assignedPositive && m.capacity > m.verified.value { failures := failures + [CgroupAboveAssignment]; }
    } else {
      failures := failures + [NoCapacityEvidence];
    }
  }

  /** The restrictions on a build that has to sample its own resident memory. */
  predicate RssAllowed(s: Snapshot, matrix: Matrix, overrides: Overrides) {
    && RssConsistent(s.memory) && s.memory.verified.value > 0 && matrix.RecommendedBytes() <= s.memory.capacity
    && s.build.forced && s.build.suggested == 1
    && !overrides.lowResources && !overrides.unsafeParallelism
  }

  method RssFailures(s: Snapshot, matrix: Matrix, overrides: Overrides) returns (failures: seq<Failure>)
    requires s.memory.capacity > 0
    ensures failures == [] <==> RssAllowed(s, matrix, overrides)
  {
    failures := [];
    if !(RssConsistent(s.memory) && s.memory.verified.value > 0) {
      failures := failures + [RssNeedsUnavailableAccounting];
    }
    if s.memory.capacity < matrix.RecommendedBytes() { failures := failures + [RssBelowRecommended]; }
    if !(s.build.forced && s.build.suggested == 1) { failures := failures + [RssNotSingleJob]; }
    if overrides.lowResources { failures := failures + [RssWithLowResources]; }
    if overrides.unsafeParallelism { failures := failures + [RssWithUnsafeParallelism]; }
  }

  /** A peak can be shown: by the kernel's counter, or by sampling under restrictions. */
  predicate PeakShowable(s: Snapshot, matrix: Matrix, overrides: Overrides) {
    match s.memory.peakMode
    case CgroupMode => s.memory.peakEligible && s.memory.usageSource.CgroupDir?
    case ProcessGroupRssMode => RssAllowed(s, matrix, overrides)
    case NoPeakMode => false
  }

  /** There is no room for the reserve and one compiler. */
  predicate Tight(s: Snapshot) {
    s.memory.peakMode.CgroupMode? && s.memory.peakEligible && s.memory.available < s.build.reserve + s.build.perJob
  }

  method PeakFailures(s: Snapshot, matrix: Matrix, overrides: Overrides) returns (failures: seq<Failure>, tight: bool)
    requires s.memory.capacity > 0
    ensures failures == [] <==> PeakShowable(s, matrix, overrides)
    ensures tight == Tight(s)
  {
    failures, tight := [], false;
    var m := s.memory;
    if m.peakMode == CgroupMode && m.peakEligible {
      tight := m.available < s.build.reserve + s.build.perJob;
    } else if m.peakMode == ProcessGroupRssMode {
      failures := RssFailures(s, matrix, overrides);
    } else if m.peakMode == CgroupMode {
      failures := failures + [PeakInconsistent];
    } else {
      failures := failures + [NoPeakEvidence];
    }
    if m.peakMode == CgroupMode {
      if !m.peakEligible {
        failures := failures + [PeakNotEligible];
      } else if !m.usageSource.CgroupDir? {
        failures := failures + [PeakWithoutCgroup];
      }
    }
  }

  /** No hard failure. */
  predicate Clean(s: Snapshot, matrix: Matrix, disks: seq<nat>, minimumDisk: nat, overrides: Overrides) {
    && 0 < s.memory.capacity && matrix.MinimumBytes() <= s.memory.capacity
    && s.memory.verified.Some? && s.memory.verified.value > 0 && CapacityConsistent(s)
    && matrix.minimumCpus <= s.cpu.effective
    && PeakShowable(s, matrix, overrides)
    && forall i :: 0 <= i < |disks| ==> minimumDisk <= disks[i]
  }

  /** The preflight: hard failures always end the build, a tight headroom unless it is overridden. */
  method Preflight(s: Snapshot, matrix: Matrix, disks: seq<nat>, minimumDisk: nat, overrides: Overrides)
    returns (failures: seq<Failure>, ok: bool)
    ensures failures == [] <==> Clean(s, matrix, disks, minimumDisk, overrides)
    ensures ok <==> Clean(s, matrix, disks, minimumDisk, overrides) && (Tight(s) ==> overrides.lowResources)
  {
    failures := CapacityFailures(s, matrix);
    if s.cpu.effective < matrix.minimumCpus { failures := failures + [TooFewCpus]; }
    var tight := false;
    if s.memory.capacity > 0 {
      var peak;
      peak, tight := PeakFailures(s, matrix, overrides);
      failures := failures + peak;
    }
    ghost var before := failures;
    for i := 0 to |disks|
      invariant failures == [] <==> before == [] && forall j :: 0 <= j < i ==> minimumDisk <= disks[j]
    {
      if disks[i] < minimumDisk { failures := failures + [DiskTooSmall]; }
    }
    ok := failures == [] && (!tight || overrides.lowResources);
  }

  /** What is left to check of a snapshot the resolver produced. */
  predicate Sufficient(s: Snapshot, matrix: Matrix) {
    && s.memory.verified.Some? && matrix.MinimumBytes() <= s.memory.capacity
    && matrix.minimumCpus <= s.cpu.effective
    && !s.memory.peakMode.NoPeakMode?
    && (s.memory.peakMode.ProcessGroupRssMode? ==> matrix.RecommendedBytes() <= s.memory.capacity)
  }

  /** A snapshot the resolver can produce. */
  ghost predicate Resolved(s: Snapshot) {
    exists e: Environment :: e.Valid() && CollectResources(e) == Some(s)
  }

  /** What the checks of the consumers come down to, for every environment. */
  ghost predicate Sound(s: Snapshot) {
    && s.memory.capacity >= 0 && s.cpu.effective >= 1
    && (s.memory.verified.Some? ==>
          && s.memory.verified.value > 0 && CapacityConsistent(s) && s.memory.capacity <= s.memory.verified.value
          && (s.memory.peakMode.CgroupMode? ==>
                && s.memory.peakEligible && s.version.Some? && 1 <= s.version.value <= 2
                && s.memory.usageSource.CgroupDir? && s.memory.usageSource.version == s.version.value
                && !s.memory.scope.ScopeUnavailable? && !s.memory.scope.BuildProcessGroup?
                && (s.memory.trustworthy || (s.memory.scope.AmbiguousCgroupRoot? && s.build.forced)))
          && (s.memory.peakMode.ProcessGroupRssMode? ==> RssConsistent(s.memory) && s.build.forced))
    && (s.version.Some? ==> 1 <= s.version.value <= 2)
    && (s.build.forced ==> s.build.suggested == 1 && s.build.cap == 1)
    && (s.cpu.runpod.Some? ==> s.cpu.effective <= s.cpu.runpod.value)
    && s.build.perJob > 0
  }

  lemma ResolvedIsSound(s: Snapshot)
    requires Resolved(s)
    ensures Sound(s)
  {
    var e: Environment :| e.Valid() && CollectResources(e) == Some(s);
    var host := ReadHostMemory(e.meminfo);
    MemoryIsSound(host, e.location, AssignedCapacity(e.assignment, e.receipt, host.total));
    CpuWithinEveryBound(e.cpu);
  }

  /** The memory part of it. */
  lemma MemoryIsSound(host: Host, location: Option<Location>, a: Assignment)
    requires location.Some? ==> location.value.Valid()
    requires a.Assigned? ==> a.bytes > 0
    ensures var r := ApplyAssigned(CollectMemory(host, location), location, a);
            r.Some? && r.value.verified.Some? ==>
              var m := r.value;
              && m.verified.value > 0 && m.capacity <= m.verified.value
              && (if m.capacitySource.RunpodAssignment? then m.verified == Some(m.capacity) && !m.hard
                  else && location.Some? && m.capacitySource.CgroupDir?
                       && m.capacitySource.version == location.value.version
                       && m.hard && m.limited && m.limitBytes == m.capacity)
              && (m.peakMode.CgroupMode? ==>
                    && m.peakEligible && location.Some?
                    && m.usageSource.CgroupDir? && m.usageSource.version == location.value.version
                    && !m.scope.ScopeUnavailable? && !m.scope.BuildProcessGroup?
                    && (m.trustworthy || m.scope.AmbiguousCgroupRoot?))
              && (m.peakMode.ProcessGroupRssMode? ==> RssConsistent(m))
  {
  }

  /** Under an assignment only resources and overrides decide whether a peak can be shown. */
  lemma SoundPeak(s: Snapshot, matrix: Matrix, overrides: Overrides)
    requires Sound(s) && s.memory.verified.Some?
    ensures PeakShowable(s, matrix, overrides) <==>
              && !s.memory.peakMode.NoPeakMode?
              && (s.memory.peakMode.ProcessGroupRssMode? ==>
                    && matrix.RecommendedBytes() <= s.memory.capacity
                    && !overrides.lowResources && !overrides.unsafeParallelism)
  {
  }

  lemma PreflightOfSound(s: Snapshot, matrix: Matrix, disks: seq<nat>, minimumDisk: nat, overrides: Overrides)
    requires Sound(s) && matrix.Valid()
    ensures Clean(s, matrix, disks, minimumDisk, overrides) <==>
              && Sufficient(s, matrix)
              && (s.memory.peakMode.ProcessGroupRssMode? ==> !overrides.lowResources && !overrides.unsafeParallelism)
              && forall i :: 0 <= i < |disks| ==> minimumDisk <= disks[i]
  {
    if s.memory.verified.Some? { SoundPeak(s, matrix, overrides); }
  }

  /** On snapshots of the resolver none of the preflight's consistency checks can fail. */
  lemma PreflightOfResolved(s: Snapshot, matrix: Matrix, disks: seq<nat>, minimumDisk: nat, overrides: Overrides)
    requires Resolved(s) && matrix.Valid()
    ensures Clean(s, matrix, disks, minimumDisk, overrides) <==>
              && Sufficient(s, matrix)
              && (s.memory.peakMode.ProcessGroupRssMode? ==> !overrides.lowResources && !overrides.unsafeParallelism)
              && forall i :: 0 <= i < |disks| ==> minimumDisk <= disks[i]
  {
    ResolvedIsSound(s);
    PreflightOfSound(s, matrix, disks, minimumDisk, overrides);
  }

  /** The validator's demands on the peak mode of one snapshot. */
  predicate ModeAccepted(s: Snapshot, matrix: Matrix) {
    var m, version := s.memory, s.version;
    if m.peakMode.CgroupMode? then
      && version.Some? && 1 <= version.value <= 2
      && m.usageSource.CgroupDir? && m.usageSource.version == version.value
      && (m.scope.CgroupCapacity? || m.scope.PodCgroup? || m.scope.AmbiguousCgroupRoot?)
      && m.peakEligible
      && (!m.trustworthy ==> m.scope.AmbiguousCgroupRoot? && s.build.forced)
    else
      && m.capacitySource.RunpodAssignment? && m.verified == Some(m.capacity) && !m.hard
      && matrix.RecommendedBytes() <= m.capacity
      && (version.Some? ==> 1 <= version.value <= 2)
      && m.usageCurrent.None? && m.usageSource.NoSource? && m.scope.ScopeUnavailable?
      && !m.peakEligible && !m.trustworthy
      && s.build.forced && s.build.suggested == 1 && s.build.cap == 1
  }

  /** The validator's block on one snapshot. */
  predicate SnapshotAccepted(s: Snapshot, matrix: Matrix) {
    var m, version := s.memory, s.version;
    && m.verified.Some? && m.verified.value > 0 && m.capacity > 0
    && matrix.MinimumBytes() <= m.capacity <= m.verified.value
    && !m.capacitySource.NoSource? && !m.peakMode.NoPeakMode?
    && (if m.capacitySource.RunpodAssignment? then m.capacity == m.verified.value && !m.hard
        else && version.Some? && 1 <= version.value <= 2
             && m.capacitySource.CgroupDir? && m.capacitySource.version == version.value
             && m.hard && m.limited && m.limitBytes == m.capacity)
    && s.cpu.effective > 0 && matrix.minimumCpus <= s.cpu.effective
    && s.cpu.runpod.Some? && s.cpu.runpod.value > 0 && matrix.minimumCpus <= s.cpu.runpod.value
    && s.cpu.effective <= s.cpu.runpod.value
    && ModeAccepted(s, matrix)
  }

  lemma SoundMode(s: Snapshot, matrix: Matrix)
    requires Sound(s) && s.memory.verified.Some? && !s.memory.peakMode.NoPeakMode?
    ensures ModeAccepted(s, matrix) <==>
              (s.memory.peakMode.ProcessGroupRssMode? ==> matrix.RecommendedBytes() <= s.memory.capacity)
  {
  }

  lemma SnapshotOfSound(s: Snapshot, matrix: Matrix)
    requires Sound(s) && matrix.Valid()
    ensures SnapshotAccepted(s, matrix) <==> Sufficient(s, matrix) && s.cpu.runpod.Some?
  {
    if s.memory.verified.Some? && !s.memory.peakMode.NoPeakMode? { SoundMode(s, matrix); }
  }

  /** The validator adds nothing to the preflight on resolver snapshots but the vCPU assignment. */
  lemma SnapshotOfResolved(s: Snapshot, matrix: Matrix)
    requires Resolved(s) && matrix.Valid()
    ensures SnapshotAccepted(s, matrix) <==> Sufficient(s, matrix) && s.cpu.runpod.Some?
  {
    ResolvedIsSound(s);
    SnapshotOfSound(s, matrix);
  }

  /** MAX_JOBS or EXT_PARALLEL: unset or empty, not a positive integer, or a positive integer. */
  datatype Setting = Unset | Garbage | Jobs(n: nat)
  {
    predicate Valid() { Jobs? ==> n > 0 }
  }

  /** POD_BUILD_MAX_JOBS as the script exports it before asking the resolver; None when it refuses MAX_JOBS. */
  method ExportCap(maxJobs: Setting, defaultMaxJobs: nat, overrides: Overrides) returns (cap: Option<nat>)
    requires maxJobs.Valid() && defaultMaxJobs > 0
    ensures cap.Some? <==>
            && !maxJobs.Garbage?
            && (maxJobs.Jobs? && maxJobs.n > defaultMaxJobs ==> overrides.unsafeParallelism)
    ensures cap.Some? ==> cap.value == if maxJobs.Jobs? then maxJobs.n else defaultMaxJobs
  {
    if maxJobs.Unset? { return Some(defaultMaxJobs); }
    if maxJobs.Garbage? { return None; }
    if maxJobs.n > defaultMaxJobs && !overrides.unsafeParallelism { return None; }
    return Some(maxJobs.n);
  }

  predicate ExtensionAllowed(extension: Setting, defaultExtension: nat, overrides: Overrides) {
    !extension.Garbage? && (extension.Jobs? && extension.n > defaultExtension ==> overrides.unsafeParallelism)
  }

  /** The final MAX_JOBS and EXT_PARALLEL; None when the script exits. */
  method SelectParallelism(b: Build, maxJobs: Setting, extension: Setting, defaultExtension: nat, overrides: Overrides)
    returns (selected: Option<(nat, nat)>)
    requires b.suggested >= 1 && maxJobs.Valid() && extension.Valid() && defaultExtension > 0
    ensures b.forced ==> selected == Some((1, 1))
    ensures selected.Some? ==> 1 <= selected.value.0 && 1 <= selected.value.1
    ensures selected.Some? && !overrides.unsafeParallelism ==> selected.value.1 <= defaultExtension
    ensures selected.Some? && !b.forced ==> selected.value.0 == if maxJobs.Jobs? then maxJobs.n else b.suggested
    ensures selected.None? <==>
            && !b.forced
            && (maxJobs.Garbage? || !ExtensionAllowed(extension, defaultExtension, overrides))
  {
    var max, ext := maxJobs, extension;
    if b.forced {
      max := Jobs(1);
    } else if max.Unset? {
      max := Jobs(b.suggested);
    }
    if ext.Unset? { ext := Jobs(defaultExtension); }
    if b.forced && ext != Jobs(1) { ext := Jobs(1); }
    if !max.Jobs? || !ext.Jobs? { return None; }
    if ext.n > defaultExtension && !overrides.unsafeParallelism { return None; }
    return Some((max.n, ext.n));
  }

  /** The fields both sides require to be the same at the start and at the end. */
  predicate SameAssignment(start: Snapshot, end: Snapshot) {
    var a, b := start.memory, end.memory;
    && b.verified == a.verified && b.capacity == a.capacity && b.capacitySource == a.capacitySource && b.hard == a.hard
    && b.usageSource == a.usageSource && b.scope == a.scope && b.peakEligible == a.peakEligible
    && b.peakMode == a.peakMode && b.trustworthy == a.trustworthy
    && end.build.forced == start.build.forced
  }

  /** The script's checks of the kernel's peak counter around the build; None when it is no positive integer. */
  predicate PeaksInRange(peakStart: Option<nat>, peakEnd: Option<nat>, capacity: nat) {
    && peakStart.Some? && peakEnd.Some?
    && 0 < peakStart.value <= capacity && peakStart.value <= peakEnd.value <= capacity
  }

  datatype CgroupPeak =
    | NoCgroupPeak
    | MeasuredPeak(end: nat, monotonic: bool, scope: Scope, source: Source, start: nat, trustworthy: bool, within: bool)

  datatype MemoryPeak =
    | KernelPeak(complete: bool, end: nat, fileCache: bool, enforced: bool, peak: nat,
                 scope: Scope, source: Source, start: nat, within: bool)
    | SampledPeak(rss: R.RssPeak)

  datatype Policy = Policy(
    verified: Option<nat>, capacity: nat, hard: bool, capacitySource: Source, forced: bool, peakMode: PeakMode,
    peakEligible: bool, scope: Scope, usageSource: Source, trustworthy: bool)

  function PolicyOf(s: Snapshot): Policy {
    var m := s.memory;
    Policy(m.verified, m.capacity, m.hard, m.capacitySource, s.build.forced,
           m.peakMode, m.peakEligible, m.scope, m.usageSource, m.trustworthy)
  }

  datatype BuildEvidence = BuildEvidence(
    start: Snapshot, end: Snapshot, policy: Policy, assignedBytes: Option<nat>, assignedCpus: Option<nat>,
    maxJobs: nat, extension: nat, overrides: Overrides, cgroupPeak: CgroupPeak, memoryPeak: MemoryPeak)

  /** The evidence object, from two snapshots and the peak that was measured between them. */
  function Assemble(start: Snapshot, end: Snapshot, selected: (nat, nat), overrides: Overrides,
                    cgroupPeak: CgroupPeak, memoryPeak: MemoryPeak): BuildEvidence
  {
    BuildEvidence(start, end, PolicyOf(start), start.memory.verified, start.cpu.runpod,
                  selected.0, selected.1, overrides, cgroupPeak, memoryPeak)
  }

  function KernelEvidence(start: Snapshot, end: Snapshot, selected: (nat, nat), overrides: Overrides,
                          peakStart: nat, peakEnd: nat): BuildEvidence
  {
    var m := start.memory;
    Assemble(start, end, selected, overrides,
             MeasuredPeak(
               peakEnd, peakEnd >= peakStart, m.scope, m.usageSource, peakStart, m.trustworthy, peakEnd <= m.capacity),
             KernelPeak(true, peakEnd, true, m.hard, peakEnd, m.scope, m.usageSource, peakStart, true))
  }

  function SampledEvidence(
    start: Snapshot, end: Snapshot, selected: (nat, nat), overrides: Overrides, sample: S.Evidence): BuildEvidence
  {
    Assemble(start, end, selected, overrides, NoCgroupPeak,
             SampledPeak(R.CopyRss(sample, start.memory.capacity, start.build.reserve)))
  }

  /** The validator's demands on the peak of a build with kernel accounting. */
  predicate KernelPeakAccepted(e: BuildEvidence) {
    && e.cgroupPeak.MeasuredPeak?
    && var c := e.cgroupPeak;
       && c.source == e.policy.usageSource && c.scope == e.policy.scope && c.trustworthy == e.policy.trustworthy
       && 0 < c.start <= c.end && c.monotonic && c.end <= e.policy.capacity && c.within
       && e.memoryPeak == KernelPeak(
            true, c.end, true, e.policy.hard, c.end, e.policy.scope, e.policy.usageSource, c.start, true)
  }

  /** The same for a sampled build, with the policy it must not have changed. */
  predicate SampledPeakAccepted(e: BuildEvidence) {
    && e.end.build.suggested == e.start.build.suggested && e.end.build.cap == e.start.build.cap
    && e.end.build.reserve == e.start.build.reserve && e.end.build.perJob == e.start.build.perJob
    && e.start.build.reserve > 0 && e.start.build.perJob > 0
    && !e.overrides.lowResources && !e.overrides.unsafeParallelism
    && e.cgroupPeak.NoCgroupPeak?
    && e.memoryPeak.SampledPeak?
    && R.ValidatorAccepts(e.memoryPeak.rss, e.policy.capacity, e.start.build.reserve)
  }

  /** `validate_resource_evidence` */
  predicate EvidenceAccepted(e: BuildEvidence, matrix: Matrix) {
    && matrix.Valid() && SnapshotAccepted(e.start, matrix) && SnapshotAccepted(e.end, matrix)
    && SameAssignment(e.start, e.end) && e.end.cpu.runpod == e.start.cpu.runpod
    && e.assignedBytes == e.start.memory.verified && e.assignedCpus == e.start.cpu.runpod
    && e.policy == PolicyOf(e.start)
    && (e.policy.forced ==> e.maxJobs == 1 && e.extension == 1)
    && if e.policy.peakMode.ProcessGroupRssMode? then SampledPeakAccepted(e) else KernelPeakAccepted(e)
  }

  /** What a start and an end snapshot still have to satisfy once the script has let the build through. */
  predicate EndHolds(start: Snapshot, end: Snapshot, matrix: Matrix) {
    && matrix.minimumCpus <= end.cpu.effective
    && start.cpu.runpod.Some? && end.cpu.runpod == start.cpu.runpod
  }

  /** The end snapshot of a bound build is as sufficient as its start. */
  lemma EndIsSufficient(start: Snapshot, end: Snapshot, matrix: Matrix)
    requires SameAssignment(start, end) && Sufficient(start, matrix)
    ensures Sufficient(end, matrix) <==> matrix.minimumCpus <= end.cpu.effective
  {
  }

  /**
   A build with kernel accounting that got through preflight, binding and peak
   checks is promoted, exactly if its vCPU assignment is known and unchanged and
   the CPUs at the end still reach the minimum.
   */
  lemma KernelBuildIsPromoted(
    start: Snapshot, end: Snapshot, matrix: Matrix, disks: seq<nat>, minimumDisk: nat, overrides: Overrides,
    selected: (nat, nat), peakStart: nat, peakEnd: nat)
    requires Sound(start) && Sound(end) && matrix.Valid()
    requires Clean(start, matrix, disks, minimumDisk, overrides) && start.memory.peakMode.CgroupMode?
    requires SameAssignment(start, end) && (start.build.forced ==> selected == (1, 1))
    requires PeaksInRange(Some(peakStart), Some(peakEnd), start.memory.capacity)
    ensures EvidenceAccepted(KernelEvidence(start, end, selected, overrides, peakStart, peakEnd), matrix)
            <==> EndHolds(start, end, matrix)
  {
    PreflightOfSound(start, matrix, disks, minimumDisk, overrides);
    SnapshotOfSound(start, matrix);
    SnapshotOfSound(end, matrix);
    EndIsSufficient(start, end, matrix);
    var e := KernelEvidence(start, end, selected, overrides, peakStart, peakEnd);
    assert KernelPeakAccepted(e);
  }

  /**
   The same for a build that sampled its process group: whatever run of the
   supervisor the script accepted, the validator accepts its copy, exactly if in
   addition the reserve is positive and reserve and job size did not change.
   */
  lemma SampledBuildIsPromoted(
    start: Snapshot, end: Snapshot, matrix: Matrix, disks: seq<nat>, minimumDisk: nat, overrides: Overrides,
    selected: (nat, nat), sample: S.Evidence, settings: S.Settings, sha: string, scans: seq<P.Scan>, seen: S.Sightings)
    requires Sound(start) && Sound(end) && matrix.Valid()
    requires Clean(start, matrix, disks, minimumDisk, overrides) && start.memory.peakMode.ProcessGroupRssMode?
    requires SameAssignment(start, end) && (start.build.forced ==> selected == (1, 1))
    requires S.Final(sample, settings, sha, S.CountScans(scans), seen) && S.Plain(scans)
    requires R.ShellAccepts(sample, start.memory.capacity, start.build.reserve)
    ensures EvidenceAccepted(SampledEvidence(start, end, selected, overrides, sample), matrix)
            <==> && EndHolds(start, end, matrix) && start.build.reserve > 0
                 && end.build.reserve == start.build.reserve && end.build.perJob == start.build.perJob
  {
    PreflightOfSound(start, matrix, disks, minimumDisk, overrides);
    SnapshotOfSound(start, matrix);
    SnapshotOfSound(end, matrix);
    EndIsSufficient(start, end, matrix);
    R.ShellImpliesValidator(sample, settings, sha, scans, seen, start.memory.capacity, start.build.reserve);
  }

  /**
   Both, for any two runs of the resolver with the same tuning of reserve and job
   size, whatever became of MAX_JOBS in between: nothing but the vCPU assignment,
   the CPU floor and, for a sampled build, a reserve of zero is left to go wrong.
   */
  lemma ResolvedBuildsArePromoted(
    a: Environment, b: Environment, matrix: Matrix, disks: seq<nat>, minimumDisk: nat,
    overrides: Overrides, selected: (nat, nat))
    requires a.Valid() && b.Valid() && CollectResources(a).Some? && CollectResources(b).Some? && matrix.Valid()
    requires SameTuning(a.config, b.config)
    requires var start, end := CollectResources(a).value, CollectResources(b).value;
             && Clean(start, matrix, disks, minimumDisk, overrides) && SameAssignment(start, end)
             && (start.build.forced ==> selected == (1, 1))
    ensures var start, end := CollectResources(a).value, CollectResources(b).value;
            && (forall p: nat, q: nat ::
                  start.memory.peakMode.CgroupMode? && PeaksInRange(Some(p), Some(q), start.memory.capacity) ==>
                    (EvidenceAccepted(KernelEvidence(start, end, selected, overrides, p, q), matrix)
                     <==> EndHolds(start, end, matrix)))
            && (forall sample, settings, sha, scans, seen ::
                  && start.memory.peakMode.ProcessGroupRssMode?
                  && S.Final(sample, settings, sha, S.CountScans(scans), seen) && S.Plain(scans)
                  && R.ShellAccepts(sample, start.memory.capacity, start.build.reserve) ==>
                    (EvidenceAccepted(SampledEvidence(start, end, selected, overrides, sample), matrix)
                     <==> EndHolds(start, end, matrix) && start.build.reserve > 0))
            && (DefaultReserve(a.config) ==> start.build.reserve > 0)
  {
    var start, end := CollectResources(a).value, CollectResources(b).value;
    ResolvedIsSound(start);
    ResolvedIsSound(end);
    SameTuningSamePolicy(a, b);
    BuildsArePromoted(start, end, matrix, disks, minimumDisk, overrides, selected);
  }

  lemma BuildsArePromoted(
    start: Snapshot, end: Snapshot, matrix: Matrix, disks: seq<nat>, minimumDisk: nat,
    overrides: Overrides, selected: (nat, nat))
    requires Sound(start) && Sound(end) && matrix.Valid()
    requires Clean(start, matrix, disks, minimumDisk, overrides) && SameAssignment(start, end)
    requires start.build.forced ==> selected == (1, 1)
    requires end.build.reserve == start.build.reserve && end.build.perJob == start.build.perJob
    ensures forall p: nat, q: nat ::
              start.memory.peakMode.CgroupMode? && PeaksInRange(Some(p), Some(q), start.memory.capacity) ==>
                (EvidenceAccepted(KernelEvidence(start, end, selected, overrides, p, q), matrix)
                 <==> EndHolds(start, end, matrix))
    ensures forall sample, settings, sha, scans, seen ::
              && start.memory.peakMode.ProcessGroupRssMode?
              && S.Final(sample, settings, sha, S.CountScans(scans), seen) && S.Plain(scans)
              && R.ShellAccepts(sample, start.memory.capacity, start.build.reserve) ==>
                (EvidenceAccepted(SampledEvidence(start, end, selected, overrides, sample), matrix)
                 <==> EndHolds(start, end, matrix) && start.build.reserve > 0)
  {
    forall p: nat, q: nat | start.memory.peakMode.CgroupMode? && PeaksInRange(Some(p), Some(q), start.memory.capacity)
      ensures EvidenceAccepted(KernelEvidence(start, end, selected, overrides, p, q), matrix)
              <==> EndHolds(start, end, matrix)
    {
      KernelBuildIsPromoted(start, end, matrix, disks, minimumDisk, overrides, selected, p, q);
    }
    forall sample, settings, sha, scans, seen |
      && start.memory.peakMode.ProcessGroupRssMode?
      && S.Final(sample, settings, sha, S.CountScans(scans), seen) && S.Plain(scans)
      && R.ShellAccepts(sample, start.memory.capacity, start.build.reserve)
      ensures EvidenceAccepted(SampledEvidence(start, end, selected, overrides, sample), matrix)
              <==> EndHolds(start, end, matrix) && start.build.reserve > 0
    {
      SampledBuildIsPromoted(
        start, end, matrix, disks, minimumDisk, overrides, selected, sample, settings, sha, scans, seen);
    }
  }

  /** With the same tuning and capacity the build policy cannot change, and the default reserve is positive. */
  lemma SameTuningSamePolicy(a: Environment, b: Environment)
    requires a.Valid() && b.Valid() && SameTuning(a.config, b.config)
    requires CollectResources(a).Some? && CollectResources(b).Some?
    requires CollectResources(a).value.memory.capacity == CollectResources(b).value.memory.capacity
    ensures var s, t := CollectResources(a).value.build, CollectResources(b).value.build;
            && t.reserve == s.reserve && t.perJob == s.perJob
            && (DefaultReserve(a.config) ==> s.reserve >= DEFAULT_RESERVE_BYTES)
  {
  }

  // ---- The validator as it runs ----

  /** The memory fields that may not change during a build, as the validator names them. */
  datatype Field =
    | VerifiedField | CapacityField | CapacitySourceField | HardField | UsageSourceField
    | ScopeField | EligibleField | PeakModeField | TrustField

  datatype FieldValue = Bytes(Option<nat>) | Flag(bool) | From(Source) | Over(Scope) | By(PeakMode)

  function Get(m: Memory, f: Field): FieldValue {
    match f
    case VerifiedField => Bytes(m.verified)
    case CapacityField => Bytes(Some(m.capacity))
    case CapacitySourceField => From(m.capacitySource)
    case HardField => Flag(m.hard)
    case UsageSourceField => From(m.usageSource)
    case ScopeField => Over(m.scope)
    case EligibleField => Flag(m.peakEligible)
    case PeakModeField => By(m.peakMode)
    case TrustField => Flag(m.trustworthy)
  }

  const BOUND_FIELDS := [
    VerifiedField, CapacityField, CapacitySourceField, HardField, UsageSourceField,
    ScopeField, EligibleField, PeakModeField, TrustField]

  /** The fields on the list are all there are. */
  lemma EveryFieldIsBound(f: Field)
    ensures f in BOUND_FIELDS
  {
    var i := match f
      case VerifiedField => 0 case CapacityField => 1 case CapacitySourceField => 2
      case HardField => 3 case UsageSourceField => 4
      case ScopeField => 5 case EligibleField => 6 case PeakModeField => 7 case TrustField => 8;
    assert BOUND_FIELDS[i] == f;
  }

  /** Two snapshots that agree on every field have the same policy. */
  lemma FieldsArePolicy(start: Snapshot, end: Snapshot)
    requires forall f :: f in BOUND_FIELDS ==> Get(end.memory, f) == Get(start.memory, f)
    requires end.build.forced == start.build.forced
    ensures PolicyOf(end) == PolicyOf(start) && SameAssignment(start, end)
  {
    EveryFieldIsBound(VerifiedField);
    EveryFieldIsBound(CapacityField);
    EveryFieldIsBound(CapacitySourceField);
    EveryFieldIsBound(HardField);
    EveryFieldIsBound(UsageSourceField);
    EveryFieldIsBound(ScopeField);
    EveryFieldIsBound(EligibleField);
    EveryFieldIsBound(PeakModeField);
    EveryFieldIsBound(TrustField);
    assert Get(end.memory, VerifiedField) == Get(start.memory, VerifiedField);
  }

  /** The loop over the bound fields: it passes exactly if both ends have the same policy. */
  method CheckBoundFields(start: Snapshot, end: Snapshot) returns (same: bool)
    ensures same <==> PolicyOf(end) == PolicyOf(start)
    ensures same <==> SameAssignment(start, end)
  {
    for i := 0 to |BOUND_FIELDS|
      invariant forall j :: 0 <= j < i ==> Get(end.memory, BOUND_FIELDS[j]) == Get(start.memory, BOUND_FIELDS[j])
    {
      var field := BOUND_FIELDS[i];
      if Get(end.memory, field) != Get(start.memory, field) { return false; }
    }
    if end.build.forced != start.build.forced { return false; }
    FieldsArePolicy(start, end);
    same := true;
  }

  /** The recommendation's fields that may not change either when a build samples itself. */
  datatype BuildField = SuggestedField | CapField | ReserveField | PerJobField

  function GetBuild(b: Build, f: BuildField): nat {
    match f
    case SuggestedField => b.suggested
    case CapField => b.cap
    case ReserveField => b.reserve
    case PerJobField => b.perJob
  }

  const BUILD_FIELDS := [SuggestedField, CapField, ReserveField, PerJobField]

  method CheckSampledPeak(e: BuildEvidence) returns (ok: bool)
    ensures ok <==> SampledPeakAccepted(e)
  {
    ok := false;
    for i := 0 to |BUILD_FIELDS|
      invariant forall j :: 0 <= j < i ==>
                  GetBuild(e.end.build, BUILD_FIELDS[j]) == GetBuild(e.start.build, BUILD_FIELDS[j])
    {
      var field := BUILD_FIELDS[i];
      if GetBuild(e.end.build, field) != GetBuild(e.start.build, field) { return; }
    }
    assert GetBuild(e.end.build, BUILD_FIELDS[0]) == GetBuild(e.start.build, BUILD_FIELDS[0]);
    assert GetBuild(e.end.build, BUILD_FIELDS[1]) == GetBuild(e.start.build, BUILD_FIELDS[1]);
    assert GetBuild(e.end.build, BUILD_FIELDS[2]) == GetBuild(e.start.build, BUILD_FIELDS[2]);
    assert GetBuild(e.end.build, BUILD_FIELDS[3]) == GetBuild(e.start.build, BUILD_FIELDS[3]);
    if e.start.build.reserve <= 0 || e.start.build.perJob <= 0 { return; }
    if e.overrides.lowResources || e.overrides.unsafeParallelism { return; }
    if e.cgroupPeak != NoCgroupPeak || !e.memoryPeak.SampledPeak? { return; }
    ok := R.ValidatorAccepts(e.memoryPeak.rss, e.policy.capacity, e.start.build.reserve);
  }

  method CheckKernelPeak(e: BuildEvidence) returns (ok: bool)
    ensures ok <==> KernelPeakAccepted(e)
  {
    ok := false;
    var c := e.cgroupPeak;
    if c.NoCgroupPeak? { return; }
    if c.source != e.policy.usageSource || c.scope != e.policy.scope { return; }
    if c.trustworthy != e.policy.trustworthy { return; }
    if c.start <= 0 || c.end <= 0 || c.end < c.start || !c.monotonic { return; }
    if c.start > e.policy.capacity || c.end > e.policy.capacity || !c.within { return; }
    var expected := KernelPeak(
      true, c.end, true, e.policy.hard, c.end, e.policy.scope, e.policy.usageSource, c.start, true);
    ok := e.memoryPeak == expected;
  }

  /** The peak a build shows, with what has to stay free beside it. */
  function PeakDemand(e: BuildEvidence): int {
    match e.memoryPeak
    case KernelPeak(_, _, _, _, peak, _, _, _, _) => peak
    case SampledPeak(rss) => rss.peakBytes + e.start.build.reserve
  }

  /** The bound of a snapshot is the assignment or a kernel limit in force, and its usage is what its mode says. */
  predicate Plausible(s: Snapshot) {
    var m := s.memory;
    && (if m.capacitySource.CgroupDir? then m.hard
        else m.capacitySource.RunpodAssignment? && m.verified == Some(m.capacity) && !m.hard)
    && (m.hard ==> m.limited && m.limitBytes == m.capacity && s.version == Some(m.capacitySource.version))
    && (m.peakMode.CgroupMode? || m.peakMode.ProcessGroupRssMode?)
    && (m.peakMode.CgroupMode? <==> m.peakEligible)
    && (m.peakEligible ==> m.usageSource.CgroupDir? && s.version == Some(m.usageSource.version))
    && (!m.peakEligible ==> m.usageCurrent.None? && m.usageSource.NoSource? && !m.hard)
    && (m.trustworthy || s.build.forced)
    && (m.trustworthy ==> m.peakEligible)
  }

  /** A sampled peak of a command that succeeded unsignalled, watched at least twice with its leader and a compiler. */
  predicate Convincing(p: R.RssPeak) {
    && p.complete && p.buildExit == p.childReturn == Some(0)
    && !p.forcedKill && p.forwardedSignal.None? && p.monitorError.None?
    && p.leaderObserved && p.sampleCount >= 2 && p.maximumProcesses >= 2
    && p.compilers != [] && (forall i, j :: 0 <= i < j < |p.compilers| ==> N.StringLe(p.compilers[i], p.compilers[j]))
    && (forall x :: x in p.compilers ==> '/' !in x && P.IsCompiler(x))
    && p.startBytes.Some? && 0 < p.startBytes.value <= p.peakBytes
    && p.endBytes.Some? && 0 < p.endBytes.value <= p.peakBytes
    && p.finishedNs.Some? && p.durationMs.Some? && 0 < p.durationMs.value
    && p.durationMs.value * 1_000_000 <= p.finishedNs.value - p.startedNs < (p.durationMs.value + 1) * 1_000_000
  }

  /**
   What accepted evidence guarantees, whoever wrote it: one assignment and one
   capacity at both ends that reach the minimum, CPUs within the assignment, a
   measured peak within the capacity, and one job at a time unless the usage
   that was measured can be trusted.
   */
  predicate Guaranteed(e: BuildEvidence, matrix: Matrix) {
    && e.start.memory.verified.Some? && e.end.memory.verified == e.start.memory.verified == e.assignedBytes
    && e.end.memory.capacity == e.start.memory.capacity == e.policy.capacity
    && matrix.minimumGib * 1_073_741_824 <= e.policy.capacity <= e.start.memory.verified.value
    && Plausible(e.start) && Plausible(e.end)
    && e.assignedCpus.Some? && e.end.cpu.runpod == e.start.cpu.runpod == e.assignedCpus
    && matrix.minimumCpus <= Min(e.start.cpu.effective, e.end.cpu.effective)
    && Max(e.start.cpu.effective, e.end.cpu.effective) <= e.assignedCpus.value
    && 0 < PeakDemand(e) <= e.policy.capacity
    && (e.policy.trustworthy || (e.maxJobs == 1 && e.extension == 1))
    && (e.memoryPeak.SampledPeak? ==>
          matrix.recommendedGib * 1_073_741_824 <= e.policy.capacity && Convincing(e.memoryPeak.rss))
  }

  lemma AcceptedIsGuaranteed(e: BuildEvidence, matrix: Matrix)
    requires EvidenceAccepted(e, matrix)
    ensures Guaranteed(e, matrix)
  {
    assert e.policy == PolicyOf(e.start);
    if e.policy.peakMode.ProcessGroupRssMode? {
      assert SampledPeakAccepted(e) && ModeAccepted(e.start, matrix);
    } else {
      assert KernelPeakAccepted(e) && ModeAccepted(e.start, matrix);
    }
  }

  /**
   `validate_resource_evidence` as it runs: the first unmet requirement raises.
   It accepts exactly the evidence its requirements describe, and whatever it
   accepts is bound to one assignment the build stayed within.
   */
  method ValidateResourceEvidence(e: BuildEvidence, matrix: Matrix) returns (accepted: bool)
    ensures accepted <==> EvidenceAccepted(e, matrix)
    ensures accepted ==> Guaranteed(e, matrix)
  {
    accepted := false;
    if !matrix.Valid() { return; }
    var snapshots := [e.start, e.end];
    for i := 0 to |snapshots|
      invariant forall j :: 0 <= j < i ==> SnapshotAccepted(snapshots[j], matrix)
    {
      if !SnapshotAccepted(snapshots[i], matrix) {
        assert i == 0 || i == 1;
        return;
      }
    }
    assert snapshots[0] == e.start && snapshots[1] == e.end;
    var same := CheckBoundFields(e.start, e.end);
    if !same || e.end.cpu.runpod != e.start.cpu.runpod { return; }
    if e.assignedBytes != e.start.memory.verified || e.assignedCpus != e.start.cpu.runpod { return; }
    if e.policy != PolicyOf(e.start) { return; }
    if e.policy.forced && (e.maxJobs != 1 || e.extension != 1) { return; }
    if e.policy.peakMode == ProcessGroupRssMode {
      accepted := CheckSampledPeak(e);
    } else {
      accepted := CheckKernelPeak(e);
    }
    if accepted { AcceptedIsGuaranteed(e, matrix); }
  }

  /**
   An explicit MAX_JOBS replaces the recommendation. Whatever was selected, its
   jobs fit beside working set and reserve exactly as memory allows: several up
   to the number the recommendation derived from memory, one if headroom is not tight.
   */
  lemma SelectionFits(m: Memory, cpu: Cpu, config: Config, selected: (nat, nat), version: Option<int>)
    requires m.peakEligible && m.peakMode.CgroupMode?
    requires m.available == Max(0, m.capacity - m.working) && selected.0 >= 1
    ensures var b := Recommend(m, cpu, config);
            JobsFitBeside(m, config, selected.0)
            <==> if selected.0 > 1 then selected.0 <= b.byMemory else !Tight(Snapshot(version, m, cpu, b))
  {
    JobsWithinMemory(m, cpu, config, selected.0);
  }
}

/**
 The memory and CPU resolver: which bound limits the Pod, which directory's
 accounting is read for it, and how many compiler jobs are safe.
 */
module Resolver {
  import opened Prelude
  import opened Limits
  import opened Decimal

  /** A usage file: unreadable, readable but no integer, or an integer. */
  datatype Reading = Unreadable | Malformed | Number(value: int)

  /** The memory files of one cgroup directory. */
  datatype Dir = Dir(
    limit: Option<int>,
    high: Option<int>,
    usage: Reading,
    inactive: Option<Counter>,
    totalInactive: Option<Counter>,
    hierarchical: Option<Counter>)

  /** A located cgroup with the directories from the leaf to its controller mount. */
  datatype Location = Location(version: int, membershipIsRoot: bool, mountRootIsRoot: bool, dirs: seq<Dir>)
  {
    predicate Valid() { 1 <= version <= 2 && dirs != [] }

    /** `_leaf_is_pod_scoped` */
    predicate PodScoped() { !membershipIsRoot || !mountRootIsRoot }

    function Limits(): (r: seq<Option<int>>)
      ensures |r| == |dirs| && forall i :: 0 <= i < |dirs| ==> r[i] == dirs[i].limit
    {
      seq(|dirs|, i requires 0 <= i < |dirs| => dirs[i].limit)
    }

    function Highs(): seq<Option<int>> {
      seq(|dirs|, i requires 0 <= i < |dirs| => dirs[i].high)
    }
  }

  function Usage(r: Reading): Option<nat> {
    if r.Number? && r.value >= 0 then Some(r.value) else None
  }

  /** The reclaimable file cache of a directory, never more than its usage. */
  function Inactive(version: int, d: Dir, current: nat): (n: nat)
    ensures n <= current
    ensures version == 2 && d.inactive.Some? ==> n == Min(d.inactive.value, current)
    ensures version != 2 && d.totalInactive.Some? ==> n == Min(d.totalInactive.value, current)
    ensures version != 2 && d.totalInactive.None? && d.inactive.Some? ==> n == Min(d.inactive.value, current)
    ensures d.inactive.None? && (version == 2 || d.totalInactive.None?) ==> n == 0
  {
    var found :=
      if version == 2 then d.inactive
      else if d.totalInactive.Some? then d.totalInactive else d.inactive;
    Min(if found.Some? then found.value else 0, current)
  }

  /** The keys of /proc/meminfo, in bytes. */
  datatype Meminfo = Meminfo(
    total: Option<int>, free: Option<int>, cached: Option<int>,
    reclaimable: Option<int>, available: Option<int>, buffers: Option<int>)

  datatype Host = Host(total: nat, current: nat, free: nat, available: nat)

  function NonNegative(value: Option<int>): nat {
    if value.Some? && value.value > 0 then value.value else 0
  }

  /** What stands in for a missing MemAvailable. */
  function Reclaimable(m: Meminfo): nat {
    NonNegative(m.free) + NonNegative(m.cached) + NonNegative(m.reclaimable) + NonNegative(m.buffers)
  }

  function ReadHostMemory(m: Meminfo): (h: Host)
    ensures h.total > 0 ==> h.current + h.available == h.total
    ensures h.total == 0 ==> h.current == 0
  {
    var total, free := NonNegative(m.total), NonNegative(m.free);
    var raw :=
      if m.available.Some? then m.available.value
      else Reclaimable(m);
    var available := if total > 0 then Min(total, Max(0, raw)) else Max(0, raw);
    Host(total, Max(0, total - available), free, available)
  }

  /** Negative counters count as zero, free and cache stand in for a missing MemAvailable, a known total caps it. */
  lemma HostMemoryMeaning(m: Meminfo)
    ensures var h := ReadHostMemory(m);
            && h.total == NonNegative(m.total) && h.free == NonNegative(m.free)
            && (m.available.Some? ==>
                  h.available == (if h.total > 0 then Min(h.total, Max(0, m.available.value))
                                  else Max(0, m.available.value)))
            && (m.available.None? && h.total == 0 ==> h.available == Reclaimable(m))
            && ((forall x :: x in [m.free, m.cached, m.reclaimable, m.buffers] ==> x.Some? && x.value >= 0) ==>
                  Reclaimable(m) == m.free.value + m.cached.value + m.reclaimable.value + m.buffers.value)
            && (m.available.None? && h.total > 0 ==> h.available == Min(h.total, Reclaimable(m)))
            && (h.total > 0 ==> h.available <= h.total && h.current + h.available == h.total)
  {
  }

  /** The memory snapshot without its swap fields. */
  datatype Memory = Memory(
    limited: bool,
    hostTotal: nat,
    limitBytes: nat,
    current: nat,
    working: nat,
    inactive: nat,
    free: nat,
    available: nat,
    high: Option<nat>,
    limitSource: Source,
    capacity: nat,
    capacitySource: Source,
    hard: bool,
    verified: Option<nat>,
    usageSource: Source,
    usageCurrent: Option<nat>,
    trustworthy: bool,
    peakEligible: bool,
    scope: Scope,
    peakMode: PeakMode)

  /** The bound cgroup v1 reports for hidden ancestors applies when no smaller one is visible. */
  predicate Inherits(l: Location, found: Tight)
    requires l.Valid()
  {
    var h := l.dirs[0].hierarchical;
    l.version == 1 && h.Some? && 0 < h.value < UNLIMITED && (found.bytes == 0 || h.value <= found.bytes)
  }

  /** The limit of a located cgroup and the level its usage is read from. */
  function CgroupLimit(l: Location, host: nat): (t: Tight)
    requires l.Valid()
    ensures t.source.Some? ==> t.source.value < |l.dirs|
    ensures t.source.None? ==> t.bytes == host
  {
    var found := Tightest(l.Limits(), host);
    if Inherits(l, found) then Tight(l.dirs[0].hierarchical.value, Some(0)) else found
  }

  /** The leaf's usage as far as it can be read. */
  function LeafUsage(l: Location): Option<nat>
    requires l.Valid()
  {
    Usage(l.dirs[0].usage)
  }

  function Unlimited(host: Host, usage: Option<nat>, source: Source, scoped: bool): Memory {
    Memory(
      false, host.total, host.total, host.current, host.current, 0, host.free, host.available, None,
      HostMemory, host.total, HostMemory, false, None,
      source, usage, usage.Some? && scoped, usage.Some?,
      if usage.None? then ScopeUnavailable else if scoped then PodCgroup else AmbiguousCgroupRoot,
      if usage.Some? then CgroupMode else NoPeakMode)
  }

  function Limited(l: Location, host: Host, limit: nat, level: nat): Memory
    requires l.Valid() && level < |l.dirs|
  {
    var known := Usage(l.dirs[level].usage);
    var current := if known.Some? then known.value else limit;
    var inactive := if known.Some? then Inactive(l.version, l.dirs[level], current) else 0;
    var working := current - inactive;
    var high := Tightest(l.Highs(), host.total);
    var source := CgroupDir(l.version, level);
    Memory(
      true, host.total, limit, current, working, inactive, Max(0, limit - current), Max(0, limit - working),
      if high.source.Some? && high.bytes < limit then Some(high.bytes) else None,
      source, limit, source, true, None,
      if known.Some? then source else NoSource, known, known.Some?, known.Some?,
      if known.Some? then CgroupCapacity else ScopeUnavailable,
      if known.Some? then CgroupMode else NoPeakMode)
  }

  /** `collect_memory` */
  function CollectMemory(host: Host, location: Option<Location>): Memory
    requires location.Some? ==> location.value.Valid()
  {
    match location
    case None => Unlimited(host, None, NoSource, false)
    case Some(l) =>
      var t := CgroupLimit(l, host.total);
      match t.source
      case Some(level) => Limited(l, host, t.bytes, level)
      case None =>
        var usage := LeafUsage(l);
        Unlimited(host, usage, if usage.Some? then CgroupDir(l.version, 0) else NoSource, l.PodScoped())
  }

  datatype Assignment = Unassigned | Assigned(bytes: nat) | Refused

  const I64_RANGE := 0x8000_0000_0000_0000

  /** The assignment in the environment, if the verified receipt (None: missing or unsafe) confirms it. */
  function AssignedCapacity(env: Option<string>, receipt: Option<string>, hostTotal: nat): (a: Assignment)
    ensures a.Assigned? ==> a.bytes > 0
  {
    if env.None? || env.value == "" then Unassigned
    else if !Canonical(env.value) then Refused
    else
      var bytes := Denote(env.value);
      RenderDenote(env.value);
      if bytes >= I64_RANGE || (hostTotal > 0 && bytes > hostTotal) then Refused
      else if receipt.Some? && PythonReceipt(receipt.value) == Some(bytes) then Assigned(bytes)
      else Refused
  }

  /** The snapshot under a verified assignment that no kernel limit undercuts. */
  function UnderAssignment(m: Memory, location: Option<Location>, bytes: nat): Memory
    requires location.Some? ==> location.value.Valid()
  {
    var usage := if location.Some? then LeafUsage(location.value) else None;
    var eligible := usage.Some? && usage.value <= bytes;
    var scoped := location.Some? && location.value.PodScoped();
    var unreadable := location.None? || location.value.dirs[0].usage.Unreadable?;
    var current := if eligible then usage.value else bytes;
    var inactive := if eligible && scoped then Inactive(location.value.version, location.value.dirs[0], current) else 0;
    m.(
      current := current,
      working := current - inactive,
      inactive := inactive,
      free := bytes - current,
      available := if eligible then bytes - (current - inactive) else 0,
      high := None,
      capacity := bytes,
      capacitySource := RunpodAssignment,
      hard := false,
      verified := Some(bytes),
      usageSource := if usage.Some? then CgroupDir(location.value.version, 0) else NoSource,
      usageCurrent := usage,
      trustworthy := eligible && scoped,
      peakEligible := eligible,
      scope := if eligible && scoped then PodCgroup else if eligible then AmbiguousCgroupRoot else ScopeUnavailable,
      peakMode := if eligible then CgroupMode else if unreadable then ProcessGroupRssMode else NoPeakMode)
  }

  /** `apply_assigned_memory_capacity`; None when it raises. */
  function ApplyAssigned(m: Memory, location: Option<Location>, a: Assignment): Option<Memory>
    requires location.Some? ==> location.value.Valid()
  {
    match a
    case Unassigned => Some(m)
    case Refused => None
    case Assigned(bytes) =>
      if m.limited && m.limitBytes <= bytes then
        Some(m.(verified := Some(bytes), peakMode := if m.peakEligible then CgroupMode else NoPeakMode))
      else Some(UnderAssignment(m, location, bytes))
  }

  /**
   An assignment counts exactly if the environment holds the canonical decimal
   of a signed 64-bit number no larger than the host, and the receipt confirms it.
   */
  lemma AssignmentIsConfirmed(env: Option<string>, receipt: Option<string>, hostTotal: nat, n: nat)
    ensures AssignedCapacity(env, receipt, hostTotal) == Assigned(n) <==>
              && 0 < n < I64_RANGE && (hostTotal > 0 ==> n <= hostTotal)
              && env == Some(Render(n)) && receipt == Some(ReceiptText(n))
  {
    if AssignedCapacity(env, receipt, hostTotal) == Assigned(n) {
      RenderDenote(env.value);
      ReceiptIsCanonical(receipt.value, n);
    }
    if 0 < n < I64_RANGE && env == Some(Render(n)) {
      DenoteRender(n);
      ShortReceipt(n);
    }
  }

  /** A CPU quota per period; positive when it limits anything. */
  datatype Quota = Quota(quota: int, period: int)
  {
    predicate Limits() { quota > 0 && period > 0 }

    /** Whole CPUs, at least one. */
    function Jobs(): nat
      requires Limits()
    {
      Max(1, quota / period)
    }
  }

  /** The smallest quota as a fraction, read from the leaf outwards. */
  function TightestQuota(levels: seq<Quota>): (q: Option<Quota>)
    ensures q.Some? ==> q.value.Limits() && q.value in levels
  {
    if levels == [] then None
    else
      var last := levels[|levels| - 1];
      var inner := TightestQuota(levels[..|levels| - 1]);
      if last.Limits() && (inner.None? || last.quota * inner.value.period < inner.value.quota * last.period)
      then Some(last)
      else inner
  }

  /** `_read_cpu_quota` */
  method ReadCpuQuota(levels: seq<Quota>) returns (effective: Option<Quota>)
    ensures effective == TightestQuota(levels)
  {
    effective := None;
    for i := 0 to |levels|
      invariant effective == TightestQuota(levels[..i])
    {
      assert levels[..i + 1][..i] == levels[..i];
      var candidate := levels[i];
      if candidate.quota <= 0 || candidate.period <= 0 { continue; }
      if effective.None? || candidate.quota * effective.value.period < effective.value.quota * candidate.period {
        effective := Some(candidate);
      }
    }
    assert levels[..|levels|] == levels;
  }

  lemma Cancel(x: int, y: int, p: int)
    requires p > 0 && x * p <= y * p
    ensures x <= y
  {
  }

  lemma CancelStrict(x: int, y: int, p: int)
    requires p > 0 && x * p < y * p
    ensures x < y
  {
  }

  /** A smaller fraction has no larger floor. */
  lemma FloorMonotone(a: Quota, b: Quota)
    requires a.Limits() && b.Limits() && a.quota * b.period <= b.quota * a.period
    ensures a.Jobs() <= b.Jobs()
  {
    var k := a.quota / a.period;
    assert k * a.period <= a.quota;
    calc {
      (k * b.period) * a.period;
      == (k * a.period) * b.period;
      <= a.quota * b.period;
      <= b.quota * a.period;
    }
    Cancel(k * b.period, b.quota, a.period);
    assert b.quota < (b.quota / b.period + 1) * b.period;
    CancelStrict(k, b.quota / b.period + 1, b.period);
  }

  /** Comparing fractions is transitive when the denominators are positive. */
  lemma FractionTransitive(a: Quota, b: Quota, c: Quota)
    requires a.Limits() && b.Limits() && c.Limits()
    requires a.quota * b.period <= b.quota * a.period && b.quota * c.period <= c.quota * b.period
    ensures a.quota * c.period <= c.quota * a.period
  {
    calc {
      (a.quota * c.period) * b.period;
      == (a.quota * b.period) * c.period;
      <= (b.quota * a.period) * c.period;
      == (b.quota * c.period) * a.period;
      <= (c.quota * b.period) * a.period;
      == (c.quota * a.period) * b.period;
    }
  }

  /** The chosen quota is a quota of the chain, and no level of the chain allows fewer whole CPUs. */
  lemma {:induction false} QuotaIsSmallest(levels: seq<Quota>, k: nat)
    requires k < |levels| && levels[k].Limits()
    ensures TightestQuota(levels).Some?
    ensures var q := TightestQuota(levels).value; q.quota * levels[k].period <= levels[k].quota * q.period
    ensures TightestQuota(levels).value.Jobs() <= levels[k].Jobs()
  {
    var front, last := levels[..|levels| - 1], levels[|levels| - 1];
    var q := TightestQuota(levels);
    if k < |levels| - 1 {
      QuotaIsSmallest(front, k);
      assert front[k] == levels[k];
      if q == Some(last) { FractionTransitive(last, TightestQuota(front).value, levels[k]); }
    }
    FloorMonotone(q.value, levels[k]);
  }

  /** Everything the CPU bound depends on; counts that are absent or not positive are ignored. */
  datatype CpuInput = CpuInput(
    host: int, affinity: Option<int>, cpusets: seq<nat>, quotas: seq<Quota>, runpod: Option<int>)

  datatype Cpu = Cpu(host: nat, runpod: Option<nat>, effective: nat)

  function Positive(value: Option<int>): Option<nat> {
    if value.Some? && value.value > 0 then Some(value.value) else None
  }

  /** The smallest positive count of a list. */
  function Smallest(counts: seq<nat>): (m: Option<nat>)
    ensures m.Some? ==> m.value > 0 && m.value in counts
    ensures forall n :: n in counts && n > 0 ==> m.Some? && m.value <= n
  {
    if counts == [] then None
    else
      var inner := Smallest(counts[..|counts| - 1]);
      var last := counts[|counts| - 1];
      assert counts == counts[..|counts| - 1] + [last];
      if last > 0 && (inner.None? || last < inner.value) then Some(last) else inner
  }

  function AtMost(count: nat, bound: Option<nat>): nat {
    if bound.Some? then Min(count, bound.value) else count
  }

  function CollectCpu(c: CpuInput): (cpu: Cpu)
    ensures cpu.effective >= 1
  {
    var quota := TightestQuota(c.quotas);
    var runpod := Positive(c.runpod);
    var bounded := AtMost(AtMost(Max(1, c.host), Positive(c.affinity)), Smallest(c.cpusets));
    var quoted := AtMost(bounded, if quota.Some? then Some(quota.value.Jobs()) else None);
    Cpu(Max(1, c.host), runpod, Max(1, AtMost(quoted, runpod)))
  }

  /** The most whole CPUs that a quota covers, or one. */
  predicate WholeCpus(q: Quota, n: nat) {
    n >= 1 && (n == 1 || n * q.period <= q.quota) && (n + 1) * q.period > q.quota
  }

  lemma NoMoreCpus(n: nat, q: Quota)
    requires q.Limits() && n <= q.Jobs() && WholeCpus(q, q.Jobs())
    ensures n <= 1 || n * q.period <= q.quota
  {
    assert n * q.period <= q.Jobs() * q.period;
  }

  lemma JobsAreWhole(q: Quota)
    requires q.Limits()
    ensures WholeCpus(q, q.Jobs())
  {
    assert q.quota / q.period * q.period <= q.quota < (q.quota / q.period + 1) * q.period;
  }

  /** The count is that of one of the sources, and no source is exceeded at any level of the hierarchy. */
  lemma CpuWithinEveryBound(c: CpuInput)
    ensures var e := CollectCpu(c).effective;
            && e <= Max(1, c.host)
            && (c.affinity.Some? && c.affinity.value > 0 ==> e <= c.affinity.value)
            && (c.runpod.Some? && c.runpod.value > 0 ==> e <= c.runpod.value)
            && (forall n :: n in c.cpusets && n > 0 ==> e <= n)
            && (forall k :: 0 <= k < |c.quotas| && c.quotas[k].Limits() ==>
                  e == 1 || e * c.quotas[k].period <= c.quotas[k].quota)
            && (|| e == Max(1, c.host) || c.affinity == Some(e) || c.runpod == Some(e) || e in c.cpusets
                || exists q :: q in c.quotas && q.Limits() && WholeCpus(q, e))
            && CollectCpu(c).host == Max(1, c.host)
            && (CollectCpu(c).runpod.Some? <==> c.runpod.Some? && c.runpod.value > 0)
            && (CollectCpu(c).runpod.Some? ==> CollectCpu(c).runpod == c.runpod)
  {
    var quota := TightestQuota(c.quotas);
    if quota.Some? { JobsAreWhole(quota.value); }
    forall k | 0 <= k < |c.quotas| && c.quotas[k].Limits()
      ensures CollectCpu(c).effective == 1 || CollectCpu(c).effective * c.quotas[k].period <= c.quotas[k].quota
    {
      QuotaIsSmallest(c.quotas, k);
      JobsAreWhole(c.quotas[k]);
      NoMoreCpus(CollectCpu(c).effective, c.quotas[k]);
    }
  }

  const DEFAULT_MEMORY_PER_JOB_MIB := 8192
  const DEFAULT_RESERVE_BYTES := 4 * GIB
  const DEFAULT_MAX_JOBS := 4

  /** Command-line values (validated by the parser) and their environment fallbacks. */
  datatype Config = Config(
    perJobArg: Option<nat>, reserveArg: Option<nat>,
    perJobEnv: Option<int>, reserveEnv: Option<int>, buildMaxJobs: Option<int>, maxJobs: Option<int>)

  datatype Build = Build(
    suggested: nat, byCpu: nat, byMemory: nat, perJob: nat, reserve: nat, usable: nat, cap: nat, forced: bool)

  function PerJob(c: Config): (bytes: nat)
    ensures bytes > 0
    ensures c.perJobArg.Some? ==> bytes == if c.perJobArg.value > 0 then c.perJobArg.value * MIB else MIB
    ensures c.perJobArg.None? && c.perJobEnv.Some? && c.perJobEnv.value > 0 ==> bytes == c.perJobEnv.value * MIB
    ensures c.perJobArg.None? && (c.perJobEnv.None? || c.perJobEnv.value <= 0) ==> bytes == 8 * GIB
  {
    var mib :=
      if c.perJobArg.Some? then c.perJobArg.value
      else if Positive(c.perJobEnv).Some? then c.perJobEnv.value
      else DEFAULT_MEMORY_PER_JOB_MIB;
    Max(1, mib) * MIB
  }

  /** No reserve is configured, or none that counts. */
  predicate DefaultReserve(c: Config) {
    c.reserveArg.None? && (c.reserveEnv.None? || c.reserveEnv.value < 0)
  }

  /** The same reserve and job size are asked for; the caps of MAX_JOBS are no part of it. */
  predicate SameTuning(a: Config, b: Config) {
    && a.perJobArg == b.perJobArg && a.perJobEnv == b.perJobEnv
    && a.reserveArg == b.reserveArg && a.reserveEnv == b.reserveEnv
  }

  function Reserve(c: Config, capacity: nat): (bytes: nat)
    ensures c.reserveArg.Some? ==> bytes == c.reserveArg.value * MIB
    ensures c.reserveArg.None? && !DefaultReserve(c) ==> bytes == c.reserveEnv.value * MIB
    ensures DefaultReserve(c) ==>
              && bytes >= DEFAULT_RESERVE_BYTES && 100 * bytes >= 15 * capacity
              && (bytes > DEFAULT_RESERVE_BYTES ==> 100 * (bytes - 1) < 15 * capacity)
  {
    if c.reserveArg.Some? then c.reserveArg.value * MIB
    else if c.reserveEnv.Some? && c.reserveEnv.value >= 0 then c.reserveEnv.value * MIB
    else Max(DEFAULT_RESERVE_BYTES, (capacity * 15 + 99) / 100)
  }

  function JobsCap(c: Config, forced: bool): (cap: nat)
    ensures cap >= 1 && (forced ==> cap == 1)
    ensures !forced && c.buildMaxJobs.Some? && c.buildMaxJobs.value > 0 ==> cap == c.buildMaxJobs.value
    ensures !forced && (c.buildMaxJobs.None? || c.buildMaxJobs.value <= 0) ==>
              cap == if c.maxJobs.Some? && c.maxJobs.value > 0 then c.maxJobs.value else DEFAULT_MAX_JOBS
  {
    if forced then 1
    else if Positive(c.buildMaxJobs).Some? then c.buildMaxJobs.value
    else if Positive(c.maxJobs).Some? then c.maxJobs.value
    else DEFAULT_MAX_JOBS
  }

  /** `recommend_build_jobs` */
  function Recommend(m: Memory, cpu: Cpu, c: Config): Build {
    var perJob, reserve := PerJob(c), Reserve(c, m.capacity);
    var usable := Max(0, (if m.peakEligible then m.available else 0) - reserve);
    var byMemory, byCpu := Max(1, usable / perJob), Max(1, cpu.effective);
    var forced := m.verified.Some? && !m.trustworthy;
    var cap := JobsCap(c, forced);
    Build(Max(1, Min(byCpu, Min(byMemory, cap))), byCpu, byMemory, perJob, reserve, usable, cap, forced)
  }

  datatype Snapshot = Snapshot(version: Option<int>, memory: Memory, cpu: Cpu, build: Build)

  /** Everything outside the resolver. */
  datatype Environment = Environment(
    meminfo: Meminfo, location: Option<Location>, cpuVersion: Option<int>, assignment: Option<string>,
    receipt: Option<string>, cpu: CpuInput, config: Config)
  {
    predicate Valid() {
      && (location.Some? ==> location.value.Valid())
      && (cpuVersion.Some? ==> 1 <= cpuVersion.value <= 2)
    }
  }

  /** `collect_resources`; None when it raises. */
  function CollectResources(e: Environment): Option<Snapshot>
    requires e.Valid()
  {
    var host := ReadHostMemory(e.meminfo);
    var assignment := AssignedCapacity(e.assignment, e.receipt, host.total);
    var memory := ApplyAssigned(CollectMemory(host, e.location), e.location, assignment);
    if memory.None? then None
    else
      var cpu := CollectCpu(e.cpu);
      Some(Snapshot(
        if e.location.Some? then Some(e.location.value.version) else e.cpuVersion,
        memory.value, cpu, Recommend(memory.value, cpu, e.config)))
  }

  /** Some bound on memory is known: the host's total, a finite cgroup limit or a verified assignment. */
  predicate Bounded(host: Host, location: Option<Location>, a: Assignment)
    requires location.Some? ==> location.value.Valid()
  {
    host.total > 0 || (location.Some? && CgroupLimit(location.value, 0).source.Some?) || a.Assigned?
  }

  /** What the fields of every snapshot have to do with each other. */
  ghost predicate Coherent(m: Memory) {
    && m.inactive + m.working == m.current
    && (m.usageCurrent.None? ==> !m.peakEligible)
    && (m.trustworthy ==> m.peakEligible)
    && (m.hard <==> m.capacitySource.CgroupDir?) && (m.hard ==> m.limited && m.capacity == m.limitBytes)
    && (m.verified.Some? ==> m.capacity <= m.verified.value)
    && (m.limited <==> m.limitSource.CgroupDir?) && (!m.limited ==> m.limitBytes == m.hostTotal)
    && (!m.capacitySource.HostMemory? ==> m.free == Max(0, m.capacity - m.current))
    && (m.high.Some? ==> m.limited && m.high.value < m.capacity)
  }

  /** Headroom is exactly what the working set leaves of the capacity, if any bound is known at all. */
  lemma SnapshotsAreCoherent(meminfo: Meminfo, location: Option<Location>, a: Assignment)
    requires location.Some? ==> location.value.Valid()
    ensures var host := ReadHostMemory(meminfo);
            var m := ApplyAssigned(CollectMemory(host, location), location, a);
            m.Some? ==>
              && Coherent(m.value)
              && (Bounded(host, location, a) ==> m.value.available == Max(0, m.value.capacity - m.value.working))
              && (!Bounded(host, location, a) ==> m.value.capacity == 0)
  {
  }

  /**
   A build may fall back on sampling its own processes exactly under an
   assignment no kernel limit undercuts, and only if there is no cgroup or its
   usage counter cannot be read; a malformed or excessive counter is no excuse.
   */
  lemma FallbackIsGenuine(meminfo: Meminfo, location: Option<Location>, a: Assignment)
    requires location.Some? ==> location.value.Valid()
    ensures var host := ReadHostMemory(meminfo);
            var m := ApplyAssigned(CollectMemory(host, location), location, a);
            m.Some? ==>
              (m.value.peakMode.ProcessGroupRssMode? <==>
                && a.Assigned?
                && (location.Some? ==>
                      && location.value.dirs[0].usage.Unreadable?
                      && var t := CgroupLimit(location.value, host.total); t.source.None? || t.bytes > a.bytes))
  {
  }

  /** A usage counter that was read as a number. */
  predicate Counts(r: Reading) {
    r.Number? && r.value >= 0
  }

  /** What can be said of a usage that was read, or not, where nothing of the kernel bounds it. */
  predicate LeafEvidence(m: Memory, location: Option<Location>, usable: bool)
    requires location.Some? ==> location.value.Valid()
    requires usable ==> location.Some?
  {
    var root := location.Some? && location.value.membershipIsRoot && location.value.mountRootIsRoot;
    var read := location.Some? && Counts(location.value.dirs[0].usage);
    && (m.peakEligible <==> usable) && (m.trustworthy <==> usable && !root)
    && (m.scope == PodCgroup <==> usable && !root)
    && (m.scope == AmbiguousCgroupRoot <==> usable && root)
    && (m.scope == ScopeUnavailable <==> !usable)
    && (m.peakMode.CgroupMode? <==> usable)
    && (read ==> m.usageCurrent == Some(location.value.dirs[0].usage.value))
    && (read ==> m.usageSource == CgroupDir(location.value.version, 0))
    && (!read ==> m.usageCurrent.None? && m.usageSource.NoSource?)
  }

  /** No kernel limit is as small as the assignment. */
  predicate Unlimiting(location: Option<Location>, host: nat, bytes: nat)
    requires location.Some? ==> location.value.Valid()
  {
    location.Some? && CgroupLimit(location.value, host).source.Some? ==> CgroupLimit(location.value, host).bytes > bytes
  }

  /** The snapshot of a Pod that its assignment bounds. */
  predicate AssignedEvidence(m: Memory, location: Option<Location>, bytes: nat)
    requires location.Some? ==> location.value.Valid()
  {
    var usable := location.Some? && Counts(location.value.dirs[0].usage) && location.value.dirs[0].usage.value <= bytes;
    && m.capacity == bytes && LeafEvidence(m, location, usable)
    && m.current == (if usable then location.value.dirs[0].usage.value else bytes)
    && (!m.trustworthy ==> m.inactive == 0) && (!usable ==> m.available == 0)
    && (m.trustworthy ==>
          m.inactive == Inactive(location.value.version, location.value.dirs[0], location.value.dirs[0].usage.value))
  }

  lemma AssignmentReasons(m: Memory, location: Option<Location>, bytes: nat)
    requires location.Some? ==> location.value.Valid()
    ensures AssignedEvidence(UnderAssignment(m, location, bytes), location, bytes)
  {
  }

  /** The snapshot of a Pod that a kernel limit bounds. */
  predicate LimitedEvidence(m: Memory, l: Location, level: nat)
    requires l.Valid() && level < |l.dirs|
  {
    && (m.trustworthy <==> Counts(l.dirs[level].usage)) && (m.peakEligible <==> m.trustworthy)
    && (m.peakMode.CgroupMode? <==> m.peakEligible)
    && m.scope == (if m.trustworthy then CgroupCapacity else ScopeUnavailable)
    && (if m.trustworthy
        then && m.current == l.dirs[level].usage.value && m.usageCurrent == Some(m.current)
             && m.inactive == Inactive(l.version, l.dirs[level], m.current)
        else m.current == m.capacity && m.usageCurrent.None? && m.inactive == 0)
  }

  lemma LimitReasons(l: Location, host: Host, limit: nat, level: nat)
    requires l.Valid() && level < |l.dirs|
    ensures LimitedEvidence(Limited(l, host, limit, level), l, level)
  {
  }

  /** The snapshot of a Pod that nothing but the host bounds. */
  predicate HostEvidence(m: Memory, location: Option<Location>, host: Host)
    requires location.Some? ==> location.value.Valid()
  {
    && m.capacity == host.total
    && m.current == host.current && m.inactive == 0 && m.free == host.free && m.available == host.available
    && LeafEvidence(m, location, location.Some? && Counts(location.value.dirs[0].usage))
  }

  /**
   When usage is trusted, and what it covers. Without a kernel limit in force it
   is the leaf's counter: eligible if it is a number, under an assignment one no
   larger than it, and trusted unless membership and mount root are both the
   root. Under a limit it is the counter of the limiting directory, and trusted.
   */
  lemma TrustHasItsReasons(meminfo: Meminfo, location: Option<Location>, a: Assignment)
    requires location.Some? ==> location.value.Valid()
    requires !a.Refused?
    ensures var host := ReadHostMemory(meminfo);
            var m := ApplyAssigned(CollectMemory(host, location), location, a).value;
            match m.capacitySource
            case RunpodAssignment =>
              a.Assigned? && Unlimiting(location, host.total, a.bytes) && AssignedEvidence(m, location, a.bytes)
            case CgroupDir(_, level) =>
              && location.Some? && level < |location.value.dirs| && m.capacity == m.limitBytes
              && CgroupLimit(location.value, host.total) == Tight(m.capacity, Some(level))
              && (a.Assigned? ==> m.capacity <= a.bytes)
              && LimitedEvidence(m, location.value, level)
            case _ => m.capacitySource.HostMemory? && a.Unassigned? && HostEvidence(m, location, host)
  {
    var host := ReadHostMemory(meminfo);
    var m := CollectMemory(host, location);
    if a.Assigned? { AssignmentReasons(m, location, a.bytes); }
    if location.Some? && CgroupLimit(location.value, host.total).source.Some? {
      var t := CgroupLimit(location.value, host.total);
      LimitReasons(location.value, host, t.bytes, t.source.value);
    }
  }

  /**
   Under a kernel limit memory.high is that of some directory, and no larger than
   any below the limit that the host total does not already undercut.
   */
  lemma HighIsLeast(meminfo: Meminfo, l: Location, a: Assignment, i: nat)
    requires l.Valid() && !a.Refused? && i < |l.dirs|
    ensures var host := ReadHostMemory(meminfo);
            var m := ApplyAssigned(CollectMemory(host, Some(l)), Some(l), a).value;
            var high := Finite(l.dirs[i].high);
            m.capacitySource.CgroupDir? ==>
              && (m.high.Some? ==> exists k :: 0 <= k < |l.dirs| && Finite(l.dirs[k].high) == m.high)
              && (high.Some? && high.value < m.capacity && (host.total > 0 ==> high.value <= host.total) ==>
                    m.high.Some? && m.high.value <= high.value)
  {
    var host := ReadHostMemory(meminfo);
    var t := CgroupLimit(l, host.total);
    if t.source.Some? { LimitedHigh(l, host, t.bytes, t.source.value, i); }
  }

  lemma LimitedHigh(l: Location, host: Host, limit: nat, level: nat, i: nat)
    requires l.Valid() && level < |l.dirs| && i < |l.dirs|
    ensures var m := Limited(l, host, limit, level);
            var high := Finite(l.dirs[i].high);
            && (m.high.Some? ==> exists k :: 0 <= k < |l.dirs| && Finite(l.dirs[k].high) == m.high)
            && (high.Some? && high.value < limit && (host.total > 0 ==> high.value <= host.total) ==>
                  m.high.Some? && m.high.value <= high.value)
  {
    assert forall k :: 0 <= k < |l.dirs| ==> l.Highs()[k] == l.dirs[k].high;
    TightestIsOutermostMinimum(l.Highs(), host.total);
  }

  lemma JobsFit(usable: nat, perJob: nat, jobs: nat)
    requires perJob > 0 && jobs <= usable / perJob
    ensures jobs * perJob <= usable
  {
    assert usable / perJob * perJob <= usable;
    assert jobs * perJob <= usable / perJob * perJob;
  }

  /** So many jobs of the configured size fit the capacity beside the working set and the configured reserve. */
  predicate JobsFitBeside(m: Memory, c: Config, jobs: nat) {
    m.working + jobs * PerJob(c) + Reserve(c, m.capacity) <= m.capacity
  }

  /**
   Whether any number of jobs fits beside the working set and the reserve, under
   a known bound and eligible usage: several exactly up to the number memory
   allows, one exactly if the headroom covers it.
   */
  lemma JobsWithinMemory(m: Memory, cpu: Cpu, c: Config, jobs: nat)
    requires m.peakEligible && m.available == Max(0, m.capacity - m.working) && jobs >= 1
    ensures var b := Recommend(m, cpu, c);
            && (jobs > 1 ==> (JobsFitBeside(m, c, jobs) <==> jobs <= b.byMemory))
            && (jobs == 1 ==> (JobsFitBeside(m, c, jobs) <==> m.available >= Reserve(c, m.capacity) + PerJob(c)))
  {
    var b := Recommend(m, cpu, c);
    if jobs <= b.usable / b.perJob {
      JobsFit(b.usable, b.perJob, jobs);
    } else {
      JobsDoNotFit(b.usable, b.perJob, jobs);
    }
  }

  lemma JobsDoNotFit(usable: nat, perJob: nat, jobs: nat)
    requires perJob > 0 && jobs > usable / perJob
    ensures jobs * perJob > usable
  {
    assert (usable / perJob + 1) * perJob > usable;
    assert jobs * perJob >= (usable / perJob + 1) * perJob;
  }

  /**
   A recommendation above one job fits exactly if a bound backs the headroom, and
   none is lower than it has to be; job size, reserve and cap are the configured ones.
   */
  predicate Safe(m: Memory, cpu: Cpu, b: Build, c: Config, bounded: bool) {
    && b.suggested >= 1
    && b.perJob == PerJob(c) && b.reserve == Reserve(c, m.capacity)
    && b.cap == JobsCap(c, m.verified.Some? && !m.trustworthy)
    && b.byCpu == Max(1, cpu.effective)
    && b.usable == Max(0, (if m.peakEligible then m.available else 0) - Reserve(c, m.capacity))
    && (b.suggested > 1 ==>
          && (JobsFitBeside(m, c, b.suggested) <==> bounded)
          && b.suggested <= cpu.effective && b.suggested <= b.cap
          && (m.verified.Some? ==> m.trustworthy))
    && (bounded && m.peakEligible ==>
          || b.suggested >= cpu.effective || b.suggested == b.cap
          || !JobsFitBeside(m, c, b.suggested + 1))
    && (m.usageCurrent.None? || !m.peakEligible ==> b.suggested == 1)
    && (b.forced <==> m.verified.Some? && !m.trustworthy)
    && (b.forced ==> b.suggested == 1 && b.cap == 1)
  }

  lemma SomeSpace(jobs: nat, perJob: nat)
    requires perJob > 0
    ensures jobs >= 1 ==> jobs * perJob >= 1
  {
  }

  /** The recommendation on any coherent memory snapshot. */
  lemma RecommendationFits(m: Memory, cpu: Cpu, c: Config, bounded: bool)
    requires Coherent(m) && (bounded ==> m.available == Max(0, m.capacity - m.working))
    requires !bounded ==> m.capacity == 0
    ensures Safe(m, cpu, Recommend(m, cpu, c), c, bounded)
  {
    var b := Recommend(m, cpu, c);
    if bounded && m.peakEligible {
      JobsWithinMemory(m, cpu, c, b.suggested);
      JobsWithinMemory(m, cpu, c, b.suggested + 1);
    }
    if !bounded { SomeSpace(b.suggested, PerJob(c)); }
  }

  /**
   Any recommendation above one job fits, exactly if a bound is known; it never
   exceeds the CPUs or the cap, and an assignment is only built on with
   trustworthy usage. Unknown usage always means one job.
   */
  lemma RecommendationIsSafe(e: Environment)
    requires e.Valid() && CollectResources(e).Some?
    ensures var s, host := CollectResources(e).value, ReadHostMemory(e.meminfo);
            Safe(s.memory, s.cpu, s.build, e.config,
                 Bounded(host, e.location, AssignedCapacity(e.assignment, e.receipt, host.total)))
  {
    var host := ReadHostMemory(e.meminfo);
    var a := AssignedCapacity(e.assignment, e.receipt, host.total);
    SnapshotsAreCoherent(e.meminfo, e.location, a);
    var m := ApplyAssigned(CollectMemory(host, e.location), e.location, a).value;
    RecommendationFits(m, CollectCpu(e.cpu), e.config, Bounded(host, e.location, a));
  }

  /**
   An assignment that bounds a Pod whose cgroup membership and mount root are
   both the root: whatever its usage, one job is forced.
   */
  lemma AmbiguousRootForcesOneJob(e: Environment)
    requires e.Valid() && CollectResources(e).Some?
    requires CollectResources(e).value.memory.capacitySource.RunpodAssignment?
    requires e.location.Some? && e.location.value.membershipIsRoot && e.location.value.mountRootIsRoot
    ensures var b := CollectResources(e).value.build; b.forced && b.suggested == 1 && b.cap == 1
  {
    var host := ReadHostMemory(e.meminfo);
    TrustHasItsReasons(e.meminfo, e.location, AssignedCapacity(e.assignment, e.receipt, host.total));
    RecommendationIsSafe(e);
  }

  predicate SuggestsWithoutRoom(e: Environment, jobs: nat)
    requires e.Valid()
  {
    var s := CollectResources(e);
    s.Some? && s.value.build.suggested == jobs && !JobsFitBeside(s.value.memory, e.config, jobs)
  }

  /** The failing case exists: with no bound known, reported available memory alone suggests four jobs. */
  lemma UnboundedSuggestsJobs()
    ensures exists e: Environment :: e.Valid() && SuggestsWithoutRoom(e, 4)
  {
    var quiet := Dir(None, None, Number(0), None, None, None);
    var e := Environment(
      Meminfo(None, None, None, None, Some(64 * GIB), None), Some(Location(2, false, true, [quiet])), None,
      None, None, CpuInput(8, None, [], [], None), Config(None, None, None, None, None, None));
    var l := e.location.value;
    assert l.Limits() == [None];
    assert Tightest(l.Limits()[..0], 0) == Tight(0, None);
    var s := CollectResources(e).value;
    assert s.memory.available == 64 * GIB && s.memory.capacity == 0 && s.memory.peakEligible;
    assert s.build.byMemory == 7;
    assert SuggestsWithoutRoom(e, 4);
  }

  /** When usage is read where the tightest limit is: unless v1 reports an inherited bound that changes the answer. */
  lemma UsageFollowsTheLimit(l: Location, host: nat)
    requires l.Valid()
    ensures var found := Tightest(l.Limits(), host);
            OutermostMinimum(l.Limits(), host, CgroupLimit(l, host))
            <==> (Inherits(l, found) ==> found == Tight(l.dirs[0].hierarchical.value, Some(0)))
  {
    var found := Tightest(l.Limits(), host);
    TightestIsOutermostMinimum(l.Limits(), host);
    if OutermostMinimum(l.Limits(), host, CgroupLimit(l, host)) {
      OutermostMinimumIsUnique(l.Limits(), host, found, CgroupLimit(l, host));
    }
  }

  /** A bound on memory the chain shows: the host total, a finite limit, or on v1 the inherited bound. */
  predicate Shows(l: Location, host: nat, bytes: nat)
    requires l.Valid()
  {
    || (host > 0 && bytes == host)
    || (exists i :: 0 <= i < |l.dirs| && Finite(l.dirs[i].limit) == Some(bytes))
    || (l.version == 1 && l.dirs[0].hierarchical == Some(bytes) && 0 < bytes < UNLIMITED)
  }

  /** The limit is no larger than any bound the chain shows, exactly unless a v1 zero limit is replaced. */
  lemma CgroupLimitIsLeast(l: Location, host: nat)
    requires l.Valid()
    ensures (forall bytes: nat :: Shows(l, host, bytes) ==> CgroupLimit(l, host).bytes <= bytes)
            <==> !var found := Tightest(l.Limits(), host); found.source.Some? && found.bytes == 0 && Inherits(l, found)
  {
    var found := Tightest(l.Limits(), host);
    TightestIsOutermostMinimum(l.Limits(), host);
    assert forall i :: 0 <= i < |l.dirs| ==> l.Limits()[i] == l.dirs[i].limit;
    if Inherits(l, found) && found.source.Some? && found.bytes == 0 {
      assert Finite(l.dirs[found.source.value].limit) == Some(0);
      assert Shows(l, host, 0);
    }
  }

  /** An inherited bound equal to the visible one moves the usage from the limiting ancestor to the leaf. */
  lemma InheritedBoundMovesUsage(limit: nat)
    requires 0 < limit < UNLIMITED
    ensures exists l: Location :: l.Valid() && Tightest(l.Limits(), 0) == Tight(limit, Some(1))
                                  && CgroupLimit(l, 0) == Tight(limit, Some(0))
  {
    var leaf := Dir(Some(limit), None, Unreadable, None, None, Some(limit));
    var l := Location(1, false, true, [leaf, leaf]);
    assert l.Limits()[..1][..0] == [];
    assert Tightest(l.Limits()[..1], 0) == Tight(limit, Some(0));
    assert Tightest(l.Limits(), 0) == Tight(limit, Some(1));
  }

  /** An explicit limit of zero is replaced by any positive inherited bound. */
  lemma ZeroLimitIsReplaced(bound: nat)
    requires 0 < bound < UNLIMITED
    ensures exists l: Location :: l.Valid() && Tightest(l.Limits(), 0) == Tight(0, Some(0))
                                  && CgroupLimit(l, 0) == Tight(bound, Some(0))
  {
    var l := Location(1, false, true, [Dir(Some(0), None, Unreadable, None, None, Some(bound))]);
    assert l.Limits()[..0] == [];
    assert Tightest(l.Limits(), 0) == Tight(0, Some(0));
  }
}

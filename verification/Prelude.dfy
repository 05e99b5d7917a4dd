/** Small value types, arithmetic and text predicates shared by every model in the project. */
module Prelude {
  datatype Option<+T> = None | Some(value: T)

  const MIB := 1024 * 1024
  const GIB := 1024 * MIB

  /** Kernel limit values from this threshold upwards mean "unlimited". */
  const UNLIMITED := 0x1000_0000_0000_0000

  /** First value that does not fit an unsigned 64-bit counter. */
  const U64_RANGE := 0x1_0000_0000_0000_0000

  /** An unsigned 64-bit value, such as a kernel counter or a C `unsigned long long`. */
  newtype uint64 = x: int | 0 <= x < U64_RANGE

  /** A 64-bit value of the specification functions, such as a counter the kernel prints. */
  type Counter = n: nat | n < U64_RANGE

  /**
   The source strings of capacities, usages and peaks. `CgroupDir(v, k)` stands
   for "cgroup-v{v}:{path}" with the path of the k-th directory from the leaf.
   */
  datatype Source = NoSource | HostMemory | RunpodAssignment | CgroupDir(version: int, level: nat) | ProcStatm

  datatype Scope = ScopeUnavailable | CgroupCapacity | PodCgroup | AmbiguousCgroupRoot | BuildProcessGroup

  datatype PeakMethod = KernelCgroupPeak | ProcGroupRssSum

  /** How the memory peak of a build can be shown: "cgroup", "process-group-rss" or "unavailable". */
  datatype PeakMode = CgroupMode | ProcessGroupRssMode | NoPeakMode

  function Min(a: int, b: int): int {
    if a <= b then a else b
  }

  function Max(a: int, b: int): int {
    if a >= b then a else b
  }

  predicate EndsWith(s: string, suffix: string) {
    |suffix| <= |s| && s[|s| - |suffix|..] == suffix
  }

  /** A SHA-256 digest in lower-case hexadecimal. */
  predicate IsHexDigest(s: string) {
    |s| == 64 && forall i :: 0 <= i < 64 ==> '0' <= s[i] <= '9' || 'a' <= s[i] <= 'f'
  }
}

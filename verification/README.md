# Wheel factory model

A Dafny model of the logic that decides whether a wheel built on a rented Pod
can be trusted: the process-group supervisor, the memory and CPU resolver, the
`/proc/meminfo` shim, the build preflight and the promotion gate, the Pod
orchestrator, and the manifest merge with its selector. The environment
(operating system, cgroup tree, Runpod API, SSH, clock) is nondeterministic: it
may do anything between two calls except what is listed below.

`dafny verify dfyconfig.toml` checks the whole project.

| file | content |
|---|---|
| `Prelude.dfy`, `Names.dfy` | small values, code-point order and the sorted list of a set |
| `ProcScan.dfy` | one pass over /proc for a process group |
| `Supervisor.dfy` | the supervisor as a state machine over an adversarial system |
| `RssEvidence.dfy`, `ShellRelay.dfy` | the shell check, the field copy, the validator's RSS branch, the shell's wait |
| `Limits.dfy`, `Resolver.dfy` | limit walks in Python and C, memory and CPU snapshot, job recommendation |
| `Decimal.dfy`, `KernelText.dfy` | decimal receipts, stat lines, escaped mount fields |
| `Shim.dfy`, `Meminfo.dfy` | the shim's own resolution, its agreement with the resolver, the meminfo rewriter |
| `Promotion.dfy` | preflight, parallelism, evidence assembly, promotion validator |
| `Protocol.dfy` | requests, the judgement of a Pod, the protocol of API calls |
| `Lifecycle.dfy`, `JobRun.dfy` | `run_job` and its helpers over a trace of API calls |
| `LifecycleRuns.dfy`, `RunCauses.dfy` | what the protocol means for every trace, and why a run fails |
| `Binding.dfy` | from the orchestrator's verification to the resolver inside the Pod |
| `Manifest.dfy` | merge and select |

## How to read it

Source loops and procedures are methods proved against specification functions
or declarative predicates; value computations are functions with lemmas. State
that the source keeps in local variables and closures is threaded through
methods as one value (`Run`, `World`, `Cloud`).

*Supervisor.* `World` is what the system did; `Elapsed(a, b, wait)` says what may
have happened between two moments: signals arrive at any time, the leader exits
at any time, a return code once polled stays, a vanished group stays vanished.
Nothing else is assumed. `Final` is the contract of the evidence file;
`Justified` says that each monitor error reports something that happened. Time
bounds speak of the waiting the supervisor asked for, so the system may be
arbitrarily slow on top. The monotonic clock is positive.

*Lifecycle.* Every API, SSH and delete call is an event, and so is a call that
got no answer (`Lost`) or that no time was left for (`NoTime`). `Allowed` is the
protocol, `Ledger` what is known after a trace, and `RunJob` follows the protocol
whatever the calls answer; `LifecycleRuns` says what that means in terms of the
trace alone. Times are integer milliseconds; `late` collects how much longer
calls and local work took than the calls were given, so the bounds hold as
stated when it is zero and are later by it otherwise.

*Resolver and shim.* Both take the located chain of directories from the leaf to
the controller mount. `CgroupDir(v, k)` stands for the source string of the k-th
directory of the chain.

## Findings

* docs/resource-reporting.md:198 says that zero remains a real finite limit; on
  cgroup v1 the Python resolver replaces an explicit zero by a positive inherited
  bound (tools/pod_resources.py:858) and the C shim does not. `ShimAgreesWithResolver`
  shows this is the only disagreement on capacity, `ZeroLimitDisagreement` that it
  happens under every inherited bound a host can hold.
* The usage source is the limiting ancestor except when v1 reports an inherited
  bound that is no larger: then it is the leaf (`UsageFollowsTheLimit`).
* Without MemTotal, limit and assignment the recommendation can exceed one job
  with no capacity behind it (`RecommendationIsSafe`, `UnboundedSuggestsJobs`).
* The accepted terminate grace starts at 60 s (tools/runpod_job.py:213-214), but a
  run in which nothing is late can outlast its hard timeout by 128.099 s when a
  misplaced Pod cannot be deleted (`LatestRun`), and the platform's deadline is cut
  to whole seconds. Cleanup precedes that deadline in all such runs iff the grace is
  at least 129.099 s (`GraceThreshold`), in whole seconds 130; the default of 900 s
  leaves room for 770.9 s of lateness.
* The branch of the supervisor for a group that remained after its leader
  (tools/pod_resources.py:1650-1654) can never be taken.
* Orchestrator minima are decimal gigabytes and matrix minima gibibytes: a Pod that
  verification accepts can fail the preflight unless the first, in bytes, reaches
  the second (`MinimaHaveToAgree`). Equal numbers never do; 32 GiB need 35 GB.
* A complete run takes at least one interval unless its command failed: a zero exit
  has two samples (`RunsTakeTime`). Complete evidence of less than a millisecond can
  only come from a nonzero exit.
* A merged SHA256SUMS need not be accepted by a second merge.

## Model

| member | source | states |
|---|---|---|
| Supervisor.Supervise | tools/pod_resources.py:1440-1683 | For every interleaving of child, descendants, signals, /proc and clock: a returning run leaves no live group and a known return code, its final file is exactly what was sampled, is complete iff there is no monitor error, and its status is 0 iff complete with return code 0, the return code from 0 up, 128 more than the number of the signal that ended the child, and 70 if incomplete; the run lasts at least one interval for every sample but the first; zero means at least two samples, the leader and a compiler seen; only the first requested signal is relayed, once; complete evidence of an unsignalled run means descendants were never seen to outlive the leader; no other ending leaves complete evidence or gives up before SIGKILL unless the kernel refused; waiting after the first signal is bounded |
| Supervisor.TerminateGroupBounded | tools/pod_resources.py:1402-1416 | One SIGTERM, then SIGKILL only after the grace; on return the leader is reaped and the group gone; waits at most grace, one nap and the kill bound |
| Supervisor.AwaitGrace | tools/pod_resources.py:1410-1415 | Ends early only with the leader reaped and the group gone, otherwise not before the grace is over |
| Supervisor.KillGroupBounded | tools/pod_resources.py:1419-1437 | One SIGKILL; returns only with the leader reaped and the group gone, raises only if refused, or unreaped or alive after at least 2 s; waits at most 4.05 s |
| Supervisor.AwaitGroupEnd | tools/pod_resources.py:1432-1436 | The descendants' wait is bounded by 2 s and a nap and reports whether the group is alive |
| Supervisor.RequestShutdown | tools/pod_resources.py:1465-1467 | Only the first requested signal is ever recorded |
| Supervisor.GroupExists | tools/pod_resources.py:1392-1399 | Liveness of the group; a group alive after its leader was reaped is remembered as orphans |
| Supervisor.SignalGroup | tools/pod_resources.py:1384-1389 | One killpg is counted; false exactly for a vanished group, an exception when the kernel refuses |
| Supervisor.WriteEvidence | tools/pod_resources.py:1370-1377 | The file is replaced as a whole or not at all |
| Supervisor.Sample | tools/pod_resources.py:1558-1579 | The counters stay the fold of all scans taken; a scan without resident memory changes none of them |
| Supervisor.RecordTallies | tools/pod_resources.py:1571-1579 | One more sample keeps count, first, last, peak, width, leader and compilers true of all samples |
| Supervisor.CountScansTallies | tools/pod_resources.py:1558-1579 | Whatever was scanned, the counters mean what they say: the peak is the maximum and attained, the leader was seen iff some sample saw it, and so on |
| Supervisor.ForwardPending | tools/pod_resources.py:1585-1589 | A pending request is relayed at once, and only if none was relayed before; the grace starts then |
| Supervisor.BindSample | tools/pod_resources.py:1590-1601 | The first loop goes on only without sample, exit or expired wait; it ends unsampled with an error iff the exit was zero or, after the wait, there was none |
| Supervisor.BindOnce | tools/pod_resources.py:1584-1602 | A turn of the first loop keeps the invariant of signals, counters and grace |
| Supervisor.Bind | tools/pod_resources.py:1583-1602 | The first loop ends, within 2 s and a nap of its own waiting |
| Supervisor.KillIfDue | tools/pod_resources.py:1622-1626 | SIGKILL at the first check at or past the grace deadline, never before it |
| Supervisor.CheckLeader | tools/pod_resources.py:1612-1620 | A reaped leader ends the loop: cleanly if its group is gone, with an error if descendants outlived it unsignalled |
| Supervisor.SampleOnce | tools/pod_resources.py:1628-1635 | The loop goes on only with one more sample; a sample that finds nothing ends it, with an error iff the leader is unreaped or its group still there |
| Supervisor.MonitorForwarded | tools/pod_resources.py:1612-1635 | One turn after relaying: it goes on only before the grace deadline and with exactly one more scan |
| Supervisor.MonitorOnce | tools/pod_resources.py:1606-1635 | A turn keeps the loop's invariant, or ends with the group gone or a justified error |
| Supervisor.Checkpoint | tools/pod_resources.py:1636-1639 | Provisional, consistent evidence is written exactly when due, and the next due time is one interval later |
| Supervisor.Pause | tools/pod_resources.py:1636-1640 | Checkpoint when due, then a nap: the loop's invariant is kept and time advances |
| Supervisor.MonitorTurn | tools/pod_resources.py:1605-1640 | A whole turn keeps the invariant and leaves up-to-date evidence when a checkpoint was due; with a forwarded signal it only goes on before the grace deadline |
| Supervisor.Monitor | tools/pod_resources.py:1605-1640 | The sampling loop ends once a signal was forwarded; every way of ending is justified and within its waiting bound |
| Supervisor.Payload | tools/pod_resources.py:1510-1556 | The payload repeats counters, outcome and settings; completion time and duration exist iff complete |
| Supervisor.FirstEvidence | tools/pod_resources.py:1603 | The evidence written before the sampling loop is never complete and says what was seen so far |
| Supervisor.StillAlive | tools/pod_resources.py:1642-1644 | The group needs terminating iff the leader is unreaped or the group alive |
| Supervisor.EndGroup | tools/pod_resources.py:1642-1654 | Afterwards the group is gone and the return code known; the second guard of the source is never taken |
| Supervisor.Conclude | tools/pod_resources.py:1656-1669 | The missing-sample errors replace any other exactly for a zero return code, in the source's order; the final file satisfies the evidence contract |
| Supervisor.Finish | tools/pod_resources.py:1642-1669 | The end of a run: no process left, final evidence, within the waiting bound |
| Supervisor.AttendBound | tools/pod_resources.py:1603-1669 | The run from the first evidence on |
| Supervisor.Attend | tools/pod_resources.py:1581-1669 | Everything the exception handler guards |
| Supervisor.HandleException | tools/pod_resources.py:1670-1675 | The handler terminates whatever is alive: afterwards all is gone, or SIGKILL was sent, or the kernel refused |
| ProcScan.CollectDetails | tools/pod_resources.py:1311-1367 | A pass over /proc sums exactly the counted entries' pages, counts them, and reports leader and compilers among them |
| ProcScan.CountedMeaning | tools/pod_resources.py:1333-1361 | An entry counts iff it is of the group and its pages could be read; leader and compilers are reported iff a counted entry is one; no counted entry means nothing summed |
| ProcScan.CompilersByName | tools/pod_resources.py:1300-1308 | A name counts iff its lower case contains nvcc, ptxas or g++, is cc1plus or c++, or ends in -c++ |
| Names.SortNames | tools/pod_resources.py:1543 | The compiler names come out strictly ascending in code-point order, none lost or added |
| RssEvidence.ProducerMeetsConsumers | scripts/build-wheel.sh:645-731 | For every run under the build's settings the shell check accepts the evidence iff the run is a complete, unsignalled zero exit with two processes at once and room for the reserve; and so does the validator after the fields were copied |
| RssEvidence.ShellImpliesValidator | scripts/validate-wheel.py:431-598 | Evidence of any run that passes the shell check passes every RSS check of the validator after copying |
| RssEvidence.CompletedRunWasNotKilled | tools/pod_resources.py:1642-1669 | Complete evidence without a forwarded signal never reports a forced kill |
| RssEvidence.RunsTakeTime | tools/pod_resources.py:1605-1669 | Complete evidence reports at least one interval for every sample but the first; a duration below one interval means at most one sample and a nonzero exit |
| RssEvidence.CompleteIsNotPromotable | scripts/validate-wheel.py:559-593 | Completeness alone is not enough: a concrete complete run of a single process, leader and compiler at once and lasting one interval, is refused by both consumers |
| RssEvidence.PositiveSamples | scripts/build-wheel.sh:684-724 | Any sample makes first, last and peak positive and the peak no lower than either |
| RssEvidence.PlainCompilers | scripts/validate-wheel.py:572-579 | The names a run reports are plain compiler file names |
| ShellRelay.RunSupervised | scripts/build-wheel.sh:415-464 | The script reports zero iff no signal ever arrived and the supervisor returned zero, and relays each signal while the supervisor is there |
| Limits.TightestIsOutermostMinimum | tools/pod_resources.py:507-524 | The walk yields the minimum of the host total and all finite limits, at the outermost directory attaining it, or no directory iff every finite limit exceeds a known host total |
| Limits.OutermostMinimumIsUnique | tools/pod_resources.py:507-524 | That property determines bytes and directory |
| Limits.FindEffectiveLimit | tools/pod_resources.py:507-524 | The Python loop computes it |
| Limits.EffectiveLimit | docker/resource-shim/libpodproc.c:550-578 | The flag-based C loop computes the same, leaving the caller's value alone when there is none |
| Resolver.HostMemoryMeaning | tools/pod_resources.py:493-504 | Available memory is MemAvailable raised to 0 and cut to a known total, or without it the sum of free, cached, reclaimable and buffers cut to a known total; used and available add up to a known total |
| Resolver.Inactive | tools/pod_resources.py:567-570 | The credit is the key that counts (inactive_file on v2; total_inactive_file, else inactive_file on v1; else 0), cut to the usage |
| Resolver.CgroupLimitIsLeast | tools/pod_resources.py:839-861 | The limit is no larger than the host total, any finite limit and a v1 inherited bound, exactly unless a v1 zero limit is replaced |
| Resolver.UsageFollowsTheLimit | tools/pod_resources.py:839-861 | Usage is read at the outermost minimal ancestor iff v1 reports no inherited bound that changes the answer |
| Resolver.InheritedBoundMovesUsage | tools/pod_resources.py:855-861 | A concrete chain on which an inherited bound equal to the visible one moves the usage to the leaf |
| Resolver.ZeroLimitIsReplaced | tools/pod_resources.py:855-861 | A concrete chain on which an explicit zero limit is replaced by a positive inherited bound |
| Resolver.AssignmentIsConfirmed | tools/pod_resources.py:637-659 | N is the assignment iff 0 < N < 2^63, the environment is the canonical decimal of N, the receipt is that text with its newline, and a known host total is no smaller |
| Resolver.SnapshotsAreCoherent | tools/pod_resources.py:662-976 | In every snapshot usage, credit and working set add up, free and high bytes fit the capacity, hardness and limit match their sources, the assignment is never exceeded, and headroom is exactly what the working set leaves of a known bound |
| Resolver.TrustHasItsReasons | tools/pod_resources.py:662-976 | In every snapshot the source of capacity says when it applies and what usage means: under an assignment or the host alone usage is the leaf's counter, eligible iff it is a number (no larger than the assignment) and trusted iff in addition membership and mount root are not both the root; under a kernel limit it is the limiting directory's counter; scope, peak mode, credit and the values for unknown usage follow |
| Resolver.HighIsLeast | tools/pod_resources.py:922-924 | The memory.high reported is that of some directory, and no larger than any below the limit and the host total |
| Resolver.AmbiguousRootForcesOneJob | tools/pod_resources.py:714-736 | An assignment at an ambiguous root forces one job, whatever the usage |
| Resolver.ReadCpuQuota | tools/pod_resources.py:1023-1045 | The loop finds the smallest quota as a fraction |
| Resolver.TightestQuota | tools/pod_resources.py:1023-1045 | The quota chosen is one of the chain and limits something |
| Resolver.QuotaIsSmallest | tools/pod_resources.py:1023-1045 | No level of the chain has a smaller fraction or allows fewer whole CPUs |
| Resolver.JobsAreWhole | tools/pod_resources.py:1068-1106 | The CPUs of a quota are the most whole ones it covers, or one |
| Resolver.Smallest | tools/pod_resources.py:1001-1020 | The cpuset count is no larger than any visible one |
| Resolver.CpuWithinEveryBound | tools/pod_resources.py:1068-1106 | The effective count is that of some source and exceeds none, at any level of the hierarchy; times a quota's period it does not exceed the quota, or is one |
| Resolver.PerJob | tools/pod_resources.py:1142-1146 | An argument decides, raised to 1 MiB, else a positive environment value, else 8 GiB |
| Resolver.Reserve | tools/pod_resources.py:1148-1159 | An argument decides, else an environment value from 0 up; else it is the least amount of at least 4 GiB and at least 15% of the capacity |
| Resolver.FallbackIsGenuine | tools/pod_resources.py:680-777 | The RSS fallback is offered iff an assignment applies that no kernel limit undercuts and there is no cgroup or its counter cannot be read; a malformed or excessive counter never qualifies |
| Resolver.JobsCap | tools/pod_resources.py:1165-1176 | One when a single job is forced, else the first positive one of the two environment caps in their order, else the default |
| Resolver.RecommendationIsSafe | tools/pod_resources.py:1130-1189 | Any recommendation above one fits (working set + jobs * configured memory per job + configured reserve <= capacity) iff some bound on memory is known; it exceeds neither CPUs nor cap, needs trustworthy usage under an assignment, and unknown usage means exactly one job; with a bound and usable accounting one job more would exceed CPUs, cap or capacity; job size, reserve and cap reported are the configured ones |
| Resolver.RecommendationFits | tools/pod_resources.py:1130-1189 | The same for any coherent memory snapshot and any CPU count |
| Resolver.JobsWithinMemory | tools/pod_resources.py:1161-1178 | With eligible usage any number of jobs above one fits beside working set and reserve iff it is at most the number derived from memory, and one job iff headroom covers reserve and job |
| Resolver.UnboundedSuggestsJobs | tools/pod_resources.py:1161-1178 | Without any bound a concrete environment gets four jobs that no capacity backs |
| Shim.AssignmentCapacity | docker/resource-shim/libpodproc.c:474-494 | The smaller of receipt and environment, absent iff both are, failure iff either is invalid |
| Shim.CollectSnapshot | docker/resource-shim/libpodproc.c:607-691 | The C code with its flags computes the declarative choice: cgroup bound, assignment only below it, usage at the chosen directory and only within the limit |
| Shim.BoundIsAtMostHost | docker/resource-shim/libpodproc.c:635-651 | The cgroup bound never exceeds the host total |
| Shim.SameAssignment | tools/pod_resources.py:637-659 | An assignment the resolver accepts is read by the shim as the same number |
| Shim.BoundsAgree | docker/resource-shim/libpodproc.c:641-651 | The two cgroup bounds are the same iff no v1 zero limit is replaced |
| Shim.SameChoice | tools/pod_resources.py:662-798 | Outside that case the resolver reports the shim's capacity, directory, usage and credit |
| Shim.DifferentChoice | tools/pod_resources.py:855-861 | In that case the shim's limit is zero and the resolver's capacity is not |
| Shim.ZeroLimitDisagreement | docker/resource-shim/libpodproc.c:641-651 | For every host total and every inherited bound up to it, an idle v1 cgroup limited to that bound below a parent with a zero limit, for which the shim shows limit 0 and the resolver the inherited bound |
| Shim.ShimAgreesWithResolver | docker/resource-shim/libpodproc.c:607-691 | Whenever the shim synthesises and the resolver does not raise, capacities agree iff no v1 zero limit is replaced; then directory, usage and free bytes agree too, and the credit except at an ambiguous root under an assignment, which earns none |
| Decimal.ParseExactCapacity | docker/resource-shim/libpodproc.c:392-419 | The 64-bit digit loop never wraps and accepts exactly what the specification accepts |
| Decimal.ShimAcceptsExactly | docker/resource-shim/libpodproc.c:392-419 | The shim reads N iff 0 < N < 2^60 and the text is the canonical decimal of N (with its newline in the receipt) |
| Decimal.ReadersAgree | tools/pod_resources.py:626-634 | Shim and Python reader read the same number from every receipt text below 2^60 |
| Decimal.ReceiptIsCanonical | tools/pod_resources.py:626-634 | The only text the Python reader takes for N is the receipt printed for N |
| Decimal.ReceiptRoundTrip | tools/runpod_job.py:1182-1195 | The receipt printed for any N below 2^60 is read back as N by both |
| Decimal.DenoteRender | tools/runpod_job.py:1182-1195 | Reading undoes printing |
| Decimal.RenderDenote | docker/resource-shim/libpodproc.c:404-415 | Printing undoes reading for canonical text |
| Decimal.LongTextIsNoCapacity | docker/resource-shim/libpodproc.c:402-403 | Text of more than 20 digits denotes no capacity, so refusing it loses none |
| KernelText.GroupOfStatLine | tools/pod_resources.py:1262-1275 | The process group is recovered from a stat line whatever the command name holds, blanks and ')' included |
| KernelText.AfterLastParenthesis | tools/pod_resources.py:1265-1268 | The fields are what follows the last closing parenthesis |
| KernelText.UnescapeEscape | tools/pod_resources.py:275-280 | Unescaping undoes the kernel's escaping of every path, in Python |
| KernelText.DecodeCEscape | docker/resource-shim/libpodproc.c:212-228 | The same for the decoding C performs |
| KernelText.DecodersDiffer | docker/resource-shim/libpodproc.c:212-228 | On text no kernel prints the decoders differ: C takes decimal digits and cuts to a byte, Python wants octal and keeps the value |
| KernelText.DecodeMountField | docker/resource-shim/libpodproc.c:212-228 | The C loop writes the longest decoded prefix that fits and its terminator, and nothing beyond |
| KernelText.DecodeEscapedPath | docker/resource-shim/libpodproc.c:212-228 | A path shorter than the buffer comes back unchanged |
| Meminfo.LineKey | docker/resource-shim/libpodproc.c:766-777 | The first key that starts the line |
| Meminfo.KeyOfLine | docker/resource-shim/libpodproc.c:766-777 | No two keys can claim one line |
| Meminfo.MeminfoValue | docker/resource-shim/libpodproc.c:580-605 | The pointer loop finds the first line of a key and reads its number as strtoull does, from KiB to bytes |
| Meminfo.RewriteLength | docker/resource-shim/libpodproc.c:797-833 | A rewritten line grows by at most 37 characters |
| Meminfo.OtherLinesAreCopied | docker/resource-shim/libpodproc.c:820-841 | All lines no key starts are copied in order, and no rewritten line looks like one |
| Meminfo.ParseAcrossLines | docker/resource-shim/libpodproc.c:586-596 | A number parse that runs into the following lines meets the same result after rewriting |
| Meminfo.OtherValuesUnchanged | docker/resource-shim/libpodproc.c:580-605 | Every key that is no target parses from the output as from the input |
| Meminfo.TargetValue | docker/resource-shim/libpodproc.c:757-764 | Every target present in the input parses from the output to its value rounded down to KiB |
| Meminfo.ShownValue | docker/resource-shim/libpodproc.c:810-833 | The same for the ten keys and values of the shim |
| Meminfo.ShownAmounts | docker/resource-shim/libpodproc.c:801-833 | From the rewritten text MemTotal reads the limit, MemFree limit - usage, MemAvailable limit - usage + credit, Cached the credit, SwapTotal and SwapFree the swap bound and what is left of it, the other four 0, each in whole KiB |
| Meminfo.AppendBytes | docker/resource-shim/libpodproc.c:747-755 | All or nothing, within the buffer, always terminated |
| Meminfo.AppendKibLine | docker/resource-shim/libpodproc.c:757-764 | Appends the formatted line iff it fits; the line buffer always suffices |
| Meminfo.AppendLine | docker/resource-shim/libpodproc.c:828-833 | One turn of the loop appends the rewritten line |
| Meminfo.Synthesize | docker/resource-shim/libpodproc.c:779-843 | The buffer ends up holding exactly the rewritten text, fails iff it does not fit, never writes outside, and always fits with up to 110 target lines |
| Meminfo.SynthesisIsPossible | docker/resource-shim/libpodproc.c:676-691 | What the shim shows is a possible state: credit <= usage <= limit <= host total |
| Meminfo.DisplayedOrder | docker/resource-shim/libpodproc.c:801-819 | free <= available <= total |
| Meminfo.ShownOrder | docker/resource-shim/libpodproc.c:757-764 | Ordered values are shown as ordered numbers |
| Promotion.CapacityFailures | scripts/build-wheel.sh:242-274 | No failure iff the capacity is large enough, assigned and named by one consistent bound |
| Promotion.RssFailures | scripts/build-wheel.sh:287-315 | No failure iff accounting is genuinely unavailable under an exact, recommended-size assignment, one job is forced and no override is set |
| Promotion.PeakFailures | scripts/build-wheel.sh:277-328 | No failure iff a peak can be shown in the snapshot's mode; tight headroom is reported separately |
| Promotion.Preflight | scripts/build-wheel.sh:234-364 | Hard failures are empty iff the snapshot is clean; the build goes on iff it is, and headroom suffices or is overridden |
| Promotion.MemoryIsSound | tools/pod_resources.py:662-976 | What every memory snapshot under an assignment satisfies, in all three modes |
| Promotion.ResolvedIsSound | tools/pod_resources.py:1192-1252 | The same for whole snapshots |
| Promotion.PreflightOfResolved | scripts/build-wheel.sh:234-364 | On resolver snapshots no consistency check of the preflight can fail: hard failures are empty iff assignment, capacity, CPUs, mode, overrides and disks suffice |
| Promotion.SnapshotOfResolved | scripts/validate-wheel.py:118-269 | The validator's whole per-snapshot block accepts a resolver snapshot iff it is sufficient and has a Runpod vCPU count |
| Promotion.ExportCap | scripts/build-wheel.sh:183-196 | MAX_JOBS is refused iff malformed or above the reviewed cap without the override |
| Promotion.SelectParallelism | scripts/build-wheel.sh:367-388 | A forced single job gives (1, 1); otherwise the chosen values are positive, MAX_JOBS or the suggestion, and the extension cap holds without the override |
| Promotion.SelectionFits | scripts/build-wheel.sh:367-388 | Whatever was selected fits beside working set and reserve iff, for several jobs, it is at most the number derived from memory and, for one job, headroom is not tight |
| Promotion.EndIsSufficient | scripts/build-wheel.sh:743-761 | A bound end snapshot is sufficient iff its CPUs still reach the minimum |
| Promotion.KernelBuildIsPromoted | scripts/validate-wheel.py:92-430 | A cgroup-mode build through preflight, binding and peak checks is accepted iff its vCPU assignment is known and unchanged and the end CPUs reach the minimum (its snapshots being sound, as all resolver snapshots are) |
| Promotion.SampledBuildIsPromoted | scripts/validate-wheel.py:92-598 | The same for a build that sampled its process group, for every supervisor run the script accepted, iff in addition the reserve is positive and reserve and job size did not change |
| Promotion.ResolvedBuildsArePromoted | scripts/build-wheel.sh:738-960 | For any two resolver runs with the same reserve and job-size tuning, whatever became of MAX_JOBS between them, a build with kernel accounting is accepted iff the vCPU assignment is known and unchanged and the end CPUs reach the minimum; a sampled build iff in addition the reserve is positive, which the default reserve is |
| Promotion.SameTuningSamePolicy | tools/pod_resources.py:1137-1159 | The same reserve and job-size tuning gives the same reserve and job size for one capacity, and the default reserve is at least 4 GiB; caps on jobs play no part |
| Promotion.ValidateResourceEvidence | scripts/validate-wheel.py:92-598 | The validator's loops over snapshots and fields accept iff all requirements hold, and what is accepted guarantees one assignment and capacity at both ends above the minimum, CPUs within the assignment, a measured peak within the capacity and, with untrusted usage, one job |
| Promotion.CheckBoundFields | scripts/validate-wheel.py:273-291 | The loop over the bound fields passes iff both ends have one policy |
| Promotion.AcceptedIsGuaranteed | scripts/validate-wheel.py:92-598 | Whoever wrote the evidence, acceptance guarantees what the run was promoted for |
| Binding.GigabytesAreBytes | tools/runpod_job.py:997-1004 | A number of gigabytes is accepted as N bytes iff N is positive and it is exactly N / 10^9; comparing with a minimum in gigabytes is comparing bytes |
| Protocol.Judge | tools/runpod_job.py:1037-1135 | Acceptance yields an assignment iff the Pod builds; a misplacement to retry is exactly a GPU Pod with the right image that is not accepted |
| Lifecycle.Timeout | tools/runpod_job.py:77-84 | None iff the deadline has passed; otherwise the time left, or with a cap of at least 100 ms the time left raised to 100 ms and cut to the cap |
| Lifecycle.TimeoutOverrun | tools/runpod_job.py:80-84 | A timeout outlives the deadline by less than 100 ms, and iff it is capped and less than 100 ms were left |
| Lifecycle.Bounded | tools/runpod_job.py:80-84 | A call is made iff time is left, takes no longer than its cap and ends less than 100 ms after the deadline, plus lateness; otherwise the time it was refused is on record and the job has ended |
| Lifecycle.AskStatus | tools/runpod_job.py:957-963 | Goes on only after a non-terminal status; otherwise the terminal status, the missing answer or the missing time is on record as the cause that ended the job; at most 30 s |
| Lifecycle.ProbeAddress | tools/runpod_job.py:964-965 | Records exactly the probe that was made, or why there was none, as the cause that ended the job; at most 15 s |
| Lifecycle.PollOnce | tools/runpod_job.py:957-970 | An endpoint is found only by a non-terminal status directly followed by a successful probe; it gives up only with a cause on record |
| Lifecycle.PollAndPause | tools/runpod_job.py:957-971 | Polling goes on only after one status and a pause of the poll interval, at least 100 ms, cut to the deadline |
| Lifecycle.WaitForSsh | tools/runpod_job.py:944-971 | Returns only an endpoint just probed in a non-terminal status; the statuses in the trace are a poll interval (at least 100 ms) apart, so their number is bounded by the time taken and by the time that was left; without an endpoint a cause is on record |
| Lifecycle.TerminateStrictly | tools/runpod_job.py:1138-1156 | Deleted, or exactly three failed deletes with pauses between; at most 64 s |
| Lifecycle.CreatePod | tools/runpod_job.py:1287-1303 | The outcome of one create, or that there was no time for it, is on record as it was; at most 120 s |
| Lifecycle.VerifyAssignment | tools/runpod_job.py:1029-1135 | The verdict recorded is the judgement of the details read back, for the GPU id asked for; a refusal or a missing answer ends the job on record |
| Lifecycle.TryPlacement | tools/runpod_job.py:1287-1327 | One attempt: full, absent, stuck, misplaced or placed, each with its exact effect on the protocol; absent and stuck with a cause on record |
| Lifecycle.TryCandidate | tools/runpod_job.py:1275-1353 | The next candidate is tried only after missing capacity, or after a misplaced Pod was confirmed deleted |
| Lifecycle.TryRound | tools/runpod_job.py:1264-1355 | A round tries every candidate in order and knows whether only capacity was missing |
| Lifecycle.PlaceGpu | tools/runpod_job.py:1261-1364 | The second round is entered only after a first round of capacity failures; an exhausted fallback left no candidate out and no other cause; it starts no earlier than 5 s later or at the deadline |
| Lifecycle.PlaceCpu | tools/runpod_job.py:1235-1260 | A single attempt |
| JobRun.UploadRepo | tools/runpod_job.py:757-811 | Archive, directory, copy and unpacking in order to the verified Pod's endpoint, under their caps; it fails exactly with the failed step or the missing time on record |
| JobRun.DoUploadStep | tools/runpod_job.py:757-811 | One step within its own cap, recorded with its number and outcome |
| JobRun.RunScript | tools/runpod_job.py:813-829 | One command under the deadline, with the exports of the selected Pod and the next number; its failure or the missing time is on record as the end of the job |
| JobRun.RunCommands | tools/runpod_job.py:1381-1426 | Commands run in order with the selected Pod's exports; fewer than all ran iff it failed |
| JobRun.DownloadArtifacts | tools/runpod_job.py:831-894 | Fetched, a missing artifact or another failure, each with the packing, copy or missing time that says so on record; the archive is removed whatever became of the copy; ends at most 1.1 s after the deadline, plus lateness |
| JobRun.PackArtifacts | tools/runpod_job.py:838-856 | Packed, missing or failed as the Pod answered, or failed for want of time; at most 600 s |
| JobRun.CopyArtifacts | tools/runpod_job.py:858-883 | Copied or not, or no time for it, as recorded; at most 900 s |
| JobRun.RemoveArchive | tools/runpod_job.py:884-894 | The remote archive's removal is tried for 1 to 30 s and changes nothing else |
| JobRun.Work | tools/runpod_job.py:1366-1426 | Upload and commands on the selected Pod; all commands succeeded iff it reports so, and else the cause is on record |
| JobRun.GiveUp | tools/runpod_job.py:1427-1454 | Without a selection the remaining Pod is deleted or reported |
| JobRun.FetchArtifacts | tools/runpod_job.py:1429-1441 | A download is tried iff files were uploaded, artifacts are wanted and more than 1 s is left; a skipped one is recorded with its time |
| JobRun.Conclude | tools/runpod_job.py:1427-1484 | Download unless nothing was uploaded or at most 1 s is left, deletion and report as the run's contract demands |
| JobRun.RunJob | tools/runpod_job.py:1204-1484 | For every behaviour of API, SSH and clock the trace obeys the protocol; the Pod is deleted, or its deletion failed three times and is reported; job error iff an event on record ended the job, a misplaced Pod did not go away, or every candidate was used up, and iff not all commands succeeded; artifact error iff the download failed for more than an artifact missing after a job error; a result means all succeeded in order, the uploaded-to Pod and last GPU id are returned, and artifacts were downloaded unless at most 1 s was left when that was decided; the run ends by hard timeout plus 128.1 s (65.1 s after an upload) plus lateness |
| RunCauses.JobErrorsHaveCauses | tools/runpod_job.py:1204-1484 | A run reports a job error iff its trace holds a cause: a fatal answer, a missing answer or missing time, a misplaced Pod whose deletion failed three times, or every candidate full or rejected |
| RunCauses.FineRunsSucceed | tools/runpod_job.py:1366-1484 | If every answer of a run is fine the run returns its result |
| RunCauses.TimeWasUp | tools/runpod_job.py:80-84 | Whenever a run says that no time was left for a call, the hard timeout had passed |
| RunCauses.LiveOrRejected | tools/runpod_job.py:1313-1347 | Until the job ends, every Pod but the live one was found misplaced and then deleted |
| RunCauses.UndeletableIsOnRecord | tools/runpod_job.py:1328-1341 | A job ends for an undeletable Pod only if the last one was found misplaced and three deletes of it failed |
| RunCauses.WorkIsNotUsedUp | tools/runpod_job.py:1360-1365 | A command that ran rules out that the candidates were used up |
| RunCauses.FetchIsOnRecord | tools/runpod_job.py:831-894 | The download counts as done iff packing and copy succeeded on record, as missing iff the packing said so, as failed iff a call of it failed or had no time |
| RunCauses.ArchiveIsRemoved | tools/runpod_job.py:884-894 | The remote archive is removed iff it was packed, whatever became of the copy |
| LifecycleRuns.AllowedAt | tools/runpod_job.py:1226-1426 | Every call of a run was allowed by the calls before it |
| LifecycleRuns.EarlierPodsAreDeleted | tools/runpod_job.py:1263-1353 | At every create each Pod id returned earlier was confirmed deleted in between |
| LifecycleRuns.WorkReachesTheVerifiedPod | tools/runpod_job.py:1366-1426 | Upload, commands and download only reach the Pod created for the last GPU id, probed at that endpoint and then verified, with nothing created or deleted since; commands carry the CPU and memory that were read back |
| LifecycleRuns.NoCreateAfterUpload | tools/runpod_job.py:1366-1426 | No create follows the start of an upload |
| LifecycleRuns.CreatesFollowTheCandidates | tools/runpod_job.py:1263-1364 | The GPU ids of the creates are a prefix of candidates ++ candidates; the second copy only after a round of capacity failures; any other create failure ends the sequence |
| LifecycleRuns.CreatesAreCounted | tools/runpod_job.py:1263-1364 | The counters the protocol decides on are those of the trace |
| LifecycleRuns.CommandsRunInOrder | tools/runpod_job.py:1383-1426 | The successful commands are numbered in order without gaps |
| LifecycleRuns.FailedDeletesAreCounted | tools/runpod_job.py:1138-1156 | The failed deletes counted are those of the live Pod since it was created |
| LifecycleRuns.EveryPodIsAccountedFor | tools/runpod_job.py:1442-1477 | On every exit each Pod id ever returned was confirmed deleted, or had at least three failed deletes and is reported |
| LifecycleRuns.CleanupPrecedesThePlatform | tools/runpod_job.py:1228-1234 | A terminate grace of 129.099 s plus lateness makes cleanup precede the platform's deadline |
| LifecycleRuns.LatestRun | tools/runpod_job.py:1287-1353 | A run of the placement steps, none of them late, whose second cleanup pass ends 128.099 s after its hard timeout |
| LifecycleRuns.GraceThreshold | tools/runpod_job.py:1228-1234 | Of the accepted graces, exactly those of at least 129.099 s make cleanup precede the platform's deadline in every run in which nothing is late; below it some run of the placement's own moves misses it |
| LifecycleRuns.GraceInSeconds | tools/runpod_job.py:213-214 | Given in whole seconds: exactly those of at least 130 s |
| Binding.AcceptedAssignment | tools/runpod_job.py:1037-1135 | A build assignment is accepted iff image, placement, CPU, decimal memory, disk and volume are as requested, and it is exactly what was read back |
| Binding.AcceptedGpu | tools/runpod_job.py:1050-1063 | A GPU Pod that does not build is accepted iff its image and its exact GPU type are as requested |
| Binding.ReceiptBindsAssignment | tools/runpod_job.py:1386-1402 | Receipt and export of a verified assignment are accepted as that number by resolver and shim, unless the host is smaller |
| Binding.SnapshotIsBound | tools/pod_resources.py:1192-1252 | Under those exports the resolver reports exactly that memory and vCPU count and exceeds neither |
| Binding.SmallAssignmentFailsPreflight | scripts/build-wheel.sh:242-247 | An assignment below the matrix minimum in GiB passes no preflight |
| Binding.ThirtyTwoGigabytesAreTooSmall | tools/runpod_job.py:1068-1074 | Verified with a minimum of 32 GB, whole gigabytes are below 32 GiB iff they are fewer than 35 |
| Binding.MinimaHaveToAgree | tools/runpod_job.py:1068-1074 | Every assignment that verification accepts reaches the matrix minimum iff the request's decimal minimum in bytes does |
| Binding.ThirtyFiveGigabytesAreNeeded | scripts/build-wheel.sh:242-247 | For a matrix minimum of 32 GiB: iff the request asks for at least 35 GB |
| Manifest.Admit | scripts/merge-manifests.py:91-100 | An artifact is admitted iff complete and clashing with none before |
| Manifest.AdmitNext | scripts/merge-manifests.py:91-104 | List and sets stay consistent |
| Manifest.AddArtifacts | scripts/merge-manifests.py:91-104 | All artifacts of a manifest, or a prefix that is at fault |
| Manifest.AddManifest | scripts/merge-manifests.py:90-104 | A turn of the outer loop, or nothing can be merged |
| Manifest.ClashesOver | scripts/merge-manifests.py:91-100 | Two artifacts clash iff they share the asset, the build id or all five fields of the tuple |
| Manifest.Merge | scripts/merge-manifests.py:85-107 | Succeeds iff every manifest loads and no two artifacts clash, with exactly all artifacts in key order |
| Manifest.SortByKey | scripts/merge-manifests.py:106 | Sorted by tuple and asset, a permutation |
| Manifest.PrecedesByField | scripts/merge-manifests.py:106 | The order is by Python tag, ABI, platform, Torch, CUDA and asset, in this order |
| Manifest.NoClashInAnyOrder | scripts/merge-manifests.py:95-100 | Whether artifacts clash does not depend on their order |
| Manifest.OneSortedOrder | scripts/merge-manifests.py:106 | Artifacts without clashes have only one order by key |
| Manifest.MergeIgnoresOrder | scripts/merge-manifests.py:85-107 | Success, failure and the list are the same for every permutation of the inputs |
| Manifest.MergedIsGenuine | scripts/merge-manifests.py:43-67 | Every merged artifact comes from an input that holds a wheel of that plain name, digest and size, listed in its checksum file if there is one |
| Manifest.OneMatch | scripts/select-wheel.py:86-100 | At most one artifact of a list without clashes matches an environment |
| Manifest.SelectsTheMatch | scripts/select-wheel.py:86-132 | Over a list without clashes an artifact is selected iff all six fields are the environment's, it supports every visible GPU and has a digest and a plain wheel name |
| Manifest.SelectionFindsTheInput | scripts/select-wheel.py:86-132 | Over a merged manifest no environment has two matches, and selection gives what it gives over the one input that holds the match, or nothing if none does |
| Manifest.MergedOutputLoads | scripts/merge-manifests.py:63-67 | The merged output could be merged again iff its checksum lines, kept in tuple order, are sorted |
| Manifest.MergedOutputMayNotLoad | scripts/merge-manifests.py:123-128 | A concrete merge of two builds whose lines are not |

## Left out

- Supervisor.Supervise: a run that never ends and is never signalled is cut short after `patience` turns (outcome StillRunning, which then has taken at least that many scans); every run that forwarded a signal is followed to its end.
- Supervisor as an object: the source keeps its counters in local variables of one function and updates them from closures; here they are one value passed from step to step, so aliasing between closures is not modelled.
- Signals that arrive between reading the request and acting on it inside one step are seen at the next step; signals during interpreter start-up and handler restoration are not modelled.
- A clock that goes backwards, and rounding of floating-point seconds: times are integers.
- JobRun.RunJob: Pods created remotely whose id never came back, and exceptions outside `Exception` such as KeyboardInterrupt, are outside the trace.
- JobRun.CopyArtifacts: the copy and the extraction are one answer; a failure to create the local directory or file before the copy, which leaves the remote archive behind, is not modelled.
- Protocol.Judge: decimal precision beyond 28 digits and the JSON shapes the details come in.
- Validation of job specifications, requests and paths, archive creation and extraction, and the classification of capacity messages are oracle outcomes.
- Resolver.CollectResources: path mapping, mount and membership parsing and `locate_cgroup` are replaced by the located chain; files are read at one instant; keys of memory.stat and meminfo occur once.
- Resolver.AssignedCapacity: ownership, mode and link checks of the receipt are one outcome (missing or unsafe).
- Swap accounting in both languages, quota_cores as a rounded float, limiting_sources and warnings texts.
- Shim.ShimAgreesWithResolver: a receipt without its environment value counts for the shim only, so agreement is stated for both or neither.
- Shim.CollectSnapshot: memory allocation failure, truncated paths and buffers, and the open hooks.
- Meminfo.MeminfoValue: the label is passed with its colon, and a text holds no NUL character.
- Python `int()` leniency (signs, underscores, non-ASCII digits) in stat, limit and environment fields.
- Promotion.Preflight: matrix minima are integers, as the matrix and the validator have them, and failure messages are tags.
- Promotion.ValidateResourceEvidence: JSON typing (missing keys, booleans as integers, unexpected fields) is replaced by typed records; wheel metadata, hashes and cubin checks are not modelled.
- Manifest.Merge: reading files and hashing are the `wheels` map of an input; JSON output is the list itself.
- Manifest.SortByKey: the library sort is modelled as an insertion sort with the same specification.
- Download, installation and GPU runtime validation of a selected wheel.

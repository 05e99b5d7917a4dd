/**
 From the orchestrator's verification to the resolver inside the Pod: the
 receipt and the exports of a verified assignment, and what they bind.
 */
module Binding {
  import opened Prelude
  import opened Decimal
  import opened Resolver
  import Protocol
  import Promotion
  import Shim

  /** `verify_pod_assignment` gives a build assignment exactly to a Pod that is what was asked for. */
  lemma AcceptedAssignment(r: Protocol.Request, gpuId: string, d: Protocol.Details, x: Protocol.Assignment)
    ensures Protocol.Judge(r, gpuId, d) == Protocol.Accepted(Some(x))
            <==> && r.Builds() && d.imageMatches
                 && (if r.gpu then d.gpuIds != [] && forall g :: g in d.gpuIds ==> g == gpuId else d.flavorMatches)
                 && d.cpus == Some(x.cpus) && x.cpus >= r.minimumCpus
                 && x.bytes > 0 && x.bytes as real >= r.minimumGb as real * 1_000_000_000.0
                 && d.memoryGb.Some? && d.memoryGb.value * 1_000_000_000.0 == x.bytes as real
                 && d.disk.Some? && d.disk.value >= r.minimumDisk && d.volume == Some(0)
  {
    if d.memoryGb.Some? { GigabytesAreBytes(d.memoryGb.value, x.bytes, r.minimumGb); }
  }

  /** A GPU Pod that does not build is accepted for its image and its exact GPU type alone. */
  lemma AcceptedGpu(r: Protocol.Request, gpuId: string, d: Protocol.Details)
    ensures Protocol.Judge(r, gpuId, d) == Protocol.Accepted(None)
            <==> && r.gpu && !r.buildWorkload && d.imageMatches
                 && d.gpuIds != [] && forall g :: g in d.gpuIds ==> g == gpuId
  {
  }

  lemma FloorOfWhole(scaled: real, bytes: nat)
    ensures scaled == bytes as real <==> scaled.Floor == bytes && scaled.Floor as real == scaled
  {
  }

  lemma GigabytesAreBytes(gb: real, bytes: nat, minimum: nat)
    ensures Protocol.MemoryBytes(Some(gb)) == Some(bytes) <==> bytes > 0 && gb * 1_000_000_000.0 == bytes as real
    ensures gb * 1_000_000_000.0 == bytes as real ==>
              (gb >= minimum as real <==> bytes as real >= minimum as real * 1_000_000_000.0)
  {
    FloorOfWhole(gb * 1_000_000_000.0, bytes);
  }

  /** The exports and the receipt of an assignment are accepted inside the Pod, unless the host is smaller. */
  lemma ReceiptBindsAssignment(bytes: nat, hostTotal: nat)
    requires 0 < bytes < UNLIMITED
    ensures AssignedCapacity(Some(Render(bytes)), Some(ReceiptText(bytes)), hostTotal)
            == if hostTotal > 0 && bytes > hostTotal then Refused else Assigned(bytes)
    ensures Shim.SmallerCapacity(
              Shim.ReceiptCapacity(Shim.Holds(ReceiptText(bytes))), Shim.EnvironmentCapacity(Some(Render(bytes))))
            == Shim.Valid(bytes)
  {
    ReceiptRoundTrip(bytes);
    DenoteRender(bytes);
    ShimAcceptsExactly(Render(bytes), false, bytes);
  }

  /**
   A resolver that runs under the exports of a verified assignment reports
   exactly that memory and those CPUs, and exceeds neither.
   */
  lemma SnapshotIsBound(e: Environment, x: Protocol.Assignment)
    requires e.Valid() && CollectResources(e).Some?
    requires 0 < x.bytes < UNLIMITED && x.cpus > 0
    requires e.assignment == Some(Render(x.bytes)) && e.receipt == Some(ReceiptText(x.bytes))
             && e.cpu.runpod == Some(x.cpus)
    ensures var s := CollectResources(e).value;
            && s.memory.verified == Some(x.bytes) && s.memory.capacity <= x.bytes
            && s.cpu.runpod == Some(x.cpus) && s.cpu.effective <= x.cpus
  {
    var host := ReadHostMemory(e.meminfo);
    ReceiptBindsAssignment(x.bytes, host.total);
    SnapshotsAreCoherent(e.meminfo, e.location, Assigned(x.bytes));
    CpuWithinEveryBound(e.cpu);
  }

  /**
   Verification counts in decimal gigabytes and the preflight in gibibytes: an
   assignment below the matrix minimum passes no preflight, whatever verification said.
   */
  lemma SmallAssignmentFailsPreflight(
    s: Snapshot, bytes: nat, matrix: Promotion.Matrix, disks: seq<nat>, minimumDisk: nat,
    overrides: Promotion.Overrides)
    requires Promotion.Resolved(s) && matrix.Valid() && s.memory.verified == Some(bytes)
    requires bytes < matrix.MinimumBytes()
    ensures !Promotion.Clean(s, matrix, disks, minimumDisk, overrides)
  {
    Promotion.ResolvedIsSound(s);
  }

  /** The minima of 32 are of different units: 32 to 34 whole gigabytes are verified and still too small, 35 suffice. */
  lemma ThirtyTwoGigabytesAreTooSmall(
    gb: nat, r: Protocol.Request, gpuId: string, d: Protocol.Details, x: Protocol.Assignment)
    requires r.minimumGb == 32 && d.memoryGb == Some(gb as real)
    requires Protocol.Judge(r, gpuId, d) == Protocol.Accepted(Some(x))
    ensures gb >= 32 && x.bytes == gb * 1_000_000_000
    ensures x.bytes < Promotion.Matrix(4, 32, 64).MinimumBytes() <==> gb < 35
  {
    AcceptedAssignment(r, gpuId, d, x);
    assert gb as real * 1_000_000_000.0 == (gb * 1_000_000_000) as real;
  }

  /** Every assignment verification accepts reaches the matrix minimum. */
  ghost predicate VerificationSuffices(r: Protocol.Request, m: Promotion.Matrix) {
    forall gpuId, d, x :: Protocol.Judge(r, gpuId, d) == Protocol.Accepted(Some(x)) ==> x.bytes >= m.MinimumBytes()
  }

  /** The smallest Pod a request accepts: at its minimum, or a single byte if it asks for none. */
  function SmallestPod(r: Protocol.Request, gpuId: string): Protocol.Details {
    Protocol.Details(
      true, true, [gpuId], Some(r.minimumCpus),
      Some(if r.minimumGb > 0 then r.minimumGb as real else 0.000000001), Some(r.minimumDisk), Some(0))
  }

  lemma SmallestPodIsAccepted(r: Protocol.Request, gpuId: string)
    requires r.Builds()
    ensures Protocol.Judge(r, gpuId, SmallestPod(r, gpuId))
            == Protocol.Accepted(Some(
                 Protocol.Assignment(r.minimumCpus, if r.minimumGb > 0 then r.minimumGb * 1_000_000_000 else 1)))
  {
    var bytes := if r.minimumGb > 0 then r.minimumGb * 1_000_000_000 else 1;
    GigabytesAreBytes(SmallestPod(r, gpuId).memoryGb.value, bytes, r.minimumGb);
    AcceptedAssignment(r, gpuId, SmallestPod(r, gpuId), Protocol.Assignment(r.minimumCpus, bytes));
  }

  /** Verification reaches the minimum of the matrix exactly if the request's decimal minimum, in bytes, does. */
  lemma MinimaHaveToAgree(r: Protocol.Request, m: Promotion.Matrix)
    requires r.Builds() && m.Valid()
    ensures VerificationSuffices(r, m) <==> r.minimumGb * 1_000_000_000 >= m.MinimumBytes()
  {
    forall gpuId, d, x | Protocol.Judge(r, gpuId, d) == Protocol.Accepted(Some(x))
      ensures x.bytes >= r.minimumGb * 1_000_000_000
    {
      AcceptedAssignment(r, gpuId, d, x);
    }
    SmallestPodIsAccepted(r, "");
  }

  /** Its instance for a matrix minimum of 32 GiB: the request has to ask for 35 GB. */
  lemma ThirtyFiveGigabytesAreNeeded(r: Protocol.Request, m: Promotion.Matrix)
    requires r.Builds() && m.Valid() && m.minimumGib == 32
    ensures VerificationSuffices(r, m) <==> r.minimumGb >= 35
  {
    MinimaHaveToAgree(r, m);
  }
}

/**
 The C shim's own resolution of the memory a container may use, and its
 agreement with the Python resolver.
 */
module Shim {
  import opened Prelude
  import opened Limits
  import opened Decimal
  import opened Resolver

  /** The receipt file: absent, present but unsafe, or a safe file with this text. */
  datatype ReceiptFile = Missing | Unsafe | Holds(text: string)

  /** `enum optional_capacity_state` with its value. */
  datatype Capacity = Absent | Valid(bytes: nat) | Invalid

  function OfText(value: Option<nat>): Capacity {
    if value.Some? then Valid(value.value) else Invalid
  }

  function ReceiptCapacity(file: ReceiptFile): Capacity {
    match file
    case Missing => Absent
    case Unsafe => Invalid
    case Holds(text) => OfText(ShimCapacity(text, true))
  }

  function EnvironmentCapacity(env: Option<string>): Capacity {
    if env.None? then Absent else OfText(ShimCapacity(env.value, false))
  }

  /** The smaller of the capacities that are present; Invalid if either is. */
  function SmallerCapacity(receipt: Capacity, environment: Capacity): Capacity {
    if receipt.Invalid? || environment.Invalid? then Invalid
    else if receipt.Absent? then environment
    else if environment.Absent? then receipt
    else Valid(Min(receipt.bytes, environment.bytes))
  }

  method AssignmentCapacity(file: ReceiptFile, env: Option<string>) returns (ok: bool, value: nat, present: bool)
    ensures ok <==> !SmallerCapacity(ReceiptCapacity(file), EnvironmentCapacity(env)).Invalid?
    ensures ok && present ==> SmallerCapacity(ReceiptCapacity(file), EnvironmentCapacity(env)) == Valid(value)
    ensures ok && !present ==> SmallerCapacity(ReceiptCapacity(file), EnvironmentCapacity(env)) == Absent
  {
    ok, value, present := false, 0, false;
    var receipt, environment := ReceiptCapacity(file), EnvironmentCapacity(env);
    if receipt.Invalid? || environment.Invalid? { return; }
    ok := true;
    present := receipt.Valid? || environment.Valid?;
    if !present { return; }
    if receipt.Valid? && environment.Valid? {
      value := if receipt.bytes < environment.bytes then receipt.bytes else environment.bytes;
    } else {
      value := if receipt.Valid? then receipt.bytes else environment.bytes;
    }
  }

  /** `struct memory_snapshot` without its swap fields; `level` is the directory its usage was read from. */
  datatype Picture = Picture(hostTotal: nat, limit: nat, current: nat, inactive: nat, level: nat)

  /** The cgroup bound: in C an inherited v1 bound replaces the visible one only if it is no larger. */
  function CgroupBound(l: Location, host: nat): (t: Tight)
    requires l.Valid()
    ensures t.source.Some? ==> t.source.value < |l.dirs|
    ensures t.source.None? ==> t.bytes == host
  {
    var found := Tightest(l.Limits(), host);
    var h := l.dirs[0].hierarchical;
    if l.version == 1 && h.Some? && 0 < h.value < UNLIMITED && h.value <= found.bytes then Tight(h.value, Some(0))
    else found
  }

  function Usage64(r: Reading): Option<nat> {
    if r.Number? && 0 <= r.value < U64_RANGE then Some(r.value) else None
  }

  /** The capacity and the level of its usage; the assignment counts only below host and cgroup bound. */
  function Choice(l: Location, host: nat, assignment: Capacity): (t: Tight)
    requires l.Valid()
    ensures t.source.Some? ==> t.source.value < |l.dirs|
  {
    var bound := CgroupBound(l, host);
    if assignment.Valid? && assignment.bytes < bound.bytes then Tight(assignment.bytes, Some(0))
    else if bound.source.None? && assignment.Valid? then Tight(host, Some(0))
    else bound
  }

  /** What the shim shows, or None when every reader sees the real file. */
  function Synthesis(l: Location, host: nat, file: ReceiptFile, env: Option<string>): Option<Picture>
    requires l.Valid()
  {
    var assignment := SmallerCapacity(ReceiptCapacity(file), EnvironmentCapacity(env));
    var choice := Choice(l, host, assignment);
    if host == 0 || assignment.Invalid? || choice.source.None? then None
    else
      var d := l.dirs[choice.source.value];
      var usage := Usage64(d.usage);
      if usage.None? || usage.value > choice.bytes then None
      else Some(Picture(host, choice.bytes, usage.value, Inactive(l.version, d, usage.value), choice.source.value))
  }

  /** `collect_snapshot`, with the flags of the C code. */
  method CollectSnapshot(l: Location, hostTotal: nat, file: ReceiptFile, env: Option<string>)
    returns (snapshot: Option<Picture>)
    requires l.Valid()
    ensures snapshot == Synthesis(l, hostTotal, file, env)
  {
    if hostTotal == 0 { return None; }
    var cgroupSource, cgroupLimit, limitSource := EffectiveLimit(l.Limits(), hostTotal, hostTotal);
    if l.version == 1 {
      var h := l.dirs[0].hierarchical;
      if h.Some? && h.value > 0 && h.value < UNLIMITED && h.value <= cgroupLimit {
        cgroupSource, cgroupLimit, limitSource := true, h.value, 0;
      }
    }
    var ok, assignedLimit, assignmentSource := AssignmentCapacity(file, env);
    if !ok { return None; }
    if !cgroupSource && !assignmentSource { return None; }

    var limit := hostTotal;
    var usageSource: Option<nat> := None;
    if cgroupSource && cgroupLimit < limit {
      limit := cgroupLimit;
      usageSource := Some(limitSource);
    }
    if assignmentSource && assignedLimit < limit {
      limit := assignedLimit;
      usageSource := Some(0);
    }
    if usageSource.None? {
      usageSource := if cgroupSource then Some(limitSource) else Some(0);
    }
    BoundIsAtMostHost(l, hostTotal);
    var directory := l.dirs[usageSource.value];
    var current := Usage64(directory.usage);
    if current.None? || current.value > limit { return None; }
    snapshot := Some(Picture(
      hostTotal, limit, current.value, Inactive(l.version, directory, current.value), usageSource.value));
  }

  lemma BoundIsAtMostHost(l: Location, host: nat)
    requires l.Valid() && host > 0
    ensures CgroupBound(l, host).bytes <= host
  {
    TightestIsOutermostMinimum(l.Limits(), host);
  }

  /** The case in which the resolver replaces an explicit limit of zero and the shim does not. */
  predicate ZeroLimitReplaced(l: Location, host: nat)
    requires l.Valid()
  {
    var h := l.dirs[0].hierarchical;
    l.version == 1 && h.Some? && 0 < h.value < UNLIMITED && Tightest(l.Limits(), host).bytes == 0
  }

  /** What the Python reader sees of the same receipt. */
  function Readable(file: ReceiptFile): Option<string> {
    if file.Holds? then Some(file.text) else None
  }

  /** Whatever assignment the resolver accepts, the shim reads as the same number. */
  lemma SameAssignment(file: ReceiptFile, env: Option<string>, host: nat)
    requires env.None? ==> file.Missing?
    requires !AssignedCapacity(env, Readable(file), host).Refused?
    requires !SmallerCapacity(ReceiptCapacity(file), EnvironmentCapacity(env)).Invalid?
    ensures SmallerCapacity(ReceiptCapacity(file), EnvironmentCapacity(env))
            == match AssignedCapacity(env, Readable(file), host)
               case Assigned(bytes) => Valid(bytes)
               case _ => Absent
  {
    if env.Some? {
      var n := ShimCapacity(env.value, false).value;
      ReadersAgree(file.text, n);
      ShimAcceptsExactly(env.value, false, n);
    }
  }

  /** The assignment as the shim sees it. */
  function AsCapacity(a: Assignment): Capacity {
    if a.Assigned? then Valid(a.bytes) else Absent
  }

  /** The two bounds of the cgroup alone differ exactly where a zero limit is replaced. */
  lemma BoundsAgree(l: Location, host: nat)
    requires l.Valid() && host > 0
    ensures ZeroLimitReplaced(l, host) ==> CgroupBound(l, host).bytes == 0 < CgroupLimit(l, host).bytes
    ensures !ZeroLimitReplaced(l, host) ==> CgroupBound(l, host) == CgroupLimit(l, host)
  {
  }

  /** The resolver makes the shim's choice, if the directory chosen by the shim has a usage within the capacity. */
  lemma SameChoice(l: Location, host: Host, a: Assignment)
    requires l.Valid() && host.total > 0 && !a.Refused? && (a.Assigned? ==> 0 < a.bytes <= host.total)
    requires !ZeroLimitReplaced(l, host.total)
    requires var c := Choice(l, host.total, AsCapacity(a));
             && c.source.Some? && Usage64(l.dirs[c.source.value].usage).Some?
             && Usage64(l.dirs[c.source.value].usage).value <= c.bytes
    ensures var c := Choice(l, host.total, AsCapacity(a));
            var m := ApplyAssigned(CollectMemory(host, Some(l)), Some(l), a).value;
            var current := Usage64(l.dirs[c.source.value].usage).value;
            var inactive := Inactive(l.version, l.dirs[c.source.value], current);
            && m.capacity == c.bytes && m.usageSource == CgroupDir(l.version, c.source.value)
            && m.usageCurrent == Some(current) && m.current == current && m.free == c.bytes - current
            && if m.scope.AmbiguousCgroupRoot? then m.inactive == 0 && m.capacitySource.RunpodAssignment?
               else m.inactive == inactive && m.available == c.bytes - (current - inactive)
  {
    BoundsAgree(l, host.total);
    BoundIsAtMostHost(l, host.total);
  }

  /** A zero limit leaves the shim nothing to show but zero, and the resolver a capacity above it. */
  lemma DifferentChoice(l: Location, host: Host, a: Assignment)
    requires l.Valid() && host.total > 0 && !a.Refused? && (a.Assigned? ==> 0 < a.bytes <= host.total)
    requires ZeroLimitReplaced(l, host.total)
    ensures Choice(l, host.total, AsCapacity(a)).bytes == 0
    ensures ApplyAssigned(CollectMemory(host, Some(l)), Some(l), a).value.capacity > 0
  {
    BoundsAgree(l, host.total);
    TightestIsOutermostMinimum(l.Limits(), host.total);
  }

  /** The two show different capacities: none in C, the inherited bound in Python. */
  predicate Disagree(l: Location, host: Host, bound: nat)
    requires l.Valid()
  {
    var shown := Synthesis(l, host.total, Missing, None);
    shown.Some? && shown.value.limit == 0 && CollectMemory(host, Some(l)).capacity == bound
  }

  /** An idle v1 cgroup whose own limit is also the bound it inherits, below a parent with an explicit zero limit. */
  lemma ZeroLimitDisagreement(host: Host, bound: nat)
    requires 0 < bound < UNLIMITED && bound <= host.total
    ensures exists l: Location :: l.Valid() && ZeroLimitReplaced(l, host.total) && Disagree(l, host, bound)
  {
    var leaf := Dir(Some(bound), None, Number(0), None, None, Some(bound));
    var parent := Dir(Some(0), None, Number(0), None, None, None);
    var l := Location(1, false, true, [leaf, parent]);
    var limits := l.Limits();
    assert limits[..1][..0] == [];
    assert Tightest(limits[..1], host.total) == Tight(bound, Some(0));
    assert Tightest(limits, host.total) == Tight(0, Some(1));
    assert Disagree(l, host, bound);
  }

  /**
   Whenever the shim shows a synthetic file and the resolver does not raise, both
   chose the same capacity, exactly unless a v1 zero limit is replaced; and then
   the same usage directory and usage, and the same reclaimable cache except
   under an assignment at an ambiguous root, which earns none in the resolver.
   */
  lemma ShimAgreesWithResolver(l: Location, host: Host, file: ReceiptFile, env: Option<string>)
    requires l.Valid() && (env.None? ==> file.Missing?)
    requires !AssignedCapacity(env, Readable(file), host.total).Refused?
    requires Synthesis(l, host.total, file, env).Some?
    ensures var a := AssignedCapacity(env, Readable(file), host.total);
            var p := Synthesis(l, host.total, file, env).value;
            var m := ApplyAssigned(CollectMemory(host, Some(l)), Some(l), a).value;
            && (p.limit == m.capacity <==> !ZeroLimitReplaced(l, host.total))
            && (p.limit == m.capacity ==>
                  && m.usageSource == CgroupDir(l.version, p.level)
                  && m.usageCurrent == Some(p.current) && m.current == p.current
                  && m.free == p.limit - p.current
                  && if m.scope.AmbiguousCgroupRoot? then m.inactive == 0 && m.capacitySource.RunpodAssignment?
                     else m.inactive == p.inactive && m.available == p.limit - (p.current - p.inactive))
  {
    SameAssignment(file, env, host.total);
    var a := AssignedCapacity(env, Readable(file), host.total);
    if ZeroLimitReplaced(l, host.total) {
      DifferentChoice(l, host, a);
    } else {
      SameChoice(l, host, a);
    }
  }
}

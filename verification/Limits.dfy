/**
 The walk from a cgroup to its controller mount: the tightest finite limit and
 the directory whose accounting covers it, as Python and as C compute them.
 */
module Limits {
  import opened Prelude

  /** A limit file; None stands for a missing file, "max", "-1" or text that is no integer. */
  function Finite(raw: Option<int>): (limit: Option<nat>)
    ensures limit.Some? <==> raw.Some? && 0 <= raw.value < UNLIMITED
    ensures limit.Some? ==> limit.value == raw.value
  {
    if raw.Some? && 0 <= raw.value < UNLIMITED then Some(raw.value) else None
  }

  datatype Tight = Tight(bytes: nat, source: Option<nat>)

  /** The limits are listed from the leaf outwards; `host` is 0 when MemTotal is unknown. */
  function Tightest(limits: seq<Option<int>>, host: nat): (t: Tight)
    ensures t.source.Some? ==> t.source.value < |limits|
    ensures t.source.None? ==> t.bytes == host
  {
    if limits == [] then Tight(host, None)
    else
      var inner := Tightest(limits[..|limits| - 1], host);
      var candidate := Finite(limits[|limits| - 1]);
      if candidate.Some? && ((inner.source.None? && host == 0) || candidate.value <= inner.bytes)
      then Tight(candidate.value, Some(|limits| - 1))
      else inner
  }

  /** The minimum of the host total and all finite limits, found at the outermost directory attaining it. */
  ghost predicate OutermostMinimum(limits: seq<Option<int>>, host: nat, t: Tight) {
    match t.source
    case Some(k) =>
      && k < |limits| && Finite(limits[k]) == Some(t.bytes)
      && (host > 0 ==> t.bytes <= host)
      && (forall i :: 0 <= i < |limits| && Finite(limits[i]).Some? ==> t.bytes <= Finite(limits[i]).value)
      && (forall i :: k < i < |limits| && Finite(limits[i]).Some? ==> t.bytes < Finite(limits[i]).value)
    case None =>
      && t.bytes == host
      && (forall i :: 0 <= i < |limits| && Finite(limits[i]).Some? ==> host > 0 && host < Finite(limits[i]).value)
  }

  lemma {:induction false} TightestIsOutermostMinimum(limits: seq<Option<int>>, host: nat)
    ensures OutermostMinimum(limits, host, Tightest(limits, host))
  {
    if limits != [] {
      TightestIsOutermostMinimum(limits[..|limits| - 1], host);
      assert forall i :: 0 <= i < |limits| - 1 ==> limits[i] == limits[..|limits| - 1][i];
    }
  }

  /** No other answer has that property. */
  lemma OutermostMinimumIsUnique(limits: seq<Option<int>>, host: nat, a: Tight, b: Tight)
    requires OutermostMinimum(limits, host, a) && OutermostMinimum(limits, host, b)
    ensures a == b
  {
    assert a.source.Some? ==> Finite(limits[a.source.value]) == Some(a.bytes);
    assert b.source.Some? ==> Finite(limits[b.source.value]) == Some(b.bytes);
  }

  /** The Python loop. */
  method FindEffectiveLimit(limits: seq<Option<int>>, host: nat) returns (bytes: nat, source: Option<nat>)
    ensures OutermostMinimum(limits, host, Tight(bytes, source))
    ensures Tight(bytes, source) == Tightest(limits, host)
  {
    var effective: Option<nat> := if host > 0 then Some(host) else None;
    source := None;
    for i := 0 to |limits|
      invariant source == Tightest(limits[..i], host).source
      invariant effective == if source.None? && host == 0 then None else Some(Tightest(limits[..i], host).bytes)
    {
      assert limits[..i + 1][..i] == limits[..i];
      var candidate := Finite(limits[i]);
      if candidate.None? { continue; }
      if effective.None? || candidate.value <= effective.value {
        effective := candidate;
        source := Some(i);
      }
    }
    assert limits[..|limits|] == limits;
    bytes := if effective.Some? then effective.value else 0;
    TightestIsOutermostMinimum(limits, host);
  }

  /**
   The C loop, which tracks the same facts in flags and leaves the caller's
   result alone when there is no value at all.
   */
  method EffectiveLimit(limits: seq<Option<int>>, host: nat, initial: nat)
    returns (haveSource: bool, result: nat, level: nat)
    requires limits != []
    ensures haveSource <==> Tightest(limits, host).source.Some?
    ensures haveSource ==> Some(level) == Tightest(limits, host).source
    ensures result == if host > 0 || haveSource then Tightest(limits, host).bytes else initial
  {
    var haveValue := host > 0;
    haveSource := false;
    var effective := host;
    level := 0;
    var i := 0;
    while true
      invariant 0 <= i < |limits|
      invariant haveValue <==> host > 0 || haveSource
      invariant haveSource <==> Tightest(limits[..i], host).source.Some?
      invariant haveSource ==> Some(level) == Tightest(limits[..i], host).source
      invariant effective == Tightest(limits[..i], host).bytes
      decreases |limits| - i
    {
      assert limits[..i + 1][..i] == limits[..i];
      var candidate := Finite(limits[i]);
      if candidate.Some? && (!haveValue || candidate.value <= effective) {
        effective := candidate.value;
        haveValue := true;
        haveSource := true;
        level := i;
      }
      if i == |limits| - 1 { break; }
      i := i + 1;
    }
    assert limits[..|limits|] == limits;
    result := initial;
    if !haveValue { return; }
    result := effective;
  }
}

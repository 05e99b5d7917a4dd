/**
 The build script's wait for the supervisor, which relays signals to it and must
 not report success once a signal arrived.
 */
module ShellRelay {
  import opened Prelude

  datatype Sig = HUP | INT | TERM

  /** A signal that interrupts the wait: was the supervisor still there for the trap, and after it? */
  datatype Arrival = Arrival(signal: Sig, alive: bool, remains: bool)

  function Number(s: Sig): (n: nat)
    ensures n > 0
  {
    match s
    case HUP => 1
    case INT => 2
    case TERM => 15
  }

  /** The signals the trap hands on while the script still waits. */
  function Relayed(arrivals: seq<Arrival>): seq<Sig> {
    if arrivals == [] then []
    else
      var more := if arrivals[0].remains then Relayed(arrivals[1..]) else [];
      if arrivals[0].alive then [arrivals[0].signal] + more else more
  }

  lemma RelayOne(before: seq<Sig>, rest: seq<Arrival>)
    requires rest != []
    ensures var now := if rest[0].alive then before + [rest[0].signal] else before;
            before + Relayed(rest) == now + if rest[0].remains then Relayed(rest[1..]) else []
  {
  }

  /**
   `run_rss_supervised_command`: `early` arrived before the supervisor's pid was
   known, `arrivals` interrupt the wait one after the other. The script reports
   success exactly if no signal ever arrived and the supervisor returned zero.
   */
  method RunSupervised(early: Option<Sig>, arrivals: seq<Arrival>, supervisorStatus: nat)
    returns (status: nat, relayed: seq<Sig>)
    ensures status == 0 <==> early.None? && arrivals == [] && supervisorStatus == 0
    ensures relayed == (if early.Some? then [early.value] else []) + Relayed(arrivals)
    ensures early.None? && arrivals == [] ==> status == supervisorStatus
    ensures supervisorStatus == 0 && status != 0 ==> status in {129, 130, 143}
  {
    var pending := early;
    relayed := if pending.Some? then [pending.value] else [];
    ghost var first := relayed;
    var rest := arrivals;
    while true
      invariant pending.None? ==> early.None? && rest == arrivals
      invariant pending.Some? ==> early.Some? || arrivals != []
      invariant relayed + Relayed(rest) == first + Relayed(arrivals)
      decreases |rest|
    {
      if rest == [] {
        status := supervisorStatus;
        break;
      }
      var arrival := rest[0];
      ghost var before := relayed;
      pending := Some(arrival.signal);
      if arrival.alive { relayed := relayed + [arrival.signal]; }
      status := 128 + Number(arrival.signal);
      RelayOne(before, rest);
      if !arrival.remains { break; }
      rest := rest[1..];
    }
    if pending.Some? && status == 0 { status := 128 + Number(pending.value); }
  }
}

/** The compositor guard's lease table: what it grants, drops, and admits input under. */
module Guard {
  import opened Common
  import opened BrokerModel
  import P = Protocol

  type Surface = nat

  datatype DesktopWindow = DesktopWindow(mapped: bool, x11: bool, class_: string, surface: Surface,
                                         visible: bool, acceptsInput: bool, revision: string)

  /** What the guard reads of the compositor: windows by stable identifier. */
  datatype Desktop = Desktop(locked: bool, windows: map<string, DesktopWindow>)

  datatype Lease = Lease(window: string, surface: Surface, until: Time)

  datatype Call =
    | Clear
    | Revoke(token: Id)
    | Authorize(token: Id, window: string, milliseconds: int)
    | Deliver(token: Id, revision: string)

  datatype Reply = Ok | Refused(reason: string)

  const MAX_LEASES := 64
  const MILLISECOND: Time := 1_000_000

  predicate Bound(d: Desktop, l: Lease) {
    l.window in d.windows && d.windows[l.window].mapped && d.windows[l.window].surface == l.surface
  }

  /** A lease lives while the session is unlocked, its time has not come and its window
      object still shows the surface it was granted for. */
  predicate Lives(d: Desktop, now: Time, l: Lease) {
    !d.locked && now < l.until && Bound(d, l)
  }

  function Living(d: Desktop, now: Time, leases: map<Id, Lease>): map<Id, Lease> {
    map t | t in leases && Lives(d, now, leases[t]) :: leases[t]
  }

  predicate Leasable(d: Desktop, window: string) {
    && window in d.windows && d.windows[window].mapped && !d.windows[window].x11
    && d.windows[window].class_ != "org.quickshell" && d.windows[window].class_ != "computer-use"
  }

  predicate MayAuthorize(d: Desktop, faulted: bool, leases: map<Id, Lease>, window: string, milliseconds: int) {
    !faulted && !d.locked && |leases| < MAX_LEASES && Leasable(d, window) && 1 <= milliseconds <= 3600000
  }

  /** Input is admitted only under a living lease, on its visible window, as last observed. */
  predicate MayDeliver(d: Desktop, now: Time, faulted: bool, leases: map<Id, Lease>, token: Id, revision: string) {
    && token in leases && Lives(d, now, leases[token])
    && var w := d.windows[leases[token].window];
       w.visible && w.acceptsInput && w.revision == revision && !faulted
  }

  /** The table as the broker's protocol sees it: which window and until when. */
  function Seen(leases: map<Id, Lease>): map<Id, P.GuardLease> {
    map t | t in leases :: P.GuardLease(leases[t].window, leases[t].until)
  }

  /** The lease table a call leaves behind. */
  function After(d: Desktop, now: Time, faulted: bool, leases: map<Id, Lease>, call: Call): map<Id, Lease> {
    var living := Living(d, now, leases);
    match call
    case Clear => map[]
    case Revoke(t) => living - {t}
    case Authorize(t, w, ms) =>
      if MayAuthorize(d, faulted, living, w, ms)
      then living[t := Lease(w, d.windows[w].surface, now + ms * MILLISECOND)] else living
    case Deliver(_, _) => living
  }

  /** The call is a clear, or revokes or renews the lease of this token. */
  predicate Concerns(call: Call, reply: Reply, t: Id) {
    call.Clear? || (call.Revoke? && call.token == t) || (call.Authorize? && reply == Ok && call.token == t)
  }

  class LeaseTable {
    var leases: map<Id, Lease>
    var faulted: bool

    method Expire(d: Desktop, now: Time)
      modifies this`leases
      ensures leases == Living(d, now, old(leases))
      ensures d.locked ==> leases == map[]
      ensures forall t :: t in old(leases) ==> (t in leases <==>
        && !d.locked && now < old(leases)[t].until && old(leases)[t].window in d.windows
        && d.windows[old(leases)[t].window].mapped && d.windows[old(leases)[t].window].surface == old(leases)[t].surface)
      ensures forall t :: t in leases ==> t in old(leases) && leases[t] == old(leases)[t]
    {
      var rest := leases.Keys;
      while rest != {}
        invariant rest <= leases.Keys <= old(leases).Keys
        invariant forall t :: t in leases ==> leases[t] == old(leases)[t]
        invariant forall t :: t in old(leases) && t !in rest ==> (t in leases <==> Lives(d, now, old(leases)[t]))
        decreases rest
      {
        var t :| t in rest;
        var l := leases[t];
        if d.locked || l.until <= now || l.window !in d.windows || !d.windows[l.window].mapped
           || d.windows[l.window].surface != l.surface {
          leases := leases - {t};
        }
        rest := rest - {t};
      }
    }

    method Execute(d: Desktop, now: Time, call: Call) returns (reply: Reply)
      modifies this`leases
      ensures call.Clear? || call.Revoke? ==> reply == Ok
      ensures call.Authorize? ==>
        (reply == Ok <==> MayAuthorize(d, faulted, Living(d, now, old(leases)), call.window, call.milliseconds))
      ensures call.Deliver? ==> (reply == Ok <==> MayDeliver(d, now, faulted, old(leases), call.token, call.revision))
      ensures leases == After(d, now, faulted, old(leases), call)
      // in a locked session nothing is left and nothing admitted
      ensures d.locked ==> leases == map[] && (call.Authorize? || call.Deliver? ==> reply != Ok)
      // a lease that the call does not concern
      ensures forall t :: t in old(leases) && !Concerns(call, reply, t) ==> (t in leases <==>
        && !d.locked && now < old(leases)[t].until && old(leases)[t].window in d.windows
        && d.windows[old(leases)[t].window].mapped && d.windows[old(leases)[t].window].surface == old(leases)[t].surface)
      ensures forall t :: t in leases && !Concerns(call, reply, t) ==> t in old(leases) && leases[t] == old(leases)[t]
      // and the one it does
      ensures call.Clear? ==> leases == map[]
      ensures call.Revoke? ==> call.token !in leases
      ensures call.Authorize? && reply == Ok ==>
        && !faulted && !d.locked && 1 <= call.milliseconds <= 3600000
        && call.window in d.windows && d.windows[call.window].mapped && !d.windows[call.window].x11
        && d.windows[call.window].class_ != "org.quickshell" && d.windows[call.window].class_ != "computer-use"
        && |leases| <= 64 && call.token in leases
        && leases[call.token] == Lease(call.window, d.windows[call.window].surface, now + call.milliseconds * 1_000_000)
      ensures call.Authorize? && reply != Ok ==>
        || faulted || d.locked || !(1 <= call.milliseconds <= 3600000)
        || call.window !in d.windows || !d.windows[call.window].mapped || d.windows[call.window].x11
        || d.windows[call.window].class_ == "org.quickshell" || d.windows[call.window].class_ == "computer-use"
        || |leases| >= 64
      ensures call.Deliver? ==> (reply == Ok <==>
        && !faulted && !d.locked && call.token in old(leases) && now < old(leases)[call.token].until
        && old(leases)[call.token].window in d.windows
        && var w := d.windows[old(leases)[call.token].window];
           w.mapped && w.surface == old(leases)[call.token].surface && w.visible && w.acceptsInput && w.revision == call.revision)
    {
      Expire(d, now);
      reply := Perform(d, now, call);
    }

    /** The operation itself, on a table of living leases. */
    method Perform(d: Desktop, now: Time, call: Call) returns (reply: Reply)
      requires forall t :: t in leases ==> leases[t].window in d.windows
      modifies this`leases
      ensures call.Clear? ==> reply == Ok && leases == map[]
      ensures call.Revoke? ==> reply == Ok && leases == old(leases) - {call.token}
      ensures call.Authorize? ==> (reply == Ok <==>
        && !faulted && !d.locked && |old(leases)| < 64 && 1 <= call.milliseconds <= 3600000
        && call.window in d.windows && d.windows[call.window].mapped && !d.windows[call.window].x11
        && d.windows[call.window].class_ != "org.quickshell" && d.windows[call.window].class_ != "computer-use")
      ensures call.Authorize? ==>
        leases == if reply == Ok
                  then old(leases)[call.token := Lease(call.window, d.windows[call.window].surface, now + call.milliseconds * 1_000_000)]
                  else old(leases)
      ensures call.Deliver? ==> leases == old(leases)
      ensures call.Deliver? ==> (reply == Ok <==>
        && !faulted && call.token in leases
        && var w := d.windows[leases[call.token].window];
           w.visible && w.acceptsInput && w.revision == call.revision)
    {
      match call {
        case Clear =>
          leases := map[];
          return Ok;
        case Revoke(token) =>
          if token in leases { leases := leases - {token}; }
          return Ok;
        case Authorize(token, window, milliseconds) =>
          reply := Grant(d, now, token, window, milliseconds);
        case Deliver(token, revision) =>
          reply := Admit(d, token, revision);
      }
    }

    /** A new lease, once the dead ones are out. */
    method Grant(d: Desktop, now: Time, token: Id, window: string, milliseconds: int) returns (reply: Reply)
      modifies this`leases
      ensures reply == Ok <==>
        && !faulted && !d.locked && |old(leases)| < 64 && 1 <= milliseconds <= 3600000
        && window in d.windows && d.windows[window].mapped && !d.windows[window].x11
        && d.windows[window].class_ != "org.quickshell" && d.windows[window].class_ != "computer-use"
      ensures reply == Ok <==> MayAuthorize(d, faulted, old(leases), window, milliseconds)
      ensures leases == if reply == Ok then old(leases)[token := Lease(window, d.windows[window].surface, now + milliseconds * 1_000_000)]
                        else old(leases)
    {
      if faulted { return Refused("input_restore_failed_reload_plugin"); }
      if d.locked { return Refused("session_locked"); }
      if |leases| >= MAX_LEASES { return Refused("invalid_lease"); }
      if window !in d.windows || !d.windows[window].mapped || d.windows[window].x11 {
        return Refused("native_window_required");
      }
      if d.windows[window].class_ == "org.quickshell" || d.windows[window].class_ == "computer-use" {
        return Refused("trusted_ui_denied");
      }
      if milliseconds < 1 || milliseconds > 3600000 { return Refused("invalid_duration"); }
      leases := leases[token := Lease(window, d.windows[window].surface, now + milliseconds * MILLISECOND)];
      return Ok;
    }

    /** Input, once the dead leases are out. */
    method Admit(d: Desktop, token: Id, revision: string) returns (reply: Reply)
      requires forall t :: t in leases ==> leases[t].window in d.windows
      ensures reply == Ok <==>
        && token in leases && !faulted
        && var w := d.windows[leases[token].window];
           w.visible && w.acceptsInput && w.revision == revision
    {
      if token !in leases { return Refused("lease_expired_or_revoked"); }
      var w := d.windows[leases[token].window];
      if !w.visible || !w.acceptsInput { return Refused("target_not_visible"); }
      if revision != w.revision { return Refused("stale_geometry"); }
      if faulted { return Refused("input_restore_failed_reload_plugin"); }
      return Ok;
    }
  }

  // ------------------------------------------- the table as the protocol sees it

  function CallOf(c: Cleanup): Call {
    match c
    case RevokeLease(t) => Revoke(t)
    case ClearLeases => Clear
  }

  /** A cleanup call drops dead leases and then has exactly the protocol's effect. */
  lemma CleanupRefinesProtocol(d: Desktop, now: Time, faulted: bool, leases: map<Id, Lease>, c: Cleanup)
    returns (dropped: set<Id>)
    ensures Seen(After(d, now, faulted, leases, CallOf(c))) == P.GuardEffect(Seen(leases) - dropped, c)
    ensures forall t :: t in leases && Lives(d, now, leases[t]) ==> t !in dropped
  {
    dropped := set t | t in leases && !Lives(d, now, leases[t]);
  }

  lemma SeenAdd(leases: map<Id, Lease>, token: Id, l: Lease)
    ensures Seen(leases[token := l]) == Seen(leases)[token := P.GuardLease(l.window, l.until)]
  {
  }

  lemma Milliseconds(seconds: int)
    ensures seconds * 1000 * MILLISECOND == seconds * SECOND
  {
  }

  lemma SeenLiving(d: Desktop, now: Time, leases: map<Id, Lease>) returns (dropped: set<Id>)
    ensures Seen(Living(d, now, leases)) == Seen(leases) - dropped
    ensures forall t :: t in leases && Lives(d, now, leases[t]) ==> t !in dropped
  {
    dropped := set t | t in leases && !Lives(d, now, leases[t]);
  }

  lemma AfterAuthorize(d: Desktop, now: Time, faulted: bool, leases: map<Id, Lease>,
                       token: Id, window: string, milliseconds: int)
    requires MayAuthorize(d, faulted, Living(d, now, leases), window, milliseconds)
    ensures Seen(After(d, now, faulted, leases, Authorize(token, window, milliseconds)))
         == Seen(Living(d, now, leases))[token := P.GuardLease(window, now + milliseconds * MILLISECOND)]
  {
    SeenAdd(Living(d, now, leases), token, Lease(window, d.windows[window].surface, now + milliseconds * MILLISECOND));
  }

  /** Authorizing adds exactly the lease the protocol adds, bounded as it says, or nothing. */
  lemma AuthorizeRefinesProtocol(d: Desktop, now: Time, faulted: bool, leases: map<Id, Lease>,
                                 token: Id, window: string, seconds: int) returns (dropped: set<Id>)
    ensures var after := Seen(After(d, now, faulted, leases, Authorize(token, window, seconds * 1000)));
      if MayAuthorize(d, faulted, Living(d, now, leases), window, seconds * 1000)
      then 1 <= seconds <= 3600 && after == (Seen(leases) - dropped)[token := P.GuardLease(window, now + seconds * SECOND)]
      else after == Seen(leases) - dropped
    ensures forall t :: t in leases && Lives(d, now, leases[t]) ==> t !in dropped
  {
    dropped := SeenLiving(d, now, leases);
    if MayAuthorize(d, faulted, Living(d, now, leases), window, seconds * 1000) {
      Milliseconds(seconds);
      AfterAuthorize(d, now, faulted, leases, token, window, seconds * 1000);
    }
  }

  /** The protocol lets an input through only where the guard would: the lease is in the
      table, its time has not come, and the window it reaches is the lease's. */
  lemma DeliveryRefinesProtocol(d: Desktop, now: Time, faulted: bool, leases: map<Id, Lease>, token: Id, revision: string)
    requires MayDeliver(d, now, faulted, leases, token, revision)
    ensures token in Seen(leases) && now < Seen(leases)[token].until
    ensures Seen(leases)[token].window in d.windows && d.windows[Seen(leases)[token].window].surface == leases[token].surface
    ensures After(d, now, faulted, leases, Deliver(token, revision)) == Living(d, now, leases)
  {
  }
}

/** The broker object performs the protocol's steps: run on an object that shows the
    protocol's broker state, each critical section succeeds exactly when its step is enabled,
    leaves the object as the step leaves the state, and the operation it begins or ends is
    the one that the section's result calls for. */
module BrokerSteps {
  import opened Common
  import opened BrokerModel
  import opened Protocol
  import O = BrokerObject

  // ------------------------------------------------------- requests and shares

  method Permit(b: O.Broker, ghost s: State, client: Id, cap: Capability, scope: Scope, w: Option<Window>, now: Time, entropy: Option<Id>)
    returns (answer: Answer)
    requires b.View() == s.broker && now == s.now && client in s.used && (entropy.Some? ==> FreshId(s, entropy.value))
    modifies b
    ensures b.View() != s.broker ==> answer.ApprovalRequired? && entropy == Some(answer.request)
    ensures entropy.Some? && Enabled(s, World(Ask(client, cap, scope, w, entropy.value))) ==>
      answer == ApprovalRequired(entropy.value) && b.View() == Apply(s, World(Ask(client, cap, scope, w, entropy.value))).broker
    ensures entropy.Some? && !Enabled(s, World(Ask(client, cap, scope, w, entropy.value))) ==> b.View() == s.broker
  {
    answer := b.Permit(now, client, cap, scope, w, entropy);
  }

  method Deny(b: O.Broker, ghost s: State, r: Id) returns (ok: bool)
    requires b.View() == s.broker
    modifies b
    ensures ok <==> Enabled(s, World(WorldStep.Deny(r)))
    ensures b.View() == if ok then Apply(s, World(WorldStep.Deny(r))).broker else s.broker
  {
    ok := b.Deny(r);
  }

  method BeginShare(b: O.Broker, ghost s: State, now: Time, asked: Option<Id>, cap: Capability, seconds: int, windows: seq<Window>,
                    entropy: Option<Id>) returns (ok: bool)
    requires b.View() == s.broker && now == s.now && (entropy.Some? ==> FreshId(s, entropy.value))
    modifies b
    ensures ok ==>
      && entropy.Some? && b.picker.Some?
      && Enabled(s, World(WorldStep.BeginShare(asked, b.picker.value.client, cap, seconds, windows, entropy.value)))
      && b.View() == Apply(s, World(WorldStep.BeginShare(asked, b.picker.value.client, cap, seconds, windows, entropy.value))).broker
    ensures !ok ==> b.View() == s.broker
    ensures !ok && entropy.Some? ==>
      forall c :: !Enabled(s, World(WorldStep.BeginShare(asked, c, cap, seconds, windows, entropy.value)))
  {
    ok := b.BeginShare(now, asked, cap, seconds, windows, entropy);
  }

  method CancelShare(b: O.Broker, ghost s: State, id: Id)
    requires b.View() == s.broker
    modifies b
    ensures b.View() == Apply(s, World(WorldStep.CancelShare(id))).broker
  {
    b.CancelShare(id);
  }

  // ------------------------------------------------------------------ grants

  /** The first section of a decision begins the operation with what it remembered. */
  method DecideOpen(b: O.Broker, ghost s: State, ghost tid: Tid, now: Time, r: Id, seconds: int)
    returns (ok: bool, request: Option<Request>, snapshot: nat, expires: Time)
    requires b.View() == s.broker && now == s.now && tid !in s.ops
    ensures ok <==> Enabled(s, Start(tid, Decide(r, seconds)))
    ensures ok ==>
      && request.Some?
      && var p := Proposal(FromRequest(r), request.value.client, request.value.capability, request.value.scope, None,
                           seconds, expires, snapshot, |s.log|);
         Apply(s, Start(tid, Decide(r, seconds))) == s.(ops := s.ops[tid := Granting(p, Queued)])
  {
    ok, request, snapshot, expires := b.DecideOpen(now, r, seconds);
  }

  method SelectOpen(b: O.Broker, ghost s: State, ghost tid: Tid, now: Time, k: Id, client: Id, windowId: string)
    returns (selected: Option<Window>, snapshot: nat, expires: Time)
    requires b.View() == s.broker && now == s.now && tid !in s.ops
    ensures selected.Some? ==>
      && selected.value.id == windowId && b.picker.Some? && Enabled(s, Start(tid, Select(k, client, selected.value)))
      && var p := Proposal(FromPicker(k), client, b.picker.value.capability, Scope(WindowKind, windowId), selected,
                           b.picker.value.seconds, expires, snapshot, |s.log|);
         Apply(s, Start(tid, Select(k, client, selected.value))) == s.(ops := s.ops[tid := Granting(p, Queued)])
    ensures selected == None ==> forall w: Window :: w.id == windowId ==> !Enabled(s, Start(tid, Select(k, client, w)))
  {
    selected, snapshot, expires := b.SelectOpen(now, k, client, windowId);
  }

  /** What the commit step makes of the operation, with the verdict of the recheck. */
  ghost predicate Concluded(s: State, tid: Tid, ok: bool)
    requires Enabled(s, Bestow(tid, Commit))
  {
    var p, g, s' := s.ops[tid].proposal, s.ops[tid].grantStage.grant, Apply(s, Bestow(tid, Commit));
    if ok then s'.log == s.log + [Committed(g, p.origin, p.snapshot)] && s'.ops == s.ops - {tid}
    else if s.ops[tid].grantStage.leased then s'.log == s.log && s'.ops == s.ops[tid := Cleaning([RevokeLease(g.id)], false, CleanHolding)]
    else s'.log == s.log && s'.ops == s.ops - {tid}
  }

  /** The recheck of a decision. */
  method DecideCommit(b: O.Broker, ghost s: State, ghost tid: Tid, now: Time, r: Id, g: Grant, snapshot: nat) returns (ok: bool)
    requires b.View() == s.broker && now == s.now && Enabled(s, Bestow(tid, Commit)) && s.ops[tid].grantStage.grant == g
    requires s.ops[tid].proposal.origin == FromRequest(r) && s.ops[tid].proposal.authority == snapshot
    requires g == ProposedGrant(s.ops[tid].proposal, g.id)
    modifies b
    ensures b.View() == Apply(s, Bestow(tid, Commit)).broker && Concluded(s, tid, ok)
  {
    ok := b.DecideCommit(now, r, g, snapshot);
  }

  /** The recheck of a selection. */
  method SelectCommit(b: O.Broker, ghost s: State, ghost tid: Tid, now: Time, k: Id, g: Grant, current: Window, snapshot: nat)
    returns (ok: bool)
    requires b.View() == s.broker && now == s.now && Enabled(s, Bestow(tid, Commit)) && s.ops[tid].grantStage.grant == g
    requires s.ops[tid].proposal.origin == FromPicker(k) && s.ops[tid].proposal.authority == snapshot
    requires g == ProposedGrant(s.ops[tid].proposal, g.id) && s.ops[tid].grantStage.current == Some(current)
    modifies b
    ensures b.View() == Apply(s, Bestow(tid, Commit)).broker && Concluded(s, tid, ok)
  {
    ok := b.SelectCommit(now, k, g, current, snapshot);
  }

  // -------------------------------------------------------------- revocation

  /** A lease is revoked at the guard exactly when a control grant went. */
  method Revoke(b: O.Broker, ghost s: State, ghost tid: Tid, id: Id) returns (revoked: Option<Grant>)
    requires b.View() == s.broker && tid !in s.ops
    modifies b
    ensures revoked.Some? <==> Enabled(s, Start(tid, StartStep.Revoke(id)))
    ensures revoked == None ==> b.View() == s.broker
    ensures revoked.Some? ==>
      var s' := Apply(s, Start(tid, StartStep.Revoke(id)));
      && b.View() == s'.broker
      && s'.ops == if revoked.value.capability == Control
                   then s.ops[tid := Cleaning([RevokeLease(id)], false, CleanQueued)] else s.ops
  {
    revoked := b.RevokeLocked(id);
  }

  /** The step leaves the object's state and owes a guard-wide clear. */
  ghost predicate ClearsAfter(s: State, tid: Tid, l: StartStep, after: BrokerState)
    requires Enabled(s, Start(tid, l))
  {
    var s' := Apply(s, Start(tid, l));
    s'.broker == after && s'.ops == s.ops[tid := Cleaning([ClearLeases], false, CleanQueued)]
  }

  method RevokeAll(b: O.Broker, ghost s: State, ghost tid: Tid)
    requires b.View() == s.broker && tid !in s.ops
    modifies b
    ensures ClearsAfter(s, tid, StartStep.RevokeAll, b.View())
  {
    var _ := b.ClearLocked();
  }

  method Pause(b: O.Broker, ghost s: State, ghost tid: Tid)
    requires b.View() == s.broker && tid !in s.ops
    modifies b
    ensures ClearsAfter(s, tid, StartStep.Pause, b.View())
  {
    b.SetPaused(true);
  }

  method Resume(b: O.Broker, ghost s: State)
    requires b.View() == s.broker
    modifies b
    ensures b.View() == Apply(s, World(WorldStep.Resume)).broker && Apply(s, World(WorldStep.Resume)).ops == s.ops
  {
    b.SetPaused(false);
  }

  method SwitchMode(b: O.Broker, ghost s: State, ghost tid: Tid, mode: Mode)
    requires b.View() == s.broker && tid !in s.ops
    modifies b
    ensures ClearsAfter(s, tid, StartStep.SwitchMode(mode), b.View())
  {
    b.SetMode(mode);
  }

  method ConsoleDetach(b: O.Broker, ghost s: State, ghost tid: Tid) returns (clearBackend: bool)
    requires b.View() == s.broker && tid !in s.ops && b.consoles > 0
    modifies b
    ensures clearBackend ==> ClearsAfter(s, tid, StartStep.ConsoleDetach, b.View())
    ensures !clearBackend ==> Apply(s, Start(tid, StartStep.ConsoleDetach)) == s.(broker := b.View())
  {
    clearBackend := b.ConsoleDetach();
  }

  /** Every control token of the client is revoked at the guard, in any order. */
  method Disconnect(b: O.Broker, ghost s: State, ghost tid: Tid, client: Id) returns (controlTokens: set<Id>)
    requires b.View() == s.broker && tid !in s.ops
    modifies b
    ensures forall order: seq<Id> :: (forall t :: t in order <==> t in controlTokens) <==> Enabled(s, Start(tid, StartStep.Disconnect(client, order)))
    ensures forall order: seq<Id> :: Enabled(s, Start(tid, StartStep.Disconnect(client, order))) ==>
      DisconnectedAfter(s, tid, client, order, b.View())
  {
    controlTokens := b.Disconnect(client);
  }

  ghost predicate DisconnectedAfter(s: State, tid: Tid, client: Id, order: seq<Id>, after: BrokerState)
    requires Enabled(s, Start(tid, StartStep.Disconnect(client, order)))
  {
    var s' := Apply(s, Start(tid, StartStep.Disconnect(client, order)));
    && s'.broker == after
    && (order == [] ==> s'.ops == s.ops)
    && (order != [] ==>
          && s'.ops == s.ops[tid := s'.ops[tid]] && s'.ops[tid].Cleaning? && !s'.ops[tid].thenClear
          && |s'.ops[tid].todo| == |order| && forall i :: 0 <= i < |order| ==> s'.ops[tid].todo[i] == RevokeLease(order[i]))
  }

  // ------------------------------------------------------------- maintenance

  method Maintain(b: O.Broker, ghost s: State, ghost tid: Tid, now: Time) returns (controlExpired: bool)
    requires b.View() == s.broker && now == s.now && tid !in s.ops
    modifies b
    ensures Apply(s, Start(tid, StartStep.Maintain)).broker == b.View()
    ensures Apply(s, Start(tid, StartStep.Maintain)).ops == s.ops[tid := Sweeping(controlExpired, false)]
  {
    controlExpired := b.Expire(now);
  }

  /** The retry: all unconfirmed calls are made again when it is due, and none before. */
  method Sweep(b: O.Broker, ghost s: State, ghost tid: Tid, now: Time) returns (calls: seq<Cleanup>)
    requires b.View() == s.broker && now == s.now && tid in s.ops && s.ops[tid].Sweeping? && s.ops[tid].holding
    ensures calls != [] ==>
      && Enabled(s, Clean(tid, CleanStep.Sweep(calls)))
      && Apply(s, Clean(tid, CleanStep.Sweep(calls))) == s.(ops := s.ops[tid := Cleaning(calls, s.ops[tid].thenClear, CleanHolding)])
    ensures calls == [] ==> forall order :: Enabled(s, Clean(tid, CleanStep.Sweep(order))) ==>
      Apply(s, Clean(tid, CleanStep.Sweep(order))) == CleanedUp(s, tid, s.ops[tid].thenClear)
  {
    calls := b.DueRetries(now);
  }

  method Record(b: O.Broker, ghost s: State, ghost tid: Tid, now: Time, call: Cleanup, confirmed: bool)
    requires b.View() == s.broker && now == s.now && Enabled(s, Clean(tid, Conclude))
    requires s.ops[tid].todo[0] == call && s.ops[tid].cleanStage == CleanReplied(confirmed)
    modifies b
    ensures b.View() == Apply(s, Clean(tid, Conclude)).broker
  {
    b.RecordCleanup(now, call, confirmed);
  }

  // ------------------------------------------------------------------- input

  /** Input begins under a covering grant in approve mode and under none in yolo mode. */
  method BeginInput(b: O.Broker, ghost s: State, ghost tid: Tid, now: Time, client: Id, w: Window)
    returns (grant: Option<Id>, ok: bool)
    requires b.View() == s.broker && now == s.now && tid !in s.ops
    ensures ok ==>
      && Enabled(s, Start(tid, StartStep.BeginInput(client, w, grant)))
      && Apply(s, Start(tid, StartStep.BeginInput(client, w, grant))) == s.(ops := s.ops[tid := Input(client, w, grant, false, InputQueued)])
    ensures !ok ==> forall lease :: !Enabled(s, Start(tid, StartStep.BeginInput(client, w, lease)))
  {
    grant, ok := b.AllowedLocked(now, client, Control, Scope(WindowKind, w.id), Some(w));
  }

  /** The check before every delivery. */
  method Check(b: O.Broker, ghost s: State, ghost tid: Tid, now: Time, client: Id, w: Window) returns (ok: bool)
    requires b.View() == s.broker && now == s.now && tid in s.ops && s.ops[tid].Input? && s.ops[tid].inputStage == InputReady
    requires s.ops[tid].client == client && s.ops[tid].window == w
    ensures ok <==> Enabled(s, Type(tid, InputStep.Check))
    ensures ok ==> Apply(s, Type(tid, InputStep.Check)) == s.(ops := s.ops[tid := s.ops[tid].(inputStage := InputSent(false))])
  {
    var grant;
    grant, ok := b.AllowedLocked(now, client, Control, Scope(WindowKind, w.id), Some(w));
  }
}

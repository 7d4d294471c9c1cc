/** What every step of the permission protocol keeps. */
module ProtocolSafety {
  import opened Common
  import opened BrokerModel
  import opened Protocol

  // ------------------------------------------------------------------ shapes

  /** Local consistency of an operation's remembered values. */
  predicate Shaped(op: Op) {
    match op
    case Granting(p, stage) =>
      && 1 <= p.seconds <= 3600
      && (p.origin.FromPicker? ==> p.window.Some?)
      && (stage.Authorized? ==>
            && stage.grant == ProposedGrant(p, stage.grant.id)
            && stage.leased == (p.capability == Control)
            && WindowAgrees(p, stage.current))
    case Cleaning(todo, _, _) => todo != []
    case Sweeping(_, _) => true
    case Input(_, _, lease, own, stage) =>
      && (own ==> lease.Some? && (stage.InputReady? || stage.InputSent?))
      && (stage.InputHolding? ==> lease == None)
      && (stage.InputReady? || stage.InputSent? ==> lease.Some?)
  }

  ghost predicate Shapes(s: State) {
    && (forall tid :: tid in s.ops ==> Shaped(s.ops[tid]))
    && (s.broker.picker.Some? ==> 1 <= s.broker.picker.value.seconds <= 3600)
  }

  lemma StartShapes(s: State, a: Tid, l: StartStep)
    requires Shapes(s) && StartEnabled(s, a, l)
    ensures Shapes(StartApply(s, a, l))
  {
    var s' := StartApply(s, a, l);
    StartShaped(s, a, l);
    forall tid | tid in s'.ops ensures Shaped(s'.ops[tid]) {
      if tid != a {
        StartLeavesOthers(s, a, l, tid);
        assert Shaped(s.ops[tid]);
      }
    }
  }

  lemma StartShaped(s: State, a: Tid, l: StartStep)
    requires Shapes(s) && StartEnabled(s, a, l)
    ensures var s' := StartApply(s, a, l);
      && (s'.broker.picker.Some? ==> s'.broker.picker == s.broker.picker)
      && (a in s'.ops ==> Shaped(s'.ops[a]))
  {
  }

  lemma AcquireShapes(s: State, a: Tid)
    requires Shapes(s) && AcquireEnabled(s, a)
    ensures Shapes(AcquireApply(s, a))
  {
  }

  lemma BestowShapes(s: State, a: Tid, l: GrantStep)
    requires Shapes(s) && GrantEnabled(s, a, l)
    ensures Shapes(GrantApply(s, a, l))
  {
  }

  lemma CleanShapes(s: State, a: Tid, l: CleanStep)
    requires Shapes(s) && CleanEnabled(s, a, l)
    ensures Shapes(CleanApply(s, a, l))
  {
    var s' := CleanApply(s, a, l);
    CleanOnlyRemoves(s, a, l);
    CleanShaped(s, a, l);
    forall tid | tid in s'.ops ensures Shaped(s'.ops[tid]) {
      if tid != a { assert Shaped(s.ops[tid]); }
    }
  }

  lemma CleanShaped(s: State, a: Tid, l: CleanStep)
    requires Shapes(s) && CleanEnabled(s, a, l)
    ensures var s' := CleanApply(s, a, l);
      s'.broker.picker == s.broker.picker && (a in s'.ops ==> Shaped(s'.ops[a]))
  {
    match l
    case Call(_) =>
    case Conclude =>
    case Sweep(_) =>
  }

  lemma InputShapes(s: State, a: Tid, l: InputStep)
    requires Shapes(s) && InputEnabled(s, a, l)
    ensures Shapes(InputApply(s, a, l))
  {
  }

  // ------------------------------------------------------------------- locks

  predicate NeedsBackend(op: Op) {
    match op
    case Granting(_, stage) => stage.Holding? || stage.Authorized?
    case Cleaning(_, _, stage) => stage.CleanHolding? || stage.CleanReplied?
    case Sweeping(_, holding) => holding
    case Input(_, _, _, _, _) => false
  }

  predicate NeedsInput(op: Op) {
    op.Input? && !op.inputStage.InputQueued?
  }

  /** Mutual exclusion: only the holder of a lock is inside what it protects. */
  ghost predicate Locked(s: State) {
    forall tid :: tid in s.ops ==>
      && (NeedsBackend(s.ops[tid]) ==> s.backend == Some(tid))
      && (NeedsInput(s.ops[tid]) ==> s.input == Some(tid))
  }

  lemma StartLocked(s: State, a: Tid, l: StartStep)
    requires Locked(s) && StartEnabled(s, a, l)
    ensures Locked(StartApply(s, a, l))
  {
    var s' := StartApply(s, a, l);
    StartTakesNoLock(s, a, l);
    forall tid | tid in s'.ops && tid != a ensures tid in s.ops && s'.ops[tid] == s.ops[tid] {
      StartLeavesOthers(s, a, l, tid);
    }
  }

  lemma StartTakesNoLock(s: State, a: Tid, l: StartStep)
    requires StartEnabled(s, a, l)
    ensures var s' := StartApply(s, a, l);
      && s'.backend == s.backend && s'.input == s.input
      && (a in s'.ops ==> !NeedsBackend(s'.ops[a]) && !NeedsInput(s'.ops[a]))
  {
  }

  lemma AcquireLocked(s: State, a: Tid)
    requires Locked(s) && AcquireEnabled(s, a)
    ensures Locked(AcquireApply(s, a))
  {
  }

  lemma BestowLocked(s: State, a: Tid, l: GrantStep)
    requires Locked(s) && GrantEnabled(s, a, l)
    ensures Locked(GrantApply(s, a, l))
  {
  }

  lemma CleanLocked(s: State, a: Tid, l: CleanStep)
    requires Locked(s) && CleanEnabled(s, a, l)
    ensures Locked(CleanApply(s, a, l))
  {
  }

  lemma InputLocked(s: State, a: Tid, l: InputStep)
    requires Locked(s) && InputEnabled(s, a, l)
    ensures Locked(InputApply(s, a, l))
  {
  }

  // ------------------------------------------------------------------ leases

  /** What a cleanup pass still has to ask of the guard. */
  function Remaining(op: Op): seq<Cleanup>
    requires op.Cleaning?
  {
    if op.cleanStage == CleanReplied(true) && op.todo != [] then op.todo[1..] else op.todo
  }

  /** The operation will commit the lease of `t` to a grant or revoke it. */
  predicate Tracks(op: Op, t: Id) {
    match op
    case Granting(_, stage) => stage.Authorized? && stage.leased && stage.grant.id == t
    case Cleaning(_, _, _) => RevokeLease(t) in Remaining(op)
    case Sweeping(_, _) => false
    case Input(_, _, lease, own, _) => own && lease == Some(t)
  }

  predicate OwesClear(op: Op) {
    match op
    case Granting(_, _) => false
    case Cleaning(_, thenClear, _) => thenClear || ClearLeases in Remaining(op)
    case Sweeping(thenClear, _) => thenClear
    case Input(_, _, _, _, _) => false
  }

  ghost predicate Tracked(s: State, t: Id) {
    exists tid :: tid in s.ops && Tracks(s.ops[tid], t)
  }

  ghost predicate ClearOwed(s: State) {
    exists tid :: tid in s.ops && OwesClear(s.ops[tid])
  }

  predicate ControlGrant(s: State, t: Id) {
    t in s.broker.grants && s.broker.grants[t].capability == Control
  }

  predicate Unconfirmed(s: State, t: Id) {
    RevokeLease(t) in s.broker.unconfirmed || ClearLeases in s.broker.unconfirmed
  }

  ghost predicate Accounted(s: State, t: Id) {
    t in s.lost || ControlGrant(s, t) || Unconfirmed(s, t) || Tracked(s, t) || ClearOwed(s)
  }

  ghost predicate LeasesAccounted(s: State) {
    forall t :: t in s.leases ==> Accounted(s, t)
  }

  /** A confirmation in hand is still true when it is recorded: nothing can put the
      lease back, and after a clear only leases of running operations can appear. */
  ghost predicate ConfirmationHolds(s: State, call: Cleanup) {
    match call
    case RevokeLease(t) => t !in s.leases && t in s.used
    case ClearLeases => forall t :: t in s.leases ==> t in s.lost || Tracked(s, t)
  }

  ghost predicate ConfirmationsHold(s: State) {
    forall tid :: tid in s.ops && s.ops[tid].Cleaning? && s.ops[tid].cleanStage == CleanReplied(true) && s.ops[tid].todo != []
      ==> ConfirmationHolds(s, s.ops[tid].todo[0])
  }

  predicate OpDrawn(op: Op, used: set<Id>) {
    match op
    case Granting(_, stage) => stage.Authorized? ==> stage.grant.id in used
    case Cleaning(todo, _, _) => CallsDrawn(todo, used)
    case Sweeping(_, _) => true
    case Input(_, _, lease, _, _) => lease.Some? ==> lease.value in used
  }

  predicate CallsDrawn(todo: seq<Cleanup>, used: set<Id>) {
    forall i :: 0 <= i < |todo| && todo[i].RevokeLease? ==> todo[i].token in used
  }

  /** Every token anywhere was drawn, so a new one clashes with none. */
  ghost predicate TokensDrawn(s: State) {
    && s.leases.Keys <= s.used
    && s.lost.Keys <= s.used
    && s.broker.grants.Keys <= s.used
    && (forall c :: c in s.broker.unconfirmed && c.RevokeLease? ==> c.token in s.used)
    && (forall tid :: tid in s.ops ==> OpDrawn(s.ops[tid], s.used))
  }

  /** The grant about to be committed is not there yet. */
  ghost predicate Unspent(s: State) {
    forall tid :: tid in s.ops && s.ops[tid].Granting? && s.ops[tid].grantStage.Authorized?
      ==> s.ops[tid].grantStage.grant.id !in s.broker.grants
  }

  /** The guard bounds every lease whose authorization reply was lost. */
  ghost predicate LostBounded(s: State) {
    forall t :: t in s.lost && t in s.leases ==> s.leases[t].until <= s.lost[t] + MAX_LEASE
  }

  ghost predicate LeaseInv(s: State) {
    Shapes(s) && Unspent(s) && Locked(s) && TokensDrawn(s) && LeasesAccounted(s) && ConfirmationsHold(s) && LostBounded(s)
  }

  ghost predicate OthersKept(s: State, a: Tid, s': State) {
    forall tid :: tid != a && tid in s.ops ==> tid in s'.ops && s'.ops[tid] == s.ops[tid]
  }

  lemma Transfer(s: State, a: Tid, s': State)
    requires LeasesAccounted(s) && OthersKept(s, a, s') && s.lost.Keys <= s'.lost.Keys
    requires forall t :: t in s'.leases && (t !in s.leases || ControlGrant(s, t) || Unconfirmed(s, t)) ==> Accounted(s', t)
    requires forall t :: t in s'.leases && a in s.ops && (Tracks(s.ops[a], t) || OwesClear(s.ops[a])) ==> Accounted(s', t)
    ensures LeasesAccounted(s')
  {
    forall t | t in s'.leases && t in s.leases && !ControlGrant(s, t) && !Unconfirmed(s, t) && t !in s.lost
      ensures Accounted(s', t)
    {
      if Tracked(s, t) {
        var x :| x in s.ops && Tracks(s.ops[x], t);
        if x != a { assert Tracks(s'.ops[x], t); }
      } else {
        var x :| x in s.ops && OwesClear(s.ops[x]);
        if x != a { assert OwesClear(s'.ops[x]); }
      }
    }
  }

  lemma TokensKept(s: State, a: Tid, s': State)
    requires TokensDrawn(s) && s.used <= s'.used
    requires s'.leases.Keys <= s.leases.Keys && s'.lost.Keys <= s.lost.Keys && s'.broker.grants.Keys <= s.broker.grants.Keys
    requires forall c :: c in s'.broker.unconfirmed && c.RevokeLease? ==> c in s.broker.unconfirmed || c.token in s.used
    requires forall tid :: tid != a && tid in s'.ops ==> tid in s.ops && s'.ops[tid] == s.ops[tid]
    requires a in s'.ops ==> OpDrawn(s'.ops[a], s'.used)
    ensures TokensDrawn(s')
  {
    forall tid | tid in s'.ops ensures OpDrawn(s'.ops[tid], s'.used) {
      if tid != a { assert OpDrawn(s.ops[tid], s.used); }
    }
  }

  lemma StartOpDrawn(s: State, a: Tid, l: StartStep)
    requires TokensDrawn(s) && StartEnabled(s, a, l)
    ensures a in StartApply(s, a, l).ops ==> OpDrawn(StartApply(s, a, l).ops[a], s.used)
  {
    if l.Disconnect? {
      assert forall i :: 0 <= i < |l.tokens| ==> l.tokens[i] in ControlGrantsOf(s.broker, l.client);
    }
  }

  lemma StartLeavesGuard(s: State, a: Tid, l: StartStep)
    requires StartEnabled(s, a, l)
    ensures var s' := StartApply(s, a, l);
      s'.leases == s.leases && s'.lost == s.lost && s'.used == s.used && s'.broker.unconfirmed == s.broker.unconfirmed
  {
  }

  lemma StartOnlyRemoves(s: State, a: Tid, l: StartStep)
    requires StartEnabled(s, a, l)
    ensures StartApply(s, a, l).broker.grants.Keys <= s.broker.grants.Keys
  {
  }

  lemma StartLeavesOthers(s: State, a: Tid, l: StartStep, tid: Tid)
    requires StartEnabled(s, a, l) && tid != a && tid in StartApply(s, a, l).ops
    ensures tid in s.ops && StartApply(s, a, l).ops[tid] == s.ops[tid]
  {
  }

  lemma StartTokens(s: State, a: Tid, l: StartStep)
    requires TokensDrawn(s) && StartEnabled(s, a, l)
    ensures TokensDrawn(StartApply(s, a, l))
  {
    StartOpDrawn(s, a, l);
    StartLeavesGuard(s, a, l);
    StartOnlyRemoves(s, a, l);
    forall tid | tid != a && tid in StartApply(s, a, l).ops ensures tid in s.ops && StartApply(s, a, l).ops[tid] == s.ops[tid] {
      StartLeavesOthers(s, a, l, tid);
    }
    TokensKept(s, a, StartApply(s, a, l));
  }

  lemma BestowTokens(s: State, a: Tid, l: GrantStep)
    requires TokensDrawn(s) && GrantEnabled(s, a, l)
    ensures TokensDrawn(GrantApply(s, a, l))
  {
  }

  lemma CleanOpDrawn(s: State, a: Tid, l: CleanStep)
    requires TokensDrawn(s) && CleanEnabled(s, a, l)
    ensures a in CleanApply(s, a, l).ops ==> OpDrawn(CleanApply(s, a, l).ops[a], s.used)
  {
    assert OpDrawn(s.ops[a], s.used);
    match l
    case Call(_) =>
    case Conclude =>
      assert CallsDrawn(s.ops[a].todo[1..], s.used);
    case Sweep(order) =>
      assert forall i :: 0 <= i < |order| ==> order[i] in s.broker.unconfirmed;
  }

  lemma CleanOnlyRemoves(s: State, a: Tid, l: CleanStep)
    requires CleanEnabled(s, a, l)
    ensures var s' := CleanApply(s, a, l);
      && s'.leases.Keys <= s.leases.Keys && s'.lost == s.lost && s'.used == s.used && s'.broker.grants == s.broker.grants
      && (forall c :: c in s'.broker.unconfirmed ==>
            c in s.broker.unconfirmed || (l.Conclude? && c == s.ops[a].todo[0]))
      && (forall tid :: tid != a && tid in s'.ops ==> tid in s.ops && s'.ops[tid] == s.ops[tid])
  {
    match l
    case Call(_) =>
    case Conclude =>
    case Sweep(_) =>
  }

  lemma CleanTokens(s: State, a: Tid, l: CleanStep)
    requires TokensDrawn(s) && CleanEnabled(s, a, l)
    ensures TokensDrawn(CleanApply(s, a, l))
  {
    CleanOpDrawn(s, a, l);
    CleanOnlyRemoves(s, a, l);
    assert l.Conclude? ==> CallsDrawn(s.ops[a].todo, s.used) by { assert OpDrawn(s.ops[a], s.used); }
    TokensKept(s, a, CleanApply(s, a, l));
  }

  lemma InputTokens(s: State, a: Tid, l: InputStep)
    requires TokensDrawn(s) && InputEnabled(s, a, l)
    ensures TokensDrawn(InputApply(s, a, l))
  {
  }

  lemma ClearOwedByActor(s: State, a: Tid)
    requires a in s.ops && OwesClear(s.ops[a])
    ensures LeasesAccounted(s)
  {
  }

  predicate StartsClear(s: State, l: StartStep) {
    l.Pause? || l.SwitchMode? || l.RevokeAll? || (l.ConsoleDetach? && s.broker.consoles == 1)
  }

  lemma StartLeases(s: State, a: Tid, l: StartStep)
    requires LeasesAccounted(s) && StartEnabled(s, a, l)
    ensures LeasesAccounted(StartApply(s, a, l))
  {
    var s' := StartApply(s, a, l);
    if StartsClear(s, l) {
      ClearOwedByActor(s', a);
    } else {
      assert s'.leases == s.leases && s'.lost == s.lost && s'.broker.unconfirmed == s.broker.unconfirmed;
      forall t | ControlGrant(s, t)
        ensures ControlGrant(s', t) || (a in s'.ops && (Tracks(s'.ops[a], t) || OwesClear(s'.ops[a])))
      {
        if !ControlGrant(s', t) { StartWithdraws(s, a, l, t); }
      }
      Transfer(s, a, s');
    }
  }

  /** A control grant withdrawn without a clear is left to the starting operation. */
  lemma StartWithdraws(s: State, a: Tid, l: StartStep, t: Id)
    requires StartEnabled(s, a, l) && !StartsClear(s, l)
    requires ControlGrant(s, t) && !ControlGrant(StartApply(s, a, l), t)
    ensures a in StartApply(s, a, l).ops
    ensures Tracks(StartApply(s, a, l).ops[a], t) || OwesClear(StartApply(s, a, l).ops[a])
  {
    if l.Disconnect? {
      assert t in l.tokens;
      var i :| 0 <= i < |l.tokens| && l.tokens[i] == t;
      assert Revocations(l.tokens)[i] == RevokeLease(t);
    }
  }

  /** A lease this step made, or that its operation tracked, stays accounted for. */
  lemma BestowTracks(s: State, a: Tid, l: GrantStep, t: Id)
    requires Shapes(s) && GrantEnabled(s, a, l)
    ensures var s' := GrantApply(s, a, l);
      && (t in s'.leases && t !in s.leases ==> t in s'.lost || (a in s'.ops && Tracks(s'.ops[a], t)))
      && (Tracks(s.ops[a], t) ==> ControlGrant(s', t) || (a in s'.ops && Tracks(s'.ops[a], t)))
  {
    assert Shaped(s.ops[a]);
  }

  lemma BestowKeepsGrants(s: State, a: Tid, l: GrantStep)
    requires Shapes(s) && Unspent(s) && GrantEnabled(s, a, l)
    ensures var s' := GrantApply(s, a, l);
      && s'.broker.unconfirmed == s.broker.unconfirmed && s.lost.Keys <= s'.lost.Keys && OthersKept(s, a, s')
      && (forall t :: ControlGrant(s, t) ==> ControlGrant(s', t))
  {
    match l
    case GiveUp =>
    case Authorize(_, _, _) =>
    case Prepare(_, _) =>
    case Commit =>
  }

  lemma BestowLeases(s: State, a: Tid, l: GrantStep)
    requires Shapes(s) && Unspent(s) && LeasesAccounted(s) && GrantEnabled(s, a, l)
    ensures LeasesAccounted(GrantApply(s, a, l))
  {
    var s' := GrantApply(s, a, l);
    BestowKeepsGrants(s, a, l);
    forall t ensures t in s'.leases && (t !in s.leases || ControlGrant(s, t) || Unconfirmed(s, t)) ==> Accounted(s', t)
      ensures t in s'.leases && (Tracks(s.ops[a], t) || OwesClear(s.ops[a])) ==> Accounted(s', t)
    {
      BestowTracks(s, a, l, t);
    }
    Transfer(s, a, s');
  }

  lemma InputLeases(s: State, a: Tid, l: InputStep)
    requires Shapes(s) && LeasesAccounted(s) && InputEnabled(s, a, l)
    ensures LeasesAccounted(InputApply(s, a, l))
  {
    var s' := InputApply(s, a, l);
    assert s'.broker == s.broker;
    forall t | t in s'.leases && t !in s.leases
      ensures t in s'.lost || (a in s'.ops && Tracks(s'.ops[a], t))
    {
    }
    forall t | Tracks(s.ops[a], t)
      ensures a in s'.ops && Tracks(s'.ops[a], t)
    {
    }
    Transfer(s, a, s');
  }

  lemma CleanLeases(s: State, a: Tid, l: CleanStep)
    requires Shapes(s) && LeasesAccounted(s) && ConfirmationsHold(s) && CleanEnabled(s, a, l)
    ensures LeasesAccounted(CleanApply(s, a, l))
  {
    var s' := CleanApply(s, a, l);
    match l
    case Call(outcome) => CallLeases(s, a, outcome);
    case Conclude => RecordLeases(s, a);
    case Sweep(order) =>
      assert OwesClear(s.ops[a]) ==> OwesClear(s'.ops[a]);
      Transfer(s, a, s');
  }

  lemma CallLeases(s: State, a: Tid, outcome: Outcome)
    requires LeasesAccounted(s) && CleanEnabled(s, a, Call(outcome))
    ensures LeasesAccounted(CleanApply(s, a, Call(outcome)))
  {
    var s' := CleanApply(s, a, Call(outcome));
    forall t | t in s'.leases && Tracks(s.ops[a], t)
      ensures Tracks(s'.ops[a], t)
    {
    }
    assert OwesClear(s.ops[a]) ==> OwesClear(s'.ops[a]) || s'.leases == map[];
    Transfer(s, a, s');
  }

  lemma RecordLeases(s: State, a: Tid)
    requires LeasesAccounted(s) && ConfirmationsHold(s) && CleanEnabled(s, a, Conclude)
    ensures LeasesAccounted(CleanApply(s, a, Conclude))
  {
    var s' := CleanApply(s, a, Conclude);
    var op := s.ops[a];
    forall t | t in s'.leases && Tracks(op, t)
      ensures Accounted(s', t)
    {
      if a in s'.ops && Tracks(s'.ops[a], t) {
      } else {
        assert RevokeLease(t) in s'.broker.unconfirmed;
      }
    }
    forall t | t in s'.leases && OwesClear(op)
      ensures Accounted(s', t)
    {
      if a in s'.ops && OwesClear(s'.ops[a]) {
      } else {
        assert ClearLeases in s'.broker.unconfirmed;
      }
    }
    forall t | t in s'.leases && Unconfirmed(s, t)
      ensures Accounted(s', t)
    {
      if !Unconfirmed(s', t) {
        assert ConfirmationHolds(s, op.todo[0]);
        if Tracked(s, t) {
          var x :| x in s.ops && Tracks(s.ops[x], t);
          if x != a { assert Tracks(s'.ops[x], t); }
        }
      }
    }
    Transfer(s, a, s');
  }

  lemma StartUnspent(s: State, a: Tid, l: StartStep)
    requires Unspent(s) && StartEnabled(s, a, l)
    ensures Unspent(StartApply(s, a, l))
  {
    assert StartApply(s, a, l).broker.grants.Keys <= s.broker.grants.Keys;
  }

  lemma BestowUnspent(s: State, a: Tid, l: GrantStep)
    requires Locked(s) && TokensDrawn(s) && Unspent(s) && GrantEnabled(s, a, l)
    ensures Unspent(GrantApply(s, a, l))
  {
  }

  lemma CleanUnspent(s: State, a: Tid, l: CleanStep)
    requires Unspent(s) && CleanEnabled(s, a, l)
    ensures Unspent(CleanApply(s, a, l))
  {
  }

  lemma InputUnspent(s: State, a: Tid, l: InputStep)
    requires Unspent(s) && InputEnabled(s, a, l)
    ensures Unspent(InputApply(s, a, l))
  {
  }

  lemma StartConfirmations(s: State, a: Tid, l: StartStep)
    requires ConfirmationsHold(s) && StartEnabled(s, a, l)
    ensures ConfirmationsHold(StartApply(s, a, l))
  {
    ConfirmationsKept(s, a, StartApply(s, a, l));
  }

  lemma BestowConfirmations(s: State, a: Tid, l: GrantStep)
    requires Locked(s) && ConfirmationsHold(s) && GrantEnabled(s, a, l)
    ensures ConfirmationsHold(GrantApply(s, a, l))
  {
    ConfirmationsKept(s, a, GrantApply(s, a, l));
  }

  lemma InputConfirmations(s: State, a: Tid, l: InputStep)
    requires Shapes(s) && ConfirmationsHold(s) && InputEnabled(s, a, l)
    ensures ConfirmationsHold(InputApply(s, a, l))
  {
    ConfirmationsKept(s, a, InputApply(s, a, l));
  }

  /** Confirmations survive a step of another operation that at most adds leases it
      drew itself and goes on tracking what it tracked. */
  lemma ConfirmationsKept(s: State, a: Tid, s': State)
    requires ConfirmationsHold(s) && OthersKept(s, a, s')
    requires forall tid :: tid != a && tid in s'.ops ==> tid in s.ops
    requires s.lost.Keys <= s'.lost.Keys && s.used <= s'.used
    requires a in s'.ops && s'.ops[a].Cleaning? ==> s'.ops[a].cleanStage != CleanReplied(true)
    requires (forall tid :: tid in s.ops && s.ops[tid].Cleaning? ==> !s.ops[tid].cleanStage.CleanReplied?)
      || (&& (forall t :: t in s'.leases && t !in s.leases ==> t !in s.used && (t in s'.lost || (a in s'.ops && Tracks(s'.ops[a], t))))
          && (forall t :: a in s.ops && Tracks(s.ops[a], t) ==> a in s'.ops && Tracks(s'.ops[a], t)))
    ensures ConfirmationsHold(s')
  {
    forall tid | tid in s'.ops && s'.ops[tid].Cleaning? && s'.ops[tid].cleanStage == CleanReplied(true) && s'.ops[tid].todo != []
      ensures ConfirmationHolds(s', s'.ops[tid].todo[0])
    {
      assert tid != a && s.ops[tid] == s'.ops[tid];
      assert ConfirmationHolds(s, s.ops[tid].todo[0]);
      forall t | t in s'.leases && s.ops[tid].todo[0].ClearLeases? && t !in s'.lost
        ensures Tracked(s', t)
      {
        if t in s.leases {
          var x :| x in s.ops && Tracks(s.ops[x], t);
          if x != a { assert Tracks(s'.ops[x], t); }
        }
      }
    }
  }

  lemma CleanConfirmations(s: State, a: Tid, l: CleanStep)
    requires Locked(s) && TokensDrawn(s) && ConfirmationsHold(s) && CleanEnabled(s, a, l)
    ensures ConfirmationsHold(CleanApply(s, a, l))
  {
    var s' := CleanApply(s, a, l);
    forall tid | tid in s'.ops && s'.ops[tid].Cleaning? && s'.ops[tid].cleanStage == CleanReplied(true)
      ensures tid == a && l.Call?
    {
    }
  }

  lemma BestowBounded(s: State, a: Tid, l: GrantStep)
    requires Shapes(s) && TokensDrawn(s) && LostBounded(s) && GrantEnabled(s, a, l)
    ensures LostBounded(GrantApply(s, a, l))
  {
  }

  lemma InputBounded(s: State, a: Tid, l: InputStep)
    requires TokensDrawn(s) && LostBounded(s) && InputEnabled(s, a, l)
    ensures LostBounded(InputApply(s, a, l))
  {
  }

  /** A step that only lets leases go, draws identifiers or edits requests. */
  predicate LeavesLeases(s: State, s': State) {
    && s'.ops == s.ops && s'.backend == s.backend && s'.input == s.input
    && s'.broker.grants == s.broker.grants && s'.broker.unconfirmed == s.broker.unconfirmed
    && s'.lost == s.lost && s.used <= s'.used
    && s'.leases.Keys <= s.leases.Keys
    && (forall t :: t in s'.leases ==> s'.leases[t] == s.leases[t])
    && (s'.broker.picker.Some? ==> 1 <= s'.broker.picker.value.seconds <= 3600)
  }

  lemma LeavesLeasesKeeps(s: State, s': State)
    requires LeaseInv(s) && LeavesLeases(s, s')
    ensures LeaseInv(s')
  {
    forall t | t in s'.leases ensures Accounted(s', t) {
      assert Accounted(s, t);
      assert Tracked(s, t) == Tracked(s', t) && ClearOwed(s) == ClearOwed(s');
    }
    forall tid | tid in s'.ops && s'.ops[tid].Cleaning? && s'.ops[tid].cleanStage == CleanReplied(true) && s'.ops[tid].todo != []
      ensures ConfirmationHolds(s', s'.ops[tid].todo[0])
    {
      assert ConfirmationHolds(s, s.ops[tid].todo[0]);
      forall t ensures Tracked(s, t) == Tracked(s', t) {}
    }
  }

  lemma WorldLeases(s: State, l: WorldStep)
    requires LeaseInv(s) && WorldEnabled(s, l)
    ensures LeaseInv(WorldApply(s, l))
  {
    var s' := WorldApply(s, l);
    assert LeavesLeases(s, s');
    LeavesLeasesKeeps(s, s');
  }

  lemma AcquireLeases(s: State, a: Tid)
    requires LeaseInv(s) && AcquireEnabled(s, a)
    ensures LeaseInv(AcquireApply(s, a))
  {
    var s' := AcquireApply(s, a);
    AcquireShapes(s, a);
    AcquireLocked(s, a);
    Transfer(s, a, s');
    ConfirmationsKept(s, a, s');
  }

  // ---------------------------------------------------------- the main lemma

  lemma StartLeaseInv(s: State, a: Tid, l: StartStep)
    requires LeaseInv(s) && StartEnabled(s, a, l)
    ensures LeaseInv(StartApply(s, a, l))
  {
    StartShapes(s, a, l);
    StartUnspent(s, a, l);
    StartLocked(s, a, l);
    StartTokens(s, a, l);
    StartLeases(s, a, l);
    StartConfirmations(s, a, l);
  }

  lemma BestowLeaseInv(s: State, a: Tid, l: GrantStep)
    requires LeaseInv(s) && GrantEnabled(s, a, l)
    ensures LeaseInv(GrantApply(s, a, l))
  {
    BestowShapes(s, a, l);
    BestowUnspent(s, a, l);
    BestowLocked(s, a, l);
    BestowTokens(s, a, l);
    BestowLeases(s, a, l);
    BestowConfirmations(s, a, l);
    BestowBounded(s, a, l);
  }

  lemma CleanLeaseInv(s: State, a: Tid, l: CleanStep)
    requires LeaseInv(s) && CleanEnabled(s, a, l)
    ensures LeaseInv(CleanApply(s, a, l))
  {
    CleanShapes(s, a, l);
    CleanUnspent(s, a, l);
    CleanLocked(s, a, l);
    CleanTokens(s, a, l);
    CleanLeases(s, a, l);
    CleanConfirmations(s, a, l);
  }

  lemma InputLeaseInv(s: State, a: Tid, l: InputStep)
    requires LeaseInv(s) && InputEnabled(s, a, l)
    ensures LeaseInv(InputApply(s, a, l))
  {
    var s' := InputApply(s, a, l);
    assert Shapes(s') by { InputShapes(s, a, l); }
    assert Locked(s') by { InputLocked(s, a, l); }
    assert TokensDrawn(s') by { InputTokens(s, a, l); }
    assert LeasesAccounted(s') by { InputLeases(s, a, l); }
    assert ConfirmationsHold(s') by { InputConfirmations(s, a, l); }
    assert LostBounded(s') by { InputBounded(s, a, l); }
    assert Unspent(s') by { InputUnspent(s, a, l); }
  }

  /** Every step, with any outcome of its guard call, keeps every lease accounted for. */
  lemma LeaseInvStep(s: State, l: Label, s': State)
    requires LeaseInv(s) && Next(s, l, s')
    ensures LeaseInv(s')
  {
    match l
    case World(w) => WorldLeases(s, w);
    case Start(tid, st) => StartLeaseInv(s, tid, st);
    case Acquire(tid) => AcquireLeases(s, tid);
    case Bestow(tid, g) => BestowLeaseInv(s, tid, g);
    case Clean(tid, c) => CleanLeaseInv(s, tid, c);
    case Type(tid, i) => InputLeaseInv(s, tid, i);
  }
}

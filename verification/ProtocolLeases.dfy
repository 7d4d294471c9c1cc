/** When a control grant has its lease at the guard, and what takes it away. */
module ProtocolLeases {
  import opened Common
  import opened BrokerModel
  import opened Protocol
  import opened ProtocolSafety
  import opened ProtocolHistory
  import opened ProtocolRuns
  import opened ProtocolProvenance

  // ------------------------------------------------- revocations of the dead

  /** The operation is to revoke the lease of `t`. */
  predicate Dooms(op: Op, t: Id) {
    match op
    case Cleaning(todo, _, _) => RevokeLease(t) in todo
    case Input(_, _, lease, own, _) => own && lease == Some(t)
    case _ => false
  }

  ghost predicate Doomed(s: State, t: Id) {
    RevokeLease(t) in s.broker.unconfirmed || exists tid :: tid in s.ops && Dooms(s.ops[tid], t)
  }

  /** The operation is about to commit a grant `t`. */
  predicate Pledges(op: Op, t: Id) {
    op.Granting? && op.grantStage.Authorized? && op.grantStage.grant.id == t
  }

  ghost predicate Pledged(s: State, t: Id) {
    exists tid :: tid in s.ops && Pledges(s.ops[tid], t)
  }

  /** No revocation is due for a grant that is there or about to be. */
  ghost predicate Separate(s: State) {
    forall t {:trigger Doomed(s, t)} :: Doomed(s, t) ==> t !in s.broker.grants && !Pledged(s, t)
  }

  lemma DoomedDrawn(s: State, t: Id)
    requires TokensDrawn(s) && (Doomed(s, t) || Pledged(s, t))
    ensures t in s.used
  {
    if Pledged(s, t) {
      var tid :| tid in s.ops && Pledges(s.ops[tid], t);
      assert OpDrawn(s.ops[tid], s.used);
    } else if RevokeLease(t) !in s.broker.unconfirmed {
      var tid :| tid in s.ops && Dooms(s.ops[tid], t);
      assert OpDrawn(s.ops[tid], s.used);
      if s.ops[tid].Cleaning? {
        var i :| 0 <= i < |s.ops[tid].todo| && s.ops[tid].todo[i] == RevokeLease(t);
      }
    }
  }

  /** What the acting operation and the table come to decides; the others are as before. */
  lemma DoomedBy(s: State, a: Tid, s': State, t: Id)
    requires Doomed(s', t)
    requires forall tid :: tid != a && tid in s'.ops ==> tid in s.ops && s'.ops[tid] == s.ops[tid]
    ensures Doomed(s, t) || RevokeLease(t) in s'.broker.unconfirmed || (a in s'.ops && Dooms(s'.ops[a], t))
  {
    if RevokeLease(t) !in s'.broker.unconfirmed {
      var tid :| tid in s'.ops && Dooms(s'.ops[tid], t);
      if tid != a { assert Dooms(s.ops[tid], t); }
    }
  }

  lemma PledgedBy(s: State, a: Tid, s': State, t: Id)
    requires Pledged(s', t)
    requires forall tid :: tid != a && tid in s'.ops ==> tid in s.ops && s'.ops[tid] == s.ops[tid]
    ensures Pledged(s, t) || (a in s'.ops && Pledges(s'.ops[a], t))
  {
    var tid :| tid in s'.ops && Pledges(s'.ops[tid], t);
    if tid != a { assert Pledges(s.ops[tid], t); }
  }

  lemma StartSeparate(s: State, a: Tid, l: StartStep, t: Id)
    requires Separate(s) && Unspent(s) && StartEnabled(s, a, l) && Doomed(StartApply(s, a, l), t)
    ensures t !in StartApply(s, a, l).broker.grants && !Pledged(StartApply(s, a, l), t)
  {
    var s' := StartApply(s, a, l);
    forall tid | tid != a && tid in s'.ops ensures tid in s.ops && s'.ops[tid] == s.ops[tid] { StartLeavesOthers(s, a, l, tid); }
    StartLeavesGuard(s, a, l);
    StartOnlyRemoves(s, a, l);
    StartPledgesNothing(s, a, l, t);
    DoomedBy(s, a, s', t);
    if Pledged(s', t) { PledgedBy(s, a, s', t); }
    if !Doomed(s, t) { StartDooms(s, a, l, t); }
  }

  lemma StartPledgesNothing(s: State, a: Tid, l: StartStep, t: Id)
    requires StartEnabled(s, a, l)
    ensures !(a in StartApply(s, a, l).ops && Pledges(StartApply(s, a, l).ops[a], t))
  {
  }

  /** What a command revokes at the guard it has withdrawn at the broker. */
  lemma StartDooms(s: State, a: Tid, l: StartStep, t: Id)
    requires Unspent(s) && StartEnabled(s, a, l)
    requires a in StartApply(s, a, l).ops && Dooms(StartApply(s, a, l).ops[a], t)
    ensures t !in StartApply(s, a, l).broker.grants && !Pledged(s, t)
  {
    if l.Disconnect? {
      var i :| 0 <= i < |Revocations(l.tokens)| && Revocations(l.tokens)[i] == RevokeLease(t);
      assert l.tokens[i] == t && t in l.tokens;
    }
    NotPledged(s, t);
  }

  lemma NotPledged(s: State, t: Id)
    requires Unspent(s) && t in s.broker.grants
    ensures !Pledged(s, t)
  {
  }

  lemma BestowSeparate(s: State, a: Tid, l: GrantStep, t: Id)
    requires Separate(s) && Unspent(s) && Locked(s) && TokensDrawn(s) && GrantEnabled(s, a, l) && Doomed(GrantApply(s, a, l), t)
    ensures t !in GrantApply(s, a, l).broker.grants && !Pledged(GrantApply(s, a, l), t)
  {
    var s' := GrantApply(s, a, l);
    BestowOthers(s, a, l);
    DoomedBy(s, a, s', t);
    BestowOutcome(s, a, l, t);
    if Pledged(s', t) { PledgedBy(s, a, s', t); }
    if Doomed(s, t) {
      DoomedDrawn(s, t);
      assert Pledges(s.ops[a], t) ==> Pledged(s, t);
    } else {
      OnlyPledge(s, a, t);
    }
  }

  lemma BestowOthers(s: State, a: Tid, l: GrantStep)
    requires GrantEnabled(s, a, l)
    ensures var s' := GrantApply(s, a, l);
      s'.broker.unconfirmed == s.broker.unconfirmed
      && forall tid :: tid != a && tid in s'.ops ==> tid in s.ops && s'.ops[tid] == s.ops[tid]
  {
    match l
    case GiveUp =>
    case Authorize(_, _, _) =>
    case Prepare(_, _) =>
    case Commit =>
  }

  lemma BestowOutcome(s: State, a: Tid, l: GrantStep, t: Id)
    requires GrantEnabled(s, a, l)
    ensures var s' := GrantApply(s, a, l);
      && (t in s'.broker.grants ==> t in s.broker.grants || Pledges(s.ops[a], t))
      && (a in s'.ops && Pledges(s'.ops[a], t) ==> t !in s.used)
      && (a in s'.ops && Dooms(s'.ops[a], t) ==> Pledges(s.ops[a], t) && s'.broker.grants == s.broker.grants)
  {
  }

  /** The holder of the backend lock is the only one that can be about to commit. */
  lemma OnlyPledge(s: State, a: Tid, t: Id)
    requires Locked(s) && Unspent(s) && a in s.ops
    ensures Pledges(s.ops[a], t) ==> t !in s.broker.grants
    ensures Pledges(s.ops[a], t) ==> forall tid :: tid in s.ops && Pledges(s.ops[tid], t) ==> tid == a
  {
    if Pledges(s.ops[a], t) {
      assert NeedsBackend(s.ops[a]);
      forall tid | tid in s.ops && Pledges(s.ops[tid], t) ensures tid == a { assert NeedsBackend(s.ops[tid]); }
    }
  }

  lemma CleanSeparate(s: State, a: Tid, l: CleanStep, t: Id)
    requires Separate(s) && CleanEnabled(s, a, l) && Doomed(CleanApply(s, a, l), t)
    ensures t !in CleanApply(s, a, l).broker.grants && !Pledged(CleanApply(s, a, l), t)
  {
    var s' := CleanApply(s, a, l);
    CleanOnlyRemoves(s, a, l);
    CleanOnlyCleans(s, a, l);
    DoomedBy(s, a, s', t);
    CleanDooms(s, a, l, t);
    if Dooms(s.ops[a], t) { assert a in s.ops && Doomed(s, t); }
    assert Doomed(s, t);
    if Pledged(s', t) { PledgedBy(s, a, s', t); }
  }

  lemma CleanDooms(s: State, a: Tid, l: CleanStep, t: Id)
    requires CleanEnabled(s, a, l)
    ensures var s' := CleanApply(s, a, l);
      (RevokeLease(t) in s'.broker.unconfirmed || (a in s'.ops && Dooms(s'.ops[a], t)))
      ==> RevokeLease(t) in s.broker.unconfirmed || Dooms(s.ops[a], t)
  {
    match l
    case Call(_) =>
    case Conclude =>
    case Sweep(_) =>
  }

  lemma InputSeparate(s: State, a: Tid, l: InputStep, t: Id)
    requires Separate(s) && TokensDrawn(s) && InputEnabled(s, a, l) && Doomed(InputApply(s, a, l), t)
    ensures t !in InputApply(s, a, l).broker.grants && !Pledged(InputApply(s, a, l), t)
  {
    var s' := InputApply(s, a, l);
    InputDooms(s, a, l, t);
    DoomedBy(s, a, s', t);
    if Dooms(s.ops[a], t) { assert a in s.ops && Doomed(s, t); }
    if !Doomed(s, t) { assert t !in s.used; }
    if Pledged(s', t) { PledgedBy(s, a, s', t); }
    if Pledged(s, t) { DoomedDrawn(s, t); }
  }

  lemma InputDooms(s: State, a: Tid, l: InputStep, t: Id)
    requires InputEnabled(s, a, l)
    ensures var s' := InputApply(s, a, l);
      && s'.broker == s.broker
      && (forall tid :: tid != a && tid in s'.ops ==> tid in s.ops && s'.ops[tid] == s.ops[tid])
      && (a in s'.ops ==> !Pledges(s'.ops[a], t))
      && (a in s'.ops && Dooms(s'.ops[a], t) ==> Dooms(s.ops[a], t) || t !in s.used)
  {
    match l
    case Enter =>
    case Abandon =>
    case Lease(_, _) =>
    case Check =>
    case Deliver =>
    case Answer =>
    case Finish =>
  }

  lemma WorldSeparate(s: State, l: WorldStep, t: Id)
    requires Separate(s) && WorldEnabled(s, l) && Doomed(WorldApply(s, l), t)
    ensures t !in WorldApply(s, l).broker.grants && !Pledged(WorldApply(s, l), t)
  {
    WorldGrants(s, l);
    WorldLeavesOps(s, l);
    assert Doomed(s, t) && (Pledged(WorldApply(s, l), t) ==> Pledged(s, t));
  }

  lemma WorldLeavesOps(s: State, l: WorldStep)
    requires WorldEnabled(s, l)
    ensures WorldApply(s, l).ops == s.ops && WorldApply(s, l).broker.unconfirmed == s.broker.unconfirmed
  {
  }

  lemma AcquireSeparate(s: State, a: Tid, t: Id)
    requires Separate(s) && AcquireEnabled(s, a) && Doomed(AcquireApply(s, a), t)
    ensures t !in AcquireApply(s, a).broker.grants && !Pledged(AcquireApply(s, a), t)
  {
    var s' := AcquireApply(s, a);
    DoomedBy(s, a, s', t);
    if a in s'.ops && Dooms(s'.ops[a], t) { assert a in s.ops && Dooms(s.ops[a], t); }
    assert Doomed(s, t);
    if Pledged(s', t) { PledgedBy(s, a, s', t); }
  }

  lemma SeparateStep(s: State, l: Label, s': State)
    requires ProtocolInv(s) && Separate(s) && Next(s, l, s')
    ensures Separate(s')
  {
    forall t | Doomed(s', t) ensures t !in s'.broker.grants && !Pledged(s', t) {
      match l
      case World(w) => WorldSeparate(s, w, t);
      case Start(a, st) => StartSeparate(s, a, st, t);
      case Acquire(a) => AcquireSeparate(s, a, t);
      case Bestow(a, g) => BestowSeparate(s, a, g, t);
      case Clean(a, c) => CleanSeparate(s, a, c, t);
      case Type(a, i) => InputSeparate(s, a, i, t);
    }
  }

  lemma {:induction false} SeparateRun(states: seq<State>, labels: seq<Label>, j: nat)
    requires FromStart(states, labels) && j < |states|
    ensures Separate(states[j])
    decreases j
  {
    if j > 0 {
      SeparateRun(states, labels, j - 1);
      RunKeepsInv(states, labels, 0, j - 1);
      At(states, labels, j - 1);
      SeparateStep(states[j - 1], labels[j - 1], states[j]);
    }
  }

  // ------------------------------------------------------ losing a lease

  /** The guard drops the lease on its own: expiry, a locked session, a closed window. */
  ghost predicate DropsLease(l: Label, t: Id) {
    l.World? && l.world.DropLeases? && t in l.world.dropped
  }

  ghost predicate LosesLease(s: State, l: Label, t: Id) {
    DropsLease(l, t) || TakesEffect(s, l, ClearLeases) || TakesEffect(s, l, RevokeLease(t))
  }

  lemma CleanLoses(s: State, a: Tid, l: CleanStep, t: Id)
    requires CleanEnabled(s, a, l) && t in s.leases
    ensures t in CleanApply(s, a, l).leases <==> !LosesLease(s, Clean(a, l), t)
    ensures t in CleanApply(s, a, l).leases ==> CleanApply(s, a, l).leases[t] == s.leases[t]
  {
    match l
    case Call(_) =>
    case Conclude =>
    case Sweep(_) =>
  }

  lemma WorldLoses(s: State, l: WorldStep, t: Id)
    requires WorldEnabled(s, l) && t in s.leases
    ensures t in WorldApply(s, l).leases <==> !LosesLease(s, World(l), t)
    ensures t in WorldApply(s, l).leases ==> WorldApply(s, l).leases[t] == s.leases[t]
  {
  }

  lemma BestowLoses(s: State, a: Tid, l: GrantStep, t: Id)
    requires GrantEnabled(s, a, l) && t in s.leases && t in s.used
    ensures t in GrantApply(s, a, l).leases && GrantApply(s, a, l).leases[t] == s.leases[t]
  {
  }

  lemma InputLoses(s: State, a: Tid, l: InputStep, t: Id)
    requires InputEnabled(s, a, l) && t in s.leases && t in s.used
    ensures t in InputApply(s, a, l).leases && InputApply(s, a, l).leases[t] == s.leases[t]
  {
  }

  /** A lease goes exactly by a step that loses it, and until then does not change. */
  lemma LeaseStep(s: State, l: Label, s': State, t: Id)
    requires Next(s, l, s') && t in s.leases && t in s.used
    ensures t in s'.leases <==> !LosesLease(s, l, t)
    ensures t in s'.leases ==> s'.leases[t] == s.leases[t]
  {
    match l
    case World(w) => WorldLoses(s, w, t);
    case Start(a, st) => StartNoLease(s, a, st);
    case Acquire(a) =>
    case Bestow(a, g) => BestowLoses(s, a, g, t);
    case Clean(a, c) => CleanLoses(s, a, c, t);
    case Type(a, i) => InputLoses(s, a, i, t);
  }

  lemma {:induction false} LeaseRun(states: seq<State>, labels: seq<Label>, i: nat, j: nat, t: Id)
    requires IsRun(states, labels) && i <= j < |states| && t in states[i].leases && t in states[i].used
    ensures t in states[j].used
    ensures t in states[j].leases <==> forall x :: i <= x < j ==> !LosesLease(states[x], labels[x], t)
    ensures t in states[j].leases ==> states[j].leases[t] == states[i].leases[t]
    decreases j
  {
    if i < j {
      LeaseRun(states, labels, i, j - 1, t);
      At(states, labels, j - 1);
      UsedGrows(states[j - 1], labels[j - 1], states[j]);
      if t in states[j - 1].leases {
        LeaseStep(states[j - 1], labels[j - 1], states[j], t);
      } else {
        LeaseGoneStep(states[j - 1], labels[j - 1], states[j], t);
      }
    }
  }

  lemma UsedGrows(s: State, l: Label, s': State)
    requires Next(s, l, s')
    ensures s.used <= s'.used
  {
    match l
    case World(w) => WorldNoOldLease(s, w);
    case Start(a, st) => StartNoLease(s, a, st);
    case Acquire(a) =>
    case Bestow(a, g) => BestowUsed(s, a, g);
    case Clean(a, c) => CleanNoLease(s, a, c);
    case Type(a, i) => InputUsed(s, a, i);
  }

  lemma BestowUsed(s: State, a: Tid, l: GrantStep)
    requires GrantEnabled(s, a, l)
    ensures s.used <= GrantApply(s, a, l).used
  {
  }

  lemma InputUsed(s: State, a: Tid, l: InputStep)
    requires InputEnabled(s, a, l)
    ensures s.used <= InputApply(s, a, l).used
  {
  }

  // ------------------------------------------------ the lease of a grant

  /** The operation authorized this lease at `a`, and was about to commit it ever since. */
  ghost predicate AuthorizedAt(states: seq<State>, labels: seq<Label>, a: nat, m: nat, tid: Tid, op: Op)
    requires |states| == |labels| + 1 && m < |states| && op.Granting? && op.grantStage.Authorized?
  {
    var t := op.grantStage.grant.id;
    && a < m
    && labels[a] == Bestow(tid, Authorize(t, op.grantStage.current, Answered))
    && t in states[a + 1].used && t in states[a + 1].leases
    && states[a + 1].leases[t] == GuardLease(op.proposal.scope.id, states[a].now + op.proposal.seconds * SECOND)
    && forall x :: a < x <= m ==> tid in states[x].ops && states[x].ops[tid] == op
  }

  lemma BestowAuthorizes(s: State, b: Tid, l: GrantStep, tid: Tid)
    requires GrantEnabled(s, b, l) && tid in GrantApply(s, b, l).ops
    requires GrantApply(s, b, l).ops[tid].Granting? && GrantApply(s, b, l).ops[tid].grantStage.Authorized?
    requires GrantApply(s, b, l).ops[tid].grantStage.leased
    ensures var s', op := GrantApply(s, b, l), GrantApply(s, b, l).ops[tid];
      (tid in s.ops && s.ops[tid] == op)
      || (&& b == tid && l == Authorize(op.grantStage.grant.id, op.grantStage.current, Answered)
          && op.grantStage.grant.id in s'.used && op.grantStage.grant.id in s'.leases
          && s'.leases[op.grantStage.grant.id] == GuardLease(op.proposal.scope.id, s.now + op.proposal.seconds * SECOND))
  {
  }

  lemma StepAuthorizes(s: State, l: Label, s': State, tid: Tid)
    requires Next(s, l, s') && tid in s'.ops
    requires s'.ops[tid].Granting? && s'.ops[tid].grantStage.Authorized? && s'.ops[tid].grantStage.leased
    ensures var op := s'.ops[tid];
      (tid in s.ops && s.ops[tid] == op)
      || (&& l == Bestow(tid, Authorize(op.grantStage.grant.id, op.grantStage.current, Answered))
          && op.grantStage.grant.id in s'.used && op.grantStage.grant.id in s'.leases
          && s'.leases[op.grantStage.grant.id] == GuardLease(op.proposal.scope.id, s.now + op.proposal.seconds * SECOND))
  {
    match l
    case World(w) => WorldLeavesOps(s, w);
    case Start(a, st) => StartNotAuthorized(s, a, st, tid);
    case Acquire(a) =>
    case Bestow(b, g) => BestowAuthorizes(s, b, g, tid);
    case Clean(a, c) => CleanGranting(s, a, c, tid);
    case Type(a, i) => InputGranting(s, a, i, tid);
  }

  lemma StartNotAuthorized(s: State, a: Tid, l: StartStep, tid: Tid)
    requires StartEnabled(s, a, l) && tid in StartApply(s, a, l).ops
    requires StartApply(s, a, l).ops[tid].Granting? && StartApply(s, a, l).ops[tid].grantStage.Authorized?
    ensures tid in s.ops && StartApply(s, a, l).ops[tid] == s.ops[tid]
  {
    if tid != a { StartLeavesOthers(s, a, l, tid); }
  }

  lemma {:induction false} AuthorizedEarlier(states: seq<State>, labels: seq<Label>, m: nat, tid: Tid) returns (a: nat)
    requires FromStart(states, labels) && m < |states| && tid in states[m].ops
    requires states[m].ops[tid].Granting? && states[m].ops[tid].grantStage.Authorized? && states[m].ops[tid].grantStage.leased
    ensures AuthorizedAt(states, labels, a, m, tid, states[m].ops[tid])
    decreases m
  {
    assert m > 0;
    At(states, labels, m - 1);
    StepAuthorizes(states[m - 1], labels[m - 1], states[m], tid);
    if tid in states[m - 1].ops && states[m - 1].ops[tid] == states[m].ops[tid] {
      a := AuthorizedEarlier(states, labels, m - 1, tid);
    } else {
      a := m - 1;
    }
  }

  /** While an operation is about to commit, no other can call the guard. */
  lemma NoCallWhilePledged(s: State, l: Label, tid: Tid, call: Cleanup)
    requires Locked(s) && tid in s.ops && s.ops[tid].Granting? && s.ops[tid].grantStage.Authorized?
    ensures !TakesEffect(s, l, call)
  {
    assert NeedsBackend(s.ops[tid]);
    if TakesEffect(s, l, call) { assert NeedsBackend(s.ops[l.tid]); }
  }

  /** No revocation of a grant that is still there takes effect. */
  lemma NoRevokeOfGrant(states: seq<State>, labels: seq<Label>, x: nat, t: Id)
    requires FromStart(states, labels) && x < |labels| && t in states[x].broker.grants
    ensures !TakesEffect(states[x], labels[x], RevokeLease(t))
  {
    SeparateRun(states, labels, x);
    if TakesEffect(states[x], labels[x], RevokeLease(t)) {
      assert Dooms(states[x].ops[labels[x].tid], t) && Doomed(states[x], t);
    }
  }

  /** A control grant that is still there has its lease, for the time it was given from its
      authorization, exactly as long as since then the guard has not dropped it by itself
      and no guard-wide clear has taken effect. No clear can, before the grant commits. */
  lemma GrantHasLease(states: seq<State>, labels: seq<Label>, j: nat, t: Id) returns (tid: Tid, a: nat, m: nat, seconds: int)
    requires FromStart(states, labels) && j < |states| && ControlGrant(states[j], t)
    ensures a < m < j && labels[a].Bestow? && labels[a].tid == tid && labels[a].grant.Authorize?
    ensures labels[a].grant.newId == t && labels[a].grant.outcome == Answered && labels[m] == Bestow(tid, Commit)
    ensures Grants(states[m], labels[m], states[j].broker.grants[t]) && states[j].broker.grants[t].id == t
    ensures forall x :: m < x <= j ==> t in states[x].broker.grants
    ensures t in states[j].leases <==>
      forall x :: a < x < j ==> !DropsLease(labels[x], t) && !TakesEffect(states[x], labels[x], ClearLeases)
    ensures t in states[j].leases ==>
      states[j].leases[t] == GuardLease(states[j].broker.grants[t].scope.id, states[a].now + seconds * SECOND)
    ensures seconds == states[m].ops[tid].proposal.seconds && forall x :: a < x <= m ==> tid in states[x].ops
    ensures forall x :: a < x <= m ==> !TakesEffect(states[x], labels[x], ClearLeases)
  {
    m := CommittedEarlier(states, labels, j, t);
    tid := labels[m].tid;
    var op := states[m].ops[tid];
    seconds := op.proposal.seconds;
    assert Shaped(op) by { RunKeepsInv(states, labels, 0, m); }
    a := AuthorizedEarlier(states, labels, m, tid);
    LeaseRun(states, labels, a + 1, j, t);
    forall x | a < x <= m ensures !TakesEffect(states[x], labels[x], ClearLeases) && !TakesEffect(states[x], labels[x], RevokeLease(t)) {
      NoCallAt(states, labels, x, tid);
    }
    forall x | m < x < j ensures !TakesEffect(states[x], labels[x], RevokeLease(t)) {
      NoRevokeOfGrant(states, labels, x, t);
    }
  }

  lemma NoCallAt(states: seq<State>, labels: seq<Label>, x: nat, tid: Tid)
    requires FromStart(states, labels) && x < |labels| && tid in states[x].ops
    requires states[x].ops[tid].Granting? && states[x].ops[tid].grantStage.Authorized?
    ensures forall call :: !TakesEffect(states[x], labels[x], call)
  {
    assert Locked(states[x]) by { RunKeepsInv(states, labels, 0, x); }
    forall call ensures !TakesEffect(states[x], labels[x], call) {
      NoCallWhilePledged(states[x], labels[x], tid, call);
    }
  }

  // ------------------------------------------------- where clears come from

  ghost predicate ClearDue(s: State) {
    ClearOwed(s) || ClearLeases in s.broker.unconfirmed
  }

  /** Maintenance found an expired control grant. */
  ghost predicate ControlRunsOut(s: State, l: Label) {
    l.Start? && l.start.Maintain? && ControlExpired(s.broker, s.now)
  }

  ghost predicate BeginsClear(s: State, l: Label) {
    (l.Start? && StartsClear(s, l.start)) || ControlRunsOut(s, l)
  }

  lemma OwedBy(s: State, a: Tid, s': State)
    requires ClearOwed(s')
    requires forall tid :: tid != a && tid in s'.ops ==> tid in s.ops && s'.ops[tid] == s.ops[tid]
    ensures ClearOwed(s) || (a in s'.ops && OwesClear(s'.ops[a]))
  {
    var tid :| tid in s'.ops && OwesClear(s'.ops[tid]);
    if tid != a { assert OwesClear(s.ops[tid]); }
  }

  lemma StartOwes(s: State, a: Tid, l: StartStep)
    requires StartEnabled(s, a, l) && a in StartApply(s, a, l).ops && OwesClear(StartApply(s, a, l).ops[a])
    ensures StartsClear(s, l) || ControlRunsOut(s, Start(a, l))
  {
  }

  lemma StartDue(s: State, a: Tid, l: StartStep)
    requires StartEnabled(s, a, l) && ClearDue(StartApply(s, a, l))
    ensures ClearDue(s) || StartsClear(s, l) || ControlRunsOut(s, Start(a, l))
  {
    var s' := StartApply(s, a, l);
    StartLeavesGuard(s, a, l);
    forall tid | tid != a && tid in s'.ops ensures tid in s.ops && s'.ops[tid] == s.ops[tid] { StartLeavesOthers(s, a, l, tid); }
    if ClearOwed(s') {
      OwedBy(s, a, s');
      if !ClearOwed(s) { StartOwes(s, a, l); }
    }
  }

  lemma BestowDue(s: State, a: Tid, l: GrantStep)
    requires GrantEnabled(s, a, l) && ClearDue(GrantApply(s, a, l))
    ensures ClearDue(s)
  {
    BestowOthers(s, a, l);
    BestowOwesNothing(s, a, l);
    if ClearOwed(GrantApply(s, a, l)) { OwedBy(s, a, GrantApply(s, a, l)); }
  }

  lemma BestowOwesNothing(s: State, a: Tid, l: GrantStep)
    requires GrantEnabled(s, a, l)
    ensures a in GrantApply(s, a, l).ops ==> !OwesClear(GrantApply(s, a, l).ops[a])
  {
  }

  lemma CleanOwes(s: State, a: Tid, l: CleanStep)
    requires Shapes(s) && CleanEnabled(s, a, l)
    requires ClearLeases in CleanApply(s, a, l).broker.unconfirmed || (a in CleanApply(s, a, l).ops && OwesClear(CleanApply(s, a, l).ops[a]))
    ensures ClearLeases in s.broker.unconfirmed || OwesClear(s.ops[a])
  {
    match l
    case Call(_) =>
    case Conclude =>
    case Sweep(_) =>
  }

  lemma CleanDue(s: State, a: Tid, l: CleanStep)
    requires Shapes(s) && CleanEnabled(s, a, l) && ClearDue(CleanApply(s, a, l))
    ensures ClearDue(s)
  {
    CleanOnlyRemoves(s, a, l);
    if ClearLeases !in CleanApply(s, a, l).broker.unconfirmed { OwedBy(s, a, CleanApply(s, a, l)); }
    if !ClearOwed(s) { CleanOwes(s, a, l); }
  }

  lemma InputDue(s: State, a: Tid, l: InputStep)
    requires InputEnabled(s, a, l) && ClearDue(InputApply(s, a, l))
    ensures ClearDue(s)
  {
    var s' := InputApply(s, a, l);
    InputOwesNothing(s, a, l);
    if ClearOwed(s') { OwedBy(s, a, s'); }
  }

  lemma InputOwesNothing(s: State, a: Tid, l: InputStep)
    requires InputEnabled(s, a, l)
    ensures var s' := InputApply(s, a, l);
      && s'.broker == s.broker && (a in s'.ops ==> !OwesClear(s'.ops[a]))
      && (forall tid :: tid != a && tid in s'.ops ==> tid in s.ops && s'.ops[tid] == s.ops[tid])
  {
    match l
    case Enter =>
    case Abandon =>
    case Lease(_, _) =>
    case Check =>
    case Deliver =>
    case Answer =>
    case Finish =>
  }

  lemma StepDue(s: State, l: Label, s': State)
    requires Shapes(s) && Next(s, l, s') && ClearDue(s')
    ensures ClearDue(s) || BeginsClear(s, l)
  {
    match l
    case World(w) => WorldLeavesOps(s, w);
    case Start(a, st) => StartDue(s, a, st);
    case Acquire(a) => if ClearOwed(s') { OwedBy(s, a, s'); }
    case Bestow(a, g) => BestowDue(s, a, g);
    case Clean(a, c) => CleanDue(s, a, c);
    case Type(a, i) => InputDue(s, a, i);
  }

  lemma {:induction false} DueSince(states: seq<State>, labels: seq<Label>, i: nat, x: nat)
    requires FromStart(states, labels) && i <= x < |states| && ClearDue(states[x])
    ensures ClearDue(states[i]) || exists y :: i <= y < x && BeginsClear(states[y], labels[y])
    decreases x
  {
    if i < x {
      RunKeepsInv(states, labels, 0, x - 1);
      At(states, labels, x - 1);
      StepDue(states[x - 1], labels[x - 1], states[x]);
      if ClearDue(states[x - 1]) { DueSince(states, labels, i, x - 1); }
    }
  }

  lemma ClearsAll(s: State, a: Tid, l: StartStep)
    requires StartEnabled(s, a, l) && StartsClear(s, l)
    ensures StartApply(s, a, l).broker.grants == map[]
  {
  }

  /** A clear that takes a lease from a grant still there was already owed by an operation
      when the grant committed, or comes from a maintenance pass since that found another
      control grant expired. */
  lemma ClearWasDue(states: seq<State>, labels: seq<Label>, m: nat, x: nat, j: nat, g: Grant)
    requires FromStart(states, labels) && m < x < j < |states| && Grants(states[m], labels[m], g)
    requires forall y :: m < y <= j ==> g.id in states[y].broker.grants
    requires TakesEffect(states[x], labels[x], ClearLeases)
    ensures ClearOwed(states[m + 1]) || exists y :: m < y < x && ControlRunsOut(states[y], labels[y])
  {
    assert OwesClear(states[x].ops[labels[x].tid]) && ClearOwed(states[x]);
    DueSince(states, labels, m + 1, x);
    forall y | m < y < x && labels[y].Start? && StartsClear(states[y], labels[y].start) ensures false {
      At(states, labels, y);
      ClearsAll(states[y], labels[y].tid, labels[y].start);
    }
    At(states, labels, m);
    CommitOpen(states[m], labels[m].tid);
  }

  /** So a control grant without its lease has one of three causes: the guard dropped it by
      itself, a clear was owed when it committed, or a neighbour's time ran out since. */
  lemma WhyNoLease(states: seq<State>, labels: seq<Label>, j: nat, t: Id) returns (a: nat, m: nat)
    requires FromStart(states, labels) && j < |states| && ControlGrant(states[j], t) && t !in states[j].leases
    ensures a < m < j && Grants(states[m], labels[m], states[j].broker.grants[t])
    ensures (exists x :: a < x < j && DropsLease(labels[x], t))
         || ClearOwed(states[m + 1]) || (exists y :: m < y < j && ControlRunsOut(states[y], labels[y]))
  {
    var tid, seconds;
    tid, a, m, seconds := GrantHasLease(states, labels, j, t);
    var x: nat :| a < x < j && (DropsLease(labels[x], t) || TakesEffect(states[x], labels[x], ClearLeases));
    if !DropsLease(labels[x], t) {
      ClearWasDue(states, labels, m, x, j, states[j].broker.grants[t]);
    }
  }

  lemma CommitOpen(s: State, a: Tid)
    requires GrantEnabled(s, a, Commit) && Stands(s, s.ops[a].proposal)
    ensures GrantApply(s, a, Commit).broker.unconfirmed == {}
  {
  }

  // -------------------------------------------------------- both really happen

  lemma DecisionReachable(s: State, tid: Tid, r: Id, seconds: int) returns (s': State)
    requires Reachable(s) && tid !in s.ops && s.backend == None && MayDecide(s.broker, r, seconds)
    ensures Reachable(s')
    ensures s' == s.(backend := Some(tid), ops := s.ops[tid := Granting(DecideProposal(s, r, seconds), Holding)])
  {
    var s1 := StartApply(s, tid, Decide(r, seconds));
    ReachStep(s, Start(tid, Decide(r, seconds)), s1);
    s' := AcquireApply(s1, tid);
    ReachStep(s1, Acquire(tid), s');
    assert s'.ops == s.ops[tid := Granting(DecideProposal(s, r, seconds), Holding)];
  }

  /** A pending request for control is approved without anything else happening. */
  lemma GrantReachable(s: State, tid: Tid, r: Id, t: Id, seconds: int) returns (s': State)
    requires Reachable(s) && tid !in s.ops && s.backend == None && s.input != Some(tid) && t !in s.used
    requires MayDecide(s.broker, r, seconds) && s.broker.requests[r].capability == Control
    ensures Reachable(s') && s'.now == s.now && s'.ops == s.ops && s'.backend == None && s'.input == s.input
    ensures s'.used == s.used + {t} && s'.leases == s.leases[t := GuardLease(s.broker.requests[r].scope.id, s.now + seconds * SECOND)]
    ensures s'.broker == WithDecision(s.broker, r,
      Grant(t, s.broker.requests[r].client, Control, s.broker.requests[r].scope, s.now + seconds * SECOND))
  {
    var s1 := DecisionReachable(s, tid, r, seconds);
    var s2 := GrantApply(s1, tid, Authorize(t, None, Answered));
    ReachStep(s1, Bestow(tid, Authorize(t, None, Answered)), s2);
    s' := GrantApply(s2, tid, Commit);
    ReachStep(s2, Bestow(tid, Commit), s');
    assert s'.ops == s.ops;
  }

  /** An owed clear is carried out and confirmed. */
  lemma ClearReachable(s: State, tid: Tid) returns (s': State)
    requires Reachable(s) && s.ops == map[tid := Cleaning([ClearLeases], false, CleanQueued)] && s.backend == None
    ensures Reachable(s') && s'.now == s.now && s'.ops == map[] && s'.leases == map[]
    ensures s'.broker == s.broker.(unconfirmed := {})
  {
    var s1 := AcquireApply(s, tid);
    ReachStep(s, Acquire(tid), s1);
    var s2 := CleanApply(s1, tid, Call(Answered));
    ReachStep(s1, Clean(tid, Call(Answered)), s2);
    s' := CleanApply(s2, tid, Conclude);
    ReachStep(s2, Clean(tid, Conclude), s');
  }

  /** A second request, by the client of the first run. */
  lemma AskAgain(s: State, scope: Scope, id: Id) returns (s': State)
    requires Reachable(s) && id !in s.used && 1 in s.used && s.broker.requests.Keys == {2}
    requires Open(s.broker) && s.broker.mode == Approve && ValidScope(Control, scope)
    requires forall g :: g in s.broker.grants ==> s.broker.grants[g].scope != scope
    requires !SameAsk(s.broker.requests[2], 1, Control, scope)
    ensures Reachable(s') && MayDecide(s'.broker, id, 60)
    ensures s' == s.(used := s.used + {id}, broker := s'.broker)
    ensures s'.broker == WithAsk(s.broker, s.now, 1, Control, scope, id)
  {
    assert |s.broker.requests| == |s.broker.requests.Keys|;
    assert !AlreadyAsked(s.broker, 1, Control, scope);
    s' := WorldApply(s, Ask(1, Control, scope, None, id));
    ReachStep(s, World(Ask(1, Control, scope, None, id)), s');
  }

  /** A grant can lose its lease to a clear that was owed before it was approved: revoking
      everything queues the clear, and a decision reaches the guard first. No time passes
      and every call is answered. */
  lemma ClearOvertaken() returns (s: State, t: Id)
    ensures Reachable(s) && s.ops == map[] && s.broker.unconfirmed == {} && s.now == 0
    ensures ControlGrant(s, t) && s.now < s.broker.grants[t].expires && s.leases == map[]
  {
    var s0 := AskReachable();
    var s1 := StartApply(s0, 9, RevokeAll);
    ReachStep(s0, Start(9, RevokeAll), s1);
    var s2 := AskAgain(s1, Scope(WindowKind, "w"), 3);
    t := 4;
    var s3 := GrantReachable(s2, 0, 3, t, 60);
    s := ClearReachable(s3, 9);
  }

  /** Two grants of control, one of them for a second. */
  lemma TwoGrants() returns (s: State)
    ensures Reachable(s) && s.ops == map[] && s.backend == None && s.broker.unconfirmed == {} && s.now == 0
    ensures ControlGrant(s, 3) && s.broker.grants[3].expires == SECOND
    ensures ControlGrant(s, 5) && s.broker.grants[5].expires == 60 * SECOND
  {
    var s0 := AskReachable();
    var s1 := GrantReachable(s0, 0, 2, 3, 1);
    assert s1.broker.requests.Keys == {2};
    var s2 := AskAgain(s1, Scope(WindowKind, "v"), 4);
    s := GrantReachable(s2, 0, 4, 5, 60);
  }

  /** Maintenance that finds a control grant run out comes to owe a clear. */
  lemma MaintenanceReachable(s: State, tid: Tid) returns (s': State)
    requires Reachable(s) && s.ops == map[] && s.backend == None && s.broker.unconfirmed == {} && ControlExpired(s.broker, s.now)
    ensures Reachable(s') && s'.now == s.now && s'.broker == Expired(s.broker, s.now) && s'.backend == None
    ensures s'.ops == map[tid := Cleaning([ClearLeases], false, CleanQueued)]
  {
    var s1 := StartApply(s, tid, Maintain);
    ReachStep(s, Start(tid, Maintain), s1);
    var s2 := AcquireApply(s1, tid);
    ReachStep(s1, Acquire(tid), s2);
    s' := CleanApply(s2, tid, Sweep([]));
    ReachStep(s2, Clean(tid, Sweep([])), s');
  }

  /** Another loses it to the expiry of a neighbour: maintenance, finding one control
      grant run out, clears the leases of all. */
  lemma NeighbourExpires() returns (s: State, t: Id)
    ensures Reachable(s) && s.ops == map[] && s.broker.unconfirmed == {}
    ensures ControlGrant(s, t) && s.now < s.broker.grants[t].expires && s.leases == map[]
  {
    var s0 := TwoGrants();
    var s1 := WorldApply(s0, Elapse(2 * SECOND));
    ReachStep(s0, World(Elapse(2 * SECOND)), s1);
    assert 3 in s1.broker.grants && s1.broker.grants[3].expires <= s1.now;
    var s2 := MaintenanceReachable(s1, 9);
    t := 5;
    s := ClearReachable(s2, 9);
  }
}

/** Leases whose authorize reply was lost belong to nobody, and nobody will ask for them. */
module ProtocolLost {
  import opened Common
  import opened BrokerModel
  import opened Protocol
  import opened ProtocolSafety
  import opened ProtocolHistory
  import opened ProtocolRuns
  import opened ProtocolProvenance

  /** The operation will commit, use or revoke the token. */
  predicate Holds(op: Op, t: Id) {
    match op
    case Granting(_, stage) => stage.Authorized? && stage.grant.id == t
    case Cleaning(todo, _, _) => RevokeLease(t) in todo
    case Sweeping(_, _) => false
    case Input(_, _, lease, _, _) => lease == Some(t)
  }

  ghost predicate Held(s: State, t: Id) {
    exists tid :: tid in s.ops && Holds(s.ops[tid], t)
  }

  /** A grant, an operation or a due retry names the token. */
  ghost predicate Owned(s: State, t: Id) {
    t in s.broker.grants || RevokeLease(t) in s.broker.unconfirmed || Held(s, t)
  }

  /** Only the acting operation's hold on a token can be new. */
  lemma HeldBy(s: State, a: Tid, s': State, t: Id)
    requires Held(s', t)
    requires forall tid :: tid != a && tid in s'.ops ==> tid in s.ops && s'.ops[tid] == s.ops[tid]
    ensures Held(s, t) || (a in s'.ops && Holds(s'.ops[a], t))
  {
    var tid :| tid in s'.ops && Holds(s'.ops[tid], t);
    if tid != a { assert Holds(s.ops[tid], t); }
  }

  /** What a token must be for the acting operation to hold it, or the broker to name it. */
  ghost predicate NewlyNamed(s: State, a: Tid, s': State, t: Id) {
    t in s'.broker.grants || RevokeLease(t) in s'.broker.unconfirmed || (a in s'.ops && Holds(s'.ops[a], t))
  }

  lemma OwnedBy(s: State, a: Tid, s': State, t: Id)
    requires Owned(s', t)
    requires forall tid :: tid != a && tid in s'.ops ==> tid in s.ops && s'.ops[tid] == s.ops[tid]
    ensures Held(s, t) || NewlyNamed(s, a, s', t)
  {
    if Held(s', t) { HeldBy(s, a, s', t); }
  }

  lemma StartOwned(s: State, a: Tid, l: StartStep, t: Id)
    requires StartEnabled(s, a, l) && Owned(StartApply(s, a, l), t)
    ensures Owned(s, t)
  {
    var s' := StartApply(s, a, l);
    forall tid | tid != a && tid in s'.ops ensures tid in s.ops && s'.ops[tid] == s.ops[tid] { StartLeavesOthers(s, a, l, tid); }
    OwnedBy(s, a, s', t);
    if NewlyNamed(s, a, s', t) { StartNames(s, a, l, t); }
  }

  lemma StartNames(s: State, a: Tid, l: StartStep, t: Id)
    requires StartEnabled(s, a, l) && NewlyNamed(s, a, StartApply(s, a, l), t)
    ensures t in s.broker.grants || RevokeLease(t) in s.broker.unconfirmed
  {
    StartLeavesGuard(s, a, l);
    StartOnlyRemoves(s, a, l);
    if a in StartApply(s, a, l).ops && Holds(StartApply(s, a, l).ops[a], t) { StartHolds(s, a, l, t); }
  }

  lemma StartHolds(s: State, a: Tid, l: StartStep, t: Id)
    requires StartEnabled(s, a, l) && a in StartApply(s, a, l).ops && Holds(StartApply(s, a, l).ops[a], t)
    ensures t in s.broker.grants
  {
    if l.Disconnect? {
      var i :| 0 <= i < |Revocations(l.tokens)| && Revocations(l.tokens)[i] == RevokeLease(t);
      assert l.tokens[i] == t && t in l.tokens;
      assert t in ControlGrantsOf(s.broker, l.client);
    }
  }

  lemma BestowOwned(s: State, a: Tid, l: GrantStep, t: Id)
    requires GrantEnabled(s, a, l) && t in s.used && Owned(GrantApply(s, a, l), t)
    ensures Owned(s, t)
  {
    var s' := GrantApply(s, a, l);
    BestowNames(s, a, l, t);
    OwnedBy(s, a, s', t);
    if Holds(s.ops[a], t) { assert a in s.ops && Held(s, t); }
  }

  lemma BestowNames(s: State, a: Tid, l: GrantStep, t: Id)
    requires GrantEnabled(s, a, l)
    ensures var s' := GrantApply(s, a, l);
      && (forall tid :: tid != a && tid in s'.ops ==> tid in s.ops && s'.ops[tid] == s.ops[tid])
      && (NewlyNamed(s, a, s', t) ==>
            t in s.broker.grants || RevokeLease(t) in s.broker.unconfirmed || Holds(s.ops[a], t) || t !in s.used)
  {
    match l
    case GiveUp =>
    case Authorize(_, _, _) =>
    case Prepare(_, _) =>
    case Commit =>
  }

  lemma CleanOwned(s: State, a: Tid, l: CleanStep, t: Id)
    requires CleanEnabled(s, a, l) && Owned(CleanApply(s, a, l), t)
    ensures Owned(s, t)
  {
    CleanOnlyRemoves(s, a, l);
    OwnedBy(s, a, CleanApply(s, a, l), t);
    if NewlyNamed(s, a, CleanApply(s, a, l), t) { CleanNames(s, a, l, t); }
    if Holds(s.ops[a], t) { assert a in s.ops && Held(s, t); }
  }

  lemma CleanNames(s: State, a: Tid, l: CleanStep, t: Id)
    requires CleanEnabled(s, a, l) && NewlyNamed(s, a, CleanApply(s, a, l), t)
    ensures t in s.broker.grants || RevokeLease(t) in s.broker.unconfirmed || Holds(s.ops[a], t)
  {
    CleanOnlyRemoves(s, a, l);
    if a in CleanApply(s, a, l).ops && Holds(CleanApply(s, a, l).ops[a], t) { CleanHolds(s, a, l, t); }
  }

  lemma CleanHolds(s: State, a: Tid, l: CleanStep, t: Id)
    requires CleanEnabled(s, a, l) && a in CleanApply(s, a, l).ops && Holds(CleanApply(s, a, l).ops[a], t)
    ensures RevokeLease(t) in s.broker.unconfirmed || Holds(s.ops[a], t)
  {
    match l
    case Call(_) =>
    case Conclude =>
    case Sweep(_) =>
  }

  lemma InputOwned(s: State, a: Tid, l: InputStep, t: Id)
    requires InputEnabled(s, a, l) && t in s.used && Owned(InputApply(s, a, l), t)
    ensures Owned(s, t)
  {
    InputNames(s, a, l, t);
    OwnedBy(s, a, InputApply(s, a, l), t);
    if Holds(s.ops[a], t) { assert a in s.ops && Held(s, t); }
  }

  lemma InputNames(s: State, a: Tid, l: InputStep, t: Id)
    requires InputEnabled(s, a, l)
    ensures var s' := InputApply(s, a, l);
      && s'.broker == s.broker
      && (forall tid :: tid != a && tid in s'.ops ==> tid in s.ops && s'.ops[tid] == s.ops[tid])
      && (a in s'.ops && Holds(s'.ops[a], t) ==> Holds(s.ops[a], t) || t !in s.used)
  {
    match l
    case Enter =>
    case Abandon =>
    case Lease(_, _) =>
    case Check =>
    case Deliver =>
    case Answer =>
    case Finish =>
  }

  lemma WorldOwned(s: State, l: WorldStep, t: Id)
    requires WorldEnabled(s, l) && Owned(WorldApply(s, l), t)
    ensures Owned(s, t)
  {
    WorldKeepsOps(s, l);
    WorldGrants(s, l);
    if Held(WorldApply(s, l), t) { HeldBy(s, 0, WorldApply(s, l), t); }
  }

  lemma WorldKeepsOps(s: State, l: WorldStep)
    requires WorldEnabled(s, l)
    ensures WorldApply(s, l).ops == s.ops && WorldApply(s, l).broker.unconfirmed == s.broker.unconfirmed
    ensures WorldApply(s, l).lost == s.lost
  {
  }

  lemma AcquireOwned(s: State, a: Tid, t: Id)
    requires AcquireEnabled(s, a) && Owned(AcquireApply(s, a), t)
    ensures Owned(s, t)
  {
    OwnedBy(s, a, AcquireApply(s, a), t);
    if Holds(s.ops[a], t) { assert a in s.ops && Held(s, t); }
  }

  /** A drawn token that nobody names is never named again. */
  lemma UnownedStep(s: State, l: Label, s': State, t: Id)
    requires Next(s, l, s') && t in s.used && !Owned(s, t)
    ensures !Owned(s', t)
  {
    if Owned(s', t) {
      match l
      case World(w) => WorldOwned(s, w, t);
      case Start(a, st) => StartOwned(s, a, st, t);
      case Acquire(a) => AcquireOwned(s, a, t);
      case Bestow(a, g) => BestowOwned(s, a, g, t);
      case Clean(a, c) => CleanOwned(s, a, c, t);
      case Type(a, i) => InputOwned(s, a, i, t);
    }
  }

  // ------------------------------------------------------------- lost replies

  /** Nobody names a token whose authorize reply was lost. */
  ghost predicate LostUnowned(s: State) {
    forall t :: t in s.lost ==> !Owned(s, t)
  }

  lemma OwnedDrawn(s: State, t: Id)
    requires TokensDrawn(s) && Owned(s, t)
    ensures t in s.used
  {
    if Held(s, t) {
      var tid :| tid in s.ops && Holds(s.ops[tid], t);
      assert OpDrawn(s.ops[tid], s.used);
      if s.ops[tid].Cleaning? {
        var i :| 0 <= i < |s.ops[tid].todo| && s.ops[tid].todo[i] == RevokeLease(t);
      }
    }
  }

  /** The operation that loses the reply returns, and leaves the token to nobody. */
  lemma LostNow(s: State, l: Label, s': State, t: Id)
    requires TokensDrawn(s) && Next(s, l, s') && t in s'.lost && t !in s.lost
    ensures !Owned(s', t)
  {
    LostFresh(s, l, s', t);
    if Owned(s', t) {
      OwnedBefore(s, s', t);
      OwnedDrawn(s, t);
    }
  }

  lemma OwnedBefore(s: State, s': State, t: Id)
    requires s'.broker == s.broker && forall tid :: tid in s'.ops ==> tid in s.ops && s'.ops[tid] == s.ops[tid]
    requires Owned(s', t)
    ensures Owned(s, t)
  {
    if Held(s', t) {
      var tid :| tid in s'.ops && Holds(s'.ops[tid], t);
      assert Holds(s.ops[tid], t);
    }
  }

  lemma LostFresh(s: State, l: Label, s': State, t: Id)
    requires Next(s, l, s') && t in s'.lost && t !in s.lost
    ensures t !in s.used && s'.broker == s.broker && forall tid :: tid in s'.ops ==> tid in s.ops && s'.ops[tid] == s.ops[tid]
  {
    match l
    case World(w) => WorldKeepsOps(s, w);
    case Start(a, st) => StartLeavesGuard(s, a, st);
    case Acquire(_) =>
    case Bestow(_, _) =>
    case Clean(a, c) => CleanOnlyRemoves(s, a, c);
    case Type(_, _) =>
  }

  lemma LostStep(s: State, l: Label, s': State)
    requires TokensDrawn(s) && LostUnowned(s) && Next(s, l, s')
    ensures LostUnowned(s')
  {
    forall t | t in s'.lost ensures !Owned(s', t) {
      if t in s.lost { UnownedStep(s, l, s', t); } else { LostNow(s, l, s', t); }
    }
  }

  lemma {:induction false} LostRun(states: seq<State>, labels: seq<Label>, j: nat)
    requires FromStart(states, labels) && j < |states|
    ensures LostUnowned(states[j])
    decreases j
  {
    if j > 0 {
      LostRun(states, labels, j - 1);
      assert TokensDrawn(states[j - 1]) by { RunKeepsInv(states, labels, 0, j - 1); }
      At(states, labels, j - 1);
      LostStep(states[j - 1], labels[j - 1], states[j]);
    }
  }

  /** A token whose authorize reply was lost is in no grant, no operation will commit, use
      or revoke it, and no retry names it. */
  lemma LostIsNobodys(s: State, t: Id)
    requires Reachable(s) && t in s.lost
    ensures t in s.used && t !in s.broker.grants && RevokeLease(t) !in s.broker.unconfirmed
    ensures forall tid :: tid in s.ops ==> !Holds(s.ops[tid], t)
  {
    assert TokensDrawn(s) by { ReachableInv(s); }
    var states, labels :| IsRun(states, labels) && states[0] == START && states[|states| - 1] == s;
    LostRun(states, labels, |states| - 1);
    assert !Owned(s, t);
  }

  /** Nor ever will. */
  lemma {:induction false} LostForGood(states: seq<State>, labels: seq<Label>, i: nat, j: nat, t: Id)
    requires FromStart(states, labels) && i <= j < |states| && t in states[i].lost
    ensures t in states[j].lost && !Owned(states[j], t)
    decreases j
  {
    LostRun(states, labels, j);
    if i < j {
      LostForGood(states, labels, i, j - 1, t);
      At(states, labels, j - 1);
      LostStays(states[j - 1], labels[j - 1], states[j]);
    }
  }

  lemma LostStays(s: State, l: Label, s': State)
    requires Next(s, l, s')
    ensures s.lost.Keys <= s'.lost.Keys
  {
    match l
    case World(w) => WorldKeepsOps(s, w);
    case Start(a, st) => StartLeavesGuard(s, a, st);
    case Acquire(_) =>
    case Bestow(_, _) =>
    case Clean(a, c) => CleanOnlyRemoves(s, a, c);
    case Type(_, _) =>
  }

  /** Hence with nothing in flight and every revocation confirmed, a lease is some control
      grant's or is left from a lost reply, and never both. */
  lemma QuietLease(s: State, t: Id)
    requires Reachable(s) && s.ops == map[] && s.broker.unconfirmed == {} && t in s.leases
    ensures ControlGrant(s, t) <==> t !in s.lost
  {
    EveryLeaseAccounted(s, t);
    if t in s.lost { LostIsNobodys(s, t); }
  }
}

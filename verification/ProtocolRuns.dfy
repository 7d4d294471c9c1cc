/** The permission protocol over whole runs: every interleaving of every operation, with
    every outcome of every call to the guard. */
module ProtocolRuns {
  import opened Common
  import opened BrokerModel
  import opened Protocol
  import opened ProtocolSafety
  import opened ProtocolHistory

  // ------------------------------------------------------------------ leases

  /** Every lease the guard holds belongs to a control grant, to an operation that will
      commit it or clean it up, or is covered by an owed clear or an entry of the table of
      unconfirmed revocations; a lease whose authorize reply was lost runs out within the
      longest duration the guard accepts. */
  lemma EveryLeaseAccounted(s: State, t: Id)
    requires Reachable(s) && t in s.leases
    ensures ControlGrant(s, t) || Tracked(s, t) || ClearOwed(s) || Unconfirmed(s, t)
         || (t in s.lost && s.leases[t].until <= s.lost[t] + 3600 * SECOND)
  {
    ReachableInv(s);
    assert Accounted(s, t);
  }

  /** The table is a sound warning: with nothing in flight, a lease without a grant keeps
      it non-empty, and then nobody is allowed anything, in either mode. */
  lemma StrayLeaseBlocksAuthority(s: State, t: Id)
    requires Reachable(s) && s.ops == map[]
    requires t in s.leases && t !in s.lost && !ControlGrant(s, t)
    ensures s.broker.unconfirmed != {}
    ensures forall client, cap, scope, w :: !Allowed(s.broker, s.now, client, cap, scope, w)
  {
    EveryLeaseAccounted(s, t);
  }

  lemma ReachStep(s: State, l: Label, s': State)
    requires Reachable(s) && Next(s, l, s')
    ensures Reachable(s')
  {
    var states, labels :| IsRun(states, labels) && states[0] == START && states[|states| - 1] == s;
    var states', labels' := states + [s'], labels + [l];
    forall i: nat | i < |labels'| ensures StepAt(states', labels', i) {
      if i < |labels| { assert StepAt(states, labels, i); }
    }
    assert IsRun(states', labels');
  }

  lemma StartReachable()
    ensures Reachable(START)
  {
    assert IsRun([START], []);
  }

  lemma ClientReachable() returns (s: State)
    ensures Reachable(s) && s == START.(used := {1}, broker := INITIAL.(consoles := 1, clients := {1}))
  {
    StartReachable();
    var s1 := WorldApply(START, ConsoleAttach);
    ReachStep(START, World(ConsoleAttach), s1);
    s := WorldApply(s1, Connect(1));
    ReachStep(s1, World(Connect(1)), s);
    assert {} + {1} == {1};
  }

  /** A console, a client and a pending request to control a window. */
  lemma AskReachable() returns (s: State)
    ensures Reachable(s) && MayDecide(s.broker, 2, 60) && s.broker.requests[2].capability == Control
    ensures s.ops == map[] && s.backend == None && s.input == None && s.used == {1, 2} && s.leases == map[]
    ensures s.broker.grants == map[] && s.broker.unconfirmed == {}
    ensures s.broker.requests.Keys == {2} && s.broker.requests[2].scope == Scope(WindowKind, "w") && s.now == 0
  {
    var scope := Scope(WindowKind, "w");
    var s1 := ClientReachable();
    assert RecordsAsk(s1.broker, s1.now, 1, Control, scope, None);
    s := WorldApply(s1, Ask(1, Control, scope, None, 2));
    ReachStep(s1, World(Ask(1, Control, scope, None, 2)), s);
  }

  /** The exception for lost authorize replies is needed: there is a run that ends with
      nothing in flight, no grant, an empty table of unconfirmed revocations, and a lease
      that the guard honours for a minute. */
  lemma StrandedLease() returns (s: State, t: Id)
    ensures Reachable(s) && s.ops == map[] && s.broker.grants == map[] && s.broker.unconfirmed == {}
    ensures t in s.leases && t in s.lost && s.leases[t].until == s.now + MINUTE
  {
    var s0 := AskReachable();
    var s1 := StartApply(s0, 0, Decide(2, 60));
    ReachStep(s0, Start(0, Decide(2, 60)), s1);
    var s2 := AcquireApply(s1, 0);
    ReachStep(s1, Acquire(0), s2);
    t := 3;
    s := GrantApply(s2, 0, Authorize(t, None, ReplyLost));
    ReachStep(s2, Bestow(0, Authorize(t, None, ReplyLost)), s);
  }

  /** The operation holds the guard's confirmation of `call` and is about to record it. */
  predicate Concluding(s: State, a: Tid, call: Cleanup) {
    && a in s.ops && s.ops[a].Cleaning? && s.ops[a].cleanStage == CleanReplied(true)
    && s.ops[a].todo != [] && s.ops[a].todo[0] == call
  }

  lemma ConcludeClear(s: State, a: Tid)
    requires Concluding(s, a, ClearLeases) && CleanEnabled(s, a, Conclude)
    ensures var s' := CleanApply(s, a, Conclude);
      && s'.broker.unconfirmed == {} && s'.leases == s.leases && OthersKept(s, a, s')
      && (forall t :: Tracks(s.ops[a], t) ==> a in s'.ops && Tracks(s'.ops[a], t))
  {
  }

  /** Emptying the table after a confirmed clear is sound: whatever lease the guard still
      holds appeared since and is a running operation's, or lost its authorize reply. */
  lemma ConfirmedClearIsSound(s: State, a: Tid)
    requires ProtocolInv(s) && Concluding(s, a, ClearLeases) && CleanEnabled(s, a, Conclude)
    ensures CleanApply(s, a, Conclude).broker.unconfirmed == {}
    ensures forall t :: t in CleanApply(s, a, Conclude).leases ==> t in s.lost || Tracked(CleanApply(s, a, Conclude), t)
  {
    var s' := CleanApply(s, a, Conclude);
    assert ConfirmationHolds(s, ClearLeases);
    ConcludeClear(s, a);
    forall t | t in s.leases && t !in s.lost ensures Tracked(s', t) {
      var x :| x in s.ops && Tracks(s.ops[x], t);
      assert x in s'.ops && Tracks(s'.ops[x], t);
    }
  }

  lemma WorldNoOldLease(s: State, l: WorldStep)
    requires WorldEnabled(s, l)
    ensures WorldApply(s, l).leases.Keys <= s.leases.Keys && s.used <= WorldApply(s, l).used
  {
  }

  lemma BestowNoOldLease(s: State, a: Tid, l: GrantStep, t: Id)
    requires GrantEnabled(s, a, l) && t in s.used && t !in s.leases
    ensures t in GrantApply(s, a, l).used && t !in GrantApply(s, a, l).leases
  {
  }

  lemma InputNoOldLease(s: State, a: Tid, l: InputStep, t: Id)
    requires InputEnabled(s, a, l) && t in s.used && t !in s.leases
    ensures t in InputApply(s, a, l).used && t !in InputApply(s, a, l).leases
  {
  }

  lemma CleanNoLease(s: State, a: Tid, l: CleanStep)
    requires CleanEnabled(s, a, l)
    ensures CleanApply(s, a, l).leases.Keys <= s.leases.Keys && CleanApply(s, a, l).used == s.used
  {
  }

  lemma StartNoLease(s: State, a: Tid, l: StartStep)
    requires StartEnabled(s, a, l)
    ensures StartApply(s, a, l).leases == s.leases && StartApply(s, a, l).used == s.used
  {
  }

  /** A token that was drawn and has no lease never has one again. */
  lemma LeaseGoneStep(s: State, l: Label, s': State, t: Id)
    requires Next(s, l, s') && t in s.used && t !in s.leases
    ensures t in s'.used && t !in s'.leases
  {
    match l
    case World(w) => WorldNoOldLease(s, w);
    case Start(tid, st) => StartNoLease(s, tid, st);
    case Acquire(tid) =>
    case Bestow(tid, g) => BestowNoOldLease(s, tid, g, t);
    case Clean(tid, c) => CleanNoLease(s, tid, c);
    case Type(tid, i) => InputNoOldLease(s, tid, i, t);
  }

  predicate DeliversUnder(s: State, l: Label, t: Id) {
    l.Type? && l.input.Deliver? && l.tid in s.ops && s.ops[l.tid].Input? && s.ops[l.tid].lease == Some(t)
  }

  lemma {:induction false} LeaseGoneForever(states: seq<State>, labels: seq<Label>, i: nat, j: nat, t: Id)
    requires IsRun(states, labels) && i <= j < |states|
    requires t in states[i].used && t !in states[i].leases
    ensures t in states[j].used && t !in states[j].leases
    ensures j < |labels| ==> !DeliversUnder(states[j], labels[j], t)
    decreases j
  {
    if i < j {
      LeaseGoneForever(states, labels, i, j - 1, t);
      assert StepAt(states, labels, j - 1);
      LeaseGoneStep(states[j - 1], labels[j - 1], states[j], t);
    }
    if j < |labels| { NoDelivery(states, labels, j, t); }
  }

  lemma NoDelivery(states: seq<State>, labels: seq<Label>, j: nat, t: Id)
    requires IsRun(states, labels) && j < |labels| && t !in states[j].leases
    ensures !DeliversUnder(states[j], labels[j], t)
  {
    assert StepAt(states, labels, j);
  }

  /** Once a revocation is confirmed to the broker, no input is ever delivered under it. */
  lemma ConfirmedRevocationIsFinal(states: seq<State>, labels: seq<Label>, k: nat, j: nat, t: Id)
    requires IsRun(states, labels) && states[0] == START
    requires k < |labels| && labels[k].Clean? && labels[k].clean.Conclude?
    requires Concluding(states[k], labels[k].tid, RevokeLease(t))
    requires k <= j < |labels|
    ensures t !in states[j].leases && !DeliversUnder(states[j], labels[j], t)
  {
    RunKeepsInv(states, labels, 0, k);
    assert ConfirmationHolds(states[k], RevokeLease(t));
    LeaseGoneForever(states, labels, k, j, t);
  }

  /** A guard call of a cleanup pass takes effect. */
  ghost predicate TakesEffect(s: State, l: Label, call: Cleanup) {
    && l.Clean? && l.clean.Call? && l.clean.outcome != NotApplied
    && CleanEnabled(s, l.tid, l.clean) && s.ops[l.tid].todo[0] == call
  }

  lemma CleanConfirms(s: State, a: Tid, l: CleanStep, call: Cleanup)
    requires CleanEnabled(s, a, l) && Concluding(CleanApply(s, a, l), a, call) && !Concluding(s, a, call)
    ensures TakesEffect(s, Clean(a, l), call)
  {
    match l
    case Call(_) =>
    case Conclude =>
    case Sweep(_) =>
  }

  lemma StartConfirmsNothing(s: State, a: Tid, l: StartStep, call: Cleanup)
    requires StartEnabled(s, a, l)
    ensures !Concluding(StartApply(s, a, l), a, call)
  {
  }

  /** Only a call that took effect puts a confirmation in an operation's hands. */
  lemma ConfirmStep(s: State, l: Label, s': State, a: Tid, call: Cleanup)
    requires Next(s, l, s') && Concluding(s', a, call) && !Concluding(s, a, call)
    ensures TakesEffect(s, l, call)
  {
    match l
    case World(w) =>
    case Start(b, st) =>
      if a == b { StartConfirmsNothing(s, a, st, call); } else { StartLeavesOthers(s, b, st, a); }
    case Acquire(b) =>
    case Bestow(b, g) => BestowConfirmsNothing(s, b, g, a, call);
    case Clean(b, c) => if a == b { CleanConfirms(s, a, c, call); }
    case Type(b, i) => InputConfirmsNothing(s, b, i, a, call);
  }

  lemma BestowConfirmsNothing(s: State, b: Tid, l: GrantStep, a: Tid, call: Cleanup)
    requires GrantEnabled(s, b, l) && Concluding(GrantApply(s, b, l), a, call)
    ensures Concluding(s, a, call)
  {
  }

  lemma InputConfirmsNothing(s: State, b: Tid, l: InputStep, a: Tid, call: Cleanup)
    requires InputEnabled(s, b, l) && Concluding(InputApply(s, b, l), a, call)
    ensures Concluding(s, a, call)
  {
  }

  lemma {:induction false} ConfirmedEarlier(states: seq<State>, labels: seq<Label>, i: nat, d: nat, a: Tid, call: Cleanup) returns (c: nat)
    requires IsRun(states, labels) && i <= d < |states|
    requires Concluding(states[d], a, call) && !Concluding(states[i], a, call)
    ensures i <= c < d && TakesEffect(states[c], labels[c], call)
    decreases d
  {
    if Concluding(states[d - 1], a, call) {
      c := ConfirmedEarlier(states, labels, i, d - 1, a, call);
    } else {
      c := d - 1;
      assert StepAt(states, labels, c);
      ConfirmStep(states[c], labels[c], states[d], a, call);
    }
  }

  // ------------------------------------------------------------------ grants

  /** A request or a picker yields at most one grant, and none while it can still be used. */
  lemma OneGrantPerOrigin(s: State, i: nat, j: nat)
    requires Reachable(s) && i < |s.log| && j < |s.log|
    requires s.log[i].Committed? && s.log[j].Committed? && s.log[i].origin == s.log[j].origin
    ensures i == j && Spent(s.broker, s.log[i].origin)
  {
    ReachableInv(s);
    assert CommitSound(s, i);
  }

  lemma NamesStep(s: State, l: Label, s': State)
    requires BrokerNames(s.broker, s.used) && Next(s, l, s')
    ensures NamesStable(s.broker, s.used, s'.broker, s'.used)
  {
    match l
    case World(w) => WorldNames(s, w);
    case Start(tid, st) => StartNames(s, tid, st);
    case Acquire(tid) => NamesSame(s.broker, s.used, s'.broker, s'.used);
    case Bestow(tid, g) => BestowNames(s, tid, g);
    case Clean(tid, c) =>
      CleanOnlyCleans(s, tid, c);
      NamesSame(s.broker, s.used, s'.broker, s'.used);
    case Type(tid, i) => InputNames(s, tid, i);
  }

  /** A request that was answered, cancelled or dropped is never pending again, and its
      answer never changes. */
  lemma {:induction false} RequestsSettleOnce(states: seq<State>, labels: seq<Label>, i: nat, j: nat, r: Id)
    requires IsRun(states, labels) && states[0] == START && i <= j < |states|
    requires r in states[i].used && !IsPending(states[i].broker, r)
    ensures r in states[j].used && !IsPending(states[j].broker, r)
    ensures r in states[j].broker.requests ==>
      r in states[i].broker.requests && states[j].broker.requests[r] == states[i].broker.requests[r]
    decreases j
  {
    if i < j {
      RequestsSettleOnce(states, labels, i, j - 1, r);
      SettledStep(states, labels, j - 1, r);
    }
  }

  lemma SettledStep(states: seq<State>, labels: seq<Label>, k: nat, r: Id)
    requires IsRun(states, labels) && states[0] == START && k < |labels|
    requires r in states[k].used && !IsPending(states[k].broker, r)
    ensures r in states[k + 1].used && !IsPending(states[k + 1].broker, r)
    ensures r in states[k + 1].broker.requests ==>
      r in states[k].broker.requests && states[k + 1].broker.requests[r] == states[k].broker.requests[r]
  {
    RunKeepsInv(states, labels, 0, k);
    assert StepAt(states, labels, k);
    NamesStep(states[k], labels[k], states[k + 1]);
  }

  // ------------------------------------------------------------------- input

  /** Over all clients together, at most one input is past its check and unanswered. */
  lemma OneInputInFlight(s: State, a: Tid, b: Tid)
    requires Reachable(s) && a in s.ops && b in s.ops
    requires s.ops[a].Input? && s.ops[a].inputStage.InputSent?
    requires s.ops[b].Input? && s.ops[b].inputStage.InputSent?
    ensures a == b
  {
    ReachableInv(s);
    assert NeedsInput(s.ops[a]) && NeedsInput(s.ops[b]);
  }

  /** Some input has passed its check and the guard has not executed it yet. */
  predicate Outstanding(s: State) {
    s.input.Some? && s.input.value in s.ops && s.ops[s.input.value].Input?
    && s.ops[s.input.value].inputStage == InputSent(false)
  }

  predicate IsCheck(l: Label) { l.Type? && l.input.Check? }
  predicate IsDeliver(l: Label) { l.Type? && l.input.Deliver? }
  predicate IsResume(l: Label) { l.World? && l.world.Resume? }

  lemma StartPaused(s: State, a: Tid, l: StartStep)
    requires StartEnabled(s, a, l) && s.broker.paused
    ensures StartApply(s, a, l).broker.paused
  {
  }

  lemma BestowPaused(s: State, a: Tid, l: GrantStep)
    requires GrantEnabled(s, a, l) && s.broker.paused
    ensures GrantApply(s, a, l).broker.paused
  {
  }

  lemma InputPaused(s: State, a: Tid, l: InputStep)
    requires InputEnabled(s, a, l) && s.broker.paused
    ensures InputApply(s, a, l).broker.paused && !l.Check?
  {
  }

  lemma PausedStep(s: State, l: Label, s': State)
    requires Next(s, l, s') && s.broker.paused && !IsResume(l)
    ensures s'.broker.paused && !IsCheck(l)
  {
    match l
    case World(w) =>
    case Start(tid, st) => StartPaused(s, tid, st);
    case Acquire(tid) =>
    case Bestow(tid, g) => BestowPaused(s, tid, g);
    case Clean(tid, c) => CleanOnlyCleans(s, tid, c);
    case Type(tid, i) => InputPaused(s, tid, i);
  }

  ghost predicate SameOutstanding(s: State, s': State) {
    Outstanding(s') ==> Outstanding(s) && s.input == s'.input && s.ops[s.input.value] == s'.ops[s'.input.value]
  }

  lemma InputOutstanding(s: State, a: Tid, l: InputStep)
    requires Locked(s) && InputEnabled(s, a, l) && !l.Check?
    ensures SameOutstanding(s, InputApply(s, a, l))
    ensures l.Deliver? ==> Outstanding(s) && !Outstanding(InputApply(s, a, l))
  {
    assert l.Deliver? ==> NeedsInput(s.ops[a]);
  }

  /** Any other step leaves inputs alone. */
  ghost predicate LeavesInputs(s: State, s': State) {
    && (s'.input == s.input || s'.input == None)
    && forall tid :: tid in s'.ops && s'.ops[tid].Input? && s'.ops[tid].inputStage == InputSent(false)
         ==> tid in s.ops && s.ops[tid] == s'.ops[tid]
  }

  lemma StartLeavesInputs(s: State, a: Tid, l: StartStep)
    requires StartEnabled(s, a, l)
    ensures LeavesInputs(s, StartApply(s, a, l))
  {
  }

  lemma BestowLeavesInputs(s: State, a: Tid, l: GrantStep)
    requires GrantEnabled(s, a, l)
    ensures LeavesInputs(s, GrantApply(s, a, l))
  {
  }

  lemma CleanLeavesInputs(s: State, a: Tid, l: CleanStep)
    requires CleanEnabled(s, a, l)
    ensures LeavesInputs(s, CleanApply(s, a, l))
  {
  }

  lemma OutstandingStep(s: State, l: Label, s': State)
    requires Locked(s) && Next(s, l, s') && !IsCheck(l)
    ensures SameOutstanding(s, s')
    ensures IsDeliver(l) ==> Outstanding(s) && !Outstanding(s')
  {
    match l
    case World(w) => assert LeavesInputs(s, s');
    case Start(tid, st) => StartLeavesInputs(s, tid, st);
    case Acquire(tid) => assert LeavesInputs(s, s');
    case Bestow(tid, g) => BestowLeavesInputs(s, tid, g);
    case Clean(tid, c) => CleanLeavesInputs(s, tid, c);
    case Type(tid, i) => InputOutstanding(s, tid, i);
  }

  function Deliveries(labels: seq<Label>): nat {
    if labels == [] then 0
    else Deliveries(labels[..|labels| - 1]) + (if IsDeliver(labels[|labels| - 1]) then 1 else 0)
  }

  lemma PausedRunStep(states: seq<State>, labels: seq<Label>, k: nat)
    requires IsRun(states, labels) && states[0] == START && k < |labels|
    requires states[k].broker.paused && !IsResume(labels[k])
    ensures states[k + 1].broker.paused && !IsCheck(labels[k])
    ensures SameOutstanding(states[k], states[k + 1])
    ensures IsDeliver(labels[k]) ==> Outstanding(states[k]) && !Outstanding(states[k + 1])
  {
    RunKeepsInv(states, labels, 0, k);
    assert StepAt(states, labels, k);
    PausedStep(states[k], labels[k], states[k + 1]);
    OutstandingStep(states[k], labels[k], states[k + 1]);
  }

  /** From a pause (or the loss of the last console) until a resume, no input passes its
      check, and at most one already past it is still delivered. */
  lemma {:induction false} PauseStopsInput(states: seq<State>, labels: seq<Label>, i: nat, j: nat)
    requires IsRun(states, labels) && states[0] == START && i <= j < |states|
    requires states[i].broker.paused
    requires forall k :: i <= k < j ==> !IsResume(labels[k])
    ensures states[j].broker.paused
    ensures forall k :: i <= k < j ==> !IsCheck(labels[k])
    ensures Deliveries(labels[i..j]) + (if Outstanding(states[j]) then 1 else 0) <= 1
    decreases j
  {
    if i < j {
      PauseStopsInput(states, labels, i, j - 1);
      PausedRunStep(states, labels, j - 1);
      assert labels[i..j] == labels[i..j - 1] + [labels[j - 1]];
    }
  }

  /** Hence an input check that passes after a pause comes after a resume, with a console
      connected and every revocation confirmed. */
  lemma CheckAfterPauseNeedsResume(states: seq<State>, labels: seq<Label>, i: nat, j: nat) returns (k: nat)
    requires IsRun(states, labels) && states[0] == START && i <= j < |labels|
    requires states[i].broker.paused && IsCheck(labels[j])
    ensures i <= k < j && IsResume(labels[k])
    ensures states[j].broker.consoles > 0 && states[j].broker.unconfirmed == {} && !states[j].broker.paused
  {
    assert StepAt(states, labels, j);
    if forall k :: i <= k < j ==> !IsResume(labels[k]) {
      PauseStopsInput(states, labels, i, j);
      assert false;
    }
    k :| i <= k < j && IsResume(labels[k]);
  }

  /** While paused, an input past its check was so all along. */
  lemma {:induction false} OutstandingAllAlong(states: seq<State>, labels: seq<Label>, c: nat, k: nat)
    requires IsRun(states, labels) && states[0] == START && c <= k < |states|
    requires states[c].broker.paused
    requires forall x :: c <= x < k ==> !IsResume(labels[x])
    ensures SameOutstanding(states[c], states[k])
    decreases k
  {
    if c < k {
      OutstandingAllAlong(states, labels, c, k - 1);
      PauseStopsInput(states, labels, c, k - 1);
      PausedRunStep(states, labels, k - 1);
    }
  }

  lemma ClearedLeases(s: State, l: Label, s': State)
    requires Next(s, l, s') && TakesEffect(s, l, ClearLeases)
    ensures s'.leases == map[] && s'.used == s.used
  {
  }

  /** Once a guard-wide clear has taken effect in a pause, nothing is delivered until a
      resume, not even an input past its check. */
  lemma ClearInPauseStopsAll(states: seq<State>, labels: seq<Label>, c: nat, k: nat)
    requires IsRun(states, labels) && states[0] == START && c < k < |labels|
    requires states[c].broker.paused && TakesEffect(states[c], labels[c], ClearLeases)
    requires forall x :: c <= x < k ==> !IsResume(labels[x])
    ensures !IsDeliver(labels[k])
  {
    if IsDeliver(labels[k]) {
      var t := DeliversOutstanding(states, labels, k);
      OutstandingAllAlong(states, labels, c, k);
      assert t in states[c].used by { OutstandingDrawn(states, labels, c); }
      assert StepAt(states, labels, c);
      ClearedLeases(states[c], labels[c], states[c + 1]);
      LeaseGoneForever(states, labels, c + 1, k, t);
    }
  }

  lemma DeliversOutstanding(states: seq<State>, labels: seq<Label>, k: nat) returns (t: Id)
    requires IsRun(states, labels) && states[0] == START && k < |labels| && IsDeliver(labels[k])
    ensures Outstanding(states[k]) && states[k].ops[states[k].input.value].lease == Some(t)
    ensures DeliversUnder(states[k], labels[k], t)
  {
    assert Locked(states[k]) by { RunKeepsInv(states, labels, 0, k); }
    assert StepAt(states, labels, k);
    t := DeliverOutstanding(states[k], labels[k].tid);
  }

  lemma DeliverOutstanding(s: State, a: Tid) returns (t: Id)
    requires Locked(s) && InputEnabled(s, a, Deliver)
    ensures Outstanding(s) && s.input == Some(a) && s.ops[a].lease == Some(t)
  {
    assert NeedsInput(s.ops[a]);
    t := s.ops[a].lease.value;
  }

  lemma OutstandingDrawn(states: seq<State>, labels: seq<Label>, c: nat)
    requires IsRun(states, labels) && states[0] == START && c < |states| && Outstanding(states[c])
    ensures var lease := states[c].ops[states[c].input.value].lease; lease.Some? ==> lease.value in states[c].used
  {
    assert TokensDrawn(states[c]) by { RunKeepsInv(states, labels, 0, c); }
    assert OpDrawn(states[c].ops[states[c].input.value], states[c].used);
  }

  /** Hence from the moment the pause's own clear is recorded as confirmed until a resume,
      no input is delivered at all. */
  lemma ConfirmedPauseStopsAll(states: seq<State>, labels: seq<Label>, i: nat, d: nat, k: nat, a: Tid)
    requires IsRun(states, labels) && states[0] == START && i < d <= k < |labels|
    requires labels[i].Start? && labels[i].tid == a && states[i + 1].broker.paused
    requires labels[d] == Clean(a, Conclude) && Concluding(states[d], a, ClearLeases)
    requires forall x :: i < x < k ==> !IsResume(labels[x])
    ensures !IsDeliver(labels[k])
  {
    assert StepAt(states, labels, i);
    StartConfirmsNothing(states[i], a, labels[i].start, ClearLeases);
    var c := ConfirmedEarlier(states, labels, i + 1, d, a, ClearLeases);
    PauseStopsInput(states, labels, i + 1, c);
    ClearInPauseStopsAll(states, labels, c, k);
  }
}

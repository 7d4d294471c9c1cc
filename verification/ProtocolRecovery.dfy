/** The protocol never gets stuck: from every reachable state everything in flight can end,
    and one maintenance pass that the guard answers settles what is unconfirmed. */
module ProtocolRecovery {
  import opened Common
  import opened BrokerModel
  import opened Protocol
  import opened ProtocolSafety
  import opened ProtocolHistory
  import opened ProtocolProvenance
  import opened ProtocolRuns
  import opened ProtocolLost

  // ------------------------------------------------------------------- locks

  /** A lock that is taken has a holder that can still go on. */
  ghost predicate Holders(s: State) {
    && (s.backend.Some? ==> s.backend.value in s.ops && NeedsBackend(s.ops[s.backend.value]))
    && (s.input.Some? ==> s.input.value in s.ops && Occupies(s.ops[s.input.value]))
  }

  /** Between taking the input lock and returning. */
  predicate Occupies(op: Op) {
    NeedsInput(op) || (op.Cleaning? && !op.thenClear)
  }

  lemma StartHolders(s: State, a: Tid, l: StartStep)
    requires Holders(s) && StartEnabled(s, a, l)
    ensures Holders(StartApply(s, a, l))
  {
    StartTakesNoLock(s, a, l);
    if s.backend.Some? { StartLeavesOthers(s, a, l, s.backend.value); }
    if s.input.Some? { StartLeavesOthers(s, a, l, s.input.value); }
  }

  lemma AcquireHolders(s: State, a: Tid)
    requires Holders(s) && AcquireEnabled(s, a)
    ensures Holders(AcquireApply(s, a))
  {
  }

  lemma BestowHolders(s: State, a: Tid, l: GrantStep)
    requires Holders(s) && Locked(s) && Shapes(s) && GrantEnabled(s, a, l)
    ensures Holders(GrantApply(s, a, l))
  {
    assert s.backend == Some(a) && s.input != Some(a);
    match l
    case GiveUp =>
    case Authorize(_, _, _) =>
    case Prepare(_, _) =>
    case Commit =>
  }

  lemma CleanHolders(s: State, a: Tid, l: CleanStep)
    requires Holders(s) && Locked(s) && CleanEnabled(s, a, l)
    ensures Holders(CleanApply(s, a, l))
  {
    assert s.backend == Some(a);
    match l
    case Call(_) =>
    case Conclude =>
    case Sweep(_) =>
  }

  lemma InputHolders(s: State, a: Tid, l: InputStep)
    requires Holders(s) && Locked(s) && InputEnabled(s, a, l)
    ensures Holders(InputApply(s, a, l))
  {
  }

  lemma HoldersStep(s: State, l: Label, s': State)
    requires Holders(s) && Locked(s) && Shapes(s) && Next(s, l, s')
    ensures Holders(s')
  {
    match l
    case World(w) => WorldKeepsOps(s, w);
    case Start(a, st) => StartHolders(s, a, st);
    case Acquire(a) => AcquireHolders(s, a);
    case Bestow(a, g) => BestowHolders(s, a, g);
    case Clean(a, c) => CleanHolders(s, a, c);
    case Type(a, i) => InputHolders(s, a, i);
  }

  lemma {:induction false} HoldersRun(states: seq<State>, labels: seq<Label>, j: nat)
    requires FromStart(states, labels) && j < |states|
    ensures Holders(states[j])
    decreases j
  {
    if j > 0 {
      HoldersRun(states, labels, j - 1);
      assert ProtocolInv(states[j - 1]) by { RunKeepsInv(states, labels, 0, j - 1); }
      At(states, labels, j - 1);
      HoldersStep(states[j - 1], labels[j - 1], states[j]);
    }
  }

  lemma HoldersHold(s: State)
    requires Reachable(s)
    ensures Holders(s) && Locked(s) && Shapes(s)
  {
    assert ProtocolInv(s) by { ReachableInv(s); }
    var states, labels :| IsRun(states, labels) && states[0] == START && states[|states| - 1] == s;
    HoldersRun(states, labels, |states| - 1);
  }

  // ----------------------------------------------------------- continuations

  /** A step that nobody has to ask for: time, maintenance, and the operations in flight
      going on, with the guard answering. */
  predicate Unasked(l: Label) {
    match l
    case World(w) => w.Elapse?
    case Start(_, st) => st.Maintain?
    case Acquire(_) => true
    case Bestow(_, g) => g.GiveUp? || g.Commit?
    case Clean(_, c) => c.Call? ==> c.outcome == Answered
    case Type(_, i) => !i.Lease? && !i.Check? && !i.Deliver?
  }

  /** Such steps lead from the one state to the other. */
  ghost predicate Leads(s: State, s': State) {
    exists states, labels ::
      IsRun(states, labels) && states[0] == s && states[|states| - 1] == s' && forall l :: l in labels ==> Unasked(l)
  }

  lemma LeadsNowhere(s: State)
    ensures Leads(s, s)
  {
    var labels: seq<Label> := [];
    assert IsRun([s], labels) && [s][|[s]| - 1] == s;
  }

  lemma LeadsOn(s0: State, s: State, l: Label, s': State)
    requires Reachable(s) && Leads(s0, s) && Next(s, l, s') && Unasked(l)
    ensures Reachable(s') && Leads(s0, s')
  {
    ReachStep(s, l, s');
    var states, labels :| IsRun(states, labels) && states[0] == s0 && states[|states| - 1] == s && forall l :: l in labels ==> Unasked(l);
    var states', labels' := states + [s'], labels + [l];
    forall i: nat | i < |labels'| ensures StepAt(states', labels', i) {
      if i < |labels| { assert StepAt(states, labels, i); }
    }
    assert IsRun(states', labels');
  }

  /** What no step of a recovery changes. */
  ghost predicate Same(s: State, s': State) {
    && s'.lost == s.lost && s'.broker.mode == s.broker.mode && s'.broker.paused == s.broker.paused
    && s'.broker.consoles == s.broker.consoles && s'.broker.clients == s.broker.clients
  }

  /** The operation is over, and has given its locks back. */
  ghost predicate Over(s: State, a: Tid, s': State) {
    && s'.ops == s.ops - {a} && s'.backend == None && s'.now == s.now && Same(s, s')
    && s'.input == (if s.input == Some(a) || (a in s.ops && s.ops[a].Input?) then None else s.input)
  }

  /** The answer of a call is recorded: a confirmed one is settled. */
  lemma ConcludeOne(s0: State, s: State, a: Tid) returns (s': State)
    requires Reachable(s) && Leads(s0, s) && s.backend == Some(a) && a in s.ops
    requires s.ops[a].Cleaning? && s.ops[a].cleanStage.CleanReplied? && s.ops[a].todo != []
    ensures Reachable(s') && Leads(s0, s') && Same(s, s')
    ensures s.ops[a].cleanStage.confirmed ==>
      forall c :: c in s'.broker.unconfirmed ==> c in s.broker.unconfirmed && c != s.ops[a].todo[0]
    ensures |s.ops[a].todo| == 1 ==> s' == CleanedUp(s, a, s.ops[a].thenClear).(broker := s'.broker)
    ensures |s.ops[a].todo| > 1 ==>
      s' == Spawned(s, a, Cleaning(s.ops[a].todo[1..], s.ops[a].thenClear, CleanHolding)).(broker := s'.broker)
  {
    s' := CleanApply(s, a, Conclude);
    LeadsOn(s0, s, Clean(a, Conclude), s');
  }

  /** One call of a cleanup that holds the backend: it is answered, and confirmed. */
  lemma OneCleanup(s0: State, s: State, a: Tid) returns (s': State)
    requires Reachable(s) && Leads(s0, s) && s.backend == Some(a) && a in s.ops
    requires s.ops[a].Cleaning? && s.ops[a].cleanStage == CleanHolding && s.ops[a].todo != []
    ensures Reachable(s') && Leads(s0, s') && Same(s, s')
    ensures forall c :: c in s'.broker.unconfirmed ==> c in s.broker.unconfirmed && c != s.ops[a].todo[0]
    ensures |s.ops[a].todo| == 1 ==> s' == CleanedUp(s, a, s.ops[a].thenClear).(broker := s'.broker, leases := s'.leases)
    ensures |s.ops[a].todo| > 1 ==>
      s' == Spawned(s, a, Cleaning(s.ops[a].todo[1..], s.ops[a].thenClear, CleanHolding)).(broker := s'.broker, leases := s'.leases)
  {
    var op := s.ops[a];
    var s1 := CleanApply(s, a, Call(Answered));
    LeadsOn(s0, s, Clean(a, Call(Answered)), s1);
    s' := ConcludeOne(s0, s1, a);
    var rest := Cleaning(op.todo[1..], op.thenClear, CleanHolding);
    assert s.ops[a := s1.ops[a]][a := rest] == s.ops[a := rest];
    assert s.ops[a := s1.ops[a]] - {a} == s.ops - {a};
  }

  /** All of them, and the guard-wide clear that may be owed after it. */
  lemma {:induction false} FinishCleaning(s0: State, s: State, a: Tid) returns (s': State)
    requires Reachable(s) && Leads(s0, s) && s.backend == Some(a) && a in s.ops
    requires s.ops[a].Cleaning? && s.ops[a].cleanStage == CleanHolding && s.ops[a].todo != []
    requires s.ops[a].thenClear ==> s.input != Some(a)
    ensures Reachable(s') && Leads(s0, s') && Over(s, a, s')
    ensures forall c :: c in s'.broker.unconfirmed ==> c in s.broker.unconfirmed && c !in s.ops[a].todo
    decreases s.ops[a].thenClear, |s.ops[a].todo|
  {
    var op := s.ops[a];
    var s1 := OneCleanup(s0, s, a);
    if |op.todo| > 1 {
      s' := FinishCleaning(s0, s1, a);
    } else if op.thenClear {
      s' := QueuedCleaning(s0, s1, a);
    } else {
      s' := s1;
    }
  }

  /** A cleanup that waits for the backend. */
  lemma QueuedCleaning(s0: State, s: State, a: Tid) returns (s': State)
    requires Reachable(s) && Leads(s0, s) && s.backend == None && a in s.ops
    requires s.ops[a].Cleaning? && s.ops[a].cleanStage == CleanQueued && !s.ops[a].thenClear && s.ops[a].todo != []
    ensures Reachable(s') && Leads(s0, s') && Over(s, a, s')
    ensures forall c :: c in s'.broker.unconfirmed ==> c in s.broker.unconfirmed && c !in s.ops[a].todo
    decreases false, |s.ops[a].todo| + 1
  {
    var s1 := AcquireApply(s, a);
    LeadsOn(s0, s, Acquire(a), s1);
    s' := FinishCleaning(s0, s1, a);
    assert s1.ops - {a} == s.ops - {a};
  }

  /** A cleanup whose answer is not recorded yet. */
  lemma RepliedCleaning(s0: State, s: State, a: Tid) returns (s': State)
    requires Reachable(s) && Leads(s0, s) && s.backend == Some(a) && a in s.ops && s.ops[a].Cleaning?
    requires s.ops[a].cleanStage.CleanReplied? && s.ops[a].todo != [] && (s.ops[a].thenClear ==> s.input != Some(a))
    ensures Reachable(s') && Leads(s0, s') && Over(s, a, s')
  {
    var s1 := ConcludeOne(s0, s, a);
    if |s.ops[a].todo| > 1 {
      s' := FinishCleaning(s0, s1, a);
      assert s1.ops - {a} == s.ops - {a};
    } else if s.ops[a].thenClear {
      s' := QueuedCleaning(s0, s1, a);
      assert s1.ops - {a} == s.ops - {a};
    } else {
      s' := s1;
    }
  }

  /** Any cleanup. */
  lemma AnyCleaning(s0: State, s: State, a: Tid) returns (s': State)
    requires Reachable(s) && Leads(s0, s) && (s.backend == None || s.backend == Some(a)) && a in s.ops && s.ops[a].Cleaning?
    ensures Reachable(s') && Leads(s0, s') && Over(s, a, s')
  {
    HoldersHold(s);
    assert Shaped(s.ops[a]);
    match s.ops[a].cleanStage
    case CleanHolding => s' := FinishCleaning(s0, s, a);
    case CleanReplied(_) => s' := RepliedCleaning(s0, s, a);
    case CleanQueued =>
      var s1 := AcquireApply(s, a);
      LeadsOn(s0, s, Acquire(a), s1);
      s' := FinishCleaning(s0, s1, a);
      assert s1.ops - {a} == s.ops - {a};
  }

  lemma FinishGranting(s0: State, s: State, a: Tid) returns (s': State)
    requires Reachable(s) && Leads(s0, s) && (s.backend == None || s.backend == Some(a)) && a in s.ops && s.ops[a].Granting?
    ensures Reachable(s') && Leads(s0, s') && Over(s, a, s')
  {
    HoldersHold(s);
    match s.ops[a].grantStage
    case Queued =>
      var s1 := AcquireApply(s, a);
      LeadsOn(s0, s, Acquire(a), s1);
      s' := GrantApply(s1, a, GiveUp);
      LeadsOn(s0, s1, Bestow(a, GiveUp), s');
      assert s1.ops - {a} == s.ops - {a};
    case Holding =>
      s' := GrantApply(s, a, GiveUp);
      LeadsOn(s0, s, Bestow(a, GiveUp), s');
    case Authorized(_, _, _) =>
      s' := FinishCommit(s0, s, a);
  }

  lemma CommitOne(s0: State, s: State, a: Tid) returns (s': State)
    requires Reachable(s) && Leads(s0, s) && s.backend == Some(a) && a in s.ops && s.ops[a].Granting? && s.ops[a].grantStage.Authorized?
    ensures Reachable(s') && Leads(s0, s') && Same(s, s') && s'.now == s.now
    ensures a !in s'.ops ==> s'.ops == s.ops - {a} && s'.backend == None && s'.input == (if s.input == Some(a) then None else s.input)
    ensures a in s'.ops ==>
      && s'.backend == s.backend && s'.input == s.input
      && s'.ops == s.ops[a := Cleaning([RevokeLease(s.ops[a].grantStage.grant.id)], false, CleanHolding)]
  {
    s' := GrantApply(s, a, Commit);
    LeadsOn(s0, s, Bestow(a, Commit), s');
  }

  lemma FinishCommit(s0: State, s: State, a: Tid) returns (s': State)
    requires Reachable(s) && Leads(s0, s) && s.backend == Some(a) && a in s.ops && s.ops[a].Granting? && s.ops[a].grantStage.Authorized?
    ensures Reachable(s') && Leads(s0, s') && Over(s, a, s')
  {
    var s1 := CommitOne(s0, s, a);
    if a in s1.ops {
      s' := FinishCleaning(s0, s1, a);
      assert s1.ops - {a} == s.ops - {a};
    } else {
      s' := s1;
    }
  }

  lemma FinishInput(s0: State, s: State, a: Tid) returns (s': State)
    requires Reachable(s) && Leads(s0, s) && s.backend == None && a in s.ops && s.ops[a].Input?
    requires s.input == None || s.input == Some(a)
    ensures Reachable(s') && Leads(s0, s') && Over(s, a, s')
  {
    HoldersHold(s);
    match s.ops[a].inputStage
    case InputQueued =>
      var s1 := InputApply(s, a, Enter);
      LeadsOn(s0, s, Type(a, Enter), s1);
      s' := FinishEntered(s0, s1, a);
      assert s1.ops - {a} == s.ops - {a};
    case InputSent(_) =>
      var s1 := InputApply(s, a, Answer);
      LeadsOn(s0, s, Type(a, Answer), s1);
      s' := FinishEntered(s0, s1, a);
      assert s1.ops - {a} == s.ops - {a};
    case InputHolding => s' := FinishEntered(s0, s, a);
    case InputReady => s' := FinishEntered(s0, s, a);
  }

  lemma FinishEntered(s0: State, s: State, a: Tid) returns (s': State)
    requires Reachable(s) && Leads(s0, s) && s.backend == None && a in s.ops && s.ops[a].Input?
    requires s.input == Some(a) && (s.ops[a].inputStage.InputHolding? || s.ops[a].inputStage.InputReady?)
    ensures Reachable(s') && Leads(s0, s') && Over(s, a, s')
  {
    if s.ops[a].inputStage.InputHolding? {
      s' := InputApply(s, a, Abandon);
      LeadsOn(s0, s, Type(a, Abandon), s');
    } else {
      var s1 := InputApply(s, a, Finish);
      LeadsOn(s0, s, Type(a, Finish), s1);
      if a in s1.ops {
        s' := QueuedCleaning(s0, s1, a);
        assert s1.ops - {a} == s.ops - {a};
      } else {
        s' := s1;
      }
    }
  }

  // ------------------------------------------------------------- maintenance

  lemma {:induction false} Listed(calls: set<Cleanup>) returns (order: seq<Cleanup>)
    ensures forall c :: c in order <==> c in calls
  {
    if calls == {} {
      order := [];
    } else {
      var c :| c in calls;
      order := Listed(calls - {c});
      order := order + [c];
    }
  }

  /** The retry, or its absence. */
  lemma SweepOne(s0: State, s: State, a: Tid) returns (s': State)
    requires Reachable(s) && Leads(s0, s) && s.backend == Some(a) && a in s.ops && s.ops[a].Sweeping? && s.ops[a].holding
    ensures Reachable(s') && Leads(s0, s') && s'.broker == s.broker && s'.lost == s.lost && s'.now == s.now
    ensures !RetryDue(s.broker, s.now) ==> s' == CleanedUp(s, a, s.ops[a].thenClear)
    ensures RetryDue(s.broker, s.now) ==>
      && a in s'.ops && s'.ops[a].Cleaning? && s'.ops[a].cleanStage == CleanHolding && s'.ops[a].thenClear == s.ops[a].thenClear
      && s'.backend == s.backend && s'.input == s.input && s'.ops == s.ops[a := s'.ops[a]] && s'.ops[a].todo != []
      && forall c :: c in s.broker.unconfirmed ==> c in s'.ops[a].todo
  {
    var order := Listed(s.broker.unconfirmed);
    if RetryDue(s.broker, s.now) {
      var c :| c in s.broker.unconfirmed;
      assert c in order;
    }
    s' := CleanApply(s, a, Sweep(order));
    LeadsOn(s0, s, Clean(a, Sweep(order)), s');
  }

  /** A maintenance pass that holds the backend; when its retry is due it settles all. */
  lemma FinishSweep(s0: State, s: State, a: Tid) returns (s': State)
    requires Reachable(s) && Leads(s0, s) && s.backend == Some(a) && s.input != Some(a)
    requires a in s.ops && s.ops[a].Sweeping? && s.ops[a].holding
    ensures Reachable(s') && Leads(s0, s') && Over(s, a, s')
    ensures s.broker.unconfirmed == {} || s.broker.nextRetry <= s.now ==> s'.broker.unconfirmed == {}
  {
    var s1 := SweepOne(s0, s, a);
    assert s1.ops - {a} == s.ops - {a};
    if RetryDue(s.broker, s.now) {
      s' := FinishCleaning(s0, s1, a);
    } else if s.ops[a].thenClear {
      s' := QueuedCleaning(s0, s1, a);
    } else {
      s' := s1;
    }
  }

  lemma FinishSweeping(s0: State, s: State, a: Tid) returns (s': State)
    requires Reachable(s) && Leads(s0, s) && (s.backend == None || s.backend == Some(a)) && a in s.ops && s.ops[a].Sweeping?
    ensures Reachable(s') && Leads(s0, s') && Over(s, a, s')
    ensures s.broker.unconfirmed == {} || s.broker.nextRetry <= s.now ==> s'.broker.unconfirmed == {}
  {
    HoldersHold(s);
    if s.ops[a].holding {
      s' := FinishSweep(s0, s, a);
    } else {
      var s1 := AcquireApply(s, a);
      LeadsOn(s0, s, Acquire(a), s1);
      s' := FinishSweep(s0, s1, a);
      assert s1.ops - {a} == s.ops - {a};
    }
  }

  // ---------------------------------------------------------------- recovery

  lemma FinishOne(s0: State, s: State, a: Tid) returns (s': State)
    requires Reachable(s) && Leads(s0, s) && (s.backend == None || s.backend == Some(a)) && a in s.ops
    requires s.ops[a].Input? ==> s.input == None || s.input == Some(a)
    ensures Reachable(s') && Leads(s0, s') && Over(s, a, s')
  {
    match s.ops[a]
    case Granting(_, _) => s' := FinishGranting(s0, s, a);
    case Cleaning(_, _, _) => s' := AnyCleaning(s0, s, a);
    case Sweeping(_, _) => s' := FinishSweeping(s0, s, a);
    case Input(_, _, _, _, _) =>
      HoldersHold(s);
      s' := FinishInput(s0, s, a);
  }

  /** Everything in flight can end: first whoever holds the backend, then whoever holds the
      input lock, then the others. */
  lemma {:induction false} AllEnd(s0: State, s: State) returns (s': State)
    requires Reachable(s) && Leads(s0, s)
    ensures Reachable(s') && Leads(s0, s') && Same(s, s')
    ensures s'.ops == map[] && s'.backend == None && s'.input == None
    decreases |s.ops|
  {
    HoldersHold(s);
    if s.ops == map[] {
      s' := s;
    } else {
      var a: Tid;
      if s.backend.Some? {
        a := s.backend.value;
      } else if s.input.Some? {
        a := s.input.value;
      } else {
        a :| a in s.ops;
      }
      var s1 := FinishOne(s0, s, a);
      assert |s1.ops| < |s.ops| by { FewerOps(s.ops, a); }
      s' := AllEnd(s0, s1);
    }
  }

  lemma FewerOps(ops: map<Tid, Op>, a: Tid)
    requires a in ops
    ensures |ops - {a}| < |ops|
  {
    assert (ops - {a}).Keys == ops.Keys - {a};
  }

  /** From every reachable state, whatever was refused or lost, time, one maintenance pass
      and a guard that answers lead to a state with nothing in flight and nothing
      unconfirmed, where the guard holds the leases of the control grants and those whose
      authorize reply was lost, and no others. Nobody is asked for anything, and mode, pause,
      consoles and clients stay as they are. */
  lemma AlwaysRecovers(s: State) returns (s': State)
    requires Reachable(s)
    ensures Reachable(s') && Leads(s, s') && Same(s, s')
    ensures s'.ops == map[] && s'.backend == None && s'.input == None && s'.broker.unconfirmed == {}
    ensures forall t :: t in s'.leases ==> (ControlGrant(s', t) <==> t !in s'.lost)
  {
    LeadsNowhere(s);
    var s1 := AllEnd(s, s);
    var wait: nat := if s1.broker.nextRetry > s1.now then s1.broker.nextRetry - s1.now else 0;
    var s2 := WorldApply(s1, Elapse(wait));
    LeadsOn(s, s1, World(Elapse(wait)), s2);
    var s3 := StartApply(s2, 0, Maintain);
    LeadsOn(s, s2, Start(0, Maintain), s3);
    s' := FinishSweeping(s, s3, 0);
    forall t | t in s'.leases ensures ControlGrant(s', t) <==> t !in s'.lost { QuietLease(s', t); }
  }
}

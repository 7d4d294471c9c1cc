/** Where grants come from: every grant was committed exactly once, from an approval
    or a selection that nothing disturbed. */
module ProtocolHistory {
  import opened Common
  import opened BrokerModel
  import opened Protocol
  import opened ProtocolSafety

  // ----------------------------------------------------------------- history

  /** By how much an event moves the broker's authority counter. */
  function Weight(e: Event): nat {
    match e
    case Committed(_, _, _) => 0
    case GrantRevoked(_) => 1
    case AuthorityCleared => 1
    case AuthorityResumed => 1
    case ClientGone(_, revoked) => revoked
    case AuthorityExpired(revoked) => revoked
    case InputDelivered(_) => 0
  }

  function Bumps(log: seq<Event>): nat {
    if log == [] then 0 else Bumps(log[..|log| - 1]) + Weight(log[|log| - 1])
  }

  lemma BumpsAppend(log: seq<Event>, e: Event)
    ensures Bumps(log + [e]) == Bumps(log) + Weight(e)
  {
    assert (log + [e])[..|log|] == log;
  }

  /** Equal counters mean that no event in between moved the counter. */
  lemma {:induction false} SameBumps(log: seq<Event>, n: nat)
    requires n <= |log|
    ensures Bumps(log[..n]) <= Bumps(log)
    ensures Bumps(log[..n]) == Bumps(log) ==> forall j :: n <= j < |log| ==> Weight(log[j]) == 0
    decreases |log|
  {
    if n < |log| {
      var front := log[..|log| - 1];
      SameBumps(front, n);
      assert front[..n] == log[..n];
      assert log == front + [log[|log| - 1]];
    } else {
      assert log[..n] == log;
    }
  }

  predicate Gone(log: seq<Event>, from: nat, client: Id) {
    exists j :: from <= j < |log| && log[j].ClientGone? && log[j].client == client
  }

  /** Nothing between the snapshot and the commit withdrew authority or lost the client. */
  predicate Undisturbed(log: seq<Event>, from: nat, to: nat, client: Id) {
    && from <= to <= |log|
    && forall j :: from <= j < to ==> Weight(log[j]) == 0 && !(log[j].ClientGone? && log[j].client == client)
  }

  // -------------------------------------------------------------- invariants

  /** The request or picker a commit came from cannot be used again. */
  predicate Spent(b: BrokerState, origin: Origin) {
    match origin
    case FromRequest(r) => !IsPending(b, r)
    case FromPicker(k) => !PickerIs(b, k)
  }

  predicate OriginDrawn(s: State, origin: Origin) {
    match origin
    case FromRequest(r) => r in s.used
    case FromPicker(k) => k in s.used
  }

  predicate ProposalSound(s: State, p: Proposal) {
    && p.snapshot <= |s.log|
    && p.authority == Bumps(s.log[..p.snapshot])
    && OriginDrawn(s, p.origin)
    && match p.origin
       case FromRequest(r) =>
         && (IsPending(s.broker, r) ==> s.broker.requests[r].client == p.client)
         && (Gone(s.log, p.snapshot, p.client) ==> !IsPending(s.broker, r))
       case FromPicker(_) =>
         && p.client in s.used
         && (Gone(s.log, p.snapshot, p.client) ==> p.client !in s.broker.clients)
  }

  predicate CommitSound(s: State, i: nat)
    requires i < |s.log| && s.log[i].Committed?
  {
    && s.log[i].grant.id in s.used
    && OriginDrawn(s, s.log[i].origin)
    && Spent(s.broker, s.log[i].origin)
    && Undisturbed(s.log, s.log[i].snapshot, i, s.log[i].grant.client)
  }

  ghost predicate ProposalsSound(s: State) {
    forall tid :: tid in s.ops && s.ops[tid].Granting? ==> ProposalSound(s, s.ops[tid].proposal)
  }

  ghost predicate CommitsSound(s: State) {
    && (forall i :: 0 <= i < |s.log| && s.log[i].Committed? ==> CommitSound(s, i))
    && (forall i, j :: 0 <= i < j < |s.log| && s.log[i].Committed? && s.log[j].Committed?
          ==> s.log[i].origin != s.log[j].origin && s.log[i].grant.id != s.log[j].grant.id)
    && (forall tid, i :: tid in s.ops && s.ops[tid].Granting? && s.ops[tid].grantStage.Authorized? && 0 <= i < |s.log|
          ==> s.log[i].Committed? ==> s.log[i].grant.id != s.ops[tid].grantStage.grant.id)
  }

  predicate CommittedAt(s: State, g: Grant, i: nat) {
    i < |s.log| && s.log[i].Committed? && s.log[i].grant == g
  }

  ghost predicate GrantsCommitted(s: State) {
    forall id :: id in s.broker.grants ==>
      s.broker.grants[id].id == id && exists i: nat :: CommittedAt(s, s.broker.grants[id], i)
  }

  ghost predicate HistoryInv(s: State) {
    && s.broker.authority == Bumps(s.log)
    && BrokerNames(s.broker, s.used)
    && ProposalsSound(s)
    && CommitsSound(s)
    && GrantsCommitted(s)
  }

  // ------------------------------------------------------------ step summary

  /** At most one event is recorded, and the counter moves by its weight. */
  predicate Ledger(s: State, s': State) {
    || (s'.log == s.log && s'.broker.authority == s.broker.authority)
    || (&& |s'.log| == |s.log| + 1 && s'.log[..|s.log|] == s.log
        && s'.broker.authority == s.broker.authority + Weight(s'.log[|s.log|]))
  }

  /** Requests leave the pending state once; names once gone stay gone. */
  ghost predicate NamesStable(b: BrokerState, used: set<Id>, b': BrokerState, used': set<Id>) {
    && used <= used'
    && (forall r :: r in b'.requests ==> r in used' && (r in b.requests || r !in used))
    && (forall r :: r in b'.requests && r in b.requests ==> Moved(b.requests[r], b'.requests[r]))
    && (forall r :: r in used && IsPending(b', r) ==> IsPending(b, r))
    && (forall k :: k in used && PickerIs(b', k) ==> PickerIs(b, k))
    && (forall c :: c in b'.clients ==> c in used' && (c in b.clients || c !in used))
    && (b'.picker.Some? ==> b'.picker.value.id in used')
  }

  /** A request keeps everything but its state, and that only while pending. */
  predicate Moved(r: Request, r': Request) {
    r' == r || (r.state == Pending && r' == r.(state := r'.state))
  }

  predicate BrokerNames(b: BrokerState, used: set<Id>) {
    b.requests.Keys <= used && b.clients <= used && (b.picker.Some? ==> b.picker.value.id in used)
  }

  lemma NamesSame(b: BrokerState, used: set<Id>, b': BrokerState, used': set<Id>)
    requires BrokerNames(b, used) && used <= used'
    requires b'.requests == b.requests && b'.clients <= b.clients && (b'.picker == b.picker || b'.picker == None)
    ensures NamesStable(b, used, b', used')
  {
  }

  lemma NamesCleared(b: BrokerState, used: set<Id>, b': BrokerState)
    requires BrokerNames(b, used)
    requires b'.requests == CancelledWhere(b.requests, None)
    requires b'.clients == b.clients && b'.picker == None
    ensures NamesStable(b, used, b', used)
  {
  }

  lemma NamesDisconnected(b: BrokerState, used: set<Id>, client: Id)
    requires BrokerNames(b, used)
    ensures NamesStable(b, used, Disconnected(b, client), used)
  {
  }

  lemma NamesExpired(b: BrokerState, used: set<Id>, now: Time)
    requires BrokerNames(b, used)
    ensures NamesStable(b, used, Expired(b, now), used)
  {
  }

  lemma NamesCommitted(b: BrokerState, used: set<Id>, p: Proposal, g: Grant, current: Option<Window>)
    requires BrokerNames(b, used) && (p.origin.FromRequest? ==> IsPending(b, p.origin.request))
    ensures NamesStable(b, used, CommittedBroker(b, p, g, current), used)
  {
  }

  lemma WorldNames(s: State, l: WorldStep)
    requires BrokerNames(s.broker, s.used) && WorldEnabled(s, l)
    ensures NamesStable(s.broker, s.used, WorldApply(s, l).broker, WorldApply(s, l).used)
    ensures Ledger(s, WorldApply(s, l))
  {
  }

  lemma StartNames(s: State, a: Tid, l: StartStep)
    requires BrokerNames(s.broker, s.used) && StartEnabled(s, a, l)
    ensures NamesStable(s.broker, s.used, StartApply(s, a, l).broker, s.used)
    ensures StartApply(s, a, l).used == s.used
  {
    var s' := StartApply(s, a, l);
    if StartsClear(s, l) {
      NamesCleared(s.broker, s.used, s'.broker);
    } else if l.Disconnect? {
      NamesDisconnected(s.broker, s.used, l.client);
    } else if l.Maintain? {
      NamesExpired(s.broker, s.used, s.now);
    } else {
      NamesSame(s.broker, s.used, s'.broker, s.used);
    }
  }

  lemma ClearLedger(s: State, a: Tid, b: BrokerState)
    requires b.authority == s.broker.authority + 1
    ensures Ledger(s, AfterClearing(s, b, a))
  {
  }

  lemma StartLedgerClears(s: State, a: Tid, l: StartStep)
    requires StartEnabled(s, a, l) && StartsClear(s, l)
    ensures Ledger(s, StartApply(s, a, l))
  {
    match l
    case ConsoleDetach => ClearLedger(s, a, ConsoleLost(s.broker));
    case Pause => ClearLedger(s, a, PauseSet(s.broker));
    case SwitchMode(mode) => ClearLedger(s, a, ModeSet(s.broker, mode));
    case RevokeAll => ClearLedger(s, a, Cleared(s.broker));
  }

  lemma StartLedgerOthers(s: State, a: Tid, l: StartStep)
    requires StartEnabled(s, a, l) && !StartsClear(s, l)
    ensures Ledger(s, StartApply(s, a, l))
  {
  }

  lemma StartLedger(s: State, a: Tid, l: StartStep)
    requires StartEnabled(s, a, l)
    ensures Ledger(s, StartApply(s, a, l))
  {
    if StartsClear(s, l) { StartLedgerClears(s, a, l); } else { StartLedgerOthers(s, a, l); }
  }

  lemma BestowNames(s: State, a: Tid, l: GrantStep)
    requires BrokerNames(s.broker, s.used) && GrantEnabled(s, a, l)
    ensures NamesStable(s.broker, s.used, GrantApply(s, a, l).broker, GrantApply(s, a, l).used)
    ensures Ledger(s, GrantApply(s, a, l))
  {
    var s' := GrantApply(s, a, l);
    if l.Commit? && Stands(s, s.ops[a].proposal) {
      NamesCommitted(s.broker, s.used, s.ops[a].proposal, s.ops[a].grantStage.grant, s.ops[a].grantStage.current);
    } else {
      NamesSame(s.broker, s.used, s'.broker, s'.used);
    }
  }

  /** Cleaning up concerns the guard and the table of unconfirmed calls, nothing else. */
  predicate OnlyCleans(s: State, s': State) {
    && s'.log == s.log && s'.used == s.used
    && s'.broker == s.broker.(unconfirmed := s'.broker.unconfirmed, nextRetry := s'.broker.nextRetry)
  }

  lemma CleanOnlyCleans(s: State, a: Tid, l: CleanStep)
    requires CleanEnabled(s, a, l)
    ensures OnlyCleans(s, CleanApply(s, a, l))
    ensures a in CleanApply(s, a, l).ops ==> !CleanApply(s, a, l).ops[a].Granting?
  {
    match l
    case Call(outcome) => CallOnlyCleans(s, a, outcome);
    case Conclude => ConcludeOnlyCleans(s, a);
    case Sweep(order) => SweepOnlyCleans(s, a, order);
  }

  lemma CallOnlyCleans(s: State, a: Tid, outcome: Outcome)
    requires CleanEnabled(s, a, Call(outcome))
    ensures var s' := CleanApply(s, a, Call(outcome)); OnlyCleans(s, s') && (a in s'.ops ==> !s'.ops[a].Granting?)
  {
  }

  lemma ConcludeOnlyCleans(s: State, a: Tid)
    requires CleanEnabled(s, a, Conclude)
    ensures var s' := CleanApply(s, a, Conclude); OnlyCleans(s, s') && (a in s'.ops ==> !s'.ops[a].Granting?)
  {
  }

  lemma SweepOnlyCleans(s: State, a: Tid, order: seq<Cleanup>)
    requires CleanEnabled(s, a, Sweep(order))
    ensures var s' := CleanApply(s, a, Sweep(order)); OnlyCleans(s, s') && (a in s'.ops ==> !s'.ops[a].Granting?)
  {
  }

  lemma InputNames(s: State, a: Tid, l: InputStep)
    requires BrokerNames(s.broker, s.used) && InputEnabled(s, a, l)
    ensures NamesStable(s.broker, s.used, InputApply(s, a, l).broker, InputApply(s, a, l).used)
    ensures Ledger(s, InputApply(s, a, l))
  {
    var s' := InputApply(s, a, l);
    NamesSame(s.broker, s.used, s'.broker, s'.used);
  }

  // ------------------------------------------------------------ preservation

  /** What a step that commits nothing does to grants and proposals. */
  ghost predicate CommitsNothing(s: State, a: Option<Tid>, s': State) {
    && (|s'.log| == |s.log| + 1 ==> !s'.log[|s.log|].Committed? && GoneForGood(s', s'.log[|s.log|]))
    && (forall id :: id in s'.broker.grants ==> id in s.broker.grants && s'.broker.grants[id] == s.broker.grants[id])
    && (forall tid :: Some(tid) != a && tid in s'.ops ==> tid in s.ops && s'.ops[tid] == s.ops[tid])
    && (a.Some? && a.value in s'.ops && s'.ops[a.value].Granting? ==> ProposalStep(s, a.value, s'))
  }

  /** The acting operation proposes anew, or moves on without a grant it could commit twice. */
  ghost predicate ProposalStep(s: State, a: Tid, s': State)
    requires a in s'.ops && s'.ops[a].Granting?
  {
    if a in s.ops && s.ops[a].Granting? then
      && s'.ops[a].proposal == s.ops[a].proposal
      && (s'.ops[a].grantStage.Authorized? ==> s'.ops[a].grantStage.grant.id !in s.used)
    else
      !s'.ops[a].grantStage.Authorized? && ProposalSound(s', s'.ops[a].proposal)
  }

  /** After a disconnect the client is gone and none of its requests is pending. */
  ghost predicate GoneForGood(s: State, e: Event) {
    e.ClientGone? ==>
      && e.client !in s.broker.clients
      && (forall r :: IsPending(s.broker, r) ==> s.broker.requests[r].client != e.client)
  }

  lemma ProposalKept(s: State, s': State, p: Proposal)
    requires Ledger(s, s') && NamesStable(s.broker, s.used, s'.broker, s'.used)
    requires ProposalSound(s, p)
    requires |s'.log| == |s.log| + 1 ==> GoneForGood(s', s'.log[|s.log|])
    ensures ProposalSound(s', p)
  {
    assert s'.log[..p.snapshot] == s.log[..p.snapshot];
    if Gone(s'.log, p.snapshot, p.client) && !Gone(s.log, p.snapshot, p.client) {
      var j :| p.snapshot <= j < |s'.log| && s'.log[j].ClientGone? && s'.log[j].client == p.client;
      assert j == |s.log|;
    }
  }

  lemma CommitKept(s: State, s': State, i: nat)
    requires Ledger(s, s') && NamesStable(s.broker, s.used, s'.broker, s'.used)
    requires i < |s.log| && s.log[i].Committed? && CommitSound(s, i)
    ensures s'.log[i] == s.log[i] && CommitSound(s', i)
  {
    assert forall j :: 0 <= j < |s.log| ==> s'.log[j] == s.log[j];
  }

  lemma ProposalsKept(s: State, a: Option<Tid>, s': State)
    requires ProposalsSound(s) && Ledger(s, s') && NamesStable(s.broker, s.used, s'.broker, s'.used)
    requires CommitsNothing(s, a, s')
    ensures ProposalsSound(s')
  {
    forall tid | tid in s'.ops && s'.ops[tid].Granting? ensures ProposalSound(s', s'.ops[tid].proposal) {
      if tid in s.ops && s.ops[tid].Granting? { ProposalKept(s, s', s.ops[tid].proposal); }
    }
  }

  /** A step that commits nothing has the commits of before. */
  lemma SameCommits(s: State, a: Option<Tid>, s': State, i: nat)
    requires Ledger(s, s') && CommitsNothing(s, a, s') && i < |s'.log| && s'.log[i].Committed?
    ensures i < |s.log| && s'.log[i] == s.log[i]
  {
    if i < |s.log| { assert s'.log[..|s.log|][i] == s'.log[i]; }
  }

  lemma CommitsKept(s: State, a: Option<Tid>, s': State)
    requires CommitsSound(s) && Ledger(s, s') && NamesStable(s.broker, s.used, s'.broker, s'.used)
    requires CommitsNothing(s, a, s')
    ensures CommitsSound(s')
  {
    forall i | 0 <= i < |s'.log| && s'.log[i].Committed?
      ensures CommitSound(s', i) && i < |s.log| && s.log[i] == s'.log[i] && s.log[i].grant.id in s.used
    {
      SameCommits(s, a, s', i);
      CommitKept(s, s', i);
    }
  }

  lemma GrantsKept(s: State, a: Option<Tid>, s': State)
    requires GrantsCommitted(s) && Ledger(s, s') && CommitsNothing(s, a, s')
    ensures GrantsCommitted(s')
  {
    forall id | id in s'.broker.grants ensures s'.broker.grants[id].id == id && exists i: nat :: CommittedAt(s', s'.broker.grants[id], i) {
      var i: nat :| CommittedAt(s, s.broker.grants[id], i);
      assert s'.log[..|s.log|][i] == s'.log[i];
      assert CommittedAt(s', s'.broker.grants[id], i);
    }
  }

  lemma BumpsKept(s: State, s': State)
    requires s.broker.authority == Bumps(s.log) && Ledger(s, s')
    ensures s'.broker.authority == Bumps(s'.log)
  {
    if s'.log != s.log {
      assert s'.log == s.log + [s'.log[|s.log|]];
      BumpsAppend(s.log, s'.log[|s.log|]);
    }
  }

  lemma HistoryKept(s: State, a: Option<Tid>, s': State)
    requires HistoryInv(s) && Ledger(s, s') && NamesStable(s.broker, s.used, s'.broker, s'.used)
    requires CommitsNothing(s, a, s')
    ensures HistoryInv(s')
  {
    assert s'.broker.authority == Bumps(s'.log) by { BumpsKept(s, s'); }
    assert ProposalsSound(s') by { ProposalsKept(s, a, s'); }
    assert CommitsSound(s') by { CommitsKept(s, a, s'); }
    assert GrantsCommitted(s') by { GrantsKept(s, a, s'); }
  }

  lemma WorldHistory(s: State, l: WorldStep)
    requires HistoryInv(s) && WorldEnabled(s, l)
    ensures HistoryInv(WorldApply(s, l))
  {
    WorldNames(s, l);
    HistoryKept(s, None, WorldApply(s, l));
  }

  lemma StartGrants(s: State, a: Tid, l: StartStep)
    requires StartEnabled(s, a, l)
    ensures var s' := StartApply(s, a, l);
      && (|s'.log| == |s.log| + 1 ==> !s'.log[|s.log|].Committed? && GoneForGood(s', s'.log[|s.log|]))
      && (forall id :: id in s'.broker.grants ==> id in s.broker.grants && s'.broker.grants[id] == s.broker.grants[id])
  {
    match l
    case Disconnect(_, _) =>
    case ConsoleDetach =>
    case Pause =>
    case SwitchMode(_) =>
    case RevokeAll =>
    case Revoke(_) =>
    case Decide(_, _) =>
    case Select(_, _, _) =>
    case Maintain =>
    case BeginInput(_, _, _) =>
  }

  lemma StartProposes(s: State, a: Tid, l: StartStep)
    requires s.broker.authority == Bumps(s.log) && BrokerNames(s.broker, s.used) && StartEnabled(s, a, l)
    requires l.Decide? || l.Select?
    ensures ProposalStep(s, a, StartApply(s, a, l))
  {
    assert s.log[..|s.log|] == s.log;
  }

  lemma StartCommitsNothing(s: State, a: Tid, l: StartStep)
    requires s.broker.authority == Bumps(s.log) && BrokerNames(s.broker, s.used) && StartEnabled(s, a, l)
    ensures CommitsNothing(s, Some(a), StartApply(s, a, l))
  {
    StartGrants(s, a, l);
    if l.Decide? || l.Select? { StartProposes(s, a, l); }
  }

  lemma StartHistory(s: State, a: Tid, l: StartStep)
    requires HistoryInv(s) && StartEnabled(s, a, l)
    ensures HistoryInv(StartApply(s, a, l))
  {
    StartNames(s, a, l);
    StartLedger(s, a, l);
    StartCommitsNothing(s, a, l);
    HistoryKept(s, Some(a), StartApply(s, a, l));
  }

  lemma AcquireHistory(s: State, a: Tid)
    requires HistoryInv(s) && AcquireEnabled(s, a)
    ensures HistoryInv(AcquireApply(s, a))
  {
    var s' := AcquireApply(s, a);
    NamesSame(s.broker, s.used, s'.broker, s'.used);
    HistoryKept(s, Some(a), s');
  }

  lemma CleanHistory(s: State, a: Tid, s': State)
    requires HistoryInv(s) && OnlyCleans(s, s') && (a in s'.ops ==> !s'.ops[a].Granting?)
    requires forall tid :: tid != a && tid in s'.ops ==> tid in s.ops && s'.ops[tid] == s.ops[tid]
    ensures HistoryInv(s')
  {
    NamesSame(s.broker, s.used, s'.broker, s'.used);
    HistoryKept(s, Some(a), s');
  }

  lemma InputCommitsNothing(s: State, a: Tid, l: InputStep)
    requires InputEnabled(s, a, l)
    ensures CommitsNothing(s, Some(a), InputApply(s, a, l))
  {
  }

  lemma InputHistory(s: State, a: Tid, l: InputStep)
    requires HistoryInv(s) && InputEnabled(s, a, l)
    ensures HistoryInv(InputApply(s, a, l))
  {
    var s' := InputApply(s, a, l);
    assert Ledger(s, s') && NamesStable(s.broker, s.used, s'.broker, s'.used) by { InputNames(s, a, l); }
    assert CommitsNothing(s, Some(a), s') by { InputCommitsNothing(s, a, l); }
    HistoryKept(s, Some(a), s');
  }

  lemma BestowCommitsNothing(s: State, a: Tid, l: GrantStep)
    requires GrantEnabled(s, a, l)
    requires !(l.Commit? && Stands(s, s.ops[a].proposal))
    ensures CommitsNothing(s, Some(a), GrantApply(s, a, l))
  {
  }

  lemma BestowHistory(s: State, a: Tid, l: GrantStep)
    requires HistoryInv(s) && GrantEnabled(s, a, l)
    requires !(l.Commit? && Stands(s, s.ops[a].proposal))
    ensures HistoryInv(GrantApply(s, a, l))
  {
    var s' := GrantApply(s, a, l);
    assert Ledger(s, s') && NamesStable(s.broker, s.used, s'.broker, s'.used) by { BestowNames(s, a, l); }
    assert CommitsNothing(s, Some(a), s') by { BestowCommitsNothing(s, a, l); }
    HistoryKept(s, Some(a), s');
  }

  /** The one step that adds a grant: the recheck passed. */
  ghost predicate Commits(s: State, a: Tid, p: Proposal, g: Grant, current: Option<Window>, s': State) {
    && a in s.ops && s.ops[a] == Granting(p, Authorized(g, p.capability == Control, current))
    && g == ProposedGrant(p, g.id) && g.id in s.used && WindowAgrees(p, current)
    && (p.origin.FromPicker? ==> p.window.Some?)
    && Stands(s, p)
    && s'.broker == CommittedBroker(s.broker, p, g, current)
    && s'.log == s.log + [Committed(g, p.origin, p.snapshot)]
    && s'.used == s.used
    && s'.ops == s.ops - {a}
  }

  lemma CommitCommits(s: State, a: Tid)
    requires Shapes(s) && TokensDrawn(s) && GrantEnabled(s, a, Commit) && Stands(s, s.ops[a].proposal)
    ensures Commits(s, a, s.ops[a].proposal, s.ops[a].grantStage.grant, s.ops[a].grantStage.current, GrantApply(s, a, Commit))
  {
    assert Shaped(s.ops[a]) && OpDrawn(s.ops[a], s.used);
  }

  /** The recheck is enough: an unchanged counter, a pending request or a connected
      client rule out every disturbance since the snapshot. */
  lemma CommitUndisturbed(s: State, p: Proposal)
    requires s.broker.authority == Bumps(s.log) && ProposalSound(s, p) && Stands(s, p)
    ensures Undisturbed(s.log, p.snapshot, |s.log|, p.client)
  {
    SameBumps(s.log, p.snapshot);
    assert !Gone(s.log, p.snapshot, p.client);
  }

  lemma CommitsCommits(s: State, a: Tid, p: Proposal, g: Grant, current: Option<Window>, s': State)
    requires HistoryInv(s) && Locked(s) && Commits(s, a, p, g, current, s')
    requires NamesStable(s.broker, s.used, s'.broker, s'.used) && Ledger(s, s')
    ensures CommitsSound(s')
  {
    var n := |s.log|;
    assert ProposalSound(s, p);
    CommitUndisturbed(s, p);
    forall j | 0 <= j < n ensures s'.log[j] == s.log[j] {}
    assert CommitSound(s', n);
    forall i | 0 <= i < n && s'.log[i].Committed?
      ensures CommitSound(s', i) && s'.log[i].origin != p.origin && s'.log[i].grant.id != g.id
    {
      CommitKept(s, s', i);
      assert CommitSound(s, i);
    }
    forall tid | tid in s'.ops && s'.ops[tid].Granting? ensures !s'.ops[tid].grantStage.Authorized? {
      assert tid != a && NeedsBackend(s.ops[a]);
    }
  }

  lemma CommitHistory(s: State, a: Tid, p: Proposal, g: Grant, current: Option<Window>, s': State)
    requires HistoryInv(s) && Locked(s) && Commits(s, a, p, g, current, s')
    ensures HistoryInv(s')
  {
    var n := |s.log|;
    BumpsAppend(s.log, Committed(g, p.origin, p.snapshot));
    NamesCommitted(s.broker, s.used, p, g, current);
    assert s'.log[..n] == s.log;
    CommitsCommits(s, a, p, g, current, s');
    forall tid | tid in s'.ops && s'.ops[tid].Granting? ensures ProposalSound(s', s'.ops[tid].proposal) {
      ProposalKept(s, s', s.ops[tid].proposal);
    }
    forall id | id in s'.broker.grants ensures s'.broker.grants[id].id == id && exists i: nat :: CommittedAt(s', s'.broker.grants[id], i) {
      if id == g.id {
        assert CommittedAt(s', g, n);
      } else {
        var i: nat :| CommittedAt(s, s.broker.grants[id], i);
        assert CommittedAt(s', s'.broker.grants[id], i);
      }
    }
  }

  ghost predicate ProtocolInv(s: State) {
    LeaseInv(s) && HistoryInv(s)
  }

  lemma BestowKeepsHistory(s: State, a: Tid, l: GrantStep)
    requires ProtocolInv(s) && GrantEnabled(s, a, l)
    ensures HistoryInv(GrantApply(s, a, l))
  {
    if l.Commit? && Stands(s, s.ops[a].proposal) {
      CommitCommits(s, a);
      CommitHistory(s, a, s.ops[a].proposal, s.ops[a].grantStage.grant, s.ops[a].grantStage.current, GrantApply(s, a, l));
    } else {
      BestowHistory(s, a, l);
    }
  }

  lemma CleanKeepsHistory(s: State, a: Tid, l: CleanStep)
    requires HistoryInv(s) && CleanEnabled(s, a, l)
    ensures HistoryInv(CleanApply(s, a, l))
  {
    CleanOnlyCleans(s, a, l);
    CleanHistory(s, a, CleanApply(s, a, l));
  }

  lemma ProtocolInvStep(s: State, l: Label, s': State)
    requires ProtocolInv(s) && Next(s, l, s')
    ensures ProtocolInv(s')
  {
    LeaseInvStep(s, l, s');
    match l
    case World(w) => WorldHistory(s, w);
    case Start(tid, st) => StartHistory(s, tid, st);
    case Acquire(tid) => AcquireHistory(s, tid);
    case Bestow(tid, g) => BestowKeepsHistory(s, tid, g);
    case Clean(tid, c) => CleanKeepsHistory(s, tid, c);
    case Type(tid, i) => InputHistory(s, tid, i);
  }

  lemma {:induction false} RunKeepsInv(states: seq<State>, labels: seq<Label>, i: nat, j: nat)
    requires IsRun(states, labels) && i <= j < |states| && ProtocolInv(states[i])
    ensures ProtocolInv(states[j])
    decreases j
  {
    if i < j {
      RunKeepsInv(states, labels, i, j - 1);
      assert StepAt(states, labels, j - 1);
      ProtocolInvStep(states[j - 1], labels[j - 1], states[j]);
    }
  }

  lemma ReachableInv(s: State)
    requires Reachable(s)
    ensures ProtocolInv(s)
  {
    var states, labels :| IsRun(states, labels) && states[0] == START && states[|states| - 1] == s;
    RunKeepsInv(states, labels, 0, |states| - 1);
  }
}

/** Where input goes, and by whose leave: every delivery of a run traced to the command that
    began it, the check it passed and the authorization of its lease. */
module ProtocolDelivery {
  import opened Common
  import opened BrokerModel
  import opened Protocol
  import opened ProtocolSafety
  import opened ProtocolHistory
  import opened ProtocolRuns
  import opened ProtocolProvenance
  import opened ProtocolLeases

  // ------------------------------------------------- what a lease may reach

  /** The operation means the token for this window, if it has it. */
  predicate MeansFor(op: Op, t: Id, window: string) {
    match op
    case Granting(p, stage) => stage.Authorized? && stage.grant.id == t ==> p.scope.id == window
    case Input(_, w, lease, _, _) => lease == Some(t) ==> w.id == window
    case _ => true
  }

  /** A lease reaches the window its grant is scoped to, and the one that every operation
      with its token means. */
  ghost predicate AimedAt(s: State, t: Id, window: string) {
    && (t in s.broker.grants ==> s.broker.grants[t].scope.id == window)
    && forall tid :: tid in s.ops ==> MeansFor(s.ops[tid], t, window)
  }

  ghost predicate Aimed(s: State) {
    forall t :: t in s.leases ==> AimedAt(s, t, s.leases[t].window)
  }

  lemma AimedBy(s: State, a: Tid, s': State, t: Id, window: string)
    requires AimedAt(s, t, window)
    requires t in s'.broker.grants ==> s'.broker.grants[t].scope.id == window
    requires a in s'.ops ==> MeansFor(s'.ops[a], t, window)
    requires forall tid :: tid != a && tid in s'.ops ==> tid in s.ops && s'.ops[tid] == s.ops[tid]
    ensures AimedAt(s', t, window)
  {
  }

  lemma StartAimed(s: State, a: Tid, l: StartStep, t: Id, window: string)
    requires AimedAt(s, t, window) && StartEnabled(s, a, l)
    ensures AimedAt(StartApply(s, a, l), t, window)
  {
    var s' := StartApply(s, a, l);
    forall tid | tid != a && tid in s'.ops ensures tid in s.ops && s'.ops[tid] == s.ops[tid] { StartLeavesOthers(s, a, l, tid); }
    StartGrants(s, a, l);
    StartMeans(s, a, l, t, window);
    AimedBy(s, a, s', t, window);
  }

  /** An input begins under a grant of its own window. */
  lemma StartMeans(s: State, a: Tid, l: StartStep, t: Id, window: string)
    requires AimedAt(s, t, window) && StartEnabled(s, a, l)
    ensures a in StartApply(s, a, l).ops ==> MeansFor(StartApply(s, a, l).ops[a], t, window)
  {
  }

  lemma BestowAimed(s: State, a: Tid, l: GrantStep, t: Id, window: string)
    requires Shapes(s) && t in s.used && AimedAt(s, t, window) && GrantEnabled(s, a, l)
    ensures AimedAt(GrantApply(s, a, l), t, window)
  {
    BestowOthers(s, a, l);
    BestowMeans(s, a, l, t, window);
    AimedBy(s, a, GrantApply(s, a, l), t, window);
  }

  lemma BestowMeans(s: State, a: Tid, l: GrantStep, t: Id, window: string)
    requires Shapes(s) && t in s.used && AimedAt(s, t, window) && GrantEnabled(s, a, l)
    ensures var s' := GrantApply(s, a, l);
      && (t in s'.broker.grants ==> s'.broker.grants[t].scope.id == window)
      && (a in s'.ops ==> MeansFor(s'.ops[a], t, window))
  {
    assert Shaped(s.ops[a]) && MeansFor(s.ops[a], t, window);
    match l
    case GiveUp =>
    case Authorize(_, _, _) =>
    case Prepare(_, _) =>
    case Commit =>
  }

  lemma CleanAimed(s: State, a: Tid, l: CleanStep, t: Id, window: string)
    requires AimedAt(s, t, window) && CleanEnabled(s, a, l)
    ensures AimedAt(CleanApply(s, a, l), t, window)
  {
    CleanOnlyRemoves(s, a, l);
    CleanMeans(s, a, l, t, window);
    AimedBy(s, a, CleanApply(s, a, l), t, window);
  }

  lemma CleanMeans(s: State, a: Tid, l: CleanStep, t: Id, window: string)
    requires CleanEnabled(s, a, l)
    ensures a in CleanApply(s, a, l).ops ==> MeansFor(CleanApply(s, a, l).ops[a], t, window)
  {
  }

  lemma InputAimed(s: State, a: Tid, l: InputStep, t: Id, window: string)
    requires t in s.used && AimedAt(s, t, window) && InputEnabled(s, a, l)
    ensures AimedAt(InputApply(s, a, l), t, window)
  {
    InputMeans(s, a, l, t, window);
    AimedBy(s, a, InputApply(s, a, l), t, window);
  }

  lemma InputMeans(s: State, a: Tid, l: InputStep, t: Id, window: string)
    requires t in s.used && InputEnabled(s, a, l) && MeansFor(s.ops[a], t, window)
    ensures var s' := InputApply(s, a, l);
      && s'.broker == s.broker && (a in s'.ops ==> MeansFor(s'.ops[a], t, window))
      && (forall tid :: tid != a && tid in s'.ops ==> tid in s.ops && s'.ops[tid] == s.ops[tid])
  {
    match l
    case Enter =>
    case Abandon =>
    case Lease(_, _) =>
    case Check =>
    case Deliver =>
    case Answer =>
    case Finish =>
  }

  lemma OldAimed(s: State, l: Label, s': State, t: Id, window: string)
    requires Shapes(s) && Next(s, l, s') && t in s.used && AimedAt(s, t, window)
    ensures AimedAt(s', t, window)
  {
    match l
    case World(w) =>
      WorldGrants(s, w);
      WorldLeavesOps(s, w);
    case Start(a, st) => StartAimed(s, a, st, t, window);
    case Acquire(a) => AimedBy(s, a, s', t, window);
    case Bestow(a, g) => BestowAimed(s, a, g, t, window);
    case Clean(a, c) => CleanAimed(s, a, c, t, window);
    case Type(a, i) => InputAimed(s, a, i, t, window);
  }

  /** A new lease is for the window of the operation that asked for it. */
  lemma BestowNewAimed(s: State, a: Tid, l: GrantStep, t: Id)
    requires TokensDrawn(s) && GrantEnabled(s, a, l) && t in GrantApply(s, a, l).leases && t !in s.used
    ensures AimedAt(GrantApply(s, a, l), t, GrantApply(s, a, l).leases[t].window)
  {
    BestowOthers(s, a, l);
    FreshAimed(s, t, s.ops[a].proposal.scope.id);
    AimedBy(s, a, GrantApply(s, a, l), t, s.ops[a].proposal.scope.id);
  }

  lemma InputNewAimed(s: State, a: Tid, l: InputStep, t: Id)
    requires TokensDrawn(s) && InputEnabled(s, a, l) && t in InputApply(s, a, l).leases && t !in s.used
    ensures AimedAt(InputApply(s, a, l), t, InputApply(s, a, l).leases[t].window)
  {
    FreshAimed(s, t, s.ops[a].window.id);
    AimedBy(s, a, InputApply(s, a, l), t, s.ops[a].window.id);
  }

  lemma FreshAimed(s: State, t: Id, window: string)
    requires TokensDrawn(s) && t !in s.used
    ensures AimedAt(s, t, window)
  {
    forall tid | tid in s.ops ensures MeansFor(s.ops[tid], t, window) {
      assert OpDrawn(s.ops[tid], s.used);
    }
  }

  lemma NewAimed(s: State, l: Label, s': State, t: Id)
    requires TokensDrawn(s) && Next(s, l, s') && t in s'.leases && t !in s.used
    ensures AimedAt(s', t, s'.leases[t].window)
  {
    match l
    case World(w) => WorldNoOldLease(s, w);
    case Start(a, st) => StartNoLease(s, a, st);
    case Acquire(a) =>
    case Bestow(a, g) => BestowNewAimed(s, a, g, t);
    case Clean(a, c) => CleanNoLease(s, a, c);
    case Type(a, i) => InputNewAimed(s, a, i, t);
  }

  lemma AimedStep(s: State, l: Label, s': State)
    requires Shapes(s) && TokensDrawn(s) && Aimed(s) && Next(s, l, s')
    ensures Aimed(s')
  {
    forall t | t in s'.leases ensures AimedAt(s', t, s'.leases[t].window) {
      if t !in s.used {
        NewAimed(s, l, s', t);
      } else {
        if t !in s.leases { LeaseGoneStep(s, l, s', t); }
        LeaseStep(s, l, s', t);
        OldAimed(s, l, s', t, s.leases[t].window);
      }
    }
  }

  lemma {:induction false} AimedRun(states: seq<State>, labels: seq<Label>, j: nat)
    requires FromStart(states, labels) && j < |states|
    ensures Aimed(states[j])
    decreases j
  {
    if j > 0 {
      AimedRun(states, labels, j - 1);
      assert Shapes(states[j - 1]) && TokensDrawn(states[j - 1]) by { RunKeepsInv(states, labels, 0, j - 1); }
      At(states, labels, j - 1);
      AimedStep(states[j - 1], labels[j - 1], states[j]);
    }
  }

  // ------------------------------------------------- where an input comes from

  predicate IsInput(s: State, a: Tid) { a in s.ops && s.ops[a].Input? }

  /** The same input: it was this client's, for this window. */
  predicate SameInput(op: Op, op': Op) {
    op.Input? && op'.Input? && op.client == op'.client && op.window == op'.window
  }

  predicate BeginsInput(l: Label, a: Tid, op: Op) {
    op.Input? && l == Start(a, BeginInput(op.client, op.window, op.lease)) && !op.own
  }

  /** The operation gets a lease of its own by an answered authorize call. */
  predicate LeasesOwn(l: Label, a: Tid, op: Op, op': Op) {
    && SameInput(op, op') && op.lease == None && !op.own
    && op'.own && op'.lease.Some? && l == Type(a, Lease(op'.lease.value, Answered))
  }

  predicate KeepsLease(op: Op, op': Op) {
    SameInput(op, op') && op.lease == op'.lease && op.own == op'.own
  }

  /** How an input came to be as it is. */
  ghost predicate ComesFrom(s: State, l: Label, a: Tid, op': Op) {
    || BeginsInput(l, a, op')
    || (IsInput(s, a) && (KeepsLease(s.ops[a], op') || LeasesOwn(l, a, s.ops[a], op')))
  }

  lemma StartInput(s: State, b: Tid, l: StartStep, a: Tid)
    requires StartEnabled(s, b, l) && IsInput(StartApply(s, b, l), a)
    ensures ComesFrom(s, Start(b, l), a, StartApply(s, b, l).ops[a])
  {
    if a != b { StartLeavesOthers(s, b, l, a); }
  }

  lemma TypeInput(s: State, b: Tid, l: InputStep, a: Tid)
    requires Shapes(s) && InputEnabled(s, b, l) && IsInput(InputApply(s, b, l), a)
    ensures ComesFrom(s, Type(b, l), a, InputApply(s, b, l).ops[a])
  {
    if a == b { assert Shaped(s.ops[a]); }
    match l
    case Enter =>
    case Abandon =>
    case Lease(_, _) =>
    case Check =>
    case Deliver =>
    case Answer =>
    case Finish =>
  }

  lemma BestowInput(s: State, b: Tid, l: GrantStep, a: Tid)
    requires GrantEnabled(s, b, l) && IsInput(GrantApply(s, b, l), a)
    ensures IsInput(s, a) && s.ops[a] == GrantApply(s, b, l).ops[a]
  {
  }

  lemma CleanInput(s: State, b: Tid, l: CleanStep, a: Tid)
    requires CleanEnabled(s, b, l) && IsInput(CleanApply(s, b, l), a)
    ensures IsInput(s, a) && s.ops[a] == CleanApply(s, b, l).ops[a]
  {
  }

  lemma StepInput(s: State, l: Label, s': State, a: Tid)
    requires Shapes(s) && Next(s, l, s') && IsInput(s', a)
    ensures ComesFrom(s, l, a, s'.ops[a])
  {
    match l
    case World(w) => WorldLeavesOps(s, w);
    case Start(b, st) => StartInput(s, b, st, a);
    case Acquire(b) =>
    case Bestow(b, g) => BestowInput(s, b, g, a);
    case Clean(b, c) => CleanInput(s, b, c, a);
    case Type(b, i) => TypeInput(s, b, i, a);
  }

  /** The command at `i` began this input, under the grant it still uses or without one. */
  ghost predicate BegunAt(s: State, l: Label, a: Tid, op: Op) {
    op.Input? && l == Start(a, BeginInput(op.client, op.window, if op.own then None else op.lease)) && Enabled(s, l)
  }

  ghost predicate LeasedAt(s: State, l: Label, a: Tid, op: Op) {
    op.Input? && op.lease.Some? && l == Type(a, Lease(op.lease.value, Answered)) && Enabled(s, l)
  }

  /** An input with a lease of its own got it at `y`, after it began. */
  lemma {:induction false} BegunEarlier(states: seq<State>, labels: seq<Label>, j: nat, a: Tid) returns (i: nat, y: nat)
    requires FromStart(states, labels) && j < |states| && IsInput(states[j], a)
    ensures i < j && BegunAt(states[i], labels[i], a, states[j].ops[a])
    ensures states[j].ops[a].own ==> i < y < j && LeasedAt(states[y], labels[y], a, states[j].ops[a])
    decreases j
  {
    var s, l, op := states[j - 1], labels[j - 1], states[j].ops[a];
    assert Shapes(s) by { RunKeepsInv(states, labels, 0, j - 1); }
    At(states, labels, j - 1);
    StepInput(s, l, states[j], a);
    y := j - 1;
    if BeginsInput(l, a, op) {
      i := j - 1;
    } else if LeasesOwn(l, a, s.ops[a], op) {
      var ignored;
      i, ignored := BegunEarlier(states, labels, j - 1, a);
    } else {
      i, y := BegunEarlier(states, labels, j - 1, a);
    }
  }

  // -------------------------------------------------------------- the check

  predicate IsSent(s: State, a: Tid) {
    IsInput(s, a) && s.ops[a].inputStage == InputSent(false)
  }

  ghost predicate ChecksNow(s: State, l: Label, a: Tid, op: Op) {
    op.Input? && l == Type(a, Check) && InputEnabled(s, a, Check) && KeepsLease(s.ops[a], op)
  }

  lemma TypeSent(s: State, b: Tid, l: InputStep, a: Tid)
    requires InputEnabled(s, b, l) && IsSent(InputApply(s, b, l), a)
    ensures (IsSent(s, a) && s.ops[a] == InputApply(s, b, l).ops[a]) || ChecksNow(s, Type(b, l), a, InputApply(s, b, l).ops[a])
  {
    match l
    case Enter =>
    case Abandon =>
    case Lease(_, _) =>
    case Check =>
    case Deliver =>
    case Answer =>
    case Finish =>
  }

  lemma StartSent(s: State, b: Tid, l: StartStep, a: Tid)
    requires StartEnabled(s, b, l) && IsSent(StartApply(s, b, l), a)
    ensures IsSent(s, a) && s.ops[a] == StartApply(s, b, l).ops[a]
  {
    if a != b { StartLeavesOthers(s, b, l, a); }
  }

  /** An input is past its check because it was, or because it passes it now. */
  lemma StepSent(s: State, l: Label, s': State, a: Tid)
    requires Next(s, l, s') && IsSent(s', a)
    ensures (IsSent(s, a) && s.ops[a] == s'.ops[a]) || ChecksNow(s, l, a, s'.ops[a])
  {
    match l
    case World(w) => WorldLeavesOps(s, w);
    case Start(b, st) => StartSent(s, b, st, a);
    case Acquire(b) =>
    case Bestow(b, g) => BestowInput(s, b, g, a);
    case Clean(b, c) => CleanInput(s, b, c, a);
    case Type(b, i) => TypeSent(s, b, i, a);
  }

  lemma {:induction false} CheckedEarlier(states: seq<State>, labels: seq<Label>, j: nat, a: Tid) returns (c: nat)
    requires FromStart(states, labels) && j < |states| && IsSent(states[j], a)
    ensures c < j && ChecksNow(states[c], labels[c], a, states[j].ops[a])
    ensures forall x :: c < x <= j ==> IsSent(states[x], a) && states[x].ops[a] == states[j].ops[a]
    decreases j
  {
    assert j > 0;
    At(states, labels, j - 1);
    StepSent(states[j - 1], labels[j - 1], states[j], a);
    if IsSent(states[j - 1], a) && states[j - 1].ops[a] == states[j].ops[a] {
      c := CheckedEarlier(states, labels, j - 1, a);
    } else {
      c := j - 1;
    }
  }

  // ------------------------------------------------------------ the theorems

  /** Input reaches only the window it was meant for: when it is delivered, the lease it
      goes under is for that window and has not run out. */
  lemma DeliveredWhereMeant(states: seq<State>, labels: seq<Label>, j: nat, a: Tid) returns (t: Id)
    requires FromStart(states, labels) && j < |labels| && labels[j] == Type(a, Deliver)
    ensures IsSent(states[j], a) && states[j].ops[a].lease == Some(t) && t in states[j].leases
    ensures states[j].leases[t].window == states[j].ops[a].window.id && states[j].now < states[j].leases[t].until
  {
    At(states, labels, j);
    AimedRun(states, labels, j);
    t := states[j].ops[a].lease.value;
    assert MeansFor(states[j].ops[a], t, states[j].leases[t].window);
  }

  /** The operation authorized the lease between `k` and `m`, and the guard said yes. */
  ghost predicate AuthorizedBetween(labels: seq<Label>, tid: Tid, t: Id, k: nat, m: nat) {
    exists x, current :: k < x < m < |labels| && labels[x] == Bestow(tid, Authorize(t, current, Answered))
  }

  /** The grant was approved by the local user for this client, to control this window; the
      same operation authorized its lease and then committed it. */
  ghost predicate ControlApproved(states: seq<State>, labels: seq<Label>, g: Grant, client: Id, window: Window,
                                  tid: Tid, origin: Origin, k: nat, m: nat)
    requires |states| == |labels| + 1
  {
    && g.client == client && g.capability == Control && g.scope == InputScope(window)
    && TracedTo(states, labels, g, tid, origin, k, m) && AuthorizedBetween(labels, tid, g.id, k, m)
  }

  /** A control grant's lease was authorized after its approval and before its commit. */
  lemma GrantAuthorized(states: seq<State>, labels: seq<Label>, i: nat, t: Id) returns (tid: Tid, origin: Origin, k: nat, m: nat)
    requires FromStart(states, labels) && i < |states| && ControlGrant(states[i], t)
    ensures m < i && TracedTo(states, labels, states[i].broker.grants[t], tid, origin, k, m)
    ensures states[i].broker.grants[t].id == t && AuthorizedBetween(labels, tid, t, k, m)
  {
    tid, origin, k, m := GrantTraced(states, labels, i, t);
    var tid', x, m', seconds := GrantHasLease(states, labels, i, t);
    assert m' == m && tid' == tid;
    At(states, labels, k);
    assert k < x;
    assert labels[x] == Bestow(tid, Authorize(t, labels[x].grant.current, Answered));
  }

  /** An input begins in yolo mode without a grant, or in approve mode under one for control
      of its window by its client. */
  lemma BegunUnder(s: State, l: Label, a: Tid, op: Op)
    requires BegunAt(s, l, a, op) && op.lease.Some?
    ensures op.own ==> s.broker.mode == Yolo
    ensures !op.own ==>
      && s.broker.mode == Approve && ControlGrant(s, op.lease.value)
      && Covers(s.broker, s.now, op.lease.value, op.client, Control, InputScope(op.window), Some(op.window))
      && var g := s.broker.grants[op.lease.value];
         g.client == op.client && g.scope == InputScope(op.window)
  {
  }

  ghost predicate Controls(s: State, id: Id, client: Id, window: string) {
    && id in s.broker.grants && s.now < s.broker.grants[id].expires && s.broker.grants[id].client == client
    && s.broker.grants[id].capability == Control && s.broker.grants[id].scope == Scope(WindowKind, window)
  }

  /** Authority is open, and in approve mode the client has an unexpired grant to control
      this very window. */
  ghost predicate MayControl(s: State, client: Id, window: string) {
    && !s.broker.paused && s.broker.consoles > 0 && s.broker.unconfirmed == {}
    && (s.broker.mode == Approve ==> exists id :: Controls(s, id, client, window))
  }

  lemma CheckAllowed(s: State, l: Label, a: Tid, op: Op)
    requires ChecksNow(s, l, a, op)
    ensures a in s.ops && KeepsLease(s.ops[a], op)
    ensures Allowed(s.broker, s.now, op.client, Control, InputScope(op.window), Some(op.window))
    ensures MayControl(s, op.client, op.window.id)
  {
    if s.broker.mode == Approve {
      var id :| Covers(s.broker, s.now, id, op.client, Control, InputScope(op.window), Some(op.window));
      assert Controls(s, id, op.client, op.window.id);
    }
  }

  /** Every delivery goes back to the command that began the input for this client and
      window, through a check at `c` that the client was allowed this control. Its lease is
      one the operation got for itself in yolo mode, at `y`; or that of a grant, approved as
      said, which covered the input when it began in approve mode. */
  lemma DeliveryTraced(states: seq<State>, labels: seq<Label>, j: nat, a: Tid)
    returns (i: nat, c: nat, y: nat, tid: Tid, origin: Origin, k: nat, m: nat)
    requires FromStart(states, labels) && j < |labels| && labels[j] == Type(a, Deliver)
    ensures IsSent(states[j], a) && i < c < j && BegunAt(states[i], labels[i], a, states[j].ops[a])
    ensures ChecksNow(states[c], labels[c], a, states[j].ops[a])
    ensures MayControl(states[c], states[j].ops[a].client, states[j].ops[a].window.id)
    ensures states[j].ops[a].own ==>
      states[i].broker.mode == Yolo && i < y < c && LeasedAt(states[y], labels[y], a, states[j].ops[a])
    ensures !states[j].ops[a].own ==>
      var op, b := states[j].ops[a], states[i].broker;
      && b.mode == Approve && op.lease.Some? && m < i
      && op.lease.value in b.grants && states[i].now < b.grants[op.lease.value].expires
      && b.grants[op.lease.value].id == op.lease.value
      && ControlApproved(states, labels, b.grants[op.lease.value], op.client, op.window, tid, origin, k, m)
  {
    var t := DeliveredWhereMeant(states, labels, j, a);
    c := CheckedEarlier(states, labels, j, a);
    CheckAllowed(states[c], labels[c], a, states[j].ops[a]);
    i, y := BegunEarlier(states, labels, c, a);
    tid, origin, k, m := 0, FromRequest(0), 0, 0;
    var op := states[j].ops[a];
    BegunUnder(states[i], labels[i], a, op);
    if !op.own {
      tid, origin, k, m := GrantAuthorized(states, labels, i, op.lease.value);
    }
  }

  /** The lease was authorized at y for a grant that was committed before j, for the
      approved number of seconds. */
  ghost predicate ApprovedFor(states: seq<State>, labels: seq<Label>, y: nat, j: nat, t: nat, seconds: int) {
    && y < j <= |labels| && j < |states| && labels[y].Bestow? && labels[y].grant.Authorize? && labels[y].grant.newId == t
    && exists m :: y < m < j && Committed(states[m], labels[m], labels[y].tid, seconds)
  }

  ghost predicate Committed(s: State, l: Label, tid: Tid, seconds: int) {
    l == Bestow(tid, Commit) && tid in s.ops && s.ops[tid].Granting? && s.ops[tid].proposal.seconds == seconds
  }

  lemma NewOwnLease(s: State, l: Label, s': State, a: Tid, op: Op)
    requires Next(s, l, s') && LeasedAt(s, l, a, op)
    ensures op.lease.value in s'.leases && op.lease.value in s'.used
    ensures s'.leases[op.lease.value].until == s.now + 300 * SECOND
  {
  }

  /** In yolo mode nothing is delivered more than five minutes after the operation got its
      lease, nor in approve mode once the approved duration has passed since the lease was
      authorized. */
  lemma DeliveredInTime(states: seq<State>, labels: seq<Label>, j: nat, a: Tid) returns (y: nat, seconds: int)
    requires FromStart(states, labels) && j < |labels| && labels[j] == Type(a, Deliver)
    ensures y < j && IsSent(states[j], a) && states[j].ops[a].lease.Some? && states[j].now < states[y].now + seconds * SECOND
    ensures states[j].ops[a].own ==> LeasedAt(states[y], labels[y], a, states[j].ops[a]) && seconds == 300
    ensures !states[j].ops[a].own ==> ApprovedFor(states, labels, y, j, states[j].ops[a].lease.value, seconds)
  {
    var t := DeliveredWhereMeant(states, labels, j, a);
    var i;
    i, y := BegunEarlier(states, labels, j, a);
    if states[j].ops[a].own {
      seconds := 300;
      At(states, labels, y);
      NewOwnLease(states[y], labels[y], states[y + 1], a, states[j].ops[a]);
      LeaseRun(states, labels, y + 1, j, t);
    } else {
      BegunUnder(states[i], labels[i], a, states[j].ops[a]);
      var tid, m;
      tid, y, m, seconds := GrantHasLease(states, labels, i, t);
      assert Committed(states[m], labels[m], tid, seconds);
      assert t in states[i].used by { RunKeepsInv(states, labels, 0, i); }
      if t !in states[i].leases { LeaseGoneForever(states, labels, i, j, t); }
      LeaseRun(states, labels, i, j, t);
    }
  }
}

/** Every grant traced through the run to the command that approved it. */
module ProtocolProvenance {
  import opened Common
  import opened BrokerModel
  import opened Protocol
  import opened ProtocolSafety
  import opened ProtocolHistory
  import opened ProtocolRuns

  ghost predicate FromStart(states: seq<State>, labels: seq<Label>) {
    IsRun(states, labels) && states[0] == START
  }

  /** The step starts a decision or a selection, and what it approves is exactly this: for a
      request its own client, capability and scope, for a picker its capability on the chosen
      window, each for the stated time from now. */
  ghost predicate Approves(s: State, l: Label, tid: Tid, origin: Origin, client: Id, cap: Capability, scope: Scope, expires: Time) {
    && l.Start? && l.tid == tid
    && match l.start
       case Decide(r, seconds) =>
         && origin == FromRequest(r) && IsPending(s.broker, r)
         && client == s.broker.requests[r].client && cap == s.broker.requests[r].capability
         && scope == s.broker.requests[r].scope && expires == s.now + seconds * SECOND
       case Select(k, recipient, w) =>
         && origin == FromPicker(k) && PickerIs(s.broker, k) && w in s.broker.picker.value.windows
         && client == recipient && recipient in s.broker.clients && cap == s.broker.picker.value.capability
         && scope == Scope(WindowKind, w.id) && expires == s.now + s.broker.picker.value.seconds * SECOND
       case _ => false
  }

  ghost predicate Proposes(s: State, l: Label, tid: Tid, p: Proposal) {
    && Approves(s, l, tid, p.origin, p.client, p.capability, p.scope, p.expires)
    && p.authority == s.broker.authority
    && (l.start.Select? ==> p.window == Some(l.start.window))
  }

  /** The step commits this grant. */
  ghost predicate Grants(s: State, l: Label, g: Grant) {
    && l.Bestow? && l.grant.Commit? && GrantEnabled(s, l.tid, Commit)
    && Stands(s, s.ops[l.tid].proposal) && s.ops[l.tid].grantStage.grant == g
  }

  // ---------------------------------------------------------------- one step

  lemma StartGranting(s: State, a: Tid, l: StartStep, tid: Tid)
    requires StartEnabled(s, a, l) && tid in StartApply(s, a, l).ops && StartApply(s, a, l).ops[tid].Granting?
    ensures (tid in s.ops && StartApply(s, a, l).ops[tid] == s.ops[tid])
      || Proposes(s, Start(a, l), tid, StartApply(s, a, l).ops[tid].proposal)
  {
    if tid != a {
      StartLeavesOthers(s, a, l, tid);
    } else if l.Decide? || l.Select? {
      assert Proposes(s, Start(a, l), tid, StartApply(s, a, l).ops[tid].proposal);
    }
  }

  lemma BestowGranting(s: State, a: Tid, l: GrantStep, tid: Tid)
    requires GrantEnabled(s, a, l) && tid in GrantApply(s, a, l).ops && GrantApply(s, a, l).ops[tid].Granting?
    ensures tid in s.ops && s.ops[tid].Granting? && s.ops[tid].proposal == GrantApply(s, a, l).ops[tid].proposal
  {
  }

  lemma CleanGranting(s: State, a: Tid, l: CleanStep, tid: Tid)
    requires CleanEnabled(s, a, l) && tid in CleanApply(s, a, l).ops && CleanApply(s, a, l).ops[tid].Granting?
    ensures tid in s.ops && s.ops[tid] == CleanApply(s, a, l).ops[tid]
  {
  }

  lemma InputGranting(s: State, a: Tid, l: InputStep, tid: Tid)
    requires InputEnabled(s, a, l) && tid in InputApply(s, a, l).ops && InputApply(s, a, l).ops[tid].Granting?
    ensures tid in s.ops && s.ops[tid] == InputApply(s, a, l).ops[tid]
  {
  }

  /** A proposal was there before, or is made by this step. */
  lemma StepGranting(s: State, l: Label, s': State, tid: Tid)
    requires Next(s, l, s') && tid in s'.ops && s'.ops[tid].Granting?
    ensures (tid in s.ops && s.ops[tid].Granting? && s.ops[tid].proposal == s'.ops[tid].proposal)
      || Proposes(s, l, tid, s'.ops[tid].proposal)
  {
    match l
    case World(w) =>
    case Start(a, st) => StartGranting(s, a, st, tid);
    case Acquire(a) =>
    case Bestow(a, g) => BestowGranting(s, a, g, tid);
    case Clean(a, c) => CleanGranting(s, a, c, tid);
    case Type(a, i) => InputGranting(s, a, i, tid);
  }

  lemma BestowGrant(s: State, a: Tid, l: GrantStep, id: Id)
    requires GrantEnabled(s, a, l) && id in GrantApply(s, a, l).broker.grants
    ensures (id in s.broker.grants && GrantApply(s, a, l).broker.grants[id] == s.broker.grants[id])
      || (Grants(s, Bestow(a, l), GrantApply(s, a, l).broker.grants[id]) && GrantApply(s, a, l).broker.grants[id].id == id)
  {
  }

  lemma WorldGrants(s: State, l: WorldStep)
    requires WorldEnabled(s, l)
    ensures WorldApply(s, l).broker.grants == s.broker.grants
  {
  }

  lemma InputGrants(s: State, a: Tid, l: InputStep)
    requires InputEnabled(s, a, l)
    ensures InputApply(s, a, l).broker == s.broker
  {
  }

  /** A grant was there before, or is committed by this step. */
  lemma StepGrant(s: State, l: Label, s': State, id: Id)
    requires Next(s, l, s') && id in s'.broker.grants
    ensures (id in s.broker.grants && s'.broker.grants[id] == s.broker.grants[id])
      || (Grants(s, l, s'.broker.grants[id]) && s'.broker.grants[id].id == id)
  {
    match l
    case World(w) => WorldGrants(s, w);
    case Start(a, st) => StartGrants(s, a, st);
    case Acquire(a) =>
    case Bestow(a, g) => BestowGrant(s, a, g, id);
    case Clean(a, c) => CleanOnlyCleans(s, a, c);
    case Type(a, i) => InputGrants(s, a, i);
  }

  // -------------------------------------------------------------- along runs

  lemma At(states: seq<State>, labels: seq<Label>, i: nat)
    requires IsRun(states, labels) && i < |labels|
    ensures Next(states[i], labels[i], states[i + 1])
  {
    assert StepAt(states, labels, i);
  }

  /** Every operation that grants was started by the command its proposal says. */
  lemma {:induction false} StartedEarlier(states: seq<State>, labels: seq<Label>, j: nat, tid: Tid) returns (k: nat)
    requires FromStart(states, labels) && j < |states| && tid in states[j].ops && states[j].ops[tid].Granting?
    ensures k < j && Proposes(states[k], labels[k], tid, states[j].ops[tid].proposal)
    decreases j
  {
    assert j > 0;
    At(states, labels, j - 1);
    StepGranting(states[j - 1], labels[j - 1], states[j], tid);
    if Proposes(states[j - 1], labels[j - 1], tid, states[j].ops[tid].proposal) {
      k := j - 1;
    } else {
      k := StartedEarlier(states, labels, j - 1, tid);
    }
  }

  /** Every grant was committed by a step, and was there ever since. */
  lemma {:induction false} CommittedEarlier(states: seq<State>, labels: seq<Label>, j: nat, id: Id) returns (m: nat)
    requires FromStart(states, labels) && j < |states| && id in states[j].broker.grants
    ensures m < j && Grants(states[m], labels[m], states[j].broker.grants[id]) && states[j].broker.grants[id].id == id
    ensures forall x :: m < x <= j ==> id in states[x].broker.grants && states[x].broker.grants[id] == states[j].broker.grants[id]
    decreases j
  {
    assert j > 0;
    At(states, labels, j - 1);
    StepGrant(states[j - 1], labels[j - 1], states[j], id);
    if id in states[j - 1].broker.grants && states[j].broker.grants[id] == states[j - 1].broker.grants[id] {
      m := CommittedEarlier(states, labels, j - 1, id);
    } else {
      m := j - 1;
    }
  }

  // ------------------------------------------------------------- disturbance

  /** The step withdraws or restores authority: it moves the broker's counter. */
  ghost predicate Moves(s: State, l: Label) {
    match l
    case World(w) => w.Resume?
    case Start(_, st) =>
      (match st
       case Disconnect(c, _) => GrantsOf(s.broker, c) != {} || PickerFor(s.broker, c)
       case ConsoleDetach => s.broker.consoles == 1
       case Pause => true
       case SwitchMode(_) => true
       case RevokeAll => true
       case Revoke(_) => true
       case Maintain => ExpiredGrants(s.broker, s.now) != {} || PickerExpired(s.broker, s.now)
       case _ => false)
    case _ => false
  }

  /** The step concerns a grant about to be committed for the client: anything is revoked,
      cleared, paused, resumed, switched or expired, or the client disconnects. */
  ghost predicate Disturbs(s: State, l: Label, client: Id) {
    Moves(s, l) || (l.Start? && l.start.Disconnect? && l.start.client == client)
  }

  lemma StartMoves(s: State, a: Tid, l: StartStep)
    requires StartEnabled(s, a, l)
    ensures StartApply(s, a, l).broker.authority >= s.broker.authority
    ensures Moves(s, Start(a, l)) ==> StartApply(s, a, l).broker.authority > s.broker.authority
  {
    match l
    case Disconnect(c, _) =>
      if GrantsOf(s.broker, c) != {} { assert |GrantsOf(s.broker, c)| > 0; }
    case Maintain =>
      if ExpiredGrants(s.broker, s.now) != {} { assert |ExpiredGrants(s.broker, s.now)| > 0; }
    case ConsoleDetach =>
    case Pause =>
    case SwitchMode(_) =>
    case RevokeAll =>
    case Revoke(_) =>
    case Decide(_, _) =>
    case Select(_, _, _) =>
    case BeginInput(_, _, _) =>
  }

  lemma BestowMoves(s: State, a: Tid, l: GrantStep)
    requires GrantEnabled(s, a, l)
    ensures GrantApply(s, a, l).broker.authority == s.broker.authority
  {
  }

  lemma WorldMoves(s: State, l: WorldStep)
    requires WorldEnabled(s, l)
    ensures WorldApply(s, l).broker.authority == s.broker.authority + (if l.Resume? then 1 else 0)
  {
  }

  lemma StepMoves(s: State, l: Label, s': State)
    requires Next(s, l, s')
    ensures s'.broker.authority >= s.broker.authority
    ensures Moves(s, l) ==> s'.broker.authority > s.broker.authority
  {
    match l
    case World(w) => WorldMoves(s, w);
    case Start(a, st) => StartMoves(s, a, st);
    case Acquire(a) =>
    case Bestow(a, g) => BestowMoves(s, a, g);
    case Clean(a, c) => CleanOnlyCleans(s, a, c);
    case Type(a, i) => InputGrants(s, a, i);
  }

  /** Equal counters mean that nothing in between moved the counter. */
  lemma {:induction false} SameAuthority(states: seq<State>, labels: seq<Label>, k: nat, m: nat)
    requires IsRun(states, labels) && k <= m < |states|
    ensures states[k].broker.authority <= states[m].broker.authority
    ensures states[k].broker.authority == states[m].broker.authority ==> forall x :: k <= x < m ==> !Moves(states[x], labels[x])
    decreases m
  {
    if k < m {
      SameAuthority(states, labels, k, m - 1);
      At(states, labels, m - 1);
      StepMoves(states[m - 1], labels[m - 1], states[m]);
    }
  }

  predicate SameAskAs(r: Request, r': Request) {
    r'.client == r.client && r'.capability == r.capability && r'.scope == r.scope
  }

  lemma {:induction false} NamesRun(states: seq<State>, labels: seq<Label>, i: nat, j: nat)
    requires FromStart(states, labels) && i <= j < |states|
    ensures BrokerNames(states[i].broker, states[i].used) && states[i].used <= states[j].used
    ensures forall c :: c in states[i].used && c !in states[i].broker.clients ==> c !in states[j].broker.clients
    ensures forall r :: r in states[i].used && r in states[j].broker.requests ==>
      r in states[i].broker.requests && SameAskAs(states[i].broker.requests[r], states[j].broker.requests[r])
    decreases j
  {
    NamesAt(states, labels, i);
    if i < j {
      NamesRun(states, labels, i, j - 1);
      NamesAt(states, labels, j - 1);
      At(states, labels, j - 1);
      NamesStep(states[j - 1], labels[j - 1], states[j]);
    }
  }

  lemma NamesAt(states: seq<State>, labels: seq<Label>, i: nat)
    requires FromStart(states, labels) && i < |states|
    ensures BrokerNames(states[i].broker, states[i].used)
  {
    RunKeepsInv(states, labels, 0, i);
  }

  /** After its disconnect a client is gone and none of its requests is pending. */
  lemma DisconnectGone(s: State, a: Tid, l: StartStep)
    requires StartEnabled(s, a, l) && l.Disconnect?
    ensures var b := StartApply(s, a, l).broker;
      l.client !in b.clients && forall r :: IsPending(b, r) ==> b.requests[r].client != l.client
  {
  }

  /** What stands at the commit rules out that the client disconnected since. */
  lemma StillConnected(states: seq<State>, labels: seq<Label>, k: nat, x: nat, m: nat, tid: Tid, p: Proposal)
    requires FromStart(states, labels) && k <= x < m < |states|
    requires Proposes(states[k], labels[k], tid, p) && Stands(states[m], p)
    ensures !(labels[x].Start? && labels[x].start.Disconnect? && labels[x].start.client == p.client)
  {
    if labels[x].Start? && labels[x].start.Disconnect? && labels[x].start.client == p.client {
      At(states, labels, x);
      DisconnectGone(states[x], labels[x].tid, labels[x].start);
      NamesRun(states, labels, k, x + 1);
      NamesRun(states, labels, x + 1, m);
      match p.origin
      case FromRequest(r) => RequestsSettleOnce(states, labels, x + 1, m, r);
      case FromPicker(_) =>
    }
  }

  // ------------------------------------------------------------ the theorems

  /** The grant is what the command at `k` approved, and the operation it started committed
      it at `m` with nothing in between that concerns it. */
  ghost predicate TracedTo(states: seq<State>, labels: seq<Label>, g: Grant, tid: Tid, origin: Origin, k: nat, m: nat)
    requires |states| == |labels| + 1
  {
    && k < m < |labels|
    && Approves(states[k], labels[k], tid, origin, g.client, g.capability, g.scope, g.expires)
    && labels[m] == Bestow(tid, Commit) && Grants(states[m], labels[m], g)
    && forall x :: k <= x < m ==> !Disturbs(states[x], labels[x], g.client)
  }

  lemma CommitTraced(states: seq<State>, labels: seq<Label>, m: nat, g: Grant) returns (tid: Tid, origin: Origin, k: nat)
    requires FromStart(states, labels) && m < |labels| && Grants(states[m], labels[m], g)
    ensures TracedTo(states, labels, g, tid, origin, k, m)
  {
    tid := labels[m].tid;
    var p := states[m].ops[tid].proposal;
    origin := p.origin;
    k := StartedEarlier(states, labels, m, tid);
    assert g == ProposedGrant(p, g.id) by {
      RunKeepsInv(states, labels, 0, m);
      assert Shaped(states[m].ops[tid]);
    }
    assert states[m].broker.authority == p.authority;
    SameAuthority(states, labels, k, m);
    forall x | k <= x < m ensures !Disturbs(states[x], labels[x], g.client) {
      StillConnected(states, labels, k, x, m, tid, p);
    }
  }

  lemma {:induction false} LogGrows(states: seq<State>, labels: seq<Label>, i: nat, j: nat)
    requires FromStart(states, labels) && i <= j < |states|
    ensures states[i].log <= states[j].log
    decreases j
  {
    if i < j {
      LogGrows(states, labels, i, j - 1);
      LogGrowsAt(states, labels, j - 1);
    }
  }

  lemma LogGrowsAt(states: seq<State>, labels: seq<Label>, i: nat)
    requires FromStart(states, labels) && i < |labels|
    ensures states[i].log <= states[i + 1].log
  {
    At(states, labels, i);
    NamesAt(states, labels, i);
    LedgerStep(states[i], labels[i], states[i + 1]);
  }

  lemma LedgerStep(s: State, l: Label, s': State)
    requires BrokerNames(s.broker, s.used) && Next(s, l, s')
    ensures s.log <= s'.log
    ensures forall g :: Grants(s, l, g) ==> |s'.log| == |s.log| + 1 && s'.log[|s.log|].Committed? && s'.log[|s.log|].grant == g
  {
    match l
    case World(w) => WorldNames(s, w);
    case Start(a, st) => StartLedger(s, a, st);
    case Acquire(a) =>
    case Bestow(a, g) => BestowNames(s, a, g);
    case Clean(a, c) => CleanOnlyCleans(s, a, c);
    case Type(a, i) => InputNames(s, a, i);
  }

  /** No identifier is committed twice in a run. */
  lemma CommittedOnce(states: seq<State>, labels: seq<Label>, i: nat, j: nat, g: Grant, h: Grant)
    requires FromStart(states, labels) && i < j < |labels|
    requires Grants(states[i], labels[i], g) && Grants(states[j], labels[j], h)
    ensures g.id != h.id
  {
    LoggedAt(states, labels, i, g);
    LoggedAt(states, labels, j, h);
    LogGrows(states, labels, i + 1, j);
    assert CommitsSound(states[j + 1]) by { RunKeepsInv(states, labels, 0, j + 1); }
    assert states[j + 1].log[|states[i].log|] == states[i + 1].log[|states[i].log|];
  }

  lemma LoggedAt(states: seq<State>, labels: seq<Label>, i: nat, g: Grant)
    requires FromStart(states, labels) && i < |labels| && Grants(states[i], labels[i], g)
    ensures var n := |states[i].log|;
      states[i].log <= states[i + 1].log && |states[i + 1].log| == n + 1
      && states[i + 1].log[n].Committed? && states[i + 1].log[n].grant == g
  {
    At(states, labels, i);
    NamesAt(states, labels, i);
    LedgerStep(states[i], labels[i], states[i + 1]);
  }

  /** Every grant present is what one decision or selection approved: its client, its
      capability, its scope and its time. That command's own operation committed it, once,
      and in between nothing was revoked, cleared, paused, resumed, switched, expired, and
      the client did not disconnect. */
  lemma GrantTraced(states: seq<State>, labels: seq<Label>, j: nat, id: Id) returns (tid: Tid, origin: Origin, k: nat, m: nat)
    requires FromStart(states, labels) && j < |states| && id in states[j].broker.grants
    ensures m < j && TracedTo(states, labels, states[j].broker.grants[id], tid, origin, k, m)
    ensures states[j].broker.grants[id].id == id
    ensures forall x, g :: 0 <= x < |labels| && x != m && Grants(states[x], labels[x], g) ==> g.id != id
  {
    m := CommittedEarlier(states, labels, j, id);
    tid, origin, k := CommitTraced(states, labels, m, states[j].broker.grants[id]);
    forall x, g | 0 <= x < |labels| && x != m && Grants(states[x], labels[x], g) ensures g.id != id {
      if x < m {
        CommittedOnce(states, labels, x, m, g, states[j].broker.grants[id]);
      } else {
        CommittedOnce(states, labels, m, x, states[j].broker.grants[id], g);
      }
    }
  }

  // ---------------------------------------------------------------- authority

  /** What may be asked for at all: workspaces to observe, windows, applications to launch. */
  predicate Askable(r: Request) {
    && (r.scope.kind == WorkspaceKind ==> r.capability == Observe)
    && (r.scope.kind == ApplicationKind <==> r.capability == Launch)
  }

  ghost predicate AsksValid(s: State) {
    forall r :: r in s.broker.requests ==> Askable(s.broker.requests[r])
  }

  lemma WorldAsks(s: State, l: WorldStep)
    requires AsksValid(s) && WorldEnabled(s, l)
    ensures AsksValid(WorldApply(s, l))
  {
  }

  lemma StartAsks(s: State, a: Tid, l: StartStep)
    requires AsksValid(s) && StartEnabled(s, a, l)
    ensures AsksValid(StartApply(s, a, l))
  {
  }

  lemma BestowAsks(s: State, a: Tid, l: GrantStep)
    requires AsksValid(s) && GrantEnabled(s, a, l)
    ensures AsksValid(GrantApply(s, a, l))
  {
  }

  lemma AsksStep(s: State, l: Label, s': State)
    requires AsksValid(s) && Next(s, l, s')
    ensures AsksValid(s')
  {
    match l
    case World(w) => WorldAsks(s, w);
    case Start(a, st) => StartAsks(s, a, st);
    case Acquire(a) =>
    case Bestow(a, g) => BestowAsks(s, a, g);
    case Clean(a, c) => CleanOnlyCleans(s, a, c);
    case Type(a, i) => InputGrants(s, a, i);
  }

  lemma {:induction false} AsksRun(states: seq<State>, labels: seq<Label>, j: nat)
    requires FromStart(states, labels) && j < |states|
    ensures AsksValid(states[j])
    decreases j
  {
    if j > 0 {
      AsksRun(states, labels, j - 1);
      At(states, labels, j - 1);
      AsksStep(states[j - 1], labels[j - 1], states[j]);
    }
  }

  /** A workspace is only ever granted to observe. */
  lemma WorkspaceObserves(states: seq<State>, labels: seq<Label>, g: Grant, tid: Tid, origin: Origin, k: nat, m: nat)
    requires FromStart(states, labels) && TracedTo(states, labels, g, tid, origin, k, m)
    ensures g.scope.kind == WorkspaceKind ==> g.capability == Observe
  {
    AsksRun(states, labels, k);
  }

  /** In approve mode a client is allowed something only while the console is there, nothing
      is paused and every revocation is confirmed, and only by an unexpired grant that the
      local user approved for this client. To control, to record and to launch takes an
      approval of exactly that on exactly that scope; to observe takes one of observing,
      controlling or recording that scope, or of observing the window's workspace. */
  lemma ApprovedAuthority(states: seq<State>, labels: seq<Label>, j: nat, client: Id, cap: Capability, scope: Scope, w: Option<Window>)
    returns (g: Grant, tid: Tid, origin: Origin, k: nat, m: nat)
    requires FromStart(states, labels) && j < |states|
    requires states[j].broker.mode == Approve && Allowed(states[j].broker, states[j].now, client, cap, scope, w)
    ensures !states[j].broker.paused && states[j].broker.consoles > 0 && states[j].broker.unconfirmed == {}
    ensures g.id in states[j].broker.grants && states[j].broker.grants[g.id] == g
    ensures m < j && TracedTo(states, labels, g, tid, origin, k, m) && g.client == client && states[j].now < g.expires
    ensures cap != Observe ==> g.capability == cap && g.scope == scope
    ensures cap == Observe ==>
      || (g.scope == scope && g.capability in {Observe, Control, Record})
      || (g.capability == Observe && scope.kind == WindowKind && w.Some? && g.scope == Scope(WorkspaceKind, w.value.workspace))
  {
    var id :| Covers(states[j].broker, states[j].now, id, client, cap, scope, w);
    g := states[j].broker.grants[id];
    tid, origin, k, m := GrantTraced(states, labels, j, id);
    WorkspaceObserves(states, labels, g, tid, origin, k, m);
  }

  /** And such an approval is enough, as long as its grant is there and has not expired. */
  lemma ApprovalSuffices(b: BrokerState, now: Time, id: Id, client: Id, cap: Capability, scope: Scope, w: Option<Window>)
    requires !b.paused && b.consoles > 0 && b.unconfirmed == {}
    requires id in b.grants && b.grants[id].client == client && now < b.grants[id].expires
    requires cap != Observe ==> b.grants[id].capability == cap && b.grants[id].scope == scope
    requires cap == Observe ==>
      || (b.grants[id].scope == scope && b.grants[id].capability in {Observe, Control, Record})
      || (b.grants[id].capability == Observe && scope.kind == WindowKind && w.Some?
          && b.grants[id].scope == Scope(WorkspaceKind, w.value.workspace))
    ensures Allowed(b, now, client, cap, scope, w)
  {
    assert Covers(b, now, id, client, cap, scope, w);
  }

  /** A shared window is still the one that was picked when its grant commits: the same
      window with the same geometry, shown, and not an X11 one. */
  lemma SharedAsSeen(states: seq<State>, labels: seq<Label>, m: nat, g: Grant) returns (k: nat, picked: Window, current: Window)
    requires FromStart(states, labels) && m < |labels| && Grants(states[m], labels[m], g)
    requires states[m].ops[labels[m].tid].proposal.origin.FromPicker?
    ensures k < m && labels[k].Start? && labels[k].tid == labels[m].tid && labels[k].start.Select?
    ensures labels[k].start.window == picked && labels[k].start.client == g.client && g.scope == Scope(WindowKind, picked.id)
    ensures states[m].ops[labels[m].tid].grantStage.current == Some(current)
    ensures current.id == picked.id && current.revision == picked.revision
    ensures current.visible && !current.hidden && !current.xwayland
  {
    var op := states[m].ops[labels[m].tid];
    assert Shaped(op) by { RunKeepsInv(states, labels, 0, m); }
    k := StartedEarlier(states, labels, m, labels[m].tid);
    picked, current := labels[k].start.window, op.grantStage.current.value;
  }

  // ---------------------------------------------------------------- answers

  /** The commit answers this request: it was the one decided, or the new grant covers it on
      the shared window. */
  ghost predicate AnswersTo(s: State, l: Label, g: Grant, r: Id) {
    && Grants(s, l, g) && r in s.broker.requests
    && (s.ops[l.tid].proposal.origin == FromRequest(r)
        || (s.ops[l.tid].proposal.origin.FromPicker?
            && GrantMatches(g, s.broker.requests[r].client, s.broker.requests[r].capability, s.broker.requests[r].scope,
                            s.ops[l.tid].grantStage.current)))
  }

  ghost predicate IsGranted(b: BrokerState, r: Id) {
    r in b.requests && b.requests[r].state == Granted
  }

  lemma BestowAnswers(s: State, a: Tid, l: GrantStep, r: Id)
    requires GrantEnabled(s, a, l) && IsGranted(GrantApply(s, a, l).broker, r)
    ensures IsGranted(s.broker, r) || (l.Commit? && AnswersTo(s, Bestow(a, l), s.ops[a].grantStage.grant, r))
  {
  }

  lemma StartAnswers(s: State, a: Tid, l: StartStep, r: Id)
    requires StartEnabled(s, a, l) && IsGranted(StartApply(s, a, l).broker, r)
    ensures IsGranted(s.broker, r)
  {
  }

  lemma WorldAnswers(s: State, l: WorldStep, r: Id)
    requires WorldEnabled(s, l) && IsGranted(WorldApply(s, l).broker, r)
    ensures IsGranted(s.broker, r)
  {
  }

  lemma StepAnswers(s: State, l: Label, s': State, r: Id)
    requires Next(s, l, s') && IsGranted(s'.broker, r)
    ensures IsGranted(s.broker, r) || (l.Bestow? && l.tid in s.ops && s.ops[l.tid].Granting? && s.ops[l.tid].grantStage.Authorized?
                                       && AnswersTo(s, l, s.ops[l.tid].grantStage.grant, r))
  {
    match l
    case World(w) => WorldAnswers(s, w, r);
    case Start(a, st) => StartAnswers(s, a, st, r);
    case Acquire(a) =>
    case Bestow(a, g) => BestowAnswers(s, a, g, r);
    case Clean(a, c) => CleanOnlyCleans(s, a, c);
    case Type(a, i) => InputGrants(s, a, i);
  }

  /** A request is marked granted only by the commit of a traced grant to its client on its
      scope: of what it asked for, or of control or recording where it asked to observe. */
  lemma {:induction false} GrantedIsCovered(states: seq<State>, labels: seq<Label>, j: nat, r: Id)
    returns (g: Grant, tid: Tid, origin: Origin, k: nat, m: nat)
    requires FromStart(states, labels) && j < |states| && IsGranted(states[j].broker, r)
    ensures m < j && TracedTo(states, labels, g, tid, origin, k, m)
    ensures g.client == states[j].broker.requests[r].client && g.scope == states[j].broker.requests[r].scope
    ensures g.capability == states[j].broker.requests[r].capability
      || (states[j].broker.requests[r].capability == Observe && g.capability in {Control, Record})
    decreases j
  {
    assert j > 0;
    At(states, labels, j - 1);
    StepAnswers(states[j - 1], labels[j - 1], states[j], r);
    NamesRun(states, labels, j - 1, j);
    if IsGranted(states[j - 1].broker, r) {
      g, tid, origin, k, m := GrantedIsCovered(states, labels, j - 1, r);
    } else {
      m := j - 1;
      g, tid, origin, k := AnsweredIsCovered(states, labels, m, r);
    }
  }

  lemma AnsweredIsCovered(states: seq<State>, labels: seq<Label>, m: nat, r: Id) returns (g: Grant, tid: Tid, origin: Origin, k: nat)
    requires FromStart(states, labels) && m < |labels| && labels[m].Bestow? && labels[m].tid in states[m].ops
    requires states[m].ops[labels[m].tid].Granting? && states[m].ops[labels[m].tid].grantStage.Authorized?
    requires AnswersTo(states[m], labels[m], states[m].ops[labels[m].tid].grantStage.grant, r)
    ensures TracedTo(states, labels, g, tid, origin, k, m) && r in states[m].broker.requests
    ensures g.client == states[m].broker.requests[r].client && g.scope == states[m].broker.requests[r].scope
    ensures g.capability == states[m].broker.requests[r].capability
      || (states[m].broker.requests[r].capability == Observe && g.capability in {Control, Record})
  {
    var op := states[m].ops[labels[m].tid];
    g := op.grantStage.grant;
    tid, origin, k := CommitTraced(states, labels, m, g);
    var k' := StartedEarlier(states, labels, m, labels[m].tid);
    if op.proposal.origin == FromRequest(r) {
      OwnAsk(states, labels, m, k', labels[m].tid, r, g);
    } else {
      assert g.scope == op.proposal.scope by {
        RunKeepsInv(states, labels, 0, m);
        assert Shaped(op);
      }
    }
  }

  /** A decided request is the one its grant was made for. */
  lemma OwnAsk(states: seq<State>, labels: seq<Label>, m: nat, k: nat, tid: Tid, r: Id, g: Grant)
    requires FromStart(states, labels) && k < m < |labels| && r in states[m].broker.requests
    requires tid in states[m].ops && states[m].ops[tid].Granting? && states[m].ops[tid].grantStage.Authorized?
    requires states[m].ops[tid].grantStage.grant == g && states[m].ops[tid].proposal.origin == FromRequest(r)
    requires Proposes(states[k], labels[k], tid, states[m].ops[tid].proposal)
    ensures var ask := states[m].broker.requests[r]; g.client == ask.client && g.capability == ask.capability && g.scope == ask.scope
  {
    RunKeepsInv(states, labels, 0, m);
    assert Shaped(states[m].ops[tid]);
    NamesRun(states, labels, k, m);
  }
}

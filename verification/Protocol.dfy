/** The permission protocol between the broker and the compositor guard, as
    interleaved atomic steps. Each in-flight operation of the broker is an entry of
    `ops` whose constructor is its program counter. A step is one critical section
    under the broker's lock, one acquisition of a lock, or one call to the guard. */
module Protocol {
  import opened Common
  import opened BrokerModel

  type Tid = nat

  /** A call to the guard either took effect and was answered, took effect with its
      reply lost, or did not take effect (unreachable or refused). */
  datatype Outcome = Answered | ReplyLost | NotApplied

  datatype Origin = FromRequest(request: Id) | FromPicker(picker: Id)

  /** What `decide` and `selectShare` remember from their first critical section.
      `snapshot` is the length of the history at that moment. */
  datatype Proposal = Proposal(origin: Origin, client: Id, capability: Capability, scope: Scope,
                               window: Option<Window>, seconds: int, expires: Time,
                               authority: nat, snapshot: nat)

  datatype GrantStage =
    | Queued                                                       // waiting for backendMu
    | Holding                                                      // holds backendMu
    | Authorized(grant: Grant, leased: bool, current: Option<Window>) // holds backendMu, about to recheck

  datatype CleanStage = CleanQueued | CleanHolding | CleanReplied(confirmed: bool)

  datatype InputStage = InputQueued | InputHolding | InputReady | InputSent(delivered: bool)

  datatype Op =
    | Granting(proposal: Proposal, grantStage: GrantStage)
    | Cleaning(todo: seq<Cleanup>, thenClear: bool, cleanStage: CleanStage)
    | Sweeping(thenClear: bool, holding: bool)                     // the retry of maintenance
    | Input(client: Id, window: Window, lease: Option<Id>, own: bool, inputStage: InputStage)

  /** The history: every commit, and every step that withdraws authority. */
  datatype Event =
    | Committed(grant: Grant, origin: Origin, snapshot: nat)
    | GrantRevoked(id: Id)
    | AuthorityCleared
    | AuthorityResumed
    | ClientGone(client: Id, revoked: nat)
    | AuthorityExpired(revoked: nat)
    | InputDelivered(lease: Id)

  /** A lease at the guard: the window it lets input reach, and when it runs out. */
  datatype GuardLease = GuardLease(window: string, until: Time)

  datatype State = State(
    now: Time,
    broker: BrokerState,
    leases: map<Id, GuardLease>,
    lost: map<Id, Time>,        // leases whose authorize reply was lost, and when
    backend: Option<Tid>,       // holder of backendMu
    input: Option<Tid>,         // holder of inputMu
    ops: map<Tid, Op>,
    used: set<Id>,              // every identifier drawn so far
    log: seq<Event>)

  const START := State(0, INITIAL, map[], map[], None, None, map[], {}, [])

  const MAX_LEASE: Time := 3600 * SECOND
  const YOLO_LEASE: Time := 300 * SECOND

  /** Steps that touch no operation: the world's, and the console's one-section commands. */
  datatype WorldStep =
    | Elapse(duration: nat)
    | DropLeases(dropped: set<Id>)             // guard tick, session lock, window closed
    | Connect(client: Id)
    | Ask(client: Id, cap: Capability, scope: Scope, w: Option<Window>, newId: Id)
    | Deny(request: Id)
    | ConsoleAttach
    | Resume
    | BeginShare(asked: Option<Id>, recipient: Option<Id>, cap: Capability, seconds: int, windows: seq<Window>, newId: Id)
    | CancelShare(picker: Id)

  /** First critical sections of operations. */
  datatype StartStep =
    | Disconnect(client: Id, tokens: seq<Id>)
    | ConsoleDetach
    | Pause
    | SwitchMode(mode: Mode)
    | RevokeAll
    | Revoke(id: Id)
    | Decide(request: Id, seconds: int)
    | Select(picker: Id, client: Id, window: Window)
    | Maintain
    | BeginInput(client: Id, window: Window, lease: Option<Id>)

  datatype GrantStep =
    | GiveUp                                   // window gone or changed, no entropy
    | Authorize(newId: Id, current: Option<Window>, outcome: Outcome)
    | Prepare(newId: Id, current: Option<Window>)
    | Commit

  datatype CleanStep =
    | Call(outcome: Outcome)
    | Conclude
    | Sweep(order: seq<Cleanup>)

  datatype InputStep =
    | Enter                                    // takes inputMu
    | Abandon
    | Lease(newId: Id, outcome: Outcome)
    | Check
    | Deliver
    | Answer
    | Finish

  datatype Label =
    | World(world: WorldStep)
    | Start(tid: Tid, start: StartStep)
    | Acquire(tid: Tid)                        // takes backendMu
    | Bestow(tid: Tid, grant: GrantStep)
    | Clean(tid: Tid, clean: CleanStep)
    | Type(tid: Tid, input: InputStep)

  // ------------------------------------------------------- small transitions

  function Logged(s: State, e: Event): State {
    s.(log := s.log + [e])
  }

  function Spawned(s: State, tid: Tid, op: Op): State {
    s.(ops := s.ops[tid := op])
  }

  function AfterClearing(s: State, b: BrokerState, tid: Tid): State {
    Spawned(Logged(s.(broker := b), AuthorityCleared), tid, Cleaning([ClearLeases], false, CleanQueued))
  }

  /** An operation returns: deferred unlocks run. */
  function Returned(s: State, tid: Tid): State {
    s.(ops := s.ops - {tid},
       backend := if s.backend == Some(tid) then None else s.backend,
       input := if s.input == Some(tid) then None else s.input)
  }

  /** A cleanup pass ends; maintenance may still owe a guard-wide clear. */
  function CleanedUp(s: State, tid: Tid, thenClear: bool): State {
    if thenClear
    then Spawned(s.(backend := None), tid, Cleaning([ClearLeases], false, CleanQueued))
    else Returned(s, tid)
  }

  predicate FreshId(s: State, id: Id) { id !in s.used }

  function Drawn(s: State, id: Id): State { s.(used := s.used + {id}) }

  /** The window must still be as the user saw it when it was picked. */
  predicate WindowAgrees(p: Proposal, current: Option<Window>) {
    p.window.Some? ==>
      && current.Some?
      && current.value.id == p.window.value.id
      && current.value.visible && !current.value.hidden && !current.value.xwayland
      && current.value.revision == p.window.value.revision
  }

  function ProposedGrant(p: Proposal, id: Id): Grant {
    Grant(id, p.client, p.capability, p.scope, p.expires)
  }

  predicate Stands(s: State, p: Proposal) {
    match p.origin
    case FromRequest(r) => DecisionStands(s.broker, s.now, r, p.authority, p.expires)
    case FromPicker(k) => SelectionStands(s.broker, s.now, k, p.client, p.authority, p.expires)
  }

  function CommittedBroker(b: BrokerState, p: Proposal, g: Grant, current: Option<Window>): BrokerState {
    match p.origin
    case FromRequest(r) => if r in b.requests then WithDecision(b, r, g) else b
    case FromPicker(_) => if current.Some? then WithSelection(b, g, current.value) else b
  }

  function InputScope(w: Window): Scope { Scope(WindowKind, w.id) }

  function GuardEffect(leases: map<Id, GuardLease>, call: Cleanup): map<Id, GuardLease> {
    match call
    case RevokeLease(t) => leases - {t}
    case ClearLeases => map[]
  }

  // ------------------------------------------------------------- transitions

  ghost predicate WorldEnabled(s: State, l: WorldStep) {
    match l
    case Elapse(_) => true
    case DropLeases(_) => true
    case Connect(c) => FreshId(s, c)
    case Ask(c, cap, scope, w, id) => FreshId(s, id) && c in s.used && RecordsAsk(s.broker, s.now, c, cap, scope, w)
    case Deny(id) => IsPending(s.broker, id)
    case ConsoleAttach => true
    case Resume => true
    case BeginShare(asked, recipient, cap, seconds, windows, id) =>
      FreshId(s, id) && MayShare(s.broker, asked, cap, seconds, windows) && Recipient(s.broker, asked, recipient)
    case CancelShare(_) => true
  }

  function WorldApply(s: State, l: WorldStep): State {
    match l
    case Elapse(d) => s.(now := s.now + d)
    case DropLeases(tokens) => s.(leases := s.leases - tokens)
    case Connect(c) => Drawn(s, c).(broker := s.broker.(clients := s.broker.clients + {c}))
    case Ask(c, cap, scope, w, id) => Drawn(s, id).(broker := WithAsk(s.broker, s.now, c, cap, scope, id))
    case Deny(id) => if id in s.broker.requests then s.(broker := WithVerdict(s.broker, id, Denied)) else s
    case ConsoleAttach => s.(broker := s.broker.(consoles := s.broker.consoles + 1))
    case Resume => Logged(s.(broker := Resumed(s.broker)), AuthorityResumed)
    case BeginShare(_, recipient, cap, seconds, windows, id) =>
      Drawn(s, id).(broker := WithPicker(s.broker, Picker(id, recipient, cap, seconds, s.now + MINUTE, Candidates(windows))))
    case CancelShare(k) => s.(broker := WithoutPicker(s.broker, k))
  }

  ghost predicate StartEnabled(s: State, tid: Tid, l: StartStep) {
    && tid !in s.ops
    && match l
       case Disconnect(c, tokens) => forall t :: t in tokens <==> t in ControlGrantsOf(s.broker, c)
       case ConsoleDetach => s.broker.consoles > 0
       case Pause => true
       case SwitchMode(_) => true
       case RevokeAll => true
       case Revoke(id) => id in s.broker.grants
       case Decide(id, seconds) => MayDecide(s.broker, id, seconds)
       case Select(k, c, w) => MaySelect(s.broker, s.now, k, c, w)
       case Maintain => true
       case BeginInput(c, w, lease) =>
         && Open(s.broker)
         && (match lease
             case None => s.broker.mode == Yolo
             case Some(g) => s.broker.mode == Approve && Covers(s.broker, s.now, g, c, Control, InputScope(w), Some(w)))
  }

  function Revocations(tokens: seq<Id>): seq<Cleanup> {
    seq(|tokens|, i requires 0 <= i < |tokens| => RevokeLease(tokens[i]))
  }

  function GoneWeight(b: BrokerState, client: Id): nat {
    |GrantsOf(b, client)| + (if PickerFor(b, client) then 1 else 0)
  }

  function ExpiredWeight(b: BrokerState, now: Time): nat {
    |ExpiredGrants(b, now)| + (if PickerExpired(b, now) then 1 else 0)
  }

  function DecideProposal(s: State, id: Id, seconds: int): Proposal
    requires id in s.broker.requests
  {
    var r := s.broker.requests[id];
    Proposal(FromRequest(id), r.client, r.capability, r.scope, None, seconds,
             s.now + seconds * SECOND, s.broker.authority, |s.log|)
  }

  function SelectProposal(s: State, k: Id, client: Id, w: Window): Proposal
    requires s.broker.picker.Some?
  {
    var p := s.broker.picker.value;
    Proposal(FromPicker(k), client, p.capability, InputScope(w), Some(w), p.seconds,
             s.now + p.seconds * SECOND, s.broker.authority, |s.log|)
  }

  ghost function StartApply(s: State, tid: Tid, l: StartStep): State
    requires StartEnabled(s, tid, l)
  {
    match l
    case Disconnect(c, tokens) =>
      var s1 := Logged(s.(broker := Disconnected(s.broker, c)), ClientGone(c, GoneWeight(s.broker, c)));
      if tokens == [] then s1 else Spawned(s1, tid, Cleaning(Revocations(tokens), false, CleanQueued))
    case ConsoleDetach =>
      if s.broker.consoles == 1 then AfterClearing(s, ConsoleLost(s.broker), tid)
      else s.(broker := ConsoleLost(s.broker))
    case Pause => AfterClearing(s, PauseSet(s.broker), tid)
    case SwitchMode(mode) => AfterClearing(s, ModeSet(s.broker, mode), tid)
    case RevokeAll => AfterClearing(s, Cleared(s.broker), tid)
    case Revoke(id) =>
      var s1 := Logged(s.(broker := Without(s.broker, id)), GrantRevoked(id));
      if s.broker.grants[id].capability == Control
      then Spawned(s1, tid, Cleaning([RevokeLease(id)], false, CleanQueued)) else s1
    case Decide(id, seconds) => Spawned(s, tid, Granting(DecideProposal(s, id, seconds), Queued))
    case Select(k, c, w) => Spawned(s, tid, Granting(SelectProposal(s, k, c, w), Queued))
    case Maintain =>
      Spawned(Logged(s.(broker := Expired(s.broker, s.now)), AuthorityExpired(ExpiredWeight(s.broker, s.now))),
              tid, Sweeping(ControlExpired(s.broker, s.now), false))
    case BeginInput(c, w, lease) => Spawned(s, tid, Input(c, w, lease, false, InputQueued))
  }

  predicate AcquireEnabled(s: State, tid: Tid) {
    && s.backend == None
    && tid in s.ops
    && (match s.ops[tid]
        case Granting(_, stage) => stage == Queued
        case Cleaning(_, _, stage) => stage == CleanQueued
        case Sweeping(_, holding) => !holding
        case Input(_, _, _, _, _) => false)
  }

  function AcquireApply(s: State, tid: Tid): State
    requires tid in s.ops
  {
    Spawned(s.(backend := Some(tid)), tid,
            match s.ops[tid]
            case Granting(p, _) => Granting(p, Holding)
            case Cleaning(todo, thenClear, _) => Cleaning(todo, thenClear, CleanHolding)
            case Sweeping(thenClear, _) => Sweeping(thenClear, true)
            case Input(_, _, _, _, _) => s.ops[tid])
  }

  predicate GrantEnabled(s: State, tid: Tid, l: GrantStep) {
    && tid in s.ops
    && s.ops[tid].Granting?
    && var p, stage := s.ops[tid].proposal, s.ops[tid].grantStage;
       match l
       case GiveUp => stage == Holding
       case Authorize(t, current, _) =>
         stage == Holding && FreshId(s, t) && p.capability == Control && WindowAgrees(p, current)
       case Prepare(t, current) =>
         stage == Holding && FreshId(s, t) && p.capability != Control && WindowAgrees(p, current)
       case Commit => stage.Authorized?
  }

  function GrantApply(s: State, tid: Tid, l: GrantStep): State
    requires GrantEnabled(s, tid, l)
  {
    var p, stage := s.ops[tid].proposal, s.ops[tid].grantStage;
    match l
    case GiveUp => Returned(s, tid)
    case Authorize(t, current, outcome) =>
      var lease := GuardLease(p.scope.id, s.now + p.seconds * SECOND);
      (match outcome
       case Answered =>
         Spawned(Drawn(s, t).(leases := s.leases[t := lease]), tid,
                 Granting(p, Authorized(ProposedGrant(p, t), true, current)))
       case ReplyLost =>
         Returned(Drawn(s, t).(leases := s.leases[t := lease], lost := s.lost[t := s.now]), tid)
       case NotApplied => Returned(Drawn(s, t), tid))
    case Prepare(t, current) =>
      Spawned(Drawn(s, t), tid, Granting(p, Authorized(ProposedGrant(p, t), false, current)))
    case Commit =>
      if Stands(s, p) then
        Returned(Logged(s.(broker := CommittedBroker(s.broker, p, stage.grant, stage.current)),
                        Committed(stage.grant, p.origin, p.snapshot)), tid)
      else if stage.leased then
        Spawned(s, tid, Cleaning([RevokeLease(stage.grant.id)], false, CleanHolding))
      else Returned(s, tid)
  }

  ghost predicate CleanEnabled(s: State, tid: Tid, l: CleanStep) {
    && tid in s.ops
    && match l
       case Call(_) => s.ops[tid].Cleaning? && s.ops[tid].cleanStage == CleanHolding && s.ops[tid].todo != []
       case Conclude => s.ops[tid].Cleaning? && s.ops[tid].cleanStage.CleanReplied? && s.ops[tid].todo != []
       case Sweep(order) =>
         && s.ops[tid].Sweeping? && s.ops[tid].holding
         && (forall c :: c in order <==> c in s.broker.unconfirmed)
  }

  ghost function CleanApply(s: State, tid: Tid, l: CleanStep): State
    requires CleanEnabled(s, tid, l)
  {
    var op := s.ops[tid];
    match l
    case Call(outcome) =>
      Spawned(s.(leases := if outcome == NotApplied then s.leases else GuardEffect(s.leases, op.todo[0])), tid,
              Cleaning(op.todo, op.thenClear, CleanReplied(outcome == Answered)))
    case Conclude =>
      var s1 := s.(broker := Recorded(s.broker, s.now, op.todo[0], op.cleanStage.confirmed));
      if |op.todo| == 1 then CleanedUp(s1, tid, op.thenClear)
      else Spawned(s1, tid, Cleaning(op.todo[1..], op.thenClear, CleanHolding))
    case Sweep(order) =>
      if RetryDue(s.broker, s.now) && order != [] then Spawned(s, tid, Cleaning(order, op.thenClear, CleanHolding))
      else CleanedUp(s, tid, op.thenClear)
  }

  ghost predicate InputEnabled(s: State, tid: Tid, l: InputStep) {
    && tid in s.ops
    && s.ops[tid].Input?
    && var op := s.ops[tid];
       match l
       case Enter => s.input == None && op.inputStage == InputQueued
       case Abandon => op.inputStage == InputHolding
       case Lease(t, _) => op.inputStage == InputHolding && FreshId(s, t)
       case Check =>
         op.inputStage == InputReady
         && Allowed(s.broker, s.now, op.client, Control, InputScope(op.window), Some(op.window))
       case Deliver =>
         op.inputStage == InputSent(false) && op.lease.Some?
         && op.lease.value in s.leases && s.now < s.leases[op.lease.value].until
       case Answer => op.inputStage.InputSent?
       case Finish => op.inputStage == InputReady
  }

  ghost function InputApply(s: State, tid: Tid, l: InputStep): State
    requires InputEnabled(s, tid, l)
  {
    var op := s.ops[tid];
    match l
    case Enter =>
      Spawned(s.(input := Some(tid)), tid, op.(inputStage := if op.lease.Some? then InputReady else InputHolding))
    case Abandon => Returned(s, tid)
    case Lease(t, outcome) =>
      var lease := GuardLease(op.window.id, s.now + YOLO_LEASE);
      (match outcome
       case Answered =>
         Spawned(Drawn(s, t).(leases := s.leases[t := lease]), tid,
                 op.(lease := Some(t), own := true, inputStage := InputReady))
       case ReplyLost =>
         Returned(Drawn(s, t).(leases := s.leases[t := lease], lost := s.lost[t := s.now]), tid)
       case NotApplied => Returned(Drawn(s, t), tid))
    case Check => Spawned(s, tid, op.(inputStage := InputSent(false)))
    case Deliver =>
      Spawned(Logged(s, InputDelivered(op.lease.value)), tid, op.(inputStage := InputSent(true)))
    case Answer => Spawned(s, tid, op.(inputStage := InputReady))
    case Finish =>
      if op.own && op.lease.Some? then Spawned(s, tid, Cleaning([RevokeLease(op.lease.value)], false, CleanQueued))
      else Returned(s, tid)
  }

  ghost predicate Enabled(s: State, l: Label) {
    match l
    case World(w) => WorldEnabled(s, w)
    case Start(tid, st) => StartEnabled(s, tid, st)
    case Acquire(tid) => AcquireEnabled(s, tid)
    case Bestow(tid, g) => GrantEnabled(s, tid, g)
    case Clean(tid, c) => CleanEnabled(s, tid, c)
    case Type(tid, i) => InputEnabled(s, tid, i)
  }

  ghost function Apply(s: State, l: Label): State
    requires Enabled(s, l)
  {
    match l
    case World(w) => WorldApply(s, w)
    case Start(tid, st) => StartApply(s, tid, st)
    case Acquire(tid) => AcquireApply(s, tid)
    case Bestow(tid, g) => GrantApply(s, tid, g)
    case Clean(tid, c) => CleanApply(s, tid, c)
    case Type(tid, i) => InputApply(s, tid, i)
  }

  ghost predicate Next(s: State, l: Label, s': State) {
    Enabled(s, l) && s' == Apply(s, l)
  }

  ghost predicate StepAt(states: seq<State>, labels: seq<Label>, i: nat)
    requires i < |labels| && i + 1 < |states|
  {
    Next(states[i], labels[i], states[i + 1])
  }

  /** Finite runs: a state for every moment, a label for every step between two. */
  ghost predicate IsRun(states: seq<State>, labels: seq<Label>) {
    && |states| == |labels| + 1
    && forall i: nat :: i < |labels| ==> StepAt(states, labels, i)
  }

  ghost predicate Reachable(s: State) {
    exists states, labels ::
      IsRun(states, labels) && states[0] == START && states[|states| - 1] == s
  }
}

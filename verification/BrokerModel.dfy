/** The broker's state as a value, and what each critical section under the
    broker's lock does to it. The class in Broker.dfy is proved to perform exactly
    these changes; Protocol.dfy interleaves them with the compositor guard. */
module BrokerModel {
  import opened Common

  /** A random 128-bit identifier; freshness is tracked by the protocol. */
  type Id = nat

  datatype Capability = Observe | Control | Record | Launch
  datatype ScopeKind = WorkspaceKind | WindowKind | ApplicationKind
  datatype Scope = Scope(kind: ScopeKind, id: string)

  datatype Window = Window(id: string, title: string, class_: string, workspace: string,
                           visible: bool, hidden: bool, xwayland: bool, revision: string)

  datatype Grant = Grant(id: Id, client: Id, capability: Capability, scope: Scope, expires: Time)

  datatype RequestState = Pending | Granted | Denied | Cancelled
  datatype Request = Request(client: Id, capability: Capability, scope: Scope,
                             state: RequestState, created: Time)

  datatype Picker = Picker(id: Id, client: Option<Id>, capability: Capability, seconds: int,
                           expires: Time, windows: seq<Window>)

  datatype Mode = Approve | Yolo

  /** The two compositor calls that remove leases. A pending revocation is keyed by
      operation and token, so the table is the set of calls still unconfirmed. */
  datatype Cleanup = RevokeLease(token: Id) | ClearLeases

  datatype BrokerState = BrokerState(
    mode: Mode,
    paused: bool,
    consoles: nat,
    authority: nat,
    clients: set<Id>,
    requests: map<Id, Request>,
    grants: map<Id, Grant>,
    picker: Option<Picker>,
    unconfirmed: set<Cleanup>,
    nextRetry: Time)

  const INITIAL := BrokerState(Approve, false, 0, 0, {}, map[], map[], None, {}, 0)

  const MAX_REQUESTS := 100
  const REQUEST_LIFETIME := 5 * MINUTE

  // ---------------------------------------------------------------- matching

  predicate ValidScope(cap: Capability, scope: Scope) {
    && 1 <= |scope.id| <= 80
    && match cap
       case Observe => scope.kind == WorkspaceKind || scope.kind == WindowKind
       case Control => scope.kind == WindowKind
       case Record => scope.kind == WindowKind
       case Launch => scope.kind == ApplicationKind
  }

  predicate GrantMatches(g: Grant, client: Id, cap: Capability, scope: Scope, w: Option<Window>) {
    && g.client == client
    && (g.capability == cap || (cap == Observe && (g.capability == Control || g.capability == Record)))
    && (g.scope == scope
        || (cap == Observe && scope.kind == WindowKind && g.scope.kind == WorkspaceKind
            && w.Some? && w.value.workspace == g.scope.id))
  }

  /** Authority is blocked while paused, unsupervised or with cleanup unconfirmed. */
  predicate Open(b: BrokerState) {
    !b.paused && b.consoles > 0 && b.unconfirmed == {}
  }

  predicate Covers(b: BrokerState, now: Time, id: Id,
                   client: Id, cap: Capability, scope: Scope, w: Option<Window>) {
    id in b.grants && now < b.grants[id].expires && GrantMatches(b.grants[id], client, cap, scope, w)
  }

  ghost predicate Allowed(b: BrokerState, now: Time,
                          client: Id, cap: Capability, scope: Scope, w: Option<Window>) {
    Open(b) && (b.mode == Yolo || exists id :: Covers(b, now, id, client, cap, scope, w))
  }

  // ---------------------------------------------------------------- requests

  predicate SameAsk(r: Request, client: Id, cap: Capability, scope: Scope) {
    r.client == client && r.capability == cap && r.scope == scope && r.state == Pending
  }

  /** When an ask is recorded as a new request rather than answered or refused. */
  ghost predicate RecordsAsk(b: BrokerState, now: Time,
                             client: Id, cap: Capability, scope: Scope, w: Option<Window>) {
    && ValidScope(cap, scope)
    && Open(b)
    && !Allowed(b, now, client, cap, scope, w)
    && !AlreadyAsked(b, client, cap, scope)
    && |b.requests| < MAX_REQUESTS
  }

  function WithAsk(b: BrokerState, now: Time, client: Id, cap: Capability, scope: Scope, id: Id): BrokerState {
    b.(requests := b.requests[id := Request(client, cap, scope, Pending, now)])
  }

  predicate AlreadyAsked(b: BrokerState, client: Id, cap: Capability, scope: Scope) {
    exists id :: id in b.requests && SameAsk(b.requests[id], client, cap, scope)
  }

  datatype Answer =
    | BadScope | Unsupervised | PausedByUser | RevocationUnconfirmed | TooManyRequests | NoEntropy
    | Permitted(grant: Option<Id>)
    | ApprovalRequired(request: Id)

  /** Exactly when each answer to a permission check is given, and what it changes.
      `entropy` is the identifier drawn for a new request, if the draw succeeds. */
  ghost predicate Answers(b: BrokerState, now: Time, client: Id, cap: Capability, scope: Scope, w: Option<Window>,
                          entropy: Option<Id>, answer: Answer, b': BrokerState) {
    match answer
    case BadScope => !ValidScope(cap, scope) && b' == b
    case Unsupervised => ValidScope(cap, scope) && b.consoles == 0 && b' == b
    case PausedByUser => ValidScope(cap, scope) && b.consoles > 0 && b.paused && b' == b
    case RevocationUnconfirmed =>
      ValidScope(cap, scope) && b.consoles > 0 && !b.paused && b.unconfirmed != {} && b' == b
    case Permitted(g) =>
      && ValidScope(cap, scope) && Allowed(b, now, client, cap, scope, w) && b' == b
      && (if b.mode == Yolo then g == None else g.Some? && Covers(b, now, g.value, client, cap, scope, w))
    case ApprovalRequired(id) =>
      if AlreadyAsked(b, client, cap, scope)
      then && ValidScope(cap, scope) && Open(b) && !Allowed(b, now, client, cap, scope, w)
           && id in b.requests && SameAsk(b.requests[id], client, cap, scope) && b' == b
      else RecordsAsk(b, now, client, cap, scope, w) && entropy == Some(id)
           && b' == WithAsk(b, now, client, cap, scope, id)
    case TooManyRequests =>
      && ValidScope(cap, scope) && Open(b) && !Allowed(b, now, client, cap, scope, w)
      && !AlreadyAsked(b, client, cap, scope) && |b.requests| >= MAX_REQUESTS && b' == b
    case NoEntropy => RecordsAsk(b, now, client, cap, scope, w) && entropy == None && b' == b
  }

  predicate IsPending(b: BrokerState, id: Id) {
    id in b.requests && b.requests[id].state == Pending
  }

  function WithVerdict(b: BrokerState, id: Id, verdict: RequestState): BrokerState
    requires id in b.requests
  {
    b.(requests := b.requests[id := b.requests[id].(state := verdict)])
  }

  /** The checks that open the two-phase grant of a request. */
  predicate MayDecide(b: BrokerState, id: Id, seconds: int) {
    && IsPending(b, id)
    && Open(b)
    && b.mode == Approve
    && 1 <= seconds <= 3600
  }

  /** The recheck after the guard authorized the lease. */
  predicate DecisionStands(b: BrokerState, now: Time, id: Id, authority: nat, expires: Time) {
    && IsPending(b, id)
    && b.authority == authority
    && Open(b)
    && b.mode == Approve
    && now < expires
  }

  function WithDecision(b: BrokerState, id: Id, g: Grant): BrokerState
    requires id in b.requests
  {
    WithVerdict(b, id, Granted).(grants := b.grants[g.id := g])
  }

  // ----------------------------------------------------------------- sharing

  predicate Shareable(w: Window) {
    w.visible && !w.hidden && !w.xwayland && w.class_ != "org.quickshell" && w.class_ != "computer-use"
  }

  /** The windows the picker offers. */
  function Candidates(windows: seq<Window>): (offered: seq<Window>)
    ensures forall w :: w in offered <==> w in windows && Shareable(w)
  {
    if windows == [] then []
    else Candidates(windows[..|windows| - 1]) + (if Shareable(windows[|windows| - 1]) then [windows[|windows| - 1]] else [])
  }

  /** The first window offered under an identifier. */
  function Offered(windows: seq<Window>, id: string): (w: Option<Window>)
    ensures w.Some? ==> w.value in windows && w.value.id == id
  {
    if windows == [] then None
    else if windows[0].id == id then Some(windows[0])
    else Offered(windows[1..], id)
  }

  predicate MayShare(b: BrokerState, client: Option<Id>, cap: Capability, seconds: int, windows: seq<Window>) {
    && (cap == Observe || cap == Control)
    && 1 <= seconds <= 3600
    && Open(b)
    && b.clients != {}
    && (client.Some? ==> client.value in b.clients)
    && Candidates(windows) != []
  }

  /** An unaddressed picker goes to the only client when there is exactly one. */
  predicate Recipient(b: BrokerState, asked: Option<Id>, recipient: Option<Id>) {
    if asked.None? && |b.clients| == 1 then recipient.Some? && recipient.value in b.clients
    else recipient == asked
  }

  function WithPicker(b: BrokerState, p: Picker): BrokerState {
    b.(picker := Some(p))
  }

  predicate PickerIs(b: BrokerState, id: Id) {
    b.picker.Some? && b.picker.value.id == id
  }

  function WithoutPicker(b: BrokerState, id: Id): BrokerState {
    if PickerIs(b, id) then b.(picker := None) else b
  }

  predicate MaySelect(b: BrokerState, now: Time, picker: Id, client: Id, w: Window) {
    && PickerIs(b, picker)
    && now < b.picker.value.expires
    && Open(b)
    && (b.picker.value.client.Some? ==> b.picker.value.client.value == client)
    && client in b.clients
    && Offered(b.picker.value.windows, w.id) == Some(w)
  }

  predicate SelectionStands(b: BrokerState, now: Time, picker: Id, client: Id, authority: nat, expires: Time) {
    && PickerIs(b, picker)
    && b.authority == authority
    && Open(b)
    && client in b.clients
    && now < expires
  }

  /** Sharing a window also answers every pending request the new grant covers. */
  function WithSelection(b: BrokerState, g: Grant, w: Window): BrokerState {
    b.(grants := b.grants[g.id := g],
       requests := map id | id in b.requests ::
         if b.requests[id].state == Pending
            && GrantMatches(g, b.requests[id].client, b.requests[id].capability, b.requests[id].scope, Some(w))
         then b.requests[id].(state := Granted) else b.requests[id],
       picker := None)
  }

  // -------------------------------------------------------------- revocation

  function Without(b: BrokerState, id: Id): BrokerState {
    if id in b.grants then b.(grants := b.grants - {id}, authority := b.authority + 1) else b
  }

  function CancelledWhere(requests: map<Id, Request>, client: Option<Id>): map<Id, Request> {
    map id | id in requests ::
      if requests[id].state == Pending && (client.Some? ==> requests[id].client == client.value)
      then requests[id].(state := Cancelled) else requests[id]
  }

  function Cleared(b: BrokerState): BrokerState {
    b.(picker := None,
       grants := map[],
       authority := b.authority + 1,
       requests := CancelledWhere(b.requests, None))
  }

  function GrantsOf(b: BrokerState, client: Id): set<Id> {
    set id | id in b.grants && b.grants[id].client == client
  }

  function ControlGrantsOf(b: BrokerState, client: Id): set<Id> {
    set id | id in b.grants && b.grants[id].client == client && b.grants[id].capability == Control
  }

  predicate PickerFor(b: BrokerState, client: Id) {
    b.picker.Some? && b.picker.value.client == Some(client)
  }

  function Disconnected(b: BrokerState, client: Id): BrokerState {
    b.(grants := b.grants - GrantsOf(b, client),
       requests := CancelledWhere(b.requests, Some(client)),
       clients := b.clients - {client},
       picker := if PickerFor(b, client) then None else b.picker,
       authority := b.authority + |GrantsOf(b, client)| + (if PickerFor(b, client) then 1 else 0))
  }

  function ExpiredGrants(b: BrokerState, now: Time): set<Id> {
    set id | id in b.grants && b.grants[id].expires <= now
  }

  predicate ControlExpired(b: BrokerState, now: Time) {
    exists id :: id in b.grants && b.grants[id].expires <= now && b.grants[id].capability == Control
  }

  predicate PickerExpired(b: BrokerState, now: Time) {
    b.picker.Some? && b.picker.value.expires <= now
  }

  function StaleRequests(b: BrokerState, now: Time): set<Id> {
    set id | id in b.requests && now - b.requests[id].created > REQUEST_LIFETIME
  }

  function Expired(b: BrokerState, now: Time): BrokerState {
    b.(grants := b.grants - ExpiredGrants(b, now),
       requests := b.requests - StaleRequests(b, now),
       picker := if PickerExpired(b, now) then None else b.picker,
       authority := b.authority + |ExpiredGrants(b, now)| + (if PickerExpired(b, now) then 1 else 0))
  }

  // ----------------------------------------------------------------- console

  function ConsoleLost(b: BrokerState): BrokerState
    requires b.consoles > 0
  {
    var left := b.(consoles := b.consoles - 1);
    if left.consoles == 0 then Cleared(left.(paused := true)) else left
  }

  function PauseSet(b: BrokerState): BrokerState {
    Cleared(b.(paused := true))
  }

  function Resumed(b: BrokerState): BrokerState {
    b.(paused := false, authority := b.authority + 1)
  }

  function ModeSet(b: BrokerState, mode: Mode): BrokerState {
    Cleared(b).(mode := mode)
  }

  // ------------------------------------------------------------ confirmation

  /** What the broker concludes from the guard's answer to a cleanup call. A
      confirmed clear settles every outstanding revocation. */
  function Recorded(b: BrokerState, now: Time, call: Cleanup, confirmed: bool): BrokerState {
    if !confirmed then b.(unconfirmed := b.unconfirmed + {call}, nextRetry := now + SECOND)
    else if call.ClearLeases? then b.(unconfirmed := {})
    else b.(unconfirmed := b.unconfirmed - {call})
  }

  predicate RetryDue(b: BrokerState, now: Time) {
    b.unconfirmed != {} && b.nextRetry <= now
  }
}

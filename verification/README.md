# Verified models of a desktop-control broker

A local broker lets remote clients see and operate single windows of a Hyprland desktop. Its
authority is split: the broker (Go) holds grants, requests and the console; a compositor plugin,
the guard (C++), holds leases and sends the input. This project models both sides and what
passes between them, and proves what they promise together.

| files | model |
|---|---|
| `BrokerModel.dfy`, `Broker.dfy`, `BrokerSteps.dfy` | the broker's critical sections, as functions on a state and as methods of an object proved to perform them, and to perform the protocol's steps |
| `Guard.dfy` | the guard's lease table, and that it refines what the protocol assumes |
| `Protocol.dfy`, `ProtocolSafety.dfy`, `ProtocolHistory.dfy`, `ProtocolRuns.dfy`, `ProtocolProvenance.dfy`, `ProtocolLeases.dfy`, `ProtocolLost.dfy`, `ProtocolDelivery.dfy`, `ProtocolRecovery.dfy` | both parties as one state machine: every operation in flight has a program counter, each guard call may be answered, lose its reply or not happen, steps interleave freely under the two mutexes; what every step keeps, and what whole runs obey: revocation, pausing, where each grant comes from, when it has its lease, whose a lease is, where input goes, and that nothing is ever stuck |
| `SurfaceModel.dfy`, `SurfaceTree.dfy`, `SurfaceDiscovery.dfy`, `SurfacePlacement.dfy`, `SurfaceRouting.dfy`, `SurfacePaths.dfy`, `SurfaceHandles.dfy` | discovery of a window's surfaces on a possibly cyclic object graph, what it finds and refuses, where and in which order they come out, hit testing on the flat list, drag planning, names for surfaces |
| `OAuthModel.dfy`, `OAuth.dfy`, `OAuthRuns.dfy`, `OAuthSafety.dfy`, `RateLimit.dfy`, `RateLimitOrder.dfy` | the OAuth provider with rotation and family revocation, over whole runs; the rate limiter, and exactly when it keeps its bounds |
| `Compositor.dfy`, `InputTransaction.dfy`, `InputOperations.dfy` | a seat whose every call may throw before or after its effect while surfaces die, and the transactions that borrow it |
| `TextInput.dfy`, `TextDelivery.dfy` | text as key presses through a private keymap, chunked over a link that loses messages; whole batches of actions |
| `Wayland.dfy`, `Capture.dfy` | the wire codec; crop and resample arithmetic |

`dafny verify dfyconfig.toml` checks everything.

Identifiers and secrets are numbers drawn fresh, a digest determines what it was taken of, the
clock is monotone and read once per critical section, and results of I/O are arguments or
nondeterministic choices. Two sections use a reading taken before their lock: a pending
authorization may expire earlier than its entry suggests (internal/app/oauth.go:420), and the
rate limiter's readings come in any order (internal/app/oauth.go:697-699). A thrown C++
exception is a `true` result that callers pass on.

Three results differ from what one would expect of the code:

- An authorize call whose reply is lost is not cleaned up. The lease it left is bounded only by
  its own expiry; `StrandedLease` is such a run. `EveryLeaseAccounted` excepts these leases, and
  rightly so: `LostForGood` says that such a token is never granted, used, revoked by name or
  retried in any continuation. With nothing in flight and nothing unconfirmed a lease has its
  control grant if and only if its reply was not lost (`QuietLease`).
- A control grant can be left without its lease. A guard-wide clear takes the leases of every
  grant, and it can come from maintenance that found another control grant expired
  (`NeighbourExpires`), or be one that was queued before the grant and carried out after it, with
  no time passing and no reply lost (`ClearOvertaken`). These are all: `GrantHasLease` says that a
  control grant has its lease exactly as long as, since its authorization, the guard did not drop
  it by itself and no clear took effect, and `ClearWasDue` that such a clear was owed when the
  grant committed or follows such a maintenance pass.
- The rate limiter lets at most `2 * limit - 1` requests of a key through in any minute of clock
  readings, one fewer than two full windows (`BoundReached` attains it), and at most the limit in
  the windows begun at one reading. The code reads the clock before it takes the lock, so
  requests enter in an order of their own, and neither bound holds for every order. Exactly:
  requests with given readings keep the first, whatever their keys and limits, if and only if
  between no two readings less than a minute apart one enters that is at least a minute later
  than the first of them (`LessThanTwiceTheLimit`); and the second if and only if this holds of
  equal readings (`WindowLimit`). Clock order keeps both; readings of 0, a minute, and a nanosecond
  less than a minute break the first (`LateEntryBreaksBounds`).

## Model

| member | source | states |
|---|---|---|
| `ProtocolRuns.EveryLeaseAccounted` | internal/app/broker.go:224-390 | In every reachable state of broker and guard, with lost and failed replies, each guard lease belongs to a control grant, to an operation that will commit or revoke it, to an owed clear or to an unconfirmed revocation; a lease whose authorize reply was lost expires within an hour of it. |
| `ProtocolRuns.StrayLeaseBlocksAuthority` | internal/app/broker.go:159-162 | With nothing in flight, a lease that no grant explains keeps the table of unconfirmed revocations non-empty, and then nobody is allowed anything in either mode. |
| `ProtocolRuns.StrandedLease` | internal/app/broker.go:268-271 | A run in which the authorize reply is lost ends with nothing in flight, no grant, an empty table and a lease the guard honours for a minute: the exception above is needed. |
| `ProtocolLost.LostIsNobodys` | internal/app/broker.go:268-271 | A token whose authorize reply was lost is in no grant, no operation will commit, use or revoke it, and no retry names it. |
| `ProtocolLost.LostForGood` | internal/app/broker.go:268-271 | Nor does any of this come about in any continuation. |
| `ProtocolLost.QuietLease` | internal/app/broker.go:224-390 | With nothing in flight and nothing unconfirmed, a lease has its control grant if and only if its authorize reply was not lost. |
| `ProtocolRecovery.AlwaysRecovers` | internal/app/broker.go:735-752 | No lock is ever stuck and nothing stays unconfirmed: from every reachable state, whatever was lost or refused, a continuation of time, one maintenance pass and the operations in flight going on, with a guard that answers, ends with nothing in flight, both locks free, nothing unconfirmed, and every lease at the guard a control grant's or one whose authorize reply was lost. |
| `ProtocolRecovery.AllEnd` | internal/app/broker.go:224-390 | Everything in flight can end, first the holder of one lock, then of the other, then the rest. |
| `ProtocolDelivery.DeliveredWhereMeant` | native/guard.cpp:198-213 | In any run input is delivered only under a lease for the very window the operation means, before the lease runs out. |
| `ProtocolDelivery.DeliveryTraced` | internal/app/desktop.go:443-506 | Every delivery of a run goes back to the command that began the input for this client and window, through a check when nothing was paused or unconfirmed and the client, in approve mode, had an unexpired control grant on that window; its lease is one the operation got for itself in yolo mode, or that of a grant which covered the input when it began, was approved for this client, this window and control, and whose lease the approving operation authorized for it. |
| `ProtocolDelivery.DeliveredInTime` | internal/app/broker.go:268-284 | In yolo mode nothing is delivered more than five minutes after the operation got its lease, and in approve mode nothing once the approved duration has passed since the lease was authorized. |
| `ProtocolDelivery.AimedRun` | internal/app/broker.go:269 | Along any run every lease is for the window of its grant's scope and of every operation with its token. |
| `ProtocolRuns.ConfirmedClearIsSound` | internal/app/broker.go:725-729 | Emptying the table after a confirmed clear is sound: every lease then left is a running operation's or lost its authorize reply. |
| `ProtocolRuns.LeaseGoneForever` | native/guard.cpp:160-197 | Along any run a drawn token without a lease never gets one again, and no input is delivered under it. |
| `ProtocolRuns.ConfirmedRevocationIsFinal` | internal/app/broker.go:709-734 | After the broker records the guard's confirmation of a revocation, no input is delivered under that token in any continuation. |
| `ProtocolProvenance.GrantTraced` | internal/app/broker.go:224-293 | In any run every grant present goes back to one step of the local user that approved a request or chose a window, with the client, capability, scope and duration of that request or picker; that operation alone committed it, and in between nothing was revoked, cleared, paused, resumed, switched or expired, and the client did not disconnect. |
| `ProtocolProvenance.CommittedOnce` | internal/app/broker.go:276-284 | No two steps of a run commit a grant under one identifier. |
| `ProtocolProvenance.GrantedIsCovered` | internal/app/sharing.go:140-150 | A request is ever marked granted only by the commit of a traced grant to its client on its scope: of the capability asked for, or of control or recording where observing was asked for. |
| `ProtocolRuns.OneGrantPerOrigin` | internal/app/sharing.go:138-150 | A request or a picker yields at most one grant, and is spent once it has. |
| `ProtocolProvenance.ApprovedAuthority` | internal/app/broker.go:147-172 | In approve mode authority in any run comes only from an unexpired grant to this client, traced to its approval in this way: to control, record or launch one of exactly that capability on exactly that scope; to observe one of observing, controlling or recording that scope, or of observing the workspace the window is on. |
| `ProtocolProvenance.ApprovalSuffices` | internal/app/broker.go:147-172 | Conversely every such grant that is there and unexpired is enough, while a console is connected and nothing is paused or unconfirmed. |
| `ProtocolProvenance.SharedAsSeen` | internal/app/sharing.go:113-139 | A proactive share commits on the window that was picked, with the geometry it was picked with, shown and not an X11 one. |
| `ProtocolLeases.GrantHasLease` | internal/app/broker.go:268-284 | A control grant still present has its lease, for its whole duration from the authorization, if and only if since then the guard has not dropped it by itself and no guard-wide clear took effect; none can before the commit. |
| `ProtocolLeases.ClearWasDue` | internal/app/broker.go:319-352 | A clear that takes effect while the grant is present was owed by an operation when the grant committed, or comes from maintenance since that found an expired control grant. |
| `ProtocolLeases.WhyNoLease` | internal/app/broker.go:481-504 | So a control grant without its lease has one of three causes: the guard dropped it by itself, a clear was owed when it committed, or another control grant expired since. |
| `ProtocolLeases.ClearOvertaken` | internal/app/broker.go:338-352 | A run without expiry or lost replies ends with nothing in flight and a control grant without a lease: a clear was queued, and a later decision reached the guard first. |
| `ProtocolLeases.NeighbourExpires` | internal/app/broker.go:481-504 | Another run ends so because a second control grant expired. |
| `ProtocolLeases.SeparateRun` | internal/app/broker.go:297-318 | Along any run no revocation is due for a grant that is present or about to be committed. |
| `ProtocolRuns.RequestsSettleOnce` | internal/app/broker.go:230-236 | Along any run a request that is no longer pending never is again, and its state never changes. |
| `ProtocolRuns.OneInputInFlight` | internal/app/desktop.go:450-451 | Over all clients at most one input transaction has passed its check and is unanswered. |
| `ProtocolRuns.PauseStopsInput` | internal/app/broker.go:579-591 | From a pause or the loss of the last console until a resume no input passes its check, and at most one that already had is delivered. |
| `ProtocolRuns.ClearInPauseStopsAll` | internal/app/broker.go:579-591 | Once a guard-wide clear has taken effect in a pause, no input at all is delivered until a resume. |
| `ProtocolRuns.ConfirmedPauseStopsAll` | internal/app/broker.go:709-734 | Hence none from the moment the pause's own clear is recorded as confirmed. |
| `ProtocolRuns.CheckAfterPauseNeedsResume` | internal/app/desktop.go:482-495 | An input check that passes after a pause comes after a resume, with a console connected and every revocation confirmed. |
| `ProtocolSafety.LeaseInvStep` | internal/app/desktop.go:462-481 | Every step of every operation keeps the lease invariant, whatever happens to its guard call. |
| `ProtocolHistory.CommitUndisturbed` | internal/app/broker.go:276-284 | The recheck is enough: an unchanged counter and a pending request or connected client exclude every disturbance since the snapshot. |
| `ProtocolHistory.CommitsCommits` | internal/app/broker.go:276-284 | The committing step adds one grant, new in identifier and origin. |
| `ProtocolHistory.ProtocolInvStep` | internal/app/broker.go:224-390 | Every step keeps the lease invariant and the history invariant together. |
| `BrokerObject.Broker.AllowedLocked` | internal/app/broker.go:147-172 | The search answers yes in yolo mode and otherwise under an unexpired grant of the client: of this capability and scope, or for observing of any but launching, on this scope or the window's workspace; and no only when there is none, or sharing is closed. |
| `BrokerObject.Broker.Permit` | internal/app/broker.go:173-223 | Each answer and each refusal is given exactly in its case, stated in the fields of grants and requests; only a new ask changes the state. |
| `BrokerObject.Broker.Deny` | internal/app/broker.go:231-236 | A denial settles a pending request and nothing else. |
| `BrokerObject.Broker.DecideOpen` | internal/app/broker.go:226-247 | A decision may start exactly on a pending request, in open approve mode, for 1 to 3600 seconds; it remembers the request, the counter and the expiry. |
| `BrokerObject.Broker.DecideCommit` | internal/app/broker.go:276-284 | The recheck section commits exactly when the snapshot still stands. |
| `BrokerObject.Broker.RevokeLocked` | internal/app/broker.go:297-306 | Revoking removes the one grant and moves the authority counter. |
| `BrokerObject.Broker.ClearLocked` | internal/app/broker.go:319-337 | Clearing drops every grant and the picker, cancels every pending request, and reports whether a control grant was dropped. |
| `BrokerObject.Broker.Disconnect` | internal/app/broker.go:353-390 | A disconnect withdraws all of the client and returns exactly its control tokens. |
| `BrokerObject.Broker.Expire` | internal/app/broker.go:481-500 | A maintenance pass removes exactly what has expired, and reports whether control did. |
| `BrokerObject.Broker.BeginShare` | internal/app/sharing.go:24-75 | A picker opens exactly when sharing is open and some window can be shared; it is addressed as asked, or to the only client, and offers exactly the shareable windows. |
| `BrokerObject.Broker.SelectOpen` | internal/app/sharing.go:77-112 | A selection may start exactly from the current unexpired picker, for its recipient, on a window it offers. |
| `BrokerObject.Broker.SelectCommit` | internal/app/sharing.go:133-150 | The recheck section of a selection grants, answers every pending request of the client for the shared window that the grant covers, and spends the picker. |
| `BrokerObject.Broker.ConsoleDetach` | internal/app/broker.go:513-523 | The loss of the last console pauses and clears. |
| `BrokerObject.Broker.SetPaused` | internal/app/broker.go:579-591 | Pausing clears; resuming moves the authority counter. |
| `BrokerObject.Broker.SetMode` | internal/app/broker.go:592-600 | A mode change clears first. |
| `BrokerObject.Broker.RecordCleanup` | internal/app/broker.go:709-734 | A failed cleanup is remembered and scheduled; a confirmed clear settles all of them. |
| `BrokerObject.Broker.DueRetries` | internal/app/broker.go:735-752 | Due retries are all unconfirmed calls, each once. |
| `BrokerSteps.Permit` | internal/app/broker.go:173-223 | On an object in the protocol's broker state the permission check records a request exactly when the protocol's step is enabled, and leaves the step's state. |
| `BrokerSteps.DecideOpen` | internal/app/broker.go:226-247 | Likewise a decision opens exactly when its step is enabled, and the operation in flight is what the section remembered. |
| `BrokerSteps.DecideCommit` | internal/app/broker.go:276-293 | The recheck leaves the commit step's state; a commit is one entry in the history, and a refused one owes the lease's revocation, when there is one, before the lock is given back. |
| `BrokerSteps.SelectCommit` | internal/app/sharing.go:133-158 | The same of a selection. |
| `BrokerSteps.Disconnect` | internal/app/broker.go:353-390 | A disconnect is the protocol's step with its control tokens in any order, each of which is revoked at the guard. |
| `BrokerSteps.Maintain` | internal/app/broker.go:481-504 | Maintenance is the protocol's step, and owes a clear exactly when control expired. |
| `BrokerSteps.Sweep` | internal/app/broker.go:735-752 | A retry that is due repeats all unconfirmed calls; one that is not ends the pass. |
| `BrokerSteps.Check` | internal/app/desktop.go:482-495 | The check before a delivery passes exactly when the protocol's does. |
| `Guard.LeaseTable.Expire` | native/guard.cpp:94-103 | A lease stays exactly when the session is unlocked, its time has not come and its window is mapped with the same surface. |
| `Guard.LeaseTable.Execute` | native/guard.cpp:108-213 | Each operation on the lease table is answered exactly in its case and leaves exactly its table; whatever the call, a locked session leaves no lease and admits neither lease nor input, and a lease the call does not concern survives exactly on those terms. |
| `Guard.CleanupRefinesProtocol` | native/guard.cpp:160-179 | A revoke or clear at the guard has the effect the protocol assumes, on windows and times, after dropping only dead leases. |
| `Guard.AuthorizeRefinesProtocol` | native/guard.cpp:180-197 | An authorize adds exactly the lease the protocol assumes, for that window and time, or nothing. |
| `Guard.DeliveryRefinesProtocol` | native/guard.cpp:198-213 | Supporting fact: input is admitted only under a lease in the table whose time has not come, and reaches that lease's window. |
| `SurfaceRouting.SurfaceDescends` | native/surface_routing.hpp:29-42 | The bounded ancestor loop is exact on every list, parent cycles included: true if and only if following parents reaches the ancestor. |
| `SurfaceRouting.FirstArrivalBounded` | native/surface_routing.hpp:29-42 | A first arrival needs at most one step per node, so the cut-off loses no real ancestor. |
| `SurfaceRouting.DescendsIsMembership` | native/surface_routing.hpp:29-42 | In a discovered list a surface descends from another exactly when it lies in its tree. |
| `SurfaceRouting.HitSurfaceTree` | native/surface_routing.hpp:46-58 | The backward scan returns the topmost accepting descendant of the selected surface, or none. |
| `SurfaceRouting.HitTreeIsList` | native/surface_routing.hpp:43-58 | The recursive front-to-back traversal of a tree takes the topmost acceptor of its flat list. |
| `SurfaceRouting.FlatScanRefinesTraversal` | native/surface_routing.hpp:43-58 | For every forest and selected node the flat scan gives the surface and local point of the recursive traversal, and none exactly when nothing in the tree accepts. |
| `SurfacePaths.PlanSurfacePath` | native/surface_routing.hpp:67-89 | A segment is planned exactly when both ends are inside and all samples land on one surface of the tree; it then holds every sample's local point. |
| `SurfacePaths.PlanSurfacePolyline` | native/surface_routing.hpp:91-109 | A polyline is refused or yields 20*(k-1)+1 points, at most 1261, all on one surface; refusal means no surface takes it all. |
| `SurfacePaths.WaypointsInPlace` | native/surface_routing.hpp:98-107 | Waypoint i is resolved at index 20*i, joints are not repeated, and every sample is inside the bounds. |
| `SurfacePaths.EvenlySpaced` | native/surface_routing.hpp:72-79 | Consecutive samples are one equal step apart, from the start to the end. |
| `SurfaceTree.Walker.Walk` | native/surface_tree.hpp:48-80 | The walk with shared counters succeeds exactly when the unfolding does, with every surface new and the visit limit kept, and appends its flat list. |
| `SurfaceTree.Walker.Children` | native/surface_tree.hpp:66-79 | One side of the subsurfaces, in list order, on the same terms. |
| `SurfaceTree.MappedPopupAncestry` | native/surface_tree.hpp:19-35 | A popup's ancestry is mapped exactly when the root is within 32 mapped parents, on any objects; cycles end the search. |
| `SurfaceTree.WindowSurfaceTree` | native/surface_tree.hpp:37-108 | Discovery on any object graph, cyclic ones too, with every popup's ancestry looked up in it, succeeds exactly when the window's forest unfolds within the limits without a repeated surface, and returns its flat list. |
| `SurfaceTree.SelectWindowSurface` | native/surface_tree.hpp:113-131 | A node is selected exactly when it is the wanted surface and its revision matches. |
| `SurfaceTree.EmittedListSound` | native/surface_tree.hpp:48-106 | A returned list has at most 128 distinct surfaces, closed and acyclic parent chains, and every node is a base or hangs at the compositor's offset, below or above as its stacking sign says. |
| `SurfaceDiscovery.NothingLeftOut` | native/surface_tree.hpp:37-108 | A returned list is complete: it has the toplevel, every popup that shows and whose ancestry is mapped, and below each of its surfaces everything that shows, each where the compositor puts it; and nothing but mapped, good surfaces of the client. |
| `SurfaceDiscovery.RefusedForCause` | native/surface_tree.hpp:37-108 | Discovery succeeds exactly when the toplevel shows, no popup that takes part is another window's, no chain of live references from a base leads too deep or to a surface of another client, without size, with too many or with borrowed references, no surface is met twice, and bases and references are at most 128. |
| `SurfacePlacement.OffsetIsChainSum` | native/surface_tree.hpp:48-106 | Every surface of a discovered window stands at its base's offset plus the sum of the compositor's positions along its whole chain of parents. |
| `SurfacePlacement.SubtreeOrder` | native/surface_tree.hpp:66-79 | Everything that descends from a child, at any depth, precedes the parent when the child's stacking index is negative and follows it otherwise. |
| `SurfaceTree.SelectedHit` | native/surface_tree.hpp:113-131 | Discovery, selection and hit testing together: for any node of a discovered window the scan answers as the traversal of its tree. |
| `SurfaceHandles.SurfaceHandles.Identify` | native/surface_routing.hpp:121-134 | Dead entries go, a live pair keeps its name, and a new one is minted below the limit of 4096. |
| `SurfaceHandles.SurfaceHandles.Resolve` | native/surface_routing.hpp:135-143 | A name resolves only under its live root to a live surface of the current tree. |
| `SurfaceHandles.NamesAreFaithful` | native/surface_routing.hpp:121-134 | Along any run of births, deaths and requests a name is never given to another pair, and a live pair gets no other name. |
| `SurfaceHandles.NamesResolve` | native/surface_routing.hpp:135-143 | A given name resolves exactly under its root, while its surface lives and is in the tree, and to that surface. |
| `SurfaceHandles.ResolvedWasMinted` | native/surface_routing.hpp:135-143 | Whatever resolves was minted earlier for that very pair. |
| `SurfaceHandles.TableBounded` | native/surface_routing.hpp:129-133 | The table never holds more than 4096 entries. |
| `OAuth.OAuthProvider.CleanupLocked` | internal/app/oauth.go:232-254 | Exactly the unexpired entries of all four tables stay. |
| `OAuth.OAuthProvider.AuthorizeOpen` | internal/app/oauth.go:360-411 | An authorization request passes exactly on a registered redirect, this resource, the scope and an S256 challenge. |
| `OAuth.OAuthProvider.AuthorizeCommit` | internal/app/oauth.go:422-430 | A pending authorization is entered below the limit. |
| `OAuth.OAuthProvider.Decide` | internal/app/oauth.go:478-501 | A local decision is taken once, and an approval makes one code. |
| `OAuth.OAuthProvider.ContinueAuth` | internal/app/oauth.go:443-477 | The outcome goes to the browser with the cookie and leaves the table. |
| `OAuth.OAuthProvider.Token` | internal/app/oauth.go:531-610 | A code is exchanged exactly for its client, redirect, resource and challenge, within the token limit, and is gone. |
| `OAuth.OAuthProvider.RefreshToken` | internal/app/oauth_refresh.go:10-68 | A refresh rotates an unused token, refuses or reports a replay, each exactly in its case. |
| `OAuth.OAuthProvider.Verify` | internal/app/oauth.go:611-619 | A token verifies exactly while it is in the table, unexpired and for this resource. |
| `OAuth.OAuthProvider.RevokeConnection` | internal/app/oauth.go:620-636 | Revocation removes every entry of the connection and no other. |
| `OAuth.OAuthProvider.RevokeToken` | internal/app/oauth.go:637-661 | A client names for revocation the connection of its own access or refresh token, used or not, and no other. |
| `OAuth.OAuthProvider.State` | internal/app/oauth.go:662-683 | The console sees the undecided authorizations, and one record for each connection with a token. |
| `OAuthRuns.StepInv` | internal/app/oauth.go:554-604 | Every section keeps the invariant of families, twins, provenance and limits. |
| `OAuthSafety.FamilyShape` | internal/app/oauth_refresh.go:23-66 | In every reachable state all entries of a connection carry the identical record, a family that refreshes has as many access tokens as refresh entries, and exactly one of those is unused (rotation as in section 4.14.2 of RFC 9700). |
| `OAuthSafety.RefreshWithinTokens` | internal/app/oauth.go:565-604 | The refresh table is never larger than the token table, nor that than 256, although the exchange never checks the refresh table: its limit of 1024 never fires. |
| `OAuthSafety.RevokedForGood` | internal/app/oauth.go:620-632 | After a revocation nothing of the connection verifies, can be refreshed or reappears in any continuation. |
| `OAuthSafety.ReplayEndsFamily` | internal/app/oauth_refresh.go:32-38 | From the replay of a used refresh token on, either its revocation is still due or the family is gone for good, whatever rotations came in between. |
| `OAuthSafety.AskedEndsFamily` | internal/app/oauth.go:648-658 | The same when a client asks to revoke an access or refresh token it holds (section 2.1 of RFC 7009). |
| `OAuthSafety.OthersNotRevoked` | internal/app/oauth.go:648-658 | Conversely, when neither table has such an entry of this client's, the request changes nothing at all. |
| `OAuthSafety.ConnectionTraced` | internal/app/oauth.go:478-501 | Every token that verifies traces, through any refreshes, to one approval and one later exchange of its code for the approved client, redirect and challenge, and only strictly before the approval plus 61 minutes (section 4.1.2 of RFC 6749, section 4.6 of RFC 7636). |
| `OAuthSafety.CodeExchangedOnce` | internal/app/oauth.go:595-600 | No code is exchanged twice in a run. |
| `OAuthSafety.AskApprovedOnce` | internal/app/oauth.go:482-499 | No authorization is approved twice in a run. |
| `OAuthSafety.OutcomeDeliveredOnce` | internal/app/oauth.go:449-461 | The outcome of an authorization leaves once, and only for the holder of its cookie. |
| `RateLimit.RateLimiter.Admit` | internal/app/oauth.go:695-719 | One request: expired windows go, a full table refuses a new key, and the count decides. |
| `RateLimit.TableBounded` | internal/app/oauth.go:702-711 | At most 1024 entries at any time. |
| `RateLimit.OneWindowLimit` | internal/app/oauth.go:712-717 | In any order of readings, while one window of a key stays in the table it lets no more than the limit through. |
| `RateLimit.StretchLimit` | internal/app/oauth.go:695-719 | Of requests that enter one after the other with readings, in any order, less than a minute apart, at most 2*limit-1 of a key go through. |
| `RateLimitOrder.LessThanTwiceTheLimit` | internal/app/oauth.go:695-719 | For every sequence of readings in the order of entry: all runs with them let at most 2*limit-1 requests of a key through in every minute of readings, counted over the whole run, if and only if no two readings less than a minute apart have one between them that is a minute or more after the first. |
| `RateLimitOrder.WindowLimit` | internal/app/oauth.go:712-717 | All runs with these readings let at most the limit through in the windows of a key begun at one reading, if and only if no reading that comes again has one between that is a minute or more after it. |
| `RateLimitOrder.OrderedKeepsBounds` | internal/app/oauth.go:695-719 | So both hold when requests enter in clock order. |
| `RateLimitOrder.LateEntryBreaksBounds` | internal/app/oauth.go:697-699 | And a race of a nanosecond around the end of a minute breaks the first; an equal reading a minute overtaken breaks the second. |
| `RateLimit.BoundReached` | internal/app/oauth.go:712-717 | That bound is reached. |
| `InputTransactions.InputTransaction.BorrowKeyboard` | native/input_transaction.hpp:104-116 | A borrowed keyboard is focused on the target, or the exception leaves the transaction restorable. |
| `InputTransactions.InputTransaction.InstallTargetKeymap` | native/input_transaction.hpp:120-130 | The text map goes to the target's keyboard objects and to no other. |
| `InputTransactions.InputTransaction.Key` | native/input_transaction.hpp:132-141 | One press under the given modifiers; what may be held is remembered. |
| `InputTransactions.InputTransaction.BorrowPointer` | native/input_transaction.hpp:143-162 | The pointer is on the target with the agent's device and the target's client has a pointer object, or the exception leaves the transaction restorable. |
| `InputTransactions.InputTransaction.Button` | native/input_transaction.hpp:168-177 | A button that may be down is remembered until its release came back. |
| `InputTransactions.InputTransaction.RestoreKeymaps` | native/input_transaction.hpp:193-196 | Every touched keyboard object gets the seat's own keymap back, or the fault is set. |
| `InputTransactions.InputTransaction.Restore` | native/input_transaction.hpp:179-228 | For any pattern of throwing calls, keyboard, mouse, both focuses, cursor, modifiers and keymaps are as found and nothing is left pressed, or the fault is set; it is set only if a call threw, the cursor moved or a surface is half dead. |
| `InputOperations.Begin` | native/input_transaction.hpp:66-102 | A transaction begins exactly when the seat is idle and fault-free and its geometry is known. |
| `InputOperations.KeyTransaction` | native/guard.cpp:248-254 | It takes place exactly when there is an agent and the seat is idle and fault-free with a keyboard; one key on the target, with the seat given back or the fault set; without an exception it fails only when the target is gone or deaf, or a surface with the focus is half dead. |
| `InputOperations.TextTransaction` | native/text_transaction.hpp:13-31 | It takes place exactly when, besides, the characters are acceptable and their keymap was made, and fails only so; the keys that came back are counted; the presses sent are that many or one more, each to the target under the chunk's keymap. |
| `InputOperations.PointerGesture` | native/pointer_gesture.hpp:9-46 | Without an exception exactly the gesture's events are sent, to the target under the given modifiers; after one a front of them and at most the owed release, and nothing stays pressed or the fault is set. |
| `InputOperations.GestureInOrder` | native/pointer_gesture.hpp:15-28 | Event by event: first point; press and release for each click; press, the rest of the path, release for a drag; the scrolls. |
| `InputOperations.PointerTransaction` | native/guard.cpp:361-402 | A gesture with the seat given back or the fault set, and no event left without its frame; it takes place exactly when a pointer transaction may begin, and without an exception fails only for a named cause. |
| `InputOperations.Operate` | native/input_transaction.hpp:10-15 | Any operations in any order: no text map ever is the seat's keyboard, which only ever changes while no surface has the keyboard focus; and from the first operation that ends with the fault set the seat stays as it is. |
| `TextInput.ValidateText` | internal/app/text.go:14-24 | Text is accepted exactly when it is valid UTF-8 without refused controls. |
| `TextInput.SameCharacters` | native/text_keymap.hpp:19-28 | Supporting fact: the guard has a keysym for exactly the characters the broker accepts. |
| `TextInput.KeysymRoundTrip` | native/text_keymap.hpp:19-28 | A client reads the character back from its keysym. |
| `TextInput.TextKeymap` | native/text_keymap.hpp:29-48 | A keymap is made for exactly the acceptable chunks. |
| `TextInput.KeymapRoundTrip` | native/text_keymap.hpp:14-48 | Each key position of a chunk's keymap types its own character, and no other key types anything. |
| `TextInput.PrintablePositions` | native/text_keymap.hpp:12-18 | Supporting fact: only printable positions are used, no modifier, editing or function key. |
| `TextInput.EveryChunkAccepted` | internal/app/desktop.go:556-558 | Every chunk of an accepted text is acceptable to the guard. |
| `TextDelivery.ReadReply` | internal/app/desktop.go:124-138 | A progress reply is believed exactly when its count is possible and agrees with its verdict. |
| `TextDelivery.DeliverText` | internal/app/desktop.go:554-574 | What was sent always spells a prefix of the text on every keyboard of the target, every chunk of it checked; with a reply the reported count is that length or one less, and a lost reply hides at most 48 more; when nothing is withheld, lost or disturbed the whole text is typed. |
| `TextDelivery.PerformAll` | internal/app/desktop.go:510-576 | A batch of focus, pointer, key and text actions stops at its first failure: the key presses and pointer events sent are, in order, those of the actions before it, each carried out whole, and then what went out of the failed one, of a text within a chunk of the reported characters; none after it was begun. When nothing is withheld, lost or disturbed all are carried out. |
| `Wayland.WlWords` | internal/app/keyboard.go:219-225 | The buffer holds the words in the machine's byte order. |
| `Wayland.WriteString` | internal/app/keyboard.go:226-231 | The buffer holds length, string, terminator and padding. |
| `Wayland.StringBytes` | internal/app/keyboard.go:226-231 | Whole words: the length with the terminator, the string, and one to four zeros. |
| `Wayland.Connection.Request` | internal/app/keyboard.go:232-245 | On a socket that may take any part or fail, a request reports success exactly when its arguments are whole words of at most 65524 bytes and the message went out whole without an error; otherwise a front of it did, or nothing. |
| `Wayland.Connection.ReadEvent` | internal/app/keyboard.go:246-259 | A message is read off the front of the stream, and the rest stays. |
| `Wayland.WordRoundTrip` | internal/app/keyboard.go:219-225 | Words and bytes determine each other, in both byte orders. |
| `Wayland.WireLayout` | internal/app/keyboard.go:232-239 | Byte by byte: the object, the opcode in the lower and the size in the upper half of the second word, the arguments; each word reversed on a big-endian machine. |
| `Wayland.ReadsWhatIsWritten` | internal/app/keyboard.go:232-259 | The reader accepts exactly what the writer can have written, for nonzero objects. |
| `Wayland.StreamRoundTrip` | internal/app/keyboard.go:232-259 | Any sequence of messages decodes to itself. |
| `Wayland.CutStreamIsRefused` | internal/app/keyboard.go:240-259 | A stream that ends in a message cut short is refused, whatever came before. |
| `Wayland.StringLayout` | internal/app/keyboard.go:260-270 | The string reader accepts exactly length, string, terminator and any padding. |
| `Wayland.StringRoundTrip` | internal/app/keyboard.go:226-270 | A written string with anything after it reads back exactly when its length with the terminator is below 2^32. |
| `Capture.BoundsInside` | internal/app/capture_options.go:24-57 | Supporting fact: the limits are at most 1920, and a region is accepted exactly when it is valid and inside the window. |
| `Capture.CropIsFaithful` | internal/app/capture_options.go:78-93 | For a window with an area, which the only caller has checked (internal/app/desktop.go:173): output at least 1x1, within the limits, and as large as they and a magnification of four, or of one without a region, allow: no scale that fits gives a pixel more; every sampled index in the buffer, its pixel containing the point that the reported transform gives for the output pixel's centre, strictly inside the region. |
| `Capture.ScaleLargest` | internal/app/capture_options.go:78-85 | A scale keeps both limits and magnifies the buffer at most four times, or once without a region, if and only if it is at most the one that is used. |
| `Capture.CropImage` | internal/app/capture_options.go:62-93 | On the same terms the crop succeeds exactly within its budget, is the largest that fits, and every output pixel shows the buffer pixel that contains its centre. |
| `Capture.CaptureWithOptions` | internal/app/desktop.go:172-217 | A capture gives an image within the limits exactly when nothing refuses it, windows without an area included: the shot itself when it fits, otherwise its largest faithful crop. |

## Left out

- Sockets, files, processes, PNG coding, shared memory and file-descriptor passing: results are arguments or choices.
- JSON, HTTP routing, cookies beyond their secret, HTML, URL and metadata checks, client registration and client authentication: a handler starts from a parsed form and an authenticated client.
- UTF-8 decoding: text is a sequence of scalar values and a validity flag.
- The XKB text of a keymap: a keymap is its entries, and decoding follows the keysym tables for Return, Tab, Latin-1 and the Unicode range.
- Several clock readings inside one critical section, or between the checks and the issue of a token: one reading each.
- Pointer identity of requests and pickers: identifiers, which are never reused, stand for it.
- Labels, audit entries, recordings, the counters that open the console, and the order in which the console lists things.
- Window and mode lookups of the backend: any answer is possible where the code asks.
- The guard's limits on token length and its peer checks.
- `isfinite` checks and floating-point rounding: coordinates are reals; `hit` and `accepts` are functions.
- Which keyboards count as the broker's own, and the loops over devices that establish idleness: an agent device and a busy flag are arguments.
- The independent seat and popup hook, which depend on private compositor interfaces: the guard is modelled in its fallback build.
- Surface revision strings: a revision is the offset and size it prints.
- Image pixels: a buffer is an array of numbers; the encoded size limit is not modelled.
- Setup, tray, console, installer and release scripts, and the US key table: finite cases without a protocol.
- Fairness: that what can go on does go on; the two broker mutexes only serialize.
- Guard.LeaseTable.Execute: the input operations after the lease lookup are one `Deliver`, because InputOperations.dfy models them on the seat.
- InputOperations.PointerTransaction: the path is given, because SurfacePaths.dfy plans it.
- TextDelivery.PerformAll: a gesture's surface and path are given, because SurfacePaths.dfy plans them; how far a failed gesture got is not stated, and where an explicit activation moves the focus is the compositor's choice.
- Compositor.Seat: the keyboard and pointer objects that clients have bound do not change, so all chunks of a text go to the same objects of its client.

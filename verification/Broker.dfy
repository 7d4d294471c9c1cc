/** The broker object. Each method is one critical section under the broker's lock and is
    proved to change the object exactly as its specification in BrokerModel.dfy says. */
module BrokerObject {
  import opened Common
  import opened BrokerModel

  class Broker {
    var mode: Mode
    var paused: bool
    var consoles: nat
    var authority: nat
    var clients: set<Id>
    var requests: map<Id, Request>
    var grants: map<Id, Grant>
    var picker: Option<Picker>
    var unconfirmed: set<Cleanup>
    var nextRetry: Time

    function View(): BrokerState
      reads this
    {
      BrokerState(mode, paused, consoles, authority, clients, requests, grants, picker, unconfirmed, nextRetry)
    }

    constructor ()
      ensures View() == INITIAL
    {
      mode, paused, consoles, authority := Approve, false, 0, 0;
      clients, requests, grants, picker := {}, map[], map[], None;
      unconfirmed, nextRetry := {}, 0;
    }

    method AllowedLocked(now: Time, client: Id, cap: Capability, scope: Scope, w: Option<Window>)
      returns (grant: Option<Id>, ok: bool)
      ensures ok == Allowed(View(), now, client, cap, scope, w)
      ensures grant.Some? ==> ok && Covers(View(), now, grant.value, client, cap, scope, w)
      ensures ok && mode == Approve ==> grant.Some?
      ensures ok && mode == Yolo ==> grant == None
      // who is let through, and under which grants
      ensures ok ==> !paused && consoles > 0 && unconfirmed == {}
      ensures grant.Some? ==>
        grant.value in grants && now < grants[grant.value].expires && grants[grant.value].client == client
      ensures grant.Some? && cap != Observe ==> grants[grant.value].capability == cap && grants[grant.value].scope == scope
      ensures grant.Some? && cap == Observe ==>
        && grants[grant.value].capability != Launch
        && (grants[grant.value].scope == scope
            || (w.Some? && scope.kind == WindowKind && grants[grant.value].scope == Scope(WorkspaceKind, w.value.workspace)))
      ensures !paused && consoles > 0 && unconfirmed == {} && mode == Yolo ==> ok
      ensures !paused && consoles > 0 && unconfirmed == {} ==> forall id ::
        (&& id in grants && now < grants[id].expires && grants[id].client == client && grants[id].scope == scope
         && (grants[id].capability == cap || (cap == Observe && grants[id].capability != Launch))) ==> ok
      ensures !paused && consoles > 0 && unconfirmed == {} && cap == Observe && scope.kind == WindowKind && w.Some? ==> forall id ::
        (&& id in grants && now < grants[id].expires && grants[id].client == client && grants[id].capability != Launch
         && grants[id].scope == Scope(WorkspaceKind, w.value.workspace)) ==> ok
    {
      grant := None;
      if paused || consoles == 0 || |unconfirmed| > 0 {
        return None, false;
      }
      if mode == Yolo {
        return None, true;
      }
      var rest := grants.Keys;
      while rest != {}
        invariant rest <= grants.Keys
        invariant forall id :: id in grants && id !in rest ==> !Covers(View(), now, id, client, cap, scope, w)
        decreases rest
      {
        var id :| id in rest;
        if now < grants[id].expires && GrantMatches(grants[id], client, cap, scope, w) {
          assert Covers(View(), now, id, client, cap, scope, w);
          return Some(id), true;
        }
        rest := rest - {id};
      }
      return None, false;
    }

    method FindPending(client: Id, cap: Capability, scope: Scope) returns (found: Option<Id>)
      ensures found.Some? ==> found.value in requests && SameAsk(requests[found.value], client, cap, scope)
      ensures found == None ==> forall id :: id in requests ==> !SameAsk(requests[id], client, cap, scope)
    {
      var rest := requests.Keys;
      while rest != {}
        invariant rest <= requests.Keys
        invariant forall id :: id in requests && id !in rest ==> !SameAsk(requests[id], client, cap, scope)
        decreases rest
      {
        var id :| id in rest;
        if SameAsk(requests[id], client, cap, scope) {
          return Some(id);
        }
        rest := rest - {id};
      }
      return None;
    }

    method Permit(now: Time, client: Id, cap: Capability, scope: Scope, w: Option<Window>, entropy: Option<Id>)
      returns (answer: Answer)
      modifies this`requests
      ensures Answers(old(View()), now, client, cap, scope, w, entropy, answer, View())
      // each refusal, in the order they are looked for
      ensures answer == BadScope <==>
        || |scope.id| == 0 || |scope.id| > 80
        || (scope.kind == ApplicationKind) != (cap == Launch)
        || (scope.kind == WorkspaceKind && cap != Observe)
      ensures answer != BadScope ==>
        && (answer == Unsupervised <==> consoles == 0)
        && (answer == PausedByUser <==> consoles > 0 && paused)
        && (answer == RevocationUnconfirmed <==> consoles > 0 && !paused && unconfirmed != {})
      // what is permitted, and under which grant
      ensures answer.Permitted? && mode == Approve ==>
        && answer.grant.Some? && answer.grant.value in grants
        && var g := grants[answer.grant.value];
           && now < g.expires && g.client == client
           && (cap != Observe ==> g.capability == cap && g.scope == scope)
           && (cap == Observe ==>
                 && g.capability != Launch
                 && (g.scope == scope || (w.Some? && scope.kind == WindowKind && g.scope == Scope(WorkspaceKind, w.value.workspace))))
      ensures answer.TooManyRequests? || answer.NoEntropy? || answer.ApprovalRequired? ==> mode == Approve && forall id ::
        id in grants && now < grants[id].expires && grants[id].client == client ==>
        && (grants[id].scope == scope ==> grants[id].capability != cap && (cap == Observe ==> grants[id].capability == Launch))
        && (cap == Observe && scope.kind == WindowKind && w.Some? && grants[id].scope == Scope(WorkspaceKind, w.value.workspace)
            ==> grants[id].capability == Launch)
      // a repeated ask gets its old answer, a new one is recorded while there is room
      ensures answer.ApprovalRequired? ==>
        && answer.request in requests && requests[answer.request].client == client && requests[answer.request].capability == cap
        && requests[answer.request].scope == scope && requests[answer.request].state == Pending
      ensures requests != old(requests) ==>
        && answer.ApprovalRequired? && entropy == Some(answer.request) && |old(requests)| < 100
        && requests == old(requests)[answer.request := Request(client, cap, scope, Pending, now)]
      ensures (answer.TooManyRequests? ==> |requests| >= 100) && (answer.NoEntropy? ==> entropy == None && |requests| < 100)
      ensures answer.TooManyRequests? || answer.NoEntropy? || requests != old(requests) ==> forall id ::
        (&& id in old(requests) && old(requests)[id].client == client && old(requests)[id].capability == cap
         && old(requests)[id].scope == scope) ==> old(requests)[id].state != Pending
    {
      if !ValidScope(cap, scope) { return BadScope; }
      if consoles == 0 { return Unsupervised; }
      if paused { return PausedByUser; }
      if |unconfirmed| > 0 { return RevocationUnconfirmed; }
      var grant, ok := AllowedLocked(now, client, cap, scope, w);
      if ok { return Permitted(grant); }
      answer := Enqueue(now, client, cap, scope, entropy);
    }

    /** The last part of a permission check: the pending request for this, or a new one. */
    method Enqueue(now: Time, client: Id, cap: Capability, scope: Scope, entropy: Option<Id>) returns (answer: Answer)
      modifies this`requests
      ensures answer.ApprovalRequired? || answer == TooManyRequests || answer == NoEntropy
      ensures answer.ApprovalRequired? ==> answer.request in requests && SameAsk(requests[answer.request], client, cap, scope)
      ensures answer == TooManyRequests ==> |requests| >= 100
      ensures answer == NoEntropy ==> entropy == None && |requests| < 100
      ensures AlreadyAsked(old(View()), client, cap, scope) ==> answer.ApprovalRequired? && requests == old(requests)
      ensures !AlreadyAsked(old(View()), client, cap, scope) ==>
        if answer.ApprovalRequired?
        then && |old(requests)| < 100 && entropy == Some(answer.request)
             && requests == old(requests)[answer.request := Request(client, cap, scope, Pending, now)]
        else requests == old(requests)
    {
      var found := FindPending(client, cap, scope);
      if found.Some? { return ApprovalRequired(found.value); }
      if |requests| >= MAX_REQUESTS { return TooManyRequests; }
      if entropy == None { return NoEntropy; }
      requests := requests[entropy.value := Request(client, cap, scope, Pending, now)];
      return ApprovalRequired(entropy.value);
    }

    // ---------------------------------------------------------------- decide

    method Deny(id: Id) returns (ok: bool)
      modifies this`requests
      ensures ok == IsPending(old(View()), id)
      ensures View() == if ok then WithVerdict(old(View()), id, Denied) else old(View())
      ensures ok <==> id in old(requests) && old(requests)[id].state == Pending
      ensures requests == if ok then old(requests)[id := old(requests)[id].(state := Denied)] else old(requests)
    {
      if id !in requests || requests[id].state != Pending { return false; }
      requests := requests[id := requests[id].(state := Denied)];
      return true;
    }

    /** The first critical section of an approval: what it remembers for the recheck. */
    method DecideOpen(now: Time, id: Id, seconds: int)
      returns (ok: bool, request: Option<Request>, snapshot: nat, expires: Time)
      ensures ok == MayDecide(View(), id, seconds)
      ensures ok <==>
        && id in requests && requests[id].state == Pending && !paused && consoles > 0 && unconfirmed == {} && mode == Approve
        && 1 <= seconds <= 3600
      ensures ok ==> request == Some(requests[id]) && snapshot == authority && expires == now + seconds * SECOND
    {
      request, snapshot, expires := None, authority, now + seconds * SECOND;
      if id !in requests || requests[id].state != Pending { return false, request, snapshot, expires; }
      if paused || consoles == 0 || mode != Approve || |unconfirmed| > 0 { return false, request, snapshot, expires; }
      if seconds < 1 || seconds > 3600 { return false, request, snapshot, expires; }
      return true, Some(requests[id]), snapshot, expires;
    }

    method DecideCommit(now: Time, id: Id, g: Grant, snapshot: nat) returns (ok: bool)
      modifies this`requests, this`grants
      ensures ok == DecisionStands(old(View()), now, id, snapshot, g.expires)
      ensures View() == if ok then WithDecision(old(View()), id, g) else old(View())
      ensures ok <==>
        && id in old(requests) && old(requests)[id].state == Pending && authority == snapshot && !paused
        && consoles > 0 && unconfirmed == {} && mode == Approve && now < g.expires
      ensures grants == if ok then old(grants)[g.id := g] else old(grants)
      ensures requests == if ok then old(requests)[id := old(requests)[id].(state := Granted)] else old(requests)
    {
      ok := && id in requests && requests[id].state == Pending && authority == snapshot && !paused
            && |unconfirmed| == 0 && consoles > 0 && mode == Approve && now < g.expires;
      if ok {
        grants := grants[g.id := g];
        requests := requests[id := requests[id].(state := Granted)];
      }
    }

    // ---------------------------------------------------------------- revoke

    method RevokeLocked(id: Id) returns (revoked: Option<Grant>)
      modifies this`grants, this`authority
      ensures View() == Without(old(View()), id)
      ensures revoked == if id in old(grants) then Some(old(grants)[id]) else None
      ensures grants == old(grants) - {id} && authority == old(authority) + (if id in old(grants) then 1 else 0)
    {
      if id !in grants { return None; }
      revoked := Some(grants[id]);
      grants := grants - {id};
      authority := authority + 1;
    }

    method CancelPending(client: Option<Id>)
      modifies this`requests
      ensures requests == CancelledWhere(old(requests), client)
      ensures requests.Keys == old(requests).Keys
      ensures forall id :: id in requests ==>
        requests[id] == (if old(requests)[id].state == Pending && (client == None || client == Some(old(requests)[id].client))
                         then old(requests)[id].(state := RequestState.Cancelled) else old(requests)[id])
    {
      var rest := requests.Keys;
      while rest != {}
        invariant rest <= requests.Keys == old(requests).Keys
        invariant forall id :: id in requests ==>
          requests[id] == (if id in rest then old(requests)[id] else CancelledWhere(old(requests), client)[id])
        decreases rest
      {
        var id :| id in rest;
        if requests[id].state == Pending && (client == None || requests[id].client == client.value) {
          requests := requests[id := requests[id].(state := Cancelled)];
        }
        rest := rest - {id};
      }
    }

    /** Returns whether a control grant was dropped, as the source does. */
    method ClearLocked() returns (hadControl: bool)
      modifies this`picker, this`grants, this`authority, this`requests
      ensures View() == BrokerModel.Cleared(old(View()))
      ensures hadControl <==> (exists id :: id in old(grants) && old(grants)[id].capability == Control)
      ensures grants == map[] && picker == None && authority > old(authority)
      ensures requests.Keys == old(requests).Keys
      ensures forall id :: id in requests ==>
        requests[id] == (if old(requests)[id].state == Pending
                         then old(requests)[id].(state := RequestState.Cancelled) else old(requests)[id])
    {
      picker := None;
      hadControl := false;
      while grants != map[]
        invariant View() == old(View()).(picker := None, grants := grants)
        invariant forall id :: id in grants ==> id in old(grants) && grants[id] == old(grants)[id]
        invariant hadControl <==> exists id :: id in old(grants) && id !in grants && old(grants)[id].capability == Control
        decreases grants.Keys
      {
        var id :| id in grants;
        hadControl := hadControl || grants[id].capability == Control;
        assert grants[id] == old(grants)[id];
        grants := grants - {id};
      }
      authority := authority + 1;
      CancelPending(None);
    }

    method RevokeClient(client: Id) returns (controlTokens: set<Id>)
      modifies this`grants, this`authority
      ensures grants == old(grants) - GrantsOf(old(View()), client)
      ensures authority == old(authority) + |GrantsOf(old(View()), client)|
      ensures controlTokens == ControlGrantsOf(old(View()), client)
    {
      controlTokens := {};
      ghost var gone: set<Id> := {};
      var rest := grants.Keys;
      while rest != {}
        invariant rest <= old(grants).Keys
        invariant gone == set id | id in old(grants) && id !in rest && old(grants)[id].client == client
        invariant grants == old(grants) - gone
        invariant authority == old(authority) + |gone|
        invariant controlTokens == set id | id in gone && old(grants)[id].capability == Control
        decreases rest
      {
        var id :| id in rest;
        if grants[id].client == client {
          if grants[id].capability == Control { controlTokens := controlTokens + {id}; }
          var _ := RevokeLocked(id);
          gone := gone + {id};
        }
        rest := rest - {id};
      }
      assert gone == GrantsOf(old(View()), client);
    }

    /** Returns the tokens whose leases the compositor must still be told to drop. */
    method Disconnect(client: Id) returns (controlTokens: set<Id>)
      modifies this
      ensures View() == BrokerModel.Disconnected(old(View()), client)
      ensures controlTokens == ControlGrantsOf(old(View()), client)
      ensures forall id :: id in controlTokens <==>
        id in old(grants) && old(grants)[id].client == client && old(grants)[id].capability == Control
      ensures clients == old(clients) - {client}
      ensures forall id :: id in grants <==> id in old(grants) && old(grants)[id].client != client
      ensures forall id :: id in grants ==> grants[id] == old(grants)[id]
      ensures requests.Keys == old(requests).Keys
      ensures forall id :: id in requests ==>
        requests[id] == (if old(requests)[id].state == Pending && old(requests)[id].client == client
                         then old(requests)[id].(state := RequestState.Cancelled) else old(requests)[id])
      ensures picker == if old(picker).Some? && old(picker).value.client == Some(client) then None else old(picker)
      ensures authority > old(authority) <==>
        picker != old(picker) || exists id :: id in old(grants) && old(grants)[id].client == client
    {
      controlTokens := RevokeClient(client);
      CancelPending(Some(client));
      clients := clients - {client};
      if picker.Some? && picker.value.client == Some(client) {
        picker := None;
        authority := authority + 1;
      }
    }

    // ----------------------------------------------------------- maintenance

    method RevokeExpired(now: Time) returns (controlExpired: bool)
      modifies this`grants, this`authority
      ensures grants == old(grants) - ExpiredGrants(old(View()), now)
      ensures authority == old(authority) + |ExpiredGrants(old(View()), now)|
      ensures controlExpired == ControlExpired(old(View()), now)
    {
      controlExpired := false;
      ghost var gone: set<Id> := {};
      var rest := grants.Keys;
      while rest != {}
        invariant rest <= old(grants).Keys
        invariant gone == set id | id in old(grants) && id !in rest && old(grants)[id].expires <= now
        invariant grants == old(grants) - gone
        invariant authority == old(authority) + |gone|
        invariant controlExpired <==> exists id :: id in gone && old(grants)[id].capability == Control
        decreases rest
      {
        var id :| id in rest;
        if grants[id].expires <= now {
          controlExpired := controlExpired || grants[id].capability == Control;
          var _ := RevokeLocked(id);
          gone := gone + {id};
        }
        rest := rest - {id};
      }
      assert gone == ExpiredGrants(old(View()), now);
    }

    method DropStale(now: Time)
      modifies this`requests
      ensures requests == old(requests) - StaleRequests(old(View()), now)
    {
      var rest := requests.Keys;
      while rest != {}
        invariant rest <= old(requests).Keys
        invariant requests.Keys == old(requests).Keys - (StaleRequests(old(View()), now) - rest)
        invariant forall id :: id in requests ==> requests[id] == old(requests)[id]
        decreases rest
      {
        var id :| id in rest;
        if now - requests[id].created > REQUEST_LIFETIME {
          requests := requests - {id};
        }
        rest := rest - {id};
      }
    }

    method Expire(now: Time) returns (controlExpired: bool)
      modifies this
      ensures View() == BrokerModel.Expired(old(View()), now)
      ensures controlExpired == ControlExpired(old(View()), now)
      ensures controlExpired <==> exists id :: id in old(grants) && old(grants)[id].expires <= now && old(grants)[id].capability == Control
      ensures forall id :: id in grants <==> id in old(grants) && now < old(grants)[id].expires
      ensures forall id :: id in grants ==> grants[id] == old(grants)[id]
      ensures forall id :: id in requests <==> id in old(requests) && now - old(requests)[id].created <= 5 * MINUTE
      ensures forall id :: id in requests ==> requests[id] == old(requests)[id]
      ensures picker == if old(picker).Some? && old(picker).value.expires <= now then None else old(picker)
      ensures authority > old(authority) <==>
        picker != old(picker) || exists id :: id in old(grants) && old(grants)[id].expires <= now
    {
      if picker.Some? && picker.value.expires <= now {
        picker := None;
        authority := authority + 1;
      }
      controlExpired := RevokeExpired(now);
      DropStale(now);
    }

    // --------------------------------------------------------------- sharing

    method BeginShare(now: Time, asked: Option<Id>, cap: Capability, seconds: int, windows: seq<Window>, entropy: Option<Id>)
      returns (ok: bool)
      modifies this`picker
      ensures ok == (MayShare(old(View()), asked, cap, seconds, windows) && entropy.Some?)
      ensures !ok ==> View() == old(View())
      ensures ok ==>
        && picker.Some?
        && Recipient(old(View()), asked, picker.value.client)
        && View() == WithPicker(old(View()),
                                Picker(entropy.value, picker.value.client, cap, seconds, now + MINUTE, Candidates(windows)))
      ensures ok <==>
        && entropy.Some? && (cap == Observe || cap == Control) && 1 <= seconds <= 3600
        && !paused && consoles > 0 && unconfirmed == {} && clients != {} && (asked.Some? ==> asked.value in clients)
        && exists v :: (v in windows && v.visible && !v.hidden && !v.xwayland
                        && v.class_ != "org.quickshell" && v.class_ != "computer-use")
      ensures ok ==>
        && picker.value.id == entropy.value && picker.value.capability == cap && picker.value.seconds == seconds
        && picker.value.expires == now + MINUTE
        && (forall v :: v in picker.value.windows <==>
              v in windows && v.visible && !v.hidden && !v.xwayland && v.class_ != "org.quickshell" && v.class_ != "computer-use")
        && (asked.Some? ==> picker.value.client == asked)
        && (asked == None && |clients| != 1 ==> picker.value.client == None)
        && (asked == None && |clients| == 1 ==> picker.value.client.Some? && picker.value.client.value in clients)
    {
      if cap != Observe && cap != Control { return false; }
      if seconds < 1 || seconds > 3600 { return false; }
      var candidates: seq<Window> := [];
      for i := 0 to |windows|
        invariant candidates == Candidates(windows[..i])
      {
        assert windows[..i + 1][..i] == windows[..i];
        if windows[i].visible && !windows[i].hidden && !windows[i].xwayland
           && windows[i].class_ != "org.quickshell" && windows[i].class_ != "computer-use" {
          candidates := candidates + [windows[i]];
        }
      }
      assert windows[..|windows|] == windows;
      if paused || consoles == 0 || |unconfirmed| > 0 { return false; }
      if |clients| == 0 { return false; }
      var client := asked;
      if asked.Some? {
        if asked.value !in clients { return false; }
      } else if |clients| == 1 {
        var only :| only in clients;
        client := Some(only);
      }
      if |candidates| == 0 { return false; }
      assert candidates[0] in windows && Shareable(candidates[0]);
      if entropy == None { return false; }
      picker := Some(Picker(entropy.value, client, cap, seconds, now + MINUTE, candidates));
      return true;
    }

    /** The first critical section of a selection: what it remembers for the recheck. */
    method SelectOpen(now: Time, id: Id, client: Id, windowId: string)
      returns (selected: Option<Window>, snapshot: nat, expires: Time)
      ensures selected.Some? ==> selected.value.id == windowId && MaySelect(View(), now, id, client, selected.value)
      ensures selected == None ==> forall w: Window :: w.id == windowId ==> !MaySelect(View(), now, id, client, w)
      ensures selected.Some? ==> snapshot == authority && expires == now + picker.value.seconds * SECOND
      ensures selected.Some? <==>
        && picker.Some? && picker.value.id == id && now < picker.value.expires && !paused && consoles > 0 && unconfirmed == {}
        && (picker.value.client == None || picker.value.client == Some(client)) && client in clients
        && exists i :: 0 <= i < |picker.value.windows| && picker.value.windows[i].id == windowId
      ensures selected.Some? ==> FirstNamed(picker.value.windows, windowId, selected.value)
    {
      selected, snapshot, expires := None, authority, now;
      if picker == None || picker.value.id != id || picker.value.expires <= now { return; }
      if paused || consoles == 0 || |unconfirmed| > 0 { return; }
      if picker.value.client.Some? && picker.value.client.value != client { return; }
      if client !in clients { return; }
      selected := FindWindow(picker.value.windows, windowId);
      if selected.Some? { expires := now + picker.value.seconds * SECOND; }
    }

    /** The search over the windows the picker offers. */
    static method FindWindow(windows: seq<Window>, windowId: string) returns (found: Option<Window>)
      ensures found == Offered(windows, windowId)
      ensures found.Some? <==> exists i :: 0 <= i < |windows| && windows[i].id == windowId
      ensures found.Some? ==> found.value.id == windowId && FirstNamed(windows, windowId, found.value)
    {
      for i := 0 to |windows|
        invariant Offered(windows, windowId) == Offered(windows[i..], windowId)
        invariant forall j :: 0 <= j < i ==> windows[j].id != windowId
      {
        if windows[i].id == windowId {
          assert FirstAt(windows, windowId, windows[i], i);
          return Some(windows[i]);
        }
      }
      return None;
    }

    static predicate FirstAt(windows: seq<Window>, windowId: string, w: Window, i: nat) {
      i < |windows| && windows[i] == w && forall j :: 0 <= j < i ==> windows[j].id != windowId
    }

    /** The window is the first of the list under its identifier. */
    static ghost predicate FirstNamed(windows: seq<Window>, windowId: string, w: Window) {
      exists i: nat :: FirstAt(windows, windowId, w, i)
    }

    method SelectCommit(now: Time, id: Id, g: Grant, current: Window, snapshot: nat) returns (ok: bool)
      modifies this`grants, this`requests, this`picker
      ensures ok == SelectionStands(old(View()), now, id, g.client, snapshot, g.expires)
      ensures View() == if ok then WithSelection(old(View()), g, current) else old(View())
      ensures ok <==>
        && old(picker).Some? && old(picker).value.id == id && authority == snapshot && !paused
        && consoles > 0 && unconfirmed == {} && g.client in clients && now < g.expires
      ensures ok ==> grants == old(grants)[g.id := g] && picker == None && requests.Keys == old(requests).Keys
      ensures ok ==> forall r :: r in requests ==>
        && requests[r] == old(requests)[r].(state := requests[r].state)
        && (requests[r].state != old(requests)[r].state <==>
              && old(requests)[r].state == Pending && old(requests)[r].client == g.client
              && (old(requests)[r].capability == g.capability || (old(requests)[r].capability == Observe && g.capability != Launch))
              && (old(requests)[r].scope == g.scope
                  || (old(requests)[r].capability == Observe && old(requests)[r].scope.kind == WindowKind
                      && g.scope == Scope(WorkspaceKind, current.workspace))))
        && (requests[r].state != old(requests)[r].state ==> requests[r].state == Granted)
    {
      ok := && picker.Some? && picker.value.id == id && authority == snapshot && !paused
            && |unconfirmed| == 0 && consoles > 0 && g.client in clients && now < g.expires;
      if !ok { return; }
      grants := grants[g.id := g];
      AnswerCovered(g, current);
      picker := None;
    }

    /** Every pending request that the new grant covers is answered with it. */
    method AnswerCovered(g: Grant, current: Window)
      modifies this`requests
      ensures requests == WithSelection(old(View()), g, current).requests
      ensures requests.Keys == old(requests).Keys
      ensures forall r :: r in requests ==>
        && requests[r] == old(requests)[r].(state := requests[r].state)
        && (requests[r].state != old(requests)[r].state ==> requests[r].state == Granted)
        && (requests[r].state != old(requests)[r].state <==>
              && old(requests)[r].state == Pending && old(requests)[r].client == g.client
              && (old(requests)[r].capability == g.capability || (old(requests)[r].capability == Observe && g.capability != Launch))
              && (old(requests)[r].scope == g.scope
                  || (old(requests)[r].capability == Observe && old(requests)[r].scope.kind == WindowKind
                      && g.scope == Scope(WorkspaceKind, current.workspace))))
    {
      var rest := requests.Keys;
      while rest != {}
        invariant rest <= requests.Keys == old(requests).Keys
        invariant forall r :: r in requests ==>
          requests[r] == (if r in rest then old(requests)[r] else WithSelection(old(View()), g, current).requests[r])
        decreases rest
      {
        var r :| r in rest;
        if requests[r].state == Pending
           && GrantMatches(g, requests[r].client, requests[r].capability, requests[r].scope, Some(current)) {
          requests := requests[r := requests[r].(state := Granted)];
        }
        rest := rest - {r};
      }
      assert requests == WithSelection(old(View()), g, current).requests;
    }

    method CancelShare(id: Id)
      modifies this`picker
      ensures View() == WithoutPicker(old(View()), id)
      ensures picker == if old(picker).Some? && old(picker).value.id == id then None else old(picker)
    {
      if picker.Some? && picker.value.id == id { picker := None; }
    }

    // --------------------------------------------------------------- console

    /** Returns whether the compositor must be cleared because the last console left. */
    method ConsoleDetach() returns (clearBackend: bool)
      requires consoles > 0
      modifies this
      ensures View() == ConsoleLost(old(View()))
      ensures clearBackend == (old(consoles) == 1)
      ensures consoles == old(consoles) - 1
      ensures consoles == 0 ==> paused && grants == map[] && picker == None && authority > old(authority)
      ensures consoles == 0 ==> forall id :: id in requests ==> requests[id].state != Pending
      ensures consoles > 0 ==> View() == old(View()).(consoles := consoles)
    {
      consoles := consoles - 1;
      clearBackend := false;
      if consoles == 0 {
        paused := true;
        var _ := ClearLocked();
        clearBackend := true;
      }
    }

    method SetPaused(pause: bool)
      modifies this
      ensures View() == if pause then PauseSet(old(View())) else BrokerModel.Resumed(old(View()))
      ensures paused == pause && authority > old(authority)
      ensures pause ==> grants == map[] && picker == None && forall id :: id in requests ==> requests[id].state != Pending
      ensures !pause ==> grants == old(grants) && picker == old(picker) && requests == old(requests)
    {
      paused := pause;
      if paused {
        var _ := ClearLocked();
      } else {
        authority := authority + 1;
      }
    }

    method SetMode(to: Mode)
      modifies this
      ensures View() == ModeSet(old(View()), to)
      ensures mode == to && authority > old(authority)
      ensures grants == map[] && picker == None && forall id :: id in requests ==> requests[id].state != Pending
    {
      var _ := ClearLocked();
      mode := to;
    }

    // ---------------------------------------------------------- confirmation

    method RecordCleanup(now: Time, call: Cleanup, confirmed: bool)
      modifies this`unconfirmed, this`nextRetry
      ensures View() == Recorded(old(View()), now, call, confirmed)
      ensures !confirmed ==> unconfirmed == old(unconfirmed) + {call} && nextRetry == now + SECOND
      ensures confirmed && call == ClearLeases ==> unconfirmed == {}
      ensures confirmed && call != ClearLeases ==> unconfirmed == old(unconfirmed) - {call}
      ensures confirmed ==> nextRetry == old(nextRetry)
    {
      if !confirmed {
        unconfirmed := unconfirmed + {call};
        nextRetry := now + SECOND;
      } else if call == ClearLeases {
        unconfirmed := {};
      } else if call in unconfirmed {
        unconfirmed := unconfirmed - {call};
      }
    }

    /** The calls maintenance repeats now, in some order, each once. */
    method DueRetries(now: Time) returns (calls: seq<Cleanup>)
      ensures if RetryDue(View(), now) then |calls| == |unconfirmed| && forall c :: c in calls <==> c in unconfirmed
              else calls == []
      ensures calls != [] <==> unconfirmed != {} && nextRetry <= now
    {
      calls := [];
      if |unconfirmed| == 0 || now < nextRetry { return; }
      var rest := unconfirmed;
      while rest != {}
        invariant rest <= unconfirmed
        invariant forall c :: c in calls <==> c in unconfirmed - rest
        invariant |calls| + |rest| == |unconfirmed|
        decreases rest
      {
        var c :| c in rest;
        calls := calls + [c];
        rest := rest - {c};
      }
    }
  }
}

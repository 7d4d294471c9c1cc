/** The authorization server object. Each method is one section under its lock and changes
    the tables exactly as OAuthModel.dfy says. */
module OAuth {
  import opened Common
  import opened OAuthModel

  class OAuthProvider {
    const resource: Uri
    var pending: map<Id, Pending>
    var codes: map<Digest, Code>
    var tokens: map<Digest, Connection>
    var refresh: map<Digest, Refresh>

    function View(): Provider
      reads this
    {
      Provider(resource, pending, codes, tokens, refresh)
    }

    constructor (resource: Uri)
      ensures View() == Provider(resource, map[], map[], map[], map[])
    {
      this.resource := resource;
      pending, codes, tokens, refresh := map[], map[], map[], map[];
    }

    method CleanupLocked(now: Time)
      modifies this
      ensures View() == Cleaned(old(View()), now)
      ensures forall k :: k in pending <==> k in old(pending) && now < old(pending)[k].expires
      ensures forall k :: k in codes <==> k in old(codes) && now < old(codes)[k].expires
      ensures forall k :: k in tokens <==> k in old(tokens) && now < old(tokens)[k].expires
      ensures forall k :: k in refresh <==> k in old(refresh) && now < old(refresh)[k].connection.expires
      ensures forall k :: k in pending ==> pending[k] == old(pending)[k]
      ensures forall k :: k in codes ==> codes[k] == old(codes)[k]
      ensures forall k :: k in tokens ==> tokens[k] == old(tokens)[k]
      ensures forall k :: k in refresh ==> refresh[k] == old(refresh)[k]
    {
      var ids := pending.Keys;
      while ids != {}
        invariant View() == old(View()).(pending := pending)
        invariant forall k :: k in pending <==> k in old(pending) && (now < old(pending)[k].expires || k in ids)
        invariant forall k :: k in pending ==> pending[k] == old(pending)[k]
      {
        var k :| k in ids;
        if k in pending && now >= pending[k].expires { pending := pending - {k}; }
        ids := ids - {k};
      }
      assert pending == LivePending(old(pending), now);
      DropCodes(now);
      DropRefresh(now);
      DropTokens(now);
    }

    method DropCodes(now: Time)
      modifies this`codes
      ensures codes == LiveCodes(old(codes), now)
    {
      var keys := codes.Keys;
      while keys != {}
        invariant forall k :: k in codes <==> k in old(codes) && (now < old(codes)[k].expires || k in keys)
        invariant forall k :: k in codes ==> codes[k] == old(codes)[k]
      {
        var k :| k in keys;
        if k in codes && now >= codes[k].expires { codes := codes - {k}; }
        keys := keys - {k};
      }
    }

    method DropRefresh(now: Time)
      modifies this`refresh
      ensures refresh == LiveRefresh(old(refresh), now)
    {
      var keys := refresh.Keys;
      while keys != {}
        invariant forall k :: k in refresh <==> k in old(refresh) && (now < old(refresh)[k].connection.expires || k in keys)
        invariant forall k :: k in refresh ==> refresh[k] == old(refresh)[k]
      {
        var k :| k in keys;
        if k in refresh && now >= refresh[k].connection.expires { refresh := refresh - {k}; }
        keys := keys - {k};
      }
    }

    method DropTokens(now: Time)
      modifies this`tokens
      ensures tokens == LiveTokens(old(tokens), now)
    {
      var keys := tokens.Keys;
      while keys != {}
        invariant forall k :: k in tokens <==> k in old(tokens) && (now < old(tokens)[k].expires || k in keys)
        invariant forall k :: k in tokens ==> tokens[k] == old(tokens)[k]
      {
        var k :| k in keys;
        if k in tokens && now >= tokens[k].expires { tokens := tokens - {k}; }
        keys := keys - {k};
      }
    }

    /** The first section of an authorization request. */
    method AuthorizeOpen(now: Time, client: Option<Client>, q: AuthRequest) returns (ok: bool)
      modifies this
      ensures View() == Cleaned(old(View()), now)
      ensures ok == Authorizable(client, q, resource)
      ensures ok <==>
        && client.Some? && q.redirect in client.value.redirects && !q.stateTooLong && q.wantsCode
        && q.resource == resource && q.scopeOk && q.challenge.Some?
    {
      CleanupLocked(now);
      if client == None || q.redirect !in client.value.redirects { return false; }
      if q.stateTooLong { return false; }
      if !q.wantsCode { return false; }
      if q.resource != resource { return false; }
      if !q.scopeOk { return false; }
      return q.challenge.Some?;
    }

    /** The second section; the tables are not cleaned in between. */
    method AuthorizeCommit(now: Time, client: Client, q: AuthRequest, id: Id, nonce: Secret) returns (ok: bool)
      requires q.challenge.Some?
      modifies this
      ensures ok == (|old(pending)| < 16)
      ensures View() == Entered(old(View()), id, NewPending(client, q, now, nonce))
      ensures pending == if ok
        then old(pending)[id := Pending(client.id, client.name, q.redirect, now + 5 * MINUTE, q.challenge.value, Digest(nonce), Undecided)]
        else old(pending)
    {
      var v := Pending(client.id, client.name, q.redirect, now + 5 * MINUTE, q.challenge.value, Digest(nonce), Undecided);
      if |pending| >= MAX_PENDING { return false; }
      pending := pending[id := v];
      return true;
    }

    method Decide(now: Time, id: Id, approve: bool, code: Option<Secret>) returns (ok: bool)
      modifies this
      ensures var p := Cleaned(old(View()), now);
        ok == Decides(p, id, approve, code) && View() == Decided(p, now, id, approve, code)
      ensures ok <==>
        && id in old(pending) && now < old(pending)[id].expires && old(pending)[id].decision == Undecided
        && (approve ==> code.Some? && |LiveCodes(old(codes), now)| < 64)
      ensures ok ==>
        id in pending && pending[id] == old(pending)[id].(decision := if approve then Approved(code.value) else Decision.Denied)
      ensures codes == if ok && approve
        then LiveCodes(old(codes), now)[Digest(code.value) :=
          Code(old(pending)[id].client, old(pending)[id].redirect, old(pending)[id].challenge, resource, now + MINUTE)]
        else LiveCodes(old(codes), now)
    {
      CleanupLocked(now);
      if id !in pending || pending[id].decision != Undecided { return false; }
      var v := pending[id];
      if !approve {
        pending := pending[id := v.(decision := Decision.Denied)];
        return true;
      }
      if |codes| >= MAX_CODES { return false; }
      if code == None { return false; }
      pending := pending[id := v.(decision := Approved(code.value))];
      codes := codes[Digest(code.value) := Code(v.client, v.redirect, v.challenge, resource, now + MINUTE)];
      return true;
    }

    method ContinueAuth(now: Time, id: Id, cookie: Option<Secret>) returns (page: Page)
      modifies this
      ensures (View(), page) == Continued(Cleaned(old(View()), now), id, cookie)
      ensures page.BadRequest? <==>
        cookie == None || id !in old(pending) || old(pending)[id].expires <= now || old(pending)[id].cookie != Digest(cookie.value)
      ensures page.Waiting? ==> id in old(pending) && old(pending)[id].decision == Undecided && id in pending
      ensures page.Redirected? ==>
        && id in old(pending) && old(pending)[id].decision != Undecided && id !in pending && page.to == old(pending)[id].redirect
        && page.code == (if old(pending)[id].decision.Approved? then Some(old(pending)[id].decision.code) else None)
    {
      CleanupLocked(now);
      if cookie == None || id !in pending || Digest(cookie.value) != pending[id].cookie { return BadRequest; }
      var v := pending[id];
      if v.decision == Undecided { return Waiting; }
      pending := pending - {id};
      return Redirected(v.redirect, if v.decision.Approved? then Some(v.decision.code) else None);
    }

    method Token(now: Time, client: Client, form: CodeForm, draw: Option<Draw>) returns (outcome: Exchange)
      modifies this
      ensures form.resource != resource ==> outcome == BadTarget && View() == old(View())
      ensures form.resource == resource && !ValidVerifier(form.verifier) ==> outcome == BadVerifier && View() == old(View())
      ensures form.resource == resource && ValidVerifier(form.verifier) ==>
        (View(), outcome) == Exchanged(Cleaned(old(View()), now), now, client, form, draw)
      // a code is good once, for its client, redirect, resource and challenge, while it lasts
      ensures outcome.Issued? <==>
        && form.resource == resource && 43 <= |form.verifier| <= 128
        && (forall i :: 0 <= i < |form.verifier| ==>
              var c := form.verifier[i]; 'a' <= c <= 'z' || 'A' <= c <= 'Z' || '0' <= c <= '9' || c in {'-', '.', '_', '~'})
        && Digest(form.code) in old(codes)
        && (var code := old(codes)[Digest(form.code)];
            && now < code.expires && code.client == client.id && code.redirect == form.redirect
            && code.resource == form.resource && code.challenge == S256(form.verifier))
        && |LiveTokens(old(tokens), now)| < 256 && draw.Some?
      ensures outcome.Issued? ==>
        && outcome.connection == Connection(draw.value.connection, client.id, client.name, now + HOUR, resource)
        && Digest(form.code) !in codes
        && tokens == LiveTokens(old(tokens), now)[Digest(draw.value.raw) := outcome.connection]
        && refresh == if client.refreshes
                      then LiveRefresh(old(refresh), now)[Digest(draw.value.refresh) := Refresh(outcome.connection, false)]
                      else LiveRefresh(old(refresh), now)
    {
      if form.resource != resource { return BadTarget; }
      if |form.verifier| < 43 || |form.verifier| > 128 { return BadVerifier; }
      for i := 0 to |form.verifier|
        invariant forall j :: 0 <= j < i ==> VerifierChar(form.verifier[j])
        invariant View() == old(View())
      {
        if !VerifierChar(form.verifier[i]) { return BadVerifier; }
      }
      CleanupLocked(now);
      var key := Digest(form.code);
      if key !in codes { return BadGrant; }
      var code := codes[key];
      if code.client != client.id || code.redirect != form.redirect || code.resource != form.resource
        || code.challenge != S256(form.verifier) { return BadGrant; }
      if |tokens| >= MAX_TOKENS { return TooManyTokens; }
      if draw == None { return NoEntropy; }
      codes := codes - {key};
      var v := Connection(draw.value.connection, client.id, client.name, now + HOUR, resource);
      tokens := tokens[Digest(draw.value.raw) := v];
      if client.refreshes {
        refresh := refresh[Digest(draw.value.refresh) := Refresh(v, false)];
      }
      return Issued(v);
    }

    /** A refresh up to the end of its section; a replay goes on to RevokeConnection later. */
    method RefreshToken(now: Time, client: Client, form: RefreshForm, draw: Option<(Secret, Secret)>) returns (outcome: Rotation)
      modifies this
      ensures var refused := !client.refreshes || (form.resource.Some? && form.resource.value != resource) || !form.scopeOk;
        if refused then
          && View() == old(View())
          && outcome == (if !client.refreshes then Unauthorized
                         else if form.resource.Some? && form.resource.value != resource then WrongTarget else WrongScope)
        else (View(), outcome) == Refreshed(Cleaned(old(View()), now), now, client, form.token, draw)
      // shown by its client, for this resource, while it lasts: a used token is a replay, an
      // unused one is rotated
      ensures outcome.Replayed? || outcome.Rotated? ==>
        && client.refreshes && form.scopeOk && (form.resource == None || form.resource == Some(resource))
        && Digest(form.token) in old(refresh)
        && var rt := old(refresh)[Digest(form.token)];
           && now < rt.connection.expires && rt.connection.client == client.id && rt.connection.resource == resource
           && (outcome.Replayed? <==> rt.used)
           && (outcome.Replayed? ==> outcome.id == rt.connection.id)
           && (outcome.Rotated? ==> outcome.connection == rt.connection && outcome.seconds == (rt.connection.expires - now) / SECOND)
      ensures outcome.Rotated? ==>
        && draw.Some? && Digest(form.token) in old(refresh)
        && var rt := old(refresh)[Digest(form.token)];
           && refresh == LiveRefresh(old(refresh), now)[Digest(form.token) := Refresh(rt.connection, true)]
                         [Digest(draw.value.1) := Refresh(rt.connection, false)]
           && tokens == LiveTokens(old(tokens), now)[Digest(draw.value.0) := rt.connection]
      ensures
        (&& client.refreshes && form.scopeOk && (form.resource == None || form.resource == Some(resource))
         && Digest(form.token) in old(refresh)
         && old(refresh)[Digest(form.token)].connection.client == client.id
         && old(refresh)[Digest(form.token)].connection.resource == resource
         && now < old(refresh)[Digest(form.token)].connection.expires) ==>
        if old(refresh)[Digest(form.token)].used then outcome.Replayed?
        else if old(refresh)[Digest(form.token)].connection.expires < now + SECOND then outcome == Rotation.Expired
        else if |LiveTokens(old(tokens), now)| >= 256 || |LiveRefresh(old(refresh), now)| >= 1024 then outcome == Full
        else if draw == None then outcome == NoSecrets else outcome.Rotated?
    {
      if !client.refreshes { return Unauthorized; }
      if form.resource.Some? && form.resource.value != resource { return WrongTarget; }
      if !form.scopeOk { return WrongScope; }
      var key := Digest(form.token);
      CleanupLocked(now);
      if key !in refresh { return Invalid; }
      var rt := refresh[key];
      if rt.connection.client != client.id || rt.connection.resource != resource { return Invalid; }
      if rt.used { return Replayed(rt.connection.id); }
      var remaining := (rt.connection.expires - now) / SECOND;
      if remaining < 1 { return Expired; }
      if |tokens| >= MAX_TOKENS || |refresh| >= MAX_REFRESH { return Full; }
      if draw == None { return NoSecrets; }
      rt := rt.(used := true);
      refresh := refresh[key := rt];
      refresh := refresh[Digest(draw.value.1) := Refresh(rt.connection, false)];
      tokens := tokens[Digest(draw.value.0) := rt.connection];
      return Rotated(rt.connection, remaining);
    }

    method Verify(now: Time, raw: Secret) returns (info: Option<Connection>)
      ensures info == Verified(View(), now, raw)
      ensures info.Some? <==>
        Digest(raw) in tokens && now < tokens[Digest(raw)].expires && tokens[Digest(raw)].resource == resource
      ensures info.Some? ==> info.value == tokens[Digest(raw)]
    {
      if Digest(raw) !in tokens { return None; }
      var v := tokens[Digest(raw)];
      if now >= v.expires || v.resource != resource { return None; }
      return Some(v);
    }

    method RevokeConnection(id: Id)
      modifies this
      ensures View() == Revoked(old(View()), id)
      ensures forall k :: k in tokens <==> k in old(tokens) && old(tokens)[k].id != id
      ensures forall k :: k in refresh <==> k in old(refresh) && old(refresh)[k].connection.id != id
      ensures (forall k :: k in tokens ==> tokens[k] == old(tokens)[k]) && forall k :: k in refresh ==> refresh[k] == old(refresh)[k]
      ensures codes == old(codes) && pending == old(pending)
    {
      RevokeRefresh(id);
      var keys := tokens.Keys;
      while keys != {}
        invariant forall k :: k in tokens <==> k in old(tokens) && (old(tokens)[k].id != id || k in keys)
        invariant forall k :: k in tokens ==> tokens[k] == old(tokens)[k]
        invariant View() == Revoked(old(View()), id).(tokens := tokens)
      {
        var k :| k in keys;
        if k in tokens && tokens[k].id == id { tokens := tokens - {k}; }
        keys := keys - {k};
      }
      assert tokens == Revoked(old(View()), id).tokens;
    }

    method RevokeRefresh(id: Id)
      modifies this`refresh
      ensures refresh == Revoked(old(View()), id).refresh
    {
      var keys := refresh.Keys;
      while keys != {}
        invariant forall k :: k in refresh <==> k in old(refresh) && (old(refresh)[k].connection.id != id || k in keys)
        invariant forall k :: k in refresh ==> refresh[k] == old(refresh)[k]
      {
        var k :| k in keys;
        if k in refresh && refresh[k].connection.id == id { refresh := refresh - {k}; }
        keys := keys - {k};
      }
    }

    /** The lookup section of a revocation request; the revocation itself comes later. */
    method RevokeToken(client: Client, token: Secret) returns (id: Option<Id>)
      ensures id == Owned(View(), client, token)
      ensures Digest(token) in tokens ==>
        id == if tokens[Digest(token)].client == client.id then Some(tokens[Digest(token)].id) else None
      ensures Digest(token) !in tokens && Digest(token) in refresh ==>
        id == if refresh[Digest(token)].connection.client == client.id then Some(refresh[Digest(token)].connection.id) else None
      ensures Digest(token) !in tokens && Digest(token) !in refresh ==> id == None
    {
      var key := Digest(token);
      var v: Option<Connection> := None;
      if key in tokens {
        v := Some(tokens[key]);
      } else if key in refresh {
        v := Some(refresh[key].connection);
      }
      if v.Some? && v.value.client == client.id { return Some(v.value.id); }
      return None;
    }

    /** The console's view: undecided authorizations, and one record per connection. */
    method State(now: Time) returns (asks: set<Id>, connections: seq<Connection>)
      modifies this
      ensures View() == Cleaned(old(View()), now)
      ensures asks == set k | k in pending && pending[k].decision == Undecided
      ensures forall k :: k in asks <==> k in old(pending) && now < old(pending)[k].expires && old(pending)[k].decision == Undecided
      ensures forall k :: k in tokens <==> k in old(tokens) && now < old(tokens)[k].expires
      ensures forall c :: c in connections ==> c in tokens.Values
      ensures forall i, j :: 0 <= i < j < |connections| ==> connections[i].id != connections[j].id
      ensures forall k :: k in tokens ==> exists i :: 0 <= i < |connections| && connections[i].id == tokens[k].id
    {
      CleanupLocked(now);
      asks := set k | k in pending && pending[k].decision == Undecided;
      connections := [];
      var seen: set<Id> := {};
      var keys := tokens.Keys;
      while keys != {}
        invariant keys <= tokens.Keys
        invariant forall c :: c in connections ==> c in tokens.Values && c.id in seen
        invariant forall i, j :: 0 <= i < j < |connections| ==> connections[i].id != connections[j].id
        invariant forall id :: id in seen ==> exists i :: 0 <= i < |connections| && connections[i].id == id
        invariant forall k :: k in tokens && k !in keys ==> tokens[k].id in seen
        invariant View() == Cleaned(old(View()), now)
      {
        var k :| k in keys;
        if tokens[k].id !in seen {
          ghost var was := connections;
          connections := connections + [tokens[k]];
          assert connections[|was|].id == tokens[k].id;
          assert forall i :: 0 <= i < |was| ==> connections[i] == was[i];
          seen := seen + {tokens[k].id};
        }
        keys := keys - {k};
      }
    }
  }
}

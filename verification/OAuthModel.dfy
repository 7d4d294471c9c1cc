/** The authorization server: its four tables, and what each locked section does to them.
    Every section takes one reading of the clock; random values are arguments, None when
    the random source failed. */
module OAuthModel {
  import opened Common

  type Id = nat
  type Secret = nat
  type Uri = nat

  /** Tables are keyed by digests; a digest determines what it was taken of. */
  datatype Digest = Digest(of: Secret)

  /** A code challenge, whether or not anyone knows a verifier for it. */
  datatype Challenge = S256(verifier: string) | Unmatched(bytes: nat)

  datatype Client = Client(id: Id, name: string, redirects: set<Uri>, refreshes: bool)

  datatype Decision = Undecided | Approved(code: Secret) | Denied

  datatype Pending = Pending(client: Id, name: string, redirect: Uri, expires: Time, challenge: Challenge,
                             cookie: Digest, decision: Decision)

  datatype Code = Code(client: Id, redirect: Uri, challenge: Challenge, resource: Uri, expires: Time)

  datatype Connection = Connection(id: Id, client: Id, name: string, expires: Time, resource: Uri)

  datatype Refresh = Refresh(connection: Connection, used: bool)

  datatype Provider = Provider(resource: Uri, pending: map<Id, Pending>, codes: map<Digest, Code>,
                               tokens: map<Digest, Connection>, refresh: map<Digest, Refresh>)

  const MAX_PENDING := 16
  const MAX_CODES := 64
  const MAX_TOKENS := 256
  const MAX_REFRESH := 1024

  // ------------------------------------------------------------------ expiry

  function LivePending(m: map<Id, Pending>, now: Time): map<Id, Pending> {
    map k | k in m && now < m[k].expires :: m[k]
  }

  function LiveCodes(m: map<Digest, Code>, now: Time): map<Digest, Code> {
    map k | k in m && now < m[k].expires :: m[k]
  }

  function LiveTokens(m: map<Digest, Connection>, now: Time): map<Digest, Connection> {
    map k | k in m && now < m[k].expires :: m[k]
  }

  function LiveRefresh(m: map<Digest, Refresh>, now: Time): map<Digest, Refresh> {
    map k | k in m && now < m[k].connection.expires :: m[k]
  }

  function Cleaned(p: Provider, now: Time): Provider {
    Provider(p.resource, LivePending(p.pending, now), LiveCodes(p.codes, now), LiveTokens(p.tokens, now),
             LiveRefresh(p.refresh, now))
  }

  // ----------------------------------------------------------- authorization

  datatype AuthRequest = AuthRequest(redirect: Uri, stateTooLong: bool, wantsCode: bool, resource: Uri,
                                     scopeOk: bool, challenge: Option<Challenge>)

  /** What an authorization request must name; the challenge is None unless it is an S256
      challenge of 32 bytes. */
  predicate Authorizable(client: Option<Client>, q: AuthRequest, resource: Uri) {
    && client.Some? && q.redirect in client.value.redirects && !q.stateTooLong
    && q.wantsCode && q.resource == resource && q.scopeOk && q.challenge.Some?
  }

  function NewPending(client: Client, q: AuthRequest, now: Time, nonce: Secret): Pending
    requires q.challenge.Some?
  {
    Pending(client.id, client.name, q.redirect, now + 5 * MINUTE, q.challenge.value, Digest(nonce), Undecided)
  }

  function Entered(p: Provider, id: Id, v: Pending): Provider {
    if |p.pending| >= MAX_PENDING then p else p.(pending := p.pending[id := v])
  }

  /** The local decision, on tables just cleaned. */
  predicate Decides(p: Provider, id: Id, approve: bool, code: Option<Secret>) {
    && id in p.pending && p.pending[id].decision == Undecided
    && (approve ==> |p.codes| < MAX_CODES && code.Some?)
  }

  function CodeFor(p: Provider, v: Pending, now: Time): Code {
    Code(v.client, v.redirect, v.challenge, p.resource, now + MINUTE)
  }

  function Decided(p: Provider, now: Time, id: Id, approve: bool, code: Option<Secret>): Provider {
    if !Decides(p, id, approve, code) then p
    else
      var v := p.pending[id];
      if approve then
        p.(pending := p.pending[id := v.(decision := Approved(code.value))],
           codes := p.codes[Digest(code.value) := CodeFor(p, v, now)])
      else p.(pending := p.pending[id := v.(decision := Decision.Denied)])
  }

  datatype Page = BadRequest | Waiting | Redirected(to: Uri, code: Option<Secret>)

  /** The browser comes back for the outcome. */
  function Continued(p: Provider, id: Id, cookie: Option<Secret>): (Provider, Page) {
    if cookie == None || id !in p.pending || Digest(cookie.value) != p.pending[id].cookie then (p, BadRequest)
    else
      var v := p.pending[id];
      if v.decision == Undecided then (p, Waiting)
      else (p.(pending := p.pending - {id}),
            Redirected(v.redirect, if v.decision.Approved? then Some(v.decision.code) else None))
  }

  // ------------------------------------------------------------------ tokens

  predicate VerifierChar(c: char) {
    'a' <= c <= 'z' || 'A' <= c <= 'Z' || '0' <= c <= '9' || c in "-._~"
  }

  predicate ValidVerifier(v: string) {
    43 <= |v| <= 128 && forall c :: c in v ==> VerifierChar(c)
  }

  datatype CodeForm = CodeForm(resource: Uri, redirect: Uri, verifier: string, code: Secret)

  datatype Draw = Draw(raw: Secret, connection: Id, refresh: Secret)

  datatype Exchange = BadTarget | BadVerifier | BadGrant | TooManyTokens | NoEntropy | Issued(connection: Connection)

  predicate Redeems(p: Provider, client: Client, form: CodeForm) {
    && Digest(form.code) in p.codes
    && var code := p.codes[Digest(form.code)];
       && code.client == client.id && code.redirect == form.redirect
       && code.resource == form.resource && code.challenge == S256(form.verifier)
  }

  /** A well-formed code exchange, on tables just cleaned. */
  function Exchanged(p: Provider, now: Time, client: Client, form: CodeForm, draw: Option<Draw>): (Provider, Exchange) {
    if !Redeems(p, client, form) then (p, BadGrant)
    else if |p.tokens| >= MAX_TOKENS then (p, TooManyTokens)
    else if draw == None then (p, NoEntropy)
    else
      var v := Connection(draw.value.connection, client.id, client.name, now + HOUR, p.resource);
      (p.(codes := p.codes - {Digest(form.code)},
          tokens := p.tokens[Digest(draw.value.raw) := v],
          refresh := if client.refreshes then p.refresh[Digest(draw.value.refresh) := Refresh(v, false)] else p.refresh),
       Issued(v))
  }

  datatype RefreshForm = RefreshForm(token: Secret, resource: Option<Uri>, scopeOk: bool)

  datatype Rotation =
    | Unauthorized | WrongTarget | WrongScope | Invalid | Replayed(id: Id) | Expired | Full | NoSecrets
    | Rotated(connection: Connection, seconds: int)

  predicate Presents(p: Provider, client: Client, token: Secret) {
    && Digest(token) in p.refresh
    && p.refresh[Digest(token)].connection.client == client.id
    && p.refresh[Digest(token)].connection.resource == p.resource
  }

  /** A well-formed refresh, on tables just cleaned. */
  function Refreshed(p: Provider, now: Time, client: Client, token: Secret, draw: Option<(Secret, Secret)>): (Provider, Rotation) {
    if !Presents(p, client, token) then (p, Invalid)
    else
      var rt := p.refresh[Digest(token)];
      var seconds := (rt.connection.expires - now) / SECOND;
      if rt.used then (p, Replayed(rt.connection.id))
      else if seconds < 1 then (p, Expired)
      else if |p.tokens| >= MAX_TOKENS || |p.refresh| >= MAX_REFRESH then (p, Full)
      else if draw == None then (p, NoSecrets)
      else (p.(refresh := p.refresh[Digest(token) := rt.(used := true)][Digest(draw.value.1) := Refresh(rt.connection, false)],
               tokens := p.tokens[Digest(draw.value.0) := rt.connection]),
            Rotated(rt.connection, seconds))
  }

  function Verified(p: Provider, now: Time, raw: Secret): Option<Connection> {
    if Digest(raw) in p.tokens && now < p.tokens[Digest(raw)].expires && p.tokens[Digest(raw)].resource == p.resource
    then Some(p.tokens[Digest(raw)])
    else None
  }

  // -------------------------------------------------------------- revocation

  function Revoked(p: Provider, id: Id): Provider {
    p.(refresh := map k | k in p.refresh && p.refresh[k].connection.id != id :: p.refresh[k],
       tokens := map k | k in p.tokens && p.tokens[k].id != id :: p.tokens[k])
  }

  /** The connection a client may revoke by showing this token. */
  function Owned(p: Provider, client: Client, token: Secret): Option<Id> {
    var k := Digest(token);
    if k in p.tokens then (if p.tokens[k].client == client.id then Some(p.tokens[k].id) else None)
    else if k in p.refresh && p.refresh[k].connection.client == client.id then Some(p.refresh[k].connection.id)
    else None
  }
}

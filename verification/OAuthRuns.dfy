/** Runs of the authorization server: sections in any order, a monotone clock, values drawn
    fresh. What holds of every connection family in every reachable state. */
module OAuthRuns {
  import opened Common
  import opened OAuthModel

  /** A local approval, remembered under the digest of the code it made. */
  datatype Approval = Approval(ask: Id, asked: Pending, at: Time)

  /** How a connection came about: the code and verifier shown, and whether it refreshes. */
  datatype Origin = Origin(connection: Connection, code: Digest, redirect: Uri, verifier: string, refreshes: bool)

  /** The tables and the clock, with history: every value seen, every approval, every
      connection, the access token made together with each refresh token, the newest
      refresh token of each family, and the revocations done and still to do. */
  datatype World = World(p: Provider, now: Time, drawn: set<nat>,
                         approvals: map<Digest, Approval>, origins: map<Id, Origin>,
                         twin: map<Digest, Digest>, newest: map<Id, Digest>,
                         revoked: set<Id>, revoking: set<Id>)

  datatype Label =
    | Tick(to: Time)
    | Clean
    | Enter(id: Id, v: Pending, nonce: Secret)
    | Decide(id: Id, approve: bool, code: Option<Secret>)
    | Continue(id: Id, cookie: Option<Secret>)
    | Exchange(client: Client, form: CodeForm, draw: Option<Draw>)
    | Rotate(client: Client, token: Secret, pair: Option<(Secret, Secret)>)
    | AskRevoke(client: Client, token: Secret)
    | Revoke(id: Id)

  ghost predicate Enabled(w: World, l: Label) {
    match l
    case Tick(to) => w.now <= to
    case Clean => true
    case Enter(id, v, nonce) =>
      && id !in w.drawn && nonce !in w.drawn && id != nonce
      && v.cookie == Digest(nonce) && v.decision == Undecided && v.expires <= w.now + 5 * MINUTE
    case Decide(_, _, code) => code.Some? ==> code.value !in w.drawn
    case Continue(_, _) => true
    case Exchange(_, _, draw) => draw.Some? ==>
      var d := draw.value;
      && d.raw !in w.drawn && d.connection !in w.drawn && d.refresh !in w.drawn
      && d.raw != d.connection && d.raw != d.refresh && d.connection != d.refresh
    case Rotate(_, _, pair) => pair.Some? ==> pair.value.0 !in w.drawn && pair.value.1 !in w.drawn && pair.value.0 != pair.value.1
    case AskRevoke(_, _) => true
    case Revoke(_) => true
  }

  /** Expiry first: the part that most sections share. */
  function Swept(w: World): World {
    w.(p := Cleaned(w.p, w.now))
  }

  function EnterApply(w: World, id: Id, v: Pending, nonce: Secret): World {
    w.(p := Entered(w.p, id, v), drawn := w.drawn + {id, nonce})
  }

  function DecideApply(w: World, id: Id, approve: bool, code: Option<Secret>): World {
    var w1 := w.(p := Decided(w.p, w.now, id, approve, code));
    if approve && Decides(w.p, id, approve, code) then
      w1.(drawn := w.drawn + {code.value},
          approvals := w.approvals[Digest(code.value) := Approval(id, w.p.pending[id], w.now)])
    else w1
  }

  function ContinueApply(w: World, id: Id, cookie: Option<Secret>): World {
    w.(p := Continued(w.p, id, cookie).0)
  }

  function ExchangeApply(w: World, client: Client, form: CodeForm, draw: Option<Draw>): World {
    var (p, outcome) := Exchanged(w.p, w.now, client, form, draw);
    if outcome.Issued? then
      var d, v := draw.value, outcome.connection;
      var w1 := w.(p := p, drawn := w.drawn + {d.raw, d.connection, d.refresh},
                   origins := w.origins[v.id := Origin(v, Digest(form.code), form.redirect, form.verifier, client.refreshes)]);
      if client.refreshes then
        w1.(twin := w.twin[Digest(d.refresh) := Digest(d.raw)], newest := w.newest[v.id := Digest(d.refresh)])
      else w1
    else w.(p := p)
  }

  function RotateApply(w: World, client: Client, token: Secret, pair: Option<(Secret, Secret)>): World {
    var (p, outcome) := Refreshed(w.p, w.now, client, token, pair);
    match outcome
    case Rotated(v, _) =>
      w.(p := p, drawn := w.drawn + {pair.value.0, pair.value.1},
         twin := w.twin[Digest(pair.value.1) := Digest(pair.value.0)], newest := w.newest[v.id := Digest(pair.value.1)])
    case Replayed(id) => w.(revoking := w.revoking + {id})
    case _ => w.(p := p)
  }

  function AskApply(w: World, client: Client, token: Secret): World {
    var id := Owned(w.p, client, token);
    if id.Some? then w.(revoking := w.revoking + {id.value}) else w
  }

  /** A connection id someone names counts as seen from then on. */
  function RevokeApply(w: World, id: Id): World {
    w.(p := Revoked(w.p, id), drawn := w.drawn + {id}, revoked := w.revoked + {id}, revoking := w.revoking - {id})
  }

  function Apply(w: World, l: Label): World {
    match l
    case Tick(to) => w.(now := to)
    case Clean => Swept(w)
    case Enter(id, v, nonce) => EnterApply(w, id, v, nonce)
    case Decide(id, approve, code) => DecideApply(Swept(w), id, approve, code)
    case Continue(id, cookie) => ContinueApply(Swept(w), id, cookie)
    case Exchange(client, form, draw) => ExchangeApply(Swept(w), client, form, draw)
    case Rotate(client, token, pair) => RotateApply(Swept(w), client, token, pair)
    case AskRevoke(client, token) => AskApply(w, client, token)
    case Revoke(id) => RevokeApply(w, id)
  }

  function Start(resource: Uri): World {
    World(Provider(resource, map[], map[], map[], map[]), 0, {}, map[], map[], map[], map[], {}, {})
  }

  ghost predicate StepAt(ws: seq<World>, ls: seq<Label>, i: nat)
    requires i < |ls| && |ws| == |ls| + 1
  {
    Enabled(ws[i], ls[i]) && ws[i + 1] == Apply(ws[i], ls[i])
  }

  ghost predicate IsRun(ws: seq<World>, ls: seq<Label>, resource: Uri) {
    && |ws| == |ls| + 1
    && ws[0] == Start(resource)
    && forall i :: 0 <= i < |ls| ==> StepAt(ws, ls, i)
  }

  // --------------------------------------------------------------- invariant

  /** Every key and every named connection was drawn. */
  ghost predicate KeysDrawn(w: World) {
    && (forall k :: k in w.p.pending ==> k in w.drawn)
    && (forall k :: k in w.p.tokens ==> k.of in w.drawn)
    && (forall k :: k in w.p.refresh ==> k.of in w.drawn)
    && (forall k :: k in w.approvals ==> k.of in w.drawn && w.approvals[k].ask in w.drawn)
    && (forall id :: id in w.origins ==> id in w.drawn)
    && (forall id :: id in w.revoked ==> id in w.drawn)
  }

  /** All tokens and refresh entries of one connection carry the identical record, and a
      revoked connection has none. */
  ghost predicate Families(w: World) {
    && (forall k :: k in w.p.tokens ==> Registered(w, w.p.tokens[k]))
    && (forall k :: k in w.p.refresh ==> Registered(w, w.p.refresh[k].connection) && w.origins[w.p.refresh[k].connection.id].refreshes)
    && (forall id :: id in w.origins ==> w.origins[id].connection.id == id)
  }

  ghost predicate Registered(w: World, v: Connection) {
    v.id in w.origins && v == w.origins[v.id].connection && v.id !in w.revoked
  }

  /** Refresh entries pair off with access tokens of the same family, one to one. */
  ghost predicate Twins(w: World) {
    && (forall r :: r in w.p.refresh ==> HasTwin(w, r))
    && (forall r, s :: r in w.p.refresh && s in w.p.refresh && r in w.twin && s in w.twin && w.twin[r] == w.twin[s] ==> r == s)
    && (forall t :: t in w.p.tokens && w.p.tokens[t].id in w.origins && w.origins[w.p.tokens[t].id].refreshes ==> IsTwin(w, t))
  }

  ghost predicate HasTwin(w: World, r: Digest) {
    r in w.twin && r in w.p.refresh && w.twin[r] in w.p.tokens && w.p.tokens[w.twin[r]] == w.p.refresh[r].connection
  }

  ghost predicate IsTwin(w: World, t: Digest) {
    exists r :: r in w.p.refresh && r in w.twin && w.twin[r] == t
  }

  /** In each family exactly the newest refresh entry is unused. */
  ghost predicate OneUnused(w: World) {
    forall r :: r in w.p.refresh ==>
      var id := w.p.refresh[r].connection.id;
      && id in w.newest && w.newest[id] in w.p.refresh && w.p.refresh[w.newest[id]].connection.id == id
      && (w.p.refresh[r].used <==> r != w.newest[id])
  }

  /** Codes come from approvals, an ask is approved once, a code is spent once, and what
      a connection was issued for is what was approved. */
  ghost predicate Provenance(w: World) {
    && (forall k :: k in w.p.codes ==> CodeSound(w, k))
    && (forall a, b :: a in w.approvals && b in w.approvals && w.approvals[a].ask == w.approvals[b].ask ==> a == b)
    && (forall k :: k in w.approvals ==> w.approvals[k].at <= w.now)
    && (forall id :: id in w.p.pending && w.p.pending[id].decision == Undecided ==> forall k :: k in w.approvals ==> w.approvals[k].ask != id)
    && (forall id :: id in w.origins ==> OriginSound(w, id))
    && (forall a, b :: a in w.origins && b in w.origins && w.origins[a].code == w.origins[b].code ==> a == b)
  }

  ghost predicate CodeSound(w: World, k: Digest)
    requires k in w.p.codes
  {
    && k in w.approvals
    && w.p.codes[k] == CodeFor(w.p, w.approvals[k].asked, w.approvals[k].at)
  }

  ghost predicate OriginSound(w: World, id: Id)
    requires id in w.origins
  {
    var o := w.origins[id];
    && o.code in w.approvals && o.code !in w.p.codes
    && o.connection.client == w.approvals[o.code].asked.client
    && o.redirect == w.approvals[o.code].asked.redirect
    && S256(o.verifier) == w.approvals[o.code].asked.challenge
    && o.connection.resource == w.p.resource
    && o.connection.expires < w.approvals[o.code].at + HOUR + MINUTE
  }

  ghost predicate Bounded(w: World) {
    |w.p.pending| <= MAX_PENDING && |w.p.codes| <= MAX_CODES && |w.p.tokens| <= MAX_TOKENS
  }

  ghost predicate Inv(w: World) {
    KeysDrawn(w) && Families(w) && Twins(w) && OneUnused(w) && Provenance(w) && Bounded(w)
  }

  // ------------------------------------------------------------- one section

  /** Whole families leave the tables, others stay as they are. */
  ghost predicate KeepsFamilies(p: Provider, p': Provider, keep: set<Id>) {
    && (forall k :: k in p'.tokens <==> k in p.tokens && p.tokens[k].id in keep)
    && (forall k :: k in p'.tokens ==> p'.tokens[k] == p.tokens[k])
    && (forall k :: k in p'.refresh <==> k in p.refresh && p.refresh[k].connection.id in keep)
    && (forall k :: k in p'.refresh ==> p'.refresh[k] == p.refresh[k])
  }

  lemma DropInv(w: World, p': Provider, keep: set<Id>)
    requires Families(w) && Twins(w) && OneUnused(w) && KeepsFamilies(w.p, p', keep)
    ensures Twins(w.(p := p')) && OneUnused(w.(p := p'))
  {
    var w' := w.(p := p');
    forall r | r in p'.refresh ensures HasTwin(w', r) {
      assert HasTwin(w, r);
    }
    forall t | t in p'.tokens && p'.tokens[t].id in w.origins && w.origins[p'.tokens[t].id].refreshes ensures IsTwin(w', t) {
      assert IsTwin(w, t);
      var r :| r in w.p.refresh && r in w.twin && w.twin[r] == t;
      assert HasTwin(w, r);
    }
  }

  lemma MapShrinks<K, V>(m: map<K, V>, m': map<K, V>)
    requires m'.Keys <= m.Keys
    ensures |m'| <= |m|
  {
    assert m.Keys == m'.Keys + (m.Keys - m'.Keys);
    assert |m.Keys| == |m| && |m'.Keys| == |m'|;
  }

  /** A step that adds nothing to the tables. */
  ghost predicate Shrinks(w: World, w': World, keep: set<Id>) {
    && w'.p.resource == w.p.resource && KeepsFamilies(w.p, w'.p, keep)
    && (forall k :: k in w'.p.pending ==>
          k in w.p.pending && (w'.p.pending[k].decision == Undecided ==> w.p.pending[k].decision == Undecided))
    && w'.p.codes.Keys <= w.p.codes.Keys && (forall k :: k in w'.p.codes ==> w'.p.codes[k] == w.p.codes[k])
    && w'.approvals == w.approvals && w'.origins == w.origins && w'.twin == w.twin && w'.newest == w.newest
    && w.drawn <= w'.drawn && w.now <= w'.now
    && w.revoked <= w'.revoked <= w'.drawn && (forall id :: id in w'.revoked && id !in w.revoked ==> id !in keep)
  }

  /** No code appears, and no origin, so what they trace to stands. */
  ghost predicate SameHistory(w: World, w': World) {
    && w'.p.resource == w.p.resource && w'.approvals == w.approvals && w'.origins == w.origins && w.now <= w'.now
    && w'.p.codes.Keys <= w.p.codes.Keys && (forall k :: k in w'.p.codes ==> w'.p.codes[k] == w.p.codes[k])
  }

  lemma ProvenanceStands(w: World, w': World)
    requires Provenance(w) && SameHistory(w, w')
    requires forall id :: id in w'.p.pending && w'.p.pending[id].decision == Undecided ==>
      (id in w.p.pending && w.p.pending[id].decision == Undecided) || (forall k :: k in w.approvals ==> w.approvals[k].ask != id)
    ensures Provenance(w')
  {
    forall k | k in w'.p.codes ensures CodeSound(w', k) { assert CodeSound(w, k); }
    forall o | o in w'.origins ensures OriginSound(w', o) { assert OriginSound(w, o); }
  }

  lemma ShrinkInv(w: World, w': World, keep: set<Id>)
    requires Inv(w) && Shrinks(w, w', keep)
    ensures Inv(w')
  {
    DropInv(w, w'.p, keep);
    ProvenanceStands(w, w');
    ShrinkFamilies(w, w', keep);
    MapShrinks(w.p.pending, w'.p.pending);
    MapShrinks(w.p.codes, w'.p.codes);
    MapShrinks(w.p.tokens, w'.p.tokens);
    TwinsFrame(w.(p := w'.p), w');
  }

  lemma ShrinkFamilies(w: World, w': World, keep: set<Id>)
    requires KeysDrawn(w) && Families(w) && Shrinks(w, w', keep)
    ensures KeysDrawn(w') && Families(w')
  {
  }

  lemma TwinsFrame(w: World, w': World)
    requires Twins(w) && OneUnused(w)
    requires w'.p.tokens == w.p.tokens && w'.p.refresh == w.p.refresh
    requires w'.origins == w.origins && w'.twin == w.twin && w'.newest == w.newest
    ensures Twins(w') && OneUnused(w')
  {
    forall r | r in w'.p.refresh ensures HasTwin(w', r) { assert HasTwin(w, r); }
    forall t | t in w'.p.tokens && w'.p.tokens[t].id in w'.origins && w'.origins[w'.p.tokens[t].id].refreshes ensures IsTwin(w', t) {
      assert IsTwin(w, t);
    }
  }

  lemma SweptInv(w: World)
    requires Inv(w)
    ensures Inv(Swept(w))
  {
    ShrinkInv(w, Swept(w), set id | id in w.origins && w.now < w.origins[id].connection.expires);
  }

  lemma RevokeInv(w: World, id: Id)
    requires Inv(w)
    ensures Inv(RevokeApply(w, id))
  {
    ShrinkInv(w, RevokeApply(w, id), w.origins.Keys - {id});
  }

  lemma SameTablesShrink(w: World, w': World)
    requires Families(w) && KeysDrawn(w)
    requires w'.p == w.p.(pending := w'.p.pending)
    requires forall k :: k in w'.p.pending ==>
      k in w.p.pending && (w'.p.pending[k].decision == Undecided ==> w.p.pending[k].decision == Undecided)
    requires w' == w.(p := w'.p, now := w'.now, revoking := w'.revoking) && w.now <= w'.now
    ensures Shrinks(w, w', w.origins.Keys)
  {
  }

  lemma ContinueInv(w: World, id: Id, cookie: Option<Secret>)
    requires Inv(w)
    ensures Inv(ContinueApply(w, id, cookie))
  {
    SameTablesShrink(w, ContinueApply(w, id, cookie));
    ShrinkInv(w, ContinueApply(w, id, cookie), w.origins.Keys);
  }

  lemma WaitInv(w: World, to: Time, revoking: set<Id>)
    requires Inv(w) && w.now <= to
    ensures Inv(w.(now := to, revoking := revoking))
  {
    SameTablesShrink(w, w.(now := to, revoking := revoking));
    ShrinkInv(w, w.(now := to, revoking := revoking), w.origins.Keys);
  }

  lemma DenyInv(w: World, id: Id, approve: bool, code: Option<Secret>)
    requires Inv(w) && !(approve && Decides(w.p, id, approve, code))
    ensures Inv(DecideApply(w, id, approve, code))
  {
    SameTablesShrink(w, DecideApply(w, id, approve, code));
    ShrinkInv(w, DecideApply(w, id, approve, code), w.origins.Keys);
  }

  /** The tables of tokens stay as they are, and what was drawn stays drawn. */
  ghost predicate SameTokens(w: World, w': World) {
    && w'.p.tokens == w.p.tokens && w'.p.refresh == w.p.refresh && w'.origins == w.origins
    && w'.twin == w.twin && w'.newest == w.newest && w'.revoked == w.revoked && w.drawn <= w'.drawn
  }

  lemma SameTokensKeep(w: World, w': World)
    requires KeysDrawn(w) && Families(w) && SameTokens(w, w')
    requires forall k :: k in w'.p.pending && k !in w.p.pending ==> k in w'.drawn
    requires forall k :: k in w'.approvals && (k !in w.approvals || w'.approvals[k] != w.approvals[k]) ==>
      k.of in w'.drawn && w'.approvals[k].ask in w'.drawn
    ensures KeysDrawn(w') && Families(w')
  {
    forall k | k in w'.approvals ensures k.of in w'.drawn && w'.approvals[k].ask in w'.drawn {
      if k in w.approvals && w'.approvals[k] == w.approvals[k] { assert k.of in w.drawn; }
    }
  }

  lemma EnterInv(w: World, id: Id, v: Pending, nonce: Secret)
    requires Inv(w) && id !in w.drawn
    ensures Inv(EnterApply(w, id, v, nonce))
  {
    var w' := EnterApply(w, id, v, nonce);
    assert KeysDrawn(w') && Families(w') by { EnterKeys(w, id, v, nonce); }
    assert Twins(w') && OneUnused(w') by { EnterTwins(w, id, v, nonce); }
    assert Provenance(w') by { EnterProvenance(w, id, v, nonce); }
    assert Bounded(w') by { EnterBounded(w, id, v, nonce); }
  }

  lemma EnterTwins(w: World, id: Id, v: Pending, nonce: Secret)
    requires Twins(w) && OneUnused(w)
    ensures Twins(EnterApply(w, id, v, nonce)) && OneUnused(EnterApply(w, id, v, nonce))
  {
    TwinsFrame(w, EnterApply(w, id, v, nonce));
  }

  lemma EnterKeys(w: World, id: Id, v: Pending, nonce: Secret)
    requires KeysDrawn(w) && Families(w)
    ensures KeysDrawn(EnterApply(w, id, v, nonce)) && Families(EnterApply(w, id, v, nonce))
  {
    SameTokensKeep(w, EnterApply(w, id, v, nonce));
  }

  lemma EnterBounded(w: World, id: Id, v: Pending, nonce: Secret)
    requires Bounded(w)
    ensures Bounded(EnterApply(w, id, v, nonce))
  {
    MapGrows(w.p.pending, id, v);
  }

  lemma MapGrows<K, V>(m: map<K, V>, k: K, v: V)
    ensures |m| <= |m[k := v]| <= |m| + 1
  {
    if k in m { MapKeep(m, m[k := v]); }
  }

  lemma MapKeep<K, V>(m: map<K, V>, m': map<K, V>)
    requires m'.Keys == m.Keys
    ensures |m| == |m'|
  {
    assert |m.Keys| == |m| && |m'.Keys| == |m'|;
  }

  lemma EnterProvenance(w: World, id: Id, v: Pending, nonce: Secret)
    requires Provenance(w) && KeysDrawn(w) && id !in w.drawn
    ensures Provenance(EnterApply(w, id, v, nonce))
  {
    ProvenanceStands(w, EnterApply(w, id, v, nonce));
  }

  lemma ApproveInv(w: World, id: Id, code: Secret)
    requires Inv(w) && code !in w.drawn && Decides(w.p, id, true, Some(code))
    ensures Inv(DecideApply(w, id, true, Some(code)))
  {
    var w' := DecideApply(w, id, true, Some(code));
    assert KeysDrawn(w') && Families(w') by { ApproveKeys(w, id, code); }
    assert Twins(w') && OneUnused(w') by { TwinsFrame(w, w'); }
    assert Provenance(w') by { ApproveProvenance(w, id, code); }
    assert Bounded(w') by { ApproveBounded(w, id, code); }
  }

  lemma ApproveKeys(w: World, id: Id, code: Secret)
    requires KeysDrawn(w) && Families(w) && code !in w.drawn && Decides(w.p, id, true, Some(code))
    ensures KeysDrawn(DecideApply(w, id, true, Some(code))) && Families(DecideApply(w, id, true, Some(code)))
  {
    SameTokensKeep(w, DecideApply(w, id, true, Some(code)));
  }

  lemma ApproveBounded(w: World, id: Id, code: Secret)
    requires Bounded(w) && Decides(w.p, id, true, Some(code))
    ensures Bounded(DecideApply(w, id, true, Some(code)))
  {
    var w' := DecideApply(w, id, true, Some(code));
    assert w'.p.pending.Keys == w.p.pending.Keys;
    MapShrinks(w.p.pending, w'.p.pending);
  }

  lemma ApproveProvenance(w: World, id: Id, code: Secret)
    requires Provenance(w) && KeysDrawn(w) && code !in w.drawn && Decides(w.p, id, true, Some(code))
    ensures Provenance(DecideApply(w, id, true, Some(code)))
  {
    var w' := DecideApply(w, id, true, Some(code));
    forall k | k in w'.p.codes ensures CodeSound(w', k) {
      if k != Digest(code) { assert CodeSound(w, k); }
    }
    forall o | o in w'.origins ensures OriginSound(w', o) { assert OriginSound(w, o); }
  }

  // ----------------------------------------------------------- new entries

  /** Every entry is old or carries the record `v`, which is registered. */
  ghost predicate AddsRecord(w: World, w': World, v: Connection) {
    && Registered(w', v) && v.id in w'.drawn
    && (forall k :: k in w'.p.tokens ==> (k in w.p.tokens && w'.p.tokens[k] == w.p.tokens[k]) || (w'.p.tokens[k] == v && k.of in w'.drawn))
    && (forall k :: k in w'.p.refresh ==>
          || (k in w.p.refresh && w'.p.refresh[k].connection == w.p.refresh[k].connection)
          || (w'.p.refresh[k].connection == v && w'.origins[v.id].refreshes && k.of in w'.drawn))
    && (forall id :: id in w.origins ==> id in w'.origins && w'.origins[id] == w.origins[id])
    && (forall id :: id in w'.origins && id !in w.origins ==> id == v.id)
    && w'.p.pending == w.p.pending && w'.approvals == w.approvals && w'.revoked == w.revoked
    && w.drawn <= w'.drawn
  }

  lemma RecordKeys(w: World, w': World, v: Connection)
    requires KeysDrawn(w) && AddsRecord(w, w', v)
    ensures KeysDrawn(w')
  {
  }

  lemma RecordFamilies(w: World, w': World, v: Connection)
    requires Families(w) && AddsRecord(w, w', v)
    ensures Families(w')
  {
    forall k | k in w'.p.tokens ensures Registered(w', w'.p.tokens[k]) {
      if k in w.p.tokens { assert Registered(w, w.p.tokens[k]); }
    }
    forall k | k in w'.p.refresh
      ensures Registered(w', w'.p.refresh[k].connection) && w'.origins[w'.p.refresh[k].connection.id].refreshes
    {
      if k in w.p.refresh { assert Registered(w, w.p.refresh[k].connection); }
    }
  }

  /** One access token and one refresh entry are added, each the other's twin. */
  ghost predicate AddsPair(w: World, w': World, r0: Digest, t0: Digest) {
    && t0 !in w.p.tokens && w'.p.tokens.Keys == w.p.tokens.Keys + {t0}
    && (forall t :: t in w.p.tokens ==> w'.p.tokens[t] == w.p.tokens[t])
    && r0 !in w.p.refresh && w'.p.refresh.Keys == w.p.refresh.Keys + {r0}
    && (forall r :: r in w.p.refresh ==> w'.p.refresh[r].connection == w.p.refresh[r].connection)
    && w'.p.tokens[t0] == w'.p.refresh[r0].connection
    && w'.twin == w.twin[r0 := t0]
    && SameKind(w, w')
  }

  /** The tokens there were belong to refreshing families as before. */
  ghost predicate SameKind(w: World, w': World) {
    forall t :: t in w.p.tokens && w.p.tokens[t].id in w'.origins && w'.origins[w.p.tokens[t].id].refreshes ==>
      w.p.tokens[t].id in w.origins && w.origins[w.p.tokens[t].id].refreshes
  }

  lemma PairTwins(w: World, w': World, r0: Digest, t0: Digest)
    requires Twins(w) && AddsPair(w, w', r0, t0)
    ensures Twins(w')
  {
    forall r | r in w'.p.refresh ensures HasTwin(w', r) {
      if r != r0 { assert HasTwin(w, r); }
    }
    forall r, s | r in w'.p.refresh && s in w'.p.refresh && w'.twin[r] == w'.twin[s] ensures r == s {
      if r != r0 { assert HasTwin(w, r); }
      if s != r0 { assert HasTwin(w, s); }
    }
    forall t | t in w'.p.tokens && w'.p.tokens[t].id in w'.origins && w'.origins[w'.p.tokens[t].id].refreshes ensures IsTwin(w', t) {
      if t == t0 {
        assert r0 in w'.p.refresh && w'.twin[r0] == t;
      } else {
        assert IsTwin(w, t);
        var r :| r in w.p.refresh && r in w.twin && w.twin[r] == t;
        assert r in w'.p.refresh && w'.twin[r] == t;
      }
    }
  }

  /** An access token of a family that does not refresh. */
  lemma LoneTwins(w: World, w': World, t0: Digest)
    requires Twins(w) && t0 !in w.p.tokens && w'.p.tokens.Keys == w.p.tokens.Keys + {t0}
    requires forall t :: t in w.p.tokens ==> w'.p.tokens[t] == w.p.tokens[t]
    requires w'.p.refresh == w.p.refresh && w'.twin == w.twin && SameKind(w, w')
    requires w'.p.tokens[t0].id in w'.origins && !w'.origins[w'.p.tokens[t0].id].refreshes
    ensures Twins(w')
  {
    forall r | r in w'.p.refresh ensures HasTwin(w', r) { assert HasTwin(w, r); }
    forall t | t in w'.p.tokens && w'.p.tokens[t].id in w'.origins && w'.origins[w'.p.tokens[t].id].refreshes ensures IsTwin(w', t) {
      assert IsTwin(w, t);
    }
  }

  // ------------------------------------------------------- issuing a family

  ghost predicate Issues(w: World, client: Client, form: CodeForm, d: Draw) {
    && Redeems(w.p, client, form) && |w.p.tokens| < MAX_TOKENS
    && Enabled(w, Exchange(client, form, Some(d)))
  }

  /** What issuing does, field by field. */
  ghost predicate Issued(w: World, w': World, v: Connection, form: CodeForm, refreshes: bool, d: Draw) {
    && v.id == d.connection && v.expires == w.now + HOUR && v.resource == w.p.resource
    && d.raw !in w.drawn && d.connection !in w.drawn && d.refresh !in w.drawn && d.raw != d.refresh
    && w'.now == w.now && w'.drawn == w.drawn + {d.raw, d.connection, d.refresh} && w'.revoked == w.revoked
    && w'.p.resource == w.p.resource && w'.p.pending == w.p.pending && w'.approvals == w.approvals
    && w'.p.codes == w.p.codes - {Digest(form.code)}
    && w'.p.tokens == w.p.tokens[Digest(d.raw) := v]
    && w'.origins == w.origins[v.id := Origin(v, Digest(form.code), form.redirect, form.verifier, refreshes)]
    && (if refreshes then
          && w'.p.refresh == w.p.refresh[Digest(d.refresh) := Refresh(v, false)]
          && w'.twin == w.twin[Digest(d.refresh) := Digest(d.raw)] && w'.newest == w.newest[v.id := Digest(d.refresh)]
        else w'.p.refresh == w.p.refresh && w'.twin == w.twin && w'.newest == w.newest)
  }

  lemma IssueFields(w: World, client: Client, form: CodeForm, d: Draw)
    requires Issues(w, client, form, d)
    ensures Issued(w, ExchangeApply(w, client, form, Some(d)),
                   Connection(d.connection, client.id, client.name, w.now + HOUR, w.p.resource), form, client.refreshes, d)
  {
  }

  lemma IssueKeys(w: World, w': World, v: Connection, form: CodeForm, refreshes: bool, d: Draw)
    requires KeysDrawn(w) && Families(w) && Issued(w, w', v, form, refreshes, d)
    ensures KeysDrawn(w') && Families(w')
  {
    RecordKeys(w, w', v);
    RecordFamilies(w, w', v);
  }

  lemma IssueTwins(w: World, w': World, v: Connection, form: CodeForm, refreshes: bool, d: Draw)
    requires KeysDrawn(w) && Families(w) && Twins(w) && Issued(w, w', v, form, refreshes, d)
    ensures Twins(w')
  {
    forall t | t in w.p.tokens ensures w.p.tokens[t].id != v.id {
      assert Registered(w, w.p.tokens[t]);
    }
    if refreshes { PairTwins(w, w', Digest(d.refresh), Digest(d.raw)); } else { LoneTwins(w, w', Digest(d.raw)); }
  }

  lemma IssueUnused(w: World, w': World, v: Connection, form: CodeForm, refreshes: bool, d: Draw)
    requires KeysDrawn(w) && Families(w) && OneUnused(w) && Issued(w, w', v, form, refreshes, d)
    ensures OneUnused(w')
  {
    forall r | r in w.p.refresh ensures r.of in w.drawn && w.p.refresh[r].connection.id in w.drawn {
      assert Registered(w, w.p.refresh[r].connection);
    }
  }

  lemma IssueProvenance(w: World, w': World, v: Connection, form: CodeForm, refreshes: bool, d: Draw)
    requires Provenance(w) && Issued(w, w', v, form, refreshes, d)
    requires Digest(form.code) in w.p.codes && w.now < w.p.codes[Digest(form.code)].expires
    requires w.p.codes[Digest(form.code)].client == v.client && w.p.codes[Digest(form.code)].redirect == form.redirect
    requires w.p.codes[Digest(form.code)].challenge == S256(form.verifier)
    ensures Provenance(w')
  {
    forall k | k in w'.p.codes ensures CodeSound(w', k) { assert CodeSound(w, k); }
    forall o | o in w'.origins ensures OriginSound(w', o) {
      if o == v.id { assert CodeSound(w, Digest(form.code)); } else { assert OriginSound(w, o); }
    }
    forall a | a in w.origins ensures w.origins[a].code != Digest(form.code) { assert OriginSound(w, a); }
  }

  lemma IssueBounded(w: World, w': World, v: Connection, form: CodeForm, refreshes: bool, d: Draw)
    requires Bounded(w) && Issued(w, w', v, form, refreshes, d) && |w.p.tokens| < MAX_TOKENS
    ensures Bounded(w')
  {
    MapShrinks(w.p.codes, w'.p.codes);
    MapGrows(w.p.tokens, Digest(d.raw), v);
  }

  lemma ExchangeInv(w: World, client: Client, form: CodeForm, draw: Option<Draw>)
    requires Inv(w) && Enabled(w, Exchange(client, form, draw))
    requires forall k :: k in w.p.codes ==> w.now < w.p.codes[k].expires
    ensures Inv(ExchangeApply(w, client, form, draw))
  {
    if draw.Some? && Issues(w, client, form, draw.value) {
      var d, yes := draw.value, client.refreshes;
      var v := Connection(d.connection, client.id, client.name, w.now + HOUR, w.p.resource);
      var w' := ExchangeApply(w, client, form, draw);
      assert Issued(w, w', v, form, yes, d) by { IssueFields(w, client, form, d); }
      assert KeysDrawn(w') && Families(w') by { IssueKeys(w, w', v, form, yes, d); }
      assert Twins(w') by { IssueTwins(w, w', v, form, yes, d); }
      assert OneUnused(w') by { IssueUnused(w, w', v, form, yes, d); }
      assert Provenance(w') by { IssueProvenance(w, w', v, form, yes, d); }
      assert Bounded(w') by { IssueBounded(w, w', v, form, yes, d); }
    } else {
      assert ExchangeApply(w, client, form, draw) == w;
    }
  }

  // ---------------------------------------------------------------- rotation

  ghost predicate Rotates(w: World, client: Client, token: Secret, pair: (Secret, Secret)) {
    && Refreshed(w.p, w.now, client, token, Some(pair)).1.Rotated?
    && Enabled(w, Rotate(client, token, Some(pair)))
  }

  /** What a rotation does, field by field. */
  ghost predicate Turned(w: World, w': World, v: Connection, k: Digest, pair: (Secret, Secret)) {
    && k in w.p.refresh && w.p.refresh[k] == Refresh(v, false)
    && pair.0 !in w.drawn && pair.1 !in w.drawn && pair.0 != pair.1
    && w'.now == w.now && w'.drawn == w.drawn + {pair.0, pair.1} && w'.revoked == w.revoked
    && w'.p.resource == w.p.resource && w'.p.pending == w.p.pending && w'.p.codes == w.p.codes
    && w'.approvals == w.approvals && w'.origins == w.origins
    && w'.p.tokens == w.p.tokens[Digest(pair.0) := v]
    && w'.p.refresh == w.p.refresh[k := Refresh(v, true)][Digest(pair.1) := Refresh(v, false)]
    && w'.twin == w.twin[Digest(pair.1) := Digest(pair.0)] && w'.newest == w.newest[v.id := Digest(pair.1)]
  }

  lemma TurnFields(w: World, client: Client, token: Secret, pair: (Secret, Secret))
    requires Rotates(w, client, token, pair)
    ensures Digest(token) in w.p.refresh && |w.p.tokens| < MAX_TOKENS
    ensures Turned(w, RotateApply(w, client, token, Some(pair)), w.p.refresh[Digest(token)].connection, Digest(token), pair)
  {
  }

  lemma TurnKeys(w: World, w': World, v: Connection, k: Digest, pair: (Secret, Secret))
    requires KeysDrawn(w) && Families(w) && Turned(w, w', v, k, pair)
    ensures KeysDrawn(w') && Families(w')
  {
    assert Registered(w, v);
    RecordKeys(w, w', v);
    RecordFamilies(w, w', v);
  }

  lemma TurnAddsPair(w: World, w': World, v: Connection, k: Digest, pair: (Secret, Secret))
    requires KeysDrawn(w) && Turned(w, w', v, k, pair)
    ensures AddsPair(w, w', Digest(pair.1), Digest(pair.0))
  {
  }

  lemma TurnTwins(w: World, w': World, v: Connection, k: Digest, pair: (Secret, Secret))
    requires KeysDrawn(w) && Twins(w) && Turned(w, w', v, k, pair)
    ensures Twins(w')
  {
    TurnAddsPair(w, w', v, k, pair);
    PairTwins(w, w', Digest(pair.1), Digest(pair.0));
  }

  lemma TurnUnused(w: World, w': World, v: Connection, k: Digest, pair: (Secret, Secret))
    requires KeysDrawn(w) && OneUnused(w) && Turned(w, w', v, k, pair)
    ensures OneUnused(w')
  {
  }

  lemma TurnProvenance(w: World, w': World, v: Connection, k: Digest, pair: (Secret, Secret))
    requires Provenance(w) && Turned(w, w', v, k, pair)
    ensures Provenance(w')
  {
    ProvenanceStands(w, w');
  }

  lemma TurnBounded(w: World, w': World, v: Connection, k: Digest, pair: (Secret, Secret))
    requires Bounded(w) && Turned(w, w', v, k, pair) && |w.p.tokens| < MAX_TOKENS
    ensures Bounded(w')
  {
    MapGrows(w.p.tokens, Digest(pair.0), v);
  }

  lemma NoTurn(w: World, client: Client, token: Secret, pair: Option<(Secret, Secret)>)
    requires Enabled(w, Rotate(client, token, pair)) && !(pair.Some? && Rotates(w, client, token, pair.value))
    ensures RotateApply(w, client, token, pair) == w.(revoking := RotateApply(w, client, token, pair).revoking)
  {
  }

  lemma RotateInv(w: World, client: Client, token: Secret, pair: Option<(Secret, Secret)>)
    requires Inv(w) && Enabled(w, Rotate(client, token, pair))
    ensures Inv(RotateApply(w, client, token, pair))
  {
    if pair.Some? && Rotates(w, client, token, pair.value) {
      var w', k := RotateApply(w, client, token, pair), Digest(token);
      TurnFields(w, client, token, pair.value);
      var v := w.p.refresh[k].connection;
      assert KeysDrawn(w') && Families(w') by { TurnKeys(w, w', v, k, pair.value); }
      assert Twins(w') by { TurnTwins(w, w', v, k, pair.value); }
      assert OneUnused(w') by { TurnUnused(w, w', v, k, pair.value); }
      assert Provenance(w') by { TurnProvenance(w, w', v, k, pair.value); }
      assert Bounded(w') by { TurnBounded(w, w', v, k, pair.value); }
    } else {
      var revoking := RotateApply(w, client, token, pair).revoking;
      assert Inv(w.(now := w.now, revoking := revoking)) by { WaitInv(w, w.now, revoking); }
      NoTurn(w, client, token, pair);
    }
  }

  lemma StepInv(w: World, l: Label)
    requires Inv(w) && Enabled(w, l)
    ensures Inv(Apply(w, l))
  {
    match l
    case Tick(to) => WaitInv(w, to, w.revoking);
    case Clean => SweptInv(w);
    case Enter(id, v, nonce) => EnterInv(w, id, v, nonce);
    case Decide(id, approve, code) =>
      SweptInv(w);
      if approve && Decides(Swept(w).p, id, approve, code) {
        ApproveInv(Swept(w), id, code.value);
      } else {
        DenyInv(Swept(w), id, approve, code);
      }
    case Continue(id, cookie) =>
      SweptInv(w);
      ContinueInv(Swept(w), id, cookie);
    case Exchange(client, form, draw) =>
      SweptInv(w);
      ExchangeInv(Swept(w), client, form, draw);
    case Rotate(client, token, pair) =>
      SweptInv(w);
      RotateInv(Swept(w), client, token, pair);
    case AskRevoke(client, token) => WaitInv(w, w.now, AskApply(w, client, token).revoking);
    case Revoke(id) => RevokeInv(w, id);
  }
}

/** What holds along every run of the authorization server. */
module OAuthSafety {
  import opened Common
  import opened OAuthModel
  import opened OAuthRuns

  lemma StartInv(resource: Uri)
    ensures Inv(Start(resource))
  {
  }

  /** History only grows; values once seen make no new authorization; what is due to be
      revoked stays due until it is. */
  ghost predicate Grows(w: World, w': World) {
    && w.drawn <= w'.drawn && w.now <= w'.now && w.revoked <= w'.revoked
    && w.approvals.Keys <= w'.approvals.Keys && (forall k :: k in w.approvals ==> w'.approvals[k] == w.approvals[k])
    && w.origins.Keys <= w'.origins.Keys && (forall id :: id in w.origins ==> w'.origins[id] == w.origins[id])
    && (forall id :: id in w.revoking ==> id in w'.revoking || id in w'.revoked)
    && (forall k :: k in w'.p.pending && k !in w.p.pending ==> k !in w.drawn)
  }

  lemma SweptGrows(w: World)
    requires KeysDrawn(w)
    ensures KeysDrawn(Swept(w)) && Grows(w, Swept(w))
  {
  }

  lemma DecideGrows(w: World, id: Id, approve: bool, code: Option<Secret>)
    requires KeysDrawn(w) && Enabled(w, Decide(id, approve, code))
    ensures Grows(w, DecideApply(w, id, approve, code))
  {
    if approve && Decides(w.p, id, approve, code) {
      assert Digest(code.value) !in w.approvals;
    }
  }

  lemma ExchangeGrows(w: World, client: Client, form: CodeForm, draw: Option<Draw>)
    requires KeysDrawn(w) && Enabled(w, Exchange(client, form, draw))
    ensures Grows(w, ExchangeApply(w, client, form, draw))
  {
    if draw.Some? && Issues(w, client, form, draw.value) {
      IssueFields(w, client, form, draw.value);
      assert draw.value.connection !in w.origins;
    } else {
      assert ExchangeApply(w, client, form, draw) == w;
    }
  }

  lemma RotateGrows(w: World, client: Client, token: Secret, pair: Option<(Secret, Secret)>)
    requires Enabled(w, Rotate(client, token, pair))
    ensures Grows(w, RotateApply(w, client, token, pair))
  {
    if pair.Some? && Rotates(w, client, token, pair.value) {
      TurnFields(w, client, token, pair.value);
    } else {
      NoTurn(w, client, token, pair);
    }
  }

  lemma GrowsTransitive(u: World, v: World, w: World)
    requires Grows(u, v) && Grows(v, w)
    ensures Grows(u, w)
  {
  }

  lemma StepGrows(w: World, l: Label)
    requires KeysDrawn(w) && Enabled(w, l)
    ensures Grows(w, Apply(w, l))
  {
    if l.Decide? || l.Continue? || l.Exchange? || l.Rotate? {
      SweptGrows(w);
      if l.Decide? {
        DecideGrows(Swept(w), l.id, l.approve, l.code);
      } else if l.Exchange? {
        ExchangeGrows(Swept(w), l.client, l.form, l.draw);
      } else if l.Rotate? {
        RotateGrows(Swept(w), l.client, l.token, l.pair);
      }
      GrowsTransitive(w, Swept(w), Apply(w, l));
    }
  }

  lemma StepInvAt(ws: seq<World>, ls: seq<Label>, i: nat)
    requires i < |ls| && |ws| == |ls| + 1 && StepAt(ws, ls, i) && Inv(ws[i])
    ensures Inv(ws[i + 1])
  {
    StepInv(ws[i], ls[i]);
  }

  lemma {:induction false} RunInv(ws: seq<World>, ls: seq<Label>, resource: Uri, i: nat)
    requires IsRun(ws, ls, resource) && i <= |ls|
    ensures Inv(ws[i])
  {
    if i == 0 {
      StartInv(resource);
    } else {
      var k := i - 1;
      RunInv(ws, ls, resource, k);
      StepInvAt(ws, ls, k);
    }
  }

  lemma RunKeys(ws: seq<World>, ls: seq<Label>, resource: Uri, i: nat)
    requires IsRun(ws, ls, resource) && i <= |ls|
    ensures KeysDrawn(ws[i])
  {
    RunInv(ws, ls, resource, i);
  }

  lemma OneGrows(ws: seq<World>, ls: seq<Label>, resource: Uri, i: nat)
    requires IsRun(ws, ls, resource) && i < |ls|
    ensures Grows(ws[i], ws[i + 1])
  {
    RunKeys(ws, ls, resource, i);
    assert StepAt(ws, ls, i);
    StepGrows(ws[i], ls[i]);
  }

  lemma {:induction false} RunGrows(ws: seq<World>, ls: seq<Label>, resource: Uri, i: nat, j: nat)
    requires IsRun(ws, ls, resource) && i <= j <= |ls|
    ensures Grows(ws[i], ws[j])
    decreases j
  {
    if i < j {
      RunGrows(ws, ls, resource, i, j - 1);
      OneGrows(ws, ls, resource, j - 1);
      GrowsTransitive(ws[i], ws[j - 1], ws[j]);
    }
  }

  // ---------------------------------------------------------------- families

  function FamilyTokens(w: World, id: Id): set<Digest> {
    set k | k in w.p.tokens && w.p.tokens[k].id == id
  }

  function FamilyRefresh(w: World, id: Id): set<Digest> {
    set k | k in w.p.refresh && w.p.refresh[k].connection.id == id
  }

  /** A one-to-one relation bounds; onto, it counts. */
  lemma {:induction false} Injection(a: set<Digest>, f: map<Digest, Digest>, b: set<Digest>)
    requires a <= f.Keys && (forall x :: x in a ==> f[x] in b)
    requires forall x, y :: x in a && y in a && f[x] == f[y] ==> x == y
    ensures |a| <= |b|
    ensures (forall y :: y in b ==> exists x :: x in a && f[x] == y) ==> |a| == |b|
    decreases a
  {
    if a == {} {
      if b != {} {
        var y :| y in b;
      }
    } else {
      var x :| x in a;
      var a', b' := a - {x}, b - {f[x]};
      if forall y :: y in b ==> exists z :: z in a && f[z] == y {
        forall y | y in b' ensures exists z :: z in a' && f[z] == y {
          var z :| z in a && f[z] == y;
          assert z in a';
        }
      }
      Injection(a', f, b');
    }
  }

  /** One record per connection, a token for each refresh entry, and exactly one unused
      refresh entry in a family that has any. */
  ghost predicate WellShaped(w: World, id: Id) {
    && (forall a, b :: a in FamilyTokens(w, id) && b in FamilyTokens(w, id) ==> w.p.tokens[a] == w.p.tokens[b])
    && (forall a, b :: a in FamilyTokens(w, id) && b in FamilyRefresh(w, id) ==> w.p.tokens[a] == w.p.refresh[b].connection)
    && (FamilyRefresh(w, id) != {} ==> |FamilyRefresh(w, id)| == |FamilyTokens(w, id)|)
    && (FamilyRefresh(w, id) != {} ==> exists r :: OnlyUnused(w, id, r))
  }

  ghost predicate OnlyUnused(w: World, id: Id, r: Digest) {
    r in FamilyRefresh(w, id) && forall s :: s in FamilyRefresh(w, id) ==> (w.p.refresh[s].used <==> s != r)
  }

  lemma FamilyShape(ws: seq<World>, ls: seq<Label>, resource: Uri, i: nat, id: Id)
    requires IsRun(ws, ls, resource) && i <= |ls|
    ensures WellShaped(ws[i], id)
    ensures id in ws[i].origins && ws[i].origins[id].refreshes ==> |FamilyRefresh(ws[i], id)| == |FamilyTokens(ws[i], id)|
  {
    var w := ws[i];
    assert Families(w) && Twins(w) && OneUnused(w) by { RunInv(ws, ls, resource, i); }
    OneRecord(w, id);
    OnlyOneUnused(w, id);
    if id in w.origins && w.origins[id].refreshes { FamilyCounts(w, id); }
  }

  lemma OneRecord(w: World, id: Id)
    requires Families(w)
    ensures forall a :: a in FamilyTokens(w, id) ==> id in w.origins && w.p.tokens[a] == w.origins[id].connection
    ensures forall b :: b in FamilyRefresh(w, id) ==>
      id in w.origins && w.origins[id].refreshes && w.p.refresh[b].connection == w.origins[id].connection
  {
    forall a | a in FamilyTokens(w, id) ensures id in w.origins && w.p.tokens[a] == w.origins[id].connection {
      assert Registered(w, w.p.tokens[a]);
    }
    forall b | b in FamilyRefresh(w, id) ensures id in w.origins && w.p.refresh[b].connection == w.origins[id].connection {
      assert Registered(w, w.p.refresh[b].connection);
    }
  }

  lemma OnlyOneUnused(w: World, id: Id)
    requires OneUnused(w)
    ensures FamilyRefresh(w, id) != {} ==> exists r :: OnlyUnused(w, id, r)
  {
    if FamilyRefresh(w, id) != {} {
      var s :| s in FamilyRefresh(w, id);
      assert OnlyUnused(w, id, w.newest[id]);
    }
  }

  lemma FamilyCounts(w: World, id: Id)
    requires Twins(w) && id in w.origins && w.origins[id].refreshes
    ensures |FamilyRefresh(w, id)| == |FamilyTokens(w, id)|
  {
    forall r | r in FamilyRefresh(w, id) ensures r in w.twin && w.twin[r] in FamilyTokens(w, id) { assert HasTwin(w, r); }
    forall t | t in FamilyTokens(w, id) ensures exists r :: r in FamilyRefresh(w, id) && w.twin[r] == t {
      assert IsTwin(w, t);
      var r :| r in w.p.refresh && r in w.twin && w.twin[r] == t;
      assert HasTwin(w, r);
      assert r in FamilyRefresh(w, id);
    }
    Injection(FamilyRefresh(w, id), w.twin, FamilyTokens(w, id));
  }

  /** The code exchange never checks the size of the refresh table, and need not: there are
      never more refresh entries than access tokens, so the refresh limit never fires. */
  lemma RefreshWithinTokens(ws: seq<World>, ls: seq<Label>, resource: Uri, i: nat)
    requires IsRun(ws, ls, resource) && i <= |ls|
    ensures |ws[i].p.refresh| <= |ws[i].p.tokens| <= MAX_TOKENS < MAX_REFRESH
    ensures |ws[i].p.pending| <= MAX_PENDING && |ws[i].p.codes| <= MAX_CODES
  {
    var w := ws[i];
    assert Twins(w) && Bounded(w) by { RunInv(ws, ls, resource, i); }
    forall r | r in w.p.refresh ensures r in w.twin && w.twin[r] in w.p.tokens { assert HasTwin(w, r); }
    Injection(w.p.refresh.Keys, w.twin, w.p.tokens.Keys);
    assert |w.p.refresh.Keys| == |w.p.refresh| && |w.p.tokens.Keys| == |w.p.tokens|;
  }

  // -------------------------------------------------------------- revocation

  /** Nothing of a connection is in the tables. */
  ghost predicate Gone(w: World, id: Id) {
    FamilyTokens(w, id) == {} && FamilyRefresh(w, id) == {}
  }

  /** After a revocation nothing of the connection verifies, rotates or comes back, in any
      continuation, whatever rotations there were before it. */
  lemma RevokedForGood(ws: seq<World>, ls: seq<Label>, resource: Uri, i: nat, j: nat, id: Id)
    requires IsRun(ws, ls, resource) && i < j <= |ls| && ls[i] == Revoke(id)
    ensures Gone(ws[j], id)
    ensures forall k :: k in ws[j].p.tokens ==> ws[j].p.tokens[k].id != id
    ensures forall k :: k in ws[j].p.refresh ==> ws[j].p.refresh[k].connection.id != id
    ensures forall raw, now :: Verified(ws[j].p, now, raw).Some? ==> Verified(ws[j].p, now, raw).value.id != id
    ensures forall client, token :: Presents(ws[j].p, client, token) ==> ws[j].p.refresh[Digest(token)].connection.id != id
  {
    assert StepAt(ws, ls, i);
    RunGrows(ws, ls, resource, i + 1, j);
    assert Families(ws[j]) by { RunInv(ws, ls, resource, j); }
    GoneWhenRevoked(ws[j], id);
    GoneIsUseless(ws[j], id);
    GoneMeans(ws[j], id);
  }

  lemma GoneMeans(w: World, id: Id)
    requires Gone(w, id)
    ensures forall k :: k in w.p.tokens ==> w.p.tokens[k].id != id
    ensures forall k :: k in w.p.refresh ==> w.p.refresh[k].connection.id != id
  {
    forall k | k in w.p.tokens ensures w.p.tokens[k].id != id { assert k !in FamilyTokens(w, id); }
    forall k | k in w.p.refresh ensures w.p.refresh[k].connection.id != id { assert k !in FamilyRefresh(w, id); }
  }

  lemma GoneIsUseless(w: World, id: Id)
    requires Gone(w, id)
    ensures forall raw, now :: Verified(w.p, now, raw).Some? ==> Verified(w.p, now, raw).value.id != id
    ensures forall client, token :: Presents(w.p, client, token) ==> w.p.refresh[Digest(token)].connection.id != id
  {
    forall raw, now | Verified(w.p, now, raw).Some? ensures Verified(w.p, now, raw).value.id != id {
      assert Digest(raw) !in FamilyTokens(w, id);
    }
    forall client, token | Presents(w.p, client, token) ensures w.p.refresh[Digest(token)].connection.id != id {
      assert Digest(token) !in FamilyRefresh(w, id);
    }
  }

  lemma GoneWhenRevoked(w: World, id: Id)
    requires Families(w) && id in w.revoked
    ensures Gone(w, id)
  {
    forall k | k in w.p.tokens ensures w.p.tokens[k].id != id { assert Registered(w, w.p.tokens[k]); }
    forall k | k in w.p.refresh ensures w.p.refresh[k].connection.id != id { assert Registered(w, w.p.refresh[k].connection); }
  }

  /** Showing a used refresh token dooms its family: it is gone for good from the moment
      the revocation that the replay started has run, and until then that revocation is
      still due. Rotations in between change nothing. */
  lemma ReplayEndsFamily(ws: seq<World>, ls: seq<Label>, resource: Uri, i: nat, j: nat, client: Client, token: Secret,
                         pair: Option<(Secret, Secret)>)
    requires IsRun(ws, ls, resource) && i < j <= |ls| && ls[i] == Rotate(client, token, pair)
    requires Digest(token) in ws[i].p.refresh && ws[i].p.refresh[Digest(token)].used
    requires ws[i].now < ws[i].p.refresh[Digest(token)].connection.expires
    requires ws[i].p.refresh[Digest(token)].connection.client == client.id
    ensures var id := ws[i].p.refresh[Digest(token)].connection.id;
      id in ws[j].revoking || (id in ws[j].revoked && Gone(ws[j], id))
  {
    var id := ws[i].p.refresh[Digest(token)].connection.id;
    assert StepAt(ws, ls, i);
    SameResource(ws, ls, resource, i, Digest(token));
    ReplayNoted(ws[i], client, token, pair);
    assert id in ws[i + 1].revoking;
    StillDue(ws, ls, resource, i + 1, j, id);
  }

  /** There is one resource. */
  lemma SameResource(ws: seq<World>, ls: seq<Label>, resource: Uri, i: nat, k: Digest)
    requires IsRun(ws, ls, resource) && i <= |ls| && k in ws[i].p.refresh
    ensures ws[i].p.refresh[k].connection.resource == ws[i].p.resource
  {
    RunInv(ws, ls, resource, i);
    assert Registered(ws[i], ws[i].p.refresh[k].connection) && OriginSound(ws[i], ws[i].p.refresh[k].connection.id);
  }

  lemma ReplayNoted(w: World, client: Client, token: Secret, pair: Option<(Secret, Secret)>)
    requires Presents(Swept(w).p, client, token) && w.p.refresh[Digest(token)].used
    ensures w.p.refresh[Digest(token)].connection.id in Apply(w, Rotate(client, token, pair)).revoking
  {
  }

  /** No value is both an access token and a refresh token. */
  ghost predicate Apart(w: World) {
    forall k :: k in w.p.tokens ==> k !in w.p.refresh
  }

  lemma ExchangeApart(w: World, client: Client, form: CodeForm, draw: Option<Draw>)
    requires KeysDrawn(w) && Apart(w) && Enabled(w, Exchange(client, form, draw))
    ensures Apart(ExchangeApply(w, client, form, draw))
  {
  }

  lemma RotateAdds(p: Provider, now: Time, client: Client, token: Secret, pair: Option<(Secret, Secret)>)
    ensures var p' := Refreshed(p, now, client, token, pair).0;
      && (forall k :: k in p'.tokens ==> k in p.tokens || (pair.Some? && k == Digest(pair.value.0)))
      && (forall k :: k in p'.refresh ==> k in p.refresh || (pair.Some? && k == Digest(pair.value.1)))
  {
  }

  lemma RotateApart(w: World, client: Client, token: Secret, pair: Option<(Secret, Secret)>)
    requires KeysDrawn(w) && Apart(w) && Enabled(w, Rotate(client, token, pair))
    ensures Apart(RotateApply(w, client, token, pair))
  {
    RotateAdds(w.p, w.now, client, token, pair);
  }

  lemma ApartStep(w: World, l: Label)
    requires KeysDrawn(w) && Apart(w) && Enabled(w, l)
    ensures Apart(Apply(w, l))
  {
    if l.Exchange? || l.Rotate? {
      SweptApart(w);
      if l.Exchange? { ExchangeApart(Swept(w), l.client, l.form, l.draw); } else { RotateApart(Swept(w), l.client, l.token, l.pair); }
    } else {
      OthersShrink(w, l);
    }
  }

  lemma SweptApart(w: World)
    requires KeysDrawn(w) && Apart(w)
    ensures KeysDrawn(Swept(w)) && Apart(Swept(w))
  {
  }

  lemma OthersShrink(w: World, l: Label)
    requires Apart(w) && !l.Exchange? && !l.Rotate?
    ensures Apart(Apply(w, l))
  {
    match l
    case Tick(_) =>
    case Clean => SweptTables(w);
    case Enter(_, _, _) =>
    case Decide(id, approve, code) =>
      SweptTables(w);
      assert Apply(w, l) == DecideApply(Swept(w), id, approve, code);
    case Continue(id, cookie) =>
      SweptTables(w);
      assert Apply(w, l) == ContinueApply(Swept(w), id, cookie);
    case AskRevoke(_, _) =>
    case Revoke(_) =>
  }

  lemma SweptTables(w: World)
    requires Apart(w)
    ensures Apart(Swept(w))
  {
  }

  lemma {:induction false} ApartRun(ws: seq<World>, ls: seq<Label>, resource: Uri, i: nat)
    requires IsRun(ws, ls, resource) && i <= |ls|
    ensures Apart(ws[i])
    decreases i
  {
    if i > 0 {
      ApartRun(ws, ls, resource, i - 1);
      assert KeysDrawn(ws[i - 1]) by { RunInv(ws, ls, resource, i - 1); }
      assert StepAt(ws, ls, i - 1);
      ApartStep(ws[i - 1], ls[i - 1]);
    }
  }

  /** The value is an access token or a refresh token of this client, of this connection. */
  predicate Holds(p: Provider, client: Client, token: Secret, id: Id) {
    || (Digest(token) in p.tokens && p.tokens[Digest(token)].client == client.id && p.tokens[Digest(token)].id == id)
    || (&& Digest(token) in p.refresh && p.refresh[Digest(token)].connection.client == client.id
        && p.refresh[Digest(token)].connection.id == id)
  }

  /** A client that asks to revoke any token of its own, for access or for refresh, used or
      not, dooms the family in the same way. */
  lemma AskedEndsFamily(ws: seq<World>, ls: seq<Label>, resource: Uri, i: nat, j: nat, client: Client, token: Secret, id: Id)
    requires IsRun(ws, ls, resource) && i < j <= |ls| && ls[i] == AskRevoke(client, token)
    requires Holds(ws[i].p, client, token, id)
    ensures id in ws[j].revoking || (id in ws[j].revoked && Gone(ws[j], id))
  {
    assert StepAt(ws, ls, i);
    ApartRun(ws, ls, resource, i);
    StillDue(ws, ls, resource, i + 1, j, id);
  }

  /** With anything else it changes nothing at all. */
  lemma OthersNotRevoked(ws: seq<World>, ls: seq<Label>, resource: Uri, i: nat, client: Client, token: Secret)
    requires IsRun(ws, ls, resource) && i < |ls| && ls[i] == AskRevoke(client, token)
    requires forall id :: !Holds(ws[i].p, client, token, id)
    ensures ws[i + 1] == ws[i]
  {
    assert StepAt(ws, ls, i);
    var k := Digest(token);
    if k in ws[i].p.tokens { assert !Holds(ws[i].p, client, token, ws[i].p.tokens[k].id); }
    if k in ws[i].p.refresh { assert !Holds(ws[i].p, client, token, ws[i].p.refresh[k].connection.id); }
  }

  lemma StillDue(ws: seq<World>, ls: seq<Label>, resource: Uri, i: nat, j: nat, id: Id)
    requires IsRun(ws, ls, resource) && i <= j <= |ls| && (id in ws[i].revoking || id in ws[i].revoked)
    ensures id in ws[j].revoking || (id in ws[j].revoked && Gone(ws[j], id))
  {
    RunGrows(ws, ls, resource, i, j);
    assert Families(ws[j]) by { RunInv(ws, ls, resource, j); }
    if id in ws[j].revoked { GoneWhenRevoked(ws[j], id); }
  }

  // -------------------------------------------------------------- provenance

  /** The step is a local approval that takes effect. */
  ghost predicate Approves(w: World, l: Label, a: Approval, code: Digest) {
    && l == Decide(a.ask, true, Some(code.of)) && Decides(Swept(w).p, a.ask, true, Some(code.of))
    && a.asked == Swept(w).p.pending[a.ask] && a.at == w.now
  }

  /** The step is a code exchange that makes this connection. */
  ghost predicate Makes(w: World, l: Label, o: Origin) {
    && l.Exchange? && Digest(l.form.code) == o.code && l.form.redirect == o.redirect && l.form.verifier == o.verifier
    && l.client.id == o.connection.client
    && Exchanged(Swept(w).p, w.now, l.client, l.form, l.draw).1 == Exchange.Issued(o.connection)
  }

  lemma StepOrigin(w: World, l: Label, k: Digest)
    requires Enabled(w, l) && k in Apply(w, l).approvals && k !in w.approvals
    ensures Approves(w, l, Apply(w, l).approvals[k], k)
  {
    assert !l.Exchange? && !l.Rotate?;
    if l.Decide? {
      assert Apply(w, l) == DecideApply(Swept(w), l.id, l.approve, l.code);
    }
  }

  lemma StepMakes(w: World, l: Label, id: Id)
    requires Enabled(w, l) && id in Apply(w, l).origins && id !in w.origins
    ensures Makes(w, l, Apply(w, l).origins[id])
  {
    if l.Exchange? { ExchangeMakes(Swept(w), l.client, l.form, l.draw, id); }
  }

  lemma ExchangeMakes(w: World, client: Client, form: CodeForm, draw: Option<Draw>, id: Id)
    requires id in ExchangeApply(w, client, form, draw).origins && id !in w.origins
    ensures var o := ExchangeApply(w, client, form, draw).origins[id];
      && Exchanged(w.p, w.now, client, form, draw).1 == Exchange.Issued(o.connection)
      && o == Origin(o.connection, Digest(form.code), form.redirect, form.verifier, client.refreshes)
      && o.connection.client == client.id
  {
  }

  lemma {:induction false} ApprovedEarlier(ws: seq<World>, ls: seq<Label>, resource: Uri, j: nat, k: Digest) returns (i: nat)
    requires IsRun(ws, ls, resource) && j <= |ls| && k in ws[j].approvals
    ensures i < j && Approves(ws[i], ls[i], ws[j].approvals[k], k)
    decreases j
  {
    assert j > 0;
    if k in ws[j - 1].approvals {
      i := ApprovedEarlier(ws, ls, resource, j - 1, k);
      OneGrows(ws, ls, resource, j - 1);
    } else {
      i := j - 1;
      assert StepAt(ws, ls, i);
      StepOrigin(ws[i], ls[i], k);
    }
  }

  lemma {:induction false} MadeEarlier(ws: seq<World>, ls: seq<Label>, resource: Uri, j: nat, id: Id) returns (i: nat)
    requires IsRun(ws, ls, resource) && j <= |ls| && id in ws[j].origins
    ensures i < j && Makes(ws[i], ls[i], ws[j].origins[id])
    decreases j
  {
    assert j > 0;
    if id in ws[j - 1].origins {
      i := MadeEarlier(ws, ls, resource, j - 1, id);
      OneGrows(ws, ls, resource, j - 1);
    } else {
      i := j - 1;
      assert StepAt(ws, ls, i);
      StepMakes(ws[i], ls[i], id);
    }
  }

  /** Every access token that verifies comes, through any number of refreshes, from one
      local approval and the exchange of the code it made: for the approved client and
      redirect, with a verifier of the approved challenge, and only while less than
      61 minutes have passed since that approval. */
  lemma ConnectionTraced(ws: seq<World>, ls: seq<Label>, resource: Uri, j: nat, raw: Secret)
    returns (i: nat, k: nat, a: Approval, o: Origin)
    requires IsRun(ws, ls, resource) && j <= |ls| && Verified(ws[j].p, ws[j].now, raw).Some?
    ensures i < k < j && Approves(ws[i], ls[i], a, o.code) && Makes(ws[k], ls[k], o)
    ensures o.connection == Verified(ws[j].p, ws[j].now, raw).value
    ensures o.connection.client == a.asked.client && o.redirect == a.asked.redirect && S256(o.verifier) == a.asked.challenge
    ensures ws[j].now < ws[i].now + HOUR + MINUTE
  {
    var w := ws[j];
    var v := w.p.tokens[Digest(raw)];
    assert Registered(w, v) && OriginSound(w, v.id) by { RunInv(ws, ls, resource, j); }
    o := w.origins[v.id];
    a := w.approvals[o.code];
    i := ApprovedEarlier(ws, ls, resource, j, o.code);
    k := MadeEarlier(ws, ls, resource, j, v.id);
    CodeBeforeExchange(ws, ls, resource, i, k, a, o);
  }

  /** The approval comes before the exchange. */
  lemma CodeBeforeExchange(ws: seq<World>, ls: seq<Label>, resource: Uri, i: nat, k: nat, a: Approval, o: Origin)
    requires IsRun(ws, ls, resource) && i < |ls| && k < |ls|
    requires Approves(ws[i], ls[i], a, o.code) && Makes(ws[k], ls[k], o)
    ensures i < k
  {
    assert StepAt(ws, ls, i);
    assert o.code.of !in ws[i].drawn;
    CodeSeen(ws, ls, resource, k, o);
    if k <= i { RunGrows(ws, ls, resource, k, i); }
  }

  lemma CodeSeen(ws: seq<World>, ls: seq<Label>, resource: Uri, k: nat, o: Origin)
    requires IsRun(ws, ls, resource) && k < |ls| && Makes(ws[k], ls[k], o)
    ensures o.code in ws[k].p.codes && o.code.of in ws[k].drawn
  {
    assert KeysDrawn(ws[k]) && Provenance(ws[k]) by { RunInv(ws, ls, resource, k); }
    assert CodeSound(ws[k], o.code);
  }

  /** A code is exchanged at most once. */
  lemma CodeExchangedOnce(ws: seq<World>, ls: seq<Label>, resource: Uri, i: nat, j: nat, o: Origin, o': Origin)
    requires IsRun(ws, ls, resource) && i < j < |ls|
    requires Makes(ws[i], ls[i], o) && Makes(ws[j], ls[j], o')
    ensures o.code != o'.code
  {
    MakesSpends(ws, ls, resource, i, o);
    SpentStays(ws, ls, resource, i, j, o.code);
    CodeSeen(ws, ls, resource, j, o');
  }

  ghost predicate Spent(w: World, code: Digest) {
    exists id :: id in w.origins && w.origins[id].code == code
  }

  lemma SpentStays(ws: seq<World>, ls: seq<Label>, resource: Uri, i: nat, j: nat, code: Digest)
    requires IsRun(ws, ls, resource) && i < j <= |ls| && Spent(ws[i + 1], code)
    ensures code !in ws[j].p.codes
  {
    var id :| id in ws[i + 1].origins && ws[i + 1].origins[id].code == code;
    RunGrows(ws, ls, resource, i + 1, j);
    OriginStands(ws, ls, resource, j, id);
  }

  lemma OriginStands(ws: seq<World>, ls: seq<Label>, resource: Uri, j: nat, id: Id)
    requires IsRun(ws, ls, resource) && j <= |ls| && id in ws[j].origins
    ensures OriginSound(ws[j], id)
  {
    RunInv(ws, ls, resource, j);
  }

  lemma MakesSpends(ws: seq<World>, ls: seq<Label>, resource: Uri, i: nat, o: Origin)
    requires IsRun(ws, ls, resource) && i < |ls| && Makes(ws[i], ls[i], o)
    ensures Spent(ws[i + 1], o.code)
  {
    assert StepAt(ws, ls, i);
    assert o.connection.id in ws[i + 1].origins;
  }

  /** An authorization request is approved at most once. */
  lemma AskApprovedOnce(ws: seq<World>, ls: seq<Label>, resource: Uri, i: nat, j: nat, a: Approval, b: Approval, c: Digest, d: Digest)
    requires IsRun(ws, ls, resource) && i < j < |ls|
    requires Approves(ws[i], ls[i], a, c) && Approves(ws[j], ls[j], b, d)
    ensures a.ask != b.ask
  {
    ApprovesNoted(ws, ls, resource, i, a, c);
    NotAskedAgain(ws, ls, resource, i, j, c);
  }

  lemma NotAskedAgain(ws: seq<World>, ls: seq<Label>, resource: Uri, i: nat, j: nat, c: Digest)
    requires IsRun(ws, ls, resource) && i < j <= |ls| && c in ws[i + 1].approvals
    ensures var id := ws[i + 1].approvals[c].ask;
      id !in ws[j].p.pending || ws[j].p.pending[id].decision != Undecided
  {
    RunGrows(ws, ls, resource, i + 1, j);
    assert Provenance(ws[j]) by { RunInv(ws, ls, resource, j); }
    assert ws[j].approvals[c] == ws[i + 1].approvals[c];
  }

  lemma ApprovesNoted(ws: seq<World>, ls: seq<Label>, resource: Uri, i: nat, a: Approval, c: Digest)
    requires IsRun(ws, ls, resource) && i < |ls| && Approves(ws[i], ls[i], a, c)
    ensures c in ws[i + 1].approvals && ws[i + 1].approvals[c].ask == a.ask
  {
    assert StepAt(ws, ls, i);
  }

  /** The step redirects a browser with the outcome of this authorization. */
  ghost predicate Delivers(w: World, l: Label, id: Id) {
    l.Continue? && l.id == id && Continued(Swept(w).p, id, l.cookie).1.Redirected?
  }

  /** The outcome of an authorization leaves once, and only for the browser that holds
      the cookie. */
  lemma OutcomeDeliveredOnce(ws: seq<World>, ls: seq<Label>, resource: Uri, i: nat, j: nat, id: Id)
    requires IsRun(ws, ls, resource) && i < j < |ls| && Delivers(ws[i], ls[i], id)
    ensures !Delivers(ws[j], ls[j], id)
    ensures ls[i].cookie.Some? && id in ws[i].p.pending && Digest(ls[i].cookie.value) == ws[i].p.pending[id].cookie
  {
    assert StepAt(ws, ls, i);
    RunKeys(ws, ls, resource, i);
    assert id in ws[i + 1].drawn && id !in ws[i + 1].p.pending;
    StaysAway(ws, ls, resource, i + 1, j, id);
  }

  lemma StaysAway(ws: seq<World>, ls: seq<Label>, resource: Uri, i: nat, j: nat, id: Id)
    requires IsRun(ws, ls, resource) && i <= j <= |ls| && id in ws[i].drawn && id !in ws[i].p.pending
    ensures id !in ws[j].p.pending && id in ws[j].drawn
  {
    RunGrows(ws, ls, resource, i, j);
  }
}

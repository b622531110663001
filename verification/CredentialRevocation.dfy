/** What an update takes away, what it revokes, and what the revocation preview announces. */
module CredentialRevocation {
  import opened Wrappers
  import opened Text
  import opened PaymentSettings
  import opened CredentialRotation
  import opened PreparedRotation
  import opened PaymentUpdates
  import opened RotationRuns
  import opened WebhookRuns

  // ---------------------------------------------------------------- what a callback can be verified with

  /** The generations a merchant callback can be verified under at time `now`. */
  ghost function Verifiable(c: Credential, now: int): set<int> {
    (if c.current.Complete() then {c.generation} else {})
    + (if c.PreviousActive(now) then {c.previousGeneration} else {})
  }

  /** The generations a Stripe event can be verified under at time `now`. */
  ghost function VerifiableWebhook(w: Webhook, now: int): set<int> {
    (if !Blank(w.secret) then {w.generation} else {})
    + (if w.PreviousActive(now) && PreviousWebhookGeneration(w) > 0 then {PreviousWebhookGeneration(w)} else {})
  }

  ghost function Generations(rs: seq<Revocation>): set<int> {
    set r | r in rs :: r.generation
  }

  // ---------------------------------------------------------------- splitting the revocations by provider

  lemma RevokedConcat(p: Provider, a: seq<Revocation>, b: seq<Revocation>)
    ensures Revoked(p, a + b) == Revoked(p, a) + Revoked(p, b)
  {
  }

  lemma RevokedForeign(p: Provider, rs: seq<Revocation>)
    requires forall r :: r in rs ==> r.provider != p
    ensures Revoked(p, rs) == {}
  {
  }

  lemma RevokedOwn(p: Provider, rs: seq<Revocation>)
    requires forall r :: r in rs ==> r.provider == p
    ensures Revoked(p, rs) == Generations(rs)
  {
  }

  lemma PairRevocationsAreOwn(g: Gateway, s: Settings, v: Values, e: set<Provider>, now: int, storageReady: bool)
    requires ExpectedPair(g, s, v, e, now, storageReady).Ok?
    ensures forall r :: r in ExpectedPair(g, s, v, e, now, storageReady).value.revocations ==>
              r.provider == g.Provider() && !r.allActiveOrders
  {
  }

  /** What the rotation of one provider lists itself. */
  ghost function OwnRevocations(p: Provider, s: Settings, v: Values, e: set<Provider>, now: int,
                                storageReady: bool): seq<Revocation>
    requires Rotated(s, v, e, now, storageReady).Ok?
  {
    if p == Stripe then WebhookRevocations(ExpectedWebhook(s, v, e, now).value.revoked, now)
    else ExpectedPair(if p == Epay then EpayGateway else XorPayGateway, s, v, e, now, storageReady).value.revocations
  }

  /** An update revokes for a provider exactly what the provider's own rotation lists. */
  lemma RevokedFor(p: Provider, s: Settings, v: Values, e: set<Provider>, now: int, storageReady: bool)
    requires p == Stripe || p == Epay || p == XorPay
    requires Rotated(s, v, e, now, storageReady).Ok?
    ensures Revoked(p, Rotated(s, v, e, now, storageReady).value.revocations)
            == Generations(OwnRevocations(p, s, v, e, now, storageReady))
  {
    RotatedPairOf(EpayGateway, s, v, e, now, storageReady);
    RotatedPairOf(XorPayGateway, s, v, e, now, storageReady);
    PairRevocationsAreOwn(EpayGateway, s, v, e, now, storageReady);
    PairRevocationsAreOwn(XorPayGateway, s, v, e, now, storageReady);
    var stripe := OwnRevocations(Stripe, s, v, e, now, storageReady);
    var epay := OwnRevocations(Epay, s, v, e, now, storageReady);
    var xorPay := OwnRevocations(XorPay, s, v, e, now, storageReady);
    RevokedParts(p, stripe, epay, xorPay, e, now);
    assert Rotated(s, v, e, now, storageReady).value.revocations == stripe + epay + xorPay + DisableRevocations(e, now);
  }

  lemma RevokedParts(p: Provider, stripe: seq<Revocation>, epay: seq<Revocation>, xorPay: seq<Revocation>,
                     e: set<Provider>, now: int)
    requires p == Stripe || p == Epay || p == XorPay
    requires forall r :: r in stripe ==> r.provider == Stripe
    requires forall r :: r in epay ==> r.provider == Epay
    requires forall r :: r in xorPay ==> r.provider == XorPay
    ensures Revoked(p, stripe + epay + xorPay + DisableRevocations(e, now))
            == Generations(if p == Stripe then stripe else if p == Epay then epay else xorPay)
  {
    RevokedConcat(p, stripe + epay + xorPay, DisableRevocations(e, now));
    RevokedConcat(p, stripe + epay, xorPay);
    RevokedConcat(p, stripe, epay);
    RevokedForeign(p, DisableRevocations(e, now));
    if p == Stripe {
      RevokedOwn(p, stripe); RevokedForeign(p, epay); RevokedForeign(p, xorPay);
    } else if p == Epay {
      RevokedOwn(p, epay); RevokedForeign(p, stripe); RevokedForeign(p, xorPay);
    } else {
      RevokedOwn(p, xorPay); RevokedForeign(p, stripe); RevokedForeign(p, epay);
    }
  }

  // ---------------------------------------------------------------- Epay and XORPay: nothing is lost silently

  lemma PairOutcomeAccounts(g: Gateway, c: Credential, id: Option<string>, key: Option<string>, emergency: bool,
                            now: int, storageReady: bool)
    requires CredentialInv(c) && (id.Some? ==> Trimmed(id.value))
    requires RotatedPair(g, c, id, key, emergency, now, storageReady).Ok?
    ensures var o := RotatedPair(g, c, id, key, emergency, now, storageReady).value;
            && Verifiable(c, now) <= Verifiable(o.after, now) + Generations(o.revocations)
            && o.after.generation !in Generations(o.revocations)
            && (!emergency ==> Generations(o.revocations) == {})
            && (emergency ==> PreviousEmpty(o.after))
  {
    var o := RotatedPair(g, c, id, key, emergency, now, storageReady).value;
    if c.PreviousStored() && emergency {
      assert PairRevocation(g, c.previousGeneration, now) in o.revocations;
    }
    if c.current.Complete() && emergency && o.after.generation != c.generation {
      assert PairRevocation(g, c.generation, now) in o.revocations;
    }
  }

  /** Every request, planned or emergency: a generation that could verify callbacks still can, or it is
      revoked in the same transaction; the surviving generation is never revoked; planned requests revoke
      nothing; an emergency empties the previous slot. */
  lemma NothingVerifiableIsLost(g: Gateway, s: Settings, r: Request)
    requires CredentialInv(g.Of(s))
    ensures var revoked := Revoked(g.Provider(), StepRevocations(s, r));
            && Verifiable(g.Of(s), r.now) <= Verifiable(g.Of(Step(s, r)), r.now) + revoked
            && g.Of(Step(s, r)).generation !in revoked
            && (g.Provider() !in r.Emergency() ==> revoked == {})
            && (Accepted(s, r) && g.Provider() in r.Emergency() ==> PreviousEmpty(g.Of(Step(s, r))))
  {
    if Accepted(s, r) {
      ProposedIdIsTrimmed(g, r);
      PairUpdateAccounts(g, s, Proposals(r), r.Emergency(), r.now, r.storageReady);
    }
  }

  lemma PairUpdateAccounts(g: Gateway, s: Settings, v: Values, e: set<Provider>, now: int, storageReady: bool)
    requires CredentialInv(g.Of(s)) && (g.ValuesOf(v).id.Some? ==> Trimmed(g.ValuesOf(v).id.value))
    requires Rotated(s, v, e, now, storageReady).Ok?
    ensures var t := Rotated(s, v, e, now, storageReady).value;
            var revoked := Revoked(g.Provider(), t.revocations);
            && Verifiable(g.Of(s), now) <= Verifiable(g.Of(t.settings), now) + revoked
            && g.Of(t.settings).generation !in revoked
            && (g.Provider() !in e ==> revoked == {})
            && (g.Provider() in e ==> PreviousEmpty(g.Of(t.settings)))
  {
    RotatedPairOf(g, s, v, e, now, storageReady);
    RevokedFor(g.Provider(), s, v, e, now, storageReady);
    PairOutcomeAccounts(g, g.Of(s), g.ValuesOf(v).id, g.ValuesOf(v).key, g.Provider() in e, now, storageReady);
  }

  // ---------------------------------------------------------------- Stripe

  lemma WebhookGenerations(generations: seq<int>, now: int)
    ensures Generations(WebhookRevocations(generations, now)) == set x | x in generations
  {
    var rs := WebhookRevocations(generations, now);
    forall x | x in generations
      ensures x in Generations(rs)
    {
      var i :| 0 <= i < |generations| && generations[i] == x;
      assert rs[i] in rs;
    }
  }

  /** An accepted Stripe emergency revokes every verifiable generation and empties the previous slot. The
      generation that remains is revoked too exactly when no webhook secret was bound before. */
  lemma StripeEmergency(w: Webhook, currentMode: string, mode: string, supplied: Option<string>, now: int)
    requires WebhookInv(w) && RotatedWebhook(w, currentMode, mode, supplied, true, now).Ok?
    ensures var o := RotatedWebhook(w, currentMode, mode, supplied, true, now).value;
            var revoked := Generations(WebhookRevocations(o.revoked, now));
            && VerifiableWebhook(w, now) <= revoked
            && o.after.previousSecret == "" && o.after.previousGeneration == 0
            && (o.after.generation in revoked <==> w.secret == "")
  {
    var o := RotatedWebhook(w, currentMode, mode, supplied, true, now).value;
    WebhookGenerations(o.revoked, now);
    assert w.secret == "" ==> Blank(w.secret);
  }

  /** The same for a whole request, with the one revocation that also covers all active orders. */
  lemma StripeEmergencyRequest(s: Settings, r: Request)
    requires WebhookInv(s.webhook) && Accepted(s, r) && Stripe in r.Emergency()
    ensures var revoked := Revoked(Stripe, StepRevocations(s, r));
            && VerifiableWebhook(s.webhook, r.now) <= revoked
            && Step(s, r).webhook.previousSecret == ""
            && (Step(s, r).webhook.generation in revoked <==> s.webhook.secret == "")
    ensures CoveringOrders(StepRevocations(s, r)) == {0}
  {
    StripeEmergencyUpdate(s, Proposals(r), r.Emergency(), r.now, r.storageReady);
  }

  lemma StripeEmergencyUpdate(s: Settings, v: Values, e: set<Provider>, now: int, storageReady: bool)
    requires WebhookInv(s.webhook) && Stripe in e && Rotated(s, v, e, now, storageReady).Ok?
    ensures var t := Rotated(s, v, e, now, storageReady).value;
            var revoked := Revoked(Stripe, t.revocations);
            && VerifiableWebhook(s.webhook, now) <= revoked
            && t.settings.webhook.previousSecret == ""
            && (t.settings.webhook.generation in revoked <==> s.webhook.secret == "")
            && CoveringOrders(t.revocations) == {0}
  {
    StripeUpdateRevokes(s, v, e, now, storageReady);
    StripeUpdateCoversOrders(s, v, e, now, storageReady);
  }

  lemma StripeUpdateRevokes(s: Settings, v: Values, e: set<Provider>, now: int, storageReady: bool)
    requires WebhookInv(s.webhook) && Stripe in e && Rotated(s, v, e, now, storageReady).Ok?
    ensures var t := Rotated(s, v, e, now, storageReady).value;
            var revoked := Revoked(Stripe, t.revocations);
            && VerifiableWebhook(s.webhook, now) <= revoked
            && t.settings.webhook.previousSecret == ""
            && (t.settings.webhook.generation in revoked <==> s.webhook.secret == "")
  {
    RotatedWebhookOf(s, v, e, now, storageReady);
    RevokedFor(Stripe, s, v, e, now, storageReady);
    var mode := v.stripe.credentialLivemode.GetOr(s.stripe.credentialLivemode);
    StripeEmergency(s.webhook, s.stripe.credentialLivemode, mode, v.webhook.secret, now);
  }

  /** The positions of the Stripe revocations that cover all active orders. */
  ghost function CoveringOrders(rs: seq<Revocation>): set<int> {
    set i | 0 <= i < |rs| && rs[i].provider == Stripe && rs[i].allActiveOrders
  }

  /** The revocations of an update, provider by provider. */
  lemma RevocationParts(s: Settings, v: Values, e: set<Provider>, now: int, storageReady: bool)
    requires Rotated(s, v, e, now, storageReady).Ok?
    ensures Rotated(s, v, e, now, storageReady).value.revocations ==
            OwnRevocations(Stripe, s, v, e, now, storageReady) + OwnRevocations(Epay, s, v, e, now, storageReady)
            + OwnRevocations(XorPay, s, v, e, now, storageReady) + DisableRevocations(e, now)
  {
  }

  lemma StripeOwnRevocations(s: Settings, v: Values, e: set<Provider>, now: int, storageReady: bool)
    requires WebhookInv(s.webhook) && Stripe in e && Rotated(s, v, e, now, storageReady).Ok?
    ensures OwnRevocations(Stripe, s, v, e, now, storageReady) ==
            WebhookRevocations(EmergencyWebhookGenerations(s.webhook, now), now)
    ensures EmergencyWebhookGenerations(s.webhook, now) != []
  {
    RotatedWebhookOf(s, v, e, now, storageReady);
  }

  lemma PairsRevokeNoStripe(s: Settings, v: Values, e: set<Provider>, now: int, storageReady: bool)
    requires Rotated(s, v, e, now, storageReady).Ok?
    ensures forall r :: r in OwnRevocations(Epay, s, v, e, now, storageReady) ==> r.provider != Stripe
    ensures forall r :: r in OwnRevocations(XorPay, s, v, e, now, storageReady) ==> r.provider != Stripe
  {
    RotatedPairOf(EpayGateway, s, v, e, now, storageReady);
    RotatedPairOf(XorPayGateway, s, v, e, now, storageReady);
    PairRevocationsAreOwn(EpayGateway, s, v, e, now, storageReady);
    PairRevocationsAreOwn(XorPayGateway, s, v, e, now, storageReady);
  }

  lemma StripeUpdateCoversOrders(s: Settings, v: Values, e: set<Provider>, now: int, storageReady: bool)
    requires WebhookInv(s.webhook) && Stripe in e && Rotated(s, v, e, now, storageReady).Ok?
    ensures CoveringOrders(Rotated(s, v, e, now, storageReady).value.revocations) == {0}
  {
    RevocationParts(s, v, e, now, storageReady);
    StripeOwnRevocations(s, v, e, now, storageReady);
    PairsRevokeNoStripe(s, v, e, now, storageReady);
    FirstCoversOrders(EmergencyWebhookGenerations(s.webhook, now), now,
                      OwnRevocations(Epay, s, v, e, now, storageReady),
                      OwnRevocations(XorPay, s, v, e, now, storageReady), DisableRevocations(e, now));
  }

  lemma FirstCoversOrders(generations: seq<int>, now: int, epay: seq<Revocation>, xorPay: seq<Revocation>,
                          disables: seq<Revocation>)
    requires generations != []
    requires forall r :: r in epay || r in xorPay || r in disables ==> r.provider != Stripe
    ensures CoveringOrders(WebhookRevocations(generations, now) + epay + xorPay + disables) == {0}
  {
    var stripe := WebhookRevocations(generations, now);
    var others := epay + xorPay + disables;
    var all := stripe + epay + xorPay + disables;
    assert all == stripe + others;
    forall i | |stripe| <= i < |all|
      ensures all[i].provider != Stripe
    {
      assert all[i] == others[i - |stripe|];
      assert others[i - |stripe|] in others;
    }
  }

  /** A planned Stripe update can take a verifiable generation away without revoking it: exactly when it
      replaces a verifiable secret and either clears the secret or changes the test/live mode. */
  lemma PlannedWebhookLoss(w: Webhook, currentMode: string, mode: string, supplied: Option<string>, now: int)
    requires WebhookInv(w) && RotatedWebhook(w, currentMode, mode, supplied, false, now).Ok?
    ensures var after := RotatedWebhook(w, currentMode, mode, supplied, false, now).value.after;
            VerifiableWebhook(w, now) <= VerifiableWebhook(after, now)
            <==> (VerifiableWebhook(w, now) == {} || supplied.None? || supplied.value == w.secret
                  || (supplied.value != "" && mode == currentMode))
  {
    assert w.secret == "" ==> Blank(w.secret);
    var after := RotatedWebhook(w, currentMode, mode, supplied, false, now).value.after;
    if supplied.Some? && supplied.value != w.secret && (supplied.value == "" || mode != currentMode) && w.secret != "" {
      assert after.generation == w.generation + 1 && after.previousSecret == "";
      assert VerifiableWebhook(after, now) <= {w.generation + 1};
    }
  }

  // ---------------------------------------------------------------- the preview

  datatype PreviewMode = PreviousOnly | AllActive

  /** Generation selection of `GetPaymentCredentialRevocationPreview` for Epay and XORPay. */
  method PreviewPair(c: Credential, mode: PreviewMode, now: int) returns (generations: seq<int>)
    ensures (set x | x in generations) == PreviewedPair(c, mode, now)
  {
    generations := [];
    if mode == PreviousOnly {
      if c.PreviousActive(now) {
        generations := generations + [c.previousGeneration];
      }
    } else {
      if !Blank(c.current.id) && !Blank(c.current.key) && c.generation > 0 {
        generations := generations + [c.generation];
      }
      if c.PreviousActive(now) {
        generations := generations + [c.previousGeneration];
      }
    }
  }

  ghost function PreviewedPair(c: Credential, mode: PreviewMode, now: int): set<int> {
    (if mode == AllActive && !Blank(c.current.id) && !Blank(c.current.key) && c.generation > 0 then {c.generation}
     else {})
    + (if c.PreviousActive(now) then {c.previousGeneration} else {})
  }

  /** Generation selection of the preview for Stripe. */
  method PreviewStripe(w: Webhook, now: int) returns (generations: seq<int>)
    ensures (set x | x in generations) == PreviewedStripe(w, now)
  {
    generations := [];
    if w.generation > 0 {
      generations := generations + [w.generation];
    }
    if w.PreviousActive(now) && w.previousGeneration > 0 {
      generations := generations + [w.previousGeneration];
    }
  }

  ghost function PreviewedStripe(w: Webhook, now: int): set<int> {
    (if w.generation > 0 then {w.generation} else {})
    + (if w.PreviousActive(now) && w.previousGeneration > 0 then {w.previousGeneration} else {})
  }

  /** The preview never announces more than the emergency revokes. It announces exactly as much unless an
      expired previous key is still stored or the current pair is white space only. */
  lemma PairPreviewMatches(g: Gateway, c: Credential, id: Option<string>, key: Option<string>, now: int,
                           storageReady: bool)
    requires CredentialInv(c)
    requires RotatedPair(g, c, id, key, true, now, storageReady).Ok?
    ensures var replacing := Pair(id.GetOr(c.current.id), key.GetOr(c.current.key)) != c.current;
            var preview := PreviewedPair(c, if replacing then AllActive else PreviousOnly, now);
            var revoked := Generations(RotatedPair(g, c, id, key, true, now, storageReady).value.revocations);
            && preview <= revoked
            && (preview == revoked
                <==> (c.PreviousStored() ==> c.PreviousActive(now))
                     && (replacing && c.current.Complete() ==> !Blank(c.current.id) && !Blank(c.current.key)))
  {
    var rs := RotatedPair(g, c, id, key, true, now, storageReady).value.revocations;
    if c.PreviousStored() {
      assert PairRevocation(g, c.previousGeneration, now) in rs;
    }
    if c.current.Complete() && Pair(id.GetOr(c.current.id), key.GetOr(c.current.key)) != c.current {
      assert PairRevocation(g, c.generation, now) in rs;
    }
    assert Generations(rs) ==
           (if c.current.Complete() && Pair(id.GetOr(c.current.id), key.GetOr(c.current.key)) != c.current
            then {c.generation} else {})
           + (if c.PreviousStored() then {c.previousGeneration} else {});
    assert c.current.id == "" ==> Blank(c.current.id);
    assert c.current.key == "" ==> Blank(c.current.key);
  }

  /** The Stripe preview is exact unless an active overlap predates recorded generations. */
  lemma StripePreviewMatches(w: Webhook, now: int)
    requires WebhookInv(w)
    ensures PreviewedStripe(w, now) == (set x | x in EmergencyWebhookGenerations(w, now))
            <==> !(w.PreviousActive(now) && w.previousGeneration <= 0)
  {
    var actual := EmergencyWebhookGenerations(w, now);
    if w.PreviousActive(now) {
      assert actual == [w.generation, PreviousWebhookGeneration(w)];
      assert (set x | x in actual) == {w.generation, PreviousWebhookGeneration(w)};
      assert w.previousGeneration <= 0 ==> PreviousWebhookGeneration(w) !in PreviewedStripe(w, now);
    } else {
      assert actual == [w.generation];
      assert (set x | x in actual) == {w.generation};
    }
  }

  lemma {:induction false} OverlapsStayRecorded(ws: seq<Webhook>, es: seq<bool>, ts: seq<int>, i: nat)
    requires WebhookTrace(ws, es, ts) && i < |ws|
    requires ws[0].previousSecret != "" ==> ws[0].previousGeneration > 0
    ensures ws[i].previousSecret != "" ==> ws[i].previousGeneration > 0
  {
    if i > 0 {
      OverlapsStayRecorded(ws, es, ts, i - 1);
      assert WebhookMoves(ws[i - 1], ws[i], es[i - 1], ts[i - 1]);
      assert WebhookInv(ws[i - 1]);
    }
  }

  /** From a state whose overlap has a recorded generation, every later state of a run has an exact Stripe preview. */
  lemma StripePreviewExactInRun(states: seq<Settings>, requests: seq<Request>, i: nat, now: int)
    requires Run(states, requests) && i < |states|
    requires states[0].webhook.previousSecret != "" ==> states[0].webhook.previousGeneration > 0
    ensures PreviewedStripe(states[i].webhook, now)
            == (set x | x in EmergencyWebhookGenerations(states[i].webhook, now))
  {
    RunWebhookTrace(states, requests);
    OverlapsStayRecorded(Webhooks(states), Emergencies(Stripe, requests), Times(requests), i);
    RunPreservesInv(states, requests, i);
    StripePreviewMatches(states[i].webhook, now);
  }
}

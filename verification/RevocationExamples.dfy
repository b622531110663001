/** Accepted requests on which revocation and preview fall short: one for each exact condition. */
module RevocationExamples {
  import opened Wrappers
  import opened Text
  import opened PaymentSettings
  import opened CredentialRotation
  import opened PreparedRotation
  import opened PaymentUpdates
  import opened RotationRuns
  import opened CredentialRevocation

  const PLAIN_PAIR := Credential(Pair("m", "k"), 1, NO_PAIR, 0, 0, 0)

  /** Settings in which only the given credentials matter. */
  function Configured(epay: Credential, webhook: Webhook): Settings {
    Settings(
      "", "", epay, PLAIN_PAIR, webhook, StripeAccount("", "", "", "live", ""), CreemState("", "", false),
      WaffoState(false, "", false, "", "", "", "", "", "", "", ""), PancakeState("", "", "", false, ""))
  }

  /** An emergency for one provider, with nothing else. */
  function Revoking(p: Provider, now: int): Request {
    Request(map[], [], [p], [], now, true, None, true, true)
  }

  /** A planned request that clears the webhook secret. */
  function Clearing(now: int): Request {
    Request(map[], [StripeWebhookSecret], [], [], now, true, None, true, true)
  }

  lemma OneScope(r: Request, scope: Scope)
    requires Scopes(r) == {scope}
    ensures |Scopes(r)| == 1
  {
  }

  /** Nothing is proposed for either pair or the account, and this for the webhook secret. */
  predicate Proposed(v: Values, secret: Option<string>) {
    && v.epay.id.None? && v.epay.key.None? && v.xorPay.id.None? && v.xorPay.key.None?
    && v.webhook.secret == secret && v.stripe.credentialLivemode.None?
  }

  /** A well-formed request at time 100 with these emergencies. */
  ghost predicate Asks(r: Request, e: set<Provider>, secret: Option<string>) {
    WellFormed(r) && r.committed && r.storageReady && r.now == 100 && r.Emergency() == e
    && Proposed(Proposals(r), secret)
  }

  lemma ClearsAtMostTheSecret(r: Request)
    requires r.options == map[] && r.identity.None? && forall k :: k in r.clears ==> k == StripeWebhookSecret
    ensures Proposed(Proposals(r), if StripeWebhookSecret in r.clears then Some("") else None)
  {
  }

  lemma RevokingIsWellFormed(p: Provider)
    requires p == Epay || p == Stripe || p == XorPay
    ensures WellFormed(Revoking(p, 100))
  {
    var r := Revoking(p, 100);
    assert [p][0] == p;
    assert Scopes(r) == {ProviderScope(p)};
    OneScope(r, ProviderScope(p));
  }

  lemma RevokingAsks(p: Provider)
    requires p == Epay || p == Stripe || p == XorPay
    ensures Asks(Revoking(p, 100), {p}, None)
  {
    RevokingIsWellFormed(p);
    RevokingProposes(p);
    AsksFrom(Revoking(p, 100), {p}, None);
  }

  lemma RevokingProposes(p: Provider)
    ensures Revoking(p, 100).Emergency() == {p} && Proposed(Proposals(Revoking(p, 100)), None)
  {
    ClearsAtMostTheSecret(Revoking(p, 100));
    assert [p][0] == p;
  }

  lemma AsksFrom(r: Request, e: set<Provider>, secret: Option<string>)
    requires WellFormed(r) && r.committed && r.storageReady && r.now == 100 && r.Emergency() == e
    requires Proposed(Proposals(r), secret)
    ensures Asks(r, e, secret)
  {
  }

  lemma ClearingIsWellFormed()
    ensures WellFormed(Clearing(100))
  {
    var r := Clearing(100);
    assert StripeWebhookSecret in r.clears && MutationScope(StripeWebhookSecret) == ProviderScope(Stripe);
    assert Scopes(r) == {ProviderScope(Stripe)};
    OneScope(r, ProviderScope(Stripe));
  }

  lemma ClearingAsks()
    ensures Asks(Clearing(100), {}, Some(""))
  {
    ClearingIsWellFormed();
    ClearsAtMostTheSecret(Clearing(100));
    assert StripeWebhookSecret in Clearing(100).clears;
  }

  lemma QuietPair(g: Gateway, s: Settings, v: Values, e: set<Provider>, now: int)
    requires g.ValuesOf(v).id.None? && g.ValuesOf(v).key.None? && g.Provider() !in e
    ensures ExpectedPair(g, s, v, e, now, true) == Ok(PairOutcome(g.Of(s), []))
  {
  }

  lemma QuietWebhook(s: Settings, v: Values, e: set<Provider>, now: int)
    requires v.webhook.secret.None? && Stripe !in e
    ensures ExpectedWebhook(s, v, e, now) == Ok(WebhookOutcome(s.webhook, []))
  {
  }

  /** An update whose parts succeed is accepted with their revocations. */
  lemma PartsRotate(s: Settings, v: Values, e: set<Provider>, webhook: WebhookOutcome, epay: PairOutcome)
    requires forall p :: p in e ==> p == Epay || p == Stripe
    requires ExpectedWebhook(s, v, e, 100) == Ok(webhook)
    requires ExpectedPair(EpayGateway, s, v, e, 100, true) == Ok(epay)
    requires ExpectedPair(XorPayGateway, s, v, e, 100, true) == Ok(PairOutcome(s.xorPay, []))
    ensures Rotated(s, v, e, 100, true).Ok?
    ensures Rotated(s, v, e, 100, true).value.settings.webhook == webhook.after
    ensures Rotated(s, v, e, 100, true).value.revocations == WebhookRevocations(webhook.revoked, 100) + epay.revocations
  {
    assert DisableRevocations(e, 100) == [];
    var rs := WebhookRevocations(webhook.revoked, 100) + epay.revocations;
    assert rs + [] + [] == rs;
  }

  lemma WebhookUpdate(s: Settings, v: Values, e: set<Provider>, secret: Option<string>, outcome: WebhookOutcome)
    requires Proposed(v, secret) && e <= {Stripe} && s.stripe.credentialLivemode == "live"
    requires RotatedWebhook(s.webhook, "live", "live", secret, Stripe in e, 100) == Ok(outcome)
    ensures Rotated(s, v, e, 100, true).Ok?
    ensures Rotated(s, v, e, 100, true).value.settings.webhook == outcome.after
    ensures Rotated(s, v, e, 100, true).value.revocations == WebhookRevocations(outcome.revoked, 100)
  {
    QuietPair(EpayGateway, s, v, e, 100);
    QuietPair(XorPayGateway, s, v, e, 100);
    PartsRotate(s, v, e, outcome, PairOutcome(s.epay, []));
    var rs := WebhookRevocations(outcome.revoked, 100);
    assert rs + [] == rs;
  }

  /** A request that leaves both pairs alone, by what the webhook does. */
  lemma WebhookRequest(s: Settings, r: Request, e: set<Provider>, secret: Option<string>, outcome: WebhookOutcome)
    requires Asks(r, e, secret) && e <= {Stripe} && s.stripe.credentialLivemode == "live"
    requires RotatedWebhook(s.webhook, "live", "live", secret, Stripe in e, 100) == Ok(outcome)
    ensures Accepted(s, r) && Step(s, r).webhook == outcome.after
    ensures StepRevocations(s, r) == WebhookRevocations(outcome.revoked, 100)
  {
    WebhookUpdate(s, Proposals(r), e, secret, outcome);
  }

  lemma EpayUpdate(s: Settings, v: Values, outcome: PairOutcome)
    requires Proposed(v, None) && RotatedPair(EpayGateway, s.epay, None, None, true, 100, true) == Ok(outcome)
    ensures Rotated(s, v, {Epay}, 100, true).Ok?
    ensures Rotated(s, v, {Epay}, 100, true).value.revocations == outcome.revocations
  {
    QuietWebhook(s, v, {Epay}, 100);
    QuietPair(XorPayGateway, s, v, {Epay}, 100);
    PartsRotate(s, v, {Epay}, WebhookOutcome(s.webhook, []), outcome);
    assert WebhookRevocations([], 100) + outcome.revocations == outcome.revocations;
  }

  /** An emergency of Epay alone, by what the pair does. */
  lemma EpayRequest(s: Settings, r: Request, outcome: PairOutcome)
    requires Asks(r, {Epay}, None) && RotatedPair(EpayGateway, s.epay, None, None, true, 100, true) == Ok(outcome)
    ensures Accepted(s, r) && StepRevocations(s, r) == outcome.revocations
  {
    EpayUpdate(s, Proposals(r), outcome);
  }

  // ---------------------------------------------------------------- the inputs

  const BOUND := Webhook("whsec", 1, "", 0, 0, 0, "live")
  const UNBOUND := Webhook("", 1, "", 0, 0, 0, "")
  const UNRECORDED := Webhook("new", 2, "old", 0, 0, 1000, "live")
  const EXPIRED := Credential(Pair("m", "k"), 2, Pair("m", "old"), 1, 5, 10)

  lemma ClearedOutcome()
    ensures RotatedWebhook(BOUND, "live", "live", Some(""), false, 100) ==
            Ok(WebhookOutcome(Webhook("", 2, "", 0, 0, 0, ""), []))
    ensures VerifiableWebhook(BOUND, 100) == {1} && VerifiableWebhook(Webhook("", 2, "", 0, 0, 0, ""), 100) == {}
    ensures WebhookRevocations([], 100) == []
  {
    assert !IsSpace("whsec"[0]);
  }

  /** Accepted, and a verifiable webhook generation is gone without being revoked. */
  ghost predicate LosesSilently(s: Settings, r: Request) {
    && WebhookInv(s.webhook) && Accepted(s, r) && Stripe !in r.Emergency() && StepRevocations(s, r) == []
    && VerifiableWebhook(s.webhook, r.now) == {1} && VerifiableWebhook(Step(s, r).webhook, r.now) == {}
  }

  lemma ClearLosesSilently(s: Settings, r: Request)
    requires s.webhook == BOUND && s.stripe.credentialLivemode == "live" && Asks(r, {}, Some(""))
    ensures LosesSilently(s, r)
  {
    ClearedOutcome();
    WebhookRequest(s, r, {}, Some(""), WebhookOutcome(Webhook("", 2, "", 0, 0, 0, ""), []));
  }

  /** A planned clear of the webhook secret. */
  lemma PlannedClearLosesAGeneration()
    ensures LosesSilently(Configured(PLAIN_PAIR, BOUND), Clearing(100))
  {
    ClearingAsks();
    ClearLosesSilently(Configured(PLAIN_PAIR, BOUND), Clearing(100));
  }

  lemma UnboundOutcome()
    ensures RotatedWebhook(UNBOUND, "live", "live", None, true, 100) == Ok(WebhookOutcome(UNBOUND, [1]))
    ensures WebhookRevocations([1], 100) == [Revocation(Stripe, 1, 100, true)]
  {
  }

  /** Accepted, and the generation that stays current is revoked. */
  ghost predicate RevokesSurvivor(s: Settings, r: Request) {
    && WebhookInv(s.webhook) && Accepted(s, r) && Step(s, r).webhook.generation == 1
    && StepRevocations(s, r) == [Revocation(Stripe, 1, r.now, true)]
  }

  lemma UnboundRevokesSurvivor(s: Settings, r: Request)
    requires s.webhook == UNBOUND && s.stripe.credentialLivemode == "live" && Asks(r, {Stripe}, None)
    ensures RevokesSurvivor(s, r)
  {
    UnboundOutcome();
    WebhookRequest(s, r, {Stripe}, None, WebhookOutcome(UNBOUND, [1]));
  }

  /** A Stripe emergency with no secret bound. */
  lemma UnboundEmergencyRevokesTheSurvivor()
    ensures RevokesSurvivor(Configured(PLAIN_PAIR, UNBOUND), Revoking(Stripe, 100))
  {
    RevokingAsks(Stripe);
    UnboundRevokesSurvivor(Configured(PLAIN_PAIR, UNBOUND), Revoking(Stripe, 100));
  }

  lemma ExpiredOutcome()
    ensures RotatedPair(EpayGateway, EXPIRED, None, None, true, 100, true) ==
            Ok(PairOutcome(Credential(Pair("m", "k"), 2, NO_PAIR, 0, 0, 0), [Revocation(Epay, 1, 100, false)]))
    ensures PreviewedPair(EXPIRED, PreviousOnly, 100) == {} && CredentialInv(EXPIRED)
  {
  }

  /** Accepted, and the preview announced nothing of what is revoked. */
  ghost predicate RevokesUnannounced(s: Settings, r: Request) {
    && CredentialInv(s.epay) && Accepted(s, r) && PreviewedPair(s.epay, PreviousOnly, r.now) == {}
    && StepRevocations(s, r) == [Revocation(Epay, 1, r.now, false)]
  }

  lemma PairRevokesUnannounced(s: Settings, r: Request, after: Credential)
    requires Asks(r, {Epay}, None) && CredentialInv(s.epay) && PreviewedPair(s.epay, PreviousOnly, 100) == {}
    requires RotatedPair(EpayGateway, s.epay, None, None, true, 100, true) ==
             Ok(PairOutcome(after, [Revocation(Epay, 1, 100, false)]))
    ensures RevokesUnannounced(s, r)
  {
    EpayRequest(s, r, PairOutcome(after, [Revocation(Epay, 1, 100, false)]));
  }

  /** An emergency while an expired previous pair is still stored. */
  lemma ExpiredPairIsNotPreviewed()
    ensures RevokesUnannounced(Configured(EXPIRED, UNBOUND), Revoking(Epay, 100))
  {
    RevokingAsks(Epay);
    ExpiredOutcome();
    PairRevokesUnannounced(Configured(EXPIRED, UNBOUND), Revoking(Epay, 100),
                           Credential(Pair("m", "k"), 2, NO_PAIR, 0, 0, 0));
  }

  lemma UnrecordedOutcome()
    ensures PreviewedStripe(UNRECORDED, 100) == {2}
    ensures RotatedWebhook(UNRECORDED, "live", "live", None, true, 100) ==
            Ok(WebhookOutcome(Webhook("", 3, "", 0, 0, 0, ""), [2, 1]))
    ensures WebhookRevocations([2, 1], 100) == [Revocation(Stripe, 2, 100, true), Revocation(Stripe, 1, 100, false)]
  {
    assert EmergencyWebhookGenerations(UNRECORDED, 100) == [2, 1];
  }

  /** Accepted, and the preview announced one of the two generations that are revoked. */
  ghost predicate RevokesMore(s: Settings, r: Request) {
    && WebhookInv(s.webhook) && Accepted(s, r) && PreviewedStripe(s.webhook, r.now) == {2}
    && StepRevocations(s, r) == [Revocation(Stripe, 2, r.now, true), Revocation(Stripe, 1, r.now, false)]
  }

  lemma UnrecordedRevokesMore(s: Settings, r: Request)
    requires s.webhook == UNRECORDED && s.stripe.credentialLivemode == "live" && Asks(r, {Stripe}, None)
    ensures RevokesMore(s, r)
  {
    UnrecordedOutcome();
    WebhookRequest(s, r, {Stripe}, None, WebhookOutcome(Webhook("", 3, "", 0, 0, 0, ""), [2, 1]));
  }

  /** An emergency while an overlap has no recorded generation. */
  lemma UnrecordedOverlapIsNotPreviewed()
    ensures RevokesMore(Configured(PLAIN_PAIR, UNRECORDED), Revoking(Stripe, 100))
  {
    RevokingAsks(Stripe);
    UnrecordedRevokesMore(Configured(PLAIN_PAIR, UNRECORDED), Revoking(Stripe, 100));
  }
}

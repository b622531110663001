/** Which requests the rotation lets through, and what they leave, in terms of the stored fields and the
    proposed values alone. */
module RotationAcceptance {
  import opened Wrappers
  import opened Text
  import opened PaymentSettings
  import opened CredentialRotation
  import opened PreparedRotation
  import opened PaymentUpdates
  import opened RotationRuns
  import opened ConfigurationGuards
  import opened PaymentConfiguration

  // ---------------------------------------------------------------- one paired credential

  /** A change needs a generation to spare and, for XORPay, a new secret with a new aid; a planned one also
      waits for the end of the overlap and needs somewhere to keep a complete pair. Without a change, only
      an emergency that supplies nothing has something to do, and only with a previous key. */
  ghost predicate PairMayMove(g: Gateway, c: Credential, next: Pair, supplied: bool, emergency: bool, now: int,
                              storageReady: bool) {
    if next == c.current then
      emergency ==> !supplied && c.previousGeneration >= 1 && c.previous.key != ""
    else
      && 1 <= c.generation < 0x7FFF_FFFF_FFFF_FFFF
      && (g == XorPayGateway && next.id != c.current.id && !Blank(c.current.id) && !Blank(next.id) ==>
            next.key != c.current.key && !Blank(next.key))
      && (emergency || PlannedMayMove(c, now, storageReady))
  }

  ghost predicate PlannedMayMove(c: Credential, now: int, storageReady: bool) {
    && (c.previousGeneration <= 0 || c.previous.id == "" || c.previous.key == "" || c.previousExpiresAt <= now)
    && (storageReady || c.current.id == "" || c.current.key == "")
  }

  lemma PairAcceptedIff(g: Gateway, c: Credential, id: Option<string>, key: Option<string>, emergency: bool,
                        now: int, storageReady: bool)
    requires c.generation <= MAX_INT64
    ensures var next := Pair(id.GetOr(c.current.id), key.GetOr(c.current.key));
            RotatedPair(g, c, id, key, emergency, now, storageReady).Ok? <==>
            PairMayMove(g, c, next, id.Some? || key.Some?, emergency, now, storageReady)
  {
  }

  /** A planned change from one credential to the next: the proposed pair under the next generation, and a
      complete replaced pair kept for 30 days and 3 hours (Epay) or 30 days and 25 hours (XORPay). */
  ghost predicate PlannedTo(g: Gateway, c: Credential, next: Pair, now: int, d: Credential) {
    && d.current == next && d.generation == c.generation + 1
    && (if c.current.id != "" && c.current.key != "" then
          && d.previous == c.current && d.previousGeneration == c.generation && d.previousValidBefore == now
          && d.previousExpiresAt == now + 30 * 86400 + (if g == EpayGateway then 3 * 3600 else 25 * 3600)
        else
          && d.previous == c.previous && d.previousGeneration == c.previousGeneration
          && d.previousValidBefore == c.previousValidBefore && d.previousExpiresAt == c.previousExpiresAt)
  }

  lemma PlannedEffect(g: Gateway, c: Credential, id: Option<string>, key: Option<string>, now: int,
                      storageReady: bool)
    requires RotatedPair(g, c, id, key, false, now, storageReady).Ok?
    requires Trimmed(c.current.id) && (id.Some? ==> Trimmed(id.value))
    ensures var next := Pair(id.GetOr(c.current.id), key.GetOr(c.current.key));
            var d := RotatedPair(g, c, id, key, false, now, storageReady).value.after;
            if next == c.current then d == c else PlannedTo(g, c, next, now, d)
  {
  }

  // ---------------------------------------------------------------- the webhook secret

  /** A changed secret, and any emergency, needs a generation, and one to spare if a secret is replaced; a
      new secret needs the verified mode of the API credential; a planned replacement in the same mode
      waits for the end of the overlap; and an emergency may not repeat the secret. */
  ghost predicate WebhookMayMove(w: Webhook, currentMode: string, mode: string, supplied: Option<string>,
                                 emergency: bool, now: int) {
    var secret := if supplied.Some? then supplied.value else "";
    || (!emergency && (supplied.None? || secret == w.secret))
    || (&& w.generation >= 1 && (secret != w.secret && w.secret != "" ==> w.generation < 0x7FFF_FFFF_FFFF_FFFF)
        && (secret != "" ==> mode == "test" || mode == "live")
        && (emergency ==> secret == "" || secret != w.secret)
        && (!emergency && secret != "" && mode == currentMode ==> w.previousSecret == "" || w.previousExpiresAt <= now))
  }

  lemma WebhookAcceptedIff(w: Webhook, currentMode: string, mode: string, supplied: Option<string>,
                           emergency: bool, now: int)
    requires w.generation <= MAX_INT64
    ensures RotatedWebhook(w, currentMode, mode, supplied, emergency, now).Ok? <==>
            WebhookMayMove(w, currentMode, mode, supplied, emergency, now)
  {
  }

  /** What an update leaves of the webhook: the secret it proposes, none in an emergency that proposes none;
      the mode of the API credential with a secret and no mode without one; and the replaced secret for one
      day, exactly when a planned update in the same mode replaces one secret by another. */
  ghost predicate WebhookMovesTo(w: Webhook, currentMode: string, mode: string, supplied: Option<string>,
                                 emergency: bool, now: int, d: Webhook) {
    var secret := if supplied.Some? then supplied.value else "";
    if !emergency && (supplied.None? || secret == w.secret) then d == w
    else
      && d.secret == secret && d.livemode == (if secret == "" then "" else mode)
      && d.generation == w.generation + (if secret != w.secret && w.secret != "" then 1 else 0)
      && (if !emergency && secret != "" && w.secret != "" && mode == currentMode then
            && d.previousSecret == w.secret && d.previousGeneration == w.generation
            && d.previousValidBefore == now && d.previousExpiresAt == now + 86400
          else
            && d.previousSecret == "" && d.previousGeneration == 0
            && d.previousValidBefore == 0 && d.previousExpiresAt == 0)
  }

  lemma WebhookEffect(w: Webhook, currentMode: string, mode: string, supplied: Option<string>, emergency: bool,
                      now: int)
    requires RotatedWebhook(w, currentMode, mode, supplied, emergency, now).Ok?
    ensures WebhookMovesTo(w, currentMode, mode, supplied, emergency, now,
                           RotatedWebhook(w, currentMode, mode, supplied, emergency, now).value.after)
  {
  }

  // ---------------------------------------------------------------- whole requests

  /** Every provider to be disabled has something to disable. */
  ghost predicate MayDisable(s: Settings, e: set<Provider>) {
    && (Creem in e ==> !Blank(s.creem.apiKey) || !Blank(s.creem.webhookSecret))
    && (Waffo in e && s.waffo.sandbox ==>
          !Blank(s.waffo.sandboxApiKey) || !Blank(s.waffo.sandboxPrivateKey) || !Blank(s.waffo.sandboxPublicCert))
    && (Waffo in e && !s.waffo.sandbox ==>
          !Blank(s.waffo.apiKey) || !Blank(s.waffo.privateKey) || !Blank(s.waffo.publicCert))
    && (WaffoPancake in e ==> !Blank(s.pancake.privateKey) || !Blank(s.pancake.storeId))
  }

  /** The pair a gateway would have. */
  function NextPair(g: Gateway, s: Settings, v: Values): Pair {
    if g == EpayGateway then Pair(v.epay.id.GetOr(s.epay.current.id), v.epay.key.GetOr(s.epay.current.key))
    else Pair(v.xorPay.id.GetOr(s.xorPay.current.id), v.xorPay.key.GetOr(s.xorPay.current.key))
  }

  ghost predicate GatewayMayMove(g: Gateway, s: Settings, v: Values, e: set<Provider>, now: int, storageReady: bool) {
    if g == EpayGateway
    then PairMayMove(g, s.epay, NextPair(g, s, v), v.epay.id.Some? || v.epay.key.Some?, Epay in e, now, storageReady)
    else PairMayMove(g, s.xorPay, NextPair(g, s, v), v.xorPay.id.Some? || v.xorPay.key.Some?, XorPay in e, now,
                     storageReady)
  }

  ghost predicate StripeMayMove(s: Settings, v: Values, e: set<Provider>, now: int) {
    WebhookMayMove(s.webhook, s.stripe.credentialLivemode,
                   v.stripe.credentialLivemode.GetOr(s.stripe.credentialLivemode), v.webhook.secret, Stripe in e, now)
  }

  /** Generations are 64-bit integers. */
  ghost predicate Fits(s: Settings) {
    && s.epay.generation <= MAX_INT64 && s.xorPay.generation <= MAX_INT64 && s.webhook.generation <= MAX_INT64
  }

  lemma RotatedIff(s: Settings, v: Values, e: set<Provider>, now: int, storageReady: bool)
    requires Fits(s)
    ensures Rotated(s, v, e, now, storageReady).Ok? <==>
            && now > 0 && StripeMayMove(s, v, e, now)
            && GatewayMayMove(EpayGateway, s, v, e, now, storageReady)
            && GatewayMayMove(XorPayGateway, s, v, e, now, storageReady) && MayDisable(s, e)
  {
    WebhookAcceptedIff(s.webhook, s.stripe.credentialLivemode,
                       v.stripe.credentialLivemode.GetOr(s.stripe.credentialLivemode), v.webhook.secret, Stripe in e,
                       now);
    PairAcceptedIff(EpayGateway, s.epay, v.epay.id, v.epay.key, Epay in e, now, storageReady);
    PairAcceptedIff(XorPayGateway, s.xorPay, v.xorPay.id, v.xorPay.key, XorPay in e, now, storageReady);
  }

  /** A request is accepted exactly when it is well formed and committed, comes at a positive time, each of
      the three credentials may move as it asks, and what it disables is there. */
  lemma AcceptedIff(s: Settings, r: Request)
    requires Fits(s)
    ensures var v, e := Proposals(r), r.Emergency();
            Accepted(s, r) <==>
            && WellFormed(r) && r.committed && r.now > 0 && StripeMayMove(s, v, e, r.now)
            && GatewayMayMove(EpayGateway, s, v, e, r.now, r.storageReady)
            && GatewayMayMove(XorPayGateway, s, v, e, r.now, r.storageReady) && MayDisable(s, e)
  {
    RotatedIff(s, Proposals(r), r.Emergency(), r.now, r.storageReady);
  }

  lemma QuietMayMove(s: Settings, r: Request, other: Gateway, v: Values)
    requires v == Proposals(r) && other.Provider() !in r.Emergency() && !TouchesPair(other, r)
    ensures GatewayMayMove(other, s, v, r.Emergency(), r.now, r.storageReady)
  {
  }

  lemma QuietStripe(s: Settings, r: Request, v: Values)
    requires v == Proposals(r) && !TouchesWebhook(r)
    ensures StripeMayMove(s, v, r.Emergency(), r.now)
  {
  }

  /** A well-formed planned request that changes one pair is accepted exactly when that pair may move. */
  lemma PlannedPairRequest(g: Gateway, other: Gateway, s: Settings, r: Request)
    requires g != other && Fits(s) && WellFormed(r) && r.committed && r.now > 0 && r.Emergency() == {}
    requires NextPair(g, s, Proposals(r)) != g.Of(s).current
    ensures var c, next := g.Of(s), NextPair(g, s, Proposals(r));
            Accepted(s, r) <==>
            && 1 <= c.generation < 0x7FFF_FFFF_FFFF_FFFF && PlannedMayMove(c, r.now, r.storageReady)
            && (g == XorPayGateway && next.id != c.current.id && !Blank(c.current.id) && !Blank(next.id) ==>
                  next.key != c.current.key && !Blank(next.key))
  {
    OthersStayQuiet(g, other, s, r);
    AcceptedIff(s, r);
  }

  lemma OthersStayQuiet(g: Gateway, other: Gateway, s: Settings, r: Request)
    requires g != other && WellFormed(r) && r.Emergency() == {}
    requires NextPair(g, s, Proposals(r)) != g.Of(s).current
    ensures GatewayMayMove(other, s, Proposals(r), r.Emergency(), r.now, r.storageReady)
    ensures StripeMayMove(s, Proposals(r), r.Emergency(), r.now)
  {
    ChangeTouches(g, s, r);
    TouchesOne(r);
    QuietMayMove(s, r, other, Proposals(r));
    QuietStripe(s, r, Proposals(r));
  }

  lemma ChangeTouches(g: Gateway, s: Settings, r: Request)
    requires NextPair(g, s, Proposals(r)) != g.Of(s).current
    ensures TouchesPair(g, r)
  {
  }

  /** And then the pair is the proposed one under the next generation, the replaced one is kept as stated,
      and nothing is revoked. */
  lemma PlannedPairStep(g: Gateway, s: Settings, r: Request)
    requires Accepted(s, r) && g.Provider() !in r.Emergency() && Trimmed(g.Of(s).current.id)
    ensures var c, d, next := g.Of(s), g.Of(Step(s, r)), NextPair(g, s, Proposals(r));
            if next == c.current then d == c else PlannedTo(g, c, next, r.now, d)
  {
    var v := Proposals(r);
    ProposedIdIsTrimmed(g, r);
    RotatedPairOf(g, s, v, r.Emergency(), r.now, r.storageReady);
    PlannedEffect(g, g.Of(s), g.ValuesOf(v).id, g.ValuesOf(v).key, r.now, r.storageReady);
  }

  /** What an accepted request leaves of the webhook. */
  lemma WebhookRequestStep(s: Settings, r: Request)
    requires Accepted(s, r)
    ensures var v := Proposals(r);
            WebhookMovesTo(s.webhook, s.stripe.credentialLivemode,
                           v.stripe.credentialLivemode.GetOr(s.stripe.credentialLivemode), v.webhook.secret,
                           Stripe in r.Emergency(), r.now, Step(s, r).webhook)
  {
    var v := Proposals(r);
    RotatedWebhookOf(s, v, r.Emergency(), r.now, r.storageReady);
    WebhookEffect(s.webhook, s.stripe.credentialLivemode,
                  v.stripe.credentialLivemode.GetOr(s.stripe.credentialLivemode), v.webhook.secret,
                  Stripe in r.Emergency(), r.now);
  }

  // ---------------------------------------------------------------- emergencies of a pair

  /** The whole list of an emergency's revocations: a previous key first, whether or not it is still active,
      then a complete pair that is replaced. */
  function EmergencyRevocations(p: Provider, c: Credential, next: Pair, now: int): seq<Revocation> {
    (if c.previousGeneration >= 1 && c.previous.key != ""
     then [Revocation(p, c.previousGeneration, now, false)] else [])
    + (if next != c.current && c.current.id != "" && c.current.key != ""
       then [Revocation(p, c.generation, now, false)] else [])
  }

  ghost predicate EmergencyTo(c: Credential, next: Pair, d: Credential) {
    d == Credential(next, c.generation + (if next != c.current then 1 else 0), Pair("", ""), 0, 0, 0)
  }

  lemma EmergencyEffect(g: Gateway, c: Credential, id: Option<string>, key: Option<string>, now: int,
                        storageReady: bool)
    requires RotatedPair(g, c, id, key, true, now, storageReady).Ok?
    requires Trimmed(c.current.id) && (id.Some? ==> Trimmed(id.value))
    ensures var next := Pair(id.GetOr(c.current.id), key.GetOr(c.current.key));
            var outcome := RotatedPair(g, c, id, key, true, now, storageReady).value;
            && EmergencyTo(c, next, outcome.after)
            && outcome.revocations == EmergencyRevocations(g.Provider(), c, next, now)
  {
  }

  lemma PlannedRevokesNothing(g: Gateway, c: Credential, id: Option<string>, key: Option<string>, now: int,
                              storageReady: bool)
    requires RotatedPair(g, c, id, key, false, now, storageReady).Ok?
    ensures RotatedPair(g, c, id, key, false, now, storageReady).value.revocations == []
  {
  }

  /** The parts of an update in which only the given gateway has an emergency. */
  lemma OneEmergency(g: Gateway, s: Settings, v: Values, now: int, storageReady: bool)
    requires Rotated(s, v, {g.Provider()}, now, storageReady).Ok?
    ensures ExpectedPair(g, s, v, {g.Provider()}, now, storageReady).Ok?
    ensures Rotated(s, v, {g.Provider()}, now, storageReady).value.revocations
            == ExpectedPair(g, s, v, {g.Provider()}, now, storageReady).value.revocations
  {
    var e := {g.Provider()};
    var other := if g == EpayGateway then XorPayGateway else EpayGateway;
    PlannedRevokesNothing(other, other.Of(s), other.ValuesOf(v).id, other.ValuesOf(v).key, now, storageReady);
    assert WebhookRevocations([], now) == [] && DisableRevocations(e, now) == [];
    var own := ExpectedPair(g, s, v, e, now, storageReady).value.revocations;
    assert [] + own + [] == own && [] + [] + own == own && own + [] == own;
  }

  /** An accepted emergency of Epay or XORPay: the credential it leaves and everything it revokes. */
  lemma EmergencyPairStep(g: Gateway, s: Settings, r: Request)
    requires Accepted(s, r) && r.Emergency() == {g.Provider()} && Trimmed(g.Of(s).current.id)
    ensures var next := NextPair(g, s, Proposals(r));
            && EmergencyTo(g.Of(s), next, g.Of(Step(s, r)))
            && StepRevocations(s, r) == EmergencyRevocations(g.Provider(), g.Of(s), next, r.now)
  {
    var v := Proposals(r);
    ProposedIdIsTrimmed(g, r);
    RotatedPairOf(g, s, v, r.Emergency(), r.now, r.storageReady);
    OneEmergency(g, s, v, r.now, r.storageReady);
    EmergencyEffect(g, g.Of(s), g.ValuesOf(v).id, g.ValuesOf(v).key, r.now, r.storageReady);
  }

  // ---------------------------------------------------------------- everything a request revokes

  /** The generations a Stripe emergency revokes, in order: the current one if a secret is bound, then one
      whose overlap is still running, which without a recorded number is the one before; and if there is
      neither, the current one. */
  function StripeGenerations(w: Webhook, now: int): seq<int> {
    var previous := if w.previousGeneration >= 1 then w.previousGeneration else w.generation - 1;
    var running := w.previousSecret != "" && w.previousExpiresAt > now && previous >= 1;
    if w.secret == "" then (if running then [previous] else [w.generation])
    else if running && previous != w.generation then [w.generation, previous]
    else [w.generation]
  }

  lemma StripeGenerationsAre(w: Webhook, now: int)
    requires w.generation >= 1
    ensures EmergencyWebhookGenerations(w, now) == StripeGenerations(w, now)
  {
  }

  /** Revocations of the Stripe generations; the first covers all active orders. */
  function StripeRevocations(generations: seq<int>, now: int): seq<Revocation> {
    if |generations| == 1 then [Revocation(Stripe, generations[0], now, true)]
    else if |generations| == 2
    then [Revocation(Stripe, generations[0], now, true), Revocation(Stripe, generations[1], now, false)]
    else []
  }

  lemma WebhookPart(s: Settings, v: Values, e: set<Provider>, now: int, storageReady: bool)
    requires Rotated(s, v, e, now, storageReady).Ok? && Fits(s)
    ensures ExpectedWebhook(s, v, e, now).Ok?
    ensures WebhookRevocations(ExpectedWebhook(s, v, e, now).value.revoked, now) ==
            if Stripe in e then StripeRevocations(StripeGenerations(s.webhook, now), now) else []
  {
    WebhookAcceptedIff(s.webhook, s.stripe.credentialLivemode,
                       v.stripe.credentialLivemode.GetOr(s.stripe.credentialLivemode), v.webhook.secret, Stripe in e,
                       now);
    if Stripe in e {
      StripeGenerationsAre(s.webhook, now);
    }
  }

  lemma PairPart(g: Gateway, s: Settings, v: Values, e: set<Provider>, now: int, storageReady: bool)
    requires Rotated(s, v, e, now, storageReady).Ok? && g.Provider() !in e
    ensures ExpectedPair(g, s, v, e, now, storageReady).Ok?
    ensures ExpectedPair(g, s, v, e, now, storageReady).value.revocations == []
  {
    PlannedRevokesNothing(g, g.Of(s), g.ValuesOf(v).id, g.ValuesOf(v).key, now, storageReady);
  }

  lemma RevocationsAre(s: Settings, v: Values, e: set<Provider>, now: int, storageReady: bool)
    requires Rotated(s, v, e, now, storageReady).Ok?
    ensures Rotated(s, v, e, now, storageReady).value.revocations ==
            WebhookRevocations(ExpectedWebhook(s, v, e, now).value.revoked, now)
            + ExpectedPair(EpayGateway, s, v, e, now, storageReady).value.revocations
            + ExpectedPair(XorPayGateway, s, v, e, now, storageReady).value.revocations + DisableRevocations(e, now)
  {
  }

  lemma UpdateRevokes(s: Settings, v: Values, e: set<Provider>, now: int, storageReady: bool)
    requires Rotated(s, v, e, now, storageReady).Ok? && Fits(s) && Epay !in e && XorPay !in e
    ensures Rotated(s, v, e, now, storageReady).value.revocations ==
            (if Stripe in e then StripeRevocations(StripeGenerations(s.webhook, now), now) else [])
            + DisableRevocations(e, now)
  {
    WebhookPart(s, v, e, now, storageReady);
    PairPart(EpayGateway, s, v, e, now, storageReady);
    PairPart(XorPayGateway, s, v, e, now, storageReady);
    RevocationsAre(s, v, e, now, storageReady);
    NoPairs(WebhookRevocations(ExpectedWebhook(s, v, e, now).value.revoked, now), DisableRevocations(e, now));
  }

  lemma NoPairs(first: seq<Revocation>, last: seq<Revocation>)
    ensures first + [] + [] + last == first + last
  {
  }

  /** What is revoked for an emergency other than one of Epay or XORPay, if there is one: the generations above
      for Stripe, and all active orders at once for a provider that is disabled. */
  function OtherRevocations(s: Settings, emergency: Option<Provider>, now: int): seq<Revocation> {
    if emergency.None? then []
    else if emergency.value == Stripe then StripeRevocations(StripeGenerations(s.webhook, now), now)
    else [Revocation(emergency.value, 0, now, true)]
  }

  lemma OtherEmergency(s: Settings, e: set<Provider>, emergency: Option<Provider>, now: int)
    requires e == (if emergency.Some? then {emergency.value} else {}) && Epay !in e && XorPay !in e
    ensures (if Stripe in e then StripeRevocations(StripeGenerations(s.webhook, now), now) else [])
            + DisableRevocations(e, now) == OtherRevocations(s, emergency, now)
  {
  }

  /** The whole list of an accepted request without an emergency of Epay or XORPay. */
  lemma StepRevokes(s: Settings, r: Request, emergency: Option<Provider>)
    requires Accepted(s, r) && Fits(s)
    requires r.Emergency() == (if emergency.Some? then {emergency.value} else {})
    requires emergency != Some(Epay) && emergency != Some(XorPay)
    ensures StepRevocations(s, r) == OtherRevocations(s, emergency, r.now)
  {
    UpdateRevokes(s, Proposals(r), r.Emergency(), r.now, r.storageReady);
    OtherEmergency(s, r.Emergency(), emergency, r.now);
  }

  // ---------------------------------------------------------------- one mode for both Stripe secrets

  /** A stored webhook secret is recorded with the mode of the API credential. */
  ghost predicate OneMode(s: Settings) {
    s.webhook.secret != "" ==> s.webhook.livemode == s.stripe.credentialLivemode
  }

  lemma ModeAfter(s: Settings, v: Values, e: set<Provider>, now: int, storageReady: bool)
    requires Rotated(s, v, e, now, storageReady).Ok? && Trimmed(s.stripe.credentialLivemode)
    ensures Rotated(s, v, e, now, storageReady).value.settings.stripe.credentialLivemode ==
            TrimSpace(v.stripe.credentialLivemode.GetOr(s.stripe.credentialLivemode))
  {
  }

  /** On the webhook alone: the recorded mode follows if a changed mode comes with a changed secret. */
  lemma ModeFollows(w: Webhook, currentMode: string, mode: string, supplied: Option<string>, emergency: bool,
                    now: int, d: Webhook)
    requires w.secret != "" ==> w.livemode == currentMode
    requires WebhookMayMove(w, currentMode, mode, supplied, emergency, now)
    requires WebhookMovesTo(w, currentMode, mode, supplied, emergency, now, d)
    requires Trimmed(currentMode) && (mode != currentMode ==> d.secret != w.secret)
    ensures d.secret != "" ==> d.livemode == TrimSpace(mode)
  {
    assert Trimmed("test") && Trimmed("live");
  }

  /** The guards let a changed mode through only with a changed webhook secret. */
  lemma ModeNeedsSecret(s: Settings, v: Values)
    requires ModeIsBound(s, v)
    ensures var mode := v.stripe.credentialLivemode.GetOr(s.stripe.credentialLivemode);
            mode != s.stripe.credentialLivemode ==> ApplyWebhook(s.webhook, v.webhook).secret != s.webhook.secret
  {
  }

  /** The mode check of the guards, together with the rotation, keeps the two in one mode: a change of the
      API credential's mode is let through only with a new webhook secret, which is recorded with it. */
  lemma CommitKeepsOneMode(s: Settings, r: Request, v: Values, db: Snapshot, parse: HostParser)
    requires OneMode(s) && IdentityTrimmed(s) && Fits(s) && Accepted(s, r)
    requires Apply(s, v) == Step(s, r) && v.stripe == Proposals(r).stripe
    requires GuardsAllow(s, v, r.Emergency(), db, r.now, parse)
    ensures OneMode(Step(s, r))
  {
    var stripe, e := Proposals(r).stripe, r.Emergency();
    var mode := stripe.credentialLivemode.GetOr(s.stripe.credentialLivemode);
    assert StripeMayMove(s, Proposals(r), e, r.now) by {
      AcceptedIff(s, r);
    }
    WebhookRequestStep(s, r);
    ModeAfter(s, Proposals(r), e, r.now, r.storageReady);
    ModeNeedsSecret(s, v);
    ModeFollows(s.webhook, s.stripe.credentialLivemode, mode, Proposals(r).webhook.secret, Stripe in e, r.now,
                Step(s, r).webhook);
  }
}

/** `preparePaymentCredentialRotations` as a whole: all providers in sequence, with the settings that
    result once the rewritten values are committed. */
module PreparedRotation {
  import opened Wrappers
  import opened Text
  import opened PaymentSettings
  import opened CredentialRotation

  datatype Rotation = Rotation(settings: Settings, revocations: seq<Revocation>)

  /** Creem, Waffo and Waffo Pancake have no previous credential: an emergency disables the current one. */
  predicate NothingToDisable(s: Settings, e: set<Provider>) {
    || (Creem in e && NoCreemCredential(s.creem))
    || (Waffo in e && NoWaffoCredential(s.waffo))
    || (WaffoPancake in e && NoPancakeCredential(s.pancake))
  }

  predicate NoCreemCredential(c: CreemState) {
    Blank(c.apiKey) && Blank(c.webhookSecret)
  }

  predicate NoWaffoCredential(w: WaffoState) {
    if w.sandbox then Blank(w.sandboxApiKey) && Blank(w.sandboxPrivateKey) && Blank(w.sandboxPublicCert)
    else Blank(w.apiKey) && Blank(w.privateKey) && Blank(w.publicCert)
  }

  predicate NoPancakeCredential(p: PancakeState) {
    Blank(p.privateKey) && Blank(p.storeId)
  }

  function DisableRevocation(p: Provider, e: set<Provider>, now: int): seq<Revocation> {
    if p in e then [Revocation(p, 0, now, true)] else []
  }

  function DisableRevocations(e: set<Provider>, now: int): seq<Revocation> {
    DisableRevocation(Creem, e, now) + DisableRevocation(Waffo, e, now) + DisableRevocation(WaffoPancake, e, now)
  }

  function DisabledCreem(c: CreemState, e: set<Provider>): CreemState {
    if Creem in e then c.(apiKey := "", webhookSecret := "") else c
  }

  function DisabledWaffo(w: WaffoState, sandbox: bool, e: set<Provider>): WaffoState {
    if Waffo !in e then w
    else if sandbox then w.(enabled := false, sandboxApiKey := "", sandboxPrivateKey := "", sandboxPublicCert := "")
    else w.(enabled := false, apiKey := "", privateKey := "", publicCert := "")
  }

  function DisabledPancake(p: PancakeState, e: set<Provider>): PancakeState {
    if WaffoPancake in e then p.(privateKey := "", storeId := "") else p
  }

  function ExpectedPair(g: Gateway, s: Settings, v: Values, e: set<Provider>, now: int, storageReady: bool)
    : Result<PairOutcome, RotationError>
  {
    RotatedPair(g, g.Of(s), g.ValuesOf(v).id, g.ValuesOf(v).key, g.Provider() in e, now, storageReady)
  }

  function ExpectedWebhook(s: Settings, v: Values, e: set<Provider>, now: int): Result<WebhookOutcome, RotationError> {
    RotatedWebhook(s.webhook, s.stripe.credentialLivemode,
                   v.stripe.credentialLivemode.GetOr(s.stripe.credentialLivemode),
                   v.webhook.secret, Stripe in e, now)
  }

  datatype Credentials = Credentials(webhook: Webhook, epay: Credential, xorPay: Credential,
                                     revocations: seq<Revocation>)

  /** The three rotated credentials, or the first refusal. */
  function RotatedCredentials(s: Settings, v: Values, e: set<Provider>, now: int, storageReady: bool)
    : Result<Credentials, RotationError>
  {
    match ExpectedWebhook(s, v, e, now)
    case Err(error) => Err(error)
    case Ok(webhook) =>
      match ExpectedPair(EpayGateway, s, v, e, now, storageReady)
      case Err(error) => Err(error)
      case Ok(epay) =>
        match ExpectedPair(XorPayGateway, s, v, e, now, storageReady)
        case Err(error) => Err(error)
        case Ok(xorPay) =>
          Ok(Credentials(webhook.after, epay.after, xorPay.after,
                         WebhookRevocations(webhook.revoked, now) + epay.revocations + xorPay.revocations))
  }

  /** The settings and revocations of an update, or why it is refused. */
  function Rotated(s: Settings, v: Values, e: set<Provider>, now: int,
                   storageReady: bool): Result<Rotation, RotationError> {
    if now <= 0 then Err(InvalidTime) else
    match RotatedCredentials(s, v, e, now, storageReady)
    case Err(error) => Err(error)
    case Ok(c) =>
      if NothingToDisable(s, e) then Err(NothingToRevoke)
      else
        var applied := Apply(s, v);
        Ok(Rotation(
          applied.(epay := c.epay, xorPay := c.xorPay, webhook := c.webhook,
                   creem := DisabledCreem(applied.creem, e), waffo := DisabledWaffo(applied.waffo, s.waffo.sandbox, e),
                   pancake := DisabledPancake(applied.pancake, e)),
          c.revocations + DisableRevocations(e, now)))
  }

  /** An accepted update moves each paired gateway by its own rotation. */
  lemma RotatedPairOf(g: Gateway, s: Settings, v: Values, e: set<Provider>, now: int, storageReady: bool)
    requires Rotated(s, v, e, now, storageReady).Ok?
    ensures ExpectedPair(g, s, v, e, now, storageReady).Ok?
    ensures g.Of(Rotated(s, v, e, now, storageReady).value.settings)
            == ExpectedPair(g, s, v, e, now, storageReady).value.after
  {
  }

  lemma RotatedWebhookOf(s: Settings, v: Values, e: set<Provider>, now: int, storageReady: bool)
    requires Rotated(s, v, e, now, storageReady).Ok?
    ensures ExpectedWebhook(s, v, e, now).Ok?
    ensures Rotated(s, v, e, now, storageReady).value.settings.webhook == ExpectedWebhook(s, v, e, now).value.after
  {
  }

  /** What every caller passes: nothing for the options the server owns. */
  predicate ClientValues(v: Values) {
    LeavesWebhookInternals(v.webhook) && LeavesPairInternals(v.epay) && LeavesPairInternals(v.xorPay)
  }

  /** `preparePaymentCredentialRotations`: rewrites the proposed values and collects the revocations. */
  method Prepare(s: Settings, proposed: Values, e: set<Provider>, now: int, storageReady: bool)
    returns (r: Result<Values, RotationError>, revocations: seq<Revocation>)
    requires ClientValues(proposed)
    ensures var expected := Rotated(s, proposed, e, now, storageReady);
            && (r.Err? <==> expected.Err?)
            && (r.Err? ==> r.error == expected.error)
            && (r.Ok? ==> Rotation(Apply(s, r.value), revocations) == expected.value)
    ensures r.Ok? ==> WebhookWritten(s.webhook, r.value.webhook) && r.value.stripe == proposed.stripe
  {
    if now <= 0 {
      return Err(InvalidTime), [];
    }
    var rotated, credentialRevocations := RotateCredentials(s, proposed, e, now, storageReady);
    if rotated.Err? {
      return rotated, [];
    }
    var disabled, disableRevocations := DisableCurrentOnly(s, rotated.value, e, now);
    if disabled.Err? {
      return disabled, [];
    }
    r := disabled;
    revocations := credentialRevocations + disableRevocations;
  }

  /** The Stripe, Epay and XORPay sections, in this order. */
  method RotateCredentials(s: Settings, proposed: Values, e: set<Provider>, now: int, storageReady: bool)
    returns (r: Result<Values, RotationError>, revocations: seq<Revocation>)
    requires ClientValues(proposed)
    ensures var expected := RotatedCredentials(s, proposed, e, now, storageReady);
            && (r.Err? <==> expected.Err?)
            && (r.Err? ==> r.error == expected.error)
            && (r.Ok? ==>
                  Credentials(ApplyWebhook(s.webhook, r.value.webhook), ApplyPair(EpayGateway, s.epay, r.value.epay),
                              ApplyPair(XorPayGateway, s.xorPay, r.value.xorPay), revocations) == expected.value)
    ensures r.Ok? ==>
              && r.value == proposed.(webhook := r.value.webhook, epay := r.value.epay, xorPay := r.value.xorPay)
              && WebhookWritten(s.webhook, r.value.webhook)
  {
    var values := proposed;
    var mode := values.stripe.credentialLivemode.GetOr(s.stripe.credentialLivemode);
    var webhook, stripeRevocations :=
      RotateStripe(s.webhook, s.stripe.credentialLivemode, mode, values.webhook, Stripe in e, now);
    if webhook.Err? {
      return Err(webhook.error), [];
    }
    values := values.(webhook := webhook.value);
    var epay, epayRevocations := RotatePair(EpayGateway, s.epay, values.epay, Epay in e, now, storageReady);
    if epay.Err? {
      return Err(epay.error), [];
    }
    values := values.(epay := epay.value);
    var xorPay, xorPayRevocations := RotatePair(XorPayGateway, s.xorPay, values.xorPay, XorPay in e, now, storageReady);
    if xorPay.Err? {
      return Err(xorPay.error), [];
    }
    values := values.(xorPay := xorPay.value);
    revocations := stripeRevocations + epayRevocations + xorPayRevocations;
    r := Ok(values);
  }

  /** The Creem, Waffo and Waffo Pancake sections. */
  method DisableCurrentOnly(s: Settings, proposed: Values, e: set<Provider>, now: int)
    returns (r: Result<Values, RotationError>, revocations: seq<Revocation>)
    ensures r.Err? <==> NothingToDisable(s, e)
    ensures r.Err? ==> r.error == NothingToRevoke
    ensures r.Ok? ==>
              && r.value == proposed.(creem := r.value.creem, waffo := r.value.waffo, pancake := r.value.pancake)
              && ApplyCreem(s.creem, r.value.creem) == DisabledCreem(ApplyCreem(s.creem, proposed.creem), e)
              && ApplyWaffo(s.waffo, r.value.waffo)
                 == DisabledWaffo(ApplyWaffo(s.waffo, proposed.waffo), s.waffo.sandbox, e)
              && ApplyPancake(s.pancake, r.value.pancake)
                 == DisabledPancake(ApplyPancake(s.pancake, proposed.pancake), e)
              && revocations == DisableRevocations(e, now)
  {
    var creem, waffo, pancake := proposed.creem, proposed.waffo, proposed.pancake;
    revocations := [];
    if Creem in e {
      if NoCreemCredential(s.creem) {
        return Err(NothingToRevoke), [];
      }
      creem := creem.(apiKey := Some(""), webhookSecret := Some(""));
      revocations := revocations + [Revocation(Creem, 0, now, true)];
    }
    if Waffo in e {
      if NoWaffoCredential(s.waffo) {
        return Err(NothingToRevoke), [];
      }
      waffo := DisableWaffo(s.waffo, waffo);
      revocations := revocations + [Revocation(Waffo, 0, now, true)];
    }
    if WaffoPancake in e {
      if NoPancakeCredential(s.pancake) {
        return Err(NothingToRevoke), [];
      }
      pancake := pancake.(privateKey := Some(""), storeId := Some(""));
      revocations := revocations + [Revocation(WaffoPancake, 0, now, true)];
    }
    r := Ok(proposed.(creem := creem, waffo := waffo, pancake := pancake));
  }

  method DisableWaffo(w: WaffoState, proposed: WaffoValues) returns (v: WaffoValues)
    ensures ApplyWaffo(w, v) == DisabledWaffo(ApplyWaffo(w, proposed), w.sandbox, {Waffo})
  {
    if w.sandbox {
      v := proposed.(sandboxApiKey := Some(""), sandboxPrivateKey := Some(""), sandboxPublicCert := Some(""));
    } else {
      v := proposed.(apiKey := Some(""), privateKey := Some(""), publicCert := Some(""));
    }
    v := v.(enabled := Some("false"));
  }
}

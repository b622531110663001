/** From the options a request names to the settings it leaves. */
module OptionEffects {
  import opened Wrappers
  import opened Text
  import opened PaymentSettings
  import opened CredentialRotation
  import opened PreparedRotation
  import opened PaymentUpdates
  import opened PaymentConfiguration
  import opened RotationAcceptance

  /** The options whose blank value means "keep". */
  predicate Secret(k: OptionKey) {
    || k.EpayKey? || k.StripeApiSecret? || k.StripeWebhookSecret? || k.XorPayAppSecret? || k.CreemApiKey?
    || k.CreemWebhookSecret? || k.WaffoApiKey? || k.WaffoPrivateKey? || k.WaffoSandboxApiKey?
    || k.WaffoSandboxPrivateKey? || k.WaffoPancakePrivateKey?
  }

  /** The request sends a value for the option. */
  predicate Sends(r: Request, k: OptionKey) {
    k in r.options && !(Secret(k) && Blank(r.options[k]))
  }

  /** A text takes what the request says of its option: emptied if cleared, what was sent, trimmed, or as before. */
  predicate Takes(r: Request, k: OptionKey, before: string, after: string) {
    after == if k in r.clears then "" else if Sends(r, k) then TrimSpace(r.options[k]) else before
  }

  /** A flag takes whether "true" was sent. */
  predicate TakesFlag(r: Request, k: OptionKey, before: bool, after: bool) {
    after == if k in r.clears then false else if Sends(r, k) then TrimSpace(r.options[k]) == "true" else before
  }

  lemma SecretsAreWriteOnly(k: OptionKey)
    ensures Secret(k) <==> WriteOnly(k) && k != StripeWebhookSecretPrevious
  {
  }

  lemma TextTaken(r: Request, k: OptionKey, before: string, after: string)
    requires after == Proposal(r, k).GetOr(before) && k != StripeWebhookSecretPrevious
    ensures Takes(r, k, before, after)
  {
    SecretsAreWriteOnly(k);
  }

  lemma FlagTaken(r: Request, k: OptionKey, before: bool, after: bool)
    requires after == FlagOr(Proposal(r, k), before) && k != StripeWebhookSecretPrevious
    ensures TakesFlag(r, k, before, after)
  {
    SecretsAreWriteOnly(k);
  }

  // ---------------------------------------------------------------- settings without rotation

  lemma UnrotatedSettings(s: Settings, v: Values, e: set<Provider>, now: int, storageReady: bool)
    requires Rotated(s, v, e, now, storageReady).Ok?
    ensures var t := Rotated(s, v, e, now, storageReady).value.settings;
            && t.callbackAddress == v.callbackAddress.GetOr(s.callbackAddress)
            && t.payAddress == v.payAddress.GetOr(s.payAddress)
            && t.stripe == ApplyStripe(s.stripe, v.stripe)
            && (Creem !in e ==> t.creem == ApplyCreem(s.creem, v.creem))
            && (Waffo !in e ==> t.waffo == ApplyWaffo(s.waffo, v.waffo))
            && (WaffoPancake !in e ==> t.pancake == ApplyPancake(s.pancake, v.pancake))
  {
  }

  /** An accepted request, as the update of its proposals. */
  lemma StepIsUpdate(s: Settings, r: Request, v: Values)
    requires Accepted(s, r) && v == Proposals(r)
    ensures Rotated(s, v, r.Emergency(), r.now, r.storageReady).Ok?
    ensures Step(s, r) == Rotated(s, v, r.Emergency(), r.now, r.storageReady).value.settings
  {
  }

  lemma ProposedGeneral(r: Request, v: Values)
    requires v == Proposals(r)
    ensures v.callbackAddress == Proposal(r, CustomCallbackAddress) && v.payAddress == Proposal(r, PayAddress)
    ensures v.stripe.apiSecret == Proposal(r, StripeApiSecret) && v.stripe.accountId == Proposal(r, StripeAccountId)
    ensures v.stripe.checkoutHosts == Proposal(r, StripeCheckoutAllowedHosts)
    ensures v.creem.apiKey == Proposal(r, CreemApiKey) && v.creem.webhookSecret == Proposal(r, CreemWebhookSecret)
    ensures v.creem.testMode == Proposal(r, CreemTestMode)
  {
  }

  /** Addresses and the Stripe account. */
  lemma GeneralOptions(s: Settings, r: Request)
    requires Accepted(s, r)
    ensures var t := Step(s, r);
            && Takes(r, CustomCallbackAddress, s.callbackAddress, t.callbackAddress)
            && Takes(r, PayAddress, s.payAddress, t.payAddress)
            && Takes(r, StripeApiSecret, s.stripe.apiSecret, t.stripe.apiSecret)
            && Takes(r, StripeAccountId, s.stripe.accountId, t.stripe.accountId)
            && Takes(r, StripeCheckoutAllowedHosts, s.stripe.checkoutHosts, t.stripe.checkoutHosts)
  {
    var v, t := Proposals(r), Step(s, r);
    StepIsUpdate(s, r, v);
    UnrotatedSettings(s, v, r.Emergency(), r.now, r.storageReady);
    ProposedGeneral(r, v);
    TextTaken(r, CustomCallbackAddress, s.callbackAddress, t.callbackAddress);
    TextTaken(r, PayAddress, s.payAddress, t.payAddress);
    TextTaken(r, StripeApiSecret, s.stripe.apiSecret, t.stripe.apiSecret);
    TextTaken(r, StripeAccountId, s.stripe.accountId, t.stripe.accountId);
    TextTaken(r, StripeCheckoutAllowedHosts, s.stripe.checkoutHosts, t.stripe.checkoutHosts);
  }

  lemma CreemOptions(s: Settings, r: Request)
    requires Accepted(s, r) && Creem !in r.Emergency()
    ensures var c, d := s.creem, Step(s, r).creem;
            && Takes(r, CreemApiKey, c.apiKey, d.apiKey)
            && Takes(r, CreemWebhookSecret, c.webhookSecret, d.webhookSecret)
            && TakesFlag(r, CreemTestMode, c.testMode, d.testMode)
  {
    var v, c, d := Proposals(r), s.creem, Step(s, r).creem;
    StepIsUpdate(s, r, v);
    UnrotatedSettings(s, v, r.Emergency(), r.now, r.storageReady);
    ProposedGeneral(r, v);
    TextTaken(r, CreemApiKey, c.apiKey, d.apiKey);
    TextTaken(r, CreemWebhookSecret, c.webhookSecret, d.webhookSecret);
    FlagTaken(r, CreemTestMode, c.testMode, d.testMode);
  }

  lemma ProposedWaffo(r: Request, v: Values)
    requires v == Proposals(r)
    ensures v.waffo.enabled == Proposal(r, WaffoEnabled) && v.waffo.sandbox == Proposal(r, WaffoSandbox)
    ensures v.waffo.merchantId == Proposal(r, WaffoMerchantId)
    ensures v.waffo.notifyUrl == Proposal(r, WaffoNotifyUrl) && v.waffo.returnUrl == Proposal(r, WaffoReturnUrl)
    ensures v.waffo.apiKey == Proposal(r, WaffoApiKey) && v.waffo.privateKey == Proposal(r, WaffoPrivateKey)
    ensures v.waffo.publicCert == Proposal(r, WaffoPublicCert)
    ensures v.waffo.sandboxApiKey == Proposal(r, WaffoSandboxApiKey)
    ensures v.waffo.sandboxPrivateKey == Proposal(r, WaffoSandboxPrivateKey)
    ensures v.waffo.sandboxPublicCert == Proposal(r, WaffoSandboxPublicCert)
    ensures v.pancake == PancakeValues(Proposal(r, WaffoPancakeMerchantID), Proposal(r, WaffoPancakePrivateKey),
                                       Proposal(r, WaffoPancakeReturnURL), Proposal(r, WaffoPancakeTestMode),
                                       Proposal(r, WaffoPancakeStoreID))
  {
  }

  lemma WaffoAccountOptions(s: Settings, r: Request)
    requires Accepted(s, r) && Waffo !in r.Emergency()
    ensures var w, d := s.waffo, Step(s, r).waffo;
            && TakesFlag(r, WaffoEnabled, w.enabled, d.enabled) && TakesFlag(r, WaffoSandbox, w.sandbox, d.sandbox)
            && Takes(r, WaffoMerchantId, w.merchantId, d.merchantId)
            && Takes(r, WaffoNotifyUrl, w.notifyUrl, d.notifyUrl) && Takes(r, WaffoReturnUrl, w.returnUrl, d.returnUrl)
  {
    var v, w, d := Proposals(r), s.waffo, Step(s, r).waffo;
    StepIsUpdate(s, r, v);
    UnrotatedSettings(s, v, r.Emergency(), r.now, r.storageReady);
    ProposedWaffo(r, v);
    FlagTaken(r, WaffoEnabled, w.enabled, d.enabled);
    FlagTaken(r, WaffoSandbox, w.sandbox, d.sandbox);
    TextTaken(r, WaffoMerchantId, w.merchantId, d.merchantId);
    TextTaken(r, WaffoNotifyUrl, w.notifyUrl, d.notifyUrl);
    TextTaken(r, WaffoReturnUrl, w.returnUrl, d.returnUrl);
  }

  lemma WaffoKeyOptions(s: Settings, r: Request)
    requires Accepted(s, r) && Waffo !in r.Emergency()
    ensures var w, d := s.waffo, Step(s, r).waffo;
            && Takes(r, WaffoApiKey, w.apiKey, d.apiKey) && Takes(r, WaffoPrivateKey, w.privateKey, d.privateKey)
            && Takes(r, WaffoPublicCert, w.publicCert, d.publicCert)
            && Takes(r, WaffoSandboxApiKey, w.sandboxApiKey, d.sandboxApiKey)
            && Takes(r, WaffoSandboxPrivateKey, w.sandboxPrivateKey, d.sandboxPrivateKey)
            && Takes(r, WaffoSandboxPublicCert, w.sandboxPublicCert, d.sandboxPublicCert)
  {
    var v, w, d := Proposals(r), s.waffo, Step(s, r).waffo;
    StepIsUpdate(s, r, v);
    UnrotatedSettings(s, v, r.Emergency(), r.now, r.storageReady);
    ProposedWaffo(r, v);
    TextTaken(r, WaffoApiKey, w.apiKey, d.apiKey);
    TextTaken(r, WaffoPrivateKey, w.privateKey, d.privateKey);
    TextTaken(r, WaffoPublicCert, w.publicCert, d.publicCert);
    TextTaken(r, WaffoSandboxApiKey, w.sandboxApiKey, d.sandboxApiKey);
    TextTaken(r, WaffoSandboxPrivateKey, w.sandboxPrivateKey, d.sandboxPrivateKey);
    TextTaken(r, WaffoSandboxPublicCert, w.sandboxPublicCert, d.sandboxPublicCert);
  }

  lemma PancakeOptions(s: Settings, r: Request)
    requires Accepted(s, r) && WaffoPancake !in r.Emergency()
    ensures var p, d := s.pancake, Step(s, r).pancake;
            && Takes(r, WaffoPancakeMerchantID, p.merchantId, d.merchantId)
            && Takes(r, WaffoPancakePrivateKey, p.privateKey, d.privateKey)
            && Takes(r, WaffoPancakeReturnURL, p.returnUrl, d.returnUrl)
            && TakesFlag(r, WaffoPancakeTestMode, p.testMode, d.testMode)
            && Takes(r, WaffoPancakeStoreID, p.storeId, d.storeId)
  {
    var v, p, d := Proposals(r), s.pancake, Step(s, r).pancake;
    StepIsUpdate(s, r, v);
    UnrotatedSettings(s, v, r.Emergency(), r.now, r.storageReady);
    ProposedWaffo(r, v);
    TextTaken(r, WaffoPancakeMerchantID, p.merchantId, d.merchantId);
    TextTaken(r, WaffoPancakePrivateKey, p.privateKey, d.privateKey);
    TextTaken(r, WaffoPancakeReturnURL, p.returnUrl, d.returnUrl);
    FlagTaken(r, WaffoPancakeTestMode, p.testMode, d.testMode);
    TextTaken(r, WaffoPancakeStoreID, p.storeId, d.storeId);
  }

  // ---------------------------------------------------------------- rotated credentials

  lemma RotatedPairIsStored(g: Gateway, c: Credential, id: Option<string>, key: Option<string>, emergency: bool,
                            now: int, storageReady: bool)
    requires RotatedPair(g, c, id, key, emergency, now, storageReady).Ok? && (id.Some? ==> Trimmed(id.value))
    ensures RotatedPair(g, c, id, key, emergency, now, storageReady).value.after.current ==
            Pair(id.GetOr(c.current.id), key.GetOr(c.current.key))
  {
  }

  lemma ProposedPairs(r: Request, v: Values)
    requires v == Proposals(r)
    ensures v.epay.id == Proposal(r, EpayId) && v.epay.key == Proposal(r, EpayKey)
    ensures v.xorPay.id == Proposal(r, XorPayAid) && v.xorPay.key == Proposal(r, XorPayAppSecret)
    ensures v.webhook.secret == Proposal(r, StripeWebhookSecret)
  {
  }

  /** The pair of a gateway, in an emergency too. */
  lemma PairOptions(g: Gateway, s: Settings, r: Request)
    requires Accepted(s, r)
    ensures var before, after := g.Of(s).current, g.Of(Step(s, r)).current;
            if g == EpayGateway
            then Takes(r, EpayId, before.id, after.id) && Takes(r, EpayKey, before.key, after.key)
            else Takes(r, XorPayAid, before.id, after.id) && Takes(r, XorPayAppSecret, before.key, after.key)
  {
    var v, before, after := Proposals(r), g.Of(s).current, g.Of(Step(s, r)).current;
    StepIsUpdate(s, r, v);
    ProposedPairs(r, v);
    RotatedPairOf(g, s, v, r.Emergency(), r.now, r.storageReady);
    RotatedPairIsStored(g, g.Of(s), g.ValuesOf(v).id, g.ValuesOf(v).key, g.Provider() in r.Emergency(), r.now,
                        r.storageReady);
    if g == EpayGateway {
      TextTaken(r, EpayId, before.id, after.id);
      TextTaken(r, EpayKey, before.key, after.key);
    } else {
      TextTaken(r, XorPayAid, before.id, after.id);
      TextTaken(r, XorPayAppSecret, before.key, after.key);
    }
  }

  /** The webhook secret; in an emergency one that is not sent is emptied. */
  lemma WebhookOption(s: Settings, r: Request)
    requires Accepted(s, r)
    ensures Takes(r, StripeWebhookSecret, if Stripe in r.Emergency() then "" else s.webhook.secret,
                  Step(s, r).webhook.secret)
  {
    var before := if Stripe in r.Emergency() then "" else s.webhook.secret;
    ProposedPairs(r, Proposals(r));
    WebhookRequestStep(s, r);
    TextTaken(r, StripeWebhookSecret, before, Step(s, r).webhook.secret);
  }

  // ---------------------------------------------------------------- what the server owns

  /** The request sends a value for the option or clears it. */
  predicate Names(r: Request, k: OptionKey) {
    Sends(r, k) || k in r.clears
  }

  predicate NamesCheckout(r: Request) {
    || Names(r, StripeApiSecret) || Names(r, StripePriceId) || Names(r, StripeCurrency) || Names(r, StripeAccountId)
    || Names(r, StripeCheckoutAllowedHosts)
  }

  /** The account and mode of the API credential change only with what the server resolved for a request that
      sends or clears a part of the checkout configuration. */
  lemma IdentityIsResolved(s: Settings, r: Request)
    requires Accepted(s, r)
    ensures var a, b := s.stripe, Step(s, r).stripe;
            if r.identity.Some? && NamesCheckout(r)
            then && b.credentialAccountId == TrimSpace(r.identity.value.0)
                 && b.credentialLivemode == TrimSpace(r.identity.value.1)
            else b.credentialAccountId == a.credentialAccountId && b.credentialLivemode == a.credentialLivemode
  {
    var v := Proposals(r);
    StepIsUpdate(s, r, v);
    UnrotatedSettings(s, v, r.Emergency(), r.now, r.storageReady);
    ResolvesIff(r);
    ProposedIdentity(r, v);
  }

  lemma ResolvesIff(r: Request)
    ensures ResolvesIdentity(r) <==> r.identity.Some? && NamesCheckout(r)
  {
    ProposalNamed(r, StripeApiSecret);
    ProposalNamed(r, StripePriceId);
    ProposalNamed(r, StripeCurrency);
    ProposalNamed(r, StripeAccountId);
    ProposalNamed(r, StripeCheckoutAllowedHosts);
  }

  lemma ProposalNamed(r: Request, k: OptionKey)
    requires k != StripeWebhookSecretPrevious
    ensures Proposal(r, k).Some? <==> Names(r, k)
  {
    SecretsAreWriteOnly(k);
  }

  lemma ProposedIdentity(r: Request, v: Values)
    requires v == Proposals(r)
    ensures v.stripe.credentialAccountId == if ResolvesIdentity(r) then Some(r.identity.value.0) else None
    ensures v.stripe.credentialLivemode == if ResolvesIdentity(r) then Some(r.identity.value.1) else None
  {
  }

  /** Options no request may name: generations, previous credentials with their times, and what the server
      resolves or records for Stripe. */
  predicate ServerOwned(k: OptionKey) {
    || k.EpayCredentialGeneration? || k.EpayIdPrevious? || k.EpayKeyPrevious? || k.EpayPreviousCredentialGeneration?
    || k.EpayPreviousValidBefore? || k.EpayPreviousExpiresAt? || k.XorPayCredentialGeneration?
    || k.XorPayAidPrevious? || k.XorPayAppSecretPrevious? || k.XorPayPreviousCredentialGeneration?
    || k.XorPayPreviousValidBefore? || k.XorPayPreviousExpiresAt? || k.StripeCredentialAccountId?
    || k.StripeCredentialLivemode? || k.StripeWebhookSecretPrevious? || k.StripeWebhookSecretPreviousExpiresAt?
    || k.StripeWebhookCredentialLivemode? || k.StripeWebhookCredentialGeneration?
    || k.StripeWebhookPreviousCredentialGeneration? || k.StripeWebhookPreviousValidBefore?
  }

  /** A request that names one of them, or clears something other than a secret, changes nothing. */
  lemma ServerOwnedIsRefused(s: Settings, r: Request, k: OptionKey)
    requires ((k in r.options || k in r.clears) && ServerOwned(k)) || (k in r.clears && !Secret(k))
    ensures Step(s, r) == s && StepRevocations(s, r) == []
  {
    ServerOwnedIff(k);
    SecretsAreWriteOnly(k);
    Malformed(r, k);
  }

  lemma ServerOwnedIff(k: OptionKey)
    ensures ServerOwned(k) <==> !ClientWritable(k)
  {
  }

  lemma Malformed(r: Request, k: OptionKey)
    requires || ((k in r.options || k in r.clears) && !ClientWritable(k))
             || (k in r.clears && !WriteOnly(k))
    ensures !WellFormed(r)
  {
  }

  /** All options the request names and all its emergencies are of one module. */
  ghost predicate OneModule(r: Request) {
    && (forall j, k :: (j in r.options || j in r.clears) && (k in r.options || k in r.clears) ==>
          MutationScope(j) == MutationScope(k))
    && (forall k, p :: (k in r.options || k in r.clears) && (p in r.revoke || p in r.disable) ==>
          MutationScope(k) == ProviderScope(p))
  }

  lemma Singleton<T>(s: set<T>)
    requires forall x, y :: x in s && y in s ==> x == y
    ensures |s| <= 1
  {
    if x :| x in s {
      assert s == {x};
    }
  }

  lemma OneEmergencyIsOne(r: Request, p: Provider, q: Provider)
    requires |r.revoke| + |r.disable| <= 1 && p in r.Emergency() && q in r.Emergency()
    ensures p == q
  {
  }

  lemma OneModuleIff(r: Request)
    requires |r.revoke| + |r.disable| <= 1
    ensures |Scopes(r)| <= 1 <==> OneModule(r)
  {
    if OneModule(r) {
      forall x, y | x in Scopes(r) && y in Scopes(r)
        ensures x == y
      {
        SameScope(r, x, y);
      }
      Singleton(Scopes(r));
    }
    if |Scopes(r)| <= 1 {
      forall j, k | (j in r.options || j in r.clears) && (k in r.options || k in r.clears)
        ensures MutationScope(j) == MutationScope(k)
      {
        AtMostOne(Scopes(r), MutationScope(j), MutationScope(k));
      }
      forall k, p | (k in r.options || k in r.clears) && (p in r.revoke || p in r.disable)
        ensures MutationScope(k) == ProviderScope(p)
      {
        assert p in r.Emergency();
        AtMostOne(Scopes(r), MutationScope(k), ProviderScope(p));
      }
    }
  }

  lemma SameScope(r: Request, x: Scope, y: Scope)
    requires |r.revoke| + |r.disable| <= 1 && OneModule(r) && x in Scopes(r) && y in Scopes(r)
    ensures x == y
  {
    if p, q :| p in r.Emergency() && q in r.Emergency() && x == ProviderScope(p) && y == ProviderScope(q) {
      OneEmergencyIsOne(r, p, q);
    }
  }

  /** One thing at least is asked for, of one module, with at most one emergency: of Epay, Stripe or XORPay, or
      disabling Creem, Waffo or Waffo Pancake with nothing else. */
  ghost predicate Shaped(r: Request) {
    && OneModule(r) && |r.revoke| + |r.disable| <= 1
    && (r.options != map[] || r.clears != [] || r.revoke != [] || r.disable != [])
    && (forall p :: p in r.revoke ==> p == Epay || p == Stripe || p == XorPay)
    && (forall p :: p in r.disable ==> p == Creem || p == Waffo || p == WaffoPancake)
    && (r.disable == [] || (r.options == map[] && r.clears == []))
  }

  /** No option of the server's is named, and only secrets are cleared, each once and not also sent. */
  ghost predicate MayName(r: Request) {
    && (forall k :: k in r.options ==> !ServerOwned(k))
    && (forall k :: k in r.clears ==> Secret(k) && k !in r.options)
    && (forall i, j :: 0 <= i < j < |r.clears| ==> r.clears[i] != r.clears[j])
  }

  ghost predicate Writable(r: Request) {
    && (forall k :: k in r.options ==> ClientWritable(k))
    && (forall k :: k in r.clears ==> ClientWritable(k) && WriteOnly(k) && k !in r.options)
    && (forall i, j :: 0 <= i < j < |r.clears| ==> r.clears[i] != r.clears[j])
  }

  lemma MayNameIff(r: Request)
    ensures MayName(r) <==> Writable(r)
  {
    forall k | k in r.options
      ensures ServerOwned(k) <==> !ClientWritable(k)
    {
      ServerOwnedIff(k);
    }
    forall k | k in r.clears
      ensures Secret(k) <==> ClientWritable(k) && WriteOnly(k)
    {
      ServerOwnedIff(k);
      SecretsAreWriteOnly(k);
    }
  }

  lemma ShapedIff(r: Request)
    requires Writable(r) && r.fieldsValid
    ensures WellFormed(r) <==> Shaped(r)
  {
    if |r.revoke| + |r.disable| <= 1 {
      OneModuleIff(r);
    }
  }

  /** The requests that get past the first checks: valid fields, well shaped, and naming what they may. */
  lemma WellFormedIff(r: Request)
    ensures WellFormed(r) <==> r.fieldsValid && Shaped(r) && MayName(r)
  {
    MayNameIff(r);
    if Writable(r) && r.fieldsValid {
      ShapedIff(r);
    }
  }

  /** A request that succeeds without being committed: it clears and revokes nothing, and whatever it sends is
      a blank secret. */
  lemma ProposesNothingIff(r: Request)
    requires WellFormed(r)
    ensures ProposesNothing(r) <==>
            && r.clears == [] && r.Emergency() == {}
            && forall k :: k in r.options ==> Secret(k) && Blank(r.options[k])
  {
    forall k | k in r.options
      ensures Secret(k) <==> WriteOnly(k)
    {
      ServerOwnedIff(k);
      SecretsAreWriteOnly(k);
    }
    if r.revoke != [] {
      assert r.revoke[0] in r.Emergency();
    }
    if r.disable != [] {
      assert r.disable[0] in r.Emergency();
    }
  }

  // ---------------------------------------------------------------- disabling

  lemma DisabledSettings(s: Settings, v: Values, e: set<Provider>, now: int, storageReady: bool)
    requires Rotated(s, v, e, now, storageReady).Ok?
    ensures var t := Rotated(s, v, e, now, storageReady).value.settings;
            && t.creem == DisabledCreem(ApplyCreem(s.creem, v.creem), e)
            && t.waffo == DisabledWaffo(ApplyWaffo(s.waffo, v.waffo), s.waffo.sandbox, e)
            && t.pancake == DisabledPancake(ApplyPancake(s.pancake, v.pancake), e)
  {
  }

  lemma NothingNamed(r: Request, p: Provider)
    requires WellFormed(r) && p in r.Emergency() && (p == Creem || p == Waffo || p == WaffoPancake)
    ensures forall k :: Proposal(r, k) == None
  {
  }

  /** Disabling Creem, Waffo or Waffo Pancake empties the credentials in use and turns Waffo off. */
  lemma DisablingEmpties(s: Settings, r: Request, p: Provider)
    requires Accepted(s, r) && p in r.Emergency() && (p == Creem || p == Waffo || p == WaffoPancake)
    ensures var t := Step(s, r);
            match p
            case Creem => t.creem == CreemState("", "", s.creem.testMode)
            case Waffo =>
              t.waffo == (if s.waffo.sandbox
                          then s.waffo.(enabled := false, sandboxApiKey := "", sandboxPrivateKey := "",
                                        sandboxPublicCert := "")
                          else s.waffo.(enabled := false, apiKey := "", privateKey := "", publicCert := ""))
            case _ => t.pancake == s.pancake.(privateKey := "", storeId := "")
  {
    var v := Proposals(r);
    StepIsUpdate(s, r, v);
    NothingNamed(r, p);
    ProposedGeneral(r, v);
    ProposedWaffo(r, v);
    DisabledSettings(s, v, r.Emergency(), r.now, r.storageReady);
  }
}

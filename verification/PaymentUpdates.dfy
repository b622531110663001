/** A settings request from arrival to commit: which options it may name, the single module it may
    touch, and the step it makes on the stored settings. */
module PaymentUpdates {
  import opened Wrappers
  import opened Text
  import opened PaymentSettings
  import opened CredentialRotation
  import opened PreparedRotation

  /** The request and everything the environment decides about it. `identity` is the Stripe account and
      mode the server resolved for a new API secret; `fieldsValid` stands for the per-field validators;
      `committed` for the in-flight checks and the transaction. */
  datatype Request = Request(
    options: map<OptionKey, string>, clears: seq<OptionKey>, revoke: seq<Provider>, disable: seq<Provider>,
    now: int, storageReady: bool, identity: Option<(string, string)>, fieldsValid: bool, committed: bool)
  {
    function Emergency(): set<Provider> {
      (set p | p in revoke) + (set p | p in disable)
    }
  }

  /** `paymentSettingsAllowedKeys`. */
  predicate ClientWritable(k: OptionKey) {
    match k
    case EpayCredentialGeneration | EpayIdPrevious | EpayKeyPrevious
       | EpayPreviousCredentialGeneration | EpayPreviousValidBefore | EpayPreviousExpiresAt
       | XorPayCredentialGeneration | XorPayAidPrevious | XorPayAppSecretPrevious
       | XorPayPreviousCredentialGeneration | XorPayPreviousValidBefore | XorPayPreviousExpiresAt
       | StripeCredentialAccountId | StripeCredentialLivemode
       | StripeWebhookSecretPrevious | StripeWebhookSecretPreviousExpiresAt | StripeWebhookCredentialLivemode
       | StripeWebhookCredentialGeneration | StripeWebhookPreviousCredentialGeneration
       | StripeWebhookPreviousValidBefore => false
    case _ => true
  }

  /** `isWriteOnlyPaymentSetting`. */
  predicate WriteOnly(k: OptionKey) {
    match k
    case EpayKey | StripeApiSecret | StripeWebhookSecret | StripeWebhookSecretPrevious | XorPayAppSecret
       | CreemApiKey | CreemWebhookSecret | WaffoApiKey | WaffoPrivateKey | WaffoSandboxApiKey | WaffoSandboxPrivateKey
       | WaffoPancakePrivateKey => true
    case _ => false
  }

  datatype Scope = GeneralScope | ProviderScope(provider: Provider)

  /** `paymentSettingMutationScope` on the modelled options. */
  function MutationScope(k: OptionKey): Scope {
    match k
    case ServerAddress | CustomCallbackAddress => GeneralScope
    case PayAddress | EpayId | EpayKey | EpayCredentialGeneration | EpayIdPrevious | EpayKeyPrevious
       | EpayPreviousCredentialGeneration | EpayPreviousValidBefore | EpayPreviousExpiresAt => ProviderScope(Epay)
    case XorPayAid | XorPayAppSecret | XorPayCredentialGeneration | XorPayAidPrevious | XorPayAppSecretPrevious
       | XorPayPreviousCredentialGeneration | XorPayPreviousValidBefore | XorPayPreviousExpiresAt =>
         ProviderScope(XorPay)
    case CreemApiKey | CreemWebhookSecret | CreemTestMode => ProviderScope(Creem)
    case WaffoPancakeMerchantID | WaffoPancakePrivateKey | WaffoPancakeReturnURL
       | WaffoPancakeTestMode | WaffoPancakeStoreID => ProviderScope(WaffoPancake)
    case WaffoEnabled | WaffoMerchantId | WaffoSandbox | WaffoNotifyUrl | WaffoReturnUrl
       | WaffoApiKey | WaffoPrivateKey | WaffoPublicCert
       | WaffoSandboxApiKey | WaffoSandboxPrivateKey | WaffoSandboxPublicCert => ProviderScope(Waffo)
    case _ => ProviderScope(Stripe)
  }

  function Scopes(r: Request): set<Scope> {
    (set k | k in r.options :: MutationScope(k)) + (set k | k in r.clears :: MutationScope(k))
    + (set p | p in r.Emergency() :: ProviderScope(p))
  }

  /** `validatePaymentSettingsMutationScope`: one module per request, at most one emergency. */
  predicate ScopeConflict(r: Request) {
    |r.revoke| + |r.disable| > 1 || |Scopes(r)| > 1
  }

  /** The request checks that precede any rotation. */
  predicate WellFormed(r: Request) {
    && (r.options != map[] || r.clears != [] || r.revoke != [] || r.disable != [])
    && !ScopeConflict(r)
    && (r.disable != [] ==> r.options == map[] && r.clears == [])
    && (forall p :: p in r.revoke ==> p == Epay || p == Stripe || p == XorPay)
    && (forall p :: p in r.disable ==> p == Creem || p == Waffo || p == WaffoPancake)
    && (forall k :: k in r.options ==> ClientWritable(k))
    && (forall k :: k in r.clears ==> ClientWritable(k) && WriteOnly(k) && k !in r.options)
    && (forall i, j :: 0 <= i < j < |r.clears| ==> r.clears[i] != r.clears[j])
    && r.fieldsValid
  }

  /** The value a request proposes for an option: blank secrets are skipped, cleared secrets are empty. */
  function Proposal(r: Request, k: OptionKey): (value: Option<string>)
    ensures value.Some? ==> Trimmed(value.value)
    ensures value.Some? ==> k in r.clears || k in r.options
  {
    if k in r.clears then Some("")
    else if k in r.options && !(WriteOnly(k) && Blank(r.options[k])) then Some(TrimSpace(r.options[k]))
    else None
  }

  function ProposedPair(r: Request, id: OptionKey, key: OptionKey): PairValues {
    PairValues(Proposal(r, id), Proposal(r, key), None, None, None, None, None, None)
  }

  /** The server resolves a Stripe account only for a request that touches the checkout configuration. */
  predicate ResolvesIdentity(r: Request) {
    && r.identity.Some?
    && (|| Proposal(r, StripeApiSecret).Some? || Proposal(r, StripePriceId).Some? || Proposal(r, StripeCurrency).Some?
        || Proposal(r, StripeAccountId).Some? || Proposal(r, StripeCheckoutAllowedHosts).Some?)
  }

  function Proposals(r: Request): (v: Values)
    ensures ClientValues(v)
  {
    Values(
      Proposal(r, CustomCallbackAddress), Proposal(r, PayAddress),
      ProposedPair(r, EpayId, EpayKey), ProposedPair(r, XorPayAid, XorPayAppSecret),
      WebhookValues(Proposal(r, StripeWebhookSecret), None, None, None, None, None, None),
      StripeValues(Proposal(r, StripeApiSecret), Proposal(r, StripeAccountId),
                   if ResolvesIdentity(r) then Some(r.identity.value.0) else None,
                   if ResolvesIdentity(r) then Some(r.identity.value.1) else None,
                   Proposal(r, StripeCheckoutAllowedHosts)),
      CreemValues(Proposal(r, CreemApiKey), Proposal(r, CreemWebhookSecret), Proposal(r, CreemTestMode)),
      WaffoValues(Proposal(r, WaffoEnabled), Proposal(r, WaffoMerchantId), Proposal(r, WaffoSandbox),
                  Proposal(r, WaffoNotifyUrl), Proposal(r, WaffoReturnUrl),
                  Proposal(r, WaffoApiKey), Proposal(r, WaffoPrivateKey), Proposal(r, WaffoPublicCert),
                  Proposal(r, WaffoSandboxApiKey), Proposal(r, WaffoSandboxPrivateKey),
                  Proposal(r, WaffoSandboxPublicCert)),
      PancakeValues(Proposal(r, WaffoPancakeMerchantID), Proposal(r, WaffoPancakePrivateKey),
                    Proposal(r, WaffoPancakeReturnURL), Proposal(r, WaffoPancakeTestMode),
                    Proposal(r, WaffoPancakeStoreID)))
  }

  predicate Accepted(s: Settings, r: Request) {
    WellFormed(r) && r.committed && Rotated(s, Proposals(r), r.Emergency(), r.now, r.storageReady).Ok?
  }

  /** The settings after a request; a refused request changes nothing. */
  function Step(s: Settings, r: Request): Settings {
    if Accepted(s, r) then Rotated(s, Proposals(r), r.Emergency(), r.now, r.storageReady).value.settings else s
  }

  function StepRevocations(s: Settings, r: Request): seq<Revocation> {
    if Accepted(s, r) then Rotated(s, Proposals(r), r.Emergency(), r.now, r.storageReady).value.revocations else []
  }

  lemma ProposedIdIsTrimmed(g: Gateway, r: Request)
    ensures g.ValuesOf(Proposals(r)).id.Some? ==> Trimmed(g.ValuesOf(Proposals(r)).id.value)
  {
  }

  lemma AtMostOne<T>(s: set<T>, x: T, y: T)
    requires x in s && y in s && |s| <= 1
    ensures x == y
  {
    if x != y {
      assert {x, y} <= s;
      CardinalityMonotone({x, y}, s);
    }
  }

  lemma CardinalityMonotone<T>(a: set<T>, b: set<T>)
    requires a <= b
    ensures |a| <= |b|
  {
    assert b == a + (b - a);
  }
}

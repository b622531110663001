/** The payment options kept by the gateway, the options a request may write, and how a committed
    set of values becomes the new settings. */
module PaymentSettings {
  import opened Wrappers
  import opened Text

  const MAX_INT64: int := 0x7FFF_FFFF_FFFF_FFFF
  const PAYMENT_CALLBACK_RECOVERY_WINDOW: int := 30 * 24 * 3600
  const EPAY_OVERLAP: int := PAYMENT_CALLBACK_RECOVERY_WINDOW + 3 * 3600
  const XORPAY_OVERLAP: int := PAYMENT_CALLBACK_RECOVERY_WINDOW + 25 * 3600
  const STRIPE_OVERLAP: int := 24 * 3600

  datatype Provider = Epay | Stripe | XorPay | Creem | Waffo | WaffoPancake

  // ---------------------------------------------------------------- stored settings

  datatype Pair = Pair(id: string, key: string) {
    predicate Complete() {
      id != "" && key != ""
    }
  }

  const NO_PAIR := Pair("", "")

  /** Current and previous merchant credential of Epay or XORPay. */
  datatype Credential = Credential(
    current: Pair, generation: int,
    previous: Pair, previousGeneration: int, previousValidBefore: int, previousExpiresAt: int)
  {
    /** `EpayPreviousCredentialActive` and `XorPayPreviousCredentialActive`. */
    predicate PreviousActive(now: int) {
      previousGeneration > 0 && previousExpiresAt > now && previous.Complete()
    }

    /** What an emergency revokes: a previous key with a generation, expired or not. */
    predicate PreviousStored() {
      previousGeneration > 0 && previous.key != ""
    }
  }

  datatype Webhook = Webhook(
    secret: string, generation: int,
    previousSecret: string, previousGeneration: int, previousValidBefore: int, previousExpiresAt: int,
    livemode: string)
  {
    /** `StripePreviousWebhookSecretActive`: no test of the generation. */
    predicate PreviousActive(now: int) {
      previousSecret != "" && previousExpiresAt > now
    }
  }

  datatype StripeAccount = StripeAccount(
    apiSecret: string, accountId: string, credentialAccountId: string, credentialLivemode: string,
    checkoutHosts: string)

  datatype CreemState = CreemState(apiKey: string, webhookSecret: string, testMode: bool)

  datatype WaffoState = WaffoState(
    enabled: bool, merchantId: string, sandbox: bool, notifyUrl: string, returnUrl: string,
    apiKey: string, privateKey: string, publicCert: string,
    sandboxApiKey: string, sandboxPrivateKey: string, sandboxPublicCert: string)

  datatype PancakeState = PancakeState(
    merchantId: string, privateKey: string, returnUrl: string, testMode: bool, storeId: string)

  datatype Settings = Settings(
    callbackAddress: string, payAddress: string,
    epay: Credential, xorPay: Credential, webhook: Webhook, stripe: StripeAccount,
    creem: CreemState, waffo: WaffoState, pancake: PancakeState)

  // ---------------------------------------------------------------- option names

  datatype OptionKey =
    | ServerAddress | CustomCallbackAddress
    | PayAddress | EpayId | EpayKey
    | EpayCredentialGeneration | EpayIdPrevious | EpayKeyPrevious
    | EpayPreviousCredentialGeneration | EpayPreviousValidBefore | EpayPreviousExpiresAt
    | XorPayAid | XorPayAppSecret
    | XorPayCredentialGeneration | XorPayAidPrevious | XorPayAppSecretPrevious
    | XorPayPreviousCredentialGeneration | XorPayPreviousValidBefore | XorPayPreviousExpiresAt
    | StripeApiSecret | StripeWebhookSecret | StripeAccountId | StripeCheckoutAllowedHosts | StripePriceId
    | StripeCurrency
    | StripeCredentialAccountId | StripeCredentialLivemode
    | StripeWebhookSecretPrevious | StripeWebhookSecretPreviousExpiresAt | StripeWebhookCredentialLivemode
    | StripeWebhookCredentialGeneration | StripeWebhookPreviousCredentialGeneration | StripeWebhookPreviousValidBefore
    | CreemApiKey | CreemWebhookSecret | CreemTestMode
    | WaffoEnabled | WaffoMerchantId | WaffoSandbox | WaffoNotifyUrl | WaffoReturnUrl
    | WaffoApiKey | WaffoPrivateKey | WaffoPublicCert
    | WaffoSandboxApiKey | WaffoSandboxPrivateKey | WaffoSandboxPublicCert
    | WaffoPancakeMerchantID | WaffoPancakePrivateKey | WaffoPancakeReturnURL
    | WaffoPancakeTestMode | WaffoPancakeStoreID

  // ---------------------------------------------------------------- proposed values

  /** The values of an update, keyed by option in the source: an absent key is `None`. Integers the
      server formats into text stay integers here. */
  datatype PairValues = PairValues(
    id: Option<string>, key: Option<string>, generation: Option<int>,
    previousId: Option<string>, previousKey: Option<string>,
    previousGeneration: Option<int>, previousValidBefore: Option<int>, previousExpiresAt: Option<int>)

  datatype WebhookValues = WebhookValues(
    secret: Option<string>, generation: Option<int>,
    previousSecret: Option<string>, previousGeneration: Option<int>, previousValidBefore: Option<int>,
    previousExpiresAt: Option<int>, livemode: Option<string>)

  datatype StripeValues = StripeValues(
    apiSecret: Option<string>, accountId: Option<string>, credentialAccountId: Option<string>,
    credentialLivemode: Option<string>, checkoutHosts: Option<string>)

  datatype CreemValues = CreemValues(apiKey: Option<string>, webhookSecret: Option<string>, testMode: Option<string>)

  datatype WaffoValues = WaffoValues(
    enabled: Option<string>, merchantId: Option<string>, sandbox: Option<string>,
    notifyUrl: Option<string>, returnUrl: Option<string>,
    apiKey: Option<string>, privateKey: Option<string>, publicCert: Option<string>,
    sandboxApiKey: Option<string>, sandboxPrivateKey: Option<string>, sandboxPublicCert: Option<string>)

  datatype PancakeValues = PancakeValues(
    merchantId: Option<string>, privateKey: Option<string>, returnUrl: Option<string>,
    testMode: Option<string>, storeId: Option<string>)

  datatype Values = Values(
    callbackAddress: Option<string>, payAddress: Option<string>,
    epay: PairValues, xorPay: PairValues, webhook: WebhookValues, stripe: StripeValues,
    creem: CreemValues, waffo: WaffoValues, pancake: PancakeValues)

  // ---------------------------------------------------------------- the two paired gateways

  datatype Gateway = EpayGateway | XorPayGateway {
    function Overlap(): int {
      if EpayGateway? then EPAY_OVERLAP else XORPAY_OVERLAP
    }

    function Provider(): Provider {
      if EpayGateway? then Epay else XorPay
    }

    function Of(s: Settings): Credential {
      if EpayGateway? then s.epay else s.xorPay
    }

    function ValuesOf(v: Values): PairValues {
      if EpayGateway? then v.epay else v.xorPay
    }

    /** The identifier as stored: only XORPay's is trimmed when it is applied. */
    function StoredId(id: string): string {
      if EpayGateway? then id else TrimSpace(id)
    }
  }

  // ---------------------------------------------------------------- committing values

  function TrimmedOr(value: Option<string>, default: string): string {
    if value.Some? then TrimSpace(value.value) else default
  }

  /** `strconv.FormatBool`. */
  function FormatBool(b: bool): string {
    if b then "true" else "false"
  }

  function FlagOr(value: Option<string>, default: bool): bool {
    if value.Some? then value.value == "true" else default
  }

  function ApplyPair(g: Gateway, c: Credential, v: PairValues): Credential {
    Credential(
      Pair(if v.id.Some? then g.StoredId(v.id.value) else c.current.id, v.key.GetOr(c.current.key)),
      v.generation.GetOr(c.generation),
      Pair(TrimmedOr(v.previousId, c.previous.id), v.previousKey.GetOr(c.previous.key)),
      v.previousGeneration.GetOr(c.previousGeneration),
      v.previousValidBefore.GetOr(c.previousValidBefore),
      v.previousExpiresAt.GetOr(c.previousExpiresAt))
  }

  function ApplyWebhook(w: Webhook, v: WebhookValues): Webhook {
    Webhook(
      v.secret.GetOr(w.secret), v.generation.GetOr(w.generation),
      v.previousSecret.GetOr(w.previousSecret), v.previousGeneration.GetOr(w.previousGeneration),
      v.previousValidBefore.GetOr(w.previousValidBefore), v.previousExpiresAt.GetOr(w.previousExpiresAt),
      v.livemode.GetOr(w.livemode))
  }

  function ApplyStripe(a: StripeAccount, v: StripeValues): StripeAccount {
    StripeAccount(
      v.apiSecret.GetOr(a.apiSecret), TrimmedOr(v.accountId, a.accountId),
      TrimmedOr(v.credentialAccountId, a.credentialAccountId),
      TrimmedOr(v.credentialLivemode, a.credentialLivemode), v.checkoutHosts.GetOr(a.checkoutHosts))
  }

  function ApplyCreem(c: CreemState, v: CreemValues): CreemState {
    CreemState(v.apiKey.GetOr(c.apiKey), v.webhookSecret.GetOr(c.webhookSecret), FlagOr(v.testMode, c.testMode))
  }

  function ApplyWaffo(w: WaffoState, v: WaffoValues): WaffoState {
    WaffoState(
      FlagOr(v.enabled, w.enabled), v.merchantId.GetOr(w.merchantId), FlagOr(v.sandbox, w.sandbox),
      v.notifyUrl.GetOr(w.notifyUrl), v.returnUrl.GetOr(w.returnUrl),
      v.apiKey.GetOr(w.apiKey), v.privateKey.GetOr(w.privateKey), v.publicCert.GetOr(w.publicCert),
      v.sandboxApiKey.GetOr(w.sandboxApiKey), v.sandboxPrivateKey.GetOr(w.sandboxPrivateKey),
      v.sandboxPublicCert.GetOr(w.sandboxPublicCert))
  }

  function ApplyPancake(p: PancakeState, v: PancakeValues): PancakeState {
    PancakeState(
      v.merchantId.GetOr(p.merchantId), v.privateKey.GetOr(p.privateKey), v.returnUrl.GetOr(p.returnUrl),
      FlagOr(v.testMode, p.testMode), v.storeId.GetOr(p.storeId))
  }

  /** Every committed value replaces its setting; other settings keep their value. */
  function Apply(s: Settings, v: Values): Settings {
    Settings(
      v.callbackAddress.GetOr(s.callbackAddress), v.payAddress.GetOr(s.payAddress),
      ApplyPair(EpayGateway, s.epay, v.epay), ApplyPair(XorPayGateway, s.xorPay, v.xorPay),
      ApplyWebhook(s.webhook, v.webhook), ApplyStripe(s.stripe, v.stripe),
      ApplyCreem(s.creem, v.creem), ApplyWaffo(s.waffo, v.waffo), ApplyPancake(s.pancake, v.pancake))
  }
}

/** What the guards of a settings change come to, on the fields themselves: which changed option needs which
    orders or history to be absent. */
module GuardFacts {
  import opened Wrappers
  import opened Text
  import opened PaymentSettings
  import opened CredentialRotation
  import opened ConfigurationGuards

  /** No unfinished order of the provider. */
  ghost predicate Idle(p: Provider, db: Snapshot) {
    p !in db.canonical && p !in db.legacy
  }

  /** The options of Creem: the API key needs no unfinished order, webhook secret and mode no order that
      still depends on callbacks. */
  ghost predicate CreemFree(c: CreemState, v: CreemValues, db: Snapshot) {
    var active := v.apiKey.Some? && v.apiKey.value != c.apiKey;
    var recovery := || (v.webhookSecret.Some? && v.webhookSecret.value != c.webhookSecret)
                    || (v.testMode.Some? && v.testMode.value != (if c.testMode then "true" else "false"));
    (active ==> Idle(Creem, db)) && (recovery ==> Creem !in db.callbackDependent)
  }

  /** The options of Waffo; of the two sets of keys only the one in use counts. */
  ghost predicate WaffoFree(w: WaffoState, v: WaffoValues, db: Snapshot) {
    var active := || (v.merchantId.Some? && v.merchantId.value != w.merchantId)
                  || (v.returnUrl.Some? && v.returnUrl.value != w.returnUrl);
    var recovery := || (v.sandbox.Some? && v.sandbox.value != (if w.sandbox then "true" else "false"))
                    || (v.notifyUrl.Some? && v.notifyUrl.value != w.notifyUrl)
                    || WaffoKeysMove(w, v);
    (active ==> Idle(Waffo, db)) && (recovery ==> Waffo !in db.callbackDependent)
  }

  ghost predicate WaffoKeysMove(w: WaffoState, v: WaffoValues) {
    if w.sandbox then
      || (v.sandboxApiKey.Some? && v.sandboxApiKey.value != w.sandboxApiKey)
      || (v.sandboxPrivateKey.Some? && v.sandboxPrivateKey.value != w.sandboxPrivateKey)
      || (v.sandboxPublicCert.Some? && v.sandboxPublicCert.value != w.sandboxPublicCert)
    else
      || (v.apiKey.Some? && v.apiKey.value != w.apiKey)
      || (v.privateKey.Some? && v.privateKey.value != w.privateKey)
      || (v.publicCert.Some? && v.publicCert.value != w.publicCert)
  }

  ghost predicate PancakeFree(p: PancakeState, v: PancakeValues, db: Snapshot) {
    var active := || (v.merchantId.Some? && v.merchantId.value != p.merchantId)
                  || (v.privateKey.Some? && v.privateKey.value != p.privateKey)
                  || (v.returnUrl.Some? && v.returnUrl.value != p.returnUrl);
    var recovery := || (v.testMode.Some? && v.testMode.value != (if p.testMode then "true" else "false"))
                    || (v.storeId.Some? && v.storeId.value != p.storeId);
    (active ==> Idle(WaffoPancake, db)) && (recovery ==> WaffoPancake !in db.callbackDependent)
  }

  /** The retained options of the three providers, except those under emergency. */
  ghost predicate RetainedFree(s: Settings, v: Values, e: set<Provider>, db: Snapshot) {
    && (Creem in e || CreemFree(s.creem, v.creem, db))
    && (Waffo in e || WaffoFree(s.waffo, v.waffo, db))
    && (WaffoPancake in e || PancakeFree(s.pancake, v.pancake, db))
  }

  ghost predicate OriginFree(s: Settings, v: Values, db: Snapshot) {
    v.callbackAddress.Some? && v.callbackAddress.value != s.callbackAddress ==> db.callbackDependent == {}
  }

  /** The Epay endpoint needs no unfinished order, unless an emergency replaces a complete pair by another. */
  ghost predicate EndpointFree(s: Settings, v: Values, e: set<Provider>, db: Snapshot) {
    v.payAddress.Some? && v.payAddress.value != s.payAddress ==>
      || Idle(Epay, db)
      || (var id, key := v.epay.id.GetOr(s.epay.current.id), v.epay.key.GetOr(s.epay.current.key);
          && Epay in e && s.epay.generation >= 1 && (id != s.epay.current.id || key != s.epay.current.key)
          && !Blank(s.epay.current.id) && !Blank(s.epay.current.key) && !Blank(id) && !Blank(key))
  }

  /** Changed checkout hosts parse, and one that is removed needs no unfinished Stripe order. */
  ghost predicate HostsFree(s: Settings, v: Values, db: Snapshot, parse: HostParser) {
    v.stripe.checkoutHosts.Some? && v.stripe.checkoutHosts.value != s.stripe.checkoutHosts ==>
      var before, after := parse(s.stripe.checkoutHosts), parse(v.stripe.checkoutHosts.value);
      before.Some? && after.Some? && ((exists h :: h in before.value && h !in after.value) ==> Idle(Stripe, db))
  }

  /** The account, a recorded account or mode of the API credential, an API secret of which one of these is
      not recorded, and a secret that is cleared outside an emergency, need a database without
      account-bound data. */
  ghost predicate HistoryFree(s: Settings, v: Values, e: set<Provider>, db: Snapshot) {
    var a := s.stripe;
    db.stripeHistory ==>
      && (v.stripe.accountId.None? || v.stripe.accountId.value == a.accountId)
      && (v.stripe.credentialAccountId.None? || Blank(a.credentialAccountId)
          || v.stripe.credentialAccountId.value == a.credentialAccountId)
      && (v.stripe.credentialLivemode.None? || Blank(a.credentialLivemode)
          || v.stripe.credentialLivemode.value == a.credentialLivemode)
      && (|| v.stripe.apiSecret.None? || v.stripe.apiSecret.value == a.apiSecret
          || (Stripe in e && Blank(v.stripe.apiSecret.value) && !Blank(a.apiSecret))
          || (&& !Blank(a.credentialAccountId) && !Blank(a.credentialLivemode)
              && (!Blank(v.stripe.apiSecret.value) || Blank(a.apiSecret))))
      && (v.webhook.secret == Some("") ==> s.webhook.secret == "" || Stripe in e)
  }

  /** A webhook secret replaced outside an emergency needs no unfinished Stripe order, unless the new one is
      not empty and the replaced one stays valid beyond now. */
  ghost predicate WebhookFree(s: Settings, v: Values, e: set<Provider>, db: Snapshot, now: int) {
    v.webhook.secret.Some? && v.webhook.secret.value != s.webhook.secret && s.webhook.secret != "" && Stripe !in e ==>
      || Idle(Stripe, db)
      || (&& v.webhook.secret.value != "" && v.webhook.previousSecret == Some(s.webhook.secret)
          && v.webhook.previousExpiresAt.Some? && v.webhook.previousExpiresAt.value > now)
  }

  /** A changed mode comes with a changed non-empty webhook secret of that mode. */
  ghost predicate ModeFree(s: Settings, v: Values) {
    v.stripe.credentialLivemode.Some? && v.stripe.credentialLivemode.value != s.stripe.credentialLivemode ==>
      && v.webhook.secret.Some? && v.webhook.secret.value != s.webhook.secret && v.webhook.secret.value != ""
      && v.webhook.livemode == v.stripe.credentialLivemode
  }

  // ---------------------------------------------------------------- the guards, part by part

  lemma GuardIn(p: Provider, e: set<Provider>, value: Option<string>, current: string, recovery: bool, g: Guard)
    ensures g in GuardIfChanged(p, e, value, current, recovery) <==>
            p !in e && value.Some? && value.value != current && g == Guard(p, recovery)
  {
  }

  lemma CreemGuard(c: CreemState, v: CreemValues, e: set<Provider>, recovery: bool)
    ensures Guard(Creem, recovery) in CreemGuards(c, v, e) <==>
            && Creem !in e
            && (if recovery then
                  || (v.webhookSecret.Some? && v.webhookSecret.value != c.webhookSecret)
                  || (v.testMode.Some? && v.testMode.value != (if c.testMode then "true" else "false"))
                else v.apiKey.Some? && v.apiKey.value != c.apiKey)
  {
    var g := Guard(Creem, recovery);
    GuardIn(Creem, e, v.apiKey, c.apiKey, false, g);
    GuardIn(Creem, e, v.webhookSecret, c.webhookSecret, true, g);
    GuardIn(Creem, e, v.testMode, FormatBool(c.testMode), true, g);
  }

  lemma WaffoKeyGuard(w: WaffoState, v: WaffoValues, e: set<Provider>, recovery: bool)
    ensures Guard(Waffo, recovery) in WaffoKeyGuards(w, v, e) <==> recovery && Waffo !in e && WaffoKeysMove(w, v)
  {
  }

  lemma WaffoGuard(w: WaffoState, v: WaffoValues, e: set<Provider>, recovery: bool)
    ensures Guard(Waffo, recovery) in WaffoGuards(w, v, e) <==>
            && Waffo !in e
            && (if recovery then
                  || (v.sandbox.Some? && v.sandbox.value != (if w.sandbox then "true" else "false"))
                  || (v.notifyUrl.Some? && v.notifyUrl.value != w.notifyUrl) || WaffoKeysMove(w, v)
                else
                  || (v.merchantId.Some? && v.merchantId.value != w.merchantId)
                  || (v.returnUrl.Some? && v.returnUrl.value != w.returnUrl))
  {
    WaffoKeyGuard(w, v, e, recovery);
  }

  lemma PancakeGuard(p: PancakeState, v: PancakeValues, e: set<Provider>, recovery: bool)
    ensures Guard(WaffoPancake, recovery) in PancakeGuards(p, v, e) <==>
            && WaffoPancake !in e
            && (if recovery then
                  || (v.testMode.Some? && v.testMode.value != (if p.testMode then "true" else "false"))
                  || (v.storeId.Some? && v.storeId.value != p.storeId)
                else
                  || (v.merchantId.Some? && v.merchantId.value != p.merchantId)
                  || (v.privateKey.Some? && v.privateKey.value != p.privateKey)
                  || (v.returnUrl.Some? && v.returnUrl.value != p.returnUrl))
  {
  }

  /** The guards of one provider, none of which fires. */
  lemma NoneFires(p: Provider, guards: seq<Guard>, db: Snapshot)
    requires forall g :: g in guards ==> g.provider == p
    ensures (exists g :: g in guards && GuardFires(g, db)) <==>
            || (Guard(p, true) in guards && p in db.callbackDependent)
            || (Guard(p, false) in guards && !Idle(p, db))
  {
    if g :| g in guards && GuardFires(g, db) {
      assert g == Guard(p, g.recovery);
    }
    if Guard(p, true) in guards && p in db.callbackDependent {
      assert GuardFires(Guard(p, true), db);
    }
    if Guard(p, false) in guards && !Idle(p, db) {
      assert GuardFires(Guard(p, false), db);
    }
  }

  lemma CreemFreeIff(c: CreemState, v: CreemValues, e: set<Provider>, db: Snapshot)
    ensures (exists g :: g in CreemGuards(c, v, e) && GuardFires(g, db)) <==> !(Creem in e || CreemFree(c, v, db))
  {
    NoneFires(Creem, CreemGuards(c, v, e), db);
    CreemGuard(c, v, e, true);
    CreemGuard(c, v, e, false);
  }

  lemma WaffoFreeIff(w: WaffoState, v: WaffoValues, e: set<Provider>, db: Snapshot)
    ensures (exists g :: g in WaffoGuards(w, v, e) && GuardFires(g, db)) <==> !(Waffo in e || WaffoFree(w, v, db))
  {
    NoneFires(Waffo, WaffoGuards(w, v, e), db);
    WaffoGuard(w, v, e, true);
    WaffoGuard(w, v, e, false);
  }

  lemma PancakeFreeIff(p: PancakeState, v: PancakeValues, e: set<Provider>, db: Snapshot)
    ensures (exists g :: g in PancakeGuards(p, v, e) && GuardFires(g, db)) <==>
            !(WaffoPancake in e || PancakeFree(p, v, db))
  {
    NoneFires(WaffoPancake, PancakeGuards(p, v, e), db);
    PancakeGuard(p, v, e, true);
    PancakeGuard(p, v, e, false);
  }

  /** The retained options and the callback origin stand in the way exactly as the fields say. */
  lemma RetainedFreeIff(s: Settings, v: Values, e: set<Provider>, db: Snapshot)
    ensures OriginOrRetainedBlocks(s, v, e, db) <==> !(OriginFree(s, v, db) && RetainedFree(s, v, e, db))
  {
    CreemFreeIff(s.creem, v.creem, e, db);
    WaffoFreeIff(s.waffo, v.waffo, e, db);
    PancakeFreeIff(s.pancake, v.pancake, e, db);
    assert forall g :: g in RetainedGuards(s, v, e) <==>
                       || g in CreemGuards(s.creem, v.creem, e) || g in WaffoGuards(s.waffo, v.waffo, e)
                       || g in PancakeGuards(s.pancake, v.pancake, e);
  }

  lemma HostsFreeIff(s: Settings, v: Values, db: Snapshot, parse: HostParser)
    ensures HostsFree(s, v, db, parse) <==>
            HostsParse(s, v, parse) && !(RemovesHost(s, v, parse) && !Idle(Stripe, db))
  {
  }

  lemma HistoryFreeIff(s: Settings, v: Values, e: set<Provider>, db: Snapshot)
    ensures HistoryFree(s, v, e, db) <==> !(NeedsNoHistory(s, v, e) && db.stripeHistory)
  {
  }

  lemma EndpointFreeIff(s: Settings, v: Values, e: set<Provider>, db: Snapshot)
    ensures EndpointFree(s, v, e, db) <==> !(MovesPayAddress(s, v, e) && !Idle(Epay, db))
  {
  }

  lemma WebhookFreeIff(s: Settings, v: Values, e: set<Provider>, db: Snapshot, now: int)
    requires now >= 0
    ensures WebhookFree(s, v, e, db, now) <==> !(OverlapMissing(s, v, e, now) && !Idle(Stripe, db))
  {
  }

  /** Both guards together let a change through exactly when none of its changed options needs orders or
      history to be absent that are there, changed hosts parse, and a changed mode brings its webhook secret. */
  lemma AllowedIff(s: Settings, v: Values, e: set<Provider>, db: Snapshot, now: int, parse: HostParser)
    requires now >= 0
    ensures GuardsAllow(s, v, e, db, now, parse) <==>
            && OriginFree(s, v, db) && RetainedFree(s, v, e, db) && HostsFree(s, v, db, parse)
            && HistoryFree(s, v, e, db) && WebhookFree(s, v, e, db, now) && EndpointFree(s, v, e, db)
            && ModeFree(s, v)
  {
    RetainedFreeIff(s, v, e, db);
    HostsFreeIff(s, v, db, parse);
    HistoryFreeIff(s, v, e, db);
    WebhookFreeIff(s, v, e, db, now);
    EndpointFreeIff(s, v, e, db);
  }
}

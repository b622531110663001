/** The two guards of a settings change: the check before the transaction and the preconditions the
    transaction re-evaluates, compared on the same database snapshot. */
module ConfigurationGuards {
  import opened Wrappers
  import opened Text
  import opened PaymentSettings
  import opened CredentialRotation

  /** What the guards can learn from the database. `callbackDependent` holds the providers with orders that
      still need the callback origin; active orders are counted as canonical orders and as legacy rows
      without one; `stripeHistory` says that account-bound Stripe data exists. */
  datatype Snapshot = Snapshot(callbackDependent: set<Provider>, canonical: set<Provider>, legacy: set<Provider>,
                               stripeHistory: bool)

  type HostParser = string -> Option<set<string>>

  predicate Changed(value: Option<string>, current: string) {
    value.Some? && value.value != current
  }

  // ---------------------------------------------------------------- retained configuration

  datatype Guard = Guard(provider: Provider, recovery: bool)

  function GuardIfChanged(p: Provider, e: set<Provider>, value: Option<string>, current: string,
                          recovery: bool): seq<Guard> {
    if p !in e && Changed(value, current) then [Guard(p, recovery)] else []
  }

  /** `retainedPaymentConfigurationGuards`. */
  function RetainedGuards(s: Settings, v: Values, e: set<Provider>): seq<Guard> {
    CreemGuards(s.creem, v.creem, e) + WaffoGuards(s.waffo, v.waffo, e) + PancakeGuards(s.pancake, v.pancake, e)
  }

  function CreemGuards(c: CreemState, v: CreemValues, e: set<Provider>): (r: seq<Guard>)
    ensures forall g :: g in r ==> g.provider == Creem
  {
    GuardIfChanged(Creem, e, v.apiKey, c.apiKey, false)
    + GuardIfChanged(Creem, e, v.webhookSecret, c.webhookSecret, true)
    + GuardIfChanged(Creem, e, v.testMode, FormatBool(c.testMode), true)
  }

  function WaffoGuards(w: WaffoState, v: WaffoValues, e: set<Provider>): (r: seq<Guard>)
    ensures forall g :: g in r ==> g.provider == Waffo
  {
    GuardIfChanged(Waffo, e, v.merchantId, w.merchantId, false)
    + GuardIfChanged(Waffo, e, v.sandbox, FormatBool(w.sandbox), true)
    + GuardIfChanged(Waffo, e, v.notifyUrl, w.notifyUrl, true)
    + GuardIfChanged(Waffo, e, v.returnUrl, w.returnUrl, false)
    + WaffoKeyGuards(w, v, e)
  }

  /** Of the two sets of keys only the one in use is guarded. */
  function WaffoKeyGuards(w: WaffoState, v: WaffoValues, e: set<Provider>): (r: seq<Guard>)
    ensures forall g :: g in r ==> g.provider == Waffo
  {
    if w.sandbox then
      GuardIfChanged(Waffo, e, v.sandboxApiKey, w.sandboxApiKey, true)
      + GuardIfChanged(Waffo, e, v.sandboxPrivateKey, w.sandboxPrivateKey, true)
      + GuardIfChanged(Waffo, e, v.sandboxPublicCert, w.sandboxPublicCert, true)
    else
      GuardIfChanged(Waffo, e, v.apiKey, w.apiKey, true)
      + GuardIfChanged(Waffo, e, v.privateKey, w.privateKey, true)
      + GuardIfChanged(Waffo, e, v.publicCert, w.publicCert, true)
  }

  function PancakeGuards(p: PancakeState, v: PancakeValues, e: set<Provider>): (r: seq<Guard>)
    ensures forall g :: g in r ==> g.provider == WaffoPancake
  {
    GuardIfChanged(WaffoPancake, e, v.merchantId, p.merchantId, false)
    + GuardIfChanged(WaffoPancake, e, v.privateKey, p.privateKey, false)
    + GuardIfChanged(WaffoPancake, e, v.returnUrl, p.returnUrl, false)
    + GuardIfChanged(WaffoPancake, e, v.testMode, FormatBool(p.testMode), true)
    + GuardIfChanged(WaffoPancake, e, v.storeId, p.storeId, true)
  }

  // ---------------------------------------------------------------- conditions shared by both guards

  /** `epayEmergencyMigrationReplacesCurrent`. */
  predicate EpayMigration(s: Settings, v: Values, e: set<Provider>) {
    var next := Pair(v.epay.id.GetOr(s.epay.current.id), v.epay.key.GetOr(s.epay.current.key));
    && Epay in e && !Blank(s.epay.current.id) && !Blank(s.epay.current.key) && s.epay.generation > 0
    && !Blank(next.id) && !Blank(next.key) && next != s.epay.current
  }

  /** An emergency that clears a configured API secret may leave history behind. */
  predicate EmergencyApiClear(s: Settings, v: Values, e: set<Provider>) {
    Stripe in e && v.stripe.apiSecret.Some? && Blank(v.stripe.apiSecret.value) && !Blank(s.stripe.apiSecret)
  }

  predicate ApiSecretCleared(s: Settings, v: Values, e: set<Provider>) {
    && v.stripe.apiSecret.Some? && Blank(v.stripe.apiSecret.value) && !Blank(s.stripe.apiSecret)
    && !EmergencyApiClear(s, v, e)
  }

  predicate UnboundApiSecretChanged(s: Settings, v: Values, e: set<Provider>) {
    && Changed(v.stripe.apiSecret, s.stripe.apiSecret) && !EmergencyApiClear(s, v, e)
    && (Blank(s.stripe.credentialAccountId) || Blank(s.stripe.credentialLivemode))
  }

  predicate WebhookReplaced(s: Settings, v: Values, e: set<Provider>) {
    Changed(v.webhook.secret, s.webhook.secret) && s.webhook.secret != "" && Stripe !in e
  }

  /** `stripeCheckoutAllowedHostsRemoveCurrent`; `None` is a parse error. */
  function HostsRemoved(current: string, next: string, parse: HostParser): Option<bool> {
    if parse(current).None? || parse(next).None? then None
    else Some(!(parse(current).value <= parse(next).value))
  }

  predicate HostsParse(s: Settings, v: Values, parse: HostParser) {
    Changed(v.stripe.checkoutHosts, s.stripe.checkoutHosts) ==>
      HostsRemoved(s.stripe.checkoutHosts, v.stripe.checkoutHosts.value, parse).Some?
  }

  predicate RemovesHost(s: Settings, v: Values, parse: HostParser) {
    && Changed(v.stripe.checkoutHosts, s.stripe.checkoutHosts)
    && HostsRemoved(s.stripe.checkoutHosts, v.stripe.checkoutHosts.value, parse) == Some(true)
  }

  /** The two identifiers that are trimmed whenever they are stored. */
  predicate IdentityTrimmed(s: Settings) {
    Trimmed(s.stripe.credentialAccountId) && Trimmed(s.stripe.credentialLivemode)
  }

  /** Stripe history is in the way of the change. */
  predicate NeedsNoHistory(s: Settings, v: Values, e: set<Provider>) {
    || Changed(v.stripe.accountId, s.stripe.accountId)
    || (!Blank(s.stripe.credentialAccountId) && Changed(v.stripe.credentialAccountId, s.stripe.credentialAccountId))
    || (!Blank(s.stripe.credentialLivemode) && Changed(v.stripe.credentialLivemode, s.stripe.credentialLivemode))
    || UnboundApiSecretChanged(s, v, e) || ApiSecretCleared(s, v, e)
    || (WebhookReplaced(s, v, e) && v.webhook.secret == Some(""))
  }

  predicate MovesPayAddress(s: Settings, v: Values, e: set<Provider>) {
    Changed(v.payAddress, s.payAddress) && !EpayMigration(s, v, e)
  }

  /** The replaced webhook secret is not kept for an overlap that is still running. */
  predicate OverlapMissing(s: Settings, v: Values, e: set<Provider>, now: int) {
    && WebhookReplaced(s, v, e)
    && (|| v.webhook.secret == Some("") || v.webhook.previousSecret != Some(s.webhook.secret)
        || v.webhook.previousExpiresAt.GetOr(0) <= now)
  }

  predicate GuardFires(g: Guard, db: Snapshot) {
    if g.recovery then g.provider in db.callbackDependent else g.provider in db.canonical + db.legacy
  }

  // ---------------------------------------------------------------- the check before the transaction

  datatype Verdict = Allowed | DatabaseBlocked | HostsInvalid | ModeNeedsWebhook

  ghost predicate OriginOrRetainedBlocks(s: Settings, v: Values, e: set<Provider>, db: Snapshot) {
    || (Changed(v.callbackAddress, s.callbackAddress) && db.callbackDependent != {})
    || (exists g :: g in RetainedGuards(s, v, e) && GuardFires(g, db))
  }

  /** The database facts on which the check before the transaction refuses. */
  ghost predicate PreCheckBlocks(s: Settings, v: Values, e: set<Provider>, db: Snapshot, now: int, parse: HostParser) {
    || OriginOrRetainedBlocks(s, v, e, db)
    || (RemovesHost(s, v, parse) && Stripe in db.canonical)
    || (NeedsNoHistory(s, v, e) && db.stripeHistory)
    || (OverlapMissing(s, v, e, now) && Stripe in db.canonical)
    || (MovesPayAddress(s, v, e) && Epay in db.canonical)
  }

  /** A change of the test/live mode comes with a new webhook secret of that mode. */
  predicate ModeIsBound(s: Settings, v: Values) {
    Changed(v.stripe.credentialLivemode, s.stripe.credentialLivemode) ==>
      && Changed(v.webhook.secret, s.webhook.secret) && v.webhook.secret != Some("")
      && v.webhook.livemode == v.stripe.credentialLivemode
  }

  const ALL_PROVIDERS: seq<Provider> := [Epay, Stripe, XorPay, Creem, Waffo, WaffoPancake]

  lemma AllProvidersListed(p: Provider)
    ensures p in ALL_PROVIDERS
  {
    match p
    case Epay => assert ALL_PROVIDERS[0] == p;
    case Stripe => assert ALL_PROVIDERS[1] == p;
    case XorPay => assert ALL_PROVIDERS[2] == p;
    case Creem => assert ALL_PROVIDERS[3] == p;
    case Waffo => assert ALL_PROVIDERS[4] == p;
    case WaffoPancake => assert ALL_PROVIDERS[5] == p;
  }

  method CallbackOriginPinned(db: Snapshot) returns (pinned: bool)
    ensures pinned <==> db.callbackDependent != {}
  {
    for i := 0 to |ALL_PROVIDERS|
      invariant forall j :: 0 <= j < i ==> ALL_PROVIDERS[j] !in db.callbackDependent
    {
      if ALL_PROVIDERS[i] in db.callbackDependent {
        return true;
      }
    }
    forall p | p in db.callbackDependent
      ensures false
    {
      AllProvidersListed(p);
    }
    return false;
  }

  method AnyGuardFires(guards: seq<Guard>, db: Snapshot) returns (fires: bool)
    ensures fires <==> exists g :: g in guards && GuardFires(g, db)
  {
    for i := 0 to |guards|
      invariant forall j :: 0 <= j < i ==> !GuardFires(guards[j], db)
    {
      if GuardFires(guards[i], db) {
        return true;
      }
    }
    return false;
  }

  /** `validateInFlightPaymentConfigurationChanges`. */
  method PreCheck(s: Settings, v: Values, e: set<Provider>, db: Snapshot, now: int, parse: HostParser)
    returns (verdict: Verdict)
    ensures HostsParse(s, v, parse) ==> (verdict == DatabaseBlocked <==> PreCheckBlocks(s, v, e, db, now, parse))
    ensures !HostsParse(s, v, parse) ==>
              verdict == if OriginOrRetainedBlocks(s, v, e, db) then DatabaseBlocked else HostsInvalid
    ensures verdict == Allowed <==>
            HostsParse(s, v, parse) && !PreCheckBlocks(s, v, e, db, now, parse) && ModeIsBound(s, v)
  {
    if Changed(v.callbackAddress, s.callbackAddress) {
      var pinned := CallbackOriginPinned(db);
      if pinned {
        return DatabaseBlocked;
      }
    }
    var retained := AnyGuardFires(RetainedGuards(s, v, e), db);
    if retained {
      return DatabaseBlocked;
    }
    if Changed(v.stripe.checkoutHosts, s.stripe.checkoutHosts) {
      var removed := HostsRemoved(s.stripe.checkoutHosts, v.stripe.checkoutHosts.value, parse);
      if removed.None? {
        return HostsInvalid;
      }
      if removed.value && Stripe in db.canonical {
        return DatabaseBlocked;
      }
    }
    var blocked := StripePreCheck(s, v, e, db, now);
    if blocked {
      return DatabaseBlocked;
    }
    if MovesPayAddress(s, v, e) && Epay in db.canonical {
      return DatabaseBlocked;
    }
    if Changed(v.stripe.credentialLivemode, s.stripe.credentialLivemode) {
      if v.webhook.secret.None? || v.webhook.secret == Some("") || v.webhook.secret == Some(s.webhook.secret)
         || v.webhook.livemode != v.stripe.credentialLivemode {
        return ModeNeedsWebhook;
      }
    }
    return Allowed;
  }

  /** The Stripe secrets and identifiers of the pre-check. */
  method StripePreCheck(s: Settings, v: Values, e: set<Provider>, db: Snapshot, now: int) returns (blocked: bool)
    ensures blocked <==>
              || (NeedsNoHistory(s, v, e) && db.stripeHistory)
              || (OverlapMissing(s, v, e, now) && Stripe in db.canonical)
  {
    if ApiSecretCleared(s, v, e) && db.stripeHistory {
      return true;
    }
    if v.webhook.secret == Some("") && s.webhook.secret != "" && Stripe !in e && db.stripeHistory {
      return true;
    }
    if UnboundApiSecretChanged(s, v, e) && db.stripeHistory {
      return true;
    }
    if WebhookReplaced(s, v, e) && Stripe in db.canonical {
      var previous := v.webhook.previousSecret.GetOr("");
      var expiresAt := v.webhook.previousExpiresAt.GetOr(0);
      if v.webhook.secret == Some("") || previous != s.webhook.secret || expiresAt <= now {
        return true;
      }
    }
    var changes := [(v.stripe.accountId, s.stripe.accountId)];
    if !Blank(s.stripe.credentialAccountId) {
      changes := changes + [(v.stripe.credentialAccountId, s.stripe.credentialAccountId)];
    }
    if !Blank(s.stripe.credentialLivemode) {
      changes := changes + [(v.stripe.credentialLivemode, s.stripe.credentialLivemode)];
    }
    assert changes[0] in changes;
    assert !Blank(s.stripe.credentialAccountId) ==> changes[1] in changes;
    assert !Blank(s.stripe.credentialLivemode) ==> changes[|changes| - 1] in changes;
    var changed := AnyChanged(changes);
    return changed && db.stripeHistory;
  }

  method AnyChanged(changes: seq<(Option<string>, string)>) returns (changed: bool)
    ensures changed <==> exists c :: c in changes && Changed(c.0, c.1)
  {
    for i := 0 to |changes|
      invariant forall j :: 0 <= j < i ==> !Changed(changes[j].0, changes[j].1)
    {
      if Changed(changes[i].0, changes[i].1) {
        return true;
      }
    }
    return false;
  }

  // ---------------------------------------------------------------- the preconditions of the transaction

  datatype Preconditions = Preconditions(
    noCallbackDependentOrders: bool, noActiveEpayOrders: bool, noActiveStripeOrdersForHostRemoval: bool,
    noStripeHistory: bool, webhookOverlap: bool, noActiveOrders: seq<Provider>,
    noCallbackDependentOrdersOf: seq<Provider>)

  /** What the preconditions built for a change ask for. */
  ghost predicate Demands(p: Preconditions, s: Settings, v: Values, e: set<Provider>, parse: HostParser) {
    && (p.noCallbackDependentOrders <==> Changed(v.callbackAddress, s.callbackAddress))
    && (p.noActiveEpayOrders <==> MovesPayAddress(s, v, e))
    && (p.noActiveStripeOrdersForHostRemoval <==>
          Changed(v.stripe.checkoutHosts, s.stripe.checkoutHosts)
          && HostsRemoved(s.stripe.checkoutHosts, v.stripe.checkoutHosts.value, parse) != Some(false))
    && (p.noStripeHistory <==> NeedsNoHistory(s, v, e))
    && (p.webhookOverlap <==> WebhookReplaced(s, v, e))
    && (forall q :: q in p.noActiveOrders <==> Guard(q, false) in RetainedGuards(s, v, e))
    && (forall q :: q in p.noCallbackDependentOrdersOf <==>
          Guard(q, true) in RetainedGuards(s, v, e)
          || (Changed(v.callbackAddress, s.callbackAddress) && (q == Creem || q == Waffo || q == WaffoPancake)))
  }

  /** `paymentConfigurationPreconditions`. */
  method BuildPreconditions(s: Settings, v: Values, e: set<Provider>, parse: HostParser) returns (p: Preconditions)
    requires IdentityTrimmed(s)
    ensures Demands(p, s, v, e, parse)
  {
    p := Preconditions(false, false, false, false, false, [], []);
    if Changed(v.callbackAddress, s.callbackAddress) {
      p := p.(noCallbackDependentOrders := true, noCallbackDependentOrdersOf := [Creem, Waffo, WaffoPancake]);
    }
    if Changed(v.payAddress, s.payAddress) && !EpayMigration(s, v, e) {
      p := p.(noActiveEpayOrders := true);
    }
    if Changed(v.stripe.checkoutHosts, s.stripe.checkoutHosts) {
      var removed := HostsRemoved(s.stripe.checkoutHosts, v.stripe.checkoutHosts.value, parse);
      p := p.(noActiveStripeOrdersForHostRemoval := removed.None? || removed.value);
    }
    var history, overlap := StripePreconditions(s, v, e);
    p := p.(noStripeHistory := history, webhookOverlap := overlap);
    var active, recovery := GuardedProviders(RetainedGuards(s, v, e));
    p := p.(noActiveOrders := active, noCallbackDependentOrdersOf := p.noCallbackDependentOrdersOf + recovery);
  }

  method StripePreconditions(s: Settings, v: Values, e: set<Provider>) returns (history: bool, overlap: bool)
    requires IdentityTrimmed(s)
    ensures history <==> NeedsNoHistory(s, v, e)
    ensures overlap <==> WebhookReplaced(s, v, e)
  {
    BlankIsTrimmedAway(s.stripe.credentialAccountId);
    BlankIsTrimmedAway(s.stripe.credentialLivemode);
    history, overlap := false, false;
    if Changed(v.stripe.accountId, s.stripe.accountId) {
      history := true;
    }
    var account := TrimSpace(s.stripe.credentialAccountId);
    if account != "" && Changed(v.stripe.credentialAccountId, account) {
      history := true;
    }
    var mode := TrimSpace(s.stripe.credentialLivemode);
    if mode != "" && Changed(v.stripe.credentialLivemode, mode) {
      history := true;
    }
    if UnboundApiSecretChanged(s, v, e) {
      history := true;
    }
    if ApiSecretCleared(s, v, e) {
      history := true;
    }
    if WebhookReplaced(s, v, e) {
      overlap := true;
      if v.webhook.secret == Some("") {
        history := true;
      }
    }
  }

  method GuardedProviders(guards: seq<Guard>) returns (active: seq<Provider>, recovery: seq<Provider>)
    ensures forall q :: q in active <==> Guard(q, false) in guards
    ensures forall q :: q in recovery <==> Guard(q, true) in guards
  {
    active, recovery := [], [];
    for i := 0 to |guards|
      invariant forall q :: q in active <==> Guard(q, false) in guards[..i]
      invariant forall q :: q in recovery <==> Guard(q, true) in guards[..i]
    {
      assert guards[..i + 1] == guards[..i] + [guards[i]];
      if guards[i].recovery {
        recovery := recovery + [guards[i].provider];
      } else {
        active := active + [guards[i].provider];
      }
    }
    assert guards[..|guards|] == guards;
  }

  ghost predicate ProviderListsBlock(p: Preconditions, db: Snapshot) {
    || (exists q :: q in p.noCallbackDependentOrdersOf && q in db.callbackDependent)
    || (p.noCallbackDependentOrders
        && (Epay in db.callbackDependent || Stripe in db.callbackDependent || XorPay in db.callbackDependent))
    || (exists q :: q in p.noActiveOrders && q in db.canonical + db.legacy)
  }

  /** The database facts on which the transaction refuses, read off `updatePaymentOptionsWithVersionLockHeld`. */
  ghost predicate TransactionBlocks(p: Preconditions, v: WebhookValues, db: Snapshot, now: int) {
    || ProviderListsBlock(p, db)
    || (p.noActiveEpayOrders && Epay in db.canonical + db.legacy)
    || (p.noActiveStripeOrdersForHostRemoval && Stripe in db.canonical + db.legacy)
    || (p.noStripeHistory && db.stripeHistory)
    || (&& p.webhookOverlap && Stripe in db.canonical + db.legacy
        && (v.previousExpiresAt.None? || v.secret.GetOr("") == "" || v.previousSecret.GetOr("") == ""
            || v.previousExpiresAt.value <= now))
  }

  /** The precondition part of the transaction, with its de-duplicated provider loops. */
  method TransactionCheck(p: Preconditions, v: WebhookValues, db: Snapshot, now: int) returns (blocked: bool)
    ensures blocked <==> TransactionBlocks(p, v, db, now)
  {
    var callbackProviders := p.noCallbackDependentOrdersOf;
    if p.noCallbackDependentOrders {
      callbackProviders := callbackProviders + [Epay, Stripe, XorPay];
    }
    var pinned := AnyProviderIn(callbackProviders, db.callbackDependent);
    var activeProviders := p.noActiveOrders;
    if p.noActiveEpayOrders {
      activeProviders := activeProviders + [Epay];
    }
    var active := AnyProviderIn(activeProviders, db.canonical + db.legacy);
    assert p.noCallbackDependentOrders ==>
             Epay in callbackProviders && Stripe in callbackProviders && XorPay in callbackProviders;
    assert forall q :: q in p.noCallbackDependentOrdersOf ==> q in callbackProviders;
    assert forall q :: q in p.noActiveOrders ==> q in activeProviders;
    if pinned || active {
      return true;
    }
    if p.noActiveStripeOrdersForHostRemoval && Stripe in db.canonical + db.legacy {
      return true;
    }
    if p.noStripeHistory && db.stripeHistory {
      return true;
    }
    if p.webhookOverlap && Stripe in db.canonical + db.legacy {
      if v.previousExpiresAt.None? || v.secret.GetOr("") == "" || v.previousSecret.GetOr("") == ""
         || v.previousExpiresAt.value <= now
      {
        return true;
      }
    }
    return false;
  }

  method AnyProviderIn(providers: seq<Provider>, busy: set<Provider>) returns (found: bool)
    ensures found <==> exists q :: q in providers && q in busy
  {
    var seen: set<Provider> := {};
    for i := 0 to |providers|
      invariant forall q :: q in seen <==> q in providers[..i]
      invariant forall q :: q in seen ==> q !in busy
    {
      if providers[i] !in seen {
        seen := seen + {providers[i]};
        if providers[i] in busy {
          return true;
        }
      }
      assert providers[..i + 1] == providers[..i] + [providers[i]];
    }
    assert providers[..|providers|] == providers;
    return false;
  }

  // ---------------------------------------------------------------- agreement

  lemma ProviderListsAgree(p: Preconditions, s: Settings, v: Values, e: set<Provider>, db: Snapshot, parse: HostParser)
    requires Demands(p, s, v, e, parse)
    ensures ProviderListsBlock(p, db) <==> OriginOrRetainedBlocks(s, v, e, db)
  {
    var guards := RetainedGuards(s, v, e);
    if g :| g in guards && GuardFires(g, db) {
      assert g == Guard(g.provider, g.recovery);
      assert if g.recovery then g.provider in p.noCallbackDependentOrdersOf else g.provider in p.noActiveOrders;
    }
    if q :| q in p.noCallbackDependentOrdersOf && q in db.callbackDependent {
      assert GuardFires(Guard(q, true), db);
    }
    if q :| q in p.noActiveOrders && q in db.canonical + db.legacy {
      assert GuardFires(Guard(q, false), db);
    }
    if Changed(v.callbackAddress, s.callbackAddress) && db.callbackDependent != {} {
      var q :| q in db.callbackDependent;
      assert q == Creem || q == Waffo || q == WaffoPancake ==> q in p.noCallbackDependentOrdersOf;
    }
  }

  /** Legacy rows stand against the change. */
  predicate LegacyBlocks(s: Settings, v: Values, e: set<Provider>, db: Snapshot, now: int, parse: HostParser) {
    || (Epay in db.legacy && MovesPayAddress(s, v, e))
    || (Stripe in db.legacy && (RemovesHost(s, v, parse) || OverlapMissing(s, v, e, now)))
  }

  /** On any snapshot the transaction refuses for a database reason exactly when the earlier check does, or
      when only legacy rows stand in the way of a moved Epay endpoint, a removed Stripe host or a webhook
      secret replaced without overlap: the earlier check does not count those rows. */
  lemma GuardsAgreeUpToLegacyRows(p: Preconditions, s: Settings, v: Values, e: set<Provider>, db: Snapshot, now: int,
                                  parse: HostParser)
    requires Demands(p, s, v, e, parse) && HostsParse(s, v, parse) && WebhookWritten(s.webhook, v.webhook)
    ensures TransactionBlocks(p, v.webhook, db, now) <==>
            PreCheckBlocks(s, v, e, db, now, parse) || LegacyBlocks(s, v, e, db, now, parse)
  {
    ProviderListsAgree(p, s, v, e, db, parse);
  }

  /** No order, history or mode stands against the change. */
  ghost predicate GuardsAllow(s: Settings, v: Values, e: set<Provider>, db: Snapshot, now: int, parse: HostParser) {
    && HostsParse(s, v, parse) && ModeIsBound(s, v)
    && !PreCheckBlocks(s, v, e, db, now, parse) && !LegacyBlocks(s, v, e, db, now, parse)
  }

  /** Both guards in sequence, as an update passes them. */
  method PassesGuards(s: Settings, v: Values, e: set<Provider>, db: Snapshot, now: int, parse: HostParser)
    returns (passes: bool)
    requires IdentityTrimmed(s) && WebhookWritten(s.webhook, v.webhook)
    ensures passes <==> GuardsAllow(s, v, e, db, now, parse)
  {
    var verdict := PreCheck(s, v, e, db, now, parse);
    if verdict != Allowed {
      return false;
    }
    var preconditions := BuildPreconditions(s, v, e, parse);
    GuardsAgreeUpToLegacyRows(preconditions, s, v, e, db, now, parse);
    var blocked := TransactionCheck(preconditions, v.webhook, db, now);
    return !blocked;
  }

  lemma RetainedProviders(s: Settings, v: Values, e: set<Provider>, g: Guard)
    requires g in RetainedGuards(s, v, e)
    ensures g.provider == Creem || g.provider == Waffo || g.provider == WaffoPancake
  {
  }

  /** A concrete disagreement: one unfinished legacy Epay row, and a request that moves the Epay endpoint. */
  lemma LegacyRowsSplitTheGuards(p: Preconditions, s: Settings, v: Values, e: set<Provider>, now: int,
                                 parse: HostParser)
    requires Demands(p, s, v, e, parse) && MovesPayAddress(s, v, e)
    ensures var db := Snapshot({}, {}, {Epay}, false);
            TransactionBlocks(p, v.webhook, db, now) && !PreCheckBlocks(s, v, e, db, now, parse)
  {
    LegacyRowIsUnseen(s, v, e);
  }

  lemma LegacyRowIsUnseen(s: Settings, v: Values, e: set<Provider>)
    ensures !OriginOrRetainedBlocks(s, v, e, Snapshot({}, {}, {Epay}, false))
  {
    var db := Snapshot({}, {}, {Epay}, false);
    forall g | g in RetainedGuards(s, v, e)
      ensures !GuardFires(g, db)
    {
      RetainedProviders(s, v, e, g);
    }
  }
}

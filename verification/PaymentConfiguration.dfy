/** The payment configuration as the update endpoint changes it, and the isolation of its modules. */
module PaymentConfiguration {
  import opened Wrappers
  import opened Text
  import opened PaymentSettings
  import opened CredentialRotation
  import opened PreparedRotation
  import opened PaymentUpdates
  import opened RotationRuns
  import opened WebhookRuns
  import opened CredentialRevocation
  import opened ConfigurationGuards

  datatype Outcome = Committed | NothingToDo | Refused

  /** No value is left to write and nothing is to be revoked: blank secrets are skipped. */
  predicate ProposesNothing(r: Request) {
    && r.revoke == [] && r.disable == [] && r.clears == []
    && forall k :: k in r.options ==> WriteOnly(k) && Blank(r.options[k])
  }

  /** The step the request makes if it commits, or why the credentials refuse it. */
  function Prepared(s: Settings, r: Request): Result<Rotation, RotationError> {
    Rotated(s, Proposals(r), r.Emergency(), r.now, r.storageReady)
  }

  /** The prepared values pass the guards, and the version is the expected one. */
  ghost predicate MayCommit(s: Settings, version: int, e: set<Provider>, expected: int, v: Values, db: Snapshot,
                            now: int, parse: HostParser) {
    GuardsAllow(s, v, e, db, now, parse) && expected == version < MAX_INT64
  }

  /** When a request commits. */
  ghost predicate Commits(s: Settings, version: int, r: Request, expected: int, v: Values, db: Snapshot,
                          parse: HostParser) {
    && WellFormed(r) && !ProposesNothing(r) && Prepared(s, r).Ok?
    && MayCommit(s, version, r.Emergency(), expected, v, db, r.now, parse)
  }

  /** Rotation, in-flight check, and the checks of the transaction, which also refuses values proposed
      against another version. */
  method CheckValues(s: Settings, version: int, proposed: Values, e: set<Provider>, now: int, storageReady: bool,
                     expected: int, db: Snapshot, parse: HostParser)
    returns (commits: bool, values: Values, revocations: seq<Revocation>)
    requires IdentityTrimmed(s) && ClientValues(proposed) && version <= MAX_INT64
    ensures commits <==> && Rotated(s, proposed, e, now, storageReady).Ok?
                         && MayCommit(s, version, e, expected, values, db, now, parse)
    ensures Rotated(s, proposed, e, now, storageReady).Ok? ==>
              && Rotated(s, proposed, e, now, storageReady).value == Rotation(Apply(s, values), revocations)
              && WebhookWritten(s.webhook, values.webhook) && values.stripe == proposed.stripe
  {
    var prepared, revoked := Prepare(s, proposed, e, now, storageReady);
    if prepared.Err? {
      return false, proposed, [];
    }
    values, revocations := prepared.value, revoked;
    var passes := PassesGuards(s, values, e, db, now, parse);
    commits := passes && version == expected && version != MAX_INT64;
  }

  ghost predicate ValidSettings(s: Settings) {
    Inv(s) && IdentityTrimmed(s)
  }

  /** The step of a request, from valid settings to valid settings. */
  ghost predicate StepsTo(s: Settings, r: Request, t: Settings, revocations: seq<Revocation>) {
    t == Step(s, r) && revocations == StepRevocations(s, r) && ValidSettings(t)
  }

  class Configuration {
    var settings: Settings
    var version: int

    ghost predicate Valid()
      reads this
    {
      ValidSettings(settings) && 0 < version <= MAX_INT64
    }

    /** `UpdatePaymentSettings` after decoding. A committed request makes its step and raises the version;
        one that proposes nothing succeeds without a transaction; any other changes nothing. */
    method Update(r: Request, expected: int, db: Snapshot, parse: HostParser)
      returns (outcome: Outcome, revocations: seq<Revocation>, ghost prepared: Values)
      requires Valid()
      modifies this
      ensures Valid()
      ensures settings == Step(old(settings), r.(committed := outcome.Committed?))
      ensures revocations == StepRevocations(old(settings), r.(committed := outcome.Committed?))
      ensures version == old(version) + if outcome.Committed? then 1 else 0
      ensures outcome.NothingToDo? <==> expected > 0 && WellFormed(r) && ProposesNothing(r)
      ensures outcome.Committed? <==> Commits(old(settings), old(version), r, expected, prepared, db, parse)
      ensures outcome.Committed? ==> && Apply(old(settings), prepared) == settings
                                     && WebhookWritten(old(settings).webhook, prepared.webhook)
                                     && prepared.stripe == Proposals(r).stripe
    {
      revocations, prepared := [], Proposals(r);
      if expected <= 0 || !WellFormed(r) {
        return Refused, [], prepared;
      }
      if ProposesNothing(r) {
        return NothingToDo, [], prepared;
      }
      var commits, values, revoked :=
        CheckValues(settings, version, Proposals(r), r.Emergency(), r.now, r.storageReady, expected, db, parse);
      prepared := values;
      if !commits {
        return Refused, [], prepared;
      }
      Commit(r, values, revoked);
      outcome, revocations := Committed, revoked;
    }

    /** The end of the transaction: the values are stored and the version rises. */
    method Commit(ghost r: Request, values: Values, ghost revocations: seq<Revocation>)
      requires Valid() && WellFormed(r) && version < MAX_INT64
      requires Prepared(settings, r) == Ok(Rotation(Apply(settings, values), revocations))
      modifies this
      ensures version == old(version) + 1
      ensures settings == Apply(old(settings), values)
      ensures StepsTo(old(settings), r.(committed := true), settings, revocations)
    {
      CommitIsStep(settings, r, values, revocations);
      settings, version := Apply(settings, values), version + 1;
    }
  }

  // ---------------------------------------------------------------- planned losses meet the guards

  /** A planned request changes the webhook so that a verifiable generation is gone exactly when it proposes
      another secret for a verifiable one and clears it or changes the test/live mode. */
  lemma PlannedRequestLosesIff(s: Settings, r: Request)
    requires WebhookInv(s.webhook) && Accepted(s, r) && Stripe !in r.Emergency()
    ensures var secret, mode := Proposals(r).webhook.secret, Proposals(r).stripe.credentialLivemode;
            !(VerifiableWebhook(s.webhook, r.now) <= VerifiableWebhook(Step(s, r).webhook, r.now)) <==>
            && VerifiableWebhook(s.webhook, r.now) != {} && Changed(secret, s.webhook.secret)
            && (secret == Some("") || Changed(mode, s.stripe.credentialLivemode))
  {
    var v := Proposals(r);
    RotatedWebhookOf(s, v, r.Emergency(), r.now, r.storageReady);
    PlannedWebhookLoss(s.webhook, s.stripe.credentialLivemode,
                       v.stripe.credentialLivemode.GetOr(s.stripe.credentialLivemode), v.webhook.secret, r.now);
  }

  /** A loss empties the previous slot of a secret that was there. */
  lemma LossEmptiesThePrevious(s: Settings, v: Values, e: set<Provider>, now: int, storageReady: bool)
    requires WebhookInv(s.webhook) && Stripe !in e && Rotated(s, v, e, now, storageReady).Ok?
    ensures var after := Rotated(s, v, e, now, storageReady).value.settings.webhook;
            !(VerifiableWebhook(s.webhook, now) <= VerifiableWebhook(after, now)) ==>
              s.webhook.secret != "" && after.secret != s.webhook.secret && after.previousSecret == ""
  {
    RotatedWebhookOf(s, v, e, now, storageReady);
    PlannedWebhookLoss(s.webhook, s.stripe.credentialLivemode,
                       v.stripe.credentialLivemode.GetOr(s.stripe.credentialLivemode), v.webhook.secret, now);
    assert s.webhook.secret == "" ==> Blank(s.webhook.secret);
  }

  /** Whatever verifiable webhook generation a committed planned update takes away, no Stripe order is
      unfinished, canonical or legacy; and when the secret is cleared, no account-bound data exists. */
  lemma PlannedLossLeavesNoOrders(s: Settings, r: Request, v: Values, db: Snapshot, parse: HostParser)
    requires WebhookInv(s.webhook) && Accepted(s, r) && Stripe !in r.Emergency()
    requires Apply(s, v) == Step(s, r) && WebhookWritten(s.webhook, v.webhook)
    requires GuardsAllow(s, v, r.Emergency(), db, r.now, parse)
    requires !(VerifiableWebhook(s.webhook, r.now) <= VerifiableWebhook(Step(s, r).webhook, r.now))
    ensures Stripe !in db.canonical && Stripe !in db.legacy
    ensures Step(s, r).webhook.secret == "" ==> !db.stripeHistory
  {
    LossEmptiesThePrevious(s, Proposals(r), r.Emergency(), r.now, r.storageReady);
    LossNeedsGuards(s, v, r.Emergency(), r.now);
  }

  /** Values that replace the secret and empty its previous slot are missing the overlap. */
  lemma LossNeedsGuards(s: Settings, v: Values, e: set<Provider>, now: int)
    requires WebhookWritten(s.webhook, v.webhook) && Stripe !in e && s.webhook.secret != ""
    requires var after := ApplyWebhook(s.webhook, v.webhook);
             after.secret != s.webhook.secret && after.previousSecret == ""
    ensures OverlapMissing(s, v, e, now)
    ensures ApplyWebhook(s.webhook, v.webhook).secret == "" ==> NeedsNoHistory(s, v, e)
  {
  }

  lemma CommitIsStep(s: Settings, r: Request, v: Values, revocations: seq<Revocation>)
    requires ValidSettings(s) && WellFormed(r)
    requires Prepared(s, r) == Ok(Rotation(Apply(s, v), revocations))
    ensures StepsTo(s, r.(committed := true), Apply(s, v), revocations)
  {
    SameRequest(r, r.(committed := true));
    StepKeepsValid(s, r.(committed := true));
  }

  /** Whether a request commits does not change what it asks for. */
  lemma SameRequest(r: Request, c: Request)
    requires c == r.(committed := c.committed)
    ensures WellFormed(r) <==> WellFormed(c)
    ensures Proposals(r) == Proposals(c) && r.Emergency() == c.Emergency()
  {
    assert forall k :: Proposal(r, k) == Proposal(c, k);
    assert Scopes(r) == Scopes(c);
  }

  lemma StepKeepsValid(s: Settings, r: Request)
    requires ValidSettings(s)
    ensures ValidSettings(Step(s, r))
  {
    PairStep(EpayGateway, s, r);
    PairStep(XorPayGateway, s, r);
    WebhookStep(s, r);
    if Accepted(s, r) {
      RotatedIdentityTrimmed(s, Proposals(r), r.Emergency(), r.now, r.storageReady);
    }
  }

  lemma RotatedIdentityTrimmed(s: Settings, v: Values, e: set<Provider>, now: int, storageReady: bool)
    requires IdentityTrimmed(s) && Rotated(s, v, e, now, storageReady).Ok?
    ensures IdentityTrimmed(Rotated(s, v, e, now, storageReady).value.settings)
  {
  }

  // ---------------------------------------------------------------- one module per request

  lemma UntouchedPair(g: Gateway, s: Settings, v: Values, e: set<Provider>, now: int, storageReady: bool)
    requires Rotated(s, v, e, now, storageReady).Ok?
    requires g.ValuesOf(v).id.None? && g.ValuesOf(v).key.None? && g.Provider() !in e
    ensures g.Of(Rotated(s, v, e, now, storageReady).value.settings) == g.Of(s)
  {
    RotatedPairOf(g, s, v, e, now, storageReady);
  }

  lemma UntouchedWebhook(s: Settings, v: Values, e: set<Provider>, now: int, storageReady: bool)
    requires Rotated(s, v, e, now, storageReady).Ok?
    requires v.webhook.secret.None? && Stripe !in e
    ensures Rotated(s, v, e, now, storageReady).value.settings.webhook == s.webhook
  {
    RotatedWebhookOf(s, v, e, now, storageReady);
  }

  lemma ProposalNamesScope(r: Request, k: OptionKey)
    requires Proposal(r, k).Some?
    ensures MutationScope(k) in Scopes(r)
  {
  }

  predicate TouchesPair(g: Gateway, r: Request) {
    || Proposal(r, if g.EpayGateway? then EpayId else XorPayAid).Some?
    || Proposal(r, if g.EpayGateway? then EpayKey else XorPayAppSecret).Some?
    || g.Provider() in r.Emergency()
  }

  predicate TouchesWebhook(r: Request) {
    Proposal(r, StripeWebhookSecret).Some? || Stripe in r.Emergency()
  }

  lemma PairNeedsTouch(g: Gateway, s: Settings, r: Request)
    requires !TouchesPair(g, r)
    ensures g.Of(Step(s, r)) == g.Of(s)
  {
    if Accepted(s, r) {
      UntouchedPair(g, s, Proposals(r), r.Emergency(), r.now, r.storageReady);
    }
  }

  lemma WebhookNeedsTouch(s: Settings, r: Request)
    requires !TouchesWebhook(r)
    ensures Step(s, r).webhook == s.webhook
  {
    if Accepted(s, r) {
      UntouchedWebhook(s, Proposals(r), r.Emergency(), r.now, r.storageReady);
    }
  }

  lemma TouchNamesScope(r: Request)
    ensures forall g :: TouchesPair(g, r) ==> ProviderScope(g.Provider()) in Scopes(r)
    ensures TouchesWebhook(r) ==> ProviderScope(Stripe) in Scopes(r)
  {
    forall k | Proposal(r, k).Some?
      ensures MutationScope(k) in Scopes(r)
    {
      ProposalNamesScope(r, k);
    }
    assert MutationScope(StripeWebhookSecret) == ProviderScope(Stripe);
    forall g | TouchesPair(g, r)
      ensures ProviderScope(g.Provider()) in Scopes(r)
    {
      assert MutationScope(if g.EpayGateway? then EpayId else XorPayAid) == ProviderScope(g.Provider());
      assert MutationScope(if g.EpayGateway? then EpayKey else XorPayAppSecret) == ProviderScope(g.Provider());
    }
  }

  lemma TouchesOne(r: Request)
    requires WellFormed(r)
    ensures TouchesPair(EpayGateway, r) ==> !TouchesPair(XorPayGateway, r) && !TouchesWebhook(r)
    ensures TouchesPair(XorPayGateway, r) ==> !TouchesPair(EpayGateway, r) && !TouchesWebhook(r)
  {
    TouchNamesScope(r);
    if TouchesPair(EpayGateway, r) && TouchesPair(XorPayGateway, r) {
      AtMostOne(Scopes(r), ProviderScope(Epay), ProviderScope(XorPay));
    }
    if TouchesPair(EpayGateway, r) && TouchesWebhook(r) {
      AtMostOne(Scopes(r), ProviderScope(Epay), ProviderScope(Stripe));
    }
    if TouchesPair(XorPayGateway, r) && TouchesWebhook(r) {
      AtMostOne(Scopes(r), ProviderScope(XorPay), ProviderScope(Stripe));
    }
  }

  /** Changing one pair changes neither the other pair nor the webhook secret. */
  lemma PairChangesAlone(g: Gateway, other: Gateway, s: Settings, r: Request)
    requires g != other
    ensures g.Of(Step(s, r)) != g.Of(s) ==> other.Of(Step(s, r)) == other.Of(s) && Step(s, r).webhook == s.webhook
  {
    if WellFormed(r) {
      if TouchesPair(g, r) {
        TouchesOne(r);
        PairNeedsTouch(other, s, r);
        WebhookNeedsTouch(s, r);
      } else {
        PairNeedsTouch(g, s, r);
      }
    }
  }

  /** A request that changes one rotated credential leaves the other two as they are. */
  lemma RequestChangesOneCredential(s: Settings, r: Request)
    ensures Step(s, r).epay != s.epay ==> Step(s, r).xorPay == s.xorPay && Step(s, r).webhook == s.webhook
    ensures Step(s, r).xorPay != s.xorPay ==> Step(s, r).epay == s.epay && Step(s, r).webhook == s.webhook
  {
    PairChangesAlone(EpayGateway, XorPayGateway, s, r);
    PairChangesAlone(XorPayGateway, EpayGateway, s, r);
  }
}

/** The Stripe webhook secret over whole runs. */
module WebhookRuns {
  import opened Wrappers
  import opened Text
  import opened PaymentSettings
  import opened CredentialRotation
  import opened PreparedRotation
  import opened PaymentUpdates
  import opened RotationRuns

  /** Everything a request can do to the webhook: nothing, a planned rotation that keeps the replaced
      secret, or a change that empties the previous slot. */
  ghost predicate WebhookMoves(w: Webhook, d: Webhook, emergency: bool, now: int) {
    || d == w
    || (&& d.generation <= MAX_INT64
        && d.generation == (if d.secret != w.secret && w.secret != "" then w.generation + 1 else w.generation)
        && (|| (d.previousSecret == "" && d.previousGeneration == 0 && d.previousExpiresAt == 0)
            || (&& !emergency && w.secret != "" && d.secret != "" && d.secret != w.secret && !w.PreviousActive(now)
                && d.previousSecret == w.secret && d.previousGeneration == w.generation
                && d.previousValidBefore == now && d.previousExpiresAt == now + STRIPE_OVERLAP)))
  }

  lemma WebhookUpdateMoves(w: Webhook, currentMode: string, mode: string, supplied: Option<string>, emergency: bool,
                           now: int)
    requires WebhookInv(w) && RotatedWebhook(w, currentMode, mode, supplied, emergency, now).Ok?
    ensures var d := RotatedWebhook(w, currentMode, mode, supplied, emergency, now).value.after;
            WebhookMoves(w, d, emergency, now) && WebhookInv(d)
  {
  }

  lemma WebhookRotationMoves(s: Settings, v: Values, e: set<Provider>, now: int, storageReady: bool)
    requires WebhookInv(s.webhook) && Rotated(s, v, e, now, storageReady).Ok?
    ensures var d := Rotated(s, v, e, now, storageReady).value.settings.webhook;
            WebhookMoves(s.webhook, d, Stripe in e, now) && WebhookInv(d)
  {
    RotatedWebhookOf(s, v, e, now, storageReady);
    WebhookUpdateMoves(s.webhook, s.stripe.credentialLivemode,
                       v.stripe.credentialLivemode.GetOr(s.stripe.credentialLivemode), v.webhook.secret, Stripe in e,
                       now);
  }

  lemma WebhookStep(s: Settings, r: Request)
    requires WebhookInv(s.webhook)
    ensures WebhookMoves(s.webhook, Step(s, r).webhook, Stripe in r.Emergency(), r.now)
    ensures WebhookInv(Step(s, r).webhook)
  {
    if Accepted(s, r) {
      WebhookRotationMoves(s, Proposals(r), r.Emergency(), r.now, r.storageReady);
    }
  }

  lemma {:induction false} RunPreservesWebhook(states: seq<Settings>, requests: seq<Request>, i: nat)
    requires Run(states, requests) && i < |states|
    ensures WebhookInv(states[i].webhook)
  {
    if i > 0 {
      RunPreservesWebhook(states, requests, i - 1);
      WebhookStep(states[i - 1], requests[i - 1]);
    }
  }

  /** Every state of a run satisfies the invariant. */
  lemma RunPreservesInv(states: seq<Settings>, requests: seq<Request>, i: nat)
    requires Run(states, requests) && i < |states|
    ensures Inv(states[i])
  {
    RunPreservesPair(EpayGateway, states, requests, i);
    RunPreservesPair(XorPayGateway, states, requests, i);
    RunPreservesWebhook(states, requests, i);
  }

  // ---------------------------------------------------------------- generations name one secret

  /** The non-empty secret a generation stands for. */
  ghost predicate NamesSecret(w: Webhook, generation: int, secret: string) {
    && secret != ""
    && (|| (generation == w.generation && secret == w.secret)
        || (generation == PreviousWebhookGeneration(w) && secret == w.previousSecret))
  }

  ghost predicate WebhooksConsistent(w: Webhook, d: Webhook) {
    && w.generation <= d.generation
    && (w.generation == d.generation && w.secret != "" ==> d.secret == w.secret)
    && (d.previousSecret != "" && w.secret != "" && PreviousWebhookGeneration(d) == w.generation ==>
          d.previousSecret == w.secret)
    && (w.previousSecret != "" && d.previousSecret != "" && PreviousWebhookGeneration(w) == PreviousWebhookGeneration(d)
        ==> w.previousSecret == d.previousSecret)
  }

  ghost predicate WebhookTrace(ws: seq<Webhook>, emergencies: seq<bool>, times: seq<int>) {
    && |ws| == |emergencies| + 1 == |times| + 1
    && (forall i :: 0 <= i < |ws| ==> WebhookInv(ws[i]))
    && (forall i :: 0 <= i < |times| ==> WebhookMoves(ws[i], ws[i + 1], emergencies[i], times[i]))
  }

  ghost function Webhooks(states: seq<Settings>): (ws: seq<Webhook>)
    ensures |ws| == |states| && forall i :: 0 <= i < |ws| ==> ws[i] == states[i].webhook
  {
    seq(|states|, i requires 0 <= i < |states| => states[i].webhook)
  }

  lemma RunWebhookTrace(states: seq<Settings>, requests: seq<Request>)
    requires Run(states, requests)
    ensures WebhookTrace(Webhooks(states), Emergencies(Stripe, requests), Times(requests))
  {
    forall i | 0 <= i < |states|
      ensures WebhookInv(states[i].webhook)
    {
      RunPreservesWebhook(states, requests, i);
    }
    forall i | 0 <= i < |requests|
      ensures WebhookMoves(states[i].webhook, states[i + 1].webhook, Stripe in requests[i].Emergency(), requests[i].now)
    {
      WebhookStep(states[i], requests[i]);
    }
  }

  lemma {:induction false} TraceWebhooksConsistent(ws: seq<Webhook>, es: seq<bool>, ts: seq<int>, i: nat, j: nat)
    requires WebhookTrace(ws, es, ts) && i <= j < |ws|
    ensures WebhooksConsistent(ws[i], ws[j])
    decreases j
  {
    assert WebhookInv(ws[i]) && WebhookInv(ws[j]);
    if i < j {
      TraceWebhooksConsistent(ws, es, ts, i, j - 1);
      assert WebhookMoves(ws[j - 1], ws[j], es[j - 1], ts[j - 1]);
    }
  }

  /** Over a whole run a webhook generation never names two different secrets, although the number of an
      emptied slot is reused for the next secret. */
  lemma GenerationNamesOneSecret(states: seq<Settings>, requests: seq<Request>, i: nat, j: nat,
                                 generation: int, x: string, y: string)
    requires Run(states, requests) && i <= j < |states|
    requires NamesSecret(states[i].webhook, generation, x) && NamesSecret(states[j].webhook, generation, y)
    ensures x == y
  {
    RunWebhookTrace(states, requests);
    TraceWebhooksConsistent(Webhooks(states), Emergencies(Stripe, requests), Times(requests), i, j);
  }
}

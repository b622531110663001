/** Rotation of payment credentials: what one accepted update does to the current and previous
    credential of each provider, and the imperative code that rewrites the proposed values. */
module CredentialRotation {
  import opened Wrappers
  import opened Text
  import opened PaymentSettings

  datatype Revocation = Revocation(provider: Provider, generation: int, validBefore: int, allActiveOrders: bool)

  datatype RotationError =
    | InvalidTime
    | EmergencyNeedsNewSecret
    | OverlapStillActive
    | GenerationExhausted
    | ModeUnverified
    | ReplacementUnchanged
    | AidNeedsNewSecret
    | SecretStorageUnavailable
    | NothingToRevoke

  /** The generations a list of revocations names for one provider. */
  function Revoked(p: Provider, rs: seq<Revocation>): set<int> {
    set r | r in rs && r.provider == p :: r.generation
  }

  // ---------------------------------------------------------------- Epay and XORPay

  datatype PairOutcome = PairOutcome(after: Credential, revocations: seq<Revocation>)

  function PairRevocation(g: Gateway, generation: int, now: int): Revocation {
    Revocation(g.Provider(), generation, now, false)
  }

  /** Why an update of a paired gateway is refused, in the order the code tests. */
  function PairRotationError(g: Gateway, c: Credential, next: Pair, supplied: bool, emergency: bool, now: int,
                             storageReady: bool)
    : Option<RotationError>
  {
    if emergency && supplied && next == c.current then Some(ReplacementUnchanged)
    else if g.XorPayGateway? && next.id != c.current.id && !Blank(c.current.id) && !Blank(next.id)
            && (next.key == c.current.key || Blank(next.key)) then Some(AidNeedsNewSecret)
    else if next != c.current then
      if c.generation <= 0 || c.generation == MAX_INT64 then Some(GenerationExhausted)
      else if c.PreviousActive(now) && !emergency then Some(OverlapStillActive)
      else if !emergency && c.current.Complete() && !storageReady then Some(SecretStorageUnavailable)
      else None
    else if emergency && !c.PreviousStored() then Some(NothingToRevoke)
    else None
  }

  /** The effect of an update that is not refused; `stored` is the pair as it is kept. */
  function PairRotationEffect(g: Gateway, c: Credential, stored: Pair, changed: bool, emergency: bool,
                              now: int): PairOutcome {
    if changed && emergency then
      PairOutcome(
        Credential(stored, c.generation + 1, NO_PAIR, 0, 0, 0),
        (if c.PreviousStored() then [PairRevocation(g, c.previousGeneration, now)] else [])
        + (if c.current.Complete() then [PairRevocation(g, c.generation, now)] else []))
    else if changed && c.current.Complete() then
      PairOutcome(Credential(stored, c.generation + 1, Pair(TrimSpace(c.current.id), c.current.key),
                             c.generation, now, now + g.Overlap()), [])
    else if changed then PairOutcome(c.(current := stored, generation := c.generation + 1), [])
    else if emergency then
      PairOutcome(Credential(stored, c.generation, NO_PAIR, 0, 0, 0), [PairRevocation(g, c.previousGeneration, now)])
    else PairOutcome(c.(current := stored), [])
  }

  /** One update of a paired gateway, as a function of the stored credential. */
  function RotatedPair(g: Gateway, c: Credential, id: Option<string>, key: Option<string>,
                       emergency: bool, now: int, storageReady: bool)
    : Result<PairOutcome, RotationError>
  {
    var next := Pair(id.GetOr(c.current.id), key.GetOr(c.current.key));
    var stored := Pair(if id.Some? then g.StoredId(id.value) else c.current.id, next.key);
    match PairRotationError(g, c, next, id.Some? || key.Some?, emergency, now, storageReady)
    case Some(error) => Err(error)
    case None => Ok(PairRotationEffect(g, c, stored, next != c.current, emergency, now))
  }

  /** A request writes at most the pair itself; the rest of a gateway belongs to the server. */
  predicate LeavesPairInternals(v: PairValues) {
    v == PairValues(v.id, v.key, None, None, None, None, None, None)
  }

  /** The Epay and XORPay sections of `preparePaymentCredentialRotations`. */
  method RotatePair(g: Gateway, c: Credential, proposed: PairValues, emergency: bool, now: int, storageReady: bool)
    returns (r: Result<PairValues, RotationError>, revocations: seq<Revocation>)
    requires LeavesPairInternals(proposed)
    ensures var expected := RotatedPair(g, c, proposed.id, proposed.key, emergency, now, storageReady);
            && (r.Err? <==> expected.Err?)
            && (r.Err? ==> r.error == expected.error)
            && (r.Ok? ==> PairOutcome(ApplyPair(g, c, r.value), revocations) == expected.value)
  {
    var next := c.current;
    if proposed.id.Some? { next := next.(id := proposed.id.value); }
    if proposed.key.Some? { next := next.(key := proposed.key.value); }
    var error := CheckPairRotation(g, c, next, proposed.id.Some? || proposed.key.Some?, emergency, now, storageReady);
    if error.Some? {
      return Err(error.value), [];
    }
    var values;
    values, revocations := WritePairRotation(g, c, proposed, next != c.current, emergency, now);
    r := Ok(values);
  }

  method CheckPairRotation(g: Gateway, c: Credential, next: Pair, supplied: bool, emergency: bool, now: int,
                           storageReady: bool)
    returns (error: Option<RotationError>)
    ensures error == PairRotationError(g, c, next, supplied, emergency, now, storageReady)
  {
    if emergency && supplied && next.id == c.current.id && next.key == c.current.key {
      return Some(ReplacementUnchanged);
    }
    var idChanging := next.id != c.current.id;
    var keyChanging := next.key != c.current.key;
    if g.XorPayGateway? && idChanging && !Blank(c.current.id) && !Blank(next.id) && (!keyChanging || Blank(next.key)) {
      return Some(AidNeedsNewSecret);
    }
    if idChanging || keyChanging {
      if c.generation <= 0 || c.generation == MAX_INT64 {
        return Some(GenerationExhausted);
      }
      if c.PreviousActive(now) && !emergency {
        return Some(OverlapStillActive);
      }
      if !emergency && c.current.id != "" && c.current.key != "" && !storageReady {
        return Some(SecretStorageUnavailable);
      }
    } else if emergency && (c.previousGeneration <= 0 || c.previous.key == "") {
      return Some(NothingToRevoke);
    }
    return None;
  }

  method WritePairRotation(g: Gateway, c: Credential, proposed: PairValues, changed: bool, emergency: bool, now: int)
    returns (values: PairValues, revocations: seq<Revocation>)
    requires LeavesPairInternals(proposed)
    ensures PairOutcome(ApplyPair(g, c, values), revocations) ==
            PairRotationEffect(g, c, ApplyPair(g, c, proposed).current, changed, emergency, now)
  {
    values, revocations := proposed, [];
    if changed {
      if emergency {
        if c.previousGeneration > 0 && c.previous.key != "" {
          revocations := revocations + [PairRevocation(g, c.previousGeneration, now)];
        }
        if c.current.id != "" && c.current.key != "" {
          revocations := revocations + [PairRevocation(g, c.generation, now)];
        }
        values := ClearPrevious(values);
      } else if c.current.id != "" && c.current.key != "" {
        values := values.(previousId := Some(c.current.id), previousKey := Some(c.current.key));
        values := values.(previousGeneration := Some(c.generation));
        values := values.(previousValidBefore := Some(now), previousExpiresAt := Some(now + g.Overlap()));
      }
      values := values.(generation := Some(c.generation + 1));
    } else if emergency {
      revocations := revocations + [PairRevocation(g, c.previousGeneration, now)];
      values := ClearPrevious(values);
    }
  }

  function ClearPrevious(v: PairValues): PairValues {
    v.(previousId := Some(""), previousKey := Some(""), previousGeneration := Some(0),
       previousValidBefore := Some(0), previousExpiresAt := Some(0))
  }

  // ---------------------------------------------------------------- Stripe

  datatype WebhookOutcome = WebhookOutcome(after: Webhook, revoked: seq<int>)

  /** Why an update of the webhook secret is refused. `secret` is the proposed secret, empty when an
      emergency supplies none; `sameMode` says the API credential's test/live mode stays. */
  function WebhookRotationError(w: Webhook, secret: string, changing: bool, emergency: bool, sameMode: bool,
                                mode: string, now: int)
    : Option<RotationError>
  {
    if emergency && secret != "" && secret == w.secret then Some(EmergencyNeedsNewSecret)
    else if changing && secret != "" && sameMode && !emergency && w.PreviousActive(now) then Some(OverlapStillActive)
    else if !changing && !emergency then None
    else if w.generation <= 0 || (w.generation == MAX_INT64 && changing && w.secret != "")
    then Some(GenerationExhausted)
    else if secret != "" && mode != "test" && mode != "live" then Some(ModeUnverified)
    else None
  }

  /** The webhook after an update that is not refused and changes something or is an emergency. */
  function WebhookRotationEffect(w: Webhook, secret: string, emergency: bool, sameMode: bool, mode: string,
                                 now: int): Webhook {
    var generation := if secret != w.secret && w.secret != "" then w.generation + 1 else w.generation;
    var livemode := if secret != "" then mode else "";
    if !emergency && secret != "" && w.secret != "" && sameMode
    then Webhook(secret, generation, w.secret, w.generation, now, now + STRIPE_OVERLAP, livemode)
    else Webhook(secret, generation, "", 0, 0, 0, livemode)
  }

  /** One update of the Stripe webhook secret. `currentMode` and `mode` are the API credential's
      test/live mode before and after the request. */
  function RotatedWebhook(w: Webhook, currentMode: string, mode: string, supplied: Option<string>,
                          emergency: bool, now: int)
    : Result<WebhookOutcome, RotationError>
  {
    var secret := supplied.GetOr("");
    var changing := (supplied.Some? || emergency) && secret != w.secret;
    match WebhookRotationError(w, secret, changing, emergency, mode == currentMode, mode, now)
    case Some(error) => Err(error)
    case None =>
      if !changing && !emergency then Ok(WebhookOutcome(w, []))
      else Ok(WebhookOutcome(WebhookRotationEffect(w, secret, emergency, mode == currentMode, mode, now),
                             if emergency then EmergencyWebhookGenerations(w, now) else []))
  }

  /** The generation an overlap without a recorded generation stands for. */
  function PreviousWebhookGeneration(w: Webhook): int {
    if w.previousGeneration <= 0 then w.generation - 1 else w.previousGeneration
  }

  /** What an accepted Stripe emergency revokes, in order. */
  function EmergencyWebhookGenerations(w: Webhook, now: int): seq<int>
  {
    var current := if w.secret != "" && w.generation > 0 then [w.generation] else [];
    var previous := PreviousWebhookGeneration(w);
    var both :=
      if w.PreviousActive(now) && previous > 0 && (current == [] || current[0] != previous)
      then current + [previous] else current;
    if both == [] && w.generation > 0 then [w.generation] else both
  }

  /** A request writes at most the new secret. */
  predicate LeavesWebhookInternals(v: WebhookValues) {
    v == WebhookValues(v.secret, None, None, None, None, None, None)
  }

  function WebhookRevocations(generations: seq<int>, now: int): (r: seq<Revocation>)
    ensures |r| == |generations|
    ensures forall i :: 0 <= i < |r| ==> r[i] == Revocation(Stripe, generations[i], now, i == 0)
  {
    seq(|generations|, i requires 0 <= i < |generations| => Revocation(Stripe, generations[i], now, i == 0))
  }

  /** The Stripe section of `preparePaymentCredentialRotations`. */
  method RotateStripe(w: Webhook, currentMode: string, mode: string, proposed: WebhookValues, emergency: bool, now: int)
    returns (r: Result<WebhookValues, RotationError>, revocations: seq<Revocation>)
    requires LeavesWebhookInternals(proposed)
    ensures var expected := RotatedWebhook(w, currentMode, mode, proposed.secret, emergency, now);
            && (r.Err? <==> expected.Err?)
            && (r.Err? ==> r.error == expected.error)
            && (r.Ok? ==> ApplyWebhook(w, r.value) == expected.value.after)
            && (r.Ok? ==> revocations == WebhookRevocations(expected.value.revoked, now))
    ensures r.Ok? ==> WebhookWritten(w, r.value)
    ensures r.Ok? && !emergency ==> r.value.secret == proposed.secret
  {
    var values := proposed;
    revocations := [];
    var modeChanging := mode != currentMode;
    var secret := values.secret.GetOr("");
    if emergency {
      if values.secret.Some? && secret != "" && secret == w.secret {
        return Err(EmergencyNeedsNewSecret), [];
      }
      if values.secret.None? {
        values := values.(secret := Some(""));
      }
    }
    var secretChanging := values.secret.Some? && secret != w.secret;
    if secretChanging && secret != "" && !modeChanging && !emergency && w.PreviousActive(now) {
      return Err(OverlapStillActive), [];
    }
    if secretChanging || emergency {
      if w.generation <= 0 || (w.generation == MAX_INT64 && secretChanging && w.secret != "") {
        return Err(GenerationExhausted), [];
      }
      if secretChanging {
        var nextGeneration := w.generation;
        if w.secret != "" { nextGeneration := nextGeneration + 1; }
        values := values.(generation := Some(nextGeneration));
      }
      if secret != "" {
        if mode != "test" && mode != "live" {
          return Err(ModeUnverified), [];
        }
        values := values.(livemode := Some(mode));
      } else {
        values := values.(livemode := Some(""));
      }
      var preservePrevious := !emergency && secret != "" && w.secret != "" && !modeChanging;
      if preservePrevious {
        values := values.(previousSecret := Some(w.secret), previousGeneration := Some(w.generation));
        values := values.(previousValidBefore := Some(now), previousExpiresAt := Some(now + STRIPE_OVERLAP));
      } else {
        values := values.(previousSecret := Some(""), previousGeneration := Some(0));
        values := values.(previousValidBefore := Some(0), previousExpiresAt := Some(0));
      }
    }
    if emergency {
      revocations := RevokeWebhook(w, now);
    }
    r := Ok(values);
  }

  /** A changed secret is always written together with its overlap, and the overlap keeps the replaced
      secret or nothing. */
  predicate WebhookWritten(w: Webhook, v: WebhookValues) {
    v.secret.Some? && v.secret.value != w.secret ==>
      && v.previousSecret.Some? && v.previousExpiresAt.Some? && v.livemode.Some?
      && (v.previousSecret.value == "" || v.previousSecret.value == w.secret)
  }

  method RevokeWebhook(w: Webhook, now: int) returns (revocations: seq<Revocation>)
    ensures revocations == WebhookRevocations(EmergencyWebhookGenerations(w, now), now)
  {
    var generations := RevokedWebhookGenerations(w, now);
    revocations := [];
    for index := 0 to |generations|
      invariant revocations == WebhookRevocations(generations, now)[..index]
    {
      revocations := revocations + [Revocation(Stripe, generations[index], now, index == 0)];
    }
  }

  method RevokedWebhookGenerations(w: Webhook, now: int) returns (generations: seq<int>)
    ensures generations == EmergencyWebhookGenerations(w, now)
  {
    generations := [];
    if w.secret != "" && w.generation > 0 {
      generations := generations + [w.generation];
    }
    if w.previousSecret != "" && w.previousExpiresAt > now {
      var previousGeneration := w.previousGeneration;
      if previousGeneration <= 0 { previousGeneration := w.generation - 1; }
      if previousGeneration > 0 && (|generations| == 0 || generations[0] != previousGeneration) {
        generations := generations + [previousGeneration];
      }
    }
    if |generations| == 0 && w.generation > 0 {
      generations := generations + [w.generation];
    }
  }
}

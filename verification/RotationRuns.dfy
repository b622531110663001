/** What holds over every run of payment settings requests. */
module RotationRuns {
  import opened Wrappers
  import opened Text
  import opened PaymentSettings
  import opened CredentialRotation
  import opened PreparedRotation
  import opened PaymentUpdates

  // ---------------------------------------------------------------- invariants of reachable settings

  ghost predicate CredentialInv(c: Credential) {
    && 0 < c.generation <= MAX_INT64
    && c.previousGeneration < c.generation
    && Trimmed(c.current.id)
  }

  /** A stored previous webhook secret belongs to an older generation and never outlives its successor. */
  ghost predicate WebhookInv(w: Webhook) {
    && 0 < w.generation <= MAX_INT64
    && (w.previousSecret != "" ==> w.secret != "" && 0 < PreviousWebhookGeneration(w) < w.generation)
  }

  ghost predicate Inv(s: Settings) {
    CredentialInv(s.epay) && CredentialInv(s.xorPay) && WebhookInv(s.webhook)
  }

  ghost predicate Run(states: seq<Settings>, requests: seq<Request>) {
    && |states| == |requests| + 1
    && Inv(states[0])
    && forall i :: 0 <= i < |requests| ==> states[i + 1] == Step(states[i], requests[i])
  }

  ghost predicate ClockMoves(requests: seq<Request>) {
    forall i, j :: 0 <= i <= j < |requests| ==> requests[i].now <= requests[j].now
  }

  // ---------------------------------------------------------------- one step of a paired gateway

  ghost predicate PreviousEmpty(c: Credential) {
    c.previous == NO_PAIR && c.previousGeneration == 0 && c.previousExpiresAt == 0
  }

  /** Everything a request can do to a paired credential: nothing; a planned rotation, which keeps a
      complete predecessor for the overlap; or an emergency, which empties the previous slot. */
  ghost predicate PairMoves(g: Gateway, c: Credential, d: Credential, emergency: bool, now: int) {
    || d == c
    || (&& c.generation < MAX_INT64
        && d.generation == c.generation + 1 && d.current != c.current && !emergency && !c.PreviousActive(now)
        && d == Credential(
             d.current, d.generation,
             if c.current.Complete() then c.current else c.previous,
             if c.current.Complete() then c.generation else c.previousGeneration,
             if c.current.Complete() then now else c.previousValidBefore,
             if c.current.Complete() then now + g.Overlap() else c.previousExpiresAt))
    || (&& emergency && PreviousEmpty(d) && Trimmed(d.current.id)
        && (d.current == c.current ==> d.generation == c.generation)
        && (d.current != c.current ==> c.generation < MAX_INT64 && d.generation == c.generation + 1))
  }

  lemma PairStep(g: Gateway, s: Settings, r: Request)
    requires CredentialInv(g.Of(s))
    ensures PairMoves(g, g.Of(s), g.Of(Step(s, r)), g.Provider() in r.Emergency(), r.now)
    ensures CredentialInv(g.Of(Step(s, r)))
  {
    if Accepted(s, r) {
      var v := Proposals(r);
      ProposedIdIsTrimmed(g, r);
      PairRotationMoves(g, s, v, r.Emergency(), r.now, r.storageReady);
    }
  }

  lemma PairRotationMoves(g: Gateway, s: Settings, v: Values, e: set<Provider>, now: int, storageReady: bool)
    requires CredentialInv(g.Of(s)) && (g.ValuesOf(v).id.Some? ==> Trimmed(g.ValuesOf(v).id.value))
    requires Rotated(s, v, e, now, storageReady).Ok?
    ensures var d := g.Of(Rotated(s, v, e, now, storageReady).value.settings);
            PairMoves(g, g.Of(s), d, g.Provider() in e, now) && CredentialInv(d)
  {
    RotatedPairOf(g, s, v, e, now, storageReady);
    PairUpdateMoves(g, g.Of(s), g.ValuesOf(v).id, g.ValuesOf(v).key, g.Provider() in e, now, storageReady);
  }

  lemma PairUpdateMoves(g: Gateway, c: Credential, id: Option<string>, key: Option<string>,
                        emergency: bool, now: int, storageReady: bool)
    requires CredentialInv(c) && (id.Some? ==> Trimmed(id.value))
    requires RotatedPair(g, c, id, key, emergency, now, storageReady).Ok?
    ensures var d := RotatedPair(g, c, id, key, emergency, now, storageReady).value.after;
            PairMoves(g, c, d, emergency, now) && CredentialInv(d)
  {
  }

  // ---------------------------------------------------------------- runs seen from one gateway

  /** The credential of one gateway along a run, with the emergency flags and times of the requests. */
  ghost predicate PairTrace(g: Gateway, cs: seq<Credential>, emergencies: seq<bool>, times: seq<int>) {
    && |cs| == |emergencies| + 1 == |times| + 1
    && (forall i :: 0 <= i < |cs| ==> CredentialInv(cs[i]))
    && (forall i :: 0 <= i < |times| ==> PairMoves(g, cs[i], cs[i + 1], emergencies[i], times[i]))
  }

  ghost function Credentials(g: Gateway, states: seq<Settings>): (cs: seq<Credential>)
    ensures |cs| == |states| && forall i :: 0 <= i < |cs| ==> cs[i] == g.Of(states[i])
  {
    seq(|states|, i requires 0 <= i < |states| => g.Of(states[i]))
  }

  ghost function Emergencies(p: Provider, requests: seq<Request>): (es: seq<bool>)
    ensures |es| == |requests| && forall i :: 0 <= i < |es| ==> es[i] == (p in requests[i].Emergency())
  {
    seq(|requests|, i requires 0 <= i < |requests| => p in requests[i].Emergency())
  }

  ghost function Times(requests: seq<Request>): (ts: seq<int>)
    ensures |ts| == |requests| && forall i :: 0 <= i < |ts| ==> ts[i] == requests[i].now
  {
    seq(|requests|, i requires 0 <= i < |requests| => requests[i].now)
  }

  lemma {:induction false} RunTrace(g: Gateway, states: seq<Settings>, requests: seq<Request>)
    requires Run(states, requests)
    ensures PairTrace(g, Credentials(g, states), Emergencies(g.Provider(), requests), Times(requests))
  {
    forall i | 0 <= i < |states|
      ensures CredentialInv(g.Of(states[i]))
    {
      RunPreservesPair(g, states, requests, i);
    }
    forall i | 0 <= i < |requests|
      ensures PairMoves(g, g.Of(states[i]), g.Of(states[i + 1]), g.Provider() in requests[i].Emergency(),
                        requests[i].now)
    {
      PairStep(g, states[i], requests[i]);
    }
  }

  lemma {:induction false} RunPreservesPair(g: Gateway, states: seq<Settings>, requests: seq<Request>, i: nat)
    requires Run(states, requests) && i < |states|
    ensures CredentialInv(g.Of(states[i]))
  {
    if i > 0 {
      RunPreservesPair(g, states, requests, i - 1);
      PairStep(g, states[i - 1], requests[i - 1]);
      assert g.Of(states[i]) == g.Of(Step(states[i - 1], requests[i - 1]));
    }
  }

  // ---------------------------------------------------------------- the overlap is kept

  /** Until the overlap of a replaced pair ends, planned requests leave the credential alone. */
  lemma {:induction false} TraceHoldsReplaced(g: Gateway, cs: seq<Credential>, es: seq<bool>, ts: seq<int>, i: nat,
                                              j: nat)
    requires PairTrace(g, cs, es, ts) && i < j < |cs|
    requires forall k, l :: 0 <= k <= l < |ts| ==> ts[k] <= ts[l]
    requires forall k :: i <= k < j ==> !es[k]
    requires cs[i].current.Complete() && cs[i + 1].current != cs[i].current
    requires ts[j - 1] < ts[i] + g.Overlap()
    ensures cs[j] == Credential(cs[i + 1].current, cs[i].generation + 1, cs[i].current, cs[i].generation, ts[i],
                                ts[i] + g.Overlap())
  {
    assert PairMoves(g, cs[i], cs[i + 1], es[i], ts[i]);
    if j > i + 1 {
      TraceHoldsReplaced(g, cs, es, ts, i, j - 1);
      assert PairMoves(g, cs[j - 1], cs[j], es[j - 1], ts[j - 1]);
      assert cs[j - 1].PreviousActive(ts[j - 1]);
    }
  }

  /** In a run without emergencies of the gateway, a complete pair that is replaced at time `t` stays the
      previous credential, under its own generation, and no second rotation happens before `t + overlap`. */
  lemma ReplacedPairIsHeld(g: Gateway, states: seq<Settings>, requests: seq<Request>, i: nat, j: nat)
    requires Run(states, requests) && ClockMoves(requests) && i < j < |states|
    requires forall k :: i <= k < j ==> g.Provider() !in requests[k].Emergency()
    requires g.Of(states[i]).current.Complete() && g.Of(states[i + 1]).current != g.Of(states[i]).current
    requires requests[j - 1].now < requests[i].now + g.Overlap()
    ensures var before, after := g.Of(states[i]), g.Of(states[j]);
            && after.current == g.Of(states[i + 1]).current && after.generation == before.generation + 1
            && after.previous == before.current && after.previousGeneration == before.generation
            && after.previousValidBefore == requests[i].now
            && after.previousExpiresAt == requests[i].now + g.Overlap()
    ensures forall t :: t < requests[i].now + g.Overlap() ==> g.Of(states[j]).PreviousActive(t)
  {
    var cs, es, ts := Credentials(g, states), Emergencies(g.Provider(), requests), Times(requests);
    RunTrace(g, states, requests);
    PlannedTrace(g, requests, i, j);
    TraceHoldsReplaced(g, cs, es, ts, i, j);
    RunPreservesPair(g, states, requests, i);
    HeldIsActive(g.Of(states[i]), g.Of(states[i + 1]).current, g.Of(states[j]), requests[i].now, g.Overlap());
  }

  lemma PlannedTrace(g: Gateway, requests: seq<Request>, i: nat, j: nat)
    requires ClockMoves(requests) && i < j <= |requests|
    requires forall k :: i <= k < j ==> g.Provider() !in requests[k].Emergency()
    ensures var es, ts := Emergencies(g.Provider(), requests), Times(requests);
            && (forall k :: i <= k < j ==> !es[k])
            && (forall k, l :: 0 <= k <= l < |ts| ==> ts[k] <= ts[l])
  {
  }

  lemma HeldIsActive(before: Credential, next: Pair, after: Credential, replaced: int, overlap: int)
    requires CredentialInv(before) && before.current.Complete()
    requires after == Credential(next, before.generation + 1, before.current, before.generation, replaced,
                                 replaced + overlap)
    ensures forall t :: t < replaced + overlap ==> after.PreviousActive(t)
  {
  }

  // ---------------------------------------------------------------- generations name one credential

  /** The credential a generation stands for in a state: the current pair or a stored previous one. */
  ghost predicate Names(c: Credential, generation: int, pair: Pair) {
    || (generation == c.generation && pair == c.current)
    || (c.PreviousStored() && generation == c.previousGeneration && pair == c.previous)
  }

  /** Later credentials agree with earlier ones on every generation both know. */
  ghost predicate Consistent(c: Credential, d: Credential) {
    && c.generation <= d.generation
    && (c.generation == d.generation ==> c.current == d.current)
    && (d.PreviousStored() && d.previousGeneration == c.generation ==> d.previous == c.current)
    && (c.PreviousStored() && d.PreviousStored() && c.previousGeneration == d.previousGeneration ==>
          c.previous == d.previous)
  }

  lemma {:induction false} TraceIsConsistent(g: Gateway, cs: seq<Credential>, es: seq<bool>, ts: seq<int>, i: nat,
                                             j: nat)
    requires PairTrace(g, cs, es, ts) && i <= j < |cs|
    ensures Consistent(cs[i], cs[j])
    decreases j
  {
    if i < j {
      TraceIsConsistent(g, cs, es, ts, i, j - 1);
      assert PairMoves(g, cs[j - 1], cs[j], es[j - 1], ts[j - 1]);
    }
  }

  /** Over a whole run, emergencies included, a generation number never names two different pairs. */
  lemma GenerationNamesOnePair(g: Gateway, states: seq<Settings>, requests: seq<Request>, i: nat, j: nat,
                               generation: int, p: Pair, q: Pair)
    requires Run(states, requests) && i <= j < |states|
    requires Names(g.Of(states[i]), generation, p) && Names(g.Of(states[j]), generation, q)
    ensures p == q
  {
    RunTrace(g, states, requests);
    TraceIsConsistent(g, Credentials(g, states), Emergencies(g.Provider(), requests), Times(requests), i, j);
    RunPreservesPair(g, states, requests, i);
    RunPreservesPair(g, states, requests, j);
  }

  /** One request raises the generation by one exactly when it changes the pair, and stays within int64. */
  lemma GenerationCountsChanges(g: Gateway, s: Settings, r: Request)
    requires CredentialInv(g.Of(s))
    ensures var c, d := g.Of(s), g.Of(Step(s, r));
            && d.generation == (if d.current != c.current then c.generation + 1 else c.generation)
            && d.previousGeneration < d.generation <= MAX_INT64
  {
    PairStep(g, s, r);
  }
}

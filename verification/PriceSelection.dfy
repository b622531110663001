/** Choosing one price per model from the providers of a price list. Costs are exact reals beside the
    two special float values the code tests for. */
module PriceSelection {
  import opened Wrappers
  import opened Numbers

  const EPSILON: real := 0.000000001

  datatype Cost = Cost(input: Option<Float>, output: Option<Float>, cacheRead: Option<Float>)

  datatype Candidate = Candidate(provider: string, input: real, output: Option<real>, cacheRead: Option<real>)

  predicate NearlyEqual(a: real, b: real) {
    if a > b then a - b < EPSILON else b - a < EPSILON
  }

  /** Go's `<` on strings. */
  predicate Before(a: string, b: string) {
    if a == "" then b != ""
    else if b == "" then false
    else a[0] < b[0] || (a[0] == b[0] && Before(a[1..], b[1..]))
  }

  lemma {:induction false} BeforeIsStrict(a: string, b: string)
    ensures !(Before(a, b) && Before(b, a))
  {
    if a != "" && b != "" {
      BeforeIsStrict(a[1..], b[1..]);
    }
  }

  /** The strings agree before `i` and `a` ends there or goes on with the smaller character. */
  predicate SmallerAt(a: string, b: string, i: nat) {
    i < |b| && i <= |a| && a[..i] == b[..i] && (i == |a| || a[i] < b[i])
  }

  /** Strings are ordered by the first place at which they differ; a proper prefix comes first. */
  lemma {:induction false} BeforeIff(a: string, b: string)
    ensures Before(a, b) <==> exists i: nat :: SmallerAt(a, b, i)
  {
    if a != "" && b != "" {
      if a[0] == b[0] {
        BeforeIff(a[1..], b[1..]);
        FirstAgrees(a, b);
      } else if Before(a, b) {
        assert SmallerAt(a, b, 0);
      }
    } else if a == "" && b != "" {
      assert SmallerAt(a, b, 0);
    }
  }

  lemma Shifted(a: string, b: string, i: nat)
    requires a != "" && b != "" && a[0] == b[0]
    ensures SmallerAt(a[1..], b[1..], i) <==> SmallerAt(a, b, i + 1)
  {
    var c, d := a[1..], b[1..];
    if i < |b| - 1 && i <= |a| - 1 {
      assert a[..i + 1] == [a[0]] + c[..i] && b[..i + 1] == [b[0]] + d[..i];
      assert a[..i + 1][1..] == c[..i] && b[..i + 1][1..] == d[..i];
    }
  }

  lemma FirstAgrees(a: string, b: string)
    requires a != "" && b != "" && a[0] == b[0]
    ensures (exists i: nat :: SmallerAt(a, b, i)) <==> exists i: nat :: SmallerAt(a[1..], b[1..], i)
  {
    if i: nat :| SmallerAt(a, b, i) {
      assert i != 0;
      Shifted(a, b, i - 1);
    }
    if i: nat :| SmallerAt(a[1..], b[1..], i) {
      Shifted(a, b, i);
    }
  }

  predicate ValidCost(v: Float) {
    v.Finite? && v.value >= 0.0
  }

  /** `buildModelsDevCandidate`: no input price, an invalid one, or a paid output on a free input make
      the entry unusable; an invalid cache price is only dropped. */
  function BuildCandidate(provider: string, cost: Cost): (c: Option<Candidate>)
    ensures c.Some? <==>
            && cost.input.Some? && cost.input.value.Finite? && cost.input.value.value >= 0.0
            && (cost.output.Some? ==> cost.output.value.Finite? && cost.output.value.value >= 0.0)
            && !(cost.input == Some(Finite(0.0)) && cost.output.Some? && cost.output != Some(Finite(0.0)))
    ensures c.Some? ==>
              && c.value.provider == provider && cost.input == Some(Finite(c.value.input))
              && (if c.value.output.None? then cost.output.None? else cost.output == Some(Finite(c.value.output.value)))
              && (c.value.cacheRead.Some? ==> cost.cacheRead == Some(Finite(c.value.cacheRead.value)))
              && (c.value.cacheRead.Some? <==>
                    cost.cacheRead.Some? && cost.cacheRead.value.Finite? && cost.cacheRead.value.value >= 0.0)
  {
    if cost.input.None? || !ValidCost(cost.input.value) then None
    else if cost.output.Some? && !ValidCost(cost.output.value) then None
    else if cost.input.value.value == 0.0 && cost.output.Some? && cost.output.value.value > 0.0 then None
    else
      Some(Candidate(
        provider,
        cost.input.value.value,
        if cost.output.Some? then Some(cost.output.value.value) else None,
        if cost.cacheRead.Some? && ValidCost(cost.cacheRead.value) then Some(cost.cacheRead.value.value) else None))
  }

  /** `shouldReplaceModelsDevCandidate`. */
  predicate ShouldReplace(current: Candidate, next: Candidate) {
    if (current.input > 0.0) != (next.input > 0.0) then next.input > 0.0
    else if next.input > 0.0 && !NearlyEqual(next.input, current.input) then next.input < current.input
    else Before(next.provider, current.provider)
  }

  /** A candidate replaces another exactly when it alone has a positive price, when both have one and its own is
      at least 0.000000001 lower, or when both or neither have one, closer together than that, and its
      provider's name comes first. */
  lemma ReplacesIff(current: Candidate, next: Candidate)
    requires current.input >= 0.0 && next.input >= 0.0
    ensures ShouldReplace(current, next) <==>
            || (next.input > 0.0 && current.input == 0.0)
            || (next.input > 0.0 && next.input + 0.000000001 <= current.input)
            || (&& (next.input > 0.0 <==> current.input > 0.0) && Before(next.provider, current.provider)
                && next.input < current.input + 0.000000001 && current.input < next.input + 0.000000001)
  {
  }

  // ---------------------------------------------------------------- the selection loop

  type Prices = map<string, map<string, Cost>>

  function CandidateOf(prices: Prices, provider: string, model: string): Option<Candidate> {
    if provider in prices && model in prices[provider] then BuildCandidate(provider, prices[provider][model]) else None
  }

  /** The usable entries of a model, in provider order. */
  function Candidates(prices: Prices, providers: seq<string>, model: string): seq<Candidate> {
    if providers == [] then []
    else
      var front := Candidates(prices, providers[..|providers| - 1], model);
      match CandidateOf(prices, providers[|providers| - 1], model)
      case None => front
      case Some(c) => front + [c]
  }

  function Better(current: Option<Candidate>, next: Candidate): Candidate {
    if current.None? || ShouldReplace(current.value, next) then next else current.value
  }

  function Chosen(candidates: seq<Candidate>): Option<Candidate> {
    if candidates == [] then None
    else Some(Better(Chosen(candidates[..|candidates| - 1]), candidates[|candidates| - 1]))
  }

  function Get(selected: map<string, Candidate>, model: string): Option<Candidate> {
    if model in selected then Some(selected[model]) else None
  }

  function AfterProvider(before: Option<Candidate>, offer: Option<Candidate>): Option<Candidate> {
    if offer.None? then before else Some(Better(before, offer.value))
  }

  /** The models of one provider, each offered once. */
  method OfferModels(provider: string, models: map<string, Cost>, selected: map<string, Candidate>)
    returns (next: map<string, Candidate>)
    ensures forall m :: Get(next, m) ==
              AfterProvider(Get(selected, m), if m in models then BuildCandidate(provider, models[m]) else None)
  {
    next := selected;
    var rest := models.Keys;
    while rest != {}
      invariant rest <= models.Keys
      invariant forall m :: m in rest || m !in models ==> Get(next, m) == Get(selected, m)
      invariant forall m :: m in models && m !in rest ==>
                  Get(next, m) == AfterProvider(Get(selected, m), BuildCandidate(provider, models[m]))
      decreases |rest|
    {
      var m :| m in rest;
      rest := rest - {m};
      var candidate := BuildCandidate(provider, models[m]);
      if candidate.None? {
        continue;
      }
      if m !in next || ShouldReplace(next[m], candidate.value) {
        next := next[m := candidate.value];
      }
    }
  }

  /** The two nested loops of `convertModelsDevToRatioData`, over the providers as sorted. */
  method Select(prices: Prices, providers: seq<string>) returns (selected: map<string, Candidate>)
    ensures forall m :: Get(selected, m) == Chosen(Candidates(prices, providers, m))
  {
    selected := map[];
    for i := 0 to |providers|
      invariant forall m :: Get(selected, m) == Chosen(Candidates(prices, providers[..i], m))
    {
      assert providers[..i + 1][..i] == providers[..i];
      var models := if providers[i] in prices then prices[providers[i]] else map[];
      selected := OfferModels(providers[i], models, selected);
      forall m
        ensures Get(selected, m) == Chosen(Candidates(prices, providers[..i + 1], m))
      {
        OfferIsChosen(prices, providers[..i + 1], m);
      }
    }
    assert providers[..|providers|] == providers;
  }

  lemma OfferIsChosen(prices: Prices, providers: seq<string>, model: string)
    requires providers != []
    ensures var front := providers[..|providers| - 1];
            Chosen(Candidates(prices, providers, model)) ==
            AfterProvider(Chosen(Candidates(prices, front, model)),
                          CandidateOf(prices, providers[|providers| - 1], model))
  {
    var front := Candidates(prices, providers[..|providers| - 1], model);
    var offer := CandidateOf(prices, providers[|providers| - 1], model);
    if offer.Some? {
      assert (front + [offer.value])[..|front|] == front;
    }
  }

  // ---------------------------------------------------------------- what is chosen

  /** Provider names rise along the list, as sorting distinct names makes them. */
  ghost predicate Ordered(candidates: seq<Candidate>) {
    forall i, j :: 0 <= i < j < |candidates| ==> Before(candidates[i].provider, candidates[j].provider)
  }

  ghost predicate OrderedNames(names: seq<string>) {
    forall i, j :: 0 <= i < j < |names| ==> Before(names[i], names[j])
  }

  lemma {:induction false} CandidatesAreOrdered(prices: Prices, providers: seq<string>, model: string)
    requires OrderedNames(providers)
    ensures Ordered(Candidates(prices, providers, model))
    ensures forall c :: c in Candidates(prices, providers, model) ==>
              c.input >= 0.0 && c.provider in providers && Some(c) == CandidateOf(prices, c.provider, model)
  {
    if providers != [] {
      var front, last := providers[..|providers| - 1], providers[|providers| - 1];
      CandidatesAreOrdered(prices, front, model);
      var cs := Candidates(prices, front, model);
      forall i | 0 <= i < |cs|
        ensures Before(cs[i].provider, last)
      {
        assert cs[i] in cs;
      }
    }
  }

  lemma {:induction false} EveryOfferIsACandidate(prices: Prices, providers: seq<string>, model: string,
                                                  provider: string)
    requires provider in providers && CandidateOf(prices, provider, model).Some?
    ensures CandidateOf(prices, provider, model).value in Candidates(prices, providers, model)
  {
    var front, last := providers[..|providers| - 1], providers[|providers| - 1];
    assert providers == front + [last];
    if provider != last {
      EveryOfferIsACandidate(prices, front, model, provider);
    }
  }

  /** Positive if any price is, and below every positive price plus the tolerance. */
  ghost predicate NearlyCheapest(best: Candidate, candidates: seq<Candidate>) {
    && best in candidates
    && forall c :: c in candidates && c.input > 0.0 ==> best.input > 0.0 && best.input < c.input + EPSILON
  }

  lemma NearlyCheapestStep(front: seq<Candidate>, current: Candidate, last: Candidate)
    requires NearlyCheapest(current, front) && current.input >= 0.0 && last.input >= 0.0
    requires Before(current.provider, last.provider)
    ensures NearlyCheapest(Better(Some(current), last), front + [last])
  {
    BeforeIsStrict(current.provider, last.provider);
    assert forall c :: c in front + [last] <==> c in front || c == last;
  }

  lemma FrontOfOrdered(candidates: seq<Candidate>)
    requires candidates != [] && Ordered(candidates)
    requires forall c :: c in candidates ==> c.input >= 0.0
    ensures var front, last := candidates[..|candidates| - 1], candidates[|candidates| - 1];
            && Ordered(front) && (forall c :: c in front ==> c.input >= 0.0) && last.input >= 0.0
            && (forall c :: c in front ==> Before(c.provider, last.provider))
            && front + [last] == candidates
  {
  }

  lemma {:induction false} ChosenIsCheapest(candidates: seq<Candidate>)
    requires candidates != [] && Ordered(candidates)
    requires forall c :: c in candidates ==> c.input >= 0.0
    ensures NearlyCheapest(Chosen(candidates).value, candidates)
  {
    var front, last := candidates[..|candidates| - 1], candidates[|candidates| - 1];
    FrontOfOrdered(candidates);
    if front != [] {
      ChosenIsCheapest(front);
      NearlyCheapestStep(front, Chosen(front).value, last);
    }
  }

  /** The price selected for a model: below every positive price on offer plus the tolerance, and free
      only when every usable offer is free. */
  lemma SelectedIsCheapest(prices: Prices, providers: seq<string>, model: string, provider: string)
    requires OrderedNames(providers) && provider in providers
    requires CandidateOf(prices, provider, model).Some?
    ensures var offer := CandidateOf(prices, provider, model).value;
            var best := Chosen(Candidates(prices, providers, model));
            && best.Some? && CandidateOf(prices, best.value.provider, model) == best
            && (offer.input > 0.0 ==> 0.0 < best.value.input < offer.input + EPSILON)
            && (best.value.input == 0.0 ==> offer.input == 0.0)
  {
    CandidatesAreOrdered(prices, providers, model);
    EveryOfferIsACandidate(prices, providers, model, provider);
    ChosenIsCheapest(Candidates(prices, providers, model));
  }

  /** Prices that are either the same or apart by at least the tolerance. */
  ghost predicate Separated(candidates: seq<Candidate>) {
    forall c, d :: c in candidates && d in candidates ==> c.input == d.input || !NearlyEqual(c.input, d.input)
  }

  /** The cheapest positive price, from the first provider by name that offers it. */
  ghost predicate Cheapest(best: Candidate, candidates: seq<Candidate>) {
    && best in candidates
    && (forall c :: c in candidates && c.input > 0.0 ==> 0.0 < best.input <= c.input)
    && (forall c :: c in candidates && c.input == best.input ==> c == best || Before(best.provider, c.provider))
  }

  lemma CheapestStep(front: seq<Candidate>, current: Candidate, last: Candidate)
    requires Cheapest(current, front) && current.input >= 0.0 && last.input >= 0.0
    requires Before(current.provider, last.provider)
    requires current.input == last.input || !NearlyEqual(last.input, current.input)
    ensures Cheapest(Better(Some(current), last), front + [last])
  {
    BeforeIsStrict(current.provider, last.provider);
    var best := Better(Some(current), last);
    assert forall c :: c in front + [last] <==> c in front || c == last;
    if best == last {
      assert forall c :: c in front ==> c.input != last.input;
    }
  }

  lemma SeparatedFront(candidates: seq<Candidate>)
    requires candidates != [] && Ordered(candidates) && Separated(candidates)
    requires forall c :: c in candidates ==> c.input >= 0.0
    ensures var front := candidates[..|candidates| - 1];
            Ordered(front) && Separated(front) && forall c :: c in front ==> c.input >= 0.0
  {
    assert forall c :: c in candidates[..|candidates| - 1] ==> c in candidates;
  }

  lemma LastComparesTo(candidates: seq<Candidate>, c: Candidate)
    requires candidates != [] && Ordered(candidates) && Separated(candidates)
    requires forall c :: c in candidates ==> c.input >= 0.0
    requires c in candidates[..|candidates| - 1]
    ensures var last := candidates[|candidates| - 1];
            && Before(c.provider, last.provider) && c.input >= 0.0 && last.input >= 0.0
            && (c.input == last.input || !NearlyEqual(last.input, c.input))
  {
    var i :| 0 <= i < |candidates| - 1 && candidates[i] == c;
    assert candidates[|candidates| - 1] in candidates && candidates[i] in candidates;
  }

  /** Without near ties the selection is exact. */
  lemma {:induction false} SeparatedChoiceIsExact(candidates: seq<Candidate>)
    requires candidates != [] && Ordered(candidates) && Separated(candidates)
    requires forall c :: c in candidates ==> c.input >= 0.0
    ensures Cheapest(Chosen(candidates).value, candidates)
  {
    var front, last := candidates[..|candidates| - 1], candidates[|candidates| - 1];
    assert candidates == front + [last];
    if front != [] {
      SeparatedFront(candidates);
      SeparatedChoiceIsExact(front);
      var current := Chosen(front).value;
      LastComparesTo(candidates, current);
      CheapestStep(front, current, last);
    }
  }

  // ---------------------------------------------------------------- when the cheapest is chosen

  /** The least positive price is first offered at position `k`. */
  ghost predicate FirstLeast(candidates: seq<Candidate>, k: nat) {
    && k < |candidates| && candidates[k].input > 0.0
    && (forall i :: 0 <= i < k && candidates[i].input > 0.0 ==> candidates[i].input > candidates[k].input)
    && (forall i :: 0 <= i < |candidates| && candidates[i].input > 0.0 ==> candidates[i].input >= candidates[k].input)
  }

  lemma {:induction false} FirstLeastExists(candidates: seq<Candidate>) returns (k: nat)
    requires exists i :: 0 <= i < |candidates| && candidates[i].input > 0.0
    ensures FirstLeast(candidates, k)
  {
    var front, last := candidates[..|candidates| - 1], candidates[|candidates| - 1];
    assert forall i :: 0 <= i < |front| ==> front[i] == candidates[i];
    if exists i :: 0 <= i < |front| && front[i].input > 0.0 {
      k := FirstLeastExists(front);
      if 0.0 < last.input < front[k].input {
        k := |front|;
      }
    } else {
      k := |front|;
    }
  }

  ghost predicate Valid(candidates: seq<Candidate>) {
    Ordered(candidates) && forall i :: 0 <= i < |candidates| ==> candidates[i].input >= 0.0
  }

  /** What the tolerance test has left standing before the cheapest offer arrives. */
  ghost predicate GivesWay(before: Option<Candidate>, x: Candidate) {
    before.None? || before.value.input == 0.0 || before.value.input >= x.input + EPSILON
  }

  lemma ChosenIsMember(candidates: seq<Candidate>)
    requires candidates != [] && Valid(candidates)
    ensures Chosen(candidates).value in candidates
  {
    forall c | c in candidates
      ensures c.input >= 0.0
    {
      var i :| 0 <= i < |candidates| && candidates[i] == c;
    }
    ChosenIsCheapest(candidates);
  }

  /** A candidate at the end of an ordered list never wins by its name. */
  lemma LastNeverWinsByName(candidates: seq<Candidate>)
    requires |candidates| > 1 && Valid(candidates)
    ensures var current := Chosen(candidates[..|candidates| - 1]).value;
            current.input >= 0.0 && !Before(candidates[|candidates| - 1].provider, current.provider)
  {
    var front := candidates[..|candidates| - 1];
    ChosenIsMember(front);
    var i :| 0 <= i < |front| && front[i] == Chosen(front).value;
    BeforeIsStrict(candidates[i].provider, candidates[|candidates| - 1].provider);
  }

  /** At the position of the cheapest offer, it is taken exactly when what stands gives way. */
  lemma CheapestArrives(candidates: seq<Candidate>, k: nat)
    requires Valid(candidates) && FirstLeast(candidates, k)
    ensures var x, before := candidates[k], Chosen(candidates[..k]);
            && (GivesWay(before, x) ==> Chosen(candidates[..k + 1]) == Some(x))
            && (!GivesWay(before, x) ==> Chosen(candidates[..k + 1]) == before && before.value.input > x.input)
  {
    var upTo := candidates[..k + 1];
    assert upTo[..k] == candidates[..k];
    if k > 0 {
      LastNeverWinsByName(upTo);
      ChosenIsMember(candidates[..k]);
      var i :| 0 <= i < k && candidates[..k][i] == Chosen(candidates[..k]).value;
      assert candidates[i] == candidates[..k][i];
    }
  }

  /** Nothing after it changes the choice any more. */
  lemma {:induction false} ChoiceStays(candidates: seq<Candidate>, k: nat, n: nat)
    requires Valid(candidates) && FirstLeast(candidates, k) && k < n <= |candidates|
    requires var c := Chosen(candidates[..k + 1]).value; candidates[k].input <= c.input < candidates[k].input + EPSILON
    ensures Chosen(candidates[..n]) == Chosen(candidates[..k + 1])
    decreases n
  {
    if n > k + 1 {
      ChoiceStays(candidates, k, n - 1);
      assert candidates[..n][..n - 1] == candidates[..n - 1];
      LastNeverWinsByName(candidates[..n]);
    }
  }

  /** The cheapest positive offer is chosen exactly when, on its arrival, nothing positive within the
      tolerance above it had been chosen; and then it is the first offer at that price. */
  lemma CheapestIsChosenIff(candidates: seq<Candidate>, k: nat)
    requires Valid(candidates) && FirstLeast(candidates, k)
    ensures Chosen(candidates).Some?
    ensures Chosen(candidates).value.input == candidates[k].input <==> GivesWay(Chosen(candidates[..k]), candidates[k])
    ensures GivesWay(Chosen(candidates[..k]), candidates[k]) ==> Chosen(candidates) == Some(candidates[k])
    ensures !GivesWay(Chosen(candidates[..k]), candidates[k]) ==> Chosen(candidates) == Chosen(candidates[..k])
  {
    CheapestArrives(candidates, k);
    ChoiceStays(candidates, k, |candidates|);
    assert candidates[..|candidates|] == candidates;
  }

  /** With a near tie the first name wins, although it is not the cheapest. */
  lemma NearTieIsNotCheapest()
    ensures var dear := Candidate("a", 1.0, None, None);
            var cheap := Candidate("b", 1.0 - EPSILON / 2.0, None, None);
            Ordered([dear, cheap]) && Chosen([dear, cheap]) == Some(dear) && cheap.input < dear.input
  {
    var dear := Candidate("a", 1.0, None, None);
    var cheap := Candidate("b", 1.0 - EPSILON / 2.0, None, None);
    assert [dear, cheap][..1] == [dear];
    assert [dear][..0] == [];
    assert Before("a", "b");
    BeforeIsStrict("a", "b");
    assert Chosen([dear]) == Some(dear);
  }
}

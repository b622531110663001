/** What checks and selections keep, over any sequence of them. */
module UpstreamRuns {
  import opened Wrappers
  import opened Text
  import opened ModelNames
  import opened UpstreamModels

  // ---------------------------------------------------------------- one selection

  lemma SelectionMembers(s: State, sel: Selection)
    requires Normal(s.detected) && Normal(s.removed)
    ensures Normal(Added(s, sel)) && Normal(Ignored(s, sel)) && Normal(Removed(s, sel))
    ensures forall x :: x in Added(s, sel) <==> x in Normalize(sel.add) && x in s.detected
    ensures forall x :: x in Ignored(s, sel) <==> x in Normalize(sel.ignore) && x in s.detected
    ensures forall x :: x in Removed(s, sel) <==>
              x in Normalize(sel.remove) && x in s.removed && x !in Added(s, sel)
  {
    Normalized(s.detected);
    Normalized(s.removed);
    IntersectIsNormal(sel.add, s.detected);
    IntersectIsNormal(sel.ignore, s.detected);
    var candidates := Intersect(sel.remove, s.removed);
    IntersectIsNormal(sel.remove, s.removed);
    Normalized(candidates);
    Normalized(Added(s, sel));
    SubtractIsNormal(candidates, Added(s, sel));
  }

  lemma RulesMembers(rules: seq<string>, ignoring: seq<string>, added: seq<string>)
    requires Normal(ignoring) && Normal(added)
    ensures Normal(Rules(rules, ignoring, added))
    ensures forall x :: x in Rules(rules, ignoring, added) <==>
              (x in Normalize(rules) || x in ignoring) && x !in added
  {
    var merged := Merge(rules, ignoring);
    Normalized(ignoring);
    Normalized(added);
    MergeIsNormal(rules, ignoring);
    Normalized(merged);
    SubtractIsNormal(merged, added);
  }

  lemma SubtractAppended(xs: seq<string>, ys: seq<string>, zs: seq<string>)
    requires Normal(xs) && Normal(ys) && Normal(zs)
    ensures Subtract(xs, ys + zs) == Filter(xs, x => x !in ys && x !in zs)
  {
    Normalized(xs);
    CleanNormal(ys + zs);
    UniqMembers(ys + zs);
    FilterSame(xs, x => x !in Normalize(ys + zs), x => x !in ys && x !in zs);
  }

  /** The channel's lists are normal, what is detected is new and storable, what is to be removed is
      there, and no pending name is ruled out literally. */
  ghost predicate Inv(s: State) {
    && Normal(s.detected) && Normal(s.removed)
    && (forall x :: x in s.detected ==> CommaFree(x) && x !in ModelsOf(s.models))
    && (forall x :: x in s.removed ==> x in ModelsOf(s.models))
    && (forall x :: x in s.detected && x in Normalize(s.ignored) ==> REGEX_PREFIX <= x)
  }

  /** A selection drops its removals, appends its additions, keeps every other model in place, and
      takes exactly the selected names off the pending lists. */
  lemma AppliedSelection(s: State, sel: Selection)
    requires Inv(s)
    ensures var t := AfterApply(s, sel);
            && ModelsOf(t.models) == Filter(ModelsOf(s.models), x => x !in Removed(s, sel)) + Added(s, sel)
            && t.detected == Filter(s.detected, x => x !in Added(s, sel) && x !in Ignored(s, sel))
            && t.removed == Filter(s.removed, x => x !in Removed(s, sel))
  {
    SelectionMembers(s, sel);
    ModelsAreNormal(s.models);
    var origin, add, remove := ModelsOf(s.models), Added(s, sel), Removed(s, sel);
    ApplySelectedOrder(origin, add, remove);
    var next := ApplySelected(origin, add, remove);
    FilterMembers(origin, x => x !in remove);
    assert forall x :: x in next ==> CommaFree(x);
    StoredListReadsBack(next);
    Normalized(s.detected);
    Normalized(s.removed);
    SubtractAppended(s.detected, add, Ignored(s, sel));
    SubtractNormal(s.removed, remove);
  }

  lemma ApplyKeepsInv(s: State, sel: Selection)
    requires Inv(s)
    ensures Inv(AfterApply(s, sel))
  {
    var t := AfterApply(s, sel);
    AppliedSelection(s, sel);
    SelectionMembers(s, sel);
    RulesMembers(s.ignored, Ignored(s, sel), Added(s, sel));
    Normalized(t.ignored);
    FilterMembers(s.detected, x => x !in Added(s, sel) && x !in Ignored(s, sel));
    FilterMembers(s.removed, x => x !in Removed(s, sel));
    FilterMembers(ModelsOf(s.models), x => x !in Removed(s, sel));
  }

  /** Every pending name ends in exactly one place: among the models, among the ignore rules, or still
      pending; and a name pending removal is either gone or still pending. */
  lemma SelectionAccountsForEveryName(s: State, sel: Selection, x: string)
    requires Inv(s)
    ensures var t := AfterApply(s, sel);
            && (x in s.detected && !(REGEX_PREFIX <= x) ==>
                  && (x in ModelsOf(t.models) <==> x in Normalize(sel.add))
                  && (x in t.ignored <==> x !in Normalize(sel.add) && x in Normalize(sel.ignore))
                  && (x in t.detected <==> x !in Normalize(sel.add) && x !in Normalize(sel.ignore)))
            && (x in s.removed ==>
                  && (x in ModelsOf(t.models) <==> x !in Normalize(sel.remove))
                  && (x in t.removed <==> x !in Normalize(sel.remove)))
  {
    AppliedSelection(s, sel);
    SelectionMembers(s, sel);
    RulesMembers(s.ignored, Ignored(s, sel), Added(s, sel));
    FilterMembers(s.detected, x => x !in Added(s, sel) && x !in Ignored(s, sel));
    FilterMembers(s.removed, x => x !in Removed(s, sel));
    FilterMembers(ModelsOf(s.models), x => x !in Removed(s, sel));
  }

  // ---------------------------------------------------------------- one check

  ghost predicate Storable(upstream: seq<string>) {
    forall x :: x in Normalize(upstream) ==> CommaFree(x)
  }

  lemma CheckKeepsInv(s: State, c: Check, context: Context)
    requires Inv(s)
    requires c.fetched.Some? ==> Storable(c.fetched.value)
    ensures Inv(AfterCheck(s, c, context))
  {
    if !TooSoon(s, c) && c.fetched.Some? {
      DetectedFacts(s.models, c.fetched.value, s.ignored, context);
      var d := Offered(s, c, context);
      if AutoApplies(s, c, context) {
        AutoModels(s.models, c.fetched.value, s.ignored, context);
        Normalized([]);
      }
    }
  }

  lemma DetectedFacts(models: string, upstream: seq<string>, ignored: seq<string>, context: Context)
    requires Storable(upstream)
    ensures var d := Detect(GetModels(models), upstream, ignored, context);
            && Normal(d.0) && Normal(d.1)
            && (forall x :: x in d.0 ==> CommaFree(x) && x !in ModelsOf(models))
            && (forall x :: x in d.1 ==> x in ModelsOf(models))
            && (forall x :: x in d.0 && x in Normalize(ignored) ==> REGEX_PREFIX <= x)
  {
    DetectIsNormal(GetModels(models), upstream, ignored, context);
    FilterMembers(Normalize(upstream), x => Missing(x, ModelsOf(models), Normalize(ignored), context));
    FilterMembers(ModelsOf(models), x => Stale(x, Normalize(upstream), context));
    forall x | x in Detect(GetModels(models), upstream, ignored, context).0 && x in Normalize(ignored)
      ensures REGEX_PREFIX <= x
    {
      assert !RuleMatches(x, x, context.regex);
    }
  }

  /** Automatic synchronization appends every detected name. */
  lemma AutoModels(models: string, upstream: seq<string>, ignored: seq<string>, context: Context)
    requires Storable(upstream)
    ensures var add := Detect(GetModels(models), upstream, ignored, context).0;
            ModelsOf(Join(Merge(ModelsOf(models), add), ',')) == ModelsOf(models) + add
  {
    var add := Detect(GetModels(models), upstream, ignored, context).0;
    AutoMerge(models, upstream, ignored, context);
    DetectedFacts(models, upstream, ignored, context);
    ModelsAreNormal(models);
    MergeIsNormal(ModelsOf(models), add);
    StoredListReadsBack(ModelsOf(models) + add);
  }

  /** A name the upstream offers: listed there, not here, no redirect's target, and ignored by no rule. */
  ghost predicate Offers(s: State, upstream: seq<string>, context: Context, x: string) {
    && x in Normalize(upstream) && x !in ModelsOf(s.models)
    && (forall source :: source in context.mapping ==> context.mapping[source] != x)
    && (forall r :: r in Normalize(s.ignored) && "regex:" <= r ==> !context.regex(TrimSpace(r[6..]), x))
    && (forall r :: r in Normalize(s.ignored) && !("regex:" <= r) ==> r != x)
  }

  /** What a check makes of the channel: nothing too soon after the last one, a new time when the upstream
      cannot be read, and otherwise, name by name, the models, the offered names and the names to remove. */
  lemma CheckRecords(s: State, c: Check, context: Context, x: string)
    requires c.fetched.Some? ==> Storable(c.fetched.value)
    ensures var t := AfterCheck(s, c, context);
            if !c.force && s.lastCheck > 0 && c.now - s.lastCheck < c.minInterval then t == s
            else if c.fetched.None? then t == s.(lastCheck := c.now)
            else
              var automatic, offers := c.allowAutoApply && s.autoSync, Offers(s, c.fetched.value, context, x);
              && t.lastCheck == c.now && t.ignored == s.ignored && t.autoSync == s.autoSync
              && (x in ModelsOf(t.models) <==> x in ModelsOf(s.models) || (automatic && offers))
              && (x in t.detected <==> offers && !automatic)
              && (x in t.removed <==>
                    x in ModelsOf(s.models) && x !in Normalize(c.fetched.value) && x !in context.mapping)
  {
    if !TooSoon(s, c) && c.fetched.Some? {
      DetectedIff(GetModels(s.models), c.fetched.value, s.ignored, context, x);
      if AutoApplies(s, c, context) {
        AutoModels(s.models, c.fetched.value, s.ignored, context);
      }
    }
  }

  // ---------------------------------------------------------------- current pending lists

  /** The stored pending lists are what detecting against `upstream` would report now. */
  ghost predicate Synced(s: State, upstream: seq<string>, context: Context) {
    Detect(GetModels(s.models), upstream, s.ignored, context) == (s.detected, s.removed)
  }

  lemma SyncedFacts(s: State, upstream: seq<string>, context: Context)
    requires Storable(upstream) && Synced(s, upstream, context)
    ensures Inv(s)
    ensures s.detected == PendingAdd(ModelsOf(s.models), Normalize(upstream), Normalize(s.ignored), context)
    ensures s.removed == PendingRemove(ModelsOf(s.models), Normalize(upstream), context)
  {
    DetectedFacts(s.models, upstream, s.ignored, context);
    DetectIsNormal(GetModels(s.models), upstream, s.ignored, context);
  }

  /** A list of names to remove shrinks with the models and ignores what the upstream offers. */
  lemma RemoveAfter(origin: seq<string>, upstream: seq<string>, context: Context, remove: seq<string>, add: seq<string>)
    requires forall x :: x in add ==> x in upstream
    ensures PendingRemove(Filter(origin, x => x !in remove) + add, upstream, context) ==
            Filter(PendingRemove(origin, upstream, context), x => x !in remove)
  {
    var stale := (x: string) => Stale(x, upstream, context);
    var kept := (x: string) => x !in remove;
    FilterConcat(Filter(origin, kept), add, stale);
    FilterNone(add, stale);
    FilterSwap(origin, kept, stale);
    FilterSame(origin, kept, x => x !in remove);
    FilterSame(origin, stale, x => Stale(x, upstream, context));
    FilterSame(Filter(origin, stale), kept, x => x !in remove);
    FilterSame(Filter(origin, kept) + add, stale, x => Stale(x, upstream, context));
  }

  lemma {:induction false} FilterSwap(xs: seq<string>, f: string -> bool, g: string -> bool)
    ensures Filter(Filter(xs, f), g) == Filter(Filter(xs, g), f)
  {
    if xs != [] {
      FilterSwap(xs[1..], f, g);
    }
  }

  lemma {:induction false} FilterNone(xs: seq<string>, keep: string -> bool)
    requires forall x :: x in xs ==> !keep(x)
    ensures Filter(xs, keep) == []
  {
    if xs != [] {
      FilterNone(xs[1..], keep);
    }
  }

  lemma {:induction false} FilterTwice(xs: seq<string>, f: string -> bool, g: string -> bool, h: string -> bool)
    requires forall x :: x in xs ==> h(x) == (f(x) && g(x))
    ensures Filter(Filter(xs, f), g) == Filter(xs, h)
  {
    if xs != [] {
      FilterTwice(xs[1..], f, g, h);
    }
  }

  ghost predicate PlainNames(upstream: seq<string>) {
    forall x :: x in Normalize(upstream) ==> CommaFree(x) && !(REGEX_PREFIX <= x)
  }

  /** The ignore rules after a selection of plain names treat every other name as before. */
  lemma RulesAgree(rules: seq<string>, ignoring: seq<string>, added: seq<string>, x: string, context: Context)
    requires Normal(ignoring) && Normal(added)
    requires forall y :: y in ignoring || y in added ==> !(REGEX_PREFIX <= y)
    requires x !in added
    ensures IgnoredBy(Normalize(Rules(rules, ignoring, added)), x, context.regex) <==>
            x in ignoring || IgnoredBy(Normalize(rules), x, context.regex)
  {
    RulesMembers(rules, ignoring, added);
    var next := Rules(rules, ignoring, added);
    Normalized(next);
    if x in ignoring {
      assert RuleMatches(x, x, context.regex) && x in next;
    }
    if IgnoredBy(Normalize(rules), x, context.regex) {
      var rule :| rule in Normalize(rules) && RuleMatches(rule, x, context.regex);
      assert rule in next;
    }
    if IgnoredBy(next, x, context.regex) {
      var rule :| rule in next && RuleMatches(rule, x, context.regex);
      assert rule in ignoring ==> rule == x;
    }
  }

  /** Whatever the administrator selects, the lists left pending are the ones a fresh detection against
      the same upstream would report. */
  lemma ApplyKeepsSynced(s: State, sel: Selection, upstream: seq<string>, context: Context)
    requires PlainNames(upstream) && Synced(s, upstream, context)
    ensures Synced(AfterApply(s, sel), upstream, context)
  {
    var t := AfterApply(s, sel);
    var origin, up, add, ignoring := ModelsOf(s.models), Normalize(upstream), Added(s, sel), Ignored(s, sel);
    SyncedFacts(s, upstream, context);
    AppliedSelection(s, sel);
    SelectionMembers(s, sel);
    var missing := (x: string) => Missing(x, origin, Normalize(s.ignored), context);
    FilterMembers(up, missing);
    FilterSame(up, missing, x => Missing(x, origin, Normalize(s.ignored), context));
    RemoveAfter(origin, up, context, Removed(s, sel), add);
    forall x | x in up
      ensures Missing(x, ModelsOf(t.models), Normalize(t.ignored), context) <==>
              missing(x) && x !in add && x !in ignoring
    {
      MissingAfter(s, sel, upstream, x, context);
    }
    var left := (x: string) => x !in add && x !in ignoring;
    FilterTwice(up, missing, left, x => Missing(x, ModelsOf(t.models), Normalize(t.ignored), context));
    FilterSame(s.detected, left, x => x !in Added(s, sel) && x !in Ignored(s, sel));
    DetectIsNormal(GetModels(t.models), upstream, t.ignored, context);
  }

  lemma MissingAfter(s: State, sel: Selection, upstream: seq<string>, x: string, context: Context)
    requires PlainNames(upstream) && Synced(s, upstream, context) && x in Normalize(upstream)
    ensures Missing(x, ModelsOf(AfterApply(s, sel).models), Normalize(AfterApply(s, sel).ignored), context) <==>
            && Missing(x, ModelsOf(s.models), Normalize(s.ignored), context)
            && x !in Added(s, sel) && x !in Ignored(s, sel)
  {
    SyncedFacts(s, upstream, context);
    AppliedSelection(s, sel);
    SelectionMembers(s, sel);
    FilterMembers(ModelsOf(s.models), y => y !in Removed(s, sel));
    FilterMembers(ModelsOf(s.models), y => Stale(y, Normalize(upstream), context));
    FilterMembers(Normalize(upstream), y => Missing(y, ModelsOf(s.models), Normalize(s.ignored), context));
    if x !in Added(s, sel) {
      RulesAgree(s.ignored, Ignored(s, sel), Added(s, sel), x, context);
    }
  }

  /** A completed check leaves pending lists that a second detection would report again. */
  lemma CheckSyncs(s: State, c: Check, context: Context)
    requires !TooSoon(s, c) && c.fetched.Some? && Storable(c.fetched.value)
    ensures Synced(AfterCheck(s, c, context), c.fetched.value, context)
  {
    var up := Normalize(c.fetched.value);
    if AutoApplies(s, c, context) {
      var t, origin, add := AfterCheck(s, c, context), ModelsOf(s.models), Offered(s, c, context).0;
      AutoModels(s.models, c.fetched.value, s.ignored, context);
      DetectIsNormal(GetModels(s.models), c.fetched.value, s.ignored, context);
      DetectIsNormal(GetModels(t.models), c.fetched.value, s.ignored, context);
      FilterMembers(up, x => Missing(x, origin, Normalize(s.ignored), context));
      FilterNone(up, x => Missing(x, origin + add, Normalize(s.ignored), context));
      FilterAll(origin, x => x !in []);
      FilterAll(PendingRemove(origin, up, context), x => x !in []);
      RemoveAfter(origin, up, context, [], add);
    }
  }

  // ---------------------------------------------------------------- runs

  datatype Event = Checking(check: Check) | Applying(selection: Selection)

  function Step(s: State, e: Event, context: Context): State {
    match e
    case Checking(c) => AfterCheck(s, c, context)
    case Applying(sel) => AfterApply(s, sel)
  }

  function Run(s: State, events: seq<Event>, context: Context): State
    decreases |events|
  {
    if events == [] then s else Run(Step(s, events[0], context), events[1..], context)
  }

  ghost predicate Fetches(events: seq<Event>, good: seq<string> -> bool) {
    forall e :: e in events && e.Checking? && e.check.fetched.Some? ==> good(e.check.fetched.value)
  }

  lemma {:induction false} RunKeepsInv(s: State, events: seq<Event>, context: Context)
    requires Inv(s) && Fetches(events, u => Storable(u))
    ensures Inv(Run(s, events, context))
    decreases |events|
  {
    if events != [] {
      match events[0] {
        case Checking(c) => CheckKeepsInv(s, c, context);
        case Applying(sel) => ApplyKeepsInv(s, sel);
      }
      RunKeepsInv(Step(s, events[0], context), events[1..], context);
    }
  }

  /** The list the last completed check of a run fetched. */
  function LastUpstream(s: State, events: seq<Event>, context: Context, before: seq<string>): seq<string>
    decreases |events|
  {
    if events == [] then before
    else
      var e := events[0];
      var now := if e.Checking? && !TooSoon(s, e.check) && e.check.fetched.Some? then e.check.fetched.value
                 else before;
      LastUpstream(Step(s, e, context), events[1..], context, now)
  }

  /** Over any run of checks (skipped, failed, automatic or not) and selections, the pending lists stay
      what a fresh detection against the last fetched upstream would report. */
  lemma {:induction false} PendingListsStayCurrent(s: State, events: seq<Event>, context: Context, before: seq<string>)
    requires PlainNames(before) && Synced(s, before, context)
    requires Fetches(events, u => PlainNames(u))
    ensures Synced(Run(s, events, context), LastUpstream(s, events, context, before), context)
    decreases |events|
  {
    if events != [] {
      var now := before;
      match events[0] {
        case Checking(c) =>
          if !TooSoon(s, c) && c.fetched.Some? {
            now := c.fetched.value;
            CheckSyncs(s, c, context);
          }
        case Applying(sel) => ApplyKeepsSynced(s, sel, before, context);
      }
      PendingListsStayCurrent(Step(s, events[0], context), events[1..], context, now);
    }
  }

  // ---------------------------------------------------------------- applying everything

  function Everything(s: State, now: int): Selection {
    Selection(s.detected, [], s.removed, now)
  }

  /** Every ignored upstream name stays ignored when the rules named like pending additions go. */
  ghost predicate RulesSurvive(s: State, upstream: seq<string>, context: Context) {
    forall x :: x in Normalize(upstream) && x !in ModelsOf(s.models) && x !in context.mapping.Values
                && IgnoredBy(Normalize(s.ignored), x, context.regex)
                ==> IgnoredBy(Subtract(s.ignored, s.detected), x, context.regex)
  }

  lemma MissingAfterEverything(s: State, now: int, upstream: seq<string>, x: string, context: Context)
    requires Storable(upstream) && Synced(s, upstream, context) && x in Normalize(upstream)
    ensures var t := AfterApply(s, Everything(s, now));
            Missing(x, ModelsOf(t.models), Normalize(t.ignored), context) <==>
            && x !in ModelsOf(s.models) && x !in context.mapping.Values
            && IgnoredBy(Normalize(s.ignored), x, context.regex)
            && !IgnoredBy(Subtract(s.ignored, s.detected), x, context.regex)
  {
    var sel := Everything(s, now);
    var t := AfterApply(s, sel);
    SyncedFacts(s, upstream, context);
    AppliedSelection(s, sel);
    SelectionMembers(s, sel);
    Normalized(s.detected);
    FilterMembers(ModelsOf(s.models), y => y !in Removed(s, sel));
    FilterMembers(ModelsOf(s.models), y => Stale(y, Normalize(upstream), context));
    FilterMembers(Normalize(upstream), y => Missing(y, ModelsOf(s.models), Normalize(s.ignored), context));
    RulesMembers(s.ignored, Ignored(s, sel), Added(s, sel));
    SubtractIsNormal(s.ignored, s.detected);
    Normalized(t.ignored);
    SameRules(t.ignored, Subtract(s.ignored, s.detected), x, context);
  }

  lemma SameRules(rules: seq<string>, others: seq<string>, x: string, context: Context)
    requires forall r :: r in rules <==> r in others
    ensures IgnoredBy(rules, x, context.regex) == IgnoredBy(others, x, context.regex)
  {
    if IgnoredBy(rules, x, context.regex) {
      var r :| r in rules && RuleMatches(r, x, context.regex);
      assert r in others;
    }
    if IgnoredBy(others, x, context.regex) {
      var r :| r in others && RuleMatches(r, x, context.regex);
      assert r in rules;
    }
  }

  /** After everything pending is applied, detecting again finds nothing, exactly when no rule that was
      needed shares its name with an addition. */
  lemma ApplyingEverythingSettles(s: State, now: int, upstream: seq<string>, context: Context)
    requires Storable(upstream) && Synced(s, upstream, context)
    ensures var t := AfterApply(s, Everything(s, now));
            Detect(GetModels(t.models), upstream, t.ignored, context) == ([], []) <==>
            RulesSurvive(s, upstream, context)
  {
    var sel := Everything(s, now);
    var t, up, origin := AfterApply(s, sel), Normalize(upstream), ModelsOf(s.models);
    SyncedFacts(s, upstream, context);
    AppliedSelection(s, sel);
    SelectionMembers(s, sel);
    Normalized(s.removed);
    DetectIsNormal(GetModels(t.models), upstream, t.ignored, context);
    FilterMembers(up, x => Missing(x, origin, Normalize(s.ignored), context));
    FilterMembers(origin, x => Stale(x, up, context));
    RemoveAfter(origin, up, context, Removed(s, sel), Added(s, sel));
    FilterNone(s.removed, x => x !in Removed(s, sel));
    forall x | x in up
      ensures Missing(x, ModelsOf(t.models), Normalize(t.ignored), context) <==>
              && x !in ModelsOf(s.models) && x !in context.mapping.Values
              && IgnoredBy(Normalize(s.ignored), x, context.regex)
              && !IgnoredBy(Subtract(s.ignored, s.detected), x, context.regex)
    {
      MissingAfterEverything(s, now, upstream, x, context);
    }
    FilterMembers(up, x => Missing(x, ModelsOf(t.models), Normalize(t.ignored), context));
    if RulesSurvive(s, upstream, context) {
      FilterNone(up, x => Missing(x, ModelsOf(t.models), Normalize(t.ignored), context));
    }
  }

  /** So with names that are no patterns, detecting, applying everything and detecting again finds nothing. */
  lemma PlainNamesSettle(s: State, now: int, upstream: seq<string>, context: Context)
    requires PlainNames(upstream) && Synced(s, upstream, context)
    ensures var t := AfterApply(s, Everything(s, now));
            Detect(GetModels(t.models), upstream, t.ignored, context) == ([], [])
  {
    SyncedFacts(s, upstream, context);
    Normalized(s.detected);
    SubtractIsNormal(s.ignored, s.detected);
    FilterMembers(Normalize(upstream), x => Missing(x, ModelsOf(s.models), Normalize(s.ignored), context));
    forall x | IgnoredBy(Normalize(s.ignored), x, context.regex)
      ensures IgnoredBy(Subtract(s.ignored, s.detected), x, context.regex)
    {
      SameRules(Normalize(s.ignored), Subtract(s.ignored, s.detected), x, context);
    }
    ApplyingEverythingSettles(s, now, upstream, context);
  }

  /** A pending model spelled like the pattern rule that hides another name takes that rule with it. */
  lemma PatternNamedModel(context: Context, now: int, hidden: string, rule: string)
    requires Normal([hidden, rule]) && CommaFree(hidden) && CommaFree(rule) && REGEX_PREFIX <= rule
    requires context.mapping == map[]
    requires RuleMatches(rule, hidden, context.regex) && !RuleMatches(rule, rule, context.regex)
    ensures var s := State("", [rule], [], [rule], 0, false);
            var t := AfterApply(s, Everything(s, now));
            && Synced(s, [hidden, rule], context)
            && Detect(GetModels(t.models), [hidden, rule], t.ignored, context) != ([], [])
  {
    var s := State("", [rule], [], [rule], 0, false);
    SyncedToRule(context, hidden, rule);
    Normalized([hidden, rule]);
    assert [hidden, rule][0] == hidden && [hidden, rule][1] == rule;
    RuleDrops(context, hidden, rule);
    ApplyingEverythingSettles(s, now, [hidden, rule], context);
  }

  lemma RuleDrops(context: Context, hidden: string, rule: string)
    requires Normal([rule]) && RuleMatches(rule, hidden, context.regex)
    ensures IgnoredBy(Normalize([rule]), hidden, context.regex)
    ensures !IgnoredBy(Subtract([rule], [rule]), hidden, context.regex)
  {
    Normalized([rule]);
    SubtractIsNormal([rule], [rule]);
    assert [rule][0] == rule;
  }

  lemma SyncedToRule(context: Context, hidden: string, rule: string)
    requires Normal([hidden, rule]) && context.mapping == map[]
    requires RuleMatches(rule, hidden, context.regex) && !RuleMatches(rule, rule, context.regex)
    ensures Synced(State("", [rule], [], [rule], 0, false), [hidden, rule], context)
    ensures Normal([rule])
  {
    assert [hidden, rule][0] == hidden && [hidden, rule][1] == rule;
    Normalized([hidden, rule]);
    Normalized([rule]);
    DetectIsNormal([], [hidden, rule], [rule], context);
    FilteredToRule(context, hidden, rule);
  }

  lemma FilteredToRule(context: Context, hidden: string, rule: string)
    requires hidden != rule && context.mapping == map[]
    requires RuleMatches(rule, hidden, context.regex) && !RuleMatches(rule, rule, context.regex)
    ensures PendingAdd([], [hidden, rule], [rule], context) == [rule]
    ensures PendingRemove([], [hidden, rule], context) == []
  {
    var missing := (x: string) => Missing(x, [], [rule], context);
    FilterSame([hidden, rule], missing, x => Missing(x, [], [rule], context));
    assert [rule][0] == rule;
    assert !missing(hidden) && missing(rule);
    assert [hidden, rule][1..] == [rule] && [rule][1..] == [];
    assert Filter([rule][1..], missing) == [];
    assert Filter([rule], missing) == [rule];
  }

  lemma PatternNamedModelUnsettles(context: Context, now: int)
    requires context.mapping == map[] && context.regex("^b", "b") && !context.regex("^b", "regex:^b")
    ensures var s := State("", ["regex:^b"], [], ["regex:^b"], 0, false);
            var t := AfterApply(s, Everything(s, now));
            && Synced(s, ["b", "regex:^b"], context)
            && Detect(GetModels(t.models), ["b", "regex:^b"], t.ignored, context) != ([], [])
  {
    var rule := "regex:^b";
    assert |rule| == 8 && |"b"| == 1;
    assert rule[|REGEX_PREFIX|..] == "^b";
    PatternNamedModel(context, now, "b", rule);
  }
}

/** A channel's model list and its upstream: detecting what is missing or stale, and applying an
    administrator's selection to the stored models and to the ignore list. */
module UpstreamModels {
  import opened Wrappers
  import opened Text
  import opened Sequences
  import opened ModelNames

  const REGEX_PREFIX := "regex:"

  /** The channel's model mapping, and regular-expression matching (false on a bad pattern). */
  datatype Context = Context(mapping: map<string, string>, regex: (string, string) -> bool)

  predicate RuleMatches(rule: string, name: string, regex: (string, string) -> bool) {
    if REGEX_PREFIX <= rule then regex(TrimSpace(rule[|REGEX_PREFIX|..]), name) else rule == name
  }

  predicate IgnoredBy(rules: seq<string>, name: string, regex: (string, string) -> bool) {
    exists rule :: rule in rules && RuleMatches(rule, name, regex)
  }

  predicate Missing(name: string, local: seq<string>, rules: seq<string>, context: Context) {
    name !in local && name !in context.mapping.Values && !IgnoredBy(rules, name, context.regex)
  }

  /** Redirect sources are aliases that no upstream lists. */
  predicate Stale(name: string, upstream: seq<string>, context: Context) {
    name !in context.mapping.Keys && name !in upstream
  }

  function PendingAdd(local: seq<string>, upstream: seq<string>, rules: seq<string>, context: Context): seq<string> {
    Filter(upstream, x => Missing(x, local, rules, context))
  }

  function PendingRemove(local: seq<string>, upstream: seq<string>, context: Context): seq<string> {
    Filter(local, x => Stale(x, upstream, context))
  }

  /** `collectPendingUpstreamModelChangesFromModels`. */
  function Detect(local: seq<string>, upstream: seq<string>, ignored: seq<string>, context: Context)
    : (seq<string>, seq<string>)
  {
    (Normalize(PendingAdd(Normalize(local), Normalize(upstream), Normalize(ignored), context)),
     Normalize(PendingRemove(Normalize(local), Normalize(upstream), context)))
  }

  /** What the detector reports needs no further normalization. */
  lemma DetectIsNormal(local: seq<string>, upstream: seq<string>, ignored: seq<string>, context: Context)
    ensures var d := Detect(local, upstream, ignored, context);
            && Normal(d.0) && Normal(d.1)
            && d.0 == PendingAdd(Normalize(local), Normalize(upstream), Normalize(ignored), context)
            && d.1 == PendingRemove(Normalize(local), Normalize(upstream), context)
  {
    Normalized(local);
    Normalized(upstream);
    var add := PendingAdd(Normalize(local), Normalize(upstream), Normalize(ignored), context);
    var remove := PendingRemove(Normalize(local), Normalize(upstream), context);
    FilterMembers(Normalize(upstream), x => Missing(x, Normalize(local), Normalize(ignored), context));
    FilterMembers(Normalize(local), x => Stale(x, Normalize(upstream), context));
    Normalized(add);
    Normalized(remove);
  }

  /** Who is reported. To add: a name the upstream lists, the channel does not, no redirect leads to, and no
      rule ignores, by name or, after "regex:", by pattern. To remove: a name of the channel that the
      upstream does not list and that is no redirect's source. */
  lemma DetectedIff(local: seq<string>, upstream: seq<string>, ignored: seq<string>, context: Context, x: string)
    ensures var d, rules := Detect(local, upstream, ignored, context), Normalize(ignored);
            && (x in d.0 <==>
                  && x in Normalize(upstream) && x !in Normalize(local)
                  && (forall source :: source in context.mapping ==> context.mapping[source] != x)
                  && (forall r :: r in rules && "regex:" <= r ==> !context.regex(TrimSpace(r[6..]), x))
                  && (forall r :: r in rules && !("regex:" <= r) ==> r != x))
            && (x in d.1 <==> x in Normalize(local) && x !in Normalize(upstream) && x !in context.mapping)
  {
    DetectIsNormal(local, upstream, ignored, context);
    FilterMembers(Normalize(upstream), x => Missing(x, Normalize(local), Normalize(ignored), context));
    FilterMembers(Normalize(local), x => Stale(x, Normalize(upstream), context));
  }

  /** Both lists keep the order of the list they are taken from. */
  lemma DetectedOrder(local: seq<string>, upstream: seq<string>, ignored: seq<string>, context: Context)
    ensures var d := Detect(local, upstream, ignored, context);
            Subseq(d.0, Normalize(upstream)) && Subseq(d.1, Normalize(local))
  {
    DetectIsNormal(local, upstream, ignored, context);
    FilterSubseq(Normalize(upstream), x => Missing(x, Normalize(local), Normalize(ignored), context));
    FilterSubseq(Normalize(local), x => Stale(x, Normalize(upstream), context));
  }

  /** Merging the detected names appends all of them. */
  lemma AutoMerge(models: string, upstream: seq<string>, ignored: seq<string>, context: Context)
    ensures var add := Detect(GetModels(models), upstream, ignored, context).0;
            Merge(ModelsOf(models), add) == ModelsOf(models) + add
  {
    DetectIsNormal(GetModels(models), upstream, ignored, context);
    Normalized(GetModels(models));
    var origin, add := ModelsOf(models), Detect(GetModels(models), upstream, ignored, context).0;
    Normalized(origin);
    Normalized(add);
    FilterMembers(Normalize(upstream), x => Missing(x, origin, Normalize(ignored), context));
    FilterAll(add, x => x !in origin);
  }

  // ---------------------------------------------------------------- the channel

  datatype State = State(
    models: string,
    detected: seq<string>,
    removed: seq<string>,
    ignored: seq<string>,
    lastCheck: int,
    autoSync: bool)

  datatype CheckResult = Skipped | FetchFailed | Checked(modelsChanged: bool, autoAdded: nat)

  datatype Check = Check(now: int, minInterval: int, force: bool, allowAutoApply: bool,
                         fetched: Option<seq<string>>)

  datatype Selection = Selection(add: seq<string>, ignore: seq<string>, remove: seq<string>, now: int)

  predicate TooSoon(s: State, c: Check) {
    !c.force && s.lastCheck > 0 && c.now - s.lastCheck < c.minInterval
  }

  /** What a fetched list means for the channel: names to add and names to remove. */
  function Offered(s: State, c: Check, context: Context): (seq<string>, seq<string>)
    requires c.fetched.Some?
  {
    Detect(GetModels(s.models), c.fetched.value, s.ignored, context)
  }

  predicate AutoApplies(s: State, c: Check, context: Context)
    requires c.fetched.Some?
  {
    c.allowAutoApply && s.autoSync && Offered(s, c, context).0 != []
  }

  /** The channel after `checkAndPersistChannelUpstreamModelUpdates`. */
  function AfterCheck(s: State, c: Check, context: Context): State {
    if TooSoon(s, c) then s
    else if c.fetched.None? then s.(lastCheck := c.now)
    else
      var d := Offered(s, c, context);
      if AutoApplies(s, c, context) then
        s.(models := Join(Merge(ModelsOf(s.models), d.0), ','), detected := [], removed := d.1, lastCheck := c.now)
      else
        s.(detected := d.0, removed := d.1, lastCheck := c.now)
  }

  function Added(s: State, sel: Selection): seq<string> {
    Intersect(sel.add, Normalize(s.detected))
  }

  function Ignored(s: State, sel: Selection): seq<string> {
    Intersect(sel.ignore, Normalize(s.detected))
  }

  function Removed(s: State, sel: Selection): seq<string> {
    Subtract(Intersect(sel.remove, Normalize(s.removed)), Added(s, sel))
  }

  function Rules(rules: seq<string>, ignoring: seq<string>, added: seq<string>): seq<string> {
    if added != [] then Subtract(Merge(rules, ignoring), added) else Merge(rules, ignoring)
  }

  /** The channel after `applyChannelUpstreamModelUpdates`. */
  function AfterApply(s: State, sel: Selection): State {
    var next := ApplySelected(ModelsOf(s.models), Added(s, sel), Removed(s, sel));
    State(
      if next != ModelsOf(s.models) then Join(next, ',') else s.models,
      Subtract(Normalize(s.detected), Added(s, sel) + Ignored(s, sel)),
      Subtract(Normalize(s.removed), Removed(s, sel)),
      Rules(s.ignored, Ignored(s, sel), Added(s, sel)),
      sel.now,
      s.autoSync)
  }

  class Channel {
    var models: string
    var detected: seq<string>
    var removed: seq<string>
    var ignored: seq<string>
    var lastCheck: int
    var autoSync: bool
    const context: Context

    function Current(): State
      reads this
    {
      State(models, detected, removed, ignored, lastCheck, autoSync)
    }

    constructor (initial: State, context: Context)
      ensures Current() == initial && this.context == context
    {
      models, detected, removed := initial.models, initial.detected, initial.removed;
      ignored, lastCheck, autoSync := initial.ignored, initial.lastCheck, initial.autoSync;
      this.context := context;
    }

    /** Records what the upstream offers, adding it at once when automatic synchronization is on. */
    method CheckUpstream(c: Check) returns (result: CheckResult)
      modifies this
      ensures Current() == AfterCheck(old(Current()), c, context)
      ensures result.Skipped? <==> TooSoon(old(Current()), c)
      ensures result.FetchFailed? <==> !TooSoon(old(Current()), c) && c.fetched.None?
      ensures result.Checked? ==>
                && result.modelsChanged == AutoApplies(old(Current()), c, context)
                && result.autoAdded == if result.modelsChanged then |Offered(old(Current()), c, context).0| else 0
    {
      if !c.force && lastCheck > 0 && c.now - lastCheck < c.minInterval {
        return Skipped;
      }
      lastCheck := c.now;
      if c.fetched.None? {
        return FetchFailed;
      }
      var pending := Detect(GetModels(models), c.fetched.value, ignored, context);
      AutoMerge(models, c.fetched.value, ignored, context);
      result := Checked(false, 0);
      if c.allowAutoApply && autoSync && pending.0 != [] {
        var origin := Normalize(GetModels(models));
        var merged := MergeModelNames(origin, pending.0);
        if |merged| > |origin| {
          models := Join(merged, ',');
          result := Checked(true, |merged| - |origin|);
        }
        detected := [];
      } else {
        detected := pending.0;
      }
      removed := pending.1;
    }

    /** Ignored names join the rules; added names leave them. */
    static method UpdateRules(rules: seq<string>, ignoring: seq<string>, added: seq<string>)
      returns (next: seq<string>)
      ensures next == Rules(rules, ignoring, added)
    {
      next := MergeModelNames(rules, ignoring);
      if |added| > 0 {
        next := Subtract(next, added);
      }
    }

    /** Applies a selection; names that are not pending are passed over. */
    method ApplyUpdates(sel: Selection)
      returns (added: seq<string>, dropped: seq<string>, remaining: seq<string>, remainingRemove: seq<string>,
               modelsChanged: bool)
      modifies this
      ensures Current() == AfterApply(old(Current()), sel)
      ensures added == Added(old(Current()), sel) && dropped == Removed(old(Current()), sel)
      ensures remaining == detected && remainingRemove == removed
      ensures modelsChanged <==> ModelsOf(old(models)) != ApplySelected(ModelsOf(old(models)), added, dropped)
    {
      var pendingAdd, pendingRemove := Normalize(detected), Normalize(removed);
      added := Intersect(sel.add, pendingAdd);
      var ignoring := Intersect(sel.ignore, pendingAdd);
      dropped := Intersect(sel.remove, pendingRemove);
      dropped := Subtract(dropped, added);
      var origin := Normalize(GetModels(models));
      var next := ApplySelected(origin, added, dropped);
      modelsChanged := origin != next;
      if modelsChanged {
        models := Join(next, ',');
      }
      ignored := UpdateRules(ignored, ignoring, added);
      remaining := Subtract(pendingAdd, added + ignoring);
      remainingRemove := Subtract(pendingRemove, dropped);
      detected, removed, lastCheck := remaining, remainingRemove, sel.now;
    }
  }
}

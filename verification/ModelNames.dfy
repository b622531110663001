/** Ordered lists of model names: normalization, the order-preserving set operations, and the
    comma-separated form a channel stores. */
module ModelNames {
  import opened Sequences
  import opened Text

  // ---------------------------------------------------------------- filtering

  function Filter(xs: seq<string>, keep: string -> bool): seq<string> {
    if xs == [] then []
    else if keep(xs[0]) then [xs[0]] + Filter(xs[1..], keep)
    else Filter(xs[1..], keep)
  }

  lemma {:induction false} FilterMembers(xs: seq<string>, keep: string -> bool)
    ensures forall x :: x in Filter(xs, keep) <==> x in xs && keep(x)
    ensures Distinct(xs) ==> Distinct(Filter(xs, keep))
  {
    if xs != [] {
      FilterMembers(xs[1..], keep);
      assert Distinct(xs) ==> xs[0] !in xs[1..];
      assert xs == [xs[0]] + xs[1..];
    }
  }

  lemma {:induction false} FilterSubseq(xs: seq<string>, keep: string -> bool)
    ensures Subseq(Filter(xs, keep), xs)
  {
    if xs == [] {
      SubseqSame(xs);
    } else {
      FilterSubseq(xs[1..], keep);
      SubseqPrepend(Filter(xs[1..], keep), xs[1..], xs[0]);
      assert [xs[0]] + xs[1..] == xs;
    }
  }

  lemma {:induction false} FilterSame(xs: seq<string>, f: string -> bool, g: string -> bool)
    requires forall x :: x in xs ==> f(x) == g(x)
    ensures Filter(xs, f) == Filter(xs, g)
  {
    if xs != [] {
      FilterSame(xs[1..], f, g);
    }
  }

  lemma {:induction false} FilterAll(xs: seq<string>, keep: string -> bool)
    requires forall x :: x in xs ==> keep(x)
    ensures Filter(xs, keep) == xs
  {
    if xs != [] {
      FilterAll(xs[1..], keep);
    }
  }

  lemma {:induction false} FilterConcat(xs: seq<string>, ys: seq<string>, keep: string -> bool)
    ensures Filter(xs + ys, keep) == Filter(xs, keep) + Filter(ys, keep)
  {
    if xs == [] {
      assert xs + ys == ys;
    } else {
      FilterConcat(xs[1..], ys, keep);
      assert (xs + ys)[1..] == xs[1..] + ys;
    }
  }

  // ---------------------------------------------------------------- normalization

  /** Trimmed names, blank ones dropped. */
  function Clean(names: seq<string>): seq<string> {
    if names == [] then []
    else if TrimSpace(names[0]) == "" then Clean(names[1..])
    else [TrimSpace(names[0])] + Clean(names[1..])
  }

  /** First occurrences only. */
  function Uniq(xs: seq<string>): seq<string> {
    if xs == [] then []
    else
      var front := Uniq(xs[..|xs| - 1]);
      if xs[|xs| - 1] in front then front else front + [xs[|xs| - 1]]
  }

  /** `normalizeModelNames`. */
  function Normalize(names: seq<string>): seq<string> {
    Uniq(Clean(names))
  }

  /** Duplicate-free, trimmed and without empty names: the fixed points of normalization. */
  ghost predicate Normal(xs: seq<string>) {
    Distinct(xs) && forall x :: x in xs ==> x != "" && Trimmed(x)
  }

  lemma {:induction false} CleanMembers(names: seq<string>)
    ensures forall y :: y in Clean(names) ==> y != "" && Trimmed(y) && exists x :: x in names && TrimSpace(x) == y
  {
    if names != [] {
      CleanMembers(names[1..]);
      assert names[0] in names;
      assert forall x :: x in names[1..] ==> x in names;
    }
  }

  lemma {:induction false} UniqMembers(xs: seq<string>)
    ensures Distinct(Uniq(xs))
    ensures forall x :: x in Uniq(xs) <==> x in xs
  {
    if xs != [] {
      UniqMembers(xs[..|xs| - 1]);
      assert xs == xs[..|xs| - 1] + [xs[|xs| - 1]];
    }
  }

  lemma {:induction false} UniqDistinct(xs: seq<string>)
    requires Distinct(xs)
    ensures Uniq(xs) == xs
  {
    if xs != [] {
      var front := xs[..|xs| - 1];
      UniqDistinct(front);
      assert xs == front + [xs[|xs| - 1]];
    }
  }

  lemma {:induction false} CleanNormal(xs: seq<string>)
    requires forall x :: x in xs ==> x != "" && Trimmed(x)
    ensures Clean(xs) == xs
  {
    if xs != [] {
      assert forall x :: x in xs[1..] ==> x in xs;
      assert xs[0] in xs;
      CleanNormal(xs[1..]);
    }
  }

  lemma {:induction false} CleanKeeps(names: seq<string>, x: string)
    requires x in names && TrimSpace(x) != ""
    ensures TrimSpace(x) in Clean(names)
  {
    if names[0] != x {
      CleanKeeps(names[1..], x);
    }
  }

  /** The members of a normalized list: the names themselves, trimmed, except blank ones. */
  lemma NormalizeMembers(names: seq<string>, y: string)
    ensures y in Normalize(names) <==> y != "" && exists x :: x in names && TrimSpace(x) == y
  {
    CleanMembers(names);
    UniqMembers(Clean(names));
    if x :| x in names && TrimSpace(x) == y && y != "" {
      CleanKeeps(names, x);
    }
  }

  lemma {:induction false} CleanConcat(xs: seq<string>, ys: seq<string>)
    ensures Clean(xs + ys) == Clean(xs) + Clean(ys)
  {
    if xs == [] {
      assert xs + ys == ys;
    } else {
      CleanConcat(xs[1..], ys);
      assert (xs + ys)[1..] == xs[1..] + ys && (xs + ys)[0] == xs[0];
    }
  }

  lemma {:induction false} UniqPrefix(xs: seq<string>, ys: seq<string>)
    ensures Uniq(xs) <= Uniq(xs + ys)
  {
    if ys == [] {
      assert xs + ys == xs;
    } else {
      UniqPrefix(xs, ys[..|ys| - 1]);
      assert (xs + ys)[..|xs + ys| - 1] == xs + ys[..|ys| - 1];
    }
  }

  /** Names keep the place of their first occurrence: more names at the end only append. */
  lemma NormalizeAppends(xs: seq<string>, ys: seq<string>)
    ensures Normalize(xs) <= Normalize(xs + ys)
  {
    CleanConcat(xs, ys);
    UniqPrefix(Clean(xs), Clean(ys));
  }

  /** Normalizing yields a normal list, and leaves a normal list as it is. */
  lemma Normalized(names: seq<string>)
    ensures Normal(Normalize(names))
    ensures Normal(names) ==> Normalize(names) == names
  {
    CleanMembers(names);
    UniqMembers(Clean(names));
    if Normal(names) {
      CleanNormal(names);
      UniqDistinct(names);
    }
  }

  // ---------------------------------------------------------------- set operations

  /** A list followed by what it does not contain yet. */
  function Extend(front: seq<string>, back: seq<string>): seq<string> {
    front + Filter(back, x => x !in front)
  }

  lemma ExtendStep(front: seq<string>, done: seq<string>, x: string)
    requires x !in done
    ensures Extend(front, done + [x]) ==
            if x in Extend(front, done) then Extend(front, done) else Extend(front, done) + [x]
  {
    var keep := (y: string) => y !in front;
    FilterSame(done, keep, y => y !in front);
    FilterSame(done + [x], keep, y => y !in front);
    FilterConcat(done, [x], keep);
    FilterMembers(done, keep);
    assert Filter([x][1..], keep) == [];
  }

  /** `mergeModelNames`. */
  function Merge(base: seq<string>, appended: seq<string>): seq<string> {
    Extend(Normalize(base), Normalize(appended))
  }

  method MergeModelNames(base: seq<string>, appended: seq<string>) returns (merged: seq<string>)
    ensures merged == Merge(base, appended)
  {
    var normalized := Normalize(base);
    var seen := SeenIn(normalized);
    Normalized(appended);
    merged := AppendUnseen(normalized, seen, Normalize(appended));
  }

  /** The second loop of `mergeModelNames`, with the set of names already seen. */
  method AppendUnseen(front: seq<string>, known: set<string>, back: seq<string>) returns (merged: seq<string>)
    requires forall x :: x in known <==> x in front
    requires Distinct(back)
    ensures merged == Extend(front, back)
  {
    merged := front;
    var seen := known;
    for i := 0 to |back|
      invariant merged == Extend(front, back[..i])
      invariant forall x :: x in seen <==> x in merged
    {
      assert back[..i + 1] == back[..i] + [back[i]];
      ExtendStep(front, back[..i], back[i]);
      if back[i] !in seen {
        seen := seen + {back[i]};
        merged := merged + [back[i]];
      }
    }
    assert back[..|back|] == back;
  }

  method SeenIn(names: seq<string>) returns (seen: set<string>)
    ensures forall x :: x in seen <==> x in names
  {
    seen := {};
    for i := 0 to |names|
      invariant forall x :: x in seen <==> x in names[..i]
    {
      seen := seen + {names[i]};
      assert names[..i + 1] == names[..i] + [names[i]];
    }
    assert names[..|names|] == names;
  }

  /** `subtractModelNames`. */
  function Subtract(base: seq<string>, removed: seq<string>): seq<string> {
    Filter(Normalize(base), x => x !in Normalize(removed))
  }

  /** `intersectModelNames`. */
  function Intersect(base: seq<string>, allowed: seq<string>): seq<string> {
    Filter(Normalize(base), x => x in Normalize(allowed))
  }

  lemma MergeIsNormal(base: seq<string>, appended: seq<string>)
    ensures Normal(Merge(base, appended))
    ensures forall x :: x in Merge(base, appended) <==> x in Normalize(base) || x in Normalize(appended)
  {
    Normalized(base);
    Normalized(appended);
    var front, back := Normalize(base), Filter(Normalize(appended), x => x !in Normalize(base));
    FilterMembers(Normalize(appended), x => x !in Normalize(base));
    forall i, j | 0 <= i < j < |front + back|
      ensures (front + back)[i] != (front + back)[j]
    {
      if i < |front| <= j {
        assert back[j - |front|] in back;
      }
    }
  }

  lemma SubtractIsNormal(base: seq<string>, removed: seq<string>)
    ensures Normal(Subtract(base, removed))
    ensures forall x :: x in Subtract(base, removed) <==> x in Normalize(base) && x !in Normalize(removed)
  {
    Normalized(base);
    FilterMembers(Normalize(base), x => x !in Normalize(removed));
  }

  lemma IntersectIsNormal(base: seq<string>, allowed: seq<string>)
    ensures Normal(Intersect(base, allowed))
    ensures forall x :: x in Intersect(base, allowed) <==> x in Normalize(base) && x in Normalize(allowed)
  {
    Normalized(base);
    FilterMembers(Normalize(base), x => x in Normalize(allowed));
  }

  /** `applySelectedModelChanges`: additions win over removals. */
  function ApplySelected(origin: seq<string>, add: seq<string>, remove: seq<string>): seq<string> {
    var normalizedAdd := Normalize(add);
    var normalizedRemove := Subtract(Normalize(remove), normalizedAdd);
    Subtract(Merge(origin, normalizedAdd), normalizedRemove)
  }

  /** Survivors keep their order and new names follow in theirs. */
  lemma ApplySelectedOrder(origin: seq<string>, add: seq<string>, remove: seq<string>)
    requires Normal(origin) && Normal(add) && Normal(remove)
    requires forall x :: x in add ==> x !in origin && x !in remove
    ensures ApplySelected(origin, add, remove) == Filter(origin, x => x !in remove) + add
    ensures Normal(ApplySelected(origin, add, remove))
  {
    Normalized(origin);
    Normalized(add);
    Normalized(remove);
    FilterAll(remove, x => x !in add);
    SubtractNormal(remove, add);
    FilterAll(add, x => x !in origin);
    FilterSame(add, x => x !in Normalize(origin), x => x !in origin);
    assert Merge(origin, add) == origin + add;
    MergeIsNormal(origin, add);
    SubtractIsNormal(origin + add, remove);
    SubtractNormal(origin + add, remove);
    FilterConcat(origin, add, x => x !in remove);
    FilterAll(add, x => x !in remove);
  }

  lemma SubtractNormal(xs: seq<string>, ys: seq<string>)
    requires Normal(xs) && Normal(ys)
    ensures Subtract(xs, ys) == Filter(xs, x => x !in ys)
  {
    Normalized(xs);
    Normalized(ys);
    FilterSame(xs, x => x !in Normalize(ys), x => x !in ys);
  }

  // ---------------------------------------------------------------- the stored form

  predicate CommaFree(s: string) {
    Without(s, ',')
  }

  /** `Channel.GetModels`. */
  function GetModels(models: string): seq<string> {
    if models == "" then [] else Split(TrimChar(models, ','), ',')
  }

  /** Storing and reading back a list of comma-free names is the identity. */
  lemma GetModelsJoin(names: seq<string>)
    requires forall x :: x in names ==> x != "" && CommaFree(x)
    ensures GetModels(Join(names, ',')) == names
  {
    if names != [] {
      assert forall i :: 0 <= i < |names| ==> names[i] in names;
      JoinTrimSplit(names, ',');
      JoinFirst(names, ',');
    }
  }

  /** The models of a channel, as every operation reads them. */
  function ModelsOf(models: string): seq<string> {
    Normalize(GetModels(models))
  }

  lemma ModelsAreNormal(models: string)
    ensures Normal(ModelsOf(models))
    ensures forall x :: x in ModelsOf(models) ==> CommaFree(x)
  {
    Normalized(GetModels(models));
    CleanMembers(GetModels(models));
    UniqMembers(Clean(GetModels(models)));
    forall y | y in ModelsOf(models)
      ensures CommaFree(y)
    {
      var x :| x in GetModels(models) && TrimSpace(x) == y;
      TrimKeepsWithout(x, ',');
    }
  }

  /** A normal list reads back as it was stored exactly when no name contains the separator. */
  lemma StoredListReadsBack(names: seq<string>)
    requires Normal(names)
    ensures ModelsOf(Join(names, ',')) == names <==> forall x :: x in names ==> CommaFree(x)
  {
    if forall x :: x in names ==> CommaFree(x) {
      GetModelsJoin(names);
      Normalized(names);
    } else {
      ModelsAreNormal(Join(names, ','));
    }
  }
}

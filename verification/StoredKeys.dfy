/** The key-management actions on the stored row: when the text that is written reads back as the keys that
    are left, and what that means for every sequence of actions. */
module StoredKeys {
  import opened Wrappers
  import opened Sequences
  import opened Text
  import opened ChannelKeys
  import opened MultiKey
  import opened MultiKeyRuns

  /** The stored count is right and every map speaks of existing keys only. */
  ghost predicate Counted(r: Row, parse: ArrayParser) {
    && r.size == |ParseKeys(r.key, parse)| && (r.key == "" || r.size > 0)
    && Below(r.status, r.size) && Below(r.time, r.size) && Below(r.reason, r.size)
  }

  /** The row after an action is counted and holds the cells the action means. */
  ghost predicate Follows(r: Row, action: Action, parse: ArrayParser) {
    var next := AfterAction(r, action, parse);
    Counted(next, parse) && RowCells(next, parse) == Act(RowCells(r, parse), action)
  }

  // ---------------------------------------------------------------- one action

  /** What storing writes: a new text unless it is empty, the number of its keys, the statuses below that
      number, and the times and reasons as they are. */
  lemma SavedRow(r: Row, key: string, status: map<int, int>, time: map<int, int>, reason: map<int, string>,
                 parse: ArrayParser)
    ensures var t := Saved(r, key, status, time, reason, parse);
            && t.key == (if key == "" then r.key else key) && t.size == |CountedKeys(t.key, parse)|
            && t.time == time && t.reason == reason
            && (forall i :: i in t.status <==> i in status && i < t.size)
            && (forall i :: i in t.status ==> t.status[i] == status[i])
  {
  }

  lemma SavedInPlace(r: Row, status: map<int, int>, time: map<int, int>, reason: map<int, string>, parse: ArrayParser)
    requires Counted(r, parse) && Below(status, r.size) && Below(time, r.size) && Below(reason, r.size)
    ensures Saved(r, r.key, status, time, reason, parse) == Row(r.key, r.size, status, time, reason)
    ensures Counted(Saved(r, r.key, status, time, reason, parse), parse)
  {
    CountAgrees(r.key, parse);
    assert status == map i | i in status && i < r.size :: status[i];
  }

  lemma CellsReadBack(cells: seq<Cell>)
    ensures CellsOf(KeysOf(cells), StatusOf(cells), TimeOf(cells), ReasonOf(cells)) == cells
    ensures Below(StatusOf(cells), |cells|) && Below(TimeOf(cells), |cells|) && Below(ReasonOf(cells), |cells|)
  {
    forall i
      ensures StatusAt(StatusOf(cells), i) == if 0 <= i < |cells| then cells[i].status else ENABLED
      ensures Lookup(TimeOf(cells), i) == if 0 <= i < |cells| then cells[i].time else None
      ensures Lookup(ReasonOf(cells), i) == if 0 <= i < |cells| then cells[i].reason else None
      ensures i in StatusOf(cells) || i in TimeOf(cells) || i in ReasonOf(cells) ==> 0 <= i < |cells|
    {
      MapsAt(cells, i);
    }
  }

  /** A rewritten row holds the cells it was written from exactly when their keys read back. */
  lemma RewrittenFollows(r: Row, left: seq<Cell>, parse: ArrayParser)
    requires Counted(r, parse) && left != [] && |left| < r.size
    ensures var next := Rewritten(r, left, parse);
            Counted(next, parse) && RowCells(next, parse) == left <==> ReadsBack(KeysOf(left), parse)
  {
    var next, keys := Rewritten(r, left, parse), KeysOf(left);
    CellsReadBack(left);
    if ReadsBack(keys, parse) {
      CountAgrees(KeyText(keys), parse);
      assert next.status == StatusOf(left);
    } else {
      assert RowCells(next, parse) == left ==> ParseKeys(next.key, parse) == keys by {
        KeysOfCells(next, parse);
      }
    }
  }

  lemma KeysOfCells(r: Row, parse: ArrayParser)
    ensures KeysOf(RowCells(r, parse)) == ParseKeys(r.key, parse)
  {
  }

  lemma {:induction false} EnabledBelowCounts(r: Row, parse: ArrayParser, n: nat)
    requires n <= |RowCells(r, parse)|
    ensures EnabledBelow(r.status, n) == Count(RowCells(r, parse)[..n], ENABLED)
  {
    if n > 0 {
      EnabledBelowCounts(r, parse, n - 1);
      assert RowCells(r, parse)[..n][..n - 1] == RowCells(r, parse)[..n - 1];
    }
  }

  lemma DisableAllFollows(r: Row, parse: ArrayParser)
    requires Counted(r, parse)
    ensures Follows(r, DisableAll, parse)
  {
    var cells := RowCells(r, parse);
    EnabledBelowCounts(r, parse, r.size);
    assert cells[..r.size] == cells;
    forall i
      ensures StatusAt(DisabledMap(r.status, r.size), i) ==
              if 0 <= i < r.size then DisabledStatus(StatusAt(r.status, i)) else StatusAt(r.status, i)
      ensures i in DisabledMap(r.status, r.size) ==> i in r.status || 0 <= i < r.size
    {
      DisabledMapAt(r.status, r.size, i);
    }
    if Count(cells, ENABLED) == 0 {
      NoneEnabled(cells);
      assert DisabledAll(cells) == cells;
    } else {
      SavedInPlace(r, DisabledMap(r.status, r.size), r.time, r.reason, parse);
    }
  }

  lemma {:induction false} NoneEnabled(cells: seq<Cell>)
    requires Count(cells, ENABLED) == 0
    ensures forall i :: 0 <= i < |cells| ==> cells[i].status != ENABLED
  {
    if cells != [] {
      NoneEnabled(cells[..|cells| - 1]);
    }
  }

  lemma DisableFollows(r: Row, index: Option<int>, parse: ArrayParser)
    requires Counted(r, parse)
    ensures Follows(r, DisableKey(index), parse)
  {
    if InRange(r, index) {
      var i, cells := index.value, RowCells(r, parse);
      SavedInPlace(r, r.status[i := MANUALLY_DISABLED], r.time, r.reason, parse);
      assert CellsOf(ParseKeys(r.key, parse), r.status[i := MANUALLY_DISABLED], r.time, r.reason) ==
             cells[i := cells[i].(status := MANUALLY_DISABLED)];
    }
  }

  lemma EnableFollows(r: Row, index: Option<int>, parse: ArrayParser)
    requires Counted(r, parse)
    ensures Follows(r, EnableKey(index), parse)
  {
    if InRange(r, index) {
      var i, cells := index.value, RowCells(r, parse);
      SavedInPlace(r, r.status - {i}, r.time - {i}, r.reason - {i}, parse);
      assert CellsOf(ParseKeys(r.key, parse), r.status - {i}, r.time - {i}, r.reason - {i}) ==
             cells[i := Enabled(cells[i])];
    }
  }

  /** Empty maps enable every key. */
  lemma ClearedFollows(r: Row, parse: ArrayParser)
    requires Counted(r, parse)
    ensures var next := Saved(r, r.key, map[], map[], map[], parse);
            Counted(next, parse) && RowCells(next, parse) == EnabledAll(RowCells(r, parse))
  {
    SavedInPlace(r, map[], map[], map[], parse);
    assert CellsOf(ParseKeys(r.key, parse), map[], map[], map[]) == EnabledAll(RowCells(r, parse));
  }

  /** What a deletion that takes place does to the row, and what it means. */
  lemma DeleteCases(r: Row, index: Option<int>, parse: ArrayParser)
    requires Counted(r, parse)
    ensures var cells := RowCells(r, parse);
            if InRange(r, index) && r.size > 1 then
              && AfterAction(r, DeleteKey(index), parse) == Rewritten(r, WithoutCell(cells, index.value), parse)
              && Act(cells, DeleteKey(index)) == WithoutCell(cells, index.value)
            else AfterAction(r, DeleteKey(index), parse) == r && Act(cells, DeleteKey(index)) == cells
  {
    assert |RowCells(r, parse)| == r.size;
    if InRange(r, index) {
      assert LeftBy(RowCells(r, parse), index.value) == WithoutCell(RowCells(r, parse), index.value);
    }
  }

  lemma DeleteFollows(r: Row, index: Option<int>, parse: ArrayParser)
    requires Counted(r, parse)
    ensures var left := Act(RowCells(r, parse), DeleteKey(index));
            Follows(r, DeleteKey(index), parse) <==> |left| == r.size || ReadsBack(KeysOf(left), parse)
  {
    DeleteCases(r, index, parse);
    if InRange(r, index) && r.size > 1 {
      RewrittenFollows(r, WithoutCell(RowCells(r, parse), index.value), parse);
    }
  }

  lemma BulkCases(r: Row, parse: ArrayParser)
    requires Counted(r, parse)
    ensures var cells := RowCells(r, parse);
            if |Kept(cells)| == r.size then
              AfterAction(r, DeleteDisabled, parse) == r && Act(cells, DeleteDisabled) == cells
            else if Kept(cells) == [] then
              && AfterAction(r, DeleteDisabled, parse) == Saved(r, r.key, map[], map[], map[], parse)
              && Act(cells, DeleteDisabled) == EnabledAll(cells)
            else
              && AfterAction(r, DeleteDisabled, parse) == Rewritten(r, Kept(cells), parse)
              && Act(cells, DeleteDisabled) == Kept(cells)
  {
    NothingLeft(r, parse);
  }

  lemma BulkFollows(r: Row, parse: ArrayParser)
    requires Counted(r, parse)
    ensures var left := Act(RowCells(r, parse), DeleteDisabled);
            Follows(r, DeleteDisabled, parse) <==> |left| == r.size || ReadsBack(KeysOf(left), parse)
  {
    var cells := RowCells(r, parse);
    BulkCases(r, parse);
    if |Kept(cells)| < r.size {
      if Kept(cells) == [] {
        ClearedFollows(r, parse);
      } else {
        RewrittenFollows(r, Kept(cells), parse);
      }
    }
  }

  /** Rewriting from no cells writes no text. */
  lemma NothingLeft(r: Row, parse: ArrayParser)
    ensures Rewritten(r, [], parse) == Saved(r, r.key, map[], map[], map[], parse)
  {
    assert KeysOf([]) == [];
  }

  /** Every action on a counted row leaves a counted row with the keys, order, statuses, times and reasons it
      means, exactly when it deletes nothing or the keys it leaves read back. */
  lemma ActionFollows(r: Row, action: Action, parse: ArrayParser)
    requires Counted(r, parse)
    ensures var left := Act(RowCells(r, parse), action);
            Follows(r, action, parse) <==> |left| == r.size || ReadsBack(KeysOf(left), parse)
  {
    match action
    case DeleteKey(index) => DeleteFollows(r, index, parse);
    case DeleteDisabled => BulkFollows(r, parse);
    case DisableAll => DisableAllFollows(r, parse);
    case DisableKey(index) => DisableFollows(r, index, parse);
    case EnableKey(index) => EnableFollows(r, index, parse);
    case EnableAll => ClearedFollows(r, parse);
  }

  /** The reply speaks of the keys, whether or not the row follows. */
  lemma ReplyFollows(r: Row, action: Action, parse: ArrayParser)
    requires Counted(r, parse)
    ensures RowReply(r, action, parse) == ReplyTo(RowCells(r, parse), |r.status|, action)
  {
    if action.DisableAll? {
      EnabledBelowCounts(r, parse, r.size);
      assert RowCells(r, parse)[..r.size] == RowCells(r, parse);
    }
  }

  lemma DeletionReadsBack(r: Row, i: nat, parse: ArrayParser)
    requires Counted(r, parse) && i < r.size && r.size > 1
    ensures |RowCells(r, parse)| == r.size
    ensures Follows(r, DeleteKey(Some(i)), parse) <==> ReadsBack(KeysOf(WithoutCell(RowCells(r, parse), i)), parse)
  {
    DeleteCases(r, Some(i), parse);
    RewrittenFollows(r, WithoutCell(RowCells(r, parse), i), parse);
  }

  /** In terms of the keys themselves: a deletion keeps the others as they were exactly when those are lines
      and neither the first nor the last of them is empty. */
  lemma DeletionFollowsIff(r: Row, i: nat, parse: ArrayParser)
    requires Counted(r, parse) && i < r.size && r.size > 1
    requires !IsArray(KeyText(KeysOf(WithoutCell(RowCells(r, parse), i))), parse)
    ensures var left := KeysOf(WithoutCell(RowCells(r, parse), i));
            Follows(r, DeleteKey(Some(i)), parse) <==>
            Separable(left, '\n') && left[0] != "" && left[|left| - 1] != ""
  {
    DeletionReadsBack(r, i, parse);
    KeysReadBack(KeysOf(WithoutCell(RowCells(r, parse), i)), parse);
  }

  // ---------------------------------------------------------------- every sequence of actions

  function RowRun(r: Row, actions: seq<Action>, parse: ArrayParser): Row {
    if actions == [] then r
    else AfterAction(RowRun(r, actions[..|actions| - 1], parse), actions[|actions| - 1], parse)
  }

  /** After the actions the stored row is counted and holds the cells they mean. */
  ghost predicate Tracks(r: Row, actions: seq<Action>, parse: ArrayParser) {
    var after := RowRun(r, actions, parse);
    Counted(after, parse) && RowCells(after, parse) == Run(RowCells(r, parse), actions)
  }

  lemma ActShrinks(cells: seq<Cell>, action: Action)
    ensures |Act(cells, action)| <= |cells|
    ensures cells != [] ==> Act(cells, action) != []
  {
    if cells != [] {
      ActKeepsSome(cells, action);
    }
  }

  lemma {:induction false} StorableKeysAreTracked(r: Row, actions: seq<Action>, parse: ArrayParser)
    requires Counted(r, parse) && Storable(ParseKeys(r.key, parse), parse)
    ensures Tracks(r, actions, parse) && |Run(RowCells(r, parse), actions)| <= r.size
  {
    if actions != [] {
      var front, last := actions[..|actions| - 1], actions[|actions| - 1];
      var start, before := RowCells(r, parse), RowRun(r, front, parse);
      StorableKeysAreTracked(r, front, parse);
      ActionFollows(before, last, parse);
      var left := Act(RowCells(before, parse), last);
      ActShrinks(RowCells(before, parse), last);
      if |left| < before.size {
        RunKeepsKeys(start, actions);
        KeysOfCells(r, parse);
        assert Subseq(KeysOf(left), ParseKeys(r.key, parse));
      }
    }
  }

  /** `Run` from the front. */
  lemma {:induction false} RunFromFront(cells: seq<Cell>, first: Action, rest: seq<Action>)
    ensures Run(cells, [first] + rest) == Run(Act(cells, first), rest)
  {
    var all := [first] + rest;
    if rest == [] {
      assert all[..0] == [];
    } else {
      RunFromFront(cells, first, rest[..|rest| - 1]);
      assert all[..|all| - 1] == [first] + rest[..|rest| - 1];
    }
  }

  /** The first position that `at` passes over. */
  function Gap(at: seq<nat>, k: nat): nat
    requires k <= |at|
    decreases |at| - k
  {
    if k < |at| && at[k] == k then Gap(at, k + 1) else k
  }

  lemma {:induction false} GapIsFree(at: seq<nat>, k: nat, n: nat)
    requires k <= |at| < n
    requires forall i, j :: 0 <= i < j < |at| ==> at[i] < at[j]
    requires forall i :: 0 <= i < k ==> at[i] == i
    ensures Gap(at, k) < n && Gap(at, k) !in at
    decreases |at| - k
  {
    if k < |at| && at[k] == k {
      GapIsFree(at, k + 1, n);
    } else if k < |at| {
      assert at[k] > k by {
        AtLeast(at, k);
      }
      assert forall j :: k < j < |at| ==> at[j] > at[k];
    }
  }

  lemma {:induction false} AtLeast(at: seq<nat>, k: nat)
    requires k < |at| && forall i, j :: 0 <= i < j < |at| ==> at[i] < at[j]
    ensures at[k] >= k
  {
    if k > 0 {
      AtLeast(at, k - 1);
    }
  }

  function Shifted(at: seq<nat>, gap: nat): (next: seq<nat>)
    requires gap !in at
    ensures |next| == |at|
  {
    seq(|at|, i requires 0 <= i < |at| => if at[i] > gap then at[i] - 1 else at[i])
  }

  /** Deleting a key that `at` passes over. */
  lemma DeletedGap(cells: seq<Cell>, left: seq<string>, at: seq<nat>, gap: nat)
    requires Picks(at, left, KeysOf(cells)) && gap < |cells| && gap !in at && |cells| > 1
    ensures Picks(Shifted(at, gap), left, KeysOf(WithoutCell(cells, gap)))
  {
    forall i | 0 <= i < |left|
      ensures Shifted(at, gap)[i] < |cells| - 1
      ensures left[i] == KeysOf(WithoutCell(cells, gap))[Shifted(at, gap)[i]]
    {
      assert at[i] in at;
    }
    forall i, j | 0 <= i < j < |left|
      ensures Shifted(at, gap)[i] < Shifted(at, gap)[j]
    {
      assert at[i] in at && at[j] in at;
    }
  }

  lemma {:induction false} PicksAll<T>(at: seq<nat>, xs: seq<T>, ys: seq<T>, i: nat)
    requires Picks(at, xs, ys) && |xs| == |ys| && i < |xs|
    ensures at[i] == i
    decreases |xs| - i
  {
    AtLeast(at, i);
    if i < |xs| - 1 {
      PicksAll(at, xs, ys, i + 1);
    }
  }

  /** Every proper part of the keys is what some deletions leave. */
  lemma {:induction false} Reach(cells: seq<Cell>, left: seq<string>, at: seq<nat>) returns (actions: seq<Action>)
    requires Picks(at, left, KeysOf(cells)) && left != [] && |left| < |cells|
    ensures actions != [] && KeysOf(Run(cells, actions)) == left
    ensures |Run(cells, actions[..|actions| - 1])| > |left|
    decreases |cells|
  {
    var gap := Gap(at, 0);
    GapIsFree(at, 0, |cells|);
    var next := WithoutCell(cells, gap);
    DeletedGap(cells, left, at, gap);
    var first := DeleteKey(Some(gap));
    if |next| == |left| {
      actions := [first];
      RunFromFront(cells, first, []);
      assert actions[..0] == [];
      forall i | 0 <= i < |left|
        ensures left[i] == KeysOf(next)[i]
      {
        PicksAll(Shifted(at, gap), left, KeysOf(next), i);
      }
    } else {
      var rest := Reach(next, left, Shifted(at, gap));
      actions := [first] + rest;
      RunFromFront(cells, first, rest);
      RunFromFront(cells, first, rest[..|rest| - 1]);
      assert actions[..|actions| - 1] == [first] + rest[..|rest| - 1];
    }
  }

  /** Over all sequences of actions the stored row keeps the count right, every index in range, and each
      surviving key its order, status, time and reason, exactly when every proper part of the keys reads
      back: for which it is enough that no key is empty, spans lines or starts like an array. */
  lemma RunsTrackIff(r: Row, parse: ArrayParser)
    requires Counted(r, parse)
    ensures (forall actions :: Tracks(r, actions, parse)) <==> Storable(ParseKeys(r.key, parse), parse)
  {
    var keys, cells := ParseKeys(r.key, parse), RowCells(r, parse);
    KeysOfCells(r, parse);
    if Storable(keys, parse) {
      forall actions
        ensures Tracks(r, actions, parse)
      {
        StorableKeysAreTracked(r, actions, parse);
      }
    }
    if forall actions :: Tracks(r, actions, parse) {
      forall left | left != [] && |left| < |keys| && Subseq(left, keys)
        ensures ReadsBack(left, parse)
      {
        var at :| Picks(at, left, keys);
        var actions := Reach(cells, left, at);
        LastStepReadsBack(r, actions, parse);
      }
    }
  }

  lemma LastStepReadsBack(r: Row, actions: seq<Action>, parse: ArrayParser)
    requires actions != [] && Tracks(r, actions, parse) && Tracks(r, actions[..|actions| - 1], parse)
    requires |Run(RowCells(r, parse), actions)| < |Run(RowCells(r, parse), actions[..|actions| - 1])|
    ensures ReadsBack(KeysOf(Run(RowCells(r, parse), actions)), parse)
  {
    var before := RowRun(r, actions[..|actions| - 1], parse);
    ActionFollows(before, actions[|actions| - 1], parse);
  }

  // ---------------------------------------------------------------- bulk deletion of the stored keys

  /** The single deletions that one-by-one deletion makes. */
  function Deletions(cells: seq<Cell>, n: nat): seq<Action>
    requires n <= |cells|
    decreases n
  {
    if n == 0 then []
    else if cells[n - 1].status == AUTO_DISABLED
    then [DeleteKey(Some(n - 1))] + Deletions(Act(cells, DeleteKey(Some(n - 1))), n - 1)
    else Deletions(cells, n - 1)
  }

  lemma {:induction false} DeletionsRun(cells: seq<Cell>, n: nat)
    requires n <= |cells|
    ensures Run(cells, Deletions(cells, n)) == OneByOne(cells, n)
    decreases n
  {
    if n > 0 {
      if cells[n - 1].status == AUTO_DISABLED {
        var first := DeleteKey(Some(n - 1));
        DeletionsRun(Act(cells, first), n - 1);
        RunFromFront(cells, first, Deletions(Act(cells, first), n - 1));
      } else {
        DeletionsRun(cells, n - 1);
      }
    }
  }

  /** On the stored row: bulk deletion leaves what deleting the automatically disabled keys one by one from
      the highest index leaves, exactly when some key is not disabled automatically. */
  lemma StoredBulkDeletion(r: Row, parse: ArrayParser)
    requires Counted(r, parse) && Storable(ParseKeys(r.key, parse), parse)
    ensures var cells := RowCells(r, parse);
            var bulk := RowCells(AfterAction(r, DeleteDisabled, parse), parse);
            var single := RowCells(RowRun(r, Deletions(cells, |cells|), parse), parse);
            ShownAll(bulk) == ShownAll(single) <==> cells == [] || !AllAuto(cells)
  {
    StoredBulk(r, parse);
    StoredOneByOne(r, parse);
    BulkDeletionIsOneByOne(RowCells(r, parse));
  }

  lemma StoredBulk(r: Row, parse: ArrayParser)
    requires Counted(r, parse) && Storable(ParseKeys(r.key, parse), parse)
    ensures RowCells(AfterAction(r, DeleteDisabled, parse), parse) == Act(RowCells(r, parse), DeleteDisabled)
  {
    var cells := RowCells(r, parse);
    BulkFollows(r, parse);
    BulkDeletionKeepsKeys(cells);
    ActShrinks(cells, DeleteDisabled);
    KeysOfCells(r, parse);
  }

  lemma StoredOneByOne(r: Row, parse: ArrayParser)
    requires Counted(r, parse) && Storable(ParseKeys(r.key, parse), parse)
    ensures var cells := RowCells(r, parse);
            RowCells(RowRun(r, Deletions(cells, |cells|), parse), parse) == OneByOne(cells, |cells|)
  {
    var cells := RowCells(r, parse);
    DeletionsRun(cells, |cells|);
    StorableKeysAreTracked(r, Deletions(cells, |cells|), parse);
  }

  // ---------------------------------------------------------------- a blank line

  /** A stored text with a blank line, as adding keys with a line of spaces produces it. Deleting the first
      key makes the blank one first; its line is trimmed away, the count is one short, and the
      automatically disabled third key comes back enabled while its time points beyond the keys. */
  lemma BlankKeyLosesAStatus(parse: ArrayParser)
    ensures var r := Row("a\n\nb", 3, map[2 := AUTO_DISABLED], map[2 := 7], map[]);
            var next := AfterAction(r, DeleteKey(Some(0)), parse);
            && Counted(r, parse) && ParseKeys(r.key, parse) == ["a", "", "b"]
            && RowReply(r, DeleteKey(Some(0)), parse) == Done(1)
            && next.size == 1 && RowCells(next, parse) == [Cell("b", ENABLED, None, None)]
            && !Counted(next, parse)
  {
    var r := Row("a\n\nb", 3, map[2 := AUTO_DISABLED], map[2 := 7], map[]);
    BlankRow(r, parse);
    ReplyFollows(r, DeleteKey(Some(0)), parse);
    DeleteCases(r, Some(0), parse);
    BlankRewritten(r, WithoutCell(RowCells(r, parse), 0), parse);
  }

  lemma BlankRow(r: Row, parse: ArrayParser)
    requires r == Row("a\n\nb", 3, map[2 := AUTO_DISABLED], map[2 := 7], map[])
    ensures Counted(r, parse) && ParseKeys(r.key, parse) == ["a", "", "b"]
    ensures WithoutCell(RowCells(r, parse), 0) ==
            [Cell("", ENABLED, None, None), Cell("b", AUTO_DISABLED, Some(7), None)]
  {
    BlankTexts(parse);
    BlankCells(r.status, r.time, r.reason);
  }

  lemma BlankCells(status: map<int, int>, time: map<int, int>, reason: map<int, string>)
    requires status == map[2 := AUTO_DISABLED] && time == map[2 := 7] && reason == map[]
    ensures WithoutCell(CellsOf(["a", "", "b"], status, time, reason), 0) ==
            [Cell("", ENABLED, None, None), Cell("b", AUTO_DISABLED, Some(7), None)]
  {
  }

  lemma BlankRewritten(r: Row, left: seq<Cell>, parse: ArrayParser)
    requires left == [Cell("", ENABLED, None, None), Cell("b", AUTO_DISABLED, Some(7), None)]
    ensures var next := Rewritten(r, left, parse);
            next.size == 1 && RowCells(next, parse) == [Cell("b", ENABLED, None, None)] && !Counted(next, parse)
  {
    BlankTexts(parse);
    assert KeysOf(left) == ["", "b"];
    MapsAt(left, 0);
    MapsAt(left, 1);
    assert 1 in TimeOf(left);
  }

  lemma BlankTexts(parse: ArrayParser)
    ensures ParseKeys("a\n\nb", parse) == ["a", "", "b"] && KeyText(["", "b"]) == "\nb"
    ensures ParseKeys("\nb", parse) == ["b"] && CountedKeys("\nb", parse) == ["b"]
  {
    var three, two := ["a", "", "b"], ["", "b"];
    assert three[1..] == two && two[1..] == ["b"];
    assert KeyText(["b"]) == "b" && KeyText(two) == "\nb" && KeyText(three) == "a" + "\n" + "\nb";
    assert "a" + "\n" + "\nb" == "a\n\nb";
    BracketlessIsNoArray(three, parse);
    KeysReadBack(three, parse);
    BracketlessIsNoArray(two, parse);
    assert "\nb"[1..] == "b" && TrimChar("\nb", '\n') == TrimChar("b", '\n') == "b";
    SplitPlain("b", '\n');
    CountAgrees("\nb", parse);
  }
}

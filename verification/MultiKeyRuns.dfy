/** What the key-management actions keep, alone and over any sequence of them. */
module MultiKeyRuns {
  import opened Wrappers
  import opened Sequences
  import opened MultiKey

  /** What the status query shows of a key: the times and reasons of enabled keys stay hidden. */
  datatype Entry = Entry(key: string, status: int, time: int, reason: string)

  function Shown(cell: Cell): Entry {
    if cell.status == ENABLED then Entry(cell.key, ENABLED, 0, "")
    else Entry(cell.key, cell.status, cell.time.GetOr(0), cell.reason.GetOr(""))
  }

  function ShownAll(cells: seq<Cell>): (entries: seq<Entry>)
    ensures |entries| == |cells|
  {
    seq(|cells|, i requires 0 <= i < |cells| => Shown(cells[i]))
  }

  lemma ShownConcat(a: seq<Cell>, b: seq<Cell>)
    ensures ShownAll(a + b) == ShownAll(a) + ShownAll(b)
  {
  }

  predicate AllAuto(cells: seq<Cell>) {
    forall i :: 0 <= i < |cells| ==> cells[i].status == AUTO_DISABLED
  }

  // ---------------------------------------------------------------- what each action does, key by key

  /** Status 1 is enabled, 2 disabled by hand, 3 disabled automatically. Naming a key changes only that key;
      enabling forgets when and why it was disabled, disabling by hand does not. */
  lemma ActionOnOneKey(cells: seq<Cell>, i: nat, j: nat)
    requires i < |cells| && j < |cells|
    ensures var disabled, enabled := Act(cells, DisableKey(Some(i))), Act(cells, EnableKey(Some(i)));
            && |disabled| == |enabled| == |cells|
            && disabled[j] == (if j == i then Cell(cells[j].key, 2, cells[j].time, cells[j].reason) else cells[j])
            && enabled[j] == (if j == i then Cell(cells[j].key, 1, None, None) else cells[j])
  {
  }

  lemma ActionOnAllKeys(cells: seq<Cell>, j: nat)
    requires j < |cells|
    ensures var disabled, enabled := Act(cells, DisableAll), Act(cells, EnableAll);
            && |disabled| == |enabled| == |cells|
            && disabled[j] == Cell(cells[j].key, if cells[j].status == 1 then 2 else cells[j].status,
                                   cells[j].time, cells[j].reason)
            && enabled[j] == Cell(cells[j].key, 1, None, None)
  {
  }

  /** Deleting the key at an index leaves the others in place; the last key and a missing index stay. */
  lemma DeletionOfOneKey(cells: seq<Cell>, index: Option<int>)
    ensures Act(cells, DeleteKey(index)) ==
            if index.Some? && 0 <= index.value < |cells| && |cells| >= 2
            then cells[..index.value] + cells[index.value + 1..] else cells
    ensures index.None? || index.value < 0 || index.value >= |cells| ==>
              Act(cells, DisableKey(index)) == cells && Act(cells, EnableKey(index)) == cells
  {
  }

  /** What bulk deletion keeps of a key, if anything. */
  function KeptOf(cell: Cell): seq<Cell> {
    if cell.status == 3 then [] else if cell.status == 1 then [Cell(cell.key, 1, None, None)] else [cell]
  }

  lemma KeptAppends(front: seq<Cell>, last: Cell)
    ensures Kept(front + [last]) == Kept(front) + KeptOf(last)
  {
    assert (front + [last])[..|front|] == front;
  }

  /** The replies, from the number of keys of each status. */
  lemma Replies(cells: seq<Cell>, statuses: nat, index: Option<int>)
    ensures ReplyTo(cells, statuses, EnableAll) == Done(statuses)
    ensures ReplyTo(cells, statuses, DisableAll) ==
            if WithStatus(cells, 1) == {} then NothingToDisable else Done(|WithStatus(cells, 1)|)
    ensures ReplyTo(cells, statuses, DeleteDisabled) ==
            if WithStatus(cells, 3) == {} then NothingToDelete else Done(|WithStatus(cells, 3)|)
    ensures ReplyTo(cells, statuses, DisableKey(index)) == ReplyTo(cells, statuses, EnableKey(index)) ==
            if index.None? then NoIndex else if index.value < 0 || index.value >= |cells| then OutOfRange else Done(1)
    ensures ReplyTo(cells, statuses, DeleteKey(index)) ==
            if index.None? then NoIndex else if index.value < 0 || index.value >= |cells| then OutOfRange
            else if |cells| == 1 then LastKey else Done(1)
  {
    CountIsSize(cells, 1);
    CountIsSize(cells, 3);
    KeptAndDropped(cells);
  }

  function WithStatus(cells: seq<Cell>, status: int): set<nat> {
    set i | 0 <= i < |cells| && cells[i].status == status
  }

  lemma {:induction false} CountIsSize(cells: seq<Cell>, status: int)
    ensures Count(cells, status) == |WithStatus(cells, status)|
  {
    if cells == [] {
      assert WithStatus(cells, status) == {};
    } else {
      var last := |cells| - 1;
      CountIsSize(cells[..last], status);
      assert WithStatus(cells, status) ==
             WithStatus(cells[..last], status) + (if cells[last].status == status then {last} else {});
    }
  }

  lemma {:induction false} KeptAndDropped(cells: seq<Cell>)
    ensures |Kept(cells)| + Count(cells, 3) == |cells|
  {
    if cells != [] {
      KeptAndDropped(cells[..|cells| - 1]);
    }
  }

  lemma {:induction false} KeptMembers(cells: seq<Cell>, j: nat)
    requires j < |cells| && cells[j].status != 1 && cells[j].status != 3
    ensures cells[j] in Kept(cells)
  {
    var last := |cells| - 1;
    if j < last {
      KeptMembers(cells[..last], j);
    }
  }

  /** A key disabled by hand, alone or with all others, is not enabled and survives bulk deletion. */
  lemma DisabledByHandStays(cells: seq<Cell>, i: nat)
    requires i < |cells|
    ensures var disabled := Act(cells, DisableKey(Some(i)));
            disabled[i].status == 2 && disabled[i] in Act(disabled, DeleteDisabled)
    ensures var disabled := Act(cells, DisableAll);
            cells[i].status == 1 ==> disabled[i].status == 2 && disabled[i] in Act(disabled, DeleteDisabled)
  {
    KeptMembers(Act(cells, DisableKey(Some(i))), i);
    if cells[i].status == 1 {
      KeptMembers(Act(cells, DisableAll), i);
    }
  }

  // ---------------------------------------------------------------- bulk deletion

  /** Deleting the automatically disabled keys among the first `n` one at a time, highest index first. */
  function OneByOne(cells: seq<Cell>, n: nat): seq<Cell>
    requires n <= |cells|
    decreases n
  {
    if n == 0 then cells
    else
      OneByOne(if cells[n - 1].status == AUTO_DISABLED then Act(cells, DeleteKey(Some(n - 1))) else cells, n - 1)
  }

  lemma DeletedAuto(cells: seq<Cell>, k: nat)
    requires k < |cells| && cells[k].status == AUTO_DISABLED && !AllAuto(cells)
    ensures |cells| > 1 && !AllAuto(WithoutCell(cells, k))
    ensures WithoutCell(cells, k)[..k] == cells[..k] && WithoutCell(cells, k)[k..] == cells[k + 1..]
  {
    var i :| 0 <= i < |cells| && cells[i].status != AUTO_DISABLED;
    assert WithoutCell(cells, k)[if i < k then i else i - 1] == cells[i];
  }

  function DeletedIfAuto(cells: seq<Cell>, k: nat): seq<Cell>
    requires k < |cells|
  {
    if cells[k].status == AUTO_DISABLED then WithoutCell(cells, k) else cells
  }

  /** One turn of the walk does not change what the whole walk will show. */
  lemma WalkStep(cells: seq<Cell>, n: nat)
    requires 0 < n <= |cells| && !AllAuto(cells)
    ensures var next := DeletedIfAuto(cells, n - 1);
            ShownAll(Kept(next[..n - 1])) + ShownAll(next[n - 1..]) == ShownAll(Kept(cells[..n])) + ShownAll(cells[n..])
  {
    var last := cells[n - 1];
    assert cells[..n][..n - 1] == cells[..n - 1];
    if last.status == AUTO_DISABLED {
      DeletedAuto(cells, n - 1);
    } else {
      ShownConcat(Kept(cells[..n - 1]), [Settled(last)]);
      assert ShownAll(cells[n - 1..]) == ShownAll([Settled(last)]) + ShownAll(cells[n..]);
    }
  }

  lemma {:induction false} OneByOneShows(cells: seq<Cell>, n: nat)
    requires n <= |cells| && !AllAuto(cells)
    ensures ShownAll(OneByOne(cells, n)) == ShownAll(Kept(cells[..n])) + ShownAll(cells[n..])
    decreases n
  {
    if n == 0 {
      assert cells[0..] == cells;
    } else {
      if cells[n - 1].status == AUTO_DISABLED {
        DeletedAuto(cells, n - 1);
      }
      OneByOneShows(DeletedIfAuto(cells, n - 1), n - 1);
      WalkStep(cells, n);
    }
  }

  lemma {:induction false} OneByOneKeepsOne(cells: seq<Cell>, n: nat)
    requires n <= |cells| && cells != [] && AllAuto(cells)
    ensures OneByOne(cells, n) != [] && AllAuto(OneByOne(cells, n))
    decreases n
  {
    if n > 0 {
      OneByOneKeepsOne(Act(cells, DeleteKey(Some(n - 1))), n - 1);
    }
  }

  lemma {:induction false} KeptLength(cells: seq<Cell>)
    ensures |Kept(cells)| == |cells| ==> ShownAll(Kept(cells)) == ShownAll(cells)
    ensures Kept(cells) == [] <==> AllAuto(cells)
  {
    if cells != [] {
      var front, last := cells[..|cells| - 1], cells[|cells| - 1];
      KeptLength(front);
      assert cells == front + [last];
      assert AllAuto(cells) <==> AllAuto(front) && last.status == AUTO_DISABLED;
      ShownConcat(front, [last]);
      ShownConcat(Kept(front), [Settled(last)]);
    }
  }

  /** Bulk deletion shows what deleting the automatically disabled keys one at a time would, exactly
      when some key is not disabled automatically. */
  lemma BulkDeletionIsOneByOne(cells: seq<Cell>)
    ensures ShownAll(Act(cells, DeleteDisabled)) == ShownAll(OneByOne(cells, |cells|)) <==>
            cells == [] || !AllAuto(cells)
  {
    KeptLength(cells);
    assert cells[..|cells|] == cells;
    if cells != [] && AllAuto(cells) {
      OneByOneKeepsOne(cells, |cells|);
      assert ShownAll(Act(cells, DeleteDisabled))[0].status == ENABLED;
      assert ShownAll(OneByOne(cells, |cells|))[0].status == AUTO_DISABLED;
    } else if cells != [] {
      OneByOneShows(cells, |cells|);
    }
  }

  /** When every key is disabled automatically, bulk deletion reports them all deleted, and every one of
      them is back in use. */
  lemma DeletingEveryKeyEnablesAll(cells: seq<Cell>, statuses: nat)
    requires cells != [] && AllAuto(cells)
    ensures ReplyTo(cells, statuses, DeleteDisabled) == Done(|cells|)
    ensures Act(cells, DeleteDisabled) == EnabledAll(cells)
  {
    KeptLength(cells);
  }

  // ---------------------------------------------------------------- survivors

  lemma {:induction false} KeptIsSubseq(cells: seq<Cell>)
    ensures Subseq(ShownAll(Kept(cells)), ShownAll(cells))
  {
    if cells == [] {
      SubseqSame(ShownAll(cells));
    } else {
      var front, last := cells[..|cells| - 1], cells[|cells| - 1];
      KeptIsSubseq(front);
      SubseqExtend(ShownAll(Kept(front)), ShownAll(front), Shown(last));
      assert ShownAll(cells) == ShownAll(front) + [Shown(last)];
      if last.status == AUTO_DISABLED {
        assert Kept(cells) == Kept(front);
      } else {
        assert ShownAll(Kept(cells)) == ShownAll(Kept(front)) + [Shown(last)];
      }
    }
  }

  /** Deleting a key removes that one only: the others keep order, status, time and reason. */
  lemma DeletionKeepsTheOthers(cells: seq<Cell>, i: nat)
    requires i < |cells| && |cells| > 1
    ensures var left := ShownAll(Act(cells, DeleteKey(Some(i))));
            Subseq(left, ShownAll(cells)) && |left| == |cells| - 1
  {
    var at := seq(|cells| - 1, j => if j < i then j else j + 1);
    assert Picks(at, ShownAll(Act(cells, DeleteKey(Some(i)))), ShownAll(cells));
  }

  /** Bulk deletion keeps the entries it leaves as they were exactly when it leaves some untouched. */
  lemma BulkDeletionKeepsTheOthers(cells: seq<Cell>)
    ensures Subseq(ShownAll(Act(cells, DeleteDisabled)), ShownAll(cells)) <==> cells == [] || !AllAuto(cells)
  {
    KeptLength(cells);
    KeptIsSubseq(cells);
    SubseqSame(ShownAll(cells));
    if cells != [] && AllAuto(cells) {
      var entries := ShownAll(EnabledAll(cells));
      assert entries[0].status == ENABLED;
      assert forall i :: 0 <= i < |cells| ==> ShownAll(cells)[i].status == AUTO_DISABLED;
      if Subseq(entries, ShownAll(cells)) {
        FirstIsPicked(entries, ShownAll(cells));
      }
    }
  }

  // ---------------------------------------------------------------- runs

  function Run(cells: seq<Cell>, actions: seq<Action>): seq<Cell> {
    if actions == [] then cells else Act(Run(cells, actions[..|actions| - 1]), actions[|actions| - 1])
  }

  lemma KeysOfShown(cells: seq<Cell>, others: seq<Cell>)
    requires Subseq(ShownAll(cells), ShownAll(others))
    ensures Subseq(KeysOf(cells), KeysOf(others))
  {
    var at :| Picks(at, ShownAll(cells), ShownAll(others));
    forall i | 0 <= i < |cells|
      ensures KeysOf(cells)[i] == KeysOf(others)[at[i]]
    {
      assert ShownAll(cells)[i] == ShownAll(others)[at[i]];
    }
    assert Picks(at, KeysOf(cells), KeysOf(others));
  }

  lemma BulkDeletionKeepsKeys(cells: seq<Cell>)
    ensures Subseq(KeysOf(Act(cells, DeleteDisabled)), KeysOf(cells))
  {
    if cells == [] || !AllAuto(cells) {
      BulkDeletionKeepsTheOthers(cells);
      KeysOfShown(Act(cells, DeleteDisabled), cells);
    } else {
      DeletingEveryKeyEnablesAll(cells, 0);
      assert KeysOf(EnabledAll(cells)) == KeysOf(cells);
      SubseqSame(KeysOf(cells));
    }
  }

  lemma DeletionKeepsKeys(cells: seq<Cell>, i: nat)
    requires i < |cells| && |cells| > 1
    ensures Subseq(KeysOf(WithoutCell(cells, i)), KeysOf(cells))
  {
    DeletionKeepsTheOthers(cells, i);
    KeysOfShown(WithoutCell(cells, i), cells);
  }

  lemma OtherActionsKeepKeys(cells: seq<Cell>, action: Action)
    requires !action.DeleteDisabled? && !action.DeleteKey?
    ensures KeysOf(Act(cells, action)) == KeysOf(cells)
  {
  }

  lemma ActKeepsKeys(cells: seq<Cell>, action: Action)
    ensures Subseq(KeysOf(Act(cells, action)), KeysOf(cells))
  {
    if action.DeleteDisabled? {
      BulkDeletionKeepsKeys(cells);
    } else if action.DeleteKey? {
      if action.index.Some? && 0 <= action.index.value < |cells| && |cells| > 1 {
        DeletionKeepsKeys(cells, action.index.value);
      } else {
        SubseqSame(KeysOf(cells));
      }
    } else {
      OtherActionsKeepKeys(cells, action);
      SubseqSame(KeysOf(cells));
    }
  }

  lemma ActKeepsSome(cells: seq<Cell>, action: Action)
    requires cells != []
    ensures Act(cells, action) != []
  {
    KeptLength(cells);
  }

  /** No sequence of actions invents, duplicates or reorders keys, or deletes the last one. */
  lemma {:induction false} RunKeepsKeys(cells: seq<Cell>, actions: seq<Action>)
    ensures Subseq(KeysOf(Run(cells, actions)), KeysOf(cells))
    ensures cells != [] ==> Run(cells, actions) != []
  {
    if actions == [] {
      SubseqSame(KeysOf(cells));
    } else {
      var before := Run(cells, actions[..|actions| - 1]);
      RunKeepsKeys(cells, actions[..|actions| - 1]);
      ActKeepsKeys(before, actions[|actions| - 1]);
      if before != [] {
        ActKeepsSome(before, actions[|actions| - 1]);
      }
      SubseqTransitive(KeysOf(Run(cells, actions)), KeysOf(before), KeysOf(cells));
    }
  }
}

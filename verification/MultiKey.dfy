/** Managing the keys of a multi-key channel: a key list beside three index-keyed maps, all of which
    every action rewrites together. */
module MultiKey {
  import opened Wrappers
  import opened Text
  import opened ChannelKeys

  const ENABLED := 1
  const MANUALLY_DISABLED := 2
  const AUTO_DISABLED := 3

  /** One key with what the three maps hold for its index. */
  datatype Cell = Cell(key: string, status: int, time: Option<int>, reason: Option<string>)

  function StatusAt(status: map<int, int>, i: int): int {
    if i in status then status[i] else ENABLED
  }

  function Lookup<T>(m: map<int, T>, i: int): Option<T> {
    if i in m then Some(m[i]) else None
  }

  function CellsOf(keys: seq<string>, status: map<int, int>, time: map<int, int>, reason: map<int, string>)
    : (cells: seq<Cell>)
    ensures |cells| == |keys|
  {
    seq(|keys|, i requires 0 <= i < |keys| =>
      Cell(keys[i], StatusAt(status, i), Lookup(time, i), Lookup(reason, i)))
  }

  ghost predicate Below<T>(m: map<int, T>, n: int) {
    forall i :: i in m ==> 0 <= i < n
  }

  // ---------------------------------------------------------------- what each action means

  datatype Action =
    | DisableKey(index: Option<int>)
    | EnableKey(index: Option<int>)
    | EnableAll
    | DisableAll
    | DeleteKey(index: Option<int>)
    | DeleteDisabled

  datatype Reply = NoIndex | OutOfRange | NothingToDisable | LastKey | NothingToDelete | Done(count: nat)

  function Enabled(cell: Cell): Cell {
    Cell(cell.key, ENABLED, None, None)
  }

  function EnabledAll(cells: seq<Cell>): seq<Cell> {
    seq(|cells|, i requires 0 <= i < |cells| => Enabled(cells[i]))
  }

  function DisabledStatus(status: int): int {
    if status == ENABLED then MANUALLY_DISABLED else status
  }

  function Disabled(cell: Cell): Cell {
    cell.(status := DisabledStatus(cell.status))
  }

  function DisabledAll(cells: seq<Cell>): seq<Cell> {
    seq(|cells|, i requires 0 <= i < |cells| => Disabled(cells[i]))
  }

  function WithoutCell(cells: seq<Cell>, i: nat): seq<Cell>
    requires i < |cells|
  {
    cells[..i] + cells[i + 1..]
  }

  /** An enabled key carries no trace of an earlier disabling. */
  function Settled(cell: Cell): Cell {
    if cell.status == ENABLED then Enabled(cell) else cell
  }

  /** The cells that are not disabled automatically. */
  function Kept(cells: seq<Cell>): (kept: seq<Cell>)
    ensures |kept| <= |cells|
  {
    if cells == [] then []
    else
      var last := cells[|cells| - 1];
      Kept(cells[..|cells| - 1]) + if last.status == AUTO_DISABLED then [] else [Settled(last)]
  }

  function Count(cells: seq<Cell>, status: int): nat {
    if cells == [] then 0
    else Count(cells[..|cells| - 1], status) + if cells[|cells| - 1].status == status then 1 else 0
  }

  /** The cells an action leaves. */
  function Act(cells: seq<Cell>, action: Action): seq<Cell> {
    match action
    case DisableKey(Some(i)) =>
      if 0 <= i < |cells| then cells[i := cells[i].(status := MANUALLY_DISABLED)] else cells
    case EnableKey(Some(i)) =>
      if 0 <= i < |cells| then cells[i := Enabled(cells[i])] else cells
    case EnableAll => EnabledAll(cells)
    case DisableAll => DisabledAll(cells)
    case DeleteKey(Some(i)) =>
      if 0 <= i < |cells| && |cells| > 1 then WithoutCell(cells, i) else cells
    case DeleteDisabled =>
      if |Kept(cells)| == |cells| then cells
      else if Kept(cells) == [] then EnabledAll(cells)
      else Kept(cells)
    case _ => cells
  }

  function IndexReply(index: Option<int>, size: int): Reply {
    if index.None? then NoIndex else if 0 <= index.value < size then Done(1) else OutOfRange
  }

  function ReplyTo(cells: seq<Cell>, statuses: nat, action: Action): Reply {
    match action
    case EnableAll => Done(statuses)
    case DisableAll => if Count(cells, ENABLED) == 0 then NothingToDisable else Done(Count(cells, ENABLED))
    case DeleteDisabled =>
      if |Kept(cells)| == |cells| then NothingToDelete else Done(|cells| - |Kept(cells)|)
    case DeleteKey(index) =>
      if index.Some? && 0 <= index.value < |cells| == 1 then LastKey else IndexReply(index, |cells|)
    case _ => IndexReply(action.index, |cells|)
  }

  // ---------------------------------------------------------------- the stored row

  /** What the database holds: the key text, the number of keys, and the three maps. */
  datatype Row = Row(key: string, size: int, status: map<int, int>, time: map<int, int>, reason: map<int, string>)

  function RowCells(r: Row, parse: ArrayParser): seq<Cell> {
    CellsOf(ParseKeys(r.key, parse), r.status, r.time, r.reason)
  }

  /** The row after `Channel.Update`: an empty key text is not written, the count is taken again, and
      statuses beyond it are dropped. */
  function Saved(r: Row, key: string, status: map<int, int>, time: map<int, int>, reason: map<int, string>,
                 parse: ArrayParser): Row {
    var text := if key != "" then key else r.key;
    var size := |CountedKeys(text, parse)|;
    Row(text, size, map i | i in status && i < size :: status[i], time, reason)
  }

  function KeysOf(cells: seq<Cell>): (keys: seq<string>)
    ensures |keys| == |cells|
  {
    seq(|cells|, i requires 0 <= i < |cells| => cells[i].key)
  }

  function PutStatus(status: map<int, int>, n: int, s: int): map<int, int> {
    if s == ENABLED then status else status[n := s]
  }

  function PutIf<T>(m: map<int, T>, n: int, value: Option<T>): map<int, T> {
    if value.Some? then m[n := value.value] else m
  }

  /** The three maps of a list of cells. */
  function StatusOf(cells: seq<Cell>): map<int, int> {
    if cells == [] then map[]
    else PutStatus(StatusOf(cells[..|cells| - 1]), |cells| - 1, cells[|cells| - 1].status)
  }

  function TimeOf(cells: seq<Cell>): map<int, int> {
    if cells == [] then map[]
    else PutIf(TimeOf(cells[..|cells| - 1]), |cells| - 1, cells[|cells| - 1].time)
  }

  function ReasonOf(cells: seq<Cell>): map<int, string> {
    if cells == [] then map[]
    else PutIf(ReasonOf(cells[..|cells| - 1]), |cells| - 1, cells[|cells| - 1].reason)
  }

  lemma {:induction false} MapsAt(cells: seq<Cell>, i: int)
    ensures StatusAt(StatusOf(cells), i) == if 0 <= i < |cells| then cells[i].status else ENABLED
    ensures Lookup(TimeOf(cells), i) == if 0 <= i < |cells| then cells[i].time else None
    ensures Lookup(ReasonOf(cells), i) == if 0 <= i < |cells| then cells[i].reason else None
    ensures i in StatusOf(cells) || i in TimeOf(cells) || i in ReasonOf(cells) ==> 0 <= i < |cells|
  {
    if cells != [] {
      MapsAt(cells[..|cells| - 1], i);
    }
  }

  /** The row with its keys and maps rewritten from cells. */
  function Rewritten(r: Row, cells: seq<Cell>, parse: ArrayParser): Row {
    Saved(r, KeyText(KeysOf(cells)), StatusOf(cells), TimeOf(cells), ReasonOf(cells), parse)
  }

  /** Every enabled key below `n` disabled by hand. */
  function DisabledMap(status: map<int, int>, n: nat): map<int, int> {
    if n == 0 then status
    else
      var before := DisabledMap(status, n - 1);
      if StatusAt(before, n - 1) == ENABLED then before[n - 1 := MANUALLY_DISABLED] else before
  }

  lemma {:induction false} DisabledMapAt(status: map<int, int>, n: nat, i: int)
    ensures StatusAt(DisabledMap(status, n), i) ==
            if 0 <= i < n then DisabledStatus(StatusAt(status, i)) else StatusAt(status, i)
    ensures i in DisabledMap(status, n) ==> i in status || 0 <= i < n
  {
    if n > 0 {
      DisabledMapAt(status, n - 1, i);
      DisabledMapAt(status, n - 1, n - 1);
    }
  }

  function EnabledBelow(status: map<int, int>, n: nat): nat {
    if n == 0 then 0 else EnabledBelow(status, n - 1) + if StatusAt(status, n - 1) == ENABLED then 1 else 0
  }

  predicate InRange(r: Row, index: Option<int>) {
    index.Some? && 0 <= index.value < r.size
  }

  /** The cells left by `delete_key`; an index beyond the keys deletes nothing. */
  function LeftBy(cells: seq<Cell>, i: int): seq<Cell> {
    if 0 <= i < |cells| then WithoutCell(cells, i) else cells
  }

  /** The row an action leaves, on any stored row. */
  function AfterAction(r: Row, action: Action, parse: ArrayParser): Row {
    var cells := RowCells(r, parse);
    match action
    case DisableKey(index) =>
      if InRange(r, index)
      then Saved(r, r.key, r.status[index.value := MANUALLY_DISABLED], r.time, r.reason, parse) else r
    case EnableKey(index) =>
      if InRange(r, index)
      then Saved(r, r.key, r.status - {index.value}, r.time - {index.value}, r.reason - {index.value}, parse) else r
    case EnableAll => Saved(r, r.key, map[], map[], map[], parse)
    case DisableAll =>
      if r.size <= 0 || EnabledBelow(r.status, r.size) == 0 then r
      else Saved(r, r.key, DisabledMap(r.status, r.size), r.time, r.reason, parse)
    case DeleteKey(index) =>
      if InRange(r, index) && LeftBy(cells, index.value) != []
      then Rewritten(r, LeftBy(cells, index.value), parse) else r
    case DeleteDisabled =>
      if |Kept(cells)| == |cells| then r else Rewritten(r, Kept(cells), parse)
  }

  function RowReply(r: Row, action: Action, parse: ArrayParser): Reply {
    var cells := RowCells(r, parse);
    match action
    case EnableAll => Done(|r.status|)
    case DisableAll =>
      if r.size <= 0 || EnabledBelow(r.status, r.size) == 0 then NothingToDisable
      else Done(EnabledBelow(r.status, r.size))
    case DeleteDisabled => if |Kept(cells)| == |cells| then NothingToDelete else Done(|cells| - |Kept(cells)|)
    case DeleteKey(index) =>
      if InRange(r, index) && LeftBy(cells, index.value) == [] then LastKey else IndexReply(index, r.size)
    case _ => IndexReply(action.index, r.size)
  }

  // ---------------------------------------------------------------- the loops

  /** The keys and maps of a list of cells, as the loops build them. */
  ghost predicate Built(cells: seq<Cell>, keys: seq<string>, status: map<int, int>, time: map<int, int>,
                        reason: map<int, string>) {
    keys == KeysOf(cells) && status == StatusOf(cells) && time == TimeOf(cells) && reason == ReasonOf(cells)
  }

  lemma BuiltAppend(cells: seq<Cell>, keys: seq<string>, status: map<int, int>, time: map<int, int>,
                    reason: map<int, string>, cell: Cell)
    requires Built(cells, keys, status, time, reason)
    ensures |keys| == |cells|
    ensures var n := |keys|;
            Built(cells + [cell], keys + [cell.key], PutStatus(status, n, cell.status), PutIf(time, n, cell.time),
                  PutIf(reason, n, cell.reason))
  {
    assert (cells + [cell])[..|cells|] == cells;
  }

  method CopyStatus(from: map<int, int>, i: int, to: map<int, int>, n: int) returns (next: map<int, int>)
    ensures next == PutStatus(to, n, StatusAt(from, i))
  {
    next := to;
    if i in from && from[i] != ENABLED {
      next := next[n := from[i]];
    }
  }

  method CopyEntry<T>(from: map<int, T>, i: int, to: map<int, T>, n: int) returns (next: map<int, T>)
    ensures next == PutIf(to, n, Lookup(from, i))
  {
    next := to;
    if i in from {
      next := next[n := from[i]];
    }
  }

  /** The first `n` cells without the one at `index`. */
  function PrefixWithout(cells: seq<Cell>, index: int, n: nat): seq<Cell>
    requires n <= |cells|
  {
    if 0 <= index < n then cells[..index] + cells[index + 1..n] else cells[..n]
  }

  lemma PrefixNext(cells: seq<Cell>, index: int, i: nat)
    requires i < |cells|
    ensures PrefixWithout(cells, index, i + 1) ==
            if i == index then PrefixWithout(cells, index, i) else PrefixWithout(cells, index, i) + [cells[i]]
    ensures PrefixWithout(cells, index, |cells|) == LeftBy(cells, index)
  {
  }

  /** What `delete_key` does for a key it keeps. */
  method CopyKey(ghost before: seq<Cell>, key: string, status: map<int, int>, time: map<int, int>,
                 reason: map<int, string>, i: int, keys: seq<string>, oldStatus: map<int, int>,
                 oldTime: map<int, int>, oldReason: map<int, string>)
    returns (left: seq<string>, newStatus: map<int, int>, newTime: map<int, int>, newReason: map<int, string>)
    requires Built(before, keys, oldStatus, oldTime, oldReason)
    ensures var cell := Cell(key, StatusAt(status, i), Lookup(time, i), Lookup(reason, i));
            Built(before + [cell], left, newStatus, newTime, newReason)
  {
    ghost var cell := Cell(key, StatusAt(status, i), Lookup(time, i), Lookup(reason, i));
    BuiltAppend(before, keys, oldStatus, oldTime, oldReason, cell);
    left := keys + [key];
    newStatus := CopyStatus(status, i, oldStatus, |keys|);
    newTime := CopyEntry(time, i, oldTime, |keys|);
    newReason := CopyEntry(reason, i, oldReason, |keys|);
  }

  /** The loop of `delete_key`: the other keys with their states, renumbered. */
  method Reindex(keys: seq<string>, status: map<int, int>, time: map<int, int>, reason: map<int, string>, index: int)
    returns (left: seq<string>, newStatus: map<int, int>, newTime: map<int, int>, newReason: map<int, string>)
    ensures Built(LeftBy(CellsOf(keys, status, time, reason), index), left, newStatus, newTime, newReason)
  {
    left, newStatus, newTime, newReason := [], map[], map[], map[];
    ghost var cells := CellsOf(keys, status, time, reason);
    for i := 0 to |keys|
      invariant Built(PrefixWithout(cells, index, i), left, newStatus, newTime, newReason)
      invariant i == |keys| ==> PrefixWithout(cells, index, i) == LeftBy(cells, index)
    {
      PrefixNext(cells, index, i);
      if i == index {
        continue;
      }
      left, newStatus, newTime, newReason :=
        CopyKey(PrefixWithout(cells, index, i), keys[i], status, time, reason, i, left, newStatus, newTime, newReason);
    }
  }

  /** What `delete_disabled_keys` does for a key it keeps. */
  method KeepKey(ghost kept: seq<Cell>, key: string, current: int, time: map<int, int>, reason: map<int, string>,
                 i: int, keys: seq<string>, status: map<int, int>, oldTime: map<int, int>, oldReason: map<int, string>)
    returns (left: seq<string>, newStatus: map<int, int>, newTime: map<int, int>, newReason: map<int, string>)
    requires Built(kept, keys, status, oldTime, oldReason)
    ensures var cell := Cell(key, current, Lookup(time, i), Lookup(reason, i));
            Built(kept + [Settled(cell)], left, newStatus, newTime, newReason)
  {
    ghost var cell := Settled(Cell(key, current, Lookup(time, i), Lookup(reason, i)));
    BuiltAppend(kept, keys, status, oldTime, oldReason, cell);
    left := keys + [key];
    newStatus, newTime, newReason := status, oldTime, oldReason;
    if current != ENABLED {
      newStatus := newStatus[|keys| := current];
      newTime := CopyEntry(time, i, newTime, |keys|);
      newReason := CopyEntry(reason, i, newReason, |keys|);
    }
  }

  lemma KeptNext(keys: seq<string>, status: map<int, int>, time: map<int, int>, reason: map<int, string>, i: nat,
                 current: int)
    requires i < |keys| && current == if i in status then status[i] else ENABLED
    ensures var cells := CellsOf(keys, status, time, reason);
            var cell := Cell(keys[i], current, Lookup(time, i), Lookup(reason, i));
            Kept(cells[..i + 1]) ==
            if current == AUTO_DISABLED then Kept(cells[..i]) else Kept(cells[..i]) + [Settled(cell)]
  {
    var cells := CellsOf(keys, status, time, reason);
    assert cells[..i + 1][..i] == cells[..i];
  }

  /** The loop of `delete_disabled_keys`. */
  method DropAutoDisabled(keys: seq<string>, status: map<int, int>, time: map<int, int>, reason: map<int, string>)
    returns (left: seq<string>, newStatus: map<int, int>, newTime: map<int, int>, newReason: map<int, string>,
             deleted: nat)
    ensures Built(Kept(CellsOf(keys, status, time, reason)), left, newStatus, newTime, newReason)
    ensures deleted == |keys| - |left|
  {
    left, newStatus, newTime, newReason, deleted := [], map[], map[], map[], 0;
    ghost var cells := CellsOf(keys, status, time, reason);
    for i := 0 to |keys|
      invariant deleted == i - |Kept(cells[..i])|
      invariant Built(Kept(cells[..i]), left, newStatus, newTime, newReason)
    {
      var current := ENABLED;
      if i in status {
        current := status[i];
      }
      KeptNext(keys, status, time, reason, i, current);
      if current == AUTO_DISABLED {
        deleted := deleted + 1;
      } else {
        left, newStatus, newTime, newReason :=
          KeepKey(Kept(cells[..i]), keys[i], current, time, reason, i, left, newStatus, newTime, newReason);
      }
    }
    assert cells[..|keys|] == cells;
  }

  /** The loop of `disable_all_keys`. */
  method DisableEnabled(status: map<int, int>, size: nat) returns (newStatus: map<int, int>, disabled: nat)
    ensures newStatus == DisabledMap(status, size) && disabled == EnabledBelow(status, size)
  {
    newStatus, disabled := status, 0;
    for i := 0 to size
      invariant newStatus == DisabledMap(status, i) && disabled == EnabledBelow(status, i)
    {
      DisabledMapAt(status, i, i);
      var current := ENABLED;
      if i in newStatus {
        current := newStatus[i];
      }
      if current == ENABLED {
        newStatus := newStatus[i := MANUALLY_DISABLED];
        disabled := disabled + 1;
      }
    }
  }

  // ---------------------------------------------------------------- the channel

  class Channel {
    var key: string
    var size: int
    var status: map<int, int>
    var time: map<int, int>
    var reason: map<int, string>
    const parse: ArrayParser

    function Current(): Row
      reads this
    {
      Row(key, size, status, time, reason)
    }

    /** `Channel.Update`. */
    method Update(newKey: string, newStatus: map<int, int>, newTime: map<int, int>, newReason: map<int, string>)
      modifies this
      ensures Current() == Saved(old(Current()), newKey, newStatus, newTime, newReason, parse)
    {
      if newKey != "" {
        key := newKey;
      }
      size := |CountedKeys(key, parse)|;
      status := map i | i in newStatus && i < size :: newStatus[i];
      time, reason := newTime, newReason;
    }

    /** One management action on any stored row: the row it leaves, and the reply. */
    method Manage(action: Action) returns (reply: Reply)
      modifies this
      ensures Current() == AfterAction(old(Current()), action, parse)
      ensures reply == RowReply(old(Current()), action, parse)
    {
      match action {
        case DisableKey(index) => reply := Disable(index);
        case EnableKey(index) => reply := Enable(index);
        case EnableAll =>
          reply := Done(|status|);
          Update(key, map[], map[], map[]);
        case DisableAll => reply := DisableEvery();
        case DeleteKey(index) => reply := Delete(index);
        case DeleteDisabled => reply := DeleteEveryDisabled();
      }
    }

    method Disable(index: Option<int>) returns (reply: Reply)
      modifies this
      ensures Current() == AfterAction(old(Current()), DisableKey(index), parse)
      ensures reply == RowReply(old(Current()), DisableKey(index), parse)
    {
      if index.None? {
        return NoIndex;
      }
      if index.value < 0 || index.value >= size {
        return OutOfRange;
      }
      Update(key, status[index.value := MANUALLY_DISABLED], time, reason);
      return Done(1);
    }

    method Enable(index: Option<int>) returns (reply: Reply)
      modifies this
      ensures Current() == AfterAction(old(Current()), EnableKey(index), parse)
      ensures reply == RowReply(old(Current()), EnableKey(index), parse)
    {
      if index.None? {
        return NoIndex;
      }
      if index.value < 0 || index.value >= size {
        return OutOfRange;
      }
      Update(key, status - {index.value}, time - {index.value}, reason - {index.value});
      return Done(1);
    }

    method DisableEvery() returns (reply: Reply)
      modifies this
      ensures Current() == AfterAction(old(Current()), DisableAll, parse)
      ensures reply == RowReply(old(Current()), DisableAll, parse)
    {
      if size <= 0 {
        return NothingToDisable;
      }
      var newStatus, disabled := DisableEnabled(status, size);
      if disabled == 0 {
        return NothingToDisable;
      }
      Update(key, newStatus, time, reason);
      return Done(disabled);
    }

    method Delete(index: Option<int>) returns (reply: Reply)
      modifies this
      ensures Current() == AfterAction(old(Current()), DeleteKey(index), parse)
      ensures reply == RowReply(old(Current()), DeleteKey(index), parse)
    {
      if index.None? {
        return NoIndex;
      }
      if index.value < 0 || index.value >= size {
        return OutOfRange;
      }
      var left, newStatus, newTime, newReason := Reindex(ParseKeys(key, parse), status, time, reason, index.value);
      if |left| == 0 {
        return LastKey;
      }
      Update(KeyText(left), newStatus, newTime, newReason);
      return Done(1);
    }

    method DeleteEveryDisabled() returns (reply: Reply)
      modifies this
      ensures Current() == AfterAction(old(Current()), DeleteDisabled, parse)
      ensures reply == RowReply(old(Current()), DeleteDisabled, parse)
    {
      var left, newStatus, newTime, newReason, deleted :=
        DropAutoDisabled(ParseKeys(key, parse), status, time, reason);
      if deleted == 0 {
        return NothingToDelete;
      }
      Update(KeyText(left), newStatus, newTime, newReason);
      return Done(deleted);
    }
  }
}

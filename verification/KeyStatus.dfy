/** The paged status query over the keys of a multi-key channel. */
module KeyStatus {
  import opened Wrappers
  import opened MultiKey
  import opened MultiKeyRuns

  const DEFAULT_PAGE_SIZE := 50
  const PREVIEW_LENGTH := 10

  datatype Line = Line(index: nat, status: int, time: int, reason: string, preview: string)

  datatype Response = Response(
    keys: seq<Line>, total: nat, page: int, pageSize: int, totalPages: int,
    enabled: nat, manuallyDisabled: nat, autoDisabled: nat)

  function Preview(key: string): string {
    if |key| > PREVIEW_LENGTH then key[..PREVIEW_LENGTH] + "..." else key
  }

  /** One row per key, in order, with what is shown of it. */
  function Rows(cells: seq<Cell>): (rows: seq<Line>)
    ensures |rows| == |cells|
  {
    seq(|cells|, i requires 0 <= i < |cells| =>
      var e := Shown(cells[i]); Line(i, e.status, e.time, e.reason, Preview(e.key)))
  }

  function Matching(rows: seq<Line>, wanted: Option<int>): seq<Line> {
    if wanted.None? then rows
    else if rows == [] then []
    else
      var last := rows[|rows| - 1];
      Matching(rows[..|rows| - 1], wanted) + if last.status == wanted.value then [last] else []
  }

  function TotalPages(total: nat, pageSize: nat): nat
    requires pageSize > 0
  {
    if total == 0 then 1 else (total + pageSize - 1) / pageSize
  }

  /** The rows from `(page - 1) * pageSize`, at most `pageSize` of them. */
  function PageOf(rows: seq<Line>, page: nat, pageSize: nat): seq<Line>
    requires page >= 1
  {
    var start := (page - 1) * pageSize;
    if start < |rows| then rows[start..if start + pageSize < |rows| then start + pageSize else |rows|] else []
  }

  method BuildRows(keys: seq<string>, status: map<int, int>, time: map<int, int>, reason: map<int, string>)
    returns (rows: seq<Line>, enabled: nat, manual: nat, auto: nat)
    ensures var cells := CellsOf(keys, status, time, reason);
            && rows == Rows(cells)
            && enabled == Count(cells, ENABLED) && manual == Count(cells, MANUALLY_DISABLED)
            && auto == Count(cells, AUTO_DISABLED)
  {
    rows, enabled, manual, auto := [], 0, 0, 0;
    ghost var cells := CellsOf(keys, status, time, reason);
    for i := 0 to |keys|
      invariant rows == Rows(cells)[..i]
      invariant enabled == Count(cells[..i], ENABLED) && manual == Count(cells[..i], MANUALLY_DISABLED)
      invariant auto == Count(cells[..i], AUTO_DISABLED)
    {
      assert cells[..i + 1][..i] == cells[..i];
      var current := ENABLED;
      if i in status {
        current := status[i];
      }
      if current == ENABLED {
        enabled := enabled + 1;
      } else if current == MANUALLY_DISABLED {
        manual := manual + 1;
      } else if current == AUTO_DISABLED {
        auto := auto + 1;
      }
      var disabledTime, why := 0, "";
      if current != ENABLED {
        disabledTime := if i in time then time[i] else 0;
        why := if i in reason then reason[i] else "";
      }
      rows := rows + [Line(i, current, disabledTime, why, Preview(keys[i]))];
    }
    assert cells[..|keys|] == cells;
  }

  method SelectRows(rows: seq<Line>, wanted: Option<int>) returns (selected: seq<Line>)
    ensures selected == Matching(rows, wanted)
  {
    if wanted.None? {
      return rows;
    }
    selected := [];
    for i := 0 to |rows|
      invariant selected == Matching(rows[..i], wanted)
    {
      assert rows[..i + 1][..i] == rows[..i];
      if rows[i].status == wanted.value {
        selected := selected + [rows[i]];
      }
    }
    assert rows[..|rows|] == rows;
  }

  /** `get_key_status`: statistics over all keys, and one page of those with the wanted status. */
  method Query(keys: seq<string>, status: map<int, int>, time: map<int, int>, reason: map<int, string>,
               page: int, pageSize: int, wanted: Option<int>)
    returns (r: Response)
    ensures var cells := CellsOf(keys, status, time, reason);
            var selected := Matching(Rows(cells), wanted);
            && r.pageSize == (if pageSize > 0 then pageSize else DEFAULT_PAGE_SIZE)
            && r.total == |selected| && r.totalPages == TotalPages(|selected|, r.pageSize)
            && 1 <= r.page <= r.totalPages
            && (1 <= page <= r.totalPages ==> r.page == page) && (page > r.totalPages ==> r.page == r.totalPages)
            && (page < 1 ==> r.page == 1)
            && r.keys == PageOf(selected, r.page, r.pageSize)
            && r.enabled == Count(cells, ENABLED) && r.manuallyDisabled == Count(cells, MANUALLY_DISABLED)
            && r.autoDisabled == Count(cells, AUTO_DISABLED)
  {
    var rows, enabled, manual, auto := BuildRows(keys, status, time, reason);
    var selected := SelectRows(rows, wanted);
    var current, size, totalPages := ChoosePage(|selected|, page, pageSize);
    var shown := SlicePage(selected, current, size);
    r := Response(shown, |selected|, current, size, totalPages, enabled, manual, auto);
  }

  method ChoosePage(total: nat, page: int, pageSize: int) returns (current: int, size: int, totalPages: int)
    ensures size == (if pageSize > 0 then pageSize else DEFAULT_PAGE_SIZE)
    ensures totalPages == TotalPages(total, size)
    ensures 1 <= current <= totalPages
    ensures 1 <= page <= totalPages ==> current == page
    ensures page > totalPages ==> current == totalPages
    ensures page < 1 ==> current == 1
  {
    current := if page <= 0 then 1 else page;
    size := if pageSize <= 0 then DEFAULT_PAGE_SIZE else pageSize;
    AtLeastOnePage(total, size);
    totalPages := (total + size - 1) / size;
    if totalPages == 0 {
      totalPages := 1;
    }
    if current > totalPages {
      current := totalPages;
    }
  }

  method SlicePage(rows: seq<Line>, page: int, size: int) returns (shown: seq<Line>)
    requires page >= 1 && size >= 1
    ensures shown == PageOf(rows, page, size)
  {
    var start := (page - 1) * size;
    var end := start + size;
    if end > |rows| {
      end := |rows|;
    }
    shown := [];
    if start < |rows| {
      shown := rows[start..end];
    }
  }

  lemma AtLeastOnePage(total: nat, size: nat)
    requires size > 0
    ensures total == 0 ==> (total + size - 1) / size == 0
    ensures total > 0 ==> (total + size - 1) / size >= 1
    ensures TotalPages(total, size) >= 1
  {
  }

  // ---------------------------------------------------------------- the pages together

  /** The first `n` pages one after the other. */
  function Pages(rows: seq<Line>, pageSize: nat, n: nat): seq<Line> {
    if n == 0 then [] else Pages(rows, pageSize, n - 1) + PageOf(rows, n, pageSize)
  }

  lemma {:induction false} PagesArePrefix(rows: seq<Line>, pageSize: nat, n: nat)
    requires pageSize > 0
    ensures Pages(rows, pageSize, n) == rows[..if n * pageSize <= |rows| then n * pageSize else |rows|]
  {
    if n > 0 {
      PagesArePrefix(rows, pageSize, n - 1);
      assert n * pageSize == (n - 1) * pageSize + pageSize;
      assert 0 <= (n - 1) * pageSize;
    }
  }

  /** Walking through all the pages shows every matching key once, in order. */
  lemma PagesShowEverything(rows: seq<Line>, pageSize: nat)
    requires pageSize > 0
    ensures Pages(rows, pageSize, TotalPages(|rows|, pageSize)) == rows
  {
    PagesArePrefix(rows, pageSize, TotalPages(|rows|, pageSize));
    PageBounds(|rows|, pageSize);
    assert rows[..|rows|] == rows;
  }

  /** No page the query can land on is empty while some key matches. */
  lemma NoPageIsEmpty(rows: seq<Line>, pageSize: nat, page: nat)
    requires pageSize > 0 && rows != [] && 1 <= page <= TotalPages(|rows|, pageSize)
    ensures PageOf(rows, page, pageSize) != []
  {
    PageBounds(|rows|, pageSize);
    Scale(page - 1, TotalPages(|rows|, pageSize) - 1, pageSize);
  }

  lemma Scale(a: nat, b: nat, size: nat)
    requires a <= b
    ensures a * size <= b * size
  {
  }

  lemma PageBounds(total: nat, size: nat)
    requires size > 0
    ensures TotalPages(total, size) * size >= total
    ensures total > 0 ==> (TotalPages(total, size) - 1) * size < total
  {
    if total > 0 {
      var n := (total + size - 1) / size;
      assert total + size - 1 == n * size + (total + size - 1) % size;
      assert (n - 1) * size == n * size - size;
    }
  }

  /** The rows shown for a status are the keys that have it. */
  lemma {:induction false} MatchingIsExact(rows: seq<Line>, wanted: int, row: Line)
    ensures row in Matching(rows, Some(wanted)) <==> row in rows && row.status == wanted
  {
    if rows != [] {
      MatchingIsExact(rows[..|rows| - 1], wanted, row);
      assert rows == rows[..|rows| - 1] + [rows[|rows| - 1]];
    }
  }

  /** What a row shows: the index, the status, when and why only of a key that is not enabled, and at most ten
      characters of the key. */
  lemma RowShows(keys: seq<string>, status: map<int, int>, time: map<int, int>, reason: map<int, string>, i: nat)
    requires i < |keys|
    ensures var row := Rows(CellsOf(keys, status, time, reason))[i];
            && row.index == i && row.status == (if i in status then status[i] else 1)
            && row.time == (if row.status != 1 && i in time then time[i] else 0)
            && row.reason == (if row.status != 1 && i in reason then reason[i] else "")
            && row.preview == (if |keys[i]| <= 10 then keys[i] else keys[i][..10] + "...")
  {
  }

  /** The row at a place of a page. */
  lemma PageShows(rows: seq<Line>, page: nat, pageSize: nat, i: nat)
    requires page >= 1 && pageSize > 0
    ensures |PageOf(rows, page, pageSize)| <= pageSize
    ensures i < pageSize ==>
              (i < |PageOf(rows, page, pageSize)| <==> (page - 1) * pageSize + i < |rows|)
    ensures i < |PageOf(rows, page, pageSize)| ==>
              0 <= (page - 1) * pageSize + i < |rows|
              && PageOf(rows, page, pageSize)[i] == rows[(page - 1) * pageSize + i]
  {
    Scale(0, page - 1, pageSize);
  }

  /** The statistics count the keys of each status. */
  lemma StatisticsCount(keys: seq<string>, status: map<int, int>, time: map<int, int>, reason: map<int, string>, x: int)
    ensures Count(CellsOf(keys, status, time, reason), x) ==
            |set i | 0 <= i < |keys| && (if i in status then status[i] else 1) == x|
  {
    var cells := CellsOf(keys, status, time, reason);
    CountIsSize(cells, x);
    assert WithStatus(cells, x) == set i | 0 <= i < |keys| && (if i in status then status[i] else 1) == x;
  }
}

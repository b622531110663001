/** The resynchronizing page scan behind the duration of an Ogg Opus file: the largest granule position
    of the pages it visits. Page layout as in section 6 of RFC 3533. */
module OggScanner {
  import opened Numbers

  const HEADER_SIZE := 27
  const CAPTURE_PATTERN: seq<byte> := [0x4F, 0x67, 0x67, 0x53]
  const TWO_63 := 0x8000_0000_0000_0000
  const TWO_64 := 0x1_0000_0000_0000_0000

  // ---------------------------------------------------------------- little-endian numbers

  function LittleEndian(bytes: seq<byte>): (n: nat) {
    if bytes == [] then 0 else bytes[0] + 256 * LittleEndian(bytes[1..])
  }

  function ToBytes(n: nat, width: nat): (bytes: seq<byte>)
    ensures |bytes| == width
  {
    if width == 0 then [] else [n % 256] + ToBytes(n / 256, width - 1)
  }

  function Power256(width: nat): nat {
    if width == 0 then 1 else 256 * Power256(width - 1)
  }

  lemma {:induction false} NumbersReadBack(n: nat, width: nat)
    requires n < Power256(width)
    ensures LittleEndian(ToBytes(n, width)) == n
  {
    if width > 0 {
      NumbersReadBack(n / 256, width - 1);
      assert ToBytes(n, width)[1..] == ToBytes(n / 256, width - 1);
    }
  }

  /** Go's conversion of an unsigned 64-bit value to `int64`. */
  function Signed(n: nat): int {
    if n < TWO_63 then n else n - TWO_64
  }

  function Unsigned(i: int): nat
    requires -TWO_63 <= i < TWO_63
  {
    if i < 0 then i + TWO_64 else i
  }

  // ---------------------------------------------------------------- the scan

  /** A whole page header lies at the position. */
  predicate HeaderAt(data: seq<byte>, pos: nat) {
    pos + HEADER_SIZE <= |data|
  }

  predicate PatternAt(data: seq<byte>, pos: nat) {
    pos + 4 <= |data| && data[pos..pos + 4] == CAPTURE_PATTERN
  }

  function GranuleAt(data: seq<byte>, pos: nat): int
    requires HeaderAt(data, pos)
  {
    Signed(LittleEndian(data[pos + 6..pos + 14]))
  }

  function Sum(sizes: seq<byte>): nat {
    if sizes == [] then 0 else Sum(sizes[..|sizes| - 1]) + sizes[|sizes| - 1]
  }

  /** The end of the segment table of a page. */
  function TableEnd(data: seq<byte>, pos: nat): nat
    requires HeaderAt(data, pos)
  {
    pos + HEADER_SIZE + data[pos + 26]
  }

  /** The end of a page whose segment table is whole. */
  function PageEnd(data: seq<byte>, pos: nat): (end: nat)
    requires HeaderAt(data, pos) && TableEnd(data, pos) <= |data|
    ensures end >= pos + HEADER_SIZE
  {
    TableEnd(data, pos) + Sum(data[pos + HEADER_SIZE..TableEnd(data, pos)])
  }

  /** The positions from `pos` on at which the scan takes a page to start. */
  function Visits(data: seq<byte>, pos: nat): (starts: seq<nat>)
    ensures Fits(data, starts)
    decreases |data| - pos
  {
    if !HeaderAt(data, pos) then []
    else if !PatternAt(data, pos) then Visits(data, pos + 1)
    else if TableEnd(data, pos) > |data| then [pos]
    else [pos] + Visits(data, PageEnd(data, pos))
  }

  predicate Fits(data: seq<byte>, starts: seq<nat>) {
    forall i :: 0 <= i < |starts| ==> HeaderAt(data, starts[i])
  }

  function Larger(a: int, b: int): int {
    if a > b then a else b
  }

  /** The largest granule position of the pages at the given places, or 0. */
  function LargestGranule(data: seq<byte>, starts: seq<nat>): (g: int)
    requires Fits(data, starts)
    ensures g >= 0
  {
    if starts == [] then 0 else Larger(GranuleAt(data, starts[0]), LargestGranule(data, starts[1..]))
  }

  /** A seekable source; a read at or beyond the end finds nothing. */
  class Reader {
    const data: seq<byte>
    var pos: nat

    constructor (data: seq<byte>)
      ensures this.data == data && pos == 0
    {
      this.data := data;
      pos := 0;
    }

    /** The next `n` bytes, or what is left of them. */
    method Read(n: nat) returns (bytes: seq<byte>)
      modifies this
      ensures old(pos) + n <= |data| ==> bytes == data[old(pos)..old(pos) + n]
      ensures old(pos) + n > |data| ==> bytes == if old(pos) <= |data| then data[old(pos)..] else []
      ensures pos == old(pos) + |bytes|
    {
      if pos > |data| {
        bytes := [];
      } else if pos + n <= |data| {
        bytes := data[pos..pos + n];
      } else {
        bytes := data[pos..];
      }
      pos := pos + |bytes|;
    }

    method Seek(offset: int)
      requires pos + offset >= 0
      modifies this
      ensures pos == old(pos) + offset
    {
      pos := pos + offset;
    }
  }

  method SumSegments(sizes: seq<byte>) returns (total: nat)
    ensures total == Sum(sizes)
  {
    total := 0;
    for i := 0 to |sizes|
      invariant total == Sum(sizes[..i])
    {
      assert sizes[..i + 1][..i] == sizes[..i];
      total := total + sizes[i];
    }
    assert sizes[..|sizes|] == sizes;
  }

  /** What the scan still finds from `pos` on. */
  function Best(data: seq<byte>, pos: nat): (g: nat)
    decreases |data| - pos
  {
    if !HeaderAt(data, pos) then 0
    else if !PatternAt(data, pos) then Best(data, pos + 1)
    else if TableEnd(data, pos) > |data| then Larger(GranuleAt(data, pos), 0)
    else Larger(GranuleAt(data, pos), Best(data, PageEnd(data, pos)))
  }

  lemma {:induction false} BestIsLargest(data: seq<byte>, pos: nat)
    ensures Best(data, pos) == LargestGranule(data, Visits(data, pos))
    decreases |data| - pos
  {
    if HeaderAt(data, pos) {
      if !PatternAt(data, pos) {
        BestIsLargest(data, pos + 1);
      } else if TableEnd(data, pos) > |data| {
        assert [pos][1..] == [];
      } else {
        var rest := Visits(data, PageEnd(data, pos));
        BestIsLargest(data, PageEnd(data, pos));
        assert ([pos] + rest)[1..] == rest;
      }
    }
  }

  /** Reads the segment table of the page at `at` and passes over its payload. */
  method SkipPage(r: Reader, segments: byte, ghost at: nat) returns (whole: bool)
    requires HeaderAt(r.data, at) && r.pos == at + HEADER_SIZE && segments == r.data[at + 26]
    modifies r
    ensures whole <==> TableEnd(r.data, at) <= |r.data|
    ensures whole ==> r.pos == PageEnd(r.data, at)
  {
    var table := r.Read(segments);
    if |table| < segments {
      return false;
    }
    var size := SumSegments(table);
    r.Seek(size);
    return true;
  }

  function HeaderGranule(header: seq<byte>): int
    requires |header| == HEADER_SIZE
  {
    Signed(LittleEndian(header[6..14]))
  }

  lemma HeaderFacts(data: seq<byte>, at: nat, header: seq<byte>)
    requires HeaderAt(data, at) && header == data[at..at + HEADER_SIZE]
    ensures header[..4] == CAPTURE_PATTERN <==> PatternAt(data, at)
    ensures HeaderGranule(header) == GranuleAt(data, at) && header[26] == data[at + 26]
  {
    assert forall i :: 0 <= i < HEADER_SIZE ==> header[i] == data[at + i];
    assert header[..4] == data[at..at + 4];
    assert header[6..14] == data[at + 6..at + 14];
  }

  /** The loop of `getOpusDuration`. */
  method LargestGranuleOf(r: Reader) returns (total: int)
    modifies r
    ensures total == LargestGranule(r.data, Visits(r.data, 0))
  {
    r.pos := 0;
    total := 0;
    BestIsLargest(r.data, 0);
    while true
      invariant total >= 0 && Best(r.data, 0) == Larger(total, Best(r.data, r.pos))
      decreases |r.data| - r.pos
    {
      ghost var at := r.pos;
      var header := r.Read(HEADER_SIZE);
      if |header| < HEADER_SIZE {
        break;
      }
      HeaderFacts(r.data, at, header);
      if header[..4] != CAPTURE_PATTERN {
        r.Seek(-26);
        continue;
      }
      var granule := HeaderGranule(header);
      if granule > total {
        total := granule;
      }
      var whole := SkipPage(r, header[26], at);
      if !whole {
        break;
      }
    }
  }

  // ---------------------------------------------------------------- every byte sequence

  ghost predicate PagesFrom(data: seq<byte>, v: seq<nat>, pos: nat) {
    && (forall i :: 0 <= i < |v| ==> v[i] >= pos && PatternAt(data, v[i]))
    && (forall i, j :: 0 <= i < j < |v| ==> v[i] + HEADER_SIZE <= v[j])
  }

  lemma PagesFromCons(data: seq<byte>, v: seq<nat>, pos: nat, end: nat)
    requires PatternAt(data, pos) && PagesFrom(data, v, end) && end >= pos + HEADER_SIZE
    ensures PagesFrom(data, [pos] + v, pos)
  {
  }

  /** Visited positions carry the capture pattern and rise by at least a header each. */
  lemma {:induction false} VisitsAreOrderedPages(data: seq<byte>, pos: nat)
    ensures PagesFrom(data, Visits(data, pos), pos)
    decreases |data| - pos
  {
    if HeaderAt(data, pos) {
      if !PatternAt(data, pos) {
        VisitsAreOrderedPages(data, pos + 1);
        assert Visits(data, pos) == Visits(data, pos + 1);
      } else if TableEnd(data, pos) > |data| {
        assert Visits(data, pos) == [pos];
      } else {
        var end := PageEnd(data, pos);
        VisitsAreOrderedPages(data, end);
        assert Visits(data, pos) == [pos] + Visits(data, end);
        PagesFromCons(data, Visits(data, end), pos, end);
      }
    }
  }

  /** The page at `start` covers the position: its header, table or payload, or anything after it when
      its table is cut off. */
  predicate Covers(data: seq<byte>, start: nat, p: nat)
    requires HeaderAt(data, start)
  {
    start <= p && (TableEnd(data, start) <= |data| ==> p < PageEnd(data, start))
  }

  /** No capture pattern with room for a header is passed over, except inside a visited page. */
  lemma {:induction false} NoPageIsMissed(data: seq<byte>, pos: nat, p: nat)
    requires pos <= p && HeaderAt(data, p) && PatternAt(data, p)
    ensures exists i :: 0 <= i < |Visits(data, pos)| && Covers(data, Visits(data, pos)[i], p)
    decreases |data| - pos
  {
    if !PatternAt(data, pos) {
      NoPageIsMissed(data, pos + 1, p);
      assert Visits(data, pos) == Visits(data, pos + 1);
    } else {
      assert Visits(data, pos)[0] == pos;
      if !Covers(data, pos, p) {
        var end := PageEnd(data, pos);
        NoPageIsMissed(data, end, p);
        var i :| 0 <= i < |Visits(data, end)| && Covers(data, Visits(data, end)[i], p);
        assert Visits(data, pos)[i + 1] == Visits(data, end)[i];
      }
    }
  }

  // ---------------------------------------------------------------- well-formed streams

  datatype Page = Page(version: byte, kind: byte, granule: int, identity: seq<byte>, table: seq<byte>,
                       payload: seq<byte>)

  predicate ValidPage(p: Page) {
    && -TWO_63 <= p.granule < TWO_63
    && |p.identity| == 12 && |p.table| < 256 && |p.payload| == Sum(p.table)
  }

  /** Capture pattern, version, header type, granule position, serial number, sequence number and
      checksum, number of segments, segment table, payload. */
  function Encode(p: Page): seq<byte>
    requires ValidPage(p)
  {
    CAPTURE_PATTERN + [p.version, p.kind] + ToBytes(Unsigned(p.granule), 8) + p.identity + [|p.table|]
      + p.table + p.payload
  }

  /** Bytes without a page, then a page. */
  datatype Chunk = Chunk(gap: seq<byte>, page: Page)

  ghost predicate NoPattern(s: seq<byte>) {
    forall i :: 0 <= i < |s| ==> !PatternAt(s, i)
  }

  ghost predicate ValidChunks(chunks: seq<Chunk>) {
    forall i :: 0 <= i < |chunks| ==> ValidPage(chunks[i].page) && NoPattern(chunks[i].gap)
  }

  function ChunkBytes(chunk: Chunk): seq<byte>
    requires ValidPage(chunk.page)
  {
    chunk.gap + Encode(chunk.page)
  }

  function Stream(chunks: seq<Chunk>, tail: seq<byte>): seq<byte>
    requires ValidChunks(chunks)
  {
    if chunks == [] then tail else ChunkBytes(chunks[0]) + Stream(chunks[1..], tail)
  }

  /** Where the pages of a stream start, given where the stream does. */
  function Starts(chunks: seq<Chunk>, base: nat): seq<nat>
    requires ValidChunks(chunks)
  {
    if chunks == [] then []
    else
      [base + |chunks[0].gap|] + Starts(chunks[1..], base + |ChunkBytes(chunks[0])|)
  }

  /** The largest granule position among the pages, or 0: unset positions, which are -1, count for nothing. */
  function LargestOf(chunks: seq<Chunk>): int {
    if chunks == [] then 0 else Larger(chunks[0].page.granule, LargestOf(chunks[1..]))
  }

  lemma SumAppends(sizes: seq<byte>, size: byte)
    ensures Sum([]) == 0 && Sum(sizes + [size]) == Sum(sizes) + size
  {
    assert (sizes + [size])[..|sizes|] == sizes;
  }

  /** The largest position is at least 0 and every page's, and is 0 or some page's. */
  lemma {:induction false} LargestIsLargest(chunks: seq<Chunk>)
    ensures LargestOf(chunks) >= 0
    ensures forall i :: 0 <= i < |chunks| ==> chunks[i].page.granule <= LargestOf(chunks)
    ensures LargestOf(chunks) == 0 || exists i :: 0 <= i < |chunks| && chunks[i].page.granule == LargestOf(chunks)
  {
    if chunks != [] {
      LargestIsLargest(chunks[1..]);
      assert chunks[0].page.granule <= LargestOf(chunks);
      assert forall i :: 1 <= i < |chunks| ==> chunks[i] == chunks[1..][i - 1];
    }
  }

  // ---- reading a page back

  predicate At(data: seq<byte>, pos: nat, s: seq<byte>) {
    pos + |s| <= |data| && data[pos..pos + |s|] == s
  }

  lemma AtParts(data: seq<byte>, pos: nat, a: seq<byte>, b: seq<byte>)
    ensures At(data, pos, a + b) <==> At(data, pos, a) && At(data, pos + |a|, b)
  {
    if At(data, pos, a + b) {
      var s := data[pos..pos + |a + b|];
      assert s[..|a|] == a && s[|a|..] == b;
      assert data[pos..pos + |a|] == s[..|a|] && data[pos + |a|..pos + |a| + |b|] == s[|a|..];
    }
    if At(data, pos, a) && At(data, pos + |a|, b) {
      assert data[pos..pos + |a + b|] == data[pos..pos + |a|] + data[pos + |a|..pos + |a| + |b|];
    }
  }

  lemma Powers()
    ensures Power256(8) == TWO_64
  {
    assert Power256(4) == 0x1_0000_0000;
    assert Power256(6) == 0x1_0000_0000_0000;
  }

  /** An encoded page is recognized, spans its own length, and yields its granule position. */
  lemma PageReadsBack(data: seq<byte>, pos: nat, p: Page)
    requires ValidPage(p) && At(data, pos, Encode(p))
    ensures HeaderAt(data, pos) && PatternAt(data, pos)
    ensures TableEnd(data, pos) <= |data| && PageEnd(data, pos) == pos + |Encode(p)|
    ensures GranuleAt(data, pos) == p.granule
  {
    var g := ToBytes(Unsigned(p.granule), 8);
    var h1 := CAPTURE_PATTERN + [p.version, p.kind];
    var h2 := h1 + g;
    var h3 := h2 + p.identity;
    var h4 := h3 + [|p.table|];
    var h5 := h4 + p.table;
    AtParts(data, pos, h5, p.payload);
    AtParts(data, pos, h4, p.table);
    AtParts(data, pos, h3, [|p.table|]);
    AtParts(data, pos, h2, p.identity);
    AtParts(data, pos, h1, g);
    AtParts(data, pos, CAPTURE_PATTERN, [p.version, p.kind]);
    assert data[pos + 26..pos + 27][0] == data[pos + 26];
    Powers();
    NumbersReadBack(Unsigned(p.granule), 8);
  }

  // ---- gaps

  /** The capture pattern does not overlap itself, so none straddles the end of a gap. */
  lemma NoPatternInGap(data: seq<byte>, pos: nat, gap: seq<byte>, p: nat)
    requires NoPattern(gap) && At(data, pos, gap) && pos <= p < pos + |gap|
    requires pos + |gap| == |data| || PatternAt(data, pos + |gap|)
    ensures !PatternAt(data, p)
  {
    var end := pos + |gap|;
    assert forall i :: 0 <= i < |gap| ==> gap[i] == data[pos..end][i] == data[pos + i];
    PatternBytes(data, p);
    PatternBytes(data, end);
    if p + 4 <= end {
      PatternBytes(gap, p - pos);
    }
  }

  lemma PatternBytes(data: seq<byte>, p: nat)
    ensures PatternAt(data, p) <==>
            && p + 4 <= |data| && data[p] == CAPTURE_PATTERN[0] && data[p + 1] == CAPTURE_PATTERN[1]
            && data[p + 2] == CAPTURE_PATTERN[2] && data[p + 3] == CAPTURE_PATTERN[3]
  {
    if p + 4 <= |data| {
      var s := data[p..p + 4];
      assert s == [data[p], data[p + 1], data[p + 2], data[p + 3]];
    }
  }

  lemma {:induction false} SkipGap(data: seq<byte>, pos: nat, end: nat)
    requires pos <= end && HeaderAt(data, end)
    requires forall p :: pos <= p < end ==> !PatternAt(data, p)
    ensures Visits(data, pos) == Visits(data, end)
    decreases end - pos
  {
    if pos < end {
      SkipGap(data, pos + 1, end);
      assert Visits(data, pos) == Visits(data, pos + 1);
    }
  }

  lemma {:induction false} NothingToFind(data: seq<byte>, pos: nat)
    requires forall p :: pos <= p < |data| ==> !PatternAt(data, p)
    ensures Visits(data, pos) == []
    decreases |data| - pos
  {
    if HeaderAt(data, pos) {
      NothingToFind(data, pos + 1);
      assert Visits(data, pos) == Visits(data, pos + 1);
    }
  }

  // ---- the theorem

  lemma TailVisits(data: seq<byte>, base: nat, tail: seq<byte>)
    requires NoPattern(tail) && At(data, base, tail) && base + |tail| == |data|
    ensures Visits(data, base) == []
  {
    forall p | base <= p < |data|
      ensures !PatternAt(data, p)
    {
      NoPatternInGap(data, base, tail, p);
    }
    NothingToFind(data, base);
  }

  /** The scan from `base` visits the page of the chunk there and goes on after it. */
  ghost predicate Seen(data: seq<byte>, base: nat, chunk: Chunk)
    requires ValidPage(chunk.page)
  {
    Visits(data, base) == [base + |chunk.gap|] + Visits(data, base + |ChunkBytes(chunk)|)
  }

  ghost predicate AllSeen(data: seq<byte>, base: nat, chunks: seq<Chunk>)
    requires ValidChunks(chunks)
    decreases |chunks|
  {
    if chunks == [] then Visits(data, base) == []
    else Seen(data, base, chunks[0]) && AllSeen(data, base + |ChunkBytes(chunks[0])|, chunks[1..])
  }

  /** The bytes at the given places read as the pages of the chunks. */
  ghost predicate Read(data: seq<byte>, starts: seq<nat>, chunks: seq<Chunk>) {
    if chunks == [] then starts == []
    else
      && starts != [] && HeaderAt(data, starts[0]) && GranuleAt(data, starts[0]) == chunks[0].page.granule
      && Read(data, starts[1..], chunks[1..])
  }

  lemma GapIsSkipped(data: seq<byte>, base: nat, gap: seq<byte>)
    requires NoPattern(gap) && At(data, base, gap)
    requires HeaderAt(data, base + |gap|) && PatternAt(data, base + |gap|)
    ensures Visits(data, base) == Visits(data, base + |gap|)
  {
    forall p | base <= p < base + |gap|
      ensures !PatternAt(data, p)
    {
      NoPatternInGap(data, base, gap, p);
    }
    SkipGap(data, base, base + |gap|);
  }

  lemma PageIsVisited(data: seq<byte>, base: nat, gap: seq<byte>, length: nat)
    requires NoPattern(gap) && At(data, base, gap)
    requires HeaderAt(data, base + |gap|) && PatternAt(data, base + |gap|)
    requires TableEnd(data, base + |gap|) <= |data| && PageEnd(data, base + |gap|) == base + |gap| + length
    ensures Visits(data, base) == [base + |gap|] + Visits(data, base + |gap| + length)
  {
    GapIsSkipped(data, base, gap);
  }

  /** A gap and a page: one visit, at the start of the page. */
  lemma ChunkVisit(data: seq<byte>, base: nat, chunk: Chunk)
    requires ValidPage(chunk.page) && NoPattern(chunk.gap) && At(data, base, ChunkBytes(chunk))
    ensures Seen(data, base, chunk)
  {
    AtParts(data, base, chunk.gap, Encode(chunk.page));
    PageReadsBack(data, base + |chunk.gap|, chunk.page);
    PageIsVisited(data, base, chunk.gap, |Encode(chunk.page)|);
  }

  /** The chunks lie one after the other from `base`, and the tail ends the data. */
  ghost predicate Laid(data: seq<byte>, base: nat, chunks: seq<Chunk>, tail: seq<byte>)
    requires ValidChunks(chunks)
    decreases |chunks|
  {
    if chunks == [] then At(data, base, tail) && base + |tail| == |data|
    else At(data, base, ChunkBytes(chunks[0])) && Laid(data, base + |ChunkBytes(chunks[0])|, chunks[1..], tail)
  }

  lemma {:induction false} StreamIsLaid(data: seq<byte>, base: nat, chunks: seq<Chunk>, tail: seq<byte>)
    requires ValidChunks(chunks)
    requires At(data, base, Stream(chunks, tail)) && base + |Stream(chunks, tail)| == |data|
    ensures Laid(data, base, chunks, tail)
    decreases |chunks|
  {
    if chunks != [] {
      AtParts(data, base, ChunkBytes(chunks[0]), Stream(chunks[1..], tail));
      StreamIsLaid(data, base + |ChunkBytes(chunks[0])|, chunks[1..], tail);
    }
  }

  lemma {:induction false} LaidIsSeen(data: seq<byte>, base: nat, chunks: seq<Chunk>, tail: seq<byte>)
    requires ValidChunks(chunks) && NoPattern(tail) && Laid(data, base, chunks, tail)
    ensures AllSeen(data, base, chunks)
    decreases |chunks|
  {
    if chunks == [] {
      TailVisits(data, base, tail);
    } else {
      ChunkVisit(data, base, chunks[0]);
      LaidIsSeen(data, base + |ChunkBytes(chunks[0])|, chunks[1..], tail);
    }
  }

  lemma ReadMore(data: seq<byte>, start: nat, rest: seq<nat>, chunks: seq<Chunk>)
    requires chunks != [] && Read(data, rest, chunks[1..])
    requires HeaderAt(data, start) && GranuleAt(data, start) == chunks[0].page.granule
    ensures Read(data, [start] + rest, chunks)
  {
    assert ([start] + rest)[1..] == rest;
  }

  lemma ChunkRead(data: seq<byte>, base: nat, chunk: Chunk)
    requires ValidPage(chunk.page) && At(data, base, ChunkBytes(chunk))
    ensures HeaderAt(data, base + |chunk.gap|) && GranuleAt(data, base + |chunk.gap|) == chunk.page.granule
  {
    AtParts(data, base, chunk.gap, Encode(chunk.page));
    PageReadsBack(data, base + |chunk.gap|, chunk.page);
  }

  lemma {:induction false} LaidIsRead(data: seq<byte>, base: nat, chunks: seq<Chunk>, tail: seq<byte>)
    requires ValidChunks(chunks) && Laid(data, base, chunks, tail)
    ensures Read(data, Starts(chunks, base), chunks)
    decreases |chunks|
  {
    if chunks != [] {
      LaidIsRead(data, base + |ChunkBytes(chunks[0])|, chunks[1..], tail);
      LaidFirst(data, base, chunks);
    }
  }

  lemma LaidFirst(data: seq<byte>, base: nat, chunks: seq<Chunk>)
    requires chunks != [] && ValidChunks(chunks) && At(data, base, ChunkBytes(chunks[0]))
    requires Read(data, Starts(chunks[1..], base + |ChunkBytes(chunks[0])|), chunks[1..])
    ensures Read(data, Starts(chunks, base), chunks)
  {
    ChunkRead(data, base, chunks[0]);
    ReadMore(data, base + |chunks[0].gap|, Starts(chunks[1..], base + |ChunkBytes(chunks[0])|), chunks);
  }

  lemma {:induction false} SeenStarts(data: seq<byte>, base: nat, chunks: seq<Chunk>)
    requires ValidChunks(chunks) && AllSeen(data, base, chunks)
    ensures Visits(data, base) == Starts(chunks, base)
    decreases |chunks|
  {
    if chunks != [] {
      SeenStarts(data, base + |ChunkBytes(chunks[0])|, chunks[1..]);
    }
  }

  lemma {:induction false} ReadLargest(data: seq<byte>, starts: seq<nat>, chunks: seq<Chunk>)
    requires Read(data, starts, chunks)
    ensures Fits(data, starts) && LargestGranule(data, starts) == LargestOf(chunks)
  {
    if chunks != [] {
      ReadLargest(data, starts[1..], chunks[1..]);
    }
  }

  /** On pages separated by bytes without the capture pattern, the scan visits exactly the page starts
      and finds the largest granule position of the pages. */
  lemma StreamIsScannedExactly(chunks: seq<Chunk>, tail: seq<byte>)
    requires ValidChunks(chunks) && NoPattern(tail)
    ensures var data := Stream(chunks, tail);
            Visits(data, 0) == Starts(chunks, 0) && LargestGranule(data, Visits(data, 0)) == LargestOf(chunks)
  {
    var data := Stream(chunks, tail);
    assert data[0..|data|] == data;
    StreamIsLaid(data, 0, chunks, tail);
    LaidIsSeen(data, 0, chunks, tail);
    SeenStarts(data, 0, chunks);
    LaidIsRead(data, 0, chunks, tail);
    ReadLargest(data, Starts(chunks, 0), chunks);
  }
}

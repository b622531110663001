/** Request bodies kept in memory or in a cache file, and the usage counters they keep. */
module BodyStorage {
  import opened Wrappers
  import opened Numbers

  datatype StorageError = StorageClosed | TooLarge | ReadFailed | DiskFailed

  /** The counters of `diskCacheStats`. */
  class Stats {
    var files: int
    var diskBytes: int
    var buffers: int
    var memoryBytes: int
    var diskHits: int
    var memoryHits: int

    constructor ()
      ensures files == 0 && diskBytes == 0 && buffers == 0 && memoryBytes == 0 && diskHits == 0 && memoryHits == 0
    {
      files, diskBytes, buffers, memoryBytes, diskHits, memoryHits := 0, 0, 0, 0, 0, 0;
    }

    /** The counters of one kind of storage. */
    function Usage(isDisk: bool): (int, int)
      reads this
    {
      if isDisk then (files, diskBytes) else (buffers, memoryBytes)
    }

    method Increment(isDisk: bool, size: nat)
      modifies this
      ensures Usage(isDisk) == (old(Usage(isDisk)).0 + 1, old(Usage(isDisk)).1 + size)
      ensures Usage(!isDisk) == old(Usage(!isDisk)) && diskHits == old(diskHits) && memoryHits == old(memoryHits)
    {
      if isDisk {
        files, diskBytes := files + 1, diskBytes + size;
      } else {
        buffers, memoryBytes := buffers + 1, memoryBytes + size;
      }
    }

    /** The disk counters are reset when they come out negative. */
    method Decrement(isDisk: bool, size: nat)
      modifies this
      ensures Usage(isDisk) == Shrunk(old(Usage(isDisk)), size, isDisk)
      ensures isDisk ==> && files == (if old(files) >= 1 then old(files) - 1 else 0)
                         && diskBytes == (if old(diskBytes) >= size then old(diskBytes) - size else 0)
      ensures !isDisk ==> buffers == old(buffers) - 1 && memoryBytes == old(memoryBytes) - size
      ensures Usage(!isDisk) == old(Usage(!isDisk)) && diskHits == old(diskHits) && memoryHits == old(memoryHits)
    {
      if isDisk {
        files := files - 1;
        if files < 0 {
          files := 0;
        }
        diskBytes := diskBytes - size;
        if diskBytes < 0 {
          diskBytes := 0;
        }
      } else {
        buffers, memoryBytes := buffers - 1, memoryBytes - size;
      }
    }
  }

  function Max(a: int, b: int): int {
    if a >= b then a else b
  }

  /** Counters with one body less; those of the disk stop at zero. */
  function Shrunk(usage: (int, int), size: nat, isDisk: bool): (int, int) {
    if isDisk then (Max(usage.0 - 1, 0), Max(usage.1 - size, 0)) else (usage.0 - 1, usage.1 - size)
  }

  function Min(a: int, b: int): int {
    if a <= b then a else b
  }

  /** A stored body: `memoryStorage` or `diskStorage`, which differ in the counters they use and in how
      they produce the whole contents. */
  class Storage {
    const stats: Stats
    const isDisk: bool
    const data: seq<byte>
    var pos: nat
    var closed: bool

    constructor (stats: Stats, isDisk: bool, data: seq<byte>)
      modifies stats
      ensures this.stats == stats && this.isDisk == isDisk && this.data == data && pos == 0 && !closed
      ensures stats.Usage(isDisk) == (old(stats.Usage(isDisk)).0 + 1, old(stats.Usage(isDisk)).1 + |data|)
      ensures stats.Usage(!isDisk) == old(stats.Usage(!isDisk))
      ensures stats.diskHits == old(stats.diskHits) && stats.memoryHits == old(stats.memoryHits)
    {
      this.stats, this.isDisk, this.data, pos, closed := stats, isDisk, data, 0, false;
      new;
      stats.Increment(isDisk, |data|);
    }

    method Read(n: nat) returns (r: Result<seq<byte>, StorageError>)
      modifies this`pos
      ensures closed ==> r == Err(StorageClosed) && pos == old(pos)
      ensures !closed ==> r.Ok? && pos == old(pos) + |r.value|
      ensures !closed && old(pos) <= |data| ==> r.value == data[old(pos)..Min(old(pos) + n, |data|)]
      ensures !closed && old(pos) > |data| ==> r.value == []
    {
      if closed {
        return Err(StorageClosed);
      }
      var chunk := if pos <= |data| then data[pos..Min(pos + n, |data|)] else [];
      pos := pos + |chunk|;
      return Ok(chunk);
    }

    /** Seeks from the start. */
    method Seek(offset: nat) returns (r: Result<nat, StorageError>)
      modifies this`pos
      ensures r == if closed then Err(StorageClosed) else Ok(offset)
      ensures pos == if closed then old(pos) else offset
    {
      if closed {
        return Err(StorageClosed);
      }
      pos := offset;
      return Ok(offset);
    }

    /** The whole contents; a disk body seeks to its start, reads everything and seeks back. */
    method Bytes() returns (r: Result<seq<byte>, StorageError>)
      modifies this`pos
      ensures r == if closed then Err(StorageClosed) else Ok(data)
      ensures pos == old(pos)
    {
      if closed {
        return Err(StorageClosed);
      }
      if !isDisk {
        return Ok(data);
      }
      var current := pos;
      var s := Seek(0);
      r := Read(|data|);
      assert data[0..|data|] == data;
      s := Seek(current);
    }

    /** The first call gives back what the body counted for; later calls change nothing. */
    method Close()
      modifies this`closed, stats
      ensures closed
      ensures old(closed) ==>
                stats.Usage(true) == old(stats.Usage(true)) && stats.Usage(false) == old(stats.Usage(false))
      ensures !old(closed) ==>
                && stats.Usage(!isDisk) == old(stats.Usage(!isDisk))
                && stats.Usage(isDisk) == Shrunk(old(stats.Usage(isDisk)), |data|, isDisk)
    {
      if !closed {
        closed := true;
        stats.Decrement(isDisk, |data|);
      }
    }
  }

  // ---------------------------------------------------------------- choosing a storage

  datatype Config = Config(enabled: bool, threshold: int, maxBytes: int)

  ghost predicate UsesDisk(config: Config, usage: int, size: int) {
    config.enabled && size >= config.threshold && usage + size <= config.maxBytes
  }

  /** Counters with one more body, if it is of their kind. */
  function Grown(usage: (int, int), size: nat, grows: bool): (int, int) {
    if grows then (usage.0 + 1, usage.1 + size) else usage
  }

  /** `CreateBodyStorage`: a failing disk falls back to memory. */
  method Create(data: seq<byte>, config: Config, stats: Stats, diskFails: bool) returns (storage: Storage)
    modifies stats
    ensures fresh(storage) && storage.stats == stats && storage.data == data && storage.pos == 0 && !storage.closed
    ensures storage.isDisk <==> UsesDisk(config, old(stats.diskBytes), |data|) && !diskFails
    ensures storage.isDisk && old(stats.diskBytes) >= 0 ==> stats.diskBytes <= config.maxBytes
    ensures stats.Usage(true) == Grown(old(stats.Usage(true)), |data|, storage.isDisk)
    ensures stats.Usage(false) == Grown(old(stats.Usage(false)), |data|, !storage.isDisk)
    ensures stats.diskHits == old(stats.diskHits) && stats.memoryHits == old(stats.memoryHits)
  {
    if config.enabled && |data| >= config.threshold && stats.diskBytes + |data| <= config.maxBytes {
      if !diskFails {
        storage := new Storage(stats, true, data);
        return;
      }
    }
    storage := new Storage(stats, false, data);
  }

  /** What a reader limited to one byte more than allowed delivers. */
  function Limited(body: seq<byte>, limit: int): seq<byte> {
    if limit + 1 <= 0 then [] else body[..Min(|body|, limit + 1)]
  }

  lemma LimitedIsTooLong(body: seq<byte>, limit: int)
    ensures |Limited(body, limit)| > limit <==> |body| > limit
    ensures |body| <= limit ==> Limited(body, limit) == body
  {
  }

  /** `CreateBodyStorageFromReader`: whichever way it takes, a body within the limit is stored whole and a
      longer one is refused. */
  method CreateFromReader(body: seq<byte>, readFails: bool, contentLength: int, limit: int, config: Config,
                          stats: Stats, diskFails: bool)
    returns (r: Result<Storage, StorageError>)
    modifies stats
    ensures r.Ok? ==> |body| <= limit && fresh(r.value) && r.value.data == body && r.value.pos == 0 && !r.value.closed
    ensures r.Ok? ==> && stats.diskHits == old(stats.diskHits) + (if r.value.isDisk then 1 else 0)
                      && stats.memoryHits == old(stats.memoryHits) + (if r.value.isDisk then 0 else 1)
                      && stats.Usage(true) == Grown(old(stats.Usage(true)), |body|, r.value.isDisk)
                      && stats.Usage(false) == Grown(old(stats.Usage(false)), |body|, !r.value.isDisk)
    ensures r.Err? ==> && stats.Usage(true) == old(stats.Usage(true)) && stats.Usage(false) == old(stats.Usage(false))
                       && stats.diskHits == old(stats.diskHits) && stats.memoryHits == old(stats.memoryHits)
    ensures !readFails && !diskFails ==> (r.Ok? <==> |body| <= limit) && (r.Err? ==> r.error == TooLarge)
    ensures readFails ==> r.Err?
    ensures var hinted := contentLength > 0 && UsesDisk(config, old(stats.diskBytes), contentLength);
            && (diskFails && hinted ==> r == Err(DiskFailed))
            && (diskFails && !hinted && !readFails ==> (r.Ok? <==> |body| <= limit))
            && (r.Ok? ==> (r.value.isDisk <==>
                           hinted || (UsesDisk(config, old(stats.diskBytes), |body|) && !diskFails)))
  {
    LimitedIsTooLong(body, limit);
    if config.enabled && contentLength > 0 && contentLength >= config.threshold
       && stats.diskBytes + contentLength <= config.maxBytes {
      if diskFails || readFails {
        return Err(DiskFailed);
      }
      var written := Limited(body, limit);
      if |written| > limit {
        return Err(TooLarge);
      }
      var disk := new Storage(stats, true, written);
      stats.diskHits := stats.diskHits + 1;
      return Ok(disk);
    }
    if readFails {
      return Err(ReadFailed);
    }
    var data := Limited(body, limit);
    if |data| > limit {
      return Err(TooLarge);
    }
    var storage := Create(data, config, stats, diskFails);
    if storage.isDisk {
      stats.diskHits := stats.diskHits + 1;
    } else {
      stats.memoryHits := stats.memoryHits + 1;
    }
    return Ok(storage);
  }
}

/** Log retrieval of the leaderboard route (game01/app/api/leaderboard/route.js):
    the block ranges the chunk loop asks the provider for, the provider's
    `getLogs` seen as a filter over the contract's ordered log sequence, and
    the concatenation of the per-chunk answers. */
module ChainLogs {
  import opened IntMath

  /** Number of blocks asked for per `getLogs` call. */
  const LOG_CHUNK: nat := 10000

  /** One raw entry returned by `eth_getLogs` for the contract and topic. */
  datatype RawLog = RawLog(
    blockNumber: nat,
    logIndex: nat,
    transactionHash: string,
    topics: seq<seq<bv8>>,
    data: seq<bv8>)

  /** An inclusive block range `[lo, hi]`, the `fromBlock`/`toBlock` of one query. */
  datatype Range = Range(lo: nat, hi: nat)

  /** The ranges visited by `for (start = fromBlock; start <= toBlock; start += size)`,
      each one ending at `min(start + size - 1, toBlock)`. */
  function Chunks(start: nat, toBlock: nat, size: nat): seq<Range>
    requires size > 0
    decreases toBlock + 1 - start
  {
    if start > toBlock then []
    else [Range(start, Min(start + size - 1, toBlock))] + Chunks(start + size, toBlock, size)
  }

  /** Blocks are in chain order: what the provider guarantees of its answers. */
  ghost predicate ChainOrdered(logs: seq<RawLog>) {
    forall i, j :: 0 <= i < j < |logs| ==> logs[i].blockNumber <= logs[j].blockNumber
  }

  /** The logs whose block lies in `[lo, hi]`, in their original order: what one
      `getLogs({fromBlock: lo, toBlock: hi})` call answers. */
  function InRange(logs: seq<RawLog>, lo: int, hi: int): seq<RawLog>
  {
    if logs == [] then []
    else (if lo <= logs[0].blockNumber <= hi then [logs[0]] else []) + InRange(logs[1..], lo, hi)
  }

  /** One query answers exactly the logs whose block lies in its range. */
  lemma {:induction false} InRangeMembers(logs: seq<RawLog>, lo: int, hi: int)
    ensures forall x :: x in InRange(logs, lo, hi) <==> x in logs && lo <= x.blockNumber <= hi
  {
    if logs != [] {
      InRangeMembers(logs[1..], lo, hi);
      assert logs == [logs[0]] + logs[1..];
    }
  }

  /** The answers to the queries `cs`, concatenated in query order (`allLogs.push(...logs)`). */
  function Gathered(logs: seq<RawLog>, cs: seq<Range>): seq<RawLog>
  {
    if cs == [] then []
    else InRange(logs, cs[0].lo, cs[0].hi) + Gathered(logs, cs[1..])
  }

  /** The chunks tile `[start, toBlock]`: each is non-empty and at most `size` blocks
      long, the first starts at `start`, the last ends at `toBlock`, and each starts
      right after the previous one ends. Nothing is visited when `start > toBlock`. */
  lemma {:induction false} ChunksTile(start: nat, toBlock: nat, size: nat)
    requires size > 0
    ensures var cs := Chunks(start, toBlock, size);
      (start > toBlock <==> cs == []) &&
      (start <= toBlock ==> cs[0].lo == start && cs[|cs| - 1].hi == toBlock) &&
      (forall i :: 0 <= i < |cs| ==>
         start <= cs[i].lo <= cs[i].hi <= toBlock && cs[i].hi - cs[i].lo < size) &&
      (forall i :: 0 <= i < |cs| - 1 ==> cs[i + 1].lo == cs[i].hi + 1)
    decreases toBlock + 1 - start
  {
    if start <= toBlock {
      var cs := Chunks(start, toBlock, size);
      var rest := Chunks(start + size, toBlock, size);
      assert cs == [Range(start, Min(start + size - 1, toBlock))] + rest;
      ChunksTile(start + size, toBlock, size);
      forall i | 0 <= i < |cs| - 1
        ensures cs[i + 1].lo == cs[i].hi + 1
      {
        if i > 0 { assert cs[i] == rest[i - 1] && cs[i + 1] == rest[i]; }
      }
    }
  }

  /** The chunks are pairwise disjoint and ascending. */
  lemma {:induction false} ChunksDisjoint(start: nat, toBlock: nat, size: nat)
    requires size > 0
    ensures var cs := Chunks(start, toBlock, size);
      forall i, j :: 0 <= i < j < |cs| ==> cs[i].hi < cs[j].lo
    decreases toBlock + 1 - start
  {
    if start <= toBlock {
      var cs := Chunks(start, toBlock, size);
      var rest := Chunks(start + size, toBlock, size);
      assert cs == [Range(start, Min(start + size - 1, toBlock))] + rest;
      ChunksTile(start + size, toBlock, size);
      ChunksDisjoint(start + size, toBlock, size);
      forall i, j | 0 <= i < j < |cs|
        ensures cs[i].hi < cs[j].lo
      {
        assert cs[j] == rest[j - 1];
        if i > 0 { assert cs[i] == rest[i - 1]; }
      }
    }
  }

  /** The union of the chunks is exactly `[start, toBlock]`. */
  lemma {:induction false} ChunksCover(start: nat, toBlock: nat, size: nat, b: int)
    requires size > 0
    ensures var cs := Chunks(start, toBlock, size);
      (start <= b <= toBlock) <==> exists i :: 0 <= i < |cs| && cs[i].lo <= b <= cs[i].hi
    decreases toBlock + 1 - start
  {
    var cs := Chunks(start, toBlock, size);
    ChunksTile(start, toBlock, size);
    if start <= b <= toBlock {
      var rest := Chunks(start + size, toBlock, size);
      assert cs == [Range(start, Min(start + size - 1, toBlock))] + rest;
      if b <= start + size - 1 {
        assert cs[0].lo <= b <= cs[0].hi;
      } else {
        ChunksCover(start + size, toBlock, size, b);
        var i :| 0 <= i < |rest| && rest[i].lo <= b <= rest[i].hi;
        assert cs[i + 1] == rest[i];
      }
    }
  }

  /** Nothing lies in a range that no block of `logs` falls into. */
  lemma {:induction false} InRangeNone(logs: seq<RawLog>, lo: int, hi: int)
    requires forall i :: 0 <= i < |logs| ==> !(lo <= logs[i].blockNumber <= hi)
    ensures InRange(logs, lo, hi) == []
  {
    if logs != [] {
      InRangeNone(logs[1..], lo, hi);
    }
  }

  /** A suffix of logs in chain order is in chain order. */
  lemma ChainOrderedTail(logs: seq<RawLog>)
    requires ChainOrdered(logs) && logs != []
    ensures ChainOrdered(logs[1..])
    ensures forall i :: 0 <= i < |logs| - 1 ==> logs[0].blockNumber <= logs[1..][i].blockNumber
  {
    var rest := logs[1..];
    forall i, j | 0 <= i < j < |rest| ensures rest[i].blockNumber <= rest[j].blockNumber {
      assert rest[i] == logs[i + 1] && rest[j] == logs[j + 1];
    }
  }

  /** One query over `logs` is the head's contribution followed by the query over the tail. */
  lemma InRangeCons(logs: seq<RawLog>, lo: int, hi: int)
    requires logs != []
    ensures InRange(logs, lo, hi) ==
      (if lo <= logs[0].blockNumber <= hi then [logs[0]] else []) + InRange(logs[1..], lo, hi)
  {
  }

  /** An empty range holds no log. */
  lemma {:induction false} InRangeEmptyRange(logs: seq<RawLog>, lo: int, hi: int)
    requires hi < lo
    ensures InRange(logs, lo, hi) == []
  {
    if logs != [] {
      InRangeEmptyRange(logs[1..], lo, hi);
    }
  }

  /** Over logs in chain order, querying `[lo, m]` then `[m + 1, hi]` answers
      what one query of `[lo, hi]` would. */
  lemma {:induction false} InRangeSplit(logs: seq<RawLog>, lo: int, m: int, hi: int)
    requires ChainOrdered(logs)
    requires lo <= m + 1 && m <= hi
    ensures InRange(logs, lo, m) + InRange(logs, m + 1, hi) == InRange(logs, lo, hi)
  {
    if logs != [] {
      var b, rest := logs[0].blockNumber, logs[1..];
      ChainOrderedTail(logs);
      InRangeSplit(rest, lo, m, hi);
      InRangeCons(logs, lo, m);
      InRangeCons(logs, m + 1, hi);
      InRangeCons(logs, lo, hi);
      var left, right, whole := InRange(rest, lo, m), InRange(rest, m + 1, hi), InRange(rest, lo, hi);
      if m < b <= hi {
        // every later block lies above m too, so [lo, m] is empty from here on
        InRangeNone(rest, lo, m);
        assert [logs[0]] + right == [logs[0]] + whole;
      } else if lo <= b <= m {
        assert ([logs[0]] + left) + right == [logs[0]] + (left + right);
      }
    }
  }

  /** The answers to a list of queries, appended, are the answers to each part. */
  lemma {:induction false} GatheredAppend(logs: seq<RawLog>, a: seq<Range>, b: seq<Range>)
    ensures Gathered(logs, a + b) == Gathered(logs, a) + Gathered(logs, b)
  {
    if a == [] {
      assert a + b == b;
    } else {
      assert (a + b)[0] == a[0] && (a + b)[1..] == a[1..] + b;
      GatheredAppend(logs, a[1..], b);
    }
  }

  /** Chunking transparency: over logs in chain order, the chunked queries of
      `[start, toBlock]` gather exactly the logs of `[start, toBlock]`, whatever the
      positive chunk size. */
  lemma {:induction false} GatheredChunks(logs: seq<RawLog>, start: nat, toBlock: nat, size: nat)
    requires ChainOrdered(logs) && size > 0
    ensures Gathered(logs, Chunks(start, toBlock, size)) == InRange(logs, start, toBlock)
    decreases toBlock + 1 - start
  {
    if start > toBlock {
      InRangeEmptyRange(logs, start, toBlock);
    } else {
      var e := Min(start + size - 1, toBlock);
      var rest := Chunks(start + size, toBlock, size);
      ChunksStep(start, toBlock, size);
      GatheredCons(logs, Range(start, e), rest);
      GatheredChunks(logs, start + size, toBlock, size);
      if e == toBlock {
        InRangeEmptyRange(logs, start + size, toBlock);
        assert InRange(logs, start, e) + [] == InRange(logs, start, toBlock);
      } else {
        InRangeSplit(logs, start, e, toBlock);
      }
    }
  }

  /** The loop's first chunk, and the chunks after it. */
  lemma ChunksStep(start: nat, toBlock: nat, size: nat)
    requires size > 0 && start <= toBlock
    ensures Chunks(start, toBlock, size) ==
      [Range(start, Min(start + size - 1, toBlock))] + Chunks(start + size, toBlock, size)
  {
  }

  lemma GatheredCons(logs: seq<RawLog>, c: Range, cs: seq<Range>)
    ensures Gathered(logs, [c] + cs) == InRange(logs, c.lo, c.hi) + Gathered(logs, cs)
  {
    assert ([c] + cs)[0] == c && ([c] + cs)[1..] == cs;
  }

  /** Two chunk sizes give the same logs: the leaderboard does not depend on `LOG_CHUNK`. */
  lemma ChunkSizeIrrelevant(logs: seq<RawLog>, start: nat, toBlock: nat, s1: nat, s2: nat)
    requires ChainOrdered(logs) && s1 > 0 && s2 > 0
    ensures Gathered(logs, Chunks(start, toBlock, s1)) == Gathered(logs, Chunks(start, toBlock, s2))
  {
    GatheredChunks(logs, start, toBlock, s1);
    GatheredChunks(logs, start, toBlock, s2);
  }
}

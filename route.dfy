/** The `GET` handler of game01/app/api/leaderboard/route.js: validate the
    contract address, pick the block range, check that code is deployed, gather
    the logs chunk by chunk, keep the best row per user, rank and cut. The
    JSON-RPC provider, the address check and the ABI decoder are inputs. */
module LeaderboardRoute {
  import opened Wrappers
  import opened IntMath
  import opened ChainLogs
  import opened BestScores
  import opened Ranking

  /** The cap applied with `Math.min(..., 50)`. */
  const MAX_LIMIT: int := 50
  /** The rows returned when no `limit` is given. */
  const DEFAULT_LIMIT: int := 10

  /** The `limit` query parameter, as `Number(searchParams.get("limit") || 10)` reads it. */
  datatype LimitParam =
    | Absent        // missing or empty: the default of 10 applies
    | Given(n: int) // text that converts to the integer n
    | NotNumeric    // text that converts to NaN

  /** The end handed to `slice(0, limit)`; `slice` reads NaN as 0. */
  function SliceEnd(p: LimitParam): (e: int)
    ensures e <= MAX_LIMIT
    ensures p.Absent? ==> e == DEFAULT_LIMIT
    ensures p.Given? && p.n <= MAX_LIMIT ==> e == p.n
    ensures p.Given? && p.n >= MAX_LIMIT ==> e == MAX_LIMIT
    ensures p.NotNumeric? ==> e == 0
  {
    match p
    case Absent => Min(DEFAULT_LIMIT, MAX_LIMIT)
    case Given(n) => Min(n, MAX_LIMIT)
    case NotNumeric => 0
  }

  /** The first block scanned: the deploy block when it is positive and not
      past the head, otherwise `lookback` blocks back from the head, but not
      before block 0. */
  function FromBlock(deployBlock: int, lookback: int, latest: nat): (b: nat)
    ensures 0 < deployBlock <= latest ==> b == deployBlock
    ensures !(0 < deployBlock <= latest) ==> b >= latest - lookback && (b == 0 || b == latest - lookback)
    ensures 0 <= lookback ==> b <= latest
  {
    if 0 < deployBlock <= latest then deployBlock else Max(0, latest - lookback)
  }

  /** What the JSON-RPC provider answers for the configured contract. */
  datatype Provider = Provider(
    blockNumber: Option<nat>, // getBlockNumber(); None when the call throws
    code: Option<string>,     // getCode(address); None when the call throws
    logs: seq<RawLog>,        // the contract's logs with the `Played` topic, in chain order
    failing: set<Range>)      // the ranges for which getLogs throws

  /** One `getLogs({address, fromBlock, toBlock, topics: [topic0]})` call. */
  function QueryLogs(p: Provider, c: Range): (r: Option<seq<RawLog>>)
    ensures r.None? <==> c in p.failing
    ensures r.Some? ==> r.value == InRange(p.logs, c.lo, c.hi)
  {
    if c in p.failing then None else Some(InRange(p.logs, c.lo, c.hi))
  }

  /** `!code || code === "0x"`: nothing is deployed at the address. */
  predicate NoCode(code: string) { code == "" || code == "0x" }

  /** The `meta` object of a successful response (the echoed RPC URL and
      contract address are left out). */
  datatype Meta = Meta(fromBlock: nat, toBlock: nat, chunk: nat, logsCount: nat, usersCount: nat)

  datatype Response =
    | Board(rows: seq<Row>, meta: Meta)                         // { ok: true, rows, meta }
    | NoContract(address: string, fromBlock: nat, toBlock: nat) // { ok: false, error: "No contract at ...", meta }
    | Failed                                                     // { ok: false, error } with status 500
  {
    predicate Ok() { Board? }
    function Status(): int { if Failed? then 500 else 200 }
  }

  /** A call made to the provider. */
  datatype Call = HeadQuery | CodeQuery(address: string) | LogsQuery(range: Range)

  function LogQueries(cs: seq<Range>): (q: seq<Call>)
    ensures |q| == |cs| && forall i :: 0 <= i < |cs| ==> q[i] == LogsQuery(cs[i])
  {
    seq(|cs|, i requires 0 <= i < |cs| => LogsQuery(cs[i]))
  }

  /** No chunk's query throws. */
  ghost predicate AllAnswered(cs: seq<Range>, failing: set<Range>) {
    forall c :: c in cs ==> c !in failing
  }

  /** The loop stopped at the first chunk whose query throws: the chunks asked
      are a non-empty prefix of `cs`, the last one threw and none before it did. */
  ghost predicate StoppedAtFirstFailure(asked: seq<Range>, cs: seq<Range>, failing: set<Range>) {
    0 < |asked| <= |cs| && asked == cs[..|asked|] &&
    asked[|asked| - 1] in failing &&
    forall i :: 0 <= i < |asked| - 1 ==> asked[i] !in failing
  }

  /** The chunk loop: one query per chunk, in order, appending each answer.
      It succeeds when no chunk's query throws, with the logs of all chunks in
      chunk order; otherwise it stops at the first chunk that throws. */
  method FetchLogs(p: Provider, fromBlock: nat, toBlock: nat) returns (all: Option<seq<RawLog>>, ghost asked: seq<Range>)
    ensures all.Some? <==> AllAnswered(Chunks(fromBlock, toBlock, LOG_CHUNK), p.failing)
    ensures all.Some? ==>
      all.value == Gathered(p.logs, Chunks(fromBlock, toBlock, LOG_CHUNK)) &&
      asked == Chunks(fromBlock, toBlock, LOG_CHUNK)
    ensures all.None? ==> StoppedAtFirstFailure(asked, Chunks(fromBlock, toBlock, LOG_CHUNK), p.failing)
  {
    ghost var chunks := Chunks(fromBlock, toBlock, LOG_CHUNK);
    ghost var todo := chunks;
    var allLogs: seq<RawLog> := [];
    var start := fromBlock;
    asked := [];
    while start <= toBlock
      invariant chunks == asked + todo && todo == Chunks(start, toBlock, LOG_CHUNK)
      invariant allLogs == Gathered(p.logs, asked)
      invariant AllAnswered(asked, p.failing)
      decreases toBlock + 1 - start
    {
      var end := Min(start + LOG_CHUNK - 1, toBlock);
      var c := Range(start, end);
      ChunksStep(start, toBlock, LOG_CHUNK);
      var logs := QueryLogs(p, c);
      GatheredAppend(p.logs, asked, [c]);
      Advance(chunks, asked, c, todo[1..], p.failing);
      asked, todo := asked + [c], todo[1..];
      if logs.None? {
        return None, asked;
      }
      allLogs := allLogs + logs.value;
      start := start + LOG_CHUNK;
    }
    assert asked == chunks;
    all := Some(allLogs);
  }

  /** Taking the next chunk `c` off the remaining ones: `asked + [c]` is still a
      prefix of the chunks, and if `c` throws the loop has stopped at the first failure. */
  lemma Advance(cs: seq<Range>, asked: seq<Range>, c: Range, rest: seq<Range>, failing: set<Range>)
    requires cs == asked + ([c] + rest) && AllAnswered(asked, failing)
    ensures cs == (asked + [c]) + rest
    ensures c !in failing ==> AllAnswered(asked + [c], failing)
    ensures c in failing ==> StoppedAtFirstFailure(asked + [c], cs, failing) && !AllAnswered(cs, failing)
  {
    assert cs[|asked|] == c;
    assert asked + [c] == cs[..|asked| + 1];
    forall i | 0 <= i < |asked| ensures (asked + [c])[i] !in failing {
      assert (asked + [c])[i] == asked[i];
    }
  }

  /** The `best` loop: every log in order, decode failures skipped. */
  method Reduce(parse: RawLog -> Option<Played>, allLogs: seq<RawLog>) returns (best: Table)
    ensures best == BestOf(parse, allLogs)
  {
    best := Table([], map[]);
    for i := 0 to |allLogs|
      invariant best == BestOf(parse, allLogs[..i])
    {
      assert allLogs[..i + 1][..i] == allLogs[..i];
      match Candidate(parse, allLogs[i]) {
        case None =>
        case Some(row) =>
          if row.user !in best.rows || Outranks(row, best.rows[row.user]) {
            best := best.Set(row.user, row);
          }
      }
    }
    assert allLogs[..|allLogs|] == allLogs;
  }

  /** The reduction and the final `sort`/`slice`, with the user count. */
  method Aggregate(parse: RawLog -> Option<Played>, allLogs: seq<RawLog>, end: int)
    returns (rows: seq<Row>, usersCount: nat)
    ensures rows == Leaderboard(parse, allLogs, end)
    ensures usersCount == |Users(parse, allLogs)|
    ensures Ranked(rows) && DistinctUsers(rows)
    ensures 0 <= end ==> |rows| == Min(end, usersCount)
    ensures end < 0 ==> |rows| == Max(usersCount + end, 0)
  {
    var best := Reduce(parse, allLogs);
    rows := Slice(Sort(best.Values()), end);
    usersCount := |best.keys|;
    LeaderboardRanked(parse, allLogs, end);
    LeaderboardLength(parse, allLogs, end);
    UsersCount(parse, allLogs);
  }

  /** The response the handler gives, as a function of what it is given and
      what the provider answers. `address` is the result of `ethers.getAddress`
      (None when it throws). */
  ghost function Respond(limit: LimitParam, address: Option<string>, deployBlock: int, lookback: int,
                         p: Provider, parse: RawLog -> Option<Played>): Response
  {
    if address.None? || p.blockNumber.None? then Failed
    else
      var latest := p.blockNumber.value;
      var from := FromBlock(deployBlock, lookback, latest);
      var cs := Chunks(from, latest, LOG_CHUNK);
      if p.code.None? then Failed
      else if NoCode(p.code.value) then NoContract(address.value, from, latest)
      else if !AllAnswered(cs, p.failing) then Failed
      else
        var allLogs := Gathered(p.logs, cs);
        Board(Leaderboard(parse, allLogs, SliceEnd(limit)),
              Meta(from, latest, LOG_CHUNK, |allLogs|, |Users(parse, allLogs)|))
  }

  /** The cases of a response: an invalid address or an unreachable head fail;
      with the head known, "no contract" exactly when the code is empty, and rows
      exactly when code is deployed and every chunk query answered (all or
      nothing), the rows being the leaderboard of the gathered logs. */
  lemma RespondCases(limit: LimitParam, address: Option<string>, deployBlock: int, lookback: int,
                     p: Provider, parse: RawLog -> Option<Played>)
    ensures address.None? || p.blockNumber.None? ==>
      Respond(limit, address, deployBlock, lookback, p, parse) == Failed
    ensures address.Some? && p.blockNumber.Some? ==>
      var r := Respond(limit, address, deployBlock, lookback, p, parse);
      var latest := p.blockNumber.value;
      var from := FromBlock(deployBlock, lookback, latest);
      var cs := Chunks(from, latest, LOG_CHUNK);
      var allLogs := Gathered(p.logs, cs);
      (r.NoContract? <==> p.code.Some? && NoCode(p.code.value)) &&
      (r.NoContract? ==> r == NoContract(address.value, from, latest)) &&
      (r.Board? <==> p.code.Some? && !NoCode(p.code.value) && AllAnswered(cs, p.failing)) &&
      (r.Board? ==>
         r.rows == Leaderboard(parse, allLogs, SliceEnd(limit)) &&
         r.meta == Meta(from, latest, LOG_CHUNK, |allLogs|, |Users(parse, allLogs)|)) &&
      // any thrown error: status 500
      (r.Status() == 500 <==>
         p.code.None? || (!NoCode(p.code.value) && !AllAnswered(cs, p.failing)))
  {
  }

  /** Rows of a successful response are ranked, one per user, and as many as
      the limit asks for (at most 50) or as many users as there are. */
  lemma RespondBoard(limit: LimitParam, address: Option<string>, deployBlock: int, lookback: int,
                     p: Provider, parse: RawLog -> Option<Played>)
    ensures var r := Respond(limit, address, deployBlock, lookback, p, parse);
      r.Board? ==>
        Ranked(r.rows) && DistinctUsers(r.rows) &&
        (SliceEnd(limit) >= 0 ==> |r.rows| == Min(SliceEnd(limit), r.meta.usersCount) <= MAX_LIMIT) &&
        (SliceEnd(limit) < 0 ==> |r.rows| == Max(r.meta.usersCount + SliceEnd(limit), 0))
  {
    var r := Respond(limit, address, deployBlock, lookback, p, parse);
    if r.Board? {
      var latest := p.blockNumber.value;
      var from := FromBlock(deployBlock, lookback, latest);
      var allLogs := Gathered(p.logs, Chunks(from, latest, LOG_CHUNK));
      LeaderboardRanked(parse, allLogs, SliceEnd(limit));
      LeaderboardLength(parse, allLogs, SliceEnd(limit));
      UsersCount(parse, allLogs);
    }
  }

  /** Over logs in chain order the chunking is invisible: the rows are the
      leaderboard of the logs of `[fromBlock, latest]`. */
  lemma RespondChainOrdered(limit: LimitParam, address: Option<string>, deployBlock: int, lookback: int,
                            p: Provider, parse: RawLog -> Option<Played>)
    requires ChainOrdered(p.logs)
    ensures var r := Respond(limit, address, deployBlock, lookback, p, parse);
      r.Board? ==>
        var from := FromBlock(deployBlock, lookback, p.blockNumber.value);
        var logs := InRange(p.logs, from, p.blockNumber.value);
        r.rows == Leaderboard(parse, logs, SliceEnd(limit)) && r.meta.logsCount == |logs|
  {
    var r := Respond(limit, address, deployBlock, lookback, p, parse);
    if r.Board? {
      var latest := p.blockNumber.value;
      var from := FromBlock(deployBlock, lookback, latest);
      var allLogs := Gathered(p.logs, Chunks(from, latest, LOG_CHUNK));
      assert r.rows == Leaderboard(parse, allLogs, SliceEnd(limit)) && r.meta.logsCount == |allLogs|;
      GatheredChunks(p.logs, from, latest, LOG_CHUNK);
    }
  }

  /** The handler. `getAddress` stands for `ethers.getAddress` (None when it
      throws) and `parse` for `iface.parseLog` (None when it throws). It answers
      as `Respond` says, and asks the provider for the head, then the code, then
      the chunks in order up to the first that throws. */
  method Get(limit: LimitParam, rawAddress: string, getAddress: string -> Option<string>,
             deployBlock: int, lookback: int, p: Provider, parse: RawLog -> Option<Played>)
    returns (resp: Response, ghost calls: seq<Call>)
    ensures resp == Respond(limit, getAddress(rawAddress), deployBlock, lookback, p, parse)
    // a malformed address fails before any provider call
    ensures getAddress(rawAddress).None? ==> calls == []
    ensures getAddress(rawAddress).Some? && p.blockNumber.None? ==> calls == [HeadQuery]
    ensures getAddress(rawAddress).Some? && p.blockNumber.Some? ==>
      var address, latest := getAddress(rawAddress).value, p.blockNumber.value;
      var cs := Chunks(FromBlock(deployBlock, lookback, latest), latest, LOG_CHUNK);
      // no log is queried when nothing is deployed
      (p.code.None? ==> calls == [HeadQuery, CodeQuery(address)]) &&
      (resp.NoContract? ==> calls == [HeadQuery, CodeQuery(address)]) &&
      (resp.Board? ==> calls == [HeadQuery, CodeQuery(address)] + LogQueries(cs)) &&
      (p.code.Some? && !NoCode(p.code.value) ==>
         exists n :: 0 <= n <= |cs| && calls == [HeadQuery, CodeQuery(address)] + LogQueries(cs[..n]))
  {
    calls := [];
    var address := getAddress(rawAddress);
    if address.None? {
      return Failed, calls;
    }
    calls := calls + [HeadQuery];
    if p.blockNumber.None? {
      return Failed, calls;
    }
    var latest := p.blockNumber.value;
    var fromBlock := FromBlock(deployBlock, lookback, latest);
    var toBlock := latest;

    calls := calls + [CodeQuery(address.value)];
    if p.code.None? {
      return Failed, calls;
    }
    if NoCode(p.code.value) {
      return NoContract(address.value, fromBlock, toBlock), calls;
    }

    var allLogs, asked := FetchLogs(p, fromBlock, toBlock);
    calls := calls + LogQueries(asked);
    ghost var cs := Chunks(fromBlock, toBlock, LOG_CHUNK);
    assert asked == cs[..|asked|] by {
      if allLogs.Some? { assert cs[..|cs|] == cs; }
    }
    assert 0 <= |asked| <= |cs| && calls == [HeadQuery, CodeQuery(address.value)] + LogQueries(cs[..|asked|]);
    if allLogs.None? {
      return Failed, calls;
    }

    var rows, usersCount := Aggregate(parse, allLogs.value, SliceEnd(limit));
    resp := Board(rows, Meta(fromBlock, toBlock, LOG_CHUNK, |allLogs.value|, usersCount));
  }
}

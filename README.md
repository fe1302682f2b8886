# Guess-BTC leaderboard and game, modelled in Dafny

This project models two parts of the `game01` mini-app:

- **The leaderboard route** (`GET` in `game01/app/api/leaderboard/route.js`).
  - It picks the first block to scan: the deploy block, or `lookback` blocks back from the chain head.
  - It checks that contract code is deployed.
  - It asks the JSON-RPC provider for the contract's `Played` logs in chunks of 10,000 blocks.
  - It keeps one best row per lowercased user in an insertion-ordered `Map`. A higher score wins, and on equal score a later `ts` wins. Logs that fail to decode are skipped.
  - It sorts the rows by score, then by `ts`, both descending, and cuts the list at `limit`, which is capped at 50.
- **The guessing game** (`game01/app/page.js`).
  - The helpers `clampInt`, `randomInt`, `shortAddr` and `toHexChainId`.
  - The `parseInt(hex, 16)` that reads chain ids back.
  - The page state, with its `newRound`, `checkGuess` and `saveOnchain` handlers.

Layout:

- `wrappers.dfy`: `Option`.
- `int_math.dfy`: `Math.min` and `Math.max` on integers.
- `chain_logs.dfy`: block ranges and the chunk tiling.
  - `getLogs` is a filter by block range over one fixed sequence of raw logs.
  - Per-chunk answers are concatenated in order.
  - Over logs in chain order, the chunked gathering equals one query over the whole range, whatever the chunk size.
- `best_scores.dfy`:
  - the insertion-ordered map `Table`;
  - the decoding and lowercasing of one log (`Candidate`);
  - the reduction `BestOf`, with its characterisation as a per-user maximum;
  - the skipping of undecodable logs;
  - the user count.
- `ranking.dfy`:
  - the comparator order and a stable sort (`Array.prototype.sort` is stable);
  - `slice(0, end)`, including a negative or NaN end;
  - the properties of the resulting rows.
- `route.dfy`:
  - the `limit` parameter;
  - the `fromBlock` rule;
  - the provider;
  - the chunk loop `FetchLogs` and the `best` loop `Reduce`, both as methods with loop invariants;
  - the handler `Get`, specified by the response function `Respond`, together with a ghost trace of the provider calls it makes.
- `guess_game.dfy`: the helpers and the class `Game`.
  - The class fields mirror the page's React state.
  - Its methods are the three handlers.

Inputs from outside the model:

- The provider's answers are the parameter `Provider`: the head block, the code, the logs, and the set of ranges whose `getLogs` throws.
- `ethers.getAddress` and `Interface.parseLog` are function parameters returning `Option` (None when they throw).
- The wallet behind `window.ethereum` is its replies to `eth_chainId` and `eth_sendTransaction`.
- `Math.random()` is a parameter `u` in `[0, 1)`.

Behaviour of `route.js` worth noting:

- With no deployed code the route answers `ok: false` with status 200 and the range (`NoContract`). This is not an empty success.
- Every thrown error collapses into one `ok: false` answer with status 500 (`Failed`). This includes a malformed address, a provider failure and a failed chunk. The answer carries no error tag and no `meta`.
- The cap of 50 only bounds the limit from above. A negative `limit` reaches `slice(0, limit)` unchanged and drops that many rows from the end of the ranking, so it can return more than 50 rows. `RespondBoard` states that length.

## Model

| member | source | states |
|---|---|---|
| ChainLogs.ChunksTile | game01/app/api/leaderboard/route.js:57-58 | the loop's chunks: none when `start > toBlock`; the first starts at `start` and the last ends at `toBlock`; each is non-empty, inside the range and at most `LOG_CHUNK` blocks long; each starts right after the previous one ends |
| ChainLogs.ChunksDisjoint | game01/app/api/leaderboard/route.js:57-58 | the chunks are pairwise disjoint and ascending |
| ChainLogs.ChunksCover | game01/app/api/leaderboard/route.js:57-58 | a block lies in some chunk iff it lies in `[start, toBlock]` |
| ChainLogs.InRangeMembers | game01/app/api/leaderboard/route.js:60-65 | one `getLogs` answers exactly the logs whose block lies in its range |
| ChainLogs.GatheredAppend | game01/app/api/leaderboard/route.js:67-67 | the answers to two lists of queries, appended, are the appended answers |
| ChainLogs.GatheredChunks | game01/app/api/leaderboard/route.js:56-68 | over logs in chain order, the concatenated answers of the chunk queries equal the logs of `[start, toBlock]` in order |
| ChainLogs.ChunkSizeIrrelevant | game01/app/api/leaderboard/route.js:6-6 | over logs in chain order, any two positive chunk sizes gather the same logs |
| BestScores.Lower | game01/app/api/leaderboard/route.js:75-75 | `toLowerCase` keeps the length, turns each ASCII capital into its small letter (code + 32), keeps every other character, gives a lower-case string and is the identity on lower-case strings |
| BestScores.LowerIgnoresCase | game01/app/api/leaderboard/route.js:75-75 | two spellings of one address that differ only in ASCII case give the same map key |
| BestScores.Table.Set | game01/app/api/leaderboard/route.js:82-89 | `Map.set` stores the value under the key; a new key goes last and an existing key keeps its place; the keys stay distinct and in step with the entries |
| BestScores.Table.Values | game01/app/api/leaderboard/route.js:94-94 | `Array.from(best.values())` lists the entries in key insertion order, one per key |
| BestScores.Candidate | game01/app/api/leaderboard/route.js:73-89 | a log yields a row iff it decodes; the row holds the lowercased user, the decoded score, guess and ts, and the log's transaction hash and block number |
| BestScores.BestOfIsBest | game01/app/api/leaderboard/route.js:71-92 | after the loop, keys are exactly the users with a decodable log; no log of a user outranks the stored row; each stored row comes from a log that outranks that user's earlier logs |
| BestScores.BestIsPerUserMaximum | game01/app/api/leaderboard/route.js:80-90 | for each key: a decodable log of that user exists; the key is lower case; the stored score is the user's maximum; its `ts` is the largest among the maximum-score logs; on an exact (score, ts) tie the earliest log is kept |
| BestScores.UndecodableIgnored | game01/app/api/leaderboard/route.js:73-91 | a log that fails to decode leaves the map exactly as if it were absent |
| BestScores.KeysAreDecodedUsers | game01/app/api/leaderboard/route.js:71-92 | the map's keys are exactly the lowercased users among the decoded logs |
| BestScores.UsersCount | game01/app/api/leaderboard/route.js:108-108 | `best.size` equals the number of distinct lowercased users among the decoded logs |
| Ranking.Insert | game01/app/api/leaderboard/route.js:95-95 | inserting a row into a ranked list keeps it ranked and adds exactly that row |
| Ranking.Sort | game01/app/api/leaderboard/route.js:95-95 | the sorted rows are a permutation of the input in descending (score, ts) order |
| Ranking.Slice | game01/app/api/leaderboard/route.js:96-96 | `slice(0, end)` is a prefix: `min(end, n)` rows for `end >= 0`, `max(n + end, 0)` rows for a negative end |
| Ranking.LeaderboardRanked | game01/app/api/leaderboard/route.js:94-96 | the rows are ranked and have one row per user; they are a prefix of the sorted values, which are a permutation of the map's values |
| Ranking.LeaderboardTop | game01/app/api/leaderboard/route.js:94-96 | each row is the stored best row of its user, and a stored row that is cut off ranks at or below every row kept |
| Ranking.LeaderboardLength | game01/app/api/leaderboard/route.js:94-96 | there are `min(L, usersCount)` rows for a limit `L >= 0`, and `max(usersCount + L, 0)` rows for a negative one |
| LeaderboardRoute.SliceEnd | game01/app/api/leaderboard/route.js:16-16 | the effective limit: 10 when absent, `min(n, 50)` when given, 0 for NaN, never above 50 |
| LeaderboardRoute.FromBlock | game01/app/api/leaderboard/route.js:36-41 | the deploy block when `0 < deployBlock <= latest`, otherwise `max(0, latest - lookback)`; not past the head when `lookback >= 0` |
| LeaderboardRoute.QueryLogs | game01/app/api/leaderboard/route.js:60-65 | one `getLogs` either throws or answers the logs of its range in order |
| LeaderboardRoute.FetchLogs | game01/app/api/leaderboard/route.js:56-68 | the chunk loop succeeds iff no chunk query throws, then with the per-chunk answers concatenated in chunk order after asking every chunk; otherwise it has asked the chunks up to and including the first one that throws |
| LeaderboardRoute.Reduce | game01/app/api/leaderboard/route.js:71-92 | the `best` loop builds the map that `BestOf` characterises |
| LeaderboardRoute.Aggregate | game01/app/api/leaderboard/route.js:71-108 | the reduction, sort and slice give the leaderboard rows: ranked, one per user, of the stated length, and `usersCount` is the number of distinct users |
| LeaderboardRoute.RespondCases | game01/app/api/leaderboard/route.js:13-117 | an invalid address or an unreachable head fails; otherwise "no contract" iff the code is empty, and rows iff code is deployed and every chunk answered (all or nothing); then the rows are the leaderboard of the gathered logs, with `logsCount` counting undecodable logs too; status 500 exactly when a call throws (address, head, code or a chunk) |
| LeaderboardRoute.RespondBoard | game01/app/api/leaderboard/route.js:94-108 | the rows of a successful answer are ranked and one per user; for a limit `L >= 0` there are `min(L, usersCount)` rows, at most 50; a negative limit gives `max(usersCount + L, 0)` rows |
| LeaderboardRoute.RespondChainOrdered | game01/app/api/leaderboard/route.js:56-96 | over logs in chain order, the rows are the leaderboard of the logs of `[fromBlock, latest]`, and the chunking is invisible |
| LeaderboardRoute.Get | game01/app/api/leaderboard/route.js:13-117 | the handler answers as `Respond` says. A malformed address makes no provider call; a throwing `getCode` stops after the head and code queries. No log is queried when nothing is deployed. The log queries are the chunks in order, all of them on success |
| GuessGame.Trunc | game01/app/page.js:41-41 | `Math.trunc` rounds toward zero, for both signs |
| GuessGame.ClampInt | game01/app/page.js:38-44 | null for a non-finite number or a truncation outside `[lo, hi]`, otherwise exactly the truncated value, in range and within 1 of the input |
| GuessGame.ClampIntKeepsInRange | game01/app/page.js:38-44 | an integer already in `[lo, hi]` comes back unchanged |
| GuessGame.RandomInt | game01/app/page.js:46-48 | `randomInt(lo, hi)` lies in `[lo, hi]` for any `Math.random()` value in `[0, 1)` |
| GuessGame.ShortAddr | game01/app/page.js:50-53 | empty iff the input is empty; otherwise the first six characters, the ellipsis, then the last four |
| GuessGame.HexDigits | game01/app/page.js:64-64 | `toString(16)`: lower-case hex digits, no leading zero, "0" for zero |
| GuessGame.ToHexChainId | game01/app/page.js:62-65 | "0x" followed by lower-case hex digits |
| GuessGame.ParseIntHex | game01/app/page.js:224-224 | `parseInt(hex, 16)`: an optional sign, an optional `0x`/`0X`, then the longest run of hex digits in either case, NaN (None) when that run is empty; a number is only read from a non-empty text, and a negative one only after a leading `-` |
| GuessGame.ParseIntHexIgnoresCase | game01/app/page.js:224-224 | digits and the `0x` prefix read the same in either case: two texts equal up to ASCII case parse to the same value |
| GuessGame.ParseToHexChainId | game01/app/page.js:62-65 | round trip: `parseInt(toHexChainId(n), 16) == n` for every `n >= 0` |
| GuessGame.BaseChainIdHex | game01/app/page.js:254-254 | chain 8453 is sent as "0x2105" |
| GuessGame.WinScore | game01/app/page.js:192-192 | the score lies in 1..7, equals `8 - nextTries` up to 7 tries, and is 1 from then on |
| GuessGame.WinScoreMonotone | game01/app/page.js:192-192 | a win in fewer tries never scores less |
| GuessGame.Game.constructor | game01/app/page.js:72-86 | the initial state: a secret in 60..120, round 1, no tries or wins, no recorded win, `savedTx` "-" |
| GuessGame.Game.NewRound | game01/app/page.js:168-176 | a new secret in 60..120; hint "-", zero tries, empty guess, one more round; wins, the last win and the wallet fields are unchanged |
| GuessGame.Game.CheckGuess | game01/app/page.js:178-206 | an invalid guess only sets the hint; a valid one adds exactly one try; a win adds one win, records the guess and the score `max(1, 8 - tries)` and resets `savedTx`; a miss keeps wins and the last win and hints higher or lower, or out of tries from the seventh try on |
| GuessGame.Game.SaveOnchain | game01/app/page.js:213-265 | a request is built iff a wallet exists, an address is connected, a win is recorded and the wallet's chain id parses to 8453; each failed guard sets its error, and `chainId` is untouched until the wallet, address and win guards pass; a thrown send sets the wallet error; the request carries `(score, guess)` in that order, a fixed gas and chain "0x2105"; `savedTx` changes only to the returned hash |

## Left out

- The ethers library is not modelled inside:
  - the checksum rules of `getAddress`;
  - the keccak topic hash;
  - the ABI decoding inside `parseLog`;
  - the calldata bytes of `encodeFunctionData`.

  These appear as abstract partial functions, or, for the call, as its function name and arguments.
- `Number(...)` on `uint256` event fields may lose precision above 2^53. The model reads the fields as exact naturals.
- The guess box holds text. The model holds the number `Number(text)` yields, as a real, or None for NaN and the infinities; the text-to-number conversion itself is not modelled.
- `parseInt` skips leading whitespace. `ParseIntHex` does not.
- `toHexChainId` of a negative chain id is not modelled (`ToHexChainId` takes a natural). It is only ever called with 8453.
- `deployBlock` and `lookback` are taken as integers. A NaN or fractional `DEPLOY_BLOCK` or `LEADERBOARD_BLOCK_RANGE` (from `Number(process.env...)`) is not modelled: for example, a NaN lookback makes `fromBlock` NaN, so the chunk loop runs zero times and the route answers `ok: true` with no rows.
- `LimitParam` reads a fractional or exponent-form `limit` only through the integer it would convert to. A fractional slice end is not modelled.
- `toLowerCase` beyond ASCII capitals (other Unicode letters) is not modelled.
- The text of error messages (`formatErr`, the thrown `Error` messages), the `diag` status strings, and the `meta.rpc` / `meta.contract` echo fields are left out.
- The `accountsChanged` / `chainChanged` subscriptions, `connectWallet` and `window.sdk.actions.ready()` are left out as wallet and host plumbing. Their `parseInt(hex, 16)` is `ParseIntHex`.
- React rendering, `useMemo` and `useEffect` are left out.
- Provider calls are sequential; concurrent invocations of the route are independent and are not modelled.
- `game01/contracts/checkContract.mjs`, a one-shot script, is not part of this model.
- LeaderboardRoute.Get: the chunking is stated to be invisible only for logs in chain order, which is what the provider guarantees. For arbitrary provider answers, `Get` states its rows over the gathered per-chunk answers.
- Ranking.Sort: states order and permutation only. The stability of `Array.prototype.sort` (rows with equal score and ts keep their map order) is built into `Insert` but not stated as a property.

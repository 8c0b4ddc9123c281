# Verification model of the Ethereum log pipeline

The pipeline lands Ethereum `Transfer` logs window by window. For a UTC window `[start, end)` it finds the blocks
whose time lies in the window, collects their logs from a provider that may refuse or fail any call, decodes the
32-byte amount words, appends the rows to an insert-only table, and rebuilds two incremental SQL models: `silver`
(ERC-20 transfers) and `gold` (hourly treasury flows). A run may fail at any of these steps and be retried, and the
three writes are not one transaction. This project models that protocol and proves what every history of runs leaves
behind.

## How the model is laid out

| file | part of the system |
|---|---|
| `JsonRpc.dfy` | the RPC client: retries with backoff, the rate limiter, the 10-block guard; the provider is an arbitrary script of faults |
| `Chain.dfy` | the chain as strictly increasing block times with logs, and the first block at or after an instant |
| `BlockRange.dfy` | the galloping search, the search for the provider's access boundary and the two lower-bound searches over one shared timestamp cache, with a ghost record of every lookup |
| `Chunking.dfy`, `LogCollector.dfy` | chunks of at most 10 blocks, halved when a request keeps failing, with a ghost record of every `eth_getLogs` call |
| `Text.dfy`, `Uint256.dfy`, `LogNormalizer.dfy` | hexadecimal and decimal text, the uint256 word as exact decimal text, log payload to row |
| `DeltaWriter.dfy` | the insert-only table and its writer |
| `Incremental.dfy` | delete+insert by unique key, one row per key |
| `Silver.dfy` (modules `FixedPoint`, `Silver`), `Gold.dfy`, `QualitySummary.dfy` | the SQL models |
| `DbtTests.dfy` | the data tests that the dbt build runs over the three tables |
| `Pipeline.dfy` | one run, as a method over the client and the three tables |
| `Convergence.dfy`, `CleanRecomputation.dfy` | whole histories of runs: what they leave, and that it is a full recomputation |
| `OverlappingWindows.dfy`, `OverlappingGold.dfy` | the same for histories whose windows overlap |
| `ChainTransfers.dfy` | rows and transfers read straight from the payloads of the logs, and that the tables hold just these |
| `TestHistories.dfy` | the data tests after any history |
| `Histories.dfy` | a list of runs on one warehouse, as a method |
| `Receipts.dfy`, `ReceiptHistories.dfy` | chains with two Transfer logs, and jobs on them that all succeed: the counterexamples |
| `HourSharing.dfy`, `SummaryWindows.dfy` | the exact conditions under which gold can be built window by window, and under which the summary is that of its window |
| `Arithmetic.dfy`, `Wrappers.dfy` | shared helpers |

The searches, the collector, the client, the writer and the run are methods and classes, as they are loops and
mutable objects in the source; each is proved against a specification. The SQL models are functions on sequences
of rows, each characterised as an operation on sets (`Contents`, `Facts`: rows without their load times).

The main results, in the order in which they build on each other:

1. `BlockRange.ResolveIntervalBlockRange` returns exactly the window's blocks, reports each error only when it is
   due, and asks few and only recent blocks, each once, and none that is refused once the lower limit is known
   (`BlockRange.LimitIsKnown`).
2. `LogCollector.CollectRawLogs` returns all logs of the range in order, or the one fatal call that ended it: one that was
   rejected for good, or one for a single block. No request is for more than `max_blocks` blocks, and when no call is
   rejected and every single block is answered, all logs come back (`LogCollector.HalvingRecovers`).
3. `Pipeline.RunInterval` changes the three tables by exactly one of four effects (nothing, raw, raw and silver, all
   three). When storage and the dbt process do not fail and no fault of the provider outlasts the retries, it
   succeeds if and only if the window can be fetched and landed and the data tests pass.
4. `Convergence` and `CleanRecomputation`: after any history of runs, in any order, with failures after any step and
   any retries, every finished window holds what one clean run on empty tables gives; the incremental tables are at
   any time the full queries over what they were built from; the quality summary conserves the transfers' counts and
   sums. `OverlappingWindows` proves raw and silver for windows that overlap, up to the interval columns, and
   `Histories.RunAll` is a method whose tables are those of the history it performs.
5. `ChainTransfers`: after any history the raw table says, column by column, what the payloads of the landed windows' logs
   say, and silver what the Transfer logs among those of the built windows say; the four totals of a finished window's
   summary are the sums of the data words of its flow logs.
6. `TestHistories`: after any history the data tests pass, with two exceptions. The amount test fails exactly when a built window
   has a transfer of the token with more than 38 digits, and then keeps gold from being built in every later run. The
   flow test fails exactly when gold has rows of another chain than the main one.
7. `OverlappingGold` and `HourSharing`: over all sound chains and all histories, gold built window by window is what one
   aggregation of silver gives if and only if any two finished windows agree about hours (or nothing is ever counted).
   For disjoint windows this is to share no clock hour, for adjacent ones that the boundary between them is a full
   hour. The failing histories are ones in which every run reports success.
8. `SummaryWindows`: when the finished windows agree about hours, the quality summary of one of them counts and adds up
   just its own transfers if and only if no landed window sticks out of it or into it (or nothing is ever counted).

## Assumptions

- Block times increase strictly (section "Block Header Validity" of the Ethereum Yellow Paper). Logs name the block
  they are in, and a transaction is in one block only. All runs see one chain: finalized blocks do not change.
- The provider refuses numeric lookups exactly below some block `oldest`, answers null for blocks past its own end, and
  serves the finalized head by its tag. Any attempt may fail transiently, with a range or result-size error, or for
  good.
- Any amount of time may pass between clock readings, and a sleep lasts at least as long as was asked for. Retry
  counts, the backoff base and the jitter are not negative.
- A run that has written something had a window with a block in it (`Convergence.Feasible`); `Pipeline.RunInterval`
  guarantees it.
- In `Convergence` and `CleanRecomputation`: windows of such runs are the same or disjoint, and for gold, finished
  windows share no clock hour. Windows that start and end on the hour satisfy this (`Convergence.AlignedIsEnough`).
  `OverlappingWindows`, `OverlappingGold`, `HourSharing` and `SummaryWindows` do without, and give the exact conditions.
- `dbt build` runs the tests of a table when the table has been built, and does not build the tables that depend on it
  when one of them fails.
- One run at a time.

## Where code and documentation differ

- The gold model's comment says that its hour grain is the grain of the scheduled window
  (dbt/models/gold/tether_treasury_flow.sql:101). The scheduler checks only that a window is one hour long
  (airflow/dags/ethereum_hourly_logs.py:180-194), and the top-level README.md:168 speaks of arbitrary intervals.
  `HourSharing.OneHourWindowsMayShareAnHour` gives two adjacent one-hour windows from half past to half past for which
  jobs on a sound chain all report success and leave gold without a transfer.
- The quality summary selects flows by the start of the interval that their transfers were first collected for
  (dbt/models/gold/tether_treasury_flow_quality_summary.sql:26-29), which is not always the summarized window:
  `SummaryWindows.OverlapMayLoseTheSummary` gives two windows on the hour, one the second half of the other.
- docs/02_data_contracts.md:119 says that the build fails when an amount of the token cannot be converted. It fails
  from then on in every run, of whatever window, because the test reads the whole silver table
  (`TestHistories.WideTransferBlocksForGood`; `ReceiptHistories.OneWideTransferBlocksAll` is such a history).
- The search reports a provider window that is too short only when it meets a refused lookup. A head that is block 0
  needs no lookup by number, so the error is then never raised (`BlockRange.GenesisHeadHidesTheWindow`); in every
  other case it is raised if and only if `oldest` is positive and later than the start
  (`BlockRange.OutOfWindow` in the contract of `BlockRange.ResolveIntervalBlockRange`).
- The row count after a commit may fail to be read. The writer then raises an error although the rows are committed
  (src/cryptoquant_pipeline/delta_writer.py:166); `DeltaWriter.CountFailed` models this, and the history theorems
  cover it as a run that stopped after the raw commit.

## Model

| member | source | states |
|---|---|---|
| `JsonRpc.RpcClient.Connect` | src/cryptoquant_pipeline/rpc_client.py:34-61 | A client exists if and only if the rate is in (0, 4]. |
| `JsonRpc.RpcClient.RateLimit` | src/cryptoquant_pipeline/rpc_client.py:235-243 | Every recorded request is at least 1/rps after the one before; no wait is longer than the interval, and none is made when the interval has passed. |
| `JsonRpc.SpacedPairs` | src/cryptoquant_pipeline/rpc_client.py:235-243 | Requests i < j of a client, over all methods and retries, are at least (j-i)/rps apart. |
| `JsonRpc.RateLimitHolds` | src/cryptoquant_pipeline/rpc_client.py:235-243 | No time window of length T, wherever it starts, holds more than floor(T*rps)+1 requests. |
| `JsonRpc.RpcClient.BackoffDelay` | src/cryptoquant_pipeline/rpc_client.py:245-248 | The pause is base*2^attempt plus what was drawn from 0 to the jitter bound. |
| `JsonRpc.RpcClient.Request` | src/cryptoquant_pipeline/rpc_client.py:135-153 | At most max_retries+1 attempts; all but the last failed transiently; range, size and final errors end the call on the attempt where they occur; retries run out only after max_retries; the slept backoff is exact up to jitter. |
| `JsonRpc.CalmNeverFails` | src/cryptoquant_pipeline/rpc_client.py:135-153 | When all faults are transient and no max_retries+1 attempts in a row fail, no call fails, however the faults are spread. |
| `JsonRpc.BackoffClosedForm` | src/cryptoquant_pipeline/rpc_client.py:245-248 | The pauses of n retries sum to base*(2^n-1) + n*jitter. |
| `JsonRpc.BackoffBound` | src/cryptoquant_pipeline/rpc_client.py:135-153 | No call sleeps more than base*(2^max_retries-1) + max_retries*jitter in backoff. |
| `JsonRpc.RpcClient.GetLogs` | src/cryptoquant_pipeline/rpc_client.py:108-133 | Ranges outside 1..10 blocks, and only these, are refused without a request; an answer is the range's logs in block order; a failure is how the call's last attempt ended. |
| `JsonRpc.RpcClient.GetBlockByNumber` | src/cryptoquant_pipeline/rpc_client.py:77-94 | One recorded lookup; the block's time, a refusal below the boundary, an unknown block past the provider's end, or how the call's last attempt ended. |
| `JsonRpc.RpcClient.GetFinalizedBlock` | src/cryptoquant_pipeline/rpc_client.py:96-98 | The head's number and time exactly when the last attempt has no fault; no numeric lookup. |
| `JsonRpc.RpcClient.GetChainId` | src/cryptoquant_pipeline/rpc_client.py:73-75 | The provider's chain id exactly when the last attempt has no fault. |
| `Chain.IntervalIsBlockRange` | src/cryptoquant_pipeline/block_range.py:62-73 | A block's time is in [start, end) if and only if its number is from the first block at or after start up to the first at or after end. |
| `Chain.BlockLogsOne` | src/cryptoquant_pipeline/log_collector.py:33-47 | The logs of a one-block range are that block's, each once. |
| `Chain.BlockLogsSplit` | src/cryptoquant_pipeline/log_collector.py:74-86 | The logs of a range are those of its two parts, one after the other. |
| `Chain.DepthSplits` | src/cryptoquant_pipeline/block_range.py:250-307 | The blocks later than an instant are exactly the last `Depth` blocks below the head. |
| `BlockRange.BlockTimestamp` | src/cryptoquant_pipeline/block_range.py:366-376 | The block's true time; the provider is asked only when the cache has no entry, and the cache stays true to the chain. |
| `BlockRange.LowerBound` | src/cryptoquant_pipeline/block_range.py:202-221 | The first block of low..high at or after the target, high+1 if none; at most floor(log2(n))+1 lookups for n blocks, all inside the range. |
| `BlockRange.FindFirstBlockAtOrAfter` | src/cryptoquant_pipeline/block_range.py:182-221 | The same with the argument checks: negative bounds are refused, and only these; an empty range gives high+1. |
| `BlockRange.FindOldestAccessibleBlock` | src/cryptoquant_pipeline/block_range.py:310-335 | The provider's true boundary, or the known usable block if nothing older is usable; every lookup is between the two bounds. |
| `BlockRange.AtBoundary` | src/cryptoquant_pipeline/block_range.py:282-300 | After a refusal: the boundary block if it is at or before the target, and the window error only if the boundary is later. |
| `BlockRange.FindSearchLowBlock` | src/cryptoquant_pipeline/block_range.py:250-307 | A usable block at or before the target (or block 0) less than 2*depth behind the head; fails only by an rpc error or because the provider's window is too short; at most 2*(floor(log2(depth))+1)+1 lookups. |
| `BlockRange.ResolveReady` | src/cryptoquant_pipeline/block_range.py:138-179 | The part after the finality check meets the same contract as the whole, with the same account of its lookups. |
| `BlockRange.ResolveIntervalBlockRange` | src/cryptoquant_pipeline/block_range.py:84-179 | Each result says exactly what holds: a range is the first blocks at or after start and end, each error class has its own exact condition; with L = floor(log2(head+1)), at most 4L+5 lookups (and at most 4*floor(log2(depth))+7), no block twice, none 2*depth or more behind the head; each refused block lies above all refused before it, and before the first refusal only blocks later than the start were answered. |
| `BlockRange.LimitIsKnown` | src/cryptoquant_pipeline/block_range.py:270-335 | It follows that no block is refused any more once the lower limit is known: once a block at or before the start was answered with nothing refused before, or once the block below the provider's boundary was refused. |
| `BlockRange.ResolutionIsDetermined` | src/cryptoquant_pipeline/block_range.py:138-179 | Two runs with the same head and window give the same result unless one met an rpc error. |
| `BlockRange.GenesisHeadHidesTheWindow` | src/cryptoquant_pipeline/block_range.py:270-292 | A concrete provider whose boundary is later than the start and for which the window error is not raised, because its head is block 0. |
| `BlockRange.ExactBlocks` | src/cryptoquant_pipeline/block_range.py:166-179 | A returned range, or the verdict that it is empty, is exactly the set of blocks with start <= time < end. |
| `BlockRange.NeighboursMeet` | src/cryptoquant_pipeline/block_range.py:166-179 | Adjacent intervals resolved at different heads: one's end-exclusive block is the next one's from-block. |
| `BlockRange.RangesTile` | src/cryptoquant_pipeline/block_range.py:132-179 | Over any chain of adjacent intervals, each block of the union is in exactly one range and no other block is in any. |
| `BlockRange.DepthIsAge` | src/cryptoquant_pipeline/block_range.py:224-247 | With blocks at least s seconds apart, a target of depth d is more than s*(d-1) seconds old. |
| `BlockRange.EstimateIsExact` | src/cryptoquant_pipeline/block_range.py:224-247 | The estimate goes back by the least number of six-second blocks that covers the age of the target, and 256 more, but not below block 0. |
| `BlockRange.LookupsStayRecent` | tests/test_block_range.py:190-203 | With blocks at least 12 seconds apart no lookup of a run is below the estimated low block. |
| `Chunking.IterBlockChunks` | src/cryptoquant_pipeline/chunking.py:24-50 | Succeeds exactly on valid arguments; the chunks cover the range in order without gap or overlap, all but the last are full, and the guard against bad chunks never fires. |
| `Chunking.ChunkCount` | src/cryptoquant_pipeline/chunking.py:24-50 | The number of chunks is the number of blocks divided by the chunk size, rounded up. |
| `LogCollector.CollectChunk` | src/cryptoquant_pipeline/log_collector.py:50-86 | All logs of the n blocks in order after no fatal call, or the error of the last and only fatal call. An error that is passed on is a final rejection; a single block is given up when its own call ended in a transient, range or size error, and no larger chunk is. At most 2n-1 calls, none for more blocks than the chunk size allows. |
| `LogCollector.HalvingRecovers` | src/cryptoquant_pipeline/log_collector.py:64-86 | When none of the calls of a collection was rejected for good and every call for a single block was answered, the result is all logs of the range: range, size and transient errors of larger chunks lose nothing. |
| `LogCollector.CollectedThen` | src/cryptoquant_pipeline/log_collector.py:74-86 | Collecting two adjacent parts one after the other is collecting the whole, with the call budgets added. |
| `LogCollector.CollectRawLogs` | src/cryptoquant_pipeline/log_collector.py:33-47 | All logs in block order, or the final rejection of a call, or a single block inside the range whose own call ended in a transient, range or size error; every request is for 1 to max_blocks blocks of the range, so the client's range guard never fires; at most 2N-c calls for N blocks in c chunks and max_retries+1 attempts per call. |
| `Text.DecimalRoundTrip` | src/cryptoquant_pipeline/log_normalizer.py:202-204 | The decimal text of a number reads back as the number and has no superfluous zero. |
| `Text.DecimalDigits` | src/cryptoquant_pipeline/log_normalizer.py:203-204 | Each number below ten has the text of its digit 0 to 9, which reads back as it. |
| `Text.DecimalConcat` | src/cryptoquant_pipeline/log_normalizer.py:203-204 | Digits followed by k digits are worth 10^k times the first part plus the second: with the digits and the round trip this fixes every text. |
| `Text.HexDigits` | src/cryptoquant_pipeline/log_normalizer.py:253-257 | The sixteen digits stand for 0 to 15 in order, in lower and in upper case. |
| `Text.HexAlphabet` | src/cryptoquant_pipeline/log_normalizer.py:267-272 | Which characters are hexadecimal digits, and which are decimal ones. |
| `Text.HexConcat` | src/cryptoquant_pipeline/log_normalizer.py:253-257 | Digits followed by k digits are worth 16^k times the first part plus the second. |
| `Text.LowerLetters` | src/cryptoquant_pipeline/log_normalizer.py:267-272 | Lower-casing replaces each of the 26 capital letters by its small one and keeps every other character. |
| `Text.CanonicalIsText` | src/cryptoquant_pipeline/delta_writer.py:334-338 | A text without superfluous zero is the text of its own value. |
| `Text.DigitCount` | src/cryptoquant_pipeline/log_normalizer.py:205-209 | A number has at most k digits if and only if it is below 10^k. |
| `Uint256.WordTextIsExact` | src/cryptoquant_pipeline/log_normalizer.py:188-211 | A 32-byte word's text reads back as the word's value, has no leading zero and at most 78 digits; the status is DECIMAL38_AVAILABLE if and only if it has at most 38. |
| `Uint256.WordsHave64Digits` | src/cryptoquant_pipeline/log_normalizer.py:214-222 | A 32-byte word is the prefix 0x and 64 hexadecimal digits. |
| `Uint256.WordTextIsInjective` | src/cryptoquant_pipeline/log_normalizer.py:188-211 | Different lower-case words have different texts. |
| `Uint256.OtherDataHasNoText` | src/cryptoquant_pipeline/log_normalizer.py:197-200 | Hexadecimal data of any other length has no text and the third status; other data is refused. |
| `Uint256.DecodeIgnoresCase` | src/cryptoquant_pipeline/log_normalizer.py:267-272 | Keeping the data in lower case does not change what it decodes to. |
| `LogNormalizer.NormalizeLogs` | src/cryptoquant_pipeline/log_normalizer.py:64-100 | The rows of the well-formed logs in order; the invalid count is the rest and is zero exactly when every log is well-formed. |
| `LogNormalizer.RowMatchesItsData` | src/cryptoquant_pipeline/log_normalizer.py:103-165 | A row's text and status are what its own lower-case data column decodes to, and its time and interval columns are the given ones; what the data column is says `LogNormalizer.RowKeepsThePayload`. |
| `LogNormalizer.NormalizesWellFormed` | src/cryptoquant_pipeline/log_normalizer.py:103-165 | A log becomes a row if and only if its quantities, hexadecimal fields and first four topics are there and readable; a missing or null transaction index, a null topic, missing topics and missing data are no errors. |
| `LogNormalizer.RowKeepsThePayload` | src/cryptoquant_pipeline/log_normalizer.py:139-165 | Each column of the row is the payload's own: block hash, transaction hash, contract, topics and data in lower case (0x when the data is missing), block number and indices by value, the removed flag as it is, and the day that holds the block's time. |
| `LogNormalizer.RowTellsTheAmount` | src/cryptoquant_pipeline/log_normalizer.py:138-153 | For 32 bytes of data the decimal text is that of their value and the status says whether it is below 10^38; for other data, or none, there is no text. |
| `DeltaWriter.ContractIsExact` | src/cryptoquant_pipeline/delta_writer.py:281-331 | The writer accepts exactly the rows whose text and status equal the decode of their data, and tells an unknown status, unreadable data and a mismatch apart; the three guards behind that comparison never fire. |
| `DeltaWriter.NormalizedRowsAreAccepted` | src/cryptoquant_pipeline/delta_writer.py:281-331 | Every row the normalizer builds passes the writer's contract. |
| `DeltaWriter.DedupeRows` | src/cryptoquant_pipeline/delta_writer.py:341-362 | Fails if and only if two rows share a key and differ in an immutable column, and then names such a key; otherwise the first row of each key in order, and the number dropped. |
| `DeltaWriter.ConflictMeans` | src/cryptoquant_pipeline/delta_writer.py:365-375 | A batch conflicts if and only if its set of facts has two facts with one key. |
| `DeltaWriter.FilterIsInsert` | src/cryptoquant_pipeline/delta_writer.py:117-140 | Deduplicating and filtering against the stored keys gives, row for row, the same table as offering the rows one by one. |
| `DeltaWriter.InsertExtends` | src/cryptoquant_pipeline/delta_writer.py:117-149 | Stored rows stay in place, and the new keys are exactly the missing ones. |
| `DeltaWriter.InsertIsUnion` | src/cryptoquant_pipeline/delta_writer.py:117-149 | While no two sightings of a key disagree, the table is the union of what it was offered. |
| `DeltaWriter.DeltaTable.WriteInsertOnly` | src/cryptoquant_pipeline/delta_writer.py:94-173 | Succeeds exactly on acceptable batches when storage does not fail; then the table is the one-by-one insertion, inserted + skipped = input, after = before + inserted; each error states its cause, each failure of storage ends the write exactly where that operation is needed, and the table is unchanged unless only the final count failed. |
| `DeltaWriter.DuplicateCountIsExact` | src/cryptoquant_pipeline/delta_writer.py:195-211 | The duplicate count is zero if and only if the natural keys are unique. |
| `DeltaWriter.HistoryKeepsRows` | src/cryptoquant_pipeline/delta_writer.py:94-173 | After any history of writes the keys are unique and every earlier table is a prefix of the present one. |
| `DeltaWriter.RewriteChangesNothing` | src/cryptoquant_pipeline/delta_writer.py:117-149 | Writing any earlier batch again leaves the table as it is. |
| `DeltaWriter.InsertSplits` | src/cryptoquant_pipeline/delta_writer.py:117-149 | Inserting A followed by B is inserting A and then B, row for row. |
| `DeltaWriter.SplitIsIrrelevant` | src/cryptoquant_pipeline/delta_writer.py:117-149 | Two acceptable batches may be joined if and only if no key has different facts in them, and then both ways give the same table. |
| `DeltaWriter.PartsAreAcceptable` | src/cryptoquant_pipeline/delta_writer.py:341-362 | The parts of an acceptable batch are acceptable. |
| `Incremental.DeleteInsertOverrides` | dbt/models/silver/erc20_transfers.sql:39-45 | delete+insert keeps the stored contents of all other keys and replaces those of the batch's keys. |
| `Incremental.DeleteInsertRows` | dbt/models/gold/tether_treasury_flow.sql:33-45 | Row by row, load times included: the result has the batch's rows and the stored rows of other keys, and no others. |
| `Incremental.DeleteInsertIsUnion` | dbt/models/gold/tether_treasury_flow.sql:33-45 | Where table and batch agree on common keys, delete+insert is the union. |
| `Incremental.DeleteInsertUnique` | dbt/models/silver/erc20_transfers.sql:39-45 | delete+insert keeps the keys unique. |
| `Incremental.UniqueIsCount` | dbt/tests/unique_tether_treasury_flow_identity.sql:1-22 | Keys are unique if and only if there are as many keys as rows. |
| `Incremental.LatestPerKeyMeans` | dbt/models/silver/erc20_transfers.sql:232-238 | Each key keeps exactly one of its rows, and none of its rows was ingested later. |
| `Incremental.LatestPerKeyContents` | dbt/models/silver/erc20_transfers.sql:232-238 | When rows agree per key, keeping the latest loses no contents. |
| `FixedPoint.AmountTextIsLossless` | dbt/models/silver/erc20_transfers.sql:172-193 | For every digit text and every number of decimals, the shifted text reads back as the same digits with that scale. |
| `FixedPoint.AmountTextIsDivision` | dbt/models/silver/erc20_transfers.sql:172-193 | The text of an amount is the quotient by 10^decimals without a superfluous zero, a point, and exactly `decimals` digits for the remainder. |
| `FixedPoint.AmountTextValue` | dbt/models/silver/erc20_transfers.sql:172-193 | As a real number the shifted text is the amount divided by 10^decimals. |
| `FixedPoint.CastsAreExact` | dbt/models/silver/erc20_transfers.sql:143-146 | Both casts to DECIMAL(38, d) give the amount itself exactly when the text has at most 38 digits, and null otherwise. |
| `Silver.AddressShape` | dbt/macros/decode_ethereum_address.sql:3-10 | A decoded address is 0x and the last 40 digits of the topic in lower case. |
| `Silver.TransfersAreErc20` | dbt/models/silver/erc20_transfers.sql:70-93 | A raw row that matches its data is a transfer if and only if it is a live Transfer event with two 32-byte topics, no third one, and 32 bytes of data. |
| `Silver.TransferColumns` | dbt/models/silver/erc20_transfers.sql:195-224 | The copied columns of a transfer are those of its log, each in its place, and the two addresses those of the first and second topic. |
| `Silver.AmountsAreExact` | dbt/models/silver/erc20_transfers.sql:143-221 | A DECIMAL38_AVAILABLE amount is never null and is the value of the data word, the other ones are null and above the limit; the USDT amount is the same number of base units, for the configured token only. |
| `Silver.UsdtTextIsTheAmount` | dbt/models/silver/erc20_transfers.sql:172-221 | A transfer has a fixed-point text if and only if it is of the token and below 10^38; the text reads back as the value of the data word with the token's decimals, and is its quotient, a point, and the digits of its remainder. |
| `Silver.SilverQueryMeans` | dbt/models/silver/erc20_transfers.sql:47-238 | The query gives exactly the transfers among the raw rows of the window, one row per natural key. |
| `Silver.SilverQueryRows` | dbt/models/silver/erc20_transfers.sql:47-238 | Whatever the raw rows are: every row of the query is the transfer of a raw row of the window, with that row's ingestion time; every such raw row has a row of its key in the query, and none that was ingested earlier; keys are unique. |
| `Gold.FoldMeans` | dbt/models/gold/tether_treasury_flow.sql:117-144 | A group's aggregate is its size, the plain sums of the two amount columns of its transfers, and its earliest interval start, in whatever order it is read. |
| `Gold.AggregateTallies` | dbt/models/gold/tether_treasury_flow.sql:117-144 | Grouping row by row gives one row for each group and no other, with that group's aggregate. |
| `Gold.GoldQueryMeans` | dbt/models/gold/tether_treasury_flow.sql:47-157 | The query gives exactly the flows of the counted transfers of the window, one row per key; what a flow holds say `Gold.FoldMeans` and `Gold.GoldRowMeans`. |
| `Gold.GroupMeans` | dbt/models/gold/tether_treasury_flow.sql:94-144 | A group is one chain, token and treasury, one clock hour (3600 seconds from a full hour on) and one direction, inflow exactly when the treasury receives. |
| `Gold.GoldRowMeans` | dbt/models/gold/tether_treasury_flow.sql:117-157 | Every row of the query has the number, the two column sums and the earliest interval start of its group of the window's counted transfers, of which there is at least one, and the time of the query. |
| `Gold.FlowsUnion` | dbt/models/gold/tether_treasury_flow.sql:117-144 | Sets of transfers without a common group can be aggregated apart. |
| `Gold.AlignedWindowsAreHourApart` | dbt/models/gold/tether_treasury_flow.sql:102-102 | Disjoint windows that start and end on the hour share no clock hour. |
| `QualitySummary.PartTotals` | dbt/models/gold/tether_treasury_flow_quality_summary.sql:32-77 | Counts and sums over flow rows are the counts and the plain column sums over the transfers of their groups. |
| `QualitySummary.SummaryConserves` | dbt/models/gold/tether_treasury_flow_quality_summary.sql:32-77 | Over a full tally every transfer is counted once and every sum is the plain sum of the column over the transfers of that direction. |
| `QualitySummary.DirectionsTallied` | dbt/models/gold/tether_treasury_flow_quality_summary.sql:39-39 | The directions of the rows are those of the transfers. |
| `QualitySummary.TallyConserves` | dbt/models/gold/tether_treasury_flow_quality_summary.sql:32-77 | When the window's flow rows are a tally of some transfers, all counts of the summary are theirs, and its sums the plain sums of their columns. |
| `QualitySummary.OneDirectionEach` | dbt/models/gold/tether_treasury_flow.sql:76-107 | Counted are the transfers of the token with both amounts of which the treasury is exactly one of the two parties; each has exactly one direction. |
| `Pipeline.LoadBlockTimestamps` | src/cryptoquant_pipeline/pipeline.py:192-215 | The true time of exactly the blocks the logs name, each looked up once in ascending order; or an unreadable number, a fault of the provider, or a refused block. |
| `Pipeline.LooseHexReads` | src/cryptoquant_pipeline/pipeline.py:197-202 | A block number is read from hexadecimal digits with the prefix 0x or without it, at least one, and from nothing else. |
| `Pipeline.CollectedLogs` | src/cryptoquant_pipeline/pipeline.py:80-94 | Exact range and complete collection together give exactly the logs of the window's blocks. |
| `Pipeline.FetchWindow` | src/cryptoquant_pipeline/pipeline.py:57-94 | Success means that the window's own logs and the right times were fetched and that the window is fetchable; every error states its cause. |
| `Pipeline.CalmFetch` | src/cryptoquant_pipeline/pipeline.py:57-94 | When no fault outlasts the retries, only a window that cannot be fetched ends a run before its first write. |
| `Pipeline.NormalizedWindow` | src/cryptoquant_pipeline/pipeline.py:96-113 | Without invalid logs the batch is the window's batch, whatever the run; there are none exactly when all of the window's logs are well-formed. |
| `Pipeline.Warehouse.BuildSilver` | dbt/models/silver/erc20_transfers.sql:39-238 | Silver becomes the delete+insert of the silver query; raw and gold are untouched. |
| `Pipeline.Warehouse.BuildGold` | dbt/models/gold/tether_treasury_flow.sql:33-157 | Gold becomes the delete+insert of the gold query; raw and silver are untouched. |
| `Pipeline.RunInterval` | src/cryptoquant_pipeline/pipeline.py:44-131 | The tables change by exactly the effect of the stage reached, also when the run fails; failing before the raw commit changes nothing; a run that wrote something had a fetchable and landable window; gold is built only when the silver tests pass; a dbt process that stops early fails the run and builds no later model; when storage and the dbt process do not fail and no fault outlasts the retries, the run succeeds if and only if the window is fetchable and landable and the data tests pass. |
| `Convergence.FactInWindow` | src/cryptoquant_pipeline/pipeline.py:80-102 | Every landed row comes from a log of a block of its window: interval_start <= block time < interval_end. |
| `Convergence.HonestWindowIsFetchable` | src/cryptoquant_pipeline/pipeline.py:57-94 | On an honest chain and inside the provider's reach, a window is fetchable if and only if the chain id and chunk size fit, the head has reached its end, and it holds a block. |
| `Convergence.KeyDeterminesFact` | src/cryptoquant_pipeline/delta_writer.py:373-375 | Over all disjoint windows a natural key has one fact and lies in one window. |
| `Convergence.RawStep` | src/cryptoquant_pipeline/pipeline.py:115-118 | Landing a window adds its facts if they are not there yet. |
| `Convergence.SilverStep` | dbt/models/silver/erc20_transfers.sql:39-93 | Building silver for a landed window adds its transfers if they are not there yet, whatever else is in the raw table. |
| `Convergence.GoldStep` | dbt/models/gold/tether_treasury_flow.sql:33-157 | Building gold for a window adds its flows if they are not there yet. |
| `Convergence.RawAndSilverClosedForm` | src/cryptoquant_pipeline/pipeline.py:80-121 | After any history raw and silver have unique keys and hold exactly the facts and transfers of the windows that some run took that far. |
| `Convergence.GoldClosedForm` | src/cryptoquant_pipeline/pipeline.py:80-121 | After any history gold has unique keys and holds exactly the flows of the finished windows. |
| `Convergence.HistoriesAgree` | src/cryptoquant_pipeline/pipeline.py:80-121 | Two histories that took the same windows as far leave the same contents, in whatever order and with whatever failures. |
| `Convergence.AlignedIsEnough` | airflow/dags/ethereum_hourly_logs.py:180-194 | Histories of hour-aligned windows satisfy the hour condition of the gold theorems. |
| `Convergence.RawKeysOfAnyHistory` | src/cryptoquant_pipeline/delta_writer.py:117-149 | Without any assumption on windows or logs, raw keys are unique and are those of all batches ever landed. |
| `CleanRecomputation.ConvergesToCleanRun` | src/cryptoquant_pipeline/pipeline.py:80-121 | A window finished by any run has, in all three tables, what one clean run on empty tables gives. |
| `CleanRecomputation.EarlyFailuresLeaveNoTrace` | src/cryptoquant_pipeline/pipeline.py:57-113 | A run that fails before the raw commit can be struck from any place of a history: the tables at the end are the same. |
| `CleanRecomputation.FlowsOfTransfers` | dbt/models/gold/tether_treasury_flow.sql:117-144 | Aggregating window by window is aggregating all windows at once. |
| `CleanRecomputation.IncrementalIsFullRecompute` | dbt/models/gold/tether_treasury_flow.sql:33-157 | After any history, also with windows that were landed but not finished: silver is its query over all raw rows of the built windows, gold its query over all silver rows of the finished windows, at once and without any window. |
| `CleanRecomputation.IncrementalIsPartOfOneQuery` | dbt/models/silver/erc20_transfers.sql:39-93 | Over one window that covers all landed ones, silver is the built windows' part of what the silver query gives, gold the finished windows' part of what the gold query gives. |
| `CleanRecomputation.FinishedIsOneQuery` | dbt/models/gold/tether_treasury_flow.sql:33-157 | When every landed window is finished, both tables are just what the two queries give over such a window. |
| `CleanRecomputation.SummaryIsConserved` | dbt/models/gold/tether_treasury_flow_quality_summary.sql:16-84 | For a finished window the summary's row, transfer and direction counts are those of the window's stored treasury transfers, and its four sums the plain sums of their two amount columns by direction. |
| `CleanRecomputation.LandedFactsMatch` | src/cryptoquant_pipeline/pipeline.py:96-118 | Every landed row's text and status are the decode of its data, which is in lower case. |
| `CleanRecomputation.OnlyWideAmountsAreMissing` | dbt/models/silver/erc20_transfers.sql:143-221 | For a landed transfer of the token: no amount if and only if its decimal text has more than 38 digits; otherwise both amounts are the value of its data word. |
| `CleanRecomputation.UsdtTotalsAreRawTotals` | dbt/models/gold/tether_treasury_flow_quality_summary.sql:44-77 | The summary's USDT totals are its raw totals: moving the decimal point loses nothing in any sum. What they are says the next row. |
| `CleanRecomputation.SummaryAddsUpTheWords` | dbt/models/gold/tether_treasury_flow_quality_summary.sql:44-77 | For a finished window all four totals are sums of the 32-byte data words of the window's treasury transfers, inflow and outflow apart. |
| `ChainTransfers.FactIsRead` | src/cryptoquant_pipeline/log_normalizer.py:103-165 | The row that a run makes of a log is the row read straight from its payload, and there is one exactly when the payload is well-formed. |
| `ChainTransfers.TransferIsRead` | dbt/models/silver/erc20_transfers.sql:47-238 | Silver reads that row as a transfer if and only if the log is a Transfer log, and then as the transfer read straight from the payload, in all its columns. |
| `ChainTransfers.TablesReadTheChain` | src/cryptoquant_pipeline/pipeline.py:80-121 | After any history the raw table holds exactly the rows of the well-formed logs of the landed windows' blocks, and silver exactly the transfers of the Transfer logs of the built windows' blocks, as read from the payloads. |
| `ChainTransfers.SummaryReadsTheChain` | dbt/models/gold/tether_treasury_flow_quality_summary.sql:16-84 | The summary of a finished window counts exactly the flow logs of its blocks (token transfers below 10^38 between the treasury and someone else), and its totals are the sums of their data words. |
| `HourSharing.HourApartInOrder` | dbt/models/gold/tether_treasury_flow.sql:102-102 | For windows in order it is enough to compare the hour of the last second of one with that of the first of the next. |
| `Receipts.ReceiptsAreSound` | src/cryptoquant_pipeline/log_normalizer.py:103-165 | A chain with a block every second and two well-formed Transfer logs in two of them is a sound chain. |
| `Receipts.ReceiptsLandable` | src/cryptoquant_pipeline/log_normalizer.py:103-165 | On such a chain every window can be landed. |
| `Receipts.ReceiptsOfWindow` | dbt/models/silver/erc20_transfers.sql:47-238 | The transfers of a window of such a chain are those of the logs whose block lies in it. |
| `ReceiptHistories.ReceiptJobsGoWell` | src/cryptoquant_pipeline/pipeline.py:44-131 | On such a chain jobs for any non-empty windows, in any order, can all be fetched, landed and tested without failing. |
| `ReceiptHistories.OneWideTransferBlocksAll` | dbt/tests/usdt_amount_numeric_not_null.sql:15-34 | For any window there is a sound chain on which one run of it puts a transfer of more than 38 digits into silver, after which the data tests of every later run fail. |
| `Receipts.DefaultIsCountable` | dbt/dbt_project.yml:17-19 | The default token and treasury are ones for which transfers are counted. |
| `HourSharing.DisagreementRefutes` | dbt/models/gold/tether_treasury_flow.sql:33-157 | When two of the windows disagree about an hour, there are a sound chain and one job for each window whose history leaves gold different from one aggregation; on the main chain all the jobs go well. |
| `HourSharing.LosingJobs` | dbt/models/gold/tether_treasury_flow.sql:33-157 | Whatever such jobs come to, they all report success, finish just these windows, and leave gold inexact. |
| `HourSharing.UncountableRecomputes` | dbt/models/gold/tether_treasury_flow.sql:66-92 | When token or treasury are no addresses, gold stays empty, and so is the one aggregation. |
| `HourSharing.GoldIsExactIffHoursAgree` | dbt/models/gold/tether_treasury_flow.sql:33-157 | For any non-empty windows, overlapping or not: on every sound chain every history that finishes just these leaves gold as one aggregation of silver gives it, if and only if any two of them agree about hours or nothing is ever counted; and the same when only jobs on the main chain that all succeed are considered. |
| `HourSharing.AgreeingSeparateWindows` | dbt/models/gold/tether_treasury_flow.sql:102-102 | For windows that are the same or disjoint, to agree about hours is to share no clock hour. |
| `HourSharing.AdjacentWindowsNeedAFullHour` | airflow/dags/ethereum_hourly_logs.py:180-194 | Adjacent windows are exact together, for all jobs that succeed, if and only if the boundary between them is a full hour. |
| `HourSharing.OneHourWindowsMayShareAnHour` | airflow/dags/ethereum_hourly_logs.py:180-194 | Two adjacent one-hour windows, from half past to half past, for which jobs that all succeed may leave gold inexact. |
| `OverlappingGold.LandedIsSettled` | src/cryptoquant_pipeline/delta_writer.py:117-149 | No later landing, of whatever window, adds a fact to a window that has been landed, or changes one. |
| `OverlappingGold.AnyHistoryReflects` | dbt/models/silver/erc20_transfers.sql:39-93 | After any history silver is decoded from the raw table, and for a built window it has every raw transfer of it. |
| `OverlappingGold.FlowsOverride` | dbt/models/gold/tether_treasury_flow.sql:33-45 | Aggregating two sets, of which the second brings whole groups along, is to override the flows of the first by those of the second. |
| `OverlappingGold.HoursAgreeMeans` | dbt/models/gold/tether_treasury_flow.sql:102-102 | Disjoint windows agree about hours if and only if they share none; windows that start and end on the hour always agree. |
| `OverlappingGold.HoursAgreeRecomputes` | dbt/models/gold/tether_treasury_flow.sql:33-157 | After any history whose finished windows agree about hours, overlapping or not, gold is one aggregation of the stored transfers of these windows, with all its columns. |
| `SummaryWindows.WholeWindowsConserve` | dbt/models/gold/tether_treasury_flow_quality_summary.sql:16-84 | When no landed window sticks out of the finished window or into it, its summary counts and adds up just its stored treasury transfers. |
| `SummaryWindows.StickingOutRefutes` | dbt/models/gold/tether_treasury_flow_quality_summary.sql:26-29 | When one does, there is a history of just these windows, made by jobs that all go well when all are finished, whose summary is wrong. |
| `SummaryWindows.SummaryIsExactIffWhole` | dbt/models/gold/tether_treasury_flow_quality_summary.sql:16-84 | The two together, for finished windows that agree about hours: the exact condition for the summary of one of them, over all sound chains and histories of the given landed and finished windows. |
| `SummaryWindows.OverlapMayLoseTheSummary` | dbt/models/gold/tether_treasury_flow_quality_summary.sql:26-29 | Two hours and then the second of them again: the summary of the second window may be wrong, that of the first never is. |
| `OverlappingWindows.KeyDeterminesBareFact` | src/cryptoquant_pipeline/delta_writer.py:373-375 | Over any windows a natural key has one fact up to the interval columns. |
| `OverlappingWindows.OverlappingClosedForm` | src/cryptoquant_pipeline/pipeline.py:80-121 | After any history, whatever its windows, raw and silver hold up to the interval columns exactly the facts and transfers of the windows that some run took that far. |
| `OverlappingWindows.SameInstantsSameTables` | airflow/dags/ethereum_hourly_logs.py:180-194 | Two histories that landed and built the same instants, cut into windows in whatever way, hold the same rows up to the interval columns. |
| `DbtTests.MatchingRowPasses` | dbt/tests/ethereum_logs_uint256_contract.sql:19-57 | A row whose text and status are the decode of its data is never found by the uint256 test. |
| `DbtTests.DerivedTransferPasses` | dbt/tests/usdt_amount_numeric_not_null.sql:15-34 | A transfer decoded from such a row is found by no silver test except this one, and by this one exactly when it is of the token and has more than 38 digits. |
| `DbtTests.RawTestsAccept` | dbt/tests/ethereum_logs_uint256_contract.sql:19-57 | The raw tests pass exactly on unique keys and rows whose text and status tell one number and whether it is below 10^38, or tell that there is none. |
| `DbtTests.SilverTestsAccept` | dbt/tests/erc20_transfer_integrity.sql:16-45 | The silver tests pass exactly when every transfer is between two lower-case addresses, has a lower-case word as data, tells its amount, is numeric exactly below 10^38, and has amounts of the token exactly when it is of the token. |
| `DbtTests.GoldTestsAccept` | dbt/tests/treasury_flow_integrity.sql:15-38 | The gold tests pass exactly when there are as many keys as rows, and every flow is of the main chain's token and treasury and has a transfer. |
| `TestHistories.TablesAreSound` | src/cryptoquant_pipeline/pipeline.py:80-121 | After any history, with no assumption on the windows: unique keys in all three tables, raw rows that match their data, transfers decoded from such rows, flows of the configured token and treasury with at least one transfer. |
| `TestHistories.TestsAfterAnyHistory` | dbt/tests/treasury_flow_integrity.sql:15-38 | After any history the raw tests pass, the silver tests pass if and only if no stored transfer of the token has more than 38 digits, the gold tests if and only if the chain is the main one or gold is empty. |
| `TestHistories.SilverTestsAfterAnyHistory` | dbt/tests/usdt_amount_numeric_not_null.sql:15-34 | The silver tests pass if and only if no window that was built has a transfer of the token with more than 38 digits. |
| `TestHistories.WideTransferBlocksForGood` | dbt/tests/usdt_amount_numeric_not_null.sql:15-34 | Once they fail, they fail after every longer history. |
| `TestHistories.TestsOfNextRun` | src/cryptoquant_pipeline/pipeline.py:120-124 | Which data tests the next run will pass, from the windows that were built and its own. |
| `TestHistories.NoTreasuryFlowIsLeftOut` | dbt/models/gold/tether_treasury_flow.sql:66-92 | When the silver tests pass, the gold filter on amounts drops no treasury flow of the token. |
| `TestHistories.CountedTransfers` | dbt/models/gold/tether_treasury_flow.sql:66-92 | Gold counts a stored transfer if and only if it is of the token, between the treasury and someone else, and its data word is below 10^38. |
| `Histories.RunAll` | airflow/dags/ethereum_hourly_logs.py:57-57 | Jobs run one after the other leave the tables of the history of their runs; every run that wrote something had a fetchable and landable window; a job where nothing goes wrong outside succeeds if and only if its window can be fetched and landed and the data tests pass on the tables before it. |
| `Histories.PlannedRuns` | src/cryptoquant_pipeline/pipeline.py:44-131 | Jobs that go well make just the runs that they were planned to make, and all report success. |

## Left out

- JsonRpc.RpcClient.GetLogs: does not model the refusal of a request without address and topic filter, because the collection scope, which each collection validates first, always has the Transfer topic (src/cryptoquant_pipeline/config.py:68-83).
- HTTP, JSON decoding, authentication, provider URLs and the classification of error messages: a call is answered or fails in one of the ways the client tells apart; payloads of the wrong kind count as final failures.
- The scheduler, its configuration, environment reading, and the checks of the collection scope: one-branch plumbing.
- The dbt process, DuckDB, Delta and Arrow: tables are sequences of rows, a build may stop for reasons of its own before, between or after its two stored models, and a commit that raises is taken not to have happened; one that did happen is the case of a run that stopped after the raw commit.
- The check of a stored table's schema, partitioning, and the 64-bit width of the integer columns.
- The staging view between raw and silver: its casts and lower-casing change nothing on normalized rows.
- The not-null tests of dbt/models/schema.yml: the columns they name cannot be null in the model, except the decimal text of a transfer, which the transfer test covers.
- Quality checks, scripts and notebooks, and the designs that have no code (Bitcoin velocity, replacement after a reorganisation).
- Concurrent writers: the scheduler allows one active run.
- Overflow of SQL sums, calendar dates and time zones: sums are unbounded, instants are whole UTC seconds, a block's date is its day number.
- Spellings that Python's `int` accepts besides plain hexadecimal digits (underscores, signs, a capital X) and digits outside ASCII.
- Elements of an `eth_getLogs` answer that are not objects: the client drops them, and the model's chain has none.
- DECIMAL values are kept as unscaled integers; the number of decimals is at most 38 in SQL and unbounded here, and a text that ends in a bare point (no decimals) is taken to be readable.
- The summary's first and last hour and its window columns, which would only add easy members.
- The normalizer's helpers for notebooks (`topic_to_address`, `amount_with_decimals` and the Decimal conversions), which a run does not call.
- The time-zone checks of a run's bounds. The clock readings for ingestion and update times are parameters; the convergence results hold up to them.
- The choice between rows of one key with equal ingestion times, which SQL leaves open: the model keeps the first of them.
- The argument defaults of the lower-bound search (asking for the head, a cache of its own), which a run never uses.

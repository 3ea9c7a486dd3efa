# fio.oracle relay bookkeeping, in Dafny

The fio.oracle process relays wraps and unwraps between the FIO chain and
Ethereum/Polygon. This project models the bookkeeping that decides what the
relay does, and proves properties of that model:

- **Wrap path.** The FIO wrap dispatcher (`handleUnprocessedWrapActionsOnFioChain`)
  reads the new `wraptokens` / `wrapdomain` actions from the FIO history API,
  through the windowing search of `controller/util.js`. It records each action
  in `FIO.log`, appends a `"<trx_id> <data JSON>"` line to the queue file of its
  direction, starts that direction's executor at most once, and moves the FIO
  checkpoint past every item.
- **Executors.** The Ethereum executors (`wrapFioToken`, `wrapFioDomain`) go
  through these steps:
  - set their lock;
  - resolve the gas price;
  - check the oracle registration and the target address;
  - send the transaction;
  - log the receipt, or overwrite the dead-letter file;
  - shift the queue's head line off;
  - start themselves again on the next line, or empty the queue and clear the lock.
- **Unwrap path.** Three watchers (`handleUnprocessedUnwrap*`) walk the EVM
  blocks after their checkpoint up to the chain head, in chunks of at most
  `blocksRangeLimit` blocks. They write each chunk's end to the checkpoint
  *before* fetching its `unwrapped` events. Each event is logged and handed
  to a FIO transaction builder. The builder assembles a single-action
  `fio.oracle` transaction (`ref_block_num = block_num & 0xffff`, signed by
  the oracle account), pushes it and logs the answer.
- **Helpers.** The helpers of `controller/helpers.js` are modelled too: line-break
  replacement, log-line formatting, the generic queue shift, the dead-letter
  append, checkpoint seeding and round trip, case-insensitive oracle
  membership and the HTTP status check.

The process state is the class `Host.Host`:

- `files` maps a log-directory `Path` to its text (a missing key is a missing file);
- `cache` maps an `oracleCache` flag to a boolean (a missing key is falsy);
- `lastBlockNumber` is the numeric `lastBlockNumber` entry of the cache.

Every operation that changes state is a method with `modifies h`. Most such
methods are proved equal to a specification function of the old state, such as
`Eth.Step`, `FioDispatch.DispatchFiles`, `FioScan.Chunks` / `Ends` / `Collected`
or `FioScan.Logged`. The properties are lemmas about those functions.

The history search is the exception. Its outcome is stated through the
history replies: `Util.FoundAt`, `Util.FailedAt` and `Util.Exhausted` say at
which retry count the search stops and how. `Util.WindowDetermined` and
`Util.OutcomesExclusive` show that these conditions exclude one another, so
the contracts of `Util.GetUnprocessedActionsOnFioChain`,
`Util.GetLatestWrapDomainAction` and `FioDispatch.HandleUnprocessedWrapActions`
determine their results.

Everything outside the process appears as a parameter:

- the history API's replies and a chunk's `getPastEvents` answer;
- the gas oracle, `getOracles()`, the send outcome and the push answer;
- `JSON.parse`, `web3.utils.isAddress` and the clock's ISO timestamp.

Paths and cache keys are distinct abstract constructors, and JSON texts are
opaque strings.

Modules and files:

- `strings.dfy` (`Strings`): `n.toString()` / `parseFloat`, `toLowerCase`,
  `split('\r\n')` / `join('\r\n')`, `split(' ')`, and the queue-file text.
- `host.dfy` (`Host`): the paths, the cache keys and the `Host` class.
- `helpers.dfy` (`Helpers`): `controller/helpers.js`.
- `util.dfy` (`Util`): `controller/util.js`.
- `eth.dfy` (`Eth`): `controller/api/eth.js`.
- `fio_dispatch.dfy` (`FioDispatch`): the wrap dispatcher of `controller/api/fio.js`.
- `fio_scan.dfy` (`FioScan`): the three unwrap watchers of `controller/api/fio.js`.
- `fio_unwrap.dfy` (`FioUnwrap`): the three FIO transaction builders of `controller/api/fio.js`.

Points where the code behaves in a way a reader might not expect. The model
states each as the code has it:

- The dispatcher appends both domain directions (ETH and MATIC) to
  `wrapDomainTransaction` (fio.js:359, 384). The ETH domain executor shifts
  `wrapDomainByEthTransaction` instead (eth.js:298), and no dispatched item
  reaches that file (`FioDispatch.DispatchQueues`).
- The executors test registration with a case-sensitive `includes`
  (eth.js:82). The helper `isOracleEthAddressValid` lower-cases both sides
  (`Helpers.ExactMembershipIsStricter`, `Helpers.CaseMismatchExample`).
- A send without a receipt *overwrites* the executor's error file
  (`writeFileSync`, eth.js:149). `handleLogFailedWrapItem` appends instead
  (`Eth.DeadLetterOverwrites`).
- A run that throws before the shift leaves its entry at the head of the
  queue. The next dispatched entry then starts the executor, which shifts
  the stale head off and starts the new entry a second time
  (`Eth.StaleHeadRepeatsEntry`).
- The ETH domain receipt record reads `ETH fio.erc721 wrapdomain {...}`,
  without the word `receipt` that the tokens record has.
- The scan writes a chunk's end before asking for its events. A chunk whose
  request throws is therefore never asked for again
  (`FioScan.RestartAfterChunk`).
- The ETH domain builder sends `unwrapdomain` but logs `unwrapdomains`. The
  Polygon builder's data key is `fio_domain`, the ETH one's is `domain`.
- A checkpoint that `parseFloat` reads as NaN makes every comparison false.
  The scan then neither throws nor walks any block, and returns no event
  (`FioScan.ScanBlockRange`).

## Model

| member | source | states |
|---|---|---|
| Strings.NatToString | controller/api/fio.js:467 | `n.toString()` of a natural number is a non-empty string of decimal digits |
| Strings.ParseNumber | controller/helpers.js:126-137 | `parseFloat` of the checkpoint text is NaN (None) exactly when the text is empty or does not start with a digit (leading whitespace and `Infinity` are not read; see Left out) |
| Strings.NumberRoundTrip | controller/helpers.js:113-137 | reading back `n.toString()` with `parseFloat` gives n |
| Strings.ParseNumberStopsAtNonDigit | controller/helpers.js:127 | `parseFloat` of a number followed by text that does not start with a digit is still that number |
| Strings.ToLower | controller/helpers.js:244 | `toLowerCase` keeps the length and lower-cases each character in place |
| Strings.ToLowerIdempotent | controller/helpers.js:244 | lower-casing twice is lower-casing once |
| Strings.JoinSplit | controller/helpers.js:161-165 | `join('\r\n')` after `split('\r\n')` gives back the text |
| Strings.QueueTextSnoc | controller/api/fio.js:333-337 | appending a line and "\r\n" to a queue file gives the queue with that line added last |
| Strings.SplitQueueText | controller/api/eth.js:151 | a queue file of lines without line breaks splits into those lines and one trailing empty piece |
| Strings.JoinQueueLines | controller/api/eth.js:160 | joining lines plus a trailing empty piece gives the queue text of those lines |
| Strings.EntryFields | controller/api/eth.js:156-157 | a queue entry `txId + ' ' + json` with no space in either part splits on ' ' into exactly `[txId, json]` |
| Helpers.ReplaceNewLinesRemovesBreaks | controller/helpers.js:10-12 | with a replacement free of line breaks, the output has no '\r' or '\n' |
| Helpers.ReplaceNewLinesKeepsPlainText | controller/helpers.js:10-12 | text without line breaks is returned unchanged |
| Helpers.ReplaceNewLinesCrlf | controller/helpers.js:10-12 | a "\r\n" is replaced by one copy of the replacement, not two |
| Helpers.SetMemberPlaces | controller/helpers.js:94 | `message[key] = value` keeps an existing member in its place with the new value, adds a new key last, and leaves every other member as it was |
| Helpers.TimestampKey | controller/helpers.js:94 | the timestamp goes under `timestampTitle` when it is non-empty, under `timeStamp` otherwise |
| Helpers.QueueAppend | controller/api/fio.js:333-337 | a line logged without a timestamp extends the queue file by exactly that line |
| Helpers.AddLogMessage | controller/helpers.js:84-99 | appends exactly the formatted line (string: optional `title + ts + ' '`, the text and "\r\n"; object: stamped JSON and "\r\n") to the file, creating it if missing; the old content is a prefix; nothing else changes |
| Helpers.ShiftQueueDropsFirstLine | controller/helpers.js:161-164 | the queue is drained exactly when no non-empty piece follows the first; otherwise the next line is the second piece, and that piece plus the rewritten text is the input minus its first line |
| Helpers.ShiftQueueText | controller/helpers.js:161-166 | on a queue of well-formed lines the shift removes exactly the oldest line: the next line is the second, and the file written back holds every later line in order; a single line or an empty second line drains it |
| Helpers.UpdatePendingWrapItemsQueue | controller/helpers.js:155-174 | a missing file throws with no change; otherwise either the rewritten remainder is written and the action invoked with the flag untouched, or the file becomes "" and the job flag is cleared |
| Helpers.LogFailedWrapItem | controller/helpers.js:176-185 | appends exactly `txId + ' ' + JSON + "\r\n"` to the error file, keeping what it held |
| Helpers.SeedText | controller/helpers.js:73-75 | the seed is '' exactly when there is no fetcher or it answers a falsy head, and otherwise reads back as that head |
| Helpers.PrepareLogFile | controller/helpers.js:51-82 | an existing non-empty file is never touched, an existing empty one is seeded only when a fetcher is given, and a missing one is created with the seed |
| Helpers.CheckpointPathsDistinct | controller/helpers.js:113-124 | the four checkpoints are four different files |
| Helpers.UpdateBlockNumber | controller/helpers.js:113-124 | overwrites exactly the checkpoint's file |
| Helpers.GetLastProceededBlockNumber | controller/helpers.js:126-137 | throws exactly when the checkpoint file is missing, and otherwise returns `parseFloat` of its text |
| Helpers.CheckpointRoundTrip | controller/helpers.js:113-137 | writing `n.toString()` and reading the same checkpoint gives n, and no other checkpoint changes |
| Helpers.LowerAll | controller/helpers.js:244 | the `map(toLowerCase)` of the oracle list is element-wise |
| Helpers.IsOracleAddressValid | controller/helpers.js:238-254 | true exactly when some registered key equals the oracle's key after lower-casing both |
| Helpers.OracleValidityIgnoresCase | controller/helpers.js:244 | two oracle keys that differ only in letter case get the same answer |
| Helpers.ExactMembershipIsStricter | controller/api/eth.js:81-82 | the executors' exact `includes` implies the helper's case-insensitive membership |
| Helpers.CaseMismatchExample | controller/api/eth.js:82 | a key registered as "0xAB" passes the helper's test for "0xab" but not the executors' exact one |
| Helpers.CheckHttpResponseStatus | controller/helpers.js:144-153 | a 2xx response is passed through; any other status throws with the response body, in both directions |
| Util.GetFioChainInfo | controller/util.js:15-26 | a failed response throws with its body; otherwise the head is `last_irreversible_block_num` when it is present and non-zero, else 0 |
| Util.GetActions | controller/util.js:39-52 | a failed response throws; otherwise the result is the reply's `actions`, element by element in order |
| Util.AboveCheckpointExact | controller/util.js:36 | the filter keeps exactly the items whose block number is above the checkpoint, in order; it keeps all of them when all are above, and none when the checkpoint is NaN |
| Util.AboveCheckpointAppend | controller/util.js:36 | the filter distributes over concatenation |
| Util.FindWindow | controller/util.js:30-35 | each retry lowers the offset by exactly 10 and happens only while the window is non-empty and its first item is above the checkpoint; a found window is the reply at the final offset and does not start above the checkpoint |
| Util.WindowDetermined | controller/util.js:31-35 | the search stops at most once: the retry count at which it finds a window or fails is unique, and a search still widening at the bound stops at no count up to it |
| Util.WindowOutcome | controller/util.js:30-35 | FindWindow's final offset and window are the reply at the retry count where the search stops; an exhausted window means every reply up to the bound still starts above the checkpoint |
| Util.OutcomesExclusive | controller/util.js:30-36 | each of the three search outcomes holds exactly when the replies give its stopping condition |
| Util.GetUnprocessedActionsOnFioChain | controller/util.js:28-37 | a missing checkpoint throws ENOENT; otherwise a result is the reply at `POLLOFFSET - 10k`, where k is the retry count at which the search stops, filtered to the items strictly above the checkpoint in order; a failure is that reply's error body; running out of fuel means every reply up to the bound still starts above the checkpoint |
| Util.GetLatestWrapDomainAction | controller/util.js:54-73 | the result is the reply at the retry count where the search stops, filtered against the cached `lastBlockNumber`; a failure is that reply's error body, and an exhausted search changes nothing; afterwards the number is the block of the last item returned, or unchanged when none is returned |
| Eth.GasPriceSources | controller/api/eth.js:43-59 | the executors' if-chain agrees with the decision table `GasPriceTable`, which has one row per API switch, oracle status and static-price sign; the price is always one of the three tiers, the static price or 0 |
| Eth.StaticPriceIgnoresApi | controller/api/eth.js:56-58 | with the API off and a static price that is positive or unparsable, the API's answer does not matter |
| Eth.UnknownApiStatusGivesNoPrice | controller/api/eth.js:47-61 | with the API on, a status other than "1" or "0" leaves the price 0 |
| Eth.NonPositiveStaticPriceFallsBackToApi | controller/api/eth.js:47-55 | with the API off and `TGASPRICE <= 0`, the API's tier is used anyway |
| Eth.GateConditions | controller/api/eth.js:43-99 | a run gets past the checks exactly when the gas oracle answers, the price is non-zero, `getOracles()` answers, the oracle's key is in it, and the target is an ETH address; a stopped run never continues |
| Eth.HealthyRunProceeds | controller/api/eth.js:61-99 | a run in which every outside call succeeds, on an ETH target, reaches the send |
| Eth.GateImpliesRegistered | controller/api/eth.js:82 | a run that passes the exact check also passes the case-insensitive membership |
| Eth.NextEntryOfQueueLine | controller/api/eth.js:156-157 | a queue line `txId + ' ' + json` is read back as that txId and the parsed json, an unparsable json throws, and a line without a space throws |
| Eth.Sent | controller/api/eth.js:132-150 | logging the receipt or writing the dead letter never touches the queue file |
| Eth.StepWritesOnly | controller/api/eth.js:33-189 | a run writes only ETH.log and its own queue and error files |
| Eth.StepTakesNextEntry | controller/api/eth.js:151-162 | after a send that does not throw, on a queue whose second line is a good entry, the run continues with that entry and the file is rewritten as every line after the head |
| Eth.StepEmptiesLastEntry | controller/api/eth.js:163-167 | on a queue holding only its own entry, the run empties the file and ends as Exhausted |
| Eth.DeadLetterOverwrites | controller/api/eth.js:146-150 | a send without a receipt leaves the error file holding exactly `txId + ' ' + JSON + "\r\n"`, whatever it held before, and ETH.log gains only the submit record |
| Eth.ReceiptIsLogged | controller/api/eth.js:118-139 | a confirmed send appends the submit record and then the receipt record to ETH.log, and leaves the error file as it was |
| Eth.FailuresKeepQueue | controller/api/eth.js:170-188 | a run stopped by a check writes nothing; a send that throws writes only the submit record and leaves the queue, head included, unshifted |
| Eth.ReplayLength | controller/api/eth.js:155-168 | a chain of self-starting runs makes at most one exit per run, and at least one when it runs at all |
| Eth.ReplayContinuesUntilLast | controller/api/eth.js:155-168 | every exit of the chain but the last is a Continue, and a chain that stops early stops on a non-Continue |
| Eth.FirstRunTakesOldest | controller/api/eth.js:151-162 | the first run starts the oldest queued entry and leaves it at the head of a queue of the remaining ones |
| Eth.ReplayLastEntry | controller/api/eth.js:163-167 | the last run of the chain, on a queue of its own entry, ends the chain as Exhausted with the file emptied |
| Eth.ReplayRunsQueueInOrder | controller/api/eth.js:151-168 | FIFO: with healthy runs, the chain starts every queued entry exactly once, in file order, then empties the queue |
| Eth.StaleHeadRepeatsEntry | controller/api/eth.js:151-159 | when a failed run left a stale head before a new entry, the run started on the new entry continues with that same entry again |
| Eth.WrapStep | controller/api/eth.js:33-189 | one executor run changes the files as `Step` says, and its lock ends set exactly when it continues with a next entry |
| Eth.RecordSend | controller/api/eth.js:132-150 | after a send: the receipt record is appended to ETH.log, or the error file is overwritten with the dead letter |
| Eth.SettleQueue | controller/api/eth.js:151-168 | reads and shifts the queue (throwing when it is missing or the next entry does not parse); the lock stays set only when the next entry is started |
| Eth.WrapChain | controller/api/eth.js:155-159 | the executor with its self-call leaves the files and exits of the chain of runs, and its lock holds the last run's verdict |
| FioDispatch.RoutedIffClassified | controller/api/fio.js:318-393 | an item goes to a queue exactly when it is `wraptokens`, or `wrapdomain` on ETH or MATIC, and that queue is its direction's |
| FioDispatch.DispatchOneAt | controller/api/fio.js:318-395 | one item adds its `tx_id + ' ' + JSON` line to the one queue it is routed to and leaves every other queue file alone |
| FioDispatch.DispatchQueues | controller/api/fio.js:317-396 | every queue file grows by exactly the lines of the items routed to it, in item order; files no item is routed to (`wrapDomainByEthTransaction` among them) are unchanged |
| FioDispatch.DispatchAuditLog | controller/api/fio.js:324-381 | FIO.log grows by one record per classified item, in order |
| FioDispatch.DispatchCheckpoint | controller/api/fio.js:395 | the FIO checkpoint is written for every item, classified or not, so it ends at the last item's block number and reads back as it; with no item nothing is written |
| FioDispatch.StartedOnFirstItems | controller/api/fio.js:309-392 | each direction's executor starts at most once, only when its flag was clear when the loop began, always on the first item of that direction, and whenever such an item exists |
| FioDispatch.MarkStartedFlags | controller/api/eth.js:38-39 | after the starts, a flag is set exactly when it was set before or a started ETH executor set it; no other cache entry changes |
| FioDispatch.DispatchItem | controller/api/fio.js:318-395 | one loop pass changes the files as `DispatchOne` and starts the item's executor when its local flag is clear |
| FioDispatch.DispatchAll | controller/api/fio.js:317-396 | the loop changes the files as `DispatchFiles`, makes exactly the starts `Started` lists, and sets the locks those starts set |
| FioDispatch.HandleUnprocessedWrapActions | controller/api/fio.js:289-403 | a call while the job flag is set changes nothing. Otherwise, with the search starting at `POLLOFFSET`: a missing checkpoint or a failed final reply gives `FetchFailed`; the search still widening at the bound gives `Awaiting` (flag left set); in every other case it is `Dispatched`. Each of these holds exactly when the replies say so. The items dispatched are the stopping reply's items above the FIO checkpoint. The flag is cleared on every completed call |
| FioScan.ChunksCover | controller/api/fio.js:451-475 | the chunks are empty exactly when the start is past the head; otherwise the first starts at checkpoint+1, the last ends at the head, and each holds between 1 and `blocksRangeLimit` blocks within the range |
| FioScan.ChunksContiguous | controller/api/fio.js:459-474 | each chunk starts right after the previous one's end, and all but the last hold exactly `blocksRangeLimit` blocks |
| FioScan.CheckpointWritesIncrease | controller/api/fio.js:458-475 | the checkpoint values written increase strictly and stay above the stored checkpoint; the last is the head; when the checkpoint is already at the head, nothing is written |
| FioScan.RestartAfterChunk | controller/api/fio.js:466-474 | a scan restarted from the checkpoint left after chunk k walks exactly the chunks after k: those blocks are never asked for again |
| FioScan.CollectedFromChunks | controller/api/fio.js:469-472 | an event is in the collected list exactly when it belongs to one of the chunks fetched, on the list of concatenated chunk results |
| FioScan.FetchChunk | controller/api/fio.js:459-474 | one pass asks for the range from `fromBlockNumber` to `min(from + limit - 1, head)`, having first written its end as the checkpoint |
| FioScan.FetchChunks | controller/api/fio.js:455-480 | the loop writes each chunk's end as the checkpoint up to and including the first failing chunk, and returns the chunk results concatenated in order, or throws on that failure |
| FioScan.ScanBlockRange | controller/api/fio.js:442-481 | a missing checkpoint, or one above the head, throws with nothing written; a NaN one walks nothing; otherwise the chunks after the checkpoint are walked as `FetchChunks` says |
| FioScan.EventLogLines | controller/api/fio.js:486-497 | the events' log is a queue text of one line per event |
| FioScan.EventLinesAt | controller/api/fio.js:491-494 | event i gets exactly line i, the timestamp, the watcher's prefix and the event's JSON |
| FioScan.HandleEvents | controller/api/fio.js:486-497 | the `forEach` logs every event in order and makes one builder call per event, with the event's hash, address and amount or domain |
| FioScan.Watch | controller/api/fio.js:483-498 | a missing checkpoint, or one above the head, fails with nothing written; a NaN one is handled with no event and no write; otherwise the checkpoint writes are the ends of the chunks up to and including the first failing one, the call fails exactly when a chunk fails, and with no failure the events logged and handed on are exactly those collected from the chunks; a failed scan logs no event and makes no call |
| FioScan.HandleUnprocessedUnwrapActions | controller/api/fio.js:405-505 | a call while the watcher's flag is set changes nothing; otherwise the flag is cleared at the end whatever happened, and the outcome, the checkpoint writes and the log are those `Watch` states |
| FioUnwrap.BitAndOnes | controller/api/fio.js:63 | ANDing with a mask of k ones keeps exactly the k low bits |
| FioUnwrap.RefBlockNumIsLow16 | controller/api/fio.js:63 | `block_num & 0xffff` is `block_num` modulo 65536, so it lies in [0, 65536), for any integer block number |
| FioUnwrap.EnvelopeRoundTrip | controller/api/fio.js:61-79 | the transaction asks for exactly the unwrap it was built from, in one `fio.oracle` action signed by the oracle account with `active` permission, whose data actor is the oracle account; it carries the block's prefix and reduced number, and the expiration given |
| FioUnwrap.EnvelopeInjective | controller/api/fio.js:144-162 | different unwraps never produce the same transaction |
| FioUnwrap.UnwrapToFioChain | controller/api/fio.js:38-119 | a failed chain query or push writes nothing; an answered push appends one timestamped `{chain, contract, action, transaction}` record to the FIO log |
| FioUnwrap.WatcherCallsRoundTrip | controller/api/fio.js:486-496 | the transaction sent for an unwrap event names the event's hash as `obt_id`, its FIO address, and its amount (tokens) or domain (domains) |

## Left out

- server.js, the HTTP bootstrap and `controller/constants.js`: plumbing and name tables. Paths and cache keys are distinct abstract constructors.
- The network, web3 RPC, `Fio.prepareTransaction`, ABI encoding, nonce lookup, signing and serialisation: each is an input of the model (`Run`, `Fetch`, the `push` function, `History`).
- The writes to `Error.log` made by `handleServerError` / `handleChainError`, and the directory preparation they do: an error path is an exit value, and that file is not modelled.
- The fire-and-forget `getBalance` low-balance warning (eth.js:69-79): it runs concurrently, and it compares floating-point ether values.
- Floating point: the `convert*` and `calculate*` helpers. Gas prices are whole wei and the tiers are given in wei. `convertNativeFioIntoFio` appears only in console text.
- Strings.ParseNumber: `parseFloat` is modelled on unsigned decimal prefixes only. Leading whitespace, signs, fractions, exponents and `Infinity` are not read, and NaN is `None`. So `" 7"` reads as NaN here, though `parseFloat` gives 7. The relay writes checkpoints with `toString()`, which never produces these forms.
- `parseInt(returnValues.amount)` is an input integer of the event.
- `ToLower` lower-cases ASCII letters only, not the rest of Unicode.
- Timing and interleaving: the un-awaited executor self-call and the un-awaited builder calls run one after the other in the model. The dispatcher's starts are returned as a list. A started executor's lock is set at the start, as its synchronous prefix does. Two async runs interleaving on the same files is not modelled.
- The executors' log prefixes, timestamps and the expiration string are opaque strings. JSON is opaque text: `json` fields stand for `JSON.stringify`, and an `EthSetup.parse` function stands for `JSON.parse`.
- The Polygon domain executor `polygonCtrl.wrapFioDomain` is not part of this model. A MATIC item is queued and logged, and its start is recorded, but no run of it is modelled.
- `getEthGasPriceSuggestion`, `getPolygonGasPriceSuggestion`, `checkEthBlockNumbers`, `getBalance`, `getFIOAddress`, `getOracleFee` and `availCheck`: network wrappers outside the bookkeeping.
- Console logging.
- Util.FindWindow: the source loop need not terminate, so the model bounds the retries by `fuel`. An exhausted bound is the `OutOfFuel` outcome, and the dispatcher treats it as a search still waiting, with its job flag left set.
- FioScan.ScanBlockRange: requires `blocksRangeLimit >= 1`, since with a smaller limit the source loop never ends.
- FioScan.ScanBlockRange: `blocksRangeLimit` is an integer here, so a NaN limit is not covered. `parseInt(BLOCKS_RANGE_LIMIT_ETH)` gives NaN when the setting is unset or not numeric (fio.js:418, 520, 623). The source then makes one pass: it asks for the events up to block NaN and writes the text "NaN" as the checkpoint (fio.js:459-467). The next `fromBlockNumber` is NaN, so the loop exits (fio.js:474, 458). From then on every call reads a NaN checkpoint and scans nothing.
- FioScan.ScanBlockRange: the chain head is a plain integer, so a throw from `web3.eth.getBlockNumber()` (fio.js:443, 545, 648) is not modelled. It would end the watcher call with nothing written, and the caught error clears the flag.
- Util.GetUnprocessedActionsOnFioChain, Util.GetLatestWrapDomainAction: the starting offset is an integer, so `parseInt(POLLOFFSET)` giving NaN (util.js:30, 56) is not modelled. The source would then send `offset: NaN`, which `JSON.stringify` writes as `null`, and would compute every later offset as NaN.
- Eth.Step: a throw from `getTransactionCount` (eth.js:103), before the submit record, is not told apart from a throw during the send, so the model shows the submit record in ETH.log in both cases.
- Eth.WrapStep: the ETH.log records are stamped with the run's `now`. The wallclock moving between the submit and the receipt records is not modelled.

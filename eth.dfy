/** controller/api/eth.js: the Ethereum executors `wrapFioToken` and
    `wrapFioDomain`. Each run takes the entry at the head of its queue file,
    resolves a gas price, checks that this oracle is registered and that the
    target is an ETH address, submits, parks a failed entry in the error
    file, shifts the queue and starts itself again on the next entry. Both
    executors share one shape; `Direction` says which one runs. */
module Eth {
  import opened Strings
  import opened Host
  import opened Helpers
  import opened Util

  // ---------------------------------------------------------------------
  // Gas price
  // ---------------------------------------------------------------------

  /** The gas oracle's answer: its `status` and the three suggested tiers,
      already converted to wei (0 stands for a tier that converts to a
      falsy value). */
  datatype GasApi = GasApi(status: string, safeWei: int, proposeWei: int, fastWei: int)

  /** The gas settings: `!!parseInt(USEGASAPI)`, `parseInt(TGASPRICE)` (None
      for NaN), the static price converted to wei (0 when falsy), and
      `GASPRICELEVEL`. */
  datatype GasConfig = GasConfig(useGasApi: bool, tGasPrice: Option<int>, tGasPriceWei: int, level: string)

  /** The tier `GASPRICELEVEL` selects; any other level leaves the price 0. */
  function ApiTier(api: GasApi, level: string): int
  {
    if level == "average" then api.proposeWei
    else if level == "low" then api.safeWei
    else if level == "high" then api.fastWei
    else 0
  }

  /** The API branch's guard: the API is in use and answered "1", or it is
      not in use and the static price is a number <= 0. */
  predicate UsesApiTier(api: GasApi, config: GasConfig) {
    (config.useGasApi && api.status == "1")
    || (!config.useGasApi && config.tGasPrice.Some? && config.tGasPrice.value <= 0)
  }

  /** The gas price both executors compute. */
  function ResolveGasPrice(api: GasApi, config: GasConfig): int
  {
    if UsesApiTier(api, config) then ApiTier(api, config.level)
    else if !config.useGasApi || (config.useGasApi && api.status == "0") then config.tGasPriceWei
    else 0
  }

  /** The gas rule as a decision table, one row per API switch, oracle
      status and static-price sign: with the API on, status "1" picks the
      level's tier, "0" the static price and anything else nothing; with
      the API off, a static price <= 0 picks the level's tier and a positive
      or NaN one the static price. */
  function GasPriceTable(api: GasApi, config: GasConfig): int {
    match (config.useGasApi, config.tGasPrice)
    case (true, _) =>
      if api.status == "1" then ApiTier(api, config.level)
      else if api.status == "0" then config.tGasPriceWei
      else 0
    case (false, Some(t)) => if t <= 0 then ApiTier(api, config.level) else config.tGasPriceWei
    case (false, None) => config.tGasPriceWei
  }

  /** The executors' if-chain computes the decision table, and the price is
      one of the oracle's tiers, the static price, or 0 ("Cannot set valid
      Gas Price value"). */
  lemma GasPriceSources(api: GasApi, config: GasConfig)
    ensures ResolveGasPrice(api, config) == GasPriceTable(api, config)
    ensures ResolveGasPrice(api, config) in {api.proposeWei, api.safeWei, api.fastWei, config.tGasPriceWei, 0}
  {
  }

  /** With the API switched off and a static price that is positive or not
      a number, the API's answer makes no difference. */
  lemma StaticPriceIgnoresApi(api1: GasApi, api2: GasApi, config: GasConfig)
    requires !config.useGasApi && (config.tGasPrice.None? || config.tGasPrice.value > 0)
    ensures ResolveGasPrice(api1, config) == ResolveGasPrice(api2, config) == config.tGasPriceWei
  {
  }

  /** With the API switched on, an answer other than "1" or "0" leaves no
      price, whatever is configured, so the run throws. */
  lemma UnknownApiStatusGivesNoPrice(api: GasApi, config: GasConfig)
    requires config.useGasApi && api.status != "1" && api.status != "0"
    ensures ResolveGasPrice(api, config) == 0
  {
  }

  /** With the API switched off but a static price <= 0, the API's tier is
      used even though the API is meant to be off. */
  lemma NonPositiveStaticPriceFallsBackToApi(api: GasApi, config: GasConfig)
    requires !config.useGasApi && config.tGasPrice.Some? && config.tGasPrice.value <= 0
    ensures ResolveGasPrice(api, config) == ApiTier(api, config.level)
  {
  }

  // ---------------------------------------------------------------------
  // The two executors
  // ---------------------------------------------------------------------

  datatype Direction = Tokens | DomainEth

  /** `wrapTokensTransaction` / `wrapDomainByEthTransaction`. */
  function QueuePath(dir: Direction): Path {
    match dir
    case Tokens => WrapTokensQueue
    case DomainEth => WrapDomainByEthQueue
  }

  /** `wrapTokensTransactionError` / `wrapDomainByEthTransactionError`. */
  function ErrorPath(dir: Direction): Path {
    match dir
    case Tokens => WrapTokensErrors
    case DomainEth => WrapDomainByEthErrors
  }

  /** `isWrapTokensExecuting` / `isWrapDomainByETHExecuting`. */
  function Lock(dir: Direction): CacheKey {
    match dir
    case Tokens => WrapTokensLock
    case DomainEth => WrapDomainByEthLock
  }

  /** The ETH.log record written before the transaction is sent;
      `details` is the `{gasPrice: …, from: …}` part. */
  function SubmitMessage(dir: Direction, details: string): string {
    match dir
    case Tokens => "ETH fio.erc20 wraptokens submit " + details
    case DomainEth => "ETH fio.erc721 wrapdomain submit " + details
  }

  /** The ETH.log record written on the `receipt` event. The domain
      executor writes no "receipt" word. */
  function ReceiptMessage(dir: Direction, receiptJson: string): string {
    match dir
    case Tokens => "ETH fio.erc20 wraptokens receipt " + receiptJson
    case DomainEth => "ETH fio.erc721 wrapdomain " + receiptJson
  }

  /** How `sendSignedTransaction` ended: the `receipt` event fired, the
      await finished without one, or it threw. */
  datatype SendOutcome = Receipt(receiptJson: string) | NoReceipt | SendThrew

  /** What the outside world answers during one run of an executor: the gas
      oracle (None when fetching it throws), `getOracles()` (None when it
      throws), the text of the submit record, the transaction's outcome, and
      the timestamp of the run's log records. */
  datatype Run = Run(gasApi: Option<GasApi>, registered: Option<seq<string>>, submitDetails: string,
                     send: SendOutcome, now: string)

  /** The process configuration the executors read: the gas settings, the
      oracle's public key, `web3.utils.isAddress`, and `JSON.parse` on an
      entry's data field (None when it throws). */
  datatype EthSetup = EthSetup(gas: GasConfig, oraclePublic: string, isAddress: string -> bool,
                               parse: string -> Option<WrapData>)

  /** How one run ends. Continue: the next queue entry was started.
      Exhausted: the queue held nothing after the head, so it was emptied.
      The others are the places the run throws. Every exit but Continue
      clears the executor's lock. */
  datatype Exit =
    | Continue(txId: string, data: WrapData)
    | FeeFetchFailed
    | NoGasPrice
    | OracleListFailed
    | NotRegistered
    | InvalidTarget
    | SubmissionFailed
    | QueueUnreadable
    | NextUnparsable
    | Exhausted

  /** The checks made before anything is written. */
  datatype Gate = Proceed(gasPrice: int) | Stop(exit: Exit)

  /** The checks in order: the gas oracle answers, a non-zero price results,
      `getOracles()` answers, the oracle's own key is in the list (exact,
      case-sensitive `includes`), and the target is an ETH address. */
  function CheckGate(setup: EthSetup, run: Run, data: WrapData): Gate
  {
    if run.gasApi.None? then Stop(FeeFetchFailed)
    else
      var gasPrice := ResolveGasPrice(run.gasApi.value, setup.gas);
      if gasPrice == 0 then Stop(NoGasPrice)
      else if run.registered.None? then Stop(OracleListFailed)
      else if setup.oraclePublic !in run.registered.value then Stop(NotRegistered)
      else if !(setup.isAddress(data.publicAddress) && data.chainCode == "ETH") then Stop(InvalidTarget)
      else Proceed(gasPrice)
  }

  /** The gate lets a run through exactly when every check passes, with the
      resolved price; a stopped run never Continues. */
  lemma GateConditions(setup: EthSetup, run: Run, data: WrapData)
    ensures CheckGate(setup, run, data).Proceed? <==>
      (run.gasApi.Some? && ResolveGasPrice(run.gasApi.value, setup.gas) != 0
       && run.registered.Some? && setup.oraclePublic in run.registered.value
       && setup.isAddress(data.publicAddress) && data.chainCode == "ETH")
    ensures CheckGate(setup, run, data).Proceed? ==>
      CheckGate(setup, run, data).gasPrice == ResolveGasPrice(run.gasApi.value, setup.gas)
    ensures CheckGate(setup, run, data).Stop? ==> !CheckGate(setup, run, data).exit.Continue?
  {
  }

  /** A healthy run on an ETH target passes the gate. */
  lemma HealthyRunProceeds(setup: EthSetup, run: Run, data: WrapData)
    requires HealthyRun(setup, run) && setup.isAddress(data.publicAddress) && data.chainCode == "ETH"
    ensures CheckGate(setup, run, data).Proceed? && !run.send.SendThrew?
  {
    GateConditions(setup, run, data);
  }

  /** A run that passes the gate also passes the case-insensitive
      registration test of `isOracleEthAddressValid`; the converse fails
      (see `Helpers.CaseMismatchExample`). */
  lemma GateImpliesRegistered(setup: EthSetup, run: Run, data: WrapData)
    requires CheckGate(setup, run, data).Proceed?
    ensures IsOracleAddressValid(run.registered.value, setup.oraclePublic)
  {
    ExactMembershipIsStricter(run.registered.value, setup.oraclePublic);
  }

  /** The next entry's fields: `line.split(' ')[0]` and
      `JSON.parse(line.split(' ')[1])`; a missing second field or a parse
      that throws gives None. */
  function NextEntry(line: string, parse: string -> Option<WrapData>): Option<(string, WrapData)>
  {
    var fields := SplitSpace(line);
    if |fields| < 2 then None
    else
      var d := parse(fields[1]);
      if d.Some? then Some((fields[0], d.value)) else None
  }

  /** An entry the dispatcher wrote, `trx_id + ' ' + data`, is read back as
      that transaction id and the parse of that data; a line with no space
      has no data field. */
  lemma NextEntryOfQueueLine(txId: string, json: string, parse: string -> Option<WrapData>)
    requires NoSpace(txId) && NoSpace(json)
    ensures parse(json).Some? ==> NextEntry(txId + " " + json, parse) == Some((txId, parse(json).value))
    ensures parse(json).None? ==> NextEntry(txId + " " + json, parse).None?
    ensures NextEntry(txId, parse).None?
  {
    EntryFields(txId, json);
    SplitSpaceWord(txId);
  }

  /** The files and the exit one run leaves. */
  datatype StepResult = StepResult(files: Files, exit: Exit)

  /** The paths a run of the executor may write. */
  predicate Touched(dir: Direction, p: Path) {
    p == EthLog || p == ErrorPath(dir) || p == QueuePath(dir)
  }

  /** `files2` differs from `files1` at most on the executor's own paths. */
  predicate WritesOnly(dir: Direction, files1: Files, files2: Files) {
    (forall p :: p in files1 ==> p in files2)
    && (forall p :: p in files2 && !Touched(dir, p) ==> p in files1 && files2[p] == files1[p])
  }

  function SubmitLine(dir: Direction, run: Run): string {
    LogLine(Plain(SubmitMessage(dir, run.submitDetails)), "", true, run.now)
  }

  function ReceiptLine(dir: Direction, receiptJson: string, now: string): string {
    LogLine(Plain(ReceiptMessage(dir, receiptJson)), "", true, now)
  }

  /** After a send that did not throw: the receipt record, or else the
      dead-letter write that overwrites the error file. The queue is not
      touched. */
  function Sent(files: Files, dir: Direction, txId: string, data: WrapData, run: Run): (r: Files)
    ensures QueuePath(dir) in r <==> QueuePath(dir) in files
    ensures QueuePath(dir) in r ==> r[QueuePath(dir)] == files[QueuePath(dir)]
  {
    if run.send.Receipt? then Appended(files, EthLog, ReceiptLine(dir, run.send.receiptJson, run.now))
    else files[ErrorPath(dir) := DeadLetterLine(txId, data.json)]
  }

  /** Reading the queue (throws when missing), the shift, and either the
      next entry (the file is rewritten) or the emptied queue. */
  function Settle(files: Files, setup: EthSetup, dir: Direction): StepResult
  {
    if QueuePath(dir) !in files then StepResult(files, QueueUnreadable)
    else
      match ShiftQueue(files[QueuePath(dir)])
      case Drained => StepResult(files[QueuePath(dir) := ""], Exhausted)
      case Remaining(next, rewritten) =>
        match NextEntry(next, setup.parse)
        case None => StepResult(files, NextUnparsable)
        case Some((nextTxId, nextData)) => StepResult(files[QueuePath(dir) := rewritten], Continue(nextTxId, nextData))
  }

  /** One run of an executor on entry (`txId`, `data`) against the files as
      they are: the gate; the submit record; the send; the receipt record or
      the dead-letter write; then the queue is settled. Only ETH.log and the
      executor's own queue and error files can change. */
  function Step(files: Files, setup: EthSetup, dir: Direction, txId: string, data: WrapData, run: Run): StepResult
  {
    match CheckGate(setup, run, data)
    case Stop(e) => StepResult(files, e)
    case Proceed(_) =>
      var submitted := Appended(files, EthLog, SubmitLine(dir, run));
      if run.send.SendThrew? then StepResult(submitted, SubmissionFailed)
      else Settle(Sent(submitted, dir, txId, data, run), setup, dir)
  }

  lemma AppendedWritesOnly(dir: Direction, files: Files, p: Path, text: string)
    requires Touched(dir, p)
    ensures WritesOnly(dir, files, Appended(files, p, text))
  {
  }

  lemma SentWritesOnly(files: Files, dir: Direction, txId: string, data: WrapData, run: Run)
    ensures WritesOnly(dir, files, Sent(files, dir, txId, data, run))
  {
    if run.send.Receipt? {
      AppendedWritesOnly(dir, files, EthLog, ReceiptLine(dir, run.send.receiptJson, run.now));
    }
  }

  lemma SettleWritesOnly(files: Files, setup: EthSetup, dir: Direction)
    ensures WritesOnly(dir, files, Settle(files, setup, dir).files)
  {
  }

  lemma WritesOnlyTrans(dir: Direction, f1: Files, f2: Files, f3: Files)
    requires WritesOnly(dir, f1, f2) && WritesOnly(dir, f2, f3)
    ensures WritesOnly(dir, f1, f3)
  {
  }

  /** A run writes only ETH.log and the executor's own queue and error
      files, and removes no file. */
  lemma StepWritesOnly(files: Files, setup: EthSetup, dir: Direction, txId: string, data: WrapData, run: Run)
    ensures WritesOnly(dir, files, Step(files, setup, dir, txId, data, run).files)
  {
    if CheckGate(setup, run, data).Proceed? {
      var submitted := Appended(files, EthLog, SubmitLine(dir, run));
      AppendedWritesOnly(dir, files, EthLog, SubmitLine(dir, run));
      if !run.send.SendThrew? {
        var sent := Sent(submitted, dir, txId, data, run);
        SentWritesOnly(submitted, dir, txId, data, run);
        SettleWritesOnly(sent, setup, dir);
        WritesOnlyTrans(dir, files, submitted, sent);
        WritesOnlyTrans(dir, files, sent, Settle(sent, setup, dir).files);
      }
    }
  }

  /** A run on an entry that passes the gate and whose send does not throw
      shifts the queue: if a second line `trx_id + ' ' + data` is there, that
      entry is started next and the file written back holds every line after
      the head, in order. */
  lemma {:induction false} StepTakesNextEntry(files: Files, setup: EthSetup, dir: Direction, txId: string, data: WrapData,
                                              run: Run, lines: seq<string>, nextTxId: string, nextJson: string)
    requires QueuePath(dir) in files && files[QueuePath(dir)] == QueueText(lines)
    requires forall i :: 0 <= i < |lines| ==> NoLineBreak(lines[i])
    requires |lines| >= 2 && lines[1] == nextTxId + " " + nextJson && NoSpace(nextTxId) && NoSpace(nextJson)
    requires setup.parse(nextJson).Some?
    requires CheckGate(setup, run, data).Proceed? && !run.send.SendThrew?
    ensures Step(files, setup, dir, txId, data, run).exit == Continue(nextTxId, setup.parse(nextJson).value)
    ensures QueuePath(dir) in Step(files, setup, dir, txId, data, run).files
    ensures Step(files, setup, dir, txId, data, run).files[QueuePath(dir)] == QueueText(lines[1..])
  {
    assert lines[1][|nextTxId|] == ' ';
    ShiftQueueText(lines);
    NextEntryOfQueueLine(nextTxId, nextJson, setup.parse);
  }

  /** On the last entry of the queue the run empties the file and stops. */
  lemma {:induction false} StepEmptiesLastEntry(files: Files, setup: EthSetup, dir: Direction, txId: string, data: WrapData,
                                                run: Run, head: string)
    requires QueuePath(dir) in files && files[QueuePath(dir)] == QueueText([head]) && NoLineBreak(head)
    requires CheckGate(setup, run, data).Proceed? && !run.send.SendThrew?
    ensures Step(files, setup, dir, txId, data, run).exit == Exhausted
    ensures QueuePath(dir) in Step(files, setup, dir, txId, data, run).files
    ensures Step(files, setup, dir, txId, data, run).files[QueuePath(dir)] == ""
  {
    ShiftQueueText([head]);
  }

  /** A send that ends without a receipt overwrites the error file with the
      one failed entry (so it holds only the latest failure), unlike
      `handleLogFailedWrapItem`, which appends. */
  lemma DeadLetterOverwrites(files: Files, setup: EthSetup, dir: Direction, txId: string, data: WrapData, run: Run)
    requires CheckGate(setup, run, data).Proceed? && run.send.NoReceipt?
    ensures Step(files, setup, dir, txId, data, run).files[ErrorPath(dir)] == DeadLetterLine(txId, data.json)
    ensures Step(files, setup, dir, txId, data, run).files[EthLog]
      == Content(files, EthLog) + LogLine(Plain(SubmitMessage(dir, run.submitDetails)), "", true, run.now)
  {
  }

  /** A confirmed send leaves the submit record and then the receipt record
      at the end of ETH.log, and the error file as it was. */
  lemma ReceiptIsLogged(files: Files, setup: EthSetup, dir: Direction, txId: string, data: WrapData, run: Run)
    requires CheckGate(setup, run, data).Proceed? && run.send.Receipt?
    ensures Step(files, setup, dir, txId, data, run).files[EthLog]
      == Content(files, EthLog) + LogLine(Plain(SubmitMessage(dir, run.submitDetails)), "", true, run.now)
         + LogLine(Plain(ReceiptMessage(dir, run.send.receiptJson)), "", true, run.now)
    ensures ErrorPath(dir) in files ==> Step(files, setup, dir, txId, data, run).files[ErrorPath(dir)] == files[ErrorPath(dir)]
  {
  }

  /** A run stopped by the gate writes nothing; a send that throws writes
      only the submit record and leaves the queue, head included, as it was. */
  lemma FailuresKeepQueue(files: Files, setup: EthSetup, dir: Direction, txId: string, data: WrapData, run: Run)
    ensures CheckGate(setup, run, data).Stop? ==> Step(files, setup, dir, txId, data, run).files == files
    ensures CheckGate(setup, run, data).Proceed? && run.send.SendThrew? ==>
      Step(files, setup, dir, txId, data, run).exit == SubmissionFailed
      && Step(files, setup, dir, txId, data, run).files
         == Appended(files, EthLog, LogLine(Plain(SubmitMessage(dir, run.submitDetails)), "", true, run.now))
  {
  }

  /** The runs that follow one another through Continue. */
  datatype Trace = Trace(files: Files, exits: seq<Exit>)

  /** Runs `runs[0]`, `runs[1]`, … each on the entry the previous run
      started, until one does not Continue or the runs are used up. */
  function Replay(files: Files, setup: EthSetup, dir: Direction, txId: string, data: WrapData, runs: seq<Run>): Trace
    decreases |runs|
  {
    if runs == [] then Trace(files, [])
    else
      var s := Step(files, setup, dir, txId, data, runs[0]);
      if s.exit.Continue? then
        var rest := Replay(s.files, setup, dir, s.exit.txId, s.exit.data, runs[1..]);
        Trace(rest.files, [s.exit] + rest.exits)
      else
        Trace(s.files, [s.exit])
  }

  /** Glues the exit of one run in front of the trace of the runs after it. */
  function Then(exit: Exit, rest: Trace): Trace {
    Trace(rest.files, [exit] + rest.exits)
  }

  /** One unfolding of Replay. */
  lemma ReplayCons(files: Files, setup: EthSetup, dir: Direction, txId: string, data: WrapData, runs: seq<Run>)
    requires runs != []
    ensures var s := Step(files, setup, dir, txId, data, runs[0]);
      Replay(files, setup, dir, txId, data, runs)
      == if s.exit.Continue? then Then(s.exit, Replay(s.files, setup, dir, s.exit.txId, s.exit.data, runs[1..]))
         else Trace(s.files, [s.exit])
  {
  }

  /** A chain makes at most one exit per run, and at least one when there
      is a run. */
  lemma {:induction false} ReplayLength(files: Files, setup: EthSetup, dir: Direction, txId: string, data: WrapData, runs: seq<Run>)
    ensures |Replay(files, setup, dir, txId, data, runs).exits| <= |runs|
    ensures runs != [] ==> |Replay(files, setup, dir, txId, data, runs).exits| >= 1
    decreases |runs|
  {
    if runs != [] {
      ReplayCons(files, setup, dir, txId, data, runs);
      var s := Step(files, setup, dir, txId, data, runs[0]);
      if s.exit.Continue? {
        ReplayLength(s.files, setup, dir, s.exit.txId, s.exit.data, runs[1..]);
      }
    }
  }

  /** Every exit but the last is a Continue, and exits that stop before
  `runs` runs are used up end on an exit other than Continue. */
  predicate ContinuesUntilLast(exits: seq<Exit>, runs: nat) {
    (forall k :: 0 <= k < |exits| - 1 ==> exits[k].Continue?)
    && (0 < |exits| < runs ==> !exits[|exits| - 1].Continue?)
  }

  lemma ThenContinues(exit: Exit, rest: Trace, runs: nat)
    requires exit.Continue? && ContinuesUntilLast(rest.exits, runs)
    requires 0 < |rest.exits| || runs == 0
    ensures ContinuesUntilLast(Then(exit, rest).exits, runs + 1)
  {
    var exits := Then(exit, rest).exits;
    assert exits == [exit] + rest.exits;
    assert forall k :: 1 <= k < |exits| ==> exits[k] == rest.exits[k - 1];
  }

  /** In a chain every exit but the last is a Continue, and a chain that
      stops before its runs are used up stops on an exit other than
      Continue. */
  lemma {:induction false} ReplayContinuesUntilLast(files: Files, setup: EthSetup, dir: Direction, txId: string, data: WrapData, runs: seq<Run>)
    ensures ContinuesUntilLast(Replay(files, setup, dir, txId, data, runs).exits, |runs|)
    decreases |runs|
  {
    if runs != [] {
      ReplayCons(files, setup, dir, txId, data, runs);
      var s := Step(files, setup, dir, txId, data, runs[0]);
      if s.exit.Continue? {
        var rest := Replay(s.files, setup, dir, s.exit.txId, s.exit.data, runs[1..]);
        ReplayContinuesUntilLast(s.files, setup, dir, s.exit.txId, s.exit.data, runs[1..]);
        ReplayLength(s.files, setup, dir, s.exit.txId, s.exit.data, runs[1..]);
        ThenContinues(s.exit, rest, |runs| - 1);
      }
    }
  }

  /** A queue line as the dispatcher writes it. */
  function EntryLine(entry: (string, string)): string {
    entry.0 + " " + entry.1
  }

  function EntryLines(entries: seq<(string, string)>): (lines: seq<string>)
    ensures |lines| == |entries| && forall i :: 0 <= i < |entries| ==> lines[i] == EntryLine(entries[i])
  {
    seq(|entries|, i requires 0 <= i < |entries| => EntryLine(entries[i]))
  }

  /** An entry that reads back as itself and whose data parses to a wrap
      with an ETH address as target. */
  predicate GoodEntry(setup: EthSetup, entry: (string, string)) {
    NoSpace(entry.0) && NoSpace(entry.1) && NoLineBreak(EntryLine(entry))
    && setup.parse(entry.1).Some?
    && setup.isAddress(setup.parse(entry.1).value.publicAddress) && setup.parse(entry.1).value.chainCode == "ETH"
  }

  /** A run in which the gas oracle, the oracle list and the send all succeed. */
  predicate HealthyRun(setup: EthSetup, run: Run) {
    run.gasApi.Some? && ResolveGasPrice(run.gasApi.value, setup.gas) != 0
    && run.registered.Some? && setup.oraclePublic in run.registered.value
    && run.send.Receipt?
  }

  /** The exits that start each entry in turn. */
  function Starts(setup: EthSetup, entries: seq<(string, string)>): (r: seq<Exit>)
    requires forall i :: 0 <= i < |entries| ==> GoodEntry(setup, entries[i])
    ensures |r| == |entries|
  {
    if entries == [] then []
    else
      assert GoodEntry(setup, entries[0]);
      [Continue(entries[0].0, setup.parse(entries[0].1).value)] + Starts(setup, entries[1..])
  }

  lemma QueueLinesWellFormed(setup: EthSetup, head: string, entries: seq<(string, string)>)
    requires NoLineBreak(head) && forall i :: 0 <= i < |entries| ==> GoodEntry(setup, entries[i])
    ensures forall i :: 0 <= i < |[head] + EntryLines(entries)| ==> NoLineBreak(([head] + EntryLines(entries))[i])
  {
    var lines := [head] + EntryLines(entries);
    forall i | 0 <= i < |lines| ensures NoLineBreak(lines[i]) {
      if i > 0 { assert lines[i] == EntryLine(entries[i - 1]); }
    }
  }

  lemma QueueLinesTail(head: string, entries: seq<(string, string)>)
    requires entries != []
    ensures |[head] + EntryLines(entries)| >= 2
    ensures ([head] + EntryLines(entries))[1] == EntryLine(entries[0])
    ensures ([head] + EntryLines(entries))[1..] == [EntryLine(entries[0])] + EntryLines(entries[1..])
  {
    assert ([head] + EntryLines(entries))[1..] == EntryLines(entries);
  }

  lemma HealthyTail(setup: EthSetup, runs: seq<Run>)
    requires runs != [] && forall j :: 0 <= j < |runs| ==> HealthyRun(setup, runs[j])
    ensures forall j :: 0 <= j < |runs[1..]| ==> HealthyRun(setup, runs[1..][j])
  {
    forall j | 0 <= j < |runs[1..]| ensures HealthyRun(setup, runs[1..][j]) {
      assert runs[1..][j] == runs[j + 1];
    }
  }

  lemma GoodTail(setup: EthSetup, entries: seq<(string, string)>)
    requires entries != [] && forall i :: 0 <= i < |entries| ==> GoodEntry(setup, entries[i])
    ensures forall i :: 0 <= i < |entries[1..]| ==> GoodEntry(setup, entries[1..][i])
  {
    forall i | 0 <= i < |entries[1..]| ensures GoodEntry(setup, entries[1..][i]) {
      assert entries[1..][i] == entries[i + 1];
    }
  }

  lemma StartsCons(setup: EthSetup, entries: seq<(string, string)>)
    requires entries != [] && forall i :: 0 <= i < |entries| ==> GoodEntry(setup, entries[i])
    ensures forall i :: 0 <= i < |entries[1..]| ==> GoodEntry(setup, entries[1..][i])
    ensures Starts(setup, entries)
      == [Continue(entries[0].0, setup.parse(entries[0].1).value)] + Starts(setup, entries[1..])
  {
    assert forall i :: 0 <= i < |entries[1..]| ==> entries[1..][i] == entries[i + 1];
  }

  /** The first run of the FIFO chain: it starts the oldest good entry and
      leaves that entry at the head of a queue of the remaining ones. */
  lemma FirstRunTakesOldest(files: Files, setup: EthSetup, dir: Direction, txId: string, data: WrapData,
                            run: Run, head: string, entries: seq<(string, string)>)
    requires QueuePath(dir) in files && files[QueuePath(dir)] == QueueText([head] + EntryLines(entries))
    requires NoLineBreak(head) && entries != []
    requires setup.isAddress(data.publicAddress) && data.chainCode == "ETH"
    requires forall i :: 0 <= i < |entries| ==> GoodEntry(setup, entries[i])
    requires HealthyRun(setup, run)
    ensures GoodEntry(setup, entries[0])
    ensures var s := Step(files, setup, dir, txId, data, run);
      s.exit == Continue(entries[0].0, setup.parse(entries[0].1).value)
      && QueuePath(dir) in s.files
      && s.files[QueuePath(dir)] == QueueText([EntryLine(entries[0])] + EntryLines(entries[1..]))
  {
    var lines := [head] + EntryLines(entries);
    QueueLinesWellFormed(setup, head, entries);
    HealthyRunProceeds(setup, run, data);
    var e := entries[0];
    assert GoodEntry(setup, e);
    QueueLinesTail(head, entries);
    StepTakesNextEntry(files, setup, dir, txId, data, run, lines, e.0, e.1);
  }

  /** The last run of the FIFO chain: on a queue holding only the entry it
      was started on, a healthy run empties the queue and stops. */
  lemma ReplayLastEntry(files: Files, setup: EthSetup, dir: Direction, txId: string, data: WrapData,
                        runs: seq<Run>, head: string)
    requires QueuePath(dir) in files && files[QueuePath(dir)] == QueueText([head])
    requires NoLineBreak(head)
    requires setup.isAddress(data.publicAddress) && data.chainCode == "ETH"
    requires runs != [] && HealthyRun(setup, runs[0])
    ensures Replay(files, setup, dir, txId, data, runs).exits == [Exhausted]
    ensures QueuePath(dir) in Replay(files, setup, dir, txId, data, runs).files
    ensures Replay(files, setup, dir, txId, data, runs).files[QueuePath(dir)] == ""
  {
    ReplayCons(files, setup, dir, txId, data, runs);
    HealthyRunProceeds(setup, runs[0], data);
    StepEmptiesLastEntry(files, setup, dir, txId, data, runs[0], head);
  }

  /** FIFO: with healthy runs, an executor started on the head of a queue
      whose other lines are good entries starts each of them once, oldest
      first, then empties the queue and stops. */
  lemma {:induction false} ReplayRunsQueueInOrder(files: Files, setup: EthSetup, dir: Direction, txId: string, data: WrapData,
                                                  runs: seq<Run>, head: string, entries: seq<(string, string)>)
    requires QueuePath(dir) in files && files[QueuePath(dir)] == QueueText([head] + EntryLines(entries))
    requires NoLineBreak(head)
    requires setup.isAddress(data.publicAddress) && data.chainCode == "ETH"
    requires forall i :: 0 <= i < |entries| ==> GoodEntry(setup, entries[i])
    requires |runs| > |entries| && forall j :: 0 <= j < |runs| ==> HealthyRun(setup, runs[j])
    ensures Replay(files, setup, dir, txId, data, runs).exits == Starts(setup, entries) + [Exhausted]
    ensures QueuePath(dir) in Replay(files, setup, dir, txId, data, runs).files
    ensures Replay(files, setup, dir, txId, data, runs).files[QueuePath(dir)] == ""
    decreases |entries|
  {
    var t := Replay(files, setup, dir, txId, data, runs);
    assert HealthyRun(setup, runs[0]);
    ReplayCons(files, setup, dir, txId, data, runs);
    if entries == [] {
      assert [head] + EntryLines(entries) == [head];
      ReplayLastEntry(files, setup, dir, txId, data, runs, head);
    } else {
      FirstRunTakesOldest(files, setup, dir, txId, data, runs[0], head, entries);
      var e := entries[0];
      var s := Step(files, setup, dir, txId, data, runs[0]);
      HealthyTail(setup, runs);
      GoodTail(setup, entries);
      var rest := Replay(s.files, setup, dir, e.0, setup.parse(e.1).value, runs[1..]);
      assert t == Then(s.exit, rest);
      ReplayRunsQueueInOrder(s.files, setup, dir, e.0, setup.parse(e.1).value, runs[1..], EntryLine(e), entries[1..]);
      StartsCons(setup, entries);
      ConcatAssoc([s.exit], Starts(setup, entries[1..]), [Exhausted]);
    }
  }

  /** A run that failed before shifting leaves its entry at the head of the
      queue. The dispatcher later appends a new entry and, the lock being
      clear, starts the executor on it; that run's shift removes the stale
      head and starts the new entry a second time. */
  lemma {:induction false} StaleHeadRepeatsEntry(files: Files, setup: EthSetup, dir: Direction, run: Run,
                                                 stale: string, entry: (string, string))
    requires QueuePath(dir) in files && files[QueuePath(dir)] == QueueText([stale, EntryLine(entry)])
    requires NoLineBreak(stale) && GoodEntry(setup, entry) && HealthyRun(setup, run)
    ensures Step(files, setup, dir, entry.0, setup.parse(entry.1).value, run).exit
      == Continue(entry.0, setup.parse(entry.1).value)
  {
    HealthyRunProceeds(setup, run, setup.parse(entry.1).value);
    StepTakesNextEntry(files, setup, dir, entry.0, setup.parse(entry.1).value, run, [stale, EntryLine(entry)], entry.0, entry.1);
  }

  /** `wrapFioToken` / `wrapFioDomain`, one run: the lock is set on entry and
      cleared on every exit but Continue. */
  method WrapStep(h: Host, setup: EthSetup, dir: Direction, txId: string, data: WrapData, run: Run)
    returns (exit: Exit)
    modifies h
    ensures h.files == Step(old(h.files), setup, dir, txId, data, run).files
    ensures exit == Step(old(h.files), setup, dir, txId, data, run).exit
    ensures h.cache == old(h.cache)[Lock(dir) := exit.Continue?]
    ensures h.lastBlockNumber == old(h.lastBlockNumber)
  {
    if !IsSet(h.cache, Lock(dir)) {
      h.cache := h.cache[Lock(dir) := true];
    }
    var gate := CheckGate(setup, run, data);
    if gate.Stop? {
      h.cache := h.cache[Lock(dir) := false];
      return gate.exit;
    }
    AddLogMessage(h, EthLog, Plain(SubmitMessage(dir, run.submitDetails)), run.now);
    if run.send.SendThrew? {
      h.cache := h.cache[Lock(dir) := false];
      return SubmissionFailed;
    }
    RecordSend(h, dir, txId, data, run);
    exit := SettleQueue(h, setup, dir);
  }

  /** After a send that did not throw: log the receipt, or write the entry
      to the error file when there is none. */
  method RecordSend(h: Host, dir: Direction, txId: string, data: WrapData, run: Run)
    modifies h
    ensures h.files == Sent(old(h.files), dir, txId, data, run)
    ensures h.cache == old(h.cache) && h.lastBlockNumber == old(h.lastBlockNumber)
  {
    var isTransactionProceededSuccessfully := false;
    if run.send.Receipt? {
      AddLogMessage(h, EthLog, Plain(ReceiptMessage(dir, run.send.receiptJson)), run.now);
      isTransactionProceededSuccessfully := true;
    }
    if !isTransactionProceededSuccessfully {
      h.files := h.files[ErrorPath(dir) := DeadLetterLine(txId, data.json)];
    }
  }

  /** The end of a run: read the queue (throws when missing), shift it, and
      either rewrite it and take the next entry, or empty it. */
  method SettleQueue(h: Host, setup: EthSetup, dir: Direction) returns (exit: Exit)
    requires IsSet(h.cache, Lock(dir))
    modifies h
    ensures h.files == Settle(old(h.files), setup, dir).files
    ensures exit == Settle(old(h.files), setup, dir).exit
    ensures h.cache == old(h.cache)[Lock(dir) := exit.Continue?]
    ensures h.lastBlockNumber == old(h.lastBlockNumber)
  {
    if QueuePath(dir) !in h.files {
      h.cache := h.cache[Lock(dir) := false];
      return QueueUnreadable;
    }
    match ShiftQueue(h.files[QueuePath(dir)]) {
      case Drained =>
        h.files := h.files[QueuePath(dir) := ""];
        h.cache := h.cache[Lock(dir) := false];
        exit := Exhausted;
      case Remaining(next, rewritten) =>
        var entry := NextEntry(next, setup.parse);
        if entry.None? {
          h.cache := h.cache[Lock(dir) := false];
          return NextUnparsable;
        }
        exit := Continue(entry.value.0, entry.value.1);
        h.files := h.files[QueuePath(dir) := rewritten];
    }
  }

  /** `wrapFioToken` / `wrapFioDomain` with its self-call: a run that
      Continues starts the executor again on the entry it shifted in, with
      the next of the `runs`. In the source the self-call is not awaited
      and runs up to its first await before the queue file is rewritten;
      nothing in that part reads or writes a file, so the rewrite is
      placed before the next run here. */
  method WrapChain(h: Host, setup: EthSetup, dir: Direction, txId: string, data: WrapData, runs: seq<Run>)
    returns (exits: seq<Exit>)
    modifies h
    ensures Replay(old(h.files), setup, dir, txId, data, runs) == Trace(h.files, exits)
    ensures exits == [] ==> h.cache == old(h.cache)
    ensures exits != [] ==> h.cache == old(h.cache)[Lock(dir) := exits[|exits| - 1].Continue?]
    ensures h.lastBlockNumber == old(h.lastBlockNumber)
    decreases |runs|
  {
    if runs == [] {
      return [];
    }
    ReplayCons(h.files, setup, dir, txId, data, runs);
    var exit := WrapStep(h, setup, dir, txId, data, runs[0]);
    if exit.Continue? {
      var rest := WrapChain(h, setup, dir, exit.txId, exit.data, runs[1..]);
      exits := [exit] + rest;
      if rest != [] {
        CacheUpdateTwice(old(h.cache), Lock(dir), true, rest[|rest| - 1].Continue?);
        assert exits[|exits| - 1] == rest[|rest| - 1];
      }
    } else {
      exits := [exit];
    }
  }
}

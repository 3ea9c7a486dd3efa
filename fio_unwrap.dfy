/** controller/api/fio.js, the FIO transaction builders
    `unwrapTokensFromEthToFioChain`, `unwrapDomainFromEthToFioChain` and
    `unwrapDomainFromPolygonToFioChain`: each turns one unwrap event into a
    single-action `fio.oracle` transaction signed by the oracle account,
    pushes it, and logs the chain's answer in the FIO log. */
module FioUnwrap {
  import opened Strings
  import opened Host
  import opened Helpers
  import opened FioScan

  /** One entry of `authorization`: `{actor, permission}`. */
  datatype Authorization = Authorization(actor: string, permission: string)

  /** The `data` object of the action; the three builders use different keys:
      `{fio_address, amount, obt_id, actor}`,
      `{fio_address, domain, obt_id, actor}` and
      `{fio_address, fio_domain, obt_id, actor}`. */
  datatype ActionData =
    | TokensData(fioAddress: string, amount: int, obtId: string, actor: string)
    | DomainData(fioAddress: string, domain: string, obtId: string, actor: string)
    | FioDomainData(fioAddress: string, fioDomain: string, obtId: string, actor: string)

  datatype Action = Action(account: string, name: string, authorization: seq<Authorization>, data: ActionData)

  /** The transaction handed to `Fio.prepareTransaction`. */
  datatype Transaction = Transaction(expiration: string, refBlockNum: int, refBlockPrefix: int, actions: seq<Action>)

  /** What `v1/chain/get_block` answers for the last irreversible block. */
  datatype BlockInfo = BlockInfo(blockNum: int, refBlockPrefix: int)

  const Contract: string := "fio.oracle"

  /** JavaScript's `ToUint32`: the low 32 bits of an integer as a
      non-negative number. `&` works on the `ToInt32` pattern, which has the
      same bits. */
  function ToUint32(n: int): nat {
    n % 0x1_0000_0000
  }

  /** Bitwise AND of two non-negative numbers, one bit at a time. */
  function BitAnd(a: nat, b: nat): nat
    decreases a
  {
    if a == 0 || b == 0 then 0
    else 2 * BitAnd(a / 2, b / 2) + (if a % 2 == 1 && b % 2 == 1 then 1 else 0)
  }

  /** `block_num & 0xffff`. */
  function RefBlockNum(blockNum: int): nat {
    BitAnd(ToUint32(blockNum), 0xffff)
  }

  function Pow2(k: nat): (p: nat)
    ensures p >= 1
  {
    if k == 0 then 1 else 2 * Pow2(k - 1)
  }

  /** The mask of the `k` low bits, 2^k - 1. */
  function Ones(k: nat): nat {
    if k == 0 then 0 else 2 * Ones(k - 1) + 1
  }

  /** The bits of `a` above the `k` low ones. */
  function High(a: nat, k: nat): nat {
    if k == 0 then a else High(a / 2, k - 1)
  }

  lemma {:induction false} HighOfZero(k: nat)
    ensures High(0, k) == 0
  {
    if k > 0 {
      HighOfZero(k - 1);
    }
  }

  lemma DoubleProduct(p: int, h: int)
    ensures 2 * (p * h) == (2 * p) * h
  {
  }

  lemma OnesHalf(k: nat)
    requires k > 0
    ensures Ones(k) / 2 == Ones(k - 1) && Ones(k) % 2 == 1
  {
    var o := Ones(k - 1);
    assert Ones(k) == 2 * o + 1;
  }

  /** ANDing with the mask of `k` ones keeps exactly the `k` low bits:
      the result is below 2^k and what is cut off is a multiple of 2^k. */
  lemma {:induction false} BitAndOnes(a: nat, k: nat)
    ensures BitAnd(a, Ones(k)) < Pow2(k)
    ensures a == Pow2(k) * High(a, k) + BitAnd(a, Ones(k))
    decreases k
  {
    if k > 0 {
      BitAndOnes(a / 2, k - 1);
      var p, h, l := Pow2(k - 1), High(a / 2, k - 1), BitAnd(a / 2, Ones(k - 1));
      assert Pow2(k) == 2 * p && High(a, k) == h;
      OnesHalf(k);
      if a == 0 {
        HighOfZero(k);
      } else {
        assert BitAnd(a, Ones(k)) == 2 * l + a % 2;
        assert a == 2 * (p * h) + (2 * l + a % 2);
        DoubleProduct(p, h);
      }
    }
  }

  lemma Mask16()
    ensures Ones(16) == 0xffff && Pow2(16) == 0x1_0000
  {
    assert Ones(4) == 0xf && Pow2(4) == 0x10;
    assert Ones(8) == 0xff && Pow2(8) == 0x100;
    assert Ones(12) == 0xfff && Pow2(12) == 0x1000;
  }

  /** The reference block number is the block number modulo 2^16, whatever
      the sign or the size of the block number, so it always fits 16 bits. */
  lemma RefBlockNumIsLow16(blockNum: int)
    ensures RefBlockNum(blockNum) == blockNum % 0x1_0000
    ensures 0 <= RefBlockNum(blockNum) < 0x1_0000
  {
    Mask16();
    var u := ToUint32(blockNum);
    BitAndOnes(u, 16);
    var h, l := High(u, 16), BitAnd(u, 0xffff);
    assert u == 0x1_0000 * h + l;
    var q := blockNum / 0x1_0000_0000;
    assert blockNum == 0x1_0000_0000 * q + u;
    ModOfSplit(blockNum, 0x1_0000 * q + h, l);
  }

  lemma ModOfSplit(n: int, q: int, l: int)
    requires n == 0x1_0000 * q + l && 0 <= l < 0x1_0000
    ensures n % 0x1_0000 == l
  {
  }

  /** The action name each builder sends. */
  function ActionName(call: UnwrapCall): string {
    match call
    case UnwrapTokens(_, _, _) => "unwraptokens"
    case UnwrapDomainFromEth(_, _, _) => "unwrapdomain"
    case UnwrapDomainFromPolygon(_, _, _) => "unwrapdomain"
  }

  function Data(call: UnwrapCall, oracleAccount: string): ActionData {
    match call
    case UnwrapTokens(obtId, amount, fioAddress) => TokensData(fioAddress, amount, obtId, oracleAccount)
    case UnwrapDomainFromEth(obtId, domain, fioAddress) => DomainData(fioAddress, domain, obtId, oracleAccount)
    case UnwrapDomainFromPolygon(obtId, domain, fioAddress) => FioDomainData(fioAddress, domain, obtId, oracleAccount)
  }

  /** The `transaction` object the three builders assemble. */
  function Envelope(call: UnwrapCall, oracleAccount: string, expiration: string, block: BlockInfo): Transaction {
    Transaction(expiration, RefBlockNum(block.blockNum), block.refBlockPrefix,
                [Action(Contract, ActionName(call), [Authorization(oracleAccount, "active")], Data(call, oracleAccount))])
  }

  function ActorOf(data: ActionData): string {
    match data
    case TokensData(_, _, _, actor) => actor
    case DomainData(_, _, _, actor) => actor
    case FioDomainData(_, _, _, actor) => actor
  }

  /** An independent reading of a transaction: the unwrap it asks the
      `fio.oracle` contract for, when it is a single action of that contract
      whose name agrees with its data. */
  function CallOf(tx: Transaction): Option<UnwrapCall> {
    if |tx.actions| != 1 || tx.actions[0].account != Contract then None
    else
      var a := tx.actions[0];
      match a.data
      case TokensData(fioAddress, amount, obtId, _) =>
        if a.name == "unwraptokens" then Some(UnwrapTokens(obtId, amount, fioAddress)) else None
      case DomainData(fioAddress, domain, obtId, _) =>
        if a.name == "unwrapdomain" then Some(UnwrapDomainFromEth(obtId, domain, fioAddress)) else None
      case FioDomainData(fioAddress, fioDomain, obtId, _) =>
        if a.name == "unwrapdomain" then Some(UnwrapDomainFromPolygon(obtId, fioDomain, fioAddress)) else None
  }

  /** The oracle account signs for the only action, with the `active`
      permission, and is the `actor` of its data. */
  predicate SignedByOracle(tx: Transaction, oracleAccount: string) {
    |tx.actions| == 1
    && tx.actions[0].authorization == [Authorization(oracleAccount, "active")]
    && ActorOf(tx.actions[0].data) == oracleAccount
  }

  /** The envelope asks for exactly the unwrap it was built from, carries
      the block reference of the given block (its number cut to 16 bits) and
      is signed by the oracle account alone. */
  lemma EnvelopeRoundTrip(call: UnwrapCall, oracleAccount: string, expiration: string, block: BlockInfo)
    ensures var tx := Envelope(call, oracleAccount, expiration, block);
      CallOf(tx) == Some(call)
      && SignedByOracle(tx, oracleAccount)
      && tx.refBlockNum == block.blockNum % 0x1_0000 && 0 <= tx.refBlockNum < 0x1_0000
      && tx.refBlockPrefix == block.refBlockPrefix && tx.expiration == expiration
  {
    RefBlockNumIsLow16(block.blockNum);
  }

  /** Different unwraps never share an envelope. */
  lemma EnvelopeInjective(c1: UnwrapCall, c2: UnwrapCall, oracleAccount: string, expiration: string, block: BlockInfo)
    requires Envelope(c1, oracleAccount, expiration, block) == Envelope(c2, oracleAccount, expiration, block)
    ensures c1 == c2
  {
    EnvelopeRoundTrip(c1, oracleAccount, expiration, block);
    EnvelopeRoundTrip(c2, oracleAccount, expiration, block);
  }

  /** The `action` the FIO log record names; the ETH domain builder writes
      the plural `unwrapdomains` although it sends `unwrapdomain`. */
  function LoggedAction(call: UnwrapCall): string {
    match call
    case UnwrapTokens(_, _, _) => "unwraptokens"
    case UnwrapDomainFromEth(_, _, _) => "unwrapdomains"
    case UnwrapDomainFromPolygon(_, _, _) => "unwrapdomain"
  }

  /** The FIO log record: `{chain, contract, action, transaction}`, where
      `transaction` is the JSON the push answered. */
  function UnwrapRecord(call: UnwrapCall, pushResult: string): LogMessage {
    Object([("chain", Quote("FIO")), ("contract", Quote(Contract)),
            ("action", Quote(LoggedAction(call))), ("transaction", pushResult)])
  }

  /** How one builder call went. */
  datatype UnwrapOutcome = ChainInfoFailed | PushFailed(tx: Transaction) | Pushed(tx: Transaction, result: string)

  /** One builder call. `block` stands for the `get_info` and `get_block`
      requests (None when one of them throws); `push` for signing and
      `push_transaction` (None when either throws). A thrown request is
      reported through `handleServerError` and nothing reaches the FIO
      log; an answered push, error or not, is logged with a timestamp. */
  method UnwrapToFioChain(h: Host, call: UnwrapCall, oracleAccount: string, expiration: string,
                          block: Option<BlockInfo>, push: Transaction -> Option<string>, now: string)
    returns (outcome: UnwrapOutcome)
    modifies h
    ensures block.None? ==> outcome == ChainInfoFailed && h.files == old(h.files)
    ensures block.Some? ==>
      var tx := Envelope(call, oracleAccount, expiration, block.value);
      (push(tx).None? ==> outcome == PushFailed(tx) && h.files == old(h.files))
      && (push(tx).Some? ==>
            outcome == Pushed(tx, push(tx).value)
            && h.files == Appended(old(h.files), FioLog, LogLine(UnwrapRecord(call, push(tx).value), "", true, now)))
    ensures h.cache == old(h.cache) && h.lastBlockNumber == old(h.lastBlockNumber)
  {
    if block.None? {
      return ChainInfoFailed;
    }
    var tx := Envelope(call, oracleAccount, expiration, block.value);
    var transactionResult := push(tx);
    if transactionResult.None? {
      return PushFailed(tx);
    }
    AddLogMessage(h, FioLog, UnwrapRecord(call, transactionResult.value), now);
    outcome := Pushed(tx, transactionResult.value);
  }

  /** The transaction sent for an unwrap event names the event's
      transaction hash as `obt_id`, its FIO address, and its amount (tokens)
      or its domain (domains). */
  lemma WatcherCallsRoundTrip(w: Watcher, e: UnwrapEvent, oracleAccount: string, expiration: string, block: BlockInfo)
    ensures var c := CallOf(Envelope(CallFor(w, e), oracleAccount, expiration, block));
      c.Some?
      && c.value.obtId == e.transactionHash
      && c.value.fioAddress == e.fioAddress
      && (w == EthTokens ==> c.value.UnwrapTokens? && c.value.amount == e.amount)
      && (w != EthTokens ==> !c.value.UnwrapTokens? && c.value.domain == e.domain)
  {
    EnvelopeRoundTrip(CallFor(w, e), oracleAccount, expiration, block);
  }
}

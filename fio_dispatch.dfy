/** controller/api/fio.js, `handleUnprocessedWrapActionsOnFioChain`: the job
    that takes the new wrap actions found on the FIO chain, records each one
    in FIO.log and in the queue of its direction, starts each direction's
    executor at most once, and moves the FIO checkpoint past every item. */
module FioDispatch {
  import opened Strings
  import opened Host
  import opened Helpers
  import opened Util
  import Eth

  /** The three kinds of wrap action the dispatcher recognises. */
  datatype WrapDirection = WrapTokens | WrapDomainEth | WrapDomainMatic

  /** The if-chain on `act.name` and `act.data.chain_code`. */
  function Classify(a: FioAction): Option<WrapDirection> {
    if a.name == "wraptokens" then Some(WrapTokens)
    else if a.name == "wrapdomain" && a.data.chainCode == "ETH" then Some(WrapDomainEth)
    else if a.name == "wrapdomain" && a.data.chainCode == "MATIC" then Some(WrapDomainMatic)
    else None
  }

  /** The queue file a direction's items are appended to: both domain
      directions use `wrapDomainTransaction`. */
  function QueueFor(d: WrapDirection): Path {
    match d
    case WrapTokens => WrapTokensQueue
    case WrapDomainEth => WrapDomainQueue
    case WrapDomainMatic => WrapDomainQueue
  }

  /** The cache flag read into the local `is*FunctionExecuting` variable. */
  function FlagOf(d: WrapDirection): CacheKey {
    match d
    case WrapTokens => WrapTokensLock
    case WrapDomainEth => WrapDomainByEthLock
    case WrapDomainMatic => WrapDomainByMaticLock
  }

  /** The ETH executor a direction starts; the Polygon one is not part of
      this model. */
  function Executor(d: WrapDirection): Option<Eth.Direction> {
    match d
    case WrapTokens => Some(Eth.Tokens)
    case WrapDomainEth => Some(Eth.DomainEth)
    case WrapDomainMatic => None
  }

  /** The `action` member of the FIO.log record. */
  function AuditAction(d: WrapDirection): string {
    match d
    case WrapTokens => "wraptokens"
    case WrapDomainEth => "wrapdomain ETH"
    case WrapDomainMatic => "wrapdomain MATIC"
  }

  /** The FIO.log record `{chain, contract, action, transaction}`; the whole
      history item is the transaction. */
  function AuditRecord(a: FioAction, d: WrapDirection): LogMessage {
    Object([("chain", Quote("FIO")), ("contract", Quote("fio.oracle")),
            ("action", Quote(AuditAction(d))), ("transaction", a.json)])
  }

  /** `wrapText`: `tx_id + ' ' + JSON.stringify(act.data)`. */
  function QueueLine(a: FioAction): string {
    a.trxId + " " + a.data.json
  }

  // ---------------------------------------------------------------------
  // The files after the loop
  // ---------------------------------------------------------------------

  /** One iteration on the files: a classified item is logged and queued,
      and then every item, classified or not, becomes the checkpoint. */
  function DispatchOne(files: Files, a: FioAction, now: string): Files {
    var logged := match Classify(a)
      case None => files
      case Some(d) =>
        Appended(Appended(files, FioLog, LogLine(AuditRecord(a, d), "", true, now)),
                 QueueFor(d), LogLine(Plain(QueueLine(a)), "", false, now));
    logged[BlockNumberFio := NatToString(a.blockNum)]
  }

  /** The whole loop on the files, item by item from the first. */
  function DispatchFiles(files: Files, xs: seq<FioAction>, now: string): Files
    decreases |xs|
  {
    if xs == [] then files else DispatchFiles(DispatchOne(files, xs[0], now), xs[1..], now)
  }

  /** Which items belong in which queue file, stated on the raw fields: a
      "wraptokens" item in the tokens queue, a "wrapdomain" item for ETH or
      MATIC in the domain queue, nothing anywhere else. */
  predicate Routed(q: Path, a: FioAction) {
    (q == WrapTokensQueue && a.name == "wraptokens")
    || (q == WrapDomainQueue && a.name == "wrapdomain" && (a.data.chainCode == "ETH" || a.data.chainCode == "MATIC"))
  }

  /** The lines the items routed to `q` contribute, in order. */
  function RoutedLines(q: Path, xs: seq<FioAction>): seq<string>
    decreases |xs|
  {
    if xs == [] then []
    else (if Routed(q, xs[0]) then [QueueLine(xs[0])] else []) + RoutedLines(q, xs[1..])
  }

  /** The FIO.log records the classified items contribute, in order. */
  function AuditText(xs: seq<FioAction>, now: string): string
    decreases |xs|
  {
    if xs == [] then ""
    else (match Classify(xs[0])
          case None => ""
          case Some(d) => LogLine(AuditRecord(xs[0], d), "", true, now)) + AuditText(xs[1..], now)
  }

  lemma RoutedIffClassified(q: Path, a: FioAction)
    ensures Routed(q, a) <==> Classify(a).Some? && QueueFor(Classify(a).value) == q
  {
  }

  lemma QueueTextCons(line: string, rest: seq<string>)
    ensures QueueText([line] + rest) == line + CRLF + QueueText(rest)
  {
    assert ([line] + rest)[1..] == rest;
  }

  /** One iteration on a file other than FIO.log and the checkpoint. */
  lemma DispatchOneAt(files: Files, a: FioAction, now: string, q: Path)
    requires q != FioLog && q != BlockNumberFio
    ensures q in DispatchOne(files, a, now) <==> q in files || Routed(q, a)
    ensures Content(DispatchOne(files, a, now), q)
      == Content(files, q) + (if Routed(q, a) then QueueLine(a) + CRLF else "")
  {
    RoutedIffClassified(q, a);
    match Classify(a)
    case None =>
      assert DispatchOne(files, a, now) == files[BlockNumberFio := NatToString(a.blockNum)];
    case Some(d) =>
      var f1 := Appended(files, FioLog, LogLine(AuditRecord(a, d), "", true, now));
      assert (q in f1 <==> q in files) && Content(f1, q) == Content(files, q);
      var line := LogLine(Plain(QueueLine(a)), "", false, now);
      UntimedLine(QueueLine(a), now);
      var f2 := Appended(f1, QueueFor(d), line);
      assert DispatchOne(files, a, now) == f2[BlockNumberFio := NatToString(a.blockNum)];
      if q == QueueFor(d) {
        assert Content(f2, q) == Content(f1, q) + line;
      } else {
        assert (q in f2 <==> q in f1) && Content(f2, q) == Content(f1, q);
      }
  }

  /** A line logged without a timestamp is the text and a line break. */
  lemma UntimedLine(text: string, now: string)
    ensures LogLine(Plain(text), "", false, now) == text + CRLF
  {
    assert "" + text == text;
  }

  /** Every file but FIO.log and the FIO checkpoint only grows, and by
      exactly the queue lines of the items routed to it; in particular a file
      no item is routed to, such as `wrapDomainByEthTransaction`, the queue
      the ETH domain executor reads, is left as it was. */
  lemma {:induction false} DispatchQueues(files: Files, xs: seq<FioAction>, now: string, q: Path)
    requires q != FioLog && q != BlockNumberFio
    ensures Content(DispatchFiles(files, xs, now), q) == Content(files, q) + QueueText(RoutedLines(q, xs))
    ensures q != WrapTokensQueue && q != WrapDomainQueue ==>
      (q in DispatchFiles(files, xs, now) <==> q in files)
      && Content(DispatchFiles(files, xs, now), q) == Content(files, q)
    decreases |xs|
  {
    if xs != [] {
      var files1 := DispatchOne(files, xs[0], now);
      DispatchOneAt(files, xs[0], now, q);
      DispatchQueues(files1, xs[1..], now, q);
      var rest := RoutedLines(q, xs[1..]);
      assert DispatchFiles(files, xs, now) == DispatchFiles(files1, xs[1..], now);
      if Routed(q, xs[0]) {
        QueueTextCons(QueueLine(xs[0]), rest);
        assert RoutedLines(q, xs) == [QueueLine(xs[0])] + rest;
        ConcatAssoc(Content(files, q), QueueLine(xs[0]) + CRLF, QueueText(rest));
      } else {
        assert RoutedLines(q, xs) == rest;
      }
    }
  }

  /** One unfolding of DispatchFiles at position i. */
  lemma DispatchFilesAt(files: Files, xs: seq<FioAction>, i: nat, now: string)
    requires i < |xs|
    ensures DispatchFiles(files, xs[i..], now) == DispatchFiles(DispatchOne(files, xs[i], now), xs[i + 1..], now)
  {
    assert xs[i..][0] == xs[i] && xs[i..][1..] == xs[i + 1..];
  }

  /** FIO.log grows by one record per classified item, in order. */
  lemma {:induction false} DispatchAuditLog(files: Files, xs: seq<FioAction>, now: string)
    ensures Content(DispatchFiles(files, xs, now), FioLog) == Content(files, FioLog) + AuditText(xs, now)
    decreases |xs|
  {
    if xs != [] {
      DispatchAuditLog(DispatchOne(files, xs[0], now), xs[1..], now);
    }
  }

  /** The checkpoint is written for every item, so it ends at the block
      number of the last item and reads back as that number; with no item
      nothing at all is written. */
  lemma {:induction false} DispatchCheckpoint(files: Files, xs: seq<FioAction>, now: string)
    ensures xs == [] ==> DispatchFiles(files, xs, now) == files
    ensures xs != [] ==>
      BlockNumberFio in DispatchFiles(files, xs, now)
      && DispatchFiles(files, xs, now)[BlockNumberFio] == NatToString(xs[|xs| - 1].blockNum)
      && ParseNumber(DispatchFiles(files, xs, now)[BlockNumberFio]) == Some(xs[|xs| - 1].blockNum)
    decreases |xs|
  {
    if xs != [] {
      var files1 := DispatchOne(files, xs[0], now);
      DispatchCheckpoint(files1, xs[1..], now);
      NumberRoundTrip(xs[|xs| - 1].blockNum);
    }
  }

  // ---------------------------------------------------------------------
  // Executor starts
  // ---------------------------------------------------------------------

  /** An executor started on an item: the direction and the item whose
      `trx_id` and `act.data` it is given. */
  datatype Start = Start(dir: WrapDirection, action: FioAction)

  /** The directions whose flag was set when the loop began. */
  function BusyAtStart(cache: Cache): set<WrapDirection> {
    (if IsSet(cache, FlagOf(WrapTokens)) then {WrapTokens} else {})
    + (if IsSet(cache, FlagOf(WrapDomainEth)) then {WrapDomainEth} else {})
    + (if IsSet(cache, FlagOf(WrapDomainMatic)) then {WrapDomainMatic} else {})
  }

  /** The starts the loop makes, `busy` holding the directions whose local
      flag is already true. */
  function Started(busy: set<WrapDirection>, xs: seq<FioAction>): seq<Start>
    decreases |xs|
  {
    if xs == [] then []
    else match Classify(xs[0])
      case None => Started(busy, xs[1..])
      case Some(d) =>
        if d in busy then Started(busy, xs[1..]) else [Start(d, xs[0])] + Started(busy + {d}, xs[1..])
  }

  /** The first item of direction `d`. */
  function FirstOf(xs: seq<FioAction>, d: WrapDirection): Option<FioAction>
    decreases |xs|
  {
    if xs == [] then None
    else if Classify(xs[0]) == Some(d) then Some(xs[0])
    else FirstOf(xs[1..], d)
  }

  /** The local flags after one item. */
  function BusyAfter(busy: set<WrapDirection>, a: FioAction): set<WrapDirection> {
    match Classify(a)
    case None => busy
    case Some(d) => busy + {d}
  }

  /** The start one item makes, if any. */
  function StartOn(busy: set<WrapDirection>, a: FioAction): seq<Start> {
    match Classify(a)
    case None => []
    case Some(d) => if d in busy then [] else [Start(d, a)]
  }

  /** One unfolding of Started at position i. */
  lemma StartedAt(busy: set<WrapDirection>, xs: seq<FioAction>, i: nat)
    requires i < |xs|
    ensures Started(busy, xs[i..]) == StartOn(busy, xs[i]) + Started(BusyAfter(busy, xs[i]), xs[i + 1..])
  {
    assert xs[i..][0] == xs[i] && xs[i..][1..] == xs[i + 1..];
    match Classify(xs[i]) {
      case None =>
      case Some(d) =>
        if d in busy {
          assert busy + {d} == busy;
        }
    }
  }

  /** Each direction is started at most once, never when its flag was set
      at the beginning, always on its first item, and is started whenever
      its flag was clear and it has an item. */
  lemma {:induction false} StartedOnFirstItems(busy: set<WrapDirection>, xs: seq<FioAction>)
    ensures forall i :: 0 <= i < |Started(busy, xs)| ==>
      Started(busy, xs)[i].dir !in busy
      && FirstOf(xs, Started(busy, xs)[i].dir) == Some(Started(busy, xs)[i].action)
    ensures forall i, j :: 0 <= i < j < |Started(busy, xs)| ==> Started(busy, xs)[i].dir != Started(busy, xs)[j].dir
    ensures forall d :: d !in busy && FirstOf(xs, d).Some? ==>
      exists i :: 0 <= i < |Started(busy, xs)| && Started(busy, xs)[i].dir == d
    decreases |xs|
  {
    if xs != [] {
      var x := xs[0];
      match Classify(x) {
        case None =>
          StartedOnFirstItems(busy, xs[1..]);
          assert Started(busy, xs) == Started(busy, xs[1..]);
          assert forall e :: FirstOf(xs, e) == FirstOf(xs[1..], e);
        case Some(d) =>
          if d in busy {
            StartedOnFirstItems(busy, xs[1..]);
            assert Started(busy, xs) == Started(busy, xs[1..]);
            assert forall e :: e != d ==> FirstOf(xs, e) == FirstOf(xs[1..], e);
          } else {
            var t := Started(busy + {d}, xs[1..]);
            StartedOnFirstItems(busy + {d}, xs[1..]);
            var s := [Start(d, x)] + t;
            assert Started(busy, xs) == s;
            assert forall i :: 1 <= i < |s| ==> s[i] == t[i - 1];
            forall e | e !in busy && FirstOf(xs, e).Some?
              ensures exists i :: 0 <= i < |s| && s[i].dir == e
            {
              if e == d {
                assert s[0].dir == e;
              } else {
                var k :| 0 <= k < |t| && t[k].dir == e;
                assert s[k + 1].dir == e;
              }
            }
          }
      }
    }
  }

  /** The lock a start sets: the started ETH executor sets its own lock
      before its first await, so it is set before the loop goes on. */
  function LockedBy(st: Start): Option<CacheKey> {
    match Executor(st.dir)
    case Some(e) => Some(Eth.Lock(e))
    case None => None
  }

  function MarkOne(cache: Cache, st: Start): Cache {
    match LockedBy(st)
    case Some(k) => cache[k := true]
    case None => cache
  }

  /** The cache after the starts, one after the other. */
  function MarkStarted(cache: Cache, starts: seq<Start>): Cache
    decreases |starts|
  {
    if starts == [] then cache
    else MarkOne(MarkStarted(cache, starts[..|starts| - 1]), starts[|starts| - 1])
  }

  lemma MarkStartedSnoc(cache: Cache, starts: seq<Start>, started: seq<Start>)
    requires |started| <= 1
    ensures MarkStarted(cache, starts + started)
      == if started == [] then MarkStarted(cache, starts) else MarkOne(MarkStarted(cache, starts), started[0])
  {
    if started == [] {
      assert starts + started == starts;
    } else {
      assert (starts + started)[..|starts|] == starts;
    }
  }

  /** After the starts a flag is set exactly when it was set before or a
      start set it, and no other cache entry changes. */
  lemma {:induction false} MarkStartedFlags(cache: Cache, starts: seq<Start>)
    ensures forall k :: IsSet(MarkStarted(cache, starts), k) <==>
      (IsSet(cache, k) || exists i :: 0 <= i < |starts| && LockedBy(starts[i]) == Some(k))
    ensures forall k :: k != WrapTokensLock && k != WrapDomainByEthLock ==>
      (k in MarkStarted(cache, starts) <==> k in cache)
      && (k in cache ==> MarkStarted(cache, starts)[k] == cache[k])
    decreases |starts|
  {
    if starts != [] {
      var init := starts[..|starts| - 1];
      MarkStartedFlags(cache, init);
      var last := starts[|starts| - 1];
      forall k
        ensures IsSet(MarkStarted(cache, starts), k) <==>
          (IsSet(cache, k) || exists i :: 0 <= i < |starts| && LockedBy(starts[i]) == Some(k))
      {
        if exists i :: 0 <= i < |init| && LockedBy(init[i]) == Some(k) {
          var i :| 0 <= i < |init| && LockedBy(init[i]) == Some(k);
          assert starts[i] == init[i];
        }
        if exists i :: 0 <= i < |starts| && LockedBy(starts[i]) == Some(k) {
          var i :| 0 <= i < |starts| && LockedBy(starts[i]) == Some(k);
          if i < |init| {
            assert init[i] == starts[i];
          }
        }
      }
      if LockedBy(last).Some? {
        assert LockedBy(last).value == WrapTokensLock || LockedBy(last).value == WrapDomainByEthLock;
      }
    }
  }

  // ---------------------------------------------------------------------
  // The job
  // ---------------------------------------------------------------------

  /** How one call of the job ends: the job was already running; the
      history search has not returned; it threw (the message is logged by
      `handleServerError`, which is not part of this model); or the items
      were dispatched. */
  datatype Cycle = Busy | Awaiting | FetchFailed(message: string) | Dispatched(actions: seq<FioAction>)

  /** One pass of the `for` loop: the FIO.log record and the queue line of
      a classified item, the start of its executor when its local flag is
      still false, then the checkpoint. */
  method DispatchItem(h: Host, a: FioAction, busy: set<WrapDirection>, now: string)
    returns (busy': set<WrapDirection>, started: seq<Start>)
    modifies h
    ensures h.files == DispatchOne(old(h.files), a, now)
    ensures busy' == BusyAfter(busy, a) && started == StartOn(busy, a)
    ensures h.cache == if started == [] then old(h.cache) else MarkOne(old(h.cache), started[0])
    ensures h.lastBlockNumber == old(h.lastBlockNumber)
  {
    busy', started := busy, [];
    match Classify(a) {
      case None =>
      case Some(d) =>
        AddLogMessage(h, FioLog, AuditRecord(a, d), now);
        AddLogMessage(h, QueueFor(d), Plain(QueueLine(a)), now, "", false);
        if d !in busy {
          busy' := busy + {d};
          started := [Start(d, a)];
          match Executor(d) {
            case Some(e) => h.cache := h.cache[Eth.Lock(e) := true];
            case None =>
          }
        }
    }
    UpdateBlockNumber(h, FioWrap, NatToString(a.blockNum));
  }

  /** One pass of the loop keeps the invariant on the starts. */
  lemma StartedStep(busy: set<WrapDirection>, flags: set<WrapDirection>, before: seq<Start>, xs: seq<FioAction>, i: nat)
    requires i < |xs|
    requires before + Started(flags, xs[i..]) == Started(busy, xs)
    ensures (before + StartOn(flags, xs[i])) + Started(BusyAfter(flags, xs[i]), xs[i + 1..]) == Started(busy, xs)
  {
    StartedAt(flags, xs, i);
  }

  /** The `for` loop over the items found, `busy` holding the directions
      whose flag was set when it began. */
  method DispatchAll(h: Host, xs: seq<FioAction>, busy: set<WrapDirection>, now: string)
    returns (starts: seq<Start>)
    modifies h
    ensures h.files == DispatchFiles(old(h.files), xs, now)
    ensures starts == Started(busy, xs)
    ensures h.cache == MarkStarted(old(h.cache), starts)
    ensures h.lastBlockNumber == old(h.lastBlockNumber)
  {
    starts := [];
    var flags := busy;
    var i := 0;
    while i < |xs|
      invariant 0 <= i <= |xs|
      invariant DispatchFiles(h.files, xs[i..], now) == DispatchFiles(old(h.files), xs, now)
      invariant starts + Started(flags, xs[i..]) == Started(busy, xs)
      invariant h.cache == MarkStarted(old(h.cache), starts)
      invariant h.lastBlockNumber == old(h.lastBlockNumber)
    {
      ghost var files, before, flagsBefore := h.files, starts, flags;
      var started: seq<Start>;
      flags, started := DispatchItem(h, xs[i], flags, now);
      starts := starts + started;
      DispatchFilesAt(files, xs, i, now);
      StartedStep(busy, flagsBefore, before, xs, i);
      MarkStartedSnoc(old(h.cache), before, started);
      i := i + 1;
    }
    assert xs[i..] == [];
  }

  /** `handleUnprocessedWrapActionsOnFioChain`. The job flag guards the whole
      call and is cleared on every completed call, caught error included; a
      history search still waiting keeps it set. The search starts at the
      `POLLOFFSET` setting, `pollOffset`. */
  method HandleUnprocessedWrapActions(h: Host, history: History, pollOffset: int, fuel: nat, now: string)
    returns (cycle: Cycle, starts: seq<Start>)
    modifies h
    ensures IsSet(old(h.cache), UnprocessedWrapActionsJob) <==> cycle.Busy?
    ensures cycle.Busy? ==> starts == [] && h.files == old(h.files) && h.cache == old(h.cache)
    ensures cycle.Awaiting? ==>
      starts == [] && h.files == old(h.files) && h.cache == old(h.cache)[UnprocessedWrapActionsJob := true]
    ensures cycle.FetchFailed? ==>
      starts == [] && h.files == old(h.files) && h.cache == old(h.cache)[UnprocessedWrapActionsJob := false]
    ensures !cycle.Busy? && BlockNumberFio !in old(h.files) ==> cycle == FetchFailed("ENOENT")
    ensures !cycle.Busy? && BlockNumberFio in old(h.files) ==>
      var cp := ParseNumber(old(h.files)[BlockNumberFio]);
      && (cycle.Awaiting? <==> Exhausted(history, pollOffset, fuel, cp))
      && (cycle.FetchFailed? <==> exists k: nat :: k <= fuel && FailedAt(history, pollOffset, k, cp))
      && (cycle.Dispatched? <==> exists k: nat :: k <= fuel && FoundAt(history, pollOffset, k, cp))
      && (cycle.Dispatched? ==>
            exists k: nat :: k <= fuel && FoundAt(history, pollOffset, k, cp)
              && cycle.actions == AboveCheckpoint(history(OffsetAfter(pollOffset, k)).actions, cp))
    ensures cycle.Dispatched? ==>
      BlockNumberFio in old(h.files)
      && (forall x :: x in cycle.actions ==> Above(x.blockNum, ParseNumber(old(h.files)[BlockNumberFio])))
    ensures cycle.Dispatched? ==>
      starts == Started(BusyAtStart(old(h.cache)), cycle.actions)
      && h.files == DispatchFiles(old(h.files), cycle.actions, now)
      && h.cache == MarkStarted(old(h.cache)[UnprocessedWrapActionsJob := true], starts)[UnprocessedWrapActionsJob := false]
    ensures h.lastBlockNumber == old(h.lastBlockNumber)
  {
    if IsSet(h.cache, UnprocessedWrapActionsJob) {
      return Busy, [];
    }
    h.cache := h.cache[UnprocessedWrapActionsJob := true];
    var window := GetUnprocessedActionsOnFioChain(h, history, pollOffset, fuel);
    if BlockNumberFio in h.files {
      OutcomesExclusive(history, pollOffset, fuel, ParseNumber(h.files[BlockNumberFio]), window);
    }
    match window {
      case OutOfFuel =>
        return Awaiting, [];
      case Failed(m) =>
        h.cache := h.cache[UnprocessedWrapActionsJob := false];
        return FetchFailed(m), [];
      case Found(xs) =>
        var busy := BusyAtStart(h.cache);
        assert busy == BusyAtStart(old(h.cache));
        starts := DispatchAll(h, xs, busy, now);
        h.cache := h.cache[UnprocessedWrapActionsJob := false];
        cycle := Dispatched(xs);
    }
  }
}

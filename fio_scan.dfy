/** controller/api/fio.js, the three unwrap watchers
    `handleUnprocessedUnwrapTokensOnEthChainActions`,
    `handleUnprocessedUnwrapDomainOnEthChainActions` and
    `handleUnprocessedUnwrapDomainActionsOnPolygon`: each walks the blocks
    after its checkpoint up to the chain head in chunks of at most
    `blocksRangeLimit` blocks, moving the checkpoint to the end of each chunk
    before asking for that chunk's `unwrapped` events, then logs every event
    and hands it to the FIO transaction builder. */
module FioScan {
  import opened Strings
  import opened Host
  import opened Helpers

  /** One `unwrapped` event: `transactionHash`, `returnValues.fioaddress`,
      `parseInt(returnValues.amount)`, `returnValues.domain`, and `json`,
      the text `JSON.stringify` gives for the whole event. */
  datatype UnwrapEvent = UnwrapEvent(transactionHash: string, fioAddress: string, amount: int, domain: string, json: string)

  /** A block range `[from, to]` asked for in one `getPastEvents` call. */
  datatype Chunk = Chunk(from: int, to: int)

  /** `getPastEvents('unwrapped', {fromBlock, toBlock})`: the events of the
      range, or None when the request throws. */
  type Fetch = Chunk -> Option<seq<UnwrapEvent>>

  // ---------------------------------------------------------------------
  // The chunks
  // ---------------------------------------------------------------------

  /** The ranges the `while (fromBlockNumber <= lastInChainBlockNumber)` loop
      asks for, starting at `from`. */
  function Chunks(from: int, head: int, limit: int): seq<Chunk>
    requires limit >= 1
    decreases head - from + 1
  {
    if from > head then []
    else
      var maxAllowed := from + limit - 1;
      var to := if maxAllowed > head then head else maxAllowed;
      [Chunk(from, to)] + Chunks(to + 1, head, limit)
  }

  /** The number of blocks in a chunk. */
  function Size(c: Chunk): int {
    c.to - c.from + 1
  }

  /** The chunks cover `[from, head]` exactly: none when `from` is past the
      head; otherwise the first starts at `from`, each next one starts right
      after the previous one, the last ends at the head, every chunk holds
      between 1 and `limit` blocks, and all but the last hold exactly
      `limit`. */
  lemma {:induction false} ChunksCover(from: int, head: int, limit: int)
    requires limit >= 1
    ensures Chunks(from, head, limit) == [] <==> from > head
    ensures Chunks(from, head, limit) != [] ==>
      Chunks(from, head, limit)[0].from == from
      && Chunks(from, head, limit)[|Chunks(from, head, limit)| - 1].to == head
    ensures forall k :: 0 <= k < |Chunks(from, head, limit)| ==>
      1 <= Size(Chunks(from, head, limit)[k]) <= limit
      && from <= Chunks(from, head, limit)[k].from && Chunks(from, head, limit)[k].to <= head
    decreases head - from + 1
  {
    if from <= head {
      var cs := Chunks(from, head, limit);
      var maxAllowed := from + limit - 1;
      var to := if maxAllowed > head then head else maxAllowed;
      var rest := Chunks(to + 1, head, limit);
      ChunksCover(to + 1, head, limit);
      assert cs == [Chunk(from, to)] + rest;
      assert forall k :: 1 <= k < |cs| ==> cs[k] == rest[k - 1];
    }
  }

  /** Each chunk starts right after the previous one, and all but the last
      hold exactly `limit` blocks. */
  lemma {:induction false} ChunksContiguous(from: int, head: int, limit: int)
    requires limit >= 1
    ensures forall k :: 0 <= k < |Chunks(from, head, limit)| - 1 ==>
      Chunks(from, head, limit)[k + 1].from == Chunks(from, head, limit)[k].to + 1
      && Size(Chunks(from, head, limit)[k]) == limit
    decreases head - from + 1
  {
    if from <= head {
      var cs := Chunks(from, head, limit);
      var maxAllowed := from + limit - 1;
      var to := if maxAllowed > head then head else maxAllowed;
      var rest := Chunks(to + 1, head, limit);
      ChunksContiguous(to + 1, head, limit);
      ChunksCover(to + 1, head, limit);
      assert cs == [Chunk(from, to)] + rest;
      forall k | 0 <= k < |cs| - 1
        ensures cs[k + 1].from == cs[k].to + 1 && Size(cs[k]) == limit
      {
        assert cs[k + 1] == rest[k];
        if k > 0 {
          assert cs[k] == rest[k - 1];
        }
      }
    }
  }

  /** The ends of the chunks, in order: the values written to the checkpoint. */
  function Ends(cs: seq<Chunk>): seq<int>
    decreases |cs|
  {
    if cs == [] then [] else Ends(cs[..|cs| - 1]) + [cs[|cs| - 1].to]
  }

  lemma {:induction false} EndsAt(cs: seq<Chunk>)
    ensures |Ends(cs)| == |cs| && forall k :: 0 <= k < |cs| ==> Ends(cs)[k] == cs[k].to
    decreases |cs|
  {
    if cs != [] {
      var init := cs[..|cs| - 1];
      EndsAt(init);
      assert forall k :: 0 <= k < |init| ==> init[k] == cs[k];
    }
  }

  /** The checkpoint values a scan writes increase strictly, stay above the
      stored checkpoint, and the last one is the head. */
  lemma CheckpointWritesIncrease(checkpoint: int, head: int, limit: int)
    requires limit >= 1
    ensures var ends := Ends(Chunks(checkpoint + 1, head, limit));
      (forall k, j :: 0 <= k < j < |ends| ==> checkpoint < ends[k] < ends[j] <= head)
      && (checkpoint < head ==> |ends| > 0 && ends[|ends| - 1] == head)
      && (checkpoint >= head ==> ends == [])
  {
    var cs := Chunks(checkpoint + 1, head, limit);
    ChunksCover(checkpoint + 1, head, limit);
    EndsAt(cs);
    forall k, j | 0 <= k < j < |cs| ensures checkpoint < cs[k].to < cs[j].to {
      ChunksIncrease(cs, k, j, checkpoint + 1, head, limit);
    }
  }

  lemma {:induction false} ChunksIncrease(cs: seq<Chunk>, k: int, j: int, from: int, head: int, limit: int)
    requires limit >= 1 && cs == Chunks(from, head, limit)
    requires 0 <= k < j < |cs|
    ensures from <= cs[k].to < cs[j].to
    decreases j - k
  {
    ChunksCover(from, head, limit);
    ChunksContiguous(from, head, limit);
    if j > k + 1 {
      ChunksIncrease(cs, k, j - 1, from, head, limit);
    }
  }

  /** One pass of the scan loop: the range it asks for is the next chunk. */
  lemma ChunkStep(cs: seq<Chunk>, k: nat, from: int, to: int, head: int, limit: int)
    requires limit >= 1 && k <= |cs| && Chunks(from, head, limit) == cs[k..] && from <= head
    requires to == if from + limit - 1 > head then head else from + limit - 1
    ensures k < |cs| && cs[k] == Chunk(from, to) && cs[k + 1..] == Chunks(to + 1, head, limit)
  {
    assert cs[k..] == [Chunk(from, to)] + Chunks(to + 1, head, limit);
    assert cs[k..][1..] == cs[k + 1..];
  }

  /** A range is never asked for twice: a scan that restarts after chunk k,
      as the next run does once the checkpoint holds that chunk's end, asks
      exactly for the chunks after it. Blocks of a chunk whose request
      threw are therefore never asked for again. */
  lemma {:induction false} RestartAfterChunk(from: int, head: int, limit: int, k: nat)
    requires limit >= 1 && k < |Chunks(from, head, limit)|
    ensures Chunks(Chunks(from, head, limit)[k].to + 1, head, limit) == Chunks(from, head, limit)[k + 1..]
    decreases k
  {
    var cs := Chunks(from, head, limit);
    var maxAllowed := from + limit - 1;
    var to := if maxAllowed > head then head else maxAllowed;
    assert cs == [Chunk(from, to)] + Chunks(to + 1, head, limit);
    if k > 0 {
      RestartAfterChunk(to + 1, head, limit, k - 1);
      assert cs[k] == Chunks(to + 1, head, limit)[k - 1];
      assert cs[k + 1..] == Chunks(to + 1, head, limit)[k..];
    }
  }

  // ---------------------------------------------------------------------
  // Fetching the events
  // ---------------------------------------------------------------------

  /** The index of the first chunk whose request throws, or the number of
      chunks when none does. */
  function FirstFailure(cs: seq<Chunk>, fetch: Fetch): (k: nat)
    ensures k <= |cs|
    decreases |cs|
  {
    if cs == [] then 0
    else if fetch(cs[0]).None? then 0
    else 1 + FirstFailure(cs[1..], fetch)
  }

  lemma {:induction false} FirstFailureIsFirst(cs: seq<Chunk>, fetch: Fetch)
    ensures forall j :: 0 <= j < FirstFailure(cs, fetch) ==> fetch(cs[j]).Some?
    ensures FirstFailure(cs, fetch) < |cs| ==> fetch(cs[FirstFailure(cs, fetch)]).None?
    decreases |cs|
  {
    if cs != [] && fetch(cs[0]).Some? {
      FirstFailureIsFirst(cs[1..], fetch);
      assert forall j :: 1 <= j < |cs| ==> cs[j] == cs[1..][j - 1];
    }
  }

  /** Up to the first failure, the next chunk fails exactly when it is the
      first failure. */
  lemma FirstFailureAt(cs: seq<Chunk>, fetch: Fetch, k: nat)
    requires k < |cs| && k <= FirstFailure(cs, fetch)
    ensures FirstFailure(cs, fetch) == k <==> fetch(cs[k]).None?
  {
    FirstFailureIsFirst(cs, fetch);
  }

  /** The events of the chunks, in chunk order (`[...result, ...events]`). */
  function Collected(cs: seq<Chunk>, fetch: Fetch): seq<UnwrapEvent>
    decreases |cs|
  {
    if cs == [] then []
    else
      var last := fetch(cs[|cs| - 1]);
      Collected(cs[..|cs| - 1], fetch) + (if last.Some? then last.value else [])
  }

  /** Every collected event comes from one of the chunks, and every event of
      every chunk is collected. */
  lemma {:induction false} CollectedFromChunks(cs: seq<Chunk>, fetch: Fetch)
    ensures forall e :: e in Collected(cs, fetch) <==>
      exists k :: 0 <= k < |cs| && fetch(cs[k]).Some? && e in fetch(cs[k]).value
    decreases |cs|
  {
    if cs != [] {
      var init := cs[..|cs| - 1];
      CollectedFromChunks(init, fetch);
      forall e
        ensures e in Collected(cs, fetch) <==>
          exists k :: 0 <= k < |cs| && fetch(cs[k]).Some? && e in fetch(cs[k]).value
      {
        if exists k :: 0 <= k < |init| && fetch(init[k]).Some? && e in fetch(init[k]).value {
          var k :| 0 <= k < |init| && fetch(init[k]).Some? && e in fetch(init[k]).value;
          assert cs[k] == init[k];
        }
        if exists k :: 0 <= k < |cs| && fetch(cs[k]).Some? && e in fetch(cs[k]).value {
          var k :| 0 <= k < |cs| && fetch(cs[k]).Some? && e in fetch(cs[k]).value;
          if k < |init| {
            assert init[k] == cs[k];
          }
        }
      }
    }
  }

  /** Where a scan stopped: how many checkpoint writes it made. */
  function Attempted(cs: seq<Chunk>, fetch: Fetch): nat {
    var k := FirstFailure(cs, fetch);
    if k < |cs| then k + 1 else |cs|
  }

  /** One more chunk fetched: its end joins the writes and its events the
      result. */
  lemma ScanStep(cs: seq<Chunk>, k: nat, fetch: Fetch)
    requires k < |cs|
    ensures Ends(cs[..k + 1]) == Ends(cs[..k]) + [cs[k].to]
    ensures fetch(cs[k]).Some? ==> Collected(cs[..k + 1], fetch) == Collected(cs[..k], fetch) + fetch(cs[k]).value
  {
    assert cs[..k + 1][..k] == cs[..k];
  }

  /** The files after the checkpoint writes `writes`: the last one stays. */
  function AfterCheckpoint(files: Files, c: Checkpoint, writes: seq<int>): Files
    requires writes == [] || writes[|writes| - 1] >= 0
  {
    if writes == [] then files else files[CheckpointPath(c) := NatToString(writes[|writes| - 1])]
  }

  lemma AfterCheckpointSnoc(files: Files, c: Checkpoint, writes: seq<int>, x: int)
    requires writes == [] || writes[|writes| - 1] >= 0
    requires x >= 0
    ensures AfterCheckpoint(files, c, writes + [x]) == AfterCheckpoint(files, c, writes)[CheckpointPath(c) := NatToString(x)]
  {
  }

  /** What one pass of the scan loop does to the chunks walked so far: the
      chunk it asks for is the next one, its end and its events extend the
      writes and the result, and a failed request is the first failure. */
  lemma LoopStep(cs: seq<Chunk>, k: nat, from: int, to: int, head: int, limit: int, fetch: Fetch,
                 writes: seq<int>, result: seq<UnwrapEvent>)
    requires limit >= 1 && k <= |cs| && Chunks(from, head, limit) == cs[k..] && from <= head
    requires to == if from + limit - 1 > head then head else from + limit - 1
    requires k <= FirstFailure(cs, fetch)
    requires writes == Ends(cs[..k]) && result == Collected(cs[..k], fetch)
    ensures k < |cs| && cs[k] == Chunk(from, to) && cs[k + 1..] == Chunks(to + 1, head, limit)
    ensures writes + [to] == Ends(cs[..k + 1])
    ensures fetch(Chunk(from, to)).None? ==>
      FirstFailure(cs, fetch) == k && writes + [to] == Ends(cs[..Attempted(cs, fetch)])
    ensures fetch(Chunk(from, to)).Some? ==>
      k + 1 <= FirstFailure(cs, fetch) && result + fetch(Chunk(from, to)).value == Collected(cs[..k + 1], fetch)
  {
    ChunkStep(cs, k, from, to, head, limit);
    ScanStep(cs, k, fetch);
    FirstFailureAt(cs, fetch, k);
  }

  /** One pass of the scan loop: the chunk from `fromBlockNumber` ends
      `blocksRangeLimit - 1` blocks later or at the head; its end is written
      to the checkpoint, then its events are asked for. */
  method FetchChunk(h: Host, c: Checkpoint, fromBlockNumber: int, head: int, limit: int, fetch: Fetch)
    returns (toBlockNumber: int, events: Option<seq<UnwrapEvent>>)
    requires limit >= 1 && 0 <= fromBlockNumber <= head
    modifies h
    ensures toBlockNumber == if fromBlockNumber + limit - 1 > head then head else fromBlockNumber + limit - 1
    ensures fromBlockNumber <= toBlockNumber <= head
    ensures events == fetch(Chunk(fromBlockNumber, toBlockNumber))
    ensures h.files == old(h.files)[CheckpointPath(c) := NatToString(toBlockNumber)]
    ensures h.cache == old(h.cache) && h.lastBlockNumber == old(h.lastBlockNumber)
  {
    var maxAllowedBlockNumber := fromBlockNumber + limit - 1;
    toBlockNumber := if maxAllowedBlockNumber > head then head else maxAllowedBlockNumber;
    UpdateBlockNumber(h, c, NatToString(toBlockNumber));
    events := fetch(Chunk(fromBlockNumber, toBlockNumber));
  }

  /** The `while (fromBlockNumber <= lastInChainBlockNumber)` loop of
      `getUnprocessedActionsLogs`: walk the chunks from `from`, writing each
      chunk's end to the checkpoint before fetching its events, and stop at
      the first request that throws. The chunk ends written are returned in
      `writes`. */
  method FetchChunks(h: Host, c: Checkpoint, from: int, head: int, limit: int, fetch: Fetch)
    returns (r: Result<seq<UnwrapEvent>>, writes: seq<int>)
    requires limit >= 1 && from >= 0
    modifies h
    ensures writes == [] || writes[|writes| - 1] >= from
    ensures h.files == AfterCheckpoint(old(h.files), c, writes)
    ensures var cs := Chunks(from, head, limit);
      writes == Ends(cs[..Attempted(cs, fetch)])
      && (FirstFailure(cs, fetch) == |cs| ==> r == Ok(Collected(cs, fetch)))
      && (FirstFailure(cs, fetch) < |cs| ==> r.Err?)
    ensures h.cache == old(h.cache) && h.lastBlockNumber == old(h.lastBlockNumber)
  {
    ghost var cs := Chunks(from, head, limit);
    writes := [];
    var fromBlockNumber := from;
    var result: seq<UnwrapEvent> := [];
    ghost var k: nat := 0;
    while fromBlockNumber <= head
      invariant from <= fromBlockNumber && k <= |cs|
      invariant Chunks(fromBlockNumber, head, limit) == cs[k..]
      invariant k <= FirstFailure(cs, fetch)
      invariant writes == Ends(cs[..k]) && result == Collected(cs[..k], fetch)
      invariant writes == [] || writes[|writes| - 1] >= from
      invariant h.files == AfterCheckpoint(old(h.files), c, writes)
      invariant h.cache == old(h.cache) && h.lastBlockNumber == old(h.lastBlockNumber)
      decreases head - fromBlockNumber
    {
      var toBlockNumber, events := FetchChunk(h, c, fromBlockNumber, head, limit, fetch);
      AfterCheckpointSnoc(old(h.files), c, writes, toBlockNumber);
      LoopStep(cs, k, fromBlockNumber, toBlockNumber, head, limit, fetch, writes, result);
      writes := writes + [toBlockNumber];
      if events.None? {
        return Err("getPastEvents failed"), writes;
      }
      result := result + events.value;
      fromBlockNumber := toBlockNumber + 1;
      k := k + 1;
    }
    assert k == |cs| by {
      assert Chunks(fromBlockNumber, head, limit) == [];
    }
    assert cs[..k] == cs;
    r := Ok(result);
  }

  /** `getUnprocessedActionsLogs`: read the checkpoint (a missing file
      throws; NaN compares false everywhere, so nothing is scanned), refuse a
      checkpoint above the head, then walk the chunks after it. */
  method ScanBlockRange(h: Host, c: Checkpoint, head: int, limit: int, fetch: Fetch)
    returns (r: Result<seq<UnwrapEvent>>, writes: seq<int>)
    requires limit >= 1
    modifies h
    ensures writes == [] || writes[|writes| - 1] >= 0
    ensures h.files == AfterCheckpoint(old(h.files), c, writes)
    ensures CheckpointPath(c) !in old(h.files) ==> r.Err? && writes == []
    ensures CheckpointPath(c) in old(h.files) && ParseNumber(old(h.files)[CheckpointPath(c)]).None? ==>
      r == Ok([]) && writes == []
    ensures CheckpointPath(c) in old(h.files) && ParseNumber(old(h.files)[CheckpointPath(c)]).Some? ==>
      var n := ParseNumber(old(h.files)[CheckpointPath(c)]).value;
      (n > head ==> r.Err? && writes == [])
      && (n <= head ==>
            var cs := Chunks(n + 1, head, limit);
            writes == Ends(cs[..Attempted(cs, fetch)])
            && (FirstFailure(cs, fetch) == |cs| ==> r == Ok(Collected(cs, fetch)))
            && (FirstFailure(cs, fetch) < |cs| ==> r.Err?))
    ensures h.cache == old(h.cache) && h.lastBlockNumber == old(h.lastBlockNumber)
  {
    var lastProcessed := GetLastProceededBlockNumber(h, c);
    if lastProcessed.Err? {
      return Err(lastProcessed.message), [];
    }
    if lastProcessed.value.None? {
      return Ok([]), [];
    }
    var n := lastProcessed.value.value;
    if n > head {
      return Err("Wrong start blockNumber, pls check stored value."), [];
    }
    r, writes := FetchChunks(h, c, n + 1, head, limit, fetch);
  }

  // ---------------------------------------------------------------------
  // The three watchers
  // ---------------------------------------------------------------------

  /** Which watcher runs. */
  datatype Watcher = EthTokens | EthDomains | PolygonDomains

  function JobKey(w: Watcher): CacheKey {
    match w
    case EthTokens => UnwrapTokensOnEthJob
    case EthDomains => UnwrapDomainsOnEthJob
    case PolygonDomains => UnwrapDomainsOnPolygonJob
  }

  function WatcherCheckpoint(w: Watcher): Checkpoint {
    match w
    case EthTokens => EthTokensUnwrap
    case EthDomains => EthDomainUnwrap
    case PolygonDomains => PolygonDomainUnwrap
  }

  function WatcherLog(w: Watcher): Path {
    match w
    case EthTokens => EthLog
    case EthDomains => EthLog
    case PolygonDomains => MaticLog
  }

  /** The text logged for each event, before the event's JSON. */
  function EventPrefix(w: Watcher): string {
    match w
    case EthTokens => "ETH fio.erc20 unwraptokens "
    case EthDomains => "ETH fio.erc721 unwrapdomains "
    case PolygonDomains => "Polygon fio.erc721 unwrapdomains "
  }

  /** The call each event makes into the FIO transaction builder:
      `unwrapTokensFromEthToFioChain(txId, amount, fioAddress)` or
      `unwrapDomainFrom*ToFioChain(txId, domain, fioAddress)`. */
  datatype UnwrapCall =
    | UnwrapTokens(obtId: string, amount: int, fioAddress: string)
    | UnwrapDomainFromEth(obtId: string, domain: string, fioAddress: string)
    | UnwrapDomainFromPolygon(obtId: string, domain: string, fioAddress: string)

  function CallFor(w: Watcher, e: UnwrapEvent): UnwrapCall {
    match w
    case EthTokens => UnwrapTokens(e.transactionHash, e.amount, e.fioAddress)
    case EthDomains => UnwrapDomainFromEth(e.transactionHash, e.domain, e.fioAddress)
    case PolygonDomains => UnwrapDomainFromPolygon(e.transactionHash, e.domain, e.fioAddress)
  }

  /** The log lines of the events, in order, each stamped with `now`. */
  function EventLog(w: Watcher, events: seq<UnwrapEvent>, now: string): string
    decreases |events|
  {
    if events == [] then ""
    else EventLog(w, events[..|events| - 1], now) + LogLine(Plain(EventPrefix(w) + events[|events| - 1].json), "", true, now)
  }

  /** The line logged for one event, without its line break. */
  function EventLine(w: Watcher, e: UnwrapEvent, now: string): string {
    now + " " + EventPrefix(w) + e.json
  }

  function EventLines(w: Watcher, events: seq<UnwrapEvent>, now: string): seq<string>
    decreases |events|
  {
    if events == [] then [] else EventLines(w, events[..|events| - 1], now) + [EventLine(w, events[|events| - 1], now)]
  }

  lemma EventLineLogged(w: Watcher, e: UnwrapEvent, now: string)
    ensures LogLine(Plain(EventPrefix(w) + e.json), "", true, now) == EventLine(w, e, now) + CRLF
  {
    var text := EventPrefix(w) + e.json;
    assert LogLine(Plain(text), "", true, now) == ("" + now + " ") + text + CRLF;
    assert "" + now + " " == now + " ";
    ConcatAssoc(now + " ", EventPrefix(w), e.json);
  }

  /** The log of the events is a queue of lines, one per event. */
  lemma {:induction false} EventLogLines(w: Watcher, events: seq<UnwrapEvent>, now: string)
    ensures EventLog(w, events, now) == QueueText(EventLines(w, events, now))
    decreases |events|
  {
    if events != [] {
      var init := events[..|events| - 1];
      var e := events[|events| - 1];
      EventLogLines(w, init, now);
      QueueTextSnoc(EventLines(w, init, now), EventLine(w, e, now));
      EventLineLogged(w, e, now);
    }
  }

  /** Each event gives exactly one line, the timestamp, a space, the prefix
      of the watcher and the event's JSON, in event order. */
  lemma {:induction false} EventLinesAt(w: Watcher, events: seq<UnwrapEvent>, now: string)
    ensures |EventLines(w, events, now)| == |events|
    ensures forall i :: 0 <= i < |events| ==> EventLines(w, events, now)[i] == EventLine(w, events[i], now)
    decreases |events|
  {
    if events != [] {
      var init := events[..|events| - 1];
      EventLinesAt(w, init, now);
      var lines := EventLines(w, init, now);
      assert EventLines(w, events, now) == lines + [EventLine(w, events[|events| - 1], now)];
      forall i | 0 <= i < |events|
        ensures EventLines(w, events, now)[i] == EventLine(w, events[i], now)
      {
        if i < |init| {
          assert events[i] == init[i];
          assert EventLines(w, events, now)[i] == lines[i];
        }
      }
    }
  }

  lemma EventLogSnoc(w: Watcher, events: seq<UnwrapEvent>, e: UnwrapEvent, now: string)
    ensures EventLog(w, events + [e], now) == EventLog(w, events, now) + LogLine(Plain(EventPrefix(w) + e.json), "", true, now)
  {
    assert (events + [e])[..|events|] == events;
  }

  lemma LoggedSnoc(files: Files, w: Watcher, events: seq<UnwrapEvent>, e: UnwrapEvent, now: string)
    ensures Logged(files, w, events + [e], now)
      == Appended(Logged(files, w, events, now), WatcherLog(w), LogLine(Plain(EventPrefix(w) + e.json), "", true, now))
  {
    var log := WatcherLog(w);
    var line := LogLine(Plain(EventPrefix(w) + e.json), "", true, now);
    EventLogSnoc(w, events, e, now);
    var old0 := Content(files, log);
    assert Logged(files, w, events + [e], now) == files[log := old0 + (EventLog(w, events, now) + line)];
    if events == [] {
      assert EventLog(w, events, now) == "";
      assert Logged(files, w, events, now) == files;
      assert old0 + ("" + line) == old0 + line;
    } else {
      assert Content(Logged(files, w, events, now), log) == old0 + EventLog(w, events, now);
      ConcatAssoc(old0, EventLog(w, events, now), line);
    }
  }

  lemma LoggedStep(files: Files, w: Watcher, events: seq<UnwrapEvent>, i: nat, now: string)
    requires i < |events|
    ensures Logged(files, w, events[..i + 1], now)
      == Appended(Logged(files, w, events[..i], now), WatcherLog(w), LogLine(Plain(EventPrefix(w) + events[i].json), "", true, now))
  {
    assert events[..i + 1] == events[..i] + [events[i]];
    LoggedSnoc(files, w, events[..i], events[i], now);
  }

  /** The files after the events are logged. */
  function Logged(files: Files, w: Watcher, events: seq<UnwrapEvent>, now: string): Files {
    if events == [] then files
    else files[WatcherLog(w) := Content(files, WatcherLog(w)) + EventLog(w, events, now)]
  }

  /** How a watcher call ended. */
  datatype WatchOutcome = AlreadyRunning | ScanFailed(message: string) | Handled(events: seq<UnwrapEvent>)

  /** How a watcher call ends, given the files before its scan: a missing
      checkpoint, or one above the head, fails with nothing written; a NaN
      one is handled with no event and no write; otherwise the writes are
      the ends of the chunks up to and including the first failing one, the
      call fails exactly when a chunk fails, and with no failure the events
      are the ones collected from the chunks. */
  predicate ScanOutcome(files: Files, c: Checkpoint, head: int, limit: int, fetch: Fetch,
                        outcome: WatchOutcome, writes: seq<int>)
    requires limit >= 1
  {
    if CheckpointPath(c) !in files then outcome.ScanFailed? && writes == []
    else match ParseNumber(files[CheckpointPath(c)])
      case None => outcome == Handled([]) && writes == []
      case Some(n) =>
        if n > head then outcome.ScanFailed? && writes == []
        else
          var cs := Chunks(n + 1, head, limit);
          writes == Ends(cs[..Attempted(cs, fetch)])
          && (outcome.ScanFailed? <==> FirstFailure(cs, fetch) < |cs|)
          && (FirstFailure(cs, fetch) == |cs| ==> outcome == Handled(Collected(cs, fetch)))
  }

  /** The `data.forEach` over the events: log each one and make its call. */
  method HandleEvents(h: Host, w: Watcher, events: seq<UnwrapEvent>, now: string) returns (calls: seq<UnwrapCall>)
    modifies h
    ensures h.files == Logged(old(h.files), w, events, now)
    ensures |calls| == |events| && forall i :: 0 <= i < |events| ==> calls[i] == CallFor(w, events[i])
    ensures h.cache == old(h.cache) && h.lastBlockNumber == old(h.lastBlockNumber)
  {
    calls := [];
    var i := 0;
    while i < |events|
      invariant 0 <= i <= |events|
      invariant h.files == Logged(old(h.files), w, events[..i], now)
      invariant |calls| == i && forall j :: 0 <= j < i ==> calls[j] == CallFor(w, events[j])
      invariant h.cache == old(h.cache) && h.lastBlockNumber == old(h.lastBlockNumber)
    {
      AddLogMessage(h, WatcherLog(w), Plain(EventPrefix(w) + events[i].json), now);
      LoggedStep(old(h.files), w, events, i, now);
      calls := calls + [CallFor(w, events[i])];
      i := i + 1;
    }
    assert events[..i] == events;
  }

  /** The body of a watcher call once its job flag is set: scan, then log
      and hand on the events. A failed scan logs no event and makes no call. */
  method Watch(h: Host, w: Watcher, head: int, limit: int, fetch: Fetch, now: string)
    returns (outcome: WatchOutcome, calls: seq<UnwrapCall>, writes: seq<int>)
    requires limit >= 1
    modifies h
    ensures !outcome.AlreadyRunning?
    ensures writes == [] || writes[|writes| - 1] >= 0
    ensures outcome.ScanFailed? ==> calls == [] && h.files == AfterCheckpoint(old(h.files), WatcherCheckpoint(w), writes)
    ensures outcome.Handled? ==>
      h.files == Logged(AfterCheckpoint(old(h.files), WatcherCheckpoint(w), writes), w, outcome.events, now)
      && |calls| == |outcome.events| && forall i :: 0 <= i < |calls| ==> calls[i] == CallFor(w, outcome.events[i])
    ensures ScanOutcome(old(h.files), WatcherCheckpoint(w), head, limit, fetch, outcome, writes)
    ensures h.cache == old(h.cache) && h.lastBlockNumber == old(h.lastBlockNumber)
  {
    var data;
    data, writes := ScanBlockRange(h, WatcherCheckpoint(w), head, limit, fetch);
    if data.Err? {
      outcome, calls := ScanFailed(data.message), [];
    } else {
      calls := HandleEvents(h, w, data.value, now);
      outcome := Handled(data.value);
    }
  }

  /** One watcher call: the job flag guards it and is cleared at the end
      whatever happened. The checkpoint moves as the scan moved it. */
  method HandleUnprocessedUnwrapActions(h: Host, w: Watcher, head: int, limit: int, fetch: Fetch, now: string)
    returns (outcome: WatchOutcome, calls: seq<UnwrapCall>, writes: seq<int>)
    requires limit >= 1
    modifies h
    ensures IsSet(old(h.cache), JobKey(w)) <==> outcome.AlreadyRunning?
    ensures outcome.AlreadyRunning? ==> calls == [] && writes == [] && h.files == old(h.files) && h.cache == old(h.cache)
    ensures !outcome.AlreadyRunning? ==> h.cache == old(h.cache)[JobKey(w) := false]
    ensures writes == [] || writes[|writes| - 1] >= 0
    ensures outcome.ScanFailed? ==> calls == [] && h.files == AfterCheckpoint(old(h.files), WatcherCheckpoint(w), writes)
    ensures outcome.Handled? ==>
      h.files == Logged(AfterCheckpoint(old(h.files), WatcherCheckpoint(w), writes), w, outcome.events, now)
      && |calls| == |outcome.events| && forall i :: 0 <= i < |calls| ==> calls[i] == CallFor(w, outcome.events[i])
    ensures !outcome.AlreadyRunning? ==> ScanOutcome(old(h.files), WatcherCheckpoint(w), head, limit, fetch, outcome, writes)
    ensures h.lastBlockNumber == old(h.lastBlockNumber)
  {
    if IsSet(h.cache, JobKey(w)) {
      return AlreadyRunning, [], [];
    }
    h.cache := h.cache[JobKey(w) := true];
    outcome, calls, writes := Watch(h, w, head, limit, fetch, now);
    h.cache := h.cache[JobKey(w) := false];
  }
}

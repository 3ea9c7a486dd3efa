/** controller/helpers.js: log-line formatting, the queue shift, the
    dead-letter append, checkpoint files, and oracle-set membership. */
module Helpers {
  import opened Strings
  import opened Host

  // ---------------------------------------------------------------------
  // replaceNewLines
  // ---------------------------------------------------------------------

  /** `s.replace(/(?:\r\n|\r|\n)/g, replaceChar)`: every "\r\n", and every
      lone '\r' or '\n', becomes one copy of `replaceChar`. */
  function ReplaceNewLines(s: string, replaceChar: string := ", "): string
    decreases |s|
  {
    if s == [] then []
    else if |s| >= 2 && s[0] == '\r' && s[1] == '\n' then replaceChar + ReplaceNewLines(s[2..], replaceChar)
    else if s[0] == '\r' || s[0] == '\n' then replaceChar + ReplaceNewLines(s[1..], replaceChar)
    else [s[0]] + ReplaceNewLines(s[1..], replaceChar)
  }

  /** With a replacement free of line breaks, no line break survives. */
  lemma {:induction false} ReplaceNewLinesRemovesBreaks(s: string, replaceChar: string)
    requires NoLineBreak(replaceChar)
    ensures NoLineBreak(ReplaceNewLines(s, replaceChar))
    decreases |s|
  {
    if s == [] {
    } else if |s| >= 2 && s[0] == '\r' && s[1] == '\n' {
      ReplaceNewLinesRemovesBreaks(s[2..], replaceChar);
    } else {
      ReplaceNewLinesRemovesBreaks(s[1..], replaceChar);
    }
  }

  /** Text without line breaks is left as it is. */
  lemma {:induction false} ReplaceNewLinesKeepsPlainText(s: string, replaceChar: string)
    requires NoLineBreak(s)
    ensures ReplaceNewLines(s, replaceChar) == s
    decreases |s|
  {
    if s != [] {
      ReplaceNewLinesKeepsPlainText(s[1..], replaceChar);
      assert [s[0]] + s[1..] == s;
    }
  }

  /** A "\r\n" between two runs of text becomes a single `replaceChar`. */
  lemma {:induction false} ReplaceNewLinesCrlf(a: string, b: string, replaceChar: string)
    requires NoLineBreak(a)
    ensures ReplaceNewLines(a + CRLF + b, replaceChar) == a + replaceChar + ReplaceNewLines(b, replaceChar)
    decreases |a|
  {
    var s := a + CRLF + b;
    if a == [] {
      assert s == CRLF + b && s[2..] == b;
    } else {
      assert s[0] == a[0] && s[1..] == a[1..] + CRLF + b;
      ReplaceNewLinesCrlf(a[1..], b, replaceChar);
      assert [a[0]] + a[1..] == a;
    }
  }

  // ---------------------------------------------------------------------
  // addLogMessage
  // ---------------------------------------------------------------------

  /** A log message: a string, or an object whose members are listed in
      insertion order with each value already in JSON form. */
  datatype LogMessage = Plain(text: string) | Object(members: seq<(string, string)>)

  function Quote(s: string): string {
    "\"" + s + "\""
  }

  predicate HasKey(members: seq<(string, string)>, key: string) {
    exists i :: 0 <= i < |members| && members[i].0 == key
  }

  /** `message[key] = value`: an existing member keeps its place and gets the
      new value; a new key is added last. */
  function SetMember(members: seq<(string, string)>, key: string, value: string): seq<(string, string)>
  {
    if HasKey(members, key) then
      seq(|members|, i requires 0 <= i < |members| => if members[i].0 == key then (key, value) else members[i])
    else
      members + [(key, value)]
  }

  /** The member is present afterwards with the new value; every other
      member keeps its place and value. */
  lemma SetMemberPlaces(members: seq<(string, string)>, key: string, value: string)
    ensures var r := SetMember(members, key, value);
      (HasKey(members, key) ==> |r| == |members|)
      && (!HasKey(members, key) ==> |r| == |members| + 1 && r[|members|] == (key, value))
      && (forall i :: 0 <= i < |members| ==> r[i] == if members[i].0 == key then (key, value) else members[i])
      && HasKey(r, key)
  {
    var r := SetMember(members, key, value);
    if HasKey(members, key) {
      var j :| 0 <= j < |members| && members[j].0 == key;
      assert r[j].0 == key;
    } else {
      assert r[|members|].0 == key;
    }
  }

  function JoinMembers(members: seq<(string, string)>): string
  {
    if members == [] then ""
    else if |members| == 1 then Quote(members[0].0) + ":" + members[0].1
    else Quote(members[0].0) + ":" + members[0].1 + "," + JoinMembers(members[1..])
  }

  /** `JSON.stringify` of an object with the given members. */
  function StringifyObject(members: seq<(string, string)>): string {
    "{" + JoinMembers(members) + "}"
  }

  /** The member name the timestamp is stored under. */
  function TimestampKey(timestampTitle: string): (key: string)
    ensures timestampTitle != "" ==> key == timestampTitle
    ensures timestampTitle == "" ==> key == "timeStamp"
  {
    if |timestampTitle| > 0 then timestampTitle else "timeStamp"
  }

  /** The text `addLogMessage` appends for a message logged at time `now`. */
  function LogLine(message: LogMessage, timestampTitle: string, addTimestamp: bool, now: string): string
  {
    match message
    case Plain(text) =>
      (if addTimestamp then timestampTitle + now + " " else "") + text + CRLF
    case Object(members) =>
      StringifyObject(if addTimestamp then SetMember(members, TimestampKey(timestampTitle), Quote(now)) else members) + CRLF
  }

  /** A queue line appended without a timestamp keeps the queue's line structure. */
  lemma QueueAppend(lines: seq<string>, line: string, title: string, now: string)
    ensures QueueText(lines) + LogLine(Plain(line), title, false, now) == QueueText(lines + [line])
  {
    QueueTextSnoc(lines, line);
  }

  /** `addLogMessage`: appends one line to `filePath`; nothing else changes. */
  method AddLogMessage(h: Host, filePath: Path, message: LogMessage, now: string,
                       timestampTitle: string := "", addTimestamp: bool := true)
    modifies h
    ensures h.files == Appended(old(h.files), filePath, LogLine(message, timestampTitle, addTimestamp, now))
    ensures Content(old(h.files), filePath) <= h.files[filePath]
    ensures h.cache == old(h.cache) && h.lastBlockNumber == old(h.lastBlockNumber)
  {
    var line: string;
    match message {
      case Plain(text) =>
        line := (if addTimestamp then timestampTitle + now + " " else "") + text + CRLF;
      case Object(members) =>
        var stamped := members;
        if addTimestamp {
          stamped := SetMember(members, TimestampKey(timestampTitle), Quote(now));
        }
        line := StringifyObject(stamped) + CRLF;
    }
    assert line == LogLine(message, timestampTitle, addTimestamp, now);
    h.files := Appended(h.files, filePath, line);
  }

  // ---------------------------------------------------------------------
  // Queue shift: handleUpdatePendingWrapItemsQueue and the executors
  // ---------------------------------------------------------------------

  /** The queue after its head line is shifted off: either a next line to
      execute and the text to write back, or nothing left. */
  datatype Shift = Drained | Remaining(next: string, rewritten: string)

  /** `split('\r\n')`, `shift()`, then the test
      `csvContent.length > 0 && csvContent[0] !== ''`. */
  function ShiftQueue(content: string): Shift
  {
    var rest := SplitCrlf(content)[1..];
    if |rest| > 0 && rest[0] != "" then Remaining(rest[0], JoinCrlf(rest)) else Drained
  }

  /** The shift on any text: the queue is drained exactly when no non-empty
      piece follows the first; otherwise the next line is the second piece
      and the text written back is the input minus its first line and
      separator. */
  lemma ShiftQueueDropsFirstLine(content: string)
    ensures ShiftQueue(content).Drained? <==> (|SplitCrlf(content)| < 2 || SplitCrlf(content)[1] == "")
    ensures ShiftQueue(content).Remaining? ==>
      var parts := SplitCrlf(content);
      ShiftQueue(content).next == parts[1] && parts[0] + CRLF + ShiftQueue(content).rewritten == content
  {
    var parts := SplitCrlf(content);
    JoinSplit(content);
    if |parts| >= 2 {
      assert [parts[0]] + parts[1..] == parts;
    }
  }

  /** FIFO: on a queue file of well-formed lines, the shift removes exactly
      the oldest line; the next line to run is the second one, and the file
      written back holds every line after the first, in order. A queue of one
      line, or whose second line is empty, is drained. */
  lemma ShiftQueueText(lines: seq<string>)
    requires forall i :: 0 <= i < |lines| ==> NoLineBreak(lines[i])
    ensures |lines| >= 2 && lines[1] != "" ==> ShiftQueue(QueueText(lines)) == Remaining(lines[1], QueueText(lines[1..]))
    ensures !(|lines| >= 2 && lines[1] != "") ==> ShiftQueue(QueueText(lines)) == Drained
  {
    SplitQueueText(lines);
    var parts := lines + [""];
    if |lines| >= 1 {
      assert parts[1..] == lines[1..] + [""];
      JoinQueueLines(lines[1..]);
    }
  }

  /** The three ways `handleUpdatePendingWrapItemsQueue` ends. */
  datatype QueueUpdate = ReadFailed | ActionInvoked | QueueEmptied

  /** `handleUpdatePendingWrapItemsQueue`: shifts the head line off the queue
      file; if a non-empty line remains, rewrites the file and invokes the
      action (reported as ActionInvoked), otherwise empties the file and
      clears the job flag. A missing file makes the read throw. */
  method UpdatePendingWrapItemsQueue(h: Host, logFilePath: Path, jobIsRunningCacheKey: CacheKey)
    returns (r: QueueUpdate)
    modifies h
    ensures logFilePath !in old(h.files) ==> r == ReadFailed && h.files == old(h.files) && h.cache == old(h.cache)
    ensures logFilePath in old(h.files) ==>
      match ShiftQueue(old(h.files)[logFilePath])
      case Remaining(_, rewritten) =>
        r == ActionInvoked && h.files == old(h.files)[logFilePath := rewritten] && h.cache == old(h.cache)
      case Drained =>
        r == QueueEmptied && h.files == old(h.files)[logFilePath := ""]
        && h.cache == old(h.cache)[jobIsRunningCacheKey := false]
    ensures h.lastBlockNumber == old(h.lastBlockNumber)
  {
    if logFilePath !in h.files {
      return ReadFailed;
    }
    match ShiftQueue(h.files[logFilePath]) {
      case Remaining(_, rewritten) =>
        h.files := h.files[logFilePath := rewritten];
        r := ActionInvoked;
      case Drained =>
        h.files := h.files[logFilePath := ""];
        h.cache := h.cache[jobIsRunningCacheKey := false];
        r := QueueEmptied;
    }
  }

  // ---------------------------------------------------------------------
  // handleLogFailedWrapItem
  // ---------------------------------------------------------------------

  /** The dead-letter line `txId + ' ' + JSON.stringify(wrapData) + '\r\n'`. */
  function DeadLetterLine(txId: string, wrapJson: string): string {
    txId + " " + wrapJson + CRLF
  }

  /** `handleLogFailedWrapItem`: appends one dead-letter line, keeping what
      the file held before. */
  method LogFailedWrapItem(h: Host, txId: string, wrapJson: string, errorLogFilePath: Path)
    modifies h
    ensures h.files == Appended(old(h.files), errorLogFilePath, DeadLetterLine(txId, wrapJson))
    ensures h.files[errorLogFilePath] == Content(old(h.files), errorLogFilePath) + txId + " " + wrapJson + CRLF
    ensures h.cache == old(h.cache) && h.lastBlockNumber == old(h.lastBlockNumber)
  {
    h.files := Appended(h.files, errorLogFilePath, DeadLetterLine(txId, wrapJson));
  }

  // ---------------------------------------------------------------------
  // prepareLogFile
  // ---------------------------------------------------------------------

  /** The optional `fetchLastBlockNumber` argument; a fetcher returning a
      falsy value is represented by head 0. */
  datatype Fetcher = NoFetcher | Fetcher(head: nat)

  /** `lastBlockNumberInChain ? lastBlockNumberInChain.toString() : ''`. */
  function SeedText(fetcher: Fetcher): (s: string)
    ensures s == "" <==> (fetcher.NoFetcher? || fetcher.head == 0)
    ensures s != "" ==> ParseNumber(s) == Some(fetcher.head)
  {
    if fetcher.Fetcher? && fetcher.head != 0 then
      NumberRoundTrip(fetcher.head);
      NatToString(fetcher.head)
    else ""
  }

  /** `prepareLogFile`: an existing non-empty file is never touched; an
      existing empty file is seeded only when a fetcher is given; a missing
      file is always created, with the fetched head or with ''. */
  method PrepareLogFile(h: Host, filePath: Path, fetcher: Fetcher)
    modifies h
    ensures filePath in old(h.files) && old(h.files)[filePath] != "" ==> h.files == old(h.files)
    ensures filePath in old(h.files) && fetcher.NoFetcher? ==> h.files == old(h.files)
    ensures filePath in old(h.files) && old(h.files)[filePath] == "" && fetcher.Fetcher? ==>
      h.files == old(h.files)[filePath := SeedText(fetcher)]
    ensures filePath !in old(h.files) ==> h.files == old(h.files)[filePath := SeedText(fetcher)]
    ensures h.cache == old(h.cache) && h.lastBlockNumber == old(h.lastBlockNumber)
  {
    if filePath in h.files {
      if fetcher.Fetcher? {
        var lastProcessedBlockNumber := h.files[filePath];
        if lastProcessedBlockNumber == "" {
          h.files := h.files[filePath := SeedText(fetcher)];
        }
      }
    } else {
      h.files := h.files[filePath := SeedText(fetcher)];
    }
  }

  // ---------------------------------------------------------------------
  // updateBlockNumber* / getLastProceeded*
  // ---------------------------------------------------------------------

  /** The four checkpoints: FIO wrap discovery and the three unwrap watchers. */
  datatype Checkpoint = FioWrap | EthTokensUnwrap | EthDomainUnwrap | PolygonDomainUnwrap

  function CheckpointPath(c: Checkpoint): Path {
    match c
    case FioWrap => BlockNumberFio
    case EthTokensUnwrap => BlockNumberUnwrapTokensEth
    case EthDomainUnwrap => BlockNumberUnwrapDomainEth
    case PolygonDomainUnwrap => BlockNumberUnwrapDomainPolygon
  }

  lemma CheckpointPathsDistinct(c: Checkpoint, d: Checkpoint)
    ensures CheckpointPath(c) == CheckpointPath(d) <==> c == d
  {
  }

  /** `updateBlockNumberFIO` and its three siblings: overwrite the checkpoint file. */
  method UpdateBlockNumber(h: Host, c: Checkpoint, blockNumber: string)
    modifies h
    ensures h.files == old(h.files)[CheckpointPath(c) := blockNumber]
    ensures h.cache == old(h.cache) && h.lastBlockNumber == old(h.lastBlockNumber)
  {
    h.files := h.files[CheckpointPath(c) := blockNumber];
  }

  /** `getLastProceededBlockNumberOnFioChain` and its siblings: read the file
      (throws when missing) and `parseFloat` it (None for NaN). */
  method GetLastProceededBlockNumber(h: Host, c: Checkpoint) returns (r: Result<Option<nat>>)
    ensures CheckpointPath(c) !in h.files <==> r.Err?
    ensures CheckpointPath(c) !in h.files ==> r == Err("ENOENT")
    ensures CheckpointPath(c) in h.files ==> r == Ok(ParseNumber(h.files[CheckpointPath(c)]))
  {
    var p := CheckpointPath(c);
    if p !in h.files {
      return Err("ENOENT");
    }
    r := Ok(ParseNumber(h.files[p]));
  }

  /** Writing `n.toString()` and reading the same checkpoint back gives n,
      and no other checkpoint moves. */
  method CheckpointRoundTrip(h: Host, c: Checkpoint, n: nat) returns (r: Result<Option<nat>>)
    modifies h
    ensures r == Ok(Some(n))
    ensures forall d :: d != c ==> Content(h.files, CheckpointPath(d)) == Content(old(h.files), CheckpointPath(d))
  {
    UpdateBlockNumber(h, c, NatToString(n));
    NumberRoundTrip(n);
    r := GetLastProceededBlockNumber(h, c);
  }

  // ---------------------------------------------------------------------
  // isOracleEthAddressValid / isOraclePolygonAddressValid
  // ---------------------------------------------------------------------

  function LowerAll(keys: seq<string>): (r: seq<string>)
    ensures |r| == |keys| && forall i :: 0 <= i < |keys| ==> r[i] == ToLower(keys[i])
  {
    seq(|keys|, i requires 0 <= i < |keys| => ToLower(keys[i]))
  }

  /** `registered.map(k => k.toLowerCase()).includes(oraclePublic.toLowerCase())`. */
  function IsOracleAddressValid(registered: seq<string>, oraclePublic: string): (r: bool)
    ensures r <==> exists i :: 0 <= i < |registered| && ToLower(registered[i]) == ToLower(oraclePublic)
  {
    var lowered := LowerAll(registered);
    assert forall i :: 0 <= i < |registered| ==> lowered[i] == ToLower(registered[i]);
    ToLower(oraclePublic) in lowered
  }

  /** The answer does not depend on the letter case of the oracle's key. */
  lemma OracleValidityIgnoresCase(registered: seq<string>, a: string, b: string)
    requires ToLower(a) == ToLower(b)
    ensures IsOracleAddressValid(registered, a) == IsOracleAddressValid(registered, b)
  {
  }

  /** The executors' own test, `registered.includes(key)` (eth.js:82), is
      stricter: exact membership implies the case-insensitive one, but a key
      registered in other letter case passes only the latter. */
  lemma ExactMembershipIsStricter(registered: seq<string>, key: string)
    ensures key in registered ==> IsOracleAddressValid(registered, key)
  {
    if key in registered {
      var i :| 0 <= i < |registered| && registered[i] == key;
      assert ToLower(registered[i]) == ToLower(key);
    }
  }

  /** A key registered as "0xAB" is accepted by the helper for "0xab" but
      not by the exact test. */
  lemma CaseMismatchExample()
    ensures IsOracleAddressValid(["0xAB"], "0xab") && "0xab" !in ["0xAB"]
  {
    var up, low := "0xAB", "0xab";
    assert LowerChar('A') == 'a' && LowerChar('B') == 'b';
    assert ToLower(up) == low by {
      assert ToLower(up)[0] == '0' && ToLower(up)[1] == 'x' && ToLower(up)[2] == 'a' && ToLower(up)[3] == 'b';
    }
    assert ToLower(low) == low by {
      assert ToLower(low)[0] == '0' && ToLower(low)[1] == 'x' && ToLower(low)[2] == 'a' && ToLower(low)[3] == 'b';
    }
    assert ToLower(["0xAB"][0]) == ToLower(low);
    assert up != low by { assert up[2] != low[2]; }
  }

  // ---------------------------------------------------------------------
  // checkHttpResponseStatus
  // ---------------------------------------------------------------------

  datatype HttpResponse = HttpResponse(status: int, body: string) {
    /** `response.ok`. */
    predicate Ok() { 200 <= status < 300 }
  }

  /** `checkHttpResponseStatus`: passes a 2xx response through, otherwise
      throws with the response body as the message. */
  function CheckHttpResponseStatus(response: HttpResponse): (r: Result<HttpResponse>)
    ensures 200 <= response.status < 300 <==> r == Ok(response)
    ensures !(200 <= response.status < 300) <==> r == Err(response.body)
  {
    if response.Ok() then Ok(response) else Err(response.body)
  }
}

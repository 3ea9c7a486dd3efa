/** controller/util.js: FIO chain head, the history API wrapper, and the
    offset-shrinking window that finds the actions above a checkpoint. */
module Util {
  import opened Strings
  import opened Host
  import opened Helpers

  /** The `act.data` object of a FIO wrap action: the members the relay
      reads, and `json`, the text `JSON.stringify` gives for the object. */
  datatype WrapData = WrapData(chainCode: string, publicAddress: string, amount: int, fioDomain: string, json: string)

  /** One item of the history API's `actions` array: its `block_num`, its
      `action_trace.trx_id`, `act.name` and `act.data`, and `json`, the text
      `JSON.stringify` gives for the whole item. */
  datatype FioAction = FioAction(blockNum: nat, trxId: string, name: string, data: WrapData, json: string)

  /** What one `get_actions` request returns: the HTTP response and the
      `actions` array of its JSON body. */
  datatype HistoryReply = HistoryReply(response: HttpResponse, actions: seq<FioAction>)

  /** `getFioChainInfo`: the response is checked first; then
      `last_irreversible_block_num` when truthy (present and non-zero),
      else 0. */
  function GetFioChainInfo(response: HttpResponse, lastIrreversibleBlockNum: Option<int>): (r: Result<int>)
    ensures !response.Ok() ==> r == Err(response.body)
    ensures response.Ok() && lastIrreversibleBlockNum.Some? && lastIrreversibleBlockNum.value != 0
      ==> r == Ok(lastIrreversibleBlockNum.value)
    ensures response.Ok() && (lastIrreversibleBlockNum.None? || lastIrreversibleBlockNum.value == 0)
      ==> r == Ok(0)
  {
    match CheckHttpResponseStatus(response)
    case Err(m) => Err(m)
    case Ok(_) =>
      var lastBlockNum := if lastIrreversibleBlockNum.Some? && lastIrreversibleBlockNum.value != 0
        then lastIrreversibleBlockNum.value else 0;
      Ok(lastBlockNum)
  }

  /** `getActions`: checks the response, then copies the `actions` array
      element by element. */
  method GetActions(reply: HistoryReply) returns (r: Result<seq<FioAction>>)
    ensures !reply.response.Ok() ==> r == Err(reply.response.body)
    ensures reply.response.Ok() ==> r == Ok(reply.actions)
  {
    var checked := CheckHttpResponseStatus(reply.response);
    if checked.Err? {
      return Err(checked.message);
    }
    var result: seq<FioAction> := [];
    var i := 0;
    while i < |reply.actions|
      invariant 0 <= i <= |reply.actions|
      invariant result == reply.actions[..i]
    {
      result := result + [reply.actions[i]];
      i := i + 1;
    }
    assert reply.actions[..i] == reply.actions;
    r := Ok(result);
  }

  /** `x > lastNumber` where lastNumber may be NaN or undefined (None): every
      such comparison is false. */
  predicate Above(blockNum: int, lastNumber: Option<int>) {
    lastNumber.Some? && blockNum > lastNumber.value
  }

  /** `data.filter(elem => elem.block_num > lastNumber)`. */
  function AboveCheckpoint(data: seq<FioAction>, lastNumber: Option<int>): seq<FioAction>
  {
    if data == [] then []
    else if Above(data[0].blockNum, lastNumber) then [data[0]] + AboveCheckpoint(data[1..], lastNumber)
    else AboveCheckpoint(data[1..], lastNumber)
  }

  /** The filter keeps exactly the items above the checkpoint, in their
      original order: every kept item is above it, it is a subsequence
      of the input, and it drops only items at or below the checkpoint. */
  lemma {:induction false} AboveCheckpointExact(data: seq<FioAction>, lastNumber: Option<int>)
    ensures forall x :: x in AboveCheckpoint(data, lastNumber) ==> x in data && Above(x.blockNum, lastNumber)
    ensures forall x :: x in data && Above(x.blockNum, lastNumber) ==> x in AboveCheckpoint(data, lastNumber)
    ensures |AboveCheckpoint(data, lastNumber)| <= |data|
    ensures (forall i :: 0 <= i < |data| ==> Above(data[i].blockNum, lastNumber)) ==> AboveCheckpoint(data, lastNumber) == data
    ensures lastNumber.None? ==> AboveCheckpoint(data, lastNumber) == []
    decreases |data|
  {
    if data != [] {
      AboveCheckpointExact(data[1..], lastNumber);
      assert forall x :: x in data ==> x == data[0] || x in data[1..];
      if forall i :: 0 <= i < |data| ==> Above(data[i].blockNum, lastNumber) {
        assert forall i :: 0 <= i < |data[1..]| ==> Above(data[1..][i].blockNum, lastNumber) by {
          forall i | 0 <= i < |data[1..]| ensures Above(data[1..][i].blockNum, lastNumber) {
            assert data[1..][i] == data[i + 1];
          }
        }
        assert [data[0]] + data[1..] == data;
      }
    }
  }

  /** Filtering distributes over concatenation (items arrive in order). */
  lemma {:induction false} AboveCheckpointAppend(a: seq<FioAction>, b: seq<FioAction>, lastNumber: Option<int>)
    ensures AboveCheckpoint(a + b, lastNumber) == AboveCheckpoint(a, lastNumber) + AboveCheckpoint(b, lastNumber)
    decreases |a|
  {
    if a == [] {
      assert a + b == b;
    } else {
      assert (a + b)[1..] == a[1..] + b;
      AboveCheckpointAppend(a[1..], b, lastNumber);
    }
  }

  /** The loop test `data.length > 0 && data[0].block_num > lastNumber`: the
      window still starts above the checkpoint, so it is widened. */
  predicate StartsAbove(data: seq<FioAction>, lastNumber: Option<int>) {
    |data| > 0 && Above(data[0].blockNum, lastNumber)
  }

  /** The offset after `retries` shrinks of 10. */
  function OffsetAfter(offset0: int, retries: nat): int {
    offset0 - 10 * retries
  }

  /** How the windowing loop ended. OutOfFuel stands for a loop that has not
      returned yet: the source bounds it by nothing. */
  datatype Window = Found(data: seq<FioAction>) | Failed(message: string) | OutOfFuel

  /** The replies of the history API, keyed by the offset asked for. The
      account name ("fio.oracle") and `pos` (-1) are the same in every
      request the relay makes, so only the offset varies. */
  type History = int -> HistoryReply

  /** The first `retries` windows were all fetched and all started above the
      checkpoint, so each of them was widened. */
  ghost predicate Widened(history: History, offset0: int, retries: nat, lastNumber: Option<int>) {
    forall j: nat :: j < retries ==>
      history(OffsetAfter(offset0, j)).response.Ok()
      && StartsAbove(history(OffsetAfter(offset0, j)).actions, lastNumber)
  }

  /** The search stops with a window after `k` retries: the earlier windows
      were widened and the one at the k-th offset does not start above the
      checkpoint. */
  ghost predicate FoundAt(history: History, offset0: int, k: nat, lastNumber: Option<int>) {
    Widened(history, offset0, k, lastNumber)
    && history(OffsetAfter(offset0, k)).response.Ok()
    && !StartsAbove(history(OffsetAfter(offset0, k)).actions, lastNumber)
  }

  /** The search stops with an error after `k` retries: the earlier windows
      were widened and the k-th request failed. */
  ghost predicate FailedAt(history: History, offset0: int, k: nat, lastNumber: Option<int>) {
    Widened(history, offset0, k, lastNumber)
    && !history(OffsetAfter(offset0, k)).response.Ok()
  }

  /** The search would still widen after `fuel` retries. */
  ghost predicate Exhausted(history: History, offset0: int, fuel: nat, lastNumber: Option<int>) {
    Widened(history, offset0, fuel + 1, lastNumber)
  }

  /** A search stops at most once: the retry count at which it finds a
      window or fails is unique, and an exhausted search stops at none of
      the counts up to its bound. So each outcome of the contracts below
      determines the result. */
  lemma {:induction false} WindowDetermined(history: History, offset0: int, lastNumber: Option<int>, k1: nat, k2: nat, fuel: nat)
    ensures FoundAt(history, offset0, k1, lastNumber) && FoundAt(history, offset0, k2, lastNumber) ==> k1 == k2
    ensures FailedAt(history, offset0, k1, lastNumber) && FailedAt(history, offset0, k2, lastNumber) ==> k1 == k2
    ensures !(FoundAt(history, offset0, k1, lastNumber) && FailedAt(history, offset0, k2, lastNumber))
    ensures k1 <= fuel && Exhausted(history, offset0, fuel, lastNumber) ==>
      !FoundAt(history, offset0, k1, lastNumber) && !FailedAt(history, offset0, k1, lastNumber)
  {
    if k1 < k2 && Widened(history, offset0, k2, lastNumber) {
      WidenedAt(history, offset0, lastNumber, k2, k1);
    }
    if k2 < k1 && Widened(history, offset0, k1, lastNumber) {
      WidenedAt(history, offset0, lastNumber, k1, k2);
    }
    if k1 <= fuel && Exhausted(history, offset0, fuel, lastNumber) {
      WidenedAt(history, offset0, lastNumber, fuel + 1, k1);
    }
  }

  lemma WidenedAt(history: History, offset0: int, lastNumber: Option<int>, n: nat, j: nat)
    requires Widened(history, offset0, n, lastNumber) && j < n
    ensures history(OffsetAfter(offset0, j)).response.Ok()
    ensures StartsAbove(history(OffsetAfter(offset0, j)).actions, lastNumber)
  {
  }

  /** The windowing loop of `getUnprocessedActionsOnFioChain` and
      `getLatestWrapDomainAction`: fetch with `offset`; while the window is
      non-empty and its first item is above the checkpoint, lower the
      offset by 10 and fetch again. `fuel` bounds the number of retries.
      Returns the final window (unfiltered) and the final offset. */
  method FindWindow(lastNumber: Option<int>, offset0: int, history: History, fuel: nat)
    returns (w: Window, offset: int)
    ensures exists retries: nat ::
      (retries <= fuel && offset == OffsetAfter(offset0, retries) && Widened(history, offset0, retries, lastNumber))
    ensures w.Found? ==>
      (history(offset).response.Ok() && w.data == history(offset).actions && !StartsAbove(w.data, lastNumber))
    ensures w.Failed? ==> !history(offset).response.Ok() && w.message == history(offset).response.body
    ensures w.OutOfFuel? ==>
      (offset == OffsetAfter(offset0, fuel) && history(offset).response.Ok()
       && StartsAbove(history(offset).actions, lastNumber))
  {
    offset := offset0;
    var retries: nat := 0;
    var data := GetActions(history(offset));
    while data.Ok? && StartsAbove(data.value, lastNumber) && retries < fuel
      invariant retries <= fuel && offset == OffsetAfter(offset0, retries)
      invariant Widened(history, offset0, retries, lastNumber)
      invariant !history(offset).response.Ok() ==> data == Err(history(offset).response.body)
      invariant history(offset).response.Ok() ==> data == Ok(history(offset).actions)
    {
      offset := offset - 10;
      retries := retries + 1;
      data := GetActions(history(offset));
    }
    if data.Err? {
      w := Failed(data.message);
    } else if StartsAbove(data.value, lastNumber) {
      w := OutOfFuel;
    } else {
      w := Found(data.value);
    }
  }

  /** What FindWindow's final offset says about the search as a whole: a
      found window is the one at the retry count where the search stopped,
      a failure is that count's failed reply, and running out of fuel means
      the search would still widen. */
  lemma WindowOutcome(lastNumber: Option<int>, offset0: int, history: History, fuel: nat, w: Window, offset: int, retries: nat)
    requires retries <= fuel && offset == OffsetAfter(offset0, retries) && Widened(history, offset0, retries, lastNumber)
    requires w.Found? ==>
      (history(offset).response.Ok() && w.data == history(offset).actions && !StartsAbove(w.data, lastNumber))
    requires w.Failed? ==> !history(offset).response.Ok() && w.message == history(offset).response.body
    requires w.OutOfFuel? ==>
      (offset == OffsetAfter(offset0, fuel) && history(offset).response.Ok()
       && StartsAbove(history(offset).actions, lastNumber))
    ensures w.Found? ==> FoundAt(history, offset0, retries, lastNumber) && w.data == history(OffsetAfter(offset0, retries)).actions
    ensures w.Failed? ==>
      FailedAt(history, offset0, retries, lastNumber) && w.message == history(OffsetAfter(offset0, retries)).response.body
    ensures w.OutOfFuel? ==> Exhausted(history, offset0, fuel, lastNumber)
  {
    if w.OutOfFuel? {
      assert retries == fuel;
      forall j: nat | j < fuel + 1
        ensures history(OffsetAfter(offset0, j)).response.Ok()
          && StartsAbove(history(OffsetAfter(offset0, j)).actions, lastNumber)
      {
        if j < fuel {
          WidenedAt(history, offset0, lastNumber, fuel, j);
        }
      }
    }
  }

  /** The search outcome the history replies determine is the only one
      possible: a found window rules out a failure at any retry count and
      an exhausted search, a failure rules out the other two, and so does
      an exhausted search. */
  lemma OutcomesExclusive(history: History, offset0: int, fuel: nat, cp: Option<int>, w: Window)
    requires w.Found? ==> exists k: nat :: k <= fuel && FoundAt(history, offset0, k, cp)
    requires w.Failed? ==> exists k: nat :: k <= fuel && FailedAt(history, offset0, k, cp)
    requires w.OutOfFuel? ==> Exhausted(history, offset0, fuel, cp)
    ensures w.OutOfFuel? <==> Exhausted(history, offset0, fuel, cp)
    ensures w.Failed? <==> exists k: nat :: k <= fuel && FailedAt(history, offset0, k, cp)
    ensures w.Found? <==> exists k: nat :: k <= fuel && FoundAt(history, offset0, k, cp)
  {
    match w {
      case OutOfFuel =>
        forall k: nat | k <= fuel
          ensures !FoundAt(history, offset0, k, cp) && !FailedAt(history, offset0, k, cp)
        {
          WindowDetermined(history, offset0, cp, k, k, fuel);
        }
      case Failed(_) =>
        var k0: nat :| k0 <= fuel && FailedAt(history, offset0, k0, cp);
        WindowDetermined(history, offset0, cp, k0, k0, fuel);
        forall k: nat | k <= fuel ensures !FoundAt(history, offset0, k, cp) {
          WindowDetermined(history, offset0, cp, k, k0, fuel);
        }
      case Found(_) =>
        var k0: nat :| k0 <= fuel && FoundAt(history, offset0, k0, cp);
        WindowDetermined(history, offset0, cp, k0, k0, fuel);
        forall k: nat | k <= fuel ensures !FailedAt(history, offset0, k, cp) {
          WindowDetermined(history, offset0, cp, k0, k, fuel);
        }
    }
  }

  /** `getUnprocessedActionsOnFioChain`: read the FIO checkpoint (a missing
      file throws), find the window, and keep the items strictly above the
      checkpoint, in order. */
  method GetUnprocessedActionsOnFioChain(h: Host, history: History, pollOffset: int, fuel: nat)
    returns (r: Window)
    ensures BlockNumberFio !in h.files ==> r == Failed("ENOENT")
    ensures BlockNumberFio in h.files ==>
      var cp := ParseNumber(h.files[BlockNumberFio]);
      && (r.Found? ==>
            exists k: nat :: k <= fuel && FoundAt(history, pollOffset, k, cp)
              && r.data == AboveCheckpoint(history(OffsetAfter(pollOffset, k)).actions, cp))
      && (r.Failed? ==>
            exists k: nat :: k <= fuel && FailedAt(history, pollOffset, k, cp)
              && r.message == history(OffsetAfter(pollOffset, k)).response.body)
      && (r.OutOfFuel? ==> Exhausted(history, pollOffset, fuel, cp))
    ensures r.Found? ==> BlockNumberFio in h.files
    ensures r.Found? ==> forall x :: x in r.data ==> Above(x.blockNum, ParseNumber(h.files[BlockNumberFio]))
  {
    var checkpoint := GetLastProceededBlockNumber(h, FioWrap);
    if checkpoint.Err? {
      return Failed(checkpoint.message);
    }
    var lastNumber := checkpoint.value;
    var w, offset := FindWindow(lastNumber, pollOffset, history, fuel);
    ghost var retries: nat :| retries <= fuel && offset == OffsetAfter(pollOffset, retries)
      && Widened(history, pollOffset, retries, lastNumber);
    WindowOutcome(lastNumber, pollOffset, history, fuel, w, offset, retries);
    if w.Found? {
      AboveCheckpointExact(w.data, lastNumber);
      r := Found(AboveCheckpoint(w.data, lastNumber));
    } else {
      r := w;
    }
  }

  /** `getLatestWrapDomainAction`: the same window, but checked against the
      cached `lastBlockNumber`; the items above it are collected by a loop
      that moves the cached number to the last collected item. */
  method GetLatestWrapDomainAction(h: Host, history: History, pollOffset: int, fuel: nat)
    returns (r: Window)
    modifies h`lastBlockNumber
    ensures r.Found? ==>
      exists k: nat :: k <= fuel && FoundAt(history, pollOffset, k, old(h.lastBlockNumber))
        && r.data == AboveCheckpoint(history(OffsetAfter(pollOffset, k)).actions, old(h.lastBlockNumber))
    ensures r.Failed? ==>
      exists k: nat :: k <= fuel && FailedAt(history, pollOffset, k, old(h.lastBlockNumber))
        && r.message == history(OffsetAfter(pollOffset, k)).response.body
    ensures r.OutOfFuel? ==> Exhausted(history, pollOffset, fuel, old(h.lastBlockNumber))
    ensures !r.Found? ==> h.lastBlockNumber == old(h.lastBlockNumber)
    ensures r.Found? && |r.data| > 0 ==> h.lastBlockNumber == Some(r.data[|r.data| - 1].blockNum)
    ensures r.Found? && |r.data| == 0 ==> h.lastBlockNumber == old(h.lastBlockNumber)
  {
    var lastNumber := h.lastBlockNumber;
    var w, offset := FindWindow(lastNumber, pollOffset, history, fuel);
    ghost var retries: nat :| retries <= fuel && offset == OffsetAfter(pollOffset, retries)
      && Widened(history, pollOffset, retries, lastNumber);
    WindowOutcome(lastNumber, pollOffset, history, fuel, w, offset, retries);
    if !w.Found? {
      return w;
    }
    var data := w.data;
    var realData: seq<FioAction> := [];
    var i := 0;
    while i < |data|
      invariant 0 <= i <= |data|
      invariant realData == AboveCheckpoint(data[..i], lastNumber)
      invariant |realData| > 0 ==> h.lastBlockNumber == Some(realData[|realData| - 1].blockNum)
      invariant |realData| == 0 ==> h.lastBlockNumber == lastNumber
    {
      AboveCheckpointAppend(data[..i], [data[i]], lastNumber);
      assert data[..i + 1] == data[..i] + [data[i]];
      if Above(data[i].blockNum, lastNumber) {
        realData := realData + [data[i]];
      }
      var len := |realData|;
      if len > 0 {
        h.lastBlockNumber := Some(realData[len - 1].blockNum);
      }
      i := i + 1;
    }
    assert data[..i] == data;
    r := Found(realData);
  }
}

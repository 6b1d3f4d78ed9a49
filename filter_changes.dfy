/** The `eth_getFilterChanges` handler: polls a filter for what changed since
    its last poll. A block filter answers the hashes of the blocks mined since
    its cursor and advances the cursor; a log filter searches the new block
    range for matching logs and leaves the cursor where it was.

    The node is an abstract value: its block count and a height-to-hash query,
    each with its error answer, the log search with its error answer, and the
    receipt-to-log extraction. */
module FilterChanges {
  import opened Rpc

  datatype FilterType =
    | NewFilterTy
    | NewBlockFilterTy
    | NewPendingTransactionFilterTy
    | UnknownFilterTy

  /** One position of a log search's topic criteria, already preprocessed by
      whoever created the filter. */
  datatype SearchLogsTopic = SearchLogsTopic(hashes: seq<string>)

  /** A value held in a filter's key-value store. The store is untyped in the
      source, so a key may hold a value of the wrong kind. */
  datatype StoreValue =
    | Cursor(blockNumber: nat)
    | TopicList(topics: seq<SearchLogsTopic>)

  const LAST_BLOCK_KEY := "lastBlockNumber"
  const TOPICS_KEY := "topics"

  const MISSING_CURSOR_MESSAGE := "Could not get lastBlockNumber"
  const UNKNOWN_FILTER_TYPE_MESSAGE := "Unknown filter type"
  const CONVERSION_PANIC_MESSAGE := "interface conversion"

  /** A filter's `Data` store: loaded from and stored into by key. */
  class FilterStore {
    var entries: map<string, StoreValue>

    constructor (initial: map<string, StoreValue>)
      ensures entries == initial
    {
      entries := initial;
    }

    function Load(key: string): (v: Option<StoreValue>)
      reads this
      ensures v.Some? <==> key in entries
      ensures v.Some? ==> v.value == entries[key]
    {
      if key in entries then Some(entries[key]) else None
    }

    method Store(key: string, value: StoreValue)
      modifies this
      ensures entries == old(entries)[key := value]
    {
      entries := entries[key := value];
    }
  }

  /** The stored address criteria of a log filter, as the JSON it was given
      in decodes: absent, one string, an array of strings, or neither. */
  datatype AddressParam =
    | NoAddress
    | SingleAddress(address: string)
    | AddressList(addresses: seq<string>)
    | MalformedAddress(message: string)

  datatype NewFilterRequest = NewFilterRequest(address: AddressParam)

  datatype Filter = Filter(kind: FilterType, request: NewFilterRequest, data: FilterStore)

  datatype QtumLog = QtumLog(address: string, topics: seq<string>, data: string)

  datatype Receipt = Receipt(blockNumber: nat, transactionHash: string, log: seq<QtumLog>)

  datatype EthLog = EthLog(
    address: string, topics: seq<string>, data: string,
    blockNumber: nat, transactionHash: string, logIndex: nat)

  /** One element of a filter-changes answer: a block hash or a log. */
  datatype Change = BlockHash(hash: string) | Log(log: EthLog)

  datatype SearchLogsRequest = SearchLogsRequest(
    addresses: seq<string>, fromBlock: nat, toBlock: nat, topics: seq<SearchLogsTopic>)

  /** What the node answers during one request. */
  datatype Node = Node(
    blockCount: Result<nat, string>,
    blockHash: nat -> Result<string, string>,
    searchLogs: SearchLogsRequest -> Result<seq<Receipt>, RpcError>,
    extractLogs: Receipt -> seq<EthLog>)

  /** A handler's answer: the result list and the error, if any. */
  datatype Reply = Reply(result: seq<Change>, error: Option<RpcError>)

  /** A block-filter poll: the answer and the filter's store afterwards. */
  datatype Poll = Poll(reply: Reply, entries: map<string, StoreValue>)

  function Failed(e: RpcError): Reply
  {
    Reply([], Some(e))
  }

  /** Reading the cursor: missing is a callback error, a value of the wrong
      kind makes the type assertion panic. */
  function LoadCursor(entries: map<string, StoreValue>): (r: Result<nat, RpcError>)
    ensures LAST_BLOCK_KEY !in entries ==> r == Err(CallbackError(MISSING_CURSOR_MESSAGE))
    ensures LAST_BLOCK_KEY in entries && !entries[LAST_BLOCK_KEY].Cursor? ==> r == Err(Panic(CONVERSION_PANIC_MESSAGE))
    ensures r.Ok? <==> LAST_BLOCK_KEY in entries && entries[LAST_BLOCK_KEY].Cursor?
    ensures r.Ok? ==> entries[LAST_BLOCK_KEY] == Cursor(r.value)
  {
    if LAST_BLOCK_KEY !in entries then Err(CallbackError(MISSING_CURSOR_MESSAGE))
    else match entries[LAST_BLOCK_KEY]
      case Cursor(n) => Ok(n)
      case TopicList(_) => Err(Panic(CONVERSION_PANIC_MESSAGE))
  }

  /** The source computes `blockCount - lastBlockNumber` on unsigned 64-bit
      integers; the model demands that the cursor is not ahead of the node. */
  predicate CursorNotAhead(node: Node, entries: map<string, StoreValue>)
  {
    LoadCursor(entries).Ok? && node.blockCount.Ok? ==>
      LoadCursor(entries).value <= node.blockCount.value
  }

  // ---------------------------------------------------------------------------
  // Block filters
  // ---------------------------------------------------------------------------

  /** The hex-prefixed hashes of heights last+1 .. last+n, in ascending order;
      the first failing height query ends the collection with its error. */
  function CollectHashes(hashAt: nat -> Result<string, string>, last: nat, n: nat): (r: Result<seq<Change>, string>)
    ensures r.Ok? <==> forall h :: last < h <= last + n ==> hashAt(h).Ok?
    ensures r.Ok? ==> |r.value| == n
    ensures r.Ok? ==> forall i :: 0 <= i < n ==>
      hashAt(last + i + 1).Ok? && r.value[i] == BlockHash(AddHexPrefix(hashAt(last + i + 1).value))
    ensures r.Err? ==>
      exists h :: last < h <= last + n && hashAt(h) == Err(r.error) && (forall g :: last < g < h ==> hashAt(g).Ok?)
    decreases n
  {
    if n == 0 then Ok([])
    else match CollectHashes(hashAt, last, n - 1)
      case Err(e) => Err(e)
      case Ok(hashes) =>
        match hashAt(last + n)
        case Err(e) => Err(e)
        case Ok(hash) => Ok(hashes + [BlockHash(AddHexPrefix(hash))])
  }

  /** Once the first `i` heights succeed and height last+i+1 fails, the whole
      collection fails with that height's error. */
  lemma CollectHashesFailsAt(hashAt: nat -> Result<string, string>, last: nat, i: nat, n: nat)
    requires i < n
    requires CollectHashes(hashAt, last, i).Ok?
    requires hashAt(last + i + 1).Err?
    ensures CollectHashes(hashAt, last, n) == Err(hashAt(last + i + 1).error)
  {
  }

  /** The specification of `requestBlockFilter`. */
  function BlockFilterPoll(node: Node, entries: map<string, StoreValue>): (p: Poll)
    requires CursorNotAhead(node, entries)
    ensures p.reply.error.Some? ==> p.reply.result == [] && p.entries == entries
    ensures LoadCursor(entries).Err? ==> p.reply == Failed(LoadCursor(entries).error)
    ensures LoadCursor(entries).Ok? && node.blockCount.Err? ==>
      p.reply == Failed(CallbackError(node.blockCount.error))
    ensures LoadCursor(entries).Ok? && node.blockCount.Ok? ==>
      (p.reply.error.None? <==>
        forall h :: LoadCursor(entries).value < h <= node.blockCount.value ==> node.blockHash(h).Ok?)
    ensures LoadCursor(entries).Ok? && node.blockCount.Ok? && p.reply.error.Some? ==>
      exists h :: LoadCursor(entries).value < h <= node.blockCount.value && node.blockHash(h).Err? &&
        p.reply == Failed(CallbackError(node.blockHash(h).error)) &&
        forall g :: LoadCursor(entries).value < g < h ==> node.blockHash(g).Ok?
    ensures p.reply.error.None? ==>
      && LoadCursor(entries).Ok? && node.blockCount.Ok?
      && var last, count := LoadCursor(entries).value, node.blockCount.value;
      && |p.reply.result| == count - last
      && (forall i :: 0 <= i < count - last ==>
            node.blockHash(last + i + 1).Ok? &&
            p.reply.result[i] == BlockHash(AddHexPrefix(node.blockHash(last + i + 1).value)))
      && p.entries == entries[LAST_BLOCK_KEY := Cursor(count)]
  {
    match LoadCursor(entries)
    case Err(e) => Poll(Failed(e), entries)
    case Ok(last) =>
      match node.blockCount
      case Err(m) => Poll(Failed(CallbackError(m)), entries)
      case Ok(count) =>
        match CollectHashes(node.blockHash, last, count - last)
        case Err(m) => Poll(Failed(CallbackError(m)), entries)
        case Ok(hashes) => Poll(Reply(hashes, None), entries[LAST_BLOCK_KEY := Cursor(count)])
  }

  /** The loop of `requestBlockFilter`: fills a preallocated array with the
      hashes of heights last+1 .. last+n, returning on the first failing query. */
  method FillHashes(node: Node, last: nat, n: nat) returns (r: Result<seq<Change>, string>)
    ensures r == CollectHashes(node.blockHash, last, n)
  {
    var hashes := new Change[n];
    var i := 0;
    while i < n
      invariant 0 <= i <= n
      invariant CollectHashes(node.blockHash, last, i) == Ok(hashes[..i])
    {
      var resp := node.blockHash(last + i + 1);
      if resp.Err? {
        CollectHashesFailsAt(node.blockHash, last, i, n);
        return Err(resp.error);
      }
      hashes[i] := BlockHash(AddHexPrefix(resp.value));
      assert hashes[..i + 1] == hashes[..i] + [hashes[i]];
      i := i + 1;
    }
    assert hashes[..] == hashes[..n];
    r := Ok(hashes[..]);
  }

  /** `requestBlockFilter`: collects the new hashes, then stores the block
      count as the new cursor. */
  method RequestBlockFilter(node: Node, filter: Filter) returns (reply: Reply)
    requires CursorNotAhead(node, filter.data.entries)
    modifies filter.data
    ensures Poll(reply, filter.data.entries) == BlockFilterPoll(node, old(filter.data.entries))
  {
    var loaded := filter.data.Load(LAST_BLOCK_KEY);
    if loaded.None? {
      return Failed(CallbackError(MISSING_CURSOR_MESSAGE));
    }
    if !loaded.value.Cursor? {
      return Failed(Panic(CONVERSION_PANIC_MESSAGE));
    }
    var last := loaded.value.blockNumber;
    var blockCount := node.blockCount;
    if blockCount.Err? {
      return Failed(CallbackError(blockCount.error));
    }
    var count := blockCount.value;
    var differ := count - last;
    var hashes := FillHashes(node, last, differ);
    if hashes.Err? {
      return Failed(CallbackError(hashes.error));
    }
    reply := Reply(hashes.value, None);
    filter.data.Store(LAST_BLOCK_KEY, Cursor(count));
  }

  /** Polling a block filter again while no block is mined answers nothing and
      leaves the store as the first poll left it. */
  lemma BlockFilterPollAgain(node: Node, entries: map<string, StoreValue>)
    requires CursorNotAhead(node, entries)
    requires BlockFilterPoll(node, entries).reply.error.None?
    ensures CursorNotAhead(node, BlockFilterPoll(node, entries).entries)
    ensures BlockFilterPoll(node, BlockFilterPoll(node, entries).entries)
      == Poll(Reply([], None), BlockFilterPoll(node, entries).entries)
  {
  }

  /** With no new block the answer is empty and the cursor keeps its value. */
  lemma BlockFilterNoNewBlocks(node: Node, entries: map<string, StoreValue>)
    requires LoadCursor(entries).Ok? && node.blockCount == Ok(LoadCursor(entries).value)
    ensures CursorNotAhead(node, entries)
    ensures BlockFilterPoll(node, entries) == Poll(Reply([], None), entries)
  {
    assert entries[LAST_BLOCK_KEY := Cursor(node.blockCount.value)] == entries;
  }

  /** Cursor 10 and block count 13: the poll answers the hashes of heights 11,
      12 and 13, in that order, and moves the cursor to 13. */
  lemma BlockFilterExample(node: Node, entries: map<string, StoreValue>)
    requires LAST_BLOCK_KEY in entries && entries[LAST_BLOCK_KEY] == Cursor(10)
    requires node.blockCount == Ok(13) && forall h :: node.blockHash(h).Ok?
    ensures CursorNotAhead(node, entries)
    ensures BlockFilterPoll(node, entries).reply == Reply([
      BlockHash(AddHexPrefix(node.blockHash(11).value)),
      BlockHash(AddHexPrefix(node.blockHash(12).value)),
      BlockHash(AddHexPrefix(node.blockHash(13).value))], None)
    ensures BlockFilterPoll(node, entries).entries[LAST_BLOCK_KEY] == Cursor(13)
  {
  }

  // ---------------------------------------------------------------------------
  // Log filters
  // ---------------------------------------------------------------------------

  /** The addresses of the criteria before their prefixes are stripped. */
  function RawAddresses(p: AddressParam): seq<string>
  {
    match p
    case NoAddress => []
    case SingleAddress(a) => [a]
    case AddressList(addresses) => addresses
    case MalformedAddress(_) => []
  }

  function StripHexPrefixes(addresses: seq<string>): seq<string>
  {
    seq(|addresses|, i requires 0 <= i < |addresses| => RemoveHexPrefix(addresses[i]))
  }

  /** The specification of `toSearchLogsReq`: addresses with their prefixes
      stripped, the given block range, and the stored topics if there are any. */
  function SearchRequest(p: AddressParam, entries: map<string, StoreValue>, from: nat, to: nat)
    : Result<SearchLogsRequest, RpcError>
  {
    if p.MalformedAddress? then Err(InvalidParams(p.message))
    else if TOPICS_KEY in entries && !entries[TOPICS_KEY].TopicList? then Err(Panic(CONVERSION_PANIC_MESSAGE))
    else
      var topics := if TOPICS_KEY in entries then entries[TOPICS_KEY].topics else [];
      Ok(SearchLogsRequest(StripHexPrefixes(RawAddresses(p)), from, to, topics))
  }

  /** How the address criteria reach the search: absent gives none, a string
      gives that one address, an array gives its addresses in order, each with
      its "0x" prefix stripped; malformed criteria are invalid parameters. */
  lemma SearchAddresses(p: AddressParam, entries: map<string, StoreValue>, from: nat, to: nat)
    ensures p.MalformedAddress? ==> SearchRequest(p, entries, from, to) == Err(InvalidParams(p.message))
    ensures !p.MalformedAddress? && TOPICS_KEY in entries && entries[TOPICS_KEY].Cursor? ==>
      SearchRequest(p, entries, from, to) == Err(Panic(CONVERSION_PANIC_MESSAGE))
    ensures p.NoAddress? && !(TOPICS_KEY in entries && entries[TOPICS_KEY].Cursor?) ==>
      SearchRequest(p, entries, from, to).Ok? && SearchRequest(p, entries, from, to).value.addresses == []
    ensures p.SingleAddress? && !(TOPICS_KEY in entries && entries[TOPICS_KEY].Cursor?) ==>
      SearchRequest(p, entries, from, to).Ok? &&
      SearchRequest(p, entries, from, to).value.addresses == [RemoveHexPrefix(p.address)]
    ensures p.AddressList? && !(TOPICS_KEY in entries && entries[TOPICS_KEY].Cursor?) ==>
      && SearchRequest(p, entries, from, to).Ok?
      && var addresses := SearchRequest(p, entries, from, to).value.addresses;
      && |addresses| == |p.addresses|
      && forall i :: 0 <= i < |addresses| ==> addresses[i] == RemoveHexPrefix(p.addresses[i])
    ensures SearchRequest(p, entries, from, to).Ok? ==>
      var req := SearchRequest(p, entries, from, to).value;
      req.fromBlock == from && req.toBlock == to &&
      req.topics == (if TOPICS_KEY in entries then entries[TOPICS_KEY].topics else [])
  {
    if p.SingleAddress? {
      assert StripHexPrefixes([p.address]) == [RemoveHexPrefix(p.address)];
    }
  }

  /** `toSearchLogsReq`: strips the prefix of each address in place. */
  method ToSearchLogsReq(filter: Filter, from: nat, to: nat) returns (r: Result<SearchLogsRequest, RpcError>)
    ensures r == SearchRequest(filter.request.address, filter.data.entries, from, to)
  {
    var raw := RawAddresses(filter.request.address);
    if filter.request.address.MalformedAddress? {
      return Err(InvalidParams(filter.request.address.message));
    }
    var addresses := new string[|raw|](i requires 0 <= i < |raw| => raw[i]);
    for i := 0 to addresses.Length
      invariant forall j :: 0 <= j < i ==> addresses[j] == RemoveHexPrefix(raw[j])
      invariant forall j :: i <= j < addresses.Length ==> addresses[j] == raw[j]
    {
      addresses[i] := RemoveHexPrefix(addresses[i]);
    }
    assert addresses[..] == StripHexPrefixes(raw);
    var topics: seq<SearchLogsTopic> := [];
    var stored := filter.data.Load(TOPICS_KEY);
    if stored.Some? {
      if !stored.value.TopicList? {
        return Err(Panic(CONVERSION_PANIC_MESSAGE));
      }
      topics := stored.value.topics;
    }
    r := Ok(SearchLogsRequest(addresses[..], from, to, topics));
  }

  function AsChanges(logs: seq<EthLog>): seq<Change>
  {
    seq(|logs|, i requires 0 <= i < |logs| => Log(logs[i]))
  }

  /** The logs of the receipts, receipt after receipt, each receipt's logs in
      the order the extraction gives them. */
  function LogsOf(receipts: seq<Receipt>, extract: Receipt -> seq<EthLog>): seq<Change>
  {
    if receipts == [] then [] else AsChanges(extract(receipts[0])) + LogsOf(receipts[1..], extract)
  }

  /** The logs of two runs of receipts are the logs of the first run followed
      by those of the second. */
  lemma {:induction false} LogsOfAppend(a: seq<Receipt>, b: seq<Receipt>, extract: Receipt -> seq<EthLog>)
    ensures LogsOf(a + b, extract) == LogsOf(a, extract) + LogsOf(b, extract)
  {
    if a == [] {
      assert a + b == b;
    } else {
      assert (a + b)[1..] == a[1..] + b;
      LogsOfAppend(a[1..], b, extract);
    }
  }

  /** Every element of the concatenation is a log that the extraction gave
      for one of the receipts. */
  lemma {:induction false} LogsOfFrom(receipts: seq<Receipt>, extract: Receipt -> seq<EthLog>, c: Change)
    requires c in LogsOf(receipts, extract)
    ensures c.Log? && exists r :: r in receipts && c.log in extract(r)
  {
    if c in AsChanges(extract(receipts[0])) {
      var i :| 0 <= i < |extract(receipts[0])| && AsChanges(extract(receipts[0]))[i] == c;
      assert c.log == extract(receipts[0])[i];
    } else {
      LogsOfFrom(receipts[1..], extract, c);
      var r :| r in receipts[1..] && c.log in extract(r);
      assert r in receipts;
    }
  }

  /** The specification of `doSearchLogs`. */
  function SearchReply(node: Node, req: SearchLogsRequest): Reply
  {
    match node.searchLogs(req)
    case Err(e) => Failed(e)
    case Ok(receipts) => Reply(LogsOf(receipts, node.extractLogs), None)
  }

  /** The closure `receiptToResult`: copies the extracted logs into a fresh
      result array. */
  method ReceiptToResult(node: Node, receipt: Receipt) returns (res: seq<Change>)
    ensures |res| == |node.extractLogs(receipt)|
    ensures forall i :: 0 <= i < |res| ==> res[i] == Log(node.extractLogs(receipt)[i])
  {
    var logs := node.extractLogs(receipt);
    var a := new Change[|logs|];
    for i := 0 to a.Length
      invariant forall j :: 0 <= j < i ==> a[j] == Log(logs[j])
    {
      a[i] := Log(logs[i]);
    }
    res := a[..];
  }

  /** `doSearchLogs`: runs the search and appends each receipt's logs. */
  method DoSearchLogs(node: Node, req: SearchLogsRequest) returns (reply: Reply)
    ensures reply == SearchReply(node, req)
  {
    var resp := node.searchLogs(req);
    if resp.Err? {
      return Failed(resp.error);
    }
    var receipts := resp.value;
    var results: seq<Change> := [];
    for k := 0 to |receipts|
      invariant results == LogsOf(receipts[..k], node.extractLogs)
    {
      var logs := ReceiptToResult(node, receipts[k]);
      assert logs == AsChanges(node.extractLogs(receipts[k]));
      LogsOfAppend(receipts[..k], [receipts[k]], node.extractLogs);
      assert receipts[..k + 1] == receipts[..k] + [receipts[k]];
      assert LogsOf([receipts[k]], node.extractLogs) == logs + LogsOf([], node.extractLogs);
      results := results + logs;
    }
    assert receipts[..|receipts|] == receipts;
    reply := Reply(results, None);
  }

  /** The specification of `requestFilter`. */
  function LogFilterReply(node: Node, request: NewFilterRequest, entries: map<string, StoreValue>): (r: Reply)
    requires CursorNotAhead(node, entries)
    ensures r.error.Some? ==> r.result == []
    ensures LoadCursor(entries).Err? ==> r == Failed(LoadCursor(entries).error)
    ensures LoadCursor(entries).Ok? && node.blockCount.Err? ==>
      r == Failed(CallbackError(node.blockCount.error))
    ensures LoadCursor(entries).Ok? && node.blockCount == Ok(LoadCursor(entries).value) ==>
      r == Reply([], None)
    ensures
      (&& LoadCursor(entries).Ok? && node.blockCount.Ok? && LoadCursor(entries).value < node.blockCount.value
       && SearchRequest(request.address, entries, LoadCursor(entries).value + 1, node.blockCount.value).Err?) ==>
      r == Failed(SearchRequest(request.address, entries, LoadCursor(entries).value + 1, node.blockCount.value).error)
  {
    match LoadCursor(entries)
    case Err(e) => Failed(e)
    case Ok(last) =>
      match node.blockCount
      case Err(m) => Failed(CallbackError(m))
      case Ok(count) =>
        if count - last == 0 then Reply([], None)
        else match SearchRequest(request.address, entries, last + 1, count)
          case Err(e) => Failed(e)
          case Ok(req) => SearchReply(node, req)
  }

  /** With new blocks, the one search covers exactly the blocks after the
      cursor up to the block count. */
  lemma LogFilterSearchesNewBlocks(node: Node, request: NewFilterRequest, entries: map<string, StoreValue>)
    requires CursorNotAhead(node, entries)
    requires LoadCursor(entries).Ok? && node.blockCount.Ok?
    requires LoadCursor(entries).value < node.blockCount.value
    requires SearchRequest(request.address, entries, LoadCursor(entries).value + 1, node.blockCount.value).Ok?
    ensures var req := SearchRequest(request.address, entries, LoadCursor(entries).value + 1, node.blockCount.value).value;
      && req.fromBlock == LoadCursor(entries).value + 1
      && req.toBlock == node.blockCount.value
      && LogFilterReply(node, request, entries) == SearchReply(node, req)
  {
  }

  /** The search answers only receipts of blocks inside the requested range. */
  ghost predicate SearchHonoursRange(node: Node)
  {
    forall req :: node.searchLogs(req).Ok? ==>
      forall r :: r in node.searchLogs(req).value ==> req.fromBlock <= r.blockNumber <= req.toBlock
  }

  /** The extraction labels each log with its receipt's block. */
  ghost predicate ExtractionKeepsBlock(node: Node)
  {
    forall r, l :: l in node.extractLogs(r) ==> l.blockNumber == r.blockNumber
  }

  /** No log from a block outside (cursor, block count] is ever answered. */
  lemma LogFilterRangeExact(node: Node, request: NewFilterRequest, entries: map<string, StoreValue>)
    requires CursorNotAhead(node, entries)
    requires SearchHonoursRange(node) && ExtractionKeepsBlock(node)
    requires LoadCursor(entries).Ok? && node.blockCount.Ok?
    ensures forall c :: c in LogFilterReply(node, request, entries).result ==>
      c.Log? && LoadCursor(entries).value < c.log.blockNumber <= node.blockCount.value
  {
    var last, count := LoadCursor(entries).value, node.blockCount.value;
    forall c | c in LogFilterReply(node, request, entries).result
      ensures c.Log? && last < c.log.blockNumber <= count
    {
      var req := SearchRequest(request.address, entries, last + 1, count).value;
      var receipts := node.searchLogs(req).value;
      LogsOfFrom(receipts, node.extractLogs, c);
    }
  }

  /** `requestFilter`: reads the cursor and the block count, and searches the
      new blocks if there are any. It never writes the filter's store. */
  method RequestFilter(node: Node, filter: Filter) returns (reply: Reply)
    requires CursorNotAhead(node, filter.data.entries)
    ensures reply == LogFilterReply(node, filter.request, filter.data.entries)
  {
    var loaded := filter.data.Load(LAST_BLOCK_KEY);
    if loaded.None? {
      return Failed(CallbackError(MISSING_CURSOR_MESSAGE));
    }
    if !loaded.value.Cursor? {
      return Failed(Panic(CONVERSION_PANIC_MESSAGE));
    }
    var last := loaded.value.blockNumber;
    var blockCount := node.blockCount;
    if blockCount.Err? {
      return Failed(CallbackError(blockCount.error));
    }
    var count := blockCount.value;
    var differ := count - last;
    if differ == 0 {
      return Reply([], None);
    }
    var searchLogsReq := ToSearchLogsReq(filter, last + 1, count);
    if searchLogsReq.Err? {
      return Failed(searchLogsReq.error);
    }
    reply := DoSearchLogs(node, searchLogsReq.value);
  }

  /** `Request`: dispatches on the filter's type. */
  method Request(node: Node, filter: Filter) returns (reply: Reply)
    requires filter.kind in {NewFilterTy, NewBlockFilterTy} ==> CursorNotAhead(node, filter.data.entries)
    modifies filter.data
    ensures filter.kind == NewFilterTy ==>
      reply == LogFilterReply(node, filter.request, old(filter.data.entries)) &&
      filter.data.entries == old(filter.data.entries)
    ensures filter.kind == NewBlockFilterTy ==>
      Poll(reply, filter.data.entries) == BlockFilterPoll(node, old(filter.data.entries))
    ensures filter.kind in {NewPendingTransactionFilterTy, UnknownFilterTy} ==>
      reply == Failed(InvalidParams(UNKNOWN_FILTER_TYPE_MESSAGE)) &&
      filter.data.entries == old(filter.data.entries)
  {
    match filter.kind
    case NewFilterTy =>
      reply := RequestFilter(node, filter);
    case NewBlockFilterTy =>
      reply := RequestBlockFilter(node, filter);
    case NewPendingTransactionFilterTy =>
      reply := Failed(InvalidParams(UNKNOWN_FILTER_TYPE_MESSAGE));
    case UnknownFilterTy =>
      reply := Failed(InvalidParams(UNKNOWN_FILTER_TYPE_MESSAGE));
  }
}

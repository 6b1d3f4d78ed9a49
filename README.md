# janus: filter-change polling and UTXO selection

A Dafny model of two request handlers of janus. janus is a JSON-RPC proxy that gives a Qtum node an Ethereum-style interface.

- `eth_getFilterChanges` polls a filter for what changed since its last poll.
  - A **block filter** answers the hex-prefixed hashes of every block above its `lastBlockNumber` cursor, in ascending height order. It then stores the block count as the new cursor.
  - A **log filter** answers nothing when no block is new. Otherwise it searches the blocks `[lastBlockNumber+1, blockCount]` with the filter's address and topic criteria. It concatenates the logs of each returned receipt, in receipt order, and never writes the cursor.
- `qtum_getUTXOs` runs one pass over the node's unspent outputs for an address. For each entry it:
  - classifies the script type and applies the type filter;
  - marks the entry unsafe when a mempool transaction spends its txid;
  - marks stake and coinbase outputs immature when they are within the maturity depth, and immature outputs are unsafe;
  - computes confirmations, and aborts on a negative value.

  With a minimum sum of zero it returns every accepted entry. Otherwise it returns as soon as the safe amounts reach the minimum, and fails when they never do. A negative minimum is reached by the first kept entry.

Files:

- `rpc.dfy` (module `Rpc`) holds the shared values:
  - `Option` and `Result`;
  - the error kinds a handler answers with (`InvalidParams`, `CallbackError`, and `Panic` for a Go run-time panic);
  - the "0x" prefix helpers.
- `filter_changes.dfy` (module `FilterChanges`) models `eth_getFilterChanges`.
  - The filter's `Data` store is the class `FilterStore`, holding a map.
  - `Store` is its only mutation.
  - The node is a value: its block count and a height-to-hash query, each with its error answer; the log search with its error answer; and the receipt-to-log extraction.
- `get_utxos.dfy` (module `GetUtxos`) models `qtum_getUTXOs` from the UTXO query on.
  - The node is again a value: the address's UTXO list, block count, mempool, raw-transaction lookup, maturity depth and script classifier.

Each imperative piece of the source is a method proved equal to a specification function or to a direct contract. The properties are stated as contracts of those functions, or as lemmas about them:

- ordering, lengths and contents of the answers;
- the filter store before and after a poll;
- every error path;
- the greedy minimum-sum selection.

## Model

| member | source | states |
|---|---|---|
| FilterChanges.Request | pkg/transformer/eth_getFilterChanges.go:33-42 | a log filter gets the log-filter answer with the store unchanged; a block filter gets the block-filter poll; pending-transaction and unknown filters get InvalidParams "Unknown filter type" with the store unchanged |
| FilterChanges.FilterStore.Load | pkg/transformer/eth_getFilterChanges.go:48 | a key is found exactly when it is in the store, with its stored value |
| FilterChanges.FilterStore.Store | pkg/transformer/eth_getFilterChanges.go:75 | the store afterwards is the old one with the key set to the value, and nothing else changes |
| FilterChanges.CollectHashes | pkg/transformer/eth_getFilterChanges.go:62-72 | succeeds exactly when every height in (last, last+n] answers; then it holds n hashes and entry i is the hex-prefixed hash of height last+i+1; on failure its error is that of the first failing height |
| FilterChanges.CollectHashesFailsAt | pkg/transformer/eth_getFilterChanges.go:63-69 | once heights last+1..last+i succeed and height last+i+1 fails, the collection fails with that height's error |
| FilterChanges.FillHashes | pkg/transformer/eth_getFilterChanges.go:60-72 | the array-filling loop answers the hashes of `CollectHashes`, or its first error |
| FilterChanges.BlockFilterPoll | pkg/transformer/eth_getFilterChanges.go:45-77 | a missing cursor gives CallbackError "Could not get lastBlockNumber"; a block-count failure gives CallbackError with its message; every error leaves the result empty and the store unwritten; the poll succeeds exactly when every new height answers; a failing hash query gives CallbackError with the first failing height's message; success gives blockCount-lastBlockNumber hashes in ascending height order and sets the cursor to blockCount |
| FilterChanges.RequestBlockFilter | pkg/transformer/eth_getFilterChanges.go:45-77 | the reply and the store afterwards are those of `BlockFilterPoll` on the store before |
| FilterChanges.BlockFilterPollAgain | pkg/transformer/eth_getFilterChanges.go:60-75 | a second poll with no new block answers nothing and leaves the store as the first poll left it |
| FilterChanges.BlockFilterNoNewBlocks | pkg/transformer/eth_getFilterChanges.go:60-62 | when the cursor equals the block count, the answer is empty and the store keeps its value |
| FilterChanges.BlockFilterExample | pkg/transformer/eth_getFilterChanges.go:60-75 | cursor 10 and block count 13 answer the hashes of heights 11, 12 and 13 in that order, and the cursor becomes 13 |
| FilterChanges.SearchAddresses | pkg/transformer/eth_getFilterChanges.go:134-163 | with well-typed stored topics, absent criteria give no address; a string gives that one address; an array gives its addresses in order; each address has its "0x" prefix stripped; malformed criteria give InvalidParams with the decoder's message, before any topics panic; otherwise a stored topics value of the wrong kind panics; the range is the given one; topics are copied only when stored |
| FilterChanges.ToSearchLogsReq | pkg/transformer/eth_getFilterChanges.go:131-166 | the in-place prefix-stripping loop builds the request `SearchRequest` describes, including a panic on a stored topics value of the wrong kind |
| FilterChanges.LogsOfAppend | pkg/transformer/eth_getFilterChanges.go:122-126 | the logs of two runs of receipts are the logs of the first run followed by those of the second |
| FilterChanges.LogsOfFrom | pkg/transformer/eth_getFilterChanges.go:114-126 | every answered element is a log that the extraction produced for one of the returned receipts |
| FilterChanges.ReceiptToResult | pkg/transformer/eth_getFilterChanges.go:114-121 | the result holds exactly the receipt's extracted logs, in order |
| FilterChanges.DoSearchLogs | pkg/transformer/eth_getFilterChanges.go:108-129 | a failed search answers its error with no result; otherwise the answer is the concatenation, in receipt order, of each receipt's logs |
| FilterChanges.LoadCursor | pkg/transformer/eth_getFilterChanges.go:48-52 | a missing `lastBlockNumber` gives CallbackError "Could not get lastBlockNumber"; a stored value that is not a block number makes the type assertion panic; otherwise the cursor is the stored block number |
| FilterChanges.LogFilterReply | pkg/transformer/eth_getFilterChanges.go:79-106 | a missing cursor or a block-count failure gives a CallbackError with an empty result; every error comes with an empty result; when the block count equals the cursor the answer is empty with no error; with new blocks, an error building the search request (InvalidParams for malformed address criteria, or the topics panic) is the reply |
| FilterChanges.LogFilterSearchesNewBlocks | pkg/transformer/eth_getFilterChanges.go:94-105 | with new blocks the single search covers exactly [lastBlockNumber+1, blockCount], and the answer is that search's |
| FilterChanges.LogFilterRangeExact | pkg/transformer/eth_getFilterChanges.go:94-128 | when the node's search and extraction keep to the requested blocks, no answered log comes from a block outside (lastBlockNumber, blockCount] |
| FilterChanges.RequestFilter | pkg/transformer/eth_getFilterChanges.go:79-106 | the log path answers `LogFilterReply` and has no write access to the filter's store |
| Rpc.AddHexPrefix | pkg/transformer/eth_getFilterChanges.go:71 | the result starts with "0x"; a prefixed input is unchanged; an unprefixed input follows the "0x" |
| Rpc.RemoveHexPrefix | pkg/transformer/eth_getFilterChanges.go:150 | a prefixed input loses exactly its "0x"; an unprefixed input is unchanged |
| GetUtxos.Contains | pkg/transformer/qtum_getUTXOs.go:19-26 | true exactly when some element of the list equals the name |
| GetUtxos.ToEthResponseType | pkg/transformer/qtum_getUTXOs.go:167-174 | Address, TXID and OutputIndex are copied into Address, TXID and Vout; the amount is the satoshi amount; Safe, Spendable, Confirmations and Height keep their zero values |
| GetUtxos.MempoolInputs | pkg/transformer/qtum_getUTXOs.go:75-86 | succeeds exactly when every mempool transaction can be fetched; then an id is collected exactly when it is the id of an input of some mempool transaction; on failure its error is that of the first failing fetch |
| GetUtxos.CollectMempoolInputs | pkg/transformer/qtum_getUTXOs.go:75-86 | the nested append loops answer `MempoolInputs` |
| GetUtxos.AppendVinIds | pkg/transformer/qtum_getUTXOs.go:82-84 | appends the ids of the inputs, in order |
| GetUtxos.TypeSet | pkg/transformer/qtum_getUTXOs.go:104-107 | a type is a key of the map exactly when it is requested, and every key maps to true |
| GetUtxos.Examine | pkg/transformer/qtum_getUTXOs.go:111-149 | an entry is dropped exactly when, in filtered mode, its type is not requested, or it is immature and IMMATURE is not requested; an entry that is not dropped panics exactly when the block count is below its height; a kept record carries the entry's fields and type, confirmations blockCount-height >= 0 and spendable; it is safe exactly when its txid is not spent in the mempool and it is not immature |
| GetUtxos.MaturityBoundary | pkg/transformer/qtum_getUTXOs.go:129-143 | a stake output is immature and unsafe while blockCount equals height plus maturity depth, and safe with depth+1 confirmations one block later |
| GetUtxos.SelectUtxos | pkg/transformer/qtum_getUTXOs.go:92-164 | the selection loop, with its field updates, `continue`s, panic and early return, answers `Selected` |
| GetUtxos.SafeSumAppend | pkg/transformer/qtum_getUTXOs.go:151-153 | the safe sum of two runs of records is the sum of their safe sums |
| GetUtxos.SafeSumPrefix | pkg/transformer/qtum_getUTXOs.go:151-153 | a prefix has at most the safe sum of the whole |
| GetUtxos.KeptAppend | pkg/transformer/qtum_getUTXOs.go:111-154 | the records kept from two runs of entries are those of the first run followed by those of the second |
| GetUtxos.RunAll | pkg/transformer/qtum_getUTXOs.go:145-161 | with minimum zero the loop keeps every kept record after those already collected, unless some entry has negative confirmations |
| GetUtxos.SelectAll | pkg/transformer/qtum_getUTXOs.go:92-162 | minimum sum zero returns every accepted entry in the node's order, or panics when some entry has negative confirmations |
| GetUtxos.RunReachesMinimum | pkg/transformer/qtum_getUTXOs.go:151-157 | a successful loop with a positive minimum stops at the first kept record with which the safe sum reaches the minimum |
| GetUtxos.SelectStopsAtMinimum | pkg/transformer/qtum_getUTXOs.go:151-157 | a positive minimum that succeeds returns the accepted entries of a prefix of the node's list that ends with an accepted entry; their safe sum reaches the minimum, no shorter run of them does, and the answer is a prefix of all accepted entries |
| GetUtxos.RunShortfall | pkg/transformer/qtum_getUTXOs.go:155-164 | with a positive minimum the loop runs out exactly when no entry panics and all safe amounts stay below the minimum |
| GetUtxos.SelectFailsIffMinimumUnreachable | pkg/transformer/qtum_getUTXOs.go:155-164 | a positive minimum fails with CallbackError "required minimum amount is greater than total amount of UTXOs" exactly when no entry has negative confirmations and the safe sum of all accepted entries is below the minimum |
| GetUtxos.RunErrors | pkg/transformer/qtum_getUTXOs.go:145-164 | the loop fails only by a panic on an entry with negative confirmations, or by the minimum error with a nonzero minimum |
| GetUtxos.SelectErrors | pkg/transformer/qtum_getUTXOs.go:145-164 | the selection fails only by a panic when some entry that is not dropped is above the block count, or by the minimum error with a nonzero minimum |
| GetUtxos.RunNegative | pkg/transformer/qtum_getUTXOs.go:151-164 | with a negative minimum the loop answers the one record of the first verdict that is not a drop, a panic when that verdict is negative confirmations, or the minimum error when every verdict is a drop |
| GetUtxos.SelectNegativeMinimum | pkg/transformer/qtum_getUTXOs.go:92-164 | a negative minimum returns only the record of the first entry that is not dropped, panics when that entry is above the block count, and fails with the minimum error when every entry is dropped |
| GetUtxos.KeptEmbeds | pkg/transformer/qtum_getUTXOs.go:111-154 | the kept records sit at increasing positions of the entries, each at an entry that keeps it |
| GetUtxos.SelectedIsSubsequence | pkg/transformer/qtum_getUTXOs.go:111-154 | the returned records are a subsequence of the node's entries in the node's order, each the record its entry is classified to |
| GetUtxos.SelectedEntriesClassified | pkg/transformer/qtum_getUTXOs.go:118-149 | every returned record comes from an entry of the node; it is spendable with confirmations blockCount-height >= 0; it is unsafe when its txid is spent in the mempool; in filtered mode its type is requested |
| GetUtxos.GreedyExample | pkg/transformer/qtum_getUTXOs.go:151-164 | safe amounts 3, 5 and 2 with minimum 7 return the first two entries, summing to 8; with minimum 11 they fail with the minimum error |
| GetUtxos.Respond | pkg/transformer/qtum_getUTXOs.go:60-86 | a failing UTXO query, block count, mempool query or raw-transaction fetch gives a CallbackError with the node's message, in that order of precedence |
| GetUtxos.Request | pkg/transformer/qtum_getUTXOs.go:60-164 | the handler from the UTXO query on answers `Respond` |
| GetUtxos.MempoolSpendsAreUnsafe | pkg/transformer/qtum_getUTXOs.go:75-126 | a returned record whose txid is the id of an input of some mempool transaction is unsafe, whatever output index that input names |

## Left out

- Request parsing and validation are not modelled. This covers `processFilter`, `unmarshalRequest`, `CheckHasValidValues` and the echo/JSON-RPC transport (`eth_getFilterChanges.go:26-31`, `qtum_getUTXOs.go:34-48`). Their code is framework plumbing defined elsewhere in janus. In particular, whatever `CheckHasValidValues` demands of the minimum sum is not assumed: the minimum is any integer, and a negative one is modelled (`GetUtxos.SelectNegativeMinimum`).
- The Ethereum-to-Qtum address conversion (`qtum_getUTXOs.go:51-58`) is not modelled. `convertETHAddress` is not part of this model, so `GetUtxos.Request` starts at the UTXO query.
- Node RPC calls are given values or total functions, each with an error answer. This covers `GetBlockCount`, `GetBlockHash`, `GetRawMempool`, `GetRawTransaction`, `GetAddressUTXOs` and the log search.
- `GetMatureBlockHeight` (`qtum_getUTXOs.go:89`) is a given natural number with no error answer, as in the source.
- `context` cancellation is not modelled.
- `conversion.SearchLogsAndFilterExtraTopics` and `conversion.ExtractETHLogsFromTransactionReceipt` are abstract functions of the node value. Their code is not part of this model.
- `isBytesOfString` and `json.Unmarshal` are not modelled directly. The stored address criteria are a datatype whose cases are the possible decodings: absent, one string, an array, or malformed with the decoder's message.
- Script classification (`GetType` and `String`) is an abstract function from the script to a script type. The record's `Type` field holds that script type.
- The hex-prefix helpers of `pkg/utils` are not part of this model. `Rpc.AddHexPrefix` and `Rpc.RemoveHexPrefix` assume they add "0x" when it is absent and strip one leading "0x" when it is present.
- Amounts are integer satoshis. `convertFromQtumToSatoshis`, `convertFromSatoshisToQtum`, the `decimal` arithmetic and the `Amount` string formatting are left out. A minimum that is not a whole number of satoshis is not modelled. `GetUtxos.ToEthResponseType` puts the satoshi amount in `amount`.
- Concurrency of the filter's `Data` store (a concurrent map) and the atomicity of the cursor update are not modelled. The store is a single-threaded map.
- The debug log of the mempool ids (`qtum_getUTXOs.go:87`) is left out.
- The `big.Int` to `uint64`/`int64` conversions are left out. The heights and counts are unbounded naturals.
- FilterChanges.Request: for log and block filters it requires `FilterChanges.CursorNotAhead`, i.e. the block count is not below the cursor, instead of reproducing the unsigned 64-bit wrap-around of `blockCount - lastBlockNumber` (`eth_getFilterChanges.go:60`, `:94`). Pending-transaction and unknown filters carry no precondition. `BlockFilterPoll`, `RequestBlockFilter`, `LogFilterReply` and `RequestFilter` carry the same precondition.
- FilterChanges.ToSearchLogsReq: assumes the type assertion `filter.Request.(*eth.NewFilterRequest)` at `eth_getFilterChanges.go:132` succeeds. A log filter's request is always such a value in the model.
- A panic is the error `Panic` with a fixed message. The source's formatted panic text (`qtum_getUTXOs.go:147`) and a failed type assertion's run-time message are not reproduced.
- A nil slice and an empty slice are both the empty sequence.
- FilterChanges.RequestFilter: the log path never writes `lastBlockNumber` (`eth_getFilterChanges.go:79-106`; only the block path stores it, at `:75`), so the next poll searches the same range again. The model keeps this: `RequestFilter` has no modifies clause.

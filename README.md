# Block explorer and web3 contract cache (Celo contractkit)

This project models two sequential parts of Celo's `contractkit` package in Dafny and proves properties about them.

**The block explorer** (`packages/contractkit/src/explorer/block-explorer.ts`).
- At construction it builds an address table. Each key is a catalogued contract's address. Each value holds that contract's details and a selector table.
- The selector table maps a function signature to its ABI entry. It is built from the contract's JSON interface followed by the proxy ABI, keeping only the entries of type `function`.
- `tryParseTx` resolves a transaction in three steps:
  - it looks up the recipient in the address table;
  - it cuts the call data into a ten-character selector and the encoded parameters that follow;
  - it looks up the selector and decodes the parameters into a `CallDetails`.
- `parseBlock` keeps, in order, the transactions that resolve.
- `fetchBlockRange` fetches the blocks numbered `from` up to `to` (excluded), one at a time.

**The contract cache** (`packages/contractkit/src/web3-contract-cache.ts`).
- `getContract` is a lazy, memoising map from the 22 contract kinds to native web3 contract handles.
- On the first request for a kind, it asks the registry for the address, builds the handle with that kind's factory and stores it.
- Later requests return the stored handle.
- The 22 `getX` accessors each call `getContract` for their own kind.

Modules:
- `Wrappers`: `Option` and `Result`.
- `Web3Types`: transactions, blocks and ABI entries, plus the `BlockSource` class. `BlockSource` is the node's `getBlock`; it logs every request so that the order of requests can be stated.
- `Base`: the contract kinds, the contract details and `mapFromPairs`.
- `Explorer`: the table builders, the pure specifications of the walks, and the `BlockExplorer` class.
- `ContractCache`: the registry, the kit and the `Web3ContractCache` class.

Foreign collaborators are parameters of the model.
- ABI decoding (`abi.decodeParameters` followed by `parseDecodedParams`) is the function-valued field `decoder`. It returns the decoded arguments, or the error the library throws.
- The node's answers to `getBlock` are the function-valued field `chain` of `BlockSource`.
- The registry's answers to `addressFor` are the field `answers` of `AddressRegistry`. That field may change between calls.

Two behaviours of the code are worth noting:
- `tryParseTx` does not catch decoding errors. A decoding error therefore ends `parseBlock` with that error, rather than dropping only the offending transaction.
- A call input shorter than ten characters is looked up with its shortened selector; no length check is made first. `ShortInputUnresolved` shows that such an input resolves to nothing whenever every signature is a full ten-character selector.

## Model

| member | source | states |
|---|---|---|
| Base.MapFromPairs | packages/contractkit/src/explorer/block-explorer.ts:39-51 | every pair's key is a key of the map, and every key is bound to a value that some pair carries with that key |
| Base.MapFromPairsOf | packages/contractkit/src/explorer/block-explorer.ts:39-51 | a map built from one pair per element has a key for every element, and each key's value comes from an element with that key |
| Base.MapFromPairsDistinct | packages/contractkit/src/explorer/block-explorer.ts:39-51 | when keys are distinct, each pair's key is bound to exactly that pair's value |
| Explorer.FunctionEntries | packages/contractkit/src/explorer/block-explorer.ts:45-46 | the filter keeps exactly the entries of type `function`, and never lengthens the list |
| Explorer.FunctionEntriesAppend | packages/contractkit/src/explorer/block-explorer.ts:45-46 | filtering the interface followed by the proxy ABI yields the interface's function entries followed by the proxy ABI's |
| Explorer.FnMapping | packages/contractkit/src/explorer/block-explorer.ts:44-48 | the selector table holds only function entries of the interface or the proxy ABI, each keyed by its own signature; its keys are exactly the signatures of those function entries |
| Explorer.BuildAddressMapping | packages/contractkit/src/explorer/block-explorer.ts:39-51 | the address table has exactly one key per catalogued address; each key is bound to a catalogued contract with that address and to that contract's selector table |
| Explorer.AddressTableDistinct | packages/contractkit/src/explorer/block-explorer.ts:39-51 | when addresses are distinct, each contract's address leads to that very contract |
| Explorer.SelectorTableDistinct | packages/contractkit/src/explorer/block-explorer.ts:44-48 | when signatures are distinct, each function entry's signature leads to that very entry |
| Explorer.CallSignature | packages/contractkit/src/explorer/block-explorer.ts:91 | the selector is a prefix of the input, of length min(10, input length); a short input is not an error |
| Explorer.EncodedParameters | packages/contractkit/src/explorer/block-explorer.ts:92 | selector followed by encoded parameters is the whole input; the parameters have length max(0, input length − 10) |
| Explorer.Collect | packages/contractkit/src/explorer/block-explorer.ts:71-77 | the walk succeeds exactly when no per-transaction outcome is an error, and it keeps no more values than there are outcomes |
| Explorer.CollectAppend | packages/contractkit/src/explorer/block-explorer.ts:72-77 | walking a concatenation is walking the parts in order: the values of the first come first, and the first error wins |
| Explorer.CollectMembers | packages/contractkit/src/explorer/block-explorer.ts:72-77 | a value is collected exactly when some outcome is that non-null value |
| Explorer.CollectFailure | packages/contractkit/src/explorer/block-explorer.ts:72-77 | a failed walk carries the error of the first failing outcome, and every outcome before it succeeded |
| Explorer.CollectInOrder | packages/contractkit/src/explorer/block-explorer.ts:72-77 | the collected values are the non-null outcomes as an in-order subsequence, witnessed by strictly increasing indices that cover every non-null outcome |
| Explorer.PicksExtend | packages/contractkit/src/explorer/block-explorer.ts:74-76 | pushing the last outcome, when non-null, extends the in-order picks of the earlier outcomes |
| Explorer.FetchRangeSuccess | packages/contractkit/src/explorer/block-explorer.ts:62-68 | a successful range holds max(0, to − from) blocks, the i-th being the node's block numbered from + i |
| Explorer.FetchRangeFailure | packages/contractkit/src/explorer/block-explorer.ts:62-68 | the range fails exactly when some number in [from, to) cannot be fetched, and then with the error of the lowest such number |
| Explorer.RangeRequestsAscending | packages/contractkit/src/explorer/block-explorer.ts:64-66 | the requests are the numbers from, from + 1, … in ascending order; all max(0, to − from) of them on success, and on failure the last one is the first failing one, every earlier request having succeeded |
| Explorer.BlockExplorer.constructor | packages/contractkit/src/explorer/block-explorer.ts:38-52 | the explorer keeps its catalogue, and its address table is the table built from that catalogue and the proxy ABI |
| Explorer.BlockExplorer.FetchBlockByHash | packages/contractkit/src/explorer/block-explorer.ts:54-57 | one request for the hash is sent, and the node's answer for it is returned |
| Explorer.BlockExplorer.FetchBlock | packages/contractkit/src/explorer/block-explorer.ts:58-60 | one request for the number is sent, and the node's answer for it is returned |
| Explorer.BlockExplorer.FetchBlockRange | packages/contractkit/src/explorer/block-explorer.ts:62-68 | the result is the range's blocks or its first error, and the requests sent are exactly the range's ascending requests |
| Explorer.BlockExplorer.TryParseTx | packages/contractkit/src/explorer/block-explorer.ts:85-114 | a contract creation, which has no recipient, resolves to nothing; a resolved call carries the input transaction unchanged |
| Explorer.BlockExplorer.UnknownRecipientDropped | packages/contractkit/src/explorer/block-explorer.ts:86-89 | a transaction to an address where no catalogued contract lives resolves to nothing |
| Explorer.BlockExplorer.TryParseTxSound | packages/contractkit/src/explorer/block-explorer.ts:94-113 | a resolved call names a catalogued contract at the recipient's address and a function entry whose signature is the selector, with the decoder's arguments; a failure is the decoder's error for such an entry |
| Explorer.BlockExplorer.TryParseTxComplete | packages/contractkit/src/explorer/block-explorer.ts:86-101 | a transaction to a catalogued contract, when no other catalogued contract shares its address, whose selector matches one of its function entries or a proxy ABI function is never dropped |
| Explorer.BlockExplorer.ProxyFunctionsResolvable | packages/contractkit/src/explorer/block-explorer.ts:44-48 | proxy ABI functions resolve at every catalogued address |
| Explorer.BlockExplorer.TryParseTxExact | packages/contractkit/src/explorer/block-explorer.ts:99-113 | with distinct addresses and signatures, the result is the call of the matching entry on that contract, with the contract's name, the entry's name and the decoder's arguments, or the decoder's error |
| Explorer.BlockExplorer.ShortInputUnresolved | packages/contractkit/src/explorer/block-explorer.ts:91-97 | when every signature has ten characters, an input shorter than ten characters resolves to nothing |
| Explorer.BlockExplorer.ParsedAreResolved | packages/contractkit/src/explorer/block-explorer.ts:70-83 | every parsed call is what `tryParseTx` makes of one of the transactions, and every transaction that resolves contributes its call |
| Explorer.BlockExplorer.ParseAllInOrder | packages/contractkit/src/explorer/block-explorer.ts:70-83 | the parsed calls are the in-order subsequence of resolved transactions, so there are no more of them than transactions |
| Explorer.BlockExplorer.ParseAllAppend | packages/contractkit/src/explorer/block-explorer.ts:72-77 | parsing a concatenation of transaction lists is parsing each list in turn |
| Explorer.BlockExplorer.DropsUnresolved | packages/contractkit/src/explorer/block-explorer.ts:74-76 | an unresolved transaction leaves the other calls, their number and their order, unchanged |
| Explorer.BlockExplorer.ParseBlock | packages/contractkit/src/explorer/block-explorer.ts:70-83 | the result holds the same block and the in-order walk of `tryParseTx` over its transactions; a decoding error ends the walk and is passed on |
| Web3Types.BlockSource.GetBlock | packages/contractkit/src/explorer/block-explorer.ts:56-59 | `getBlock` logs exactly one request and answers with the node's block or error for it |
| ContractCache.NewContract | packages/contractkit/src/web3-contract-cache.ts:29-52 | the handle a kind's factory builds records that kind, the kit's provider and the resolved address; the cache's `Valid()` states that every stored handle was built by its own kind's factory |
| ContractCache.AddressRegistry.AddressFor | packages/contractkit/src/web3-contract-cache.ts:146 | `addressFor` logs exactly one lookup and returns the registry's current answer for the kind |
| ContractCache.Web3ContractCache.constructor | packages/contractkit/src/web3-contract-cache.ts:66-68 | the cache starts empty, with no factory called |
| ContractCache.Web3ContractCache.GetContract | packages/contractkit/src/web3-contract-cache.ts:139-151 | a cached kind returns its stored handle with no lookup, no factory call and no change; otherwise one lookup is made, and on success the kind's factory is called once and its handle for that address is stored and returned; on failure no factory is called and nothing is stored; each kind's factory is called at most once over the cache's life; other kinds' entries and earlier entries are never changed |
| ContractCache.Web3ContractCache.GetContractTwice | packages/contractkit/src/web3-contract-cache.ts:140-150 | after a successful request, a second one returns the same handle with no further lookup and no further factory call, even if the registry's answers changed; after a failed one, the second request looks the address up again |
| ContractCache.Web3ContractCache.GetAccounts | packages/contractkit/src/web3-contract-cache.ts:69-71 | is `getContract` for Accounts |
| ContractCache.Web3ContractCache.GetAttestations | packages/contractkit/src/web3-contract-cache.ts:72-74 | is `getContract` for Attestations |
| ContractCache.Web3ContractCache.GetBlockchainParameters | packages/contractkit/src/web3-contract-cache.ts:75-77 | is `getContract` for BlockchainParameters |
| ContractCache.Web3ContractCache.GetDoubleSigningSlasher | packages/contractkit/src/web3-contract-cache.ts:78-80 | is `getContract` for DoubleSigningSlasher |
| ContractCache.Web3ContractCache.GetDowntimeSlasher | packages/contractkit/src/web3-contract-cache.ts:81-83 | is `getContract` for DowntimeSlasher |
| ContractCache.Web3ContractCache.GetElection | packages/contractkit/src/web3-contract-cache.ts:84-86 | is `getContract` for Election |
| ContractCache.Web3ContractCache.GetEpochRewards | packages/contractkit/src/web3-contract-cache.ts:87-89 | is `getContract` for EpochRewards |
| ContractCache.Web3ContractCache.GetEscrow | packages/contractkit/src/web3-contract-cache.ts:90-92 | is `getContract` for Escrow |
| ContractCache.Web3ContractCache.GetExchange | packages/contractkit/src/web3-contract-cache.ts:93-95 | is `getContract` for Exchange |
| ContractCache.Web3ContractCache.GetFeeCurrencyWhitelist | packages/contractkit/src/web3-contract-cache.ts:96-98 | is `getContract` for FeeCurrencyWhitelist |
| ContractCache.Web3ContractCache.GetFreezer | packages/contractkit/src/web3-contract-cache.ts:99-101 | is `getContract` for Freezer |
| ContractCache.Web3ContractCache.GetGasPriceMinimum | packages/contractkit/src/web3-contract-cache.ts:102-104 | is `getContract` for GasPriceMinimum |
| ContractCache.Web3ContractCache.GetGoldToken | packages/contractkit/src/web3-contract-cache.ts:105-107 | is `getContract` for GoldToken |
| ContractCache.Web3ContractCache.GetGovernance | packages/contractkit/src/web3-contract-cache.ts:108-110 | is `getContract` for Governance |
| ContractCache.Web3ContractCache.GetLockedGold | packages/contractkit/src/web3-contract-cache.ts:111-113 | is `getContract` for LockedGold |
| ContractCache.Web3ContractCache.GetRandom | packages/contractkit/src/web3-contract-cache.ts:114-116 | is `getContract` for Random |
| ContractCache.Web3ContractCache.GetRegistry | packages/contractkit/src/web3-contract-cache.ts:117-119 | is `getContract` for Registry |
| ContractCache.Web3ContractCache.GetReserve | packages/contractkit/src/web3-contract-cache.ts:120-122 | is `getContract` for Reserve |
| ContractCache.Web3ContractCache.GetSortedOracles | packages/contractkit/src/web3-contract-cache.ts:123-125 | is `getContract` for SortedOracles |
| ContractCache.Web3ContractCache.GetStableToken | packages/contractkit/src/web3-contract-cache.ts:126-128 | is `getContract` for StableToken |
| ContractCache.Web3ContractCache.GetTransferWhitelist | packages/contractkit/src/web3-contract-cache.ts:129-131 | is `getContract` for TransferWhitelist |
| ContractCache.Web3ContractCache.GetValidators | packages/contractkit/src/web3-contract-cache.ts:132-134 | is `getContract` for Validators |

## Left out

- ABI decoding: `abi.decodeParameters` and `parseDecodedParams` belong to a foreign library. They are the field `decoder`, and decoded values are opaque strings.
- Selector computation: the Keccak-256 hash behind each `signature` is not modelled. Signatures are opaque strings that arrive precomputed on the ABI entries.
- Proxy ABI contents: `governance/proxy.ts` is not part of this model. The proxy entries are a constructor parameter of `BlockExplorer`.
- `mapFromPairs` collision policy: `explorer/base.ts` is not part of this model. `MapFromPairs` inserts pairs in order, but no contract relies on which of several pairs with the same key wins. The exact-resolution lemmas assume distinct addresses or signatures instead.
- Explorer.BlockExplorer.TryParseTxComplete: requires that no other catalogued contract shares the recipient's address. When two contracts share an address, the table keeps only one of them, and a call matching only the other one's interface is dropped. The lemma also does not say which of several entries sharing a signature is used. Both choices depend on the collision policy above.
- Network I/O: `newBlockExplorer`, `obtainKitContractDetails` and the node behind `getBlock` are not modelled. The catalogue is a constructor argument, and the node's answers are a fixed function.
- Promises: `async`/`await` are not modelled. Each operation runs to completion before the next one starts.
- ContractCache.Web3ContractCache.GetContract: modelled as one atomic step. Two interleaved first calls for the same kind, each resolving the address and each storing a handle, are not modelled.
- ContractCache.Web3ContractCache.GetContract: handles are values, so reference identity is not modelled. The source returns the very same object on every hit, and callers share its mutable state, such as `options`. The model returns an equal value. Hits are told apart from rebuilds by the lookup log and by the ghost log `built` of factory calls.
- Generated factories: each `newX` factory is modelled by `NewContract`, a handle that records its kind, its provider and its address. The contract ABI it binds is not modelled.
- Debug logging (`debug(...)`) is not modelled.
- Explorer.BlockExplorer.FetchBlockRange: block numbers are unbounded integers, whereas `from` and `to` are JavaScript numbers. With a non-integer bound the source requests fractional block numbers. At 2^53 and beyond, `i++` stops advancing and the source's loop never ends. Neither case is modelled.
- ContractCache.NewContract: building a handle always succeeds here. In the source, the web3 contract constructor behind each `newX` factory can throw on a malformed address; `getContract` then rejects and stores nothing. The model has no such failure path.
- Web3Types.BlockSource.GetBlock: the node answers a block or an error. Web3's `getBlock` can also resolve to `null` for a block number that does not exist yet. `fetchBlockRange` would push that `null` into its result unchecked, and `parseBlock` would then fail on reading its transactions. The model has no null block.
- Field names: the `function` field of `CallDetails` is `functionName`, because `function` is a Dafny keyword.
- Address comparison: it is exact string equality, as with the source's `Map` keys. Checksummed and lower-case spellings of one address are different keys.
- `packages/celotool/src/e2e-tests/sync_tests.ts` is not part of this model: it is end-to-end process and network orchestration.
- The alliance web pages under `packages/web/src/alliance/` are not part of this model: they are UI rendering and type declarations.

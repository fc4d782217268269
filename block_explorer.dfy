/** The block explorer: it maps the addresses of known contracts to their
    function-selector tables, resolves each transaction's recipient and
    selector against them, and collects the transactions of a block that
    it can decode. */
module Explorer {
  import opened Wrappers
  import opened Web3Types
  import opened Base

  /** A decoded call. The source's field `function` is `functionName`
      here, `function` being a keyword. */
  datatype CallDetails = CallDetails(contract: string, functionName: string, paramMap: map<string, AbiValue>, argList: seq<AbiValue>)

  datatype ParsedTx = ParsedTx(callDetails: CallDetails, tx: Transaction)

  datatype ParsedBlock = ParsedBlock(block: Block, parsedTx: seq<ParsedTx>)

  /** What the explorer keeps per known address. */
  datatype ContractMapping = ContractMapping(details: ContractDetails, fnMapping: map<string, AbiEntry>)

  /** Characters of a selector in call data: "0x" and four bytes as hex. */
  const SelectorLength: nat := 10

  function Min(a: int, b: int): (m: int) { if a <= b then a else b }

  function Max(a: int, b: int): (m: int) { if a <= b then b else a }

  /** Two failure-carrying sequences joined end to end; the first failure
      wins, as in code that stops at the first exception. */
  function Join<T>(a: Result<seq<T>, string>, b: Result<seq<T>, string>): (r: Result<seq<T>, string>)
  {
    match a
    case Failure(e) => Failure(e)
    case Success(xs) =>
      match b
      case Failure(e) => Failure(e)
      case Success(ys) => Success(xs + ys)
  }

  // ---------------------------------------------------------------------
  // Tables built by the constructor
  // ---------------------------------------------------------------------

  /** The entries of an interface whose `type` is 'function', in order. */
  function FunctionEntries(abi: seq<AbiEntry>): (fs: seq<AbiEntry>)
    ensures forall ad :: ad in fs <==> ad in abi && ad.kind == FunctionEntry
    ensures |fs| <= |abi|
    decreases |abi|
  {
    if abi == [] then []
    else
      assert abi == [abi[0]] + abi[1..];
      (if abi[0].kind == FunctionEntry then [abi[0]] else []) + FunctionEntries(abi[1..])
  }

  /** Filtering keeps the order of the list it filters: the function
      entries of an interface followed by the proxy ABI are those of the
      interface followed by those of the proxy ABI. */
  lemma {:induction false} FunctionEntriesAppend(a: seq<AbiEntry>, b: seq<AbiEntry>)
    ensures FunctionEntries(a + b) == FunctionEntries(a) + FunctionEntries(b)
    decreases |a|
  {
    if a == [] {
      assert a + b == b;
    } else {
      assert (a + b)[1..] == a[1..] + b;
      FunctionEntriesAppend(a[1..], b);
    }
  }

  /** What a selector table for contract `cd` is: every entry is a
      function entry of the contract's interface or of the proxy ABI, keyed
      by its own signature, and every such function entry's signature is a
      key. */
  ghost predicate IsSelectorTable(fm: map<string, AbiEntry>, cd: ContractDetails, proxyAbi: seq<AbiEntry>)
  {
    && (forall sig :: sig in fm ==>
         && fm[sig].kind == FunctionEntry
         && fm[sig].signature == sig
         && fm[sig] in cd.jsonInterface + proxyAbi)
    && (forall ad :: ad in cd.jsonInterface + proxyAbi && ad.kind == FunctionEntry ==> ad.signature in fm)
  }

  /** What an address table for a catalogue is: a key for every contract's
      address, each bound to a contract of the catalogue with that address
      and to a selector table for it. */
  ghost predicate IsAddressTable(m: map<Address, ContractMapping>, details: seq<ContractDetails>, proxyAbi: seq<AbiEntry>)
  {
    && (forall cd :: cd in details ==> cd.address in m)
    && (forall a :: a in m ==>
         && m[a].details in details
         && m[a].details.address == a
         && IsSelectorTable(m[a].fnMapping, m[a].details, proxyAbi))
  }

  /** A contract's selector table: its own interface followed by the proxy
      ABI, keeping the function entries, each keyed by its signature. */
  function FnMapping(cd: ContractDetails, proxyAbi: seq<AbiEntry>): (m: map<string, AbiEntry>)
    ensures IsSelectorTable(m, cd, proxyAbi)
    ensures m.Keys == set ad | ad in cd.jsonInterface + proxyAbi && ad.kind == FunctionEntry :: ad.signature
  {
    var fs := FunctionEntries(cd.jsonInterface + proxyAbi);
    MapFromPairsOf(fs, (ad: AbiEntry) => ad.signature, (ad: AbiEntry) => ad);
    MapFromPairs(PairsOf(fs, (ad: AbiEntry) => ad.signature, (ad: AbiEntry) => ad))
  }

  /** The address table: one key per contract address, each bound to a
      contract with that address and to that contract's selector table. */
  function BuildAddressMapping(details: seq<ContractDetails>, proxyAbi: seq<AbiEntry>): (m: map<Address, ContractMapping>)
    ensures IsAddressTable(m, details, proxyAbi)
    ensures m.Keys == set cd | cd in details :: cd.address
    ensures forall a :: a in m ==> m[a].fnMapping == FnMapping(m[a].details, proxyAbi)
  {
    var key := (cd: ContractDetails) => cd.address;
    var val := (cd: ContractDetails) => ContractMapping(cd, FnMapping(cd, proxyAbi));
    AddressPairsTable(details, proxyAbi, key, val);
    MapFromPairs(PairsOf(details, key, val))
  }

  /** The map built from one (address, mapping) pair per contract is an
      address table with exactly the catalogue's addresses as keys. */
  lemma AddressPairsTable(details: seq<ContractDetails>, proxyAbi: seq<AbiEntry>,
                          key: ContractDetails -> Address, val: ContractDetails -> ContractMapping)
    requires forall cd :: key(cd) == cd.address
    requires forall cd :: val(cd) == ContractMapping(cd, FnMapping(cd, proxyAbi))
    ensures IsAddressTable(MapFromPairs(PairsOf(details, key, val)), details, proxyAbi)
    ensures MapFromPairs(PairsOf(details, key, val)).Keys == set cd | cd in details :: cd.address
    ensures forall a :: a in MapFromPairs(PairsOf(details, key, val)) ==>
      MapFromPairs(PairsOf(details, key, val))[a].fnMapping == FnMapping(MapFromPairs(PairsOf(details, key, val))[a].details, proxyAbi)
  {
    var m := MapFromPairs(PairsOf(details, key, val));
    MapFromPairsOf(details, key, val);
    forall a | a in m
      ensures m[a].details in details && m[a].details.address == a
      ensures m[a].fnMapping == FnMapping(m[a].details, proxyAbi)
      ensures IsSelectorTable(m[a].fnMapping, m[a].details, proxyAbi)
    {
      var x :| x in details && key(x) == a && m[a] == val(x);
    }
    KeysOfAddressTable(m, details, proxyAbi);
  }

  /** An address table's keys are exactly its catalogue's addresses. */
  lemma KeysOfAddressTable(m: map<Address, ContractMapping>, details: seq<ContractDetails>, proxyAbi: seq<AbiEntry>)
    requires IsAddressTable(m, details, proxyAbi)
    ensures m.Keys == set cd | cd in details :: cd.address
  {
    forall a | a in m ensures a in set cd | cd in details :: cd.address {
      assert m[a].details in details;
    }
  }

  /** No two contracts of the catalogue share an address. */
  predicate DistinctAddresses(details: seq<ContractDetails>)
  {
    forall i, j :: 0 <= i < |details| && 0 <= j < |details| && details[i].address == details[j].address ==> i == j
  }

  /** No two function entries of an interface share a signature. */
  predicate DistinctSignatures(abi: seq<AbiEntry>)
  {
    forall ad, ad' ::
      (ad in abi && ad' in abi && ad.kind == FunctionEntry && ad'.kind == FunctionEntry
       && ad.signature == ad'.signature) ==> ad == ad'
  }

  /** With distinct addresses, each contract's address leads to that very
      contract. */
  lemma AddressTableDistinct(m: map<Address, ContractMapping>, details: seq<ContractDetails>, proxyAbi: seq<AbiEntry>, i: nat)
    requires IsAddressTable(m, details, proxyAbi)
    requires i < |details| && DistinctAddresses(details)
    ensures details[i].address in m && m[details[i].address].details == details[i]
  {
    assert details[i] in details;
    var j :| 0 <= j < |details| && details[j] == m[details[i].address].details;
  }

  /** With distinct signatures, each function entry's signature leads to
      that very entry. */
  lemma SelectorTableDistinct(fm: map<string, AbiEntry>, cd: ContractDetails, proxyAbi: seq<AbiEntry>, ad: AbiEntry)
    requires IsSelectorTable(fm, cd, proxyAbi)
    requires DistinctSignatures(cd.jsonInterface + proxyAbi)
    requires ad in cd.jsonInterface + proxyAbi && ad.kind == FunctionEntry
    ensures ad.signature in fm && fm[ad.signature] == ad
  {
  }

  // ---------------------------------------------------------------------
  // Cutting call data
  // ---------------------------------------------------------------------

  /** `input.slice(0, 10)`: the first ten characters, or the whole input
      when it is shorter. */
  function CallSignature(input: string): (sel: string)
    ensures |sel| == Min(SelectorLength, |input|)
    ensures sel <= input
  {
    input[..Min(SelectorLength, |input|)]
  }

  /** `input.slice(10)`: what follows the selector, empty for a short
      input. */
  function EncodedParameters(input: string): (rest: string)
    ensures CallSignature(input) + rest == input
    ensures |rest| == Max(0, |input| - SelectorLength)
  {
    input[Min(SelectorLength, |input|)..]
  }

  // ---------------------------------------------------------------------
  // Collecting the calls of a block
  // ---------------------------------------------------------------------

  /** Walking per-transaction outcomes in order: the non-null ones, or the
      error of the first outcome that is an error. */
  function Collect<T>(rs: seq<Result<Option<T>, string>>): (r: Result<seq<T>, string>)
    ensures r.Success? <==> forall i :: 0 <= i < |rs| ==> rs[i].Success?
    ensures r.Success? ==> |r.value| <= |rs|
    decreases |rs|
  {
    if rs == [] then Success([])
    else
      var init := rs[..|rs| - 1];
      assert forall i :: 0 <= i < |init| ==> init[i] == rs[i];
      match rs[|rs| - 1]
      case Failure(e) => Join(Collect(init), Failure(e))
      case Success(None) => Collect(init)
      case Success(Some(p)) => Join(Collect(init), Success([p]))
  }

  /** Collecting is compatible with concatenation: the values of the first
      list precede those of the second, and the first error wins. */
  lemma {:induction false} CollectAppend<T>(rs: seq<Result<Option<T>, string>>, qs: seq<Result<Option<T>, string>>)
    ensures Collect(rs + qs) == Join(Collect(rs), Collect(qs))
    decreases |qs|
  {
    if qs == [] {
      assert rs + qs == rs;
      match Collect(rs) {
        case Failure(_) =>
        case Success(xs) => assert xs + [] == xs;
      }
    } else {
      assert (rs + qs)[..|rs + qs| - 1] == rs + qs[..|qs| - 1];
      assert (rs + qs)[|rs + qs| - 1] == qs[|qs| - 1];
      CollectAppend(rs, qs[..|qs| - 1]);
      match Collect(rs) {
        case Failure(_) =>
        case Success(xs) =>
          match Collect(qs[..|qs| - 1]) {
            case Failure(_) =>
            case Success(ys) =>
              match qs[|qs| - 1] {
                case Failure(_) =>
                case Success(None) =>
                case Success(Some(p)) => assert (xs + ys) + [p] == xs + (ys + [p]);
              }
          }
      }
    }
  }

  /** The collected values are exactly the values of the non-null
      outcomes. */
  lemma {:induction false} CollectMembers<T>(rs: seq<Result<Option<T>, string>>)
    requires Collect(rs).Success?
    ensures forall p :: p in Collect(rs).value <==> exists i :: 0 <= i < |rs| && rs[i] == Success(Some(p))
    decreases |rs|
  {
    if rs != [] {
      var init := rs[..|rs| - 1];
      assert forall i :: 0 <= i < |init| ==> init[i] == rs[i];
      CollectMembers(init);
      var ps := Collect(rs).value;
      forall p ensures p in ps <==> exists i :: 0 <= i < |rs| && rs[i] == Success(Some(p)) {
        if p in ps && p !in Collect(init).value {
          assert rs[|rs| - 1] == Success(Some(p));
        }
        if i :| 0 <= i < |rs| && rs[i] == Success(Some(p)) {
          if i < |init| {
            assert init[i] == Success(Some(p));
          }
        }
      }
    }
  }

  /** A failed walk carries the error of the first outcome that is an
      error; every outcome before it succeeded. */
  lemma {:induction false} CollectFailure<T>(rs: seq<Result<Option<T>, string>>)
    requires Collect(rs).Failure?
    ensures exists k :: (0 <= k < |rs| && rs[k] == Failure(Collect(rs).error)
      && forall j :: 0 <= j < k ==> rs[j].Success?)
    decreases |rs|
  {
    var init := rs[..|rs| - 1];
    assert forall i :: 0 <= i < |init| ==> init[i] == rs[i];
    if Collect(init).Failure? {
      CollectFailure(init);
      var k :| 0 <= k < |init| && init[k] == Failure(Collect(init).error)
        && forall j :: 0 <= j < k ==> init[j].Success?;
      assert rs[k] == Failure(Collect(rs).error);
    } else {
      assert rs[|rs| - 1] == Failure(Collect(rs).error);
    }
  }

  /** `idx` picks `xs` out of `rs` in order: the k-th value is that of
      outcome `idx[k]`, the indices strictly increase, and every non-null
      successful outcome is picked. */
  ghost predicate InOrderPicks<T>(rs: seq<Result<Option<T>, string>>, xs: seq<T>, idx: seq<nat>)
  {
    && |idx| == |xs|
    && (forall k :: 0 <= k < |idx| ==> idx[k] < |rs| && rs[idx[k]] == Success(Some(xs[k])))
    && (forall k, l :: 0 <= k < l < |idx| ==> idx[k] < idx[l])
    && (forall i :: 0 <= i < |rs| && rs[i].Success? && rs[i].value.Some? ==> i in idx)
  }

  /** The collected values are the non-null outcomes as an in-order
      subsequence: nothing is reordered, repeated or skipped. */
  lemma {:induction false} CollectInOrder<T>(rs: seq<Result<Option<T>, string>>)
    requires Collect(rs).Success?
    ensures exists idx :: InOrderPicks(rs, Collect(rs).value, idx)
    decreases |rs|
  {
    if rs == [] {
      assert InOrderPicks(rs, [], []);
    } else {
      var n := |rs| - 1;
      var last := rs[n];
      assert forall i :: 0 <= i < n ==> rs[..n][i] == rs[i];
      CollectInOrder(rs[..n]);
      var xs0 := Collect(rs[..n]).value;
      var idx0: seq<nat> :| InOrderPicks(rs[..n], xs0, idx0);
      PicksExtend(rs, xs0, idx0);
      var xs := xs0 + (if last.value.Some? then [last.value.value] else []);
      var idx := idx0 + (if last.value.Some? then [n] else []);
      assert Collect(rs).value == xs;
      assert InOrderPicks(rs, Collect(rs).value, idx);
    }
  }

  /** One step of `CollectInOrder`: the picks of all outcomes but the last
      extend to the picks of all of them. */
  lemma PicksExtend<T>(rs: seq<Result<Option<T>, string>>, xs0: seq<T>, idx0: seq<nat>)
    requires rs != [] && rs[|rs| - 1].Success?
    requires InOrderPicks(rs[..|rs| - 1], xs0, idx0)
    ensures InOrderPicks(rs, xs0 + (if rs[|rs| - 1].value.Some? then [rs[|rs| - 1].value.value] else []),
                         idx0 + (if rs[|rs| - 1].value.Some? then [|rs| - 1] else []))
  {
    var n := |rs| - 1;
    var init := rs[..n];
    var xs := xs0 + (if rs[n].value.Some? then [rs[n].value.value] else []);
    var idx := idx0 + (if rs[n].value.Some? then [n] else []);
    forall k | 0 <= k < |idx| ensures idx[k] < |rs| && rs[idx[k]] == Success(Some(xs[k])) {
      if k < |idx0| {
        assert init[idx0[k]] == rs[idx0[k]];
      }
    }
    forall i | 0 <= i < |rs| && rs[i].Success? && rs[i].value.Some? ensures i in idx {
      if i < n {
        assert init[i] == rs[i];
        assert i in idx0;
      } else {
        assert idx[|idx| - 1] == n;
      }
    }
  }

  // ---------------------------------------------------------------------
  // Fetching a range of blocks
  // ---------------------------------------------------------------------

  /** What fetching the blocks numbered `fromNumber` up to `toNumber` (excluded), one
      after the other, yields: the blocks, or the error of the first
      request that fails. */
  function FetchRange(chain: BlockId -> Result<Block, string>, fromNumber: int, toNumber: int): (r: Result<seq<Block>, string>)
    decreases toNumber - fromNumber
  {
    if fromNumber >= toNumber then Success([])
    else
      match chain(Number(fromNumber))
      case Failure(e) => Failure(e)
      case Success(b) => Join(Success([b]), FetchRange(chain, fromNumber + 1, toNumber))
  }

  /** The requests that fetching the range sends: one per number, in
      ascending order, stopping after the first that fails. */
  function RangeRequests(chain: BlockId -> Result<Block, string>, fromNumber: int, toNumber: int): (reqs: seq<BlockId>)
    decreases toNumber - fromNumber
  {
    if fromNumber >= toNumber then []
    else [Number(fromNumber)] + (if chain(Number(fromNumber)).Failure? then [] else RangeRequests(chain, fromNumber + 1, toNumber))
  }

  lemma JoinEmpty<T>(r: Result<seq<T>, string>)
    ensures Join(Success([]), r) == r
  {
    match r {
      case Failure(_) =>
      case Success(xs) => assert [] + xs == xs;
    }
  }

  /** The walk stops at a block that cannot be fetched: its error is the
      range's, and it is the last request. */
  lemma FetchRangeStop(chain: BlockId -> Result<Block, string>, done: seq<Block>, i: int, toNumber: int)
    requires i < toNumber && chain(Number(i)).Failure?
    ensures Join(Success(done), FetchRange(chain, i, toNumber)) == Failure(chain(Number(i)).error)
    ensures RangeRequests(chain, i, toNumber) == [Number(i)]
  {
  }

  /** The walk ends past the last number: nothing is left to fetch. */
  lemma FetchRangeEnd(chain: BlockId -> Result<Block, string>, done: seq<Block>, sent: seq<BlockId>, i: int, toNumber: int)
    requires toNumber <= i
    ensures Join(Success(done), FetchRange(chain, i, toNumber)) == Success(done)
    ensures sent + RangeRequests(chain, i, toNumber) == sent
  {
    assert done + [] == done;
    assert sent + [] == sent;
  }

  /** One step of the walk: when block `i` is fetched, what remains of the
      range after it is what remained before, less that block, and its
      request joins those already sent. */
  lemma FetchRangeStep(chain: BlockId -> Result<Block, string>, done: seq<Block>, sent: seq<BlockId>, i: int, toNumber: int)
    requires i < toNumber && chain(Number(i)).Success?
    ensures Join(Success(done), FetchRange(chain, i, toNumber))
         == Join(Success(done + [chain(Number(i)).value]), FetchRange(chain, i + 1, toNumber))
    ensures sent + RangeRequests(chain, i, toNumber) == (sent + [Number(i)]) + RangeRequests(chain, i + 1, toNumber)
  {
    match FetchRange(chain, i + 1, toNumber) {
      case Failure(_) =>
      case Success(bs) => assert done + ([chain(Number(i)).value] + bs) == (done + [chain(Number(i)).value]) + bs;
    }
    assert sent + ([Number(i)] + RangeRequests(chain, i + 1, toNumber))
        == (sent + [Number(i)]) + RangeRequests(chain, i + 1, toNumber);
  }

  /** A successful range holds `max(0, toNumber - fromNumber)` blocks, the i-th being
      the block numbered `fromNumber + i`. */
  lemma {:induction false} FetchRangeSuccess(chain: BlockId -> Result<Block, string>, fromNumber: int, toNumber: int)
    requires FetchRange(chain, fromNumber, toNumber).Success?
    ensures |FetchRange(chain, fromNumber, toNumber).value| == Max(0, toNumber - fromNumber)
    ensures forall i :: 0 <= i < |FetchRange(chain, fromNumber, toNumber).value| ==>
      chain(Number(fromNumber + i)) == Success(FetchRange(chain, fromNumber, toNumber).value[i])
    decreases toNumber - fromNumber
  {
    if fromNumber < toNumber {
      FetchRangeSuccess(chain, fromNumber + 1, toNumber);
      var bs := FetchRange(chain, fromNumber, toNumber).value;
      forall i | 0 <= i < |bs| ensures chain(Number(fromNumber + i)) == Success(bs[i]) {
        if i > 0 {
          assert bs[i] == FetchRange(chain, fromNumber + 1, toNumber).value[i - 1];
          assert fromNumber + i == (fromNumber + 1) + (i - 1);
        }
      }
    }
  }

  /** A range fails exactly when one of its blocks cannot be fetched, and
      then with the error of the lowest such block. */
  lemma {:induction false} FetchRangeFailure(chain: BlockId -> Result<Block, string>, fromNumber: int, toNumber: int)
    ensures FetchRange(chain, fromNumber, toNumber).Failure? <==> exists k :: fromNumber <= k < toNumber && chain(Number(k)).Failure?
    ensures FetchRange(chain, fromNumber, toNumber).Failure? ==>
      exists k :: (fromNumber <= k < toNumber && chain(Number(k)) == Failure(FetchRange(chain, fromNumber, toNumber).error)
        && forall j :: fromNumber <= j < k ==> chain(Number(j)).Success?)
    decreases toNumber - fromNumber
  {
    if fromNumber < toNumber {
      FetchRangeFailure(chain, fromNumber + 1, toNumber);
      if chain(Number(fromNumber)).Failure? {
        assert forall j :: fromNumber <= j < fromNumber ==> chain(Number(j)).Success?;
      } else {
        forall k | fromNumber <= k < toNumber && chain(Number(k)).Failure?
          ensures fromNumber + 1 <= k < toNumber && chain(Number(k)).Failure?
        {
        }
      }
    }
  }

  /** The range's requests are the numbers `fromNumber, fromNumber + 1, ...` in
      ascending order: all `max(0, toNumber - fromNumber)` of them when the range
      succeeds, and ending with the first failing one when it does not. */
  lemma {:induction false} RangeRequestsAscending(chain: BlockId -> Result<Block, string>, fromNumber: int, toNumber: int)
    ensures |RangeRequests(chain, fromNumber, toNumber)| <= Max(0, toNumber - fromNumber)
    ensures forall i :: 0 <= i < |RangeRequests(chain, fromNumber, toNumber)| ==>
      RangeRequests(chain, fromNumber, toNumber)[i] == Number(fromNumber + i)
    ensures FetchRange(chain, fromNumber, toNumber).Success? ==> |RangeRequests(chain, fromNumber, toNumber)| == Max(0, toNumber - fromNumber)
    ensures FetchRange(chain, fromNumber, toNumber).Failure? ==>
      var reqs := RangeRequests(chain, fromNumber, toNumber);
      reqs != [] && chain(reqs[|reqs| - 1]) == Failure(FetchRange(chain, fromNumber, toNumber).error)
    ensures FetchRange(chain, fromNumber, toNumber).Failure? ==>
      forall i :: 0 <= i < |RangeRequests(chain, fromNumber, toNumber)| - 1 ==>
        chain(RangeRequests(chain, fromNumber, toNumber)[i]).Success?
    decreases toNumber - fromNumber
  {
    if fromNumber < toNumber {
      RangeRequestsAscending(chain, fromNumber + 1, toNumber);
      var reqs := RangeRequests(chain, fromNumber, toNumber);
      var rest := RangeRequests(chain, fromNumber + 1, toNumber);
      if chain(Number(fromNumber)).Success? {
        assert reqs == [Number(fromNumber)] + rest;
        forall i | 0 <= i < |reqs| ensures reqs[i] == Number(fromNumber + i) {
          if i > 0 {
            assert reqs[i] == rest[i - 1];
            assert fromNumber + i == (fromNumber + 1) + (i - 1);
          }
        }
        if FetchRange(chain, fromNumber, toNumber).Failure? {
          forall i | 0 <= i < |reqs| - 1 ensures chain(reqs[i]).Success? {
            if i > 0 {
              assert reqs[i] == rest[i - 1];
            }
          }
        }
      }
    }
  }

  // ---------------------------------------------------------------------
  // The explorer
  // ---------------------------------------------------------------------

  class BlockExplorer {
    /** The node behind `kit.web3.eth`. */
    const node: BlockSource
    /** ABI parameter decoding. */
    const decoder: AbiDecoder
    const contractDetails: seq<ContractDetails>
    /** The `PROXY_ABI` entries appended to every interface. */
    const proxyAbi: seq<AbiEntry>
    const addressMapping: map<Address, ContractMapping>

    /** The explorer's invariant: its address table is one for its
        catalogue. */
    ghost predicate Valid()
    {
      IsAddressTable(addressMapping, contractDetails, proxyAbi)
    }

    constructor (node: BlockSource, decoder: AbiDecoder, contractDetails: seq<ContractDetails>, proxyAbi: seq<AbiEntry>)
      ensures this.node == node && this.decoder == decoder
      ensures this.contractDetails == contractDetails && this.proxyAbi == proxyAbi
      ensures addressMapping == BuildAddressMapping(contractDetails, proxyAbi)
      ensures Valid()
    {
      this.node := node;
      this.decoder := decoder;
      this.contractDetails := contractDetails;
      this.proxyAbi := proxyAbi;
      addressMapping := BuildAddressMapping(contractDetails, proxyAbi);
    }

    /** Whether some contract of the catalogue lives at `a`. */
    predicate Registered(a: Address)
    {
      exists cd :: cd in contractDetails && cd.address == a
    }

    /** `fetchBlockByHash`: one request for the block with that hash. */
    method FetchBlockByHash(blockHash: string) returns (r: Result<Block, string>)
      modifies node
      ensures node.requests == old(node.requests) + [Hash(blockHash)]
      ensures r == node.chain(Hash(blockHash))
    {
      r := node.GetBlock(Hash(blockHash));
    }

    /** `fetchBlock`: one request for the block with that number. */
    method FetchBlock(blockNumber: int) returns (r: Result<Block, string>)
      modifies node
      ensures node.requests == old(node.requests) + [Number(blockNumber)]
      ensures r == node.chain(Number(blockNumber))
    {
      r := node.GetBlock(Number(blockNumber));
    }

    /** `fetchBlockRange`: the blocks numbered `fromNumber` up to `toNumber`
        (excluded), requested one at a time in ascending order; the first
        rejected request ends the walk with its error. */
    method FetchBlockRange(fromNumber: int, toNumber: int) returns (r: Result<seq<Block>, string>)
      modifies node
      ensures r == FetchRange(node.chain, fromNumber, toNumber)
      ensures node.requests == old(node.requests) + RangeRequests(node.chain, fromNumber, toNumber)
    {
      var results: seq<Block> := [];
      var i := fromNumber;
      ghost var sent: seq<BlockId> := [];
      JoinEmpty(FetchRange(node.chain, fromNumber, toNumber));
      while i < toNumber
        invariant fromNumber <= i
        invariant FetchRange(node.chain, fromNumber, toNumber) == Join(Success(results), FetchRange(node.chain, i, toNumber))
        invariant RangeRequests(node.chain, fromNumber, toNumber) == sent + RangeRequests(node.chain, i, toNumber)
        invariant node.requests == old(node.requests) + sent
        decreases toNumber - i
      {
        var fetched := FetchBlock(i);
        if fetched.Failure? {
          FetchRangeStop(node.chain, results, i, toNumber);
          return Failure(fetched.error);
        }
        FetchRangeStep(node.chain, results, sent, i, toNumber);
        results := results + [fetched.value];
        sent := sent + [Number(i)];
        i := i + 1;
      }
      FetchRangeEnd(node.chain, results, sent, i, toNumber);
      r := Success(results);
    }

    /** `tryParseTx`: the decoded call, nothing when the recipient or the
        selector is unknown, or the error the decoder throws. */
    function TryParseTx(tx: Transaction): (r: Result<Option<ParsedTx>, string>)
      ensures tx.to.None? ==> r == Success(None)
      ensures r.Success? && r.value.Some? ==> r.value.value.tx == tx
    {
      if tx.to.None? || tx.to.value !in addressMapping then Success(None)
      else
        var contractMapping := addressMapping[tx.to.value];
        var callSignature := CallSignature(tx.input);
        var encodedParameters := EncodedParameters(tx.input);
        if callSignature !in contractMapping.fnMapping then Success(None)
        else
          var matchedAbi := contractMapping.fnMapping[callSignature];
          match decoder(matchedAbi.inputs, encodedParameters)
          case Failure(e) => Failure(e)
          case Success(decoded) =>
            var callDetails := CallDetails(contractMapping.details.name, matchedAbi.name, decoded.params, decoded.args);
            Success(Some(ParsedTx(callDetails, tx)))
    }

    /** A transaction to an address no catalogued contract has is dropped. */
    lemma UnknownRecipientDropped(tx: Transaction)
      requires Valid()
      requires tx.to.Some? && !Registered(tx.to.value)
      ensures TryParseTx(tx) == Success(None)
    {
    }

    /** A decoded call comes from a contract at the recipient's address and
        a function entry of its interface or of the proxy ABI whose
        signature is the input's selector, with the decoder's arguments;
        a failure is that entry's decoding error. */
    lemma TryParseTxSound(tx: Transaction)
      requires Valid()
      ensures TryParseTx(tx).Success? && TryParseTx(tx).value.Some? ==>
        var call := TryParseTx(tx).value.value.callDetails;
        exists cd, ad :: cd in contractDetails && ad in cd.jsonInterface + proxyAbi
          && tx.to == Some(cd.address) && call.contract == cd.name
          && ad.kind == FunctionEntry && ad.signature == CallSignature(tx.input)
          && call.functionName == ad.name
          && decoder(ad.inputs, EncodedParameters(tx.input)) == Success(DecodedParams(call.argList, call.paramMap))
      ensures TryParseTx(tx).Failure? ==>
        exists cd, ad :: cd in contractDetails && ad in cd.jsonInterface + proxyAbi
          && tx.to == Some(cd.address)
          && ad.kind == FunctionEntry && ad.signature == CallSignature(tx.input)
          && decoder(ad.inputs, EncodedParameters(tx.input)) == Failure(TryParseTx(tx).error)
    {
      if tx.to.Some? && tx.to.value in addressMapping {
        var cm := addressMapping[tx.to.value];
        var sel := CallSignature(tx.input);
        if sel in cm.fnMapping {
          var cd, ad := cm.details, cm.fnMapping[sel];
          assert cd in contractDetails && ad in cd.jsonInterface + proxyAbi;
          assert ad.kind == FunctionEntry && ad.signature == sel;
          match decoder(ad.inputs, EncodedParameters(tx.input)) {
            case Failure(e) =>
              assert TryParseTx(tx) == Failure(e);
            case Success(d) =>
              assert TryParseTx(tx) == Success(Some(ParsedTx(CallDetails(cd.name, ad.name, d.params, d.args), tx)));
          }
        }
      }
    }

    /** A transaction to a catalogued contract, at an address no other
        contract shares, whose selector is that of a function entry of the
        contract's interface or of the proxy ABI is never dropped: it
        decodes or fails with a decoding error. */
    lemma TryParseTxComplete(tx: Transaction, i: nat, ad: AbiEntry)
      requires Valid()
      requires DistinctAddresses(contractDetails) && i < |contractDetails|
      requires tx.to == Some(contractDetails[i].address)
      requires ad in contractDetails[i].jsonInterface + proxyAbi && ad.kind == FunctionEntry
      requires CallSignature(tx.input) == ad.signature
      ensures TryParseTx(tx) != Success(None)
    {
      AddressTableDistinct(addressMapping, contractDetails, proxyAbi, i);
    }

    /** Proxy functions resolve at every catalogued address, whatever the
        contract's own interface declares. */
    lemma ProxyFunctionsResolvable(tx: Transaction, cd: ContractDetails, ad: AbiEntry)
      requires Valid()
      requires cd in contractDetails && tx.to == Some(cd.address)
      requires ad in proxyAbi && ad.kind == FunctionEntry
      requires CallSignature(tx.input) == ad.signature
      ensures TryParseTx(tx) != Success(None)
    {
      var cm := addressMapping[cd.address];
      assert ad in cm.details.jsonInterface + proxyAbi;
      assert ad.signature in cm.fnMapping;
    }

    /** With distinct addresses in the catalogue and distinct signatures in
        the contract's table, a call whose selector is that of function
        entry `ad` of contract i decodes as a call of `ad` on contract i,
        with the decoder's arguments, or fails as the decoder does. */
    lemma TryParseTxExact(tx: Transaction, i: nat, ad: AbiEntry)
      requires Valid()
      requires DistinctAddresses(contractDetails) && i < |contractDetails|
      requires DistinctSignatures(contractDetails[i].jsonInterface + proxyAbi)
      requires tx.to == Some(contractDetails[i].address)
      requires ad in contractDetails[i].jsonInterface + proxyAbi && ad.kind == FunctionEntry
      requires CallSignature(tx.input) == ad.signature
      ensures TryParseTx(tx) ==
        match decoder(ad.inputs, EncodedParameters(tx.input))
        case Failure(e) => Failure(e)
        case Success(d) => Success(Some(ParsedTx(CallDetails(contractDetails[i].name, ad.name, d.params, d.args), tx)))
    {
      AddressTableDistinct(addressMapping, contractDetails, proxyAbi, i);
      var cd := contractDetails[i];
      SelectorTableDistinct(addressMapping[cd.address].fnMapping, cd, proxyAbi, ad);
    }

    /** When every function signature in the catalogue and the proxy ABI is
        a full ten-character selector, an input shorter than that is
        dropped: its cut-short selector matches nothing. */
    lemma ShortInputUnresolved(tx: Transaction)
      requires Valid()
      requires forall cd, ad ::
        (cd in contractDetails && ad in cd.jsonInterface + proxyAbi && ad.kind == FunctionEntry)
        ==> |ad.signature| == SelectorLength
      requires |tx.input| < SelectorLength
      ensures TryParseTx(tx) == Success(None)
    {
      if tx.to.Some? && tx.to.value in addressMapping {
        var cm := addressMapping[tx.to.value];
        var sel := CallSignature(tx.input);
        if sel in cm.fnMapping {
          assert false;
        }
      }
    }

    // -------------------------------------------------------------------
    // Parsing a block
    // -------------------------------------------------------------------

    /** The outcome of `tryParseTx` on each transaction, in order. */
    function Outcomes(txs: seq<Transaction>): (rs: seq<Result<Option<ParsedTx>, string>>)
    {
      seq(|txs|, i requires 0 <= i < |txs| => TryParseTx(txs[i]))
    }

    /** What walking a list of transactions with `tryParseTx` yields. */
    function ParseAll(txs: seq<Transaction>): (r: Result<seq<ParsedTx>, string>)
    {
      Collect(Outcomes(txs))
    }

    /** Every parsed call carries one of the block's transactions, and is
        what `tryParseTx` makes of it; every transaction that `tryParseTx`
        resolves contributes its call. */
    lemma ParsedAreResolved(txs: seq<Transaction>)
      requires ParseAll(txs).Success?
      ensures forall p :: p in ParseAll(txs).value ==> p.tx in txs && TryParseTx(p.tx) == Success(Some(p))
      ensures forall i :: 0 <= i < |txs| && TryParseTx(txs[i]).Success? && TryParseTx(txs[i]).value.Some? ==>
        TryParseTx(txs[i]).value.value in ParseAll(txs).value
    {
      var rs := Outcomes(txs);
      CollectMembers(rs);
      forall p | p in ParseAll(txs).value ensures p.tx in txs && TryParseTx(p.tx) == Success(Some(p)) {
        var i :| 0 <= i < |rs| && rs[i] == Success(Some(p));
        assert TryParseTx(txs[i]) == Success(Some(p));
      }
      forall i | 0 <= i < |txs| && TryParseTx(txs[i]).Success? && TryParseTx(txs[i]).value.Some?
        ensures TryParseTx(txs[i]).value.value in ParseAll(txs).value
      {
        assert rs[i] == Success(Some(TryParseTx(txs[i]).value.value));
      }
    }

    /** `parsedTx` is the in-order subsequence of the transactions that
        `tryParseTx` resolves, so it is no longer than the list. */
    lemma ParseAllInOrder(txs: seq<Transaction>)
      requires ParseAll(txs).Success?
      ensures |ParseAll(txs).value| <= |txs|
      ensures exists idx :: InOrderPicks(Outcomes(txs), ParseAll(txs).value, idx)
    {
      CollectInOrder(Outcomes(txs));
    }

    /** Parsing two lists of transactions one after the other is parsing
        their concatenation. */
    lemma ParseAllAppend(s: seq<Transaction>, t: seq<Transaction>)
      ensures ParseAll(s + t) == Join(ParseAll(s), ParseAll(t))
    {
      OutcomesAppend(s, t);
      CollectAppend(Outcomes(s), Outcomes(t));
    }

    /** Outcomes are computed transaction by transaction. */
    lemma OutcomesAppend(s: seq<Transaction>, t: seq<Transaction>)
      ensures Outcomes(s + t) == Outcomes(s) + Outcomes(t)
    {
      var l, r := Outcomes(s + t), Outcomes(s) + Outcomes(t);
      forall i | 0 <= i < |s + t| ensures l[i] == r[i] {
        if i < |s| {
          assert (s + t)[i] == s[i];
        } else {
          assert (s + t)[i] == t[i - |s|];
        }
      }
    }

    /** A transaction nobody can resolve leaves the other transactions'
        calls, their number and their order, exactly as they were. */
    lemma DropsUnresolved(s: seq<Transaction>, tx: Transaction, t: seq<Transaction>)
      requires TryParseTx(tx) == Success(None)
      ensures ParseAll(s + [tx] + t) == ParseAll(s + t)
    {
      ParseAllAppend(s, [tx]);
      ParseAllAppend(s + [tx], t);
      ParseAllAppend(s, t);
      assert Outcomes([tx]) == [Success(None)];
      assert Outcomes([tx])[..0] == [];
      match ParseAll(s) {
        case Failure(_) =>
        case Success(xs) => assert xs + [] == xs;
      }
    }

    /** `parseBlock`: the block itself and, in order, the transactions that
        `tryParseTx` resolves; a decoding error thrown on the way is
        passed on. */
    method ParseBlock(block: Block) returns (r: Result<ParsedBlock, string>)
      ensures r.Success? <==> ParseAll(block.transactions).Success?
      ensures r.Success? ==> r.value == ParsedBlock(block, ParseAll(block.transactions).value)
      ensures r.Failure? ==> r.error == ParseAll(block.transactions).error
    {
      var txs := block.transactions;
      var parsedTx: seq<ParsedTx> := [];
      var i := 0;
      while i < |txs|
        invariant 0 <= i <= |txs|
        invariant ParseAll(txs[..i]) == Success(parsedTx)
        decreases |txs| - i
      {
        assert Outcomes(txs[..i + 1])[..i] == Outcomes(txs[..i]);
        var maybeKnownCall := TryParseTx(txs[i]);
        if maybeKnownCall.Failure? {
          ParseAllAppend(txs[..i + 1], txs[i + 1..]);
          assert txs[..i + 1] + txs[i + 1..] == txs;
          return Failure(maybeKnownCall.error);
        }
        if maybeKnownCall.value.Some? {
          parsedTx := parsedTx + [maybeKnownCall.value.value];
        }
        i := i + 1;
      }
      assert txs[..i] == txs;
      r := Success(ParsedBlock(block, parsedTx));
    }
  }
}

/** The shapes that the web3 library hands to the explorer: transactions,
    blocks, ABI entries, and the node that answers `eth.getBlock`. */
module Web3Types {
  import opened Wrappers

  /** A hex address string; the explorer compares addresses as plain
      strings (a JavaScript `Map` key), so case matters. */
  type Address = string

  /** The `type` field of an ABI entry. */
  datatype EntryType = FunctionEntry | ConstructorEntry | EventEntry | FallbackEntry

  datatype AbiParam = AbiParam(name: string, paramType: string)

  /** One entry of a contract's JSON interface. `signature` is the
      precomputed selector ("0x" followed by four bytes as hex for a
      function); it is treated as an opaque string. */
  datatype AbiEntry = AbiEntry(kind: EntryType, name: string, signature: string, inputs: seq<AbiParam>)

  /** A transaction as returned with its block. `to` is missing for a
      contract creation; `input` is the hex-encoded call data. */
  datatype Transaction = Transaction(hash: string, from: Address, to: Option<Address>, input: string)

  datatype Block = Block(number: int, hash: string, transactions: seq<Transaction>)

  /** `eth.getBlock` accepts either a block number or a block hash. */
  datatype BlockId = Number(n: int) | Hash(h: string)

  /** A decoded argument value, kept as the decoder renders it. */
  type AbiValue = string

  /** What `parseDecodedParams` makes of a decoded call: the positional
      arguments and the name-keyed ones. */
  datatype DecodedParams = DecodedParams(args: seq<AbiValue>, params: map<string, AbiValue>)

  /** ABI parameter decoding (`abi.decodeParameters` followed by
      `parseDecodedParams`): given the entry's inputs and the encoded
      parameters, a decoded call or the error it throws. */
  type AbiDecoder = (seq<AbiParam>, string) -> Result<DecodedParams, string>

  /** The node behind `kit.web3.eth`. Its answers are a fixed function of
      the requested block; every request is recorded, in order, in
      `requests`. */
  class BlockSource {
    const chain: BlockId -> Result<Block, string>
    var requests: seq<BlockId>

    constructor (chain: BlockId -> Result<Block, string>)
      ensures this.chain == chain && requests == []
    {
      this.chain := chain;
      requests := [];
    }

    /** `eth.getBlock(id, true)`: the block with its transactions, or the
        error the request is rejected with. */
    method GetBlock(id: BlockId) returns (r: Result<Block, string>)
      modifies this`requests
      ensures requests == old(requests) + [id]
      ensures r == chain(id)
    {
      requests := requests + [id];
      r := chain(id);
    }
  }
}

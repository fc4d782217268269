/** The cache of native web3 contract handles: one handle per contract
    kind, built on first request from the kind's factory and the address
    the registry gives for it, then served as stored. */
module ContractCache {
  import opened Wrappers
  import opened Web3Types
  import opened Base

  /** The provider object `kit.web3` that handles are bound to. */
  datatype Web3 = Web3(provider: string)

  /** A native web3 contract handle: the ABI of one contract kind bound to
      an address through a provider. */
  datatype NativeContract = NativeContract(kind: CeloContract, web3: Web3, address: Address)

  /** `ContractFactories[kind](web3, address)`: each kind's generated
      factory binds that kind's ABI to the address. */
  function NewContract(kind: CeloContract, web3: Web3, address: Address): (h: NativeContract)
    ensures h.kind == kind && h.web3 == web3 && h.address == address
  {
    NativeContract(kind, web3, address)
  }

  /** The registry behind `kit.registry`. `answers` is what `addressFor`
      resolves each kind to at present (the address, or the error the call
      rejects with); it may change between calls. Every call is recorded,
      in order, in `lookups`. */
  class AddressRegistry {
    var answers: CeloContract -> Result<Address, string>
    var lookups: seq<CeloContract>

    constructor (answers: CeloContract -> Result<Address, string>)
      ensures this.answers == answers && lookups == []
    {
      this.answers := answers;
      lookups := [];
    }

    /** `addressFor`: one resolution of a kind's address. */
    method AddressFor(c: CeloContract) returns (r: Result<Address, string>)
      modifies this`lookups
      ensures lookups == old(lookups) + [c]
      ensures r == answers(c)
    {
      lookups := lookups + [c];
      r := answers(c);
    }
  }

  /** The parts of the kit the cache uses. */
  class ContractKit {
    const web3: Web3
    const registry: AddressRegistry

    constructor (web3: Web3, registry: AddressRegistry)
      ensures this.web3 == web3 && this.registry == registry
    {
      this.web3 := web3;
      this.registry := registry;
    }
  }

  class Web3ContractCache {
    const kit: ContractKit
    var cacheMap: map<CeloContract, NativeContract>
    /** The kinds whose factory has been called, in call order. */
    ghost var built: seq<CeloContract>

    /** Every stored handle was built by its own kind's factory on the
        kit's provider; the kinds stored are the kinds built, and no kind's
        factory has been called twice. */
    ghost predicate Valid()
      reads this
    {
      && (forall c :: c in cacheMap ==> cacheMap[c] == NewContract(c, kit.web3, cacheMap[c].address))
      && (forall c :: c in cacheMap <==> c in built)
      && (forall i, j :: 0 <= i < j < |built| ==> built[i] != built[j])
    }

    constructor (kit: ContractKit)
      ensures this.kit == kit && cacheMap == map[] && built == [] && Valid()
    {
      this.kit := kit;
      cacheMap := map[];
      built := [];
    }

    /** What one `getContract(c)` does. A stored handle is returned as it
        is, with no lookup, no factory call and no change. Otherwise the
        address is looked up once; if that succeeds, the factory is called
        once and its handle for that address is stored under `c` and
        returned; if it fails, the error is passed on, no factory is called
        and nothing is stored. */
    twostate predicate GotContract(c: CeloContract, new r: Result<NativeContract, string>)
      reads this, kit.registry
    {
      if c in old(cacheMap) then
        && r == Success(old(cacheMap)[c])
        && cacheMap == old(cacheMap)
        && built == old(built)
        && kit.registry.lookups == old(kit.registry.lookups)
      else
        && kit.registry.lookups == old(kit.registry.lookups) + [c]
        && match old(kit.registry.answers)(c)
           case Success(address) =>
             && r == Success(NewContract(c, kit.web3, address))
             && cacheMap == old(cacheMap)[c := r.value]
             && built == old(built) + [c]
           case Failure(e) =>
             && r == Failure(e)
             && cacheMap == old(cacheMap)
             && built == old(built)
    }

    /** `getContract`: the handle for kind `c`, built and stored on the
        first successful request and served from the cache afterwards. */
    method GetContract(c: CeloContract) returns (r: Result<NativeContract, string>)
      requires Valid()
      modifies this`cacheMap, this`built, kit.registry`lookups
      ensures Valid() && GotContract(c, r)
      ensures r.Success? ==> c in cacheMap && cacheMap[c] == r.value
      ensures forall k :: k in old(cacheMap) ==> k in cacheMap && cacheMap[k] == old(cacheMap)[k]
      ensures forall k :: k != c ==> (k in cacheMap <==> k in old(cacheMap))
      ensures |kit.registry.lookups| <= |old(kit.registry.lookups)| + 1
    {
      if c !in cacheMap {
        var address := kit.registry.AddressFor(c);
        if address.Failure? {
          return Failure(address.error);
        }
        cacheMap := cacheMap[c := NewContract(c, kit.web3, address.value)];
        built := built + [c];
      }
      r := Success(cacheMap[c]);
    }

    /** Two requests for the same kind, with the registry free to change
        its answers in between: once a handle is stored the second request
        returns that same handle without a lookup or a factory call,
        however the registry has changed; after a failed first request the second one looks the
        address up again. */
    method GetContractTwice(c: CeloContract, answersBetween: CeloContract -> Result<Address, string>)
      returns (first: Result<NativeContract, string>, second: Result<NativeContract, string>)
      requires Valid()
      modifies this`cacheMap, this`built, kit.registry
      ensures Valid()
      ensures first.Success? ==> second == first
      ensures first.Success? ==> |kit.registry.lookups| <= |old(kit.registry.lookups)| + 1
      ensures first.Success? ==> built == old(built) || built == old(built) + [c]
      ensures first.Failure? ==> |kit.registry.lookups| == |old(kit.registry.lookups)| + 2
      ensures forall k :: k in old(cacheMap) ==> k in cacheMap && cacheMap[k] == old(cacheMap)[k]
    {
      first := GetContract(c);
      kit.registry.answers := answersBetween;
      second := GetContract(c);
    }

    /** `getAccounts` */
    method GetAccounts() returns (r: Result<NativeContract, string>)
      requires Valid()
      modifies this`cacheMap, this`built, kit.registry`lookups
      ensures Valid() && GotContract(CeloContract.Accounts, r)
    {
      r := GetContract(CeloContract.Accounts);
    }

    /** `getAttestations` */
    method GetAttestations() returns (r: Result<NativeContract, string>)
      requires Valid()
      modifies this`cacheMap, this`built, kit.registry`lookups
      ensures Valid() && GotContract(CeloContract.Attestations, r)
    {
      r := GetContract(CeloContract.Attestations);
    }

    /** `getBlockchainParameters` */
    method GetBlockchainParameters() returns (r: Result<NativeContract, string>)
      requires Valid()
      modifies this`cacheMap, this`built, kit.registry`lookups
      ensures Valid() && GotContract(CeloContract.BlockchainParameters, r)
    {
      r := GetContract(CeloContract.BlockchainParameters);
    }

    /** `getDoubleSigningSlasher` */
    method GetDoubleSigningSlasher() returns (r: Result<NativeContract, string>)
      requires Valid()
      modifies this`cacheMap, this`built, kit.registry`lookups
      ensures Valid() && GotContract(CeloContract.DoubleSigningSlasher, r)
    {
      r := GetContract(CeloContract.DoubleSigningSlasher);
    }

    /** `getDowntimeSlasher` */
    method GetDowntimeSlasher() returns (r: Result<NativeContract, string>)
      requires Valid()
      modifies this`cacheMap, this`built, kit.registry`lookups
      ensures Valid() && GotContract(CeloContract.DowntimeSlasher, r)
    {
      r := GetContract(CeloContract.DowntimeSlasher);
    }

    /** `getElection` */
    method GetElection() returns (r: Result<NativeContract, string>)
      requires Valid()
      modifies this`cacheMap, this`built, kit.registry`lookups
      ensures Valid() && GotContract(CeloContract.Election, r)
    {
      r := GetContract(CeloContract.Election);
    }

    /** `getEpochRewards` */
    method GetEpochRewards() returns (r: Result<NativeContract, string>)
      requires Valid()
      modifies this`cacheMap, this`built, kit.registry`lookups
      ensures Valid() && GotContract(CeloContract.EpochRewards, r)
    {
      r := GetContract(CeloContract.EpochRewards);
    }

    /** `getEscrow` */
    method GetEscrow() returns (r: Result<NativeContract, string>)
      requires Valid()
      modifies this`cacheMap, this`built, kit.registry`lookups
      ensures Valid() && GotContract(CeloContract.Escrow, r)
    {
      r := GetContract(CeloContract.Escrow);
    }

    /** `getExchange` */
    method GetExchange() returns (r: Result<NativeContract, string>)
      requires Valid()
      modifies this`cacheMap, this`built, kit.registry`lookups
      ensures Valid() && GotContract(CeloContract.Exchange, r)
    {
      r := GetContract(CeloContract.Exchange);
    }

    /** `getFeeCurrencyWhitelist` */
    method GetFeeCurrencyWhitelist() returns (r: Result<NativeContract, string>)
      requires Valid()
      modifies this`cacheMap, this`built, kit.registry`lookups
      ensures Valid() && GotContract(CeloContract.FeeCurrencyWhitelist, r)
    {
      r := GetContract(CeloContract.FeeCurrencyWhitelist);
    }

    /** `getFreezer` */
    method GetFreezer() returns (r: Result<NativeContract, string>)
      requires Valid()
      modifies this`cacheMap, this`built, kit.registry`lookups
      ensures Valid() && GotContract(CeloContract.Freezer, r)
    {
      r := GetContract(CeloContract.Freezer);
    }

    /** `getGasPriceMinimum` */
    method GetGasPriceMinimum() returns (r: Result<NativeContract, string>)
      requires Valid()
      modifies this`cacheMap, this`built, kit.registry`lookups
      ensures Valid() && GotContract(CeloContract.GasPriceMinimum, r)
    {
      r := GetContract(CeloContract.GasPriceMinimum);
    }

    /** `getGoldToken` */
    method GetGoldToken() returns (r: Result<NativeContract, string>)
      requires Valid()
      modifies this`cacheMap, this`built, kit.registry`lookups
      ensures Valid() && GotContract(CeloContract.GoldToken, r)
    {
      r := GetContract(CeloContract.GoldToken);
    }

    /** `getGovernance` */
    method GetGovernance() returns (r: Result<NativeContract, string>)
      requires Valid()
      modifies this`cacheMap, this`built, kit.registry`lookups
      ensures Valid() && GotContract(CeloContract.Governance, r)
    {
      r := GetContract(CeloContract.Governance);
    }

    /** `getLockedGold` */
    method GetLockedGold() returns (r: Result<NativeContract, string>)
      requires Valid()
      modifies this`cacheMap, this`built, kit.registry`lookups
      ensures Valid() && GotContract(CeloContract.LockedGold, r)
    {
      r := GetContract(CeloContract.LockedGold);
    }

    /** `getRandom` */
    method GetRandom() returns (r: Result<NativeContract, string>)
      requires Valid()
      modifies this`cacheMap, this`built, kit.registry`lookups
      ensures Valid() && GotContract(CeloContract.Random, r)
    {
      r := GetContract(CeloContract.Random);
    }

    /** `getRegistry` */
    method GetRegistry() returns (r: Result<NativeContract, string>)
      requires Valid()
      modifies this`cacheMap, this`built, kit.registry`lookups
      ensures Valid() && GotContract(CeloContract.Registry, r)
    {
      r := GetContract(CeloContract.Registry);
    }

    /** `getReserve` */
    method GetReserve() returns (r: Result<NativeContract, string>)
      requires Valid()
      modifies this`cacheMap, this`built, kit.registry`lookups
      ensures Valid() && GotContract(CeloContract.Reserve, r)
    {
      r := GetContract(CeloContract.Reserve);
    }

    /** `getSortedOracles` */
    method GetSortedOracles() returns (r: Result<NativeContract, string>)
      requires Valid()
      modifies this`cacheMap, this`built, kit.registry`lookups
      ensures Valid() && GotContract(CeloContract.SortedOracles, r)
    {
      r := GetContract(CeloContract.SortedOracles);
    }

    /** `getStableToken` */
    method GetStableToken() returns (r: Result<NativeContract, string>)
      requires Valid()
      modifies this`cacheMap, this`built, kit.registry`lookups
      ensures Valid() && GotContract(CeloContract.StableToken, r)
    {
      r := GetContract(CeloContract.StableToken);
    }

    /** `getTransferWhitelist` */
    method GetTransferWhitelist() returns (r: Result<NativeContract, string>)
      requires Valid()
      modifies this`cacheMap, this`built, kit.registry`lookups
      ensures Valid() && GotContract(CeloContract.TransferWhitelist, r)
    {
      r := GetContract(CeloContract.TransferWhitelist);
    }

    /** `getValidators` */
    method GetValidators() returns (r: Result<NativeContract, string>)
      requires Valid()
      modifies this`cacheMap, this`built, kit.registry`lookups
      ensures Valid() && GotContract(CeloContract.Validators, r)
    {
      r := GetContract(CeloContract.Validators);
    }
  }
}

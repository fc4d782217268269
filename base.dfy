/** Shared definitions the explorer and the contract cache import from
    `explorer/base` and `base`. */
module Base {
  import opened Web3Types

  /** The contract kinds for which the cache has a factory. */
  datatype CeloContract =
    | Accounts | Attestations | BlockchainParameters | DoubleSigningSlasher
    | DowntimeSlasher | Election | EpochRewards | Escrow | Exchange
    | FeeCurrencyWhitelist | Freezer | GasPriceMinimum | GoldToken
    | Governance | LockedGold | Random | Registry | Reserve | SortedOracles
    | StableToken | TransferWhitelist | Validators

  /** A deployed contract known to the explorer: its name, its address and
      its JSON interface. */
  datatype ContractDetails = ContractDetails(name: string, address: Address, jsonInterface: seq<AbiEntry>)

  /** `mapFromPairs`: a map holding a key for every pair, each key bound to
      the value of one of the pairs that carry it. Pairs are inserted in
      order, but nothing here relies on which of several pairs with the
      same key supplies the value. */
  function MapFromPairs<K, V>(pairs: seq<(K, V)>): (m: map<K, V>)
    ensures forall p :: p in pairs ==> p.0 in m
    ensures forall k :: k in m ==> (k, m[k]) in pairs
    decreases |pairs|
  {
    if pairs == [] then map[]
    else
      var last := pairs[|pairs| - 1];
      MapFromPairs(pairs[..|pairs| - 1])[last.0 := last.1]
  }

  /** `xs.map((x) => [key(x), val(x)])`: one pair per element, in order. */
  function PairsOf<T, K, V>(xs: seq<T>, key: T -> K, val: T -> V): (ps: seq<(K, V)>)
    ensures |ps| == |xs|
    ensures forall i :: 0 <= i < |xs| ==> ps[i] == (key(xs[i]), val(xs[i]))
  {
    seq(|xs|, i requires 0 <= i < |xs| => (key(xs[i]), val(xs[i])))
  }

  /** A map built from one pair per element has a key for every element,
      and every key is bound to the value of an element with that key. */
  lemma MapFromPairsOf<T, K, V>(xs: seq<T>, key: T -> K, val: T -> V)
    ensures forall x :: x in xs ==> key(x) in MapFromPairs(PairsOf(xs, key, val))
    ensures forall k :: k in MapFromPairs(PairsOf(xs, key, val)) ==>
      exists x :: x in xs && key(x) == k && MapFromPairs(PairsOf(xs, key, val))[k] == val(x)
  {
    var ps := PairsOf(xs, key, val);
    var m := MapFromPairs(ps);
    forall x | x in xs ensures key(x) in m {
      var i :| 0 <= i < |xs| && xs[i] == x;
      assert ps[i] in ps;
    }
    forall k | k in m ensures exists x :: x in xs && key(x) == k && m[k] == val(x) {
      assert (k, m[k]) in ps;
      var i :| 0 <= i < |ps| && ps[i] == (k, m[k]);
      assert xs[i] in xs;
    }
  }

  /** When no key repeats, every pair's value is the one stored. */
  lemma MapFromPairsDistinct<K, V>(pairs: seq<(K, V)>, i: nat)
    requires i < |pairs|
    requires forall j, l :: 0 <= j < |pairs| && 0 <= l < |pairs| && pairs[j].0 == pairs[l].0 ==> j == l
    ensures pairs[i].0 in MapFromPairs(pairs)
    ensures MapFromPairs(pairs)[pairs[i].0] == pairs[i].1
  {
    var m := MapFromPairs(pairs);
    assert pairs[i] in pairs;
    var k := pairs[i].0;
    assert (k, m[k]) in pairs;
    var j :| 0 <= j < |pairs| && pairs[j] == (k, m[k]);
  }
}

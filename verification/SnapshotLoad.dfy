/** Filling a chain state's tables from a snapshot (src/chain/chainstate.cpp:226-228, 252-275): the address
    index and the supply are rebuilt on the way. */
module SnapshotLoads {
  import opened Types
  import opened Supply
  import opened ChainLedger
  import Chainstates
  import Snapshots
  import Sorting

  ghost predicate NoRepeats<K>(ks: seq<K>) { forall i, j :: 0 <= i < j < |ks| ==> ks[i] != ks[j] }

  lemma PrefixElements<K>(ks: seq<K>, i: nat)
    requires i < |ks| && NoRepeats(ks)
    ensures ks[i] !in Sorting.Elements(ks[..i])
  {}

  lemma {:induction false} CoinKeys(es: seq<Snapshots.Entry>)
    ensures Snapshots.CoinsOf(es).Keys == Sorting.Elements(Snapshots.Points(es))
  {
    if es != [] {
      var n := |es| - 1;
      CoinKeys(es[..n]);
      Snapshots.KeysNext(Snapshots.Points(es), n);
      assert Snapshots.Points(es[..n]) == Snapshots.Points(es)[..n];
    }
  }

  lemma {:induction false} PoolKeys(ps: seq<Pool>)
    ensures Snapshots.PoolsOf(ps).Keys == Sorting.Elements(Snapshots.PoolIds(ps))
  {
    if ps != [] {
      var n := |ps| - 1;
      PoolKeys(ps[..n]);
      Snapshots.KeysNext(Snapshots.PoolIds(ps), n);
      assert Snapshots.PoolIds(ps[..n]) == Snapshots.PoolIds(ps)[..n];
    }
  }

  lemma NextCoin(es: seq<Snapshots.Entry>, i: nat)
    requires i < |es|
    ensures NoRepeats(Snapshots.Points(es)) ==> es[i].o !in Snapshots.CoinsOf(es[..i])
    ensures Snapshots.CoinsOf(es[..i + 1]) == Snapshots.CoinsOf(es[..i])[es[i].o := es[i].c]
  {
    CoinKeys(es[..i]);
    assert Snapshots.Points(es[..i]) == Snapshots.Points(es)[..i];
    if NoRepeats(Snapshots.Points(es)) { PrefixElements(Snapshots.Points(es), i); }
    assert es[..i + 1][..i] == es[..i];
  }

  lemma NextPool(ps: seq<Pool>, i: nat)
    requires i < |ps|
    ensures NoRepeats(Snapshots.PoolIds(ps)) ==> ps[i].token !in Snapshots.PoolsOf(ps[..i])
    ensures Snapshots.PoolsOf(ps[..i + 1]) == Snapshots.PoolsOf(ps[..i])[ps[i].token := ps[i]]
  {
    PoolKeys(ps[..i]);
    assert Snapshots.PoolIds(ps[..i]) == Snapshots.PoolIds(ps)[..i];
    if NoRepeats(Snapshots.PoolIds(ps)) { PrefixElements(Snapshots.PoolIds(ps), i); }
    assert ps[..i + 1][..i] == ps[..i];
  }

  /** `clear_state`. */
  method ClearState(cs: Chainstates.Chainstate)
    modifies cs`utxo, cs`byAddr, cs`tokens, cs`pools, cs`supply
    ensures cs.State() == EMPTY_STATE && BookOk(cs.utxo, cs.byAddr, cs.pools, cs.supply)
  {
    cs.utxo, cs.byAddr, cs.tokens, cs.pools, cs.supply := map[], map[], map[], map[], 0;
    assert SupplyOf(map[], map[]) == 0;
  }

  method FillCoins(cs: Chainstates.Chainstate, es: seq<Snapshots.Entry>)
    requires cs.utxo == map[] && BookOk(cs.utxo, cs.byAddr, cs.pools, cs.supply)
    modifies cs`utxo, cs`byAddr, cs`supply
    ensures cs.utxo == Snapshots.CoinsOf(es)
    ensures NoRepeats(Snapshots.Points(es)) ==> BookOk(cs.utxo, cs.byAddr, cs.pools, cs.supply)
  {
    hide BookOk, NoRepeats;
    assert es[..0] == [];
    for i := 0 to |es|
      invariant cs.utxo == Snapshots.CoinsOf(es[..i])
      invariant NoRepeats(Snapshots.Points(es)) ==> BookOk(cs.utxo, cs.byAddr, cs.pools, cs.supply)
    {
      NextCoin(es, i);
      cs.AddCoin(es[i].o, es[i].c);
    }
    assert es[..|es|] == es;
  }

  method FillTokens(cs: Chainstates.Chainstate, ts: seq<TokenInfo>)
    requires cs.tokens == map[]
    modifies cs`tokens
    ensures cs.tokens == Snapshots.TokensOf(ts)
  {
    assert ts[..0] == [];
    for i := 0 to |ts|
      invariant cs.tokens == Snapshots.TokensOf(ts[..i])
    {
      assert ts[..i + 1][..i] == ts[..i];
      cs.tokens := cs.tokens[ts[i].id := ts[i]];
    }
    assert ts[..|ts|] == ts;
  }

  method FillPools(cs: Chainstates.Chainstate, ps: seq<Pool>)
    requires cs.pools == map[]
    modifies cs`pools, cs`supply
    ensures cs.pools == Snapshots.PoolsOf(ps)
    ensures old(BookOk(cs.utxo, cs.byAddr, cs.pools, cs.supply)) && NoRepeats(Snapshots.PoolIds(ps)) ==>
              BookOk(cs.utxo, cs.byAddr, cs.pools, cs.supply)
  {
    hide NoRepeats, IndexOk;
    assert ps[..0] == [];
    ghost var fine := BookOk(cs.utxo, cs.byAddr, cs.pools, cs.supply) && NoRepeats(Snapshots.PoolIds(ps));
    for i := 0 to |ps|
      invariant cs.pools == Snapshots.PoolsOf(ps[..i])
      invariant fine ==> BookOk(cs.utxo, cs.byAddr, cs.pools, cs.supply)
    {
      NextPool(ps, i);
      if fine {
        SupplyPoolAdd(cs.utxo, cs.pools, ps[i].token, ps[i]);
        WrapAdd(SupplyOf(cs.utxo, cs.pools), ps[i].qnt, SupplyOf(cs.utxo, cs.pools[ps[i].token := ps[i]]));
      }
      cs.pools := cs.pools[ps[i].token := ps[i]];
      cs.supply := Add64(cs.supply, ps[i].qnt);
    }
    assert ps[..|ps|] == ps;
  }

  /** `parse_state` on a snapshot that was read: afterwards coins, tokens and pools are the snapshot's, later entries
      overwriting earlier ones; and if no key repeats, as in every listing of a state, the address index and the
      supply counter are those of its coins and pools. */
  method LoadState(cs: Chainstates.Chainstate, s: Snapshots.Snapshot)
    modifies cs`utxo, cs`byAddr, cs`tokens, cs`pools, cs`supply
    ensures cs.State() == Snapshots.StateOf(s)
    ensures NoRepeats(Snapshots.Points(s.coins)) && NoRepeats(Snapshots.PoolIds(s.pools)) ==>
              BookOk(cs.utxo, cs.byAddr, cs.pools, cs.supply)
  {
    hide BookOk, NoRepeats;
    ClearState(cs);
    FillCoins(cs, s.coins);
    FillTokens(cs, s.tokens);
    FillPools(cs, s.pools);
  }

  lemma ListsDistinct(st: State, s: Snapshots.Snapshot)
    requires Snapshots.Lists(st, s)
    ensures NoRepeats(Snapshots.Points(s.coins)) && NoRepeats(Snapshots.PoolIds(s.pools))
  {
    SortedNoRepeats((a: OutPoint, b: OutPoint) => Snapshots.PointLess(a, b), Snapshots.Points(s.coins));
    SortedNoRepeats((a: Hash, b: Hash) => Snapshots.HashLess(a, b), Snapshots.PoolIds(s.pools));
  }

  lemma SortedNoRepeats<K(!new)>(less: (K, K) -> bool, ks: seq<K>)
    requires Sorting.Sorted(less, ks) && forall a :: !less(a, a)
    ensures NoRepeats(ks)
  {}
}

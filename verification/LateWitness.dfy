/** Where the best chain can be missed: after a search that stopped short, and a witness that came late
    (src/chain/chainstate.cpp:650-657, 853-855). */
module LateWitness {
  import opened Types
  import opened Ledger
  import opened LedgerLaws
  import opened Emission
  import opened Replay
  import opened Undos
  import opened BlockTree
  import opened ChainLedger
  import opened Commitments
  import opened Rejoins
  import opened ChainSteps
  import opened Chainstates
  import Selections

  const ENV: Env := Env((h: Header) => h.nonce as Hash, bits => 1, b => true, (b, w) => true,
                        Network(1_000_000, 1, (x, h, st) => 0, x => 0,
                                (x: Hash, ws: seq<seq<Witness>>) => ws == CommittedTo(x)))

  /** The witnesses that the header of a block commits to. */
  function CommittedTo(x: Hash): seq<seq<Witness>> { if x == 2 then [[], [Falcon([], [])]] else [[]] }

  /** A network on which a reward can be spent in the next block, and where no signature is good. */
  function NoSignatures(r: Rules): Rules { r.(falcon := (pk, sig, id) => false, maturity := 1) }

  const PAID: TxOut := TxOut(100_000, QNT, 7)

  /** Genesis 0; block 1 pays a reward; block 2 spends it, with a bad signature. */
  function RewardCore(): Core { Core(2, [], [PAID], [], 1, []) }

  function SpendCore(r: Rules): Core { Core(2, [OutPoint(r.txid(RewardCore()), 0)], [PAID], [], 0, []) }

  function Spend(r: Rules): Transaction { Transaction(SpendCore(r), [Falcon([], [])]) }

  function Empty(height: Amount): Transaction { Transaction(Core(2, [], [], [], height, []), []) }

  function BlockAt(r: Rules, x: nat): Block
    requires x <= 2
  {
    var h := Header(2, if x == 2 then 1 else 0, 0, 0, 0, 0, 0, x);
    if x == 0 then Block(h, [Empty(0)])
    else if x == 1 then Block(h, [Transaction(RewardCore(), [])])
    else Block(h, [Empty(2), Spend(r)])
  }

  lemma Shapes(r: Rules, x: nat)
    requires x <= 2
    ensures ShapeOk(BlockAt(r, x), x)
  {
    Selections.CoinbaseBasic(Empty(x), 0, 7);
    Selections.CoinbaseBasic(Transaction(RewardCore(), []), 100_000, 7);
    SpendBasic(r);
  }

  lemma SpendBasic(r: Rules)
    ensures BasicOk(Spend(r))
  {
    assert CheckOuts([PAID], false, 1, Add64(0, 100_000)) == None;
  }

  /** The one coin there is after block 1. */
  function Reward(r: Rules): State
  {
    State(map[OutPoint(r.txid(RewardCore()), 0) := Coin(PAID, 1, true)], map[], map[])
  }

  lemma FirstConnects(r: Rules)
    ensures ConnectState(r, EMPTY_STATE, BlockAt(r, 0), 0, false) == Ok(EMPTY_STATE)
    ensures ConnectState(r, EMPTY_STATE, BlockAt(r, 1), 1, false) == Ok(Reward(r))
  {
    assert BlockAt(r, 0).txs[1..] == [] && BlockAt(r, 1).txs[1..] == [];
    assert ApplyCoinbase(r, EMPTY_STATE, Empty(0), 0) == EMPTY_STATE;
    var id := r.txid(RewardCore());
    assert [PAID][..0] == [] && Created(id, [PAID][..0], 1, true) == map[];
    assert ApplyCoinbase(r, EMPTY_STATE, BlockAt(r, 1).txs[0], 1) == Reward(r);
    assert TotalOut64([PAID][..0]) == 0 && TotalOut64([PAID]) == 100_000;
    assert Subsidy64(1) >= 100_000;
  }

  /** Without signatures the spend is fine; with them it is not. */
  lemma SpendNeedsSignature(r: Rules)
    ensures var rr := NoSignatures(r);
            ApplyTx(rr, Reward(rr), Spend(rr), 2, false).Ok? && ApplyTx(rr, Reward(rr), Spend(rr), 2, true).Err?
  {
    var rr := NoSignatures(r);
    var o, c, coins := OutPoint(rr.txid(RewardCore()), 0), SpendCore(rr), Reward(rr).coins;
    assert c.ins[..0] == [] && Gather(rr, coins, c.ins[..0], 2) == Ok([]);
    var cs := [Coin(PAID, 1, true)];
    assert c.ins[|c.ins| - 1] == o && o in coins && coins[o] == Coin(PAID, 1, true) && [] + [coins[o]] == cs;
    assert Gather(rr, coins, c.ins, 2) == Ok(cs);
    assert cs[..0] == [] && CoinFlow(cs[..0]) == map[] && CoinFlow(cs) == map[QNT := 100_000];
    assert c.outs[..0] == [] && OutFlow(c.outs[..0]) == map[] && OutFlow(c.outs) == map[QNT := 100_000];
    var s := Start(c, cs, map[]);
    assert RunOps(Call(rr, c, 2, cs, map[]), s, 0) == Ok(s);
    assert FeeOf(Flows(s.plus, s.minus)) == Ok(0);
    assert VerifyWitness(rr, Spend(rr), cs).Some?;
  }

  lemma SecondConnects(r: Rules)
    ensures var rr := NoSignatures(r);
            && ConnectState(rr, Reward(rr), BlockAt(rr, 2), 2, false).Ok?
            && ConnectState(rr, Reward(rr), BlockAt(rr, 2), 2, true).Err?
  {
    hide ApplyTx;
    var rr := NoSignatures(r);
    var b, st := BlockAt(rr, 2), Reward(rr);
    SpendNeedsSignature(r);
    assert b.txs[1..] == [Spend(rr)] && [Spend(rr)][..0] == [];
    assert ApplyCoinbase(rr, st, Empty(2), 2) == st;
    assert ApplyAll(rr, st, [Spend(rr)][..0], 2, false) == Ok(Applied(st, 0))
        && ApplyAll(rr, st, [Spend(rr)][..0], 2, true) == Ok(Applied(st, 0));
  }

  // ---------------------------------------------------------------- the state

  const NODE0: Node := Node(None, 0, 1, None, 0)
  const NODE1: Node := Node(Some(0), 1, 2, Some(0), 1)
  const NODE2: Node := Node(Some(1), 2, 3, Some(0), 2)
  const NODES: Tree := map[0 := NODE0][1 := NODE1][2 := NODE2]
  const CHILDREN: map<Hash, seq<Hash>> := AddChild(AddChild(map[0 := []], 0, 1), 1, 2)

  const DATA: set<Hash> := {0, 1, 2}
  const BAD: set<Hash> := {2}

  function Store3(r: Rules): Store { map[0 := BlockAt(r, 0), 1 := BlockAt(r, 1), 2 := BlockAt(r, 2)] }

  /** Both witness files are there; that of 2 came after it was first connected. */
  function Files2(): Files { map[1 := [[]], 2 := [[], [Falcon([], [])]]] }

  lemma NodesAre()
    ensures NODE0 == Node(None, 0, 1, None, 0) && NODES == map[0 := NODE0][1 := NODE1][2 := NODE2]
    ensures CHILDREN == AddChild(AddChild(map[0 := []], 0, 1), 1, 2)
  {}

  lemma TreeFine(r: Rules)
    ensures TreeInv(NODES, 0, CHILDREN)
  {
    hide *;
    NodesAre();
    Shapes(r, 0);
    GenesisTree(0, BlockAt(r, 0), NODE0);
    var t0: Tree := map[0 := NODE0];
    FirstUp(t0);
    GrowTree(t0, 0, map[0 := []], 0, 1, NODE1);
    SecondUp(t0[1 := NODE1]);
    GrowTree(t0[1 := NODE1], 0, AddChild(map[0 := []], 0, 1), 1, 2, NODE2);
  }

  lemma FirstUp(t: Tree)
    requires t == map[0 := NODE0]
    ensures Grown(t, t[1 := NODE1], 0, 1, NODE1)
    ensures TreeInv(t, 0, map[0 := []]) ==> NODE1.skip == Some(Up(t, 0, 0, SkipHeight(NODE1.height)))
  {}

  lemma SecondUp(t: Tree)
    requires t == map[0 := NODE0][1 := NODE1]
    ensures Grown(t, t[2 := NODE2], 1, 2, NODE2)
    ensures TreeInv(t, 0, AddChild(map[0 := []], 0, 1)) ==> NODE2.skip == Some(Up(t, 0, 1, SkipHeight(NODE2.height)))
  {
    if TreeInv(t, 0, AddChild(map[0 := []], 0, 1)) { assert Up(t, 0, 1, 0) == Up(t, 0, 0, 0); }
  }

  lemma ChainFine()
    ensures ChainOk(NODES, 0, [0]) && ChainOk(NODES, 0, [0, 1, 2]) && SeqsOk(NODES, 3)
  {}

  lemma FlagsFine(r: Rules)
    ensures DataOk(NODES, 0, Store3(r), {0, 1, 2}) && FlagsOk(NODES, [0], {0, 1, 2}, {2})
    ensures CandidatesOk(NODES, {0, 1, 2}, {2}, {}, 2) && BestHeaderOk(NODES, {2}, 1) && GenesisOk(Store3(r), 0)
  {
    hide ShapeOk;
    Shapes(r, 0);
    Shapes(r, 1);
    Shapes(r, 2);
    assert ParentIn(NODES, 1, {0, 1, 2}) && ParentIn(NODES, 2, {0, 1, 2});
  }

  /** Block 2 is rightly failed: with its witnesses it does not connect, though without them the whole branch replays.
      */
  lemma TwoFails(r: Rules)
    ensures var rr := NoSignatures(r);
            && FailedOk(rr, ENV.net, NODES, 0, Store3(rr), {2})
            && Replayed(rr, [BlockAt(rr, 0), BlockAt(rr, 1), BlockAt(rr, 2)]).Some?
  {
    hide ConnectState, ShapeOk;
    var rr := NoSignatures(r);
    var b0, b1, b2, store := BlockAt(rr, 0), BlockAt(rr, 1), BlockAt(rr, 2), Store3(rr);
    Shapes(rr, 0);
    Shapes(rr, 1);
    Shapes(rr, 2);
    FirstConnects(rr);
    SecondConnects(r);
    assert Replayed(rr, []) == Some(EMPTY_STATE) && [b0][..0] == [];
    assert Replayed(rr, [b0]) == Some(EMPTY_STATE);
    assert [b0, b1][..1] == [b0];
    assert Replayed(rr, [b0, b1]) == Some(Reward(rr));
    assert [b0, b1, b2][..2] == [b0, b1];
    TreeFine(rr);
    ChainFine();
    TwoBad(rr);
  }

  lemma TwoBad(rr: Rules)
    requires Replayed(rr, [BlockAt(rr, 0), BlockAt(rr, 1)]) == Some(Reward(rr))
               && ConnectState(rr, Reward(rr), BlockAt(rr, 2), 2, true).Err?
    requires TreeOk(NODES, 0) && ChainOk(NODES, 0, [0, 1, 2])
    ensures FailedOk(rr, ENV.net, NODES, 0, Store3(rr), {2})
  {
    hide ConnectState, Replayed, TreeOk, ChainOk;
    var store, b2, c := Store3(rr), BlockAt(rr, 2), [0, 1];
    ReplaysIff(rr, [BlockAt(rr, 0), BlockAt(rr, 1)], Reward(rr));
    assert BlocksOf(store, c) == [BlockAt(rr, 0), BlockAt(rr, 1)];
    var ws := CommittedTo(2);
    assert WithWitnesses(b2, ws) == b2 by { assert WithWitnesses(b2, ws).txs == b2.txs; }
    assert BadlySigned(rr, ENV.net, Reward(rr), b2, 2, |c|, ws);
    assert NoConnect(rr, ENV.net, Reward(rr), store[2], 2, |c|);
    assert BadOn(rr, ENV.net, store, c, 2);
    assert c + [2] == [0, 1, 2];
    assert Unsound(rr, ENV.net, NODES, 0, store, 2);
    assert IsAncestor(NODES, 0, 2, 2);
  }

  /** No snapshots yet; the chain was once up to height 2. */
  const HELD: Snaps := Snaps(map[], [2], 2, {})

  lemma LedgerFine(r: Rules)
    requires r.TxidsIdeal()
    ensures LedgerValues(r, ENV.net, false, Store3(r), [0], EMPTY_STATE, map[], 0, IdMap(r, BlockAt(r, 0).txs, 0),
              map[], HELD, Files2())
  {
    hide ShapeOk;
    Shapes(r, 0);
    var g := BlockAt(r, 0);
    GenesisLedger(r, 0, g);
    ReplayStable(r, map[0 := g], Store3(r), [0], EMPTY_STATE, IdMap(r, g.txs, 0), map[]);
    assert SnapsOk(r, ENV.net, Store3(r), [0], HELD);
  }

  /** A state with these fields is valid, and its search cannot stop short. */
  lemma Prepared(r: Rules)
    requires r.TxidsIdeal()
    ensures var rr := NoSignatures(r);
            && rr.TxidsIdeal() && ENV.net.Ok() && ShapeOk(BlockAt(rr, 0), 0)
                && ENV.headerHash(BlockAt(rr, 0).header) == 0
            && |BlockAt(rr, 0).txs| == 1 && BlockAt(rr, 0).txs[0].core.outs == []
            && LedgerValues(rr, ENV.net, false, Store3(rr), [0], EMPTY_STATE, map[], 0,
                IdMap(rr, BlockAt(rr, 0).txs, 0), map[], HELD, Files2())
            && TreeValues(rr, ENV.net, NODES, 0, CHILDREN, [0], Store3(rr), DATA, BAD)
            && CandidatesOk(NODES, DATA, BAD, {}, 2) && BestHeaderOk(NODES, BAD, 1) && SeqsOk(NODES, 3)
                && GenesisOk(Store3(rr), 0)
            && AllWitnessed(false, 0, Store3(rr), Files2()) && |NODES| < 999_999
            && Replayed(rr, [BlockAt(rr, 0), BlockAt(rr, 1), BlockAt(rr, 2)]).Some?
  {
    hide LedgerValues, TreeInv, ChainOk, DataOk, FlagsOk, FailedOk, CandidatesOk, BestHeaderOk, SeqsOk, ShapeOk,
         Replayed, IdMap;
    var rr := NoSignatures(r);
    Shapes(rr, 0);
    LedgerFine(rr);
    TreeFine(rr);
    ChainFine();
    FlagsFine(rr);
    TwoFails(r);
    assert NODES.Keys == {0, 1, 2};
    assert |NODES| == |NODES.Keys| == 3;
  }

  lemma HeldIs()
    ensures HELD == Snaps(map[], [2], 2, {})
  {}

  lemma Right(rr: Rules)
    ensures AllRight(rr, ENV.net, Store3(rr), [0])
  {}

  /** With no candidates the search ends at once, below block 1. */
  lemma Missed(failed: set<Hash>, chain: seq<Hash>)
    requires Settles(NODES, DATA, BAD, failed, {}, [0], chain, 2, true)
    ensures chain == [0] && !Unbeaten(NODES, DATA - failed, 0)
  {
    assert Unbeaten(NODES, {}, [0][|[0]| - 1]);
    assert 1 in DATA - failed && NODES[1].work > NODES[0].work;
  }

  /** A valid state in which the search settles on a tip that is not best. Block 2 was once the heaviest tip, so block 1
      was dropped as a candidate; a search that stopped short left the chain at genesis; then the witnesses of 2 came,
      and were bad. Block 1 is usable and heavier than genesis, and nothing remembers it. */
  method MissedAfterStall(r: Rules) returns (cs: Chainstate, end: Activation)
    requires r.TxidsIdeal()
    ensures cs.Valid() && end == Settled && cs.chain == [0] && cs.chainData == DATA && !cs.BestTip()
  {
    hide *;
    Prepared(r);
    HeldIs();
    var rr := NoSignatures(r);
    cs := new Chainstate.At(rr, ENV, 0, IdMap(rr, BlockAt(rr, 0).txs, 0), NODES, CHILDREN, 3, DATA, BAD, {}, 1, 2, 2,
        Store3(rr), Files2());
    Right(rr);
    end := cs.ActivateBestChain();
    NeverStuck(cs.rules, ENV.net, false, cs.nodes, 0, cs.children, cs.chain, cs.undoFiles, cs.store, cs.witnessFiles,
               cs.bestHeader, cs.chainData, cs.failed);
    Missed(cs.failed, cs.chain);
  }
}

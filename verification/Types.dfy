/** Values shared by the whole model: 64-bit amounts, hashes, coins, tokens, pools and
    transactions, plus the consensus constants of src/consensus/limits.h. */
module Types {

  const TWO64: int := 0x1_0000_0000_0000_0000

  /** A `uint64_t`. Every place where the program's own arithmetic can leave this range
      goes through `Add64`, `Sub64` or an explicit `% TWO64`. */
  type Amount = x: int | 0 <= x < 0x1_0000_0000_0000_0000

  type byte = x: int | 0 <= x < 256

  /** A 256-bit hash, as the big-endian number it is compared as. It is left unbounded so that
      a collision-free hash function exists; `0` is the all-zero hash. */
  type Hash = nat

  const QNT: Hash := 0

  const MAX_MONEY: int := 10_000_000_000_000_000_000
  const MAX_TOKEN_SUPPLY: int := 10_000_000_000_000_000_000
  const MIN_LIQUIDITY: int := 1000
  const DUST_LIMIT: int := 10_000
  const MAX_TX_OPS: int := 16
  const MAX_TX_INPUTS: int := 10_000
  const MAX_TX_OUTPUTS: int := 10_000
  const MAX_COINBASE_EXTRA: int := 100
  const MAX_TICKER: int := 10
  const MAX_TOKEN_NAME: int := 32
  const MAX_TOKEN_URI: int := 120
  const MAX_TOKEN_DECIMALS: int := 10
  const MAX_MESSAGE_TEXT: int := 280
  const GIFT_PRICE: seq<int> := [0, 1_000_000_000, 5_000_000_000, 50_000_000_000, 250_000_000_000]

  datatype Option<+T> = None | Some(value: T)

  function Add64(x: Amount, y: Amount): Amount { (x + y) % TWO64 }

  function Sub64(x: Amount, y: Amount): Amount { (x - y) % TWO64 }

  function Wrap64(x: int): Amount { x % TWO64 }

  datatype OutPoint = OutPoint(txid: Hash, n: nat)

  datatype TxOut = TxOut(value: Amount, asset: Hash, addr: Hash)

  datatype TxOp =
    | CreateToken(ticker: seq<byte>, name: seq<byte>, decimals: byte, supply: Amount, uri: seq<byte>)
    | PoolCreate(token: Hash, qnt: Amount, tok: Amount, shares: Amount)
    | AddLiquidity(token: Hash, qnt: Amount, tok: Amount, shares: Amount)
    | RemoveLiquidity(token: Hash, shares: Amount, qnt: Amount, tok: Amount)
    | Swap(token: Hash, sell: bool, amtIn: Amount, amtOut: Amount)
    | Message(from: Hash, to: Hash, gift: byte, text: seq<byte>)

  datatype Witness = Ref(input: nat) | Falcon(pk: seq<byte>, sig: seq<byte>)

  /** The part of a transaction its id commits to. */
  datatype Core = Core(version: nat, ins: seq<OutPoint>, outs: seq<TxOut>, ops: seq<TxOp>,
                       lockHeight: Amount, extra: seq<byte>)

  datatype Transaction = Transaction(core: Core, wits: seq<Witness>)

  datatype Coin = Coin(out: TxOut, height: nat, coinbase: bool)

  datatype TokenInfo = TokenInfo(id: Hash, ticker: seq<byte>, name: seq<byte>, uri: seq<byte>, decimals: byte,
                                 supply: Amount, createTxid: Hash, height: nat)

  datatype Pool = Pool(token: Hash, qnt: Amount, tok: Amount, shares: Amount)

  /** What `StateReader` exposes: unspent coins, tokens and pools. */
  datatype State = State(coins: map<OutPoint, Coin>, tokens: map<Hash, TokenInfo>, pools: map<Hash, Pool>)

  const EMPTY_STATE: State := State(map[], map[], map[])

  predicate IsCoinbase(c: Core) { c.ins == [] }

  /** The foreign functions of the ledger: BLAKE3 in its domain-separated uses, Falcon
      verification, and the coinbase maturity of the network. */
  datatype Rules = Rules(
    txid: Core -> Hash,
    tokenId: (OutPoint, nat) -> Hash,
    shareId: Hash -> Hash,
    addressOf: seq<byte> -> Hash,
    falcon: (seq<byte>, seq<byte>, Hash) -> bool,
    maturity: nat)
  {
    /** Transaction ids do not collide. */
    ghost predicate TxidsIdeal() {
      forall a, b :: txid(a) == txid(b) ==> a == b
    }

    /** Token ids, pool-share ids and the zero id never meet, and share ids do not collide. */
    ghost predicate AssetsIdeal() {
      && (forall o, i :: tokenId(o, i) != QNT)
      && (forall t :: shareId(t) != QNT)
      && (forall t, o, i :: shareId(t) != tokenId(o, i))
      && (forall t, u :: shareId(t) == shareId(u) ==> t == u)
    }
  }
}

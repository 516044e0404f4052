/**
 The entities of the exchange (x/dex/types).
 */
module Types {
  import opened Bytes
  import opened Rational
  import opened Price

  type Denom = bytes
  type OrderID = bytes

  /** An account, identified by its account number. */
  type Account = nat

  datatype Side = Buy | Sell {
    function Opposite(): Side {
      if Buy? then Sell else Buy
    }
  }

  datatype OrderType = UnspecifiedType | Limit | Market

  datatype TimeInForce = UnspecifiedTime | GTC | IOC | FOK

  datatype Coin = Coin(denom: Denom, amount: int)

  type Uint64 = n: int | 0 <= n <= MAX_UINT64

  const NANOS: int := 1_000_000_000

  /** A point in time in nanoseconds; its seconds fit 64 bits. */
  type Time = t: int | -0x8000_0000_0000_0000 * 1_000_000_000 <= t < 0x8000_0000_0000_0000 * 1_000_000_000

  /** The whole seconds of a time, rounded down. */
  function Unix(time: int): int {
    time / NANOS
  }

  /** Block height (0 if not set) and block time until which an order lives. */
  datatype GoodTil = GoodTil(height: Uint64, time: Option<Time>)

  datatype Order = Order(
    creator: Account,
    orderType: OrderType,
    id: OrderID,
    baseDenom: Denom,
    quoteDenom: Denom,
    price: Option<CanonicalPrice>,
    quantity: int,
    side: Side,
    goodTil: Option<GoodTil>,
    timeInForce: TimeInForce
  ) {
    function SpendDenom(): Denom {
      if side.Buy? then quoteDenom else baseDenom
    }

    function ReceiveDenom(): Denom {
      if baseDenom == SpendDenom() then quoteDenom else baseDenom
    }
  }

  /** An order book record: the part of an open order the matching engine sees. */
  datatype Record = Record(
    book: nat,
    side: Side,
    price: Price,
    sequence: nat,
    id: OrderID,
    account: Account,
    remaining: int,
    spendable: int
  )

  /** The value of a price that is not zero. */
  function PriceOf(p: Price): Pos
    requires 0 < p.num
  {
    ToRat(p)
  }

  /** A record as it may rest in the store: its key fits the fixed-width encodings. */
  predicate Storable(r: Record) {
    Canonical(r.price) && r.book <= MAX_UINT32 && r.sequence <= MAX_UINT64
  }

  /** No two records of s share a sequence number. */
  ghost predicate DistinctSeqs(s: set<Record>) {
    forall a, b | a in s && b in s && a.sequence == b.sequence :: a == b
  }
}

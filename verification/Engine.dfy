/**
 Matching an incoming order with a queue of makers (x/dex/matching-engine): the
 fold over makers that says what must happen, and the engine that collects it
 into a matching result.
 */
module Engine {
  import opened Bytes
  import opened Rational
  import opened Price
  import opened Types
  import opened Amounts
  import opened Matching
  import opened Actions
  import opened Orders
  import opened Finder

  // ----- what a matching does -----

  /** One maker's part in a matching. */
  datatype Fill = Fill(maker: Record, trade: Trade, after: Record, closed: bool)

  /** The fills in order, what is left of the taker, and whether it was closed. */
  datatype Outcome = Outcome(fills: seq<Fill>, taker: Record, filled: bool)

  ghost predicate Ready(taker: Record, makers: seq<Record>) {
    && Matchable(taker) && Covered(taker)
    && forall m | m in makers :: Resting(m) && PriceAccepted(taker, m)
  }

  ghost function FillOf(taker: Record, maker: Record): Fill
    requires Matchable(taker) && MakerOk(maker)
  {
    var (trade, close) := MatchRecords(taker, maker);
    var after := AfterMaker(taker, maker, trade);
    Fill(maker, trade, after, !close.CloseTaker? || !IsExecutableAsMaker(after))
  }

  ghost predicate ClosesTaker(taker: Record, maker: Record)
    requires Matchable(taker) && MakerOk(maker)
  {
    MatchRecords(taker, maker).1.CloseTaker? || MatchRecords(taker, maker).1.CloseBoth?
  }

  lemma ReadyNext(taker: Record, makers: seq<Record>)
    requires Ready(taker, makers) && 0 < |makers|
    ensures MakerOk(makers[0])
    ensures Ready(AfterTaker(taker, FillOf(taker, makers[0]).trade), makers[1..])
  {
    hide MatchRecords, Covered, PriceAccepted, Resting, IsExecutableAsMaker;
    RestingAmounts(makers[0]);
    TakerStaysCovered(taker, makers[0]);
    var after := AfterTaker(taker, FillOf(taker, makers[0]).trade);
    forall m | m in makers[1..] ensures PriceAccepted(after, m) {
      SamePriceAccepted(taker, after, m);
    }
  }

  lemma SamePriceAccepted(taker: Record, after: Record, m: Record)
    requires after.side == taker.side && after.price == taker.price
    ensures PriceAccepted(after, m) <==> PriceAccepted(taker, m)
  {
  }

  /** The taker meets the makers one after another until it is closed or none is left. */
  ghost function MatchAll(taker: Record, makers: seq<Record>): Outcome
    requires Ready(taker, makers)
    decreases |makers|
  {
    if |makers| == 0 then Outcome([], taker, false)
    else
      ReadyNext(taker, makers);
      var fill := FillOf(taker, makers[0]);
      var rest := AfterTaker(taker, fill.trade);
      if ClosesTaker(taker, makers[0]) then Outcome([fill], rest, true)
      else
        var o := MatchAll(rest, makers[1..]);
        Outcome([fill] + o.fills, o.taker, o.filled)
  }

  /** A fill of a resting maker, as the rest of the exchange sees it. */
  ghost predicate GoodFill(f: Fill) {
    && Resting(f.maker)
    && f.after == f.maker.(remaining := f.after.remaining, spendable := f.after.spendable)
    && 0 <= f.trade.takerSpends && 0 <= f.trade.takerReceives
    && 0 <= f.after.remaining && 0 <= f.after.spendable
    && f.maker.spendable == f.after.spendable + f.trade.takerReceives
    && ExpectedOf(f.maker) == ExpectedOf(f.after) + f.trade.takerSpends
    && ExpectedAmount(f.after.side, f.after.remaining, f.after.price) == Some(ExpectedOf(f.after) as int)
    && (!f.closed ==> Resting(f.after))
    && (f.trade.takerSpends == 0 <==> f.trade.takerReceives == 0)
    && (f.trade.takerSpends == 0 ==> !f.closed && f.after == f.maker)
  }

  lemma FillIsGood(taker: Record, maker: Record)
    requires Matchable(taker) && Resting(maker)
    ensures MakerOk(maker) && GoodFill(FillOf(taker, maker))
  {
    hide MatchRecords, Lots, CeilMul, ToRat, IsExecutableAsMaker, MulCeil, Storable;
    RestingAmounts(maker);
    FillKeepsAmounts(taker, maker);
    ClosedMakerLeavesRemainder(taker, maker);
    MakerFill(taker, maker);
    var f, n := FillOf(taker, maker), Lots(taker, maker);
    ToRatPositive(maker.price);
    MulCeilIsCeiling(f.after.remaining, f.after.price);
    if n == 0 {
      assert f.trade.takerSpends == 0 && f.trade.takerReceives == 0;
    } else {
      PositiveProduct(n, SpendsPerLot(maker));
      PositiveProduct(n, ReceivesPerLot(maker));
    }
  }

  /**
   Every maker met is closed except possibly the last, and that one stays only if the taker
   is closed: a taker that is not closed has consumed every maker offered.
   */
  lemma {:induction false} OnlyLastStaysOpen(taker: Record, makers: seq<Record>)
    requires Ready(taker, makers)
    ensures var o := MatchAll(taker, makers);
            && |o.fills| <= |makers|
            && (forall i | 0 <= i < |o.fills| :: GoodFill(o.fills[i]) && o.fills[i].maker == makers[i])
            && (forall i | 0 <= i < |o.fills| - 1 :: o.fills[i].closed)
            && (!o.filled ==> |o.fills| == |makers| && forall i | 0 <= i < |o.fills| :: o.fills[i].closed)
    decreases |makers|
  {
    hide GoodFill, IsExecutableAsMaker, MatchRecords;
    if |makers| != 0 {
      ReadyNext(taker, makers);
      FillIsGood(taker, makers[0]);
      var fill := FillOf(taker, makers[0]);
      if !ClosesTaker(taker, makers[0]) {
        NoneClosedImpossible(taker, makers[0]);
        OnlyLastStaysOpen(AfterTaker(taker, fill.trade), makers[1..]);
      }
    }
  }

  lemma NoneClosedImpossible(taker: Record, maker: Record)
    requires Matchable(taker) && MakerOk(maker)
    ensures !MatchRecords(taker, maker).1.NoneClosed?
  {
    hide Lt, Eq;
    MatchTradesLots(taker, maker);
  }

  /** What is left of the taker: never negative, still covered, and smaller by what was traded. */
  lemma {:induction false} TakerAfterMatching(taker: Record, makers: seq<Record>)
    requires Ready(taker, makers)
    ensures var o := MatchAll(taker, makers);
            && Matchable(o.taker) && Covered(o.taker)
            && o.taker == taker.(remaining := o.taker.remaining, spendable := o.taker.spendable)
            && o.taker.remaining <= taker.remaining
    decreases |makers|
  {
    hide Covered, MatchRecords, IsExecutableAsMaker;
    if |makers| != 0 {
      ReadyNext(taker, makers);
      var t := FillOf(taker, makers[0]).trade;
      MatchTradesLots(taker, makers[0]);
      if ClosesTaker(taker, makers[0]) {
        TakerStaysCovered(taker, makers[0]);
      } else {
        TakerAfterMatching(AfterTaker(taker, t), makers[1..]);
      }
    }
  }

  // ----- what a matching moves between the ledgers -----

  /** What a fill unlocks of a maker's balances: what it paid and, once closed, all that is left. */
  ghost function Unlocks(f: Fill, reserve: Option<Coin>, denom: Denom, a: Account, d: Denom): int {
    if f.maker.account != a then 0
    else (if d == denom then f.trade.takerReceives + (if f.closed then f.after.spendable else 0) else 0)
         + (if f.closed then ReserveOf(reserve, d) else 0)
  }

  /** What a fill takes off a maker's expectations. */
  ghost function Unexpects(f: Fill, denom: Denom, a: Account, d: Denom): int
    requires 0 <= f.after.remaining && 0 < f.after.price.num
  {
    if f.maker.account != a || d != denom then 0
    else f.trade.takerSpends + (if f.closed then ExpectedOf(f.after) else 0)
  }

  ghost predicate GoodFills(fills: seq<Fill>) {
    forall i | 0 <= i < |fills| :: GoodFill(fills[i])
  }

  /** The order data of every maker closed is on record. */
  ghost predicate DataKnown(fills: seq<Fill>, orders: map<nat, OrderData>) {
    forall i | 0 <= i < |fills| && fills[i].closed :: fills[i].maker.sequence in orders
  }

  ghost function ReserveAt(orders: map<nat, OrderData>, q: nat): Option<Coin> {
    if q in orders then orders[q].reserve else None
  }

  ghost function Unlocked(fills: seq<Fill>, orders: map<nat, OrderData>, denom: Denom, a: Account, d: Denom): int
    requires GoodFills(fills)
  {
    if |fills| == 0 then 0
    else Unlocked(fills[..|fills| - 1], orders, denom, a, d)
         + Unlocks(fills[|fills| - 1], ReserveAt(orders, fills[|fills| - 1].maker.sequence), denom, a, d)
  }

  /** What fills take off the balances their makers pledged. */
  ghost function Unpledged(fills: seq<Fill>, denom: Denom, a: Account, d: Denom): int
    requires GoodFills(fills)
  {
    if |fills| == 0 then 0
    else Unpledged(fills[..|fills| - 1], denom, a, d) + Unlocks(fills[|fills| - 1], None, denom, a, d)
  }

  ghost function Unexpected(fills: seq<Fill>, orders: map<nat, OrderData>, denom: Denom, a: Account, d: Denom): int
    requires GoodFills(fills)
  {
    if |fills| == 0 then 0
    else Unexpected(fills[..|fills| - 1], orders, denom, a, d) + Unexpects(fills[|fills| - 1], denom, a, d)
  }

  ghost function Spent(fills: seq<Fill>): int {
    if |fills| == 0 then 0 else Spent(fills[..|fills| - 1]) + fills[|fills| - 1].trade.takerSpends
  }

  ghost function Received(fills: seq<Fill>): int {
    if |fills| == 0 then 0 else Received(fills[..|fills| - 1]) + fills[|fills| - 1].trade.takerReceives
  }

  /** What a fill makes one account pay to another. */
  ghost function Payment(f: Fill, order: Order, from: Account, to: Account, d: Denom): int {
    (if from == order.creator && to == f.maker.account && d == order.SpendDenom() then f.trade.takerSpends else 0)
    + (if from == f.maker.account && to == order.creator && d == order.ReceiveDenom() then f.trade.takerReceives else 0)
  }

  ghost function Paid(fills: seq<Fill>, order: Order, from: Account, to: Account, d: Denom): int {
    if |fills| == 0 then 0
    else Paid(fills[..|fills| - 1], order, from, to, d) + Payment(fills[|fills| - 1], order, from, to, d)
  }

  /** What a fill makes an account pay. */
  ghost function Pays(f: Fill, order: Order, a: Account, d: Denom): int {
    (if a == order.creator && d == order.SpendDenom() then f.trade.takerSpends else 0)
    + (if a == f.maker.account && d == order.ReceiveDenom() then f.trade.takerReceives else 0)
  }

  /** What a fill makes an account receive. */
  ghost function Gets(f: Fill, order: Order, a: Account, d: Denom): int {
    (if a == f.maker.account && d == order.SpendDenom() then f.trade.takerSpends else 0)
    + (if a == order.creator && d == order.ReceiveDenom() then f.trade.takerReceives else 0)
  }

  ghost function PaidBy(fills: seq<Fill>, order: Order, a: Account, d: Denom): int {
    if |fills| == 0 then 0 else PaidBy(fills[..|fills| - 1], order, a, d) + Pays(fills[|fills| - 1], order, a, d)
  }

  ghost function PaidTo(fills: seq<Fill>, order: Order, a: Account, d: Denom): int {
    if |fills| == 0 then 0 else PaidTo(fills[..|fills| - 1], order, a, d) + Gets(fills[|fills| - 1], order, a, d)
  }

  ghost function ClosedRecords(fills: seq<Fill>): seq<Record> {
    if |fills| == 0 then []
    else
      var f := fills[|fills| - 1];
      ClosedRecords(fills[..|fills| - 1]) + (if f.closed then [f.after] else [])
  }

  ghost function UpdatedRecord(fills: seq<Fill>): Option<Record> {
    if |fills| == 0 || fills[|fills| - 1].closed then None else Some(fills[|fills| - 1].after)
  }

  ghost function TradedBase(fills: seq<Fill>): int {
    if |fills| == 0 then 0 else TradedBase(fills[..|fills| - 1]) + fills[|fills| - 1].trade.base
  }

  lemma {:induction false} TradedCons(f: Fill, fills: seq<Fill>)
    ensures TradedBase([f] + fills) == f.trade.base + TradedBase(fills)
    ensures Spent([f] + fills) == f.trade.takerSpends + Spent(fills)
    decreases |fills|
  {
    var all := [f] + fills;
    if |fills| == 0 {
      assert all[..0] == [];
    } else {
      TradedCons(f, fills[..|fills| - 1]);
      assert all[..|all| - 1] == [f] + fills[..|fills| - 1];
    }
  }

  /** Conservation: the taker ends with what it brought less what the fills took. */
  lemma {:induction false} TakerConserved(taker: Record, makers: seq<Record>)
    requires Ready(taker, makers)
    ensures var o := MatchAll(taker, makers);
            && o.taker.remaining == taker.remaining - TradedBase(o.fills)
            && o.taker.spendable == taker.spendable - Spent(o.fills)
    decreases |makers|
  {
    hide MatchRecords, IsExecutableAsMaker, Covered, Resting, PriceAccepted;
    if |makers| != 0 {
      ReadyNext(taker, makers);
      var f := FillOf(taker, makers[0]);
      if ClosesTaker(taker, makers[0]) {
        TradedCons(f, []);
        assert [f] + [] == [f];
      } else {
        TakerConserved(AfterTaker(taker, f.trade), makers[1..]);
        TradedCons(f, MatchAll(AfterTaker(taker, f.trade), makers[1..]).fills);
      }
    }
  }

  /** A maker never pays more than the fills release of what it pledged; the taker pays what it spends. */
  lemma {:induction false} PaidFromPledges(fills: seq<Fill>, order: Order, a: Account, d: Denom)
    requires GoodFills(fills) && order.baseDenom != order.quoteDenom
    ensures PaidBy(fills, order, a, d)
         <= Unpledged(fills, order.ReceiveDenom(), a, d) + (if a == order.creator && d == order.SpendDenom() then Spent(fills) else 0)
    ensures 0 <= PaidBy(fills, order, a, d) && 0 <= PaidTo(fills, order, a, d)
    decreases |fills|
  {
    hide GoodFill;
    if |fills| != 0 {
      PaidFromPledges(fills[..|fills| - 1], order, a, d);
      GoodFillSpends(fills[|fills| - 1]);
    }
  }

  lemma {:induction false} UnpledgedElsewhere(fills: seq<Fill>, denom: Denom, a: Account, d: Denom)
    requires GoodFills(fills) && d != denom
    ensures Unpledged(fills, denom, a, d) == 0
    decreases |fills|
  {
    hide GoodFill;
    if |fills| != 0 {
      UnpledgedElsewhere(fills[..|fills| - 1], denom, a, d);
    }
  }

  // ----- collecting actions -----

  function WithTakerSend(x: DEXActions, taker: Account, maker: Account, coin: Coin): DEXActions {
    if coin.amount == 0 then x
    else x.(creatorExpectedToSpend := AddCoin(x.creatorExpectedToSpend, coin),
            send := AddSend(x.send, CoinToSend(taker, maker, coin)),
            decreaseExpectedToReceive := AppendOrAdd(x.decreaseExpectedToReceive, AccountCoin(maker, coin)))
  }

  function WithMakerSend(x: DEXActions, taker: Account, maker: Account, coin: Coin): DEXActions {
    if coin.amount == 0 then x
    else x.(creatorExpectedToReceive := AddCoin(x.creatorExpectedToReceive, coin),
            decreaseLocked := AppendOrAdd(x.decreaseLocked, AccountCoin(maker, coin)),
            send := AddSend(x.send, CoinToSend(maker, taker, coin)))
  }

  function WithoutLocked(items: seq<AccountCoin>, account: Account, coins: seq<Coin>): seq<AccountCoin>
    decreases |coins|
  {
    if |coins| == 0 then items
    else WithoutLocked(if coins[0].amount == 0 then items else AppendOrAdd(items, AccountCoin(account, coins[0])),
                       account, coins[1..])
  }

  function WithoutMakerLimits(x: DEXActions, maker: Account, lockedCoins: seq<Coin>, expected: Coin): DEXActions {
    x.(decreaseLocked := WithoutLocked(x.decreaseLocked, maker, lockedCoins),
       decreaseExpectedToReceive :=
         if expected.amount == 0 then x.decreaseExpectedToReceive
         else AppendOrAdd(x.decreaseExpectedToReceive, AccountCoin(maker, expected)))
  }

  /** The remaining balance and the reserve, merged if they share a denom. */
  function LockedCoins(balance: Coin, reserve: Option<Coin>): seq<Coin> {
    var coins := if balance.amount == 0 then [] else [balance];
    if reserve.None? then coins
    else if balance.amount != 0 && balance.denom == reserve.value.denom
    then [Coin(balance.denom, balance.amount + reserve.value.amount)]
    else coins + [reserve.value]
  }

  ghost function CoinsAmount(coins: seq<Coin>, d: Denom): int {
    if |coins| == 0 then 0 else CoinAmount(coins[0], d) + CoinsAmount(coins[1..], d)
  }

  lemma LockedCoinsAmount(balance: Coin, reserve: Option<Coin>, d: Denom)
    ensures CoinsAmount(LockedCoins(balance, reserve), d)
         == CoinAmount(balance, d) + ReserveOf(reserve, d)
  {
    var coins := LockedCoins(balance, reserve);
    assert |coins| <= 2;
    if |coins| != 0 {
      assert CoinsAmount(coins[1..], d) == if |coins| == 1 then 0 else CoinAmount(coins[1], d) by {
        if |coins| == 2 { assert coins[1..] == [coins[1]] && [coins[1]][1..] == []; }
      }
    }
  }

  function CoinAmount(coin: Coin, d: Denom): int {
    if coin.denom == d then coin.amount else 0
  }

  lemma {:induction false} WithoutLockedSum(items: seq<AccountCoin>, account: Account, coins: seq<Coin>, a: Account, d: Denom)
    ensures Sum(WithoutLocked(items, account, coins), a, d)
         == Sum(items, a, d) + (if a == account then CoinsAmount(coins, d) else 0)
    decreases |coins|
  {
    if |coins| != 0 {
      AppendOrAddSum(items, AccountCoin(account, coins[0]), a, d);
      WithoutLockedSum(if coins[0].amount == 0 then items else AppendOrAdd(items, AccountCoin(account, coins[0])),
                       account, coins[1..], a, d);
    }
  }

  lemma {:induction false} WithoutLockedPositive(items: seq<AccountCoin>, account: Account, coins: seq<Coin>)
    requires Positive(items) && forall c | c in coins :: 0 <= c.amount
    ensures Positive(WithoutLocked(items, account, coins))
    decreases |coins|
  {
    if |coins| != 0 {
      if coins[0].amount != 0 {
        AppendOrAddPositive(items, AccountCoin(account, coins[0]));
      }
      WithoutLockedPositive(if coins[0].amount == 0 then items else AppendOrAdd(items, AccountCoin(account, coins[0])),
                            account, coins[1..]);
    }
  }

  /** All the actions of one fill. */
  function WithFill(x: DEXActions, order: Order, maker: Record, trade: Trade, after: Record, closed: bool,
                    reserve: Option<Coin>, expected: int): DEXActions
  {
    var sent := WithMakerSend(WithTakerSend(x, order.creator, maker.account, Coin(order.SpendDenom(), trade.takerSpends)),
                              order.creator, maker.account, Coin(order.ReceiveDenom(), trade.takerReceives));
    if closed
    then WithoutMakerLimits(sent, maker.account, LockedCoins(Coin(order.ReceiveDenom(), after.spendable), reserve),
                            Coin(order.SpendDenom(), expected))
    else sent
  }

  /** The actions that let what is left of the taker rest in the book. */
  function WithTakerLimits(x: DEXActions, taker: Account, locked: Coin, expected: Coin, reserve: Coin): DEXActions {
    var items := AppendOrAdd(x.increaseLocked, AccountCoin(taker, locked));
    x.(creatorExpectedToSpend := AddCoin(x.creatorExpectedToSpend, locked),
       creatorExpectedToReceive := AddCoin(x.creatorExpectedToReceive, expected),
       increaseLocked := if 0 < reserve.amount then AppendOrAdd(items, AccountCoin(taker, reserve)) else items,
       increaseExpectedToReceive := AppendOrAdd(x.increaseExpectedToReceive, AccountCoin(taker, expected)))
  }

  // ----- a matching result reflects the fills so far -----

  ghost predicate SpendMatches(c: Option<Coin>, denom: Denom, amount: int) {
    if amount == 0 then c == None else c == Some(Coin(denom, amount))
  }

  ghost predicate Reflects(x: DEXActions, fills: seq<Fill>, order: Order, orders: map<nat, OrderData>)
    requires GoodFills(fills)
  {
    && SpendMatches(x.creatorExpectedToSpend, order.SpendDenom(), Spent(fills))
    && SpendMatches(x.creatorExpectedToReceive, order.ReceiveDenom(), Received(fills))
    && x.increaseLocked == [] && x.increaseExpectedToReceive == []
    && Positive(x.decreaseLocked) && Positive(x.decreaseExpectedToReceive)
    && (forall a, d :: Sum(x.decreaseLocked, a, d) == Unlocked(fills, orders, order.ReceiveDenom(), a, d))
    && (forall a, d :: Sum(x.decreaseExpectedToReceive, a, d) == Unexpected(fills, orders, order.SpendDenom(), a, d))
    && (forall a, b, d :: SentBetween(x.send, a, b, d) == Paid(fills, order, a, b, d))
    && (forall a, d :: Outgoing(x.send, a, d) == PaidBy(fills, order, a, d) && Incoming(x.send, a, d) == PaidTo(fills, order, a, d))
    && PositiveSends(x.send)
  }

  ghost predicate PositiveReserves(orders: map<nat, OrderData>) {
    forall q | q in orders && orders[q].reserve.Some? :: 0 < orders[q].reserve.value.amount
  }

  lemma {:induction false} SpentNonNegative(fills: seq<Fill>)
    requires GoodFills(fills)
    ensures 0 <= Spent(fills) && 0 <= Received(fills)
    decreases |fills|
  {
    hide GoodFill;
    if |fills| != 0 {
      SpentNonNegative(fills[..|fills| - 1]);
      GoodFillSpends(fills[|fills| - 1]);
    }
  }

  lemma GoodFillSpends(f: Fill)
    requires GoodFill(f)
    ensures 0 <= f.trade.takerSpends && 0 <= f.trade.takerReceives && 0 <= f.after.spendable
    ensures 0 <= f.after.remaining && 0 < f.after.price.num
    ensures f.trade.takerSpends == 0 ==> !f.closed
  {
  }

  lemma AddedCoin(c: Option<Coin>, denom: Denom, total: int, amount: int)
    requires SpendMatches(c, denom, total) && 0 <= total && 0 < amount
    ensures SpendMatches(AddCoin(c, Coin(denom, amount)), denom, total + amount)
  {
  }

  lemma SentSums(x: DEXActions, order: Order, f: Fill, a: Account, d: Denom)
    ensures var y := WithMakerSend(WithTakerSend(x, order.creator, f.maker.account, Coin(order.SpendDenom(), f.trade.takerSpends)),
                                   order.creator, f.maker.account, Coin(order.ReceiveDenom(), f.trade.takerReceives));
            && Sum(y.decreaseLocked, a, d) == Sum(x.decreaseLocked, a, d)
               + AmountOf(AccountCoin(f.maker.account, Coin(order.ReceiveDenom(), f.trade.takerReceives)), a, d)
            && Sum(y.decreaseExpectedToReceive, a, d) == Sum(x.decreaseExpectedToReceive, a, d)
               + AmountOf(AccountCoin(f.maker.account, Coin(order.SpendDenom(), f.trade.takerSpends)), a, d)
  {
    hide Sum, AppendOrAdd, AddSend;
    AppendOrAddSum(x.decreaseLocked, AccountCoin(f.maker.account, Coin(order.ReceiveDenom(), f.trade.takerReceives)), a, d);
    AppendOrAddSum(x.decreaseExpectedToReceive, AccountCoin(f.maker.account, Coin(order.SpendDenom(), f.trade.takerSpends)), a, d);
  }

  lemma FillSums(x: DEXActions, order: Order, f: Fill, reserve: Option<Coin>, a: Account, d: Denom)
    requires 0 <= f.after.remaining && 0 < f.after.price.num
    ensures var y := WithFill(x, order, f.maker, f.trade, f.after, f.closed, reserve, ExpectedOf(f.after));
            && Sum(y.decreaseLocked, a, d) == Sum(x.decreaseLocked, a, d) + Unlocks(f, reserve, order.ReceiveDenom(), a, d)
            && Sum(y.decreaseExpectedToReceive, a, d)
               == Sum(x.decreaseExpectedToReceive, a, d) + Unexpects(f, order.SpendDenom(), a, d)
  {
    hide Sum, AppendOrAdd, AddSend, ExpectedOf, LockedCoins, CoinsAmount, WithoutLocked, WithMakerSend, WithTakerSend;
    SentSums(x, order, f, a, d);
    if f.closed {
      var sent := WithMakerSend(WithTakerSend(x, order.creator, f.maker.account, Coin(order.SpendDenom(), f.trade.takerSpends)),
                                order.creator, f.maker.account, Coin(order.ReceiveDenom(), f.trade.takerReceives));
      var coins := LockedCoins(Coin(order.ReceiveDenom(), f.after.spendable), reserve);
      WithoutLockedSum(sent.decreaseLocked, f.maker.account, coins, a, d);
      LockedCoinsAmount(Coin(order.ReceiveDenom(), f.after.spendable), reserve, d);
      AppendOrAddSum(sent.decreaseExpectedToReceive, AccountCoin(f.maker.account, Coin(order.SpendDenom(), ExpectedOf(f.after))), a, d);
    }
  }

  lemma FillSends(x: DEXActions, order: Order, f: Fill, reserve: Option<Coin>, expected: int, a: Account, b: Account, d: Denom)
    ensures var y := WithFill(x, order, f.maker, f.trade, f.after, f.closed, reserve, expected);
            SentBetween(y.send, a, b, d) == SentBetween(x.send, a, b, d) + Payment(f, order, a, b, d)
  {
    hide SentBetween, AppendOrAdd, AddSend, WithoutLocked, LockedCoins;
    var pay := CoinToSend(order.creator, f.maker.account, Coin(order.SpendDenom(), f.trade.takerSpends));
    AddSendSum(x.send, pay, a, b, d);
    var sent := WithTakerSend(x, order.creator, f.maker.account, pay.coin);
    AddSendSum(sent.send, CoinToSend(f.maker.account, order.creator, Coin(order.ReceiveDenom(), f.trade.takerReceives)), a, b, d);
  }

  lemma FillFlow(x: DEXActions, order: Order, f: Fill, reserve: Option<Coin>, expected: int, a: Account, d: Denom)
    ensures var y := WithFill(x, order, f.maker, f.trade, f.after, f.closed, reserve, expected);
            && Outgoing(y.send, a, d) == Outgoing(x.send, a, d) + Pays(f, order, a, d)
            && Incoming(y.send, a, d) == Incoming(x.send, a, d) + Gets(f, order, a, d)
  {
    hide Outgoing, Incoming, AppendOrAdd, AddSend, WithoutLocked, LockedCoins;
    var pay := CoinToSend(order.creator, f.maker.account, Coin(order.SpendDenom(), f.trade.takerSpends));
    AddSendFlow(x.send, pay, a, d);
    var sent := WithTakerSend(x, order.creator, f.maker.account, pay.coin);
    AddSendFlow(sent.send, CoinToSend(f.maker.account, order.creator, Coin(order.ReceiveDenom(), f.trade.takerReceives)), a, d);
  }

  lemma FillSendsPositive(x: DEXActions, order: Order, f: Fill, reserve: Option<Coin>, expected: int)
    requires PositiveSends(x.send) && 0 <= f.trade.takerSpends && 0 <= f.trade.takerReceives
    ensures PositiveSends(WithFill(x, order, f.maker, f.trade, f.after, f.closed, reserve, expected).send)
  {
    hide PositiveSends, AppendOrAdd, AddSend, WithoutLocked, LockedCoins;
    var pay := CoinToSend(order.creator, f.maker.account, Coin(order.SpendDenom(), f.trade.takerSpends));
    var get := CoinToSend(f.maker.account, order.creator, Coin(order.ReceiveDenom(), f.trade.takerReceives));
    if 0 < f.trade.takerSpends { AddSendPositive(x.send, pay); }
    if 0 < f.trade.takerReceives { AddSendPositive(WithTakerSend(x, order.creator, f.maker.account, pay.coin).send, get); }
  }

  lemma FillPositive(x: DEXActions, order: Order, f: Fill, reserve: Option<Coin>)
    requires GoodFill(f) && Positive(x.decreaseLocked) && Positive(x.decreaseExpectedToReceive)
    requires reserve.Some? ==> 0 < reserve.value.amount
    ensures var y := WithFill(x, order, f.maker, f.trade, f.after, f.closed, reserve, ExpectedOf(f.after));
            Positive(y.decreaseLocked) && Positive(y.decreaseExpectedToReceive)
  {
    hide GoodFill, AppendOrAdd, AddSend, Positive, WithoutLocked, ExpectedOf;
    GoodFillSpends(f);
    var spends := AccountCoin(f.maker.account, Coin(order.SpendDenom(), f.trade.takerSpends));
    var receives := AccountCoin(f.maker.account, Coin(order.ReceiveDenom(), f.trade.takerReceives));
    if 0 < f.trade.takerSpends { AppendOrAddPositive(x.decreaseExpectedToReceive, spends); }
    if 0 < f.trade.takerReceives { AppendOrAddPositive(x.decreaseLocked, receives); }
    if f.closed {
      var sent := WithMakerSend(WithTakerSend(x, order.creator, f.maker.account, spends.coin), order.creator, f.maker.account, receives.coin);
      var coins := LockedCoins(Coin(order.ReceiveDenom(), f.after.spendable), reserve);
      WithoutLockedPositive(sent.decreaseLocked, f.maker.account, coins);
      if 0 < ExpectedOf(f.after) {
        AppendOrAddPositive(sent.decreaseExpectedToReceive, AccountCoin(f.maker.account, Coin(order.SpendDenom(), ExpectedOf(f.after))));
      }
    }
  }

  /** One more fill, one more reflection. */
  lemma ReflectsFill(x: DEXActions, fills: seq<Fill>, f: Fill, order: Order, orders: map<nat, OrderData>)
    requires GoodFills(fills) && GoodFill(f) && PositiveReserves(orders)
    requires Reflects(x, fills, order, orders)
    ensures GoodFills(fills + [f])
    ensures var y := WithFill(x, order, f.maker, f.trade, f.after, f.closed, ReserveAt(orders, f.maker.sequence), ExpectedOf(f.after));
            Reflects(y, fills + [f], order, orders)
  {
    hide GoodFill, Sum, AppendOrAdd, AddSend, Positive, ExpectedOf, LockedCoins, WithoutLocked, Unlocks, Unexpects, SentBetween, Payment, Outgoing, Incoming, Pays, Gets, PositiveSends;
    GoodFillSpends(f);
    var reserve := ReserveAt(orders, f.maker.sequence);
    var y := WithFill(x, order, f.maker, f.trade, f.after, f.closed, reserve, ExpectedOf(f.after));
    var all := fills + [f];
    assert all[..|all| - 1] == fills;
    SpentNonNegative(fills);
    FillPositive(x, order, f, reserve);
    if 0 < f.trade.takerSpends { AddedCoin(x.creatorExpectedToSpend, order.SpendDenom(), Spent(fills), f.trade.takerSpends); }
    if 0 < f.trade.takerReceives { AddedCoin(x.creatorExpectedToReceive, order.ReceiveDenom(), Received(fills), f.trade.takerReceives); }
    forall a, d ensures Sum(y.decreaseLocked, a, d) == Unlocked(all, orders, order.ReceiveDenom(), a, d)
                     && Sum(y.decreaseExpectedToReceive, a, d) == Unexpected(all, orders, order.SpendDenom(), a, d)
    {
      FillSums(x, order, f, reserve, a, d);
    }
    forall a, b, d ensures SentBetween(y.send, a, b, d) == Paid(all, order, a, b, d) {
      FillSends(x, order, f, reserve, ExpectedOf(f.after), a, b, d);
    }
    forall a, d ensures Outgoing(y.send, a, d) == PaidBy(all, order, a, d) && Incoming(y.send, a, d) == PaidTo(all, order, a, d) {
      FillFlow(x, order, f, reserve, ExpectedOf(f.after), a, d);
    }
    FillSendsPositive(x, order, f, reserve, ExpectedOf(f.after));
  }

  // ----- the result object -----

  /** Accumulates what a matching does, to be applied at the end. */
  class MatchingResult {
    const takerAddress: Account
    var ftActions: DEXActions
    var recordsToRemove: seq<Record>
    var recordToUpdate: Option<Record>
    var takerIsFilled: bool
    var takerRecord: Record

    constructor (order: Order, taker: Record)
      ensures takerAddress == order.creator && ftActions == NewDEXActions()
      ensures recordsToRemove == [] && recordToUpdate == None && !takerIsFilled && takerRecord == taker
    {
      takerAddress := order.creator;
      ftActions := NewDEXActions();
      recordsToRemove := [];
      recordToUpdate := None;
      takerIsFilled := false;
      takerRecord := taker;
    }

    method SendFromTaker(makerAddr: Account, coin: Coin)
      modifies this`ftActions
      ensures ftActions == WithTakerSend(old(ftActions), takerAddress, makerAddr, coin)
    {
      if coin.amount == 0 {
        return;
      }
      hide AppendOrAdd, AddSend;
      ftActions := ftActions.(creatorExpectedToSpend := AddCoin(ftActions.creatorExpectedToSpend, coin));
      var sends := AddToSends(ftActions.send, CoinToSend(takerAddress, makerAddr, coin));
      ftActions := ftActions.(send := sends);
      var lowered := AppendOrAddToAccountsToCoin(ftActions.decreaseExpectedToReceive, AccountCoin(makerAddr, coin));
      ftActions := ftActions.(decreaseExpectedToReceive := lowered);
    }

    method SendFromMaker(makerAddr: Account, coin: Coin)
      modifies this`ftActions
      ensures ftActions == WithMakerSend(old(ftActions), takerAddress, makerAddr, coin)
    {
      if coin.amount == 0 {
        return;
      }
      hide AppendOrAdd, AddSend;
      ftActions := ftActions.(creatorExpectedToReceive := AddCoin(ftActions.creatorExpectedToReceive, coin));
      var unlocks := AppendOrAddToAccountsToCoin(ftActions.decreaseLocked, AccountCoin(makerAddr, coin));
      ftActions := ftActions.(decreaseLocked := unlocks);
      var sends := AddToSends(ftActions.send, CoinToSend(makerAddr, takerAddress, coin));
      ftActions := ftActions.(send := sends);
    }

    method DecreaseMakerLimits(makerAddr: Account, lockedCoins: seq<Coin>, expectedToReceiveCoin: Coin)
      modifies this`ftActions
      ensures ftActions == WithoutMakerLimits(old(ftActions), makerAddr, lockedCoins, expectedToReceiveCoin)
    {
      var items := ftActions.decreaseLocked;
      for i := 0 to |lockedCoins|
        invariant ftActions == old(ftActions)
        invariant WithoutLocked(items, makerAddr, lockedCoins[i..])
               == WithoutLocked(ftActions.decreaseLocked, makerAddr, lockedCoins)
      {
        assert lockedCoins[i..][1..] == lockedCoins[i + 1..];
        if lockedCoins[i].amount != 0 {
          items := AppendOrAddToAccountsToCoin(items, AccountCoin(makerAddr, lockedCoins[i]));
        }
      }
      ftActions := ftActions.(decreaseLocked := items);
      if expectedToReceiveCoin.amount != 0 {
        var lowered := AppendOrAddToAccountsToCoin(ftActions.decreaseExpectedToReceive, AccountCoin(makerAddr, expectedToReceiveCoin));
        ftActions := ftActions.(decreaseExpectedToReceive := lowered);
      }
    }

    /** Locks what is left of the taker, and gives the taker record exactly that balance. */
    method IncreaseTakerLimitsForRecord(orderReserve: Coin, order: Order) returns (ok: bool)
      requires order.price.Some?
      modifies this`ftActions, this`takerRecord
      ensures ok <==> (LockedAmount(order.side, old(takerRecord).remaining, order.price.value).Some? &&
                       ExpectedAmount(order.side, old(takerRecord).remaining, order.price.value).Some?)
      ensures ok ==>
                var locked := LockedAmount(order.side, old(takerRecord).remaining, order.price.value).value;
                var expected := ExpectedAmount(order.side, old(takerRecord).remaining, order.price.value).value;
                && takerRecord == old(takerRecord).(spendable := locked)
                && ftActions == WithTakerLimits(old(ftActions), takerAddress, Coin(order.SpendDenom(), locked),
                                                Coin(order.ReceiveDenom(), expected), orderReserve)
    {
      hide MulCeil, AppendOrAdd;
      var locked := LockedAmount(order.side, takerRecord.remaining, order.price.value);
      if locked.None? {
        return false;
      }
      var lockedCoin := Coin(order.SpendDenom(), locked.value);
      takerRecord := takerRecord.(spendable := locked.value);
      ftActions := ftActions.(creatorExpectedToSpend := AddCoin(ftActions.creatorExpectedToSpend, lockedCoin));
      var locks := AppendOrAddToAccountsToCoin(ftActions.increaseLocked, AccountCoin(takerAddress, lockedCoin));
      ftActions := ftActions.(increaseLocked := locks);
      var expected := ExpectedAmount(order.side, takerRecord.remaining, order.price.value);
      if expected.None? {
        return false;
      }
      var expectedCoin := Coin(order.ReceiveDenom(), expected.value);
      ftActions := ftActions.(creatorExpectedToReceive := AddCoin(ftActions.creatorExpectedToReceive, expectedCoin));
      var raised := AppendOrAddToAccountsToCoin(ftActions.increaseExpectedToReceive, AccountCoin(takerAddress, expectedCoin));
      ftActions := ftActions.(increaseExpectedToReceive := raised);
      if 0 < orderReserve.amount {
        locks := AppendOrAddToAccountsToCoin(ftActions.increaseLocked, AccountCoin(takerAddress, orderReserve));
        ftActions := ftActions.(increaseLocked := locks);
      }
      ok := true;
    }

    method RemoveRecord(record: Record)
      modifies this`recordsToRemove
      ensures recordsToRemove == old(recordsToRemove) + [record]
    {
      recordsToRemove := recordsToRemove + [record];
    }

    method UpdateRecord(record: Record)
      modifies this`recordToUpdate
      ensures recordToUpdate == Some(record)
    {
      recordToUpdate := Some(record);
    }
  }

  // ----- the engine -----

  /** Fills already made, followed by what the rest of the queue brings. */
  ghost function Continued(fills: seq<Fill>, o: Outcome): Outcome {
    Outcome(fills + o.fills, o.taker, o.filled)
  }

  /** The result object after the given fills. */
  ghost predicate ResultReflects(mr: MatchingResult, fills: seq<Fill>, order: Order, orders: map<nat, OrderData>)
    requires GoodFills(fills)
    reads mr
  {
    && mr.takerAddress == order.creator
    && Reflects(mr.ftActions, fills, order, orders)
    && mr.recordsToRemove == ClosedRecords(fills)
    && mr.recordToUpdate == UpdatedRecord(fills)
  }

  /** The record under which an incoming order is matched. */
  function ConvertOrderToRecord(account: Account, book: nat, order: Order, sequence: nat, remainingBalance: int): Record {
    Record(book, order.side, if order.price.Some? then order.price.value else Price(0, 0), sequence, order.id, account,
           order.quantity, remainingBalance)
  }

  lemma ReadyHead(taker: Record, maker: Record, rest: seq<Record>)
    requires Ready(taker, [maker] + rest)
    ensures Matchable(taker) && Resting(maker) && MakerOk(maker)
  {
    hide Resting;
    assert maker in [maker] + rest;
    RestingAmounts(maker);
  }

  /** One step of the fold, seen from the fills before it. */
  lemma ContinuedStep(fills: seq<Fill>, taker: Record, maker: Record, rest: seq<Record>)
    requires Ready(taker, [maker] + rest)
    ensures Matchable(taker) && MakerOk(maker)
    ensures var f := FillOf(taker, maker);
            var after := AfterTaker(taker, f.trade);
            && Ready(after, rest)
            && Continued(fills, MatchAll(taker, [maker] + rest)) ==
               if ClosesTaker(taker, maker) then Outcome(fills + [f], after, true)
               else Continued(fills + [f], MatchAll(after, rest))
  {
    hide Ready, FillOf, ClosesTaker;
    var makers := [maker] + rest;
    ReadyHead(taker, maker, rest);
    ReadyNext(taker, makers);
    assert makers[1..] == rest;
    var f := FillOf(taker, maker);
    if !ClosesTaker(taker, maker) {
      var o := MatchAll(AfterTaker(taker, f.trade), rest);
      assert fills + ([f] + o.fills) == fills + [f] + o.fills;
    }
  }

  /** Where the loop stands: the fold over the whole plan is the fills so far and the fold over the queue. */
  ghost predicate Progress(taker: Record, plan: seq<Record>, fills: seq<Fill>, now: Record, queue: seq<Record>, filled: bool,
                           orders: map<nat, OrderData>)
  {
    && Ready(taker, plan) && Ready(now, queue) && now.side == taker.side
    && GoodFills(fills) && DataKnown(fills, orders)
    && (!filled ==> UpdatedRecord(fills) == None)
    && MatchAll(taker, plan) == if filled then Outcome(fills, now, true) else Continued(fills, MatchAll(now, queue))
  }

  lemma ProgressStart(taker: Record, plan: seq<Record>, orders: map<nat, OrderData>)
    requires Ready(taker, plan)
    ensures Progress(taker, plan, [], taker, plan, false, orders)
  {
    hide Ready, MatchAll;
  }

  lemma ProgressStep(taker: Record, plan: seq<Record>, fills: seq<Fill>, now: Record, maker: Record, rest: seq<Record>,
                     orders: map<nat, OrderData>)
    requires Progress(taker, plan, fills, now, [maker] + rest, false, orders)
    ensures Matchable(now) && Resting(maker) && MakerOk(maker) && now.side == taker.side
    ensures GoodFills(fills) && UpdatedRecord(fills) == None
    ensures var f := FillOf(now, maker);
            if f.closed && maker.sequence !in orders then !DataKnown(MatchAll(taker, plan).fills, orders)
            else Progress(taker, plan, fills + [f], AfterTaker(now, f.trade), rest, ClosesTaker(now, maker), orders)
  {
    hide Ready, GoodFill, Resting, FillOf, ClosesTaker, MatchAll, MakerOk;
    ReadyHead(now, maker, rest);
    ContinuedStep(fills, now, maker, rest);
    NotLastIsClosed(now, maker);
    FillIsGood(now, maker);
    var f := FillOf(now, maker);
    assert MatchAll(taker, plan).fills[|fills|] == f;
  }

  lemma ProgressEnd(taker: Record, plan: seq<Record>, fills: seq<Fill>, now: Record, queue: seq<Record>, filled: bool,
                    orders: map<nat, OrderData>)
    requires Progress(taker, plan, fills, now, queue, filled, orders) && (filled || queue == [])
    ensures MatchAll(taker, plan) == Outcome(fills, now, filled) && DataKnown(fills, orders) && GoodFills(fills)
  {
    hide Ready, GoodFill;
    assert fills + [] == fills;
  }

  class MatchingEngine {
    const obq: MatchingFinder
    const orders: map<nat, OrderData>

    constructor (obq: MatchingFinder, orders: map<nat, OrderData>)
      ensures this.obq == obq && this.orders == orders
    {
      this.obq := obq;
      this.orders := orders;
    }

    /**
     Matches the taker with makers until it is closed or the finder has none left. The result
     reflects exactly the fold of the match over the finder's plan; it fails only if the order
     data of a maker to be closed is missing.
     */
    method MatchOrder(taker: Record, takerOrder: Order) returns (mr: Option<MatchingResult>)
      requires obq.Valid() && obq.order == takerOrder && !takerOrder.orderType.UnspecifiedType?
      requires Ready(taker, obq.Plan()) && taker.side == takerOrder.side
      requires PositiveReserves(orders)
      modifies obq, obq.directOBIterator, obq.invertedOBIterator
      ensures mr.Some? <==> DataKnown(MatchAll(taker, old(obq.Plan())).fills, orders)
      ensures mr.Some? ==>
                var o := MatchAll(taker, old(obq.Plan()));
                && fresh(mr.value)
                && GoodFills(o.fills)
                && ResultReflects(mr.value, o.fills, takerOrder, orders)
                && mr.value.takerIsFilled == o.filled && mr.value.takerRecord == o.taker
    {
      hide Ready, Resting, Reflects, FillOf, ClosesTaker, MatchAll, ClosedRecords, MakerOk, Progress, GoodFills, DataKnown,
           UpdatedRecord, MatchingFinder.Valid, MatchingFinder.Plan;
      var result := new MatchingResult(takerOrder, taker);
      var takerRecord := taker;
      var takerIsFilled := false;
      ghost var plan := obq.Plan();
      ghost var fills: seq<Fill> := [];
      ghost var queue := plan;
      ProgressStart(taker, plan, orders);
      NothingReflected(takerOrder, orders);
      while !takerIsFilled
        invariant obq.Valid() && fresh(result) && queue == obq.Plan()
        invariant Progress(taker, plan, fills, takerRecord, queue, takerIsFilled, orders)
        invariant GoodFills(fills) && ResultReflects(result, fills, takerOrder, orders)
        decreases |queue|, !takerIsFilled
      {
        var next := obq.Next();
        if !next.Found? {
          break;
        }
        var maker := next.record;
        ProgressStep(taker, plan, fills, takerRecord, maker, obq.Plan(), orders);
        ghost var f := FillOf(takerRecord, maker);
        var ok, after, filled := MatchRecords(result, takerRecord, maker, takerOrder, fills);
        if !ok {
          return None;
        }
        fills := fills + [f];
        queue := obq.Plan();
        takerRecord := after;
        takerIsFilled := filled;
      }
      ProgressEnd(taker, plan, fills, takerRecord, queue, takerIsFilled, orders);
      result.takerIsFilled := takerIsFilled;
      result.takerRecord := takerRecord;
      mr := Some(result);
    }

    /** Matches two records and registers what follows from it. */
    method MatchRecords(mr: MatchingResult, taker: Record, maker: Record, takerOrder: Order, ghost fills: seq<Fill>)
      returns (ok: bool, after: Record, filled: bool)
      requires Matchable(taker) && Resting(maker) && MakerOk(maker) && taker.side == takerOrder.side
      requires PositiveReserves(orders) && GoodFills(fills)
      requires ResultReflects(mr, fills, takerOrder, orders) && UpdatedRecord(fills) == None
      modifies mr
      ensures var f := FillOf(taker, maker);
              && (ok <==> (f.closed ==> maker.sequence in orders))
              && (ok ==>
                   && GoodFills(fills + [f]) && ResultReflects(mr, fills + [f], takerOrder, orders)
                   && after == AfterTaker(taker, f.trade)
                   && filled == ClosesTaker(taker, maker))
    {
      hide GoodFill, Resting, Reflects, WithTakerSend, WithMakerSend, WithoutMakerLimits, MulCeil, LockedCoins, IsExecutableAsMaker, Matching.MatchRecords;
      var isMakerInverted := taker.side == maker.side;
      var (trade, closeResult) := Matching.MatchRecords(taker, maker);
      mr.SendFromTaker(maker.account, Coin(takerOrder.SpendDenom(), trade.takerSpends));
      mr.SendFromMaker(maker.account, Coin(takerOrder.ReceiveDenom(), trade.takerReceives));

      after := taker.(remaining := taker.remaining - trade.base, spendable := taker.spendable - trade.takerSpends);
      var makerRecord :=
        if !isMakerInverted
        then maker.(remaining := maker.remaining - trade.base, spendable := maker.spendable - trade.takerReceives)
        else maker.(remaining := maker.remaining - trade.quote, spendable := maker.spendable - trade.takerReceives);

      ghost var f := FillOf(taker, maker);
      FillIsGood(taker, maker);
      GoodFillExpects(f);
      NoneClosedImpossible(taker, maker);
      ReflectsFill(old(mr.ftActions), fills, f, takerOrder, orders);
      assert (fills + [f])[..|fills|] == fills;
      if closeResult.CloseMaker? || closeResult.CloseBoth? || !IsExecutableAsMaker(makerRecord) {
        if maker.sequence !in orders {
          return false, after, false;
        }
        var lockedCoins := LockedCoins(Coin(takerOrder.ReceiveDenom(), makerRecord.spendable), orders[maker.sequence].reserve);
        var expected := ExpectedAmount(makerRecord.side, makerRecord.remaining, makerRecord.price);
        if expected.None? {
          return false, after, false;
        }
        mr.DecreaseMakerLimits(maker.account, lockedCoins, Coin(takerOrder.SpendDenom(), expected.value));
        mr.RemoveRecord(makerRecord);
      } else {
        mr.UpdateRecord(makerRecord);
      }
      ok := true;
      filled := closeResult.CloseTaker? || closeResult.CloseBoth?;
    }
  }

  lemma NothingReflected(order: Order, orders: map<nat, OrderData>)
    ensures GoodFills([]) && ClosedRecords([]) == [] && UpdatedRecord([]) == None
    ensures Reflects(NewDEXActions(), [], order, orders)
  {
  }

  /** A maker that stays open closes the taker. */
  lemma NotLastIsClosed(taker: Record, maker: Record)
    requires Matchable(taker) && MakerOk(maker)
    ensures FillOf(taker, maker).maker == maker
    ensures !FillOf(taker, maker).closed ==> ClosesTaker(taker, maker)
  {
    hide Matching.MatchRecords, IsExecutableAsMaker;
  }

  lemma GoodFillExpects(f: Fill)
    requires GoodFill(f)
    ensures 0 <= f.after.remaining && 0 < f.after.price.num
    ensures ExpectedAmount(f.after.side, f.after.remaining, f.after.price) == Some(ExpectedOf(f.after) as int)
  {
  }
}

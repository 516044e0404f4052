/**
 The ledger actions one matching collects for the asset module
 (x/asset/ft/types/dex.go): entries are merged per account and denom, and only
 their sums matter.
 */
module Actions {
  import opened Bytes
  import opened Types

  datatype AccountCoin = AccountCoin(account: Account, coin: Coin)

  datatype CoinToSend = CoinToSend(from: Account, to: Account, coin: Coin)

  datatype DEXActions = DEXActions(
    creatorExpectedToSpend: Option<Coin>,
    creatorExpectedToReceive: Option<Coin>,
    increaseLocked: seq<AccountCoin>,
    decreaseLocked: seq<AccountCoin>,
    increaseExpectedToReceive: seq<AccountCoin>,
    decreaseExpectedToReceive: seq<AccountCoin>,
    send: seq<CoinToSend>
  )

  function NewDEXActions(): DEXActions {
    DEXActions(None, None, [], [], [], [], [])
  }

  /** Adds a coin to an optional coin of the same denom. */
  function AddCoin(c: Option<Coin>, coin: Coin): Option<Coin> {
    if c.None? then Some(coin) else Some(Coin(c.value.denom, c.value.amount + coin.amount))
  }

  /** Merges an item into the entry of its account and denom, or appends it. */
  function AppendOrAdd(items: seq<AccountCoin>, item: AccountCoin): seq<AccountCoin> {
    if |items| == 0 then [item]
    else if items[0].account == item.account && items[0].coin.denom == item.coin.denom
    then [AccountCoin(item.account, Coin(item.coin.denom, items[0].coin.amount + item.coin.amount))] + items[1..]
    else [items[0]] + AppendOrAdd(items[1..], item)
  }

  function AddSend(sends: seq<CoinToSend>, item: CoinToSend): seq<CoinToSend> {
    if |sends| == 0 then [item]
    else if sends[0].from == item.from && sends[0].to == item.to && sends[0].coin.denom == item.coin.denom
    then [item.(coin := Coin(item.coin.denom, sends[0].coin.amount + item.coin.amount))] + sends[1..]
    else [sends[0]] + AddSend(sends[1..], item)
  }

  predicate SameCoin(a: AccountCoin, b: AccountCoin) {
    a.account == b.account && a.coin.denom == b.coin.denom
  }

  predicate SameSend(a: CoinToSend, b: CoinToSend) {
    a.from == b.from && a.to == b.to && a.coin.denom == b.coin.denom
  }

  /** Merging happens at the first entry of the account and denom. */
  lemma {:induction false} AppendOrAddAt(items: seq<AccountCoin>, item: AccountCoin, i: nat)
    requires i <= |items| && forall j | 0 <= j < i :: !SameCoin(items[j], item)
    ensures AppendOrAdd(items, item) == items[..i] + AppendOrAdd(items[i..], item)
    decreases |items|
  {
    if i == 0 {
      assert items[0..] == items;
    } else {
      AppendOrAddAt(items[1..], item, i - 1);
      assert items[1..][i - 1..] == items[i..];
      assert [items[0]] + items[1..][..i - 1] == items[..i];
    }
  }

  lemma {:induction false} AddSendAt(sends: seq<CoinToSend>, item: CoinToSend, i: nat)
    requires i <= |sends| && forall j | 0 <= j < i :: !SameSend(sends[j], item)
    ensures AddSend(sends, item) == sends[..i] + AddSend(sends[i..], item)
    decreases |sends|
  {
    if i == 0 {
      assert sends[0..] == sends;
    } else {
      AddSendAt(sends[1..], item, i - 1);
      assert sends[1..][i - 1..] == sends[i..];
      assert [sends[0]] + sends[1..][..i - 1] == sends[..i];
    }
  }

  /** The loop that merges or appends. */
  method AppendOrAddToAccountsToCoin(items: seq<AccountCoin>, item: AccountCoin) returns (out: seq<AccountCoin>)
    ensures out == AppendOrAdd(items, item)
  {
    for i := 0 to |items|
      invariant forall j | 0 <= j < i :: !SameCoin(items[j], item)
    {
      if SameCoin(items[i], item) {
        AppendOrAddAt(items, item, i);
        out := items[i := AccountCoin(item.account, Coin(item.coin.denom, items[i].coin.amount + item.coin.amount))];
        assert items[i..][1..] == items[i + 1..];
        assert out == items[..i] + [out[i]] + items[i + 1..];
        return;
      }
    }
    AppendOrAddAt(items, item, |items|);
    out := items + [item];
  }

  method AddToSends(sends: seq<CoinToSend>, item: CoinToSend) returns (out: seq<CoinToSend>)
    ensures out == AddSend(sends, item)
  {
    for i := 0 to |sends|
      invariant forall j | 0 <= j < i :: !SameSend(sends[j], item)
    {
      if SameSend(sends[i], item) {
        AddSendAt(sends, item, i);
        out := sends[i := item.(coin := Coin(item.coin.denom, sends[i].coin.amount + item.coin.amount))];
        assert sends[i..][1..] == sends[i + 1..];
        assert out == sends[..i] + [out[i]] + sends[i + 1..];
        return;
      }
    }
    AddSendAt(sends, item, |sends|);
    out := sends + [item];
  }

  function AmountOf(item: AccountCoin, account: Account, denom: Denom): int {
    if item.account == account && item.coin.denom == denom then item.coin.amount else 0
  }

  /** The total of an account and denom. */
  ghost function Sum(items: seq<AccountCoin>, account: Account, denom: Denom): int {
    if |items| == 0 then 0 else AmountOf(items[0], account, denom) + Sum(items[1..], account, denom)
  }

  ghost function SentBetween(sends: seq<CoinToSend>, from: Account, to: Account, denom: Denom): int {
    if |sends| == 0 then 0
    else (if sends[0].from == from && sends[0].to == to && sends[0].coin.denom == denom then sends[0].coin.amount else 0)
         + SentBetween(sends[1..], from, to, denom)
  }

  /** Everything an account sends in a denom. */
  ghost function Outgoing(sends: seq<CoinToSend>, account: Account, denom: Denom): int {
    if |sends| == 0 then 0
    else (if sends[0].from == account && sends[0].coin.denom == denom then sends[0].coin.amount else 0)
         + Outgoing(sends[1..], account, denom)
  }

  /** Everything an account is sent in a denom. */
  ghost function Incoming(sends: seq<CoinToSend>, account: Account, denom: Denom): int {
    if |sends| == 0 then 0
    else (if sends[0].to == account && sends[0].coin.denom == denom then sends[0].coin.amount else 0)
         + Incoming(sends[1..], account, denom)
  }

  /** Every entry holds a positive amount. */
  ghost predicate Positive(items: seq<AccountCoin>) {
    forall i | 0 <= i < |items| :: 0 < items[i].coin.amount
  }

  lemma {:induction false} SumAppend(items: seq<AccountCoin>, item: AccountCoin, account: Account, denom: Denom)
    ensures Sum(items + [item], account, denom) == Sum(items, account, denom) + AmountOf(item, account, denom)
  {
    if |items| == 0 {
      assert ([item] + [])[1..] == [];
    } else {
      assert (items + [item])[1..] == items[1..] + [item];
      SumAppend(items[1..], item, account, denom);
    }
  }

  /** Merging changes one total, by the amount merged. */
  lemma {:induction false} AppendOrAddSum(items: seq<AccountCoin>, item: AccountCoin, account: Account, denom: Denom)
    ensures Sum(AppendOrAdd(items, item), account, denom) == Sum(items, account, denom) + AmountOf(item, account, denom)
  {
    var out := AppendOrAdd(items, item);
    if |items| == 0 {
      assert Sum(out[1..], account, denom) == 0;
    } else if items[0].account == item.account && items[0].coin.denom == item.coin.denom {
      assert out[1..] == items[1..];
    } else {
      AppendOrAddSum(items[1..], item, account, denom);
      assert out[1..] == AppendOrAdd(items[1..], item);
    }
  }

  lemma {:induction false} AppendOrAddPositive(items: seq<AccountCoin>, item: AccountCoin)
    requires Positive(items) && 0 < item.coin.amount
    ensures Positive(AppendOrAdd(items, item))
  {
    if |items| != 0 && !(items[0].account == item.account && items[0].coin.denom == item.coin.denom) {
      AppendOrAddPositive(items[1..], item);
    }
  }

  lemma {:induction false} AddSendSum(sends: seq<CoinToSend>, item: CoinToSend, from: Account, to: Account, denom: Denom)
    ensures SentBetween(AddSend(sends, item), from, to, denom)
         == SentBetween(sends, from, to, denom)
            + (if item.from == from && item.to == to && item.coin.denom == denom then item.coin.amount else 0)
  {
    var out := AddSend(sends, item);
    if |sends| == 0 {
      assert SentBetween(out[1..], from, to, denom) == 0;
    } else if sends[0].from == item.from && sends[0].to == item.to && sends[0].coin.denom == item.coin.denom {
      assert out[1..] == sends[1..];
    } else {
      AddSendSum(sends[1..], item, from, to, denom);
      assert out[1..] == AddSend(sends[1..], item);
    }
  }

  /** Merging a transfer changes what its parties send and are sent by its amount. */
  lemma {:induction false} AddSendFlow(sends: seq<CoinToSend>, item: CoinToSend, account: Account, denom: Denom)
    ensures Outgoing(AddSend(sends, item), account, denom)
         == Outgoing(sends, account, denom) + (if item.from == account && item.coin.denom == denom then item.coin.amount else 0)
    ensures Incoming(AddSend(sends, item), account, denom)
         == Incoming(sends, account, denom) + (if item.to == account && item.coin.denom == denom then item.coin.amount else 0)
  {
    var out := AddSend(sends, item);
    if |sends| == 0 {
      assert Outgoing(out[1..], account, denom) == 0 && Incoming(out[1..], account, denom) == 0;
    } else if sends[0].from == item.from && sends[0].to == item.to && sends[0].coin.denom == item.coin.denom {
      assert out[1..] == sends[1..];
    } else {
      AddSendFlow(sends[1..], item, account, denom);
      assert out[1..] == AddSend(sends[1..], item);
    }
  }

  ghost predicate PositiveSends(sends: seq<CoinToSend>) {
    forall i | 0 <= i < |sends| :: 0 < sends[i].coin.amount
  }

  lemma {:induction false} AddSendPositive(sends: seq<CoinToSend>, item: CoinToSend)
    requires PositiveSends(sends) && 0 < item.coin.amount
    ensures PositiveSends(AddSend(sends, item))
  {
    if |sends| != 0 && !(sends[0].from == item.from && sends[0].to == item.to && sends[0].coin.denom == item.coin.denom) {
      AddSendPositive(sends[1..], item);
    }
  }

  lemma {:induction false} SentTogether(xs: seq<CoinToSend>, ys: seq<CoinToSend>, from: Account, to: Account, denom: Denom)
    ensures SentBetween(xs + ys, from, to, denom) == SentBetween(xs, from, to, denom) + SentBetween(ys, from, to, denom)
  {
    if |xs| == 0 {
      assert xs + ys == ys;
    } else {
      assert (xs + ys)[1..] == xs[1..] + ys;
      SentTogether(xs[1..], ys, from, to, denom);
    }
  }

  lemma {:induction false} SumNonNegative(items: seq<AccountCoin>, account: Account, denom: Denom)
    requires Positive(items)
    ensures 0 <= Sum(items, account, denom)
  {
    if |items| != 0 {
      SumNonNegative(items[1..], account, denom);
    }
  }
}

/**
 Balances per account and denom (x/asset/ft/keeper/balance_store.go): an amount that
 is not on record is zero, and zero amounts are not kept.
 */
module Ledgers {
  import opened Types

  type Ledger = map<(Account, Denom), nat>

  function Get<K>(m: map<K, nat>, k: K): nat {
    if k in m then m[k] else 0
  }

  function SetBalance(ledger: Ledger, a: Account, d: Denom, amount: nat): Ledger {
    if amount == 0 then ledger - {(a, d)} else ledger[(a, d) := amount]
  }
}

/** The balance table shared by both ledgers: a map from account name to
    amount in which an absent name means a balance of 0, and the sum of all
    balances (the coins in circulation). */
module Accounts {

  /** The issuance sentinel: a transaction from this sender is never
      checked against a balance and never debits anyone. */
  const Network: string := "network"

  /** The balance of `account`, 0 for a name never seen. */
  function Balance(m: map<string, int>, account: string): (b: int)
    ensures account !in m ==> b == 0
    ensures account in m ==> b == m[account]
  {
    if account in m then m[account] else 0
  }

  ghost function PickKey(m: map<string, int>): (k: string)
    requires m != map[]
    ensures k in m
  {
    var k :| k in m; k
  }

  /** The sum of all balances in the table. */
  ghost function Total(m: map<string, int>): int
    decreases |m|
  {
    if m == map[] then 0
    else
      var k := PickKey(m);
      assert |m - {k}| < |m| by { assert (m - {k}).Keys == m.Keys - {k}; }
      m[k] + Total(m - {k})
  }

  /** The total can be taken apart at any key, not only the one `Total` picks. */
  lemma {:induction false} TotalRemove(m: map<string, int>, k: string)
    requires k in m
    ensures Total(m) == m[k] + Total(m - {k})
    decreases |m|
  {
    var j := PickKey(m);
    if j != k {
      assert (m - {j}).Keys == m.Keys - {j};
      assert (m - {k}).Keys == m.Keys - {k};
      TotalRemove(m - {j}, k);
      TotalRemove(m - {k}, j);
      assert m - {j} - {k} == m - {k} - {j};
    }
  }

  /** Setting one account to `v` changes the total by the difference
      between `v` and that account's old balance. */
  lemma TotalUpdate(m: map<string, int>, k: string, v: int)
    ensures Total(m[k := v]) == Total(m) - Balance(m, k) + v
  {
    TotalRemove(m[k := v], k);
    if k in m {
      TotalRemove(m, k);
      assert m[k := v] - {k} == m - {k};
    } else {
      assert m[k := v] - {k} == m;
    }
  }
}

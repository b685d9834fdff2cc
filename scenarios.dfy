/** The runs the repository's own drivers perform: the Python test suite,
    the Python demo and the Rust `main`. Each run is stated twice. The
    lemmas state it on the balance tables its calls produce: an accepted
    `add_transaction` leaves `Transfer` of the old table, and `mine_block`
    leaves the network's reward `Transfer` of it. The methods drive a
    `Blockchain` object through the same calls, with a digest under which
    every draw solves the puzzle, and use the lemmas for the figures. An
    admission stated below is a call that does not raise (Python) or that
    returns `Ok` (Rust). */
module Scenarios {
  import Accounts
  import PyLedger
  import RustLedger
  import Mining
  import Wrappers
  import opened Decimal

  const Network := Accounts.Network

  /** `set_up_blockchain`: Person1 and Person2 funded by "network". */
  function PySetUp(): map<string, int> {
    var m := PyLedger.Transfer(map[], Network, "Person1", 100);
    PyLedger.Transfer(m, Network, "Person2", 50)
  }

  /** `set_up_blockchain` never raises, and `test_initial_balance` holds:
      the funded accounts hold their issuance and the others read 0. */
  lemma PyTestInitialBalance()
    ensures PyLedger.Admits(map[], Network, 100)
    ensures PyLedger.Admits(PyLedger.Transfer(map[], Network, "Person1", 100), Network, 50)
    ensures Accounts.Balance(PySetUp(), "Person1") == 100 && Accounts.Balance(PySetUp(), "Person2") == 50
    ensures Accounts.Balance(PySetUp(), "Person3") == 0
    ensures Accounts.Balance(PySetUp(), "Miner1") == 0 && Accounts.Balance(PySetUp(), "Miner2") == 0
  {
  }

  /** The two transfers of `test_add_transaction_valid`. */
  function PyAddTransactionValid(m: map<string, int>): map<string, int> {
    PyLedger.Transfer(PyLedger.Transfer(m, "Person1", "Person2", 20), "Person2", "Person3", 15)
  }

  /** `test_add_transaction_valid`: both transfers are accepted and leave
      80/70, then 55/15; the miners are untouched. */
  lemma PyTestAddTransactionValid(m: map<string, int>)
    requires Accounts.Balance(m, "Person1") == 100 && Accounts.Balance(m, "Person2") == 50
    requires Accounts.Balance(m, "Person3") == 0
    ensures PyLedger.Admits(m, "Person1", 20)
    ensures var first := PyLedger.Transfer(m, "Person1", "Person2", 20);
      && Accounts.Balance(first, "Person1") == 80 && Accounts.Balance(first, "Person2") == 70
      && PyLedger.Admits(first, "Person2", 15)
    ensures var after := PyAddTransactionValid(m);
      && Accounts.Balance(after, "Person1") == 80
      && Accounts.Balance(after, "Person2") == 55 && Accounts.Balance(after, "Person3") == 15
      && Accounts.Balance(after, "Miner1") == Accounts.Balance(m, "Miner1")
      && Accounts.Balance(after, "Miner2") == Accounts.Balance(m, "Miner2")
  {
  }

  /** The rewards of the two mines of `test_mining` (and of `test_mining_time`). */
  function PyMining(m: map<string, int>): map<string, int> {
    var first := PyLedger.Transfer(m, Network, "Miner1", PyLedger.MiningReward);
    PyLedger.Transfer(first, Network, "Miner2", PyLedger.MiningReward)
  }

  /** `test_mining`: each miner gains the reward and nobody else changes. */
  lemma PyTestMining(m: map<string, int>)
    ensures Accounts.Balance(PyLedger.Transfer(m, Network, "Miner1", PyLedger.MiningReward), "Miner1") ==
      Accounts.Balance(m, "Miner1") + 10
    ensures Accounts.Balance(PyMining(m), "Miner2") == Accounts.Balance(m, "Miner2") + 10
    ensures Accounts.Balance(PyMining(m), "Miner1") == Accounts.Balance(m, "Miner1") + 10
    ensures forall a :: a != "Miner1" && a != "Miner2" ==> Accounts.Balance(PyMining(m), a) == Accounts.Balance(m, a)
  {
  }

  /** The three transfers of `test_balance_after_multiple_transactions`. */
  function PyMultiple(m: map<string, int>): map<string, int> {
    var first := PyLedger.Transfer(m, "Person1", "Person2", 20);
    var second := PyLedger.Transfer(first, "Person2", "Person3", 15);
    PyLedger.Transfer(second, "Person1", "Person3", 10)
  }

  /** `test_balance_after_multiple_transactions`: from 80/55/15 the three
      transfers are accepted and end at 50/60/40; the miners are untouched. */
  lemma PyTestBalanceAfterMultipleTransactions(m: map<string, int>)
    requires Accounts.Balance(m, "Person1") == 80 && Accounts.Balance(m, "Person2") == 55
    requires Accounts.Balance(m, "Person3") == 15
    ensures PyLedger.Admits(m, "Person1", 20)
    ensures PyLedger.Admits(PyLedger.Transfer(m, "Person1", "Person2", 20), "Person2", 15)
    ensures PyLedger.Admits(
      PyLedger.Transfer(PyLedger.Transfer(m, "Person1", "Person2", 20), "Person2", "Person3", 15), "Person1", 10)
    ensures Accounts.Balance(PyMultiple(m), "Person1") == 50
    ensures Accounts.Balance(PyMultiple(m), "Person2") == 60
    ensures Accounts.Balance(PyMultiple(m), "Person3") == 40
    ensures Accounts.Balance(PyMultiple(m), "Miner1") == Accounts.Balance(m, "Miner1")
    ensures Accounts.Balance(PyMultiple(m), "Miner2") == Accounts.Balance(m, "Miner2")
  {
  }

  /** `run_all_tests`, end to end: the balances
      `test_balance_after_multiple_transactions` asserts, on the table the
      set-up, `test_add_transaction_valid` and `test_mining` leave. */
  lemma PyRunAllTests()
    ensures var m := PyMultiple(PyMining(PyAddTransactionValid(PySetUp())));
      && Accounts.Balance(m, "Person1") == 50
      && Accounts.Balance(m, "Person2") == 60
      && Accounts.Balance(m, "Person3") == 40
  {
    PyTestInitialBalance();
    var m := PySetUp();
    PyTestAddTransactionValid(m);
    m := PyAddTransactionValid(m);
    PyTestMining(m);
    m := PyMining(m);
    PyTestBalanceAfterMultipleTransactions(m);
  }

  /** The transfers of `run_demo` between its two mines. */
  function PyDemoTransfers(m: map<string, int>): map<string, int> {
    var first := PyLedger.Transfer(m, "person1", "person2", 50);
    var second := PyLedger.Transfer(first, "person1", "person3", 25);
    var third := PyLedger.Transfer(second, "person2", "person3", 15);
    PyLedger.Transfer(third, "person3", "person1", 25)
  }

  /** The transfers of `run_demo`: from person1 100, person2 50 and
      person3 0 all four pass the funds check and leave person1 50,
      person2 85 and person3 15; the miners are untouched. */
  lemma PyRunDemo(m: map<string, int>)
    requires Accounts.Balance(m, "person1") == 100 && Accounts.Balance(m, "person2") == 50
    requires Accounts.Balance(m, "person3") == 0
    ensures PyLedger.Admits(m, "person1", 50)
    ensures var first := PyLedger.Transfer(m, "person1", "person2", 50);
      PyLedger.Admits(first, "person1", 25)
    ensures var second := PyLedger.Transfer(PyLedger.Transfer(m, "person1", "person2", 50), "person1", "person3", 25);
      && PyLedger.Admits(second, "person2", 15)
      && PyLedger.Admits(PyLedger.Transfer(second, "person2", "person3", 15), "person3", 25)
    ensures Accounts.Balance(PyDemoTransfers(m), "person1") == 50
    ensures Accounts.Balance(PyDemoTransfers(m), "person2") == 85
    ensures Accounts.Balance(PyDemoTransfers(m), "person3") == 15
    ensures Accounts.Balance(PyDemoTransfers(m), "miner1") == Accounts.Balance(m, "miner1")
    ensures Accounts.Balance(PyDemoTransfers(m), "miner2") == Accounts.Balance(m, "miner2")
  {
  }

  /** The accounts the Rust `main` touches, all unseen: each reads 0. */
  predicate RustFresh(m: map<string, nat>) {
    && RustLedger.Balance(m, "Alice") == 0 && RustLedger.Balance(m, "Bob") == 0
    && RustLedger.Balance(m, "Charlie") == 0
    && RustLedger.Balance(m, "Miner1") == 0 && RustLedger.Balance(m, "Miner2") == 0
  }

  /** The four `add_transaction` calls of the Rust `main` before its mines:
      two issuances, then the two transfers it unwraps. The table is defined
      only because each call passes the funds check. */
  function RustOpening(m: map<string, nat>): map<string, nat>
    requires RustFresh(m)
  {
    var funded := RustLedger.Transfer(RustLedger.Transfer(m, Network, "Alice", 100), Network, "Bob", 50);
    assert RustLedger.Balance(funded, "Alice") == 100;
    var first := RustLedger.Transfer(funded, "Alice", "Bob", 20);
    assert RustLedger.Balance(first, "Bob") == 70;
    RustLedger.Transfer(first, "Bob", "Charlie", 15)
  }

  /** The network's rewards for the two mines of the Rust `main`. */
  function RustMining(m: map<string, nat>): map<string, nat> {
    var first := RustLedger.Transfer(m, Network, "Miner1", RustLedger.MiningReward);
    RustLedger.Transfer(first, Network, "Miner2", RustLedger.MiningReward)
  }

  /** The Rust `main`: after the opening calls and the two mines the
      balances it prints are Alice 80, Bob 55, Charlie 15 and 10 for each
      miner, and the closing 1000-coin transfer from Alice is refused. */
  lemma RustMain(m: map<string, nat>)
    requires RustFresh(m)
    ensures var after := RustMining(RustOpening(m));
      && RustLedger.Balance(after, "Alice") == 80 && RustLedger.Balance(after, "Bob") == 55
      && RustLedger.Balance(after, "Charlie") == 15
      && RustLedger.Balance(after, "Miner1") == 10 && RustLedger.Balance(after, "Miner2") == 10
      && !RustLedger.Admits(after, "Alice", 1000)
  {
  }

  /** The `Err` that closing transfer returns, as `main` prints it. */
  lemma RustOverdraftMessage()
    ensures RustLedger.InsufficientBalance("Alice", 80, 1000) ==
      "Insufficient balance. Sender " + "Alice" + " has " + "80" + " but tried to send " + "1000"
  {
    RustOverdraftFigures();
  }

  /** The two figures that message spells out. */
  lemma RustOverdraftFigures()
    ensures NatToDecimal(80) == ['8', '0'] && NatToDecimal(1000) == ['1', '0', '0', '0']
  {
    assert NatToDecimal(100) == ['1', '0', '0'];
  }

  /** A digest every output of which meets the difficulty target, so the
      first draw of any stream solves the puzzle. */
  function SolvedDigest(s: string): (d: string)
    ensures Mining.HasDifficultyPrefix(d)
  {
    "00"
  }

  /** `set_up_blockchain` on a `Blockchain` object: a fresh ledger and the
      two issuances, both accepted. */
  method PySetUpBlockchain() returns (bc: PyLedger.Blockchain)
    ensures fresh(bc) && bc.Valid() && bc.sha256 == SolvedDigest
    ensures |bc.chain| == 1 && bc.balances == PySetUp()
  {
    bc := new PyLedger.Blockchain(SolvedDigest, 0);
    var first := bc.AddTransaction(Network, "Person1", 100);
    var second := bc.AddTransaction(Network, "Person2", 50);
  }

  /** One `mine_block` call on the ledger, drawing 1000 first: the chain
      grows by one block and the miner is paid. */
  method PyMine(bc: PyLedger.Blockchain, miner: string, timestamp: nat)
    requires bc.Valid() && bc.sha256 == SolvedDigest
    modifies bc
    ensures bc.Valid()
    ensures |bc.chain| == |old(bc.chain)| + 1
    ensures bc.balances == PyLedger.Transfer(old(bc.balances), Network, miner, PyLedger.MiningReward)
  {
    assert Mining.ValidProof(bc.sha256, bc.chain[|bc.chain| - 1].proof, [1000][0]);
    var _ := bc.MineBlock(miner, timestamp, [1000]);
  }

  /** `test_mining` on the ledger: two blocks on top of the genesis block,
      so the chain holds 2 blocks after the first mine and 3 after the
      second, and both miners hold their reward. */
  method PyTestMiningOnBlockchain(bc: PyLedger.Blockchain)
    requires bc.Valid() && bc.sha256 == SolvedDigest && |bc.chain| == 1
    modifies bc
    ensures bc.Valid()
    ensures |bc.chain| == 3
    ensures bc.balances == PyMining(old(bc.balances))
  {
    PyMine(bc, "Miner1", 1);
    assert |bc.chain| == 2;
    PyMine(bc, "Miner2", 2);
  }

  /** `test_add_transaction_valid` on the ledger: neither call raises, and
      the table becomes the one the two transfers produce. */
  method PyTestAddTransactionValidOnBlockchain(bc: PyLedger.Blockchain)
      returns (first: Wrappers.Outcome<string>, second: Wrappers.Outcome<string>)
    requires bc.Valid()
    requires bc.GetBalance("Person1") == 100 && bc.GetBalance("Person2") == 50 && bc.GetBalance("Person3") == 0
    modifies bc
    ensures bc.Valid() && first.Pass? && second.Pass?
    ensures bc.chain == old(bc.chain) && bc.balances == PyAddTransactionValid(old(bc.balances))
  {
    PyTestAddTransactionValid(bc.balances);
    first := bc.AddTransaction("Person1", "Person2", 20);
    second := bc.AddTransaction("Person2", "Person3", 15);
  }

  /** `test_balance_after_multiple_transactions` on the ledger: none of the
      three calls raises, and the table becomes the one they produce. */
  method PyTestBalanceAfterMultipleTransactionsOnBlockchain(bc: PyLedger.Blockchain)
    requires bc.Valid()
    requires bc.GetBalance("Person1") == 80 && bc.GetBalance("Person2") == 55 && bc.GetBalance("Person3") == 15
    modifies bc
    ensures bc.Valid()
    ensures bc.chain == old(bc.chain) && bc.balances == PyMultiple(old(bc.balances))
  {
    PyTestBalanceAfterMultipleTransactions(bc.balances);
    var first := bc.AddTransaction("Person1", "Person2", 20);
    var second := bc.AddTransaction("Person2", "Person3", 15);
    var third := bc.AddTransaction("Person1", "Person3", 10);
  }

  /** `run_all_tests` on one ledger: after the set-up, the transfers, the
      two mines of `test_mining`, the three transfers and the two mines of
      `test_mining_time`, the chain holds 5 blocks and Person1, Person2 and
      Person3 hold 50, 60 and 40. */
  method PyRunAllTestsOnBlockchain() returns (bc: PyLedger.Blockchain)
    ensures bc.Valid() && |bc.chain| == 5
    ensures bc.GetBalance("Person1") == 50 && bc.GetBalance("Person2") == 60 && bc.GetBalance("Person3") == 40
  {
    bc := PySetUpBlockchain();
    PyTestInitialBalance();
    var _, _ := PyTestAddTransactionValidOnBlockchain(bc);
    PyTestAddTransactionValid(PySetUp());
    PyTestMining(bc.balances);
    PyTestMiningOnBlockchain(bc);
    PyTestBalanceAfterMultipleTransactionsOnBlockchain(bc);
    PyRunAllTests();
    PyMine(bc, "Miner1", 3);
    PyMine(bc, "Miner2", 4);
  }

  /** The start of `run_demo`: the two issuances and the first mine's reward. */
  function PyDemoFunding(): map<string, int> {
    var funded := PyLedger.Transfer(PyLedger.Transfer(map[], Network, "person1", 100), Network, "person2", 50);
    PyLedger.Transfer(funded, Network, "miner1", PyLedger.MiningReward)
  }

  /** After the start of `run_demo`: person1 100, person2 50, miner1 10,
      and person3 and miner2 unseen. */
  lemma PyDemoFundingBalances()
    ensures Accounts.Balance(PyDemoFunding(), "person1") == 100 && Accounts.Balance(PyDemoFunding(), "person2") == 50
    ensures Accounts.Balance(PyDemoFunding(), "person3") == 0
    ensures Accounts.Balance(PyDemoFunding(), "miner1") == 10 && Accounts.Balance(PyDemoFunding(), "miner2") == 0
  {
  }

  /** `run_demo` end to end: the four transfers on the funded table, then
      the second mine's reward, leave person1 50, person2 85, person3 15 and
      each miner 10. */
  lemma PyRunDemoBalances()
    ensures var m := PyLedger.Transfer(PyDemoTransfers(PyDemoFunding()), Network, "miner2", PyLedger.MiningReward);
      && Accounts.Balance(m, "person1") == 50 && Accounts.Balance(m, "person2") == 85
      && Accounts.Balance(m, "person3") == 15
      && Accounts.Balance(m, "miner1") == 10 && Accounts.Balance(m, "miner2") == 10
  {
    PyDemoFundingBalances();
    PyRunDemo(PyDemoFunding());
  }

  /** The start of `run_demo` on a fresh ledger: the two issuances and
      the first mine. */
  method PyDemoFundingOnBlockchain() returns (bc: PyLedger.Blockchain)
    ensures fresh(bc) && bc.Valid() && bc.sha256 == SolvedDigest && |bc.chain| == 2
    ensures bc.balances == PyDemoFunding()
  {
    bc := new PyLedger.Blockchain(SolvedDigest, 0);
    var _ := bc.AddTransaction(Network, "person1", 100);
    var _ := bc.AddTransaction(Network, "person2", 50);
    PyMine(bc, "miner1", 1);
  }

  /** The four transfers of `run_demo` on the ledger: none raises. */
  method PyDemoTransfersOnBlockchain(bc: PyLedger.Blockchain)
    requires bc.Valid()
    requires bc.GetBalance("person1") == 100 && bc.GetBalance("person2") == 50 && bc.GetBalance("person3") == 0
    modifies bc
    ensures bc.Valid()
    ensures bc.chain == old(bc.chain) && bc.balances == PyDemoTransfers(old(bc.balances))
  {
    PyRunDemo(bc.balances);
    var _ := bc.AddTransaction("person1", "person2", 50);
    var _ := bc.AddTransaction("person1", "person3", 25);
    var _ := bc.AddTransaction("person2", "person3", 15);
    var _ := bc.AddTransaction("person3", "person1", 25);
  }

  /** `run_demo` on one ledger: the two issuances, a mine, the four
      transfers and a second mine leave a chain of 3 blocks and person1 50,
      person2 85, person3 15, each miner 10. */
  method PyRunDemoOnBlockchain() returns (bc: PyLedger.Blockchain)
    ensures bc.Valid() && |bc.chain| == 3
    ensures bc.GetBalance("person1") == 50 && bc.GetBalance("person2") == 85 && bc.GetBalance("person3") == 15
    ensures bc.GetBalance("miner1") == 10 && bc.GetBalance("miner2") == 10
  {
    bc := PyDemoFundingOnBlockchain();
    PyDemoFundingBalances();
    PyDemoTransfersOnBlockchain(bc);
    PyMine(bc, "miner2", 2);
    PyRunDemoBalances();
  }

  /** One `mine_block` call on the Rust ledger, drawing 1000 first. */
  method RustMine(bc: RustLedger.Blockchain, miner: string, timestamp: nat)
    requires bc.Valid() && bc.sha256 == SolvedDigest
    modifies bc
    ensures bc.Valid()
    ensures |bc.chain| == |old(bc.chain)| + 1
    ensures bc.balances == RustLedger.Transfer(old(bc.balances), Network, miner, RustLedger.MiningReward)
  {
    assert Mining.ValidProof(bc.sha256, bc.chain[|bc.chain| - 1].proof, [1000][0]);
    var _ := bc.MineBlock(miner, timestamp, [1000]);
  }

  /** The four `add_transaction(..).unwrap()` calls of the Rust `main`:
      each returns `Ok`. */
  method RustOpeningOnBlockchain(bc: RustLedger.Blockchain)
    requires bc.Valid() && RustFresh(bc.balances)
    modifies bc
    ensures bc.Valid()
    ensures bc.chain == old(bc.chain) && bc.balances == RustOpening(old(bc.balances))
  {
    var issued := bc.AddTransaction(Network, "Alice", 100);
    assert issued.Pass?;
    issued := bc.AddTransaction(Network, "Bob", 50);
    assert issued.Pass?;
    var paid := bc.AddTransaction("Alice", "Bob", 20);
    assert paid.Pass?;
    paid := bc.AddTransaction("Bob", "Charlie", 15);
    assert paid.Pass?;
  }

  /** The two `mine_block` calls of the Rust `main` on the ledger. */
  method RustMiningOnBlockchain(bc: RustLedger.Blockchain)
    requires bc.Valid() && bc.sha256 == SolvedDigest
    modifies bc
    ensures bc.Valid()
    ensures |bc.chain| == |old(bc.chain)| + 2 && bc.balances == RustMining(old(bc.balances))
  {
    RustMine(bc, "Miner1", 1);
    RustMine(bc, "Miner2", 2);
  }

  /** The closing 1000-coin transfer of the Rust `main`: it returns `Err`
      with the overdraft message and leaves the ledger as it was. */
  method RustOverdraftOnBlockchain(bc: RustLedger.Blockchain) returns (closing: Wrappers.Outcome<string>)
    requires bc.Valid() && bc.GetBalance("Alice") == 80
    modifies bc
    ensures bc.Valid()
    ensures closing == Wrappers.Fail(RustLedger.InsufficientBalance("Alice", 80, 1000))
    ensures bc.balances == old(bc.balances) && bc.chain == old(bc.chain)
  {
    closing := bc.AddTransaction("Alice", "Bob", 1000);
  }

  /** The Rust `main` up to its balance checks: a fresh ledger, the four
      opening calls and the two mines; `start` is the empty table the ledger
      begins with. */
  method RustRunOnBlockchain(debugFormat: RustLedger.DebugFormatter)
      returns (bc: RustLedger.Blockchain, ghost start: map<string, nat>)
    ensures fresh(bc) && bc.Valid() && |bc.chain| == 3
    ensures start == map[] && bc.balances == RustMining(RustOpening(start))
  {
    bc := new RustLedger.Blockchain(SolvedDigest, debugFormat, 0);
    start := bc.balances;
    RustOpeningOnBlockchain(bc);
    RustMiningOnBlockchain(bc);
  }

  /** The Rust `main` on one ledger: after the opening calls and the two
      mines the chain holds 3 blocks and the balances it prints are Alice
      80, Bob 55, Charlie 15, each miner 10; the closing 1000-coin
      transfer returns `Err` with the overdraft message. */
  method RustMainOnBlockchain(debugFormat: RustLedger.DebugFormatter)
      returns (bc: RustLedger.Blockchain, closing: Wrappers.Outcome<string>)
    ensures bc.Valid() && |bc.chain| == 3
    ensures bc.GetBalance("Alice") == 80 && bc.GetBalance("Bob") == 55 && bc.GetBalance("Charlie") == 15
    ensures bc.GetBalance("Miner1") == 10 && bc.GetBalance("Miner2") == 10
    ensures closing == Wrappers.Fail(RustLedger.InsufficientBalance("Alice", 80, 1000))
  {
    ghost var start;
    bc, start := RustRunOnBlockchain(debugFormat);
    RustMain(start);
    closing := RustOverdraftOnBlockchain(bc);
  }
}

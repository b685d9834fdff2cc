# Crypto_Project ledger engine in Dafny

A model of the ledger engine of a teaching blockchain in two versions:
- the Python reference (`Transaction`, `Block` and `Blockchain`, with integer amounts and balances);
- its Rust port (the same three types, with `u32` amounts and balances, here `nat`).

A `Blockchain` is a class with three fields, which its methods update in place:
- `chain`, the sequence of blocks;
- `currentTransactions`, the pending list;
- `balances`, the balance table, where an account never seen reads 0.

Its invariant `Valid()` has two parts:
- The chain is well-formed. It starts with the genesis block, and every later block is mined on top of its predecessor: its index is its position, it links to the previous block's hash, its stored hash is the digest of its other fields, and its proof solves the puzzle seeded by the previous proof and lies in the draw range.
- The balance table is exactly what replaying the recorded history produces from an empty table. The history is every sealed block's transactions followed by the pending list, and each transaction in it passed the funds check.

The parts that talk to the outside world are parameters:
- SHA-256 is a `Hasher` (a string-to-hex-digest function), so every property holds for any digest function.
- The Rust `{:?}` rendering of a transaction list is a `DebugFormatter`.
- The clock is a `timestamp` argument.
- The random number generator is the stream of candidate proofs it would draw (`draws`). The proof search is required to succeed on that stream (`SearchSucceeds`), which stands for the source's "loop until found".

Modules:
- `Wrappers`: the `Option` and `Outcome` types.
- `Decimal`: integer-to-decimal rendering, as `f"{n}"` and `format!("{}")` do.
- `Accounts`: the balance table, its total and the `"network"` sentinel.
- `Mining`: the proof-of-work puzzle and its search.
- `PyLedger`: the Python engine.
- `RustLedger`: the Rust engine.
- `Scenarios`: the runs of the Python tests, the Python demo and the Rust `main`, each written on the balance tables its calls produce.

## Model

| member | source | states |
|---|---|---|
| Decimal.NatToDecimalDigits | python_version_archive/project.py:114 | a rendered natural is non-empty, all digits, and has no leading zero unless it is "0" |
| Decimal.DecimalRoundTrip | python_version_archive/project.py:114 | reading back the decimal rendering of a natural gives the natural |
| Decimal.IntRoundTrip | python_version_archive/project.py:120 | reading back the rendering of a signed integer (with its minus sign) gives the integer |
| Decimal.IntToDecimalInjective | python_version_archive/project.py:120 | distinct integers render as distinct numerals |
| Accounts.Balance | python_version_archive/project.py:128-129 | an account never seen reads 0; otherwise its stored balance |
| Accounts.TotalRemove | python_version_archive/project.py:50 | the total of the table splits at any key as that key's balance plus the rest |
| Accounts.TotalUpdate | python_version_archive/project.py:75-76 | setting one account changes the total by exactly the new balance minus the old one |
| Mining.FirstValidFrom | python_version_archive/project.py:106-108 | the search from a position stops at the first solving draw after it, or at none when no later draw solves the puzzle |
| Mining.FoundProofIsFirstSolution | python_version_archive/project.py:104-110 | when draw i solves the puzzle and no earlier draw does, the search succeeds and returns draw i |
| PyLedger.TransactionsReprAppend | python_version_archive/project.py:120 | the rendering of a non-empty transaction list is bracketed, and appending a transaction inserts ", " and its repr before the closing bracket |
| PyLedger.RewardOnlyRepr | python_version_archive/project.py:22-23 | a list holding only a miner's reward renders as "[network -> <miner> : 10 coins]" |
| PyLedger.SetHash | python_version_archive/project.py:94-96 | the sealed block's hash is the digest of its fields, and every other field is unchanged |
| PyLedger.CalculateHashIgnoresHash | python_version_archive/project.py:119-121 | a block's digest does not depend on its own hash field |
| PyLedger.WellFormedChainIff | python_version_archive/project.py:85-98 | the block-by-block chain invariant holds exactly when its positional form holds (genesis first, every later block extending the blocks before it), in both directions |
| PyLedger.ChainInvariantsAt | python_version_archive/project.py:85-98 | in a well-formed chain, block i has index i; past genesis it links to block i-1's hash, its hash is its digest, and its proof solves the puzzle seeded by block i-1's proof and lies in 1000..9999 |
| PyLedger.WellFormedPrefix | python_version_archive/project.py:98 | every non-empty prefix of a well-formed chain is well-formed |
| PyLedger.WellFormedExtend | python_version_archive/project.py:98 | appending a block mined on top of a well-formed chain keeps it well-formed |
| PyLedger.Transfer | python_version_archive/project.py:74-76 | each account changes by its credit minus its debit (network is never debited, and a self-transfer is a no-op); only the sender and receiver can appear as new keys; an admitted ordinary transfer to another account leaves the sender at or above 0 |
| PyLedger.TransferTotal | python_version_archive/project.py:74-76 | an ordinary transfer conserves the total; an issuance from "network" adds exactly the amount |
| PyLedger.NegativeAmountReverses | python_version_archive/project.py:67-76 | a negative amount from a solvent sender passes the funds check, takes coins from the receiver and gives them to the sender |
| PyLedger.ReplayConcat | python_version_archive/project.py:66-78 | replaying a + b is replaying b on the table a leaves, and is refused if a is |
| PyLedger.ReplayTotal | python_version_archive/project.py:66-78 | an accepted history adds to the total exactly the coins "network" issued in it |
| PyLedger.RecordedAppend | python_version_archive/project.py:92-98 | appending a block adds its transactions, in order, to the recorded history |
| PyLedger.MinedStateValid | python_version_archive/project.py:88-99 | sealing the pending list into a block mined on top of the chain, then clearing it, keeps the chain well-formed and the table equal to the replay of the history |
| PyLedger.Blockchain.constructor | python_version_archive/project.py:47-63 | the chain is the genesis block only (index 0, previous hash "0", no transactions, proof 100, hash "0"); nothing is pending; no balances; the invariant holds |
| PyLedger.Blockchain.CreateGenesisBlock | python_version_archive/project.py:54-63 | appends the genesis block stamped with the timestamp |
| PyLedger.Blockchain.GetBalance | python_version_archive/project.py:128-129 | the table's balance, 0 for an unseen account |
| PyLedger.Blockchain.AddTransaction | python_version_archive/project.py:66-79 | fails with the insufficient-balance message exactly when an ordinary sender's balance is below the amount, and then changes nothing; otherwise the table becomes the transfer of the old one and the transaction is appended to the pending list; the chain is never touched; the invariant is kept |
| PyLedger.Blockchain.ProofOfWork | python_version_archive/project.py:104-110 | returns the first draw of the stream that solves the puzzle seeded by the last proof; it is valid and in 1000..9999 |
| PyLedger.Blockchain.MineBlock | python_version_archive/project.py:82-101 | issues the reward of 10 to the miner, appends exactly one block (index = old length, linked to the old last hash, stamped with the timestamp, holding the old pending list plus the reward, proof = the search's first solution, sealed), and empties the pending list; the invariant is kept |
| PyLedger.Blockchain.AppendBlock | python_version_archive/project.py:98-99 | appends the sealed block, clears the pending list, leaves the table, and keeps the invariant |
| PyLedger.Blockchain.CirculationIsIssued | python_version_archive/project.py:68-76 | the coins in circulation equal the coins "network" issued in the recorded history |
| RustLedger.SetHash | crypto_simulation/src/main.rs:113-116 | the sealed block's hash is the digest of its fields, and every other field is unchanged |
| RustLedger.CalculateHashIgnoresHash | crypto_simulation/src/main.rs:148-155 | a block's digest does not depend on its own hash field |
| RustLedger.ChainInvariantsAt | crypto_simulation/src/main.rs:101-119 | in a well-formed chain, block i has index i; past genesis it links to block i-1's hash, its hash is its digest, and its proof solves the puzzle seeded by block i-1's proof and lies in 1000..9998 |
| RustLedger.WellFormedExtend | crypto_simulation/src/main.rs:119 | appending a block mined on top of a well-formed chain keeps it well-formed |
| RustLedger.Balance | crypto_simulation/src/main.rs:166-168 | an account never seen reads 0; otherwise its stored balance |
| RustLedger.Transfer | crypto_simulation/src/main.rs:84-88 | on an admitted transfer (so the sender's `-=` cannot underflow), each account changes by its credit minus its debit; only the sender and receiver can appear as new keys |
| RustLedger.TransferTotal | crypto_simulation/src/main.rs:84-88 | an ordinary transfer conserves the total; an issuance from "network" adds exactly the amount |
| RustLedger.ReplayConcat | crypto_simulation/src/main.rs:70-93 | replaying a + b is replaying b on the table a leaves, and is refused if a is |
| RustLedger.ReplayTotal | crypto_simulation/src/main.rs:70-93 | an accepted history adds to the total exactly the coins "network" issued in it |
| RustLedger.MinedStateValid | crypto_simulation/src/main.rs:104-120 | sealing the pending list into a block mined on top of the chain, then clearing it, keeps both halves of the invariant |
| RustLedger.Blockchain.constructor | crypto_simulation/src/main.rs:46-67 | the chain is the genesis block only (index 0, previous hash "0", no transactions, proof 100, hash "0"); nothing is pending; no balances; the invariant holds |
| RustLedger.Blockchain.CreateGenesisBlock | crypto_simulation/src/main.rs:57-67 | appends the genesis block stamped with the timestamp |
| RustLedger.Blockchain.GetBalance | crypto_simulation/src/main.rs:166-168 | the table's balance, 0 for an unseen account |
| RustLedger.Blockchain.AddTransaction | crypto_simulation/src/main.rs:70-93 | returns `Err` with the insufficient-balance message exactly when an ordinary sender's balance is below the amount, and then changes nothing; on `Ok`, the table is the transfer of the old one and exactly one transaction is appended to the pending list; the chain is never touched; the invariant is kept |
| RustLedger.Blockchain.ProofOfWork | crypto_simulation/src/main.rs:127-135 | returns the first draw of the stream that solves the puzzle seeded by the last proof; it is valid and in 1000..9998 |
| RustLedger.Blockchain.MineBlock | crypto_simulation/src/main.rs:96-124 | the reward `Ok` always holds, so the `expect` never fires; appends exactly one sealed block (index = old length, linked to the old last hash, holding the old pending list plus the reward of 10, proof = the search's first solution); empties the pending list; credits the miner 10; keeps the invariant |
| RustLedger.Blockchain.AppendBlock | crypto_simulation/src/main.rs:119-120 | appends the sealed block, clears the pending list, leaves the table, and keeps the invariant |
| RustLedger.Blockchain.CirculationIsIssued | crypto_simulation/src/main.rs:84-92 | the coins in circulation equal the coins "network" issued in the recorded history |
| Scenarios.PyTestInitialBalance | python_version_archive/test_project.py:12-26 | both set-up issuances are admitted; Person1 100, Person2 50; Person3, Miner1 and Miner2 read 0 |
| Scenarios.PyTestAddTransactionValid | python_version_archive/test_project.py:28-38 | both transfers are admitted, leaving 80/70 and then 55/15; the miners are unchanged |
| Scenarios.PyTestMining | python_version_archive/test_project.py:40-53 | each mine credits its miner the reward of 10; every other account is unchanged |
| Scenarios.PyTestBalanceAfterMultipleTransactions | python_version_archive/test_project.py:55-65 | from 80/55/15 the three transfers are admitted and end at 50/60/40; the miners are unchanged |
| Scenarios.PyRunAllTests | python_version_archive/test_project.py:79-89 | the set-up, transfer, mining and multiple-transfer steps in sequence end at 50/60/40 |
| Scenarios.PyRunDemo | python_version_archive/run_this_code.py:21-24 | from person1 100, person2 50 and person3 0, all four transfers are admitted and end at person1 50, person2 85, person3 15; the miners are unchanged |
| Scenarios.RustMain | crypto_simulation/src/main.rs:196-243 | after the opening transfers and the two mines: Alice 80, Bob 55, Charlie 15, each miner 10; the closing 1000-coin transfer from Alice is refused |
| Scenarios.RustOverdraftFigures | crypto_simulation/src/main.rs:74-75 | the figures 80 and 1000 render as "80" and "1000" |
| Scenarios.RustOverdraftMessage | crypto_simulation/src/main.rs:240-242 | the refusal's message names the sender, the balance 80 and the amount 1000 |
| Scenarios.PySetUpBlockchain | python_version_archive/test_project.py:12-17 | a fresh ledger after the two issuances holds one block and the set-up table |
| Scenarios.PyMine | python_version_archive/test_project.py:44 | one `mine_block` call grows the chain by one block, pays the miner 10 and keeps the invariant |
| Scenarios.PyTestAddTransactionValidOnBlockchain | python_version_archive/test_project.py:28-38 | on the ledger, neither transfer raises; the table becomes the two transfers' table; the chain is unchanged |
| Scenarios.PyTestMiningOnBlockchain | python_version_archive/test_project.py:40-53 | from the genesis-only chain, each mine adds one block, so the chain holds 2 blocks after the first and 3 after the second; the table gains both rewards |
| Scenarios.PyTestBalanceAfterMultipleTransactionsOnBlockchain | python_version_archive/test_project.py:55-65 | on the ledger, none of the three transfers raises; the table becomes their table; the chain is unchanged |
| Scenarios.PyRunAllTestsOnBlockchain | python_version_archive/test_project.py:79-89 | one ledger driven through every test (including the two mines of `test_mining_time`) ends with 5 blocks and Person1 50, Person2 60, Person3 40 |
| Scenarios.PyDemoFundingBalances | python_version_archive/run_this_code.py:12-18 | after the issuances and the first mine: person1 100, person2 50, miner1 10; person3 and miner2 read 0 |
| Scenarios.PyRunDemoBalances | python_version_archive/run_this_code.py:11-28 | the whole demo leaves person1 50, person2 85, person3 15 and each miner 10 |
| Scenarios.PyDemoFundingOnBlockchain | python_version_archive/run_this_code.py:12-18 | on a fresh ledger, the issuances and the first mine leave 2 blocks and the funded table |
| Scenarios.PyDemoTransfersOnBlockchain | python_version_archive/run_this_code.py:21-24 | on the ledger, none of the four transfers raises; the table becomes their table; the chain is unchanged |
| Scenarios.PyRunDemoOnBlockchain | python_version_archive/run_this_code.py:11-28 | one ledger driven through the demo ends with 3 blocks and person1 50, person2 85, person3 15, each miner 10 |
| Scenarios.RustMine | crypto_simulation/src/main.rs:216 | one `mine_block` call grows the chain by one block, pays the miner 10 and keeps the invariant |
| Scenarios.RustOpeningOnBlockchain | crypto_simulation/src/main.rs:204-210 | each of the four unwrapped calls returns `Ok`; the table becomes the opening table; the chain is unchanged |
| Scenarios.RustMiningOnBlockchain | crypto_simulation/src/main.rs:214-224 | the two mines add two blocks and both rewards |
| Scenarios.RustOverdraftOnBlockchain | crypto_simulation/src/main.rs:240-243 | with Alice at 80, the 1000-coin transfer returns `Err` with the overdraft message and changes nothing |
| Scenarios.RustRunOnBlockchain | crypto_simulation/src/main.rs:201-224 | a fresh ledger after the opening calls and the mines holds 3 blocks and the table of those calls |
| Scenarios.RustMainOnBlockchain | crypto_simulation/src/main.rs:196-243 | one ledger driven through `main` ends with 3 blocks, Alice 80, Bob 55, Charlie 15, each miner 10, and the closing transfer refused with the overdraft message |

## Left out

- SHA-256 itself: the digest function is a parameter, so nothing here depends on what the digest is.
- The random number generator is modelled as the stream of draws it produces. `SearchSucceeds` is the assumption that the stream holds a solving draw. The source loops forever otherwise, and no termination argument exists for it.
- `current_timestamp` and `Instant` timing are left out, because the clock is an argument. So is `test_mining_time`'s five-second bound, which is a wall-clock property.
- Output is left out, because it has no effect on the ledger: `print`/`println!` progress lines, `display_chain`, `display_balances` and `Block.__repr__`.
- The Rust `{:?}` rendering of a transaction list is the parameter `debugFormat`, because derived `Debug` output belongs to the compiler.
- `Transaction.__repr__` is modelled for integer amounts only, together with the list rendering it takes part in inside `calculate_hash`.
- RustLedger.Transfer: does not model `u32` overflow of the receiver's `+= amount`, because balances are unbounded `nat`. The `-=` on the sender cannot underflow after the funds check, and the contract states this.
- RustLedger.Blockchain.MineBlock: does not model the truncation of `self.chain.len() as u32`, because the index is an unbounded `nat`.
- The Rust `&guess_hash_str[..2]` panics on a digest shorter than two characters. The model reads such a digest as "no match". A SHA-256 hex digest is always 64 characters.
- The Python amounts may be any integers, as the code allows. `custom_input.py`, which feeds floats parsed from user input, is not part of this model.
- PyLedger.NegativeAmountReverses: the Python `add_transaction` never checks the sign of `amount` (project.py:66-76), so a negative amount passes the funds check; the model follows the code.
- PyLedger.Transfer: the lower bound on the sender covers a transfer to another account only. A self-transfer leaves the balance as it was, and that balance can already be negative after a negative amount was received.
- MineBlock (both) reads the last block before issuing the reward rather than after it. The two are the same block, because `AddTransaction` leaves the chain unchanged.
- The driver runs in `Scenarios` (`PyRunAllTestsOnBlockchain`, `PyRunDemoOnBlockchain`, `RustMainOnBlockchain`) mine with a digest under which every draw solves the puzzle (`SolvedDigest`) and a one-draw stream. The real SHA-256 and the length of a real search are not exercised.
- The Python block timestamp is a `nat`, as `int(time.time())` is after 1970.

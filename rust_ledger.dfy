/** The Rust port of the ledger engine: `Transaction`, `Block` and
    `Blockchain`, with unsigned amounts and balances (`u32`, here `nat`). The
    digest function, the `{:?}` rendering of a transaction list and the random
    proof draws are parameters; the clock is a timestamp parameter. */
module RustLedger {
  import opened Wrappers
  import opened Decimal
  import opened Mining
  import Accounts

  /** The reward `mine_block` issues to the miner. */
  const MiningReward: nat := 10

  /** The fixed proof of the genesis block. */
  const GenesisProof: nat := 100

  datatype Transaction = Transaction(sender: string, receiver: string, amount: nat)

  datatype Block = Block(
    index: nat,
    previousHash: string,
    timestamp: nat,
    transactions: seq<Transaction>,
    proof: nat,
    hash: string)

  /** The derived `Debug` rendering (`{:?}`) of a list of transactions. */
  type DebugFormatter = seq<Transaction> -> string

  /** The string `calculate_hash` digests: index, previous hash, timestamp,
      the `{:?}` rendering of the transactions and the proof, concatenated. */
  function HashInput(debugFormat: DebugFormatter, b: Block): string {
    NatToDecimal(b.index) + b.previousHash + NatToDecimal(b.timestamp)
      + debugFormat(b.transactions) + NatToDecimal(b.proof)
  }

  /** `calculate_hash`: the hex digest of the block's hash input. */
  function CalculateHash(sha256: Hasher, debugFormat: DebugFormatter, b: Block): string {
    sha256(HashInput(debugFormat, b))
  }

  /** A block's hash never depends on its own hash field (the field is ""
      while `mine_block` computes it). */
  lemma CalculateHashIgnoresHash(sha256: Hasher, debugFormat: DebugFormatter, b: Block, h: string)
    ensures CalculateHash(sha256, debugFormat, b.(hash := h)) == CalculateHash(sha256, debugFormat, b)
  {
  }

  /** The block's stored hash is the digest of its other fields. */
  predicate HashMatches(sha256: Hasher, debugFormat: DebugFormatter, b: Block) {
    b.hash == CalculateHash(sha256, debugFormat, b)
  }

  /** `new_block.hash = block_hash`: fills in the hash of a freshly built
      block, leaving every other field as it was. */
  function SetHash(sha256: Hasher, debugFormat: DebugFormatter, b: Block): (sealed: Block)
    ensures HashMatches(sha256, debugFormat, sealed)
    ensures sealed.(hash := b.hash) == b
  {
    b.(hash := CalculateHash(sha256, debugFormat, b))
  }

  /** `gen_range(1000..9999)` draws from the half-open range. */
  predicate InProofRange(p: int) {
    1000 <= p < 9999
  }

  predicate ProofDraws(draws: seq<int>) {
    forall i :: 0 <= i < |draws| ==> InProofRange(draws[i])
  }

  function Genesis(timestamp: nat): Block {
    Block(0, "0", timestamp, [], GenesisProof, "0")
  }

  /** A mined block is sealed: its hash is the digest of its other fields
      and its proof solves the puzzle seeded by the previous proof. */
  predicate Sealed(sha256: Hasher, debugFormat: DebugFormatter, lastProof: int, b: Block) {
    && HashMatches(sha256, debugFormat, b)
    && ValidProof(sha256, lastProof, b.proof)
    && InProofRange(b.proof)
  }

  /** Block `b` is mined on top of `prefix`: its index is the length of the
      prefix, it links to the last block's hash and it is sealed on top of
      the last block's proof. */
  predicate Extends(sha256: Hasher, debugFormat: DebugFormatter, prefix: seq<Block>, b: Block)
    requires |prefix| >= 1
  {
    && b.index == |prefix|
    && b.previousHash == prefix[|prefix| - 1].hash
    && Sealed(sha256, debugFormat, prefix[|prefix| - 1].proof, b)
  }

  /** The chain invariants, block by block: the genesis block first, then
      every block mined on top of the blocks before it. */
  ghost predicate WellFormedChain(sha256: Hasher, debugFormat: DebugFormatter, chain: seq<Block>)
    decreases |chain|
  {
    if |chain| <= 1 then |chain| == 1 && chain[0] == Genesis(chain[0].timestamp)
    else
      var prefix := chain[..|chain| - 1];
      WellFormedChain(sha256, debugFormat, prefix)
        && Extends(sha256, debugFormat, prefix, chain[|chain| - 1])
  }

  /** The chain invariants at one position of a well-formed chain: the index
      is the position and, past the genesis block, the block links to its
      predecessor's hash, its stored hash is its digest and its proof solves
      the puzzle seeded by its predecessor's proof. */
  lemma {:induction false} ChainInvariantsAt(sha256: Hasher, debugFormat: DebugFormatter,
                                             chain: seq<Block>, i: nat)
    requires WellFormedChain(sha256, debugFormat, chain) && i < |chain|
    ensures chain[i].index == i
    ensures i >= 1 ==>
      && chain[i].previousHash == chain[i - 1].hash
      && HashMatches(sha256, debugFormat, chain[i])
      && ValidProof(sha256, chain[i - 1].proof, chain[i].proof)
      && InProofRange(chain[i].proof)
    decreases |chain|
  {
    var last := |chain| - 1;
    if i < last {
      var prefix := chain[..last];
      ChainInvariantsAt(sha256, debugFormat, prefix, i);
      assert prefix[i] == chain[i];
      if i >= 1 {
        assert prefix[i - 1] == chain[i - 1];
      }
    } else if i >= 1 {
      assert chain[..last][last - 1] == chain[i - 1];
    }
  }

  /** Appending a block mined on top of the chain keeps it well-formed. */
  lemma WellFormedExtend(sha256: Hasher, debugFormat: DebugFormatter, chain: seq<Block>, b: Block)
    requires WellFormedChain(sha256, debugFormat, chain)
    requires |chain| >= 1 && Extends(sha256, debugFormat, chain, b)
    ensures WellFormedChain(sha256, debugFormat, chain + [b])
  {
    assert (chain + [b])[..|chain|] == chain;
  }

  /** `*self.balances.get(address).unwrap_or(&0)`. */
  function Balance(m: map<string, nat>, account: string): (b: nat)
    ensures account !in m ==> b == 0
    ensures account in m ==> b == m[account]
  {
    if account in m then m[account] else 0
  }

  /** The check `add_transaction` makes before changing anything. */
  predicate Admits(m: map<string, nat>, sender: string, amount: nat) {
    !(Balance(m, sender) < amount && sender != Accounts.Network)
  }

  /** The message of the `Err` returned on insufficient funds. */
  function InsufficientBalance(sender: string, balance: nat, amount: nat): string {
    "Insufficient balance. Sender " + sender + " has " + NatToDecimal(balance)
      + " but tried to send " + NatToDecimal(amount)
  }

  /** The amount a transfer takes from account `a`. */
  function Debit(a: string, sender: string, amount: nat): nat {
    if a == sender && sender != Accounts.Network then amount else 0
  }

  /** The amount a transfer gives to account `a`. */
  function Credit(a: string, receiver: string, amount: nat): nat {
    if a == receiver then amount else 0
  }

  /** The balance updates of `add_transaction` on an admitted transfer: the
      `entry(..).or_insert(0) -= amount` on the sender unless it is
      "network" (which cannot underflow, by the check), then the
      `+= amount` on the receiver. */
  function Transfer(m: map<string, nat>, sender: string, receiver: string, amount: nat): (m': map<string, nat>)
    requires Admits(m, sender, amount)
    ensures forall a ::
      Balance(m', a) as int == Balance(m, a) - Debit(a, sender, amount) + Credit(a, receiver, amount)
    ensures m'.Keys == m.Keys + {receiver} + (if sender != Accounts.Network then {sender} else {})
  {
    var debited := if sender != Accounts.Network then m[sender := Balance(m, sender) - amount] else m;
    debited[receiver := Balance(debited, receiver) + amount]
  }

  /** An ordinary transfer moves coins without creating or destroying any;
      an issuance from "network" adds exactly the amount to circulation. */
  lemma TransferTotal(m: map<string, nat>, sender: string, receiver: string, amount: nat)
    requires Admits(m, sender, amount)
    ensures Accounts.Total(Transfer(m, sender, receiver, amount)) ==
      Accounts.Total(m) + (if sender == Accounts.Network then amount else 0)
  {
    var debited := if sender != Accounts.Network then m[sender := Balance(m, sender) - amount] else m;
    if sender != Accounts.Network {
      Accounts.TotalUpdate(m, sender, Balance(m, sender) - amount);
    }
    Accounts.TotalUpdate(debited, receiver, Balance(debited, receiver) + amount);
  }

  /** One step of a replay: the transfer applied when the funds check admits
      it, None when it refuses it or an earlier step was refused. */
  function Step(before: Option<map<string, nat>>, t: Transaction): Option<map<string, nat>> {
    match before
    case None => None
    case Some(m) =>
      if Admits(m, t.sender, t.amount) then Some(Transfer(m, t.sender, t.receiver, t.amount)) else None
  }

  /** The balance table obtained by applying `txs` in order to `m`, or None
      when the funds check would have refused one of them. */
  function Replay(m: map<string, nat>, txs: seq<Transaction>): Option<map<string, nat>>
    decreases |txs|
  {
    if txs == [] then Some(m) else Step(Replay(m, txs[..|txs| - 1]), txs[|txs| - 1])
  }

  /** Replaying `a + b` is replaying `b` on the table `a` leaves. */
  lemma {:induction false} ReplayConcat(m: map<string, nat>, a: seq<Transaction>, b: seq<Transaction>)
    ensures Replay(m, a + b) == if Replay(m, a).None? then None else Replay(Replay(m, a).value, b)
    decreases |b|
  {
    if b == [] {
      assert a + b == a;
    } else {
      var init := b[..|b| - 1];
      ReplayConcat(m, a, init);
      assert (a + b)[..|a + b| - 1] == a + init;
      assert (a + b)[|a + b| - 1] == b[|b| - 1];
    }
  }

  /** The coins issued by "network" in `txs`. */
  function Issued(txs: seq<Transaction>): nat
    decreases |txs|
  {
    if txs == [] then 0
    else
      var t := txs[|txs| - 1];
      Issued(txs[..|txs| - 1]) + (if t.sender == Accounts.Network then t.amount else 0)
  }

  /** Replaying an accepted history adds exactly the coins it issues to
      circulation. */
  lemma {:induction false} ReplayTotal(m: map<string, nat>, txs: seq<Transaction>, m': map<string, nat>)
    requires Replay(m, txs) == Some(m')
    ensures Accounts.Total(m') == Accounts.Total(m) + Issued(txs)
    decreases |txs|
  {
    if txs != [] {
      var t := txs[|txs| - 1];
      var before := Replay(m, txs[..|txs| - 1]).value;
      assert Replay(m, txs) == Step(Some(before), t);
      ReplayTotal(m, txs[..|txs| - 1], before);
      TransferTotal(before, t.sender, t.receiver, t.amount);
    }
  }

  /** Every transaction sealed into the chain, block by block, in order. */
  function Recorded(chain: seq<Block>): seq<Transaction>
    decreases |chain|
  {
    if chain == [] then []
    else Recorded(chain[..|chain| - 1]) + chain[|chain| - 1].transactions
  }

  /** Sealing the pending list into a block on top of the chain and clearing
      it keeps both halves of the ledger invariant. */
  lemma MinedStateValid(sha256: Hasher, debugFormat: DebugFormatter, chain: seq<Block>,
                        pending: seq<Transaction>, balances: map<string, nat>, b: Block)
    requires WellFormedChain(sha256, debugFormat, chain)
    requires Replay(map[], Recorded(chain) + pending) == Some(balances)
    requires |chain| >= 1 && Extends(sha256, debugFormat, chain, b)
    requires b.transactions == pending
    ensures WellFormedChain(sha256, debugFormat, chain + [b])
    ensures Replay(map[], Recorded(chain + [b]) + []) == Some(balances)
  {
    WellFormedExtend(sha256, debugFormat, chain, b);
    assert (chain + [b])[..|chain|] == chain;
    assert Recorded(chain + [b]) + [] == Recorded(chain) + pending;
  }

  class Blockchain {
    /** The digest function standing for `Sha256::digest` rendered `{:x}`. */
    const sha256: Hasher
    /** The `{:?}` rendering of a transaction list. */
    const debugFormat: DebugFormatter
    var chain: seq<Block>
    var currentTransactions: seq<Transaction>
    var balances: map<string, nat>

    /** The chain is well-formed, and the balance table is exactly what the
        recorded history (sealed blocks, then pending) produces from empty,
        every transaction in it having passed the funds check. */
    ghost predicate Valid()
      reads this
    {
      && WellFormedChain(sha256, debugFormat, chain)
      && Replay(map[], Recorded(chain) + currentTransactions) == Some(balances)
    }

    /** `Blockchain::new`: a genesis block stamped with `timestamp`, nothing
        pending, no balances. */
    constructor (sha256: Hasher, debugFormat: DebugFormatter, timestamp: nat)
      ensures Valid() && this.sha256 == sha256 && this.debugFormat == debugFormat
      ensures chain == [Genesis(timestamp)]
      ensures currentTransactions == [] && balances == map[]
    {
      this.sha256 := sha256;
      this.debugFormat := debugFormat;
      chain := [];
      currentTransactions := [];
      balances := map[];
      new;
      CreateGenesisBlock(timestamp);
    }

    method CreateGenesisBlock(timestamp: nat)
      modifies this`chain
      ensures chain == old(chain) + [Genesis(timestamp)]
    {
      chain := chain + [Genesis(timestamp)];
    }

    /** `get_balance`: reads the table; 0 for an account never seen. */
    function GetBalance(address: string): (b: nat)
      reads this
      ensures address !in balances ==> b == 0
      ensures address in balances ==> b == balances[address]
    {
      Balance(balances, address)
    }

    /** `add_transaction`: returns `Err` and changes nothing when an ordinary
        sender lacks the funds; otherwise applies the transfer, appends the
        transaction to the pending list and returns `Ok`. The chain is never
        touched. */
    method AddTransaction(sender: string, receiver: string, amount: nat) returns (r: Outcome<string>)
      requires Valid()
      modifies this
      ensures Valid()
      ensures r == if Admits(old(balances), sender, amount) then Pass
                   else Fail(InsufficientBalance(sender, Balance(old(balances), sender), amount))
      ensures r.Pass? ==>
        Admits(old(balances), sender, amount) && balances == Transfer(old(balances), sender, receiver, amount)
      ensures r.Pass? ==>
        currentTransactions == old(currentTransactions) + [Transaction(sender, receiver, amount)]
      ensures r.Fail? ==> balances == old(balances) && currentTransactions == old(currentTransactions)
      ensures chain == old(chain)
    {
      var senderBalance := GetBalance(sender);
      if senderBalance < amount && sender != Accounts.Network {
        return Fail(InsufficientBalance(sender, senderBalance, amount));
      }
      var transaction := Transaction(sender, receiver, amount);
      ghost var history := Recorded(chain) + currentTransactions;
      balances := Transfer(balances, sender, receiver, amount);
      currentTransactions := currentTransactions + [transaction];
      assert Recorded(chain) + currentTransactions == history + [transaction];
      ReplayConcat(map[], history, [transaction]);
      assert Replay(old(balances), [transaction]) == Some(balances) by {
        assert [transaction][..0] == [];
      }
      r := Pass;
    }

    /** `proof_of_work`: walks the stream of random draws until one solves the
        puzzle seeded by `lastProof`, and returns the first such draw. */
    method ProofOfWork(lastProof: nat, draws: seq<int>) returns (proof: nat)
      requires ProofDraws(draws) && SearchSucceeds(sha256, lastProof, draws)
      ensures ValidProof(sha256, lastProof, proof) && InProofRange(proof)
      ensures proof == FoundProof(sha256, lastProof, draws)
    {
      var i := 0;
      proof := draws[i];
      while !ValidProof(sha256, lastProof, proof)
        invariant 0 <= i < |draws| && proof == draws[i]
        invariant FirstValidFrom(sha256, lastProof, draws, i) == FirstValidIndex(sha256, lastProof, draws)
        decreases |draws| - i
      {
        i := i + 1;
        proof := draws[i];
      }
    }

    /** `mine_block`: issues the reward to the miner (the `expect` never
        fires: "network" is never refused), finds a proof seeded by the last
        block's, seals the pending list into a block linked to the last
        block, appends it and clears the pending list. */
    method MineBlock(minerAddress: string, timestamp: nat, draws: seq<int>) returns (block: Block)
      requires Valid()
      requires ProofDraws(draws) && SearchSucceeds(sha256, chain[|chain| - 1].proof, draws)
      modifies this
      ensures Valid()
      ensures chain == old(chain) + [block]
      ensures block.index == |old(chain)|
      ensures block.previousHash == old(chain)[|old(chain)| - 1].hash
      ensures block.timestamp == timestamp
      ensures block.transactions ==
        old(currentTransactions) + [Transaction(Accounts.Network, minerAddress, MiningReward)]
      ensures block.proof == FoundProof(sha256, old(chain)[|old(chain)| - 1].proof, draws)
      ensures Sealed(sha256, debugFormat, old(chain)[|old(chain)| - 1].proof, block)
      ensures currentTransactions == []
      ensures balances == Transfer(old(balances), Accounts.Network, minerAddress, MiningReward)
    {
      // `add_transaction` leaves the chain alone, so the last block is the
      // same whether it is read before or after the reward.
      var lastBlock := chain[|chain| - 1];
      var reward := AddTransaction(Accounts.Network, minerAddress, MiningReward);
      assert reward.Pass?;
      var proof := ProofOfWork(lastBlock.proof, draws);
      var newBlock := Block(|chain|, lastBlock.hash, timestamp, currentTransactions, proof, "");
      block := SetHash(sha256, debugFormat, newBlock);
      AppendBlock(block);
    }

    /** The `push` and `clear` of `mine_block`: append the sealed block and
        empty the pending list. */
    method AppendBlock(block: Block)
      requires Valid() && Extends(sha256, debugFormat, chain, block)
      requires block.transactions == currentTransactions
      modifies this
      ensures Valid()
      ensures chain == old(chain) + [block]
      ensures currentTransactions == [] && balances == old(balances)
    {
      MinedStateValid(sha256, debugFormat, chain, currentTransactions, balances, block);
      chain := chain + [block];
      currentTransactions := [];
    }

    /** Coins in circulation are exactly the coins "network" has issued in
        the recorded history. */
    lemma CirculationIsIssued()
      requires Valid()
      ensures Accounts.Total(balances) == Issued(Recorded(chain) + currentTransactions)
    {
      ReplayTotal(map[], Recorded(chain) + currentTransactions, balances);
    }
  }
}

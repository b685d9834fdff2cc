/** The Python ledger engine: `Transaction`, `Block` and `Blockchain`, with
    integer amounts and balances. The digest function and the random proof
    draws are parameters; the clock is a timestamp parameter. */
module PyLedger {
  import opened Wrappers
  import opened Decimal
  import opened Accounts
  import opened Mining

  /** The reward `mine_block` issues to the miner. */
  const MiningReward: int := 10

  /** The fixed proof of the genesis block. */
  const GenesisProof: int := 100

  datatype Transaction = Transaction(sender: string, receiver: string, amount: int)

  /** `Transaction.__repr__`: "sender -> receiver : amount coins". */
  function TransactionRepr(t: Transaction): string {
    t.sender + " -> " + t.receiver + " : " + IntToDecimal(t.amount) + " coins"
  }

  function JoinReprs(ts: seq<Transaction>): string
    decreases |ts|
  {
    if ts == [] then ""
    else if |ts| == 1 then TransactionRepr(ts[0])
    else JoinReprs(ts[..|ts| - 1]) + ", " + TransactionRepr(ts[|ts| - 1])
  }

  /** `str(list)`: the elements' reprs between brackets, separated by ", ". */
  function TransactionsRepr(ts: seq<Transaction>): string {
    "[" + JoinReprs(ts) + "]"
  }

  /** Appending a transaction to a non-empty list inserts ", " and its repr
      before the closing bracket of the list's rendering. */
  lemma TransactionsReprAppend(ts: seq<Transaction>, t: Transaction)
    requires ts != []
    ensures var before := TransactionsRepr(ts);
      |before| >= 2 && before[0] == '[' && before[|before| - 1] == ']' &&
      TransactionsRepr(ts + [t]) == before[..|before| - 1] + ", " + TransactionRepr(t) + "]"
  {
    var j := JoinReprs(ts);
    assert (ts + [t])[..|ts|] == ts && (ts + [t])[|ts|] == t;
    assert JoinReprs(ts + [t]) == j + ", " + TransactionRepr(t);
    assert ("[" + j + "]")[..|j| + 1] == "[" + j;
  }

  /** The list `mine_block` seals when nothing else is pending: the reward
      alone, rendered "[network -> <miner> : 10 coins]". */
  lemma RewardOnlyRepr(miner: string)
    ensures TransactionsRepr([Transaction(Network, miner, MiningReward)]) ==
      "[network -> " + miner + " : 10 coins]"
  {
    var t := Transaction(Network, miner, MiningReward);
    assert IntToDecimal(10) == "10" by {
      assert NatToDecimal(10) == NatToDecimal(1) + [DigitChar(0)];
    }
    assert JoinReprs([t]) == TransactionRepr(t);
    assert TransactionRepr(t) == "network -> " + miner + " : 10 coins";
  }

  datatype Block = Block(
    index: nat,
    previousHash: string,
    timestamp: nat,
    transactions: seq<Transaction>,
    proof: int,
    hash: string)

  /** The string `calculate_hash` digests: the block's index, previous hash,
      timestamp, transaction list and proof, concatenated. */
  function HashInput(b: Block): string {
    NatToDecimal(b.index) + b.previousHash + NatToDecimal(b.timestamp)
      + TransactionsRepr(b.transactions) + IntToDecimal(b.proof)
  }

  /** `calculate_hash`: the hex digest of the block's hash input. */
  function CalculateHash(sha256: Hasher, b: Block): string {
    sha256(HashInput(b))
  }

  /** A block's hash never depends on its own hash field (the field is ""
      while `mine_block` computes it). */
  lemma CalculateHashIgnoresHash(sha256: Hasher, b: Block, h: string)
    ensures CalculateHash(sha256, b.(hash := h)) == CalculateHash(sha256, b)
  {
  }

  /** The block's stored hash is the digest of its other fields. */
  predicate HashMatches(sha256: Hasher, b: Block) {
    b.hash == CalculateHash(sha256, b)
  }

  /** `new_block.hash = self.calculate_hash(new_block)`: fills in the hash of
      a freshly built block, leaving every other field as it was. */
  function SetHash(sha256: Hasher, b: Block): (sealed: Block)
    ensures HashMatches(sha256, sealed)
    ensures sealed.(hash := b.hash) == b
  {
    b.(hash := CalculateHash(sha256, b))
  }

  /** `random.randint(1000, 9999)` draws from the closed range. */
  predicate InProofRange(p: int) {
    1000 <= p <= 9999
  }

  predicate ProofDraws(draws: seq<int>) {
    forall i :: 0 <= i < |draws| ==> InProofRange(draws[i])
  }

  function Genesis(timestamp: nat): Block {
    Block(0, "0", timestamp, [], GenesisProof, "0")
  }

  /** A mined block is sealed: its hash is the digest of its other fields
      and its proof solves the puzzle seeded by the previous proof. */
  predicate Sealed(sha256: Hasher, lastProof: int, b: Block) {
    && HashMatches(sha256, b)
    && ValidProof(sha256, lastProof, b.proof)
    && InProofRange(b.proof)
  }

  /** Block `b` is mined on top of `prefix`: its index is the length of the
      prefix, it links to the last block's hash and it is sealed on top of
      the last block's proof. */
  predicate Extends(sha256: Hasher, prefix: seq<Block>, b: Block)
    requires |prefix| >= 1
  {
    && b.index == |prefix|
    && b.previousHash == prefix[|prefix| - 1].hash
    && Sealed(sha256, prefix[|prefix| - 1].proof, b)
  }

  /** The chain invariants, block by block: the genesis block first, then
      every block mined on top of the blocks before it. */
  ghost predicate WellFormedChain(sha256: Hasher, chain: seq<Block>)
    decreases |chain|
  {
    if |chain| <= 1 then |chain| == 1 && chain[0] == Genesis(chain[0].timestamp)
    else
      var prefix := chain[..|chain| - 1];
      WellFormedChain(sha256, prefix) && Extends(sha256, prefix, chain[|chain| - 1])
  }

  /** The positional form of the chain invariant: the genesis block first,
      and every later block mined on top of the blocks before it (so its
      index is its position, it links to its predecessor's hash and it is
      sealed on its predecessor's proof). */
  ghost predicate ValidAtEveryPosition(sha256: Hasher, chain: seq<Block>) {
    && |chain| >= 1
    && chain[0] == Genesis(chain[0].timestamp)
    && (forall i :: 1 <= i < |chain| ==> Extends(sha256, chain[..i], chain[i]))
  }

  lemma {:induction false} WellFormedIsPositional(sha256: Hasher, chain: seq<Block>)
    requires WellFormedChain(sha256, chain)
    ensures ValidAtEveryPosition(sha256, chain)
    decreases |chain|
  {
    if |chain| > 1 {
      var prefix := chain[..|chain| - 1];
      WellFormedIsPositional(sha256, prefix);
      assert prefix[0] == chain[0];
      forall i | 1 <= i < |chain|
        ensures Extends(sha256, chain[..i], chain[i])
      {
        if i < |prefix| {
          assert prefix[..i] == chain[..i] && prefix[i] == chain[i];
        } else {
          assert chain[..i] == prefix;
        }
      }
    }
  }

  lemma {:induction false} PositionalIsWellFormed(sha256: Hasher, chain: seq<Block>)
    requires ValidAtEveryPosition(sha256, chain)
    ensures WellFormedChain(sha256, chain)
    decreases |chain|
  {
    if |chain| > 1 {
      var prefix := chain[..|chain| - 1];
      assert prefix[0] == chain[0];
      forall i | 1 <= i < |prefix|
        ensures Extends(sha256, prefix[..i], prefix[i])
      {
        assert prefix[..i] == chain[..i] && prefix[i] == chain[i];
      }
      PositionalIsWellFormed(sha256, prefix);
      assert Extends(sha256, chain[..|prefix|], chain[|prefix|]);
    }
  }

  /** The block-by-block invariant holds exactly when its positional form
      does. */
  lemma WellFormedChainIff(sha256: Hasher, chain: seq<Block>)
    ensures WellFormedChain(sha256, chain) <==> ValidAtEveryPosition(sha256, chain)
  {
    if WellFormedChain(sha256, chain) {
      WellFormedIsPositional(sha256, chain);
    }
    if ValidAtEveryPosition(sha256, chain) {
      PositionalIsWellFormed(sha256, chain);
    }
  }

  /** The chain invariants at one position of a well-formed chain: the index
      is the position and, past the genesis block, the block links to its
      predecessor's hash, its stored hash is its digest and its proof solves
      the puzzle seeded by its predecessor's proof. */
  lemma ChainInvariantsAt(sha256: Hasher, chain: seq<Block>, i: nat)
    requires WellFormedChain(sha256, chain) && i < |chain|
    ensures chain[i].index == i
    ensures i >= 1 ==>
      && chain[i].previousHash == chain[i - 1].hash
      && HashMatches(sha256, chain[i])
      && ValidProof(sha256, chain[i - 1].proof, chain[i].proof)
      && InProofRange(chain[i].proof)
  {
    WellFormedIsPositional(sha256, chain);
    if i > 0 {
      assert Extends(sha256, chain[..i], chain[i]);
      assert chain[..i][i - 1] == chain[i - 1];
    }
  }

  /** Every prefix of a well-formed chain is well-formed: mining never has to
      touch an earlier block to keep the invariants. */
  lemma {:induction false} WellFormedPrefix(sha256: Hasher, chain: seq<Block>, k: nat)
    requires WellFormedChain(sha256, chain)
    requires 1 <= k <= |chain|
    ensures WellFormedChain(sha256, chain[..k])
    decreases |chain|
  {
    if k < |chain| {
      var prefix := chain[..|chain| - 1];
      WellFormedPrefix(sha256, prefix, k);
      assert prefix[..k] == chain[..k];
    } else {
      assert chain[..k] == chain;
    }
  }

  /** Appending a block mined on top of the chain keeps it well-formed. */
  lemma WellFormedExtend(sha256: Hasher, chain: seq<Block>, b: Block)
    requires WellFormedChain(sha256, chain)
    requires |chain| >= 1 && Extends(sha256, chain, b)
    ensures WellFormedChain(sha256, chain + [b])
  {
    assert (chain + [b])[..|chain|] == chain;
  }

  /** The check `add_transaction` makes before changing anything. */
  predicate Admits(m: map<string, int>, sender: string, amount: int) {
    !(Balance(m, sender) < amount && sender != Network)
  }

  /** The message of the `ValueError` raised on insufficient funds. */
  function InsufficientBalance(sender: string, balance: int, amount: int): string {
    "Insufficient balance. " + sender + " has " + IntToDecimal(balance)
      + " but tried to send " + IntToDecimal(amount)
  }

  /** The amount a transfer takes from account `a`. */
  function Debit(a: string, sender: string, amount: int): int {
    if a == sender && sender != Network then amount else 0
  }

  /** The amount a transfer gives to account `a`. */
  function Credit(a: string, receiver: string, amount: int): int {
    if a == receiver then amount else 0
  }

  /** The balance updates of `add_transaction`: debit the sender unless it is
      "network", then credit the receiver (in that order, so a transfer to
      oneself leaves the balance as it was). */
  function Transfer(m: map<string, int>, sender: string, receiver: string, amount: int): (m': map<string, int>)
    ensures forall a ::
      Balance(m', a) == Balance(m, a) - Debit(a, sender, amount) + Credit(a, receiver, amount)
    ensures m'.Keys == m.Keys + {receiver} + (if sender != Network then {sender} else {})
    ensures sender != Network && sender != receiver && Admits(m, sender, amount) ==>
      Balance(m', sender) >= 0
  {
    var debited := if sender != Network then m[sender := Balance(m, sender) - amount] else m;
    debited[receiver := Balance(debited, receiver) + amount]
  }

  /** An ordinary transfer moves coins without creating or destroying any;
      an issuance from "network" adds exactly the amount to circulation. */
  lemma TransferTotal(m: map<string, int>, sender: string, receiver: string, amount: int)
    ensures Total(Transfer(m, sender, receiver, amount)) ==
      Total(m) + (if sender == Network then amount else 0)
  {
    var debited := if sender != Network then m[sender := Balance(m, sender) - amount] else m;
    if sender != Network {
      TotalUpdate(m, sender, Balance(m, sender) - amount);
    }
    TotalUpdate(debited, receiver, Balance(debited, receiver) + amount);
  }

  /** `add_transaction` never checks the sign of the amount: a negative
      amount from a solvent sender passes the funds check and moves coins
      from the receiver to the sender. */
  lemma NegativeAmountReverses(m: map<string, int>, sender: string, receiver: string, amount: int)
    requires sender != Network && sender != receiver && amount < 0 && Balance(m, sender) >= 0
    ensures Admits(m, sender, amount)
    ensures Balance(Transfer(m, sender, receiver, amount), receiver) < Balance(m, receiver)
    ensures Balance(Transfer(m, sender, receiver, amount), sender) > Balance(m, sender)
  {
  }

  /** One step of a replay: the transfer applied when the funds check admits
      it, None when it refuses it or an earlier step was refused. */
  function Step(before: Option<map<string, int>>, t: Transaction): Option<map<string, int>> {
    match before
    case None => None
    case Some(m) =>
      if Admits(m, t.sender, t.amount) then Some(Transfer(m, t.sender, t.receiver, t.amount)) else None
  }

  /** The balance table obtained by applying `txs` in order to `m`, or None
      when the funds check would have refused one of them. */
  function Replay(m: map<string, int>, txs: seq<Transaction>): Option<map<string, int>>
    decreases |txs|
  {
    if txs == [] then Some(m) else Step(Replay(m, txs[..|txs| - 1]), txs[|txs| - 1])
  }

  /** Replaying `a + b` is replaying `b` on the table `a` leaves. */
  lemma {:induction false} ReplayConcat(m: map<string, int>, a: seq<Transaction>, b: seq<Transaction>)
    ensures Replay(m, a + b) == if Replay(m, a).None? then None else Replay(Replay(m, a).value, b)
    decreases |b|
  {
    if b == [] {
      assert a + b == a;
    } else {
      var init := b[..|b| - 1];
      ReplayConcat(m, a, init);
      assert (a + b)[..|a + b| - 1] == a + init;
      assert (a + b)[|a + b| - 1] == b[|b| - 1];
    }
  }

  /** The coins issued by "network" in `txs`. */
  function Issued(txs: seq<Transaction>): int
    decreases |txs|
  {
    if txs == [] then 0
    else
      var t := txs[|txs| - 1];
      Issued(txs[..|txs| - 1]) + (if t.sender == Network then t.amount else 0)
  }

  /** Replaying an accepted history adds exactly the coins it issues to
      circulation. */
  lemma {:induction false} ReplayTotal(m: map<string, int>, txs: seq<Transaction>, m': map<string, int>)
    requires Replay(m, txs) == Some(m')
    ensures Total(m') == Total(m) + Issued(txs)
    decreases |txs|
  {
    if txs != [] {
      var t := txs[|txs| - 1];
      var before := Replay(m, txs[..|txs| - 1]).value;
      assert Replay(m, txs) == Step(Some(before), t);
      ReplayTotal(m, txs[..|txs| - 1], before);
      TransferTotal(before, t.sender, t.receiver, t.amount);
    }
  }

  /** Every transaction sealed into the chain, block by block, in order. */
  function Recorded(chain: seq<Block>): seq<Transaction>
    decreases |chain|
  {
    if chain == [] then []
    else Recorded(chain[..|chain| - 1]) + chain[|chain| - 1].transactions
  }

  lemma RecordedAppend(chain: seq<Block>, b: Block)
    ensures Recorded(chain + [b]) == Recorded(chain) + b.transactions
  {
    assert (chain + [b])[..|chain|] == chain;
  }

  /** Sealing the pending list into a block on top of the chain and clearing
      it keeps both halves of the ledger invariant. */
  lemma MinedStateValid(sha256: Hasher, chain: seq<Block>, pending: seq<Transaction>,
                        balances: map<string, int>, b: Block)
    requires WellFormedChain(sha256, chain)
    requires Replay(map[], Recorded(chain) + pending) == Some(balances)
    requires |chain| >= 1 && Extends(sha256, chain, b)
    requires b.transactions == pending
    ensures WellFormedChain(sha256, chain + [b])
    ensures Replay(map[], Recorded(chain + [b]) + []) == Some(balances)
  {
    WellFormedExtend(sha256, chain, b);
    RecordedAppend(chain, b);
    assert Recorded(chain + [b]) + [] == Recorded(chain) + pending;
  }

  class Blockchain {
    /** The digest function standing for `hashlib.sha256(...).hexdigest()`. */
    const sha256: Hasher
    var chain: seq<Block>
    var currentTransactions: seq<Transaction>
    var balances: map<string, int>

    /** The chain is well-formed, and the balance table is exactly what the
        recorded history (sealed blocks, then pending) produces from empty,
        every transaction in it having passed the funds check. */
    ghost predicate Valid()
      reads this
    {
      && WellFormedChain(sha256, chain)
      && Replay(map[], Recorded(chain) + currentTransactions) == Some(balances)
    }

    /** `Blockchain()`: a genesis block stamped with `timestamp`, nothing
        pending, no balances. */
    constructor (sha256: Hasher, timestamp: nat)
      ensures Valid() && this.sha256 == sha256
      ensures chain == [Genesis(timestamp)]
      ensures currentTransactions == [] && balances == map[]
    {
      this.sha256 := sha256;
      chain := [];
      currentTransactions := [];
      balances := map[];
      new;
      CreateGenesisBlock(timestamp);
    }

    method CreateGenesisBlock(timestamp: nat)
      modifies this`chain
      ensures chain == old(chain) + [Genesis(timestamp)]
    {
      chain := chain + [Genesis(timestamp)];
    }

    /** `get_balance`: reads the table; 0 for an account never seen. */
    function GetBalance(address: string): (b: int)
      reads this
      ensures address !in balances ==> b == 0
      ensures address in balances ==> b == balances[address]
    {
      Balance(balances, address)
    }

    /** `add_transaction`: rejects an ordinary sender without the funds and
        changes nothing; otherwise applies the transfer and appends the
        transaction to the pending list. The chain is never touched. */
    method AddTransaction(sender: string, receiver: string, amount: int) returns (r: Outcome<string>)
      requires Valid()
      modifies this
      ensures Valid()
      ensures r == if Admits(old(balances), sender, amount) then Pass
                   else Fail(InsufficientBalance(sender, Balance(old(balances), sender), amount))
      ensures r.Pass? ==> balances == Transfer(old(balances), sender, receiver, amount)
      ensures r.Pass? ==>
        currentTransactions == old(currentTransactions) + [Transaction(sender, receiver, amount)]
      ensures r.Fail? ==> balances == old(balances) && currentTransactions == old(currentTransactions)
      ensures chain == old(chain)
    {
      var senderBalance := GetBalance(sender);
      if senderBalance < amount && sender != Network {
        return Fail(InsufficientBalance(sender, senderBalance, amount));
      }
      var transaction := Transaction(sender, receiver, amount);
      ghost var history := Recorded(chain) + currentTransactions;
      balances := Transfer(balances, sender, receiver, amount);
      currentTransactions := currentTransactions + [transaction];
      assert Recorded(chain) + currentTransactions == history + [transaction];
      ReplayConcat(map[], history, [transaction]);
      assert Replay(old(balances), [transaction]) == Some(balances) by {
        assert [transaction][..0] == [];
      }
      r := Pass;
    }

    /** `proof_of_work`: walks the stream of random draws until one solves the
        puzzle seeded by `lastProof`, and returns the first such draw. */
    method ProofOfWork(lastProof: int, draws: seq<int>) returns (proof: int)
      requires ProofDraws(draws) && SearchSucceeds(sha256, lastProof, draws)
      ensures ValidProof(sha256, lastProof, proof) && InProofRange(proof)
      ensures proof == FoundProof(sha256, lastProof, draws)
    {
      var i := 0;
      proof := draws[i];
      while !ValidProof(sha256, lastProof, proof)
        invariant 0 <= i < |draws| && proof == draws[i]
        invariant FirstValidFrom(sha256, lastProof, draws, i) == FirstValidIndex(sha256, lastProof, draws)
        decreases |draws| - i
      {
        i := i + 1;
        proof := draws[i];
      }
    }

    /** `mine_block`: issues the reward to the miner, finds a proof seeded by
        the last block's, seals the pending list into a block linked to the
        last block, appends it and empties the pending list. */
    method MineBlock(minerAddress: string, timestamp: nat, draws: seq<int>) returns (block: Block)
      requires Valid()
      requires ProofDraws(draws) && SearchSucceeds(sha256, chain[|chain| - 1].proof, draws)
      modifies this
      ensures Valid()
      ensures chain == old(chain) + [block]
      ensures block.index == |old(chain)|
      ensures block.previousHash == old(chain)[|old(chain)| - 1].hash
      ensures block.timestamp == timestamp
      ensures block.transactions ==
        old(currentTransactions) + [Transaction(Network, minerAddress, MiningReward)]
      ensures block.proof == FoundProof(sha256, old(chain)[|old(chain)| - 1].proof, draws)
      ensures Sealed(sha256, old(chain)[|old(chain)| - 1].proof, block)
      ensures currentTransactions == []
      ensures balances == Transfer(old(balances), Network, minerAddress, MiningReward)
    {
      var lastBlock := chain[|chain| - 1];
      var _ := AddTransaction(Network, minerAddress, MiningReward);
      var proof := ProofOfWork(lastBlock.proof, draws);
      var newBlock := Block(|chain|, lastBlock.hash, timestamp, currentTransactions, proof, "");
      block := SetHash(sha256, newBlock);
      AppendBlock(block);
    }

    /** The last two statements of `mine_block`: append the sealed block and
        start an empty pending list. */
    method AppendBlock(block: Block)
      requires Valid() && Extends(sha256, chain, block)
      requires block.transactions == currentTransactions
      modifies this
      ensures Valid()
      ensures chain == old(chain) + [block]
      ensures currentTransactions == [] && balances == old(balances)
    {
      MinedStateValid(sha256, chain, currentTransactions, balances, block);
      chain := chain + [block];
      currentTransactions := [];
    }

    /** Coins in circulation are exactly the coins "network" has issued in
        the recorded history. */
    lemma CirculationIsIssued()
      requires Valid()
      ensures Total(balances) == Issued(Recorded(chain) + currentTransactions)
    {
      ReplayTotal(map[], Recorded(chain) + currentTransactions, balances);
    }
  }
}

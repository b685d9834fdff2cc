/** The proof-of-work puzzle shared by both ledgers. The SHA-256 hex digest
    is a parameter (a `Hasher`), so every fact here holds for any digest
    function; the random number generator is a parameter too: the stream of
    candidate proofs it would produce (`draws`). */
module Mining {
  import opened Wrappers
  import opened Decimal

  /** A string-to-hex-digest function standing for SHA-256 over the UTF-8
      bytes of its argument. */
  type Hasher = string -> string

  /** The difficulty target: the digest's first two characters are "00".
      (Python's `h[:2] == "00"` is false on a shorter string, as here.) */
  predicate HasDifficultyPrefix(digest: string) {
    |digest| >= 2 && digest[0] == '0' && digest[1] == '0'
  }

  /** The string the puzzle hashes: both proofs in decimal, no separator. */
  function ProofGuess(lastProof: int, proof: int): string {
    IntToDecimal(lastProof) + IntToDecimal(proof)
  }

  /** `valid_proof`: the digest of the concatenated decimals meets the target. */
  predicate ValidProof(sha256: Hasher, lastProof: int, proof: int) {
    HasDifficultyPrefix(sha256(ProofGuess(lastProof, proof)))
  }

  /** Where the search stops on a stream of draws, looking from position
      `from` on: the position of the first draw that solves the puzzle, or
      None when no draw does (the source would then keep drawing forever). */
  function FirstValidFrom(sha256: Hasher, lastProof: int, draws: seq<int>, from: nat): (r: Option<nat>)
    requires from <= |draws|
    ensures r.Some? ==>
      && from <= r.value < |draws|
      && ValidProof(sha256, lastProof, draws[r.value])
      && forall j :: from <= j < r.value ==> !ValidProof(sha256, lastProof, draws[j])
    ensures r.None? ==> forall j :: from <= j < |draws| ==> !ValidProof(sha256, lastProof, draws[j])
    decreases |draws| - from
  {
    if from == |draws| then None
    else if ValidProof(sha256, lastProof, draws[from]) then Some(from)
    else FirstValidFrom(sha256, lastProof, draws, from + 1)
  }

  /** The position of the first solving draw of the whole stream. */
  function FirstValidIndex(sha256: Hasher, lastProof: int, draws: seq<int>): Option<nat> {
    FirstValidFrom(sha256, lastProof, draws, 0)
  }

  /** The search terminates on this stream of draws: some draw solves the
      puzzle. */
  predicate SearchSucceeds(sha256: Hasher, lastProof: int, draws: seq<int>) {
    exists k :: 0 <= k < |draws| && ValidProof(sha256, lastProof, draws[k])
  }

  /** The proof the search returns on a stream it succeeds on. */
  function FoundProof(sha256: Hasher, lastProof: int, draws: seq<int>): int
    requires SearchSucceeds(sha256, lastProof, draws)
  {
    draws[FirstValidIndex(sha256, lastProof, draws).value]
  }

  /** The search returns the first draw of the stream that solves the puzzle. */
  lemma FoundProofIsFirstSolution(sha256: Hasher, lastProof: int, draws: seq<int>, i: nat)
    requires i < |draws| && ValidProof(sha256, lastProof, draws[i])
    requires forall j :: 0 <= j < i ==> !ValidProof(sha256, lastProof, draws[j])
    ensures SearchSucceeds(sha256, lastProof, draws)
    ensures FoundProof(sha256, lastProof, draws) == draws[i]
  {
    var r := FirstValidIndex(sha256, lastProof, draws);
    assert r.Some? && r.value == i;
  }
}

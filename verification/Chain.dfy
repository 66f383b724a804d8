/**
 The pre-committed hash chain: s[i] = hash(s[i + 1]), with s[0] published first.
 The hash is any total function; nothing here inverts it.
 */
module Chain {
  import opened Prelude

  function Iterate(hash: string -> string, x: string, n: nat): string {
    if n == 0 then x else hash(Iterate(hash, x, n - 1))
  }

  lemma {:induction false} IterateAdds(hash: string -> string, x: string, m: nat, n: nat)
    ensures Iterate(hash, Iterate(hash, x, m), n) == Iterate(hash, x, m + n)
  {
    if n > 0 { IterateAdds(hash, x, m, n - 1); }
  }

  function LowerChar(c: char): char {
    if 'A' <= c <= 'Z' then c - 'A' + 'a' else c
  }

  /** Case folding as far as hex digests need it. */
  function Lower(s: string): string {
    if s == "" then "" else [LowerChar(s[0])] + Lower(s[1..])
  }

  /** The same letter or digit, up to the case of an ASCII letter. */
  predicate SameLetter(c: char, d: char) {
    c == d || ('A' <= c <= 'Z' && d as int == c as int + 32) || ('A' <= d <= 'Z' && c as int == d as int + 32)
  }

  predicate SameDigest(a: string, b: string) {
    |a| == |b| && forall i | 0 <= i < |a| :: SameLetter(a[i], b[i])
  }

  predicate InLowerCase(s: string) {
    forall i | 0 <= i < |s| :: !('A' <= s[i] <= 'Z')
  }

  /** Folding compares digests letter by letter, and no further than the case of a letter. */
  lemma {:induction false} FoldingComparesLetters(a: string, b: string)
    ensures Lower(a) == Lower(b) <==> SameDigest(a, b)
  {
    if a != "" && b != "" {
      FoldingComparesLetters(a[1..], b[1..]);
      FoldedHead(a, b);
      if SameLetter(a[0], b[0]) && SameDigest(a[1..], b[1..]) {
        assert forall i | 0 < i < |a| :: a[i] == a[1..][i - 1] && b[i] == b[1..][i - 1];
      }
    }
  }

  lemma FoldedHead(a: string, b: string)
    requires a != "" && b != ""
    ensures Lower(a) == Lower(b) <==> SameLetter(a[0], b[0]) && Lower(a[1..]) == Lower(b[1..])
  {
    assert Lower(a)[0] == LowerChar(a[0]) && Lower(a)[1..] == Lower(a[1..]);
    assert Lower(b)[0] == LowerChar(b[0]) && Lower(b)[1..] == Lower(b[1..]);
  }

  /** Digests written in lower case match only when they are equal. */
  lemma LowerCaseDigestsMatchExactly(a: string, b: string)
    requires InLowerCase(a) && InLowerCase(b)
    ensures SameDigest(a, b) <==> a == b
  {
  }

  datatype ChainError = BadIndex | OutsideChain

  datatype Proof = Proof(seed: string, chainIndex: int, genesisHash: string)

  datatype Verification = Verification(valid: bool, computedGenesis: string, steps: nat)

  /** Hashing the seed as often as its index says gives the published digest. */
  predicate Accepts(hash: string -> string, proof: Proof) {
    proof.chainIndex >= 1 && SameDigest(Iterate(hash, proof.seed, proof.chainIndex), proof.genesisHash)
  }

  method VerifyChainProof(proof: Proof, hash: string -> string)
    returns (r: Result<Verification, ChainError>)
    ensures proof.chainIndex < 1 <==> r == Err(BadIndex)
    ensures proof.chainIndex >= 1 ==>
              var genesis := Iterate(hash, proof.seed, proof.chainIndex);
              r == Ok(Verification(Accepts(hash, proof), genesis, proof.chainIndex))
  {
    if proof.chainIndex < 1 {
      return Err(BadIndex);
    }
    var current := proof.seed;
    for step := 0 to proof.chainIndex
      invariant current == Iterate(hash, proof.seed, step)
    {
      current := hash(current);
    }
    FoldingComparesLetters(current, proof.genesisHash);
    r := Ok(Verification(Lower(current) == Lower(proof.genesisHash), current, proof.chainIndex));
  }

  method DeriveChainSeed(terminal: string, length: int, index: int, hash: string -> string)
    returns (r: Result<string, ChainError>)
    ensures index < 1 || index > length <==> r == Err(OutsideChain)
    ensures 1 <= index <= length ==> r == Ok(Iterate(hash, terminal, length - index))
  {
    if index < 1 || index > length {
      return Err(OutsideChain);
    }
    var current := terminal;
    for step := 0 to length - index
      invariant current == Iterate(hash, terminal, step)
    {
      current := hash(current);
    }
    r := Ok(current);
  }

  /** s[0] as `createChain` builds it: the hash of s[1]. */
  function Genesis(hash: string -> string, terminal: string, length: nat): string
    requires length >= 1
  {
    hash(Iterate(hash, terminal, length - 1))
  }

  /** Hashing s[i] gives s[i - 1]; hashing it i times gives the published genesis. */
  lemma SeedsLeadToGenesis(hash: string -> string, terminal: string, length: nat, index: nat)
    requires 1 <= index <= length
    ensures Iterate(hash, Iterate(hash, terminal, length - index), index) == Genesis(hash, terminal, length)
    ensures index > 1 ==>
              hash(Iterate(hash, terminal, length - index)) == Iterate(hash, terminal, length - (index - 1))
  {
    IterateAdds(hash, terminal, length - index, index);
  }

  /** Every seed of a chain verifies against that chain's genesis, in exactly `index` steps. */
  method RoundTrip(hash: string -> string, terminal: string, length: nat, index: nat)
    returns (v: Verification)
    requires 1 <= index <= length
    ensures v.valid && v.steps == index && v.computedGenesis == Genesis(hash, terminal, length)
  {
    var first := DeriveChainSeed(terminal, length, 1, hash);
    var genesis := hash(first.value);
    var seed := DeriveChainSeed(terminal, length, index, hash);
    var checked := VerifyChainProof(Proof(seed.value, index, genesis), hash);
    SeedsLeadToGenesis(hash, terminal, length, index);
    v := checked.value;
  }

  /** Two different inputs of the hash that it cannot tell apart. */
  ghost predicate Collision(hash: string -> string, x: string, y: string) {
    x != y && hash(x) == hash(y)
  }

  /**
   Binding: a seed other than the committed one that verifies at the same index
   exhibits a collision of the hash, at one of the steps on the way down.
   */
  lemma {:induction false} ForgeryIsACollision(hash: string -> string, forged: string, seed: string, index: nat)
    returns (step: nat)
    requires forged != seed
    requires Iterate(hash, forged, index) == Iterate(hash, seed, index)
    ensures step < index
    ensures Collision(hash, Iterate(hash, forged, step), Iterate(hash, seed, step))
  {
    if Iterate(hash, forged, index - 1) == Iterate(hash, seed, index - 1) {
      step := ForgeryIsACollision(hash, forged, seed, index - 1);
    } else {
      step := index - 1;
    }
  }

  /**
   Binding of the verdict itself: a seed that is accepted against the genesis of
   a created chain is the committed one, or it exhibits a collision of the hash.
   */
  lemma AcceptedForgeryIsACollision(hash: string -> string, terminal: string, length: nat, index: nat, forged: string)
    returns (step: nat)
    requires 1 <= index <= length && forall x :: InLowerCase(hash(x))
    requires Accepts(hash, Proof(forged, index, Genesis(hash, terminal, length)))
    ensures var seed := Iterate(hash, terminal, length - index);
            forged == seed ||
            (step < index && Collision(hash, Iterate(hash, forged, step), Iterate(hash, seed, step)))
  {
    var seed := Iterate(hash, terminal, length - index);
    SeedsLeadToGenesis(hash, terminal, length, index);
    LowerCaseDigestsMatchExactly(Iterate(hash, forged, index), Genesis(hash, terminal, length));
    step := 0;
    if forged != seed {
      step := ForgeryIsACollision(hash, forged, seed, index);
    }
  }

  // ---------------------------------------------------------------------------
  // Succession of chains over round nonces
  // ---------------------------------------------------------------------------

  /** A stored chain covers the nonces from `first` to `first + length - 1`. */
  datatype Link = Link(first: int, length: nat)

  predicate Covers(c: Link, nonce: int) {
    c.first <= nonce < c.first + c.length
  }

  predicate Disjoint(c: Link, d: Link) {
    c.first + c.length <= d.first || d.first + d.length <= c.first
  }

  predicate PairwiseDisjoint(chains: seq<Link>) {
    forall i, j | 0 <= i < j < |chains| :: Disjoint(chains[i], chains[j])
  }

  predicate PositiveLengths(chains: seq<Link>) {
    forall i | 0 <= i < |chains| :: chains[i].length > 0
  }

  /** Row i is the latest to start by `nonce`, and still covers it. */
  predicate LatestCovers(chains: seq<Link>, i: nat, nonce: int)
    requires i < |chains|
  {
    Covers(chains[i], nonce) &&
    forall k | 0 <= k < |chains| && chains[k].first <= nonce :: chains[k].first <= chains[i].first
  }

  /** The chain table. `first_nonce` is unique and `length` positive, or the insert aborts. */
  class ChainTable {
    var chains: seq<Link>

    ghost predicate Valid()
      reads this
    {
      PositiveLengths(chains) &&
      forall i, j | 0 <= i < j < |chains| :: chains[i].first != chains[j].first
    }

    constructor ()
      ensures Valid() && chains == []
    {
      chains := [];
    }

    /** The row with the greatest first nonce not above `nonce`. */
    method Latest(nonce: int) returns (found: Option<Link>)
      requires Valid()
      ensures found.None? ==> forall i | 0 <= i < |chains| :: chains[i].first > nonce
      ensures found.Some? ==>
                found.value in chains && found.value.first <= nonce &&
                forall i | 0 <= i < |chains| && chains[i].first <= nonce ::
                  chains[i].first <= found.value.first
    {
      found := None;
      for i := 0 to |chains|
        invariant found.None? ==> forall k | 0 <= k < i :: chains[k].first > nonce
        invariant found.Some? ==>
                    found.value in chains && found.value.first <= nonce &&
                    forall k | 0 <= k < i && chains[k].first <= nonce ::
                      chains[k].first <= found.value.first
      {
        if chains[i].first <= nonce && (found.None? || found.value.first < chains[i].first) {
          found := Some(chains[i]);
        }
      }
    }

    /**
     The chain a nonce draws from. An existing chain answers whenever the latest
     one covers the nonce; otherwise one of `length` is added, starting there.
     The unique index on the first nonce never refuses the insert.
     */
    method ChainFor(nonce: int, length: nat) returns (chain: Link)
      requires Valid() && length > 0
      modifies this
      ensures Valid()
      ensures chains == NextTable(old(chains), nonce, length)
      ensures if Served(old(chains), nonce) then chains == old(chains)
              else chains == old(chains) + [chain] && chain == Link(nonce, length)
      ensures exists i: nat :: i < |chains| && chains[i] == chain && LatestCovers(chains, i, nonce)
    {
      var existing := Latest(nonce);
      if existing.Some? && nonce < existing.value.first + existing.value.length {
        ghost var i: nat :| i < |chains| && chains[i] == existing.value;
        assert LatestCovers(chains, i, nonce);
        return existing.value;
      }
      assert !Served(chains, nonce);
      chain := Link(nonce, length);
      chains := chains + [chain];
      assert LatestCovers(chains, |chains| - 1, nonce);
    }
  }

  ghost predicate Served(chains: seq<Link>, nonce: int) {
    exists i: nat :: i < |chains| && LatestCovers(chains, i, nonce)
  }

  /** The chain table after a nonce has been asked for. */
  ghost function NextTable(chains: seq<Link>, nonce: int, length: nat): seq<Link> {
    if Served(chains, nonce) then chains else chains + [Link(nonce, length)]
  }

  /**
   Adding a chain keeps the nonce intervals disjoint exactly when no stored
   chain starts inside the interval the new one claims. The unique index on the
   first nonce alone does not ensure it.
   */
  lemma DisjointIffNothingStartsInside(chains: seq<Link>, nonce: int, length: nat)
    requires PositiveLengths(chains) && PairwiseDisjoint(chains)
    requires length > 0 && !Served(chains, nonce)
    ensures PairwiseDisjoint(NextTable(chains, nonce, length)) <==>
            forall i | 0 <= i < |chains| :: !(nonce < chains[i].first < nonce + length)
  {
    var added := Link(nonce, length);
    var table := NextTable(chains, nonce, length);
    forall i | 0 <= i < |chains|
      ensures Disjoint(table[i], table[|chains|]) <==> !(nonce < chains[i].first < nonce + length)
    {
      if chains[i].first <= nonce {
        EarlierChainsHaveEnded(chains, nonce, i);
      }
    }
    assert forall i, j | 0 <= i < j < |table| && j < |chains| :: Disjoint(table[i], table[j]);
  }

  lemma EarlierChainsHaveEnded(chains: seq<Link>, nonce: int, i: nat)
    requires PositiveLengths(chains) && PairwiseDisjoint(chains)
    requires !Served(chains, nonce) && i < |chains| && chains[i].first <= nonce
    ensures chains[i].first + chains[i].length <= nonce
  {
    var last := LatestStart(chains, nonce, i, |chains|);
    assert !LatestCovers(chains, last, nonce);
    if i != last {
      assert Disjoint(chains[if i < last then i else last], chains[if i < last then last else i]);
    }
  }

  lemma {:induction false} LatestStart(chains: seq<Link>, nonce: int, i: nat, n: nat) returns (last: nat)
    requires i < |chains| && chains[i].first <= nonce && n <= |chains|
    ensures last < |chains| && chains[i].first <= chains[last].first <= nonce
    ensures forall k | 0 <= k < n && chains[k].first <= nonce :: chains[k].first <= chains[last].first
  {
    if n == 0 {
      last := i;
    } else {
      last := LatestStart(chains, nonce, i, n - 1);
      if chains[n - 1].first <= nonce && chains[last].first < chains[n - 1].first {
        last := n - 1;
      }
    }
  }

  /** A nonce below an existing chain breaks disjointness: 5..14 overlaps 10..19. */
  lemma DescendingNonceOverlaps()
    ensures var table := NextTable(NextTable([], 10, 10), 5, 10);
            !PairwiseDisjoint(table) && table == [Link(10, 10), Link(5, 10)]
  {
    var first := NextTable([], 10, 10);
    assert first == [Link(10, 10)];
    assert !Served(first, 5);
    var table := NextTable(first, 5, 10);
    assert !Disjoint(table[0], table[1]);
  }

  datatype Request = Request(nonce: int, length: nat)

  /** Rounds ask for a nonce past every existing one, so the nonces never go down. */
  predicate Ascending(requests: seq<Request>) {
    (forall i | 0 <= i < |requests| :: requests[i].length > 0) &&
    forall i, j | 0 <= i < j < |requests| :: requests[i].nonce <= requests[j].nonce
  }

  ghost function TableAfter(requests: seq<Request>): seq<Link> {
    if requests == [] then []
    else
      var last := requests[|requests| - 1];
      NextTable(TableAfter(requests[..|requests| - 1]), last.nonce, last.length)
  }

  predicate StartBy(chains: seq<Link>, nonce: int) {
    forall i | 0 <= i < |chains| :: chains[i].first <= nonce
  }

  lemma {:induction false} ChainsStartByTheLastNonce(requests: seq<Request>, nonce: int)
    requires Ascending(requests)
    requires forall j | 0 <= j < |requests| :: requests[j].nonce <= nonce
    ensures StartBy(TableAfter(requests), nonce)
  {
    if requests != [] {
      ChainsStartByTheLastNonce(requests[..|requests| - 1], nonce);
    }
  }

  /**
   Succession: over every ascending run of requests, whatever length is
   configured at each creation, the chains cover pairwise disjoint nonce
   intervals.
   */
  lemma {:induction false} SuccessionNeverOverlaps(requests: seq<Request>)
    requires Ascending(requests)
    ensures PositiveLengths(TableAfter(requests)) && PairwiseDisjoint(TableAfter(requests))
  {
    if requests != [] {
      var n := |requests| - 1;
      var before, last := requests[..n], requests[n];
      SuccessionNeverOverlaps(before);
      ChainsStartByTheLastNonce(before, last.nonce);
      if !Served(TableAfter(before), last.nonce) {
        DisjointIffNothingStartsInside(TableAfter(before), last.nonce, last.length);
      }
    }
  }

  /** Every nonce ever asked for stays served, through all later requests. */
  lemma {:induction false} EveryNonceStaysServed(requests: seq<Request>, j: nat)
    requires Ascending(requests) && j < |requests|
    ensures Served(TableAfter(requests), requests[j].nonce)
  {
    var n := |requests| - 1;
    var before, last := requests[..n], requests[n];
    var table := TableAfter(before);
    if j < n {
      EveryNonceStaysServed(before, j);
      AnswersAreStable(table, last.nonce, last.length, before[j].nonce);
    } else if !Served(table, last.nonce) {
      ChainsStartByTheLastNonce(before, last.nonce);
      assert LatestCovers(NextTable(table, last.nonce, last.length), |table|, last.nonce);
    }
  }

  /** Adding a chain at a later nonce never changes the chain an earlier one draws from. */
  lemma AnswersAreStable(chains: seq<Link>, nonce: int, length: nat, earlier: int)
    requires earlier <= nonce && Served(chains, earlier)
    ensures Served(NextTable(chains, nonce, length), earlier)
    ensures forall i: nat | i < |chains| && LatestCovers(chains, i, earlier) ::
              LatestCovers(NextTable(chains, nonce, length), i, earlier)
  {
    var next := NextTable(chains, nonce, length);
    if next != chains {
      assert !Served(chains, nonce);
      assert nonce != earlier;
      forall i: nat | i < |chains| && LatestCovers(chains, i, earlier)
        ensures LatestCovers(next, i, earlier)
      {
      }
    }
    var i: nat :| i < |chains| && LatestCovers(chains, i, earlier);
    assert LatestCovers(next, i, earlier);
  }

  /** The index a chain gives a nonce, counting from one. */
  function Position(c: Link, nonce: int): int {
    nonce - c.first + 1
  }

  /** The seed a chain reveals for a nonce it covers. */
  function SeedFor(hash: string -> string, terminal: string, c: Link, nonce: int): string
    requires Covers(c, nonce) && 1 <= Position(c, nonce) <= c.length
  {
    Iterate(hash, terminal, c.length - Position(c, nonce))
  }

  /**
   A chain is spent from its published end: the first nonce's seed hashes to the
   genesis, each later one to the seed revealed just before it, and a nonce's
   seed is accepted at its place in the chain.
   */
  lemma SeedsAreRevealedInOrder(hash: string -> string, terminal: string, c: Link, nonce: int)
    requires Covers(c, nonce)
    ensures 1 <= Position(c, nonce) <= c.length
    ensures nonce == c.first ==> hash(SeedFor(hash, terminal, c, nonce)) == Genesis(hash, terminal, c.length)
    ensures nonce > c.first ==>
              1 <= Position(c, nonce - 1) <= c.length &&
              hash(SeedFor(hash, terminal, c, nonce)) == SeedFor(hash, terminal, c, nonce - 1)
    ensures var seed, genesis := SeedFor(hash, terminal, c, nonce), Genesis(hash, terminal, c.length);
            Accepts(hash, Proof(seed, nonce - c.first + 1, genesis))
  {
    SeedsLeadToGenesis(hash, terminal, c.length, Position(c, nonce));
  }

  /** Every position is within its chain, and two nonces share a chain and a position only if they are one nonce. */
  lemma PositionsAreUnique(requests: seq<Request>, i: nat, j: nat, m: int, n: int)
    requires Ascending(requests)
    requires i < |TableAfter(requests)| && j < |TableAfter(requests)|
    requires Covers(TableAfter(requests)[i], m) && Covers(TableAfter(requests)[j], n)
    ensures 1 <= Position(TableAfter(requests)[i], m) <= TableAfter(requests)[i].length
    ensures m == n <==> i == j && Position(TableAfter(requests)[i], m) == Position(TableAfter(requests)[j], n)
  {
    SuccessionNeverOverlaps(requests);
    if i != j {
      var table := TableAfter(requests);
      assert Disjoint(table[if i < j then i else j], table[if i < j then j else i]);
    }
  }
}

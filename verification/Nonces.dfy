/**
 Two counters for one number. A round's outcome is drawn for a peeked nonce,
 one past the highest in the table; its row gets the next value of a sequence,
 which an insert uses up even when it is refused.
 */
module Nonces {
  import opened Chain

  /** The last value the sequence handed out, and the nonce a peek would answer. */
  datatype Numbering = Numbering(serial: int, peek: int)

  /** An attempted insert: the sequence advances either way, the table only when it is accepted. */
  function Inserted(n: Numbering, accepted: bool): Numbering {
    Numbering(n.serial + 1, if accepted then n.serial + 2 else n.peek)
  }

  /** After some attempts from an empty table; each element says whether the insert was accepted. */
  function After(attempts: seq<bool>): Numbering {
    if attempts == [] then Numbering(0, 1) else Inserted(After(attempts[..|attempts| - 1]), attempts[|attempts| - 1])
  }

  /** The nonce attempt i draws its outcome for. */
  function Drawn(attempts: seq<bool>, i: nat): int
    requires i < |attempts|
  {
    After(attempts[..i]).peek
  }

  /** The nonce the row of attempt i gets, if it is accepted. */
  function Given(attempts: seq<bool>, i: nat): int
    requires i < |attempts|
  {
    After(attempts[..i]).serial + 1
  }

  /** Some insert was refused and none has been accepted since. */
  ghost predicate RefusedSince(attempts: seq<bool>, i: nat)
    requires i < |attempts|
  {
    exists k :: 0 <= k < i && !attempts[k] && forall j | k <= j < i :: !attempts[j]
  }

  lemma {:induction false} PeekNeverLeads(attempts: seq<bool>)
    ensures 1 <= After(attempts).peek <= After(attempts).serial + 1
    ensures After(attempts).peek == After(attempts).serial + 1 <==> attempts == [] || attempts[|attempts| - 1]
  {
    if attempts != [] {
      PeekNeverLeads(attempts[..|attempts| - 1]);
    }
  }

  /** The outcome is drawn for the row's own nonce exactly when no insert was refused since the last accepted one. */
  lemma DrawnIsGivenIff(attempts: seq<bool>, i: nat)
    requires i < |attempts|
    ensures Drawn(attempts, i) == Given(attempts, i) <==> !RefusedSince(attempts, i)
    ensures Drawn(attempts, i) <= Given(attempts, i)
  {
    PeekNeverLeads(attempts[..i]);
    if i > 0 && !attempts[i - 1] {
      assert 0 <= i - 1 < i && !attempts[i - 1] && forall j | i - 1 <= j < i :: !attempts[j];
    }
  }

  lemma {:induction false} PeekOnlyRises(attempts: seq<bool>, i: nat, j: nat)
    requires i <= j <= |attempts|
    ensures After(attempts[..i]).peek <= After(attempts[..j]).peek
  {
    if i < j {
      PeekOnlyRises(attempts, i, j - 1);
      assert attempts[..j][..j - 1] == attempts[..j - 1];
      PeekNeverLeads(attempts[..j - 1]);
    }
  }

  /** Over any run the drawn nonces never fall, and every round drawn after an opened one is drawn past it. */
  lemma DrawnNoncesRise(attempts: seq<bool>, i: nat, j: nat)
    requires i < j < |attempts|
    ensures Drawn(attempts, i) <= Drawn(attempts, j)
    ensures attempts[i] ==> Drawn(attempts, i) < Drawn(attempts, j)
  {
    PeekOnlyRises(attempts, i, j);
    if attempts[i] {
      PeekOnlyRises(attempts, i + 1, j);
      assert attempts[..i + 1][..i] == attempts[..i];
      PeekNeverLeads(attempts[..i]);
    }
  }

  /** The requests the engine makes of the chains, with the length configured at each. */
  function ChainRequests(attempts: seq<bool>, lengths: seq<nat>): seq<Request>
    requires |lengths| == |attempts|
  {
    seq(|attempts|, i requires 0 <= i < |attempts| => Request(Drawn(attempts, i), lengths[i]))
  }

  /** So the engine asks for ascending nonces, and the chains it draws from never overlap. */
  lemma EngineChainsNeverOverlap(attempts: seq<bool>, lengths: seq<nat>)
    requires |lengths| == |attempts| && forall i | 0 <= i < |lengths| :: lengths[i] > 0
    ensures Ascending(ChainRequests(attempts, lengths))
    ensures PairwiseDisjoint(TableAfter(ChainRequests(attempts, lengths)))
  {
    var requests := ChainRequests(attempts, lengths);
    forall i, j | 0 <= i < j < |requests| ensures requests[i].nonce <= requests[j].nonce {
      DrawnNoncesRise(attempts, i, j);
    }
    SuccessionNeverOverlaps(requests);
  }

  /** No two opened rounds are drawn from one position of one chain. */
  lemma OpenedRoundsNeverShareAPosition(attempts: seq<bool>, lengths: seq<nat>, i: nat, j: nat, c: nat, d: nat)
    requires |lengths| == |attempts| && forall k | 0 <= k < |lengths| :: lengths[k] > 0
    requires i < j < |attempts| && attempts[i] && attempts[j]
    requires var table := TableAfter(ChainRequests(attempts, lengths));
             c < |table| && d < |table| && Covers(table[c], Drawn(attempts, i)) && Covers(table[d], Drawn(attempts, j))
    ensures var table := TableAfter(ChainRequests(attempts, lengths));
            !(c == d && Position(table[c], Drawn(attempts, i)) == Position(table[d], Drawn(attempts, j)))
  {
    EngineChainsNeverOverlap(attempts, lengths);
    DrawnNoncesRise(attempts, i, j);
    PositionsAreUnique(ChainRequests(attempts, lengths), c, d, Drawn(attempts, i), Drawn(attempts, j));
  }
}

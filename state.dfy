/**
 * The persisted records of the swap program: a trade loop made of steps,
 * and the program-wide configuration; with the loop's pure predicates
 * (cycle verification, readiness, expiry) and its account-size formula.
 */
module State {
  import opened Wrappers
  import opened Bytes

  /** Program version written into a fresh configuration. */
  const PROGRAM_VERSION: U32 := 1
  /** Largest number of steps (participants) in one loop. */
  const MAX_PARTICIPANTS_PER_TRANSACTION: nat := 11
  /** Number of assets per step that account sizing provisions for. */
  const MAX_NFTS_PER_STEP: nat := 4
  /** Longest allowed timeout: 30 days, in seconds. */
  const MAX_TIMEOUT_SECONDS: nat := 30 * 24 * 60 * 60

  /** Status of one step; the declared order is the order of the protocol. */
  datatype StepStatus = Created | Approved | Executed

  /** One directed transfer: `from` gives every asset in `nftMints` to `to`. */
  datatype TradeStep = TradeStep(from: Pubkey, to: Pubkey, nftMints: seq<Pubkey>, status: StepStatus)

  /**
   * One trade loop. `capacity` is the number of steps the loop was created
   * for; the source keeps it as the capacity of the steps vector.
   */
  datatype TradeLoop = TradeLoop(
    initialized: bool,
    tradeId: Bytes32,
    createdAt: U64,
    expiresAt: U64,
    steps: seq<TradeStep>,
    capacity: nat,
    authority: Pubkey)

  /** The program-wide configuration record. */
  datatype ProgramConfig = ProgramConfig(
    initialized: bool,
    version: U32,
    upgradeAuthority: Pubkey,
    governance: Option<Pubkey>,
    paused: bool)

  function Min(a: nat, b: nat): nat { if a <= b then a else b }

  /**
   * Bytes reserved for a loop account: an 85-byte header, then per step 69
   * bytes plus 32 per asset, with both counts clamped to their maxima.
   */
  function GetSpace(stepCount: Byte, maxNftsPerStep: Byte): (space: nat)
    ensures 85 <= space <= 2252
    ensures stepCount == 0 ==> space == 85
    ensures stepCount >= 11 && maxNftsPerStep >= 4 ==> space == 2252
  {
    var baseSize := 1 + 32 + 8 + 8 + 32;
    var stepsHeaderSize := 4;
    var stepBaseSize := 32 + 32 + 1 + 4;
    var actualStepCount := Min(stepCount, MAX_PARTICIPANTS_PER_TRANSACTION);
    var actualMaxNfts := Min(maxNftsPerStep, MAX_NFTS_PER_STEP);
    ProductBound(actualStepCount, stepBaseSize + actualMaxNfts * 32, 11, 197);
    baseSize + stepsHeaderSize + actualStepCount * (stepBaseSize + actualMaxNfts * 32)
  }

  lemma ProductBound(a: nat, b: nat, amax: nat, bmax: nat)
    requires a <= amax && b <= bmax
    ensures a * b <= amax * bmax
  {
    assert a * b <= amax * b;
  }

  /** More steps or more assets per step never need less space. */
  lemma GetSpaceMonotone(s1: Byte, m1: Byte, s2: Byte, m2: Byte)
    requires s1 <= s2 && m1 <= m2
    ensures GetSpace(s1, m1) <= GetSpace(s2, m2)
  {
    var a1, a2 := Min(s1, 11), Min(s2, 11);
    var b1, b2 := 69 + Min(m1, 4) * 32, 69 + Min(m2, 4) * 32;
    ProductBound(a1, b1, a2, b2);
  }

  /** Step `i` hands over to the step after it, the last one to the first. */
  ghost predicate ClosesRing(steps: seq<TradeStep>)
  {
    |steps| > 0 &&
    forall i :: 0 <= i < |steps| ==> steps[i].to == steps[Succ(i, |steps|)].from
  }

  /** The position after `i` on a ring of `n` positions: `(i + 1) mod n`. */
  function Succ(i: nat, n: nat): (j: nat)
    requires i < n
    ensures j < n && j == (i + 1) % n
  {
    if i + 1 == n then 0 else i + 1
  }

  /** At least two different participants send something. */
  ghost predicate HasTwoSenders(steps: seq<TradeStep>)
  {
    exists i, j :: 0 <= i < |steps| && 0 <= j < |steps| && steps[i].from != steps[j].from
  }

  /** The steps form a closed ring with at least two distinct senders. */
  ghost predicate IsValidCycle(steps: seq<TradeStep>)
  {
    ClosesRing(steps) && HasTwoSenders(steps)
  }

  /** The senders of the steps, as a set. */
  ghost function Senders(steps: seq<TradeStep>): set<Pubkey>
  {
    set i | 0 <= i < |steps| :: steps[i].from
  }

  /**
   * `verify_loop`: reject an empty list, an open ring and a broken chain,
   * then collect the senders in a set and require at least two of them.
   */
  method VerifyLoop(steps: seq<TradeStep>) returns (valid: bool)
    ensures valid <==> IsValidCycle(steps)
  {
    if |steps| == 0 {
      return false;
    }
    var n := |steps|;
    if steps[n - 1].to != steps[0].from {
      LinkOfRing(steps, n - 1);
      return false;
    }
    var i := 0;
    while i < n - 1
      invariant 0 <= i <= n - 1
      invariant forall k :: 0 <= k < i ==> steps[k].to == steps[k + 1].from
    {
      if steps[i].to != steps[i + 1].from {
        LinkOfRing(steps, i);
        return false;
      }
      i := i + 1;
    }
    ChainClosesRing(steps);
    var senders: set<Pubkey> := {};
    for j := 0 to n
      invariant senders == Senders(steps[..j])
    {
      SendersExtend(steps, j);
      senders := senders + {steps[j].from};
    }
    assert steps[..n] == steps;
    TwoSendersIffTwoInSet(steps);
    valid := |senders| >= 2;
  }

  /** In a ring, step `i` hands over to step `i + 1`, and the last step to the first. */
  lemma LinkOfRing(steps: seq<TradeStep>, i: nat)
    requires i < |steps|
    ensures ClosesRing(steps) ==>
      steps[i].to == (if i == |steps| - 1 then steps[0].from else steps[i + 1].from)
  {
    if ClosesRing(steps) {
      assert steps[i].to == steps[Succ(i, |steps|)].from;
    }
  }

  /** A chain whose last step hands over to the first step is a ring. */
  lemma ChainClosesRing(steps: seq<TradeStep>)
    requires |steps| > 0
    requires steps[|steps| - 1].to == steps[0].from
    requires forall k :: 0 <= k < |steps| - 1 ==> steps[k].to == steps[k + 1].from
    ensures ClosesRing(steps)
  {
    var n := |steps|;
    forall k | 0 <= k < n ensures steps[k].to == steps[Succ(k, n)].from {
    }
  }

  lemma SendersExtend(steps: seq<TradeStep>, j: nat)
    requires j < |steps|
    ensures Senders(steps[..j + 1]) == Senders(steps[..j]) + {steps[j].from}
  {
    assert forall k :: 0 <= k < j ==> steps[..j + 1][k] == steps[..j][k];
  }

  /** The set of senders has two members exactly when two steps have different senders. */
  lemma TwoSendersIffTwoInSet(steps: seq<TradeStep>)
    ensures |Senders(steps)| >= 2 <==> HasTwoSenders(steps)
  {
    var s := Senders(steps);
    if HasTwoSenders(steps) {
      var i, j :| 0 <= i < |steps| && 0 <= j < |steps| && steps[i].from != steps[j].from;
      assert {steps[i].from, steps[j].from} <= s;
      assert |{steps[i].from, steps[j].from}| == 2;
      SubsetCardinality({steps[i].from, steps[j].from}, s);
    }
    if |s| >= 2 {
      var a :| a in s;
      assert |s - {a}| >= 1;
      var b :| b in s - {a};
      var i :| 0 <= i < |steps| && steps[i].from == a;
      var j :| 0 <= j < |steps| && steps[j].from == b;
      assert steps[i].from != steps[j].from;
    }
  }

  lemma SubsetCardinality<T>(a: set<T>, b: set<T>)
    requires a <= b
    ensures |a| <= |b|
  {
    assert b == a + (b - a);
  }

  /** A single step never forms a valid loop, even one that sends to its own sender. */
  lemma SingleStepIsNotACycle(steps: seq<TradeStep>)
    requires |steps| == 1
    ensures !IsValidCycle(steps)
  {
  }

  /** A loop in which every step has the same sender is rejected. */
  lemma OneSenderIsNotACycle(steps: seq<TradeStep>, p: Pubkey)
    requires forall i :: 0 <= i < |steps| ==> steps[i].from == p
    ensures !IsValidCycle(steps)
  {
  }

  /** Three parties handing on around a ring (a to b, b to c, c to a) form a valid loop. */
  lemma ThreePartyRingIsValid(a: Pubkey, b: Pubkey, c: Pubkey, steps: seq<TradeStep>)
    requires a != b && |steps| == 3
    requires steps[0].from == a && steps[0].to == b
    requires steps[1].from == b && steps[1].to == c
    requires steps[2].from == c && steps[2].to == a
    ensures IsValidCycle(steps)
  {
    assert steps[0].from != steps[1].from;
  }

  /** `is_ready_for_execution`: every step is approved (`iter().all`). */
  function IsReadyForExecution(steps: seq<TradeStep>): (ready: bool)
    ensures ready <==> forall i :: 0 <= i < |steps| ==> steps[i].status == Approved
  {
    if |steps| == 0 then true
    else steps[0].status == Approved && IsReadyForExecution(steps[1..])
  }

  /** `is_expired`: the current time has reached the expiry time. */
  function IsExpired(loop: TradeLoop, now: nat): bool
  {
    now >= loop.expiresAt
  }

  /** Once a loop has expired it stays expired as time moves on. */
  lemma ExpiryIsPermanent(loop: TradeLoop, t1: nat, t2: nat)
    requires t1 <= t2 && IsExpired(loop, t1)
    ensures IsExpired(loop, t2)
  {
  }

  /** The record that an all-zero account decodes to: uninitialized, with no steps. */
  const ZeroedLoop: TradeLoop := TradeLoop(false, ZeroKey, 0, 0, [], 0, ZeroKey)

  /** Thirty-two zero bytes. */
  const ZeroKey: Bytes32 := [0, 0, 0, 0, 0, 0, 0, 0, 0, 0, 0, 0, 0, 0, 0, 0,
                             0, 0, 0, 0, 0, 0, 0, 0, 0, 0, 0, 0, 0, 0, 0, 0]
}

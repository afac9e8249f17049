/**
 The choice of the block closest to a timestamp, as the Node verifier and the Rust verifier make it.

 Block timestamps are in seconds, the target is in milliseconds. Node multiplies both by 1000; Rust multiplies
 the block timestamps only, and drops blocks whose number exceeds the target timestamp.
 */
module ClosestBlock {
  import opened Prelude
  import opened Models

  function Abs(x: int): nat {
    if x < 0 then -x else x
  }

  // ----- Node -----

  datatype BlockInfo = BlockInfo(number: int, timestamp: int)

  function Closer(prev: BlockInfo, curr: BlockInfo, target: int): BlockInfo {
    if curr.timestamp * 1000 > target * 1000 then prev
    else if Abs(curr.timestamp * 1000 - target * 1000) < Abs(prev.timestamp * 1000 - target * 1000) then curr
    else prev
  }

  /** `blocks.reduce(...)`, folding from the left. */
  function GetClosestBlock(blocks: seq<BlockInfo>, target: int): BlockInfo
    requires blocks != []
    decreases |blocks|
  {
    if |blocks| == 1 then blocks[0]
    else GetClosestBlock([Closer(blocks[0], blocks[1], target)] + blocks[2..], target)
  }

  /** The first block always competes; a later one only if it is not after the target. */
  predicate Candidate(blocks: seq<BlockInfo>, k: int, target: int) {
    0 <= k < |blocks| && (k == 0 || blocks[k].timestamp <= target)
  }

  ghost predicate EarliestMinimiser(blocks: seq<BlockInfo>, k: int, target: int) {
    && Candidate(blocks, k, target)
    && forall j :: Candidate(blocks, j, target) ==>
         && Abs(blocks[k].timestamp - target) <= Abs(blocks[j].timestamp - target)
         && (j < k ==> Abs(blocks[k].timestamp - target) < Abs(blocks[j].timestamp - target))
  }

  /** The fold returns the earliest candidate that minimises the distance to the target. */
  lemma {:induction false} ClosestIsEarliestMinimiser(blocks: seq<BlockInfo>, target: int) returns (k: nat)
    requires blocks != []
    ensures EarliestMinimiser(blocks, k, target) && GetClosestBlock(blocks, target) == blocks[k]
    decreases |blocks|
  {
    if |blocks| == 1 {
      k := 0;
    } else {
      var first := Closer(blocks[0], blocks[1], target);
      var rest := [first] + blocks[2..];
      var i := ClosestIsEarliestMinimiser(rest, target);
      k := if i > 0 then i + 1 else if first == blocks[0] then 0 else 1;
      forall j | Candidate(blocks, j, target)
        ensures Abs(blocks[k].timestamp - target) <= Abs(blocks[j].timestamp - target)
        ensures j < k ==> Abs(blocks[k].timestamp - target) < Abs(blocks[j].timestamp - target)
      {
        assert Candidate(rest, 0, target);
        assert j >= 2 ==> rest[j - 1] == blocks[j] && Candidate(rest, j - 1, target);
      }
    }
  }

  /** `fetch` is the gateway; a block it cannot read makes the whole range unreadable. */
  function ValidateChosenBlock(fetch: int -> Option<BlockInfo>, number: int, target: int): Result<(), ValidatorError> {
    if fetch(number - 1).None? || fetch(number).None? || fetch(number + 1).None? then Err(BlockCantBeReadFromNode)
    else
      var blocks := [fetch(number - 1).value, fetch(number).value, fetch(number + 1).value];
      var closest := GetClosestBlock(blocks, target);
      if closest.number != number && closest.number != number + 1 then Err(NotClosestBlock) else Ok(())
  }

  ghost predicate Increasing(fetch: int -> Option<BlockInfo>, number: int) {
    && (forall k :: number - 1 <= k <= number + 1 ==> fetch(k).Some? && fetch(k).value.number == k)
    && fetch(number - 1).value.timestamp < fetch(number).value.timestamp < fetch(number + 1).value.timestamp
  }

  /**
   Node accepts a block exactly if its timestamp, in seconds, is at most the target, in milliseconds, compared
   as plain numbers. In particular the distance to the neighbours plays no part.
   */
  lemma {:induction false} NodeAcceptsIff(fetch: int -> Option<BlockInfo>, number: int, target: int)
    requires Increasing(fetch, number)
    ensures ValidateChosenBlock(fetch, number, target).Ok? <==> fetch(number).value.timestamp <= target
  {
    var blocks := [fetch(number - 1).value, fetch(number).value, fetch(number + 1).value];
    var k := ClosestIsEarliestMinimiser(blocks, target);
    assert Candidate(blocks, 1, target) <==> blocks[1].timestamp <= target;
    assert Candidate(blocks, 0, target);
  }

  /** In milliseconds, no neighbour of the chosen block is closer to the target than the chosen block or the next. */
  ghost predicate TrulyClosest(fetch: int -> Option<BlockInfo>, number: int, target: int)
    requires Increasing(fetch, number)
  {
    var far := Abs(fetch(number - 1).value.timestamp * 1000 - target);
    far > Abs(fetch(number).value.timestamp * 1000 - target) || far > Abs(fetch(number + 1).value.timestamp * 1000 - target)
  }

  /** Node accepts blocks that are not the closest: here the previous block is exactly at the target. */
  lemma {:induction false} NodeAcceptsDistantBlock() returns (fetch: int -> Option<BlockInfo>, number: int, target: int)
    ensures Increasing(fetch, number) && ValidateChosenBlock(fetch, number, target).Ok?
    ensures !TrulyClosest(fetch, number, target)
  {
    fetch := n => Some(BlockInfo(n, 1000 + 2 * n));
    number, target := 7, 1012 * 1000;
    assert fetch(6).value.timestamp == 1012;
    NodeAcceptsIff(fetch, number, target);
  }

  /** The closest block is the chosen one or the next exactly if the target is past the middle of the first gap. */
  lemma TrulyClosestIff(fetch: int -> Option<BlockInfo>, number: int, target: int)
    requires Increasing(fetch, number)
    ensures TrulyClosest(fetch, number, target) <==>
      2 * target > 1000 * (fetch(number - 1).value.timestamp + fetch(number).value.timestamp)
  {
  }

  // ----- Rust -----

  const TWO64: int := 0x1_0000_0000_0000_0000
  const TWO63: int := 0x8000_0000_0000_0000

  datatype RustBlock = RustBlock(number: Option<nat>, timestamp: nat)

  datatype RustError = BlockUnreadable | NotClosest | Panicked

  /** Multiplication of 64-bit words, wrapping around. */
  function MulU64(a: nat, b: nat): nat { (a * b) % TWO64 }

  /** Reading a 64-bit word as a signed number. */
  function AsI64(a: int): int {
    var m := a % TWO64; if m < TWO63 then m else m - TWO64
  }

  function RustDistance(block: RustBlock, target: nat): nat {
    Abs(AsI64(AsI64(MulU64(block.timestamp, 1000)) - AsI64(target)))
  }

  /** `None <= Some(_)`, as options are ordered in Rust. */
  predicate NotAfter(block: RustBlock, target: nat) {
    block.number.None? || block.number.value <= target
  }

  /** The first minimum among the blocks that pass the filter. */
  function RustClosest(blocks: seq<RustBlock>, target: nat): Option<RustBlock> {
    if blocks == [] then None
    else
      var rest := RustClosest(blocks[1..], target);
      if !NotAfter(blocks[0], target) then rest
      else if rest.Some? && RustDistance(rest.value, target) < RustDistance(blocks[0], target) then rest
      else Some(blocks[0])
  }

  function RustValidate(fetch: nat -> Option<RustBlock>, number: nat, target: nat): Result<(), RustError> {
    if number == 0 || number + 1 >= TWO64 then Err(Panicked)
    else if fetch(number - 1).None? || fetch(number).None? || fetch(number + 1).None? then Err(BlockUnreadable)
    else
      var closest := RustClosest([fetch(number - 1).value, fetch(number).value, fetch(number + 1).value], target);
      if closest.None? then Err(BlockUnreadable)
      else if closest.value.number.None? then Err(NotClosest)
      else if closest.value.number.value != number && closest.value.number.value != number + 1 then Err(NotClosest)
      else Ok(())
  }

  /** The words wrap around: the result is in range, and differs from the exact one by a multiple of 2^64. */
  lemma {:induction false} WordsWrapAround(a: nat, b: nat, c: int)
    ensures 0 <= MulU64(a, b) < TWO64 && (a * b - MulU64(a, b)) % TWO64 == 0
    ensures -TWO63 <= AsI64(c) < TWO63 && (c - AsI64(c)) % TWO64 == 0
  {
    MultipleRemains(a * b);
    MultipleRemains(c);
  }

  lemma MultipleRemains(a: int)
    ensures (a - a % TWO64) % TWO64 == 0 && (a - a % TWO64 + TWO64) % TWO64 == 0
  {
    var q := a / TWO64;
    assert a - a % TWO64 == q * TWO64 && a - a % TWO64 + TWO64 == (q + 1) * TWO64;
    MultipleIsZero(q);
    MultipleIsZero(q + 1);
  }

  lemma MultipleIsZero(q: int)
    ensures (q * TWO64) % TWO64 == 0
  {
  }

  /** How a check ends that does not accept. */
  lemma {:induction false} RustErrorIff(fetch: nat -> Option<RustBlock>, number: nat, target: nat)
    ensures RustValidate(fetch, number, target) == Err(Panicked) <==> number == 0 || number + 1 >= TWO64
    ensures 0 < number && number + 1 < TWO64 ==>
      (RustValidate(fetch, number, target) == Err(BlockUnreadable) <==>
         || (exists k :: number - 1 <= k <= number + 1 && fetch(k).None?)
         || (forall k :: number - 1 <= k <= number + 1 && fetch(k).Some? ==>
               fetch(k).value.number.Some? && fetch(k).value.number.value > target))
  {
    if 0 < number && number + 1 < TWO64 && !exists k :: number - 1 <= k <= number + 1 && fetch(k).None? {
      assert fetch(number - 1).Some? && fetch(number).Some? && fetch(number + 1).Some?;
      var blocks := [fetch(number - 1).value, fetch(number).value, fetch(number + 1).value];
      SomeCloseIff(blocks, target);
      assert forall k :: number - 1 <= k <= number + 1 ==> fetch(k).value == blocks[k - number + 1];
      assert blocks[0] == fetch(number - 1).value && blocks[1] == fetch(number).value;
      assert blocks[2] == fetch(number + 1).value;
    }
  }

  lemma {:induction false} SomeCloseIff(blocks: seq<RustBlock>, target: nat)
    ensures RustClosest(blocks, target).None? <==>
      forall i :: 0 <= i < |blocks| ==> blocks[i].number.Some? && blocks[i].number.value > target
  {
    if blocks != [] {
      SomeCloseIff(blocks[1..], target);
      assert forall i :: 0 < i < |blocks| ==> blocks[i] == blocks[1..][i - 1];
    }
  }

  /** The chain as Rust reads it. */
  function ToRust(fetch: int -> Option<BlockInfo>): nat -> Option<RustBlock> {
    n => match fetch(n)
         case None => None
         case Some(b) => if b.number >= 0 && b.timestamp >= 0 then Some(RustBlock(Some(b.number), b.timestamp)) else None
  }

  /** Timestamps for which the 64-bit arithmetic is exact. */
  ghost predicate Fits(fetch: int -> Option<BlockInfo>, number: nat, target: nat) {
    && target < TWO63 && 0 < number && number + 1 < TWO64
    && Increasing(fetch, number)
    && 0 <= fetch(number - 1).value.timestamp && fetch(number + 1).value.timestamp * 1000 < TWO63
  }

  lemma RustDistanceExact(block: RustBlock, target: nat)
    requires block.timestamp * 1000 < TWO63 && target < TWO63
    ensures RustDistance(block, target) == Abs(block.timestamp * 1000 - target)
  {
    hide AsI64;
    SmallWordsAreExact(block.timestamp * 1000);
    SmallWordsAreExact(target);
    SmallWordsAreExact(block.timestamp * 1000 - target);
  }

  lemma SmallWordsAreExact(a: int)
    requires -TWO63 <= a < TWO63
    ensures AsI64(a) == a
  {
    if a < 0 {
      assert (a + TWO64) / TWO64 == 0;
      assert a % TWO64 == a + TWO64;
    }
  }

  lemma RustClosestOfThree(a: RustBlock, b: RustBlock, c: RustBlock, target: nat)
    requires a.number.Some? && b.number == Some(a.number.value + 1) && c.number == Some(a.number.value + 2)
    ensures var closest, far := RustClosest([a, b, c], target), RustDistance(a, target);
      (closest.Some? && closest != Some(a)) <==>
        && b.number.value <= target
        && (far > RustDistance(b, target) || (c.number.value <= target && far > RustDistance(c, target)))
  {
    assert [a, b, c][1..] == [b, c] && [b, c][1..] == [c] && [c][1..] == [];
    assert RustClosest([c], target) == if NotAfter(c, target) then Some(c) else None;
  }

  /** Rust accepts exactly the truly closest blocks, provided the block number does not exceed the timestamp. */
  lemma {:induction false} RustAcceptsIff(fetch: int -> Option<BlockInfo>, number: nat, target: nat)
    requires Fits(fetch, number, target)
    ensures RustValidate(ToRust(fetch), number, target).Ok? <==>
      number <= target && TrulyClosest(fetch, number, target)
  {
    hide RustDistance, RustClosest;
    var rust := ToRust(fetch);
    var a, b, c := rust(number - 1).value, rust(number).value, rust(number + 1).value;
    RustDistanceExact(a, target);
    RustDistanceExact(b, target);
    RustDistanceExact(c, target);
    RustClosestOfThree(a, b, c, target);
    RustClosestIsOne([a, b, c], target);
    TrulyClosestIff(fetch, number, target);
  }

  lemma {:induction false} RustClosestIsOne(blocks: seq<RustBlock>, target: nat)
    ensures RustClosest(blocks, target).Some? ==> RustClosest(blocks, target).value in blocks
  {
    if blocks != [] {
      RustClosestIsOne(blocks[1..], target);
    }
  }

  /** Whatever Rust accepts, Node accepts. */
  lemma {:induction false} RustAcceptanceIsNodeAcceptance(fetch: int -> Option<BlockInfo>, number: nat, target: nat)
    requires Fits(fetch, number, target) && RustValidate(ToRust(fetch), number, target).Ok?
    ensures ValidateChosenBlock(fetch, number, target).Ok?
  {
    RustAcceptsIff(fetch, number, target);
    TrulyClosestIff(fetch, number, target);
    NodeAcceptsIff(fetch, number, target);
  }
}

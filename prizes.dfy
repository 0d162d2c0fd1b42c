/**
 * The prize table, the fireproof checkpoints and the time limit of a game,
 * and the payout rule for a game lost on a wrong answer or a timeout.
 */
module Prizes {

  /** The prize for each of the 15 question levels 0..14. */
  const PRIZES: seq<nat> := [100, 200, 300, 500, 1_000, 2_000, 4_000, 8_000, 16_000,
                              32_000, 64_000, 125_000, 250_000, 500_000, 1_000_000]

  /** The levels whose prize a player keeps after a loss, in increasing order. */
  const FIREPROOF_LEVELS: seq<int> := [4, 9, 14]

  /** The highest question level (the questions occupy levels 0 .. MAX_LEVEL). */
  const MAX_LEVEL: int := 14

  /** The time a game may last, in seconds (35 minutes). */
  const TIME_LIMIT: int := 35 * 60

  /** The largest prize; every prize a game records lies between 0 and this. */
  const TOP_PRIZE: nat := 1_000_000

  /** A payout a game may record: nothing, or one entry of the prize table. */
  predicate FromPrizeTable(amount: int) {
    amount == 0 || exists level :: 0 <= level < |PRIZES| && PRIZES[level] == amount
  }

  lemma PrizeTableShape()
    ensures |PRIZES| == MAX_LEVEL + 1 && PRIZES[MAX_LEVEL] == TOP_PRIZE
    ensures forall i, j :: 0 <= i < j < |PRIZES| ==> PRIZES[i] < PRIZES[j]
    ensures forall k :: 0 <= k < |FIREPROOF_LEVELS| ==> 0 <= FIREPROOF_LEVELS[k] <= MAX_LEVEL
    ensures forall i, j :: 0 <= i < j < |FIREPROOF_LEVELS| ==> FIREPROOF_LEVELS[i] < FIREPROOF_LEVELS[j]
  {
  }

  /** The elements of `xs` that are at most `bound`, in their order in `xs`. */
  function Select(xs: seq<int>, bound: int): (r: seq<int>)
    ensures forall x :: x in r <==> x in xs && x <= bound
    ensures |r| <= |xs|
  {
    if xs == [] then []
    else (if xs[0] <= bound then [xs[0]] else []) + Select(xs[1..], bound)
  }

  /** Selecting from an increasing list keeps it increasing: `Select` keeps the order of `xs`. */
  lemma {:induction false} SelectKeepsOrder(xs: seq<int>, bound: int)
    requires Increasing(xs)
    ensures Increasing(Select(xs, bound))
  {
    if xs != [] {
      assert Increasing(xs[1..]);
      SelectKeepsOrder(xs[1..], bound);
      var rest := Select(xs[1..], bound);
      var r := Select(xs, bound);
      assert r == (if xs[0] <= bound then [xs[0]] else []) + rest;
      forall i, j | 0 <= i < j < |r| ensures r[i] < r[j] {
        if xs[0] <= bound && i == 0 {
          assert r[j] in rest;
          var k :| 0 <= k < |xs[1..]| && xs[1..][k] == r[j];
          assert xs[k + 1] == r[j];
        }
      }
    }
  }

  /** The elements of `xs` strictly increase from first to last. */
  predicate Increasing(xs: seq<int>) {
    forall i, j :: 0 <= i < j < |xs| ==> xs[i] < xs[j]
  }

  /**
   * The payout of a game lost after the player cleared `answeredLevel`: the
   * prize of the last fireproof level that is at most `answeredLevel`, or 0
   * when there is none.
   */
  function FireProofPrize(answeredLevel: int): (r: nat)
    ensures FromPrizeTable(r)
  {
    var passed := Select(FIREPROOF_LEVELS, answeredLevel);
    if passed == [] then 0
    else
      var f := passed[|passed| - 1];
      assert f in passed;
      PRIZES[f]
  }

  /** The checkpoints selected at `l`, written out: each one that `l` has reached. */
  lemma SelectCheckpoints(l: int)
    ensures Select(FIREPROOF_LEVELS, l) ==
              (if 4 <= l then [4] else []) + (if 9 <= l then [9] else []) + (if 14 <= l then [14] else [])
  {
    var fp := FIREPROOF_LEVELS;
    assert fp[1..] == [9, 14] && fp[1..][1..] == [14] && fp[1..][1..][1..] == [];
    var from14 := Select([14], l);
    assert from14 == (if 14 <= l then [14] else []) + Select([], l);
    var from9 := Select([9, 14], l);
    assert from9 == (if 9 <= l then [9] else []) + from14;
    assert Select(fp, l) == (if 4 <= l then [4] else []) + from9;
  }

  /** The payout is the prize of the last checkpoint selected, or 0 when none is. */
  lemma PayoutOfSelection(l: int, passed: seq<int>)
    requires Select(FIREPROOF_LEVELS, l) == passed
    ensures passed == [] ==> FireProofPrize(l) == 0
    ensures passed != [] ==> 0 <= passed[|passed| - 1] < |PRIZES| &&
                             FireProofPrize(l) == PRIZES[passed[|passed| - 1]]
  {
    if passed != [] {
      assert passed[|passed| - 1] in passed;
    }
  }

  /** The payout of FireProofPrize, level band by level band. */
  lemma FireProofPrizeBands(l: int)
    ensures l < 4 ==> FireProofPrize(l) == 0
    ensures 4 <= l < 9 ==> FireProofPrize(l) == PRIZES[4] == 1_000
    ensures 9 <= l < 14 ==> FireProofPrize(l) == PRIZES[9] == 32_000
    ensures 14 <= l ==> FireProofPrize(l) == PRIZES[14] == 1_000_000
  {
    SelectCheckpoints(l);
    var passed := Select(FIREPROOF_LEVELS, l);
    PayoutOfSelection(l, passed);
    if l < 4 {
      assert passed == [];
    } else if l < 9 {
      assert passed == [4];
    } else if l < 14 {
      assert passed == [4, 9];
    } else {
      assert passed == [4, 9, 14];
    }
  }

  /** Below the first checkpoint nothing is kept. */
  lemma FireProofPrizeBelowFirstCheckpoint(l: int)
    requires l < FIREPROOF_LEVELS[0]
    ensures FireProofPrize(l) == 0
  {
    FireProofPrizeBands(l);
  }

  /** Otherwise the payout is the prize of the highest checkpoint reached. */
  lemma FireProofPrizeIsHighestCheckpoint(l: int, f: int)
    requires f in FIREPROOF_LEVELS && f <= l
    requires forall g :: g in FIREPROOF_LEVELS && g <= l ==> g <= f
    ensures FireProofPrize(l) == PRIZES[f]
  {
    FireProofPrizeBands(l);
    assert FIREPROOF_LEVELS[0] == 4 && FIREPROOF_LEVELS[1] == 9 && FIREPROOF_LEVELS[2] == 14;
    if l < 9 {
      assert f == 4;
    } else if l < 14 {
      assert 9 <= f by { assert 9 in FIREPROOF_LEVELS; }
      assert f == 9;
    } else {
      assert 14 <= f by { assert 14 in FIREPROOF_LEVELS; }
      assert f == 14;
    }
  }

  /** Clearing more levels never lowers the payout of a loss. */
  lemma FireProofPrizeMonotone(l1: int, l2: int)
    requires l1 <= l2
    ensures FireProofPrize(l1) <= FireProofPrize(l2)
  {
    FireProofPrizeBands(l1);
    FireProofPrizeBands(l2);
  }

  /** The payout of a loss is 0 or a prize-table value, so at most the top prize. */
  lemma FireProofPrizeInTable(l: int)
    ensures FromPrizeTable(FireProofPrize(l))
    ensures FireProofPrize(l) <= TOP_PRIZE
  {
    FireProofPrizeBands(l);
  }

  /** Every entry of the prize table is between 1 and the top prize. */
  lemma PrizeWithinBounds(i: int)
    requires 0 <= i < |PRIZES|
    ensures FromPrizeTable(PRIZES[i]) && 0 < PRIZES[i] <= TOP_PRIZE
  {
    PrizeTableShape();
  }
}

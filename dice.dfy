/**
 * Dice sets: rolling n three-sided dice with a per-die bonus. The random
 * source is a sequence of naturals; a die shows 1 + r mod 3 for the next
 * natural r, one of 1, 2 and 3 as `randint(1, 3)` does.
 */
module Dice {

  /** The face a die shows for the random draw r. */
  function Face(r: nat): (f: nat)
    ensures 1 <= f <= 3
  {
    1 + r % 3
  }

  /** The sum of the faces shown for the draws in `rs`. */
  function FaceSum(rs: seq<nat>): nat
  {
    if rs == [] then 0 else FaceSum(rs[..|rs| - 1]) + Face(rs[|rs| - 1])
  }

  /** Every die shows 1 to 3, so n dice sum to between n and 3n. */
  lemma {:induction false} FaceSumBounds(rs: seq<nat>)
    ensures |rs| <= FaceSum(rs) <= 3 * |rs|
  {
    if rs != [] {
      FaceSumBounds(rs[..|rs| - 1]);
    }
  }

  /** The total of a roll of `dice` dice, each showing its face plus `bonus`. */
  function RollTotal(dice: nat, bonus: int, draws: seq<nat>): (total: int)
    requires |draws| >= dice
    ensures bonus >= 0 ==> total >= dice
  {
    FaceSumBounds(draws[..dice]);
    FaceSum(draws[..dice]) + dice * bonus
  }

  /** A roll of n dice with bonus c lies between n(1 + c) and n(3 + c). */
  lemma RollTotalBounds(dice: nat, bonus: int, draws: seq<nat>)
    requires |draws| >= dice
    ensures dice * (1 + bonus) <= RollTotal(dice, bonus, draws) <= dice * (3 + bonus)
  {
    FaceSumBounds(draws[..dice]);
  }

  /**
   * BattleDiceSet.roll: add up one face and the bonus per die. A roll of n
   * dice with bonus c lies between n(1 + c) and n(3 + c).
   */
  method Roll(dice: nat, bonus: int, draws: seq<nat>) returns (total: int)
    requires |draws| >= dice
    ensures total == RollTotal(dice, bonus, draws)
    ensures dice * (1 + bonus) <= total <= dice * (3 + bonus)
  {
    total := 0;
    for i := 0 to dice
      invariant total == FaceSum(draws[..i]) + i * bonus
    {
      assert draws[..i + 1][..i] == draws[..i];
      total := total + Face(draws[i]);
      total := total + bonus;
    }
    FaceSumBounds(draws[..dice]);
  }
}

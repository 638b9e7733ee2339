/**
 * Worked battles that show two behaviours of the round machine: a round
 * that changes nothing, and a round whose yielded code differs from the
 * status of the state it leaves.
 */
module Scenarios {
  import opened Rules
  import opened Damage
  import opened Armies
  import opened Dice
  import opened Battles

  /** A lone knight in the open field rolls one die and shrugs off a hit of 1. */
  lemma LoneKnight()
    ensures var lone := ArmyState(0, 1, NoStructure, NoneOrLady);
      && lone.Dice(lone.AttackerPenalty()) == 1
      && lone.Damaged(1, MenAtArmsFirst) == lone
      && !lone.IsDefeated() && lone.Points() == 3
  {
  }

  /** One die with a draw of 0 shows a 1. */
  lemma SingleOne(bonus: nat)
    ensures RollTotal(1, bonus, [0]) == 1 + bonus
  {
    assert [0][..1] == [0];
    assert [0][..0] == [];
  }

  /**
   * A round can change nothing: two lone knights in the open roll one die
   * each; with draws showing 1 the hits are 1, or 2 for B under cavalcade,
   * which no knight absorbs whatever the strategies, and the battle goes on
   * as it was. The round machine therefore need not terminate.
   */
  lemma StalledRound(x: BattleState)
    requires x.a == ArmyState(0, 1, NoStructure, NoneOrLady) && x.b == x.a
    ensures x.DiceA() == 1 && x.DiceB() == 1
    ensures x.Advanced(RollTotal(1, 0, [0]), RollTotal(1, x.BonusB(), [0])) == x
    ensures AfterRound(x) == Ongoing(3, 3)
  {
    hide Damage.KnightsFirst, Damage.MenAtArmsFirst, RollTotal, FaceSum;
    LoneKnight();
    SingleOne(0);
    SingleOne(x.BonusB());
    GlancingBlow(Allocation(1 + x.BonusB(), 1, 0));
    GlancingBlow(Allocation(1, 1, 0));
  }

  /** One man-at-arms in a fortified city rolls one die against the field; thirteen in the field roll one against the city. */
  lemma GatesDice(a: ArmyState, b: ArmyState)
    requires a.menAtArms == 1 && a.knights == 0 && a.structure == FortifiedCity && a.leader == NoneOrLady
    requires b.menAtArms == 13 && b.knights == 0 && b.structure == NoStructure && b.leader == NoneOrLady
    ensures a.Dice(b.AttackerPenalty()) == 1
    ensures b.Dice(a.AttackerPenalty()) == 1
  {
  }

  /** The garrison of one falls to a hit of 1 and leaves the city standing. */
  lemma GarrisonFalls(a: ArmyState, strategy: DamageStrategy)
    requires a.menAtArms == 1 && a.knights == 0
    ensures a.Damaged(1, strategy).IsDefeated()
    ensures a.Damaged(1, strategy).structure == a.structure
  {
    MenOnlyLosses(a, 1, strategy);
  }

  /** Thirteen men-at-arms hit for 1 are twelve, of strength 12. */
  lemma HostThinned(b: ArmyState, strategy: DamageStrategy)
    requires b.menAtArms == 13 && b.knights == 0 && b.leader == NoneOrLady
    ensures b.Damaged(1, strategy).Strength() == 12
    ensures b.Damaged(1, strategy).leader == NoneOrLady
  {
    MenOnlyLosses(b, 1, strategy);
  }

  /** After one round with a hit of 1 each way, A has fallen and B, still standing, has no dice against the city. */
  lemma GatesRound(x: BattleState)
    requires x.a.menAtArms == 1 && x.a.knights == 0 && x.a.structure == FortifiedCity && x.a.leader == NoneOrLady
    requires x.b.menAtArms == 13 && x.b.knights == 0 && x.b.structure == NoStructure && x.b.leader == NoneOrLady
    ensures x.Advanced(1, 1).a.IsDefeated() && !x.Advanced(1, 1).b.IsDefeated()
    ensures x.Advanced(1, 1).DiceA() == 0 && x.Advanced(1, 1).DiceB() == 0
  {
    var y := x.Advanced(1, 1);
    GarrisonFalls(x.a, x.aStrategy);
    HostThinned(x.b, x.bStrategy);
    FortifiedDice(y.b);
    DefeatedRollsNothing(y.a, y.b.AttackerPenalty());
  }

  /**
   * The code the round machine yields can differ from the status of the
   * state it leaves: A (one man-at-arms in a fortified city) is wiped out
   * while B (thirteen men-at-arms in the field) drops to twelve and so to
   * no dice against the city. The round yields -1; battle_status of the
   * new state says 0.
   */
  lemma YieldDiffersFromStatus(x: BattleState)
    requires x.a.menAtArms == 1 && x.a.knights == 0 && x.a.structure == FortifiedCity && x.a.leader == NoneOrLady
    requires x.b.menAtArms == 13 && x.b.knights == 0 && x.b.structure == NoStructure && x.b.leader == NoneOrLady
    ensures x.DiceA() == 1 && x.DiceB() == 1
    ensures BattleStatus(x).Ongoing?
    ensures AfterRound(x.Advanced(1, 1)) == Resolved(-1)
    ensures BattleStatus(x.Advanced(1, 1)) == Resolved(0)
  {
    GatesDice(x.a, x.b);
    GatesRound(x);
  }
}

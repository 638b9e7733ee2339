/**
 * The browser port of the army. Its counts, points, dice and penalty rules
 * are the ones of `ArmyState`, and its two allocators are the same loops;
 * it differs in applyDamage, which has no consistency check between the
 * allocators and sends every strategy value other than KNIGHTS_FIRST to the
 * men-at-arms-first allocator instead of refusing it.
 */
module Simulator {
  import opened Rules
  import opened Damage
  import opened Armies

  /** The allocator applyDamage picks for a strategy value: knights first for 1, men-at-arms first for any other value. */
  function StrategyOf(value: int): (s: DamageStrategy)
    ensures s == DamageStrategy.KnightsFirst <==> value == DamageStrategy.KnightsFirst.Value()
    ensures s == MenAtArmsFirst <==> value != DamageStrategy.KnightsFirst.Value()
  {
    if value == DamageStrategy.KnightsFirst.Value() then DamageStrategy.KnightsFirst else MenAtArmsFirst
  }

  /**
   * On the two values a strategy can have, the port damages an army exactly
   * as the Python army does; on every other value it damages it as
   * men-at-arms first, where the Python army refuses the call.
   */
  lemma PortAgrees(a: ArmyState, damage: nat, value: int)
    ensures forall s: DamageStrategy :: value == s.Value() ==> a.Damaged(damage, StrategyOf(value)) == a.Damaged(damage, s)
    ensures value != 0 && value != 1 ==> a.Damaged(damage, StrategyOf(value)) == a.Damaged(damage, MenAtArmsFirst)
  {
  }

  /** An army of the browser port; applyDamage changes its counts in place. */
  class Army {
    var menAtArms: nat
    var knights: nat
    var structure: DefensiveStructure
    var leader: ArmyLeader

    constructor (menAtArms: nat, knights: nat, structure: DefensiveStructure, leader: ArmyLeader)
      ensures Value() == ArmyState(menAtArms, knights, structure, leader)
    {
      this.menAtArms := menAtArms;
      this.knights := knights;
      this.structure := structure;
      this.leader := leader;
    }

    function Value(): ArmyState
      reads this
    {
      ArmyState(menAtArms, knights, structure, leader)
    }

    /** copy: a new army with the same fields, so changing one leaves the other as it was. */
    method Copy() returns (c: Army)
      ensures fresh(c) && c.Value() == Value()
    {
      c := new Army(menAtArms, knights, structure, leader);
    }

    /** isDefeated: no unit left, which for counts that are never negative means no army points. */
    function IsDefeated(): (r: bool)
      reads this
      ensures r <==> Value().Points() == 0
      ensures r <==> Value().IsDefeated()
    {
      knights + menAtArms <= 0
    }

    /**
     * applyDamage: run both allocators, then commit the knights-first
     * counts for KNIGHTS_FIRST and the men-at-arms-first counts for any
     * other value, and return that allocator's leftover.
     */
    method ApplyDamage(damage: nat, strategy: int) returns (r: nat)
      modifies this
      ensures Value() == old(Value()).Damaged(damage, StrategyOf(strategy))
      ensures r == old(Value()).Allocated(damage, StrategyOf(strategy)).damage
      ensures r == Unabsorbed(Allocation(damage, old(knights), old(menAtArms)))
    {
      var dk, kk, mk := ComputeDamageKnightsFirst(damage, knights, menAtArms);
      var dm, km, mm := ComputeDamageMaaFirst(damage, knights, menAtArms);
      KnightsFirstLeftover(Allocation(damage, knights, menAtArms));
      MenAtArmsFirstLeftover(Allocation(damage, knights, menAtArms));
      if strategy == DamageStrategy.KnightsFirst.Value() {
        knights, menAtArms := kk, mk;
        r := dk;
      } else {
        knights, menAtArms := km, mm;
        r := dm;
      }
    }
  }
}

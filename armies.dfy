/**
 * An army: its unit counts, the fortification it defends from and its
 * leader; the combat strength and dice it is worth; and the mutable Army
 * object that takes damage in place.
 */
module Armies {
  import opened Rules
  import opened Damage

  /** The fields of an army, compared field by field as the dataclass does. */
  datatype ArmyState = ArmyState(
    menAtArms: nat,
    knights: nat,
    structure: DefensiveStructure,
    leader: ArmyLeader)
  {
    /** Raw combat strength: a knight is worth 3, a man-at-arms 1. */
    function Points(): nat
    {
      knights * 3 + menAtArms
    }

    /** Army points plus one for a lord, a titled lady or d'Arc. */
    function Strength(): (s: nat)
      ensures Points() <= s <= Points() + 1
    {
      var bonus :=
        if leader == LordOrTitledLady then 1
        else if leader == Darc then 1
        else 0;
      Points() + bonus
    }

    /** is_defeated: no unit left. */
    predicate IsDefeated()
      ensures IsDefeated() <==> Points() == 0
    {
      knights + menAtArms <= 0
    }

    /**
     * The number of dice this army rolls when its roll is penalised by
     * `penalty`: none without army points; otherwise one, two or three by
     * strength, plus the penalty, plus one for d'Arc, never below zero.
     */
    function Dice(penalty: int): (r: nat)
      ensures Points() == 0 ==> r == 0
    {
      if Points() == 0 then 0
      else
        var s := Strength();
        var tier := if s >= 1 && s <= 6 then 1 else if s <= 12 then 2 else if s >= 13 then 3 else 0;
        var d := tier + penalty + (if leader == Darc then 1 else 0);
        if d < 0 then 0 else d
    }

    /** The dice penalty this army's fortification imposes on an attacker. */
    function AttackerPenalty(): (p: int)
      ensures -2 <= p <= 0
      ensures p == -2 <==> structure == FortifiedCity
      ensures p == -1 <==> structure == Stronghold
    {
      if structure == FortifiedCity then -2
      else if structure == Stronghold then -1
      else 0
    }

    /** The counts as the allocator for `strategy` leaves them after `damage`. */
    function Allocated(damage: nat, strategy: DamageStrategy): Allocation
    {
      var x := Allocation(damage, knights, menAtArms);
      match strategy
      case KnightsFirst => Damage.KnightsFirst(x)
      case MenAtArmsFirst => Damage.MenAtArmsFirst(x)
    }

    /** This army after taking `damage` with `strategy`. */
    function Damaged(damage: nat, strategy: DamageStrategy): ArmyState
    {
      var y := Allocated(damage, strategy);
      this.(knights := y.knights, menAtArms := y.menAtArms)
    }
  }

  /**
   * The dice rule of the documented duplicate of the army code: the tier is
   * tested without a lower bound on strength and floored with max.
   */
  function DocumentedDice(a: ArmyState, penalty: int): nat
  {
    if a.Points() == 0 then 0
    else
      var s := a.Strength();
      var d := if s <= 6 then 1 else if s <= 12 then 2 else 3;
      var d := d + penalty + (if a.leader == Darc then 1 else 0);
      if d < 0 then 0 else d
  }

  /** The two written forms of the dice rule agree on every army and penalty. */
  lemma DiceFormsAgree(a: ArmyState, penalty: int)
    ensures DocumentedDice(a, penalty) == a.Dice(penalty)
  {
  }

  /** Army points vanish exactly with the last unit, and count each unit at least once and at most three times. */
  lemma PointsCount(a: ArmyState)
    ensures a.Points() == 0 <==> a.knights == 0 && a.menAtArms == 0
    ensures a.knights + a.menAtArms <= a.Points() <= 3 * (a.knights + a.menAtArms)
  {
  }

  /** strength_points adds one exactly for a lord, a titled lady or d'Arc. */
  lemma StrengthBonus(a: ArmyState)
    ensures a.Strength() == a.Points() + 1 <==> a.leader == LordOrTitledLady || a.leader == Darc
    ensures a.Strength() == a.Points() <==> a.leader == NoneOrLady
  {
  }

  /**
   * With a penalty coming from a fortification, an army rolls between zero
   * and four dice, so the dice-set table (keys 0 to 4) always has its set.
   */
  lemma DiceInRange(a: ArmyState, defender: ArmyState)
    ensures 0 <= a.Dice(defender.AttackerPenalty()) <= 4
    ensures a.Points() > 0 && defender.structure == NoStructure ==> a.Dice(defender.AttackerPenalty()) >= 1
  {
  }

  /**
   * Which armies still roll against a fortification: against a stronghold
   * one of strength 7 or more, or any led by d'Arc; against a fortified
   * city one of strength 13 or more, or one of strength 7 or more led by
   * d'Arc.
   */
  lemma FortifiedDice(a: ArmyState)
    ensures a.Dice(-1) > 0 <==> a.Points() > 0 && (a.Strength() >= 7 || a.leader == Darc)
    ensures a.Dice(-2) > 0 <==> a.Points() > 0 && (a.Strength() >= 13 || (a.Strength() >= 7 && a.leader == Darc))
  {
  }

  /** A defeated army has no army points, hence no dice. */
  lemma DefeatedRollsNothing(a: ArmyState, penalty: int)
    ensures a.IsDefeated() <==> a.Points() == 0
    ensures a.IsDefeated() ==> a.Dice(penalty) == 0
  {
  }

  /**
   * Damage never raises a count, every point spent removed a unit of that
   * worth, and only structure and leader are kept as they were.
   */
  lemma DamagedLoses(a: ArmyState, damage: nat, strategy: DamageStrategy)
    ensures var b := a.Damaged(damage, strategy);
      && b.knights <= a.knights && b.menAtArms <= a.menAtArms
      && b.structure == a.structure && b.leader == a.leader
      && a.Points() - b.Points() == damage - a.Allocated(damage, strategy).damage
  {
    AllocatorsSettle(Allocation(damage, a.knights, a.menAtArms));
  }

  /** Damage to a standing army that has units always removes at least one unit. */
  lemma DamageBites(a: ArmyState, damage: nat, strategy: DamageStrategy)
    requires damage >= 3 || (damage >= 1 && a.menAtArms > 0)
    requires a.knights + a.menAtArms > 0
    ensures a.Damaged(damage, strategy).Points() < a.Points()
  {
    AllocatorsSettle(Allocation(damage, a.knights, a.menAtArms));
  }

  /** An army without knights loses one man-at-arms per point of damage, down to none, whatever its strategy. */
  lemma MenOnlyLosses(a: ArmyState, damage: nat, strategy: DamageStrategy)
    requires a.knights == 0
    ensures a.Damaged(damage, strategy).menAtArms == if damage <= a.menAtArms then a.menAtArms - damage else 0
    ensures a.Damaged(damage, strategy).knights == 0
    ensures a.Damaged(damage, strategy).structure == a.structure && a.Damaged(damage, strategy).leader == a.leader
  {
    AllocatorsSettle(Allocation(damage, a.knights, a.menAtArms));
  }

  /** A strategy argument: a member of DamageStrategy or any other value. */
  datatype StrategyArg = Given(strategy: DamageStrategy) | NotAStrategy

  datatype Result<T, E> = Success(value: T) | Failure(error: E)

  /** An army object whose unit counts are changed in place by damage. */
  class Army {
    var menAtArms: nat
    var knights: nat
    var structure: DefensiveStructure
    var leader: ArmyLeader

    constructor (state: ArmyState)
      ensures Value() == state
    {
      menAtArms := state.menAtArms;
      knights := state.knights;
      structure := state.structure;
      leader := state.leader;
    }

    function Value(): ArmyState
      reads this
    {
      ArmyState(menAtArms, knights, structure, leader)
    }

    /**
     * apply_damage: run both allocators, stop if their leftovers differ,
     * then commit the counts of the chosen strategy and return the leftover.
     */
    method ApplyDamage(damage: nat, strategy: StrategyArg) returns (r: Result<nat, string>)
      modifies this
      ensures strategy.NotAStrategy? ==> r == Failure("Unknown strategy") && Value() == old(Value())
      ensures strategy.Given? ==>
        && r == Success(old(Value()).Allocated(damage, strategy.strategy).damage)
        && Value() == old(Value()).Damaged(damage, strategy.strategy)
    {
      var dk, kk, mk := ComputeDamageKnightsFirst(damage, knights, menAtArms);
      var dm, km, mm := ComputeDamageMaaFirst(damage, knights, menAtArms);
      LeftoverAgrees(Allocation(damage, knights, menAtArms));
      if dk != dm {
        // The "illegal strategy" exception: the allocators always agree.
        assert false;
      }
      if strategy == Given(KnightsFirst) {
        knights, menAtArms := kk, mk;
        r := Success(dk);
      } else if strategy == Given(MenAtArmsFirst) {
        knights, menAtArms := km, mm;
        r := Success(dm);
      } else {
        r := Failure("Unknown strategy");
      }
    }
  }
}

/**
 * The two damage allocators an army uses to turn incoming damage into
 * losses: a knight absorbs 3 points of damage, a man-at-arms 1.
 *
 * Each allocator is a loop over local counters. Its specification is a
 * composition of "charges", each the closed form of one greedy phase.
 */
module Damage {

  /** Damage still to spend, and the knights and men-at-arms still standing. */
  datatype Allocation = Allocation(damage: nat, knights: nat, menAtArms: nat)

  function Min(a: int, b: int): int
  {
    if a <= b then a else b
  }

  function Max(a: int, b: int): int
  {
    if a <= b then b else a
  }

  /** How many times 3 fits in `d`: the most knights `d` damage can take. */
  function Thirds(d: nat): (q: nat)
    ensures 3 * q <= d < 3 * q + 3
  {
    if d < 3 then 0 else 1 + Thirds(d - 3)
  }

  /** Spend 3 damage per knight while at least 3 damage and a knight remain. */
  function ChargeKnights(x: Allocation): Allocation
  {
    var lost := if x.knights <= Thirds(x.damage) then x.knights else Thirds(x.damage);
    Allocation(x.damage - 3 * lost, x.knights - lost, x.menAtArms)
  }

  /** Spend 1 damage per man-at-arms while damage and men-at-arms remain. */
  function ChargeMen(x: Allocation): Allocation
  {
    var lost := Min(x.menAtArms, x.damage);
    Allocation(x.damage - lost, x.knights, x.menAtArms - lost)
  }

  /** Spend 1 damage per man-at-arms while more than two of them remain. */
  function ThinRanks(x: Allocation): Allocation
  {
    var lost := if x.menAtArms > 2 then Min(x.damage, x.menAtArms - 2) else 0;
    Allocation(x.damage - lost, x.knights, x.menAtArms - lost)
  }

  /**
   * What the men-at-arms-first allocator has done once its men-at-arms loop
   * ends: men go one by one down to two; with two or fewer left, a hit of 3
   * or more takes a knight instead; then the last men fall.
   */
  function MenPhase(x: Allocation): Allocation
  {
    if x.menAtArms == 0 then x else ChargeMen(ChargeKnights(ThinRanks(x)))
  }

  /** Specification of the knights-first allocator. */
  function KnightsFirst(x: Allocation): Allocation
  {
    ChargeMen(ChargeKnights(x))
  }

  /** Specification of the men-at-arms-first allocator. */
  function MenAtArmsFirst(x: Allocation): Allocation
  {
    ChargeKnights(MenPhase(x))
  }

  /** The damage neither allocator can use: knights take multiples of 3 first, then men take the rest. */
  function Unabsorbed(x: Allocation): nat
  {
    Max(0, x.damage - 3 * Min(x.knights, Thirds(x.damage)) - x.menAtArms)
  }

  /**
   * `after` is a legal outcome of allocating `before.damage`: every point
   * spent removed a unit of that worth, and no count grew.
   */
  ghost predicate Absorbs(before: Allocation, after: Allocation)
  {
    && after.knights <= before.knights
    && after.menAtArms <= before.menAtArms
    && before.damage - after.damage
       == 3 * (before.knights - after.knights) + (before.menAtArms - after.menAtArms)
  }

  /** An allocation that stopped only because it could spend nothing more. */
  ghost predicate Settled(y: Allocation)
  {
    && (y.damage > 0 ==> y.menAtArms == 0)
    && (y.damage >= 3 ==> y.knights == 0)
  }

  lemma ChargeKnightsStep(x: Allocation)
    requires x.damage >= 3 && x.knights > 0
    ensures ChargeKnights(x) == ChargeKnights(Allocation(x.damage - 3, x.knights - 1, x.menAtArms))
  {
    assert Thirds(x.damage - 3) == Thirds(x.damage) - 1;
  }

  /**
   * compute_damage_knights_first: knights absorb 3 damage each while they
   * can, then men-at-arms absorb 1 each.
   */
  method ComputeDamageKnightsFirst(damage: nat, knights: nat, menAtArms: nat)
    returns (d: nat, k: nat, m: nat)
    ensures Allocation(d, k, m) == KnightsFirst(Allocation(damage, knights, menAtArms))
  {
    d, k, m := damage, knights, menAtArms;
    while d >= 3 && k > 0
      invariant m == menAtArms
      invariant ChargeKnights(Allocation(d, k, m)) == ChargeKnights(Allocation(damage, knights, menAtArms))
      decreases k
    {
      ChargeKnightsStep(Allocation(d, k, m));
      k := k - 1;
      d := d - 3;
    }
    ghost var charged := Allocation(d, k, m);
    while d >= 1 && m > 0
      invariant ChargeMen(Allocation(d, k, m)) == ChargeMen(charged)
      decreases m
    {
      m := m - 1;
      d := d - 1;
    }
  }

  /** With two or fewer men-at-arms left, a hit of 3 or more on a knight keeps MenPhase fixed. */
  lemma MenPhaseKnightStep(x: Allocation)
    requires x.damage >= 3 && 0 < x.menAtArms <= 2 && x.knights > 0
    ensures MenPhase(x) == MenPhase(Allocation(x.damage - 3, x.knights - 1, x.menAtArms))
  {
    ChargeKnightsStep(x);
  }

  /** Above two men-at-arms, one man falling keeps MenPhase fixed. */
  lemma MenPhaseThinStep(x: Allocation)
    requires x.damage >= 1 && x.menAtArms > 2
    ensures MenPhase(x) == MenPhase(Allocation(x.damage - 1, x.knights, x.menAtArms - 1))
  {
    var y := Allocation(x.damage - 1, x.knights, x.menAtArms - 1);
    assert ThinRanks(x) == ThinRanks(y);
  }

  /** With two or fewer men-at-arms and no knight to take a big hit, one man falling keeps MenPhase fixed. */
  lemma MenPhaseLastStep(x: Allocation)
    requires x.damage >= 1 && 0 < x.menAtArms <= 2
    requires x.damage < 3 || x.knights == 0
    ensures MenPhase(x) == MenPhase(Allocation(x.damage - 1, x.knights, x.menAtArms - 1))
  {
    assert ChargeKnights(x) == x;
    assert ChargeKnights(Allocation(x.damage - 1, x.knights, x.menAtArms - 1))
      == Allocation(x.damage - 1, x.knights, x.menAtArms - 1);
  }

  /** An allocation with no damage or no men-at-arms left has finished its men-at-arms phase. */
  lemma MenPhaseDone(x: Allocation)
    requires x.damage == 0 || x.menAtArms == 0
    ensures MenPhase(x) == x
  {
  }

  /** An allocation with less than 3 damage or no knights left has finished charging knights. */
  lemma ChargeKnightsDone(x: Allocation)
    requires x.damage < 3 || x.knights == 0
    ensures ChargeKnights(x) == x
  {
  }

  /**
   * compute_damage_maa_first: men-at-arms absorb 1 damage each, except that
   * with two or fewer left a hit of 3 or more takes a knight; afterwards
   * knights absorb 3 damage each.
   */
  method ComputeDamageMaaFirst(damage: nat, knights: nat, menAtArms: nat)
    returns (d: nat, k: nat, m: nat)
    ensures Allocation(d, k, m) == MenAtArmsFirst(Allocation(damage, knights, menAtArms))
  {
    d, k, m := damage, knights, menAtArms;
    hide MenPhase, ChargeKnights, Thirds;
    while d >= 1 && m > 0
      invariant MenPhase(Allocation(d, k, m)) == MenPhase(Allocation(damage, knights, menAtArms))
      decreases d
    {
      if d >= 3 && m <= 2 && k > 0 {
        MenPhaseKnightStep(Allocation(d, k, m));
        k := k - 1;
        d := d - 3;
      } else {
        if m > 2 {
          MenPhaseThinStep(Allocation(d, k, m));
        } else {
          MenPhaseLastStep(Allocation(d, k, m));
        }
        m := m - 1;
        d := d - 1;
      }
    }
    ghost var phased := Allocation(d, k, m);
    MenPhaseDone(phased);
    while d >= 3 && k > 0
      invariant m == phased.menAtArms
      invariant ChargeKnights(Allocation(d, k, m)) == ChargeKnights(phased)
      decreases k
    {
      ChargeKnightsStep(Allocation(d, k, m));
      k := k - 1;
      d := d - 3;
    }
    ChargeKnightsDone(Allocation(d, k, m));
  }

  /** The knights-first allocator leaves exactly the unabsorbable damage. */
  lemma KnightsFirstLeftover(x: Allocation)
    ensures KnightsFirst(x).damage == Unabsorbed(x)
  {
  }

  /** With two or fewer men-at-arms the men-at-arms-first allocator leaves the unabsorbable damage. */
  lemma FewMenLeftover(x: Allocation)
    requires x.menAtArms <= 2
    ensures MenAtArmsFirst(x).damage == Unabsorbed(x)
  {
    if x.menAtArms > 0 {
      var y := ChargeKnights(x);
      assert MenPhase(x) == ChargeMen(y);
      assert y.damage >= 3 ==> y.knights == 0;
    }
  }

  /**
   * Thinning the ranks down to two men-at-arms changes neither what the
   * men-at-arms-first allocator does nor the damage that is unabsorbable.
   */
  lemma ThinnedAlike(x: Allocation)
    requires x.menAtArms >= 3 && x.damage > x.menAtArms - 2
    ensures MenAtArmsFirst(x) == MenAtArmsFirst(ThinRanks(x))
    ensures Unabsorbed(x) == Unabsorbed(ThinRanks(x))
  {
    var d, k, m := x.damage, x.knights, x.menAtArms;
    var t := ThinRanks(x);
    assert t == Allocation(d - m + 2, k, 2);
    assert MenPhase(t) == MenPhase(x);
    var q := Thirds(d - m + 2);
    if k <= q {
      assert Thirds(d) >= k;
    } else {
      assert d - m - 3 * q <= 0;
      assert d - m - 3 * Min(k, Thirds(d)) <= 0;
    }
  }

  /** So does the men-at-arms-first allocator. */
  lemma MenAtArmsFirstLeftover(x: Allocation)
    ensures MenAtArmsFirst(x).damage == Unabsorbed(x)
  {
    if x.menAtArms <= 2 {
      FewMenLeftover(x);
    } else if x.damage > x.menAtArms - 2 {
      ThinnedAlike(x);
      FewMenLeftover(ThinRanks(x));
    } else {
      assert MenPhase(x) == Allocation(0, x.knights, x.menAtArms - x.damage);
    }
  }

  /**
   * The two allocators always agree on the damage left over, so the
   * consistency check in apply_damage never fires.
   */
  lemma LeftoverAgrees(x: Allocation)
    ensures KnightsFirst(x).damage == MenAtArmsFirst(x).damage
  {
    KnightsFirstLeftover(x);
    MenAtArmsFirstLeftover(x);
  }

  /**
   * Both allocators spend damage only on units of the same worth, never
   * raise a count, and stop only when nothing more can be spent: leftover
   * damage means no men-at-arms remain, and 3 or more means no units at all.
   */
  lemma AllocatorsSettle(x: Allocation)
    ensures Absorbs(x, KnightsFirst(x)) && Settled(KnightsFirst(x))
    ensures Absorbs(x, MenAtArmsFirst(x)) && Settled(MenAtArmsFirst(x))
  {
    assert MenAtArmsFirst(x) == ChargeKnights(MenPhase(x));
    hide KnightsFirst, MenAtArmsFirst;
    KnightsFirstSettles(x);
    MenPhaseSettles(x);
    var p := MenPhase(x);
    ChargeKnightsAbsorbs(p);
  }

  /** The knights-first allocator spends damage only on whole units and stops only when it can spend nothing. */
  lemma KnightsFirstSettles(x: Allocation)
    ensures Absorbs(x, KnightsFirst(x)) && Settled(KnightsFirst(x))
  {
  }

  /** The men-at-arms phase spends damage unit by unit and ends only with no damage or no men-at-arms. */
  lemma MenPhaseSettles(x: Allocation)
    ensures Absorbs(x, MenPhase(x))
    ensures MenPhase(x).damage > 0 ==> MenPhase(x).menAtArms == 0
  {
    if x.menAtArms > 0 {
      var t := ThinRanks(x);
      var y := ChargeKnights(t);
      assert Absorbs(x, t);
      assert Absorbs(t, y);
    }
  }

  /** Charging knights spends 3 per knight and stops below 3 damage or without knights. */
  lemma ChargeKnightsAbsorbs(x: Allocation)
    ensures Absorbs(x, ChargeKnights(x))
    ensures ChargeKnights(x).menAtArms == x.menAtArms
    ensures ChargeKnights(x).damage >= 3 ==> ChargeKnights(x).knights == 0
    ensures ChargeKnights(x).damage <= x.damage
  {
  }

  /** A hit of less than 3 on an army of knights alone takes nothing. */
  lemma GlancingBlow(x: Allocation)
    requires x.menAtArms == 0 && x.damage < 3
    ensures KnightsFirst(x) == x && MenAtArmsFirst(x) == x
  {
  }
}

/**
 * A battle between armies A and B: its status, and the round machine that
 * rolls both sides' dice and damages both armies in place.
 *
 * Outcome codes: 0 when both sides are out (mutual destruction), -1 when
 * only A is out ("success"), +1 when only B is out ("failure").
 */
module Battles {
  import opened Rules
  import opened Damage
  import opened Armies
  import opened Dice

  /** The fields of a battle, compared field by field as the dataclass does. */
  datatype BattleState = BattleState(
    a: ArmyState,
    b: ArmyState,
    aStrategy: DamageStrategy,
    bStrategy: DamageStrategy,
    cavalcade: bool)
  {
    /** A's dice, penalised by B's fortification. */
    function DiceA(): nat
    {
      a.Dice(b.AttackerPenalty())
    }

    /** B's dice, penalised by A's fortification. */
    function DiceB(): nat
    {
      b.Dice(a.AttackerPenalty())
    }

    /** The per-die bonus on B's roll: one under cavalcade. */
    function BonusB(): nat
    {
      if cavalcade then 1 else 0
    }

    /** Both armies within the limits the encoding accepts. */
    predicate Legal()
    {
      && a.menAtArms <= MAX_MEN_AT_ARMS && a.knights <= MAX_KNIGHTS
      && b.menAtArms <= MAX_MEN_AT_ARMS && b.knights <= MAX_KNIGHTS
    }

    /** A state this battle can reach: the same battle with no count higher. */
    predicate Below(y: BattleState)
    {
      && a.knights <= y.a.knights && a.menAtArms <= y.a.menAtArms
      && b.knights <= y.b.knights && b.menAtArms <= y.b.menAtArms
      && a.structure == y.a.structure && a.leader == y.a.leader
      && b.structure == y.b.structure && b.leader == y.b.leader
      && aStrategy == y.aStrategy && bStrategy == y.bStrategy && cavalcade == y.cavalcade
    }

    /** A takes B's roll with its strategy, B takes A's roll with its own. */
    function Advanced(rollA: nat, rollB: nat): BattleState
    {
      this.(a := a.Damaged(rollB, aStrategy), b := b.Damaged(rollA, bStrategy))
    }
  }

  datatype Status = Resolved(code: int) | Ongoing(aPoints: nat, bPoints: nat)

  /** The code for a battle in which A is out, B is out, or both are. */
  function Verdict(aOut: bool, bOut: bool): int
  {
    if aOut && bOut then 0 else if aOut then -1 else 1
  }

  /**
   * battle_status: resolved when either side has no dice, by the code of
   * which side has none; the defeat test after it never decides, since a
   * defeated army has no dice; otherwise ongoing with both army points.
   */
  function BattleStatus(x: BattleState): (s: Status)
    ensures s.Resolved? <==> x.DiceA() == 0 || x.DiceB() == 0
    ensures s == Resolved(0) <==> x.DiceA() == 0 && x.DiceB() == 0
    ensures s == Resolved(-1) <==> x.DiceA() == 0 && x.DiceB() != 0
    ensures s == Resolved(1) <==> x.DiceA() != 0 && x.DiceB() == 0
    ensures s.Ongoing? ==> s.aPoints > 0 && s.bPoints > 0
  {
    var dcA := x.DiceA();
    var dcB := x.DiceB();
    if dcA == 0 || dcB == 0 then
      Resolved(Verdict(dcA == 0, dcB == 0))
    else if x.a.IsDefeated() || x.b.IsDefeated() then
      Resolved(Verdict(x.a.IsDefeated(), x.b.IsDefeated()))
    else
      Ongoing(x.a.Points(), x.b.Points())
  }

  /** What the round machine yields after both armies took their damage. */
  function AfterRound(y: BattleState): (s: Status)
    ensures s.Resolved? <==> y.a.IsDefeated() || y.b.IsDefeated()
    ensures s.Resolved? ==> s.code == Verdict(y.a.IsDefeated(), y.b.IsDefeated())
  {
    if y.a.IsDefeated() || y.b.IsDefeated() then
      Resolved(Verdict(y.a.IsDefeated(), y.b.IsDefeated()))
    else
      Ongoing(y.a.Points(), y.b.Points())
  }

  /** A round never raises a count and keeps every other field. */
  lemma AdvancedBelow(x: BattleState, rollA: nat, rollB: nat)
    ensures x.Advanced(rollA, rollB).Below(x)
  {
    DamagedLoses(x.a, rollB, x.aStrategy);
    DamagedLoses(x.b, rollA, x.bStrategy);
  }

  /** Reachability is a partial order. */
  lemma BelowOrder(x: BattleState, y: BattleState, z: BattleState)
    ensures x.Below(x)
    ensures x.Below(y) && y.Below(z) ==> x.Below(z)
    ensures x.Below(y) && y.Below(x) ==> x == y
    ensures x.Below(y) && y.Legal() ==> x.Legal()
  {
  }

  /** What playing a battle leaves: the status returned, if any, the final battle and the unused tape. */
  datatype Outcome = Outcome(result: Option<Status>, final: BattleState, rest: seq<nat>)

  /**
   * Battle.resolve on values: a battle in which a side has no dice returns
   * its status; otherwise, when the tape holds both sides' dice, one round
   * is played on them and its yield is returned if it resolves the battle,
   * or play goes on from the battle it leaves.
   */
  function Played(x: BattleState, tape: seq<nat>): Outcome
    decreases |tape|
  {
    if x.DiceA() == 0 || x.DiceB() == 0 then Outcome(Some(BattleStatus(x)), x, tape)
    else if |tape| < x.DiceA() + x.DiceB() then Outcome(None, x, tape)
    else
      var y := RoundOn(x, tape);
      if AfterRound(y).Resolved? then Outcome(Some(AfterRound(y)), y, tape[x.DiceA() + x.DiceB()..])
      else Played(y, tape[x.DiceA() + x.DiceB()..])
  }

  /** The battle one round leaves when A's dice take the first draws of `tape` and B's the next. */
  function RoundOn(x: BattleState, tape: seq<nat>): BattleState
    requires |tape| >= x.DiceA() + x.DiceB()
  {
    x.Advanced(RollTotal(x.DiceA(), 0, tape[..x.DiceA()]),
      RollTotal(x.DiceB(), x.BonusB(), tape[x.DiceA()..x.DiceA() + x.DiceB()]))
  }

  /** A round drawn from a tape leaves a battle reachable from the one it started from. */
  lemma RoundOnBelow(x: BattleState, tape: seq<nat>)
    requires |tape| >= x.DiceA() + x.DiceB()
    ensures RoundOn(x, tape).Below(x)
  {
    hide RollTotal, ArmyState.Dice, BattleState.Below, ArmyState.Damaged;
    AdvancedBelow(x, RollTotal(x.DiceA(), 0, tape[..x.DiceA()]),
      RollTotal(x.DiceB(), x.BonusB(), tape[x.DiceA()..x.DiceA() + x.DiceB()]));
  }

  /** One step of Played, for proofs that keep its definition out of sight. */
  lemma PlayedStep(x: BattleState, tape: seq<nat>)
    ensures x.DiceA() == 0 || x.DiceB() == 0 ==> Played(x, tape) == Outcome(Some(BattleStatus(x)), x, tape)
    ensures x.DiceA() > 0 && x.DiceB() > 0 && |tape| < x.DiceA() + x.DiceB() ==> Played(x, tape) == Outcome(None, x, tape)
    ensures x.DiceA() > 0 && x.DiceB() > 0 && |tape| >= x.DiceA() + x.DiceB() ==>
      var y := RoundOn(x, tape);
      var rest := tape[x.DiceA() + x.DiceB()..];
      && (AfterRound(y).Resolved? ==> Played(x, tape) == Outcome(Some(AfterRound(y)), y, rest))
      && (!AfterRound(y).Resolved? ==> Played(x, tape) == Played(y, rest))
  {
    hide BattleStatus, AfterRound, RoundOn, ArmyState.Dice;
  }

  /**
   * Playing resolves a dice-less battle at once and unchanged; a status it
   * returns is a resolved one, the final battle's status or its after-round
   * verdict; it stops without one only when the tape is too short for the
   * next round; the final battle is one the first reaches, and what is left
   * of the tape is a suffix of it.
   */
  lemma {:induction false} PlayedFacts(x: BattleState, tape: seq<nat>)
    decreases |tape|
    ensures var o := Played(x, tape);
      && (x.DiceA() == 0 || x.DiceB() == 0 ==> o == Outcome(Some(BattleStatus(x)), x, tape))
      && (o.result.Some? ==> o.result.value.Resolved?)
      && (o.result.Some? ==> o.result.value == BattleStatus(o.final) || o.result.value == AfterRound(o.final))
      && (o.result.None? ==> o.final.DiceA() > 0 && o.final.DiceB() > 0
                             && |o.rest| < o.final.DiceA() + o.final.DiceB())
      && o.final.Below(x)
      && |o.rest| <= |tape| && o.rest == tape[|tape| - |o.rest|..]
  {
    PlayedStep(x, tape);
    BelowOrder(x, x, x);
    hide Played, RoundOn, BattleStatus, AfterRound, BattleState.Below, BattleState.Advanced, ArmyState.Dice;
    if x.DiceA() > 0 && x.DiceB() > 0 && |tape| >= x.DiceA() + x.DiceB() {
      var n := x.DiceA() + x.DiceB();
      var y := RoundOn(x, tape);
      RoundOnBelow(x, tape);
      if !AfterRound(y).Resolved? {
        PlayedFacts(y, tape[n..]);
        var o := Played(y, tape[n..]);
        BelowOrder(o.final, y, x);
        assert tape[n..][|tape[n..]| - |o.rest|..] == tape[|tape| - |o.rest|..];
      }
    }
  }

  /**
   * `code` is an outcome `x` can end in within `fuel` rounds: its status
   * says so already, or it is ongoing and some pair of rolls its dice can
   * show leaves a battle that can.
   */
  ghost predicate CanEnd(x: BattleState, code: int, fuel: nat)
    decreases fuel
  {
    || BattleStatus(x) == Resolved(code)
    || (&& fuel > 0 && BattleStatus(x).Ongoing?
        && exists rA: nat, rB: nat ::
             && x.DiceA() <= rA <= 3 * x.DiceA()
             && x.DiceB() * (1 + x.BonusB()) <= rB <= x.DiceB() * (3 + x.BonusB())
             && CanEnd(x.Advanced(rA, rB), code, fuel - 1))
  }

  /** `code` is an outcome `x` can end in. */
  ghost predicate Reachable(x: BattleState, code: int)
  {
    exists fuel: nat :: CanEnd(x, code, fuel)
  }

  /** A resolved battle can end in its status. */
  lemma ResolvedReachable(x: BattleState)
    requires BattleStatus(x).Resolved?
    ensures Reachable(x, BattleStatus(x).code)
  {
    assert CanEnd(x, BattleStatus(x).code, 0);
  }

  /** An ongoing battle can end in whatever a battle one round of rolls away can end in. */
  lemma RoundReachable(x: BattleState, rA: nat, rB: nat, code: int)
    requires BattleStatus(x).Ongoing?
    requires x.DiceA() <= rA <= 3 * x.DiceA()
    requires x.DiceB() * (1 + x.BonusB()) <= rB <= x.DiceB() * (3 + x.BonusB())
    requires Reachable(x.Advanced(rA, rB), code)
    ensures Reachable(x, code)
  {
    var fuel: nat :| CanEnd(x.Advanced(rA, rB), code, fuel);
    assert CanEnd(x, code, fuel + 1);
  }

  /** An ongoing battle can end in whatever the round drawn from a tape leaves can end in. */
  lemma RoundOnReachable(x: BattleState, tape: seq<nat>, code: int)
    requires BattleStatus(x).Ongoing? && |tape| >= x.DiceA() + x.DiceB()
    requires Reachable(RoundOn(x, tape), code)
    ensures Reachable(x, code)
  {
    hide BattleStatus, RollTotal, Reachable, ArmyState.Dice, BattleState.Advanced;
    var rA := RollTotal(x.DiceA(), 0, tape[..x.DiceA()]);
    var rB := RollTotal(x.DiceB(), x.BonusB(), tape[x.DiceA()..x.DiceA() + x.DiceB()]);
    RollTotalBounds(x.DiceA(), 0, tape[..x.DiceA()]);
    RollTotalBounds(x.DiceB(), x.BonusB(), tape[x.DiceA()..x.DiceA() + x.DiceB()]);
    assert x.DiceA() * (1 + 0) == x.DiceA() && x.DiceA() * (3 + 0) == 3 * x.DiceA();
    RoundReachable(x, rA, rB, code);
  }

  /** Every outcome a battle can end in is one of the three codes. */
  lemma {:induction false} ReachableCodes(x: BattleState, code: int, fuel: nat)
    requires CanEnd(x, code, fuel)
    ensures -1 <= code <= 1
    decreases fuel
  {
    hide BattleStatus, ArmyState.Dice, BattleState.Advanced;
    if BattleStatus(x) != Resolved(code) {
      var rA: nat, rB: nat :|
        && x.DiceA() <= rA <= 3 * x.DiceA()
        && x.DiceB() * (1 + x.BonusB()) <= rB <= x.DiceB() * (3 + x.BonusB())
        && CanEnd(x.Advanced(rA, rB), code, fuel - 1);
      ReachableCodes(x.Advanced(rA, rB), code, fuel - 1);
    }
  }

  /** A battle object: two army objects, the two strategies and cavalcade. */
  class Battle {
    var a: Army
    var b: Army
    var aStrategy: DamageStrategy
    var bStrategy: DamageStrategy
    var cavalcade: bool

    /** The two sides are distinct objects. */
    ghost predicate Valid()
      reads this
    {
      a != b
    }

    function Value(): BattleState
      reads this, a, b
    {
      BattleState(a.Value(), b.Value(), aStrategy, bStrategy, cavalcade)
    }

    constructor (x: BattleState)
      ensures Valid() && Value() == x && fresh(a) && fresh(b)
    {
      a := new Army(x.a);
      b := new Army(x.b);
      aStrategy := x.aStrategy;
      bStrategy := x.bStrategy;
      cavalcade := x.cavalcade;
    }

    /** A deep copy: new army objects with the same fields. */
    method Copy() returns (c: Battle)
      ensures fresh(c) && fresh(c.a) && fresh(c.b)
      ensures c.Valid() && c.Value() == Value()
    {
      c := new Battle(Value());
    }

    /**
     * One pass of battle_iterator's loop. With no dice on either side it
     * yields the resolved code and changes nothing. Otherwise A rolls its
     * dice from `drawsA` and B its dice, plus one per die under cavalcade,
     * from `drawsB`; A takes B's roll and B takes A's roll, each by its own
     * strategy; then a defeated side resolves the battle.
     */
    method Round(drawsA: seq<nat>, drawsB: seq<nat>) returns (s: Status)
      requires Valid()
      requires Value().DiceA() > 0 && Value().DiceB() > 0 ==>
        |drawsA| >= Value().DiceA() && |drawsB| >= Value().DiceB()
      modifies a, b
      ensures var x := old(Value());
        if x.DiceA() == 0 || x.DiceB() == 0 then
          Value() == x && s == BattleStatus(x)
        else
          && Value() == x.Advanced(RollTotal(x.DiceA(), 0, drawsA), RollTotal(x.DiceB(), x.BonusB(), drawsB))
          && s == AfterRound(Value())
    {
      var dcA := a.Value().Dice(b.Value().AttackerPenalty());
      var dcB := b.Value().Dice(a.Value().AttackerPenalty());
      if dcA == 0 || dcB == 0 {
        s := Resolved(Verdict(dcA == 0, dcB == 0));
        return;
      }
      var dA := Roll(dcA, 0, drawsA);
      var dB := Roll(dcB, if cavalcade then 1 else 0, drawsB);
      var _ := a.ApplyDamage(dB, Given(aStrategy));
      var _ := b.ApplyDamage(dA, Given(bStrategy));
      var aOut := a.Value().IsDefeated();
      var bOut := b.Value().IsDefeated();
      if aOut || bOut {
        s := Resolved(Verdict(aOut, bOut));
      } else {
        s := Ongoing(a.Value().Points(), b.Value().Points());
      }
    }

    /**
     * Battle.resolve: run rounds until one yields a resolved code, drawing
     * the dice from `tape`; None when the tape runs out first. A battle in
     * which a side already has no dice resolves at once, drawing nothing.
     */
    method Play(tape: seq<nat>) returns (result: Option<Status>, rest: seq<nat>)
      requires Valid()
      modifies a, b
      ensures Valid()
      ensures Outcome(result, Value(), rest) == Played(old(Value()), tape)
    {
      hide BattleStatus, AfterRound, RollTotal, Damage.KnightsFirst, Damage.MenAtArmsFirst, Played;
      rest := tape;
      while true
        invariant Valid()
        invariant Played(Value(), rest) == Played(old(Value()), tape)
        decreases |rest|
      {
        var x := Value();
        PlayedStep(x, rest);
        if x.DiceA() == 0 || x.DiceB() == 0 {
          var s := Round([], []);
          return Some(s), rest;
        }
        var n := x.DiceA() + x.DiceB();
        if |rest| < n {
          return None, rest;
        }
        var s := Round(rest[..x.DiceA()], rest[x.DiceA()..n]);
        assert Value() == RoundOn(x, rest);
        rest := rest[n..];
        if s.Resolved? {
          return Some(s), rest;
        }
      }
    }
  }

  datatype Option<T> = None | Some(value: T)
}

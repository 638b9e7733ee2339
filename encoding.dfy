/**
 * The integer encodings of armies and battles: fields packed side by side
 * with shifts and bitwise OR, each field taking the width computed for it.
 *
 * An army's leader field is one bit wide, but d'Arc's value needs two, so
 * its high bit lands on the next field of the battle encoding: the bit of
 * A's (or B's) damage strategy. `BattleHashCollisions` states exactly which
 * battles then share a code; `CorrectedBattleHash` gives armies the width
 * d'Arc needs and is injective.
 */
module Encoding {
  import opened Bits
  import opened Rules
  import opened Armies
  import opened Battles

  /** Why an army cannot be encoded. */
  datatype HashError = TooManyMenAtArms | TooManyKnights
  {
    function Message(): string
    {
      match this
      case TooManyMenAtArms => "Too many men-at-arms"
      case TooManyKnights => "Too many knights"
    }
  }

  /** An army's fields from bit 0 upwards: men-at-arms, knights, structure, leader. */
  function ArmyLayout(a: ArmyState): Layout
  {
    Field(a.menAtArms, BIN_SIZE_MEN_AT_ARMS,
    Field(a.knights, BIN_SIZE_KNIGHTS,
    Field(a.structure.Value(), BIN_SIZE_DEFENSIVE_STRUCTURE,
    Field(a.leader.Value(), BIN_SIZE_ARMY_LEADER, End))))
  }

  /**
   * Army.hash: the army's fields packed from bit 0; an army over either
   * limit is refused, men-at-arms tested first.
   */
  function ArmyHash(a: ArmyState): (r: Result<nat, HashError>)
    ensures r.Failure? <==> a.menAtArms > MAX_MEN_AT_ARMS || a.knights > MAX_KNIGHTS
    ensures r == Failure(TooManyMenAtArms) <==> a.menAtArms > MAX_MEN_AT_ARMS
  {
    if a.menAtArms > MAX_MEN_AT_ARMS then Failure(TooManyMenAtArms)
    else if a.knights > MAX_KNIGHTS then Failure(TooManyKnights)
    else Success(Pack(ArmyLayout(a), 0, 0))
  }

  /** The powers of two the encodings use. */
  lemma Powers()
    ensures Pow2(0) == 1 && Pow2(4) == 16 && Pow2(8) == 256 && Pow2(10) == 1024
    ensures Pow2(11) == 2048 && Pow2(12) == 4096 && Pow2(13) == 8192
    ensures Pow2(23) == 8388608 && Pow2(24) == 16777216
    ensures Pow2(25) == 33554432 && Pow2(26) == 67108864
  {
    assert Pow2(4) == 16;
    assert Pow2(8) == 16 * Pow2(4);
    assert Pow2(10) == 4 * Pow2(8);
    assert Pow2(13) == 8 * Pow2(10);
    assert Pow2(23) == 1024 * Pow2(13);
    assert Pow2(26) == 8 * Pow2(23);
  }

  /** Distinct enumeration members have distinct values. */
  lemma ValuesDistinct(s: DefensiveStructure, t: DefensiveStructure, l: ArmyLeader, m: ArmyLeader,
                       p: DamageStrategy, q: DamageStrategy)
    ensures s.Value() == t.Value() ==> s == t
    ensures l.Value() == m.Value() ==> l == m
    ensures p.Value() == q.Value() ==> p == q
    ensures s.Value() <= 2 && l.Value() <= 2 && p.Value() <= 1
  {
  }

  /** An army's fields as digits: men-at-arms, then knights from 16, structure from 256, leader from 1024. */
  function ArmyCode(a: ArmyState): nat
  {
    a.menAtArms + 16 * a.knights + 256 * a.structure.Value() + 1024 * a.leader.Value()
  }

  /** An army's fields read as its digits. */
  lemma ArmyDigits(a: ArmyState)
    ensures Digits(ArmyLayout(a)) == ArmyCode(a)
  {
    BinSizes();
    var f4 := Field(a.leader.Value(), BIN_SIZE_ARMY_LEADER, End);
    var f3 := Field(a.structure.Value(), BIN_SIZE_DEFENSIVE_STRUCTURE, f4);
    var f2 := Field(a.knights, BIN_SIZE_KNIGHTS, f3);
    DigitsField(a.leader.Value(), 1, End, 2);
    DigitsField(a.structure.Value(), 2, f4, 4);
    DigitsField(a.knights, 4, f3, 16);
    DigitsField(a.menAtArms, 4, f2, 16);
  }

  /** A legal army's fields, all but the leader, fit their widths. */
  lemma ArmyFits(a: ArmyState)
    requires a.menAtArms <= MAX_MEN_AT_ARMS && a.knights <= MAX_KNIGHTS
    ensures Fits(ArmyLayout(a))
  {
    BinSizes();
    ValuesDistinct(a.structure, a.structure, a.leader, a.leader, KnightsFirst, KnightsFirst);
    var f4 := Field(a.leader.Value(), BIN_SIZE_ARMY_LEADER, End);
    var f3 := Field(a.structure.Value(), BIN_SIZE_DEFENSIVE_STRUCTURE, f4);
    var f2 := Field(a.knights, BIN_SIZE_KNIGHTS, f3);
    DigitsField(a.structure.Value(), 2, f4, 4);
    DigitsField(a.knights, 4, f3, 16);
    DigitsField(a.menAtArms, 4, f2, 16);
  }

  /** A legal army's code, field by field: 4 bits, 4 bits, 2 bits, then the leader. */
  lemma ArmyHashValue(a: ArmyState)
    requires a.menAtArms <= MAX_MEN_AT_ARMS && a.knights <= MAX_KNIGHTS
    ensures ArmyHash(a) == Success(ArmyCode(a))
  {
    hide Pack, Digits, Fits;
    ArmyDigits(a);
    ArmyFits(a);
    PackDigits(ArmyLayout(a), 0, 0, 1);
  }

  /** The digits of legal armies tell them apart. */
  lemma ArmyCodeInjective(a: ArmyState, b: ArmyState)
    requires a.menAtArms <= MAX_MEN_AT_ARMS && a.knights <= MAX_KNIGHTS
    requires b.menAtArms <= MAX_MEN_AT_ARMS && b.knights <= MAX_KNIGHTS
    ensures ArmyCode(a) == ArmyCode(b) <==> a == b
    ensures ArmyCode(a) < 4096
  {
    ValuesDistinct(a.structure, a.structure, a.leader, a.leader, KnightsFirst, KnightsFirst);
    if ArmyCode(a) == ArmyCode(b) {
      ValuesDistinct(a.structure, b.structure, a.leader, b.leader, KnightsFirst, KnightsFirst);
      var sa, la := a.structure.Value(), a.leader.Value();
      var sb, lb := b.structure.Value(), b.leader.Value();
      SplitUnique(a.menAtArms, a.knights + 16 * (sa + 4 * la), b.menAtArms, b.knights + 16 * (sb + 4 * lb), 16);
      SplitUnique(a.knights, sa + 4 * la, b.knights, sb + 4 * lb, 16);
      SplitUnique(sa, la, sb, lb, 4);
    }
  }

  /** Distinct legal armies have distinct codes. */
  lemma ArmyHashInjective(a: ArmyState, b: ArmyState)
    requires a.menAtArms <= MAX_MEN_AT_ARMS && a.knights <= MAX_KNIGHTS
    requires b.menAtArms <= MAX_MEN_AT_ARMS && b.knights <= MAX_KNIGHTS
    ensures ArmyHash(a) == ArmyHash(b) <==> a == b
  {
    hide ArmyHash;
    ArmyHashValue(a);
    ArmyHashValue(b);
    ArmyCodeInjective(a, b);
  }

  /** An army width with room for every leader's value. */
  const CORRECTED_ARMY_WIDTH: nat := 12

  /** The corrected width is the army width with a leader field as wide as d'Arc's value needs. */
  lemma CorrectedWidth()
    ensures CORRECTED_ARMY_WIDTH
      == BIN_SIZE_MEN_AT_ARMS + BIN_SIZE_KNIGHTS + BIN_SIZE_DEFENSIVE_STRUCTURE + BitLength(Darc.Value())
    ensures CORRECTED_ARMY_WIDTH == BIN_SIZE_ARMY + 1
  {
    BinSizes();
    assert BitLength(2) == 1 + BitLength(1) == 2;
  }

  /**
   * A legal army's code fits the army width BIN_SIZE_ARMY exactly when its
   * leader is not d'Arc, and always fits the corrected width.
   */
  lemma ArmyHashFits(a: ArmyState)
    requires a.menAtArms <= MAX_MEN_AT_ARMS && a.knights <= MAX_KNIGHTS
    ensures ArmyHash(a).value < Pow2(BIN_SIZE_ARMY) <==> a.leader != Darc
    ensures ArmyHash(a).value < Pow2(CORRECTED_ARMY_WIDTH)
  {
    hide ArmyHash;
    ArmyHashValue(a);
    BinSizes();
    CorrectedWidth();
    Powers();
  }

  /** A battle's fields from bit 0 upwards, each army `width` bits wide. */
  function BattleLayout(ha: nat, sa: nat, hb: nat, sb: nat, c: nat, width: nat): Layout
  {
    Field(ha, width,
    Field(sa, BIN_SIZE_DAMAGE_STRATEGY,
    Field(hb, width,
    Field(sb, BIN_SIZE_DAMAGE_STRATEGY,
    Field(c, 1, End)))))
  }

  /**
   * Battle.hash with armies `width` bits wide: A's code, A's strategy, B's
   * code, B's strategy and the cavalcade flag, from bit 0 upwards. A battle
   * with an illegal army is refused, A's fault reported first.
   */
  function PackBattle(x: BattleState, width: nat): (r: Result<nat, HashError>)
    ensures r.Failure? <==> !x.Legal()
    ensures ArmyHash(x.a).Failure? ==> r == Failure(ArmyHash(x.a).error)
  {
    match ArmyHash(x.a)
    case Failure(e) => Failure(e)
    case Success(ha) =>
      match ArmyHash(x.b)
      case Failure(e) => Failure(e)
      case Success(hb) =>
        var c := if x.cavalcade then 1 else 0;
        Success(Pack(BattleLayout(ha, x.aStrategy.Value(), hb, x.bStrategy.Value(), c, width), 0, 0))
  }

  /** A legal battle packs both army codes. */
  lemma PackBattleValue(x: BattleState, width: nat)
    requires x.Legal()
    ensures PackBattle(x, width) == Success(Pack(BattleLayout(ArmyCode(x.a), x.aStrategy.Value(),
      ArmyCode(x.b), x.bStrategy.Value(), if x.cavalcade then 1 else 0, width), 0, 0))
  {
    hide Pack;
    ArmyHashValue(x.a);
    ArmyHashValue(x.b);
  }

  /** Battle.hash as written: each army gets BIN_SIZE_ARMY bits. */
  function BattleHash(x: BattleState): (r: Result<nat, HashError>)
    ensures r.Failure? <==> !x.Legal()
  {
    PackBattle(x, BIN_SIZE_ARMY)
  }

  /** Battle.hash with armies wide enough for every leader. */
  function CorrectedBattleHash(x: BattleState): (r: Result<nat, HashError>)
    ensures r.Failure? <==> !x.Legal()
  {
    PackBattle(x, CORRECTED_ARMY_WIDTH)
  }

  // The bits of a battle code as written, seen through the overlap.

  /** An army's code without d'Arc's overflowing bit. */
  function LowWord(a: ArmyState): nat
  {
    a.menAtArms + 16 * a.knights + 256 * a.structure.Value() + (if a.leader == LordOrTitledLady then 1024 else 0)
  }

  /** The bit d'Arc's value sets above an army's 11 bits. */
  function DarcBit(a: ArmyState): nat
  {
    if a.leader == Darc then 1 else 0
  }

  /** Bit 11 of an army's slot: d'Arc's high bit OR'd with the strategy. */
  function StrategyBit(a: ArmyState, s: DamageStrategy): nat
  {
    if a.leader == Darc || s == KnightsFirst then 1 else 0
  }

  /** The strategy bit is the OR of d'Arc's high bit and the strategy's value. */
  lemma StrategyBitIs(a: ArmyState, s: DamageStrategy)
    ensures StrategyBit(a, s) == if DarcBit(a) == 1 || s.Value() == 1 then 1 else 0
    ensures s.Value() <= 1
  {
  }

  /** What the as-written battle code retains of a battle. */
  datatype Seen = Seen(lowA: nat, bitA: nat, lowB: nat, bitB: nat, cavalcade: bool)

  function SeenOf(x: BattleState): Seen
  {
    Seen(LowWord(x.a), StrategyBit(x.a, x.aStrategy), LowWord(x.b), StrategyBit(x.b, x.bStrategy), x.cavalcade)
  }

  /** A legal army's code is its low word plus d'Arc's bit at bit 11. */
  lemma LowWordSplit(a: ArmyState)
    ensures ArmyCode(a) == LowWord(a) + 2048 * DarcBit(a)
    ensures a.menAtArms <= MAX_MEN_AT_ARMS && a.knights <= MAX_KNIGHTS ==> LowWord(a) < 2048
  {
  }

  /** Pack with 11-bit army slots, each army code split at bit 11. */
  lemma PackOverlapping(ha: nat, la: nat, da: nat, sa: nat, hb: nat, lb: nat, db: nat, sb: nat, c: nat)
    requires ha == la + 2048 * da && hb == lb + 2048 * db
    requires la < 2048 && lb < 2048 && da <= 1 && db <= 1 && sa <= 1 && sb <= 1 && c <= 1
    ensures Pack(BattleLayout(ha, sa, hb, sb, c, BIN_SIZE_ARMY), 0, 0)
      == la + 2048 * (if da == 1 || sa == 1 then 1 else 0)
       + 4096 * lb + 8388608 * (if db == 1 || sb == 1 then 1 else 0) + 16777216 * c
  {
    BinSizes();
    Powers();
    var f5 := Field(c, 1, End);
    var f4 := Field(sb, BIN_SIZE_DAMAGE_STRATEGY, f5);
    var f3 := Field(hb, BIN_SIZE_ARMY, f4);
    var f2 := Field(sa, BIN_SIZE_DAMAGE_STRATEGY, f3);
    PackAbove(ha, BIN_SIZE_ARMY, f2, 0, 0, 1, ha, 11);
    // A's strategy meets d'Arc's high bit at bit 11.
    var h1 := la + 2048 * (if da == 1 || sa == 1 then 1 else 0);
    PackOverlap(sa, BIN_SIZE_DAMAGE_STRATEGY, f3, ha, 11, 2048, la, da, h1, 12);
    // B's code from bit 12.
    var h2 := h1 + 4096 * hb;
    PackAbove(hb, BIN_SIZE_ARMY, f4, h1, 12, 4096, h2, 23);
    // B's strategy meets B's d'Arc bit at bit 23.
    var lo := h1 + 4096 * lb;
    var h3 := lo + 8388608 * (if db == 1 || sb == 1 then 1 else 0);
    PackOverlap(sb, BIN_SIZE_DAMAGE_STRATEGY, f5, h2, 23, 8388608, lo, db, h3, 24);
    // The cavalcade flag at bit 24.
    PackAbove(c, 1, End, h3, 24, 16777216, h3 + 16777216 * c, 25);
  }

  /** The number the as-written code makes of what it retains. */
  function SeenCode(p: Seen): nat
  {
    p.lowA + 2048 * p.bitA + 4096 * p.lowB + 8388608 * p.bitB + 16777216 * (if p.cavalcade then 1 else 0)
  }

  /** Each retained field has a digit of its own. */
  lemma SeenCodeInjective(p: Seen, q: Seen)
    requires p.lowA < 2048 && p.lowB < 2048 && p.bitA <= 1 && p.bitB <= 1
    requires q.lowA < 2048 && q.lowB < 2048 && q.bitA <= 1 && q.bitB <= 1
    ensures SeenCode(p) == SeenCode(q) <==> p == q
  {
    if SeenCode(p) == SeenCode(q) {
      var cp := if p.cavalcade then 1 else 0;
      var cq := if q.cavalcade then 1 else 0;
      SplitUnique(p.lowA, p.bitA + 2 * (p.lowB + 2048 * (p.bitB + 2 * cp)),
                  q.lowA, q.bitA + 2 * (q.lowB + 2048 * (q.bitB + 2 * cq)), 2048);
      SplitUnique(p.bitA, p.lowB + 2048 * (p.bitB + 2 * cp), q.bitA, q.lowB + 2048 * (q.bitB + 2 * cq), 2);
      SplitUnique(p.lowB, p.bitB + 2 * cp, q.lowB, q.bitB + 2 * cq, 2048);
      SplitUnique(p.bitB, cp, q.bitB, cq, 2);
    }
  }

  /**
   * The as-written battle code: A's low word, then bit 11 holding A's
   * strategy OR'd with d'Arc's high bit, then B likewise from bit 12, then
   * the cavalcade flag at bit 24.
   */
  lemma BattleHashValue(x: BattleState)
    requires x.Legal()
    ensures BattleHash(x) == Success(
      LowWord(x.a) + 2048 * StrategyBit(x.a, x.aStrategy)
      + 4096 * LowWord(x.b) + 8388608 * StrategyBit(x.b, x.bStrategy)
      + 16777216 * (if x.cavalcade then 1 else 0))
  {
    hide PackBattle, ArmyHash, Pack;
    PackBattleValue(x, BIN_SIZE_ARMY);
    LowWordSplit(x.a);
    LowWordSplit(x.b);
    StrategyBitIs(x.a, x.aStrategy);
    StrategyBitIs(x.b, x.bStrategy);
    PackOverlapping(ArmyCode(x.a), LowWord(x.a), DarcBit(x.a), x.aStrategy.Value(),
      ArmyCode(x.b), LowWord(x.b), DarcBit(x.b), x.bStrategy.Value(), if x.cavalcade then 1 else 0);
  }

  /** The number made of what a battle's as-written code retains. */
  lemma SeenValue(x: BattleState)
    ensures SeenCode(SeenOf(x)) == LowWord(x.a) + 2048 * StrategyBit(x.a, x.aStrategy)
      + 4096 * LowWord(x.b) + 8388608 * StrategyBit(x.b, x.bStrategy)
      + 16777216 * (if x.cavalcade then 1 else 0)
  {
  }

  /** The as-written code of a legal battle is the number made of what it retains. */
  lemma BattleHashSeen(x: BattleState)
    requires x.Legal()
    ensures BattleHash(x) == Success(SeenCode(SeenOf(x)))
  {
    hide *;
    BattleHashValue(x);
    SeenValue(x);
  }

  /** Two legal battles share an as-written code exactly when they agree on what it retains. */
  lemma BattleHashCollisions(x: BattleState, y: BattleState)
    requires x.Legal() && y.Legal()
    ensures BattleHash(x) == BattleHash(y) <==> SeenOf(x) == SeenOf(y)
  {
    hide BattleHash;
    BattleHashSeen(x);
    BattleHashSeen(y);
    LowWordSplit(x.a);
    LowWordSplit(x.b);
    LowWordSplit(y.a);
    LowWordSplit(y.b);
    SeenCodeInjective(SeenOf(x), SeenOf(y));
  }

  /** The low word keeps every army field except which of d'Arc and no leader it was. */
  lemma LowWordKeeps(a: ArmyState, b: ArmyState)
    requires a.menAtArms <= MAX_MEN_AT_ARMS && a.knights <= MAX_KNIGHTS
    requires b.menAtArms <= MAX_MEN_AT_ARMS && b.knights <= MAX_KNIGHTS
    ensures LowWord(a) == LowWord(b) <==>
      && a.menAtArms == b.menAtArms && a.knights == b.knights && a.structure == b.structure
      && (a.leader == LordOrTitledLady <==> b.leader == LordOrTitledLady)
  {
    ValuesDistinct(a.structure, b.structure, a.leader, b.leader, KnightsFirst, KnightsFirst);
    if LowWord(a) == LowWord(b) {
      var sa, sb := a.structure.Value(), b.structure.Value();
      var la := if a.leader == LordOrTitledLady then 1 else 0;
      var lb := if b.leader == LordOrTitledLady then 1 else 0;
      SplitUnique(a.menAtArms, a.knights + 16 * (sa + 4 * la), b.menAtArms, b.knights + 16 * (sb + 4 * lb), 16);
      SplitUnique(a.knights, sa + 4 * la, b.knights, sb + 4 * lb, 16);
      SplitUnique(sa, la, sb, lb, 4);
    }
  }

  /** Without d'Arc on either side the as-written code tells battles apart. */
  lemma BattleHashInjectiveWithoutDarc(x: BattleState, y: BattleState)
    requires x.Legal() && y.Legal()
    requires x.a.leader != Darc && x.b.leader != Darc && y.a.leader != Darc && y.b.leader != Darc
    ensures BattleHash(x) == BattleHash(y) <==> x == y
  {
    hide BattleHash;
    BattleHashCollisions(x, y);
    LowWordKeeps(x.a, y.a);
    LowWordKeeps(x.b, y.b);
  }

  /** With every strategy men-at-arms first the as-written code also tells battles apart. */
  lemma BattleHashInjectiveMenFirst(x: BattleState, y: BattleState)
    requires x.Legal() && y.Legal()
    requires x.aStrategy == MenAtArmsFirst && x.bStrategy == MenAtArmsFirst
    requires y.aStrategy == MenAtArmsFirst && y.bStrategy == MenAtArmsFirst
    ensures BattleHash(x) == BattleHash(y) <==> x == y
  {
    hide BattleHash;
    BattleHashCollisions(x, y);
    LowWordKeeps(x.a, y.a);
    LowWordKeeps(x.b, y.b);
  }

  /**
   * The collision d'Arc causes: with d'Arc leading A, A's strategy does not
   * reach the code, and the code equals that of A without a leader charging
   * knights first.
   */
  lemma DarcCollision(x: BattleState)
    requires x.Legal() && x.a.leader == Darc
    ensures BattleHash(x.(aStrategy := MenAtArmsFirst)) == BattleHash(x.(aStrategy := KnightsFirst))
    ensures BattleHash(x.(aStrategy := MenAtArmsFirst))
         == BattleHash(x.(a := x.a.(leader := NoneOrLady), aStrategy := KnightsFirst))
  {
    hide BattleHash;
    var p := x.(aStrategy := MenAtArmsFirst);
    var q := x.(aStrategy := KnightsFirst);
    var r := x.(a := x.a.(leader := NoneOrLady), aStrategy := KnightsFirst);
    BattleHashCollisions(p, q);
    BattleHashCollisions(p, r);
  }

  /** With 12-bit army slots the battle's fields read as one number, field after field. */
  lemma CorrectedDigits(ha: nat, sa: nat, hb: nat, sb: nat, c: nat)
    ensures Digits(BattleLayout(ha, sa, hb, sb, c, CORRECTED_ARMY_WIDTH))
      == ha + 4096 * sa + 8192 * hb + 33554432 * sb + 67108864 * c
  {
    BinSizes();
    var f5 := Field(c, 1, End);
    var f4 := Field(sb, BIN_SIZE_DAMAGE_STRATEGY, f5);
    var f3 := Field(hb, CORRECTED_ARMY_WIDTH, f4);
    var f2 := Field(sa, BIN_SIZE_DAMAGE_STRATEGY, f3);
    Powers();
    DigitsField(c, 1, End, 2);
    DigitsField(sb, 1, f5, 2);
    DigitsField(hb, 12, f4, 4096);
    DigitsField(sa, 1, f3, 2);
    DigitsField(ha, 12, f2, 4096);
  }

  /** With 12-bit army slots every field of a legal battle fits its width. */
  lemma CorrectedFits(ha: nat, sa: nat, hb: nat, sb: nat, c: nat)
    requires ha < 4096 && hb < 4096 && sa <= 1 && sb <= 1
    ensures Fits(BattleLayout(ha, sa, hb, sb, c, CORRECTED_ARMY_WIDTH))
  {
    BinSizes();
    var f5 := Field(c, 1, End);
    var f4 := Field(sb, BIN_SIZE_DAMAGE_STRATEGY, f5);
    var f3 := Field(hb, CORRECTED_ARMY_WIDTH, f4);
    var f2 := Field(sa, BIN_SIZE_DAMAGE_STRATEGY, f3);
    Powers();
    DigitsField(sb, 1, f5, 2);
    DigitsField(hb, 12, f4, 4096);
    DigitsField(sa, 1, f3, 2);
    DigitsField(ha, 12, f2, 4096);
  }

  /** With 12-bit army slots a legal battle's fields pack into one number, field after field. */
  lemma CorrectedPack(ha: nat, sa: nat, hb: nat, sb: nat, c: nat)
    requires ha < 4096 && hb < 4096 && sa <= 1 && sb <= 1
    ensures Pack(BattleLayout(ha, sa, hb, sb, c, CORRECTED_ARMY_WIDTH), 0, 0)
      == ha + 4096 * sa + 8192 * hb + 33554432 * sb + 67108864 * c
  {
    CorrectedDigits(ha, sa, hb, sb, c);
    CorrectedFits(ha, sa, hb, sb, c);
    PackDigits(BattleLayout(ha, sa, hb, sb, c, CORRECTED_ARMY_WIDTH), 0, 0, 1);
  }

  /** The corrected code: A's code, A's strategy at bit 12, B's code from bit 13, and so on. */
  lemma CorrectedBattleHashValue(x: BattleState)
    requires x.Legal()
    ensures CorrectedBattleHash(x) == Success(
      ArmyCode(x.a) + 4096 * x.aStrategy.Value()
      + 8192 * ArmyCode(x.b) + 33554432 * x.bStrategy.Value()
      + 67108864 * (if x.cavalcade then 1 else 0))
  {
    hide PackBattle, ArmyHash, Pack;
    var ha, sa, hb, sb := ArmyCode(x.a), x.aStrategy.Value(), ArmyCode(x.b), x.bStrategy.Value();
    var c := if x.cavalcade then 1 else 0;
    PackBattleValue(x, CORRECTED_ARMY_WIDTH);
    ArmyCodeInjective(x.a, x.a);
    ArmyCodeInjective(x.b, x.b);
    ValuesDistinct(x.a.structure, x.b.structure, x.a.leader, x.b.leader, x.aStrategy, x.bStrategy);
    CorrectedPack(ha, sa, hb, sb, c);
  }

  /** Five fields in bits of their own: equal sums have equal fields. */
  lemma CorrectedDigitsUnique(ha: nat, sa: nat, hb: nat, sb: nat, c: nat, ha': nat, sa': nat, hb': nat, sb': nat, c': nat)
    requires ha < 4096 && hb < 4096 && sa <= 1 && sb <= 1
    requires ha' < 4096 && hb' < 4096 && sa' <= 1 && sb' <= 1
    requires ha + 4096 * sa + 8192 * hb + 33554432 * sb + 67108864 * c
          == ha' + 4096 * sa' + 8192 * hb' + 33554432 * sb' + 67108864 * c'
    ensures ha == ha' && sa == sa' && hb == hb' && sb == sb' && c == c'
  {
    SplitUnique(ha, sa + 2 * (hb + 4096 * (sb + 2 * c)), ha', sa' + 2 * (hb' + 4096 * (sb' + 2 * c')), 4096);
    SplitUnique(sa, hb + 4096 * (sb + 2 * c), sa', hb' + 4096 * (sb' + 2 * c'), 2);
    SplitUnique(hb, sb + 2 * c, hb', sb' + 2 * c', 4096);
    SplitUnique(sb, c, sb', c', 2);
  }

  /** The corrected code tells every two legal battles apart. */
  lemma CorrectedBattleHashInjective(x: BattleState, y: BattleState)
    requires x.Legal() && y.Legal()
    ensures CorrectedBattleHash(x) == CorrectedBattleHash(y) <==> x == y
  {
    hide CorrectedBattleHash, ArmyCode;
    if CorrectedBattleHash(x) == CorrectedBattleHash(y) {
      CorrectedBattleHashValue(x);
      CorrectedBattleHashValue(y);
      ArmyCodeInjective(x.a, y.a);
      ArmyCodeInjective(x.b, y.b);
      ArmyCodeInjective(y.a, x.a);
      ArmyCodeInjective(y.b, x.b);
      ValuesDistinct(x.a.structure, y.a.structure, x.a.leader, y.a.leader, x.aStrategy, y.aStrategy);
      ValuesDistinct(x.b.structure, y.b.structure, x.b.leader, y.b.leader, x.bStrategy, y.bStrategy);
      CorrectedDigitsUnique(
        ArmyCode(x.a), x.aStrategy.Value(), ArmyCode(x.b), x.bStrategy.Value(), if x.cavalcade then 1 else 0,
        ArmyCode(y.a), y.aStrategy.Value(), ArmyCode(y.b), y.bStrategy.Value(), if y.cavalcade then 1 else 0);
    }
  }
}

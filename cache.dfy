/**
 * The battle cache: a table of outcome counts per battle, filled by
 * resolving a battle one round at a time and recursing on the battle the
 * round leaves, and read back as odds.
 *
 * The table is keyed by the battle itself: the dictionary finds a key
 * through its hash and then compares the battle field by field, so two
 * battles that share a hash still get separate records. Taking the hash
 * of a battle with an army over the limits raises, which is how an
 * illegal battle is refused.
 *
 * Randomness is a tape of naturals, as for the dice: a weighted sample
 * draws the next natural. The tape also bounds the recursion; a tape that
 * runs out ends the call with `OutOfRolls` and leaves the table unchanged.
 */
module Cache {
  import opened Rules
  import opened Damage
  import opened Armies
  import opened Battles
  import opened Encoding
  import opened Bits
  import opened Dice

  /** A battle is simulated until its record holds this many samples; after that its odds are sampled. */
  const RELIABILITY: nat := 1000

  /** Counts for one battle: B out (a win for A), ties, A out (a loss for A), and their total. */
  datatype Record = Record(wins: nat, ties: nat, losses: nat, samples: nat)
  {
    predicate Consistent()
    {
      wins + ties + losses == samples
    }

    /** The record with one more sample of outcome `code`. */
    function Add(code: int): (r: Record)
      requires -1 <= code <= 1
      ensures r.samples == samples + 1
      ensures Consistent() ==> r.Consistent()
      ensures r.wins == wins + 1 <==> code == 1
      ensures r.ties == ties + 1 <==> code == 0
      ensures r.losses == losses + 1 <==> code == -1
      ensures code != 1 ==> r.wins == wins
      ensures code != 0 ==> r.ties == ties
      ensures code != -1 ==> r.losses == losses
    {
      if code == 1 then this.(wins := wins + 1, samples := samples + 1)
      else if code == 0 then this.(ties := ties + 1, samples := samples + 1)
      else this.(losses := losses + 1, samples := samples + 1)
    }
  }

  /** The record of a battle never seen. */
  const Unseen := Record(0, 0, 0, 0)

  /** Every count of `r` is at most the same count of `s`. */
  predicate AtMost(r: Record, s: Record)
  {
    r.wins <= s.wins && r.ties <= s.ties && r.losses <= s.losses && r.samples <= s.samples
  }

  /** The record of `x`, or an empty one. */
  function Lookup(db: map<BattleState, Record>, x: BattleState): Record
  {
    if x in db then db[x] else Unseen
  }

  /** Every battle of `done` is stored with at least `target` samples. */
  ghost predicate Reached(db: map<BattleState, Record>, done: set<BattleState>, target: int)
  {
    forall x :: x in done ==> x in db && db[x].samples >= target
  }

  /** Growing a table keeps what it has reached, and growing is transitive. */
  lemma GrowsReached(db0: map<BattleState, Record>, db: map<BattleState, Record>, db': map<BattleState, Record>,
                     done: set<BattleState>, target: int)
    requires Grows(db0, db) && Grows(db, db')
    ensures Reached(db, done, target) ==> Reached(db', done, target)
    ensures Grows(db0, db')
  {
  }

  /**
   * Only hashable battles are stored, every record's counts add up to its
   * total, and every outcome a record counts is one its battle can end in.
   */
  ghost predicate ValidTable(db: map<BattleState, Record>)
  {
    forall x :: x in db ==> x.Legal() && db[x].Consistent() && Witnessed(x, db[x])
  }

  /** Every outcome `r` counts at least once is one `x` can end in. */
  ghost predicate Witnessed(x: BattleState, r: Record)
  {
    && (r.wins > 0 ==> Reachable(x, 1))
    && (r.ties > 0 ==> Reachable(x, 0))
    && (r.losses > 0 ==> Reachable(x, -1))
  }

  /** Counting an outcome the battle can end in keeps its record witnessed. */
  lemma WitnessedAdd(x: BattleState, r: Record, code: int)
    requires Witnessed(x, r) && Reachable(x, code) && -1 <= code <= 1
    ensures Witnessed(x, r.Add(code))
  {
  }

  /** `db'` keeps every battle of `db` and no count of theirs went down. */
  ghost predicate Grows(db: map<BattleState, Record>, db': map<BattleState, Record>)
  {
    forall x :: x in db ==> x in db' && AtMost(db[x], db'[x])
  }

  /**
   * The weighted draw over the outcomes 1, 0 and -1 with weights wins,
   * ties and losses: the draw r picks position r mod samples in the
   * population of outcomes laid out in that order.
   */
  function Sample(r: Record, draw: nat): (code: int)
    requires r.Consistent() && r.samples > 0
    ensures -1 <= code <= 1
  {
    var n := draw % r.samples;
    if n < r.wins then 1 else if n < r.wins + r.ties then 0 else -1
  }

  /** The draw picks only outcomes seen at least once, and each outcome seen is picked by some draw. */
  lemma SampleSeen(r: Record, code: int)
    requires r.Consistent() && r.samples > 0 && -1 <= code <= 1
    ensures (exists draw: nat :: Sample(r, draw) == code) <==>
      (if code == 1 then r.wins else if code == 0 then r.ties else r.losses) > 0
  {
    var count := if code == 1 then r.wins else if code == 0 then r.ties else r.losses;
    if count > 0 {
      var draw: nat := if code == 1 then 0 else if code == 0 then r.wins else r.wins + r.ties;
      SampleAt(r, draw);
      assert Sample(r, draw) == code;
    }
    forall draw: nat | Sample(r, draw) == code
      ensures count > 0
    {
      SampleAt(r, draw);
    }
  }

  /** A draw from a witnessed record picks an outcome the battle can end in. */
  lemma SampleWitnessed(x: BattleState, r: Record, draw: nat)
    requires r.Consistent() && r.samples > 0 && Witnessed(x, r)
    ensures Reachable(x, Sample(r, draw))
  {
    SampleAt(r, draw);
  }

  /** A draw lands on a position below the total, and a draw below the total lands on itself. */
  lemma SampleAt(r: Record, draw: nat)
    requires r.Consistent() && r.samples > 0
    ensures var n := draw % r.samples;
      && n < r.samples
      && (draw < r.samples ==> n == draw)
      && Sample(r, draw) == (if n < r.wins then 1 else if n < r.wins + r.ties then 0 else -1)
  {
  }

  /** How many of the draws 0 .. n-1 pick `code`. */
  function Tally(r: Record, code: int, n: nat): nat
    requires r.Consistent() && r.samples > 0 && n <= r.samples
  {
    if n == 0 then 0
    else Tally(r, code, n - 1) + (if Sample(r, n - 1) == code then 1 else 0)
  }

  /**
   * Over one full round of draws, 0 up to the sample total, the draw picks
   * each outcome exactly as many times as the record counted it: the
   * weights `random.sample` is given.
   */
  lemma SampleWeights(r: Record)
    requires r.Consistent() && r.samples > 0
    ensures Tally(r, 1, r.samples) == r.wins
    ensures Tally(r, 0, r.samples) == r.ties
    ensures Tally(r, -1, r.samples) == r.losses
  {
    TallyPrefix(r, r.samples);
  }

  /** The first n draws pick wins, then ties, then losses, in that order. */
  lemma {:induction false} TallyPrefix(r: Record, n: nat)
    requires r.Consistent() && r.samples > 0 && n <= r.samples
    ensures Tally(r, 1, n) == Min(n, r.wins)
    ensures Tally(r, 0, n) == Max(0, Min(n, r.wins + r.ties) - r.wins)
    ensures Tally(r, -1, n) == Max(0, n - r.wins - r.ties)
  {
    if n > 0 {
      TallyPrefix(r, n - 1);
      SampleAt(r, n - 1);
    }
  }

  /**
   * `db'` grows `db`, and every battle it adds is one `battle` can reach:
   * what resolving `battle` does to the table.
   */
  ghost predicate Extends(db: map<BattleState, Record>, db': map<BattleState, Record>, battle: BattleState)
  {
    && Grows(db, db')
    && forall x :: x in db' && x !in db ==> x.Below(battle)
  }

  /**
   * Writing the record `battle` had in `db0`, plus one outcome, over a table
   * that extends `db0` from a battle `battle` reaches keeps the table valid
   * and extending `db0` from `battle`.
   */
  lemma CountedExtends(db0: map<BattleState, Record>, db: map<BattleState, Record>, y: BattleState, battle: BattleState, code: int)
    requires ValidTable(db0) && ValidTable(db) && Extends(db0, db, y)
    requires y.Below(battle) && battle.Legal() && -1 <= code <= 1 && Reachable(battle, code)
    ensures ValidTable(db[battle := Lookup(db0, battle).Add(code)])
    ensures Extends(db0, db[battle := Lookup(db0, battle).Add(code)], battle)
  {
    hide Lookup, Record.Add, AtMost, BattleState.Below, BattleState.Legal, Record.Consistent, Witnessed, Reachable;
    var r := Lookup(db0, battle);
    LookupValid(db0, battle);
    AddGrows(r, code);
    WitnessedAdd(battle, r, code);
    var db' := db[battle := r.Add(code)];
    forall x | x in db'
      ensures x.Legal() && db'[x].Consistent()
      ensures x in db0 ==> AtMost(db0[x], db'[x])
      ensures x !in db0 ==> x.Below(battle)
    {
      if x != battle {
        assert db'[x] == db[x];
        if x !in db0 {
          BelowOrder(x, y, battle);
        }
      } else {
        BelowOrder(battle, battle, battle);
      }
    }
  }

  /** The record looked up in a valid table adds up, and is the stored one when there is one. */
  lemma LookupValid(db: map<BattleState, Record>, x: BattleState)
    requires ValidTable(db)
    ensures Lookup(db, x).Consistent()
    ensures x in db ==> Lookup(db, x) == db[x]
    ensures x !in db ==> Lookup(db, x).samples == 0
    ensures Witnessed(x, Lookup(db, x))
  {
  }

  /** One more sample raises no count. */
  lemma AddGrows(r: Record, code: int)
    requires -1 <= code <= 1
    ensures AtMost(r, r.Add(code))
  {
  }

  /** Three counts that add up to a positive total give three rates in [0, 1] that add up to 1. */
  lemma Rates(w: real, l: real, t: real, s: real)
    requires 0.0 <= w && 0.0 <= l && 0.0 <= t && w + l + t == s && s > 0.0
    ensures w / s + l / s + t / s == 1.0
    ensures 0.0 <= w / s <= 1.0 && 0.0 <= l / s <= 1.0 && 0.0 <= t / s <= 1.0
  {
    assert w / s + l / s + t / s == (w + l + t) / s;
  }

  /** What one call of resolve ends with. */
  datatype Trial = Done(code: int) | HashFailure(error: HashError) | OutOfRolls

  /** The odds of a battle as probability returns them: A wins, A loses, a tie, and the sample count. */
  datatype Odds = Odds(win: real, loss: real, tie: real, samples: nat)

  /** Why probability fails: the battle cannot be hashed, or it has no samples to divide by. */
  datatype OddsError = Unhashable(error: HashError) | NoSamples

  /** A table of outcome counts per battle. */
  class BattleCache {
    var db: map<BattleState, Record>

    /** Only hashable battles are stored, and every record's counts add up to its total. */
    ghost predicate Valid()
      reads this
    {
      ValidTable(db)
    }

    constructor ()
      ensures Valid() && db == map[]
    {
      db := map[];
    }

    /** probability: the three rates of a battle's record, or why they cannot be computed. */
    function Probability(battle: BattleState): (r: Result<Odds, OddsError>)
      reads this
      requires Valid()
      ensures !battle.Legal() <==> r.Failure? && r.error.Unhashable?
      ensures r == Failure(NoSamples) <==> battle.Legal() && Lookup(db, battle).samples == 0
      ensures r.Success? ==> r.value.samples > 0 && r.value.win + r.value.loss + r.value.tie == 1.0
      ensures r.Success? ==> 0.0 <= r.value.win <= 1.0 && 0.0 <= r.value.loss <= 1.0 && 0.0 <= r.value.tie <= 1.0
    {
      match BattleHash(battle)
      case Failure(e) => Failure(Unhashable(e))
      case Success(_) =>
        var rec := Lookup(db, battle);
        if rec.samples == 0 then Failure(NoSamples)
        else
          var s := rec.samples as real;
          Rates(rec.wins as real, rec.losses as real, rec.ties as real, s);
          Success(Odds(rec.wins as real / s, rec.losses as real / s, rec.ties as real / s, rec.samples))
    }

    /**
     * resolve: refuse an illegal battle; sample the record of a battle seen
     * RELIABILITY times; otherwise count the status of a resolved battle,
     * or play one round on a copy, resolve what it leaves, and count that
     * outcome. The count written is the record read at the start plus one,
     * so a round that leaves the battle as it was loses the count the
     * recursive call wrote for it.
     */
    method Resolve(battle: BattleState, tape: seq<nat>) returns (t: Trial, rest: seq<nat>)
      requires Valid()
      modifies this
      decreases |tape|
      ensures Valid() && Extends(old(db), db, battle)
      ensures |rest| <= |tape|
      ensures t.HashFailure? <==> !battle.Legal()
      ensures t.HashFailure? ==> BattleHash(battle) == Failure(t.error)
      ensures t.Done? ==> -1 <= t.code <= 1 && battle in db
      ensures t.Done? ==> Reachable(battle, t.code)
      ensures !t.Done? ==> db == old(db)
      ensures var r := Lookup(old(db), battle);
        battle.Legal() && r.samples >= RELIABILITY ==>
          && db == old(db)
          && (tape == [] ==> t == OutOfRolls)
          && (tape != [] ==> t == Done(Sample(r, tape[0])) && rest == tape[1..])
      ensures var r := Lookup(old(db), battle);
        t.Done? && r.samples < RELIABILITY ==> db[battle] == r.Add(t.code)
      ensures var r := Lookup(old(db), battle);
        battle.Legal() && r.samples < RELIABILITY && BattleStatus(battle).Resolved? ==>
          && t == Done(BattleStatus(battle).code)
          && db == old(db)[battle := r.Add(t.code)]
          && rest == tape
    {
      hide Lookup, BattleHash, BattleStatus, Sample, RollTotal, Damage.KnightsFirst, Damage.MenAtArmsFirst, Witnessed, Reachable, BattleState.Advanced;
      var h := BattleHash(battle);
      if h.Failure? {
        return HashFailure(h.error), tape;
      }
      var r := Lookup(db, battle);
      LookupValid(db, battle);
      if r.samples >= RELIABILITY {
        if tape == [] {
          return OutOfRolls, tape;
        }
        SampleWitnessed(battle, r, tape[0]);
        return Done(Sample(r, tape[0])), tape[1..];
      }
      var b := new Battle(battle);
      var status := BattleStatus(b.Value());
      if status.Resolved? {
        ResolvedReachable(battle);
        CountedExtends(db, db, battle, battle, status.code);
        db := db[battle := r.Add(status.code)];
        return Done(status.code), tape;
      }
      var x := b.Value();
      var n := x.DiceA() + x.DiceB();
      if |tape| < n {
        return OutOfRolls, tape;
      }
      var _ := b.Round(tape[..x.DiceA()], tape[x.DiceA()..n]);
      var y := b.Value();
      ghost var rA := RollTotal(x.DiceA(), 0, tape[..x.DiceA()]);
      ghost var rB := RollTotal(x.DiceB(), x.BonusB(), tape[x.DiceA()..n]);
      AdvancedBelow(x, rA, rB);
      BelowOrder(y, battle, battle);
      ghost var db0 := db;
      var inner;
      inner, rest := Resolve(y, tape[n..]);
      if !inner.Done? {
        return OutOfRolls, rest;
      }
      assert x == battle && y == RoundOn(x, tape);
      RoundOnReachable(x, tape, inner.code);
      CountedExtends(db0, db, y, battle, inner.code);
      db := db[battle := r.Add(inner.code)];
      t := inner;
    }

    /**
     * complete: for every battle stored when it starts, resolve it as many
     * times as its record falls short of `limit`. Each resolve of a battle
     * below RELIABILITY samples adds one, so when the tape lasts every one
     * of those battles ends with at least the smaller of `limit` and
     * RELIABILITY samples.
     */
    method Complete(limit: int, tape: seq<nat>) returns (finished: bool, rest: seq<nat>)
      requires Valid()
      modifies this
      ensures Valid() && Grows(old(db), db)
      ensures finished ==> forall x :: x in old(db) ==> db[x].samples >= Min(limit, RELIABILITY)
    {
      hide Lookup, Record.Add, BattleHash, BattleStatus, Sample, BattleState.Below, BattleState.Legal;
      var target := Min(limit, RELIABILITY);
      var battles := db.Keys;
      ghost var done: set<BattleState> := {};
      rest := tape;
      while battles != {}
        invariant Valid() && Grows(old(db), db)
        invariant battles + done == old(db).Keys
        invariant Reached(db, done, target)
        decreases battles
      {
        var battle :| battle in battles;
        var s := db[battle].samples;
        var i := 0;
        while i < limit - s
          invariant Valid() && Grows(old(db), db)
          invariant battle in db && db[battle].samples >= Min(s + i, RELIABILITY)
          invariant Reached(db, done, target)
        {
          LookupValid(db, battle);
          ghost var before := db;
          var t;
          t, rest := Resolve(battle, rest);
          if !t.Done? {
            return false, rest;
          }
          GrowsReached(old(db), before, db, done, target);
          i := i + 1;
        }
        battles := battles - {battle};
        done := done + {battle};
      }
      return true, rest;
    }

    /**
     * populate: resolve once each battle of an army in the open with the
     * default strategies and no cavalcade, over every leader, count of
     * knights and count of men-at-arms for A and every leader,
     * fortification, count of knights and count of men-at-arms for B, each
     * counter running from its largest value down to 0. Progress reports
     * are left out; `iteration` counts the battles resolved.
     */
    method Populate(tape: seq<nat>) returns (finished: bool, rest: seq<nat>)
      requires Valid()
      modifies this
      ensures Valid() && Grows(old(db), db)
      ensures finished ==> forall x :: Populated(x) ==> x in db
    {
      hide Lookup, Record.Add, BattleHash, BattleStatus, Sample, BattleState.Below;
      rest := tape;
      var iteration := 0;
      var aLord := 2;
      while aLord >= 0
        invariant -1 <= aLord <= 2
        invariant iteration == (2 - aLord) * 142884
        invariant Valid() && Grows(old(db), db) && Covered(db, iteration)
      {
        var aKnights := 8;
        while aKnights >= 0
          invariant -1 <= aKnights <= 8
          invariant iteration == (2 - aLord) * 142884 + (8 - aKnights) * 15876
          invariant Valid() && Grows(old(db), db) && Covered(db, iteration)
        {
          var aMen := 13;
          while aMen >= 0
            invariant -1 <= aMen <= 13
            invariant iteration == (2 - aLord) * 142884 + (8 - aKnights) * 15876 + (13 - aMen) * 1134
            invariant Valid() && Grows(old(db), db) && Covered(db, iteration)
          {
            var bLord := 2;
            while bLord >= 0
              invariant -1 <= bLord <= 2
              invariant iteration == (2 - aLord) * 142884 + (8 - aKnights) * 15876 + (13 - aMen) * 1134
                + (2 - bLord) * 378
              invariant Valid() && Grows(old(db), db) && Covered(db, iteration)
            {
              var bDefensive := 2;
              while bDefensive >= 0
                invariant -1 <= bDefensive <= 2
                invariant iteration == (2 - aLord) * 142884 + (8 - aKnights) * 15876 + (13 - aMen) * 1134
                  + (2 - bLord) * 378 + (2 - bDefensive) * 126
                invariant Valid() && Grows(old(db), db) && Covered(db, iteration)
              {
                var bKnights := 8;
                while bKnights >= 0
                  invariant -1 <= bKnights <= 8
                  invariant iteration == (2 - aLord) * 142884 + (8 - aKnights) * 15876 + (13 - aMen) * 1134
                    + (2 - bLord) * 378 + (2 - bDefensive) * 126 + (8 - bKnights) * 14
                  invariant Valid() && Grows(old(db), db) && Covered(db, iteration)
                {
                  var bMen := 13;
                  while bMen >= 0
                    invariant -1 <= bMen <= 13
                    invariant iteration == (2 - aLord) * 142884 + (8 - aKnights) * 15876 + (13 - aMen) * 1134
                      + (2 - bLord) * 378 + (2 - bDefensive) * 126 + (8 - bKnights) * 14 + (13 - bMen)
                    invariant Valid() && Grows(old(db), db) && Covered(db, iteration)
                  {
                    var a := ArmyState(aMen, aKnights, NoStructure, LeaderOf(aLord));
                    var b := ArmyState(bMen, bKnights, StructureOf(bDefensive), LeaderOf(bLord));
                    var battle := BattleState(a, b, MenAtArmsFirst, MenAtArmsFirst, false);
                    iteration := iteration + 1;
                    ghost var before := db;
                    var t;
                    t, rest := Resolve(battle, rest);
                    if !t.Done? {
                      return false, rest;
                    }
                    CoveredStep(before, db, battle, iteration - 1);
                    bMen := bMen - 1;
                  }
                  bKnights := bKnights - 1;
                }
                bDefensive := bDefensive - 1;
              }
              bLord := bLord - 1;
            }
            aMen := aMen - 1;
          }
          aKnights := aKnights - 1;
        }
        aLord := aLord - 1;
      }
      PopulationCovered(db);
      return true, rest;
    }
  }

  /** The leader with the given enumeration value. */
  function LeaderOf(n: int): (l: ArmyLeader)
    requires 0 <= n <= 2
    ensures l.Value() == n
  {
    if n == 0 then NoneOrLady else if n == 1 then LordOrTitledLady else Darc
  }

  /** The fortification with the given enumeration value. */
  function StructureOf(n: int): (s: DefensiveStructure)
    requires 0 <= n <= 2
    ensures s.Value() == n
  {
    if n == 0 then NoStructure else if n == 1 then Stronghold else FortifiedCity
  }

  /** The number of battles populate resolves: 3 * 9 * 14 for A times 3 * 3 * 9 * 14 for B. */
  const POPULATION: nat := 428652

  /** The battles populate resolves. */
  predicate Populated(x: BattleState)
  {
    && x.Legal() && x.a.structure == NoStructure
    && x.aStrategy == MenAtArmsFirst && x.bStrategy == MenAtArmsFirst && !x.cavalcade
  }

  /**
   * The value `iteration` has when populate resolves `x`: its seven
   * counters read as one mixed-radix number, outermost first, each digit
   * counting down from the counter's largest value. B's four counters are
   * the low digits (3 * 3 * 9 * 14 = 1134 battles per army A).
   */
  function Rank(x: BattleState): int
  {
    DefenderRank(x.b) + 1134 * AttackerRank(x.a)
  }

  /** The digits of A's counters: leader, then knights, then men-at-arms. */
  function AttackerRank(a: ArmyState): int
  {
    (13 - a.menAtArms) + 14 * ((8 - a.knights) + 9 * (2 - a.leader.Value()))
  }

  /** The digits of B's counters: leader, then fortification, then knights, then men-at-arms. */
  function DefenderRank(b: ArmyState): int
  {
    (13 - b.menAtArms) + 14 * ((8 - b.knights) + 9 * ((2 - b.structure.Value()) + 3 * (2 - b.leader.Value())))
  }

  /** Every battle populate resolves before `iteration` counted that far is in `db`. */
  ghost predicate Covered(db: map<BattleState, Record>, iteration: int)
  {
    forall x :: Populated(x) && Rank(x) < iteration ==> x in db
  }

  /** Every battle populate resolves gets a rank below POPULATION. */
  lemma RankBounds(x: BattleState)
    requires Populated(x)
    ensures 0 <= Rank(x) < POPULATION
  {
  }

  /** Two battles populate resolves never share a rank: each is resolved on its own iteration. */
  lemma RankInjective(x: BattleState, y: BattleState)
    requires Populated(x) && Populated(y) && Rank(x) == Rank(y)
    ensures x == y
  {
    SplitUnique(DefenderRank(x.b), AttackerRank(x.a), DefenderRank(y.b), AttackerRank(y.a), 1134);
    AttackerRankInjective(x.a, y.a);
    DefenderRankInjective(x.b, y.b);
  }

  lemma AttackerRankInjective(a: ArmyState, a': ArmyState)
    requires a.menAtArms <= 13 && a.knights <= 8 && a'.menAtArms <= 13 && a'.knights <= 8
    requires a.structure == a'.structure && AttackerRank(a) == AttackerRank(a')
    ensures a == a'
  {
    var k, k' := (8 - a.knights) + 9 * (2 - a.leader.Value()), (8 - a'.knights) + 9 * (2 - a'.leader.Value());
    SplitUnique(13 - a.menAtArms, k, 13 - a'.menAtArms, k', 14);
    SplitUnique(8 - a.knights, 2 - a.leader.Value(), 8 - a'.knights, 2 - a'.leader.Value(), 9);
    ValuesDistinct(a.structure, a'.structure, a.leader, a'.leader, MenAtArmsFirst, MenAtArmsFirst);
  }

  lemma DefenderRankInjective(b: ArmyState, b': ArmyState)
    requires b.menAtArms <= 13 && b.knights <= 8 && b'.menAtArms <= 13 && b'.knights <= 8
    requires DefenderRank(b) == DefenderRank(b')
    ensures b == b'
  {
    var l, l' := 2 - b.leader.Value(), 2 - b'.leader.Value();
    var s, s' := (2 - b.structure.Value()) + 3 * l, (2 - b'.structure.Value()) + 3 * l';
    var k, k' := (8 - b.knights) + 9 * s, (8 - b'.knights) + 9 * s';
    SplitUnique(13 - b.menAtArms, k, 13 - b'.menAtArms, k', 14);
    SplitUnique(8 - b.knights, s, 8 - b'.knights, s', 9);
    SplitUnique(2 - b.structure.Value(), l, 2 - b'.structure.Value(), l', 3);
    ValuesDistinct(b.structure, b'.structure, b.leader, b'.leader, MenAtArmsFirst, MenAtArmsFirst);
  }

  /** Storing the battle of rank `i` extends the coverage from `i` to `i + 1`. */
  lemma CoveredStep(db0: map<BattleState, Record>, db: map<BattleState, Record>, battle: BattleState, i: int)
    requires Populated(battle) && Rank(battle) == i && battle in db
    requires Covered(db0, i) && Grows(db0, db)
    ensures Covered(db, i + 1)
  {
    forall x | Populated(x) && Rank(x) < i + 1
      ensures x in db
    {
      if Rank(x) == i {
        RankInjective(x, battle);
      }
    }
  }

  /** Coverage up to POPULATION is every battle populate resolves. */
  lemma PopulationCovered(db: map<BattleState, Record>)
    requires Covered(db, POPULATION)
    ensures forall x :: Populated(x) ==> x in db
  {
    forall x | Populated(x)
      ensures x in db
    {
      RankBounds(x);
    }
  }
}

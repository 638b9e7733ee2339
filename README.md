# Fief battle odds: a Dafny model of the battle engine

The fief calculator estimates the odds of a battle in the board game Fief
(France 1429). An army has men-at-arms (one point each) and knights (three
points each). It may defend from a stronghold or a fortified city. It may be
led by nobody (or a lady), a lord or titled lady, or Joan d'Arc.

Each round works as follows:

- Both sides roll one to three three-sided dice. The number of dice depends
  on their strength.
- A fortification takes dice from its attacker, and d'Arc adds one.
- Cavalcade adds one per die to B's roll.
- Each side absorbs the other's roll as damage. It removes knights (3 points)
  and men-at-arms (1 point) by its damage strategy: knights first, or
  men-at-arms first.

A battle is resolved when a side has no dice left: code +1 when only B is
out, -1 when only A is out, 0 for both.

A battle cache keeps win/tie/loss counts per battle. It fills them by
playing one round on a copy of the battle and recursing on what is left.
Once a battle has 1000 samples, the cache answers by a weighted draw from its
counts. `populate` resolves every pairing its loops enumerate (A in the
open field, default strategies, no cavalcade), and
`complete` tops up every stored battle to a sample limit. Battles and armies
also pack themselves into integers ("hash").

The Dafny modules follow the program's structure:

- `Rules`: the limits, the enums and the bit widths derived from them.
- `Bits`: the shifts, ORs and bit lengths the encodings use.
- `Damage`: the two allocators. Each is a loop method proved equal to a
  closed-form definition. Lemmas cover their leftover and what they remove.
- `Armies`: army points, strength, dice and attacker penalty. `Army` is a
  class whose `ApplyDamage` changes its counts in place.
- `Dice`: a roll of n dice. Random draws come from a tape of naturals; draw
  `r` shows `r % 3 + 1`.
- `Battles`: battle status, and the `Battle` class that plays rounds on its
  two army objects.
- `Encoding`: the army and battle hashes, what they keep, and where they
  collide.
- `Cache`: the `BattleCache` class with `probability`, `resolve`, `populate`
  and `complete`.
- `Scenarios`: worked battles that show a round which changes nothing, and a
  round whose yielded code differs from the status it leaves.
- `Simulator`: the browser port of the army, which differs from the Python
  army only in how it treats a strategy value.

`resolve` reads the battle's record once, before playing the round. After the
recursive call it writes that record plus one. When a round leaves the battle
as it was (`Scenarios.StalledRound`), the recursive call's count for the same
battle is overwritten. The model keeps this behaviour.

`Battles.Reachable` says which outcomes a battle can end in. A battle whose
status is resolved ends in that status. An ongoing battle ends in whatever the
battle left by one round can end in, for any rolls its dice can show. The
cache's table only counts outcomes its battle can end in, and every outcome
`resolve` returns, sampled or played, is one of them.

The module `battlesimulation.py` is a documented copy of the army, the dice
set and the battle's fields and hash. It has no `battle_status`,
`battle_iterator` or battle cache. Where it overlaps `fief_army_simulation.py`
it computes the same values and differs in these places:

- its dice rule is written without the lower bound on strength
  (`Armies.DiceFormsAgree` proves the two forms equal);
- its army hash raises "Too many men-at-arms" and "Too many knights" where
  the main file raises a bare exception; `Encoding.HashError.Message` uses
  these messages;
- its allocator check raises "Illegal damage strategy" where the main file
  prints the army and raises "illegal strategy"; the model proves that check
  unreachable (`Damage.LeftoverAgrees`);
- its unknown-strategy exception carries the message "Unknown strategy",
  which the model uses.

## Model

| member | source | states |
|---|---|---|
| Rules.BinSizes | fief_army_simulation.py:4-26 | The derived bit widths: 4 bits for men-at-arms and for knights, 2 for the structure, 1 for the leader and 1 for the strategy, 11 per army. d'Arc's value 2 does not fit the 1-bit leader field. |
| Bits.BitLengthBounds | fief_army_simulation.py:5-7 | `len(bin(x)) - 2` is the bit length: x lies below 2^len and, from 2 up, at or above 2^(len-1). |
| Bits.ShlIs | fief_army_simulation.py:43-53 | A left shift by n multiplies by 2^n. |
| Bits.OrDisjoint | fief_army_simulation.py:40-55 | OR-ing a value above the bits already set adds it. |
| Bits.PackDigits | fief_army_simulation.py:40-55 | Packing fields by shift-and-OR, each within its width, gives the number whose digits in the widths' bases are the fields. |
| Dice.Face | fief_army_simulation.py:152 | A die shows 1, 2 or 3. |
| Dice.FaceSumBounds | fief_army_simulation.py:149-154 | n dice show between n and 3n in total. |
| Dice.RollTotal | fief_army_simulation.py:149-154 | With a bonus that is not negative, a roll is at least its number of dice. |
| Dice.RollTotalBounds | fief_army_simulation.py:149-154 | A roll of n dice with bonus c lies between n(1+c) and n(3+c). |
| Dice.Roll | fief_army_simulation.py:149-154 | The loop's total equals the roll of the dice plus the bonus per die, and lies between n(1+bonus) and n(3+bonus). The copy in battlesimulation.py (lines 281-295) is the same loop. |
| Damage.ComputeDamageKnightsFirst | fief_army_simulation.py:79-89 | The loop's (damage, knights, men) equal the knights-first allocation: charge knights 3 at a time, then men-at-arms 1 at a time. |
| Damage.ComputeDamageMaaFirst | fief_army_simulation.py:63-77 | The loop's (damage, knights, men) equal the men-at-arms-first allocation. That allocation thins the men while more than 2 stand, lets a knight take 3 when 2 or fewer are left, then charges the remaining knights. The browser port's loop (docs/battle-simulator.js lines 41-60) is the same. |
| Damage.LeftoverAgrees | fief_army_simulation.py:91-96 | The two allocators always leave the same damage, so the "illegal strategy" exception cannot be raised. Each leftover is the damage that neither knights, in threes, nor men-at-arms can absorb. |
| Damage.AllocatorsSettle | fief_army_simulation.py:63-89 | Both allocators only remove units, spend exactly 3 per knight and 1 per man, and stop with nothing more to absorb (no men and under 3 damage or no knights). |
| Damage.KnightsFirstSettles | fief_army_simulation.py:79-89 | The knights-first allocation absorbs correctly and ends settled. |
| Damage.MenPhaseSettles | fief_army_simulation.py:67-73 | The first loop absorbs correctly and leaves damage only when no men-at-arms remain. |
| Damage.ChargeKnightsAbsorbs | fief_army_simulation.py:74-76 | Charging knights keeps the men, never adds damage, and leaves 3 or more damage only with no knights left. |
| Damage.GlancingBlow | fief_army_simulation.py:63-89 | With no men-at-arms, damage under 3 changes nothing under either strategy. |
| Armies.ArmyState.Dice | fief_army_simulation.py:116-132 | An army without points rolls no dice. The browser port's dice (docs/battle-simulator.js lines 105-126) use the same rule. |
| Armies.ArmyState.AttackerPenalty | fief_army_simulation.py:134-139 | -2 exactly for a fortified city, -1 exactly for a stronghold, 0 otherwise. |
| Armies.DiceFormsAgree | battlesimulation.py:220-246 | The duplicate's dice rule (no lower bound on strength, floored with max) equals the main one on every army and penalty. |
| Armies.PointsCount | fief_army_simulation.py:105-106 | Army points are 0 exactly when no unit is left, and lie between one and three per unit. |
| Armies.ArmyState.Strength | fief_army_simulation.py:108-114 | Strength is the army points or one more. |
| Armies.ArmyState.IsDefeated | fief_army_simulation.py:60-61 | An army is defeated exactly when its army points are 0. |
| Armies.StrengthBonus | fief_army_simulation.py:108-114 | Strength is points plus one exactly for a lord, titled lady or d'Arc. |
| Armies.DiceInRange | fief_army_simulation.py:116-156 | Against any defender's penalty an army rolls 0 to 4 dice, the keys of the dice-set table. With points and no fortification against it, it rolls at least one. |
| Armies.FortifiedDice | fief_army_simulation.py:116-139 | Which armies still roll against a stronghold (strength 7+, or d'Arc) and against a fortified city (strength 13+, or 7+ with d'Arc), both ways. |
| Armies.DefeatedRollsNothing | fief_army_simulation.py:60-132 | Defeated means no army points, and a defeated army rolls nothing. |
| Armies.DamagedLoses | fief_army_simulation.py:91-106 | Damage never raises a count and keeps structure and leader. The points lost equal the damage minus the leftover. |
| Armies.DamageBites | fief_army_simulation.py:63-103 | Damage of 3, or of 1 when men-at-arms stand, always lowers an army's points. |
| Armies.MenOnlyLosses | fief_army_simulation.py:63-89 | Without knights, an army loses one man per point of damage down to zero, under either strategy. |
| Armies.Army.constructor | fief_army_simulation.py:29-33 | A new army object holds the given fields. |
| Armies.Army.ApplyDamage | fief_army_simulation.py:91-103 | A strategy commits that allocator's counts and returns its leftover. Any other value fails with battlesimulation.py's "Unknown strategy" (lines 173-197) and changes nothing. |
| Battles.BattleStatus | fief_army_simulation.py:193-214 | Resolved exactly when a side has no dice: 0 iff neither has, -1 iff only A lacks, +1 iff only B lacks. Ongoing only with points on both sides. |
| Battles.AfterRound | fief_army_simulation.py:238-246 | After a round, resolved exactly when a side is defeated, with the verdict of who is. |
| Battles.AdvancedBelow | fief_army_simulation.py:234-237 | A round leaves a battle with no count higher and everything else equal. |
| Battles.BelowOrder | fief_army_simulation.py:216-246 | "Reachable by rounds" is reflexive, transitive and antisymmetric, and keeps a battle within the limits. |
| Battles.Battle.constructor | fief_army_simulation.py:161-167 | A battle object holds two fresh army objects with the given fields. |
| Battles.Battle.Copy | fief_army_simulation.py:266 | The deep copy has new army objects and the same value. |
| Battles.Battle.Round | fief_army_simulation.py:216-246 | With no dice on a side the state is kept and the status code yielded. Otherwise each side takes the other's roll from the tape by its own strategy, and the yield is the after-round status. |
| Battles.Battle.Play | fief_army_simulation.py:248-252 | The loop ends with exactly the result, final battle and unused tape that `Played` gives for the battle and tape it started from. |
| Battles.PlayedFacts | fief_army_simulation.py:216-252 | Playing a battle in which a side has no dice returns its status at once, unchanged and drawing nothing. A returned status is resolved, and it is either the status of the final battle or that battle's after-round verdict. No result comes back only when both sides still have dice and the tape holds fewer draws than they roll. The final battle is reachable by rounds, and the unused tape is a suffix of the tape. |
| Battles.RoundOnReachable | fief_army_simulation.py:216-237 | An ongoing battle can end in every outcome that the battle left by a round drawn from any tape can end in: the dice the round rolls lie in the ranges the reachability relation allows. |
| Battles.ReachableCodes | fief_army_simulation.py:193-214 | Every outcome a battle can end in, within any number of rounds, is 1, 0 or -1. |
| Scenarios.LoneKnight | fief_army_simulation.py:116-132 | A lone knight rolls one die and absorbs nothing from a hit of 1. |
| Scenarios.SingleOne | fief_army_simulation.py:149-154 | One die showing 1 rolls 1 plus the bonus. |
| Scenarios.StalledRound | fief_army_simulation.py:282-283 | Two lone knights rolling 1s leave the battle exactly as it was, and it is still ongoing. So the recursion of resolve has no bound of its own. |
| Scenarios.GatesDice | fief_army_simulation.py:116-139 | One man in a fortified city and thirteen in the field each roll one die against the other. |
| Scenarios.GarrisonFalls | fief_army_simulation.py:91-103 | A hit of 1 defeats a lone man-at-arms. |
| Scenarios.HostThinned | fief_army_simulation.py:105-126 | Thirteen men-at-arms hit for 1 fall to strength 12. |
| Scenarios.GatesRound | fief_army_simulation.py:234-244 | That round defeats the garrison and leaves the host with no dice against the city. |
| Scenarios.YieldDiffersFromStatus | fief_army_simulation.py:193-246 | The round yields -1 while battle_status of the state it leaves says 0. |
| Encoding.ValuesDistinct | fief_army_simulation.py:9-21 | Enum values identify their members: structure and leader values are at most 2, strategy values at most 1. |
| Encoding.ArmyHash | fief_army_simulation.py:35-55 | Fails exactly when men-at-arms exceed 13 or knights exceed 8, with the men-at-arms error first. |
| Encoding.ArmyHashValue | fief_army_simulation.py:35-55 | A legal army hashes to men + 16·knights + 256·structure + 1024·leader. |
| Encoding.ArmyCodeInjective | fief_army_simulation.py:35-55 | Legal armies have equal codes iff they are equal, and every code is below 4096. |
| Encoding.ArmyHashInjective | fief_army_simulation.py:35-55 | Two legal armies hash alike iff they are equal; the copy in battlesimulation.py (lines 79-106) packs the same way. |
| Encoding.CorrectedWidth | fief_army_simulation.py:141 | The army width with a leader field wide enough for d'Arc is 12, one more than BIN_SIZE_ARMY. |
| Encoding.ArmyHashFits | fief_army_simulation.py:35-55 | A legal army's hash fits BIN_SIZE_ARMY bits iff its leader is not d'Arc, and always fits 12 bits. |
| Encoding.PackBattle | fief_army_simulation.py:169-188 | Packing a battle fails exactly when it is over the limits, with A's error first. |
| Encoding.PackBattleValue | fief_army_simulation.py:169-188 | A legal battle packs its two army codes, two strategies and cavalcade at the given army width. |
| Encoding.BattleHash | fief_army_simulation.py:169-188 | The battle hash as written fails exactly for battles over the limits. |
| Encoding.StrategyBitIs | fief_army_simulation.py:173-177 | The merged strategy bit is the OR of the two values the source sets there: d'Arc's high leader bit and A's strategy value, which is at most 1. |
| Encoding.LowWordSplit | fief_army_simulation.py:49-53 | An army's code is its 11-bit low word plus d'Arc's bit at 2^11. |
| Encoding.BattleHashValue | fief_army_simulation.py:169-188 | A legal battle's hash as written, spelled out bit by bit with the overlap. |
| Encoding.SeenCodeInjective | fief_army_simulation.py:169-188 | The bits the written hash keeps determine one another uniquely. |
| Encoding.BattleHashSeen | fief_army_simulation.py:169-188 | The written hash is a one-to-one code of what it keeps: low words, merged strategy bits and cavalcade. |
| Encoding.BattleHashCollisions | fief_army_simulation.py:169-188 | Two legal battles hash alike iff their kept parts agree; the copy in battlesimulation.py (lines 329-354) packs the same way. |
| Encoding.LowWordKeeps | fief_army_simulation.py:43-53 | Low words agree iff counts, structure and "is a lord" agree. |
| Encoding.BattleHashInjectiveWithoutDarc | fief_army_simulation.py:169-188 | Without d'Arc the written hash is injective on legal battles. |
| Encoding.BattleHashInjectiveMenFirst | fief_army_simulation.py:169-188 | With both strategies men-at-arms first, the written hash is injective on legal battles. |
| Encoding.DarcCollision | fief_army_simulation.py:169-188 | With d'Arc leading A, A's strategy does not reach the hash. The hash equals that of a leaderless A charging knights first. |
| Encoding.CorrectedBattleHash | fief_army_simulation.py:169-188 | The corrected hash fails exactly for battles over the limits. |
| Encoding.CorrectedBattleHashValue | fief_army_simulation.py:169-188 | The corrected hash is the plain sum of its fields at 12-bit army slots. |
| Encoding.CorrectedBattleHashInjective | fief_army_simulation.py:169-188 | The corrected hash is injective on legal battles, in both directions. |
| Cache.Record.Add | fief_army_simulation.py:269-277 | Counting an outcome adds one sample and one to exactly the count of its code, leaves the other two counts as they were, and keeps the counts consistent. |
| Cache.LookupValid | fief_army_simulation.py:264 | `Lookup`, the `db.get` with default (0, 0, 0, 0): a stored battle reads its record; a missing one reads a record with no samples, so with consistency every count is 0. Every record read is consistent, and counts only outcomes its battle can end in. |
| Cache.AddGrows | fief_army_simulation.py:284-295 | Counting an outcome never lowers a count. |
| Cache.GrowsReached | fief_army_simulation.py:330-331 | Growth of the table is transitive and keeps battles at their reached sample counts. |
| Cache.CountedExtends | fief_army_simulation.py:283-296 | Writing a counted record for a battle after resolving a battle it reaches keeps the table consistent, and only adds battles it reaches. |
| Cache.SampleWitnessed | fief_army_simulation.py:298 | A draw from a record that counts only outcomes its battle can end in picks one of those outcomes. |
| Cache.Sample | fief_army_simulation.py:298 | The weighted draw returns 1, 0 or -1. |
| Cache.SampleSeen | fief_army_simulation.py:298 | Some draw yields a code iff its count is positive. |
| Cache.SampleWeights | fief_army_simulation.py:298 | Over the draws 0 up to the sample total, the draw yields 1 exactly `wins` times, 0 exactly `ties` times and -1 exactly `losses` times: the counts `random.sample` weighs by. |
| Cache.Rates | fief_army_simulation.py:259-261 | The three rates of a record sum to 1 and each lies in [0, 1]. |
| Cache.BattleCache.constructor | fief_army_simulation.py:256-257 | The cache starts empty. |
| Cache.BattleCache.Probability | fief_army_simulation.py:259-261 | Fails for a battle over the limits and for one with no samples, and only then. Otherwise win, loss and tie rates sum to 1, each in [0, 1]. |
| Cache.BattleCache.Resolve | fief_army_simulation.py:263-298 | Refuses exactly the battles over the limits, with the hash's error. Samples a record at 1000 without writing. Counts a resolved battle's status directly. Otherwise writes the record read at the start plus the outcome it returns. Every outcome it returns or counts is one the battle can end in (`Reachable`). The table keeps that property for every record, and only gains battles the battle reaches. |
| Cache.BattleCache.Complete | fief_army_simulation.py:315-331 | When the tape lasts, every battle stored at the start ends with at least min(limit, 1000) samples. No record shrinks. |
| Cache.BattleCache.Populate | fief_army_simulation.py:300-313 | When the tape lasts, every pairing the loops enumerate is in the table. No record shrinks. |
| Cache.LeaderOf | fief_army_simulation.py:312 | `ArmyLeader(n)` for n in 0..2 has value n. |
| Cache.StructureOf | fief_army_simulation.py:312 | `DefensiveStructure(n)` for n in 0..2 has value n. |
| Cache.RankBounds | fief_army_simulation.py:300-313 | Each enumerated pairing has an iteration number in 0..428651. |
| Cache.RankInjective | fief_army_simulation.py:300-313 | No two enumerated pairings share an iteration number. |
| Cache.CoveredStep | fief_army_simulation.py:311-313 | Resolving the pairing of the current iteration extends coverage by one. |
| Cache.PopulationCovered | fief_army_simulation.py:300-313 | Coverage of all 428652 iterations covers every enumerated pairing. |
| Simulator.StrategyOf | docs/battle-simulator.js:78-91 | The port takes knights first exactly for the value 1 and men-at-arms first for every other value. |
| Simulator.PortAgrees | docs/battle-simulator.js:78-91 | On a real strategy value the port damages an army as the Python army does. On any other value it damages it as men-at-arms first. |
| Simulator.Army.constructor | docs/battle-simulator.js:26-31 | A new army object holds the given fields. |
| Simulator.Army.Copy | docs/battle-simulator.js:33-35 | A copy is a new object with the same fields. |
| Simulator.Army.IsDefeated | docs/battle-simulator.js:37-39 | Defeated iff no army points, as in the Python army. |
| Simulator.Army.ApplyDamage | docs/battle-simulator.js:78-91 | Commits the chosen allocator's counts and returns the damage no allocation can absorb. |

## Left out

- I/O is not modelled: progress prints, the datetime timing in `complete`,
  `serialize` and the CSV writers.
- The Monte-Carlo `battle` estimators and the combination writers that sit
  outside the cache are not modelled.
- The browser port's UI and its battle and dice classes are not modelled;
  only its Army class is.
- Randomness (`random.randint`, `random.sample`) is a tape of naturals that
  is passed in. A tape that runs out ends the call (`OutOfRolls`, or
  `finished == false`). Because the tape is finite, the model says nothing
  about the unbounded recursion that a stalled round allows.
- Python's recursion limit is not modelled.
- Cache.BattleCache.Probability: rates are exact reals, not floats. An unseen
  battle gives `NoSamples` where the source divides by zero.
- Cache.BattleCache.Complete: the order in which it visits battles, sorted by
  sample count and possibly reversed, is not modelled. Only the final lower
  bound is stated.
- Cache.BattleCache.Populate: the contract states coverage of every
  pairing, not the counts each one receives.
- Cache.BattleCache.Resolve: in the recursive case, the returned outcome is
  stated as one the battle can end in, not as a function of the tape. The
  records of the battles it reaches are bounded by the growth, consistency
  and reachability invariants, not stated exactly.
- Armies.Army.ApplyDamage: `fief_army_simulation.py` raises a bare
  exception for an unknown strategy, and the model uses the duplicate's
  "Unknown strategy" message for both.
- Encoding.HashError.Message: `fief_army_simulation.py` raises a bare
  exception for an army over the limits; the messages "Too many
  men-at-arms" and "Too many knights" come from `battlesimulation.py`.
- The diagnostic print before "illegal strategy" is not modelled; that branch
  is unreachable (Damage.LeftoverAgrees).
- Army counts in `fief_army_simulation.py` are modelled as naturals. The
  source's Army accepts negative counts, and its hash checks only the upper
  limits, so a negative army is not modelled.
- JavaScript numbers are modelled as naturals. The port is only called with
  small non-negative counts, so floating-point effects do not arise.
- The deep copy in `resolve` is a fresh `Battle` built from the state's
  value. Aliasing inside the copied battle is not modelled beyond the two
  armies being distinct objects.

## Findings

| source | as written | input that shows it | evidently intended | confidence | as-written member | corrected member |
|---|---|---|---|---|---|---|
| fief_army_simulation.py:25 | `BIN_SIZE_ARMY_LEADER` is taken from LORD_OR_TITLED_LADY (1 bit). D'Arc's value 2 sets bit 11 of an army, which `Battle.hash` then ORs with A's strategy bit. | Any legal battle with A led by d'Arc: the men-at-arms-first and knights-first variants hash alike, and both hash like a leaderless A charging knights first. | A leader field wide enough for d'Arc (12-bit army slots), making the battle hash injective. The dictionary still compares battles by equality, so records are not mixed up; only the compact code is. | not executed | Encoding.DarcCollision | Encoding.CorrectedBattleHashInjective |

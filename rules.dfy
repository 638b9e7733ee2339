/**
 * The game's enumerations and the limits and field widths derived from
 * them.
 */
module Rules {
  import opened Bits

  const MAX_MEN_AT_ARMS: nat := 13
  const MAX_KNIGHTS: nat := 8

  /** Which unit type absorbs damage first. */
  datatype DamageStrategy = MenAtArmsFirst | KnightsFirst
  {
    function Value(): nat
    {
      match this
      case MenAtArmsFirst => 0
      case KnightsFirst => 1
    }
  }

  /** Fortification of a defending army. */
  datatype DefensiveStructure = NoStructure | Stronghold | FortifiedCity
  {
    function Value(): nat
    {
      match this
      case NoStructure => 0
      case Stronghold => 1
      case FortifiedCity => 2
    }
  }

  /** Who leads an army. */
  datatype ArmyLeader = NoneOrLady | LordOrTitledLady | Darc
  {
    function Value(): nat
    {
      match this
      case NoneOrLady => 0
      case LordOrTitledLady => 1
      case Darc => 2
    }
  }

  // Field widths, each computed as the bit length of one enumeration or limit value.
  const BIN_SIZE_MEN_AT_ARMS: nat := BitLength(MAX_MEN_AT_ARMS)
  const BIN_SIZE_KNIGHTS: nat := BitLength(MAX_KNIGHTS)
  const BIN_SIZE_DAMAGE_STRATEGY: nat := BitLength(KnightsFirst.Value())
  /** Measured on LORD_OR_TITLED_LADY, the largest leader value but one. */
  const BIN_SIZE_ARMY_LEADER: nat := BitLength(LordOrTitledLady.Value())
  const BIN_SIZE_DEFENSIVE_STRUCTURE: nat := BitLength(FortifiedCity.Value())
  const BIN_SIZE_ARMY: nat :=
    BIN_SIZE_MEN_AT_ARMS + BIN_SIZE_KNIGHTS + BIN_SIZE_DEFENSIVE_STRUCTURE + BIN_SIZE_ARMY_LEADER

  /** The widths the constants above evaluate to. */
  lemma BinSizes()
    ensures BIN_SIZE_MEN_AT_ARMS == 4 && BIN_SIZE_KNIGHTS == 4
    ensures BIN_SIZE_DEFENSIVE_STRUCTURE == 2 && BIN_SIZE_ARMY_LEADER == 1
    ensures BIN_SIZE_DAMAGE_STRATEGY == 1 && BIN_SIZE_ARMY == 11
    ensures Darc.Value() >= Pow2(BIN_SIZE_ARMY_LEADER)
  {
    assert BitLength(13) == 1 + BitLength(6) == 2 + BitLength(3) == 3 + BitLength(1) == 4;
    assert BitLength(8) == 1 + BitLength(4) == 2 + BitLength(2) == 3 + BitLength(1) == 4;
    assert BitLength(2) == 1 + BitLength(1) == 2;
  }
}

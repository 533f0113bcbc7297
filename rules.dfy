/**
 * The static rule tables of the game: weapons, armors, unit classes,
 * terrain flags, terrains, movement types, unit flags and unit types,
 * each record carrying its own integer id.
 */
module Rules {

  datatype Weapon = Weapon(
    id: int,
    name: string,
    requireDeployed: bool,
    rangeMap: map<int, int>,   // distance -> efficiency percent
    powerMap: map<int, int>)   // armor id -> base power

  datatype Armor = Armor(id: int, name: string)

  datatype UnitClass = UnitClass(id: int, name: string)

  datatype TerrainFlag = TerrainFlag(id: int, name: string)

  /**
   * The source record also declares an integer `defense`, but the
   * decoder never assigns it, so it is not part of the decoded value.
   */
  datatype TerrainType = TerrainType(
    id: int,
    name: string,
    buildTypes: set<int>,
    repairTypes: set<int>,
    flags: set<int>)

  /** `effectMap`: terrain id -> movement cost, -1 meaning impassable. */
  datatype MovementType = MovementType(id: int, name: string, effectMap: map<int, int>)

  datatype UnitFlag = UnitFlag(id: int, name: string)

  datatype UnitType = UnitType(
    id: int,
    name: string,
    unitClass: int,
    price: int,
    primaryWeapon: int,        // -1 when the unit has none
    secondaryWeapon: int,      // -1 when the unit has none
    armor: int,
    defenseMap: map<int, int>, // terrain id -> defense override
    movementType: int,
    movement: int,
    carryClasses: set<int>,
    carryNum: int,
    flags: set<int>)

  datatype Rules = Rules(
    weapons: map<int, Weapon>,
    armors: map<int, Armor>,
    unitClasses: map<int, UnitClass>,
    terrainFlags: map<int, TerrainFlag>,
    terrainTypes: map<int, TerrainType>,
    movementTypes: map<int, MovementType>,
    unitFlags: map<int, UnitFlag>,
    unitTypes: map<int, UnitType>)

  const EmptyRules: Rules := Rules(map[], map[], map[], map[], map[], map[], map[], map[])

  // The id of each kind of record, as a function value for the table builder.
  function WeaponId(w: Weapon): int { w.id }
  function ArmorId(a: Armor): int { a.id }
  function UnitClassId(c: UnitClass): int { c.id }
  function TerrainFlagId(f: TerrainFlag): int { f.id }
  function TerrainTypeId(t: TerrainType): int { t.id }
  function MovementTypeId(m: MovementType): int { m.id }
  function UnitFlagId(f: UnitFlag): int { f.id }
  function UnitTypeId(u: UnitType): int { u.id }
}

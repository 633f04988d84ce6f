/**
 * The already-parsed game records the kill calculator reads: units,
 * weapons and the recursive weapon-effect tree. Fields are the ones the
 * engine actually reads; f32 quantities are modelled as reals.
 */
module GameData {
  import opened Wrappers

  /** Extra damage per target attribute; an absent entry adds nothing. */
  datatype Bonuses = Bonuses(
    armored: Option<real>,
    biological: Option<real>,
    light: Option<real>,
    massive: Option<real>,
    mechanical: Option<real>)

  /**
   * One node of a weapon's effect tree. `persistentCount` defaults to 1,
   * `persistentPeriods` to the single zero delay. An absent
   * `setEffects` list is iterated exactly like an empty one, so the model
   * keeps only the (possibly empty) list.
   */
  datatype WeaponEffect = WeaponEffect(
    dmgAmount: Option<real>,
    bonuses: Option<Bonuses>,
    persistentCount: Option<nat>,
    persistentPeriods: Option<seq<real>>,
    setEffects: seq<WeaponEffect>)

  datatype Weapon = Weapon(name: string, period: real, effect: WeaponEffect)

  datatype Unit = Unit(
    name: string,
    race: string,
    lifeMax: real,
    lifeArmor: real,
    lifeRegenRate: real,
    shieldsMax: real,
    invulnerable: bool,
    abilityCommands: seq<string>,
    weapons: seq<string>,
    armored: bool,
    biological: bool,
    light: bool,
    massive: bool,
    mechanical: bool)

  /** Weapons by identifier. */
  type WeaponData = map<string, Weapon>

  /**
   * One game-data version: the unit catalog in its iteration order and the
   * weapon table.
   */
  datatype Game = Game(unitData: seq<Unit>, weaponData: WeaponData)

  /** The repeat count of a node, with its default of one. */
  function Count(e: WeaponEffect): nat {
    match e.persistentCount
    case Some(n) => n
    case None => 1
  }

  /** The inter-repeat delays of a node, with its default of one zero delay. */
  function PeriodsOf(e: WeaponEffect): seq<real> {
    match e.persistentPeriods
    case Some(ps) => ps
    case None => [0.0]
  }

  /**
   * The tree can be expanded without indexing an empty period list: a node
   * that repeats at least once has a period to index, and its sub-effects,
   * which it then expands, are expandable too. A node that never repeats
   * is never looked into.
   */
  predicate WellFormed(e: WeaponEffect) {
    Count(e) == 0 ||
      (PeriodsOf(e) != [] && forall c :: c in e.setEffects ==> WellFormed(c))
  }
}

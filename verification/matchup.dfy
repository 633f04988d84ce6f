/**
 * The matchup evaluator: picks the units of each race that can take part
 * in combat and computes a kill calculation for every attacker against
 * every defender.
 */
module Matchup {
  import opened Wrappers
  import opened GameData
  import opened Instances
  import opened Effects
  import opened Kill

  datatype Error = WebApp(message: string)

  const NoSuchRace: Error := WebApp("No such race")

  /** A unit takes part in a matchup of `race` when it can be hurt, can act, and is of that race. */
  predicate Eligible(u: Unit, race: string) {
    !u.invulnerable && |u.abilityCommands| > 0 && u.race == race
  }

  /** The eligible units of `race`, in catalog order. */
  function FilterEligible(units: seq<Unit>, race: string): (r: seq<Unit>)
    ensures forall u :: multiset(r)[u] == if Eligible(u, race) then multiset(units)[u] else 0
    ensures forall u :: u in r ==> Eligible(u, race)
    ensures |r| <= |units|
  {
    if units == [] then []
    else
      assert units == [units[0]] + units[1..];
      (if Eligible(units[0], race) then [units[0]] else []) + FilterEligible(units[1..], race)
  }

  /** Whether some unit of the catalog is eligible for `race`. */
  predicate HasEligible(units: seq<Unit>, race: string) {
    exists u :: u in units && Eligible(u, race)
  }

  /**
   * The units of `race` that can take part, or the "No such race" error
   * when there is none.
   */
  function GetUnits(game: Game, race: string): (r: Result<seq<Unit>, Error>)
    ensures r.Failure? <==> !HasEligible(game.unitData, race)
    ensures r.Failure? ==> r.error == NoSuchRace
    ensures r.Success? ==> r.value != [] && forall u :: u in r.value ==> u in game.unitData && Eligible(u, race)
    ensures r.Success? ==> forall u :: u in game.unitData && Eligible(u, race) ==> u in r.value
  {
    var units := FilterEligible(game.unitData, race);
    if units == [] then
      assert forall u :: u in game.unitData && Eligible(u, race) ==> multiset(units)[u] > 0;
      Failure(NoSuchRace)
    else
      assert units[0] in units && multiset(units)[units[0]] > 0;
      Success(units)
  }

  /** The kill calculation of every attacker (rows) against every defender (columns). */
  function KillGrid(attackers: seq<Unit>, defenders: seq<Unit>, weapons: WeaponData)
    : (g: seq<seq<KillCalculation>>)
    requires defenders != [] ==> forall u :: u in attackers ==> WeaponExpandable(u, weapons)
    ensures |g| == |attackers|
    ensures forall a :: 0 <= a < |g| ==> |g[a]| == |defenders|
    ensures forall a, d :: 0 <= a < |attackers| && 0 <= d < |defenders| ==>
      g[a][d] == KillOf(attackers[a], defenders[d], weapons)
  {
    seq(|attackers|, a requires 0 <= a < |attackers| =>
      seq(|defenders|, d requires 0 <= d < |defenders| => KillOf(attackers[a], defenders[d], weapons)))
  }

  datatype MatchupResult = MatchupResult(
    attackers: seq<string>,
    defenders: seq<string>,
    killCalculations: seq<seq<KillCalculation>>)

  function Names(units: seq<Unit>): (r: seq<string>)
    ensures |r| == |units| && forall k :: 0 <= k < |units| ==> r[k] == units[k].name
  {
    seq(|units|, k requires 0 <= k < |units| => units[k].name)
  }

  /**
   * The grid of a matchup between two races in one game: an error unless
   * both races have eligible units, otherwise one row per eligible attacker
   * and one column per eligible defender.
   */
  function Evaluate(game: Game, attackerRace: string, defenderRace: string)
    : (r: Result<MatchupResult, Error>)
    requires HasEligible(game.unitData, defenderRace) ==>
      forall u :: u in game.unitData && Eligible(u, attackerRace) ==> WeaponExpandable(u, game.weaponData)
    ensures r.Success? <==> HasEligible(game.unitData, attackerRace) && HasEligible(game.unitData, defenderRace)
    ensures r.Failure? ==> r.error == NoSuchRace
    ensures r.Success? ==>
      && |r.value.killCalculations| == |r.value.attackers| > 0
      && forall a :: 0 <= a < |r.value.attackers| ==>
           |r.value.killCalculations[a]| == |r.value.defenders| > 0
    ensures r.Success? ==>
      var attackers := GetUnits(game, attackerRace).value;
      var defenders := GetUnits(game, defenderRace).value;
      && r.value.attackers == Names(attackers)
      && r.value.defenders == Names(defenders)
      && forall a, d :: 0 <= a < |attackers| && 0 <= d < |defenders| ==>
           r.value.killCalculations[a][d] == KillOf(attackers[a], defenders[d], game.weaponData)
  {
    var attackers := GetUnits(game, attackerRace);
    var defenders := GetUnits(game, defenderRace);
    if attackers.Failure? then Failure(attackers.error)
    else if defenders.Failure? then Failure(defenders.error)
    else
      Success(MatchupResult(
        Names(attackers.value),
        Names(defenders.value),
        KillGrid(attackers.value, defenders.value, game.weaponData)))
  }

  /** Two defenders with the same five attribute flags, the only thing bonus damage looks at. */
  predicate SameAttributes(u: Unit, v: Unit) {
    && u.armored == v.armored && u.biological == v.biological && u.light == v.light
    && u.massive == v.massive && u.mechanical == v.mechanical
  }

  /** Two defenders with the same life maximum, armor and regeneration, the figures one attack reads. */
  predicate SameVitals(u: Unit, v: Unit) {
    u.lifeMax == v.lifeMax && u.lifeArmor == v.lifeArmor && u.lifeRegenRate == v.lifeRegenRate
  }

  /** Two units that fight identically: the same defensive profile and the same weapon list. */
  predicate SameCombatProfile(u: Unit, v: Unit) {
    && SameVitals(u, v) && u.shieldsMax == v.shieldsMax
    && SameAttributes(u, v)
    && u.weapons == v.weapons
  }

  lemma SameProfileSameNodeDamage(e: WeaponEffect, u: Unit, v: Unit)
    requires SameAttributes(u, v)
    ensures NodeDamage(e, u) == NodeDamage(e, v)
  {
  }

  lemma {:induction false} SameProfileSameExpand(e: WeaponEffect, u: Unit, v: Unit, t: real)
    requires WellFormed(e) && SameAttributes(u, v)
    ensures Expand(e, u, t) == Expand(e, v, t)
    decreases e, 3, 0
  {
    SameProfileSameRepeats(e, u, v, t, 0);
  }

  lemma {:induction false} SameProfileSameRepeats(e: WeaponEffect, u: Unit, v: Unit, t: real, i: nat)
    requires WellFormed(e) && SameAttributes(u, v) && i <= Count(e)
    ensures Repeats(e, u, t, i) == Repeats(e, v, t, i)
    decreases e, 2, Count(e) - i
  {
    if i < Count(e) {
      SameProfileSameNodeDamage(e, u, v);
      SameProfileSameChildren(e, u, v, RepeatStart(e, t, i), 0);
      SameProfileSameRepeats(e, u, v, t, i + 1);
    }
  }

  lemma {:induction false} SameProfileSameChildren(e: WeaponEffect, u: Unit, v: Unit, s: real, j: nat)
    requires WellFormed(e) && Count(e) > 0 && SameAttributes(u, v) && j <= |e.setEffects|
    ensures Children(e, u, s, j) == Children(e, v, s, j)
    decreases e, 0, |e.setEffects| - j
  {
    if j < |e.setEffects| {
      var c := e.setEffects[j];
      assert c in e.setEffects;
      SameProfileSameExpand(c, u, v, s);
      SameProfileSameChildren(e, u, v, s, j + 1);
    }
  }

  /** One attack reads the defender's life maximum, armor and regeneration rate and nothing else. */
  lemma SameVitalsSameStep(c: Combat, instances: seq<DamageInstance>, period: real, u: Unit, v: Unit)
    requires |instances| > 0 && SameVitals(u, v)
    ensures Step(c, instances, period, u) == Step(c, instances, period, v)
  {
    StepParts(c, instances, period, u);
    StepParts(c, instances, period, v);
    var elapsed := AttackTime(instances, period, c.i) - c.prevTime;
    RegenerateIs(c.life, elapsed, u);
    RegenerateIs(c.life, elapsed, v);
  }

  lemma {:induction false} SameProfileSameSimulation(
    c: Combat, instances: seq<DamageInstance>, period: real, u: Unit, v: Unit)
    requires |instances| > 0 && c.i < HitCap && SameVitals(u, v)
    ensures Simulate(c, instances, period, u) == Simulate(c, instances, period, v)
    decreases HitCap - c.i
  {
    SimulateUnfold(c, instances, period, u);
    SimulateUnfold(c, instances, period, v);
    SameVitalsSameStep(c, instances, period, u, v);
    var next := Step(c, instances, period, u);
    if !(next.i >= HitCap || next.life < 1.0) {
      SameProfileSameSimulation(next, instances, period, u, v);
    }
  }

  /** Only a unit's combat profile matters to the kill calculation, as attacker or as defender. */
  lemma SameProfileSameKill(a1: Unit, a2: Unit, d1: Unit, d2: Unit, weapons: WeaponData)
    requires WeaponExpandable(a1, weapons)
    requires SameCombatProfile(a1, a2) && SameCombatProfile(d1, d2)
    ensures KillOf(a1, d1, weapons) == KillOf(a2, d2, weapons)
  {
    if GetWeapon(a1, weapons).Some? {
      var w := GetWeapon(a1, weapons).value;
      SameProfileSameExpand(w.effect, d1, d2, 0.0);
      var instances := DamageInstances(w.effect, d1);
      if instances != [] {
        SameProfileSameSimulation(Start(d1), instances, w.period, d1, d2);
      }
    }
  }

  /**
   * In a mirror matchup, two units with the same combat profile get the
   * same kill calculation against each other on both sides of the diagonal.
   */
  lemma MirrorCellsAgree(units: seq<Unit>, weapons: WeaponData, x: nat, y: nat)
    requires forall u :: u in units ==> WeaponExpandable(u, weapons)
    requires x < |units| && y < |units| && SameCombatProfile(units[x], units[y])
    ensures KillGrid(units, units, weapons)[x][y] == KillGrid(units, units, weapons)[y][x]
  {
    assert units[x] in units;
    SameProfileSameKill(units[x], units[y], units[y], units[x], weapons);
  }
}

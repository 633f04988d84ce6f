/**
 * The kill simulator: replays one firing cycle's damage instances, cycle
 * after cycle `period` seconds apart, against a defender's life and
 * shields, with life regeneration between hits and shield-then-armor
 * mitigation, until the defender's life drops below 1 or 999 attacks have
 * been made.
 *
 * `Simulate` is the specification of the loop, one `Step` per attack;
 * `Fight` is the loop itself, proved to end in the state `Simulate`
 * describes, and `CalculateKill` wraps it with the weapon lookup, the
 * expansion and the reported figures.
 */
module Kill {
  import opened Wrappers
  import opened GameData
  import opened Instances
  import opened Effects

  /** Every hit does at least this much damage, whatever the armor. */
  const MinDmg: real := 0.5

  /** Upgrades are not modelled by the engine: shields have no armor of their own. */
  const ShieldDefense: real := 0.0

  /** Number of attacks after which the simulation gives up. */
  const HitCap: nat := 999

  /** Whether the weapon can damage the target, in how many firings, and after how long. */
  datatype KillCalculation = KillCalculation(canHit: bool, hits: int, time: real)

  const CannotHit: KillCalculation := KillCalculation(false, 0, 0.0)

  /** The defender after `i` attacks, the last of which landed at `prevTime`. */
  datatype Combat = Combat(life: real, shields: real, i: nat, prevTime: real)

  function Min(a: real, b: real): real { if a <= b then a else b }

  function Max(a: real, b: real): real { if a >= b then a else b }

  /** The weapon an attacker uses: the one named first in its weapon list, if it exists. */
  function GetWeapon(attacker: Unit, weapons: WeaponData): (r: Option<Weapon>)
    ensures r.Some? <==> |attacker.weapons| > 0 && attacker.weapons[0] in weapons
    ensures r.Some? ==> r.value == weapons[attacker.weapons[0]]
  {
    if |attacker.weapons| > 0 then
      var id := attacker.weapons[0];
      if id in weapons then Some(weapons[id]) else None
    else None
  }

  /**
   * The attacker's weapon, if it has one, can be expanded: the kill
   * calculation looks at no other entry of the weapon table.
   */
  predicate WeaponExpandable(attacker: Unit, weapons: WeaponData) {
    GetWeapon(attacker, weapons).Some? ==> WellFormed(GetWeapon(attacker, weapons).value.effect)
  }

  /** When attack `i` lands: its firing cycle's start plus its offset within the cycle. */
  function AttackTime(instances: seq<DamageInstance>, period: real, i: nat): real
    requires |instances| > 0
  {
    (i / |instances|) as real * period + instances[i % |instances|].time
  }

  /** Life after regenerating for `elapsed` seconds, never above the maximum. */
  function Regenerate(life: real, elapsed: real, defender: Unit): (r: real)
    ensures r <= defender.lifeMax
    ensures r <= life + elapsed * defender.lifeRegenRate
    ensures r == defender.lifeMax || r == life + elapsed * defender.lifeRegenRate
  {
    Min(life + elapsed * defender.lifeRegenRate, defender.lifeMax)
  }

  /**
   * Life and shields after one hit of `dmg`: shields take the hit first
   * (at least `MinDmg`), and what exceeds them spills into life after armor;
   * without shields, life loses at least `MinDmg`.
   */
  function Hit(life: real, shields: real, dmg: real, armor: real): (r: (real, real))
    ensures r.1 >= 0.0
    ensures r.0 <= life
    ensures shields == 0.0 ==> r.1 == 0.0 && r.0 <= life - MinDmg
    ensures shields > 0.0 ==> r.1 == 0.0 || (r.1 <= shields - MinDmg && r.0 == life)
    ensures shields != 0.0 && r.1 > 0.0 ==> r.0 == life
  {
    if shields == 0.0 then
      (life - Max(dmg - armor, MinDmg), 0.0)
    else
      var spill := Max(dmg - ShieldDefense, MinDmg) - shields;
      if spill < 0.0 then (life, -spill)
      else (life - Max(spill - armor, 0.0), 0.0)
  }

  /** One attack: regenerate up to its time, then apply its damage. */
  function Step(c: Combat, instances: seq<DamageInstance>, period: real, defender: Unit): (r: Combat)
    requires |instances| > 0
    ensures r.i == c.i + 1
    ensures r.life <= defender.lifeMax
    ensures r.shields >= 0.0
    ensures c.shields == 0.0 ==> r.shields == 0.0
    ensures c.shields == 0.0 ==>
      r.life <= Regenerate(c.life, r.prevTime - c.prevTime, defender) - MinDmg
  {
    var time := AttackTime(instances, period, c.i);
    var life := Regenerate(c.life, time - c.prevTime, defender);
    var after := Hit(life, c.shields, instances[c.i % |instances|].dmgAmount, defender.lifeArmor);
    Combat(after.0, after.1, c.i + 1, time)
  }

  /** Attacks from `c` on until the defender's life is below 1 or the cap is reached. */
  function Simulate(c: Combat, instances: seq<DamageInstance>, period: real, defender: Unit): (r: Combat)
    requires |instances| > 0 && c.i < HitCap
    ensures c.i < r.i <= HitCap
    ensures r.i == HitCap || r.life < 1.0
    ensures r.shields >= 0.0
    ensures r.life <= defender.lifeMax
    decreases HitCap - c.i
  {
    var next := Step(c, instances, period, defender);
    if next.i >= HitCap || next.life < 1.0 then next
    else Simulate(next, instances, period, defender)
  }

  /** The defender before the first attack. */
  function Start(defender: Unit): Combat {
    Combat(defender.lifeMax, defender.shieldsMax, 0, 0.0)
  }

  /** Rounding to the nearest integer, halfway cases away from zero. */
  function Round(x: real): (r: int)
    ensures x >= 0.0 ==> x - 0.5 < r as real <= x + 0.5
    ensures x < 0.0 ==> x - 0.5 <= r as real < x + 0.5
  {
    if x >= 0.0 then (x + 0.5).Floor else -((-x + 0.5).Floor)
  }

  /** A time rounded to hundredths of a second. */
  function RoundToCentis(x: real): (r: real)
    ensures x - 0.005 <= r <= x + 0.005
    ensures (r * 100.0).Floor as real == r * 100.0
  {
    var y := x * 100.0;
    var n := Round(y);
    var r := n as real / 100.0;
    assert r * 100.0 == n as real;
    assert y - 0.5 <= n as real <= y + 0.5;
    assert r - x == (n as real - y) / 100.0;
    r
  }

  /** The number of firing cycles `n`-instance cycles need to make `i` attacks: the ceiling of `i / n`. */
  function CyclesFor(i: nat, n: nat): (h: int)
    requires n > 0
    ensures (h - 1) * n < i <= h * n
    ensures 1 <= i <= HitCap ==> 1 <= h <= HitCap
  {
    var x := i + n - 1;
    var q, r := x / n, x % n;
    assert x == n * q + r && 0 <= r < n;
    assert q * n == x - r;
    CeilingBounds(i, n, q);
    q
  }

  lemma {:induction false} MulAtLeast(a: nat, n: nat)
    requires n >= 1
    ensures a * n >= a
  {
    if a > 0 {
      MulAtLeast(a - 1, n);
      assert a * n == (a - 1) * n + n;
    }
  }

  lemma CeilingBounds(i: nat, n: nat, h: int)
    requires n > 0 && (h - 1) * n < i <= h * n
    ensures 1 <= i ==> 1 <= h
    ensures h <= i || i == 0
  {
    if h >= 1 {
      MulAtLeast(h - 1, n);
    } else {
      assert h * n == -((-h) * n);
      MulAtLeast(-h, n);
    }
  }

  /** What the simulation reports for one attacker against one defender. */
  function KillOf(attacker: Unit, defender: Unit, weapons: WeaponData): (r: KillCalculation)
    requires WeaponExpandable(attacker, weapons)
    ensures !r.canHit ==> r == CannotHit
    ensures r.canHit <==>
      GetWeapon(attacker, weapons).Some? &&
      DamageInstances(GetWeapon(attacker, weapons).value.effect, defender) != []
    ensures r.canHit ==> 1 <= r.hits <= HitCap
  {
    match GetWeapon(attacker, weapons)
    case None => CannotHit
    case Some(weapon) =>
      var instances := DamageInstances(weapon.effect, defender);
      if instances == [] then CannotHit
      else
        var end := Simulate(Start(defender), instances, weapon.period, defender);
        KillCalculation(true, CyclesFor(end.i, |instances|), RoundToCentis(end.prevTime))
  }

  /** Whether the simulation for this pair stopped at the attack cap rather than at a kill check. */
  predicate CapReached(attacker: Unit, defender: Unit, weapons: WeaponData)
    requires WeaponExpandable(attacker, weapons)
  {
    match GetWeapon(attacker, weapons)
    case None => false
    case Some(weapon) =>
      var instances := DamageInstances(weapon.effect, defender);
      instances != [] && Simulate(Start(defender), instances, weapon.period, defender).i == HitCap
  }

  /**
   * The engine's kill calculation, with its loop over attacks. `capped`
   * reports the diagnostic the engine logs when it gives up at the cap.
   */
  method CalculateKill(attacker: Unit, defender: Unit, weapons: WeaponData)
    returns (kc: KillCalculation, capped: bool)
    requires WeaponExpandable(attacker, weapons)
    ensures kc == KillOf(attacker, defender, weapons)
    ensures capped == CapReached(attacker, defender, weapons)
  {
    match GetWeapon(attacker, weapons)
    case None =>
      kc, capped := CannotHit, false;
    case Some(weapon) =>
      var instances := GetDamageInstances(weapon.effect, defender);
      if |instances| == 0 {
        kc, capped := CannotHit, false;
      } else {
        var end;
        end, capped := Fight(instances, weapon.period, defender);
        kc := KillCalculation(true, (end.i + |instances| - 1) / |instances|, RoundToCentis(end.prevTime));
      }
  }

  /** One attack of `Simulate`: the step, then either the stop or the rest of the loop. */
  lemma SimulateUnfold(c: Combat, instances: seq<DamageInstance>, period: real, defender: Unit)
    requires |instances| > 0 && c.i < HitCap
    ensures var next := Step(c, instances, period, defender);
      Simulate(c, instances, period, defender)
        == if next.i >= HitCap || next.life < 1.0 then next else Simulate(next, instances, period, defender)
  {
  }

  lemma RegenerateIs(life: real, elapsed: real, defender: Unit)
    ensures Regenerate(life, elapsed, defender) == Min(life + elapsed * defender.lifeRegenRate, defender.lifeMax)
  {
  }

  /** `Step` spelled out stage by stage. */
  lemma StepParts(c: Combat, instances: seq<DamageInstance>, period: real, defender: Unit)
    requires |instances| > 0
    ensures var time := AttackTime(instances, period, c.i);
      var after := Hit(Regenerate(c.life, time - c.prevTime, defender), c.shields,
                       instances[c.i % |instances|].dmgAmount, defender.lifeArmor);
      Step(c, instances, period, defender) == Combat(after.0, after.1, c.i + 1, time)
  {
  }

  /**
   * The mitigation of one hit as the engine performs it: shields first, at
   * least `MinDmg`, then the spill into life after armor.
   */
  method Mitigate(life0: real, shields0: real, damageDealt: real, armorDefense: real)
    returns (life: real, shields: real)
    ensures (life, shields) == Hit(life0, shields0, damageDealt, armorDefense)
  {
    life, shields := life0, shields0;
    if shields == 0.0 {
      life := life - Max(damageDealt - armorDefense, MinDmg);
    } else {
      var damageDealtShields := Max(damageDealt - ShieldDefense, MinDmg);
      var spill := damageDealtShields - shields;
      if spill < 0.0 {
        shields := -spill;
      } else {
        shields := 0.0;
        life := life - Max(spill - armorDefense, 0.0);
      }
    }
  }

  /**
   * One pass of the engine's attack loop: pick the instance, compute when
   * it lands, regenerate up to then and apply the hit.
   */
  method Attack(instances: seq<DamageInstance>, period: real, defender: Unit,
                i: nat, life0: real, shields0: real, prevTime: real)
    returns (life: real, shields: real, time: real)
    requires |instances| > 0
    ensures Combat(life, shields, i + 1, time)
         == Step(Combat(life0, shields0, i, prevTime), instances, period, defender)
  {
    var instance := instances[i % |instances|];
    var damageDealt := instance.dmgAmount;
    time := (i / |instances|) as real * period + instance.time;
    assert time == AttackTime(instances, period, i);
    ghost var regenerated := Regenerate(life0, time - prevTime, defender);
    RegenerateIs(life0, time - prevTime, defender);
    life := Min(life0 + (time - prevTime) * defender.lifeRegenRate, defender.lifeMax);
    assert life == regenerated;
    life, shields := Mitigate(life, shields0, damageDealt, defender.lifeArmor);
    assert (life, shields) == Hit(regenerated, shields0, damageDealt, defender.lifeArmor);
    StepParts(Combat(life0, shields0, i, prevTime), instances, period, defender);
  }

  /**
   * The attack loop of the kill calculation: from full life and shields,
   * attack until life is below 1 or the cap is reached; `capped` is set
   * exactly when the loop gave up at the cap.
   */
  method Fight(instances: seq<DamageInstance>, period: real, defender: Unit)
    returns (end: Combat, capped: bool)
    requires |instances| > 0
    ensures end == Simulate(Start(defender), instances, period, defender)
    ensures capped <==> end.i == HitCap
  {
    var i: nat := 0;
    var life := defender.lifeMax;
    var shields := defender.shieldsMax;
    var time := 0.0;
    var prevTime := 0.0;
    ghost var goal := Simulate(Start(defender), instances, period, defender);
    capped := false;
    while true
      invariant i < HitCap
      invariant Simulate(Combat(life, shields, i, prevTime), instances, period, defender) == goal
      decreases HitCap - i
    {
      SimulateUnfold(Combat(life, shields, i, prevTime), instances, period, defender);
      life, shields, time := Attack(instances, period, defender, i, life, shields, prevTime);
      i := i + 1;
      prevTime := time;
      if i >= HitCap {
        capped := true;
        break;
      }
      if life < 1.0 {
        break;
      }
    }
    end := Combat(life, shields, i, prevTime);
  }
}

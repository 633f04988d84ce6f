/**
 * Properties of whole kill simulations: what happens to a defender
 * without shields, when a weapon can never hit, when regeneration
 * outpaces damage, and one worked scenario.
 */
module KillProperties {
  import opened Wrappers
  import opened GameData
  import opened Instances
  import opened Effects
  import opened Timing
  import opened Kill

  /** Once shields are gone they stay gone for the rest of the simulation. */
  lemma {:induction false} ShieldsStayDown(c: Combat, instances: seq<DamageInstance>, period: real, d: Unit)
    requires |instances| > 0 && c.i < HitCap && c.shields == 0.0
    ensures Simulate(c, instances, period, d).shields == 0.0
    decreases HitCap - c.i
  {
    var next := Step(c, instances, period, d);
    if !(next.i >= HitCap || next.life < 1.0) {
      ShieldsStayDown(next, instances, period, d);
    }
  }

  /** A weapon whose every effect node deals negligible damage cannot hit the defender. */
  lemma NegligibleWeaponCannotHit(attacker: Unit, defender: Unit, weapons: WeaponData)
    requires WeaponExpandable(attacker, weapons)
    requires GetWeapon(attacker, weapons).Some?
    requires AllNegligible(GetWeapon(attacker, weapons).value.effect, defender)
    ensures KillOf(attacker, defender, weapons) == CannotHit
    ensures !CapReached(attacker, defender, weapons)
  {
  }

  /**
   * One hit per cycle against an unshielded defender whose regeneration over
   * one period restores at least what a hit takes, and who survives one hit
   * from full life: every hit leaves it at exactly its maximum minus one hit,
   * so the simulation runs into the attack cap.
   */
  lemma {:induction false} RegenOutpacingDamageReachesCap(
    c: Combat, a: real, period: real, d: Unit)
    requires c.i < HitCap && c.shields == 0.0
    requires period >= 0.0
    requires d.lifeMax - Max(a - d.lifeArmor, MinDmg) >= 1.0
    requires period * d.lifeRegenRate >= Max(a - d.lifeArmor, MinDmg)
    requires c.i == 0 ==> c.life == d.lifeMax && c.prevTime == 0.0
    requires c.i > 0 ==>
      c.life == d.lifeMax - Max(a - d.lifeArmor, MinDmg) && c.prevTime == (c.i - 1) as real * period
    ensures Simulate(c, [DamageInstance(0.0, a)], period, d).i == HitCap
    decreases HitCap - c.i
  {
    var instances := [DamageInstance(0.0, a)];
    var loss := Max(a - d.lifeArmor, MinDmg);
    var next := Step(c, instances, period, d);
    assert AttackTime(instances, period, c.i) == c.i as real * period;
    if c.i > 0 {
      assert c.i as real * period - (c.i - 1) as real * period == period;
      assert c.life + period * d.lifeRegenRate >= d.lifeMax;
    }
    assert Regenerate(c.life, next.prevTime - c.prevTime, d) == d.lifeMax;
    assert next.life == d.lifeMax - loss;
    if next.i < HitCap {
      RegenOutpacingDamageReachesCap(next, a, period, d);
    }
  }

  /** The same scenario, from the start of a simulation. */
  lemma RegenOutpacingDamageIsCapped(a: real, period: real, d: Unit)
    requires d.shieldsMax == 0.0
    requires period >= 0.0
    requires d.lifeMax - Max(a - d.lifeArmor, MinDmg) >= 1.0
    requires period * d.lifeRegenRate >= Max(a - d.lifeArmor, MinDmg)
    ensures Simulate(Start(d), [DamageInstance(0.0, a)], period, d).i == HitCap
  {
    RegenOutpacingDamageReachesCap(Start(d), a, period, d);
  }

  /** A single-hit effect of 10 damage fired once per second. */
  const FlatTen: WeaponEffect := WeaponEffect(Some(10.0), None, None, None, [])

  /** A 100-life defender with no armor, shields, regeneration or attributes. */
  const Dummy: Unit := Unit("dummy", "race", 100.0, 0.0, 0.0, 0.0, false, ["attack"], [],
                            false, false, false, false, false)

  /**
   * The flat-10 weapon needs ten firings against the 100-life dummy: the
   * tenth, at 9 seconds, takes its life to 0.
   */
  lemma FlatTenKillsDummyInTenHits()
    ensures DamageInstances(FlatTen, Dummy) == [DamageInstance(0.0, 10.0)]
    ensures Simulate(Start(Dummy), [DamageInstance(0.0, 10.0)], 1.0, Dummy)
         == Combat(0.0, 0.0, 10, 9.0)
  {
    assert NodeDamage(FlatTen, Dummy) == 10.0;
    LeafTimes(FlatTen, Dummy, 0.0);
    var raw := Expand(FlatTen, Dummy, 0.0);
    assert raw == [DamageInstance(0.0, 10.0)];
    assert SortByTime(raw) == Insert(raw[0], SortByTime([]));
    var inst := [DamageInstance(0.0, 10.0)];
    var s := Start(Dummy);
    var p := 1.0;
    var c1 := Combat(90.0, 0.0, 1, 0.0);
    var c2 := Combat(80.0, 0.0, 2, 1.0);
    var c3 := Combat(70.0, 0.0, 3, 2.0);
    var c4 := Combat(60.0, 0.0, 4, 3.0);
    var c5 := Combat(50.0, 0.0, 5, 4.0);
    var c6 := Combat(40.0, 0.0, 6, 5.0);
    var c7 := Combat(30.0, 0.0, 7, 6.0);
    var c8 := Combat(20.0, 0.0, 8, 7.0);
    var c9 := Combat(10.0, 0.0, 9, 8.0);
    var c10 := Combat(0.0, 0.0, 10, 9.0);
    assert Step(s, inst, p, Dummy) == c1;
    assert Step(c1, inst, p, Dummy) == c2;
    assert Step(c2, inst, p, Dummy) == c3;
    assert Step(c3, inst, p, Dummy) == c4;
    assert Step(c4, inst, p, Dummy) == c5;
    assert Step(c5, inst, p, Dummy) == c6;
    assert Step(c6, inst, p, Dummy) == c7;
    assert Step(c7, inst, p, Dummy) == c8;
    assert Step(c8, inst, p, Dummy) == c9;
    assert Step(c9, inst, p, Dummy) == c10;
    assert Simulate(c9, inst, p, Dummy) == c10;
    assert Simulate(c8, inst, p, Dummy) == c10;
    assert Simulate(c7, inst, p, Dummy) == c10;
    assert Simulate(c6, inst, p, Dummy) == c10;
    assert Simulate(c5, inst, p, Dummy) == c10;
    assert Simulate(c4, inst, p, Dummy) == c10;
    assert Simulate(c3, inst, p, Dummy) == c10;
    assert Simulate(c2, inst, p, Dummy) == c10;
    assert Simulate(c1, inst, p, Dummy) == c10;
  }

  /** The kill calculation reported for that scenario: can hit, 10 hits, 9 seconds. */
  lemma FlatTenKillCalculation()
    ensures KillOf(Unit("marine", "race", 45.0, 0.0, 0.0, 0.0, false, ["attack"], ["gun"],
                        false, false, false, false, false),
                   Dummy,
                   map["gun" := Weapon("gun", 1.0, FlatTen)])
         == KillCalculation(true, 10, 9.0)
  {
    FlatTenKillsDummyInTenHits();
    var weapons := map["gun" := Weapon("gun", 1.0, FlatTen)];
    assert WellFormed(FlatTen);
    assert CyclesFor(10, 1) == 10;
    assert Round(900.0) == 900;
    assert RoundToCentis(9.0) == 9.0;
  }

  /**
   * Adding or replacing a weapon-table entry other than the attacker's first
   * weapon neither makes its calculation undefined nor changes it.
   */
  lemma UnusedWeaponDoesNotMatter(attacker: Unit, defender: Unit, weapons: WeaponData, id: string, w: Weapon)
    requires |attacker.weapons| > 0 ==> id != attacker.weapons[0]
    requires WeaponExpandable(attacker, weapons)
    ensures WeaponExpandable(attacker, weapons[id := w])
    ensures KillOf(attacker, defender, weapons[id := w]) == KillOf(attacker, defender, weapons)
  {
    assert GetWeapon(attacker, weapons[id := w]) == GetWeapon(attacker, weapons);
  }

  /**
   * An instance: a spare weapon whose explicitly empty period list the
   * engine could not index leaves the flat-10 calculation as it was.
   */
  lemma BrokenSpareWeaponIsHarmless()
    ensures KillOf(Unit("marine", "race", 45.0, 0.0, 0.0, 0.0, false, ["attack"], ["gun", "spare"],
                        false, false, false, false, false),
                   Dummy,
                   map["gun" := Weapon("gun", 1.0, FlatTen),
                       "spare" := Weapon("spare", 1.0, WeaponEffect(Some(5.0), None, Some(1), Some([]), []))])
         == KillCalculation(true, 10, 9.0)
  {
    FlatTenKillCalculation();
    var marine := Unit("marine", "race", 45.0, 0.0, 0.0, 0.0, false, ["attack"], ["gun", "spare"],
                       false, false, false, false, false);
    var weapons := map["gun" := Weapon("gun", 1.0, FlatTen),
                       "spare" := Weapon("spare", 1.0, WeaponEffect(Some(5.0), None, Some(1), Some([]), []))];
    assert GetWeapon(marine, weapons) == Some(Weapon("gun", 1.0, FlatTen));
    assert WellFormed(FlatTen);
  }
}

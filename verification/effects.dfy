/**
 * The effect expander: turns a weapon's effect tree into the damage
 * instances of one firing cycle against one defender.
 *
 * `Expand` is the specification: repeat `k` of a node starts at the
 * node's start time plus the first `k` cycled periods, emits the node's
 * own damage there when it is not negligible, and expands every composite
 * sub-effect from that same instant. `Go` is the accumulating traversal
 * the engine runs, with a mutable clock and an output list it appends to;
 * its postcondition ties it to `Expand`.
 */
module Effects {
  import opened Wrappers
  import opened GameData
  import opened Instances

  /** Damage at or below this amount produces no instance. */
  const NegligibleDamage: real := 0.01

  /** The value of an optional amount, zero when it is absent. */
  function GetOr0(o: Option<real>): (r: real)
    ensures o.None? ==> r == 0.0
    ensures o.Some? ==> r == o.value
  {
    match o
    case Some(x) => x
    case None => 0.0
  }

  /** The target attributes that can carry bonus damage. */
  datatype Attribute = Armored | Biological | Light | Massive | Mechanical

  const AllAttributes: seq<Attribute> := [Armored, Biological, Light, Massive, Mechanical]

  predicate HasAttribute(defender: Unit, a: Attribute) {
    match a
    case Armored => defender.armored
    case Biological => defender.biological
    case Light => defender.light
    case Massive => defender.massive
    case Mechanical => defender.mechanical
  }

  function BonusFor(b: Bonuses, a: Attribute): Option<real> {
    match a
    case Armored => b.armored
    case Biological => b.biological
    case Light => b.light
    case Massive => b.massive
    case Mechanical => b.mechanical
  }

  /** Reference definition: the bonuses of the listed attributes the defender has. */
  function SumOfSetBonuses(b: Bonuses, defender: Unit, attrs: seq<Attribute>): real {
    if attrs == [] then 0.0
    else
      (if HasAttribute(defender, attrs[0]) then GetOr0(BonusFor(b, attrs[0])) else 0.0)
      + SumOfSetBonuses(b, defender, attrs[1..])
  }

  /** The reference sum over all five attributes, written out. */
  lemma SumOfSetBonusesOfAll(b: Bonuses, d: Unit)
    ensures SumOfSetBonuses(b, d, AllAttributes)
         == (if d.armored then GetOr0(b.armored) else 0.0)
          + ((if d.biological then GetOr0(b.biological) else 0.0)
          + ((if d.light then GetOr0(b.light) else 0.0)
          + ((if d.massive then GetOr0(b.massive) else 0.0)
          + ((if d.mechanical then GetOr0(b.mechanical) else 0.0) + 0.0))))
  {
    assert AllAttributes[1..] == [Biological, Light, Massive, Mechanical];
    assert [Biological, Light, Massive, Mechanical][1..] == [Light, Massive, Mechanical];
    assert [Light, Massive, Mechanical][1..] == [Massive, Mechanical];
    assert [Massive, Mechanical][1..] == [Mechanical];
    assert [Mechanical][1..] == [];
    assert SumOfSetBonuses(b, d, []) == 0.0;
    assert HasAttribute(d, Mechanical) == d.mechanical && BonusFor(b, Mechanical) == b.mechanical;
    var s5 := SumOfSetBonuses(b, d, [Mechanical]);
    assert s5 == (if d.mechanical then GetOr0(b.mechanical) else 0.0) + 0.0;
    var s4 := SumOfSetBonuses(b, d, [Massive, Mechanical]);
    assert s4 == (if d.massive then GetOr0(b.massive) else 0.0) + s5;
    var s3 := SumOfSetBonuses(b, d, [Light, Massive, Mechanical]);
    assert s3 == (if d.light then GetOr0(b.light) else 0.0) + s4;
    var s2 := SumOfSetBonuses(b, d, [Biological, Light, Massive, Mechanical]);
    assert s2 == (if d.biological then GetOr0(b.biological) else 0.0) + s3;
  }

  /**
   * Bonus damage of one node against one defender: nothing without a bonus
   * table, otherwise the bonuses of exactly those attributes the defender has.
   */
  function BonusDamage(effect: WeaponEffect, defender: Unit): (r: real)
    ensures effect.bonuses.None? ==> r == 0.0
    ensures effect.bonuses.Some? ==> r == SumOfSetBonuses(effect.bonuses.value, defender, AllAttributes)
  {
    match effect.bonuses
    case Some(b) =>
      SumOfSetBonusesOfAll(b, defender);
      (if defender.armored then GetOr0(b.armored) else 0.0) +
      (if defender.biological then GetOr0(b.biological) else 0.0) +
      (if defender.light then GetOr0(b.light) else 0.0) +
      (if defender.massive then GetOr0(b.massive) else 0.0) +
      (if defender.mechanical then GetOr0(b.mechanical) else 0.0)
    case None => 0.0
  }

  /** Bonus entries for attributes the defender lacks never change the bonus. */
  lemma BonusDamageIgnoresUnsetAttributes(e1: WeaponEffect, e2: WeaponEffect, defender: Unit)
    requires e1.bonuses.Some? && e2.bonuses.Some?
    requires forall a :: HasAttribute(defender, a) ==>
      GetOr0(BonusFor(e1.bonuses.value, a)) == GetOr0(BonusFor(e2.bonuses.value, a))
    ensures BonusDamage(e1, defender) == BonusDamage(e2, defender)
  {
    assert HasAttribute(defender, Armored) == defender.armored;
    assert HasAttribute(defender, Biological) == defender.biological;
    assert HasAttribute(defender, Light) == defender.light;
    assert HasAttribute(defender, Massive) == defender.massive;
    assert HasAttribute(defender, Mechanical) == defender.mechanical;
  }

  /** Damage of one repeat of one node: flat amount plus attribute bonuses. */
  function NodeDamage(effect: WeaponEffect, defender: Unit): real {
    GetOr0(effect.dmgAmount) + BonusDamage(effect, defender)
  }

  /** The delay after repeat `i`: the periods are cycled by index. */
  function Period(e: WeaponEffect, i: nat): real
    requires PeriodsOf(e) != []
  {
    PeriodsOf(e)[i % |PeriodsOf(e)|]
  }

  /** When repeat `i` of a node started at `t` begins: `t` plus the first `i` cycled periods. */
  function RepeatStart(e: WeaponEffect, t: real, i: nat): real
    requires i == 0 || PeriodsOf(e) != []
  {
    if i == 0 then t else RepeatStart(e, t, i - 1) + Period(e, i - 1)
  }

  /** Every node of the tree contributes at most negligible damage. */
  predicate AllNegligible(e: WeaponEffect, defender: Unit) {
    && NodeDamage(e, defender) <= NegligibleDamage
    && forall c :: c in e.setEffects ==> AllNegligible(c, defender)
  }

  /** The instance a node emits by itself at `s`, if its damage is not negligible. */
  function Own(e: WeaponEffect, defender: Unit, s: real): (r: seq<DamageInstance>)
    ensures |r| <= 1
    ensures forall x :: x in r ==> x.dmgAmount == NodeDamage(e, defender) > NegligibleDamage && x.time == s
    ensures NodeDamage(e, defender) <= NegligibleDamage <==> r == []
  {
    var dmg := NodeDamage(e, defender);
    if dmg > NegligibleDamage then [DamageInstance(s, dmg)] else []
  }

  /** All instances of the tree rooted at `e` when it is fired at `t`, in traversal order. */
  function Expand(e: WeaponEffect, defender: Unit, t: real): (r: seq<DamageInstance>)
    requires WellFormed(e)
    ensures forall x :: x in r ==> x.dmgAmount > NegligibleDamage
    ensures AllNegligible(e, defender) ==> r == []
    decreases e, 3, 0
  {
    Repeats(e, defender, t, 0)
  }

  /** Repeats `i` and later of the node `e` fired at `t`. */
  function Repeats(e: WeaponEffect, defender: Unit, t: real, i: nat): (r: seq<DamageInstance>)
    requires WellFormed(e) && i <= Count(e)
    ensures forall x :: x in r ==> x.dmgAmount > NegligibleDamage
    ensures AllNegligible(e, defender) ==> r == []
    decreases e, 2, Count(e) - i
  {
    if i == Count(e) then []
    else Fire(e, defender, RepeatStart(e, t, i)) + Repeats(e, defender, t, i + 1)
  }

  /** One repeat of `e` at `s`: its own instance, then each sub-effect expanded from `s`. */
  function Fire(e: WeaponEffect, defender: Unit, s: real): (r: seq<DamageInstance>)
    requires WellFormed(e) && Count(e) > 0
    ensures forall x :: x in r ==> x.dmgAmount > NegligibleDamage
    ensures AllNegligible(e, defender) ==> r == []
    decreases e, 1, 0
  {
    Own(e, defender, s) + Children(e, defender, s, 0)
  }

  /** Sub-effects `j` and later of `e`, all expanded from `s`. */
  function Children(e: WeaponEffect, defender: Unit, s: real, j: nat): (r: seq<DamageInstance>)
    requires WellFormed(e) && Count(e) > 0 && j <= |e.setEffects|
    ensures forall x :: x in r ==> x.dmgAmount > NegligibleDamage
    ensures AllNegligible(e, defender) ==> r == []
    decreases e, 0, |e.setEffects| - j
  {
    if j == |e.setEffects| then []
    else
      assert e.setEffects[j] in e.setEffects;
      Expand(e.setEffects[j], defender, s) + Children(e, defender, s, j + 1)
  }

  /**
   * The traversal the engine runs: appends the instances of the tree rooted
   * at `effect` fired at `time0` to `instances`, advancing a local clock by
   * the cycled periods after each repeat while the sub-effects start from
   * the clock's current value.
   */
  method Go(effect: WeaponEffect, defender: Unit, time0: real, instances: seq<DamageInstance>)
    returns (out: seq<DamageInstance>)
    requires WellFormed(effect)
    ensures out == instances + Expand(effect, defender, time0)
    decreases effect, 1
  {
    var persistentCount := match effect.persistentCount case Some(n) => n case None => 1;
    var persistentPeriods := match effect.persistentPeriods case Some(ps) => ps case None => [0.0];
    assert persistentCount == Count(effect) && persistentPeriods == PeriodsOf(effect);
    ghost var goal := instances + Expand(effect, defender, time0);
    out := instances;
    var time := time0;
    for i := 0 to persistentCount
      invariant time == RepeatStart(effect, time0, i)
      invariant out + Repeats(effect, defender, time0, i) == goal
    {
      RepeatStep(effect, defender, time0, i, out);
      var dmgAmount := GetOr0(effect.dmgAmount) + BonusDamage(effect, defender);
      OwnIs(effect, defender, time, dmgAmount);
      if dmgAmount > NegligibleDamage {
        out := out + [DamageInstance(time, dmgAmount)];
      }
      out := GoSubEffects(effect, defender, time, out);
      time := time + persistentPeriods[i % |persistentPeriods|];
    }
  }

  /** The inner loop of `Go`: every sub-effect of one repeat, expanded from `time`, in order. */
  method GoSubEffects(effect: WeaponEffect, defender: Unit, time: real, instances: seq<DamageInstance>)
    returns (out: seq<DamageInstance>)
    requires WellFormed(effect) && Count(effect) > 0
    ensures out == instances + Children(effect, defender, time, 0)
    decreases effect, 0
  {
    out := instances;
    for j := 0 to |effect.setEffects|
      invariant out + Children(effect, defender, time, j) == instances + Children(effect, defender, time, 0)
    {
      var child := effect.setEffects[j];
      assert child in effect.setEffects;
      ChildrenUnfold(effect, defender, time, j, out);
      out := Go(child, defender, time, out);
    }
    assert Children(effect, defender, time, |effect.setEffects|) == [];
  }

  /** The node's own instance, given its damage. */
  lemma OwnIs(e: WeaponEffect, defender: Unit, s: real, dmg: real)
    requires dmg == GetOr0(e.dmgAmount) + BonusDamage(e, defender)
    ensures Own(e, defender, s) == if dmg > NegligibleDamage then [DamageInstance(s, dmg)] else []
  {
  }

  /** Expanding sub-effect `j` onto `out` leaves the remaining sub-effects to do. */
  lemma ChildrenUnfold(e: WeaponEffect, defender: Unit, s: real, j: nat, out: seq<DamageInstance>)
    requires WellFormed(e) && Count(e) > 0 && j < |e.setEffects|
    ensures out + Children(e, defender, s, j)
         == (out + Expand(e.setEffects[j], defender, s)) + Children(e, defender, s, j + 1)
  {
  }

  /** Appending repeat `i` of a node is its own instance, then its sub-effects, then the later repeats. */
  lemma RepeatStep(e: WeaponEffect, defender: Unit, t: real, i: nat, before: seq<DamageInstance>)
    requires WellFormed(e) && i < Count(e)
    ensures var s := RepeatStart(e, t, i);
      before + Repeats(e, defender, t, i)
        == ((before + Own(e, defender, s)) + Children(e, defender, s, 0)) + Repeats(e, defender, t, i + 1)
  {
    var s := RepeatStart(e, t, i);
    var own, children, later := Own(e, defender, s), Children(e, defender, s, 0), Repeats(e, defender, t, i + 1);
    assert Repeats(e, defender, t, i) == (own + children) + later;
    assert before + ((own + children) + later) == ((before + own) + children) + later;
  }

  /** Instances of one firing cycle, ordered by time with ties in traversal order. */
  function DamageInstances(effect: WeaponEffect, defender: Unit): (r: seq<DamageInstance>)
    requires WellFormed(effect)
    ensures SortedByTime(r)
    ensures multiset(r) == multiset(Expand(effect, defender, 0.0))
    ensures forall x :: x in r ==> x.dmgAmount > NegligibleDamage
    ensures AllNegligible(effect, defender) ==> r == []
  {
    var raw := Expand(effect, defender, 0.0);
    var sorted := SortByTime(raw);
    assert forall x :: x in sorted ==> x in multiset(raw);
    sorted
  }

  /** The expansion followed by the in-place stable sort by time. */
  method GetDamageInstances(effect: WeaponEffect, defender: Unit) returns (r: seq<DamageInstance>)
    requires WellFormed(effect)
    ensures r == DamageInstances(effect, defender)
  {
    var instances := Go(effect, defender, 0.0, []);
    assert instances == Expand(effect, defender, 0.0);
    r := SortByTime(instances);
  }
}

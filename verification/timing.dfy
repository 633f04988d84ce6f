/**
 * When the instances of an expanded effect tree happen: repeat start
 * times are prefix sums of the cycled periods, a whole tree fired later
 * is the same tree shifted in time, and sub-effects never start before
 * their parent's repeat.
 */
module Timing {
  import opened GameData
  import opened Instances
  import opened Effects

  function Sum(ps: seq<real>): real {
    if ps == [] then 0.0 else Sum(ps[..|ps| - 1]) + ps[|ps| - 1]
  }

  lemma ModBelow(a: nat, n: nat)
    requires a < n
    ensures a % n == a
  {
  }

  lemma MulBelowIsZero(n: int, k: int)
    requires n > 0 && -n < n * k < n
    ensures k == 0
  {
  }

  lemma ModUnique(x: int, n: int, q: int, r: int)
    requires n > 0 && 0 <= r < n && x == n * q + r
    ensures x % n == r
  {
    var q', r' := x / n, x % n;
    assert n * (q' - q) == r - r';
    MulBelowIsZero(n, q' - q);
  }

  lemma ModAddModulus(a: nat, n: nat)
    requires n > 0
    ensures (a + n) % n == a % n
  {
    var q, r := a / n, a % n;
    assert a + n == n * (q + 1) + r;
    ModUnique(a + n, n, q + 1, r);
  }

  /** Within the first cycle, repeat `i` starts after exactly the first `i` periods. */
  lemma {:induction false} RepeatStartIsPrefixSum(e: WeaponEffect, t: real, i: nat)
    requires PeriodsOf(e) != [] && i <= |PeriodsOf(e)|
    ensures RepeatStart(e, t, i) == t + Sum(PeriodsOf(e)[..i])
  {
    if i > 0 {
      var ps := PeriodsOf(e);
      RepeatStartIsPrefixSum(e, t, i - 1);
      ModBelow(i - 1, |ps|);
      assert Period(e, i - 1) == ps[i - 1];
      assert ps[..i][..i - 1] == ps[..i - 1];
      assert Sum(ps[..i]) == Sum(ps[..i - 1]) + ps[i - 1];
    }
  }

  /** After a full cycle of periods the clock has advanced by their sum, and the cycle restarts. */
  lemma {:induction false} RepeatStartCycles(e: WeaponEffect, t: real, i: nat)
    requires PeriodsOf(e) != []
    ensures RepeatStart(e, t, i + |PeriodsOf(e)|) == RepeatStart(e, t, i) + Sum(PeriodsOf(e))
  {
    var ps := PeriodsOf(e);
    if i == 0 {
      RepeatStartIsPrefixSum(e, t, |ps|);
      assert ps[..|ps|] == ps;
    } else {
      RepeatStartCycles(e, t, i - 1);
      ModAddModulus(i - 1, |ps|);
      assert Period(e, i - 1 + |ps|) == Period(e, i - 1);
    }
  }

  /**
   * A node without sub-effects whose damage is not negligible emits one
   * instance per repeat, repeat `k` at its start time.
   */
  lemma {:induction false} LeafRepeats(e: WeaponEffect, d: Unit, t: real, i: nat)
    requires WellFormed(e) && e.setEffects == [] && i <= Count(e)
    requires NodeDamage(e, d) > NegligibleDamage
    ensures |Repeats(e, d, t, i)| == Count(e) - i
    ensures forall k :: i <= k < Count(e) ==>
      Repeats(e, d, t, i)[k - i] == DamageInstance(RepeatStart(e, t, k), NodeDamage(e, d))
    decreases Count(e) - i
  {
    if i < Count(e) {
      LeafRepeats(e, d, t, i + 1);
      assert Children(e, d, RepeatStart(e, t, i), 0) == [];
    }
  }

  lemma LeafTimes(e: WeaponEffect, d: Unit, t: real)
    requires WellFormed(e) && e.setEffects == []
    requires NodeDamage(e, d) > NegligibleDamage
    ensures |Expand(e, d, t)| == Count(e)
    ensures forall k :: 0 <= k < Count(e) ==>
      Expand(e, d, t)[k] == DamageInstance(RepeatStart(e, t, k), NodeDamage(e, d))
  {
    LeafRepeats(e, d, t, 0);
  }

  /** A node that fires at least once with real damage emits its first instance at its start. */
  lemma FirstInstanceAtStart(e: WeaponEffect, d: Unit, t: real)
    requires WellFormed(e) && Count(e) >= 1
    requires NodeDamage(e, d) > NegligibleDamage
    ensures Expand(e, d, t) != []
    ensures Expand(e, d, t)[0] == DamageInstance(t, NodeDamage(e, d))
  {
    assert Fire(e, d, t)[0] == DamageInstance(t, NodeDamage(e, d));
  }

  /** The instances moved `delta` later in time. */
  function Shift(s: seq<DamageInstance>, delta: real): (r: seq<DamageInstance>)
    ensures |r| == |s|
  {
    if s == [] then []
    else [DamageInstance(s[0].time + delta, s[0].dmgAmount)] + Shift(s[1..], delta)
  }

  lemma {:induction false} ShiftAppend(a: seq<DamageInstance>, b: seq<DamageInstance>, delta: real)
    ensures Shift(a + b, delta) == Shift(a, delta) + Shift(b, delta)
  {
    if a == [] {
      assert a + b == b;
    } else {
      assert (a + b)[1..] == a[1..] + b;
      ShiftAppend(a[1..], b, delta);
    }
  }

  lemma {:induction false} RepeatStartShift(e: WeaponEffect, t: real, delta: real, i: nat)
    requires i == 0 || PeriodsOf(e) != []
    ensures RepeatStart(e, t + delta, i) == RepeatStart(e, t, i) + delta
  {
    if i > 0 {
      RepeatStartShift(e, t, delta, i - 1);
    }
  }

  /**
   * Firing a tree `delta` later moves every instance `delta` later: all times
   * inside a tree, sub-effects included, are relative to its start.
   */
  lemma {:induction false} ExpandShift(e: WeaponEffect, d: Unit, t: real, delta: real)
    requires WellFormed(e)
    ensures Expand(e, d, t + delta) == Shift(Expand(e, d, t), delta)
    decreases e, 3, 0
  {
    RepeatsShift(e, d, t, delta, 0);
  }

  lemma {:induction false} RepeatsShift(e: WeaponEffect, d: Unit, t: real, delta: real, i: nat)
    requires WellFormed(e) && i <= Count(e)
    ensures Repeats(e, d, t + delta, i) == Shift(Repeats(e, d, t, i), delta)
    decreases e, 2, Count(e) - i
  {
    if i < Count(e) {
      var s := RepeatStart(e, t, i);
      FireShift(e, d, s, delta);
      RepeatsShift(e, d, t, delta, i + 1);
      RepeatsShiftStep(e, d, t, delta, i, s);
    }
  }

  /** Repeat `i` and the later repeats each shifted by `delta` make all repeats from `i` shifted by `delta`. */
  lemma RepeatsShiftStep(e: WeaponEffect, d: Unit, t: real, delta: real, i: nat, s: real)
    requires WellFormed(e) && i < Count(e) && s == RepeatStart(e, t, i)
    requires Fire(e, d, s + delta) == Shift(Fire(e, d, s), delta)
    requires Repeats(e, d, t + delta, i + 1) == Shift(Repeats(e, d, t, i + 1), delta)
    ensures Repeats(e, d, t + delta, i) == Shift(Repeats(e, d, t, i), delta)
  {
    var first, rest := Fire(e, d, s), Repeats(e, d, t, i + 1);
    RepeatStartShift(e, t, delta, i);
    assert Fire(e, d, RepeatStart(e, t + delta, i)) == Shift(first, delta);
    RepeatsCons(e, d, t + delta, i);
    assert Repeats(e, d, t + delta, i) == Shift(first, delta) + Shift(rest, delta);
    RepeatsCons(e, d, t, i);
    ShiftAppend(first, rest, delta);
  }

  /** A node's repeats from `i` on: repeat `i`, then the rest. */
  lemma RepeatsCons(e: WeaponEffect, d: Unit, t: real, i: nat)
    requires WellFormed(e) && i < Count(e)
    ensures Repeats(e, d, t, i) == Fire(e, d, RepeatStart(e, t, i)) + Repeats(e, d, t, i + 1)
  {
  }

  lemma {:induction false} FireShift(e: WeaponEffect, d: Unit, s: real, delta: real)
    requires WellFormed(e) && Count(e) > 0
    ensures Fire(e, d, s + delta) == Shift(Fire(e, d, s), delta)
    decreases e, 1, 0
  {
    ChildrenShift(e, d, s, delta, 0);
    ShiftAppend(Own(e, d, s), Children(e, d, s, 0), delta);
  }

  lemma {:induction false} ChildrenShift(e: WeaponEffect, d: Unit, s: real, delta: real, j: nat)
    requires WellFormed(e) && Count(e) > 0 && j <= |e.setEffects|
    ensures Children(e, d, s + delta, j) == Shift(Children(e, d, s, j), delta)
    decreases e, 0, |e.setEffects| - j
  {
    if j < |e.setEffects| {
      var c := e.setEffects[j];
      assert c in e.setEffects;
      ExpandShift(c, d, s, delta);
      ChildrenShift(e, d, s, delta, j + 1);
      ShiftAppend(Expand(c, d, s), Children(e, d, s, j + 1), delta);
    }
  }

  /**
   * Sub-effect `j` of repeat `i` is the sub-effect's own expansion moved to
   * that repeat's start, and the next repeat starts one period later
   * whatever the sub-effects emitted: they do not advance the parent's clock.
   */
  lemma SubEffectsStartAtRepeat(e: WeaponEffect, d: Unit, t: real, i: nat, j: nat)
    requires WellFormed(e) && i < Count(e) && j < |e.setEffects|
    ensures Children(e, d, RepeatStart(e, t, i), j)
         == Shift(Expand(e.setEffects[j], d, 0.0), RepeatStart(e, t, i))
          + Children(e, d, RepeatStart(e, t, i), j + 1)
    ensures RepeatStart(e, t, i + 1) == RepeatStart(e, t, i) + Period(e, i)
  {
    var s := RepeatStart(e, t, i);
    var c := e.setEffects[j];
    assert c in e.setEffects;
    ExpandShift(c, d, 0.0, s);
    assert 0.0 + s == s;
  }

  /** No node of the tree has a negative period. */
  predicate NonNegativePeriods(e: WeaponEffect) {
    && (forall k :: 0 <= k < |PeriodsOf(e)| ==> PeriodsOf(e)[k] >= 0.0)
    && forall c :: c in e.setEffects ==> NonNegativePeriods(c)
  }

  lemma {:induction false} RepeatStartNotBefore(e: WeaponEffect, t: real, i: nat)
    requires NonNegativePeriods(e) && (i == 0 || PeriodsOf(e) != [])
    ensures RepeatStart(e, t, i) >= t
  {
    if i > 0 {
      RepeatStartNotBefore(e, t, i - 1);
    }
  }

  /** With non-negative periods no instance happens before the tree is fired. */
  lemma {:induction false} ExpandNotBefore(e: WeaponEffect, d: Unit, t: real)
    requires WellFormed(e) && NonNegativePeriods(e)
    ensures forall x :: x in Expand(e, d, t) ==> x.time >= t
    decreases e, 3, 0
  {
    RepeatsNotBefore(e, d, t, 0);
  }

  lemma {:induction false} RepeatsNotBefore(e: WeaponEffect, d: Unit, t: real, i: nat)
    requires WellFormed(e) && NonNegativePeriods(e) && i <= Count(e)
    ensures forall x :: x in Repeats(e, d, t, i) ==> x.time >= t
    decreases e, 2, Count(e) - i
  {
    if i < Count(e) {
      RepeatStartNotBefore(e, t, i);
      ChildrenNotBefore(e, d, RepeatStart(e, t, i), 0);
      RepeatsNotBefore(e, d, t, i + 1);
    }
  }

  lemma {:induction false} ChildrenNotBefore(e: WeaponEffect, d: Unit, s: real, j: nat)
    requires WellFormed(e) && Count(e) > 0 && NonNegativePeriods(e) && j <= |e.setEffects|
    ensures forall x :: x in Children(e, d, s, j) ==> x.time >= s
    decreases e, 0, |e.setEffects| - j
  {
    if j < |e.setEffects| {
      var c := e.setEffects[j];
      assert c in e.setEffects;
      ExpandNotBefore(c, d, s);
      ChildrenNotBefore(e, d, s, j + 1);
    }
  }

  /** Instances at the same offset keep the order in which the traversal emitted them. */
  lemma DamageInstancesStable(e: WeaponEffect, d: Unit, t: real)
    requires WellFormed(e)
    ensures AtTime(DamageInstances(e, d), t) == AtTime(Expand(e, d, 0.0), t)
  {
    SortStable(Expand(e, d, 0.0), t);
  }

  /** A tree with no explicitly empty period list never indexes an empty list. */
  predicate NoEmptyPeriodList(e: WeaponEffect) {
    && e.persistentPeriods != Wrappers.Some([])
    && forall c :: c in e.setEffects ==> NoEmptyPeriodList(c)
  }

  lemma {:induction false} DefaultPeriodsKeepIndexInRange(e: WeaponEffect)
    requires NoEmptyPeriodList(e)
    ensures WellFormed(e)
  {
    forall c | c in e.setEffects ensures WellFormed(c) {
      DefaultPeriodsKeepIndexInRange(c);
    }
  }
}

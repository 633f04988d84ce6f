/**
 * Damage instances and the stable ordering by time that the expander
 * applies to them.
 *
 * The standard library's `sort_by` is modelled by what it promises: a
 * stable sort on the time offset. `SortByTime` is one such sort (an
 * insertion sort); `StableSortUnique` shows that every sequence that is
 * ordered by time and keeps the relative order of equal-time instances is
 * this one, so the choice of algorithm does not matter.
 */
module Instances {

  /** One timed hit of one firing cycle: an offset in seconds and an amount. */
  datatype DamageInstance = DamageInstance(time: real, dmgAmount: real)

  ghost predicate SortedByTime(s: seq<DamageInstance>) {
    forall i, j :: 0 <= i < j < |s| ==> s[i].time <= s[j].time
  }

  /** The instances of `s` whose offset is exactly `t`, in their order in `s`. */
  function AtTime(s: seq<DamageInstance>, t: real): seq<DamageInstance> {
    if s == [] then []
    else (if s[0].time == t then [s[0]] else []) + AtTime(s[1..], t)
  }

  /** The index of the first instance of `s` that is not earlier than `x`, or `|s|` if there is none. */
  function InsertionPoint(x: DamageInstance, s: seq<DamageInstance>): (k: nat)
    ensures k <= |s|
    ensures forall m :: 0 <= m < k ==> s[m].time < x.time
    ensures k < |s| ==> x.time <= s[k].time
  {
    if s == [] || x.time <= s[0].time then 0
    else 1 + InsertionPoint(x, s[1..])
  }

  /** Places `x` before the first instance that is not earlier than it. */
  function Insert(x: DamageInstance, s: seq<DamageInstance>): (r: seq<DamageInstance>)
    ensures multiset(r) == multiset(s) + multiset{x}
    ensures r != [] && (r[0] == x || (s != [] && r[0] == s[0]))
  {
    if s == [] || x.time <= s[0].time then [x] + s
    else
      assert s == [s[0]] + s[1..];
      [s[0]] + Insert(x, s[1..])
  }

  /** Splitting `[y] + t` one place later is splitting `t` with `y` in front. */
  lemma SplitAfterHead(y: DamageInstance, t: seq<DamageInstance>, x: DamageInstance, k: nat)
    requires k <= |t|
    ensures ([y] + t)[..k + 1] + [x] + ([y] + t)[k + 1..] == [y] + (t[..k] + [x] + t[k..])
  {
    assert ([y] + t)[..k + 1] == [y] + t[..k];
    assert ([y] + t)[k + 1..] == t[k..];
  }

  /** `Insert` splits `s` at the insertion point: the earlier instances, then `x`, then the rest in order. */
  lemma {:induction false} InsertAtInsertionPoint(x: DamageInstance, s: seq<DamageInstance>)
    ensures var k := InsertionPoint(x, s); Insert(x, s) == s[..k] + [x] + s[k..]
  {
    if s == [] || x.time <= s[0].time {
      assert s[..0] == [] && s[0..] == s;
    } else {
      var tail := s[1..];
      InsertAtInsertionPoint(x, tail);
      assert s == [s[0]] + tail;
      SplitAfterHead(s[0], tail, x, InsertionPoint(x, tail));
    }
  }

  /** Inserting into a time-ordered sequence keeps it time-ordered. */
  lemma {:induction false} InsertSorted(x: DamageInstance, s: seq<DamageInstance>)
    requires SortedByTime(s)
    ensures SortedByTime(Insert(x, s))
  {
    if s == [] || x.time <= s[0].time {
    } else {
      var rest := Insert(x, s[1..]);
      InsertSorted(x, s[1..]);
      assert rest[0] == x || rest[0] == s[1];
      var r := [s[0]] + rest;
      forall i, j | 0 <= i < j < |r| ensures r[i].time <= r[j].time {
        if i > 0 {
          assert r[i] == rest[i - 1] && r[j] == rest[j - 1];
        } else if j > 1 {
          assert r[j] == rest[j - 1];
          assert r[1].time <= r[j].time;
        }
      }
    }
  }

  /** The result of the stable sort on the time offset. */
  function SortByTime(s: seq<DamageInstance>): (r: seq<DamageInstance>)
    ensures SortedByTime(r)
    ensures multiset(r) == multiset(s)
    ensures |r| == |s|
  {
    if s == [] then []
    else
      assert s == [s[0]] + s[1..];
      InsertSorted(s[0], SortByTime(s[1..]));
      Insert(s[0], SortByTime(s[1..]))
  }

  /** Filtering a sequence that starts with `y`. */
  lemma AtTimeCons(y: DamageInstance, rest: seq<DamageInstance>, t: real)
    ensures AtTime([y] + rest, t) == (if y.time == t then [y] else []) + AtTime(rest, t)
  {
    assert ([y] + rest)[1..] == rest;
  }

  /** Inserting `x` keeps every group of equal-time instances in order, `x` first. */
  lemma {:induction false} InsertStable(x: DamageInstance, s: seq<DamageInstance>, t: real)
    ensures AtTime(Insert(x, s), t) == AtTime([x] + s, t)
  {
    if s != [] && x.time > s[0].time {
      var y, rest := s[0], s[1..];
      assert s == [y] + rest;
      InsertStable(x, rest, t);
      AtTimeCons(y, Insert(x, rest), t);
      AtTimeCons(x, rest, t);
      AtTimeCons(x, s, t);
      AtTimeCons(y, rest, t);
      if x.time == t {
        assert y.time != t;
      }
    }
  }

  /** The sort is stable: for each offset, the instances at that offset keep their order. */
  lemma {:induction false} SortStable(s: seq<DamageInstance>, t: real)
    ensures AtTime(SortByTime(s), t) == AtTime(s, t)
  {
    if s != [] {
      SortStable(s[1..], t);
      InsertStable(s[0], SortByTime(s[1..]), t);
      assert ([s[0]] + SortByTime(s[1..]))[1..] == SortByTime(s[1..]);
    }
  }

  /** The first instance is the first of those at its own offset. */
  lemma FirstIsAtItsTime(s: seq<DamageInstance>)
    ensures s != [] ==> AtTime(s, s[0].time) != [] && AtTime(s, s[0].time)[0] == s[0]
  {
  }

  /** A time-ordered sequence has no instance earlier than its first. */
  lemma {:induction false} NoneBeforeFirst(s: seq<DamageInstance>, t: real)
    requires SortedByTime(s)
    requires s != [] && t < s[0].time
    ensures AtTime(s, t) == []
  {
    if |s| > 1 {
      NoneBeforeFirst(s[1..], t);
    }
  }

  /**
   * Two time-ordered sequences with the same instances at every offset,
   * in the same order, are equal: a stable sort by time has one result.
   */
  lemma {:induction false} StableSortUnique(a: seq<DamageInstance>, b: seq<DamageInstance>)
    requires SortedByTime(a) && SortedByTime(b)
    requires forall t :: AtTime(a, t) == AtTime(b, t)
    ensures a == b
  {
    if a == [] && b == [] {
    } else if a == [] {
      FirstIsAtItsTime(b);
      assert false;
    } else if b == [] {
      FirstIsAtItsTime(a);
      assert false;
    } else {
      var m, n := a[0].time, b[0].time;
      if m < n {
        FirstIsAtItsTime(a);
        NoneBeforeFirst(b, m);
        assert false;
      } else if n < m {
        FirstIsAtItsTime(b);
        NoneBeforeFirst(a, n);
        assert false;
      } else {
        assert a[0] == AtTime(a, m)[0] == AtTime(b, m)[0] == b[0];
        forall t ensures AtTime(a[1..], t) == AtTime(b[1..], t) {
          var head := if a[0].time == t then [a[0]] else [];
          assert AtTime(a, t) == head + AtTime(a[1..], t);
          assert AtTime(b, t) == head + AtTime(b[1..], t);
          assert AtTime(a[1..], t) == (head + AtTime(a[1..], t))[|head|..];
          assert AtTime(b[1..], t) == (head + AtTime(b[1..], t))[|head|..];
        }
        StableSortUnique(a[1..], b[1..]);
        assert a == [a[0]] + a[1..] && b == [b[0]] + b[1..];
      }
    }
  }

  /**
   * The sort's result is the only time-ordered arrangement of `s` that keeps
   * equal-time instances in their original order.
   */
  lemma SortByTimeIsTheStableSort(s: seq<DamageInstance>, r: seq<DamageInstance>)
    requires SortedByTime(r)
    requires forall t :: AtTime(r, t) == AtTime(s, t)
    ensures r == SortByTime(s)
  {
    forall t ensures AtTime(r, t) == AtTime(SortByTime(s), t) {
      SortStable(s, t);
    }
    StableSortUnique(r, SortByTime(s));
  }
}

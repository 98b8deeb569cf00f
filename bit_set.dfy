/**
 * The bit set of pascal.taie.util.collection, as its unit tests pin it down: a set of
 * natural numbers whose in-place operations report whether they changed it.
 */
module BitSets {

  class BitSet {
    /** The members of the set. */
    var elems: set<nat>

    /** `new BitSet()`: the empty set. */
    constructor ()
      ensures elems == {}
    {
      elems := {};
    }

    /** `BitSet.of(indexes...)`: the set of the given indexes (repetitions collapse). */
    constructor Of(indexes: seq<nat>)
      ensures elems == set i | i in indexes
    {
      var acc: set<nat> := {};
      var k := 0;
      while k < |indexes|
        invariant 0 <= k <= |indexes|
        invariant acc == set i | i in indexes[..k]
      {
        assert indexes[..k + 1] == indexes[..k] + [indexes[k]];
        acc := acc + {indexes[k]};
        k := k + 1;
      }
      assert indexes[..k] == indexes;
      elems := acc;
    }

    /** The copy constructor `new BitSet(other)`. */
    constructor Copy(other: BitSet)
      ensures elems == other.elems
    {
      elems := other.elems;
    }

    /** `set(i)`: adds `i`; true exactly when `i` was not yet a member. */
    method Set(i: nat) returns (changed: bool)
      modifies this
      ensures elems == old(elems) + {i}
      ensures changed <==> i !in old(elems)
    {
      changed := i !in elems;
      elems := elems + {i};
    }

    /** `and(other)`: keeps only the common members; true exactly when a member was dropped. */
    method And(other: BitSet) returns (changed: bool)
      modifies this
      ensures elems == old(elems) * old(other.elems)
      ensures changed <==> !(old(elems) <= old(other.elems))
    {
      var kept := elems * other.elems;
      changed := kept != elems;
      elems := kept;
    }

    /** `andNot(other)`: removes the members of `other`; true exactly when a member was removed. */
    method AndNot(other: BitSet) returns (changed: bool)
      modifies this
      ensures elems == old(elems) - old(other.elems)
      ensures changed <==> old(elems) * old(other.elems) != {}
    {
      var kept := elems - other.elems;
      changed := kept != elems;
      if elems * other.elems != {} {
        var x :| x in elems * other.elems;
        assert x !in kept;
      } else {
        forall x | x in elems ensures x in kept {
          assert x !in elems * other.elems;
        }
        assert kept == elems;
      }
      elems := kept;
    }

    /** `or(other)`: adds the members of `other`; true exactly when some element was added. */
    method Or(other: BitSet) returns (changed: bool)
      modifies this
      ensures elems == old(elems) + old(other.elems)
      ensures changed <==> !(old(other.elems) <= old(elems))
    {
      var joined := elems + other.elems;
      changed := joined != elems;
      elems := joined;
    }

    /** `xor(other)`: the symmetric difference; true exactly when `other` is not empty. */
    method Xor(other: BitSet) returns (changed: bool)
      modifies this
      ensures elems == (old(elems) - old(other.elems)) + (old(other.elems) - old(elems))
      ensures changed <==> old(other.elems) != {}
    {
      var flipped := (elems - other.elems) + (other.elems - elems);
      changed := flipped != elems;
      if other.elems != {} {
        var x :| x in other.elems;
        assert x in elems <==> x !in flipped;
      }
      elems := flipped;
    }

    /** `setTo(other)`: makes this set equal to `other`. */
    method SetTo(other: BitSet)
      modifies this
      ensures elems == old(other.elems)
    {
      elems := other.elems;
    }

    /** `contains(other)`: the superset test. */
    method Contains(other: BitSet) returns (r: bool)
      ensures r <==> other.elems <= elems
    {
      r := other.elems <= elems;
    }

    /** `cardinality()`: the number of distinct members. */
    method Cardinality() returns (n: nat)
      ensures n == |elems|
    {
      n := |elems|;
    }

    method IsEmpty() returns (r: bool)
      ensures r <==> elems == {}
    {
      r := elems == {};
    }
  }

  // The scenarios of the unit tests, as client code that follows from the contracts above.

  method SetScenario() {
    var s := new BitSet();
    var c := s.Set(1);
    assert c;
    c := s.Set(1);
    assert !c;
    c := s.Set(10000);
    assert c;
    c := s.Set(10000);
    assert !c;
    var n := s.Cardinality();
    assert s.elems == {1, 10000};
    assert n == 2;
  }

  /** The first two calls of the `and` test: with itself nothing changes, with {1} two members go. */
  method AndScenario() {
    var s := new BitSet.Of([1, 2, 3]);
    var o := new BitSet.Of([1, 2, 3]);
    var c := s.And(o);
    assert !c;
    o := new BitSet.Of([1]);
    assert 2 in s.elems && 2 !in o.elems;
    c := s.And(o);
    assert c;
    var n := s.Cardinality();
    assert s.elems == {1};
    assert n == 1;
  }

  /** The rest of the `and` test, from the set {1} the first two calls leave. */
  method AndDrainScenario() {
    var s := new BitSet.Of([1]);
    var o := new BitSet.Of([1, 11111, 22222, 33333]);
    assert s.elems == {1} && 1 in o.elems;
    var c := s.And(o);
    assert !c;
    o := new BitSet.Of([11111, 22222, 33333]);
    assert 1 in s.elems && 1 !in o.elems;
    c := s.And(o);
    assert c;
    assert s.elems == {};
    var e := s.IsEmpty();
    assert e;
  }

  /** The first two calls of the `andNot` test: removing a set from itself empties it, twice. */
  method AndNotScenario() {
    var s := new BitSet.Of([1, 2, 3]);
    var o := new BitSet.Of([1, 2, 3]);
    var c := s.AndNot(o);
    assert s.elems == {};
    var e := s.IsEmpty();
    assert e;
    c := s.AndNot(o);
    e := s.IsEmpty();
    assert e;
  }

  /** The rest of the `andNot` test, from the empty set the first two calls leave. */
  method AndNotRefillScenario() {
    var s := new BitSet();
    var o := new BitSet.Of([1, 1, 1]);
    assert o.elems == {1};
    var c := s.Or(o);
    assert s.elems == {1};
    o := new BitSet.Of([2]);
    assert o.elems == {2};
    c := s.AndNot(o);
    var n := s.Cardinality();
    assert s.elems == {1};
    assert n == 1;
  }

  /** The first two calls and the count of the `or` test: nothing new joins {1, 2, 3}. */
  method OrScenario() {
    var s := new BitSet.Of([1, 2, 3]);
    var o := new BitSet.Of([1, 2, 3]);
    assert s.elems == {1, 2, 3} && o.elems == {1, 2, 3};
    var c := s.Or(o);
    assert !c;
    o := new BitSet.Of([1]);
    assert o.elems == {1};
    c := s.Or(o);
    assert !c;
    var n := s.Cardinality();
    assert s.elems == {1, 2, 3};
    assert n == 3;
  }

  /** The third call of the `or` test, on the set {1, 2, 3} the first two calls leave. */
  method OrGrowScenario() {
    var s := new BitSet.Of([1, 2, 3]);
    var o := new BitSet.Of([1, 11111, 22222, 33333]);
    assert 11111 in o.elems && 11111 !in s.elems;
    var c := s.Or(o);
    assert c;
  }

  /** The last call and count of the `or` test, on the set the third call leaves. */
  method OrSettleScenario() {
    var s := new BitSet.Of([1, 2, 3]);
    var far := new BitSet.Of([11111, 22222, 33333]);
    assert s.elems == {1, 2, 3} && far.elems == {11111, 22222, 33333};
    var c := s.Or(far);
    var o := new BitSet.Of([11111, 22222, 33333]);
    assert o.elems == {11111, 22222, 33333};
    c := s.Or(o);
    assert !c;
    var n := s.Cardinality();
    SixMembers(s.elems);
    assert n == 6;
  }

  lemma SixMembers(s: set<nat>)
    requires s == {1, 2, 3} + {11111, 22222, 33333}
    ensures |s| == 6
  {
    assert s == {1, 2, 3} + {11111} + {22222} + {33333};
    assert |{1, 2, 3} + {11111}| == 4;
    assert |{1, 2, 3} + {11111} + {22222}| == 5;
  }

  method XorScenario() {
    var s := new BitSet.Of([1, 2, 300]);
    var copy := new BitSet.Copy(s);
    assert 1 in copy.elems;
    var c := s.Xor(copy);
    assert c;
    var e := s.IsEmpty();
    assert e;
  }

  method SetToScenario() {
    var s := new BitSet.Of([1, 2, 300]);
    var o := new BitSet.Of([]);
    s.SetTo(o);
    var e := s.IsEmpty();
    assert e;
    o := new BitSet.Of([111, 222, 333]);
    s.SetTo(o);
    assert s.elems == o.elems;
    o := new BitSet.Of([1]);
    s.SetTo(o);
    assert s.elems == {1};
    o := new BitSet.Of([11111]);
    s.SetTo(o);
    assert s.elems == {11111};
  }

  method ContainsScenario() {
    var empty := new BitSet.Of([]);
    var small := new BitSet.Of([1, 2, 3]);
    var one := new BitSet.Of([1]);
    var far := new BitSet.Of([11111]);
    var wide := new BitSet.Of([1, 2, 3, 11111]);
    var r := empty.Contains(empty);
    assert r;
    r := small.Contains(empty);
    assert r;
    r := small.Contains(one);
    assert r;
    r := small.Contains(small);
    assert r;
    assert 11111 in far.elems && 11111 !in small.elems;
    r := small.Contains(far);
    assert !r;
    r := wide.Contains(far);
    assert r;
    assert 2 in small.elems && 2 !in one.elems;
    r := one.Contains(small);
    assert !r;
  }
}

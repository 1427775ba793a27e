/**
 * The keyed object passed between the stages of the stream engine
 * (concourse/stream.go, `Object[T]`). Objects are values here: a clone can
 * never be changed through the original, which is what the source gets by
 * always building fresh maps.
 */
module Objects {

  type Keyword = string

  type Object<T> = map<Keyword, T>

  /** `Object.Clone`: a fresh map with the same entries. */
  function Clone<T>(o: Object<T>): (r: Object<T>)
    ensures r.Keys == o.Keys
    ensures forall k :: k in r ==> r[k] == o[k]
  {
    map k | k in o :: o[k]
  }

  /**
   * `Object.Concat`: a clone of `obj` in which every entry of `other` is
   * written over, so `other` wins on shared keys; `obj` itself is unchanged.
   */
  function Concat<T>(obj: Object<T>, other: Object<T>): (r: Object<T>)
    ensures r.Keys == obj.Keys + other.Keys
    ensures forall k :: k in other ==> r[k] == other[k]
    ensures forall k :: k in obj && k !in other ==> r[k] == obj[k]
  {
    Clone(obj) + other
  }

  /** No key present in both objects has different values. */
  predicate Agree<T(==)>(a: Object<T>, b: Object<T>) {
    forall k :: k in a && k in b ==> a[k] == b[k]
  }

  /** `a` is contained in `b`: every entry of `a` is an entry of `b`. */
  predicate Extends<T(==)>(b: Object<T>, a: Object<T>) {
    forall k :: k in a ==> k in b && b[k] == a[k]
  }

  /**
   * When the two objects agree, their concatenation extends both of them and
   * does not depend on the order of the arguments.
   */
  lemma ConcatOfAgreeing<T>(a: Object<T>, b: Object<T>)
    requires Agree(a, b)
    ensures Extends(Concat(a, b), a) && Extends(Concat(a, b), b)
    ensures Concat(a, b) == Concat(b, a)
  {
    var ab, ba := Concat(a, b), Concat(b, a);
    assert ab.Keys == ba.Keys;
    forall k | k in ab ensures ab[k] == ba[k] {
      if k in a && k in b {
        assert a[k] == b[k];
      }
    }
  }

  /** Concatenation never loses a key and keeps every entry of `other`. */
  lemma ConcatExtendsOther<T>(obj: Object<T>, other: Object<T>)
    ensures Extends(Concat(obj, other), other)
    ensures obj.Keys <= Concat(obj, other).Keys
  {
  }

  /** No keyword appears twice (the keys of a Go map). */
  predicate Distinct(names: seq<Keyword>) {
    forall i, j :: 0 <= i < j < |names| ==> names[i] != names[j]
  }

  /** Distinct keywords make a set as large as the list. */
  lemma {:induction false} DistinctCard(names: seq<Keyword>)
    requires Distinct(names)
    ensures |set n | n in names| == |names|
  {
    if names != [] {
      var rest := names[1..];
      DistinctCard(rest);
      assert (set n | n in names) == {names[0]} + (set n | n in rest);
      assert names[0] !in (set n | n in rest);
    }
  }
}

/**
 * Container pieces shared by the list-like, collection and map builders:
 * how big a container is, which empty container Jackson makes for a type,
 * copying an array into a collection, and the map that successive puts build.
 */
module Containers {
  import opened Types
  import opened Settings
  import opened AbstractTypeHandler
  import Draws

  /** The sizes a container may be given under the settings. */
  predicate SizeAllowed(s: SettingsData, n: int)
  {
    if s.randomContainerSize then s.minContainerSize <= n <= s.maxContainerSize
    else n == s.defaultContainerSize
  }

  /**
   * The size-selection rule of ListLikeTypeBuilder and MapTypeBuilder: a draw
   * between the container bounds when sizes are random, the default size
   * otherwise (which may be negative).
   */
  method ContainerSize(s: SettingsData) returns (r: Result<int>)
    ensures r.Err? <==> s.randomContainerSize && s.maxContainerSize < s.minContainerSize
    ensures r.Err? ==> r.error == IllegalArgument(MinGreaterThanMax)
    ensures r.Ok? ==> SizeAllowed(s, r.value)
  {
    if s.randomContainerSize {
      r := Draws.NumberFromRange(s.minContainerSize, s.maxContainerSize);
    } else {
      r := Ok(s.defaultContainerSize);
    }
  }

  /** With a non-negative lower bound, a random size is never negative. */
  lemma RandomSizesAreNatural(s: SettingsData, n: int)
    requires s.randomContainerSize && ValidData(s)
    requires SizeAllowed(s, n)
    ensures 0 <= n
  {
  }

  /**
   * convertValue(EMPTY_LIST, type): an empty collection of the concrete class
   * registered for the raw class, or of the raw class itself (whose Jackson
   * default implementation the model does not name).
   */
  function EmptyCollection(m: TypeMapping, t: TypeId): (c: Value)
    requires t.Coll?
    ensures t.shape == ListShape ==> c.ListV? && c.elems == []
    ensures t.shape == SetShape ==> c.SetV? && c.members == {}
  {
    var cls := FindAbstractTypeDefaultJavaType(m, Erase(t));
    if t.shape == ListShape then ListV(cls, []) else SetV(cls, {})
  }

  /** convertValue(EMPTY_MAP, raw class): an empty map of the registered class, or of the raw class. */
  function EmptyMap(m: TypeMapping, t: TypeId): (c: Value)
    requires t.MapT?
    ensures c.MapV? && c.entries == map[]
  {
    MapV(FindAbstractTypeDefaultJavaType(m, Erase(t)), map[])
  }

  /**
   * CollectionTypeBuilder's copy of the generated array into the empty
   * collection, as written: Array.getLength on a null array throws
   * NullPointerException. A list keeps every element in order; a set keeps
   * each distinct element once.
   */
  method CopyIntoCollection(objs: Value, coll: Value) returns (r: Result<Value>)
    requires objs == Null || objs.ArrV?
    requires coll.ListV? || coll.SetV?
    ensures objs == Null ==> r == Err(NullPointer)
    ensures objs.ArrV? && coll.ListV? ==> r == Ok(ListV(coll.lcls, coll.elems + objs.elems))
    ensures objs.ArrV? && coll.SetV? ==> r == Ok(SetV(coll.scls, coll.members + set x | x in objs.elems))
  {
    if objs == Null {
      return Err(NullPointer);
    }
    var c := coll;
    var i := 0;
    while i < |objs.elems|
      invariant 0 <= i <= |objs.elems|
      invariant coll.ListV? ==> c == ListV(coll.lcls, coll.elems + objs.elems[..i])
      invariant coll.SetV? ==> c == SetV(coll.scls, coll.members + set x | x in objs.elems[..i])
    {
      if c.ListV? {
        c := ListV(c.lcls, c.elems + [objs.elems[i]]);
      } else {
        c := SetV(c.scls, c.members + {objs.elems[i]});
      }
      assert objs.elems[..i + 1] == objs.elems[..i] + [objs.elems[i]];
      i := i + 1;
    }
    assert objs.elems[..i] == objs.elems;
    return Ok(c);
  }

  /** The map that successive put(keys[i], vals[i]) calls build from an empty map. */
  function MapOfPairs(keys: seq<Value>, vals: seq<Value>): map<Value, Value>
    requires |keys| == |vals|
  {
    if |keys| == 0 then map[]
    else MapOfPairs(keys[..|keys| - 1], vals[..|vals| - 1])[keys[|keys| - 1] := vals[|vals| - 1]]
  }

  /** The keys of the map are exactly the keys put, and there are at most as many entries as puts. */
  lemma {:induction false} MapOfPairsKeys(keys: seq<Value>, vals: seq<Value>)
    requires |keys| == |vals|
    ensures MapOfPairs(keys, vals).Keys == set k | k in keys
    ensures |MapOfPairs(keys, vals)| <= |keys|
  {
    if |keys| > 0 {
      var n := |keys| - 1;
      MapOfPairsKeys(keys[..n], vals[..n]);
      assert keys == keys[..n] + [keys[n]];
      var m := MapOfPairs(keys[..n], vals[..n]);
      assert m[keys[n] := vals[n]].Keys == m.Keys + {keys[n]};
      if keys[n] in m {
        assert m[keys[n] := vals[n]].Keys == m.Keys;
      }
    }
  }

  /** Each key maps to the value of its last put. */
  lemma {:induction false} MapOfPairsLastWins(keys: seq<Value>, vals: seq<Value>, i: int)
    requires |keys| == |vals|
    requires 0 <= i < |keys|
    requires forall j :: i < j < |keys| ==> keys[j] != keys[i]
    ensures keys[i] in MapOfPairs(keys, vals) && MapOfPairs(keys, vals)[keys[i]] == vals[i]
  {
    var n := |keys| - 1;
    if i < n {
      MapOfPairsLastWins(keys[..n], vals[..n], i);
    }
  }

  predicate Distinct<T(==)>(s: seq<T>)
  {
    forall i, j :: 0 <= i < j < |s| ==> s[i] != s[j]
  }

  /** Pairwise distinct keys give one entry per put. */
  lemma {:induction false} MapOfPairsDistinct(keys: seq<Value>, vals: seq<Value>)
    requires |keys| == |vals|
    requires Distinct(keys)
    ensures |MapOfPairs(keys, vals)| == |keys|
  {
    if |keys| > 0 {
      var n := |keys| - 1;
      MapOfPairsDistinct(keys[..n], vals[..n]);
      MapOfPairsKeys(keys[..n], vals[..n]);
      var m := MapOfPairs(keys[..n], vals[..n]);
      assert keys[n] !in m;
      assert m[keys[n] := vals[n]].Keys == m.Keys + {keys[n]};
    }
  }
}

/**
 * AbstractTypeHandler: which concrete class stands in for an abstract class
 * or interface. Keys and values are raw classes.
 */
module AbstractTypeHandler {
  import opened Types

  type TypeMapping = map<TypeId, TypeId>

  /** Every registered class is a raw class. */
  predicate RawMapping(m: TypeMapping)
  {
    forall c :: c in m ==> IsRaw(c) && IsRaw(m[c])
  }

  /** findAbstractType: the class registered for c, if any. */
  function FindAbstractType(m: TypeMapping, c: TypeId): (r: Option<TypeId>)
    ensures r.Some? <==> c in m
    ensures r.Some? ==> r.value == m[c]
  {
    if c in m then Some(m[c]) else None
  }

  /** findAbstractTypeAsJavaType: the class registered for t's raw class, as a type. */
  function FindAbstractTypeAsJavaType(m: TypeMapping, t: TypeId): (r: Option<TypeId>)
    ensures r.Some? <==> Erase(t) in m
    ensures r.Some? ==> r.value == m[Erase(t)]
  {
    FindAbstractType(m, Erase(t))
  }

  /**
   * findAbstractTypeDefaultJavaType: the registered class for t's raw class,
   * or t itself when there is none. A substituted type is a raw class: t's
   * type parameters do not carry over.
   */
  function FindAbstractTypeDefaultJavaType(m: TypeMapping, t: TypeId): (r: TypeId)
    ensures Erase(t) in m ==> r == m[Erase(t)]
    ensures Erase(t) in m && RawMapping(m) ==> IsRaw(r)
    ensures Erase(t) !in m ==> r == t
  {
    var found := FindAbstractTypeAsJavaType(m, t);
    if found.None? then t else found.value
  }

  /** With no chains (no registered class is itself registered), substitution is idempotent. */
  lemma {:induction false} SubstitutionIdempotent(m: TypeMapping, t: TypeId)
    requires RawMapping(m)
    requires forall c :: c in m ==> m[c] !in m
    ensures FindAbstractTypeDefaultJavaType(m, FindAbstractTypeDefaultJavaType(m, t))
         == FindAbstractTypeDefaultJavaType(m, t)
  {
    var r := FindAbstractTypeDefaultJavaType(m, t);
    if Erase(t) in m {
      EraseIsRaw(r);
      assert Erase(r) == r;
    }
  }

  class AbstractTypeHandler {
    var defaultTypeMap: TypeMapping

    predicate Valid()
      reads this
    {
      RawMapping(defaultTypeMap)
    }

    constructor ()
      ensures Valid()
      ensures defaultTypeMap == map[]
    {
      defaultTypeMap := map[];
    }

    /** registerAbstractType: a later registration for the same class replaces the earlier one. */
    method RegisterAbstractType(whenThisType: TypeId, useThisType: TypeId)
      requires Valid()
      requires IsRaw(whenThisType) && IsRaw(useThisType)
      modifies this
      ensures Valid()
      ensures defaultTypeMap == old(defaultTypeMap)[whenThisType := useThisType]
    {
      defaultTypeMap := defaultTypeMap[whenThisType := useThisType];
    }

    /** removeAbstractType: drops the registration for c and returns what it was. */
    method RemoveAbstractType(c: TypeId) returns (r: Option<TypeId>)
      requires Valid()
      modifies this
      ensures Valid()
      ensures r == FindAbstractType(old(defaultTypeMap), c)
      ensures defaultTypeMap == old(defaultTypeMap) - {c}
    {
      r := FindAbstractType(defaultTypeMap, c);
      defaultTypeMap := defaultTypeMap - {c};
    }

    method RemoveAllAbstractTypes()
      modifies this
      ensures Valid()
      ensures defaultTypeMap == map[]
    {
      defaultTypeMap := map[];
    }
  }
}

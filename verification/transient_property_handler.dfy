/**
 * TransientPropertyHandler: per raw class, the names of properties to skip.
 * A class with an entry may have an empty set (addProperties with no names);
 * removeProperties drops an entry once its set becomes empty.
 */
module TransientPropertyHandler {
  import opened Types

  type PropertyMap = map<TypeId, set<string>>

  class TransientPropertyHandler {
    var transientPropertiesMap: PropertyMap

    constructor ()
      ensures transientPropertiesMap == map[]
    {
      transientPropertiesMap := map[];
    }

    /** The constructor taking a map rejects null. */
    static method FromMap(m: Option<PropertyMap>) returns (r: Result<TransientPropertyHandler>)
      ensures m.None? <==> r.Err?
      ensures r.Err? ==> r.error == IllegalArgument(NullArgument)
      ensures r.Ok? ==> fresh(r.value) && r.value.transientPropertiesMap == m.value
    {
      if m.None? {
        return Err(IllegalArgument(NullArgument));
      }
      var h := new TransientPropertyHandler();
      h.transientPropertiesMap := m.value;
      return Ok(h);
    }

    /** addProperties: adds the names to the class's set, creating the entry even for no names. */
    method AddProperties(cls: TypeId, properties: seq<string>)
      modifies this
      ensures cls in transientPropertiesMap
      ensures transientPropertiesMap[cls]
           == (if cls in old(transientPropertiesMap) then old(transientPropertiesMap)[cls] else {})
              + set p | p in properties
      ensures forall c :: c in old(transientPropertiesMap) && c != cls ==>
                c in transientPropertiesMap && transientPropertiesMap[c] == old(transientPropertiesMap)[c]
      ensures transientPropertiesMap.Keys == old(transientPropertiesMap).Keys + {cls}
    {
      var propertySet := if cls in transientPropertiesMap then transientPropertiesMap[cls] else {};
      var i := 0;
      while i < |properties|
        invariant 0 <= i <= |properties|
        invariant propertySet
               == (if cls in transientPropertiesMap then transientPropertiesMap[cls] else {})
                  + set p | p in properties[..i]
      {
        propertySet := propertySet + {properties[i]};
        i := i + 1;
      }
      assert properties[..i] == properties;
      transientPropertiesMap := transientPropertiesMap[cls := propertySet];
    }

    /** addProperties for a type: keyed by its raw class. */
    method AddPropertiesOfType(t: TypeId, properties: seq<string>)
      modifies this
      ensures Erase(t) in transientPropertiesMap
      ensures transientPropertiesMap.Keys == old(transientPropertiesMap).Keys + {Erase(t)}
      ensures transientPropertiesMap[Erase(t)]
           == (if Erase(t) in old(transientPropertiesMap) then old(transientPropertiesMap)[Erase(t)] else {})
              + set p | p in properties
      ensures forall c :: c in old(transientPropertiesMap) && c != Erase(t) ==>
                c in transientPropertiesMap && transientPropertiesMap[c] == old(transientPropertiesMap)[c]
    {
      AddProperties(Erase(t), properties);
    }

    /** remove: drops the entry of t's raw class and returns its set. */
    method Remove(t: TypeId) returns (r: Option<set<string>>)
      modifies this
      ensures Erase(t) in old(transientPropertiesMap) ==> r == Some(old(transientPropertiesMap)[Erase(t)])
      ensures Erase(t) !in old(transientPropertiesMap) ==> r == None
      ensures transientPropertiesMap == old(transientPropertiesMap) - {Erase(t)}
    {
      var c := Erase(t);
      r := if c in transientPropertiesMap then Some(transientPropertiesMap[c]) else None;
      transientPropertiesMap := transientPropertiesMap - {c};
    }

    /**
     * removeProperties: removes the names from the class's set and reports
     * whether the set changed; the entry goes once its set is empty.
     */
    method RemoveProperties(cls: TypeId, properties: seq<string>) returns (isRemoved: bool)
      modifies this
      ensures cls !in old(transientPropertiesMap) ==> !isRemoved && transientPropertiesMap == old(transientPropertiesMap)
      ensures cls in old(transientPropertiesMap) ==>
                isRemoved == (exists p :: p in properties && p in old(transientPropertiesMap)[cls])
      ensures cls in old(transientPropertiesMap) ==>
                var rest := old(transientPropertiesMap)[cls] - set p | p in properties;
                transientPropertiesMap == if rest == {} then old(transientPropertiesMap) - {cls}
                                          else old(transientPropertiesMap)[cls := rest]
    {
      if cls !in transientPropertiesMap {
        return false;
      }
      var propertySet := transientPropertiesMap[cls];
      var rest := propertySet - set p | p in properties;
      isRemoved := rest != propertySet;
      if rest == {} {
        transientPropertiesMap := transientPropertiesMap - {cls};
      } else {
        transientPropertiesMap := transientPropertiesMap[cls := rest];
      }
    }

    /** removeProperties for a type: keyed by its raw class. */
    method RemovePropertiesOfType(t: TypeId, properties: seq<string>) returns (isRemoved: bool)
      modifies this
      ensures Erase(t) !in old(transientPropertiesMap) ==> !isRemoved && transientPropertiesMap == old(transientPropertiesMap)
      ensures Erase(t) in old(transientPropertiesMap) ==>
                isRemoved == (exists p :: p in properties && p in old(transientPropertiesMap)[Erase(t)])
      ensures Erase(t) in old(transientPropertiesMap) ==>
                var rest := old(transientPropertiesMap)[Erase(t)] - set p | p in properties;
                transientPropertiesMap == if rest == {} then old(transientPropertiesMap) - {Erase(t)}
                                          else old(transientPropertiesMap)[Erase(t) := rest]
    {
      isRemoved := RemoveProperties(Erase(t), properties);
    }

    /** getProperties: the set of t's raw class, if it has an entry. */
    function GetProperties(t: TypeId): (r: Option<set<string>>)
      reads this
      ensures r.Some? <==> Erase(t) in transientPropertiesMap
      ensures r.Some? ==> r.value == transientPropertiesMap[Erase(t)]
    {
      if Erase(t) in transientPropertiesMap then Some(transientPropertiesMap[Erase(t)]) else None
    }

    /** setTransientPropertiesMap: rejects null, otherwise replaces the map. */
    method SetTransientPropertiesMap(m: Option<PropertyMap>) returns (s: Status)
      modifies this
      ensures m.None? ==> s == Threw(IllegalArgument(NullArgument)) && transientPropertiesMap == old(transientPropertiesMap)
      ensures m.Some? ==> s == Done && transientPropertiesMap == m.value
    {
      if m.None? {
        return Threw(IllegalArgument(NullArgument));
      }
      transientPropertiesMap := m.value;
      return Done;
    }
  }

  /**
   * Adding names to a class without an entry and then removing the same
   * names restores the handler's map; the removal reports a change exactly
   * when there was a name to remove.
   */
  method AddThenRemove(h: TransientPropertyHandler, cls: TypeId, properties: seq<string>) returns (isRemoved: bool)
    requires cls !in h.transientPropertiesMap
    modifies h
    ensures h.transientPropertiesMap == old(h.transientPropertiesMap)
    ensures isRemoved <==> |properties| > 0
  {
    ghost var m := h.transientPropertiesMap;
    h.AddProperties(cls, properties);
    ghost var added := h.transientPropertiesMap;
    assert added[cls] == set p | p in properties;
    isRemoved := h.RemoveProperties(cls, properties);
    assert added - {cls} == m;
    if |properties| > 0 {
      assert properties[0] in properties;
    }
  }
}

/**
 * DefaultWorkflow: the ordered list of type builders. Builders are known
 * by class; a list may hold several of one class. Running the list on a
 * type is Engine.Dispatch, which lives with the builders it calls back into.
 */
module Workflow {
  import opened Types

  class DefaultWorkflow {
    var typeBuilders: seq<BuilderTag>

    constructor ()
      ensures typeBuilders == []
    {
      typeBuilders := [];
    }

    /** findTypeBuilder: the position of the first builder of exactly this class, if any. */
    method FindTypeBuilder(cls: BuilderTag) returns (r: Option<nat>)
      ensures r.None? <==> cls !in typeBuilders
      ensures r.Some? ==> r.value < |typeBuilders| && typeBuilders[r.value] == cls
                          && cls !in typeBuilders[..r.value]
    {
      var i := 0;
      while i < |typeBuilders|
        invariant 0 <= i <= |typeBuilders|
        invariant cls !in typeBuilders[..i]
      {
        if typeBuilders[i] == cls {
          return Some(i);
        }
        i := i + 1;
      }
      assert typeBuilders[..i] == typeBuilders;
      return None;
    }

    /** addTypeBuilder: appends. */
    method AddTypeBuilder(b: BuilderTag)
      modifies this
      ensures typeBuilders == old(typeBuilders) + [b]
    {
      typeBuilders := typeBuilders + [b];
    }

    /** addTypeBuilders: appends all, in order. */
    method AddTypeBuilders(bs: seq<BuilderTag>)
      modifies this
      ensures typeBuilders == old(typeBuilders) + bs
    {
      typeBuilders := typeBuilders + bs;
    }

    /**
     * removeTypeBuilder: removes the first builder of exactly this class;
     * reports whether there was one. The others keep their order.
     */
    method RemoveTypeBuilder(cls: BuilderTag) returns (removed: bool)
      modifies this
      ensures removed <==> cls in old(typeBuilders)
      ensures !removed ==> typeBuilders == old(typeBuilders)
      ensures removed ==> exists i :: 0 <= i < |old(typeBuilders)| && old(typeBuilders)[i] == cls
                            && cls !in old(typeBuilders)[..i]
                            && typeBuilders == old(typeBuilders)[..i] + old(typeBuilders)[i + 1..]
      ensures |typeBuilders| == |old(typeBuilders)| - (if removed then 1 else 0)
    {
      var found := FindTypeBuilder(cls);
      if found.None? {
        return false;
      }
      var i := found.value;
      typeBuilders := typeBuilders[..i] + typeBuilders[i + 1..];
      return true;
    }
  }

  /** Removing a builder class just added to a list without it finds it and restores the list. */
  method AddThenRemove(w: DefaultWorkflow, b: BuilderTag) returns (removed: bool)
    requires b !in w.typeBuilders
    modifies w
    ensures removed && w.typeBuilders == old(w.typeBuilders)
  {
    ghost var bs := w.typeBuilders;
    w.AddTypeBuilder(b);
    removed := w.RemoveTypeBuilder(b);
    ghost var l := bs + [b];
    ghost var i :| 0 <= i < |l| && l[i] == b && b !in l[..i] && w.typeBuilders == l[..i] + l[i + 1..];
    if i < |bs| {
      assert false;
    }
    assert l[..i] == bs && l[i + 1..] == [];
  }
}

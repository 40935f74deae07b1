/**
 * The phases of ConfigurationBasedTypeBuilder that read configurations only
 * (no call back into the workflow): drawing one candidate per configured
 * property, for the object itself and for its properties' own types.
 */
module ConfigurationResolution {
  import opened Types
  import opened Configuration
  import opened Environment
  import Draws

  /** A staged map holds one candidate for each configured property and nothing else. */
  predicate Resolved(data: Data, m: map<string, Value>)
  {
    m.Keys == data.Keys && forall k :: k in data ==> m[k] in data[k]
  }

  /** Some configured property has no candidates: the draw nextInt(0) throws. */
  predicate HasEmptyCandidates(data: Data)
  {
    exists k :: k in data && |data[k]| == 0
  }

  /**
   * resolveByObjectConfig: one candidate drawn for every property of the
   * configuration, in no particular order; a property without candidates
   * throws.
   */
  method ResolveByObjectConfig(data: Data) returns (r: Result<map<string, Value>>)
    ensures r.Err? <==> HasEmptyCandidates(data)
    ensures r.Err? ==> r.error == IllegalArgument(NonPositiveBound)
    ensures r.Ok? ==> Resolved(data, r.value)
  {
    var staged := map[];
    var todo := data.Keys;
    while todo != {}
      invariant todo <= data.Keys
      invariant staged.Keys == data.Keys - todo
      invariant forall k :: k in staged ==> staged[k] in data[k]
      invariant forall k :: k in data && k !in todo ==> |data[k]| > 0
      decreases |todo|
    {
      var k :| k in todo;
      var v := Draws.Choose(data[k]);
      if v.Err? {
        return Err(v.error);
      }
      staged := staged[k := v.value];
      todo := todo - {k};
    }
    return Ok(staged);
  }

  /** A described property the field phase consults: not staged yet, its declared type configured. */
  predicate FieldConfigured(env: Env, staged: map<string, Value>, p: (string, TypeId))
  {
    p.0 !in staged && p.1 in env.typeMap
  }

  /**
   * after is before with the field phase applied: staged entries are kept;
   * each unstaged property whose declared type is configured gains a map
   * drawn from that configuration exactly when the configuration has data;
   * nothing else is added.
   */
  ghost predicate FieldResolved(env: Env, desc: Description, before: map<string, Value>, after: map<string, Value>)
  {
    (forall k :: k in before ==> k in after && after[k] == before[k])
    && (forall j :: 0 <= j < |desc| && FieldConfigured(env, before, desc[j]) ==>
          (desc[j].0 in after <==> |DataOf(env.typeMap[desc[j].1])| > 0))
    && (forall k :: k in after && k !in before ==>
          exists j :: 0 <= j < |desc| && desc[j].0 == k && FieldConfigured(env, before, desc[j])
                      && after[k].RecV? && Resolved(DataOf(env.typeMap[desc[j].1]), after[k].fields))
  }

  /** v is a map drawn for property k, one of the first i properties of desc, from the configuration of its type. */
  ghost predicate DrawnFor(env: Env, desc: seq<(string, TypeId)>, staged: map<string, Value>, i: int, k: string, v: Value)
  {
    exists j :: 0 <= j < i && j < |desc| && desc[j].0 == k && FieldConfigured(env, staged, desc[j])
                && v.RecV? && Resolved(DataOf(env.typeMap[desc[j].1]), v.fields)
  }

  /** The field phase's state after the first i properties of desc. */
  ghost predicate FieldState(env: Env, desc: seq<(string, TypeId)>, staged: map<string, Value>, i: int, acc: map<string, Value>)
  {
    0 <= i <= |desc|
    && (forall k :: k in staged ==> k in acc && acc[k] == staged[k])
    && (forall k :: k in acc && k !in staged ==> DrawnFor(env, desc, staged, i, k, acc[k]))
    && forall j :: 0 <= j < i && FieldConfigured(env, staged, desc[j]) ==>
         !HasEmptyCandidates(DataOf(env.typeMap[desc[j].1]))
         && (desc[j].0 in acc <==> |DataOf(env.typeMap[desc[j].1])| > 0)
  }

  /**
   * One turn of resolveByFieldConfig's loop: property desc[i], when it is
   * unstaged and its declared type is configured, gains a nested map drawn
   * from that configuration unless the configuration has no data.
   */
  method ResolveField(env: Env, desc: Description, staged: map<string, Value>, i: int, acc: map<string, Value>)
    returns (r: Result<map<string, Value>>)
    requires FieldState(env, desc, staged, i, acc) && i < |desc|
    ensures r.Err? <==> FieldConfigured(env, staged, desc[i]) && HasEmptyCandidates(DataOf(env.typeMap[desc[i].1]))
    ensures r.Err? ==> r.error == IllegalArgument(NonPositiveBound)
    ensures r.Ok? ==> FieldState(env, desc, staged, i + 1, r.value)
  {
    var (n, ft) := desc[i];
    assert forall j :: 0 <= j < i ==> desc[j].0 != n;
    StagedBefore(env, desc, staged, i, acc);
    if n in acc || ft !in env.typeMap {
      FieldSkipped(env, desc, staged, i, acc);
      return Ok(acc);
    }
    var fr := ResolveByObjectConfig(DataOf(env.typeMap[ft]));
    if fr.Err? {
      return Err(fr.error);
    }
    FieldDrawn(env, desc, staged, i, acc, fr.value);
    if |fr.value| == 0 {
      return Ok(acc);
    }
    return Ok(acc[n := RecV(fr.value)]);
  }

  /** Before property i, its name is staged in the field phase's map exactly when it was staged before the phase. */
  lemma StagedBefore(env: Env, desc: seq<(string, TypeId)>, staged: map<string, Value>, i: int, acc: map<string, Value>)
    requires FieldState(env, desc, staged, i, acc) && i < |desc|
    requires forall j :: 0 <= j < i ==> desc[j].0 != desc[i].0
    ensures desc[i].0 in acc <==> desc[i].0 in staged
  {
  }

  /** A property that is staged or whose type has no configuration is passed over. */
  lemma FieldSkipped(env: Env, desc: seq<(string, TypeId)>, staged: map<string, Value>, i: int, acc: map<string, Value>)
    requires FieldState(env, desc, staged, i, acc) && i < |desc| && !FieldConfigured(env, staged, desc[i])
    ensures FieldState(env, desc, staged, i + 1, acc)
  {
  }

  /** A configured property gains the map drawn for it, unless that map is empty. */
  lemma FieldDrawn(env: Env, desc: seq<(string, TypeId)>, staged: map<string, Value>, i: int, acc: map<string, Value>,
                   fields: map<string, Value>)
    requires FieldState(env, desc, staged, i, acc) && i < |desc| && FieldConfigured(env, staged, desc[i])
    requires forall j :: 0 <= j < i ==> desc[j].0 != desc[i].0
    requires Resolved(DataOf(env.typeMap[desc[i].1]), fields) && !HasEmptyCandidates(DataOf(env.typeMap[desc[i].1]))
    ensures FieldState(env, desc, staged, i + 1, if |fields| == 0 then acc else acc[desc[i].0 := RecV(fields)])
  {
    var n := desc[i].0;
    assert n !in acc by { StagedBefore(env, desc, staged, i, acc); }
    DrawnKept(env, desc, staged, i, acc, fields);
    ConfiguredKept(env, desc, staged, i, acc, fields);
  }

  /** After a configured property's draw, every added entry is still a map drawn for its property. */
  lemma DrawnKept(env: Env, desc: seq<(string, TypeId)>, staged: map<string, Value>, i: int, acc: map<string, Value>,
                  fields: map<string, Value>)
    requires 0 <= i < |desc| && FieldConfigured(env, staged, desc[i]) && desc[i].0 !in acc
    requires Resolved(DataOf(env.typeMap[desc[i].1]), fields)
    requires forall k :: k in acc && k !in staged ==> DrawnFor(env, desc, staged, i, k, acc[k])
    ensures var a := if |fields| == 0 then acc else acc[desc[i].0 := RecV(fields)];
            forall k :: k in a && k !in staged ==> DrawnFor(env, desc, staged, i + 1, k, a[k])
  {
    var a := if |fields| == 0 then acc else acc[desc[i].0 := RecV(fields)];
    forall k | k in a && k !in staged
      ensures DrawnFor(env, desc, staged, i + 1, k, a[k])
    {
      if k == desc[i].0 {
        assert desc[i].0 == k && FieldConfigured(env, staged, desc[i]);
      } else {
        assert DrawnFor(env, desc, staged, i, k, acc[k]);
      }
    }
  }

  /** After a configured property's draw, each configured property so far is staged exactly when its data is not empty. */
  lemma ConfiguredKept(env: Env, desc: seq<(string, TypeId)>, staged: map<string, Value>, i: int, acc: map<string, Value>,
                       fields: map<string, Value>)
    requires 0 <= i < |desc| && FieldConfigured(env, staged, desc[i]) && desc[i].0 !in acc
    requires forall j :: 0 <= j < i ==> desc[j].0 != desc[i].0
    requires Resolved(DataOf(env.typeMap[desc[i].1]), fields) && !HasEmptyCandidates(DataOf(env.typeMap[desc[i].1]))
    requires forall j :: 0 <= j < i && FieldConfigured(env, staged, desc[j]) ==>
               !HasEmptyCandidates(DataOf(env.typeMap[desc[j].1]))
               && (desc[j].0 in acc <==> |DataOf(env.typeMap[desc[j].1])| > 0)
    ensures var a := if |fields| == 0 then acc else acc[desc[i].0 := RecV(fields)];
            forall j :: 0 <= j < i + 1 && FieldConfigured(env, staged, desc[j]) ==>
              !HasEmptyCandidates(DataOf(env.typeMap[desc[j].1]))
              && (desc[j].0 in a <==> |DataOf(env.typeMap[desc[j].1])| > 0)
  {
    var data := DataOf(env.typeMap[desc[i].1]);
    assert |fields| == 0 <==> |data| == 0 by {
      assert fields.Keys == data.Keys;
    }
  }

  /**
   * resolveByFieldConfig: every described property that is still unstaged
   * and whose declared type (exactly, without abstract-type substitution)
   * has a configuration gets a nested map of candidates drawn from that
   * configuration, unless the configuration has no data. Staged entries
   * stay as they are.
   */
  method ResolveByFieldConfig(env: Env, desc: Description, staged: map<string, Value>)
    returns (r: Result<map<string, Value>>)
    ensures r.Err? <==> exists j :: 0 <= j < |desc| && FieldConfigured(env, staged, desc[j])
                                   && HasEmptyCandidates(DataOf(env.typeMap[desc[j].1]))
    ensures r.Err? ==> r.error == IllegalArgument(NonPositiveBound)
    ensures r.Ok? ==> FieldResolved(env, desc, staged, r.value)
  {
    var acc := staged;
    var i := 0;
    while i < |desc|
      invariant FieldState(env, desc, staged, i, acc)
    {
      var next := ResolveField(env, desc, staged, i, acc);
      if next.Err? {
        return Err(next.error);
      }
      acc, i := next.value, i + 1;
    }
    return Ok(acc);
  }
}

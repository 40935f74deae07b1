/**
 * JrgenContext: the facade that owns the settings, the workflow, the
 * abstract-type handler and the configuration mapping, initialises them,
 * and generates objects. The configuration sets read from the resources are
 * given to initialisation as a value; reading them is not part of the model.
 */
module JrgenContext {
  import opened Types
  import opened Configuration
  import opened Environment
  import Settings
  import Workflow
  import AbstractTypeHandler
  import Engine

  /** LinkedHashSet.add: appends a configuration not already present (by value). */
  function Add(s: seq<ConfigRecord>, c: ConfigRecord): seq<ConfigRecord>
  {
    if c in s then s else s + [c]
  }

  /** LinkedHashSet.addAll: adds each configuration in turn. */
  function AddAll(s: seq<ConfigRecord>, more: seq<ConfigRecord>): (r: seq<ConfigRecord>)
    ensures forall x :: x in r <==> x in s || x in more
    ensures |s| <= |r| && r[..|s|] == s
    ensures Settings.NoDuplicates(s) ==> Settings.NoDuplicates(r)
  {
    if |more| == 0 then s
    else
      var prev := AddAll(s, more[..|more| - 1]);
      assert more == more[..|more| - 1] + [more[|more| - 1]];
      Add(prev, more[|more| - 1])
  }

  /** The classes the namespaces of a configuration resolve to; unknown names are skipped. */
  function ResolvedClasses(ns: set<string>, findClass: string -> Option<TypeId>): set<TypeId>
  {
    set n | n in ns && findClass(n).Some? :: findClass(n).value
  }

  /** Resolving one more namespace adds the class it names, if any. */
  lemma ResolvedStep(done: set<string>, n: string, findClass: string -> Option<TypeId>)
    ensures ResolvedClasses(done + {n}, findClass)
            == ResolvedClasses(done, findClass) + (if findClass(n).Some? then {findClass(n).value} else {})
  {
  }

  /** Mapping one more class to c. */
  lemma PutOne(base: map<TypeId, ConfigRecord>, keys: set<TypeId>, k: TypeId, c: ConfigRecord)
    ensures (base + map x | x in keys :: c)[k := c] == base + map x | x in keys + {k} :: c
  {
  }

  /** The entries one configuration contributes: each class it names maps to it. */
  function ClassesOf(c: ConfigRecord, findClass: string -> Option<TypeId>): map<TypeId, ConfigRecord>
  {
    if c.namespaces.None? then map[]
    else map k | k in ResolvedClasses(c.namespaces.value, findClass) :: c
  }

  /** The mapping buildConfigurationMapping adds, configuration after configuration. */
  function MappingOf(configs: seq<ConfigRecord>, findClass: string -> Option<TypeId>): map<TypeId, ConfigRecord>
  {
    if |configs| == 0 then map[]
    else MappingOf(configs[..|configs| - 1], findClass) + ClassesOf(configs[|configs| - 1], findClass)
  }

  /** One configuration's entries: its classes map to it. */
  lemma ClassesOfMembers(c: ConfigRecord, findClass: string -> Option<TypeId>, k: TypeId)
    ensures k in ClassesOf(c, findClass) ==> ClassesOf(c, findClass)[k] == c
  {
  }

  /** The last configuration decides for its own classes; for others the earlier ones do. */
  lemma MappingOfStep(configs: seq<ConfigRecord>, findClass: string -> Option<TypeId>, k: TypeId)
    requires 0 < |configs|
    ensures var n := |configs| - 1;
            var m := MappingOf(configs, findClass);
            var p := MappingOf(configs[..n], findClass);
            (k in ClassesOf(configs[n], findClass) ==> k in m && m[k] == configs[n])
            && (k !in ClassesOf(configs[n], findClass) ==> (k in m <==> k in p) && (k in p ==> m[k] == p[k]))
  {
    ClassesOfMembers(configs[|configs| - 1], findClass, k);
  }

  /** A class is mapped exactly when some configuration names it. */
  lemma {:induction false} MappingOfDomain(configs: seq<ConfigRecord>, findClass: string -> Option<TypeId>, k: TypeId)
    ensures k in MappingOf(configs, findClass) <==>
              exists i :: 0 <= i < |configs| && k in ClassesOf(configs[i], findClass)
  {
    if |configs| > 0 {
      var n := |configs| - 1;
      MappingOfStep(configs, findClass, k);
      MappingOfDomain(configs[..n], findClass, k);
      if exists i :: 0 <= i < |configs| && k in ClassesOf(configs[i], findClass) {
        var i :| 0 <= i < |configs| && k in ClassesOf(configs[i], findClass);
        if i < n {
          assert configs[..n][i] == configs[i];
        }
      }
      if k in MappingOf(configs[..n], findClass) {
        var i :| 0 <= i < n && k in ClassesOf(configs[..n][i], findClass);
        assert configs[i] == configs[..n][i];
      }
    }
  }

  /** Configuration i names class k and no later configuration does. */
  predicate LastNaming(configs: seq<ConfigRecord>, findClass: string -> Option<TypeId>, k: TypeId, i: int)
  {
    0 <= i < |configs| && k in ClassesOf(configs[i], findClass)
    && forall j :: i < j < |configs| ==> k !in ClassesOf(configs[j], findClass)
  }

  /** A mapped class is mapped to the last configuration that names it. */
  lemma {:induction false} MappingOfLastWins(configs: seq<ConfigRecord>, findClass: string -> Option<TypeId>, k: TypeId)
    requires k in MappingOf(configs, findClass)
    ensures exists i :: LastNaming(configs, findClass, k, i) && MappingOf(configs, findClass)[k] == configs[i]
  {
    var n := |configs| - 1;
    MappingOfStep(configs, findClass, k);
    if k in ClassesOf(configs[n], findClass) {
      assert LastNaming(configs, findClass, k, n);
    } else {
      var prefix := configs[..n];
      MappingOfLastWins(prefix, findClass, k);
      var i :| LastNaming(prefix, findClass, k, i) && MappingOf(prefix, findClass)[k] == prefix[i];
      LastNamingExtends(configs, findClass, k, i);
    }
  }

  /** The last naming in a prefix stays the last when the next configuration does not name the class. */
  lemma LastNamingExtends(configs: seq<ConfigRecord>, findClass: string -> Option<TypeId>, k: TypeId, i: int)
    requires 0 < |configs|
    requires LastNaming(configs[..|configs| - 1], findClass, k, i)
    requires k !in ClassesOf(configs[|configs| - 1], findClass)
    ensures LastNaming(configs, findClass, k, i)
  {
    var n := |configs| - 1;
    forall j | i < j < |configs|
      ensures k !in ClassesOf(configs[j], findClass)
    {
      if j < n {
        assert configs[..n][j] == configs[j];
      }
    }
    assert configs[..n][i] == configs[i];
  }

  /** A class named by a configuration alone is mapped to that configuration. */
  lemma MappingOfUnique(configs: seq<ConfigRecord>, findClass: string -> Option<TypeId>, k: TypeId, i: int)
    requires 0 <= i < |configs| && k in ClassesOf(configs[i], findClass)
    requires forall j :: 0 <= j < |configs| && j != i ==> k !in ClassesOf(configs[j], findClass)
    ensures k in MappingOf(configs, findClass) && MappingOf(configs, findClass)[k] == configs[i]
  {
    MappingOfDomain(configs, findClass, k);
    MappingOfLastWins(configs, findClass, k);
  }

  /** Extending the prefix by one configuration adds that configuration's entries last. */
  lemma MappingOfPrefix(configs: seq<ConfigRecord>, findClass: string -> Option<TypeId>, i: int, base: map<TypeId, ConfigRecord>)
    requires 0 <= i < |configs|
    ensures (base + MappingOf(configs[..i], findClass)) + ClassesOf(configs[i], findClass)
            == base + MappingOf(configs[..i + 1], findClass)
  {
    assert configs[..i + 1][..i] == configs[..i];
    var a := MappingOf(configs[..i], findClass);
    var b := ClassesOf(configs[i], findClass);
    assert MappingOf(configs[..i + 1], findClass) == a + b;
  }

  /**
   * r is what generate(JavaType) returns for t in environment env with
   * `fuel` nested workflow calls allowed, the top-level call's builders
   * having returned `outcomes`: the workflow's object, a null one replaced
   * by an empty map converted to t when isNotNull is set.
   */
  ghost predicate Generated(env: Env, t: TypeId, fuel: nat, outcomes: seq<Result<Value>>, r: Result<Value>)
  {
    var w := if fuel == 0 then Err(StackOverflow) else Engine.Decision(outcomes);
    Engine.WorkflowCall(env, t, fuel, outcomes, w)
    && r == if w == Ok(Null) && env.settings.isNotNull then Convert(env, RecV(map[]), t) else w
  }

  class JrgenContext {
    var configSet: seq<ConfigRecord>
    var typeMap: map<TypeId, ConfigRecord>
    var initialized: bool
    var settings: Settings.Settings
    var workflow: Workflow.DefaultWorkflow
    var typeBuilders: seq<BuilderTag>
    var abstractTypeHandler: AbstractTypeHandler.AbstractTypeHandler
    /**
     * The handler the configuration-based builder holds: it takes the
     * context's handler when it is made, and a later setAbstractTypeHandler
     * does not reach it.
     */
    var configHandler: AbstractTypeHandler.AbstractTypeHandler
    /** Reflection, Jackson and user builders, as the generation sees them. */
    const oracles: Oracles
    /** How many workflow calls may be nested before the stack overflows. */
    const maxDepth: nat

    /** What a generation reads: the current settings, mapping, registrations and builders. */
    function Env(): Env
      reads this, settings, workflow, abstractTypeHandler, configHandler
    {
      Environment.Env(settings.Data(), typeMap, abstractTypeHandler.defaultTypeMap, configHandler.defaultTypeMap,
                      workflow.typeBuilders, oracles)
    }

    /**
     * A new context: no configurations, an empty mapping, a fresh workflow
     * without builders, a fresh abstract-type handler, and not initialised.
     */
    constructor (settings: Settings.Settings, oracles: Oracles, maxDepth: nat)
      ensures configSet == [] && typeMap == map[] && !initialized && typeBuilders == []
      ensures this.settings == settings && this.oracles == oracles && this.maxDepth == maxDepth
      ensures fresh(workflow) && workflow.typeBuilders == []
      ensures fresh(abstractTypeHandler) && abstractTypeHandler.defaultTypeMap == map[]
      ensures configHandler == abstractTypeHandler
    {
      configSet := [];
      typeMap := map[];
      this.settings := settings;
      abstractTypeHandler := new AbstractTypeHandler.AbstractTypeHandler();
      configHandler := abstractTypeHandler;
      workflow := new Workflow.DefaultWorkflow();
      typeBuilders := [];
      initialized := false;
      this.oracles := oracles;
      this.maxDepth := maxDepth;
    }

    /**
     * initializeWorkflow: only when the context's builder list is empty,
     * installs the seven default builders into it and appends them to the
     * workflow. A list that is already filled, by an earlier initialisation
     * or by setTypeBuilders, leaves both as they are.
     */
    method InitializeWorkflow()
      modifies this, workflow
      ensures old(typeBuilders) == [] ==> typeBuilders == Engine.DefaultTypeBuilders
      ensures old(typeBuilders) == [] ==> workflow.typeBuilders == old(workflow.typeBuilders) + Engine.DefaultTypeBuilders
      ensures old(typeBuilders) != [] ==> typeBuilders == old(typeBuilders) && workflow.typeBuilders == old(workflow.typeBuilders)
      ensures workflow == old(workflow) && configSet == old(configSet) && typeMap == old(typeMap)
      ensures initialized == old(initialized) && settings == old(settings) && abstractTypeHandler == old(abstractTypeHandler)
      ensures configHandler == if old(typeBuilders) == [] then abstractTypeHandler else old(configHandler)
    {
      if |typeBuilders| == 0 {
        typeBuilders := Engine.DefaultTypeBuilders;
        workflow.AddTypeBuilders(typeBuilders);
        configHandler := abstractTypeHandler;
      }
    }

    /**
     * buildConfigurationMapping: for each configuration in order, each of
     * its namespaces that names a known class maps that class to it. A
     * configuration without namespaces throws NullPointerException, leaving
     * the entries of the configurations before it in place.
     */
    method BuildConfigurationMapping() returns (st: Status)
      modifies this
      ensures st.Done? <==> forall i :: 0 <= i < |configSet| ==> configSet[i].namespaces.Some?
      ensures st.Done? ==> typeMap == old(typeMap) + MappingOf(configSet, oracles.findClass)
      ensures st.Threw? ==> st.error == NullPointer
                            && exists i :: 0 <= i < |configSet| && configSet[i].namespaces.None?
                                           && (forall j :: 0 <= j < i ==> configSet[j].namespaces.Some?)
                                           && typeMap == old(typeMap) + MappingOf(configSet[..i], oracles.findClass)
      ensures configSet == old(configSet) && initialized == old(initialized) && typeBuilders == old(typeBuilders)
      ensures settings == old(settings) && workflow == old(workflow) && abstractTypeHandler == old(abstractTypeHandler)
        && configHandler == old(configHandler)
    {
      var i := 0;
      while i < |configSet|
        invariant 0 <= i <= |configSet|
        invariant forall j :: 0 <= j < i ==> configSet[j].namespaces.Some?
        invariant typeMap == old(typeMap) + MappingOf(configSet[..i], oracles.findClass)
        invariant configSet == old(configSet) && initialized == old(initialized) && typeBuilders == old(typeBuilders)
        invariant settings == old(settings) && workflow == old(workflow) && abstractTypeHandler == old(abstractTypeHandler)
          && configHandler == old(configHandler)
      {
        var c := configSet[i];
        if c.namespaces.None? {
          return Threw(NullPointer);
        }
        MapNamespaces(c);
        MappingOfPrefix(configSet, oracles.findClass, i, old(typeMap));
        i := i + 1;
      }
      assert configSet[..i] == configSet;
      return Done;
    }

    /** The inner loop of buildConfigurationMapping: every class c's namespaces resolve to maps to c. */
    method MapNamespaces(c: ConfigRecord)
      requires c.namespaces.Some?
      modifies this
      ensures typeMap == old(typeMap) + ClassesOf(c, oracles.findClass)
      ensures configSet == old(configSet) && initialized == old(initialized) && typeBuilders == old(typeBuilders)
      ensures settings == old(settings) && workflow == old(workflow) && abstractTypeHandler == old(abstractTypeHandler)
        && configHandler == old(configHandler)
    {
      var todo, m := c.namespaces.value, typeMap;
      while todo != {}
        invariant todo <= c.namespaces.value
        invariant m == old(typeMap) + map k | k in ResolvedClasses(c.namespaces.value - todo, oracles.findClass) :: c
        modifies {}
        decreases |todo|
      {
        var n :| n in todo;
        var cls := oracles.findClass(n);
        ghost var done := c.namespaces.value - todo;
        ResolvedStep(done, n, oracles.findClass);
        assert c.namespaces.value - (todo - {n}) == done + {n};
        if cls.Some? {
          PutOne(old(typeMap), ResolvedClasses(done, oracles.findClass), cls.value, c);
          m := m[cls.value := c];
        }
        todo := todo - {n};
      }
      assert c.namespaces.value - todo == c.namespaces.value;
      typeMap := m;
    }

    /**
     * initializeContextCE, given the configurations read from the resources
     * in resource order: they join the configuration set (once each), the
     * workflow is initialised, the mapping is rebuilt over the whole set
     * (entries are added or replaced, never removed), and the context is
     * initialised unless the mapping threw.
     */
    method InitializeContext(loaded: seq<ConfigRecord>) returns (st: Status)
      modifies this, workflow
      ensures configSet == AddAll(old(configSet), loaded)
      ensures old(typeBuilders) == [] ==> typeBuilders == Engine.DefaultTypeBuilders
      ensures old(typeBuilders) == [] ==> workflow.typeBuilders == old(workflow.typeBuilders) + Engine.DefaultTypeBuilders
      ensures old(typeBuilders) != [] ==> typeBuilders == old(typeBuilders) && workflow.typeBuilders == old(workflow.typeBuilders)
      ensures st.Done? <==> forall i :: 0 <= i < |configSet| ==> configSet[i].namespaces.Some?
      ensures st.Done? ==> typeMap == old(typeMap) + MappingOf(configSet, oracles.findClass) && initialized
      ensures st.Threw? ==> st.error == NullPointer && initialized == old(initialized)
      ensures settings == old(settings) && workflow == old(workflow) && abstractTypeHandler == old(abstractTypeHandler)
      ensures configHandler == if old(typeBuilders) == [] then abstractTypeHandler else old(configHandler)
    {
      var j := 0;
      while j < |loaded|
        invariant 0 <= j <= |loaded|
        invariant configSet == AddAll(old(configSet), loaded[..j])
        invariant typeBuilders == old(typeBuilders) && initialized == old(initialized) && typeMap == old(typeMap)
        invariant settings == old(settings) && workflow == old(workflow) && abstractTypeHandler == old(abstractTypeHandler)
        invariant configHandler == old(configHandler) && workflow.typeBuilders == old(workflow.typeBuilders)
      {
        if loaded[j] !in configSet {
          configSet := configSet + [loaded[j]];
        }
        assert loaded[..j + 1][..j] == loaded[..j];
        j := j + 1;
      }
      assert loaded[..j] == loaded;
      InitializeWorkflow();
      st := BuildConfigurationMapping();
      if st.Done? {
        initialized := true;
      }
    }

    /**
     * generate(JavaType): throws until the context is initialised; otherwise
     * the workflow's object for the type, except that a null object is
     * replaced by an empty map converted to the type when isNotNull is set.
     * The ghost `outcomes` are what the workflow's builders returned.
     */
    method Generate(t: TypeId) returns (r: Result<Value>, ghost outcomes: seq<Result<Value>>)
      ensures !initialized ==> r == Err(NotInitialized) && outcomes == []
      ensures initialized ==> Generated(Env(), t, maxDepth, outcomes, r)
      ensures initialized && 0 < maxDepth && workflow.typeBuilders == [] ==>
                r == if settings.isNotNull then Convert(Env(), RecV(map[]), t) else Ok(Null)
    {
      outcomes := [];
      if !initialized {
        return Err(NotInitialized), outcomes;
      }
      var env := Env();
      var v;
      v, outcomes := Engine.Dispatch(env, t, maxDepth);
      if v == Ok(Null) && settings.isNotNull {
        r := Convert(env, RecV(map[]), t);
      } else {
        r := v;
      }
    }

    /**
     * generate(JavaType, int): one generate call per element, as many
     * elements as asked for (none for a count that is not positive, even
     * before initialisation); an exception ends the list. The ghost `outs`
     * are the builders' outcomes of each element's top-level workflow call.
     */
    method GenerateN(t: TypeId, count: int) returns (r: Result<seq<Value>>, ghost outs: seq<seq<Result<Value>>>)
      ensures count <= 0 ==> r == Ok([]) && outs == []
      ensures 0 < count && !initialized ==> r == Err(NotInitialized)
      ensures r.Ok? ==>
                |r.value| == |outs| == (if count <= 0 then 0 else count)
                && forall i :: 0 <= i < |outs| ==> Generated(Env(), t, maxDepth, outs[i], Ok(r.value[i]))
      ensures r.Err? && initialized ==> 0 < |outs| && Generated(Env(), t, maxDepth, outs[|outs| - 1], Err(r.error))
      ensures initialized && 0 < maxDepth && workflow.typeBuilders == [] && !settings.isNotNull ==>
                r == Ok(seq(if count <= 0 then 0 else count, _ => Null))
    {
      var list := [];
      outs := [];
      var i := 0;
      while i < count
        invariant 0 <= i && (0 < count ==> i <= count) && (count <= 0 ==> i == 0)
        invariant !initialized ==> i == 0
        invariant initialized && 0 < maxDepth && workflow.typeBuilders == [] && !settings.isNotNull ==> list == seq(i, _ => Null)
        invariant |list| == |outs| == i
        invariant forall j :: 0 <= j < i ==> Generated(Env(), t, maxDepth, outs[j], Ok(list[j]))
      {
        var v;
        ghost var outcomes;
        v, outcomes := Generate(t);
        outs := outs + [outcomes];
        if v.Err? {
          return Err(v.error), outs;
        }
        list := list + [v.value];
        i := i + 1;
      }
      return Ok(list), outs;
    }

    /** generate(Class, Class, Class) for maps: generate on the map type with those key and value types. */
    method GenerateMap(mapClass: string, key: TypeId, value: TypeId) returns (r: Result<Value>, ghost outcomes: seq<Result<Value>>)
      ensures !initialized ==> r == Err(NotInitialized)
      ensures initialized ==> Generated(Env(), MapT(mapClass, key, value), maxDepth, outcomes, r)
      ensures initialized && 0 < maxDepth && workflow.typeBuilders == [] ==>
                r == if settings.isNotNull then Convert(Env(), RecV(map[]), MapT(mapClass, key, value)) else Ok(Null)
    {
      r, outcomes := Generate(MapT(mapClass, key, value));
    }

    method SetSettings(settings: Settings.Settings)
      modifies this
      ensures this.settings == settings
      ensures configSet == old(configSet) && typeMap == old(typeMap) && initialized == old(initialized)
      ensures workflow == old(workflow) && typeBuilders == old(typeBuilders) && abstractTypeHandler == old(abstractTypeHandler)
        && configHandler == old(configHandler)
    {
      this.settings := settings;
    }

    method SetWorkflow(workflow: Workflow.DefaultWorkflow)
      modifies this
      ensures this.workflow == workflow
      ensures configSet == old(configSet) && typeMap == old(typeMap) && initialized == old(initialized)
      ensures settings == old(settings) && typeBuilders == old(typeBuilders) && abstractTypeHandler == old(abstractTypeHandler)
        && configHandler == old(configHandler)
    {
      this.workflow := workflow;
    }

    /** setTypeBuilders: replaces the context's list; the workflow is not told. */
    method SetTypeBuilders(typeBuilders: seq<BuilderTag>)
      modifies this
      ensures this.typeBuilders == typeBuilders
      ensures configSet == old(configSet) && typeMap == old(typeMap) && initialized == old(initialized)
      ensures settings == old(settings) && workflow == old(workflow) && abstractTypeHandler == old(abstractTypeHandler)
        && configHandler == old(configHandler)
    {
      this.typeBuilders := typeBuilders;
    }

    method SetAbstractTypeHandler(abstractTypeHandler: AbstractTypeHandler.AbstractTypeHandler)
      modifies this
      ensures this.abstractTypeHandler == abstractTypeHandler && configHandler == old(configHandler)
      ensures configSet == old(configSet) && typeMap == old(typeMap) && initialized == old(initialized)
      ensures settings == old(settings) && workflow == old(workflow) && typeBuilders == old(typeBuilders)
    {
      this.abstractTypeHandler := abstractTypeHandler;
    }
  }
}
